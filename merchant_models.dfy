/**
 * Merchants and their ledger entries (`Actions`): the status and type
 * constants, the URL-safe identifier generator, and the row-creating
 * operations `Merchant.create` and `Actions.create` over an in-memory store.
 */
module MerchantModels {
  import opened Wrappers
  import opened Json
  import Base64

  // ---------------------------------------------------------------------------
  // Constants

  datatype MerchantStatus = Active | Inactive | OnHold

  datatype ActionType =
    | Created | Profit | Deposited | Recharge | Commission | Withdraw | CashBack | Refund
    | Salary | Correction | Promotion | BillPayment | Fee | Transfer | Payment
    | RetailerDeposit | RetailerWithdraw | Loan | LoanDisburse | LoanRepayment
    | BookTicket | CancelTicket | VoucherPayment | SmsBundlePayment

  /** `WITHDRAWAL_TRANSACTION_TYPES`. */
  predicate IsWithdrawalType(t: ActionType) {
    t == Withdraw || t == Salary || t == Transfer
  }

  datatype ActionStatus = Pending | Completed | Failed

  datatype ReferenceType = BankTransfer | Check | Cash | NoReference

  /** The range of `debug_balance`, a 32-bit `IntegerField`: the code caps it at
      2^31 - 1, and the database refuses anything below -2^31. */
  const MinDebugBalance: int := -0x8000_0000
  const MaxDebugBalance: int := 0x7fff_ffff

  // ---------------------------------------------------------------------------
  // Rows

  /** A merchant wallet. `currentBalance` is in integer minor units. */
  datatype Merchant = Merchant(
    username: string,
    secretKey: string,
    created: int,
    modified: int,
    currentBalance: int,
    status: MerchantStatus,
    creditBlocked: bool)

  /** One ledger entry. `merchant` is the id of the owning merchant. `created` and
      `delta` are the two values `Actions.create` writes although the model class
      does not declare them. */
  datatype Action = Action(
    userFriendlyId: string,
    user: string,
    merchant: nat,
    telco: Option<string>,
    customerPhone: Option<string>,
    actionType: ActionType,
    delta: int,
    created: int,
    reference: string,
    referenceType: ReferenceType,
    comment: Document,
    debugBalance: int,
    status: Option<ActionStatus>,
    failureReason: Option<string>,
    remoteReferenceId: Option<string>,
    bankName: Option<string>)

  /** The arguments of `Actions.create`. An argument left at its Python default is
      passed here as that default: `referenceType` defaults to `Some(Cash)`, the
      other optional arguments to `None`. */
  datatype ActionArgs = ActionArgs(
    user: string,
    merchant: nat,
    telcoUid: Option<string>,
    actionType: ActionType,
    delta: int,
    asof: Option<int>,
    customerPhone: Option<string>,
    reference: Option<string>,
    referenceType: Option<ReferenceType>,
    comment: Option<Document>,
    status: Option<ActionStatus>,
    failureReason: Option<string>,
    remoteReferenceId: Option<string>,
    bankName: Option<string>)

  /** Why `Actions.create` raised: the `assert` on `asof`, the `ValidationError`,
      a `debug_balance` below the 32-bit range of its column, or the database's
      unique constraint on `user_friendly_id`. */
  datatype ActionError = AsofMissing | ReferenceTypeRequired | DebugBalanceOutOfRange | DuplicateFriendlyId

  // ---------------------------------------------------------------------------
  // generate_unique_id

  /** The `re.sub` of `generate_unique_id`: '+' becomes '-', '/' becomes '_', '=' is dropped. */
  function UrlSafe(s: string): string {
    if s == [] then []
    else (if s[0] == '+' then "-" else if s[0] == '/' then "_" else if s[0] == '=' then "" else [s[0]])
         + UrlSafe(s[1..])
  }

  /** `generate_unique_id`, given the 16 random bytes of `uuid4()`. */
  function GenerateUniqueId(seed: seq<Base64.byte>): string {
    UrlSafe(Base64.Encode(seed))
  }

  /** The alphabet of section 5 of RFC 4648 ("base64url"). */
  predicate IsUrlAlphabet(c: char) {
    'A' <= c <= 'Z' || 'a' <= c <= 'z' || '0' <= c <= '9' || c == '-' || c == '_'
  }

  /** Undoes the character substitution: '-' back to '+', '_' back to '/'. */
  function FromUrlSafe(u: string): string {
    if u == [] then []
    else [if u[0] == '-' then '+' else if u[0] == '_' then '/' else u[0]] + FromUrlSafe(u[1..])
  }

  /** Restores the '=' padding dropped from an encoding of length `|u|`. */
  function Repad(u: string): string {
    if |u| % 4 == 2 then u + "==" else if |u| % 4 == 3 then u + "=" else u
  }

  lemma {:induction false} UrlSafeAppend(s: string, t: string)
    ensures UrlSafe(s + t) == UrlSafe(s) + UrlSafe(t)
  {
    if s != [] {
      assert (s + t)[1..] == s[1..] + t;
      UrlSafeAppend(s[1..], t);
    } else {
      assert s + t == t;
    }
  }

  /** On standard-alphabet text the substitution is a bijection onto base64url text. */
  lemma {:induction false} UrlSafeOfAlphabet(s: string)
    requires forall i :: 0 <= i < |s| ==> Base64.IsAlphabet(s[i])
    ensures |UrlSafe(s)| == |s|
    ensures forall i :: 0 <= i < |s| ==> IsUrlAlphabet(UrlSafe(s)[i])
    ensures FromUrlSafe(UrlSafe(s)) == s
  {
    if s != [] {
      UrlSafeOfAlphabet(s[1..]);
      var u := UrlSafe(s);
      assert u[1..] == UrlSafe(s[1..]);
      assert forall i :: 1 <= i < |s| ==> u[i] == UrlSafe(s[1..])[i - 1];
      assert FromUrlSafe(u) == [s[0]] + s[1..];
    }
  }

  lemma PaddingDropped(n: nat)
    ensures UrlSafe(Base64.Padding(n)) == []
  {
    var p := Base64.Padding(n);
    if p == "=" {
      assert UrlSafe(p) == "" + UrlSafe(p[1..]);
    } else if p == "==" {
      assert p[1..] == "=";
      assert UrlSafe(p[1..]) == "" + UrlSafe(p[1..][1..]);
      assert UrlSafe(p) == "" + UrlSafe(p[1..]);
    }
  }

  /** `generate_unique_id` is the substituted encoding with its padding dropped. */
  lemma UniqueIdIsBody(seed: seq<Base64.byte>)
    ensures GenerateUniqueId(seed) == UrlSafe(Base64.EncodeBody(seed))
  {
    UrlSafeAppend(Base64.EncodeBody(seed), Base64.Padding(|seed|));
    PaddingDropped(|seed|);
  }

  lemma RepadBody(seed: seq<Base64.byte>)
    ensures Repad(Base64.EncodeBody(seed)) == Base64.Encode(seed)
  {
    var body := Base64.EncodeBody(seed);
    BodyLengthModFour(|seed|, |body|);
    if |seed| % 3 == 1 {
      assert Repad(body) == body + "==";
    } else if |seed| % 3 == 2 {
      assert Repad(body) == body + "=";
    } else {
      assert Repad(body) == body;
    }
  }

  /** The unpadded length of an encoding of `n` bytes, modulo 4. */
  lemma BodyLengthModFour(n: nat, len: nat)
    requires len == 4 * (n / 3) + (if n % 3 == 0 then 0 else n % 3 + 1)
    ensures n % 3 == 0 ==> len % 4 == 0
    ensures n % 3 == 1 ==> len % 4 == 2
    ensures n % 3 == 2 ==> len % 4 == 3
  {
  }

  /** `generate_unique_id` is the base64url form of its bytes without padding: it never
      contains '+', '/' or '=', and reversing the substitution and re-padding gives
      back a standard encoding that decodes to the original bytes. */
  lemma UniqueIdRoundTrip(seed: seq<Base64.byte>)
    ensures var id := GenerateUniqueId(seed);
      && (forall i :: 0 <= i < |id| ==> IsUrlAlphabet(id[i]))
      && |id| == |Base64.EncodeBody(seed)|
      && Base64.Decode(Repad(FromUrlSafe(id))) == Some(seed)
  {
    var body := Base64.EncodeBody(seed);
    UniqueIdIsBody(seed);
    UrlSafeOfAlphabet(body);
    RepadBody(seed);
    Base64.DecodeEncode(seed);
  }

  /** A 16-byte seed gives a 22-character identifier with no '+', '/' or '='. */
  lemma UniqueIdShape(seed: seq<Base64.byte>)
    requires |seed| == 16
    ensures var id := GenerateUniqueId(seed);
      && |id| == 22
      && (forall i :: 0 <= i < |id| ==> IsUrlAlphabet(id[i]))
      && (forall i :: 0 <= i < |id| ==> id[i] != '+' && id[i] != '/' && id[i] != '=')
  {
    UniqueIdRoundTrip(seed);
  }

  /** Different seeds never give the same identifier. */
  lemma UniqueIdInjective(a: seq<Base64.byte>, b: seq<Base64.byte>)
    requires GenerateUniqueId(a) == GenerateUniqueId(b)
    ensures a == b
  {
    UniqueIdRoundTrip(a);
    UniqueIdRoundTrip(b);
  }

  // ---------------------------------------------------------------------------
  // The user_friendly_id sanitising loop

  predicate StartsWithSign(s: string) {
    |s| > 0 && (s[0] == '-' || s[0] == '=')
  }

  /** `s` without its leading run of '-' and '=' characters. */
  function WithoutSignPrefix(s: string): string
    decreases |s|
  {
    if StartsWithSign(s) then WithoutSignPrefix(s[1..]) else s
  }

  /** What `WithoutSignPrefix` removes is exactly the leading run of sign characters:
      the result is a suffix of `s`, every removed character is '-' or '=', and the
      result does not start with either. */
  lemma {:induction false} WithoutSignPrefixSpec(s: string)
    ensures var r := WithoutSignPrefix(s);
      && |r| <= |s| && r == s[|s| - |r|..]
      && (forall i :: 0 <= i < |s| - |r| ==> s[i] == '-' || s[i] == '=')
      && !StartsWithSign(r)
    decreases |s|
  {
    if StartsWithSign(s) {
      WithoutSignPrefixSpec(s[1..]);
    }
  }

  /** The `while True` loop of `Actions.create`: entered only when the id starts with
      '-' or '=', it drops one character at a time until the id no longer does. */
  method StripSignPrefix(id: string) returns (r: string)
    ensures r == WithoutSignPrefix(id)
  {
    r := id;
    if StartsWithSign(r) {
      while true
        invariant StartsWithSign(r)
        invariant WithoutSignPrefix(r) == WithoutSignPrefix(id)
        decreases |r|
      {
        r := r[1..];
        if !StartsWithSign(r) {
          break;
        }
      }
    }
  }

  /** The identifier `Actions.create` stores for an action of type `t`. */
  function FriendlyId(t: ActionType, seed: seq<Base64.byte>): string {
    if t == Withdraw || t == Salary then WithoutSignPrefix(GenerateUniqueId(seed))
    else GenerateUniqueId(seed)
  }

  /** Withdrawals and salaries never get an identifier starting with '-' or '='
      (it is the generated id minus its leading run of those); every other type
      keeps the generated id unchanged. */
  lemma FriendlyIdRule(t: ActionType, seed: seq<Base64.byte>)
    ensures t == Withdraw || t == Salary ==> !StartsWithSign(FriendlyId(t, seed))
    ensures t == Withdraw || t == Salary ==>
      var g, r := GenerateUniqueId(seed), FriendlyId(t, seed);
      |r| <= |g| && r == g[|g| - |r|..] && forall i :: 0 <= i < |g| - |r| ==> g[i] == '-' || g[i] == '='
    ensures t != Withdraw && t != Salary ==> FriendlyId(t, seed) == GenerateUniqueId(seed)
  {
    WithoutSignPrefixSpec(GenerateUniqueId(seed));
  }

  // ---------------------------------------------------------------------------
  // Actions.create: validation, defaults, balance snapshot

  /** `min(int(current_balance), 2147483647)`. */
  function DebugBalance(balance: int): (r: int)
    ensures r <= MaxDebugBalance
    ensures balance <= MaxDebugBalance ==> r == balance
    ensures balance > MaxDebugBalance ==> r == MaxDebugBalance
  {
    if balance < MaxDebugBalance then balance else MaxDebugBalance
  }

  /** The row `Actions.create` writes, or the error it raises, given the sanitised
      identifier and the merchant's current balance. The capped balance is only
      capped from above, so a balance below -2^31 makes the insert raise. */
  function PrepareAction(args: ActionArgs, friendlyId: string, balance: int): (r: Result<Action, ActionError>)
    ensures r.Ok? ==> MinDebugBalance <= r.value.debugBalance <= MaxDebugBalance
  {
    if args.asof.None? then Err(AsofMissing)
    else if args.actionType == Deposited && args.referenceType.None? then Err(ReferenceTypeRequired)
    else if DebugBalance(balance) < MinDebugBalance then Err(DebugBalanceOutOfRange)
    else Ok(Action(
      userFriendlyId := friendlyId,
      user := args.user,
      merchant := args.merchant,
      telco := args.telcoUid,
      customerPhone := args.customerPhone,
      actionType := args.actionType,
      delta := args.delta,
      created := args.asof.value,
      reference := if args.reference.None? then "" else args.reference.value,
      referenceType := if args.referenceType.None? then NoReference else args.referenceType.value,
      comment := if args.comment.None? then NotJson("") else args.comment.value,
      debugBalance := DebugBalance(balance),
      status := args.status,
      failureReason := args.failureReason,
      remoteReferenceId := args.remoteReferenceId,
      bankName := args.bankName))
  }

  /** The validation ladder of `Actions.create`: a missing `asof` fails first; then a
      deposit with an explicit `None` reference type; then a balance below the
      32-bit range; anything else yields a row. */
  lemma PrepareActionErrors(args: ActionArgs, friendlyId: string, balance: int)
    ensures args.asof.None? ==> PrepareAction(args, friendlyId, balance) == Err(AsofMissing)
    ensures args.asof.Some? && args.actionType == Deposited && args.referenceType.None? ==>
      PrepareAction(args, friendlyId, balance) == Err(ReferenceTypeRequired)
    ensures args.asof.Some? && !(args.actionType == Deposited && args.referenceType.None?)
            && balance < MinDebugBalance ==>
      PrepareAction(args, friendlyId, balance) == Err(DebugBalanceOutOfRange)
    ensures PrepareAction(args, friendlyId, balance).Ok? <==>
      args.asof.Some? && !(args.actionType == Deposited && args.referenceType.None?) && MinDebugBalance <= balance
  {
  }

  /** The defaults `Actions.create` fills in, and the fields it copies. */
  lemma PrepareActionDefaults(args: ActionArgs, friendlyId: string, balance: int)
    requires PrepareAction(args, friendlyId, balance).Ok?
    ensures var a := PrepareAction(args, friendlyId, balance).value;
      && (args.referenceType.None? ==> a.referenceType == NoReference)
      && (args.reference.None? ==> a.reference == "")
      && (args.comment.None? ==> a.comment == NotJson(""))
      && (args.reference.Some? ==> a.reference == args.reference.value)
      && a.userFriendlyId == friendlyId && a.created == args.asof.value && a.delta == args.delta
      && a.debugBalance == DebugBalance(balance)
  {
  }

  /** No two rows share a `user_friendly_id` (the column is declared unique). */
  ghost predicate UniqueFriendlyIds(actions: seq<Action>) {
    forall i, j :: 0 <= i < j < |actions| ==> actions[i].userFriendlyId != actions[j].userFriendlyId
  }

  predicate HasFriendlyId(actions: seq<Action>, id: string) {
    exists i :: 0 <= i < |actions| && actions[i].userFriendlyId == id
  }

  /** The row `Merchant.create` inserts: zero balance, the model's defaults for
      status (ACTIVE) and `credit_blocked` (false), and the two insert instants.
      `created` and `modified` are `auto_now_add` fields, so on insert Django
      replaces the `asof` the code passes with `timezone.now()`, read once for
      each field. */
  function NewMerchant(username: string, secretKey: string, createdNow: int, modifiedNow: int): (m: Merchant)
    ensures m.currentBalance == 0 && m.created == createdNow && m.modified == modifiedNow
    ensures m.status == Active && !m.creditBlocked && m.secretKey == secretKey && m.username == username
  {
    Merchant(username, secretKey, createdNow, modifiedNow, 0, Active, false)
  }

  // ---------------------------------------------------------------------------
  // The Merchant and Actions tables

  /** The `Merchant` and `Actions` tables. A row's id is its position plus one. */
  class MerchantStore {
    var merchants: seq<Merchant>
    var actions: seq<Action>

    ghost predicate Valid()
      reads this
    {
      UniqueFriendlyIds(actions)
    }

    constructor ()
      ensures Valid() && merchants == [] && actions == []
    {
      merchants := [];
      actions := [];
    }

    predicate HasMerchant(id: nat)
      reads this
    {
      1 <= id <= |merchants|
    }

    predicate HasAction(id: nat)
      reads this
    {
      1 <= id <= |actions|
    }

    /** Whether some merchant row already belongs to the user `username`. */
    predicate HasProfile(username: string)
      reads this
    {
      exists i :: 0 <= i < |merchants| && merchants[i].username == username
    }

    /** `Merchant.create`: inserts one merchant row and returns its id. The `asof`
        it is given is overwritten by the insert instants `createdNow` and
        `modifiedNow`, so it has no effect on the row. `Merchant.user` is a
        one-to-one field, so a user who already has a merchant profile makes the
        insert fail with an integrity error and nothing is written. */
    method CreateMerchant(username: string, asof: int, secretKey: string, createdNow: int, modifiedNow: int)
      returns (id: Option<nat>)
      requires Valid()
      modifies this
      ensures Valid() && actions == old(actions)
      ensures old(HasProfile(username)) <==> id.None?
      ensures id.None? ==> merchants == old(merchants)
      ensures id.Some? ==>
        && merchants == old(merchants) + [NewMerchant(username, secretKey, createdNow, modifiedNow)]
        && id.value == |merchants|
    {
      if HasProfile(username) {
        id := None;
      } else {
        merchants := merchants + [NewMerchant(username, secretKey, createdNow, modifiedNow)];
        id := Some(|merchants|);
      }
    }

    /** `objects.create` on the Actions table: the unique constraint on
        `user_friendly_id` rejects a row whose identifier is already taken. */
    method InsertAction(row: Action) returns (r: Result<nat, ActionError>)
      requires Valid()
      modifies this
      ensures Valid() && merchants == old(merchants)
      ensures HasFriendlyId(old(actions), row.userFriendlyId) ==>
        r == Err(DuplicateFriendlyId) && actions == old(actions)
      ensures !HasFriendlyId(old(actions), row.userFriendlyId) ==>
        r == Ok(|old(actions)| + 1) && actions == old(actions) + [row]
    {
      if HasFriendlyId(actions, row.userFriendlyId) {
        return Err(DuplicateFriendlyId);
      }
      actions := actions + [row];
      r := Ok(|actions|);
    }

    /** `action.save()` after changing fields other than `user_friendly_id`. */
    method SaveAction(id: nat, row: Action)
      requires Valid() && HasAction(id) && row.userFriendlyId == actions[id - 1].userFriendlyId
      modifies this
      ensures Valid() && merchants == old(merchants)
      ensures actions == old(actions)[id - 1 := row]
    {
      actions := actions[id - 1 := row];
    }

    /** The balance a balance-moving helper leaves on a merchant. */
    method SetBalance(id: nat, balance: int)
      requires Valid() && HasMerchant(id)
      modifies this
      ensures Valid() && actions == old(actions)
      ensures merchants == old(merchants)[id - 1 := old(merchants)[id - 1].(currentBalance := balance)]
    {
      merchants := merchants[id - 1 := merchants[id - 1].(currentBalance := balance)];
    }

    /** The end of a `transaction.atomic()` block that raised: both tables hold
        again what they held when the block began. */
    method Rollback(merchants0: seq<Merchant>, actions0: seq<Action>)
      requires UniqueFriendlyIds(actions0)
      modifies this
      ensures Valid() && merchants == merchants0 && actions == actions0
    {
      merchants := merchants0;
      actions := actions0;
    }

    /** `Actions.create`, given the bytes `uuid4()` would have produced. */
    method CreateAction(args: ActionArgs, seed: seq<Base64.byte>) returns (r: Result<nat, ActionError>)
      requires Valid() && HasMerchant(args.merchant)
      modifies this
      ensures Valid() && merchants == old(merchants)
      ensures var p := PrepareAction(args, FriendlyId(args.actionType, seed),
                                     old(merchants)[args.merchant - 1].currentBalance);
        && (p.Err? ==> r == Err(p.error) && actions == old(actions))
        && (p.Ok? && HasFriendlyId(old(actions), p.value.userFriendlyId) ==>
              r == Err(DuplicateFriendlyId) && actions == old(actions))
        && (p.Ok? && !HasFriendlyId(old(actions), p.value.userFriendlyId) ==>
              r == Ok(|old(actions)| + 1) && actions == old(actions) + [p.value])
    {
      if args.asof.None? {
        return Err(AsofMissing);
      }
      if args.actionType == Deposited && args.referenceType.None? {
        return Err(ReferenceTypeRequired);
      }
      var friendlyId := GenerateUniqueId(seed);
      if args.actionType == Withdraw || args.actionType == Salary {
        friendlyId := StripSignPrefix(friendlyId);
      }
      var balance := merchants[args.merchant - 1].currentBalance;
      var p := PrepareAction(args, friendlyId, balance);
      if p.Err? {
        return Err(p.error);
      }
      r := InsertAction(p.value);
    }
  }
}

/**
 * The settlement ledger: rail accounts, rail transactions, and the three
 * atomic operations `Account.credit`, `Account.reversal` and
 * `Account.process_withdraw`, plus `Transaction.create` and the till code.
 *
 * The balance-moving helpers of the merchant model (`Merchant.deposit`,
 * `Merchant.refund`, `Merchant.process_withdraw_v2`) are not part of this
 * model; each operation receives the helper as a function from the call it
 * makes to what the helper did, and only what the ledger does with that
 * result is modelled.
 */
module TransactionModels {
  import opened Wrappers
  import opened Json
  import opened Text
  import opened MerchantModels

  /** `sucess_dictionary`: the outcome an action status stands for. */
  function SuccessOf(s: ActionStatus): (r: Option<bool>)
    ensures r == Some(true) <==> s == Completed
    ensures r == Some(false) <==> s == Failed
    ensures r == None <==> s == Pending
  {
    match s
    case Completed => Some(true)
    case Failed => Some(false)
    case Pending => None
  }

  datatype AccountStatus = Unavailable | Available | AccountActive | AccountInactive

  /** A rail account; `merchant` is the merchant of the account's customer. */
  datatype Account = Account(merchant: nat, iban: string, title: string, status: AccountStatus)

  datatype TransactionType = TxCredit | TxDebit | TxReversal

  /** A rail settlement record, linked one-to-one to the action `action`. The
      correlation fields hold the values the code hands to the database. */
  datatype Transaction = Transaction(
    account: nat,
    action: nat,
    fromIban: Value,
    toIban: Value,
    bankName: Value,
    reference: Value,
    paymentIdentifier: Value,
    transactionIdentifier: Value,
    transmissionDateTime: Value,
    stan: Value,
    rrn: Value,
    senderName: Value,
    amount: int,
    createdAt: int,
    txType: TransactionType)

  /** The reference `credit` gives a deposit: its id as `f"{id:012}"`. */
  function CreditReference(actionId: nat): string {
    ZFill(NatToDecimal(actionId), 12)
  }

  /** The credit reference is digits only, reads back as the action id, and is
      exactly 12 characters for every id below 10^12. */
  lemma CreditReferenceReadsBack(actionId: nat)
    ensures IsDigits(CreditReference(actionId))
    ensures DecimalToNat(CreditReference(actionId)) == actionId
    ensures actionId < Pow10(12) ==> |CreditReference(actionId)| == 12
  {
    ZFillDecimal(actionId, 12);
  }

  /** `TillCode.till_code`: prefix, base number, and the id zero-filled to 5 digits. */
  function TillCode(prefix: string, baseNumber: string, id: nat): string {
    prefix + baseNumber + ZFill(NatToDecimal(id), 5)
  }

  /** A till code ends in the id's 5-digit form, and two ids never share a till code. */
  lemma TillCodeReadsBack(prefix: string, baseNumber: string, id: nat, other: nat)
    ensures id < 100000 ==> |TillCode(prefix, baseNumber, id)| == |prefix| + |baseNumber| + 5
    ensures var t := TillCode(prefix, baseNumber, id);
      |t| >= |prefix| + |baseNumber| && IsDigits(t[|prefix| + |baseNumber|..])
      && DecimalToNat(t[|prefix| + |baseNumber|..]) == id
    ensures TillCode(prefix, baseNumber, id) == TillCode(prefix, baseNumber, other) ==> id == other
  {
    ZFillDecimal(id, 5);
    ZFillDecimal(other, 5);
    assert Pow10(5) == 100000;
    var t := TillCode(prefix, baseNumber, id);
    assert t[|prefix| + |baseNumber|..] == ZFill(NatToDecimal(id), 5);
    var u := TillCode(prefix, baseNumber, other);
    assert u[|prefix| + |baseNumber|..] == ZFill(NatToDecimal(other), 5);
  }

  /** What a balance-moving helper did: raised, or wrote one new action row and
      left the merchant at `balanceAfter`. */
  datatype HelperOutcome = Raised | Wrote(row: Action, balanceAfter: int)

  /** The arguments `credit` passes to `Merchant.deposit`. */
  datatype DepositCall = DepositCall(merchant: nat, amount: int, comment: Document, bankName: Value, remoteReferenceId: Value)

  /** The arguments `reversal` passes to `Merchant.refund` (the comment is the one it serialises). */
  datatype RefundCall = RefundCall(merchant: nat, amount: int, comment: Document)

  /** The arguments `process_withdraw` passes to `Merchant.process_withdraw_v2`. */
  datatype WithdrawCall = WithdrawCall(merchant: nat, transactionId: Value, success: bool, failureReason: Value)

  /** What `Merchant.process_withdraw_v2` returned: it raised, or it gave back the
      looked-up withdraw action (absent when the response has no "action") and its "refund". */
  datatype WithdrawOutcome = WithdrawRaised | WithdrawProcessed(action: Option<nat>, refund: Option<nat>)

  /** The dictionary a ledger operation returns. `Failure` is `{"success": False}`;
      `FailedWithRefund` is `process_withdraw`'s `{"success": False, "status": "FAILED", "refund": ...}`. */
  datatype LedgerResult = Failure | Success(transaction: nat, action: nat) | FailedWithRefund(refund: Option<nat>)

  const RaastServiceError: string := "Raast Service Error"

  /** The comment of a withdraw action as `reversal` reads it: an object's fields,
      `{}` for text that is not JSON, and `None` (the item assignment raises) for
      any other JSON document. */
  function CommentFields(c: Document): (r: Option<map<string, Value>>)
    ensures c.NotJson? ==> r == Some(map[])
    ensures c.Object? ==> r == Some(c.fields)
    ensures c.NonObject? ==> r.None?
  {
    match c
    case NotJson(_) => Some(map[])
    case Object(fields) => Some(fields)
    case NonObject(_) => None
  }

  /** The comment `reversal` hands to the refund helper. */
  function RefundComment(fields: map<string, Value>, withdrawActionId: nat): map<string, Value> {
    fields["failed_transaction" := JInt(withdrawActionId)]
  }

  /** The refund comment records the failed withdraw and keeps the original's `to_iban`,
      which `reversal` reads back as the reversal's `from_iban`. */
  lemma RefundCommentKeepsToIban(fields: map<string, Value>, withdrawActionId: nat)
    ensures Get(RefundComment(fields, withdrawActionId), "failed_transaction") == JInt(withdrawActionId)
    ensures Get(RefundComment(fields, withdrawActionId), "to_iban") == Get(fields, "to_iban")
    ensures Get(RefundComment(map[], withdrawActionId), "to_iban") == JNull
  {
  }

  /** The range of a 32-bit `IntegerField`. */
  const MinInteger: int := -0x8000_0000
  const MaxInteger: int := 0x7fff_ffff

  /** A value a `CharField(max_length=maxLength)` column accepts: text of at most
      `maxLength` characters, and `None` only where the column is nullable. */
  predicate FitsText(v: Value, maxLength: nat, nullable: bool) {
    match FieldText(v)
    case None => nullable
    case Some(text) => |text| <= maxLength
  }

  /** A text column of a `Transaction` row: its value, its `max_length`, and
      whether it is nullable. */
  datatype TextColumn = TextColumn(value: Value, maxLength: nat, nullable: bool)

  /** The text columns of `t` with their constraints: `to_iban` and `bank_name`
      are NOT NULL and at most 50 characters, `from_iban` is at most 50, the
      others at most 256. */
  function TextColumns(t: Transaction): (cs: seq<TextColumn>)
    ensures |cs| == 10
  {
    [ TextColumn(t.fromIban, 50, true), TextColumn(t.toIban, 50, false), TextColumn(t.bankName, 50, false),
      TextColumn(t.reference, 256, true), TextColumn(t.paymentIdentifier, 256, true),
      TextColumn(t.transactionIdentifier, 256, true), TextColumn(t.transmissionDateTime, 256, true),
      TextColumn(t.stan, 256, true), TextColumn(t.rrn, 256, true), TextColumn(t.senderName, 256, true) ]
  }

  /** Every column accepts its value. */
  predicate ColumnsFit(cs: seq<TextColumn>) {
    |cs| == 0 || (FitsText(cs[0].value, cs[0].maxLength, cs[0].nullable) && ColumnsFit(cs[1..]))
  }

  /** `ColumnsFit` is the check of every column, one by one. */
  lemma {:induction false} ColumnsFitEach(cs: seq<TextColumn>)
    ensures ColumnsFit(cs) <==> forall i :: 0 <= i < |cs| ==> FitsText(cs[i].value, cs[i].maxLength, cs[i].nullable)
  {
    if |cs| > 0 {
      ColumnsFitEach(cs[1..]);
      assert forall i :: 1 <= i < |cs| ==> cs[i] == cs[1..][i - 1];
    }
  }

  /** A row the `Transaction` columns accept: every text column fits, and
      `amount` fits the 32-bit `IntegerField`. Any other row makes the insert
      raise. */
  predicate Storable(t: Transaction) {
    ColumnsFit(TextColumns(t)) && MinInteger <= t.amount <= MaxInteger
  }

  /** A row with no `to_iban`, with an IBAN over 50 characters, or with an amount
      beyond 2^31 - 1 is refused; so is one with no bank name. */
  lemma StorableRefuses(t: Transaction)
    ensures t.toIban == JNull || t.bankName == JNull ==> !Storable(t)
    ensures t.toIban.JStr? && |t.toIban.s| > 50 ==> !Storable(t)
    ensures t.amount > 0x7fff_ffff ==> !Storable(t)
  {
    var cs := TextColumns(t);
    ColumnsFitEach(cs);
    assert cs[1] == TextColumn(t.toIban, 50, false) && cs[2] == TextColumn(t.bankName, 50, false);
  }

  /** The CREDIT row `credit` writes for the deposit action `actionId`. */
  function CreditRow(accountId: nat, actionId: nat, fromIban: Value, toIban: Value, bankName: Value,
                     rrn: Value, stan: Value, transmissionDateTime: Value, senderName: Value,
                     amount: int, createdAt: int): Transaction
  {
    Transaction(
      account := accountId, action := actionId, fromIban := fromIban, toIban := toIban,
      bankName := bankName, reference := JStr(CreditReference(actionId)), paymentIdentifier := JNull,
      transactionIdentifier := JNull, transmissionDateTime := transmissionDateTime,
      stan := stan, rrn := rrn, senderName := senderName, amount := amount,
      createdAt := createdAt, txType := TxCredit)
  }

  /** The REVERSAL row `reversal` writes for the refund action `refundId`; it
      carries the reference of the withdraw it compensates. */
  function ReversalRow(accountId: nat, refundId: nat, fromIban: Value, toIban: Value, bankName: Value,
                       reference: Value, rrn: Value, stan: Value, transmissionDateTime: Value,
                       amount: int, createdAt: int): Transaction
  {
    Transaction(
      account := accountId, action := refundId, fromIban := fromIban, toIban := toIban,
      bankName := bankName, reference := reference, paymentIdentifier := JNull,
      transactionIdentifier := JNull, transmissionDateTime := transmissionDateTime,
      stan := stan, rrn := rrn, senderName := JNull, amount := amount,
      createdAt := createdAt, txType := TxReversal)
  }

  /** The call `reversal` makes to `Merchant.refund` for merchant `m` and the
      withdraw action `withdraw` (id `withdrawId`); `None` when the action's
      comment takes no item assignment and the block raises first. */
  function RefundRequest(m: nat, amount: int, withdraw: Action, withdrawId: nat): (r: Option<RefundCall>)
    ensures r.None? <==> CommentFields(withdraw.comment).None?
    ensures r.Some? ==>
      && r.value.merchant == m && r.value.amount == amount && r.value.comment.Object?
      && Get(r.value.comment.fields, "failed_transaction") == JInt(withdrawId)
      && Get(r.value.comment.fields, "to_iban") == Get(CommentFields(withdraw.comment).value, "to_iban")
  {
    match CommentFields(withdraw.comment)
    case None => None
    case Some(fields) => Some(RefundCall(m, amount, Object(RefundComment(fields, withdrawId))))
  }

  /** The actions after a reversal whose refund row is `refundRow`: the refund is
      appended with its own id as reference, and the withdraw action is FAILED
      with "Raast Service Error" and the refund id as reference. */
  function ReversedActions(actions: seq<Action>, withdrawId: nat, refundRow: Action): (r: seq<Action>)
    requires 1 <= withdrawId <= |actions|
    ensures |r| == |actions| + 1
    ensures forall k :: 0 <= k < |actions| && k != withdrawId - 1 ==> r[k] == actions[k]
    ensures r[withdrawId - 1].status == Some(Failed) && r[withdrawId - 1].failureReason == Some(RaastServiceError)
    ensures r[withdrawId - 1].reference == r[|actions|].reference == NatToDecimal(|actions| + 1)
    ensures r[|actions|] == refundRow.(reference := NatToDecimal(|actions| + 1))
  {
    var reference := NatToDecimal(|actions| + 1);
    (actions + [refundRow.(reference := reference)])[withdrawId - 1 :=
      actions[withdrawId - 1].(status := Some(Failed), failureReason := Some(RaastServiceError), reference := reference)]
  }

  /** Every transaction points at an action of `actions` and every account at a
      merchant of `merchants`, as in a valid ledger. */
  ghost predicate Linkable(accounts: seq<Account>, merchants: seq<Merchant>, actions: seq<Action>,
                           ts: seq<Transaction>) {
    && (forall i :: 0 <= i < |accounts| ==> 1 <= accounts[i].merchant <= |merchants|)
    && (forall i :: 0 <= i < |ts| ==> 1 <= ts[i].action <= |actions|)
  }

  /** What `Account.reversal` does to the tables it starts from: the REVERSAL row
      it appends with the action and merchant tables it leaves, or
      `ReversalRaises` when the atomic block raises and every write is rolled back. */
  datatype ReversalOutcome = ReversalRaises | Reversed(row: Transaction, actions: seq<Action>, merchants: seq<Merchant>)

  function ReversalEffect(accounts: seq<Account>, merchants: seq<Merchant>, actions: seq<Action>, ts: seq<Transaction>,
                          amount: int, accountId: nat, rrn: Value, stan: Value, transmissionDateTime: Value,
                          bankName: Value, withdrawTransactionId: nat, toIban: Value,
                          refund: RefundCall -> HelperOutcome): ReversalOutcome
    requires Linkable(accounts, merchants, actions, ts)
  {
    if !(1 <= accountId <= |accounts|) || !(1 <= withdrawTransactionId <= |ts|)
       || ts[withdrawTransactionId - 1].account != accountId then ReversalRaises
    else
      var m := accounts[accountId - 1].merchant;
      var w := ts[withdrawTransactionId - 1];
      var call := RefundRequest(m, amount, actions[w.action - 1], w.action);
      if call.None? then ReversalRaises
      else match refund(call.value)
        case Raised => ReversalRaises
        case Wrote(refundRow, balanceAfter) =>
          RefundRecorded(merchants, actions, m, w.action, refundRow, balanceAfter,
                         ReversalRow(accountId, |actions| + 1, Get(call.value.comment.fields, "to_iban"), toIban,
                                     bankName, w.reference, rrn, stan, transmissionDateTime, amount, refundRow.created))
  }

  /** The writes of `reversal` after the refund helper has written `refundRow` and
      left merchant `m` at `balanceAfter`, with `row` as the REVERSAL row: they
      raise when the refund row's `user_friendly_id` is taken or `row` does not
      fit the columns. */
  function RefundRecorded(merchants: seq<Merchant>, actions: seq<Action>, m: nat, withdrawId: nat,
                          refundRow: Action, balanceAfter: int, row: Transaction): ReversalOutcome
    requires 1 <= m <= |merchants| && 1 <= withdrawId <= |actions|
  {
    if HasFriendlyId(actions, refundRow.userFriendlyId) || !Storable(row) then ReversalRaises
    else Reversed(row, ReversedActions(actions, withdrawId, refundRow),
                  merchants[m - 1 := merchants[m - 1].(currentBalance := balanceAfter)])
  }

  /** A reversal raises unless the withdraw transaction is on the account, the
      withdraw action's comment takes the item assignment and the refund helper
      writes. */
  lemma ReversalRaisesSpec(accounts: seq<Account>, merchants: seq<Merchant>, actions: seq<Action>, ts: seq<Transaction>,
                           amount: int, accountId: nat, rrn: Value, stan: Value, transmissionDateTime: Value,
                           bankName: Value, withdrawTransactionId: nat, toIban: Value,
                           refund: RefundCall -> HelperOutcome)
    requires Linkable(accounts, merchants, actions, ts)
    ensures var e := ReversalEffect(accounts, merchants, actions, ts, amount, accountId, rrn, stan,
                                    transmissionDateTime, bankName, withdrawTransactionId, toIban, refund);
      && (!(1 <= accountId <= |accounts|) || !(1 <= withdrawTransactionId <= |ts|) ==> e == ReversalRaises)
      && (1 <= accountId <= |accounts| && 1 <= withdrawTransactionId <= |ts| ==>
            var m := accounts[accountId - 1].merchant;
            var w := ts[withdrawTransactionId - 1];
            var fields := CommentFields(actions[w.action - 1].comment);
            && (w.account != accountId || fields.None? ==> e == ReversalRaises)
            && ((w.account == accountId && fields.Some? &&
                 refund(RefundRequest(m, amount, actions[w.action - 1], w.action).value).Raised?) ==> e == ReversalRaises))
  {
  }

  /** When a reversal goes through, the withdraw transaction is on the account,
      its action's comment took the item assignment and the refund helper wrote;
      the REVERSAL row is on the account, carries the withdraw's reference, the
      requested amount and the comment's `to_iban` as sender, and points at the
      appended refund action. */
  lemma ReversedRowSpec(accounts: seq<Account>, merchants: seq<Merchant>, actions: seq<Action>, ts: seq<Transaction>,
                        amount: int, accountId: nat, rrn: Value, stan: Value, transmissionDateTime: Value,
                        bankName: Value, withdrawTransactionId: nat, toIban: Value,
                        refund: RefundCall -> HelperOutcome)
    requires Linkable(accounts, merchants, actions, ts)
    requires ReversalEffect(accounts, merchants, actions, ts, amount, accountId, rrn, stan,
                            transmissionDateTime, bankName, withdrawTransactionId, toIban, refund).Reversed?
    ensures 1 <= accountId <= |accounts| && 1 <= withdrawTransactionId <= |ts|
    ensures var e := ReversalEffect(accounts, merchants, actions, ts, amount, accountId, rrn, stan,
                                    transmissionDateTime, bankName, withdrawTransactionId, toIban, refund);
      var w := ts[withdrawTransactionId - 1];
      var fields := CommentFields(actions[w.action - 1].comment);
      && w.account == accountId && fields.Some?
      && refund(RefundRequest(accounts[accountId - 1].merchant, amount, actions[w.action - 1], w.action).value).Wrote?
      && e.row.account == accountId && e.row.txType == TxReversal
      && e.row.reference == w.reference && e.row.paymentIdentifier == JNull
      && e.row.amount == amount && e.row.toIban == toIban && e.row.bankName == bankName
      && e.row.fromIban == Get(fields.value, "to_iban")
      && e.row.action == |actions| + 1
  {
    var m := accounts[accountId - 1].merchant;
    var w := ts[withdrawTransactionId - 1];
    var call := RefundRequest(m, amount, actions[w.action - 1], w.action);
    var d := refund(call.value);
    RefundRecordedSpec(merchants, actions, m, w.action, d.row, d.balanceAfter,
                       ReversalRow(accountId, |actions| + 1, Get(call.value.comment.fields, "to_iban"), toIban,
                                   bankName, w.reference, rrn, stan, transmissionDateTime, amount, d.row.created));
  }

  /** When a reversal goes through, the withdraw action is failed with "Raast
      Service Error", one action is appended and every other action is kept. */
  lemma ReversedTablesSpec(accounts: seq<Account>, merchants: seq<Merchant>, actions: seq<Action>, ts: seq<Transaction>,
                           amount: int, accountId: nat, rrn: Value, stan: Value, transmissionDateTime: Value,
                           bankName: Value, withdrawTransactionId: nat, toIban: Value,
                           refund: RefundCall -> HelperOutcome)
    requires Linkable(accounts, merchants, actions, ts)
    requires ReversalEffect(accounts, merchants, actions, ts, amount, accountId, rrn, stan,
                            transmissionDateTime, bankName, withdrawTransactionId, toIban, refund).Reversed?
    ensures 1 <= accountId <= |accounts| && 1 <= withdrawTransactionId <= |ts|
    ensures var w := ts[withdrawTransactionId - 1];
      && 1 <= accounts[accountId - 1].merchant <= |merchants| && 1 <= w.action <= |actions|
      && RefundRequest(accounts[accountId - 1].merchant, amount, actions[w.action - 1], w.action).Some?
    ensures var e := ReversalEffect(accounts, merchants, actions, ts, amount, accountId, rrn, stan,
                                    transmissionDateTime, bankName, withdrawTransactionId, toIban, refund);
      var m := accounts[accountId - 1].merchant;
      var w := ts[withdrawTransactionId - 1];
      var d := refund(RefundRequest(m, amount, actions[w.action - 1], w.action).value);
      d.Wrote? && |e.actions| == |actions| + 1
    ensures var e := ReversalEffect(accounts, merchants, actions, ts, amount, accountId, rrn, stan,
                                    transmissionDateTime, bankName, withdrawTransactionId, toIban, refund);
      var m := accounts[accountId - 1].merchant;
      var w := ts[withdrawTransactionId - 1];
      var d := refund(RefundRequest(m, amount, actions[w.action - 1], w.action).value);
      && e.actions[w.action - 1].status == Some(Failed)
      && e.actions[w.action - 1].failureReason == Some(RaastServiceError)
      && (forall k :: 0 <= k < |actions| && k != w.action - 1 ==> e.actions[k] == actions[k])
  {
    var m := accounts[accountId - 1].merchant;
    var w := ts[withdrawTransactionId - 1];
    var call := RefundRequest(m, amount, actions[w.action - 1], w.action);
    var d := refund(call.value);
    RefundRecordedSpec(merchants, actions, m, w.action, d.row, d.balanceAfter,
                       ReversalRow(accountId, |actions| + 1, Get(call.value.comment.fields, "to_iban"), toIban,
                                   bankName, w.reference, rrn, stan, transmissionDateTime, amount, d.row.created));
  }

  /** When a reversal goes through, only the account's merchant changes, to the
      balance the refund left. */
  lemma ReversedMerchantsSpec(accounts: seq<Account>, merchants: seq<Merchant>, actions: seq<Action>, ts: seq<Transaction>,
                           amount: int, accountId: nat, rrn: Value, stan: Value, transmissionDateTime: Value,
                           bankName: Value, withdrawTransactionId: nat, toIban: Value,
                           refund: RefundCall -> HelperOutcome)
    requires Linkable(accounts, merchants, actions, ts)
    requires ReversalEffect(accounts, merchants, actions, ts, amount, accountId, rrn, stan,
                            transmissionDateTime, bankName, withdrawTransactionId, toIban, refund).Reversed?
    ensures 1 <= accountId <= |accounts| && 1 <= withdrawTransactionId <= |ts|
    ensures var w := ts[withdrawTransactionId - 1];
      && 1 <= accounts[accountId - 1].merchant <= |merchants| && 1 <= w.action <= |actions|
      && RefundRequest(accounts[accountId - 1].merchant, amount, actions[w.action - 1], w.action).Some?
    ensures var e := ReversalEffect(accounts, merchants, actions, ts, amount, accountId, rrn, stan,
                                    transmissionDateTime, bankName, withdrawTransactionId, toIban, refund);
      var m := accounts[accountId - 1].merchant;
      var w := ts[withdrawTransactionId - 1];
      var d := refund(RefundRequest(m, amount, actions[w.action - 1], w.action).value);
      d.Wrote? && |e.merchants| == |merchants|
    ensures var e := ReversalEffect(accounts, merchants, actions, ts, amount, accountId, rrn, stan,
                                    transmissionDateTime, bankName, withdrawTransactionId, toIban, refund);
      var m := accounts[accountId - 1].merchant;
      var w := ts[withdrawTransactionId - 1];
      var d := refund(RefundRequest(m, amount, actions[w.action - 1], w.action).value);
      && e.merchants[m - 1] == merchants[m - 1].(currentBalance := d.balanceAfter)
      && (forall k :: 0 <= k < |merchants| && k != m - 1 ==> e.merchants[k] == merchants[k])
  {
    var m := accounts[accountId - 1].merchant;
    var w := ts[withdrawTransactionId - 1];
    var call := RefundRequest(m, amount, actions[w.action - 1], w.action);
    var d := refund(call.value);
    RefundRecordedSpec(merchants, actions, m, w.action, d.row, d.balanceAfter,
                       ReversalRow(accountId, |actions| + 1, Get(call.value.comment.fields, "to_iban"), toIban,
                                   bankName, w.reference, rrn, stan, transmissionDateTime, amount, d.row.created));
  }

  /** Recording a refund goes through exactly when the refund row's
      `user_friendly_id` is free and the REVERSAL row fits the columns. It then
      fails the withdraw action with "Raast Service Error", gives it and the
      appended refund the refund's id as reference, leaves every other action as
      it was, changes only the balance of merchant `m`, and appends `row`. */
  lemma RefundRecordedSpec(merchants: seq<Merchant>, actions: seq<Action>, m: nat, withdrawId: nat,
                           refundRow: Action, balanceAfter: int, row: Transaction)
    requires 1 <= m <= |merchants| && 1 <= withdrawId <= |actions|
    ensures var e := RefundRecorded(merchants, actions, m, withdrawId, refundRow, balanceAfter, row);
      && (e.Reversed? <==> !HasFriendlyId(actions, refundRow.userFriendlyId) && Storable(row))
      && (e.Reversed? ==>
            && e.row == row
            && |e.merchants| == |merchants| && e.merchants[m - 1].currentBalance == balanceAfter
            && (forall k :: 0 <= k < |merchants| && k != m - 1 ==> e.merchants[k] == merchants[k])
            && e.merchants[m - 1] == merchants[m - 1].(currentBalance := balanceAfter)
            && |e.actions| == |actions| + 1
            && e.actions[withdrawId - 1].status == Some(Failed)
            && e.actions[withdrawId - 1].failureReason == Some(RaastServiceError)
            && e.actions[withdrawId - 1].reference == e.actions[|actions|].reference == NatToDecimal(|actions| + 1)
            && e.actions[|actions|] == refundRow.(reference := NatToDecimal(|actions| + 1))
            && (forall k :: 0 <= k < |actions| && k != withdrawId - 1 ==> e.actions[k] == actions[k]))
  {
  }

  /** The rail tables. Each row's id is its position plus one. */
  class Ledger {
    const store: MerchantStore
    var accounts: seq<Account>
    var transactions: seq<Transaction>

    /** Accounts belong to merchants that exist, transactions point at accounts and
        actions that exist, and no action has two transactions (`OneToOneField`). */
    ghost predicate Valid()
      reads this, store
    {
      && store.Valid()
      && (forall i :: 0 <= i < |accounts| ==> store.HasMerchant(accounts[i].merchant))
      && (forall i :: 0 <= i < |transactions| ==>
            HasAccount(transactions[i].account) && store.HasAction(transactions[i].action))
      && (forall i, j :: 0 <= i < j < |transactions| ==> transactions[i].action != transactions[j].action)
    }

    constructor (store: MerchantStore, accounts: seq<Account>)
      requires store.Valid()
      requires forall i :: 0 <= i < |accounts| ==> store.HasMerchant(accounts[i].merchant)
      ensures Valid() && this.store == store && this.accounts == accounts && transactions == []
    {
      this.store := store;
      this.accounts := accounts;
      transactions := [];
    }

    predicate HasAccount(id: nat)
      reads this
    {
      1 <= id <= |accounts|
    }

    predicate HasTransaction(id: nat)
      reads this
    {
      1 <= id <= |transactions|
    }

    /** Some transaction is already linked to the action `actionId`. */
    predicate Linked(actionId: nat)
      reads this
    {
      exists i :: 0 <= i < |transactions| && transactions[i].action == actionId
    }

    /** `Transaction.create`: one new row, refused by the one-to-one constraint when
        its action already has a transaction, and by the columns when they do not
        accept the row. */
    method CreateTransaction(row: Transaction) returns (r: Option<nat>)
      requires Valid() && HasAccount(row.account) && store.HasAction(row.action)
      modifies this
      ensures Valid() && accounts == old(accounts)
      ensures r.None? <==> old(Linked(row.action)) || !Storable(row)
      ensures r.None? ==> transactions == old(transactions)
      ensures r.Some? ==> r.value == |old(transactions)| + 1 && transactions == old(transactions) + [row]
    {
      if exists i :: 0 <= i < |transactions| && transactions[i].action == row.action {
        return None;
      }
      if !Storable(row) {
        return None;
      }
      transactions := transactions + [row];
      r := Some(|transactions|);
    }

    /** `Account.credit`. `deposit` is `Merchant.deposit`; `notifyFails` says whether
        the business lookup or the deposit notification raised, which is logged and
        swallowed. A failure anywhere in the atomic block rolls back every write. */
    method Credit(
      amount: int, accountId: nat, fromIban: Value, toIban: Value, bankName: Value,
      rrn: Value, stan: Value, transmissionDateTime: Value, senderName: Value,
      comment: Document, deposit: DepositCall -> HelperOutcome, notifyFails: bool)
      returns (r: LedgerResult)
      requires Valid()
      modifies this, store
      ensures Valid() && accounts == old(accounts)
      ensures !r.Success? ==>
        r == Failure && transactions == old(transactions)
        && store.actions == old(store.actions) && store.merchants == old(store.merchants)
      ensures
        if !old(HasAccount(accountId)) then r == Failure
        else
          var m := old(accounts)[accountId - 1].merchant;
          var d := deposit(DepositCall(m, amount, comment, bankName, rrn));
          if d.Raised? || HasFriendlyId(old(store.actions), d.row.userFriendlyId) then r == Failure
          else
            var id := |old(store.actions)| + 1;
            var row := CreditRow(accountId, id, fromIban, toIban, bankName, rrn, stan, transmissionDateTime,
                                 senderName, amount, d.row.created);
            if !Storable(row) then r == Failure
            else
              && r == Success(|old(transactions)| + 1, id)
              && store.actions == old(store.actions) + [d.row.(reference := CreditReference(id))]
              && store.merchants == old(store.merchants)[m - 1 := old(store.merchants)[m - 1].(currentBalance := d.balanceAfter)]
              && transactions == old(transactions) + [row]
    {
      if !HasAccount(accountId) {
        return Failure;
      }
      var merchants0 := store.merchants;
      var actions0 := store.actions;
      assert UniqueFriendlyIds(actions0);
      var m := accounts[accountId - 1].merchant;
      var outcome := deposit(DepositCall(m, amount, comment, bankName, rrn));
      if outcome.Raised? {
        return Failure;
      }
      var inserted := store.InsertAction(outcome.row);
      if inserted.Err? {
        return Failure;
      }
      store.SetBalance(m, outcome.balanceAfter);
      var actionId := inserted.value;
      var reference := CreditReference(actionId);
      store.SaveAction(actionId, outcome.row.(reference := reference));
      // The deposit is a new action, so no transaction is linked to it yet.
      assert !Linked(actionId);
      var created := CreateTransaction(CreditRow(accountId, actionId, fromIban, toIban, bankName, rrn, stan,
                                                 transmissionDateTime, senderName, amount, outcome.row.created));
      if created.None? {
        store.Rollback(merchants0, actions0);
        return Failure;
      }
      // Whether or not the notification raises, the committed credit stands.
      r := Success(created.value, actionId);
    }

    /** `Account.reversal`: compensates the withdraw whose transaction is
        `withdrawTransactionId` on this account. `refund` is `Merchant.refund`.
        A failure anywhere in the atomic block rolls back every write. */
    method Reversal(
      amount: int, accountId: nat, rrn: Value, stan: Value, transmissionDateTime: Value,
      bankName: Value, withdrawTransactionId: nat, toIban: Value, refund: RefundCall -> HelperOutcome)
      returns (r: LedgerResult)
      requires Valid()
      modifies this, store
      ensures Valid() && accounts == old(accounts)
      ensures old(Linkable(accounts, store.merchants, store.actions, transactions))
      ensures var e := ReversalEffect(old(accounts), old(store.merchants), old(store.actions), old(transactions),
                                      amount, accountId, rrn, stan, transmissionDateTime, bankName,
                                      withdrawTransactionId, toIban, refund);
        && (e.ReversalRaises? ==>
              r == Failure && transactions == old(transactions)
              && store.actions == old(store.actions) && store.merchants == old(store.merchants))
        && (e.Reversed? ==>
              && r == Success(|old(transactions)| + 1, |old(store.actions)| + 1)
              && transactions == old(transactions) + [e.row]
              && store.actions == e.actions && store.merchants == e.merchants)
    {
      if !HasAccount(accountId) {
        return Failure;
      }
      var m := accounts[accountId - 1].merchant;
      if !HasTransaction(withdrawTransactionId) || transactions[withdrawTransactionId - 1].account != accountId {
        return Failure;
      }
      var withdrawTransaction := transactions[withdrawTransactionId - 1];
      var call := RefundRequest(m, amount, store.actions[withdrawTransaction.action - 1], withdrawTransaction.action);
      if call.None? {
        return Failure;
      }
      var outcome := refund(call.value);
      if outcome.Raised? {
        return Failure;
      }
      // The sender of the refund is the account the withdraw was sent to.
      var fromIban := Get(call.value.comment.fields, "to_iban");
      r := RecordRefund(m, withdrawTransaction.action, outcome.row, outcome.balanceAfter,
                        ReversalRow(accountId, |store.actions| + 1, fromIban, toIban, bankName,
                                    withdrawTransaction.reference, rrn, stan, transmissionDateTime,
                                    amount, outcome.row.created));
    }

    /** The writes of `reversal` once `Merchant.refund` has written `refundRow` and
        left merchant `m` at `balanceAfter`: the refund and the failed withdraw
        action both get the refund's id as reference, and `row` is created. When
        either insert raises, every write is rolled back. */
    method RecordRefund(m: nat, withdrawActionId: nat, refundRow: Action, balanceAfter: int, row: Transaction)
      returns (r: LedgerResult)
      requires Valid() && store.HasMerchant(m) && store.HasAction(withdrawActionId) && HasAccount(row.account)
      requires row.action == |store.actions| + 1
      modifies this, store
      ensures Valid() && accounts == old(accounts)
      ensures var e := RefundRecorded(old(store.merchants), old(store.actions), m, withdrawActionId,
                                      refundRow, balanceAfter, row);
        && (e.ReversalRaises? ==>
              r == Failure && transactions == old(transactions)
              && store.actions == old(store.actions) && store.merchants == old(store.merchants))
        && (e.Reversed? ==>
              && r == Success(|old(transactions)| + 1, row.action)
              && transactions == old(transactions) + [e.row]
              && store.actions == e.actions && store.merchants == e.merchants)
    {
      var merchants0 := store.merchants;
      var actions0 := store.actions;
      assert UniqueFriendlyIds(actions0);
      var inserted := store.InsertAction(refundRow);
      if inserted.Err? {
        return Failure;
      }
      store.SetBalance(m, balanceAfter);
      var refundId := inserted.value;
      var reference := NatToDecimal(refundId);
      store.SaveAction(refundId, refundRow.(reference := reference));
      var withdrawAction := actions0[withdrawActionId - 1];
      store.SaveAction(withdrawActionId, withdrawAction.(status := Some(Failed), failureReason := Some(RaastServiceError),
                                                         reference := reference));
      // The refund is a new action, so no transaction is linked to it yet.
      assert !Linked(refundId);
      var created := CreateTransaction(row);
      if created.None? {
        store.Rollback(merchants0, actions0);
        return Failure;
      }
      r := Success(created.value, refundId);
    }

    /** `Account.process_withdraw`: records the rail's verdict on a pending withdraw.
        `withdraw` is `Merchant.process_withdraw_v2`, whose own writes are not modelled. */
    method ProcessWithdraw(
      amount: int, accountId: nat, bankName: Value, toIban: Value, transactionId: Value,
      status: bool, paymentIdentifier: Value, transactionIdentifier: Value,
      transmissionDateTime: Value, stan: Value, rrn: Value, failureReason: Value,
      withdraw: WithdrawCall -> WithdrawOutcome)
      returns (r: LedgerResult)
      requires Valid()
      modifies this
      ensures Valid() && accounts == old(accounts)
      ensures !r.Success? ==> transactions == old(transactions)
      ensures !old(HasAccount(accountId)) ==> r == Failure
      ensures old(HasAccount(accountId)) ==>
        var account := old(accounts)[accountId - 1];
        var o := withdraw(WithdrawCall(account.merchant, transactionId, status, failureReason));
        && (o.WithdrawRaised? ==> r == Failure)
        && (o.WithdrawProcessed? && !status ==> r == FailedWithRefund(o.refund))
        && (o.WithdrawProcessed? && status ==>
              if o.action.None? || !store.HasAction(o.action.value) || old(Linked(o.action.value)) then
                r == Failure
              else
                var a := o.action.value;
                var wa := store.actions[a - 1];
                var row := Transaction(
                  account := accountId, action := a, fromIban := JStr(account.iban), toIban := toIban,
                  bankName := bankName, reference := JStr(wa.reference),
                  paymentIdentifier := paymentIdentifier, transactionIdentifier := transactionIdentifier,
                  transmissionDateTime := transmissionDateTime, stan := stan, rrn := rrn,
                  senderName := JNull, amount := amount, createdAt := wa.created, txType := TxDebit);
                if !Storable(row) then r == Failure
                else r == Success(|old(transactions)| + 1, a) && transactions == old(transactions) + [row])
    {
      if !HasAccount(accountId) {
        return Failure;
      }
      var account := accounts[accountId - 1];
      var outcome := withdraw(WithdrawCall(account.merchant, transactionId, status, failureReason));
      if outcome.WithdrawRaised? {
        return Failure;
      }
      if !status {
        return FailedWithRefund(outcome.refund);
      }
      // `withdraw_response["action"]` raises when the helper returned no action.
      if outcome.action.None? || !store.HasAction(outcome.action.value) {
        return Failure;
      }
      var a := outcome.action.value;
      var withdrawAction := store.actions[a - 1];
      var created := CreateTransaction(Transaction(
        account := accountId, action := a, fromIban := JStr(account.iban), toIban := toIban,
        bankName := bankName, reference := JStr(withdrawAction.reference),
        paymentIdentifier := paymentIdentifier, transactionIdentifier := transactionIdentifier,
        transmissionDateTime := transmissionDateTime, stan := stan, rrn := rrn,
        senderName := JNull, amount := amount, createdAt := withdrawAction.created, txType := TxDebit));
      if created.None? {
        return Failure;
      }
      r := Success(created.value, a);
    }
  }
}

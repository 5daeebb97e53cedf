/**
 * The rail-facing views: title fetch, credit and reversal. Each view is an
 * ordered ladder of early-return checks, mapped to the codes of
 * `AuthView.RESPONSE_CODES`, that ends in one call into the ledger.
 */
module TransactionViews {
  import opened Wrappers
  import opened Json
  import opened Text
  import opened MerchantModels
  import opened TransactionModels
  import opened CoreViews

  /** The `AuthView` helpers and the limit service the views consult. Their
      definitions are not part of this model, so they are given as functions. */
  datatype Lookups = Lookups(
    isDuplicate: Value -> bool,          // is_duplicate_transaction(rrn)
    amountValid: int -> bool,            // amount_valid(amount)
    fetchAccount: Value -> Option<nat>,  // fetch_account(iban), as an account id
    fetchBankName: Value -> Value,       // fetch_bank_name(imd)
    availableLimit: string -> int)       // MerchantLimits(username).available_credit_limit

  /** What a view answers (always with HTTP status 200). */
  datatype Reply =
    | Rejected(message: Message)
    | Accepted(transactionLogId: string)
    | Title(accountTitle: string, beneficiaryIban: string)

  /** The response body of a reply. */
  function ReplyBody(r: Reply): (body: map<string, string>)
    ensures r.Rejected? ==> body == Rejection(r.message)
    ensures !r.Rejected? ==> "responseCode" in body && body["responseCode"] == Code(ProcessedOk) == "000"
    ensures r.Accepted? ==> "transactionLogId" in body && body["transactionLogId"] == r.transactionLogId
  {
    match r
    case Rejected(m) => Rejection(m)
    case Accepted(id) => map["responseCode" := Code(ProcessedOk), "transactionLogId" := id]
    case Title(title, iban) =>
      map["responseCode" := Code(ProcessedOk), "accountTitle" := title, "beneficiaryIBAN" := iban]
  }

  /** Every account belongs to a merchant in `merchants`. */
  predicate MerchantsExist(accounts: seq<Account>, merchants: seq<Merchant>) {
    forall i :: 0 <= i < |accounts| ==> 1 <= accounts[i].merchant <= |merchants|
  }

  /** `fetch_account(iban)`; an id outside the table counts as no account. */
  function FetchedAccount(c: Lookups, iban: Value, accounts: seq<Account>): (r: Option<nat>)
    ensures r.Some? ==> 1 <= r.value <= |accounts|
  {
    match c.fetchAccount(iban)
    case Some(id) => if 1 <= id <= |accounts| then Some(id) else None
    case None => None
  }

  /** `CreditView.is_limit_available`: the amount may use the whole available limit. */
  predicate IsLimitAvailable(c: Lookups, merchant: Merchant, amount: int) {
    amount <= c.availableLimit(merchant.username)
  }

  /** The "Account Inactive" test both views apply. */
  predicate IsInactive(merchant: Merchant, account: Account) {
    merchant.status != Active || account.status != AccountActive
  }

  /** `TitleFetch.post`. */
  function TitleFetch(data: map<string, Value>, c: Lookups, accounts: seq<Account>): (r: Reply)
    ensures r.Rejected? <==> FetchedAccount(c, Get(data, "toAccountNumber"), accounts).None?
    ensures r.Rejected? ==> r.message == IncorrectAccountNumber
    ensures r.Title? ==>
      var a := accounts[FetchedAccount(c, Get(data, "toAccountNumber"), accounts).value - 1];
      r.accountTitle == a.title && r.beneficiaryIban == a.iban
  {
    match FetchedAccount(c, Get(data, "toAccountNumber"), accounts)
    case None => Rejected(IncorrectAccountNumber)
    case Some(id) => Title(accounts[id - 1].title, accounts[id - 1].iban)
  }

  // ---------------------------------------------------------------- credit

  datatype CreditDecision =
    | CreditRejected(message: Message)
    | CreditProceeds(amount: int, accountId: nat, bankName: Value)

  /** The checks of `CreditView.post` before `Account.credit`, in their order. */
  function CreditGate(data: map<string, Value>, c: Lookups, accounts: seq<Account>, merchants: seq<Merchant>): CreditDecision
    requires MerchantsExist(accounts, merchants)
  {
    match PyInt(Get(data, "transactionAmount"))
    case None => CreditRejected(InvalidAmount)
    case Some(amount) =>
      if c.isDuplicate(Get(data, "rrn")) then CreditRejected(DuplicatePayment)
      else if !c.amountValid(amount) then CreditRejected(InvalidAmount)
      else match FetchedAccount(c, Get(data, "toAccountNumber"), accounts)
        case None => CreditRejected(IncorrectAccountNumber)
        case Some(id) =>
          var account := accounts[id - 1];
          var merchant := merchants[account.merchant - 1];
          if !IsLimitAvailable(c, merchant, amount) then CreditRejected(LimitOut)
          else if IsInactive(merchant, account) then CreditRejected(Message.AccountInactive)
          else if merchant.creditBlocked then CreditRejected(BlockedAccount)
          else
            var bank := c.fetchBankName(Get(data, "fromBankIMD"));
            if !Truthy(bank) then CreditRejected(BankNotFound)
            else CreditProceeds(amount, id, bank)
  }

  /** The credit checks, each assuming the ones before it passed. */
  predicate AmountParses(data: map<string, Value>) {
    PyInt(Get(data, "transactionAmount")).Some?
  }

  function CreditAccount(data: map<string, Value>, c: Lookups, accounts: seq<Account>): Option<nat> {
    FetchedAccount(c, Get(data, "toAccountNumber"), accounts)
  }

  /** The first failing check decides the answer: each rejection happens exactly
      when every earlier check passed and its own check failed, and the credit
      proceeds exactly when all seven pass. An unparseable amount is caught
      before the duplicate check. */
  lemma CreditGateOrder(data: map<string, Value>, c: Lookups, accounts: seq<Account>, merchants: seq<Merchant>)
    requires MerchantsExist(accounts, merchants)
    ensures var g := CreditGate(data, c, accounts, merchants);
      var amount := PyInt(Get(data, "transactionAmount"));
      var dup := c.isDuplicate(Get(data, "rrn"));
      var id := CreditAccount(data, c, accounts);
      && (!AmountParses(data) ==> g == CreditRejected(InvalidAmount))
      && (AmountParses(data) ==>
           && (g == CreditRejected(DuplicatePayment) <==> dup)
           && (g == CreditRejected(InvalidAmount) <==> !dup && !c.amountValid(amount.value))
           && (g == CreditRejected(IncorrectAccountNumber) <==> !dup && c.amountValid(amount.value) && id.None?)
           && (id.Some? && !dup && c.amountValid(amount.value) ==>
                var account := accounts[id.value - 1];
                var merchant := merchants[account.merchant - 1];
                var bank := c.fetchBankName(Get(data, "fromBankIMD"));
                && (g == CreditRejected(LimitOut) <==> !IsLimitAvailable(c, merchant, amount.value))
                && (g == CreditRejected(Message.AccountInactive) <==>
                      IsLimitAvailable(c, merchant, amount.value) && IsInactive(merchant, account))
                && (g == CreditRejected(BlockedAccount) <==>
                      IsLimitAvailable(c, merchant, amount.value) && !IsInactive(merchant, account)
                      && merchant.creditBlocked)
                && (g == CreditRejected(BankNotFound) <==>
                      IsLimitAvailable(c, merchant, amount.value) && !IsInactive(merchant, account)
                      && !merchant.creditBlocked && !Truthy(bank))
                && (g.CreditProceeds? <==>
                      IsLimitAvailable(c, merchant, amount.value) && !IsInactive(merchant, account)
                      && !merchant.creditBlocked && Truthy(bank))
                && (g.CreditProceeds? ==> g == CreditProceeds(amount.value, id.value, bank))))
  {
  }

  /** An unparseable amount gets 010 whatever the helpers would say. */
  lemma CreditAmountCheckedFirst(data: map<string, Value>, c1: Lookups, c2: Lookups,
                                 accounts: seq<Account>, merchants: seq<Merchant>)
    requires MerchantsExist(accounts, merchants)
    requires !AmountParses(data)
    ensures CreditGate(data, c1, accounts, merchants) == CreditGate(data, c2, accounts, merchants)
                                                     == CreditRejected(InvalidAmount)
  {
  }

  /** The limit check is inclusive: an amount equal to the available limit passes it. */
  lemma CreditLimitInclusive(data: map<string, Value>, c: Lookups, accounts: seq<Account>, merchants: seq<Merchant>)
    requires MerchantsExist(accounts, merchants)
    requires AmountParses(data) && CreditAccount(data, c, accounts).Some?
    requires var account := accounts[CreditAccount(data, c, accounts).value - 1];
      PyInt(Get(data, "transactionAmount")).value == c.availableLimit(merchants[account.merchant - 1].username)
    ensures CreditGate(data, c, accounts, merchants) != CreditRejected(LimitOut)
  {
  }

  /** `f"{transmissionDate}{transmissionTime}"`. */
  function TransmissionDateTime(data: map<string, Value>): Value {
    JStr(PyStr(Get(data, "transmissionDate")) + PyStr(Get(data, "transmissionTime")))
  }

  /** `CreditView.post`: a rejection leaves the ledger untouched; otherwise the
      answer is 000 with the new transaction's id exactly when `Account.credit`
      succeeds, with the ledger as `credit` leaves it, and 021 when it does not. */
  method CreditPost(l: Ledger, data: map<string, Value>, c: Lookups,
                    deposit: DepositCall -> HelperOutcome, notifyFails: bool)
    returns (reply: Reply)
    requires l.Valid()
    modifies l, l.store
    ensures l.Valid() && l.accounts == old(l.accounts)
    ensures !reply.Accepted? ==>
      l.transactions == old(l.transactions) && l.store.actions == old(l.store.actions)
      && l.store.merchants == old(l.store.merchants)
    ensures var g := CreditGate(data, c, old(l.accounts), old(l.store.merchants));
      && (g.CreditRejected? ==> reply == Rejected(g.message))
      && (g.CreditProceeds? ==>
            var m := old(l.accounts)[g.accountId - 1].merchant;
            var d := deposit(DepositCall(m, g.amount, Object(data), g.bankName, Get(data, "rrn")));
            if d.Raised? || HasFriendlyId(old(l.store.actions), d.row.userFriendlyId) then
              reply == Rejected(TechnicalProblem)
            else
              var id := |old(l.store.actions)| + 1;
              var row := CreditRow(g.accountId, id, Get(data, "fromAccountNumber"), Get(data, "toAccountNumber"),
                                   g.bankName, Get(data, "rrn"), Get(data, "stan"), TransmissionDateTime(data),
                                   Get(data, "senderName"), g.amount, d.row.created);
              if !Storable(row) then reply == Rejected(TechnicalProblem)
              else
                && reply == Accepted(NatToDecimal(|old(l.transactions)| + 1))
                && l.transactions == old(l.transactions) + [row]
                && l.store.actions == old(l.store.actions) + [d.row.(reference := CreditReference(id))]
                && l.store.merchants
                   == old(l.store.merchants)[m - 1 := old(l.store.merchants)[m - 1].(currentBalance := d.balanceAfter)])
  {
    var g := CreditGate(data, c, l.accounts, l.store.merchants);
    if g.CreditRejected? {
      return Rejected(g.message);
    }
    var r := l.Credit(g.amount, g.accountId, Get(data, "fromAccountNumber"), Get(data, "toAccountNumber"),
                      g.bankName, Get(data, "rrn"), Get(data, "stan"), TransmissionDateTime(data),
                      Get(data, "senderName"), Object(data), deposit, notifyFails);
    if !r.Success? {
      return Rejected(TechnicalProblem);
    }
    reply := Accepted(NatToDecimal(r.transaction));
  }

  // -------------------------------------------------------------- reversal

  /** A transaction on `account` whose payment identifier is `pid`
      (`Transaction.objects.get(account=..., payment_identifier=...)` filter). The
      column compares text, so a `msgid` sent as a number matches the identifier
      spelling it, and `None` matches only a row without one. */
  predicate IsOriginal(t: Transaction, account: nat, pid: Value) {
    t.account == account && FieldText(t.paymentIdentifier) == FieldText(pid)
  }

  /** The ids of all matching transactions, in increasing order. */
  function MatchingIds(ts: seq<Transaction>, account: nat, pid: Value): (ids: seq<nat>)
    ensures forall k :: k in ids <==> 1 <= k <= |ts| && IsOriginal(ts[k - 1], account, pid)
    ensures forall i, j :: 0 <= i < j < |ids| ==> ids[i] < ids[j]
    ensures forall i :: 0 <= i < |ids| ==> ids[i] <= |ts|
  {
    if |ts| == 0 then []
    else
      var prefix := MatchingIds(ts[..|ts| - 1], account, pid);
      if IsOriginal(ts[|ts| - 1], account, pid) then prefix + [|ts|] else prefix
  }

  /** A row appended that does not match leaves the matches as they were. */
  lemma MatchingIdsAppend(ts: seq<Transaction>, t: Transaction, account: nat, pid: Value)
    requires !IsOriginal(t, account, pid)
    ensures MatchingIds(ts + [t], account, pid) == MatchingIds(ts, account, pid)
  {
    assert (ts + [t])[..|ts|] == ts;
  }

  datatype WithdrawLookup = NoOriginal | ManyOriginals | Original(id: nat)

  /** `ReversalView.get_withdraw_transaction`: `None` when nothing matches, the
      one match, or `MultipleObjectsReturned` when several do. */
  function GetWithdrawTransaction(ts: seq<Transaction>, account: nat, pid: Value): (r: WithdrawLookup)
    ensures r.NoOriginal? <==> forall i :: 0 <= i < |ts| ==> !IsOriginal(ts[i], account, pid)
    ensures r.Original? ==>
      1 <= r.id <= |ts| && IsOriginal(ts[r.id - 1], account, pid)
      && forall i :: 0 <= i < |ts| && i != r.id - 1 ==> !IsOriginal(ts[i], account, pid)
    ensures r.ManyOriginals? ==>
      exists i, j :: 0 <= i < j < |ts| && IsOriginal(ts[i], account, pid) && IsOriginal(ts[j], account, pid)
  {
    var ids := MatchingIds(ts, account, pid);
    if |ids| == 0 then
      assert forall i :: 0 <= i < |ts| ==> !IsOriginal(ts[i], account, pid) by {
        forall i | 0 <= i < |ts|
          ensures !IsOriginal(ts[i], account, pid)
        {
          assert (i + 1) !in ids;
        }
      }
      NoOriginal
    else if |ids| == 1 then
      assert ids[0] in ids;
      assert forall i :: 0 <= i < |ts| && i != ids[0] - 1 ==> !IsOriginal(ts[i], account, pid) by {
        forall i | 0 <= i < |ts| && i + 1 != ids[0]
          ensures !IsOriginal(ts[i], account, pid)
        {
          assert (i + 1) !in ids;
        }
      }
      Original(ids[0])
    else
      assert ids[0] in ids && ids[1] in ids;
      assert IsOriginal(ts[ids[0] - 1], account, pid) && IsOriginal(ts[ids[1] - 1], account, pid);
      ManyOriginals
  }

  /** `ReversalView.is_refund_already_processed`: a REVERSAL transaction on the
      same account carries the withdraw's reference. */
  predicate IsRefundAlreadyProcessed(ts: seq<Transaction>, withdraw: Transaction) {
    exists i :: 0 <= i < |ts| && ts[i].account == withdraw.account
      && ts[i].txType == TxReversal && FieldText(ts[i].reference) == FieldText(withdraw.reference)
  }

  datatype ReversalDecision =
    | ReversalRejected(message: Message)
    | ReversalProceeds(amount: int, accountId: nat, withdrawTransaction: nat)

  /** The checks of `ReversalView.post` before `Account.reversal`, in their order.
      An unparseable amount raises inside the outer `try`, which answers 021;
      so does a lookup that finds several originals. */
  function ReversalGate(data: map<string, Value>, c: Lookups, accounts: seq<Account>,
                        merchants: seq<Merchant>, ts: seq<Transaction>): (r: ReversalDecision)
    requires MerchantsExist(accounts, merchants)
    ensures r.ReversalProceeds? ==> 1 <= r.accountId <= |accounts| && 1 <= r.withdrawTransaction <= |ts|
                                    && ts[r.withdrawTransaction - 1].account == r.accountId
  {
    match PyInt(Get(data, "transactionAmount"))
    case None => ReversalRejected(TechnicalProblem)
    case Some(amount) =>
      if c.isDuplicate(Get(data, "rrn")) then ReversalRejected(DuplicatePayment)
      else if !c.amountValid(amount) then ReversalRejected(InvalidAmount)
      else match FetchedAccount(c, Get(data, "accountNumber"), accounts)
        case None => ReversalRejected(IncorrectAccountNumber)
        case Some(id) =>
          var account := accounts[id - 1];
          var merchant := merchants[account.merchant - 1];
          if IsInactive(merchant, account) then ReversalRejected(Message.AccountInactive)
          else if merchant.creditBlocked then ReversalRejected(BlockedAccount)
          else match GetWithdrawTransaction(ts, id, Get(data, "msgid"))
            case NoOriginal => ReversalRejected(NoOriginalTransactionReceived)
            case ManyOriginals => ReversalRejected(TechnicalProblem)
            case Original(t) =>
              if IsRefundAlreadyProcessed(ts, ts[t - 1]) then ReversalRejected(AlreadyReturnedTransaction)
              else ReversalProceeds(amount, id, t)
  }

  /** The reversal ladder: the first failing check decides. Unlike credit, the
      account's credit limit is not consulted and no bank lookup is made. */
  lemma ReversalGateOrder(data: map<string, Value>, c: Lookups, accounts: seq<Account>,
                          merchants: seq<Merchant>, ts: seq<Transaction>)
    requires MerchantsExist(accounts, merchants)
    ensures var g := ReversalGate(data, c, accounts, merchants, ts);
      var amount := PyInt(Get(data, "transactionAmount"));
      var dup := c.isDuplicate(Get(data, "rrn"));
      var id := FetchedAccount(c, Get(data, "accountNumber"), accounts);
      && (!AmountParses(data) ==> g == ReversalRejected(TechnicalProblem))
      && (AmountParses(data) ==>
           && (g == ReversalRejected(DuplicatePayment) <==> dup)
           && (g == ReversalRejected(InvalidAmount) <==> !dup && !c.amountValid(amount.value))
           && (g == ReversalRejected(IncorrectAccountNumber) <==> !dup && c.amountValid(amount.value) && id.None?)
           && (id.Some? && !dup && c.amountValid(amount.value) ==>
                var account := accounts[id.value - 1];
                var merchant := merchants[account.merchant - 1];
                var w := GetWithdrawTransaction(ts, id.value, Get(data, "msgid"));
                && (g == ReversalRejected(Message.AccountInactive) <==> IsInactive(merchant, account))
                && (g == ReversalRejected(BlockedAccount) <==>
                      !IsInactive(merchant, account) && merchant.creditBlocked)
                && (!IsInactive(merchant, account) && !merchant.creditBlocked ==>
                      && (g == ReversalRejected(NoOriginalTransactionReceived) <==> w.NoOriginal?)
                      && (w.ManyOriginals? ==> g == ReversalRejected(TechnicalProblem))
                      && (w.Original? ==>
                            && (g == ReversalRejected(AlreadyReturnedTransaction) <==>
                                  IsRefundAlreadyProcessed(ts, ts[w.id - 1]))
                            && (g.ReversalProceeds? <==> !IsRefundAlreadyProcessed(ts, ts[w.id - 1]))
                            && (g.ReversalProceeds? ==> g == ReversalProceeds(amount.value, id.value, w.id))))))
  {
  }

  /** Two merchant tables that agree on what the gates read: status and the
      credit block. */
  predicate SameStanding(before: seq<Merchant>, after: seq<Merchant>) {
    |before| == |after|
    && forall i :: 0 <= i < |before| ==>
         before[i].status == after[i].status && before[i].creditBlocked == after[i].creditBlocked
         && before[i].username == after[i].username
  }

  /** The REVERSAL row `Account.reversal` appends for the withdraw `w` on `account`. */
  predicate IsReversalOf(t: Transaction, account: nat, w: Transaction) {
    t.account == account && t.txType == TxReversal && t.reference == w.reference
    && t.paymentIdentifier == JNull
  }

  /** What a reversal that passes its checks has established: the amount
      parses and is valid, the rrn is new, the account is found, active and not
      credit-blocked, and the original is the one match. */
  lemma ReversalProceedsFacts(data: map<string, Value>, c: Lookups, accounts: seq<Account>,
                              merchants: seq<Merchant>, ts: seq<Transaction>)
    requires MerchantsExist(accounts, merchants)
    requires ReversalGate(data, c, accounts, merchants, ts).ReversalProceeds?
    ensures var g := ReversalGate(data, c, accounts, merchants, ts);
      var merchant := merchants[accounts[g.accountId - 1].merchant - 1];
      && PyInt(Get(data, "transactionAmount")) == Some(g.amount)
      && !c.isDuplicate(Get(data, "rrn")) && c.amountValid(g.amount)
      && FetchedAccount(c, Get(data, "accountNumber"), accounts) == Some(g.accountId)
      && !IsInactive(merchant, accounts[g.accountId - 1]) && !merchant.creditBlocked
      && GetWithdrawTransaction(ts, g.accountId, Get(data, "msgid")) == Original(g.withdrawTransaction)
      && !IsRefundAlreadyProcessed(ts, ts[g.withdrawTransaction - 1])
  {
  }

  /** A request that passes the amount, duplicate and account checks, on an
      account whose merchant is active and not blocked, and whose original
      already has a REVERSAL row, is answered 011. */
  lemma AlreadyReturnedGate(data: map<string, Value>, c: Lookups, accounts: seq<Account>,
                            merchants: seq<Merchant>, ts: seq<Transaction>, id: nat, t: nat)
    requires MerchantsExist(accounts, merchants)
    requires AmountParses(data) && c.amountValid(PyInt(Get(data, "transactionAmount")).value)
    requires !c.isDuplicate(Get(data, "rrn"))
    requires FetchedAccount(c, Get(data, "accountNumber"), accounts) == Some(id)
    requires var merchant := merchants[accounts[id - 1].merchant - 1];
      !IsInactive(merchant, accounts[id - 1]) && !merchant.creditBlocked
    requires GetWithdrawTransaction(ts, id, Get(data, "msgid")) == Original(t)
    requires IsRefundAlreadyProcessed(ts, ts[t - 1])
    ensures ReversalGate(data, c, accounts, merchants, ts) == ReversalRejected(AlreadyReturnedTransaction)
  {
  }

  /** The REVERSAL row appended after the one original named by an actual
      identifier does not match that identifier, so the original is still the
      one match, and it now has a REVERSAL row. */
  lemma AppendedReversalFound(ts: seq<Transaction>, after: seq<Transaction>, id: nat, pid: Value, t: nat)
    requires GetWithdrawTransaction(ts, id, pid) == Original(t) && pid != JNull
    requires |after| == |ts| + 1 && after[..|ts|] == ts && IsReversalOf(after[|ts|], id, ts[t - 1])
    ensures GetWithdrawTransaction(after, id, pid) == Original(t)
    ensures IsRefundAlreadyProcessed(after, after[t - 1])
  {
    assert after == ts + [after[|ts|]];
    MatchingIdsAppend(ts, after[|ts|], id, pid);
    assert after[t - 1] == ts[t - 1];
  }

  /** With `msgid` None, the appended REVERSAL row, which has no payment
      identifier, matches as well as the original, so the lookup finds several. */
  lemma AppendedReversalMatches(ts: seq<Transaction>, after: seq<Transaction>, id: nat, t: nat)
    requires GetWithdrawTransaction(ts, id, JNull) == Original(t)
    requires |after| == |ts| + 1 && after[..|ts|] == ts && IsReversalOf(after[|ts|], id, ts[t - 1])
    ensures GetWithdrawTransaction(after, id, JNull) == ManyOriginals
  {
    assert after[t - 1] == ts[t - 1];
    assert IsOriginal(after[t - 1], id, JNull) && IsOriginal(after[|ts|], id, JNull);
  }

  /** Merchant tables with the same standing give an account the same standing. */
  lemma StandingKept(accounts: seq<Account>, merchants: seq<Merchant>, merchantsAfter: seq<Merchant>, id: nat)
    requires MerchantsExist(accounts, merchants) && SameStanding(merchants, merchantsAfter)
    requires 1 <= id <= |accounts|
    ensures MerchantsExist(accounts, merchantsAfter)
    ensures var m := accounts[id - 1].merchant;
      && merchantsAfter[m - 1].status == merchants[m - 1].status
      && merchantsAfter[m - 1].creditBlocked == merchants[m - 1].creditBlocked
  {
  }

  /** A retry on the same account as a reversal that went through, with the
      merchants' standing unchanged, finds the same account, still active and
      not blocked, and the first reversal's original is its one match. */
  lemma RetryPassesAccountChecks(data: map<string, Value>, retry: map<string, Value>, c: Lookups,
                                 accounts: seq<Account>, merchants: seq<Merchant>, merchantsAfter: seq<Merchant>,
                                 ts: seq<Transaction>)
    requires MerchantsExist(accounts, merchants) && SameStanding(merchants, merchantsAfter)
    requires ReversalGate(data, c, accounts, merchants, ts).ReversalProceeds?
    requires Get(retry, "accountNumber") == Get(data, "accountNumber")
    ensures MerchantsExist(accounts, merchantsAfter)
    ensures var g := ReversalGate(data, c, accounts, merchants, ts);
      && FetchedAccount(c, Get(retry, "accountNumber"), accounts) == Some(g.accountId)
      && (var merchant := merchantsAfter[accounts[g.accountId - 1].merchant - 1];
          !IsInactive(merchant, accounts[g.accountId - 1]) && !merchant.creditBlocked)
      && GetWithdrawTransaction(ts, g.accountId, Get(data, "msgid")) == Original(g.withdrawTransaction)
  {
    ReversalProceedsFacts(data, c, accounts, merchants, ts);
    StandingKept(accounts, merchants, merchantsAfter, ReversalGate(data, c, accounts, merchants, ts).accountId);
  }

  /** Reversal idempotence: once a reversal has gone through and appended its
      REVERSAL row, which carries the original's reference, a retry naming the
      same account and the same original is answered 011, whatever its amount,
      provided it passes the duplicate and amount checks. The original must be
      named by an actual identifier: with `msgid` absent the lookup matches the
      reversal row itself. */
  lemma {:induction false} ReversalIdempotent(
    data: map<string, Value>, retry: map<string, Value>, c: Lookups, accounts: seq<Account>,
    merchants: seq<Merchant>, merchantsAfter: seq<Merchant>, ts: seq<Transaction>, after: seq<Transaction>)
    requires MerchantsExist(accounts, merchants) && SameStanding(merchants, merchantsAfter)
    requires ReversalGate(data, c, accounts, merchants, ts).ReversalProceeds?
    requires |after| == |ts| + 1 && after[..|ts|] == ts
    requires var g := ReversalGate(data, c, accounts, merchants, ts);
      IsReversalOf(after[|ts|], g.accountId, ts[g.withdrawTransaction - 1])
    requires Get(data, "msgid") != JNull
    requires Get(retry, "accountNumber") == Get(data, "accountNumber") && Get(retry, "msgid") == Get(data, "msgid")
    requires AmountParses(retry) && c.amountValid(PyInt(Get(retry, "transactionAmount")).value)
    requires !c.isDuplicate(Get(retry, "rrn"))
    ensures MerchantsExist(accounts, merchantsAfter)
    ensures ReversalGate(retry, c, accounts, merchantsAfter, after) == ReversalRejected(AlreadyReturnedTransaction)
  {
    RetryPassesAccountChecks(data, retry, c, accounts, merchants, merchantsAfter, ts);
    var g := ReversalGate(data, c, accounts, merchants, ts);
    AppendedReversalFound(ts, after, g.accountId, Get(data, "msgid"), g.withdrawTransaction);
    AlreadyReturnedGate(retry, c, accounts, merchantsAfter, after, g.accountId, g.withdrawTransaction);
  }

  /** A request that passes the amount, duplicate and account checks, on an
      account whose merchant is active and not blocked, and whose `msgid` matches
      several transactions, is answered 021. */
  lemma ManyOriginalsGate(data: map<string, Value>, c: Lookups, accounts: seq<Account>,
                          merchants: seq<Merchant>, ts: seq<Transaction>, id: nat)
    requires MerchantsExist(accounts, merchants)
    requires AmountParses(data) && c.amountValid(PyInt(Get(data, "transactionAmount")).value)
    requires !c.isDuplicate(Get(data, "rrn"))
    requires FetchedAccount(c, Get(data, "accountNumber"), accounts) == Some(id)
    requires var merchant := merchants[accounts[id - 1].merchant - 1];
      !IsInactive(merchant, accounts[id - 1]) && !merchant.creditBlocked
    requires GetWithdrawTransaction(ts, id, Get(data, "msgid")) == ManyOriginals
    ensures ReversalGate(data, c, accounts, merchants, ts) == ReversalRejected(TechnicalProblem)
  {
  }

  /** The other side of `ReversalIdempotent`: when the first reversal named its
      original with `msgid` None, the REVERSAL row it appended has no payment
      identifier either, so a retry with the same account and `msgid` None
      finds two matches, the original and the reversal itself, and the lookup
      raises: the retry is answered 021, not 011. */
  lemma {:induction false} ReversalRetryWithoutMsgid(
    data: map<string, Value>, retry: map<string, Value>, c: Lookups, accounts: seq<Account>,
    merchants: seq<Merchant>, merchantsAfter: seq<Merchant>, ts: seq<Transaction>, after: seq<Transaction>)
    requires MerchantsExist(accounts, merchants) && SameStanding(merchants, merchantsAfter)
    requires ReversalGate(data, c, accounts, merchants, ts).ReversalProceeds?
    requires |after| == |ts| + 1 && after[..|ts|] == ts
    requires var g := ReversalGate(data, c, accounts, merchants, ts);
      IsReversalOf(after[|ts|], g.accountId, ts[g.withdrawTransaction - 1])
    requires Get(data, "msgid") == JNull
    requires Get(retry, "accountNumber") == Get(data, "accountNumber") && Get(retry, "msgid") == JNull
    requires AmountParses(retry) && c.amountValid(PyInt(Get(retry, "transactionAmount")).value)
    requires !c.isDuplicate(Get(retry, "rrn"))
    ensures MerchantsExist(accounts, merchantsAfter)
    ensures ReversalGate(retry, c, accounts, merchantsAfter, after) == ReversalRejected(TechnicalProblem)
  {
    RetryPassesAccountChecks(data, retry, c, accounts, merchants, merchantsAfter, ts);
    var g := ReversalGate(data, c, accounts, merchants, ts);
    AppendedReversalMatches(ts, after, g.accountId, g.withdrawTransaction);
    ManyOriginalsGate(retry, c, accounts, merchantsAfter, after, g.accountId);
  }

  /** `ReversalView.post`: a rejection leaves the ledger untouched; otherwise the
      answer is 000 with the new REVERSAL transaction's id exactly when
      `Account.reversal` (with bank name "ucash") succeeds, with the ledger as
      `reversal` leaves it, and 021 when it does not. */
  method ReversalPost(l: Ledger, data: map<string, Value>, c: Lookups, refund: RefundCall -> HelperOutcome)
    returns (reply: Reply)
    requires l.Valid()
    modifies l, l.store
    ensures l.Valid() && l.accounts == old(l.accounts)
    ensures !reply.Accepted? ==>
      l.transactions == old(l.transactions) && l.store.actions == old(l.store.actions)
      && l.store.merchants == old(l.store.merchants)
    ensures old(Linkable(l.accounts, l.store.merchants, l.store.actions, l.transactions))
    ensures var g := ReversalGate(data, c, old(l.accounts), old(l.store.merchants), old(l.transactions));
      && (g.ReversalRejected? ==> reply == Rejected(g.message))
      && (g.ReversalProceeds? ==>
            var e := ReversalEffect(old(l.accounts), old(l.store.merchants), old(l.store.actions), old(l.transactions),
                                    g.amount, g.accountId, Get(data, "rrn"), Get(data, "stan"),
                                    TransmissionDateTime(data), JStr("ucash"), g.withdrawTransaction,
                                    Get(data, "accountNumber"), refund);
            && (e.ReversalRaises? ==> reply == Rejected(TechnicalProblem))
            && (e.Reversed? ==>
                  && reply == Accepted(NatToDecimal(|old(l.transactions)| + 1))
                  && l.transactions == old(l.transactions) + [e.row]
                  && l.store.actions == e.actions && l.store.merchants == e.merchants))
    ensures reply.Accepted? ==>
      var g := ReversalGate(data, c, old(l.accounts), old(l.store.merchants), old(l.transactions));
      && g.ReversalProceeds?
      && |l.transactions| == |old(l.transactions)| + 1
      && l.transactions[..|old(l.transactions)|] == old(l.transactions)
      && IsReversalOf(l.transactions[|old(l.transactions)|], g.accountId, old(l.transactions)[g.withdrawTransaction - 1])
      && SameStanding(old(l.store.merchants), l.store.merchants)
      && |l.store.actions| == |old(l.store.actions)| + 1
  {
    var g := ReversalGate(data, c, l.accounts, l.store.merchants, l.transactions);
    if g.ReversalRejected? {
      return Rejected(g.message);
    }
    reply := Reverse(l, g.amount, g.accountId, g.withdrawTransaction, data, refund);
  }

  /** A reversal that goes through appends the REVERSAL row of the withdraw it
      names and leaves every merchant's status, credit block and username as
      they were. */
  lemma ReversedStanding(accounts: seq<Account>, merchants: seq<Merchant>, actions: seq<Action>, ts: seq<Transaction>,
                         amount: int, accountId: nat, rrn: Value, stan: Value, transmissionDateTime: Value,
                         withdrawTransactionId: nat, toIban: Value, refund: RefundCall -> HelperOutcome)
    requires Linkable(accounts, merchants, actions, ts)
    requires ReversalEffect(accounts, merchants, actions, ts, amount, accountId, rrn, stan,
                            transmissionDateTime, JStr("ucash"), withdrawTransactionId, toIban, refund).Reversed?
    ensures 1 <= withdrawTransactionId <= |ts|
    ensures var e := ReversalEffect(accounts, merchants, actions, ts, amount, accountId, rrn, stan,
                                    transmissionDateTime, JStr("ucash"), withdrawTransactionId, toIban, refund);
      && IsReversalOf(e.row, accountId, ts[withdrawTransactionId - 1])
      && SameStanding(merchants, e.merchants)
      && |e.actions| == |actions| + 1
  {
    ReversedRowSpec(accounts, merchants, actions, ts, amount, accountId, rrn, stan, transmissionDateTime,
                    JStr("ucash"), withdrawTransactionId, toIban, refund);
    ReversedTablesSpec(accounts, merchants, actions, ts, amount, accountId, rrn, stan, transmissionDateTime,
                       JStr("ucash"), withdrawTransactionId, toIban, refund);
    ReversedMerchantsSpec(accounts, merchants, actions, ts, amount, accountId, rrn, stan, transmissionDateTime,
                          JStr("ucash"), withdrawTransactionId, toIban, refund);
  }

  /** The part of the reversal view after its checks: `Account.reversal` and the
      reply to it. */
  method Reverse(l: Ledger, amount: int, accountId: nat, withdrawTransaction: nat, data: map<string, Value>,
                 refund: RefundCall -> HelperOutcome)
    returns (reply: Reply)
    requires l.Valid()
    modifies l, l.store
    ensures l.Valid() && l.accounts == old(l.accounts)
    ensures old(Linkable(l.accounts, l.store.merchants, l.store.actions, l.transactions))
    ensures var e := ReversalEffect(old(l.accounts), old(l.store.merchants), old(l.store.actions), old(l.transactions),
                                    amount, accountId, Get(data, "rrn"), Get(data, "stan"),
                                    TransmissionDateTime(data), JStr("ucash"), withdrawTransaction,
                                    Get(data, "accountNumber"), refund);
      && (e.ReversalRaises? ==>
            && reply == Rejected(TechnicalProblem)
            && l.transactions == old(l.transactions) && l.store.actions == old(l.store.actions)
            && l.store.merchants == old(l.store.merchants))
      && (e.Reversed? ==>
            && reply == Accepted(NatToDecimal(|old(l.transactions)| + 1))
            && l.transactions == old(l.transactions) + [e.row]
            && l.store.actions == e.actions && l.store.merchants == e.merchants)
    ensures reply.Accepted? ==>
      && 1 <= withdrawTransaction <= |old(l.transactions)|
      && IsReversalOf(l.transactions[|old(l.transactions)|], accountId, old(l.transactions)[withdrawTransaction - 1])
      && SameStanding(old(l.store.merchants), l.store.merchants)
      && |l.store.actions| == |old(l.store.actions)| + 1
  {
    ghost var accounts, merchants, actions, ts := l.accounts, l.store.merchants, l.store.actions, l.transactions;
    var r := l.Reversal(amount, accountId, Get(data, "rrn"), Get(data, "stan"), TransmissionDateTime(data),
                        JStr("ucash"), withdrawTransaction, Get(data, "accountNumber"), refund);
    if !r.Success? {
      return Rejected(TechnicalProblem);
    }
    ReversedStanding(accounts, merchants, actions, ts, amount, accountId, Get(data, "rrn"), Get(data, "stan"),
                     TransmissionDateTime(data), withdrawTransaction, Get(data, "accountNumber"), refund);
    reply := Accepted(NatToDecimal(r.transaction));
  }

  /** `ReversalView.post` as a caller that retries sees it: a rejection by the
      checks is the answer and writes nothing, and an acceptance appends the
      REVERSAL row of the original after the old transactions, adds one action
      and keeps every merchant's standing. */
  method ReversalPostOutcome(l: Ledger, data: map<string, Value>, c: Lookups, refund: RefundCall -> HelperOutcome)
    returns (reply: Reply)
    requires l.Valid()
    modifies l, l.store
    ensures l.Valid() && l.accounts == old(l.accounts)
    ensures !reply.Accepted? ==>
      l.transactions == old(l.transactions) && l.store.actions == old(l.store.actions)
      && l.store.merchants == old(l.store.merchants)
    ensures MerchantsExist(old(l.accounts), old(l.store.merchants))
    ensures var g := ReversalGate(data, c, old(l.accounts), old(l.store.merchants), old(l.transactions));
      g.ReversalRejected? ==> reply == Rejected(g.message)
    ensures reply.Accepted? ==>
      var g := ReversalGate(data, c, old(l.accounts), old(l.store.merchants), old(l.transactions));
      && g.ReversalProceeds?
      && |l.transactions| == |old(l.transactions)| + 1
      && l.transactions[..|old(l.transactions)|] == old(l.transactions)
      && IsReversalOf(l.transactions[|old(l.transactions)|], g.accountId, old(l.transactions)[g.withdrawTransaction - 1])
      && SameStanding(old(l.store.merchants), l.store.merchants)
      && |l.store.actions| == |old(l.store.actions)| + 1
  {
    reply := ReversalPost(l, data, c, refund);
  }

  /** A reversal followed by a retry for the same original: if the first goes
      through, the second is answered 011 and writes nothing, so the tables
      hold one new transaction and one new action in all. */
  method ReversalRetried(l: Ledger, data: map<string, Value>, retry: map<string, Value>, c: Lookups,
                         refund: RefundCall -> HelperOutcome)
    returns (first: Reply, second: Reply)
    requires l.Valid()
    requires Get(data, "msgid") != JNull
    requires Get(retry, "accountNumber") == Get(data, "accountNumber") && Get(retry, "msgid") == Get(data, "msgid")
    requires AmountParses(retry) && c.amountValid(PyInt(Get(retry, "transactionAmount")).value)
    requires !c.isDuplicate(Get(retry, "rrn"))
    modifies l, l.store
    ensures first.Accepted? ==>
      && second == Rejected(AlreadyReturnedTransaction)
      && |l.transactions| == |old(l.transactions)| + 1 && l.transactions[..|old(l.transactions)|] == old(l.transactions)
      && |l.store.actions| == |old(l.store.actions)| + 1
  {
    ghost var accounts := l.accounts;
    ghost var merchants := l.store.merchants;
    ghost var ts := l.transactions;
    first := ReversalPostOutcome(l, data, c, refund);
    if first.Accepted? {
      ReversalIdempotent(data, retry, c, accounts, merchants, l.store.merchants, ts, l.transactions);
    }
    second := ReversalPostOutcome(l, retry, c, refund);
  }

  /** Two reversals in a row whose `msgid` is None: if the first is accepted, the
      second is answered 021 and writes nothing, because its lookup now matches
      both the original and the first reversal's own row. */
  method ReversalRetriedWithoutMsgid(l: Ledger, data: map<string, Value>, retry: map<string, Value>, c: Lookups,
                                     refund: RefundCall -> HelperOutcome)
    returns (first: Reply, second: Reply)
    requires l.Valid()
    requires Get(data, "msgid") == JNull
    requires Get(retry, "accountNumber") == Get(data, "accountNumber") && Get(retry, "msgid") == JNull
    requires AmountParses(retry) && c.amountValid(PyInt(Get(retry, "transactionAmount")).value)
    requires !c.isDuplicate(Get(retry, "rrn"))
    modifies l, l.store
    ensures first.Accepted? ==>
      && second == Rejected(TechnicalProblem)
      && |l.transactions| == |old(l.transactions)| + 1 && l.transactions[..|old(l.transactions)|] == old(l.transactions)
      && |l.store.actions| == |old(l.store.actions)| + 1
  {
    ghost var accounts := l.accounts;
    ghost var merchants := l.store.merchants;
    ghost var ts := l.transactions;
    first := ReversalPostOutcome(l, data, c, refund);
    if first.Accepted? {
      ReversalRetryWithoutMsgid(data, retry, c, accounts, merchants, l.store.merchants, ts, l.transactions);
    }
    second := ReversalPostOutcome(l, retry, c, refund);
  }
}

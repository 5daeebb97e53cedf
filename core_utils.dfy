/**
 * `WalletView`: the response codes of the merchant-facing wallet API and the
 * helper that pairs a message with its code.
 */
module CoreUtils {
  import opened Wrappers

  datatype WalletMessage =
    | Success | FraudUser | CashoutDisabled | MerchantNotFound | InsufficientBalance
    | InvalidAmount | LimitOut | NotVerified | AccountNotFound | ServerError

  function WalletDescription(m: WalletMessage): string {
    match m
    case Success => "SUCCESS"
    case FraudUser => "FRAUDULENT_USER"
    case CashoutDisabled => "CASHOUT_DISABLED"
    case MerchantNotFound => "MERCHANT_NOT_FOUND"
    case InsufficientBalance => "INSUFFICIENT_BALANCE"
    case InvalidAmount => "INVALID_AMOUNT"
    case LimitOut => "LIMIT_OUT"
    case NotVerified => "NOT_VERIFIED"
    case AccountNotFound => "ACCOUNT_NOT_FOUND"
    case ServerError => "INTERNAL_SERVER_ERROR"
  }

  /** `WalletView.RESPONSE_CODES`, keyed by description. */
  const WalletCodes: map<string, string> := map[
    "SUCCESS" := "00",
    "FRAUDULENT_USER" := "14",
    "CASHOUT_DISABLED" := "50",
    "MERCHANT_NOT_FOUND" := "30",
    "INSUFFICIENT_BALANCE" := "51",
    "LIMIT_OUT" := "61",
    "NOT_VERIFIED" := "62",
    "ACCOUNT_NOT_FOUND" := "14",
    "INVALID_AMOUNT" := "13",
    "INTERNAL_SERVER_ERROR" := "96"
  ]

  /** The code the table gives a named description. */
  function WalletCode(m: WalletMessage): string {
    match m
    case Success => "00"
    case FraudUser => "14"
    case CashoutDisabled => "50"
    case MerchantNotFound => "30"
    case InsufficientBalance => "51"
    case InvalidAmount => "13"
    case LimitOut => "61"
    case NotVerified => "62"
    case AccountNotFound => "14"
    case ServerError => "96"
  }

  /** The table holds exactly the named descriptions, each with its code. */
  lemma WalletCodesTable(m: WalletMessage)
    ensures WalletDescription(m) in WalletCodes && WalletCodes[WalletDescription(m)] == WalletCode(m)
    ensures WalletCodes.Keys == {
      WalletDescription(Success), WalletDescription(FraudUser), WalletDescription(CashoutDisabled),
      WalletDescription(MerchantNotFound), WalletDescription(InsufficientBalance),
      WalletDescription(InvalidAmount), WalletDescription(LimitOut), WalletDescription(NotVerified),
      WalletDescription(AccountNotFound), WalletDescription(ServerError)}
  {
  }

  /** `get_response_code(message)`. */
  datatype CodeReply = CodeReply(responseCode: Option<string>, responseDescription: string)

  function GetResponseCode(message: string): (r: CodeReply)
    ensures r.responseDescription == message
    ensures message in WalletCodes ==> r.responseCode == Some(WalletCodes[message])
    ensures message !in WalletCodes ==> r.responseCode.None?
  {
    CodeReply(if message in WalletCodes then Some(WalletCodes[message]) else None, message)
  }

  /** A fraudulent user and a missing account are both answered "14": the code
      alone does not tell them apart, only the description does. */
  lemma FraudAndMissingAccountShareCode()
    ensures GetResponseCode(WalletDescription(FraudUser)).responseCode
         == GetResponseCode(WalletDescription(AccountNotFound)).responseCode == Some("14")
    ensures GetResponseCode(WalletDescription(FraudUser)) != GetResponseCode(WalletDescription(AccountNotFound))
  {
  }

  /** Apart from that pair, no two descriptions share a code. */
  lemma WalletCodesOtherwiseDistinct(m1: WalletMessage, m2: WalletMessage)
    requires m1 != m2 && WalletCode(m1) == WalletCode(m2)
    ensures {m1, m2} == {FraudUser, AccountNotFound}
  {
  }

  /** Each named message gets its own description back and its table code. */
  lemma GetResponseCodeNamed(m: WalletMessage)
    ensures GetResponseCode(WalletDescription(m)) == CodeReply(Some(WalletCode(m)), WalletDescription(m))
  {
    WalletCodesTable(m);
  }
}

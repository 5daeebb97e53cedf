/**
 * `AuthView` and `TokenGenerationView`: the response-code table every
 * rail-facing view answers with, username/password authentication and
 * issuing (or reusing) a bearer token.
 */
module CoreViews {
  import opened Wrappers
  import opened Json
  import opened CoreModels

  /** The descriptions `AuthView` names as class attributes. */
  datatype Message =
    | ProcessedOk | InvalidUsername | InvalidPassword | TokenExpired | UserInactive
    | TechnicalProblem | CredentialsNotProvided | InvalidCredentials | IncorrectAccountNumber
    | AccountInactive | NoOriginalTransactionReceived | AlreadyReturnedTransaction
    | BankNotFound | BlockedAccount | DuplicatePayment | InvalidAmount | LimitOut

  function Description(m: Message): string {
    match m
    case ProcessedOk => "Success"
    case InvalidUsername => "Invalid Username"
    case InvalidPassword => "Invalid Password"
    case TokenExpired => "Authorization Token Expired"
    case UserInactive => "User Not Authorized"
    case TechnicalProblem => "Cancellation requested following technical problems resulting in an erroneous transaction"
    case CredentialsNotProvided => "Authentication Token not provided"
    case InvalidCredentials => "Invalid Authentication Token"
    case IncorrectAccountNumber => "Account number is invalid or missing."
    case AccountInactive => "Account Inactive"
    case NoOriginalTransactionReceived => "Original credit transfer never received"
    case AlreadyReturnedTransaction => "Already returned original SCT"
    case BankNotFound => "Bank not found"
    case BlockedAccount => "Account specified is blocked prohibiting posting of transactions against it"
    case DuplicatePayment => "Payment is a duplicate of another payment"
    case InvalidAmount => "Amount is invalid or missing"
    case LimitOut => "Specific transaction/message amount is greater than allowed maximum"
  }

  /** `AuthView.RESPONSE_CODES`, keyed by description. */
  const ResponseCodes: map<string, string> := map[
    "Success" := "000",
    "Invalid Username" := "049",
    "Invalid Password" := "050",
    "Authorization Token Expired" := "051",
    "User Not Authorized" := "052",
    "Cancellation requested following technical problems resulting in an erroneous transaction" := "021",
    "Authentication Token not provided" := "053",
    "Invalid Authentication Token" := "054",
    "Account number is invalid or missing." := "001",
    "Account Inactive" := "008",
    "Original credit transfer never received" := "015",
    "Already returned original SCT" := "011",
    "Bank not found" := "020",
    "Account specified is blocked prohibiting posting of transactions against it" := "004",
    "Payment is a duplicate of another payment" := "012",
    "Amount is invalid or missing" := "010",
    "Specific transaction/message amount is greater than allowed maximum" := "007"
  ]

  /** The code `RESPONSE_CODES` gives a named description. */
  function Code(m: Message): string {
    match m
    case ProcessedOk => "000"
    case InvalidUsername => "049"
    case InvalidPassword => "050"
    case TokenExpired => "051"
    case UserInactive => "052"
    case TechnicalProblem => "021"
    case CredentialsNotProvided => "053"
    case InvalidCredentials => "054"
    case IncorrectAccountNumber => "001"
    case AccountInactive => "008"
    case NoOriginalTransactionReceived => "015"
    case AlreadyReturnedTransaction => "011"
    case BankNotFound => "020"
    case BlockedAccount => "004"
    case DuplicatePayment => "012"
    case InvalidAmount => "010"
    case LimitOut => "007"
  }

  /** The description a code stands for, if any. */
  function MessageOfCode(code: string): Option<Message> {
    if code == "000" then Some(ProcessedOk)
    else if code == "049" then Some(InvalidUsername)
    else if code == "050" then Some(InvalidPassword)
    else if code == "051" then Some(TokenExpired)
    else if code == "052" then Some(UserInactive)
    else if code == "021" then Some(TechnicalProblem)
    else if code == "053" then Some(CredentialsNotProvided)
    else if code == "054" then Some(InvalidCredentials)
    else if code == "001" then Some(IncorrectAccountNumber)
    else if code == "008" then Some(AccountInactive)
    else if code == "015" then Some(NoOriginalTransactionReceived)
    else if code == "011" then Some(AlreadyReturnedTransaction)
    else if code == "020" then Some(BankNotFound)
    else if code == "004" then Some(BlockedAccount)
    else if code == "012" then Some(DuplicatePayment)
    else if code == "010" then Some(InvalidAmount)
    else if code == "007" then Some(LimitOut)
    else None
  }

  /** `RESPONSE_CODES.get(description)` agrees with `Code` for every named
      description. */
  lemma CodeInTable(m: Message)
    ensures Description(m) in ResponseCodes && ResponseCodes[Description(m)] == Code(m)
  {
  }

  /** A code identifies its description: no two descriptions share a code. */
  lemma CodeIdentifiesMessage(m: Message)
    ensures MessageOfCode(Code(m)) == Some(m)
    ensures |Code(m)| == 3
  {
  }

  lemma CodesDistinct(m1: Message, m2: Message)
    ensures Code(m1) == Code(m2) <==> m1 == m2
  {
    CodeIdentifiesMessage(m1);
    CodeIdentifiesMessage(m2);
  }

  /** The table has no entry beyond the named descriptions. */
  lemma ResponseCodesCovered()
    ensures ResponseCodes.Keys == {
      Description(ProcessedOk),
      Description(InvalidUsername),
      Description(InvalidPassword),
      Description(TokenExpired),
      Description(UserInactive),
      Description(TechnicalProblem),
      Description(CredentialsNotProvided),
      Description(InvalidCredentials),
      Description(IncorrectAccountNumber),
      Description(AccountInactive),
      Description(NoOriginalTransactionReceived),
      Description(AlreadyReturnedTransaction),
      Description(BankNotFound),
      Description(BlockedAccount),
      Description(DuplicatePayment),
      Description(InvalidAmount),
      Description(LimitOut)}
  {
  }

  /** The body of a rejection: `{"responseDescription": ..., "responseCode": ...}`. */
  function Rejection(m: Message): (body: map<string, string>)
    ensures body.Keys == {"responseDescription", "responseCode"}
    ensures body["responseDescription"] == Description(m) && body["responseCode"] == Code(m)
  {
    map["responseDescription" := Description(m), "responseCode" := Code(m)]
  }

  /** A Django user as authentication sees it. */
  datatype UserAccount = UserAccount(username: string, isActive: bool)

  /** A value in the dictionary `authenticate_user` returns. */
  datatype AuthField = Flag(b: bool) | Text(s: string) | UserRef(username: string)

  function AuthFailure(m: Message): map<string, AuthField> {
    map["success" := Flag(false), "responseDescription" := Text(Description(m)), "responseCode" := Text(Code(m))]
  }

  /** `authenticate_user`: the first failing check (unknown username, inactive
      user, wrong password) decides the answer. Users are keyed by their unique
      username; `checkPassword` stands for Django's hashed-password comparison. */
  function AuthenticateUser(username: Value, password: Value, users: map<string, UserAccount>,
                            checkPassword: (UserAccount, Value) -> bool): (r: map<string, AuthField>)
    ensures "success" in r && r["success"].Flag?
    ensures r["success"] == Flag(true) ==>
      FieldText(username).Some? && r == map["success" := Flag(true), "user" := UserRef(FieldText(username).value)]
    ensures r["success"] == Flag(false) ==>
      && "responseCode" in r && r["responseCode"].Text? && MessageOfCode(r["responseCode"].s).Some?
      && r == AuthFailure(MessageOfCode(r["responseCode"].s).value)
  {
    CodeIdentifiesMessage(InvalidUsername);
    CodeIdentifiesMessage(UserInactive);
    CodeIdentifiesMessage(InvalidPassword);
    var name := FieldText(username);
    if name.None? || name.value !in users then AuthFailure(InvalidUsername)
    else
      var user := users[name.value];
      if !user.isActive then AuthFailure(UserInactive)
      else if !checkPassword(user, password) then AuthFailure(InvalidPassword)
      else map["success" := Flag(true), "user" := UserRef(name.value)]
  }

  /** Each answer of `authenticate_user` names the check that decided it: 049
      exactly for an unknown username, 052 exactly for a known inactive user,
      050 exactly for an active user with the wrong password, and success
      exactly when all three checks pass. */
  lemma AuthenticateUserSpec(username: Value, password: Value, users: map<string, UserAccount>,
                             checkPassword: (UserAccount, Value) -> bool)
    ensures var r := AuthenticateUser(username, password, users, checkPassword);
      var name := FieldText(username);
      var known := name.Some? && name.value in users;
      && (r == AuthFailure(InvalidUsername) <==> !known)
      && (r == AuthFailure(UserInactive) <==> known && !users[name.value].isActive)
      && (r == AuthFailure(InvalidPassword) <==>
            known && users[name.value].isActive && !checkPassword(users[name.value], password))
      && (r["success"] == Flag(true) <==>
            known && users[name.value].isActive && checkPassword(users[name.value], password))
  {
    CodesDistinct(InvalidUsername, UserInactive);
    CodesDistinct(InvalidUsername, InvalidPassword);
    CodesDistinct(UserInactive, InvalidPassword);
    assert AuthFailure(InvalidUsername)["responseCode"] != AuthFailure(UserInactive)["responseCode"];
    assert AuthFailure(InvalidUsername)["responseCode"] != AuthFailure(InvalidPassword)["responseCode"];
    assert AuthFailure(UserInactive)["responseCode"] != AuthFailure(InvalidPassword)["responseCode"];
  }

  /** The username is checked before activity, and activity before the password:
      an unknown username or an inactive user gets the same answer whatever
      password is sent. */
  lemma AuthenticateUserOrder(username: Value, p1: Value, p2: Value, users: map<string, UserAccount>,
                              checkPassword: (UserAccount, Value) -> bool)
    requires var name := FieldText(username); name.None? || name.value !in users || !users[name.value].isActive
    ensures AuthenticateUser(username, p1, users, checkPassword)
         == AuthenticateUser(username, p2, users, checkPassword)
    ensures (FieldText(username).None? || FieldText(username).value !in users) ==>
      AuthenticateUser(username, p1, users, checkPassword) == AuthFailure(InvalidUsername)
  {
  }

  /** The body `generate_token` returns; the two instants are the ones the code
      formats as text. */
  datatype TokenReply = TokenReply(accessToken: string, tokenType: string, expiresIn: int,
                                   userName: string, issuedAt: int, expiresAt: int)

  /** The default lifetime of a token: one year in seconds. */
  const DefaultExpirationSeconds: int := 31536000

  /** `UserToken.objects.filter(user=user).order_by('-id').first()`: the most
      recently created token of the user. */
  function LatestToken(tokens: seq<UserToken>, user: string): (r: Option<UserToken>)
    ensures r.None? <==> forall i :: 0 <= i < |tokens| ==> tokens[i].user != user
    ensures r.Some? ==> exists i :: 0 <= i < |tokens| && tokens[i] == r.value
                         && r.value.user == user
                         && forall j :: i < j < |tokens| ==> tokens[j].user != user
  {
    if |tokens| == 0 then None
    else if tokens[|tokens| - 1].user == user then Some(tokens[|tokens| - 1])
    else LatestToken(tokens[..|tokens| - 1], user)
  }

  /** A token just appended is the user's latest. */
  lemma LatestTokenAppend(tokens: seq<UserToken>, t: UserToken)
    ensures LatestToken(tokens + [t], t.user) == Some(t)
  {
    assert (tokens + [t])[|tokens|] == t;
  }

  /** The token `generate_token` issues for `expiration_seconds > 0` is not expired
      when issued, and `UserToken.expires_in` reports exactly its lifetime. */
  lemma FreshTokenLifetime(user: string, token: string, now: int, seconds: int)
    requires seconds > 0
    ensures var t := UserToken(user, token, now + FiveHours, now + FiveHours + seconds * MicrosPerSecond, seconds);
      !IsExpired(t, now) && ExpiresIn(t, now) == seconds
  {
  }

  /** The `UserToken` table. */
  class TokenStore {
    var tokens: seq<UserToken>

    constructor(tokens: seq<UserToken>)
      ensures this.tokens == tokens
    {
      this.tokens := tokens;
    }

    /** `generate_token(user, expiration_seconds)` at instant `now`: the user's
        latest token while it is unexpired, otherwise a new token `newToken` issued
        now (shifted by five hours) and valid for `seconds`. `None` when writing
        the new row raises. */
    method GenerateToken(user: string, now: int, newToken: string, seconds: int, writeFails: bool)
      returns (r: Option<TokenReply>)
      modifies this
      ensures var latest := LatestToken(old(tokens), user);
        if latest.Some? && !IsExpired(latest.value, now) then
          tokens == old(tokens)
          && r == Some(TokenReply(latest.value.token, "Bearer", ExpiresIn(latest.value, now), user,
                                  latest.value.issuedAt, latest.value.expiresAt))
        else if writeFails then
          tokens == old(tokens) && r.None?
        else
          var issued := now + FiveHours;
          var t := UserToken(user, newToken, issued, issued + seconds * MicrosPerSecond, seconds);
          tokens == old(tokens) + [t]
          && r == Some(TokenReply(newToken, "Bearer", seconds, user, issued, t.expiresAt))
    {
      var latest := LatestToken(tokens, user);
      if latest.Some? && !IsExpired(latest.value, now) {
        var t := latest.value;
        return Some(TokenReply(t.token, "Bearer", ExpiresIn(t, now), user, t.issuedAt, t.expiresAt));
      }
      if writeFails {
        return None;
      }
      var issued := now + FiveHours;
      var expires := issued + seconds * MicrosPerSecond;
      tokens := tokens + [UserToken(user, newToken, issued, expires, seconds)];
      r := Some(TokenReply(newToken, "Bearer", seconds, user, issued, expires));
    }
  }

  /** What `TokenGenerationView.post` answers. `ServerError` is the path where
      the exception handler itself raises, since it names `SYSTEM_EXEPTION`,
      which `AuthView` does not define. */
  datatype PostReply = AuthRejected(body: map<string, AuthField>) | TokenIssued(token: TokenReply) | ServerError

  /** `TokenGenerationView.post`: authenticate, drop the `success` key, and on
      success issue a token with the default lifetime. */
  method Post(store: TokenStore, data: map<string, Value>, users: map<string, UserAccount>,
              checkPassword: (UserAccount, Value) -> bool, now: int, newToken: string, writeFails: bool)
    returns (reply: PostReply)
    modifies store
    ensures var auth := AuthenticateUser(Get(data, "username"), Get(data, "password"), users, checkPassword);
      if auth["success"] == Flag(false) then
        reply == AuthRejected(auth - {"success"}) && store.tokens == old(store.tokens)
      else
        auth["user"].UserRef? &&
        var user := auth["user"].username;
        var latest := LatestToken(old(store.tokens), user);
        if latest.Some? && !IsExpired(latest.value, now) then
          store.tokens == old(store.tokens) && reply.TokenIssued? && reply.token.accessToken == latest.value.token
        else if writeFails then
          store.tokens == old(store.tokens) && reply == ServerError
        else
          store.tokens == old(store.tokens) + [UserToken(user, newToken, now + FiveHours,
              now + FiveHours + DefaultExpirationSeconds * MicrosPerSecond, DefaultExpirationSeconds)]
          && reply.TokenIssued? && reply.token.accessToken == newToken
          && reply.token.expiresIn == DefaultExpirationSeconds
  {
    var auth := AuthenticateUser(Get(data, "username"), Get(data, "password"), users, checkPassword);
    AuthenticateUserSpec(Get(data, "username"), Get(data, "password"), users, checkPassword);
    var success := auth["success"];
    var body := auth - {"success"};
    if success == Flag(false) {
      return AuthRejected(body);
    }
    var user := auth["user"].username;
    var token := store.GenerateToken(user, now, newToken, DefaultExpirationSeconds, writeFails);
    if token.None? {
      return ServerError;
    }
    return TokenIssued(token.value);
  }
}

/**
 * The DRF permission and authentication classes: the bearer-token check every
 * rail view runs first, the merchant-status and API-key permissions, and the
 * secret-key authentication read from the request body. `permissions.py` at
 * the repository root holds a copy of `IsTokenValid` identical to the one in
 * the core package; it is modelled once.
 */
module Permissions {
  import opened Wrappers
  import opened Json
  import opened CoreModels
  import opened CoreViews
  import opened MerchantModels

  // ------------------------------------------------------------ text helpers

  /** Python's `s.split(sep)` with an explicit one-character separator: every
      separator splits, so adjacent separators give empty parts. */
  function Split(s: string, sep: char): (parts: seq<string>)
    ensures |parts| >= 1
    ensures forall i :: 0 <= i < |parts| ==> sep !in parts[i]
  {
    if |s| == 0 then [""]
    else
      var rest := Split(s[1..], sep);
      if s[0] == sep then [""] + rest
      else [[s[0]] + rest[0]] + rest[1..]
  }

  /** `sep.join(parts)`. */
  function Join(parts: seq<string>, sep: char): string
    requires |parts| >= 1
  {
    if |parts| == 1 then parts[0] else parts[0] + [sep] + Join(parts[1..], sep)
  }

  /** Joining the parts with the separator gives back the text that was split. */
  lemma {:induction false} JoinSplit(s: string, sep: char)
    ensures Join(Split(s, sep), sep) == s
  {
    if |s| > 0 {
      JoinSplit(s[1..], sep);
      var rest := Split(s[1..], sep);
      if s[0] != sep {
        if |rest| == 1 {
          assert Split(s, sep) == [[s[0]] + rest[0]];
        } else {
          assert Split(s, sep)[1..] == rest[1..];
        }
      } else {
        assert Split(s, sep)[1..] == rest;
      }
    }
  }

  /** Text without the separator is one part. */
  lemma {:induction false} SplitNoSeparator(s: string, sep: char)
    requires sep !in s
    ensures Split(s, sep) == [s]
  {
    if |s| > 0 {
      SplitNoSeparator(s[1..], sep);
      assert [s[0]] + s[1..] == s;
    }
  }

  /** Splitting at one separator splits both sides independently. */
  lemma {:induction false} SplitAround(a: string, b: string, sep: char)
    ensures Split(a + [sep] + b, sep) ==
      Split(a, sep)[..|Split(a, sep)| - 1] + [Split(a, sep)[|Split(a, sep)| - 1]] + Split(b, sep)
  {
    if |a| == 0 {
      assert a + [sep] + b == [sep] + b;
      assert ([sep] + b)[1..] == b;
    } else {
      assert (a + [sep] + b)[1..] == a[1..] + [sep] + b;
      SplitAround(a[1..], b, sep);
    }
  }

  /** A bearer header with one space splits into the scheme and the token. */
  lemma SplitBearer(scheme: string, token: string)
    requires ' ' !in scheme && ' ' !in token
    ensures Split(scheme + " " + token, ' ') == [scheme, token]
  {
    SplitAround(scheme, token, ' ');
    SplitNoSeparator(scheme, ' ');
    SplitNoSeparator(token, ' ');
  }

  /** `str.lower()` on ASCII letters. */
  function Lower(s: string): (r: string)
    ensures |r| == |s|
  {
    if |s| == 0 then ""
    else [if 'A' <= s[0] <= 'Z' then (s[0] as int + 32) as char else s[0]] + Lower(s[1..])
  }

  // ------------------------------------------------------------ IsTokenValid

  /** The outcome of a permission check. `Raised` stands for an exception the
      check does not catch, which ends the request with a server error. */
  datatype TokenCheck = Denied(message: Message) | Granted(user: string) | Raised

  /** The rows `UserToken.objects.get(token=token)` looks among. */
  function TokensNamed(tokens: seq<UserToken>, token: string): (rows: seq<UserToken>)
    ensures forall t :: t in rows <==> t in tokens && t.token == token
    ensures |rows| == 0 <==> forall i :: 0 <= i < |tokens| ==> tokens[i].token != token
    ensures |rows| <= |tokens|
  {
    if |tokens| == 0 then []
    else
      var rest := TokensNamed(tokens[1..], token);
      if tokens[0].token == token then [tokens[0]] + rest else rest
  }

  /** The part of `IsTokenValid.has_permission` after the header is parsed: look
      the token up, then check its expiry. */
  function CheckToken(token: string, tokens: seq<UserToken>, now: int): (r: TokenCheck)
    ensures r == Denied(InvalidCredentials) <==> forall t :: t in tokens ==> t.token != token
    ensures r.Granted? ==> exists t :: t in tokens && t.token == token && t.user == r.user && !IsExpired(t, now)
    ensures r == Denied(TokenExpired) ==> exists t :: t in tokens && t.token == token && IsExpired(t, now)
    ensures r == Raised <==> |TokensNamed(tokens, token)| > 1
  {
    var rows := TokensNamed(tokens, token);
    if |rows| == 0 then
      Denied(InvalidCredentials)
    else if |rows| > 1 then
      assert rows[0] in rows;
      Raised
    else
      assert rows[0] in rows;
      if IsExpired(rows[0], now) then Denied(TokenExpired) else Granted(rows[0].user)
  }

  /** `IsTokenValid.has_permission`; `header` is the `Authorization` header. */
  function IsTokenValid(header: Option<string>, tokens: seq<UserToken>, now: int): TokenCheck {
    if header.None? || header.value == "" then Denied(CredentialsNotProvided)
    else
      var parts := Split(header.value, ' ');
      if |parts| != 2 || Lower(parts[0]) != "bearer" then Denied(CredentialsNotProvided)
      else CheckToken(parts[1], tokens, now)
  }

  /** A missing or empty header is refused with 053. */
  lemma MissingHeaderRefused(tokens: seq<UserToken>, now: int)
    ensures IsTokenValid(None, tokens, now) == Denied(CredentialsNotProvided)
    ensures IsTokenValid(Some(""), tokens, now) == Denied(CredentialsNotProvided)
  {
  }

  /** The header format is checked before any lookup: a header that is not two
      space-separated parts beginning with "bearer" in any letter case is refused
      with 053 whatever tokens exist. */
  lemma FormatCheckedFirst(header: string, tokens1: seq<UserToken>, tokens2: seq<UserToken>, now1: int, now2: int)
    requires var parts := Split(header, ' '); |parts| != 2 || Lower(parts[0]) != "bearer"
    ensures IsTokenValid(Some(header), tokens1, now1) == IsTokenValid(Some(header), tokens2, now2)
                                                      == Denied(CredentialsNotProvided)
  {
  }

  /** A header made of a scheme spelled "bearer" in any case, one space and a token
      without spaces is accepted as far as its format goes: the answer is decided
      by the token lookup alone. */
  lemma BearerHeaderParsed(scheme: string, token: string, tokens: seq<UserToken>, now: int)
    requires Lower(scheme) == "bearer" && ' ' !in token
    ensures IsTokenValid(Some(scheme + " " + token), tokens, now) == CheckToken(token, tokens, now)
  {
    assert ' ' !in scheme by {
      if ' ' in scheme {
        var i :| 0 <= i < |scheme| && scheme[i] == ' ';
        LowerKeepsSpace(scheme, i);
      }
    }
    SplitBearer(scheme, token);
  }

  lemma {:induction false} LowerKeepsSpace(s: string, i: int)
    requires 0 <= i < |s| && s[i] == ' '
    ensures Lower(s)[i] == ' '
  {
    if i > 0 {
      LowerKeepsSpace(s[1..], i - 1);
    }
  }

  /** Stricter than the `1*SP` of section 2.1 of RFC 6750: two spaces after the
      scheme make three parts, and the header is refused with 053. */
  lemma DoubleSpaceRefused(token: string, tokens: seq<UserToken>, now: int)
    requires ' ' !in token
    ensures IsTokenValid(Some("Bearer  " + token), tokens, now) == Denied(CredentialsNotProvided)
  {
    assert "Bearer  " + token == "Bearer" + [' '] + ([' '] + token);
    SplitAround("Bearer", [' '] + token, ' ');
    SplitNoSeparator("Bearer", ' ');
    assert Split([' '] + token, ' ') == [""] + Split(token, ' ');
  }

  /** No two rows of the table carry the same token. */
  predicate TokensUnique(tokens: seq<UserToken>) {
    forall i, j :: 0 <= i < j < |tokens| ==> tokens[i].token != tokens[j].token
  }

  /** In a table whose tokens are unique, a known token that has expired is
      refused with 051 and a known unexpired one grants its user. */
  lemma KnownTokenOutcome(t: UserToken, tokens: seq<UserToken>, now: int)
    requires t in tokens && TokensUnique(tokens)
    ensures CheckToken(t.token, tokens, now) == if IsExpired(t, now) then Denied(TokenExpired) else Granted(t.user)
  {
    var rows := TokensNamed(tokens, t.token);
    assert t in rows;
    TokensNamedUnique(tokens, t.token);
    assert rows == [t];
  }

  /** The token filter finds at most one row of a table with unique tokens. */
  lemma {:induction false} TokensNamedUnique(tokens: seq<UserToken>, token: string)
    requires TokensUnique(tokens)
    ensures |TokensNamed(tokens, token)| <= 1
  {
    if |tokens| > 0 {
      var tail := tokens[1..];
      assert TokensUnique(tail) by {
        forall i, j | 0 <= i < j < |tail|
          ensures tail[i].token != tail[j].token
        {
          assert tail[i] == tokens[i + 1] && tail[j] == tokens[j + 1];
        }
      }
      TokensNamedUnique(tail, token);
      if tokens[0].token == token {
        forall k | 0 <= k < |tail|
          ensures tail[k].token != token
        {
          assert tail[k] == tokens[k + 1];
        }
      }
    }
  }

  // -------------------------------------------------------- IsMerchantActive

  datatype Permission = Allowed | Forbidden(message: string)

  /** `IsMerchantActive.has_permission`; `profile` is the user's merchant status,
      `None` when the user has no merchant profile. */
  function IsMerchantActive(profile: Option<MerchantStatus>): (r: Permission)
    ensures r == Allowed <==> profile == Some(Active)
    ensures profile.None? ==> r == Forbidden("Wallet not found, Please contact support!")
    ensures profile.Some? && profile.value != Active ==> r == Forbidden("Wallet not active, Please contact support!")
  {
    match profile
    case None => Forbidden("Wallet not found, Please contact support!")
    case Some(status) =>
      if status == Active then Allowed else Forbidden("Wallet not active, Please contact support!")
  }

  // ----------------------------------------------------- HasAPIKeyPermission

  /** `HasAPIKeyPermission.has_permission`: the `API-KEY` header against the
      configured `WALLET_API_KEY`; either may be absent. */
  predicate HasApiKey(header: Option<string>, configured: Option<string>) {
    header == configured
  }

  /** A configured key admits only requests carrying it; with no key configured,
      only requests without the header are admitted. */
  lemma HasApiKeySpec(header: Option<string>, key: string)
    ensures HasApiKey(header, Some(key)) <==> header == Some(key)
    ensures HasApiKey(header, None) <==> header.None?
  {
  }

  // ------------------------------------------------------ UserAuthentication

  datatype BodyAuth = NoCredentials | Authenticated(username: string) | Unauthorized | AuthRaised

  /** The merchants whose user has `phone` as username and `secret` as secret key. */
  function MerchantsWith(merchants: seq<Merchant>, phone: Value, secret: Value): (rows: seq<Merchant>)
    ensures forall m :: m in rows <==> m in merchants && Matches(m, phone, secret)
  {
    if |merchants| == 0 then []
    else
      var rest := MerchantsWith(merchants[1..], phone, secret);
      var m := merchants[0];
      if Matches(m, phone, secret) then [m] + rest else rest
  }

  /** The merchant's username and secret key equal `phone` and `secret` as the
      `CharField` lookups compare them. */
  predicate Matches(m: Merchant, phone: Value, secret: Value) {
    FieldText(phone) == Some(m.username) && FieldText(secret) == Some(m.secretKey)
  }

  /** `UserAuthentication.authenticate`: no credentials without a truthy
      `secret_key`, otherwise the one user matching `phone_number` and the key,
      or "User Unauthorized". A body that is not a JSON object raises. */
  function UserAuthentication(body: Document, merchants: seq<Merchant>): (r: BodyAuth)
    ensures !body.Object? ==> r == AuthRaised
    ensures body.Object? && !Truthy(Get(body.fields, "secret_key")) ==> r == NoCredentials
    ensures body.Object? && Truthy(Get(body.fields, "secret_key")) ==>
      var rows := MerchantsWith(merchants, Get(body.fields, "phone_number"), Get(body.fields, "secret_key"));
      && (r == Unauthorized <==> forall m :: m in merchants ==>
            !Matches(m, Get(body.fields, "phone_number"), Get(body.fields, "secret_key")))
      && (|rows| == 1 ==>
            && r == Authenticated(rows[0].username) && rows[0] in merchants
            && Matches(rows[0], Get(body.fields, "phone_number"), Get(body.fields, "secret_key")))
      && (|rows| > 1 ==> r == AuthRaised)
    ensures r.Authenticated? ==>
      && body.Object?
      && exists m :: m in merchants && m.username == r.username
           && Matches(m, Get(body.fields, "phone_number"), Get(body.fields, "secret_key"))
  {
    match body
    case Object(data) =>
      var phone := Get(data, "phone_number");
      var secret := Get(data, "secret_key");
      if !Truthy(secret) then NoCredentials
      else
        var rows := MerchantsWith(merchants, phone, secret);
        if |rows| == 0 then Unauthorized
        else if |rows| > 1 then
          assert rows[0] in rows;
          AuthRaised
        else
          assert rows[0] in rows;
          Authenticated(rows[0].username)
    case _ => AuthRaised
  }
}

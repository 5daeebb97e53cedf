/**
 * The request middleware: a per-customer lock that serialises writes
 * (`SyncLockMiddleware`), an IP allow-list (`IPBlockingMiddleware`) and the
 * secret-key check a route can ask for (`UdhaarAuthenticationMiddleware`).
 */
module Middleware {
  import opened Wrappers
  import opened Text
  import opened Json
  import opened MerchantModels

  /** The parts of an HTTP request the middleware reads. */
  datatype Request = Request(path: string, httpMethod: string, body: Document)

  // ------------------------------------------------------------ sync lock

  const PaybillUrl: string := "bills/billpay/"
  const SendMoneyV3Url: string := "api/sendmoney/v3/"

  const OscarWalletUrls: set<string> := {
    "/oscar-wallet/wallet-balance/",
    "/oscar-wallet/beneficiary/",
    "/oscar-wallet/otp/",
    "/oscar-wallet/wallet-activity/",
    "/oscar-wallet/titlefetch/",
    "/oscar-wallet/wallet-withdraw-report/",
    "/oscar-wallet/current-balance/",
    "/oscar-wallet/single-payment/",
    "/oscar-wallet/banks/v2/",
    "/oscar-wallet/deposit-breakdown-report/"
  }

  const BaseWhitelist: set<string> := {
    "/admin/",
    "sharereward",
    "/payments/deposit_funds_to_merchant/",
    "/payments/send_money_to_supplier/",
    "agent/creditaccount/",
    "agent/merchanttransactions/",
    PaybillUrl,
    "loyalty/balance/",
    SendMoneyV3Url
  }

  /** `list_of_exempted_endpoints`: (path fragment, HTTP method). */
  const ExemptedEndpoints: seq<(string, string)> := [
    ("/merchant/wallet/", "POST"), ("merchant/list/telcos/", "POST"),
    ("available/telcos/", "GET"), ("recharge/v2/", "GET"),
    ("deposit/v2/", "GET"), ("/loan/agreement/", "GET")]

  /** A POST to a path containing `url` takes `url` off the whitelist. */
  predicate LosesWhitelist(req: Request, url: string) {
    Contains(req.path, url) && req.httpMethod == "POST"
  }

  /** The whitelist `SyncLockMiddleware.__call__` builds for a request. */
  function Whitelist(req: Request): set<string> {
    (BaseWhitelist + OscarWalletUrls)
      - (if LosesWhitelist(req, PaybillUrl) then {PaybillUrl} else {})
      - (if LosesWhitelist(req, SendMoneyV3Url) then {SendMoneyV3Url} else {})
  }

  /** Only the bill-payment and send-money entries depend on the request, and each
      is dropped exactly for a POST to a path containing it. */
  lemma WhitelistSpec(req: Request, url: string)
    ensures url == PaybillUrl ==> (url in Whitelist(req) <==> !LosesWhitelist(req, PaybillUrl))
    ensures url == SendMoneyV3Url ==> (url in Whitelist(req) <==> !LosesWhitelist(req, SendMoneyV3Url))
    ensures url != PaybillUrl && url != SendMoneyV3Url ==>
      (url in Whitelist(req) <==> url in BaseWhitelist || url in OscarWalletUrls)
  {
  }

  /** Builds the whitelist as the middleware does: a set literal, extended with the
      Oscar wallet urls, from which the POST exceptions are removed. */
  method WhitelistUrls(req: Request) returns (urls: set<string>)
    ensures urls == Whitelist(req)
  {
    urls := BaseWhitelist;
    urls := urls + OscarWalletUrls;
    if Contains(req.path, PaybillUrl) && req.httpMethod == "POST" {
      urls := urls - {PaybillUrl};
    }
    if Contains(req.path, SendMoneyV3Url) && req.httpMethod == "POST" {
      urls := urls - {SendMoneyV3Url};
    }
  }

  /** `any(url in request.path for url in whitelist_urls)`. */
  predicate Whitelisted(req: Request) {
    exists url :: url in Whitelist(req) && Contains(req.path, url)
  }

  /** Some `(path, method)` entry names a fragment of the request path and its method. */
  predicate Exempt(req: Request) {
    exists i :: 0 <= i < |ExemptedEndpoints|
      && Contains(req.path, ExemptedEndpoints[i].0) && req.httpMethod == ExemptedEndpoints[i].1
  }

  /** The exemption loop over `list_of_exempted_endpoints`. */
  method IsExempt(req: Request) returns (exempt: bool)
    ensures exempt <==> Exempt(req)
  {
    var k := 0;
    while k < |ExemptedEndpoints|
      invariant 0 <= k <= |ExemptedEndpoints|
      invariant forall i :: 0 <= i < k ==>
        !(Contains(req.path, ExemptedEndpoints[i].0) && req.httpMethod == ExemptedEndpoints[i].1)
    {
      var entry := ExemptedEndpoints[k];
      if Contains(req.path, entry.0) {
        if req.httpMethod == entry.1 {
          return true;
        }
      }
      k := k + 1;
    }
    return false;
  }

  /** The body as the middleware reads it: text that is not JSON counts as `{}`;
      `None` stands for a JSON document that is not an object, on which
      `data.get` raises. */
  function LockData(body: Document): (r: Option<map<string, Value>>)
    ensures body.NotJson? ==> r == Some(map[])
  {
    match body
    case NotJson(_) => Some(map[])
    case Object(fields) => Some(fields)
    case NonObject(_) => None
  }

  /** `data.get('phone_number') or data.get('username')`. */
  predicate NamesCustomer(data: map<string, Value>) {
    Truthy(Get(data, "phone_number")) || Truthy(Get(data, "username"))
  }

  /** The lock id: `data['phone_number']` when the key is present, whatever its
      value, and `data['username']` otherwise. */
  function LockKey(data: map<string, Value>): (key: Value)
    requires NamesCustomer(data)
    ensures "phone_number" in data ==> key == data["phone_number"]
    ensures "phone_number" !in data ==> "username" in data && key == data["username"] && Truthy(key)
  {
    if "phone_number" in data then data["phone_number"] else data["username"]
  }

  /** How the middleware routes a request. */
  datatype Route =
    | Bypass            // whitelisted path: straight to the view
    | Unlocked          // no customer named in the body: straight to the view
    | ExemptEndpoint    // customer named but the endpoint is exempt
    | Lock(key: Value)  // the view runs under the advisory lock `key`
    | BodyError         // `data.get` raised: a server error
    | KeyRefused        // `advisory_lock` raised `ValueError` on a key of `None`: a server error

  function RouteOf(req: Request): (r: Route)
    ensures r == Bypass <==> Whitelisted(req)
    ensures r.Lock? ==> !Whitelisted(req) && !Exempt(req) && r.key != JNull
  {
    if Whitelisted(req) then Bypass
    else match LockData(req.body)
      case None => BodyError
      case Some(data) =>
        if !NamesCustomer(data) then Unlocked
        else if Exempt(req) then ExemptEndpoint
        else
          var key := LockKey(data);
          if key == JNull then KeyRefused else Lock(key)
  }

  /** A body that names its customer by `username` but carries `"phone_number": null`
      picks the lock id `None`, which `advisory_lock` refuses; a customer named
      by a present, truthy `phone_number` is locked under it. */
  lemma LockKeyOfPhoneNumber(req: Request)
    requires !Whitelisted(req) && !Exempt(req) && req.body.Object? && "phone_number" in req.body.fields
    ensures req.body.fields["phone_number"] == JNull && Truthy(Get(req.body.fields, "username")) ==>
      RouteOf(req) == KeyRefused
    ensures Truthy(req.body.fields["phone_number"]) ==> RouteOf(req) == Lock(req.body.fields["phone_number"])
  {
  }

  /** A body that is not JSON, or that names no customer, runs unlocked unless the
      path is whitelisted. */
  lemma UnlockedRoutes(req: Request)
    requires !Whitelisted(req)
    ensures req.body.NotJson? ==> RouteOf(req) == Unlocked
    ensures req.body.Object? && !NamesCustomer(req.body.fields) ==> RouteOf(req) == Unlocked
  {
  }

  /** What became of a request. */
  datatype Handling =
    | RanFree                // the view ran without a lock
    | RanLocked(key: Value)  // the view runs while holding `key`
    | TooManyRequests        // 429 "Too many requests"; the view is not run
    | ServerError            // 500

  /** The advisory locks currently held by requests in flight. */
  class SyncLock {
    var held: set<Value>

    constructor()
      ensures held == {}
    {
      held := {};
    }

    /** The middleware up to the point where the view runs: route the request and,
        when it needs the lock, try to take it without waiting. */
    method Begin(req: Request) returns (h: Handling)
      modifies this
      ensures match RouteOf(req)
        case Lock(key) =>
          if key in old(held) then h == TooManyRequests && held == old(held)
          else h == RanLocked(key) && held == old(held) + {key}
        case BodyError => h == ServerError && held == old(held)
        case KeyRefused => h == ServerError && held == old(held)
        case _ => h == RanFree && held == old(held)
    {
      var urls := WhitelistUrls(req);
      if exists url :: url in urls && Contains(req.path, url) {
        return RanFree;
      }
      var data := LockData(req.body);
      if data.None? {
        return ServerError;
      }
      var fields := data.value;
      if !(Truthy(Get(fields, "phone_number")) || Truthy(Get(fields, "username"))) {
        return RanFree;
      }
      var exempt := IsExempt(req);
      if exempt {
        return RanFree;
      }
      var key := LockKey(fields);
      if key == JNull {
        return ServerError;
      }
      if key in held {
        return TooManyRequests;
      }
      held := held + {key};
      h := RanLocked(key);
    }

    /** The view has returned: leaving the `with` block releases the lock. */
    method End(h: Handling)
      modifies this
      ensures h.RanLocked? ==> held == old(held) - {h.key}
      ensures !h.RanLocked? ==> held == old(held)
    {
      if h.RanLocked? {
        held := held - {h.key};
      }
    }

    /** `SyncLockMiddleware.__call__` for a request that runs to completion: 429
        exactly when its lock is already held, and the lock is released after. */
    method Call(req: Request) returns (h: Handling)
      modifies this
      ensures held == old(held)
      ensures h == TooManyRequests <==> RouteOf(req).Lock? && RouteOf(req).key in old(held)
    {
      h := Begin(req);
      End(h);
    }

    /** Two requests for the same customer in flight at once: the first takes the
        lock and runs, the second is answered 429 without running; once both
        have finished no lock is left behind. */
    method Overlapping(first: Request, second: Request) returns (h1: Handling, h2: Handling)
      modifies this
      requires RouteOf(first).Lock? && RouteOf(second) == RouteOf(first)
      requires RouteOf(first).key !in held
      ensures h1 == RanLocked(RouteOf(first).key) && h2 == TooManyRequests
      ensures held == old(held)
    {
      h1 := Begin(first);
      h2 := Begin(second);
      End(h2);
      End(h1);
    }
  }

  // -------------------------------------------------------------- IP gate

  /** The allow-lists `load_ip_list` reads, one per file. */
  datatype IpLists = IpLists(all: seq<string>, hbl: seq<string>, kunda: seq<string>, internalData: seq<string>)

  datatype Verdict = Admit | IpBlocked | GateError

  /** The allow-all route rule: a listed IP, or a body whose `phone_number` is a
      whitelisted merchant. `GateError` when the body is not a JSON object, since
      parsing or `params.get` raises. */
  function AllRule(ip: string, lists: IpLists, allowedMerchants: seq<string>, body: Document): Verdict {
    if ip in lists.all then Admit
    else match body
      case Object(params) =>
        var phone := Get(params, "phone_number");
        if phone.JStr? && phone.s in allowedMerchants then Admit else IpBlocked
      case _ => GateError
  }

  /** `IPBlockingMiddleware.process_view`; `ipSecurity` is the route's
      `ip_security` keyword (`None` when absent). */
  function IpGate(env: string, ip: string, path: string, ipSecurity: Value, lists: IpLists,
                  allowedMerchants: seq<string>, body: Document): Verdict
  {
    if env == "LOCAL" then Admit
    else if Contains(path, "/admin/") || Contains(path, "/media/") then Admit
    else if ipSecurity == JStr("all") then AllRule(ip, lists, allowedMerchants, body)
    else if ipSecurity == JStr("kunda") then (if ip in lists.kunda then Admit else IpBlocked)
    else if ipSecurity == JStr("internal_data") then (if ip in lists.internalData then Admit else IpBlocked)
    else if ipSecurity == JStr("disabled") then Admit
    else IpBlocked
  }

  /** The gate admits exactly: the LOCAL environment, admin and media paths, and
      otherwise what the route's rule allows; a route with any other setting,
      or none, is refused with 401 "IP Blocked". The `hbl` list is read but
      never consulted. */
  lemma IpGateSpec(env: string, ip: string, path: string, ipSecurity: Value, lists: IpLists,
                   allowedMerchants: seq<string>, body: Document)
    ensures var v := IpGate(env, ip, path, ipSecurity, lists, allowedMerchants, body);
      && (env == "LOCAL" || Contains(path, "/admin/") || Contains(path, "/media/") ==> v == Admit)
      && (env != "LOCAL" && !Contains(path, "/admin/") && !Contains(path, "/media/") ==>
           && (ipSecurity == JStr("all") ==>
                 (v == Admit <==> (ip in lists.all
                    || (body.Object? && Get(body.fields, "phone_number").JStr?
                        && Get(body.fields, "phone_number").s in allowedMerchants)))
                 && (v == GateError <==> ip !in lists.all && !body.Object?))
           && (ipSecurity == JStr("kunda") ==> (v == Admit <==> ip in lists.kunda) && v != GateError)
           && (ipSecurity == JStr("internal_data") ==> (v == Admit <==> ip in lists.internalData) && v != GateError)
           && (ipSecurity == JStr("disabled") ==> v == Admit)
           && (ipSecurity !in {JStr("all"), JStr("kunda"), JStr("internal_data"), JStr("disabled")} ==>
                 v == IpBlocked))
      && IpGate(env, ip, path, ipSecurity, lists.(hbl := []), allowedMerchants, body) == v
  {
  }

  // --------------------------------------------------------- route auth

  datatype AuthVerdict = Proceed | InvalidCredentials | AuthError

  /** Some merchant's user has `phone` as username and `secret` as secret key
      (`User.objects.filter(...)` is non-empty). */
  predicate CredentialsMatch(merchants: seq<Merchant>, phone: Value, secret: Value) {
    exists i :: 0 <= i < |merchants|
      && FieldText(phone) == Some(merchants[i].username) && FieldText(secret) == Some(merchants[i].secretKey)
  }

  /** `UdhaarAuthenticationMiddleware.process_view`: a route whose `auth` keyword is
      `True` needs a body naming a merchant by `phone_number` and `secret_key`;
      every other route, including one with `auth` absent, goes through.
      `AuthError` when the body is not a JSON object. */
  function RouteAuth(auth: Value, body: Document, merchants: seq<Merchant>): (v: AuthVerdict)
    ensures auth != JBool(true) ==> v == Proceed
    ensures auth == JBool(true) ==>
      (v == Proceed <==> (body.Object? &&
         CredentialsMatch(merchants, Get(body.fields, "phone_number"), Get(body.fields, "secret_key"))))
      && (v == AuthError <==> !body.Object?)
  {
    if auth == JBool(false) then Proceed
    else if auth == JBool(true) then
      match body
      case Object(data) =>
        if CredentialsMatch(merchants, Get(data, "phone_number"), Get(data, "secret_key")) then Proceed
        else InvalidCredentials
      case _ => AuthError
    else Proceed
  }

  /** The three transaction routes are declared with `auth: False` and
      `ip_security: 'all'`: authentication never stops them, and outside the
      LOCAL environment they are admitted from a listed IP or for a whitelisted
      merchant. */
  lemma TransactionRoutesGates(env: string, ip: string, path: string, lists: IpLists,
                               allowedMerchants: seq<string>, body: Document, merchants: seq<Merchant>)
    requires env != "LOCAL" && !Contains(path, "/admin/") && !Contains(path, "/media/")
    requires body.Object?
    ensures RouteAuth(JBool(false), body, merchants) == Proceed
    ensures IpGate(env, ip, path, JStr("all"), lists, allowedMerchants, body) == Admit <==>
      ip in lists.all || (Get(body.fields, "phone_number").JStr? && Get(body.fields, "phone_number").s in allowedMerchants)
  {
  }
}

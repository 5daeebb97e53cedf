/**
 * `log_request_response`: the decorator around the rail views that records
 * each request and its answer in `RequestLog` and returns the log row's id to
 * the rail as a six-character `authIdResponse`.
 */
module Decorators {
  import opened Json
  import opened Text

  // ------------------------------------------------------------- auth id

  /** The auth id as the decorator computes it: `str(id).zfill(6)`, minus its first
      character when that is longer than six. */
  function AuthIdAsWritten(id: nat): string {
    var z := ZFill(NatToDecimal(id), 6);
    if |z| > 6 then z[1..] else z
  }

  /** Ids below a million give their zero-filled six digits, which read back as the id. */
  lemma AuthIdAsWrittenShort(id: nat)
    requires id < Pow10(6)
    ensures |AuthIdAsWritten(id)| == 6 && IsDigits(AuthIdAsWritten(id))
    ensures DecimalToNat(AuthIdAsWritten(id)) == id
  {
    ZFillDecimal(id, 6);
  }

  /** From a million on, exactly the first digit is dropped; seven-digit ids thus
      give six characters. */
  lemma AuthIdAsWrittenLong(id: nat)
    requires id >= Pow10(6)
    ensures AuthIdAsWritten(id) == NatToDecimal(id)[1..]
    ensures id < Pow10(7) ==> |AuthIdAsWritten(id)| == 6
  {
    DecimalLength(id, 6);
    if id < Pow10(7) {
      DecimalLength(id, 7);
    }
  }

  /** From ten million on, the id has eight or more digits and dropping one leaves
      seven: the auth id is no longer six characters long. */
  lemma AuthIdAsWrittenTooLong()
    ensures |AuthIdAsWritten(Pow10(7))| == 7
  {
    DecimalLength(Pow10(7), 7);
    DecimalLength(Pow10(7), 8);
    assert Pow10(7) < Pow10(8);
  }

  /** The auth id as intended: the last six characters of `str(id).zfill(6)`. */
  function AuthId(id: nat): (a: string)
    ensures |a| == 6 && IsDigits(a)
  {
    var z := ZFill(NatToDecimal(id), 6);
    ZFillDecimal(id, 6);
    z[|z| - 6..]
  }

  /** The intended auth id agrees with the code for every id below ten million,
      and reads back as the id below a million. */
  lemma AuthIdMatchesBelowTenMillion(id: nat)
    requires id < Pow10(7)
    ensures AuthId(id) == AuthIdAsWritten(id)
    ensures id < Pow10(6) ==> DecimalToNat(AuthId(id)) == id
  {
    ZFillDecimal(id, 6);
    var z := ZFill(NatToDecimal(id), 6);
    if id >= Pow10(6) {
      AuthIdAsWrittenLong(id);
      DecimalLength(id, 6);
      assert |z| == 7;
    } else {
      assert |z| == 6;
      assert z[0..] == z;
    }
  }

  /** Distinct ids below a million get distinct auth ids. */
  lemma AuthIdInjectiveBelowMillion(m: nat, n: nat)
    requires m < Pow10(6) && n < Pow10(6) && AuthId(m) == AuthId(n)
    ensures m == n
  {
    AuthIdMatchesBelowTenMillion(m);
    AuthIdMatchesBelowTenMillion(n);
  }

  // ------------------------------------------------------------ the wrapper

  /** What a view returned: a DRF `Response` with its data and status, some other
      object, or an exception. */
  datatype ViewResult = Responded(data: map<string, string>, status: int) | NotAResponse | ViewRaised

  datatype RequestLog = RequestLog(user: string, requestData: map<string, Value>, responseData: map<string, string>)

  /** The answer to any exception in the view or in logging. */
  const SystemException: ViewResult :=
    Responded(map["responseDescription" := "SYSTEM EXCEPTION", "responseCode" := "099"], 500)

  /** The `RequestLog` table. */
  class RequestLogTable {
    var logs: seq<RequestLog>

    constructor()
      ensures logs == []
    {
      logs := [];
    }

    /** The decorated view: `result` is what the view returned, `logFails` whether
        creating the log row raised. A Response gets `authIdResponse` from the new
        row's id, computed as the code does (see `AuthIdAsWritten`; it agrees with
        the intended `AuthId` below ten million rows); any other object passes
        through unchanged. */
    method LogRequestResponse(user: string, requestData: map<string, Value>, result: ViewResult, logFails: bool)
      returns (out: ViewResult)
      modifies this
      ensures result.ViewRaised? || logFails ==> out == SystemException && logs == old(logs)
      ensures !result.ViewRaised? && !logFails ==>
        && logs == old(logs) + [RequestLog(user, requestData, if result.Responded? then result.data else map[])]
        && (result.NotAResponse? ==> out == NotAResponse)
        && (result.Responded? ==>
              out == Responded(result.data["authIdResponse" := AuthIdAsWritten(|old(logs)| + 1)], result.status))
    {
      if result.ViewRaised? {
        return SystemException;
      }
      var responseData := if result.Responded? then result.data else map[];
      if logFails {
        return SystemException;
      }
      logs := logs + [RequestLog(user, requestData, responseData)];
      var id := |logs|;
      if result.Responded? {
        var authId := AuthIdAsWritten(id);
        return Responded(result.data["authIdResponse" := authId], result.status);
      }
      return result;
    }
  }
}

/** One HTTP status code as an immutable value object. */
module HttpStatusCode {

  import opened Wrappers
  import HttpStatus
  import Decimal

  /** Wraps a single integer. The constructor stores it as given, with no
      range check, and every query is answered by the catalogue in
      HttpStatus for that integer. `code` is a `const`: it is set by the
      constructor and no member can change it afterwards. */
  class HttpStatusCode {

    const code: int

    /** Accepts any integer, negative ones and ones from 600 on included. */
    constructor (code: int)
      ensures this.code == code
    {
      this.code := code;
    }

    function GetCode(): (r: int)
      ensures r == code
    {
      code
    }

    /** The catalogue's reason phrase for the stored code; "" exactly when
        the code is not listed. */
    function GetReason(): (r: string)
      ensures r == HttpStatus.GetReason(code)
      ensures r == "" <==> code !in HttpStatus.Reasons
    {
      HttpStatus.GetReason(GetCode())
    }

    /** The catalogue's description of the stored code; "" exactly when the
        code is not listed. */
    function GetDescription(): (r: string)
      ensures r == HttpStatus.GetDescription(code)
      ensures r == "" <==> code !in HttpStatus.Descriptions
    {
      HttpStatus.GetDescription(GetCode())
    }

    function IsInformational(): (b: bool)
      ensures b <==> HttpStatus.IsInformational(code)
    {
      HttpStatus.IsInformational(GetCode())
    }

    function IsSuccessful(): (b: bool)
      ensures b <==> HttpStatus.IsSuccessful(code)
    {
      HttpStatus.IsSuccessful(GetCode())
    }

    function IsRedirection(): (b: bool)
      ensures b <==> HttpStatus.IsRedirection(code)
    {
      HttpStatus.IsRedirection(GetCode())
    }

    function IsClientError(): (b: bool)
      ensures b <==> HttpStatus.IsClientError(code)
    {
      HttpStatus.IsClientError(GetCode())
    }

    function IsServerError(): (b: bool)
      ensures b <==> HttpStatus.IsServerError(code)
    {
      HttpStatus.IsServerError(GetCode())
    }

    /** The decimal text of the stored code: canonical (a '-' only for
        negative codes, no leading zeros), and parsing it gives the code
        back. */
    function ToString(): (r: string)
      ensures Decimal.IsCanonicalInt(r)
      ensures Decimal.ParseDecimal(r) == Some(code)
    {
      Decimal.IntToDecimal(GetCode())
    }
  }

  /** Two status-code objects print the same text only if they hold the same
      code. */
  lemma ToStringDeterminesCode(a: HttpStatusCode, b: HttpStatusCode)
    requires a.ToString() == b.ToString()
    ensures a.GetCode() == b.GetCode()
  {
  }

  /** Whatever the stored code, at most one class query answers true, and
      one does exactly when the code lies in [100, 600). */
  lemma AtMostOneClass(h: HttpStatusCode)
    ensures HttpStatus.ClassCount(h.GetCode()) <= 1
    ensures HttpStatus.ClassCount(h.GetCode()) == 1 <==> 100 <= h.GetCode() < 600
  {
    HttpStatus.ClassesPartition(h.GetCode());
  }

  /** The object for 200: its text is "200", its phrase "OK", it has a
      description, and it is successful, not informational. */
  lemma Code200(h: HttpStatusCode)
    requires h.code == 200
    ensures h.GetCode() == 200
    ensures h.ToString() == "200"
    ensures h.GetReason() == "OK"
    ensures h.GetDescription() != ""
    ensures h.IsSuccessful() && !h.IsInformational()
  {
    assert Decimal.NatToDecimal(2) == "2";
    assert Decimal.NatToDecimal(20) == "20";
  }

  /** Class queries on the codes 100, 201, 301, 404 and 500. */
  lemma ClassExamples(h100: HttpStatusCode, h201: HttpStatusCode, h301: HttpStatusCode,
                      h404: HttpStatusCode, h500: HttpStatusCode)
    requires h100.code == 100 && h201.code == 201 && h301.code == 301
    requires h404.code == 404 && h500.code == 500
    ensures h100.IsInformational() && !h201.IsInformational()
    ensures h201.IsSuccessful() && !h100.IsSuccessful()
    ensures h301.IsRedirection() && !h100.IsRedirection()
    ensures h404.IsClientError() && !h100.IsClientError()
    ensures h500.IsServerError() && !h100.IsServerError()
  {
  }

  /** A negative code is stored and printed as it is, and is neither listed
      nor in any class. */
  lemma NegativeCode(h: HttpStatusCode)
    requires h.code == -42
    ensures h.GetCode() == -42
    ensures h.ToString() == "-42"
    ensures h.GetReason() == "" && h.GetDescription() == ""
    ensures HttpStatus.ClassCount(h.GetCode()) == 0
  {
    assert Decimal.NatToDecimal(4) == "4";
    assert Decimal.NatToDecimal(42) == "42";
  }
}

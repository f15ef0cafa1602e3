/** The HTTP response value of aioarangodb/response.py: the ten slot fields,
    the constructor that stores six of them (lower-casing the method) and leaves
    the four derived ones unset, and the later step that fills the derived ones in. */
module Responses {
  import opened Wrappers
  import opened JsonData

  /** One field per entry of `__slots__`, in the same order; the derived fields
      (`body`, `error_code`, `error_message`, `is_success`) are `None` until populated. */
  datatype Response = Response(
    httpMethod: string,
    url: string,
    headers: map<string, string>,
    statusCode: int,
    statusText: string,
    body: Option<Json>,
    rawBody: string,
    errorCode: Option<int>,
    errorMessage: Option<string>,
    isSuccess: Option<bool>)

  // ---------------------------------------------------------------------------
  // ASCII lower-casing (the part of `str.lower` this model covers)
  // ---------------------------------------------------------------------------

  predicate IsUpper(c: char)
  {
    'A' <= c <= 'Z'
  }

  /** ASCII `A`..`Z` become `a`..`z`; every other character is left alone. */
  function LowerChar(c: char): (d: char)
    ensures !IsUpper(d)
    ensures !IsUpper(c) ==> d == c
    ensures IsUpper(c) ==> 'a' <= d <= 'z' && d as int - c as int == 'a' as int - 'A' as int
  {
    if IsUpper(c) then (c as int - 'A' as int + 'a' as int) as char else c
  }

  /** No character of `s` is an upper-case ASCII letter. */
  predicate IsLowerAscii(s: string)
  {
    forall i :: 0 <= i < |s| ==> !IsUpper(s[i])
  }

  /** `a` and `b` agree position by position once case is ignored. */
  predicate SameIgnoringCase(a: string, b: string)
  {
    |a| == |b| && forall i :: 0 <= i < |a| ==> LowerChar(a[i]) == LowerChar(b[i])
  }

  function ToLower(s: string): (r: string)
    ensures IsLowerAscii(r)
    ensures SameIgnoringCase(r, s)
  {
    if s == [] then [] else [LowerChar(s[0])] + ToLower(s[1..])
  }

  /** A lower-case string equal to `s` ignoring case is unique: it is `ToLower(s)`. */
  lemma LowerUnique(s: string, t: string)
    requires IsLowerAscii(t)
    requires SameIgnoringCase(t, s)
    ensures t == ToLower(s)
  {
  }

  /** Lower-casing a string that is already lower-case leaves it unchanged. */
  lemma LowerFixesLowercase(s: string)
    requires IsLowerAscii(s)
    ensures ToLower(s) == s
  {
  }

  /** Lower-casing is idempotent. */
  lemma LowerIdempotent(s: string)
    ensures ToLower(ToLower(s)) == ToLower(s)
  {
  }

  // ---------------------------------------------------------------------------
  // Construction and population
  // ---------------------------------------------------------------------------

  /** `Response.__init__`: the method is stored lower-cased, the other five
      arguments verbatim, and every derived field starts unset. */
  function NewResponse(httpMethod: string, url: string, headers: map<string, string>,
                       statusCode: int, statusText: string, rawBody: string): (r: Response)
    ensures IsLowerAscii(r.httpMethod) && SameIgnoringCase(r.httpMethod, httpMethod)
    ensures r.url == url && r.headers == headers && r.statusCode == statusCode
    ensures r.statusText == statusText && r.rawBody == rawBody
    ensures r.body.None? && r.errorCode.None? && r.errorMessage.None? && r.isSuccess.None?
  {
    Response(ToLower(httpMethod), url, headers, statusCode, statusText, None, rawBody, None, None, None)
  }

  /** Constructing from an already lower-case method stores the method unchanged. */
  lemma NewResponseKeepsLowercaseMethod(httpMethod: string, url: string, headers: map<string, string>,
                                        statusCode: int, statusText: string, rawBody: string)
    requires IsLowerAscii(httpMethod)
    ensures NewResponse(httpMethod, url, headers, statusCode, statusText, rawBody).httpMethod == httpMethod
  {
  }

  /** A status code in the 2XX range. */
  predicate IsTwoXX(statusCode: int)
  {
    200 <= statusCode < 300
  }

  /** A response whose derived `is_success` flag has been set, and set as documented:
      true exactly when the status code is 2XX. */
  predicate WellPopulated(r: Response)
  {
    r.isSuccess.Some? && (r.isSuccess.value <==> IsTwoXX(r.statusCode))
  }

  /** The later step that fills in the derived fields of a constructed response
      (the code doing it is not part of this model; the decoded body and the
      server's error code and message are its inputs). */
  function Populate(r: Response, body: Json, errorCode: Option<int>, errorMessage: Option<string>): (p: Response)
    ensures WellPopulated(p)
    ensures p.body == Some(body) && p.errorCode == errorCode && p.errorMessage == errorMessage
    ensures p.httpMethod == r.httpMethod && p.url == r.url && p.headers == r.headers
    ensures p.statusCode == r.statusCode && p.statusText == r.statusText && p.rawBody == r.rawBody
  {
    r.(body := Some(body), errorCode := errorCode, errorMessage := errorMessage,
       isSuccess := Some(IsTwoXX(r.statusCode)))
  }

  /** A freshly constructed response is not yet populated; populating it once
      makes it so. */
  lemma NewResponseNotPopulated(httpMethod: string, url: string, headers: map<string, string>,
                                statusCode: int, statusText: string, rawBody: string,
                                body: Json, errorCode: Option<int>, errorMessage: Option<string>)
    ensures !WellPopulated(NewResponse(httpMethod, url, headers, statusCode, statusText, rawBody))
    ensures WellPopulated(Populate(NewResponse(httpMethod, url, headers, statusCode, statusText, rawBody),
                                   body, errorCode, errorMessage))
  {
  }
}

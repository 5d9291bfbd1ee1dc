/** The pure helpers of `las/client.py`: `dictstrip`, the exception family,
    `_json_decode`'s classification of a response, `_fatal_code`, and the
    bytes branch of `parse_content`. */
module Client {
  import opened Wrappers
  import opened Json
  import Base64
  import opened Text

  /** `dictstrip(d)`: the entries of `d` whose value is truthy. */
  function Dictstrip(d: Dict): (r: Dict)
    ensures forall k :: k in r <==> k in d && Truthy(d[k])
    ensures forall k :: k in r ==> r[k] == d[k]
  {
    map k | k in d && Truthy(d[k]) :: d[k]
  }

  /** Stripping is idempotent: what survives once survives again. */
  lemma DictstripIdempotent(d: Dict)
    ensures Dictstrip(Dictstrip(d)) == Dictstrip(d)
  {
    var once := Dictstrip(d);
    assert Dictstrip(once).Keys == once.Keys;
  }

  /** Stripping removes None, the empty string and False, and keeps the
      one non-empty description. */
  lemma DictstripExample()
    ensures Dictstrip(map["name" := JStr(""), "description" := JStr("d"), "x" := JNull])
         == map["description" := JStr("d")]
  {
    var d := map["name" := JStr(""), "description" := JStr("d"), "x" := JNull];
    assert Dictstrip(d).Keys == {"description"};
  }

  /** The exceptions a call of `_make_request` can end in. The first three are
      the `ClientException` subclasses the SDK raises itself; `HttpError` and
      `TransportError` are the `requests.RequestException` family; the last two
      are the Python errors the classification code itself can raise. */
  datatype Failure =
    | InvalidCredentials          // InvalidCredentialsException
    | TooManyRequests             // TooManyRequestsException
    | LimitExceeded               // LimitExceededException
    | HttpError(status: int)      // requests.HTTPError from raise_for_status, with its response
    | TransportError(attached: Option<int>)
        // any other RequestException (connection error, timeout, ...); the status
        // of the response it carries, if it carries one
    | DecodeError                 // json.JSONDecodeError
    | AttributeError              // an attribute looked up on a value that lacks it

  /** `isinstance(e, ClientException)`. */
  predicate IsClientException(f: Failure) {
    f.InvalidCredentials? || f.TooManyRequests? || f.LimitExceeded?
  }

  /** `isinstance(e, requests.RequestException)`. */
  predicate IsRequestException(f: Failure) {
    f.HttpError? || f.TransportError?
  }

  /** The typed exceptions are client exceptions and not request exceptions,
      so the inner retry of `_make_request` never catches them. */
  lemma TypedExceptionsAreNotRequestExceptions(f: Failure)
    requires IsClientException(f)
    ensures !IsRequestException(f)
  {
  }

  /** `e.response.status_code` for a request exception: an `AttributeError`
      when the exception carries no response. */
  function ResponseStatus(f: Failure): (r: Result<int, Failure>)
    requires IsRequestException(f)
    ensures r.Failure? <==> f == TransportError(None)
    ensures r.Failure? ==> r.error == AttributeError
  {
    match f
    case HttpError(s) => Success(s)
    case TransportError(attached) =>
      if attached.Some? then Success(attached.value) else Failure(AttributeError)
  }

  /** `_fatal_code(e)`: a 4xx status stops the retry. */
  function FatalCode(f: Failure): (r: Result<bool, Failure>)
    requires IsRequestException(f)
    ensures r.Success? <==> ResponseStatus(f).Success?
    ensures r.Success? ==> (r.value <==> 400 <= ResponseStatus(f).value < 500)
    ensures r.Failure? ==> r.error == AttributeError
  {
    match ResponseStatus(f)
    case Success(s) => Success(400 <= s < 500)
    case Failure(e) => Failure(e)
  }

  /** The body of an HTTP response, as `response.json()` sees it. */
  datatype Body = Parsed(value: Json) | Unparsable

  datatype Response = Response(status: int, body: Body)

  /** `response.raise_for_status()` raises for client and server errors. */
  predicate RaisesForStatus(status: int) {
    400 <= status < 600
  }

  /** The placeholder `_json_decode` returns for a 204 without a JSON body. */
  const NoContentPayload: Json := JObject(map["Your request executed successfully" := JStr("204")])

  /** `sentinel in response.json().values()`, with the errors that expression
      raises when the body is not JSON or not a JSON object. */
  function SentinelIn(body: Body, sentinel: string): (r: Result<bool, Failure>)
    ensures r.Success? <==> body.Parsed? && body.value.JObject?
    ensures r == Failure(DecodeError) <==> body.Unparsable?
    ensures r.Success? ==> (r.value <==> JStr(sentinel) in body.value.fields.Values)
    ensures body.Parsed? && !body.value.JObject? ==> r == Failure(AttributeError)
  {
    match body
    case Unparsable => Failure(DecodeError)
    case Parsed(v) =>
      if v.JObject? then Success(JStr(sentinel) in v.fields.Values) else Failure(AttributeError)
  }

  /** `body` is a JSON object one of whose values is exactly `sentinel`. */
  predicate Carries(body: Body, sentinel: string) {
    body.Parsed? && body.value.JObject? && JStr(sentinel) in body.value.fields.Values
  }

  /** `_json_decode(response)`. */
  function JsonDecode(r: Response): Result<Json, Failure> {
    if !RaisesForStatus(r.status) then
      match r.body
      case Parsed(v) => Success(v)
      case Unparsable => if r.status == 204 then Success(NoContentPayload) else Failure(DecodeError)
    else if r.status == 403 then
      match SentinelIn(r.body, "Forbidden")
      case Failure(e) => Failure(e)
      case Success(found) => if found then Failure(InvalidCredentials) else Failure(HttpError(r.status))
    else if r.status == 429 then
      match SentinelIn(r.body, "Too Many Requests")
      case Failure(e) => Failure(e)
      case Success(found) =>
        if found then Failure(TooManyRequests)
        else if SentinelIn(r.body, "Limit Exceeded").value then Failure(LimitExceeded)
        else Failure(HttpError(r.status))
    else
      Failure(HttpError(r.status))
  }

  /** `_json_decode` returns the JSON body, or the 204 placeholder, exactly
      for a status `raise_for_status` accepts; a body that is not JSON is
      otherwise a decode error. */
  lemma JsonDecodeSuccess(r: Response)
    ensures JsonDecode(r).Success? <==> !RaisesForStatus(r.status) && (r.body.Parsed? || r.status == 204)
    ensures JsonDecode(r).Success? && r.body.Parsed? ==> JsonDecode(r).value == r.body.value
    ensures JsonDecode(r).Success? && r.body.Unparsable? ==> JsonDecode(r).value == NoContentPayload
    ensures !RaisesForStatus(r.status) && r.body.Unparsable? && r.status != 204 ==> JsonDecode(r) == Failure(DecodeError)
  {
  }

  /** The typed exceptions, in the order `_json_decode` tests for them. */
  lemma JsonDecodeTypedExceptions(r: Response)
    ensures JsonDecode(r) == Failure(InvalidCredentials) <==> r.status == 403 && Carries(r.body, "Forbidden")
    ensures JsonDecode(r) == Failure(TooManyRequests) <==> r.status == 429 && Carries(r.body, "Too Many Requests")
    ensures JsonDecode(r) == Failure(LimitExceeded) <==>
      r.status == 429 && Carries(r.body, "Limit Exceeded") && !Carries(r.body, "Too Many Requests")
  {
  }

  /** Otherwise the HTTPError is re-raised with the response's status,
      unless looking into the body failed. */
  lemma JsonDecodeHttpError(r: Response)
    ensures JsonDecode(r).Failure? && JsonDecode(r).error.HttpError? ==>
      JsonDecode(r).error.status == r.status && RaisesForStatus(r.status)
    ensures RaisesForStatus(r.status) && r.status != 403 && r.status != 429 ==> JsonDecode(r) == Failure(HttpError(r.status))
    ensures JsonDecode(r).Failure? && IsRequestException(JsonDecode(r).error) ==> JsonDecode(r).error.HttpError?
  {
  }

  /** A 403 or 429 whose body cannot be searched raises what the search
      raises: the decode error for a body that is not JSON, and
      `AttributeError` for a JSON body that is not an object. */
  lemma JsonDecodeUnsearchableBody(r: Response)
    requires r.status == 403 || r.status == 429
    ensures r.body.Unparsable? ==> JsonDecode(r) == Failure(DecodeError)
    ensures r.body.Parsed? && !r.body.value.JObject? ==> JsonDecode(r) == Failure(AttributeError)
  {
  }

  /** The text of a `bytes` object made of ASCII codes (`bytes.decode()`). */
  function AsText(bs: Bytes): (s: string)
    ensures |s| == |bs|
    ensures forall i :: 0 <= i < |bs| ==> s[i] as int == bs[i]
  {
    seq(|bs|, i requires 0 <= i < |bs| => bs[i] as char)
  }

  /** What the bytes branch of `parse_content` encodes: the strict base64
      decoding of the content when there is one, the content itself otherwise. */
  function RawContent(content: Bytes): Bytes {
    match Base64.Decode(content)
    case Some(raw) => raw
    case None => content
  }

  /** `parse_content(content)` for `bytes` and `bytearray`. */
  function ParseContentBytes(content: Bytes): string {
    AsText(Base64.Encode(RawContent(content)))
  }

  /** The text `parse_content` returns for bytes is ASCII base64 that the
      strict decoder maps back to the raw content. */
  lemma ParseContentBytesDecodes(content: Bytes)
    ensures forall i :: 0 <= i < |ParseContentBytes(content)| ==> ParseContentBytes(content)[i] as int < 128
    ensures |ParseContentBytes(content)| % 4 == 0
    ensures Base64.Decode(Utf8(ParseContentBytes(content))) == Some(RawContent(content))
  {
    var encoded := Base64.Encode(RawContent(content));
    Base64.DecodeEncode(RawContent(content));
    Utf8Ascii(AsText(encoded));
    assert Utf8(AsText(encoded)) == encoded;
  }

  /** The text is empty exactly when the raw content is: empty bytes, or a
      valid base64 text that decodes to nothing, such as "==". */
  lemma ParseContentBytesEmpty(content: Bytes)
    ensures ParseContentBytes(content) == "" <==> RawContent(content) == []
  {
    Base64.EncodeEmpty(RawContent(content));
  }

  /** "==" is accepted by the strict decoder and decodes to nothing. */
  lemma PaddingOnlyDecodesToNothing()
    ensures RawContent([Base64.Pad, Base64.Pad]) == []
  {
    var s: Bytes := [Base64.Pad, Base64.Pad];
    assert Base64.TrailingPads(s) == 2;
    assert Base64.DataPart(s) == [];
  }

  /** Content that is already what `parse_content` returns is left as it is:
      feeding the result back in as bytes gives the same text. */
  lemma ParseContentBytesIdempotent(content: Bytes)
    ensures ParseContentBytes(Utf8(ParseContentBytes(content))) == ParseContentBytes(content)
  {
    ParseContentBytesDecodes(content);
    var s := ParseContentBytes(content);
    var raw := RawContent(content);
    assert RawContent(Utf8(s)) == raw;
  }
}

/** `las/authorization.py`: `Authorization`, the variant signer that signs a
    fixed set of three headers and refuses to sign a query string. The
    timestamp is a parameter in place of the clock read of `_timestamp()`. */
module Authorization {
  import opened Wrappers
  import opened Json
  import opened Text
  import opened SigV4
  import Credentials
  import Auth

  /** `NotImplementedError`, raised for a query string. */
  datatype SignError = QuerystringNotImplemented

  /** `_get_canonical_querystring(querystring)`. */
  function CanonicalQuerystring(query: string): (r: Result<string, SignError>)
    ensures r.Success? <==> query == ""
    ensures r.Success? ==> r.value == ""
  {
    if query != "" then Failure(QuerystringNotImplemented) else Success("")
  }

  /** The headers of the canonical request: host, date and API key, kept
      whatever their values. */
  function CanonicalHeaders(c: Credentials.Credentials, uri: Uri, amzDate: string): Headers {
    [("host", uri.netloc), ("x-amz-date", amzDate), ("x-api-key", c.apiKey)]
  }

  /** `_get_canonical_request(...)`: the encoded lines of the request with
      an empty query and the signed header names, or the query-string error. */
  function CanonicalRequest(p: Primitives, c: Credentials.Credentials, uri: Uri, verb: string, body: Bytes, amzDate: string)
    : (r: Result<(Bytes, seq<string>), SignError>)
    ensures r.Success? <==> uri.query == ""
    ensures r.Success? ==> r.value.0 == Utf8(Join("\n", CanonicalLines(verb, uri.path, "", CanonicalHeaders(c, uri, amzDate), Sha256Hex(p, body))))
    ensures r.Success? ==> r.value.1 == ["host", "x-amz-date", "x-api-key"]
  {
    match CanonicalQuerystring(uri.query)
    case Failure(e) => Failure(e)
    case Success(query) =>
      var headers := CanonicalHeaders(c, uri, amzDate);
      CanonicalTextLines(verb, uri.path, query, headers, Sha256Hex(p, body));
      Success((Utf8(CanonicalText(verb, uri.path, query, headers, Sha256Hex(p, body))), Names(headers)))
  }

  /** When none of its pieces holds a newline, the canonical request reads
      back line by line: method, path, an empty query, the three header
      lines whatever their values, an empty line, the signed header names
      and the payload digest. */
  lemma CanonicalRequestLines(c: Credentials.Credentials, uri: Uri, verb: string, body: Bytes, amzDate: string, p: Primitives)
    requires '\n' !in verb && '\n' !in uri.path && uri.query == ""
    requires '\n' !in uri.netloc && '\n' !in amzDate && '\n' !in c.apiKey
    ensures Split(CanonicalText(verb, uri.path, "", CanonicalHeaders(c, uri, amzDate), Sha256Hex(p, body)), '\n')
         == [verb, uri.path, "", "host:" + uri.netloc, "x-amz-date:" + amzDate, "x-api-key:" + c.apiKey,
             "", "host;x-amz-date;x-api-key", Sha256Hex(p, body)]
  {
    DigestLine(p, body);
    CanonicalTextSplitThree(verb, uri.path, "", "host", uri.netloc, "x-amz-date", amzDate, "x-api-key", c.apiKey, Sha256Hex(p, body));
    assert "host" + ";" + "x-amz-date" + ";" + "x-api-key" == "host;x-amz-date;x-api-key";
    assert "host" + ":" + uri.netloc == "host:" + uri.netloc;
    assert "x-amz-date" + ":" + amzDate == "x-amz-date:" + amzDate;
    assert "x-api-key" + ":" + c.apiKey == "x-api-key:" + c.apiKey;
  }

  /** `_build_auth_header(...)`: date, API key and the Authorization value,
      those with a falsy value dropped. */
  function BuildAuthHeader(
    amzDate: string, accessKey: string, apiKey: string, signature: string,
    scope: string, signedHeaders: seq<string>): Headers
  {
    KeepTruthy([
      ("x-amz-date", Some(amzDate)),
      ("x-api-key", Some(apiKey)),
      ("Authorization", Some(AuthorizationValue(accessKey, scope, signedHeaders, signature)))])
  }

  /** At most the date, the API key and the Authorization value, the last
      always there and last, and never a session token. */
  lemma BuildAuthHeaderKept(
    amzDate: string, accessKey: string, apiKey: string, signature: string,
    scope: string, signedHeaders: seq<string>)
    ensures var h := BuildAuthHeader(amzDate, accessKey, apiKey, signature, scope, signedHeaders);
      && h == Kept("x-amz-date", Some(amzDate)) + Kept("x-api-key", Some(apiKey))
              + [("Authorization", AuthorizationValue(accessKey, scope, signedHeaders, signature))]
      && Lookup(h, "x-amz-security-token") == None
  {
    var v := AuthorizationValue(accessKey, scope, signedHeaders, signature);
    KeepTruthyThree(("x-amz-date", Some(amzDate)), ("x-api-key", Some(apiKey)), ("Authorization", Some(v)));
    assert |Algorithm| > 0;
    assert v != "";
    KeptThreeWithout("x-amz-date", Some(amzDate), "x-api-key", Some(apiKey), "Authorization", Some(v), "x-amz-security-token");
  }

  /** `sign_headers(uri, verb, body)` at the moment `t`. */
  function SignHeaders(p: Primitives, c: Credentials.Credentials, uri: Uri, verb: string, body: Option<Bytes>, t: DateTime)
    : Result<Headers, SignError>
  {
    var payload := if body.None? || body.value == [] then [] else body.value;
    var amzDate := AmzDate(t);
    var datestamp := Datestamp(t);
    match CanonicalRequest(p, c, uri, verb, payload, amzDate)
    case Failure(e) => Failure(e)
    case Success((request, signedHeaders)) =>
      var scope := Scope(datestamp);
      var toSign := StringToSign(amzDate, scope, Sha256Hex(p, request));
      var signature := Signature(p, SigningKey(p, c.secretAccessKey, datestamp), toSign);
      Success(BuildAuthHeader(amzDate, c.accessKeyId, c.apiKey, signature, scope, signedHeaders))
  }

  /** A query string is refused; without one, signing succeeds and no
      security-token header is sent. */
  lemma SignHeadersOutcome(p: Primitives, c: Credentials.Credentials, uri: Uri, verb: string, body: Option<Bytes>, t: DateTime)
    ensures SignHeaders(p, c, uri, verb, body, t).Failure? <==> uri.query != ""
    ensures SignHeaders(p, c, uri, verb, body, t).Failure? ==>
      SignHeaders(p, c, uri, verb, body, t).error == QuerystringNotImplemented
    ensures SignHeaders(p, c, uri, verb, body, t).Success? ==>
      Lookup(SignHeaders(p, c, uri, verb, body, t).value, "x-amz-security-token") == None
  {
    if uri.query == "" {
      var payload := if body.None? || body.value == [] then [] else body.value;
      var (request, signedHeaders) := CanonicalRequest(p, c, uri, verb, payload, AmzDate(t)).value;
      var toSign := StringToSign(AmzDate(t), Scope(Datestamp(t)), Sha256Hex(p, request));
      var signature := Signature(p, SigningKey(p, c.secretAccessKey, Datestamp(t)), toSign);
      BuildAuthHeaderKept(AmzDate(t), c.accessKeyId, c.apiKey, signature, Scope(Datestamp(t)), signedHeaders);
    }
  }

  /** Without a query string, and with a host and an API key, the two
      canonical requests coincide. */
  lemma CanonicalRequestAgrees(p: Primitives, c: Credentials.Credentials, uri: Uri, verb: string, body: Bytes, amzDate: string)
    requires uri.query == "" && uri.netloc != "" && c.apiKey != "" && amzDate != ""
    ensures CanonicalRequest(p, c, uri, verb, body, amzDate) == Success(Auth.CanonicalRequest(p, Auth.NewSigner(c), uri, verb, body, amzDate))
  {
    Auth.CanonicalHeadersKept(Auth.NewSigner(c), uri, amzDate);
    assert Auth.CanonicalHeaders(Auth.NewSigner(c), uri, amzDate) == CanonicalHeaders(c, uri, amzDate);
  }

  /** Without a session token, the two output header sets coincide. */
  lemma BuildAuthHeaderAgrees(
    amzDate: string, accessKey: string, apiKey: string, signature: string,
    scope: string, signedHeaders: seq<string>)
    ensures BuildAuthHeader(amzDate, accessKey, apiKey, signature, scope, signedHeaders)
         == Auth.BuildAuthHeader(amzDate, accessKey, apiKey, signature, scope, signedHeaders, None)
  {
    BuildAuthHeaderKept(amzDate, accessKey, apiKey, signature, scope, signedHeaders);
    Auth.BuildAuthHeaderKept(amzDate, accessKey, apiKey, signature, scope, signedHeaders, None);
    assert Kept("x-amz-security-token", None) == [];
  }

  /** Where the two signers can agree they do: with no query string and a
      host, this signer's headers are those of `AWSSignatureV4` built from
      the same credentials. */
  lemma AgreesWithAuth(p: Primitives, c: Credentials.Credentials, uri: Uri, verb: string, body: Option<Bytes>, t: DateTime)
    requires uri.query == "" && uri.netloc != "" && c.apiKey != ""
    ensures SignHeaders(p, c, uri, verb, body, t) == Success(Auth.SignHeaders(p, Auth.NewSigner(c), uri, verb, body, t))
  {
    var amzDate := AmzDate(t);
    var payload := if body.None? || body.value == [] then [] else body.value;
    CanonicalRequestAgrees(p, c, uri, verb, payload, amzDate);
    var (request, signedHeaders) := CanonicalRequest(p, c, uri, verb, payload, amzDate).value;
    var toSign := StringToSign(amzDate, Scope(Datestamp(t)), Sha256Hex(p, request));
    var signature := Signature(p, SigningKey(p, c.secretAccessKey, Datestamp(t)), toSign);
    BuildAuthHeaderAgrees(amzDate, c.accessKeyId, c.apiKey, signature, Scope(Datestamp(t)), signedHeaders);
  }
}

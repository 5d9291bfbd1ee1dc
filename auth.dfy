/** `las/auth.py`: `AWSSignatureV4`, which signs a request with the
    canonical request built from the headers that have a value. The
    timestamp is a parameter in place of the clock read of `timestamp()`. */
module Auth {
  import opened Wrappers
  import opened Json
  import opened Text
  import opened SigV4
  import Credentials

  /** What `AWSSignatureV4.__init__` stores; region and service are the
      constants `Region` and `Service`. */
  datatype Signer = Signer(accessKey: string, secretKey: string, apiKey: string, sessionToken: Option<string>)

  /** `AWSSignatureV4(credentials)`: the keys of the credentials, no session token. */
  function NewSigner(c: Credentials.Credentials): (s: Signer)
    ensures s.sessionToken == None
    ensures s.accessKey == c.accessKeyId && s.secretKey == c.secretAccessKey && s.apiKey == c.apiKey
  {
    Signer(c.accessKeyId, c.secretAccessKey, c.apiKey, None)
  }

  /** `get_canonical_querystring(querystring)`: the query as it is. */
  function CanonicalQuerystring(query: string): (q: string)
    ensures q == query
  {
    query
  }

  /** The headers of the canonical request: host, date, session token and
      API key, in that order, those with a falsy value dropped. */
  function CanonicalHeaders(s: Signer, uri: Uri, amzDate: string): Headers {
    KeepTruthy([
      ("host", Some(uri.netloc)),
      ("x-amz-date", Some(amzDate)),
      ("x-amz-security-token", s.sessionToken),
      ("x-api-key", Some(s.apiKey))])
  }

  /** The filter keeps the fixed order and drops exactly the empty values. */
  lemma CanonicalHeadersKept(s: Signer, uri: Uri, amzDate: string)
    ensures CanonicalHeaders(s, uri, amzDate)
         == Kept("host", Some(uri.netloc)) + Kept("x-amz-date", Some(amzDate))
            + Kept("x-amz-security-token", s.sessionToken) + Kept("x-api-key", Some(s.apiKey))
  {
    KeepTruthyFour(("host", Some(uri.netloc)), ("x-amz-date", Some(amzDate)),
      ("x-amz-security-token", s.sessionToken), ("x-api-key", Some(s.apiKey)));
  }

  /** A signer without a session token never signs a token header, and the
      date is always signed. */
  lemma CanonicalHeadersWithoutToken(s: Signer, uri: Uri, amzDate: string)
    requires s.sessionToken == None && amzDate != ""
    ensures "x-amz-security-token" !in Names(CanonicalHeaders(s, uri, amzDate))
    ensures "x-amz-date" in Names(CanonicalHeaders(s, uri, amzDate))
  {
    CanonicalHeadersKept(s, uri, amzDate);
  }

  /** The text of the canonical request: method, path, query, header lines,
      signed header names and payload digest, one per line. */
  function CanonicalRequestText(p: Primitives, s: Signer, uri: Uri, verb: string, body: Bytes, amzDate: string): string {
    CanonicalText(verb, uri.path, CanonicalQuerystring(uri.query), CanonicalHeaders(s, uri, amzDate), Sha256Hex(p, body))
  }

  /** `get_canonical_request(...)`: the encoded lines of the request, the
      query among them as it came, and the signed header names. */
  function CanonicalRequest(p: Primitives, s: Signer, uri: Uri, verb: string, body: Bytes, amzDate: string)
    : (r: (Bytes, seq<string>))
    ensures r.0 == Utf8(Join("\n", CanonicalLines(verb, uri.path, uri.query, CanonicalHeaders(s, uri, amzDate), Sha256Hex(p, body))))
    ensures r.1 == Names(CanonicalHeaders(s, uri, amzDate))
  {
    CanonicalTextLines(verb, uri.path, uri.query, CanonicalHeaders(s, uri, amzDate), Sha256Hex(p, body));
    (Utf8(CanonicalRequestText(p, s, uri, verb, body, amzDate)), Names(CanonicalHeaders(s, uri, amzDate)))
  }

  /** When none of its pieces holds a newline, the canonical request reads
      back line by line: method, path, the query unchanged, one
      "name:value" line per kept header, an empty line, the signed header
      names and the payload digest. */
  lemma CanonicalRequestLines(p: Primitives, s: Signer, uri: Uri, verb: string, body: Bytes, amzDate: string)
    requires '\n' !in verb && '\n' !in uri.path && '\n' !in uri.query
    requires '\n' !in uri.netloc && '\n' !in amzDate && '\n' !in s.apiKey
    requires s.sessionToken.Some? ==> '\n' !in s.sessionToken.value
    ensures Split(CanonicalRequestText(p, s, uri, verb, body, amzDate), '\n')
         == [verb, uri.path, uri.query] + HeaderLineList(CanonicalHeaders(s, uri, amzDate))
            + ["", Join(";", Names(CanonicalHeaders(s, uri, amzDate))), Sha256Hex(p, body)]
  {
    KeepTruthyAvoids([
      ("host", Some(uri.netloc)),
      ("x-amz-date", Some(amzDate)),
      ("x-amz-security-token", s.sessionToken),
      ("x-api-key", Some(s.apiKey))], '\n');
    DigestLine(p, body);
    CanonicalTextSplit(verb, uri.path, uri.query, CanonicalHeaders(s, uri, amzDate), Sha256Hex(p, body));
  }

  /** `build_auth_header(...)`: date, session token, API key and the
      Authorization value, those with a falsy value dropped. */
  function BuildAuthHeader(
    amzDate: string, accessKey: string, apiKey: string, signature: string,
    scope: string, signedHeaders: seq<string>, sessionToken: Option<string>): Headers
  {
    KeepTruthy([
      ("x-amz-date", Some(amzDate)),
      ("x-amz-security-token", sessionToken),
      ("x-api-key", Some(apiKey)),
      ("Authorization", Some(AuthorizationValue(accessKey, scope, signedHeaders, signature)))])
  }

  /** The Authorization value is always there, and last; the other headers
      are there exactly when their values are not empty. */
  lemma BuildAuthHeaderKept(
    amzDate: string, accessKey: string, apiKey: string, signature: string,
    scope: string, signedHeaders: seq<string>, sessionToken: Option<string>)
    ensures var h := BuildAuthHeader(amzDate, accessKey, apiKey, signature, scope, signedHeaders, sessionToken);
      && h == Kept("x-amz-date", Some(amzDate)) + Kept("x-amz-security-token", sessionToken)
              + Kept("x-api-key", Some(apiKey)) + [("Authorization", AuthorizationValue(accessKey, scope, signedHeaders, signature))]
      && h[|h| - 1] == ("Authorization", AuthorizationValue(accessKey, scope, signedHeaders, signature))
  {
    var v := AuthorizationValue(accessKey, scope, signedHeaders, signature);
    KeepTruthyFour(("x-amz-date", Some(amzDate)), ("x-amz-security-token", sessionToken),
      ("x-api-key", Some(apiKey)), ("Authorization", Some(v)));
    assert |Algorithm| > 0;
    assert v != "";
  }

  /** `sign_headers(uri, verb, body)` at the moment `t`: a missing or
      empty body is signed as the empty byte string. */
  function SignHeaders(p: Primitives, s: Signer, uri: Uri, verb: string, body: Option<Bytes>, t: DateTime): Headers {
    var payload := if body.None? || body.value == [] then [] else body.value;
    var amzDate := AmzDate(t);
    var datestamp := Datestamp(t);
    var (request, signedHeaders) := CanonicalRequest(p, s, uri, verb, payload, amzDate);
    var scope := Scope(datestamp);
    var toSign := StringToSign(amzDate, scope, Sha256Hex(p, request));
    var signature := Signature(p, SigningKey(p, s.secretKey, datestamp), toSign);
    BuildAuthHeader(amzDate, s.accessKey, s.apiKey, signature, scope, signedHeaders, s.sessionToken)
  }

  /** No body and an empty body give the same headers. */
  lemma SignHeadersEmptyBody(p: Primitives, s: Signer, uri: Uri, verb: string, t: DateTime)
    ensures SignHeaders(p, s, uri, verb, None, t) == SignHeaders(p, s, uri, verb, Some([]), t)
  {
  }

  /** The signed header names in the Authorization value are the names the
      canonical request lists, and the signature is the HMAC of the string
      to sign under the signing key. */
  lemma SignHeadersAuthorization(p: Primitives, s: Signer, uri: Uri, verb: string, body: Bytes, t: DateTime)
    ensures var h := SignHeaders(p, s, uri, verb, Some(body), t);
      var request := CanonicalRequest(p, s, uri, verb, body, AmzDate(t)).0;
      var toSign := StringToSign(AmzDate(t), Scope(Datestamp(t)), Sha256Hex(p, request));
      h[|h| - 1] == ("Authorization", AuthorizationValue(
        s.accessKey, Scope(Datestamp(t)),
        Names(CanonicalHeaders(s, uri, AmzDate(t))),
        Signature(p, SigningKey(p, s.secretKey, Datestamp(t)), toSign)))
  {
    var request := CanonicalRequest(p, s, uri, verb, body, AmzDate(t)).0;
    var toSign := StringToSign(AmzDate(t), Scope(Datestamp(t)), Sha256Hex(p, request));
    var signature := Signature(p, SigningKey(p, s.secretKey, Datestamp(t)), toSign);
    BuildAuthHeaderKept(AmzDate(t), s.accessKey, s.apiKey, signature, Scope(Datestamp(t)),
      Names(CanonicalHeaders(s, uri, AmzDate(t))), s.sessionToken);
  }

  /** Without a session token, the output carries no token header. */
  lemma BuildAuthHeaderWithoutToken(
    amzDate: string, accessKey: string, apiKey: string, signature: string,
    scope: string, signedHeaders: seq<string>)
    ensures Lookup(BuildAuthHeader(amzDate, accessKey, apiKey, signature, scope, signedHeaders, None), "x-amz-security-token") == None
  {
    var h := BuildAuthHeader(amzDate, accessKey, apiKey, signature, scope, signedHeaders, None);
    BuildAuthHeaderKept(amzDate, accessKey, apiKey, signature, scope, signedHeaders, None);
    assert forall i :: 0 <= i < |h| ==> h[i].0 != "x-amz-security-token";
    LookupAbsent(h, "x-amz-security-token");
  }

  /** A signer made from credentials sends no security-token header. */
  lemma SignHeadersWithoutToken(p: Primitives, c: Credentials.Credentials, uri: Uri, verb: string, body: Option<Bytes>, t: DateTime)
    ensures Lookup(SignHeaders(p, NewSigner(c), uri, verb, body, t), "x-amz-security-token") == None
  {
    var s := NewSigner(c);
    var payload := if body.None? || body.value == [] then [] else body.value;
    var request := CanonicalRequest(p, s, uri, verb, payload, AmzDate(t)).0;
    var toSign := StringToSign(AmzDate(t), Scope(Datestamp(t)), Sha256Hex(p, request));
    var signature := Signature(p, SigningKey(p, s.secretKey, Datestamp(t)), toSign);
    BuildAuthHeaderWithoutToken(AmzDate(t), s.accessKey, s.apiKey, signature, Scope(Datestamp(t)),
      Names(CanonicalHeaders(s, uri, AmzDate(t))));
  }
}

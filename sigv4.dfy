/** The parts of AWS Signature Version 4 that `las/auth.py` and
    `las/authorization.py` build in the same way: the timestamp texts, the
    credential scope, the string to sign, the signing key and the header
    dictionaries. SHA-256 and HMAC-SHA-256 are given as a `Primitives`
    value; the model assembles their inputs and passes their outputs on. */
module SigV4 {
  import opened Wrappers
  import opened Json
  import opened Text

  const Algorithm := "AWS4-HMAC-SHA256"
  const Region := "eu-west-1"
  const Service := "execute-api"
  const Terminator := "aws4_request"

  /** `hashlib.sha256(data).digest()` and `hmac.new(key, msg, hashlib.sha256).digest()`. */
  datatype Primitives = Primitives(sha256: Bytes -> Bytes, hmac: (Bytes, Bytes) -> Bytes)

  /** `hashlib.sha256(data).hexdigest()`. */
  function Sha256Hex(p: Primitives, data: Bytes): string {
    Hex(p.sha256(data))
  }

  /** The parts of a parsed URL the signers read. */
  datatype Uri = Uri(netloc: string, path: string, query: string)

  /** A moment as `datetime.datetime.utcnow()` returns it. */
  datatype DateTime = DateTime(year: nat, month: nat, day: nat, hour: nat, minute: nat, second: nat)

  /** The ranges `datetime` allows. */
  predicate ValidDateTime(t: DateTime) {
    1 <= t.year <= 9999 && 1 <= t.month <= 12 && 1 <= t.day <= 31 &&
    t.hour < 24 && t.minute < 60 && t.second < 60
  }

  /** `now.strftime('%Y%m%d')`. */
  function Datestamp(t: DateTime): (s: string)
    ensures |s| == 8
    ensures forall i :: 0 <= i < 8 ==> IsDigit(s[i])
  {
    Digits(t.year, 4) + Digits(t.month, 2) + Digits(t.day, 2)
  }

  /** `now.strftime('%Y%m%dT%H%M%SZ')`. */
  function AmzDate(t: DateTime): (s: string)
    ensures |s| == 16
  {
    Datestamp(t) + "T" + Digits(t.hour, 2) + Digits(t.minute, 2) + Digits(t.second, 2) + "Z"
  }

  /** The datestamp is the first eight characters of the date. */
  lemma DatestampIsPrefix(t: DateTime)
    ensures Datestamp(t) == AmzDate(t)[..8]
  {
  }

  /** The date text has no line break and no slash, so it cannot blur the
      lines of the string to sign or the parts of the scope. */
  lemma AmzDateCharacters(t: DateTime)
    ensures '\n' !in AmzDate(t) && '/' !in AmzDate(t)
    ensures '\n' !in Datestamp(t) && '/' !in Datestamp(t)
  {
    var s := AmzDate(t);
    forall i | 0 <= i < |s|
      ensures s[i] != '\n' && s[i] != '/'
    {
      if 8 < i < 15 {
        assert s[9..15] == Digits(t.hour, 2) + Digits(t.minute, 2) + Digits(t.second, 2);
        assert s[i] == s[9..15][i - 9];
      }
    }
  }

  /** The inverse of `AmzDate` for the texts it writes. */
  function ParseAmzDate(s: string): Option<DateTime> {
    if |s| == 16 && s[8] == 'T' && s[15] == 'Z' && (forall i :: 0 <= i < 16 && i != 8 && i != 15 ==> IsDigit(s[i])) then
      Some(DateTime(Value(s[0..4]), Value(s[4..6]), Value(s[6..8]), Value(s[9..11]), Value(s[11..13]), Value(s[13..15])))
    else
      None
  }

  /** Formatting a valid moment loses nothing. */
  lemma ParseAmzDateRoundTrip(t: DateTime)
    requires ValidDateTime(t)
    ensures ParseAmzDate(AmzDate(t)) == Some(t)
  {
    var s := AmzDate(t);
    assert s[0..4] == Digits(t.year, 4);
    assert s[4..6] == Digits(t.month, 2);
    assert s[6..8] == Digits(t.day, 2);
    assert s[9..11] == Digits(t.hour, 2);
    assert s[11..13] == Digits(t.minute, 2);
    assert s[13..15] == Digits(t.second, 2);
    assert forall i :: 0 <= i < 16 && i != 8 && i != 15 ==> IsDigit(s[i]) by {
      forall i | 0 <= i < 16 && i != 8 && i != 15
        ensures IsDigit(s[i])
      {
        if i < 8 {
        } else if i < 11 {
          assert s[i] == s[9..11][i - 9];
        } else if i < 13 {
          assert s[i] == s[11..13][i - 11];
        } else {
          assert s[i] == s[13..15][i - 13];
        }
      }
    }
    ValueDigits(t.year, 4);
    ValueDigits(t.month, 2);
    ValueDigits(t.day, 2);
    ValueDigits(t.hour, 2);
    ValueDigits(t.minute, 2);
    ValueDigits(t.second, 2);
  }

  /** `get_credential_scope(datestamp)`: the four scope parts joined by '/'. */
  function Scope(datestamp: string): (s: string)
    ensures s == datestamp + "/eu-west-1/execute-api/aws4_request"
  {
    JoinFour("/", datestamp, Region, Service, Terminator);
    Join("/", [datestamp, Region, Service, Terminator])
  }

  /** A scope splits back into the datestamp, region, service and terminator. */
  lemma ScopeParts(datestamp: string)
    requires '/' !in datestamp
    ensures Split(Scope(datestamp), '/') == [datestamp, Region, Service, Terminator]
  {
    SplitJoin([datestamp, Region, Service, Terminator], '/');
  }

  /** The text of `get_sign_string`: algorithm, date, scope and request
      digest on four lines. */
  function SignText(amzDate: string, scope: string, digest: string): string {
    Join("\n", [Algorithm, amzDate, scope, digest])
  }

  /** `get_sign_string(...)`: that text, UTF-8 encoded. */
  function StringToSign(amzDate: string, scope: string, digest: string): Bytes {
    Utf8(SignText(amzDate, scope, digest))
  }

  /** The text to sign consists of exactly its four lines, in order. */
  lemma SignTextLines(amzDate: string, scope: string, digest: string)
    requires '\n' !in amzDate && '\n' !in scope && '\n' !in digest
    ensures Split(SignText(amzDate, scope, digest), '\n') == [Algorithm, amzDate, scope, digest]
  {
    SplitJoin([Algorithm, amzDate, scope, digest], '\n');
  }

  /** For the inputs the signers actually use, the four lines are the
      algorithm, the date, the scope and the request digest. */
  lemma SignTextOfTimestamp(p: Primitives, t: DateTime, request: Bytes)
    ensures Split(SignText(AmzDate(t), Scope(Datestamp(t)), Sha256Hex(p, request)), '\n')
         == [Algorithm, AmzDate(t), Scope(Datestamp(t)), Sha256Hex(p, request)]
  {
    AmzDateCharacters(t);
    var scope := Scope(Datestamp(t));
    forall i | 0 <= i < |scope|
      ensures scope[i] != '\n'
    {
      if i < 8 {
        assert scope[i] == Datestamp(t)[i];
      }
    }
    SignTextLines(AmzDate(t), scope, Sha256Hex(p, request));
  }

  /** The key after HMAC-ing `key` with each part in turn. */
  function HmacChain(p: Primitives, key: Bytes, parts: seq<string>): Bytes
    decreases |parts|
  {
    if |parts| == 0 then key else HmacChain(p, p.hmac(key, Utf8(parts[0])), parts[1..])
  }

  function ScopeParts4(datestamp: string): seq<string> {
    [datestamp, Region, Service, Terminator]
  }

  /** The signing key: the HMAC chain over the scope parts, seeded with
      "AWS4" and the secret key. */
  function SigningKey(p: Primitives, secretKey: string, datestamp: string): Bytes {
    HmacChain(p, Utf8("AWS4" + secretKey), ScopeParts4(datestamp))
  }

  lemma {:induction false} HmacChainFour(p: Primitives, key: Bytes, a: string, b: string, c: string, d: string)
    ensures HmacChain(p, key, [a, b, c, d]) == p.hmac(p.hmac(p.hmac(p.hmac(key, Utf8(a)), Utf8(b)), Utf8(c)), Utf8(d))
  {
    var k1 := p.hmac(key, Utf8(a));
    var k2 := p.hmac(k1, Utf8(b));
    var k3 := p.hmac(k2, Utf8(c));
    assert [a, b, c, d][1..] == [b, c, d];
    assert [b, c, d][1..] == [c, d];
    assert [c, d][1..] == [d];
    assert [d][1..] == [];
    assert HmacChain(p, k3, [d]) == p.hmac(k3, Utf8(d));
    assert HmacChain(p, k2, [c, d]) == HmacChain(p, k3, [d]);
    assert HmacChain(p, k1, [b, c, d]) == HmacChain(p, k2, [c, d]);
  }

  /** The chain written out: four nested HMACs, innermost the datestamp. */
  lemma SigningKeyNested(p: Primitives, secretKey: string, datestamp: string)
    ensures SigningKey(p, secretKey, datestamp)
         == p.hmac(p.hmac(p.hmac(p.hmac(Utf8("AWS4" + secretKey), Utf8(datestamp)), Utf8(Region)), Utf8(Service)),
                   Utf8(Terminator))
  {
    HmacChainFour(p, Utf8("AWS4" + secretKey), datestamp, Region, Service, Terminator);
  }

  /** The loop of `get_signature_key`: the key reassigned to its HMAC with
      each part in turn. */
  method SignParts(p: Primitives, key: Bytes, parts: seq<string>) returns (signature: Bytes)
    ensures signature == HmacChain(p, key, parts)
  {
    signature := key;
    for i := 0 to |parts|
      invariant HmacChain(p, signature, parts[i..]) == HmacChain(p, key, parts)
    {
      assert parts[i..][1..] == parts[i + 1..];
      signature := p.hmac(signature, Utf8(parts[i]));
    }
  }

  /** `get_signature_key(secret_key, datestamp)`. */
  method GetSignatureKey(p: Primitives, secretKey: string, datestamp: string) returns (signature: Bytes)
    ensures signature == SigningKey(p, secretKey, datestamp)
  {
    signature := SignParts(p, Utf8("AWS4" + secretKey), ScopeParts4(datestamp));
  }

  /** An ordered header dictionary. */
  type Headers = seq<(string, string)>

  /** `headers[name]`, or `None` when absent. */
  function Lookup(h: Headers, name: string): Option<string> {
    if |h| == 0 then None
    else if h[0].0 == name then Some(h[0].1)
    else Lookup(h[1..], name)
  }

  function Names(h: Headers): (names: seq<string>)
    ensures |names| == |h|
    ensures forall i :: 0 <= i < |h| ==> names[i] == h[i].0
  {
    if |h| == 0 then [] else [h[0].0] + Names(h[1..])
  }

  /** A name no entry carries is not found. */
  lemma {:induction false} LookupAbsent(h: Headers, name: string)
    requires name !in Names(h)
    ensures Lookup(h, name) == None
  {
    if |h| > 0 {
      assert Names(h[1..]) == Names(h)[1..];
      LookupAbsent(h[1..], name);
    }
  }

  /** A header value is truthy when it is present and not empty. */
  predicate Present(v: Option<string>) {
    v.Some? && v.value != ""
  }

  /** One entry as the comprehension keeps it. */
  function Kept(name: string, v: Option<string>): (h: Headers)
    ensures |h| <= 1
    ensures h == [] <==> !Present(v)
  {
    if Present(v) then [(name, v.value)] else []
  }

  /** `{k: v for k, v in headers.items() if v}`. */
  function KeepTruthy(hs: seq<(string, Option<string>)>): Headers {
    if |hs| == 0 then [] else Kept(hs[0].0, hs[0].1) + KeepTruthy(hs[1..])
  }

  /** The comprehension keeps the truthy entries and their order: filtering
      a list is filtering each entry and concatenating. */
  lemma {:induction false} KeepTruthyAppend(a: seq<(string, Option<string>)>, b: seq<(string, Option<string>)>)
    ensures KeepTruthy(a + b) == KeepTruthy(a) + KeepTruthy(b)
  {
    if |a| == 0 {
      assert a + b == b;
    } else {
      var head := Kept(a[0].0, a[0].1);
      assert (a + b)[0] == a[0];
      assert (a + b)[1..] == a[1..] + b;
      KeepTruthyAppend(a[1..], b);
      calc {
        KeepTruthy(a + b);
        head + KeepTruthy(a[1..] + b);
        head + (KeepTruthy(a[1..]) + KeepTruthy(b));
        (head + KeepTruthy(a[1..])) + KeepTruthy(b);
      }
    }
  }

  lemma KeepTruthyOne(name: string, v: Option<string>)
    ensures KeepTruthy([(name, v)]) == Kept(name, v)
  {
    assert [(name, v)][1..] == [];
    assert Kept(name, v) + [] == Kept(name, v);
  }

  /** The comprehension over three entries, entry by entry. */
  lemma KeepTruthyThree(a: (string, Option<string>), b: (string, Option<string>), c: (string, Option<string>))
    ensures KeepTruthy([a, b, c]) == Kept(a.0, a.1) + Kept(b.0, b.1) + Kept(c.0, c.1)
  {
    assert [a, b, c] == [a] + [b] + [c];
    KeepTruthyAppend([a] + [b], [c]);
    KeepTruthyAppend([a], [b]);
    KeepTruthyOne(a.0, a.1);
    KeepTruthyOne(b.0, b.1);
    KeepTruthyOne(c.0, c.1);
  }

  /** The comprehension over four entries, entry by entry. */
  lemma KeepTruthyFour(
    a: (string, Option<string>), b: (string, Option<string>), c: (string, Option<string>), d: (string, Option<string>))
    ensures KeepTruthy([a, b, c, d]) == Kept(a.0, a.1) + Kept(b.0, b.1) + Kept(c.0, c.1) + Kept(d.0, d.1)
  {
    assert [a, b, c, d] == [a, b, c] + [d];
    KeepTruthyAppend([a, b, c], [d]);
    KeepTruthyThree(a, b, c);
    KeepTruthyOne(d.0, d.1);
  }

  /** Three filtered entries, none called `name`, have no value under `name`. */
  lemma KeptThreeWithout(
    n1: string, v1: Option<string>, n2: string, v2: Option<string>, n3: string, v3: Option<string>, name: string)
    requires name != n1 && name != n2 && name != n3
    ensures Lookup(Kept(n1, v1) + Kept(n2, v2) + Kept(n3, v3), name) == None
  {
    var h := Kept(n1, v1) + Kept(n2, v2) + Kept(n3, v3);
    assert forall i :: 0 <= i < |h| ==> h[i].0 == n1 || h[i].0 == n2 || h[i].0 == n3;
    LookupAbsent(h, name);
  }

  /** The header lines of the canonical request, each "name:value\n". */
  function HeaderLines(h: Headers): string {
    if |h| == 0 then "" else h[0].0 + ":" + h[0].1 + "\n" + HeaderLines(h[1..])
  }

  /** The header block line by line, each "name:value" without its newline. */
  function HeaderLineList(h: Headers): (lines: seq<string>)
    ensures |lines| == |h|
    ensures forall i :: 0 <= i < |h| ==> lines[i] == h[i].0 + ":" + h[i].1
  {
    if |h| == 0 then [] else [h[0].0 + ":" + h[0].1] + HeaderLineList(h[1..])
  }

  /** The header block, a newline and further lines read as the header
      lines, one empty line, and the further lines. */
  lemma {:induction false} HeaderBlockLines(h: Headers, rest: seq<string>)
    requires |rest| >= 1
    ensures HeaderLines(h) + "\n" + Join("\n", rest) == Join("\n", HeaderLineList(h) + [""] + rest)
  {
    if |h| == 0 {
      assert HeaderLineList(h) + [""] + rest == [""] + rest;
      assert ([""] + rest)[1..] == rest;
    } else {
      var line := h[0].0 + ":" + h[0].1;
      var tail := HeaderLineList(h[1..]) + [""] + rest;
      HeaderBlockLines(h[1..], rest);
      assert HeaderLineList(h) + [""] + rest == [line] + tail;
      assert ([line] + tail)[1..] == tail;
    }
  }

  /** The text of a canonical request: method, path, query, header block,
      signed header names and payload digest, joined by newlines. */
  function CanonicalText(verb: string, path: string, query: string, h: Headers, digest: string): string {
    Join("\n", [verb, path, query, HeaderLines(h), Join(";", Names(h)), digest])
  }

  /** The lines of a canonical request: method, path and query, one line per
      header, an empty line, the signed header names and the digest. */
  function CanonicalLines(verb: string, path: string, query: string, h: Headers, digest: string): seq<string> {
    [verb, path, query] + HeaderLineList(h) + ["", Join(";", Names(h)), digest]
  }

  /** The canonical text is its lines joined by newlines. */
  lemma CanonicalTextLines(verb: string, path: string, query: string, h: Headers, digest: string)
    ensures CanonicalText(verb, path, query, h, digest) == Join("\n", CanonicalLines(verb, path, query, h, digest))
  {
    var names := Join(";", Names(h));
    var head := [verb, path, query];
    assert [verb, path, query, HeaderLines(h), names, digest] == head + [HeaderLines(h), names, digest];
    JoinAppend("\n", head, [HeaderLines(h), names, digest]);
    assert [HeaderLines(h), names, digest][1..] == [names, digest];
    HeaderBlockLines(h, [names, digest]);
    JoinAppend("\n", head, HeaderLineList(h) + [""] + [names, digest]);
    assert head + (HeaderLineList(h) + [""] + [names, digest]) == CanonicalLines(verb, path, query, h, digest);
  }

  /** The canonical text over three headers, read back line by line. */
  lemma CanonicalTextSplitThree(
    verb: string, path: string, query: string,
    n1: string, v1: string, n2: string, v2: string, n3: string, v3: string, digest: string)
    requires '\n' !in verb && '\n' !in path && '\n' !in query && '\n' !in digest
    requires '\n' !in n1 && '\n' !in v1 && '\n' !in n2 && '\n' !in v2 && '\n' !in n3 && '\n' !in v3
    ensures Split(CanonicalText(verb, path, query, [(n1, v1), (n2, v2), (n3, v3)], digest), '\n')
         == [verb, path, query, n1 + ":" + v1, n2 + ":" + v2, n3 + ":" + v3, "", n1 + ";" + n2 + ";" + n3, digest]
  {
    var h := [(n1, v1), (n2, v2), (n3, v3)];
    assert Avoids(h, '\n');
    CanonicalTextSplit(verb, path, query, h, digest);
    assert Names(h) == [n1, n2, n3];
    JoinThree(";", n1, n2, n3);
    assert HeaderLineList(h) == [n1 + ":" + v1, n2 + ":" + v2, n3 + ":" + v3];
  }

  /** No header name or value contains `c`. */
  predicate Avoids(h: Headers, c: char) {
    forall i :: 0 <= i < |h| ==> c !in h[i].0 && c !in h[i].1
  }

  /** The filter keeps only entries it was given, so it adds no `c`. */
  lemma {:induction false} KeepTruthyAvoids(hs: seq<(string, Option<string>)>, c: char)
    requires forall i :: 0 <= i < |hs| ==> c !in hs[i].0 && (hs[i].1.Some? ==> c !in hs[i].1.value)
    ensures Avoids(KeepTruthy(hs), c)
  {
    if |hs| > 0 {
      KeepTruthyAvoids(hs[1..], c);
      var k := Kept(hs[0].0, hs[0].1);
      assert Avoids(k, c);
      assert KeepTruthy(hs) == k + KeepTruthy(hs[1..]);
    }
  }

  /** A hexadecimal digest contains no newline. */
  lemma DigestLine(p: Primitives, data: Bytes)
    ensures '\n' !in Sha256Hex(p, data)
  {
    var s := Sha256Hex(p, data);
    assert forall i :: 0 <= i < |s| ==> IsHexDigit(s[i]) && s[i] != '\n';
  }

  /** When no piece contains a newline, splitting the canonical text at
      newlines gives back exactly its lines. */
  lemma CanonicalTextSplit(verb: string, path: string, query: string, h: Headers, digest: string)
    requires '\n' !in verb && '\n' !in path && '\n' !in query && '\n' !in digest
    requires Avoids(h, '\n')
    ensures Split(CanonicalText(verb, path, query, h, digest), '\n') == CanonicalLines(verb, path, query, h, digest)
  {
    CanonicalTextLines(verb, path, query, h, digest);
    var names := Names(h);
    assert forall i :: 0 <= i < |names| ==> '\n' !in names[i];
    JoinAvoids(";", names, '\n');
    var lines := CanonicalLines(verb, path, query, h, digest);
    var hl := HeaderLineList(h);
    assert forall i :: 0 <= i < |hl| ==> '\n' !in hl[i];
    assert forall i :: 0 <= i < |lines| ==> '\n' !in lines[i] by {
      forall i | 0 <= i < |lines|
        ensures '\n' !in lines[i]
      {
        if 3 <= i < 3 + |hl| {
          assert lines[i] == hl[i - 3];
        }
      }
    }
    assert "\n" == ['\n'];
    SplitJoin(lines, '\n');
  }

  /** The value of the `Authorization` header. */
  function AuthorizationValue(accessKey: string, scope: string, signedHeaders: seq<string>, signature: string): string {
    Algorithm + " " + Join(", ", [
      "Credential=" + accessKey + "/" + scope,
      "SignedHeaders=" + Join(";", signedHeaders),
      "Signature=" + signature])
  }

  /** `hmac.new(signing_key, string_to_sign, hashlib.sha256).hexdigest()`. */
  function Signature(p: Primitives, key: Bytes, toSign: Bytes): (s: string)
    ensures forall i :: 0 <= i < |s| ==> IsHexDigit(s[i])
    ensures |s| == 2 * |p.hmac(key, toSign)|
    ensures Unhex(s) == p.hmac(key, toSign)
  {
    UnhexHex(p.hmac(key, toSign));
    Hex(p.hmac(key, toSign))
  }
}

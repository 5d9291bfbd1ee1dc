# A Dafny model of the core of the Lucidtech `las` Python SDK

This project models the parts of the `las` SDK that hold logic rather than
I/O, and proves properties about them:

- **The low-level client** (`las/client.py`):
  - `dictstrip`;
  - the exception family (`ClientException` and its subclasses, next to the
    `requests` exceptions);
  - `_json_decode`, which turns an HTTP response into a JSON value, the
    synthetic 204 payload or a typed exception;
  - `_fatal_code`;
  - the bytes branch of `parse_content`, a base64 normaliser, together with
    CPython's `b64encode` and `b64decode(validate=True)`;
  - `_make_request`: the request it assembles, and the two stacked
    `backoff.on_exception` decorators that bound its attempts;
  - the request bodies and query parameters that the resource methods build
    with `dictstrip` and `**optional_args`.
- **The two AWS Signature Version 4 signers**:
  - `AWSSignatureV4` (`las/auth.py`);
  - `Authorization` (`las/authorization.py`).
  
  The model covers the canonical request, the credential scope, the string
  to sign, the HMAC chain that derives the signing key, the output headers
  and the timestamp formatting. It also proves where the two signers agree.
- **Credential resolution** (`las/credentials.py`): explicit arguments, or
  the `default` section of a configuration file, followed by validation.
- **The result value objects** `Field` (`las/field.py`, and its copy in
  `las/prediction.py`) and `Prediction` (`las/prediction.py`).

## How the model is organised

- Every core file is one module. `Client`, `ClientRetry` and `ClientBodies`
  together cover `las/client.py`.
- `SigV4` holds the pieces the two signers share. `Text` and `Base64` hold
  string and byte helpers. `Json` holds JSON values, bytes and Python
  truthiness. `Wrappers` holds `Option` and `Result`.
- The signers' header dicts, whose insertion order is signed, become
  ordered sequences `seq<(string, string)>`. JSON bodies and other dicts
  become `map<string, Json>`.
- Python exceptions become the error side of a `Result`.
- Inputs in place of the outside world:
  - SHA-256 and HMAC-SHA256 are the fields of a `SigV4.Primitives` value of
    function type, so every property holds for any hash function;
  - the clock is a `SigV4.DateTime` parameter;
  - the configuration file system is a map from path to parsed sections;
  - the network is a function from HTTP call number to the way that call
    ends (`ClientRetry.Exchange`).
- Loops and in-place updates in the source become methods proved against a
  specification function:
  - the signing-key loop is `SigV4.GetSignatureKey`, proved against
    `SigV4.SigningKey`;
  - the retry decorators are `ClientRetry.InnerRetry` (a loop) and
    `ClientRetry.OuterRetry`, proved against `Inner` and `Outer`;
  - the `.update(**optional_args)` bodies are methods whose result is pinned
    down by `ClientBodies.StrippedThenOverlaid`;
  - the reassignment in `Credentials.__init__` is `Credentials.NewCredentials`.

Where the source's behaviour differs from what its documentation suggests,
the model follows the code:

- `_json_decode` calls `raise_for_status`, which raises for any status in
  [400, 600). A status outside that range therefore counts as success, not
  only a 2xx status.
- The `JSONDecodeError` caught in `_json_decode` is the one from the standard
  `json` module, and it is not a `RequestException`. The inner retry
  decorator therefore never retries an unparsable success body.
- A `RequestException` without a response makes `_fatal_code` raise
  `AttributeError`. That error escapes both decorators, so transport failures
  are not retried at all.
- The 403 and 429 checks call `response.json().values()`:
  - an unparsable error body raises a decode error there;
  - a JSON body that is not an object raises `AttributeError`.

## Model

| member | source | states |
|---|---|---|
| Client.Dictstrip | las/client.py:27-29 | the result keeps exactly the keys whose values are truthy, each with its value unchanged |
| Client.DictstripIdempotent | las/client.py:27-29 | stripping twice equals stripping once |
| Client.DictstripExample | las/client.py:27-29 | an empty string and None are removed and a non-empty string is kept |
| Client.TypedExceptionsAreNotRequestExceptions | las/client.py:100-120 | the `ClientException` family (invalid credentials, too many requests, limit exceeded) is disjoint from `RequestException` |
| Client.ResponseStatus | las/client.py:32-33 | `e.response.status_code` fails with `AttributeError` exactly for a request exception that carries no response |
| Client.FatalCode | las/client.py:32-33 | `_fatal_code` holds exactly when the attached status is in [400, 500), and raises `AttributeError` when there is no response |
| Client.SentinelIn | las/client.py:50-56 | `sentinel in response.json().values()` succeeds exactly for a JSON object body and holds iff some value equals the string; an unparsable body raises the decode error and a JSON body that is not an object raises `AttributeError` |
| Client.JsonDecodeSuccess | las/client.py:36-46 | decoding succeeds iff `raise_for_status` passes and the body parses or the status is 204; the result is the parsed body, or the synthetic 204 payload; any other unparsable body re-raises the decode error |
| Client.JsonDecodeTypedExceptions | las/client.py:47-57 | `InvalidCredentials` iff 403 with a `'Forbidden'` value; `TooManyRequests` iff 429 with `'Too Many Requests'`; `LimitExceeded` iff 429 with `'Limit Exceeded'` and not `'Too Many Requests'` |
| Client.JsonDecodeHttpError | las/client.py:47-59 | any other status in [400, 600) re-raises the `HTTPError` with that status, and the only request exception `_json_decode` raises is that `HTTPError` |
| Client.JsonDecode | las/client.py:36-59 | no contract of its own; specified by `JsonDecodeSuccess`, `JsonDecodeTypedExceptions`, `JsonDecodeHttpError` and `JsonDecodeUnsearchableBody` |
| Client.JsonDecodeUnsearchableBody | las/client.py:47-56 | a 403 or 429 with an unparsable body raises the decode error, and one with a JSON body that is not an object raises `AttributeError` |
| Client.AsText | las/client.py:90 | `.decode()` of ASCII bytes keeps one character per byte, with the same code |
| Client.ParseContentBytes | las/client.py:83-90 | no contract of its own; specified by `ParseContentBytesDecodes`, `ParseContentBytesEmpty` and `ParseContentBytesIdempotent` |
| Client.ParseContentBytesDecodes | las/client.py:83-90 | the output is ASCII, its length is a multiple of four, and strict base64 decoding of it gives back the bytes chosen by the `try` (decoded input, or the raw input) |
| Client.ParseContentBytesEmpty | las/client.py:83-90 | the output is empty exactly when the chosen bytes are empty |
| Client.PaddingOnlyDecodesToNothing | las/client.py:86-89 | the input `==` is valid strict base64 that decodes to no bytes, so its normalised form is empty |
| Client.ParseContentBytesIdempotent | las/client.py:83-90 | feeding the output back in as bytes gives the same string |
| Base64.Padding | las/client.py:90 | `b64encode` pads a final group of one or two bytes with two or one `=` |
| Base64.Encode | las/client.py:90 | the encoding has a length that is a multiple of four and consists of alphabet characters and `=` only, all ASCII |
| Base64.Decode | las/client.py:87 | `b64decode(validate=True)` accepts exactly the inputs whose data part is in the alphabet and whose padding is accepted |
| Base64.EncodeEmpty | las/client.py:90 | only the empty byte string encodes to the empty text |
| Base64.TrailingPadsOfEncode | las/client.py:90 | an encoding ends in exactly the padding its length calls for, after the data characters |
| Base64.DecodeEncode | las/client.py:87-90 | decoding an encoding gives back the original bytes |
| ClientRetry.PrepareRequest | las/client.py:148-160 | one attempt sends URL endpoint + path, exactly three headers (`Authorization: Bearer <token>`, `X-Api-Key`, `Content-Type: application/json`), the params unchanged, and a data payload iff the body is not None |
| ClientRetry.Inner | las/client.py:137 | no contract of its own; specified by `InnerCalls`, `ThreeRetriableFailures` and `InnerRetry` |
| ClientRetry.Outer | las/client.py:136 | no contract of its own; specified by `OuterStop`, `OuterContinue`, `OuterCalls`, `AlwaysTooManyRequests` and `OuterRetry` |
| ClientRetry.InnerRetry | las/client.py:136-137 | the loop of the inner decorator ends in the result and the call count of `Inner`, and every HTTP call sends the prepared request |
| ClientRetry.OuterRetry | las/client.py:136 | the outer decorator ends in the result and the call count of `Outer`, and every call sends the prepared request |
| ClientRetry.MakeRequest | las/client.py:136-161 | `_make_request` ends as `Outer` from the first attempt, makes between 1 and 12 HTTP calls, and every call sends the same prepared request |
| ClientRetry.AllSendAppend | las/client.py:156-160 | the calls of consecutive runs all send the same request |
| ClientRetry.OuterStop | las/client.py:136 | the outer decorator ends after an inner run it gives up on, with that run's result |
| ClientRetry.OuterContinue | las/client.py:136 | after an inner run ending in `TooManyRequests` before the fourth try, the outer decorator's calls are that run's calls plus those of the next try |
| ClientRetry.InnerCalls | las/client.py:137 | the inner decorator makes at least one and at most its remaining tries of HTTP calls |
| ClientRetry.OuterCalls | las/client.py:136-137 | each remaining outer try costs at most three HTTP calls |
| ClientRetry.AtMostTwelveCalls | las/client.py:136-137 | one logical request makes between 1 and 4 × 3 = 12 HTTP calls |
| ClientRetry.AlwaysTooManyRequests | las/client.py:136 | when every attempt raises `TooManyRequestsException`, it is raised after exactly the remaining outer tries |
| ClientRetry.RateLimitedDecodes | las/client.py:53-54 | a 429 response with the value `'Too Many Requests'` decodes to `TooManyRequestsException` |
| ClientRetry.RateLimitedFourTimes | las/client.py:53-54 | when every HTTP call is rate limited, `_make_request` raises `TooManyRequestsException` after exactly four calls |
| ClientRetry.FirstAttemptFinal | las/client.py:136-137 | a first attempt that succeeds or raises anything neither decorator retries (invalid credentials, limit exceeded, a decode error, a 4xx `HTTPError`) is final after one call |
| ClientRetry.TransportFailureNotRetried | las/client.py:32-33 | a transport error with no response ends the request after one call, with the `AttributeError` raised by `_fatal_code` |
| ClientRetry.ServerErrorRetriable | las/client.py:32-38 | a 5xx response becomes an `HTTPError` that the inner decorator retries |
| ClientRetry.ThreeRetriableFailures | las/client.py:137 | three retriable failures in a row exhaust the inner budget: the third is raised after three calls |
| ClientRetry.WorstCaseTwelveCalls | las/client.py:136-137 | two server errors followed by a rate limit, three times over, and then server errors: twelve HTTP calls, so the bound of twelve is reached |
| ClientBodies.Overlay | las/client.py:182-185 | `{**base, **args}`: the keys of both, and on a clash the argument wins |
| ClientBodies.StrippedThenOverlaid | las/client.py:582-583 | describes `dictstrip(named)` followed by `.update(**args)`: the arguments are kept verbatim and a named field survives iff it is truthy and not overlaid |
| ClientBodies.StrippedThenOverlaidUnique | las/client.py:582-583 | that description determines the body |
| ClientBodies.OverlayStripped | las/client.py:582-583 | `Overlay(Dictstrip(named), args)` meets the description |
| ClientBodies.CreateAssetBody | las/client.py:182-185 | the body is the normalised content followed by the optional arguments, which win on a clash |
| ClientBodies.UpdateAssetBody | las/client.py:249-253 | no content leaves the arguments as they are; a truthy content is replaced by its normalised string; an empty bytes content is left in and makes JSON serialisation fail |
| ClientBodies.CreateDocumentBody | las/client.py:305-312 | each of the five fields is sent iff its value is truthy, and then with the value given (content as its normalised string, sent iff that string is not empty); no other key is sent |
| ClientBodies.CreatePredictionBody | las/client.py:479-486 | each of the five fields is sent iff truthy and then with the value given, so `maxPages` is sent iff it is given and not 0 and `autoRotate` iff it is True; no other key is sent |
| ClientBodies.FieldThenArgs | las/client.py:531-534 | `create_secret` and `create_user`: the positional field, then the optional arguments, which win on a clash |
| ClientBodies.UpdateSecretBody | las/client.py:582-584 | `data` is stripped, then the optional arguments are overlaid unstripped |
| ClientBodies.CreateTransitionBody | las/client.py:632-639 | the two schemas, the type and the parameters are stripped, then the optional arguments are overlaid |
| ClientBodies.UpdateTransitionBody | las/client.py:723-728 | the two schemas are stripped, then the optional arguments are overlaid |
| ClientBodies.CreateWorkflowBody | las/client.py:1033-1039 | the specification and the error configuration are stripped, then the optional arguments are overlaid |
| ClientBodies.OverlayKeepsFalsyArgument | las/client.py:1033-1037 | an empty specification is stripped, but a falsy value passed through `**optional_args` is sent |
| ClientBodies.UpdateTransitionExecutionBody | las/client.py:873-879 | each of status, output, error and start time is sent iff it is truthy, and then with the value given (the start time as its text); nothing else is sent |
| ClientBodies.ListTransitionsParams | las/client.py:666-672 | each query parameter is sent iff it is truthy, and then with the value given; no other key is sent |
| ClientBodies.ListTransitionExecutionsParams | las/client.py:803-812 | each of the six query parameters is sent iff it is truthy, and then with the value given; no other key is sent |
| SigV4.Datestamp | las/auth.py:117-122 | `%Y%m%d` is eight digits |
| SigV4.AmzDate | las/auth.py:117-122 | `%Y%m%dT%H%M%SZ` is sixteen characters |
| SigV4.DatestampIsPrefix | las/auth.py:117-122 | the datestamp is the first eight characters of the amz date |
| SigV4.AmzDateCharacters | las/auth.py:117-122 | neither timestamp string contains a newline or a slash |
| SigV4.ParseAmzDateRoundTrip | las/authorization.py:112-117 | the amz date of a valid moment determines that moment |
| SigV4.Scope | las/auth.py:58-60 | the scope is `datestamp/eu-west-1/execute-api/aws4_request` |
| SigV4.ScopeParts | las/authorization.py:53-55 | splitting the scope at `/` gives back the datestamp, region, service and terminator |
| SigV4.SignTextLines | las/auth.py:54-56 | the string to sign splits into the four lines algorithm, amz date, scope and digest |
| SigV4.SignTextOfTimestamp | las/authorization.py:49-51 | for a timestamp and a request digest, the string to sign has exactly those four lines |
| SigV4.SignText | las/auth.py:54-56 | no contract of its own; specified by `SignTextLines` |
| SigV4.StringToSign | las/auth.py:54-56 | no contract of its own: the UTF-8 encoding of `SignText`, whose lines `SignTextLines` states |
| SigV4.HmacChain | las/auth.py:86-91 | no contract of its own; specified by `HmacChainFour` and computed by `SignParts` |
| SigV4.SigningKey | las/auth.py:89-91 | no contract of its own; specified by `SigningKeyNested` and computed by `GetSignatureKey` |
| SigV4.HmacChainFour | las/auth.py:86-91 | folding HMAC over four parts is the four nested HMAC applications |
| SigV4.SigningKeyNested | las/authorization.py:81-89 | the signing key is HMAC(HMAC(HMAC(HMAC('AWS4' + secret, date), 'eu-west-1'), 'execute-api'), 'aws4_request') |
| SigV4.SignParts | las/auth.py:89-91 | the loop computes the HMAC fold over the parts |
| SigV4.GetSignatureKey | las/auth.py:85-93 | `get_signature_key` returns the signing key |
| SigV4.Names | las/auth.py:79 | `headers.keys()` lists the header names in order |
| SigV4.LookupAbsent | las/auth.py:114-115 | a header whose name is not listed has no value |
| SigV4.Kept | las/auth.py:69 | a header survives the truthiness filter iff its value is a non-empty string |
| SigV4.KeepTruthy | las/auth.py:69 | no contract of its own; specified by `KeepTruthyAppend`, `KeepTruthyOne`, `KeepTruthyThree`, `KeepTruthyFour` and `KeepTruthyAvoids` |
| SigV4.KeepTruthyAppend | las/auth.py:114 | the filter works entry by entry, so it distributes over concatenation |
| SigV4.KeepTruthyOne | las/auth.py:114 | filtering one entry is keeping it or dropping it |
| SigV4.KeepTruthyThree | las/authorization.py:109 | filtering three entries keeps the survivors in order |
| SigV4.KeepTruthyFour | las/auth.py:69 | filtering four entries keeps the survivors in order |
| SigV4.KeepTruthyAvoids | las/auth.py:69 | the filter keeps only entries it was given, so it brings in no character that none of them holds |
| SigV4.KeptThreeWithout | las/authorization.py:103-110 | three filtered entries, none with the looked-up name, have no value under it |
| SigV4.HeaderLines | las/auth.py:71 | no contract of its own; specified by `HeaderBlockLines` |
| SigV4.HeaderLineList | las/auth.py:71 | one `name:value` line per header, in order |
| SigV4.HeaderBlockLines | las/auth.py:71-77 | the header block followed by a newline and further lines reads as one line per header, an empty line and the further lines |
| SigV4.CanonicalText | las/auth.py:74-79 | no contract of its own; specified by `CanonicalTextLines` and `CanonicalTextSplit` |
| SigV4.CanonicalTextLines | las/auth.py:71-79 | the canonical text is the newline join of method, path, query, one line per header, an empty line, the `;`-joined names and the digest |
| SigV4.DigestLine | las/auth.py:72 | a hex payload digest contains no newline |
| SigV4.CanonicalTextSplit | las/auth.py:71-79 | when no piece contains a newline, splitting the canonical text at newlines gives back exactly those lines |
| SigV4.CanonicalTextSplitThree | las/authorization.py:61-73 | the same, written out for three headers |
| SigV4.AuthorizationValue | las/auth.py:98-111 | no contract of its own; specified by `SignHeadersAuthorization` through `BuildAuthHeaderKept` |
| SigV4.Signature | las/auth.py:40 | `hexdigest()`: a text of hex digits, two per byte, that reads back as the HMAC of the string to sign under the key |
| Auth.NewSigner | las/auth.py:14-21 | the signer holds the three keys of the credentials and no session token |
| Auth.CanonicalHeadersKept | las/auth.py:66-69 | the signed headers are host, x-amz-date, x-amz-security-token and x-api-key in that order, each present iff its value is truthy |
| Auth.CanonicalHeadersWithoutToken | las/auth.py:66-69 | without a session token the token header is never signed, and the date always is |
| Auth.CanonicalHeaders | las/auth.py:66-69 | no contract of its own; specified by `CanonicalHeadersKept` |
| Auth.CanonicalRequestText | las/auth.py:64-79 | no contract of its own; specified by `CanonicalRequestLines` |
| Auth.CanonicalRequest | las/auth.py:62-79 | the request bytes are the UTF-8 of the canonical lines (method, path, query as given, one line per kept header, an empty line, signed names, payload digest) joined by newlines, and the returned names are those of the kept headers |
| Auth.CanonicalRequestLines | las/auth.py:62-83 | with no newline in any piece, the canonical request splits back into method, path, the query unchanged, one `name:value` line per kept header, an empty line, the `;`-joined signed names and the payload digest |
| Auth.BuildAuthHeaderKept | las/auth.py:95-115 | the output is x-amz-date, x-amz-security-token and x-api-key, each iff truthy, followed by the Authorization value, always last |
| Auth.BuildAuthHeader | las/auth.py:95-115 | no contract of its own; specified by `BuildAuthHeaderKept` and `BuildAuthHeaderWithoutToken` |
| Auth.SignHeaders | las/auth.py:23-52 | no contract of its own; specified by `SignHeadersEmptyBody`, `SignHeadersAuthorization` and `SignHeadersWithoutToken` |
| Auth.SignHeadersEmptyBody | las/auth.py:23-25 | a missing body and an empty body are signed alike |
| Auth.SignHeadersAuthorization | las/auth.py:23-52 | the Authorization value lists the header names of the canonical request and carries the HMAC of the string to sign under the signing key |
| Auth.BuildAuthHeaderWithoutToken | las/auth.py:107-115 | without a session token the output has no token header |
| Auth.SignHeadersWithoutToken | las/auth.py:14-52 | a signer built from credentials never sends a token header |
| Authorization.CanonicalQuerystring | las/authorization.py:75-79 | a non-empty query string raises `NotImplementedError`, an empty one gives `''` |
| Authorization.CanonicalRequest | las/authorization.py:57-73 | succeeds iff the query string is empty; then the request bytes are the UTF-8 of the canonical lines with an empty query and the three unfiltered headers, and the names are exactly host, x-amz-date and x-api-key |
| Authorization.CanonicalHeaders | las/authorization.py:61-63 | no contract of its own: the three headers host, x-amz-date and x-api-key with their values, none filtered |
| Authorization.CanonicalRequestLines | las/authorization.py:57-73 | with no newline in any piece and no query, the canonical request splits back into method, path, an empty query, `host:<netloc>`, `x-amz-date:<date>`, `x-api-key:<key>`, an empty line, `host;x-amz-date;x-api-key` and the payload digest |
| Authorization.BuildAuthHeaderKept | las/authorization.py:91-110 | the output is x-amz-date and x-api-key, each iff truthy, followed by the Authorization value, and never a token header |
| Authorization.BuildAuthHeader | las/authorization.py:91-111 | no contract of its own; specified by `BuildAuthHeaderKept` and `BuildAuthHeaderAgrees` |
| Authorization.SignHeaders | las/authorization.py:19-47 | no contract of its own; specified by `SignHeadersOutcome` and `AgreesWithAuth` |
| Authorization.SignHeadersOutcome | las/authorization.py:19-47 | signing fails with `NotImplementedError` iff there is a query string, and otherwise sends no token header |
| Authorization.CanonicalRequestAgrees | las/authorization.py:57-73 | with no query, a host and an API key, the canonical request equals the one of `AWSSignatureV4` |
| Authorization.BuildAuthHeaderAgrees | las/authorization.py:91-110 | the output headers equal those of `AWSSignatureV4` without a session token |
| Authorization.AgreesWithAuth | las/authorization.py:19-47 | with no query, a host and an API key, both signers produce the same headers for the same credentials, request and moment |
| Credentials.Get | las/credentials.py:31-33 | `config.get` returns the value, or raises `NoSectionError` or `NoOptionError` |
| Credentials.ReadCredentials | las/credentials.py:26-35 | reading succeeds iff the `default` section has all three keys, returns their values, and never fails with `MissingCredentials` |
| Credentials.NewCredentials | las/credentials.py:11-23 | construction returns the resolution, and a success has three non-empty fields |
| Credentials.Resolve | las/credentials.py:11-23 | no contract of its own; specified by `ExplicitCredentials`, `PartialArgumentsDiscarded`, `DefaultPathUsed` and `ResolveOutcomes` |
| Credentials.ExplicitCredentials | las/credentials.py:11-20 | three non-empty arguments are stored verbatim whatever the file system holds |
| Credentials.PartialArgumentsDiscarded | las/credentials.py:12-16 | if any argument is missing, all three come from the file |
| Credentials.DefaultPathUsed | las/credentials.py:13-14 | without a path, `~/.lucidtech/credentials.cfg` is read |
| Credentials.ResolveOutcomes | las/credentials.py:16-35 | resolving from the file succeeds only with three non-empty values; the file read fails iff resolution fails with an error other than `MissingCredentials`; a missing file raises `NoSectionError` |
| Field.NewField | las/field.py:1-5 | label and value are stored, confidence is stored iff truthy, and there are no other keys |
| Field.Get | las/field.py:7-13 | `self[key]` returns the stored value or raises `KeyError` |
| Field.Label | las/field.py:7-9 | no contract of its own; specified by `FieldAccessors` |
| Field.Value | las/field.py:11-13 | no contract of its own; specified by `FieldAccessors` |
| Field.Confidence | las/field.py:15-17 | no contract of its own; specified by `FieldAccessors` |
| Field.FieldAccessors | las/field.py:7-17 | label and value return the arguments; confidence returns the argument if it is truthy and None otherwise |
| Field.FromKeywords | las/prediction.py:45 | `Field(**entry)` succeeds iff the entry is a dict with label and value and no keys beyond confidence, and otherwise raises `TypeError` |
| Field.FromKeywordsOfField | las/prediction.py:1-5 | rebuilding a `Field` from its own keys gives it back |
| Prediction.NewPrediction | las/prediction.py:20-29 | succeeds iff the response has `predictions` (else `KeyError`), with exactly the four keys and `fields` stored unchanged |
| Prediction.DocumentId | las/prediction.py:31-33 | no contract of its own; specified by `PredictionAccessors` |
| Prediction.ConsentId | las/prediction.py:35-37 | no contract of its own; specified by `PredictionAccessors` |
| Prediction.ModelName | las/prediction.py:39-41 | no contract of its own; specified by `PredictionAccessors` |
| Prediction.PredictionAccessors | las/prediction.py:31-41 | the three accessors return the constructor arguments |
| Prediction.FieldsOf | las/prediction.py:43-45 | one `Field` per entry, in order, each rebuilt from that entry, or `TypeError` as soon as one entry does not fit |
| Prediction.FieldsOfValue | las/prediction.py:45 | iterating a stored list rebuilds its entries; an empty dict or string gives no fields; any other value raises `TypeError` |
| Prediction.Fields | las/prediction.py:43-45 | the property reads `fields`, and raises `KeyError` without it |
| Prediction.NewFieldIsField | las/prediction.py:1-5 | every `Field` is rebuilt as itself |
| Prediction.FieldsOfStored | las/prediction.py:45 | rebuilding stored fields gives them back |
| Prediction.FieldsRoundTrip | las/prediction.py:20-45 | a prediction built from a response whose predictions are fields returns those fields through `fields` |

## Left out

- Network and transport: the `requests` calls, URL parsing with
  `urlparse`/`geturl`, and logging. The HTTP call is an input.
  `ClientRetry.Exchange` says whether a call ended in a response (its status
  and parsed or unparsable body) or in a `RequestException`, with or without
  a response.
- The `expo` delays and the sleeping inside `backoff`. Only attempt counts
  are modelled, with `max_tries` counting every attempt including the first.
- ClientRetry.OuterRetry: the outer decorator is written as a recursive method
  over its try count, not as a loop. The inner decorator is a loop.
- With `requests` 2.27 or later, `response.json()` raises a decode error that
  is also a `RequestException` without a response. `_fatal_code` would then
  raise `AttributeError` on an unparsable success body. The model follows the
  standard `json` module's `JSONDecodeError`, which is what the code imports.
- `json.dumps` of a request body is not modelled. The body is carried as the
  JSON value it would serialise.
- The `str`/`Path` and `io.IOBase` branches of `parse_content` read files and
  streams. Only the bytes branch is modelled. `bytearray` input behaves like
  `bytes`.
- ClientBodies.UpdateAssetBody: a `content` argument that is not bytes, and an
  explicit `content=None`, are not modelled. The model takes `content` absent
  or given as bytes.
- `update_transition_execution`: the formatting of a `datetime` start time by
  `f'{start_time}'` is not modelled. The start time is given as a string.
- SHA-256 and HMAC-SHA256 are function parameters, not implemented. The hex
  digest is modelled as the hex encoding of the bytes they return.
- The clock: `utcnow()` is replaced by a `DateTime` parameter.
- SigV4.AmzDate: `strftime('%Y')` with a year below 1000 is not modelled. The
  year is written with four digits, zero-padded.
- configparser: the parsing of the file text, case folding of option names,
  interpolation and the `DEFAULT` section are not modelled. A parsed file is
  a map from section to a map from option to value. A path that does not
  exist reads as an empty configuration, as `ConfigParser.read` does.
- `expanduser` is not modelled. `Credentials.DefaultPath` keeps the literal
  `~/.lucidtech/credentials.cfg`.
- The bearer-token credentials that `Client` expects (`access_token`,
  `api_endpoint`) and `guess_credentials` are not part of the shown
  `las/credentials.py`. The token, API key and endpoint are plain string
  inputs of `ClientRetry.ClientConfig`.
- `las/api.py`, `las/api_client.py`, `las/invoice.py`, `las/receipt.py` and
  `las/__init__.py` are not part of this model. They hold network
  orchestration, format detection through modules not shown, and docstring-only
  classes.
- Resource methods whose only logic is a path and a forwarding call are not
  modelled. Examples are `get_asset`, `delete_secret`, `update_user`,
  `create_batch` and the list methods without stripping. Their bodies are the
  `optional_args` as given.
- Python dicts are insertion-ordered. The order of keys in JSON bodies is not
  modelled (they are maps). The order of the signers' headers is modelled
  (they are sequences).

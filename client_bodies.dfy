/** The request bodies and query parameters the resource methods of
    `las/client.py` assemble before they call `_make_request`. A Python
    keyword argument that defaults to `None` is an `Option`; `**optional_args`
    is a `Dict` of JSON values. Methods that only forward their arguments to
    `_make_request` are not repeated here. */
module ClientBodies {
  import opened Wrappers
  import opened Json
  import opened Client

  /** A keyword argument that defaults to `None`. */
  function Arg(o: Option<Json>): Json {
    if o.Some? then o.value else JNull
  }

  function TextArg(o: Option<string>): Json {
    if o.Some? then JStr(o.value) else JNull
  }

  function IntArg(o: Option<int>): Json {
    if o.Some? then JNum(o.value as real) else JNull
  }

  function BoolArg(o: Option<bool>): Json {
    if o.Some? then JBool(o.value) else JNull
  }

  /** `{**base, **args}`, and equally `base.update(**args)`: every key of
      either, and the value from `args` where both have one. */
  function Overlay(base: Dict, args: Dict): (r: Dict)
    ensures r.Keys == base.Keys + args.Keys
    ensures forall k :: k in args ==> r[k] == args[k]
    ensures forall k :: k in base && k !in args ==> r[k] == base[k]
  {
    base + args
  }

  /** What `body = dictstrip(named); body.update(**args)` leaves: the
      arguments unchanged, whatever their value, and of the named fields
      that they do not replace exactly the truthy ones. */
  predicate StrippedThenOverlaid(body: Dict, named: Dict, args: Dict) {
    && (forall k :: k in args ==> k in body && body[k] == args[k])
    && (forall k :: k in named && k !in args ==> (k in body <==> Truthy(named[k])))
    && (forall k :: k in named && k !in args && k in body ==> body[k] == named[k])
    && (forall k :: k in body ==> k in named || k in args)
  }

  /** The description above leaves no freedom: it fixes the body. */
  lemma StrippedThenOverlaidUnique(b1: Dict, b2: Dict, named: Dict, args: Dict)
    requires StrippedThenOverlaid(b1, named, args)
    requires StrippedThenOverlaid(b2, named, args)
    ensures b1 == b2
  {
    assert b1.Keys == b2.Keys;
  }

  /** Stripping and then overlaying meets the description. */
  lemma OverlayStripped(named: Dict, args: Dict)
    ensures StrippedThenOverlaid(Overlay(Dictstrip(named), args), named, args)
  {
  }

  /** `create_asset`: the encoded content, then `**optional_args`, nothing
      stripped (an empty content is sent as ""). */
  function CreateAssetBody(content: Bytes, optionalArgs: Dict): (body: Dict)
    ensures body.Keys == {"content"} + optionalArgs.Keys
    ensures forall k :: k in optionalArgs ==> body[k] == optionalArgs[k]
    ensures "content" !in optionalArgs ==> body["content"] == JStr(ParseContentBytes(content))
  {
    Overlay(map["content" := JStr(ParseContentBytes(content))], optionalArgs)
  }

  /** Why `update_asset` can fail before any request: a falsy `content`
      stays in the body as `bytes`, which `json.dumps` cannot serialise. */
  datatype BodyError = BytesNotSerializable

  /** `update_asset`: a truthy `content` is replaced in `optional_args` by its
      `parse_content` text, and `optional_args` is the body. `content` is the
      `content` keyword argument, `otherArgs` the remaining ones. */
  method UpdateAssetBody(content: Option<Bytes>, otherArgs: Dict) returns (body: Result<Dict, BodyError>)
    requires "content" !in otherArgs
    ensures content.None? ==> body == Success(otherArgs)
    ensures content == Some([]) ==> body == Failure(BytesNotSerializable)
    ensures content.Some? && content.value != [] ==>
      && body.Success?
      && body.value.Keys == {"content"} + otherArgs.Keys
      && body.value["content"] == JStr(ParseContentBytes(content.value))
      && (forall k :: k in otherArgs ==> body.value[k] == otherArgs[k])
  {
    var args := otherArgs;
    if content.Some? && content.value != [] {
      args := args["content" := JStr(ParseContentBytes(content.value))];
    } else if content.Some? {
      return Failure(BytesNotSerializable);
    }
    body := Success(args);
  }

  /** The fields `create_document` names, before stripping. */
  function DocumentFields(
    content: Bytes, contentType: string,
    consentId: Option<string>, batchId: Option<string>, groundTruth: Option<Json>): (d: Dict)
    ensures d.Keys == {"content", "contentType", "consentId", "batchId", "groundTruth"}
    ensures d["content"] == JStr(ParseContentBytes(content))
    ensures d["contentType"] == JStr(contentType)
    ensures d["consentId"] == TextArg(consentId)
    ensures d["batchId"] == TextArg(batchId)
    ensures d["groundTruth"] == Arg(groundTruth)
  {
    map[
      "content" := JStr(ParseContentBytes(content)),
      "contentType" := JStr(contentType),
      "consentId" := TextArg(consentId),
      "batchId" := TextArg(batchId),
      "groundTruth" := Arg(groundTruth)]
  }

  /** `create_document`: the five fields, stripped. The content is dropped
      exactly when it stands for no bytes at all. */
  function CreateDocumentBody(
    content: Bytes, contentType: string,
    consentId: Option<string>, batchId: Option<string>, groundTruth: Option<Json>): (body: Dict)
    ensures "content" in body <==> RawContent(content) != []
    ensures "content" in body ==> body["content"] == JStr(ParseContentBytes(content))
    ensures "contentType" in body <==> contentType != ""
    ensures "contentType" in body ==> body["contentType"] == JStr(contentType)
    ensures "consentId" in body <==> consentId.Some? && consentId.value != ""
    ensures "consentId" in body ==> body["consentId"] == JStr(consentId.value)
    ensures "batchId" in body <==> batchId.Some? && batchId.value != ""
    ensures "batchId" in body ==> body["batchId"] == JStr(batchId.value)
    ensures "groundTruth" in body <==> groundTruth.Some? && Truthy(groundTruth.value)
    ensures "groundTruth" in body ==> body["groundTruth"] == groundTruth.value
    ensures body.Keys <= {"content", "contentType", "consentId", "batchId", "groundTruth"}
  {
    ParseContentBytesEmpty(content);
    Dictstrip(DocumentFields(content, contentType, consentId, batchId, groundTruth))
  }

  /** The fields `create_prediction` names, before stripping. */
  function PredictionFields(
    documentId: string, modelId: string,
    maxPages: Option<int>, autoRotate: Option<bool>, imageQuality: Option<string>): (d: Dict)
    ensures d.Keys == {"documentId", "modelId", "maxPages", "autoRotate", "imageQuality"}
    ensures d["documentId"] == JStr(documentId)
    ensures d["modelId"] == JStr(modelId)
    ensures d["maxPages"] == IntArg(maxPages)
    ensures d["autoRotate"] == BoolArg(autoRotate)
    ensures d["imageQuality"] == TextArg(imageQuality)
  {
    map[
      "documentId" := JStr(documentId),
      "modelId" := JStr(modelId),
      "maxPages" := IntArg(maxPages),
      "autoRotate" := BoolArg(autoRotate),
      "imageQuality" := TextArg(imageQuality)]
  }

  /** `create_prediction`: the five fields, stripped, so the API never sees
      `autoRotate` false or `maxPages` 0. */
  function CreatePredictionBody(
    documentId: string, modelId: string,
    maxPages: Option<int>, autoRotate: Option<bool>, imageQuality: Option<string>): (body: Dict)
    ensures "documentId" in body <==> documentId != ""
    ensures "documentId" in body ==> body["documentId"] == JStr(documentId)
    ensures "modelId" in body <==> modelId != ""
    ensures "modelId" in body ==> body["modelId"] == JStr(modelId)
    ensures "maxPages" in body <==> maxPages.Some? && maxPages.value != 0
    ensures "maxPages" in body ==> body["maxPages"] == JNum(maxPages.value as real)
    ensures "autoRotate" in body <==> autoRotate == Some(true)
    ensures "autoRotate" in body ==> body["autoRotate"] == JBool(true)
    ensures "imageQuality" in body <==> imageQuality.Some? && imageQuality.value != ""
    ensures "imageQuality" in body ==> body["imageQuality"] == JStr(imageQuality.value)
    ensures body.Keys <= {"documentId", "modelId", "maxPages", "autoRotate", "imageQuality"}
  {
    Dictstrip(PredictionFields(documentId, modelId, maxPages, autoRotate, imageQuality))
  }

  /** `create_secret` and `create_user`: one positional field, then
      `**optional_args`, nothing stripped. */
  function FieldThenArgs(name: string, value: Json, optionalArgs: Dict): (body: Dict)
    ensures body.Keys == {name} + optionalArgs.Keys
    ensures forall k :: k in optionalArgs ==> body[k] == optionalArgs[k]
    ensures name !in optionalArgs ==> body[name] == value
  {
    Overlay(map[name := value], optionalArgs)
  }

  /** `update_secret`: `data` stripped, then `optional_args` overlaid. */
  method UpdateSecretBody(data: Option<Json>, optionalArgs: Dict) returns (body: Dict)
    ensures StrippedThenOverlaid(body, map["data" := Arg(data)], optionalArgs)
  {
    body := Dictstrip(map["data" := Arg(data)]);
    body := body + optionalArgs;
  }

  /** `create_transition`: the two schemas, the type and the parameters
      stripped, then `optional_args` overlaid; an argument such as
      `inputJsonSchema=None` replaces a stripped schema with `None`. */
  method CreateTransitionBody(
    transitionType: string, inSchema: Option<Json>, outSchema: Option<Json>, parameters: Option<Json>,
    optionalArgs: Dict)
    returns (body: Dict)
    ensures StrippedThenOverlaid(body, map[
      "inputJsonSchema" := Arg(inSchema),
      "outputJsonSchema" := Arg(outSchema),
      "transitionType" := JStr(transitionType),
      "parameters" := Arg(parameters)], optionalArgs)
  {
    body := Dictstrip(map[
      "inputJsonSchema" := Arg(inSchema),
      "outputJsonSchema" := Arg(outSchema),
      "transitionType" := JStr(transitionType),
      "parameters" := Arg(parameters)]);
    body := body + optionalArgs;
  }

  /** `update_transition`: the two schemas stripped, then `optional_args`. */
  method UpdateTransitionBody(inSchema: Option<Json>, outSchema: Option<Json>, optionalArgs: Dict)
    returns (body: Dict)
    ensures StrippedThenOverlaid(body, map[
      "inputJsonSchema" := Arg(inSchema),
      "outputJsonSchema" := Arg(outSchema)], optionalArgs)
  {
    body := Dictstrip(map[
      "inputJsonSchema" := Arg(inSchema),
      "outputJsonSchema" := Arg(outSchema)]);
    body := body + optionalArgs;
  }

  /** `create_workflow`: the specification and the error configuration
      stripped, then `optional_args`. */
  method CreateWorkflowBody(specification: Json, errorConfig: Option<Json>, optionalArgs: Dict)
    returns (body: Dict)
    ensures StrippedThenOverlaid(body, map[
      "specification" := specification,
      "errorConfig" := Arg(errorConfig)], optionalArgs)
  {
    body := Dictstrip(map[
      "specification" := specification,
      "errorConfig" := Arg(errorConfig)]);
    body := body + optionalArgs;
  }

  /** An argument that overlays a falsy value survives where the named field
      with the same value would have been stripped. */
  lemma OverlayKeepsFalsyArgument()
    ensures "errorConfig" in Overlay(Dictstrip(map["specification" := JObject(map[]), "errorConfig" := JNull]),
                                     map["errorConfig" := JNull])
    ensures "specification" !in Overlay(Dictstrip(map["specification" := JObject(map[]), "errorConfig" := JNull]),
                                        map["errorConfig" := JNull])
  {
  }

  /** The fields `update_transition_execution` names, before stripping. */
  function ExecutionUpdateFields(
    status: string, output: Option<Json>, error: Option<Json>, startTime: Option<string>): (d: Dict)
    ensures d.Keys == {"status", "output", "error", "startTime"}
    ensures d["status"] == JStr(status)
    ensures d["output"] == Arg(output)
    ensures d["error"] == Arg(error)
    ensures d["startTime"] == TextArg(startTime)
  {
    map[
      "status" := JStr(status),
      "output" := Arg(output),
      "error" := Arg(error),
      "startTime" := TextArg(startTime)]
  }

  /** `update_transition_execution`: the status, output, error and start
      time, stripped; a start time is sent as its text. */
  function UpdateTransitionExecutionBody(
    status: string, output: Option<Json>, error: Option<Json>, startTime: Option<string>): (body: Dict)
    ensures "status" in body <==> status != ""
    ensures "status" in body ==> body["status"] == JStr(status)
    ensures "output" in body <==> output.Some? && Truthy(output.value)
    ensures "output" in body ==> body["output"] == output.value
    ensures "error" in body <==> error.Some? && Truthy(error.value)
    ensures "error" in body ==> body["error"] == error.value
    ensures "startTime" in body <==> startTime.Some? && startTime.value != ""
    ensures "startTime" in body ==> body["startTime"] == JStr(startTime.value)
    ensures body.Keys <= {"status", "output", "error", "startTime"}
  {
    Dictstrip(ExecutionUpdateFields(status, output, error, startTime))
  }

  /** The query parameters `list_transitions` names, before stripping. */
  function TransitionQuery(transitionType: Option<Json>, maxResults: Option<int>, nextToken: Option<string>)
    : (d: Dict)
    ensures d.Keys == {"transitionType", "maxResults", "nextToken"}
    ensures d["transitionType"] == Arg(transitionType)
    ensures d["maxResults"] == IntArg(maxResults)
    ensures d["nextToken"] == TextArg(nextToken)
  {
    map[
      "transitionType" := Arg(transitionType),
      "maxResults" := IntArg(maxResults),
      "nextToken" := TextArg(nextToken)]
  }

  /** `list_transitions`: the query parameters, stripped, so that
      `max_results=0` asks for the server's default. */
  function ListTransitionsParams(transitionType: Option<Json>, maxResults: Option<int>, nextToken: Option<string>)
    : (params: Dict)
    ensures "transitionType" in params <==> transitionType.Some? && Truthy(transitionType.value)
    ensures "transitionType" in params ==> params["transitionType"] == transitionType.value
    ensures "maxResults" in params <==> maxResults.Some? && maxResults.value != 0
    ensures "maxResults" in params ==> params["maxResults"] == JNum(maxResults.value as real)
    ensures "nextToken" in params <==> nextToken.Some? && nextToken.value != ""
    ensures "nextToken" in params ==> params["nextToken"] == JStr(nextToken.value)
    ensures params.Keys <= {"transitionType", "maxResults", "nextToken"}
  {
    Dictstrip(TransitionQuery(transitionType, maxResults, nextToken))
  }

  /** The query parameters `list_transition_executions` names, before stripping. */
  function ExecutionQuery(
    status: Option<Json>, executionId: Option<Json>, maxResults: Option<int>,
    nextToken: Option<string>, sortBy: Option<string>, order: Option<string>): (d: Dict)
    ensures d.Keys == {"status", "executionId", "maxResults", "nextToken", "order", "sortBy"}
    ensures d["status"] == Arg(status)
    ensures d["executionId"] == Arg(executionId)
    ensures d["maxResults"] == IntArg(maxResults)
    ensures d["nextToken"] == TextArg(nextToken)
    ensures d["order"] == TextArg(order)
    ensures d["sortBy"] == TextArg(sortBy)
  {
    map[
      "status" := Arg(status),
      "executionId" := Arg(executionId),
      "maxResults" := IntArg(maxResults),
      "nextToken" := TextArg(nextToken),
      "order" := TextArg(order),
      "sortBy" := TextArg(sortBy)]
  }

  /** `list_transition_executions`: the six query parameters, stripped. */
  function ListTransitionExecutionsParams(
    status: Option<Json>, executionId: Option<Json>, maxResults: Option<int>,
    nextToken: Option<string>, sortBy: Option<string>, order: Option<string>): (params: Dict)
    ensures "status" in params <==> status.Some? && Truthy(status.value)
    ensures "status" in params ==> params["status"] == status.value
    ensures "executionId" in params <==> executionId.Some? && Truthy(executionId.value)
    ensures "executionId" in params ==> params["executionId"] == executionId.value
    ensures "maxResults" in params <==> maxResults.Some? && maxResults.value != 0
    ensures "maxResults" in params ==> params["maxResults"] == JNum(maxResults.value as real)
    ensures "nextToken" in params <==> nextToken.Some? && nextToken.value != ""
    ensures "nextToken" in params ==> params["nextToken"] == JStr(nextToken.value)
    ensures "sortBy" in params <==> sortBy.Some? && sortBy.value != ""
    ensures "sortBy" in params ==> params["sortBy"] == JStr(sortBy.value)
    ensures "order" in params <==> order.Some? && order.value != ""
    ensures "order" in params ==> params["order"] == JStr(order.value)
    ensures params.Keys <= {"status", "executionId", "maxResults", "nextToken", "order", "sortBy"}
  {
    Dictstrip(ExecutionQuery(status, executionId, maxResults, nextToken, sortBy, order))
  }
}

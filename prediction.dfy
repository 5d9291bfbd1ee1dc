/** `las/prediction.py`: `Prediction`, a `dict` with the document, consent
    and model of a prediction and the raw predicted fields, which its
    `fields` property rebuilds as `Field` objects. */
module Prediction {
  import opened Wrappers
  import opened Json
  import opened Field

  /** `Prediction(document_id, consent_id, model_name, prediction_response)`. */
  function NewPrediction(documentId: Json, consentId: Json, modelName: Json, response: Dict): (r: Result<Dict, PyError>)
    ensures r.Success? <==> "predictions" in response
    ensures r.Failure? ==> r.error == KeyError("predictions")
    ensures r.Success? ==> r.value.Keys == {"document_id", "consent_id", "model_name", "fields"}
    ensures r.Success? ==> r.value["fields"] == response["predictions"]
  {
    if "predictions" !in response then Failure(KeyError("predictions"))
    else Success(map[
      "document_id" := documentId,
      "consent_id" := consentId,
      "model_name" := modelName,
      "fields" := response["predictions"]])
  }

  /** The `document_id`, `consent_id` and `model_name` properties. */
  function DocumentId(p: Dict): Result<Json, PyError> {
    Get(p, "document_id")
  }

  function ConsentId(p: Dict): Result<Json, PyError> {
    Get(p, "consent_id")
  }

  function ModelName(p: Dict): Result<Json, PyError> {
    Get(p, "model_name")
  }

  /** The properties give back the constructor's arguments. */
  lemma PredictionAccessors(documentId: Json, consentId: Json, modelName: Json, response: Dict)
    requires "predictions" in response
    ensures DocumentId(NewPrediction(documentId, consentId, modelName, response).value) == Success(documentId)
    ensures ConsentId(NewPrediction(documentId, consentId, modelName, response).value) == Success(consentId)
    ensures ModelName(NewPrediction(documentId, consentId, modelName, response).value) == Success(modelName)
  {
  }

  /** `[Field(**field) for field in items]`: one field per entry, in order,
      or the first entry's `TypeError`. */
  function FieldsOf(items: seq<Json>): (r: Result<seq<Dict>, PyError>)
    ensures r.Success? <==> forall i :: 0 <= i < |items| ==> FromKeywords(items[i]).Success?
    ensures r.Success? ==> |r.value| == |items|
    ensures r.Success? ==> forall i :: 0 <= i < |items| ==> r.value[i] == FromKeywords(items[i]).value
    ensures r.Failure? ==> r.error == TypeError
  {
    if |items| == 0 then Success([])
    else
      match FromKeywords(items[0])
      case Failure(e) => Failure(e)
      case Success(first) =>
        match FieldsOf(items[1..])
        case Failure(e) => Failure(e)
        case Success(rest) =>
          assert forall i :: 1 <= i < |items| ==> items[i] == items[1..][i - 1];
          Success([first] + rest)
  }

  /** Iterating over the stored `fields` value: a list gives its entries; an
      empty dict or string gives none; a non-empty dict or string gives
      keys or characters, which `**` rejects; anything else is not iterable. */
  function FieldsOfValue(v: Json): (r: Result<seq<Dict>, PyError>)
    ensures v.JArray? ==> r == FieldsOf(v.items)
    ensures !v.JArray? ==> (r.Success? <==> !Truthy(v) && (v.JObject? || v.JStr?))
    ensures r.Success? && !v.JArray? ==> r.value == []
    ensures r.Failure? ==> r.error == TypeError
  {
    match v
    case JArray(items) => FieldsOf(items)
    case JObject(m) => if m == map[] then Success([]) else Failure(TypeError)
    case JStr(s) => if s == "" then Success([]) else Failure(TypeError)
    case _ => Failure(TypeError)
  }

  /** The `fields` property. */
  function Fields(p: Dict): (r: Result<seq<Dict>, PyError>)
    ensures "fields" !in p ==> r == Failure(KeyError("fields"))
    ensures "fields" in p ==> r == FieldsOfValue(p["fields"])
  {
    match Get(p, "fields")
    case Failure(e) => Failure(e)
    case Success(v) => FieldsOfValue(v)
  }

  /** The raw `predictions` list that holds the given fields as JSON objects. */
  function Stored(fields: seq<Dict>): (v: Json)
    ensures v.JArray? && |v.items| == |fields|
    ensures forall i :: 0 <= i < |fields| ==> v.items[i] == JObject(fields[i])
  {
    JArray(seq(|fields|, i requires 0 <= i < |fields| => JObject(fields[i])))
  }

  /** A `dict` that `Field(**d)` rebuilds as itself. */
  predicate IsField(d: Dict) {
    FromKeywords(JObject(d)) == Success(d)
  }

  /** Every `Field` rebuilds as itself. */
  lemma NewFieldIsField(fieldLabel: Json, value: Json, confidence: Json)
    ensures IsField(NewField(fieldLabel, value, confidence))
  {
    FromKeywordsOfField(fieldLabel, value, confidence);
  }

  /** Rebuilding stored fields gives them back, one per entry and in order. */
  lemma FieldsOfStored(fields: seq<Dict>)
    requires forall i :: 0 <= i < |fields| ==> IsField(fields[i])
    ensures FieldsOf(Stored(fields).items) == Success(fields)
  {
    var r := FieldsOf(Stored(fields).items);
    assert r.Success?;
    assert r.value == fields;
  }

  /** A prediction made from a response whose predictions are stored fields
      gives those fields back through its `fields` property. */
  lemma FieldsRoundTrip(documentId: Json, consentId: Json, modelName: Json, fields: seq<Dict>)
    requires forall i :: 0 <= i < |fields| ==> IsField(fields[i])
    ensures var p := NewPrediction(documentId, consentId, modelName, map["predictions" := Stored(fields)]);
      p.Success? && Fields(p.value) == Success(fields)
  {
    var response := map["predictions" := Stored(fields)];
    var p := NewPrediction(documentId, consentId, modelName, response);
    assert p.value["fields"] == Stored(fields);
    assert "fields" in p.value.Keys;
    FieldsOfStored(fields);
  }
}

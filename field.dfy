/** `las/field.py`, and the identical `Field` class at the top of
    `las/prediction.py`: a `dict` holding a predicted label and value, and
    the confidence only when it is truthy. */
module Field {
  import opened Wrappers
  import opened Json

  /** The Python errors the value objects can raise. */
  datatype PyError =
    | KeyError(key: string)
    | TypeError   // `Field(**entry)` with an entry that is not a mapping or has the wrong keys

  /** `Field(label, value, confidence)`. */
  function NewField(fieldLabel: Json, value: Json, confidence: Json): (f: Dict)
    ensures "label" in f && f["label"] == fieldLabel
    ensures "value" in f && f["value"] == value
    ensures "confidence" in f <==> Truthy(confidence)
    ensures "confidence" in f ==> f["confidence"] == confidence
    ensures f.Keys <= {"label", "value", "confidence"}
  {
    var field := map["label" := fieldLabel, "value" := value];
    if Truthy(confidence) then field["confidence" := confidence] else field
  }

  /** `self[key]` on a `dict`. */
  function Get(d: Dict, key: string): (r: Result<Json, PyError>)
    ensures r.Success? <==> key in d
    ensures r.Success? ==> r.value == d[key]
    ensures r.Failure? ==> r.error == KeyError(key)
  {
    if key in d then Success(d[key]) else Failure(KeyError(key))
  }

  /** The `label` property. */
  function Label(f: Dict): Result<Json, PyError> {
    Get(f, "label")
  }

  /** The `value` property. */
  function Value(f: Dict): Result<Json, PyError> {
    Get(f, "value")
  }

  /** The `confidence` property: `self.get('confidence')`. */
  function Confidence(f: Dict): Json {
    if "confidence" in f then f["confidence"] else JNull
  }

  /** The properties give back the constructor's arguments; a falsy
      confidence reads as None. */
  lemma FieldAccessors(fieldLabel: Json, value: Json, confidence: Json)
    ensures Label(NewField(fieldLabel, value, confidence)) == Success(fieldLabel)
    ensures Value(NewField(fieldLabel, value, confidence)) == Success(value)
    ensures Confidence(NewField(fieldLabel, value, confidence)) == if Truthy(confidence) then confidence else JNull
  {
  }

  /** `Field(**entry)`: the entry must be a mapping whose keys are the
      constructor's parameters, `label` and `value` among them. */
  function FromKeywords(entry: Json): (r: Result<Dict, PyError>)
    ensures r.Success? <==>
      entry.JObject? && "label" in entry.fields && "value" in entry.fields
      && entry.fields.Keys <= {"label", "value", "confidence"}
    ensures r.Failure? ==> r.error == TypeError
  {
    if entry.JObject? && "label" in entry.fields && "value" in entry.fields
       && entry.fields.Keys <= {"label", "value", "confidence"}
    then
      var m := entry.fields;
      Success(NewField(m["label"], m["value"], if "confidence" in m then m["confidence"] else JNull))
    else
      Failure(TypeError)
  }

  /** A field stored as a `dict` is rebuilt as itself from its own keys. */
  lemma FromKeywordsOfField(fieldLabel: Json, value: Json, confidence: Json)
    ensures FromKeywords(JObject(NewField(fieldLabel, value, confidence))) == Success(NewField(fieldLabel, value, confidence))
  {
    var f := NewField(fieldLabel, value, confidence);
    var c := if "confidence" in f then f["confidence"] else JNull;
    assert Truthy(c) <==> Truthy(confidence);
    assert NewField(fieldLabel, value, c) == f;
  }
}

/** Already-parsed JSON values and the rule encoding/json applies when it
    decodes an object into a Go struct whose fields are all strings: a key
    that is absent or null leaves the field empty, a string fills it, any
    other kind of value is an error; `null` at the top level decodes to all
    empty fields; any other top-level kind is an error; and an empty raw
    message (a `payload` key missing from the envelope) is an error too. */
module Json {
  import opened Types

  datatype Json =
    | JNull
    | JBool(b: bool)
    | JNumber(n: int)
    | JString(s: string)
    | JArray(items: seq<Json>)
    | JObject(fields: map<string, Json>)

  /** One `string` struct field read from an object; None when the value has
      the wrong type. */
  function StringField(fields: map<string, Json>, key: string): (r: Option<string>)
    ensures r.None? <==> key in fields && !fields[key].JNull? && !fields[key].JString?
    ensures r.Some? && key in fields && fields[key].JString? ==> r.value == fields[key].s
    ensures r.Some? && (key !in fields || fields[key].JNull?) ==> r.value == ""
  {
    if key !in fields then Some("")
    else match fields[key]
      case JNull => Some("")
      case JString(s) => Some(s)
      case _ => None
  }

  function FieldsOf(fields: map<string, Json>, names: seq<string>): (r: Option<seq<string>>)
    ensures r.Some? <==> forall i :: 0 <= i < |names| ==> StringField(fields, names[i]).Some?
    ensures r.Some? ==> |r.value| == |names| &&
                        forall i :: 0 <= i < |names| ==> StringField(fields, names[i]) == Some(r.value[i])
  {
    if names == [] then Some([])
    else
      match (StringField(fields, names[0]), FieldsOf(fields, names[1..]))
      case (Some(v), Some(rest)) => Some([v] + rest)
      case _ => None
  }

  /** json.Unmarshal of a raw payload into a struct with the string fields
      `names`, in that order; None is a decoding error. */
  function DecodeFields(raw: Option<Json>, names: seq<string>): (r: Option<seq<string>>)
    ensures r.Some? ==> |r.value| == |names|
    ensures raw == Some(JNull) ==> r == Some(seq(|names|, _ => ""))
    ensures raw.Some? && raw.value.JObject? ==>
              (r.Some? <==> forall i :: 0 <= i < |names| ==> StringField(raw.value.fields, names[i]).Some?)
    ensures r.Some? && raw.Some? && raw.value.JObject? ==>
              forall i :: 0 <= i < |names| ==> StringField(raw.value.fields, names[i]) == Some(r.value[i])
    ensures raw.None? ==> r.None?
    ensures raw.Some? && !raw.value.JNull? && !raw.value.JObject? ==> r.None?
  {
    match raw
    case None => None
    case Some(JNull) => Some(seq(|names|, _ => ""))
    case Some(JObject(fields)) => FieldsOf(fields, names)
    case Some(_) => None
  }

  predicate Distinct(names: seq<string>) {
    forall i, j :: 0 <= i < j < |names| ==> names[i] != names[j]
  }

  /** The object a sender builds from distinct field names and their string
      values. */
  function EncodeFields(names: seq<string>, values: seq<string>): Json
    requires |names| == |values| && Distinct(names)
  {
    JObject(map i | 0 <= i < |names| :: names[i] := JString(values[i]))
  }

  /** Decoding an object of string fields gives back exactly those strings. */
  lemma DecodeEncodeFields(names: seq<string>, values: seq<string>)
    requires |names| == |values| && Distinct(names)
    ensures DecodeFields(Some(EncodeFields(names, values)), names) == Some(values)
  {
    var fields := EncodeFields(names, values).fields;
    forall i | 0 <= i < |names|
      ensures StringField(fields, names[i]) == Some(values[i])
    {
      assert names[i] in fields;
      assert fields[names[i]] == JString(values[i]);
    }
    var r := DecodeFields(Some(EncodeFields(names, values)), names);
    assert r.Some?;
    assert r.value == values;
  }
}

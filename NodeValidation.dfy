/**
 * Validation of a new node's schema (internal/service/node/common.go): every
 * raw spec is decoded first, then the decoded specs are checked one by one.
 * Both loops visit a Go map, so the order is arbitrary; the contracts hold
 * for every order.
 */
module NodeValidation {

  import opened Json
  import opened Outcomes
  import opened Nodes

  // ---------------------------------------------------------------------
  // validateHeader
  // ---------------------------------------------------------------------

  /** The multiplicity rules validateHeader enforces on one decoded header spec. */
  predicate HeaderShapeValid(h: Header)
  {
    (h.kind == ConstKind ==> |h.values| == 1) &&
    (h.kind == SelectKind ==> |h.values| <= 2) &&
    (h.kind == PromptKind ==> |h.values| == 1)
  }

  /**
   * validateHeader: a spec that does not decode is a ParseError; otherwise
   * the headers are accepted iff every decoded spec keeps the multiplicity
   * rules, and the result holds exactly the decoded specs under the input keys.
   */
  method ValidateHeader(headers: map<string, JsonValue>) returns (r: Result<map<string, Header>>)
    ensures !r.Panic?
    ensures !HeadersDecode(headers) ==> r == Fail(ParseError)
    ensures HeadersDecode(headers) ==>
              (r.Ok? <==> forall k | k in headers :: HeaderShapeValid(DecodeHeader(headers[k]).value))
    ensures HeadersDecode(headers) && !r.Ok? ==> r == Fail(ValidationFailed)
    ensures r.Ok? ==> r.value.Keys == headers.Keys
    ensures r.Ok? ==> forall k | k in headers :: DecodeHeader(headers[k]) == Some(r.value[k])
  {
    var decoded := DecodeHeadersLoop(headers);
    if decoded.None? {
      return Fail(ParseError);
    }
    var h := decoded.value;
    var pending := h.Keys;
    while pending != {}
      invariant pending <= h.Keys
      invariant forall k | k in h.Keys - pending :: HeaderShapeValid(h[k])
    {
      var key: string :| key in pending;
      var value := h[key];
      if value.kind == ConstKind && |value.values| != 1 {
        return Fail(ValidationFailed);
      }
      if value.kind == SelectKind && |value.values| > 2 {
        return Fail(ValidationFailed);
      }
      if value.kind == PromptKind && |value.values| != 1 {
        return Fail(ValidationFailed);
      }
      pending := pending - {key};
    }
    forall k | k in headers
      ensures HeaderShapeValid(DecodeHeader(headers[k]).value)
    {
      assert k in h.Keys;
    }
    return Ok(h);
  }

  // ---------------------------------------------------------------------
  // validateBody
  // ---------------------------------------------------------------------

  /** Some spec of `body`, or of an object spec nested in it, does not decode. */
  predicate ParseErrorInside(body: map<string, JsonValue>)
    decreases JObject(body)
  {
    !BodyDecodes(body) || exists k | k in body :: NestedParseError(body[k])
  }

  /** `v` is an object spec with one map value in which a spec does not decode. */
  predicate NestedParseError(v: JsonValue)
    decreases v
  {
    match DecodeBodyField(v)
    case None => false
    case Some(f) =>
      f.kind == ObjectKind && |f.values| == 1 && f.values[0].JObject? &&
      (assert f.values[0] < v; ParseErrorInside(f.values[0].fields))
  }

  /**
   * validateBody as written: after decoding, the first field visited ends
   * the check. A field that is not an object spec with exactly one value is
   * rejected; a non-map value is rejected; a map value is validated
   * recursively and its error returned; a field that passes is then
   * rejected by the const check, whose else branch every object spec takes.
   * So a body is accepted iff it is empty.
   */
  method ValidateBody(body: map<string, JsonValue>) returns (r: Result<map<string, BodyField>>)
    ensures r.Ok? <==> body == map[]
    ensures r.Ok? ==> r.value == map[]
    ensures r.Fail? ==> r.kind == ParseError || r.kind == ValidationFailed
    ensures !r.Panic?
    ensures !BodyDecodes(body) ==> r == Fail(ParseError)
    ensures r == Fail(ParseError) ==> ParseErrorInside(body)
    decreases JObject(body)
  {
    var decoded := DecodeBodyLoop(body);
    if decoded.None? {
      return Fail(ParseError);
    }
    var bodyFields := decoded.value;
    if bodyFields == map[] {
      return Ok(bodyFields);
    }
    // every path through the check loop's body returns, so only the first
    // key visited is examined
    var key: string :| key in bodyFields;
    var value := bodyFields[key];
    if value.kind == ObjectKind && |value.values| == 1 {
      match value.values[0]
      case JObject(nested) =>
        assert value.values[0] < body[key];
        var e := ValidateBody(nested);
        if e.Fail? {
          assert NestedParseError(body[key]) <== e.kind == ParseError;
          return Fail(e.kind);
        }
      case _ =>
        return Fail(ValidationFailed);
    } else {
      return Fail(ValidationFailed);
    }
    // the field is an object spec here, so the const check rejects it
    return Fail(ValidationFailed);
  }

  // ---------------------------------------------------------------------
  // The rules validateBody's messages describe
  // ---------------------------------------------------------------------

  /**
   * The schema rules each applied to its own kind: an object spec holds
   * exactly one map of valid nested specs; a const or prompt spec exactly
   * one string; a select spec at least two values, all strings; a data spec
   * no values. Other kinds are unconstrained.
   */
  predicate FieldSpecValid(v: JsonValue)
    decreases v
  {
    match DecodeBodyField(v)
    case None => false
    case Some(f) =>
      if f.kind == ObjectKind then
        |f.values| == 1 && f.values[0].JObject? &&
        (assert f.values[0] < v; SchemaValid(f.values[0].fields))
      else if f.kind == ConstKind || f.kind == PromptKind then
        |f.values| == 1 && f.values[0].JString?
      else if f.kind == SelectKind then
        |f.values| >= 2 && AllStrings(f.values)
      else if f.kind == DataKind then
        |f.values| == 0
      else true
  }

  predicate SchemaValid(body: map<string, JsonValue>)
    decreases JObject(body)
  {
    BodyDecodes(body) && forall k | k in body :: FieldSpecValid(body[k])
  }

  /**
   * A field spec that keeps those rules never makes CheckBodyField panic,
   * whatever value it is checked against.
   */
  lemma {:induction false} ValidSpecNeverPanics(v: JsonValue, value: JsonValue)
    requires FieldSpecValid(v)
    ensures Verdict.Panic !in CheckBodyField(DecodeBodyField(v).value, value)
    decreases v
  {
    var f := DecodeBodyField(v).value;
    if f.kind == ObjectKind && value.JObject? {
      var typings := f.values[0].fields;
      assert f.values[0] < v;
      assert SchemaValid(typings);
      forall k | k in typings
        ensures DecodeBodyField(typings[k]).Some?
        ensures Verdict.Panic !in CheckBodyField(DecodeBodyField(typings[k]).value, Lookup(value.fields, k))
      {
        ValidSpecNeverPanics(typings[k], Lookup(value.fields, k));
      }
    }
  }

  /**
   * validateBody as its messages describe it: after decoding, every field
   * is checked against the rule of its own kind, an object spec's map
   * recursively, and the body is accepted iff every field keeps its rule.
   */
  method ValidateBodyIntended(body: map<string, JsonValue>) returns (r: Result<map<string, BodyField>>)
    ensures r.Ok? <==> SchemaValid(body)
    ensures r.Ok? ==> r.value == map k | k in body :: DecodeBodyField(body[k]).value
    ensures !BodyDecodes(body) ==> r == Fail(ParseError)
    ensures r.Fail? ==> r.kind == ParseError || r.kind == ValidationFailed
    ensures !r.Panic?
    decreases JObject(body), 1
  {
    var decoded := DecodeBodyLoop(body);
    if decoded.None? {
      return Fail(ParseError);
    }
    var bodyFields := decoded.value;
    var pending := bodyFields.Keys;
    while pending != {}
      invariant pending <= body.Keys
      invariant forall k | k in body.Keys - pending :: FieldSpecValid(body[k])
    {
      var key: string :| key in pending;
      var ok := CheckFieldSpec(body[key], bodyFields[key]);
      if !ok {
        return Fail(ValidationFailed);
      }
      pending := pending - {key};
    }
    return Ok(bodyFields);
  }

  /** The rule of one decoded field spec `f`, read from the raw spec `v`. */
  method CheckFieldSpec(v: JsonValue, f: BodyField) returns (ok: bool)
    requires DecodeBodyField(v) == Some(f)
    ensures ok <==> FieldSpecValid(v)
    decreases v, 0
  {
    if f.kind == ObjectKind {
      if |f.values| != 1 || !f.values[0].JObject? {
        return false;
      }
      assert f.values[0] < v;
      var nested := ValidateBodyIntended(f.values[0].fields);
      return nested.Ok?;
    } else if f.kind == ConstKind || f.kind == PromptKind {
      return |f.values| == 1 && f.values[0].JString?;
    } else if f.kind == SelectKind {
      if |f.values| < 2 {
        return false;
      }
      for i := 0 to |f.values|
        invariant forall j | 0 <= j < i :: f.values[j].JString?
      {
        if !f.values[i].JString? {
          return false;
        }
      }
      return true;
    } else if f.kind == DataKind {
      return |f.values| == 0;
    }
    return true;
  }

  /** A one-field body with the const spec "en": valid under the rules, rejected by ValidateBody. */
  lemma ConstSchemaValid()
    ensures var body := map["lang" := JObject(map["type" := JString(ConstKind), "values" := JArray([JString("en")])])];
            body != map[] && SchemaValid(body)
  {
    var spec := JObject(map["type" := JString(ConstKind), "values" := JArray([JString("en")])]);
    var body := map["lang" := spec];
    assert DecodeBodyField(spec) == Some(BodyField(ConstKind, [JString("en")], false));
    assert FieldSpecValid(spec);
    assert "lang" in body;
  }
}

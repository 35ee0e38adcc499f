/**
 * The node schema: a callable HTTP endpoint with typed body fields and
 * headers (internal/domain/nodes.go), the checks a preset value must pass
 * against a field or header spec, and the mapping to and from the stored
 * record (internal/repository/models/node.go).
 */
module Nodes {

  import opened Json

  const ConstKind := "const"
  const SelectKind := "select"
  const ObjectKind := "object"
  const PromptKind := "prompt"
  const DataKind := "data"

  /** The default mime type of a chain result (internal/domain/consts.go). */
  const JsonContentType := "application/json"

  /** How the zero xid.ID prints: the id of a record the store has not assigned one to. */
  const ZeroId := "00000000000000000000"

  /**
   * A body field spec. `kind` is any string (unknown kinds are possible);
   * `values` holds decoded JSON values: for an object field, values[0] is
   * itself a map from nested field name to a nested spec in JSON form.
   */
  datatype BodyField = BodyField(kind: string, values: seq<JsonValue>, required: bool)

  datatype Header = Header(kind: string, values: seq<string>, required: bool)

  datatype Node = Node(
    id: string,
    name: string,
    url: string,
    httpMethod: string,
    headers: map<string, Header>,
    body: map<string, BodyField>,
    responseDirection: string,
    requestMime: string,
    responseMime: string,
    apiKey: string)

  /** The stored record: specs are kept as decoded JSON objects. */
  datatype NodeModel = NodeModel(
    id: string,
    name: string,
    url: string,
    httpMethod: string,
    headers: map<string, JsonValue>,
    body: map<string, JsonValue>,
    responseDirection: string,
    requestMime: string,
    responseMime: string,
    apiKey: string)

  // ---------------------------------------------------------------------
  // encoding/json round trips of a spec
  // ---------------------------------------------------------------------

  /**
   * json.Unmarshal of a value into a BodyField: null leaves the zero field;
   * an object sets "type", "values" and "required" when present (null keeps
   * the zero value); a wrongly typed member or a non-object is an error.
   */
  function DecodeBodyField(v: JsonValue): (r: Option<BodyField>)
    ensures r.Some? ==> v.JNull? || v.JObject?
    ensures r.Some? && |r.value.values| > 0 ==>
              v.JObject? && "values" in v.fields && v.fields["values"] == JArray(r.value.values)
  {
    match v
    case JNull => Some(BodyField("", [], false))
    case JObject(m) =>
      var t := Lookup(m, "type");
      var vs := Lookup(m, "values");
      var req := Lookup(m, "required");
      if !(t.JString? || t.JNull?) || !(vs.JArray? || vs.JNull?) || !(req.JBool? || req.JNull?) then None
      else Some(BodyField(if t.JString? then t.str else "",
                          if vs.JArray? then vs.items else [],
                          req.JBool? && req.b))
    case _ => None
  }

  /** json.Marshal of a BodyField, read back as a map[string]interface{}. */
  function EncodeBodyField(f: BodyField): JsonValue
  {
    JObject(map["type" := JString(f.kind), "values" := JArray(f.values), "required" := JBool(f.required)])
  }

  /** Unmarshalling a []string: null elements become "", any other non-string is an error. */
  function DecodeStrings(xs: seq<JsonValue>): (r: Option<seq<string>>)
    ensures r.Some? ==> |r.value| == |xs|
  {
    if xs == [] then Some([])
    else match xs[0]
      case JString(s) => (match DecodeStrings(xs[1..]) case Some(rest) => Some([s] + rest) case None => None)
      case JNull => (match DecodeStrings(xs[1..]) case Some(rest) => Some([""] + rest) case None => None)
      case _ => None
  }

  function DecodeHeader(v: JsonValue): (r: Option<Header>)
    ensures r.Some? ==> v.JNull? || v.JObject?
  {
    match v
    case JNull => Some(Header("", [], false))
    case JObject(m) =>
      var t := Lookup(m, "type");
      var vs := Lookup(m, "values");
      var req := Lookup(m, "required");
      var strs := if vs.JArray? then DecodeStrings(vs.items) else Some([]);
      if !(t.JString? || t.JNull?) || !(vs.JArray? || vs.JNull?) || !(req.JBool? || req.JNull?) || strs.None? then None
      else Some(Header(if t.JString? then t.str else "", strs.value, req.JBool? && req.b))
    case _ => None
  }

  function EncodeHeader(h: Header): JsonValue
  {
    JObject(map["type" := JString(h.kind), "values" := JArray(Strings(h.values)), "required" := JBool(h.required)])
  }

  /** A body field spec survives json.Marshal followed by json.Unmarshal. */
  lemma DecodeEncodeBodyField(f: BodyField)
    ensures DecodeBodyField(EncodeBodyField(f)) == Some(f)
  {
  }

  lemma {:induction false} DecodeStringsOfStrings(ids: seq<string>)
    ensures DecodeStrings(Strings(ids)) == Some(ids)
  {
    if ids != [] {
      DecodeStringsOfStrings(ids[1..]);
      var xs := Strings(ids);
      assert xs[0] == JString(ids[0]);
      assert xs[1..] == Strings(ids[1..]);
      assert [ids[0]] + ids[1..] == ids;
    }
  }

  /** A header spec survives json.Marshal followed by json.Unmarshal. */
  lemma DecodeEncodeHeader(h: Header)
    ensures DecodeHeader(EncodeHeader(h)) == Some(h)
  {
    DecodeStringsOfStrings(h.values);
  }

  /** Every entry of a JSON object decodes into a BodyField. */
  predicate BodyDecodes(body: map<string, JsonValue>)
  {
    forall k | k in body :: DecodeBodyField(body[k]).Some?
  }

  // ---------------------------------------------------------------------
  // BodyField.CheckBodyField
  // ---------------------------------------------------------------------

  /** What one run of a check can end in. */
  datatype Verdict = Accept | Reject | Panic

  /**
   * The verdicts of a loop over a Go map that stops at the first entry that
   * does not accept: the loop accepts when every entry must accept, and
   * otherwise any non-accepting verdict of any entry can come first.
   */
  function FirstFailure(outcomes: map<string, set<Verdict>>): (r: set<Verdict>)
    requires forall k | k in outcomes :: outcomes[k] != {} && (Accept in outcomes[k] ==> outcomes[k] == {Accept})
    ensures r != {}
    ensures Accept in r <==> forall k | k in outcomes :: outcomes[k] == {Accept}
    ensures Accept in r ==> r == {Accept}
    ensures forall k, x | k in outcomes && x in outcomes[k] && x != Accept :: x in r
    ensures forall x | x in r && x != Accept :: exists k | k in outcomes :: x in outcomes[k]
  {
    if forall k | k in outcomes :: outcomes[k] == {Accept} then {Accept}
    else
      var k :| k in outcomes && outcomes[k] != {Accept};
      var x :| x in outcomes[k] && x != Accept;
      var r := set k, x | k in outcomes && x in outcomes[k] && x != Accept :: x;
      assert x in r;
      r
  }

  /**
   * The verdicts BodyField.CheckBodyField can return for `value`, over all
   * iteration orders of the nested spec map. Const and select demand a
   * string (const: equal to values[0]; select: one of values); object
   * demands a map and checks every nested spec against the nested value at
   * its key, a missing key being checked as null; other kinds accept.
   * Panics: values[0] of an empty const or object spec, a non-map values[0]
   * of an object spec, a non-string allowed value of a select spec.
   */
  function CheckBodyField(bd: BodyField, value: JsonValue): (r: set<Verdict>)
    ensures r != {}
    ensures Accept in r ==> r == {Accept}
    decreases if |bd.values| == 0 then 0 else 1, JArray(bd.values)
  {
    if bd.kind == ConstKind then
      if !value.JString? then {Reject}
      else if |bd.values| == 0 then {Panic}
      else if bd.values[0] != value then {Reject}
      else {Accept}
    else if bd.kind == SelectKind then
      if !value.JString? then {Reject}
      else if exists i | 0 <= i < |bd.values| :: !bd.values[i].JString? then {Panic}
      else if value in bd.values then {Accept}
      else {Reject}
    else if bd.kind == ObjectKind then
      if !value.JObject? then {Reject}
      else if |bd.values| == 0 || !bd.values[0].JObject? then {Panic}
      else if !BodyDecodes(bd.values[0].fields) then {Reject}
      else
        var typings := bd.values[0].fields;
        FirstFailure(map k | k in typings ::
          (assert typings[k] < bd.values[0];
           CheckBodyField(DecodeBodyField(typings[k]).value, Lookup(value.fields, k))))
    else {Accept}
  }

  /** A const field rejects a non-string; it accepts a string iff it equals values[0]. */
  lemma ConstFieldVerdict(bd: BodyField, value: JsonValue)
    requires bd.kind == ConstKind
    ensures !value.JString? ==> CheckBodyField(bd, value) == {Reject}
    ensures value.JString? && |bd.values| > 0 ==>
              CheckBodyField(bd, value) == (if bd.values[0] == value then {Accept} else {Reject})
  {
  }

  /** A select field with string values accepts exactly the strings among them. */
  lemma SelectFieldVerdict(bd: BodyField, value: JsonValue)
    requires bd.kind == SelectKind
    requires AllStrings(bd.values)
    ensures CheckBodyField(bd, value) == (if value.JString? && value in bd.values then {Accept} else {Reject})
  {
  }

  predicate AllStrings(xs: seq<JsonValue>)
  {
    forall i | 0 <= i < |xs| :: xs[i].JString?
  }

  /** The nested specs of an object field, decoded. */
  function NestedSpecs(bd: BodyField): (specs: map<string, BodyField>)
    requires |bd.values| > 0 && bd.values[0].JObject? && BodyDecodes(bd.values[0].fields)
    ensures specs.Keys == bd.values[0].fields.Keys
  {
    map k | k in bd.values[0].fields :: DecodeBodyField(bd.values[0].fields[k]).value
  }

  /**
   * An object field rejects a non-map value; against a map it accepts iff
   * every nested spec accepts the nested value at its key (null when absent).
   */
  lemma ObjectFieldVerdict(bd: BodyField, value: JsonValue)
    requires bd.kind == ObjectKind
    ensures !value.JObject? ==> CheckBodyField(bd, value) == {Reject}
    ensures value.JObject? && |bd.values| > 0 && bd.values[0].JObject? && BodyDecodes(bd.values[0].fields) ==>
              (Accept in CheckBodyField(bd, value) <==>
                 forall k | k in NestedSpecs(bd) :: CheckBodyField(NestedSpecs(bd)[k], Lookup(value.fields, k)) == {Accept})
  {
  }

  /**
   * A nested const, select or object field whose key is missing from the
   * value is checked against null and so makes the object field reject.
   */
  lemma MissingNestedFieldRejected(bd: BodyField, value: JsonValue, key: string)
    requires bd.kind == ObjectKind && value.JObject?
    requires |bd.values| > 0 && bd.values[0].JObject? && BodyDecodes(bd.values[0].fields)
    requires key in NestedSpecs(bd) && key !in value.fields
    requires NestedSpecs(bd)[key].kind in {ConstKind, SelectKind, ObjectKind}
    ensures Reject in CheckBodyField(bd, value)
    ensures Accept !in CheckBodyField(bd, value)
  {
    var nested := NestedSpecs(bd)[key];
    assert CheckBodyField(nested, JNull) == {Reject};
  }

  /** Prompt, data and unknown kinds accept every value. */
  lemma FreeKindsAccept(bd: BodyField, value: JsonValue)
    requires bd.kind != ConstKind && bd.kind != SelectKind && bd.kind != ObjectKind
    ensures CheckBodyField(bd, value) == {Accept}
  {
  }

  // ---------------------------------------------------------------------
  // Header.CheckHeader
  // ---------------------------------------------------------------------

  /**
   * Header.CheckHeader: const accepts only values[0] (and panics on an
   * empty values list), select only a member of values, other kinds anything.
   */
  function CheckHeader(h: Header, value: string): (r: Verdict)
    ensures r == Panic <==> h.kind == ConstKind && |h.values| == 0
    ensures h.kind == ConstKind && |h.values| > 0 ==> (r == Accept <==> value == h.values[0])
    ensures h.kind == SelectKind ==> (r == Accept <==> value in h.values)
    ensures h.kind != ConstKind && h.kind != SelectKind ==> r == Accept
  {
    if h.kind == ConstKind && |h.values| == 0 then Panic
    else if h.kind == ConstKind && h.values[0] != value then Reject
    else if h.kind == SelectKind && value !in h.values then Reject
    else Accept
  }

  /** Neither check consults the Required flag. */
  lemma RequiredNotConsulted(bd: BodyField, h: Header, value: JsonValue, header: string, required: bool)
    ensures CheckBodyField(bd.(required := required), value) == CheckBodyField(bd, value)
    ensures CheckHeader(h.(required := required), header) == CheckHeader(h, header)
  {
  }

  // ---------------------------------------------------------------------
  // Node.ToModel / Node.FromModel
  // ---------------------------------------------------------------------

  function EncodeBody(body: map<string, BodyField>): (m: map<string, JsonValue>)
    ensures m.Keys == body.Keys
  {
    map k | k in body :: EncodeBodyField(body[k])
  }

  function EncodeHeaders(headers: map<string, Header>): (m: map<string, JsonValue>)
    ensures m.Keys == headers.Keys
  {
    map k | k in headers :: EncodeHeader(headers[k])
  }

  /**
   * Node.ToModel as written: the id is left unset and the stored response
   * mime is the request mime.
   */
  function NodeToModel(n: Node): NodeModel
  {
    NodeModel(ZeroId, n.name, n.url, n.httpMethod, EncodeHeaders(n.headers), EncodeBody(n.body),
              n.responseDirection, n.requestMime, n.requestMime, n.apiKey)
  }

  predicate HeadersDecode(headers: map<string, JsonValue>)
  {
    forall k | k in headers :: DecodeHeader(headers[k]).Some?
  }

  /** Node.FromModel: fails iff some stored spec does not decode; copies every other field. */
  function NodeFromModel(m: NodeModel): (r: Option<Node>)
    ensures r.Some? <==> BodyDecodes(m.body) && HeadersDecode(m.headers)
  {
    if !BodyDecodes(m.body) || !HeadersDecode(m.headers) then None
    else
      Some(Node(m.id, m.name, m.url, m.httpMethod,
                map k | k in m.headers :: DecodeHeader(m.headers[k]).value,
                map k | k in m.body :: DecodeBodyField(m.body[k]).value,
                m.responseDirection, m.requestMime, m.responseMime, m.apiKey))
  }

  /** Node.ToModel: each spec is marshalled and unmarshalled into a generic JSON object. */
  method ToModel(n: Node) returns (m: NodeModel)
    ensures m == NodeToModel(n)
  {
    var body := EncodeBodyLoop(n.body);
    var headers := EncodeHeadersLoop(n.headers);
    m := NodeModel(ZeroId, n.name, n.url, n.httpMethod, headers, body,
                   n.responseDirection, n.requestMime, n.requestMime, n.apiKey);
  }

  /** The loop of Node.ToModel filling `body`. */
  method EncodeBodyLoop(fields: map<string, BodyField>) returns (body: map<string, JsonValue>)
    ensures body == EncodeBody(fields)
  {
    body := map[];
    var pending := fields.Keys;
    while pending != {}
      invariant pending <= fields.Keys
      invariant body.Keys == fields.Keys - pending
      invariant forall k | k in body :: body[k] == EncodeBodyField(fields[k])
    {
      var key: string :| key in pending;
      body := body[key := EncodeBodyField(fields[key])];
      pending := pending - {key};
    }
  }

  /** The loop of Node.ToModel filling `headers`. */
  method EncodeHeadersLoop(specs: map<string, Header>) returns (headers: map<string, JsonValue>)
    ensures headers == EncodeHeaders(specs)
  {
    headers := map[];
    var pending := specs.Keys;
    while pending != {}
      invariant pending <= specs.Keys
      invariant headers.Keys == specs.Keys - pending
      invariant forall k | k in headers :: headers[k] == EncodeHeader(specs[k])
    {
      var key: string :| key in pending;
      headers := headers[key := EncodeHeader(specs[key])];
      pending := pending - {key};
    }
  }

  /** Node.FromModel: the first spec that does not decode ends it with an error. */
  method FromModel(m: NodeModel) returns (r: Option<Node>)
    ensures r == NodeFromModel(m)
  {
    var bodyFields := DecodeBodyLoop(m.body);
    if bodyFields.None? {
      return None;
    }
    var headers := DecodeHeadersLoop(m.headers);
    if headers.None? {
      return None;
    }
    r := Some(Node(m.id, m.name, m.url, m.httpMethod, headers.value, bodyFields.value,
                   m.responseDirection, m.requestMime, m.responseMime, m.apiKey));
  }

  /** The loop of Node.FromModel filling `bodyFields`. */
  method DecodeBodyLoop(body: map<string, JsonValue>) returns (r: Option<map<string, BodyField>>)
    ensures r.Some? <==> BodyDecodes(body)
    ensures r.Some? ==> r.value == map k | k in body :: DecodeBodyField(body[k]).value
  {
    var fields: map<string, BodyField> := map[];
    var pending := body.Keys;
    while pending != {}
      invariant pending <= body.Keys
      invariant fields.Keys == body.Keys - pending
      invariant forall k | k in fields :: DecodeBodyField(body[k]) == Some(fields[k])
    {
      var key: string :| key in pending;
      var field := DecodeBodyField(body[key]);
      if field.None? {
        return None;
      }
      fields := fields[key := field.value];
      pending := pending - {key};
    }
    r := Some(fields);
  }

  /** The loop of Node.FromModel filling `headers`. */
  method DecodeHeadersLoop(headers: map<string, JsonValue>) returns (r: Option<map<string, Header>>)
    ensures r.Some? <==> HeadersDecode(headers)
    ensures r.Some? ==> r.value == map k | k in headers :: DecodeHeader(headers[k]).value
  {
    var specs: map<string, Header> := map[];
    var pending := headers.Keys;
    while pending != {}
      invariant pending <= headers.Keys
      invariant specs.Keys == headers.Keys - pending
      invariant forall k | k in specs :: DecodeHeader(headers[k]) == Some(specs[k])
    {
      var key: string :| key in pending;
      var header := DecodeHeader(headers[key]);
      if header.None? {
        return None;
      }
      specs := specs[key := header.value];
      pending := pending - {key};
    }
    r := Some(specs);
  }

  /**
   * Storing a node and reading it back keeps every field except the id,
   * which is the zero id, and the response mime, which becomes the request mime.
   */
  lemma NodeRoundTrip(n: Node)
    ensures NodeFromModel(NodeToModel(n)) == Some(n.(id := ZeroId, responseMime := n.requestMime))
  {
    BodyRoundTrip(n.body);
    HeadersRoundTrip(n.headers);
  }

  lemma BodyRoundTrip(body: map<string, BodyField>)
    ensures BodyDecodes(EncodeBody(body))
    ensures (map k | k in EncodeBody(body) :: DecodeBodyField(EncodeBody(body)[k]).value) == body
  {
    var m := EncodeBody(body);
    forall k | k in body ensures DecodeBodyField(m[k]) == Some(body[k]) {
      DecodeEncodeBodyField(body[k]);
    }
    var back := map k | k in m :: DecodeBodyField(m[k]).value;
    assert back == body;
  }

  lemma HeadersRoundTrip(headers: map<string, Header>)
    ensures HeadersDecode(EncodeHeaders(headers))
    ensures (map k | k in EncodeHeaders(headers) :: DecodeHeader(EncodeHeaders(headers)[k]).value) == headers
  {
    var m := EncodeHeaders(headers);
    forall k | k in headers ensures DecodeHeader(m[k]) == Some(headers[k]) {
      DecodeEncodeHeader(headers[k]);
    }
    var back := map k | k in m :: DecodeHeader(m[k]).value;
    assert back == headers;
  }

  /** Node.ToModel with the response mime stored from the response mime. */
  function NodeToModelIntended(n: Node): NodeModel
  {
    NodeToModel(n).(responseMime := n.responseMime)
  }

  /** With the intended mapping a stored node reads back unchanged except for its id. */
  lemma NodeRoundTripIntended(n: Node)
    ensures NodeFromModel(NodeToModelIntended(n)) == Some(n.(id := ZeroId))
  {
    NodeRoundTrip(n);
  }
}

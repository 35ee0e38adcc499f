/**
 * A script: a workflow of steps, each a set of chains of node ids, with
 * per-node body and header presets (internal/domain/script.go), its
 * normalisation from the request's nested lists (parseStep) and its
 * mapping to and from the stored record (internal/repository/models/script.go).
 */
module Scripts {

  import opened Json
  import opened Decimal
  import Nodes

  /** Step key -> chain key -> node ids of the chain, in call order. */
  type Workflow = map<Int64, map<nat, seq<string>>>

  datatype Script = Script(
    id: string,
    name: string,
    workflow: Workflow,
    bodyPresets: map<string, map<string, JsonValue>>,
    headerPresets: map<string, map<string, string>>,
    authorId: string,
    warehouseApiKey: string)

  /**
   * One entry of the stored preset maps, which are map[string]interface{}:
   * a decoded JSON value, the bytes json.Marshal produced for a value, or a
   * map[string]string. Only the last passes the header type assertion and
   * only a decoded JSON object passes the body one.
   */
  datatype PresetCell = Decoded(value: JsonValue) | Bytes(payload: JsonValue) | StringMap(entries: map<string, string>)

  /** The stored record; `workflow` is the decoded form of its raw JSON text. */
  datatype ScriptModel = ScriptModel(
    id: string,
    name: string,
    workflow: JsonValue,
    bodyPresets: map<string, PresetCell>,
    headerPresets: map<string, PresetCell>,
    authorId: string,
    warehouseApiKey: string)

  // ---------------------------------------------------------------------
  // parseStep
  // ---------------------------------------------------------------------

  /**
   * What parseStep returns for a step array: entry i becomes chain i when
   * it is a string or a nested list; other entries are skipped.
   */
  function ParsedStep(data: seq<JsonValue>): (chains: map<nat, seq<string>>)
    ensures forall i :: i in chains <==> 0 <= i < |data| && (data[i].JString? || data[i].JArray?)
    ensures forall i | i in chains :: |chains[i]| <= 1
    decreases JArray(data), 0
  {
    map i | 0 <= i < |data| && (data[i].JString? || data[i].JArray?) :: ChainOf(data[i])
  }

  /**
   * The chain of one step entry: a string is a one-id chain; a nested list
   * contributes only the chain its own entry 0 parses to (none if absent).
   */
  function ChainOf(v: JsonValue): (chain: seq<string>)
    ensures |chain| <= 1
    decreases v, 1
  {
    match v
    case JString(s) => [s]
    case JArray(items) =>
      var nested := ParsedStep(items);
      if 0 in nested then nested[0] else []
    case _ => []
  }

  /** parseStep: fills the chain map entry by entry, recursing into nested lists. */
  method ParseStep(data: seq<JsonValue>) returns (chains: map<nat, seq<string>>)
    ensures chains == ParsedStep(data)
    decreases JArray(data)
  {
    chains := map[];
    for i := 0 to |data|
      invariant chains == map j | 0 <= j < i && (data[j].JString? || data[j].JArray?) :: ChainOf(data[j])
    {
      match data[i]
      case JArray(nested) =>
        assert data[i] < JArray(data);
        var inner := ParseStep(nested);
        chains := chains[i := if 0 in inner then inner[0] else []];
      case JString(s) =>
        chains := chains[i := [s]];
      case _ =>
    }
  }

  /** A nested list of ids yields only its first id. */
  lemma NestedListKeepsFirst(ids: seq<string>)
    requires |ids| > 0
    ensures ParsedStep([JArray(Strings(ids))]) == map[0 := [ids[0]]]
  {
    var inner := Strings(ids);
    assert ChainOf(inner[0]) == [ids[0]];
    assert ParsedStep(inner)[0] == [ids[0]];
    assert ChainOf(JArray(inner)) == [ids[0]];
  }

  // ---------------------------------------------------------------------
  // Script.ToModel
  // ---------------------------------------------------------------------

  /** json.Marshal of a chain: a nil (empty) slice is null. */
  function ChainJson(chain: seq<string>): JsonValue
  {
    if chain == [] then JNull else JArray(Strings(chain))
  }

  function Nulls(n: nat): (s: seq<JsonValue>)
    ensures |s| == n && forall i | 0 <= i < n :: s[i] == JNull
  {
    seq(n, _ => JNull)
  }

  /** `order` lists every key of `keys` exactly once. */
  predicate IsOrdering(order: seq<nat>, keys: set<nat>)
  {
    |order| == |keys|
    && (forall i | 0 <= i < |order| :: order[i] in keys)
    && (forall i, j | 0 <= i < j < |order| :: order[i] != order[j])
  }

  function ChainsInOrder(step: map<nat, seq<string>>, order: seq<nat>): (s: seq<JsonValue>)
    requires forall i | 0 <= i < |order| :: order[i] in step
    ensures |s| == |order|
    ensures forall i | 0 <= i < |order| :: s[i] == ChainJson(step[order[i]])
  {
    seq(|order|, i requires 0 <= i < |order| => ChainJson(step[order[i]]))
  }

  lemma OrderOneMore(order: seq<nat>, done: set<nat>, key: nat)
    requires IsOrdering(order, done) && key !in done
    ensures IsOrdering(order + [key], done + {key})
  {
  }

  lemma ChainsInOrderAppend(step: map<nat, seq<string>>, order: seq<nat>, key: nat)
    requires forall i | 0 <= i < |order| :: order[i] in step
    requires key in step
    ensures ChainsInOrder(step, order + [key]) == ChainsInOrder(step, order) + [ChainJson(step[key])]
  {
    assert ChainsInOrder(step, order + [key])[|order|] == ChainJson(step[key]);
  }

  /**
   * How Script.ToModel lays out one step: an array pre-sized with one nil
   * per chain, followed by the chains appended in map iteration order.
   */
  ghost predicate StepLayout(step: map<nat, seq<string>>, v: JsonValue)
  {
    exists order | IsOrdering(order, step.Keys) :: v == JArray(Nulls(|step|) + ChainsInOrder(step, order))
  }

  function BodyPresetBytes(presets: map<string, map<string, JsonValue>>): (cells: map<string, PresetCell>)
    ensures cells.Keys == presets.Keys
  {
    map k | k in presets :: Bytes(JObject(presets[k]))
  }

  function HeaderObject(headers: map<string, string>): JsonValue
  {
    JObject(map h | h in headers :: JString(headers[h]))
  }

  function HeaderPresetBytes(presets: map<string, map<string, string>>): (cells: map<string, PresetCell>)
    ensures cells.Keys == presets.Keys
  {
    map k | k in presets :: Bytes(HeaderObject(presets[k]))
  }

  /**
   * What Script.ToModel stores for `s`: no id, the presets as marshalled
   * bytes, and the workflow keyed by the decimal form of each step key with
   * each step laid out as StepLayout says.
   */
  ghost predicate IsModelOf(s: Script, m: ScriptModel)
  {
    m.id == Nodes.ZeroId && m.name == s.name && m.authorId == s.authorId
    && m.warehouseApiKey == s.warehouseApiKey
    && m.bodyPresets == BodyPresetBytes(s.bodyPresets)
    && m.headerPresets == HeaderPresetBytes(s.headerPresets)
    && WorkflowStored(s.workflow, m.workflow)
  }

  /** The stored workflow: one member per step, named by the step key's decimal form. */
  ghost predicate WorkflowStored(workflow: Workflow, v: JsonValue)
  {
    v.JObject?
    && v.fields.Keys == (set n | n in workflow :: Itoa(n))
    && forall n | n in workflow :: StepLayout(workflow[n], v.fields[Itoa(n)])
  }

  /** The inner loop of Script.ToModel: append every chain after `|step|` nils. */
  method StepToJson(step: map<nat, seq<string>>) returns (v: JsonValue, ghost order: seq<nat>)
    ensures IsOrdering(order, step.Keys)
    ensures v == JArray(Nulls(|step|) + ChainsInOrder(step, order))
    ensures v.JArray? && |v.items| == 2 * |step|
    ensures forall i | 0 <= i < |step| :: v.items[i] == JNull
  {
    var items := Nulls(|step|);
    order := [];
    ghost var done: set<nat> := {};
    var pending := step.Keys;
    while pending != {}
      invariant done !! pending && done + pending == step.Keys
      invariant IsOrdering(order, done)
      invariant items == Nulls(|step|) + ChainsInOrder(step, order)
    {
      var key: nat :| key in pending;
      ChainsInOrderAppend(step, order, key);
      OrderOneMore(order, done, key);
      items := items + [ChainJson(step[key])];
      order := order + [key];
      done := done + {key};
      pending := pending - {key};
    }
    v := JArray(items);
  }

  /** Script.ToModel: the preset loops, the workflow loop, and the copied fields. */
  method ToModel(s: Script) returns (m: ScriptModel)
    ensures IsModelOf(s, m)
  {
    var bodyPresets := MarshalBodyPresets(s.bodyPresets);
    var headerPresets := MarshalHeaderPresets(s.headerPresets);
    var workflow := StoreWorkflow(s.workflow);
    m := ScriptModel(Nodes.ZeroId, s.name, workflow, bodyPresets, headerPresets,
                     s.authorId, s.warehouseApiKey);
  }

  /** The body preset loop of Script.ToModel: each preset map becomes its json.Marshal bytes. */
  method MarshalBodyPresets(presets: map<string, map<string, JsonValue>>) returns (cells: map<string, PresetCell>)
    ensures cells == BodyPresetBytes(presets)
  {
    cells := map[];
    var pending := presets.Keys;
    while pending != {}
      invariant pending <= presets.Keys
      invariant cells.Keys == presets.Keys - pending
      invariant forall k | k in cells :: cells[k] == Bytes(JObject(presets[k]))
    {
      var key: string :| key in pending;
      cells := cells[key := Bytes(JObject(presets[key]))];
      pending := pending - {key};
    }
  }

  /** The header preset loop of Script.ToModel. */
  method MarshalHeaderPresets(presets: map<string, map<string, string>>) returns (cells: map<string, PresetCell>)
    ensures cells == HeaderPresetBytes(presets)
  {
    cells := map[];
    var pending := presets.Keys;
    while pending != {}
      invariant pending <= presets.Keys
      invariant cells.Keys == presets.Keys - pending
      invariant forall k | k in cells :: cells[k] == Bytes(HeaderObject(presets[k]))
    {
      var key: string :| key in pending;
      cells := cells[key := Bytes(HeaderObject(presets[key]))];
      pending := pending - {key};
    }
  }

  /** The workflow loop of Script.ToModel: each step stored under the decimal form of its key. */
  method StoreWorkflow(workflow: Workflow) returns (v: JsonValue)
    ensures WorkflowStored(workflow, v)
  {
    var stored: map<string, JsonValue> := map[];
    ghost var done: set<Int64> := {};
    var pending := workflow.Keys;
    while pending != {}
      invariant done !! pending && done + pending == workflow.Keys
      invariant PartlyStored(workflow, done, stored)
    {
      var n: Int64 :| n in pending;
      var step, order := StepToJson(workflow[n]);
      StoreOneStep(workflow, done, stored, n, step, order);
      stored := stored[Itoa(n) := step];
      done := done + {n};
      pending := pending - {n};
    }
    v := JObject(stored);
  }

  /** The steps in `done` are stored as WorkflowStored says, and nothing else is. */
  ghost predicate PartlyStored(workflow: Workflow, done: set<Int64>, stored: map<string, JsonValue>)
    requires done <= workflow.Keys
  {
    stored.Keys == (set n | n in done :: Itoa(n))
    && forall n | n in done :: StepLayout(workflow[n], stored[Itoa(n)])
  }

  lemma StoreOneStep(workflow: Workflow, done: set<Int64>, stored: map<string, JsonValue>,
                     n: Int64, step: JsonValue, order: seq<nat>)
    requires done <= workflow.Keys && n in workflow && n !in done
    requires PartlyStored(workflow, done, stored)
    requires IsOrdering(order, workflow[n].Keys)
    requires step == JArray(Nulls(|workflow[n]|) + ChainsInOrder(workflow[n], order))
    ensures PartlyStored(workflow, done + {n}, stored[Itoa(n) := step])
  {
    assert StepLayout(workflow[n], step);
    forall n' | n' in done ensures Itoa(n') != Itoa(n) {
      if Itoa(n') == Itoa(n) {
        ItoaInjective(n', n);
      }
    }
    var stored' := stored[Itoa(n) := step];
    assert stored'.Keys == (set n' | n' in done + {n} :: Itoa(n'));
  }

  // ---------------------------------------------------------------------
  // Script.FromModel
  // ---------------------------------------------------------------------

  /**
   * json.Unmarshal of the raw workflow into map[string][]interface{}: null
   * is an empty map, every member must be a list or null.
   */
  function DecodeWorkflow(v: JsonValue): (r: Option<map<string, seq<JsonValue>>>)
    ensures r.Some? && v.JObject? ==> r.value.Keys == v.fields.Keys
  {
    match v
    case JNull => Some(map[])
    case JObject(fields) =>
      if forall k | k in fields :: fields[k].JArray? || fields[k].JNull? then
        Some(map k | k in fields :: if fields[k].JArray? then fields[k].items else [])
      else None
    case _ => None
  }

  /** Every step key of a decoded workflow is a decimal int. */
  predicate KeysParse(steps: map<string, seq<JsonValue>>)
  {
    forall k | k in steps :: Atoi(k).Some?
  }

  predicate BodyCellsDecode(cells: map<string, PresetCell>)
  {
    forall k | k in cells :: cells[k].Decoded? && cells[k].value.JObject?
  }

  predicate HeaderCellsDecode(cells: map<string, PresetCell>)
  {
    forall k | k in cells :: cells[k].StringMap?
  }

  /** Script.FromModel fails iff one of its conversions fails. */
  predicate FromModelSucceeds(m: ScriptModel)
  {
    DecodeWorkflow(m.workflow).Some? && KeysParse(DecodeWorkflow(m.workflow).value)
    && BodyCellsDecode(m.bodyPresets) && HeaderCellsDecode(m.headerPresets)
  }

  /**
   * The workflow a successful Script.FromModel builds from the decoded
   * steps: one parsed step per decimal key; keys that parse to the same int
   * (such as "1" and "01") leave whichever came last.
   */
  ghost predicate IsWorkflowOf(steps: map<string, seq<JsonValue>>, workflow: Workflow)
    requires KeysParse(steps)
  {
    workflow.Keys == (set k | k in steps :: Atoi(k).value)
    && forall n | n in workflow :: exists k | k in steps && Atoi(k) == Some(n) :: workflow[n] == ParsedStep(steps[k])
  }

  /** What a successful Script.FromModel returns: copied fields, the preset maps unwrapped, the parsed workflow. */
  ghost predicate IsScriptOf(m: ScriptModel, s: Script)
    requires FromModelSucceeds(m)
  {
    s.id == m.id && s.name == m.name && s.authorId == m.authorId && s.warehouseApiKey == m.warehouseApiKey
    && s.bodyPresets == (map k | k in m.bodyPresets :: m.bodyPresets[k].value.fields)
    && s.headerPresets == (map k | k in m.headerPresets :: m.headerPresets[k].entries)
    && IsWorkflowOf(DecodeWorkflow(m.workflow).value, s.workflow)
  }

  /** The workflow loop of Script.FromModel: the first key that is not a decimal int is an error. */
  method ParseWorkflow(steps: map<string, seq<JsonValue>>) returns (r: Option<Workflow>)
    ensures r.Some? <==> KeysParse(steps)
    ensures r.Some? ==> IsWorkflowOf(steps, r.value)
  {
    var workflow: Workflow := map[];
    var pending := steps.Keys;
    while pending != {}
      invariant pending <= steps.Keys
      invariant forall k | k in steps.Keys - pending :: Atoi(k).Some?
      invariant workflow.Keys == set k | k in steps.Keys - pending :: Atoi(k).value
      invariant forall n | n in workflow ::
                  exists k | k in steps.Keys - pending && Atoi(k) == Some(n) :: workflow[n] == ParsedStep(steps[k])
    {
      var key: string :| key in pending;
      var stepKey := Atoi(key);
      if stepKey.None? {
        return None;
      }
      var chains := ParseStep(steps[key]);
      workflow := workflow[stepKey.value := chains];
      pending := pending - {key};
    }
    assert steps.Keys - pending == steps.Keys;
    r := Some(workflow);
  }

  /** The body preset loop of Script.FromModel: every entry must be a decoded JSON object. */
  method UnwrapBodyPresets(cells: map<string, PresetCell>) returns (r: Option<map<string, map<string, JsonValue>>>)
    ensures r.Some? <==> BodyCellsDecode(cells)
    ensures r.Some? ==> r.value == map k | k in cells :: cells[k].value.fields
  {
    var presets: map<string, map<string, JsonValue>> := map[];
    var pending := cells.Keys;
    while pending != {}
      invariant pending <= cells.Keys
      invariant presets.Keys == cells.Keys - pending
      invariant forall k | k in presets :: cells[k].Decoded? && cells[k].value.JObject? && presets[k] == cells[k].value.fields
    {
      var key: string :| key in pending;
      var cell := cells[key];
      if !(cell.Decoded? && cell.value.JObject?) {
        return None;
      }
      presets := presets[key := cell.value.fields];
      pending := pending - {key};
    }
    r := Some(presets);
  }

  /** The header preset loop of Script.FromModel: every entry must be a map[string]string. */
  method UnwrapHeaderPresets(cells: map<string, PresetCell>) returns (r: Option<map<string, map<string, string>>>)
    ensures r.Some? <==> HeaderCellsDecode(cells)
    ensures r.Some? ==> r.value == map k | k in cells :: cells[k].entries
  {
    var presets: map<string, map<string, string>> := map[];
    var pending := cells.Keys;
    while pending != {}
      invariant pending <= cells.Keys
      invariant presets.Keys == cells.Keys - pending
      invariant forall k | k in presets :: cells[k].StringMap? && presets[k] == cells[k].entries
    {
      var key: string :| key in pending;
      var cell := cells[key];
      if !cell.StringMap? {
        return None;
      }
      presets := presets[key := cell.entries];
      pending := pending - {key};
    }
    r := Some(presets);
  }

  /** Script.FromModel. */
  method FromModel(m: ScriptModel) returns (r: Option<Script>)
    ensures r.Some? <==> FromModelSucceeds(m)
    ensures r.Some? ==> IsScriptOf(m, r.value)
  {
    var decoded := DecodeWorkflow(m.workflow);
    if decoded.None? {
      return None;
    }
    var workflow := ParseWorkflow(decoded.value);
    if workflow.None? {
      return None;
    }
    var bodyPresets := UnwrapBodyPresets(m.bodyPresets);
    if bodyPresets.None? {
      return None;
    }
    var headerPresets := UnwrapHeaderPresets(m.headerPresets);
    if headerPresets.None? {
      return None;
    }
    r := Some(Script(m.id, m.name, workflow.value, bodyPresets.value, headerPresets.value, m.authorId, m.warehouseApiKey));
  }

  // ---------------------------------------------------------------------
  // The stored workflow read back
  // ---------------------------------------------------------------------

  /** A stored chain parses back to its first id; an empty one is a null entry. */
  lemma ChainOfEncoded(chain: seq<string>)
    ensures chain == [] ==> ChainJson(chain) == JNull
    ensures chain != [] ==> ChainOf(ChainJson(chain)) == [chain[0]]
  {
    if chain != [] {
      var items := Strings(chain);
      assert ChainOf(items[0]) == [chain[0]];
      assert ParsedStep(items)[0] == [chain[0]];
    }
  }

  /**
   * The chains parseStep recovers from a stored step: the chain stored at
   * position n + i (n chains, i-th in iteration order) keeps only its first
   * id, and empty chains vanish.
   */
  function Shifted(step: map<nat, seq<string>>, order: seq<nat>): (chains: map<nat, seq<string>>)
    requires IsOrdering(order, step.Keys)
  {
    map i: nat | |order| <= i < 2 * |order| && StoredAt(step, order, i) != [] :: [StoredAt(step, order, i)[0]]
  }

  /** The chain Script.ToModel stores at position i of a step. */
  function StoredAt(step: map<nat, seq<string>>, order: seq<nat>, i: nat): seq<string>
    requires IsOrdering(order, step.Keys) && |order| <= i < 2 * |order|
  {
    step[order[i - |order|]]
  }

  /** Parsing a stored step gives exactly the shifted first ids. */
  lemma ReparseStep(step: map<nat, seq<string>>, order: seq<nat>)
    requires IsOrdering(order, step.Keys)
    ensures ParsedStep(Nulls(|step|) + ChainsInOrder(step, order)) == Shifted(step, order)
  {
    var n := |step|;
    var data := Nulls(n) + ChainsInOrder(step, order);
    var parsed := ParsedStep(data);
    var shifted := Shifted(step, order);
    forall i: nat | i in parsed ensures i in shifted && parsed[i] == shifted[i] {
      StoredEntry(step, order, i);
    }
    forall i: nat | i in shifted ensures i in parsed {
      StoredEntry(step, order, i);
    }
    assert parsed.Keys == shifted.Keys;
  }

  /** Entry i of a stored step: padding below |step|, the stored chain from there on. */
  lemma StoredEntry(step: map<nat, seq<string>>, order: seq<nat>, i: nat)
    requires IsOrdering(order, step.Keys)
    ensures var data := Nulls(|step|) + ChainsInOrder(step, order);
            && (i < |step| ==> data[i] == JNull)
            && (|step| <= i < 2 * |step| ==> data[i] == ChainJson(StoredAt(step, order, i)))
            && (|step| <= i < 2 * |step| && StoredAt(step, order, i) != [] ==>
                  data[i].JArray? && ChainOf(data[i]) == [StoredAt(step, order, i)[0]])
            && (|step| <= i < 2 * |step| && StoredAt(step, order, i) == [] ==> data[i] == JNull)
  {
    if |step| <= i < 2 * |step| {
      ChainOfEncoded(StoredAt(step, order, i));
    }
  }

  /** One step as Script.ToModel stores it and parseStep reads it back. */
  ghost predicate ReparsedAs(step: map<nat, seq<string>>, chains: map<nat, seq<string>>)
  {
    exists order | IsOrdering(order, step.Keys) :: chains == Shifted(step, order)
  }

  /**
   * Whatever order the chains were appended in, a stored step reads back
   * with no chain at keys below |step| and at most one id per chain.
   */
  lemma StoredStepReparse(step: map<nat, seq<string>>, v: JsonValue)
    requires StepLayout(step, v)
    ensures v.JArray? && ReparsedAs(step, ParsedStep(v.items))
    ensures forall i | i in ParsedStep(v.items) :: |step| <= i < 2 * |step| && |ParsedStep(v.items)[i]| == 1
  {
    var order :| IsOrdering(order, step.Keys) && v == JArray(Nulls(|step|) + ChainsInOrder(step, order));
    ReparseStep(step, order);
  }

  /** The one-chain step {0: [a, b]} is stored as [null, [a, b]] and reads back as {1: [a]}. */
  lemma PaddingShiftsChains(v: JsonValue)
    requires StepLayout(map[0 := ["a", "b"]], v)
    ensures ParsedStep(v.items) == map[1 := ["a"]]
  {
    var step: map<nat, seq<string>> := map[0 := ["a", "b"]];
    var order :| IsOrdering(order, step.Keys) && v == JArray(Nulls(|step|) + ChainsInOrder(step, order));
    assert |step| == 1;
    assert order == [0];
    ReparseStep(step, order);
    assert Shifted(step, order) == map[1 := ["a"]];
  }

  /**
   * Reading back what Script.ToModel stored: it fails as soon as there is
   * any body or header preset (the presets are stored as bytes, which
   * neither type assertion accepts); otherwise the step keys survive, every
   * step reads back shifted as ReparsedAs says, and the id is the zero id.
   */
  lemma ScriptRoundTrip(s: Script, m: ScriptModel)
    requires IsModelOf(s, m)
    ensures FromModelSucceeds(m) <==> s.bodyPresets == map[] && s.headerPresets == map[]
    ensures forall r | FromModelSucceeds(m) && IsScriptOf(m, r) ::
              r.id == Nodes.ZeroId && r.name == s.name && r.authorId == s.authorId
              && r.warehouseApiKey == s.warehouseApiKey
              && r.workflow.Keys == s.workflow.Keys
              && forall n | n in r.workflow :: ReparsedAs(s.workflow[n], r.workflow[n])
  {
    StoredWorkflowParses(s.workflow, m.workflow);
    StoredPresetsRejected(s, m);
    forall r | FromModelSucceeds(m) && IsScriptOf(m, r)
      ensures r.workflow.Keys == s.workflow.Keys
      ensures forall n | n in r.workflow :: ReparsedAs(s.workflow[n], r.workflow[n])
    {
      StoredWorkflowReadBack(s.workflow, m.workflow, r.workflow);
    }
  }

  /** The stored workflow decodes, and its keys are the decimal forms of the step keys. */
  lemma StoredWorkflowParses(workflow: Workflow, v: JsonValue)
    requires WorkflowStored(workflow, v)
    ensures DecodeWorkflow(v).Some?
    ensures KeysParse(DecodeWorkflow(v).value)
    ensures forall k | k in DecodeWorkflow(v).value ::
              k in v.fields && DecodeWorkflow(v).value[k] == v.fields[k].items
              && Atoi(k).Some? && Atoi(k).value in workflow && k == Itoa(Atoi(k).value)
  {
    forall k | k in v.fields ensures v.fields[k].JArray? && Atoi(k).Some? && Atoi(k).value in workflow && k == Itoa(Atoi(k).value) {
      var n: Int64 :| n in workflow && k == Itoa(n);
      LayoutIsList(workflow[n], v.fields[k]);
      AtoiItoa(n);
    }
  }

  lemma LayoutIsList(step: map<nat, seq<string>>, v: JsonValue)
    requires StepLayout(step, v)
    ensures v.JArray?
  {
  }

  /** Stored presets pass Script.FromModel's type assertions only when there are none. */
  lemma StoredPresetsRejected(s: Script, m: ScriptModel)
    requires IsModelOf(s, m)
    ensures BodyCellsDecode(m.bodyPresets) <==> s.bodyPresets == map[]
    ensures HeaderCellsDecode(m.headerPresets) <==> s.headerPresets == map[]
  {
    if s.bodyPresets != map[] {
      var k :| k in s.bodyPresets;
      assert !m.bodyPresets[k].Decoded?;
    }
    if s.headerPresets != map[] {
      var k :| k in s.headerPresets;
      assert !m.headerPresets[k].StringMap?;
    }
  }

  lemma StoredWorkflowReadBack(stored: Workflow, v: JsonValue, workflow: Workflow)
    requires WorkflowStored(stored, v)
    requires DecodeWorkflow(v).Some? && KeysParse(DecodeWorkflow(v).value)
    requires IsWorkflowOf(DecodeWorkflow(v).value, workflow)
    ensures workflow.Keys == stored.Keys
    ensures forall n | n in workflow :: ReparsedAs(stored[n], workflow[n])
  {
    StoredWorkflowParses(stored, v);
    StoredKeysReadBack(stored, v, workflow);
    var steps := DecodeWorkflow(v).value;
    forall n | n in workflow ensures ReparsedAs(stored[n], workflow[n]) {
      var k :| k in steps && Atoi(k) == Some(n) && workflow[n] == ParsedStep(steps[k]);
      StepReadBack(stored, v, k);
    }
  }

  lemma StoredKeysReadBack(stored: Workflow, v: JsonValue, workflow: Workflow)
    requires WorkflowStored(stored, v)
    requires DecodeWorkflow(v).Some? && KeysParse(DecodeWorkflow(v).value)
    requires IsWorkflowOf(DecodeWorkflow(v).value, workflow)
    ensures workflow.Keys == stored.Keys
  {
    StoredWorkflowParses(stored, v);
    var steps := DecodeWorkflow(v).value;
    forall n | n in stored ensures n in workflow {
      AtoiItoa(n);
      assert Itoa(n) in steps;
    }
  }

  lemma StepReadBack(stored: Workflow, v: JsonValue, k: string)
    requires WorkflowStored(stored, v)
    requires DecodeWorkflow(v).Some? && k in DecodeWorkflow(v).value
    requires k in v.fields && DecodeWorkflow(v).value[k] == v.fields[k].items
    requires Atoi(k).Some? && Atoi(k).value in stored && k == Itoa(Atoi(k).value)
    ensures ReparsedAs(stored[Atoi(k).value], ParsedStep(DecodeWorkflow(v).value[k]))
  {
    var n := Atoi(k).value;
    StoredStepReparse(stored[n], v.fields[k]);
  }

  // ---------------------------------------------------------------------
  // The intended mapping
  // ---------------------------------------------------------------------

  /** The ids of a list, in order, with nested lists flattened recursively. */
  function FlatIds(items: seq<JsonValue>): seq<string>
  {
    if items == [] then []
    else
      (match items[0]
       case JString(s) => [s]
       case JArray(inner) => FlatIds(inner)
       case _ => []) + FlatIds(items[1..])
  }

  /** A step entry as a chain: a string is one id, a nested list every id it holds, at any depth. */
  function ChainIntended(v: JsonValue): seq<string>
  {
    match v
    case JString(s) => [s]
    case JArray(items) => FlatIds(items)
    case _ => []
  }

  /** parseStep keeping every id of a nested list. */
  function ParsedStepIntended(data: seq<JsonValue>): (chains: map<nat, seq<string>>)
    ensures forall i :: i in chains <==> 0 <= i < |data| && (data[i].JString? || data[i].JArray?)
  {
    map i: nat | i < |data| && (data[i].JString? || data[i].JArray?) :: ChainIntended(data[i])
  }

  /**
   * A nested list of ids is one chain of all of them, and a list nested
   * inside it contributes its ids in place.
   */
  lemma NestedListKeepsAllIntended(ids: seq<string>, inner: seq<string>)
    ensures ParsedStepIntended([JArray(Strings(ids))]) == map[0 := ids]
    ensures ParsedStepIntended([JArray(Strings(ids) + [JArray(Strings(inner))])]) == map[0 := ids + inner]
  {
    FlatIdsOfStrings(ids);
    FlatIdsOfStrings(inner);
    FlatIdsAppend(Strings(ids), [JArray(Strings(inner))]);
    assert FlatIds([JArray(Strings(inner))]) == inner by {
      assert [JArray(Strings(inner))][1..] == [];
    }
  }

  /** Flattening distributes over concatenation. */
  lemma {:induction false} FlatIdsAppend(xs: seq<JsonValue>, ys: seq<JsonValue>)
    ensures FlatIds(xs + ys) == FlatIds(xs) + FlatIds(ys)
  {
    if xs != [] {
      var zs := xs + ys;
      assert zs[0] == xs[0] && zs[1..] == xs[1..] + ys;
      FlatIdsAppend(xs[1..], ys);
      var head := FlatIds(xs)[..|FlatIds(xs)| - |FlatIds(xs[1..])|];
      assert FlatIds(xs) == head + FlatIds(xs[1..]);
      assert FlatIds(zs) == head + FlatIds(zs[1..]);
    } else {
      assert xs + ys == ys;
    }
  }

  lemma {:induction false} FlatIdsOfStrings(ids: seq<string>)
    ensures FlatIds(Strings(ids)) == ids
  {
    if ids != [] {
      FlatIdsOfStrings(ids[1..]);
      var items := Strings(ids);
      assert items[1..] == Strings(ids[1..]);
      assert [ids[0]] + ids[1..] == ids;
    }
  }

  /** A step whose chain keys are 0 .. n-1. */
  ghost predicate Contiguous(step: map<nat, seq<string>>)
  {
    forall i: nat :: i in step <==> i < |step|
  }

  /** A step stored with chain i at position i and no padding. */
  function StepJsonIntended(step: map<nat, seq<string>>): (v: JsonValue)
    requires Contiguous(step)
    ensures v.JArray? && |v.items| == |step|
  {
    JArray(seq(|step|, i requires 0 <= i < |step| => JArray(Strings(step[i]))))
  }

  /** With the intended layout and parse, a step with chain keys 0 .. n-1 reads back unchanged. */
  lemma StepRoundTripIntended(step: map<nat, seq<string>>)
    requires Contiguous(step)
    ensures ParsedStepIntended(StepJsonIntended(step).items) == step
  {
    var back := ParsedStepIntended(StepJsonIntended(step).items);
    forall i | i in step ensures back[i] == step[i] {
      FlatIdsOfStrings(step[i]);
    }
    assert back.Keys == step.Keys;
  }

  /** Presets stored as the decoded values the read side asserts for. */
  function BodyPresetCellsIntended(presets: map<string, map<string, JsonValue>>): map<string, PresetCell>
  {
    map k | k in presets :: Decoded(JObject(presets[k]))
  }

  function HeaderPresetCellsIntended(presets: map<string, map<string, string>>): map<string, PresetCell>
  {
    map k | k in presets :: StringMap(presets[k])
  }

  /** Presets stored as decoded values pass Script.FromModel's type assertions and read back unchanged. */
  lemma PresetRoundTripIntended(body: map<string, map<string, JsonValue>>, headers: map<string, map<string, string>>)
    ensures BodyCellsDecode(BodyPresetCellsIntended(body))
    ensures HeaderCellsDecode(HeaderPresetCellsIntended(headers))
    ensures (map k | k in BodyPresetCellsIntended(body) :: BodyPresetCellsIntended(body)[k].value.fields) == body
    ensures (map k | k in HeaderPresetCellsIntended(headers) :: HeaderPresetCellsIntended(headers)[k].entries) == headers
  {
  }
}

/**
 * The checks a script passes at creation and the resolution of its node ids
 * before a run (internal/service/script/common.go): validateWorkflow,
 * validateBodyPresets, validateHeaderPresets and fillScriptMap. Their loops
 * visit Go maps, so the order is arbitrary; the contracts hold for every
 * order.
 */
module ScriptCommon {

  import opened Json
  import opened Outcomes
  import opened Decimal
  import opened Nodes
  import opened Stores
  import Scripts

  /** The nodes a script uses, keyed by node id. */
  predicate UsedNodesKeyed(used: map<string, Node>)
  {
    forall id | id in used :: used[id].id == id && id != ""
  }

  // ---------------------------------------------------------------------
  // Decoding the rows the store returns (common.go:84-90 and 228-234)
  // ---------------------------------------------------------------------

  predicate RowsDecode(rows: NodeRows)
  {
    forall id | id in rows :: NodeFromModel(rows[id]).Some?
  }

  function DecodedRows(rows: NodeRows): (used: map<string, Node>)
    requires RowsDecode(rows)
    ensures used.Keys == rows.Keys
    ensures UsedNodesKeyed(used)
  {
    map id | id in rows :: NodeFromModel(rows[id]).value
  }

  /** The loop turning every returned row into a node keyed by its id; a row that does not decode is an error. */
  method DecodeRows(rows: NodeRows) returns (r: Option<map<string, Node>>)
    ensures r.Some? <==> RowsDecode(rows)
    ensures r.Some? ==> r.value == DecodedRows(rows)
  {
    var nodes: map<string, Node> := map[];
    var pending := rows.Keys;
    while pending != {}
      invariant pending <= rows.Keys
      invariant nodes.Keys == rows.Keys - pending
      invariant forall id | id in nodes :: NodeFromModel(rows[id]) == Some(nodes[id])
    {
      var id: string :| id in pending;
      var row := rows[id];
      var node := Nodes.FromModel(row);
      if node.None? {
        return None;
      }
      nodes := nodes[row.id := node.value];
      pending := pending - {id};
    }
    r := Some(nodes);
  }

  // ---------------------------------------------------------------------
  // validateWorkflow
  // ---------------------------------------------------------------------

  /**
   * Every entry of every step is a string. The `[]string` case of the type
   * switch never matches a decoded request, whose arrays are []interface{},
   * so a nested list is rejected like any other non-string.
   */
  predicate OnlyIds(workflow: map<string, seq<JsonValue>>)
  {
    forall k, i | k in workflow && 0 <= i < |workflow[k]| :: workflow[k][i].JString?
  }

  function StepIds(values: seq<JsonValue>): set<string>
  {
    set i | 0 <= i < |values| && values[i].JString? :: values[i].str
  }

  function ReferencedIds(workflow: map<string, seq<JsonValue>>): set<string>
  {
    set k, id | k in workflow && id in StepIds(workflow[k]) :: id
  }

  /** The inner loop of validateWorkflow over one step's entries. */
  method CollectStepIds(values: seq<JsonValue>) returns (r: Option<set<string>>)
    ensures r.Some? <==> forall i | 0 <= i < |values| :: values[i].JString?
    ensures r.Some? ==> r.value == StepIds(values)
  {
    var ids: set<string> := {};
    for i := 0 to |values|
      invariant forall j | 0 <= j < i :: values[j].JString?
      invariant ids == StepIds(values[..i])
    {
      if !values[i].JString? {
        return None;
      }
      StepIdsMore(values, i);
      ids := ids + {values[i].str};
    }
    assert values[..|values|] == values;
    r := Some(ids);
  }

  lemma StepIdsMore(values: seq<JsonValue>, i: int)
    requires 0 <= i < |values| && values[i].JString?
    ensures StepIds(values[..i + 1]) == StepIds(values[..i]) + {values[i].str}
  {
    var longer, shorter := values[..i + 1], values[..i];
    forall x | x in StepIds(longer)
      ensures x in StepIds(shorter) + {values[i].str}
    {
      var j :| 0 <= j < |longer| && longer[j].JString? && longer[j].str == x;
      if j < i {
        assert shorter[j] == longer[j];
      }
    }
    forall x | x in StepIds(shorter)
      ensures x in StepIds(longer)
    {
      var j :| 0 <= j < |shorter| && shorter[j].JString? && shorter[j].str == x;
      assert longer[j] == shorter[j];
    }
    assert longer[i] == values[i];
  }

  /** The outer loop of validateWorkflow collecting the referenced ids. */
  method CollectIds(workflow: map<string, seq<JsonValue>>) returns (r: Option<set<string>>)
    ensures r.Some? <==> OnlyIds(workflow)
    ensures r.Some? ==> r.value == ReferencedIds(workflow)
  {
    var ids: set<string> := {};
    var pending := workflow.Keys;
    while pending != {}
      invariant pending <= workflow.Keys
      invariant forall k, i | k in workflow.Keys - pending && 0 <= i < |workflow[k]| :: workflow[k][i].JString?
      invariant ids == set k, id | k in workflow.Keys - pending && id in StepIds(workflow[k]) :: id
    {
      var key: string :| key in pending;
      var stepIds := CollectStepIds(workflow[key]);
      if stepIds.None? {
        return None;
      }
      ids := ids + stepIds.value;
      pending := pending - {key};
    }
    r := Some(ids);
  }

  /**
   * validateWorkflow: any non-string entry is a ValidationFailed; the store
   * is then asked for the referenced ids (DatabaseError when it fails or
   * finds none) and every row it returns is decoded (ParseError). Ids the
   * store does not know are not detected: the result holds only the nodes
   * found.
   */
  method ValidateWorkflow(workflow: map<string, seq<JsonValue>>, store: NodeStore)
    returns (r: Result<map<string, Node>>)
    ensures !r.Panic?
    ensures !OnlyIds(workflow) ==> r == Fail(ValidationFailed)
    ensures OnlyIds(workflow) && GetByIds(store, ReferencedIds(workflow)).None? ==> r == Fail(DatabaseError)
    ensures OnlyIds(workflow) && GetByIds(store, ReferencedIds(workflow)).Some? ==>
              var rows := GetByIds(store, ReferencedIds(workflow)).value;
              && (r.Ok? <==> RowsDecode(rows))
              && (!RowsDecode(rows) ==> r == Fail(ParseError))
              && (r.Ok? ==> r.value == DecodedRows(rows))
    ensures r.Ok? ==> r.value.Keys == ReferencedIds(workflow) * store.rows.Keys && UsedNodesKeyed(r.value)
  {
    var ids := CollectIds(workflow);
    if ids.None? {
      return Fail(ValidationFailed);
    }
    var rows := GetByIds(store, ids.value);
    if rows.None? {
      return Fail(DatabaseError);
    }
    var used := DecodeRows(rows.value);
    if used.None? {
      return Fail(ParseError);
    }
    return Ok(used.value);
  }

  // ---------------------------------------------------------------------
  // validateBodyPresets and validateHeaderPresets
  // ---------------------------------------------------------------------

  /** The node a preset entry is checked against: the used node, or Go's zero Node when there is none. */
  function NodeOrZero(used: map<string, Node>, id: string): (node: Node)
    ensures id !in used ==> node.body == map[] && node.headers == map[] && node.id == ""
  {
    if id in used then used[id]
    else Node("", "", "", "", map[], map[], "", "", "", "")
  }

  function RequiredFields(body: map<string, BodyField>): set<string>
  {
    set name | name in body && body[name].required
  }

  function RequiredHeaders(headers: map<string, Header>): set<string>
  {
    set name | name in headers && headers[name].required
  }

  /** One node's body presets: every preset names a field of the node that accepts it, and every required field has a preset. */
  predicate BodyPresetsFit(node: Node, presets: map<string, JsonValue>)
  {
    (forall name | name in presets :: name in node.body && CheckBodyField(node.body[name], presets[name]) == {Accept})
    && RequiredFields(node.body) <= presets.Keys
  }

  predicate BodyPresetsValid(used: map<string, Node>, bodyPresets: map<string, map<string, JsonValue>>)
  {
    forall id | id in bodyPresets :: BodyPresetsFit(NodeOrZero(used, id), bodyPresets[id])
  }

  /** Some body preset names a field whose check can panic. */
  predicate BodyPresetsCanPanic(used: map<string, Node>, bodyPresets: map<string, map<string, JsonValue>>)
  {
    exists id, name | id in bodyPresets && name in bodyPresets[id] ::
      var node := NodeOrZero(used, id);
      name in node.body && Verdict.Panic in CheckBodyField(node.body[name], bodyPresets[id][name])
  }

  predicate HeaderPresetsFit(node: Node, presets: map<string, string>)
  {
    (forall name | name in presets :: name in node.headers && CheckHeader(node.headers[name], presets[name]) == Accept)
    && RequiredHeaders(node.headers) <= presets.Keys
  }

  predicate HeaderPresetsValid(used: map<string, Node>, headerPresets: map<string, map<string, string>>)
  {
    forall id | id in headerPresets :: HeaderPresetsFit(NodeOrZero(used, id), headerPresets[id])
  }

  predicate HeaderPresetsCanPanic(used: map<string, Node>, headerPresets: map<string, map<string, string>>)
  {
    exists id, name | id in headerPresets && name in headerPresets[id] ::
      var node := NodeOrZero(used, id);
      name in node.headers && CheckHeader(node.headers[name], headerPresets[id][name]) == Verdict.Panic
  }

  /** The inner loop collecting the required fields of one node. */
  method RequiredFieldsOf(body: map<string, BodyField>) returns (names: set<string>)
    ensures names == RequiredFields(body)
  {
    names := {};
    var pending := body.Keys;
    while pending != {}
      invariant pending <= body.Keys
      invariant names == set name | name in body.Keys - pending && body[name].required
    {
      var name: string :| name in pending;
      if body[name].required {
        names := names + {name};
      }
      pending := pending - {name};
    }
  }

  method RequiredHeadersOf(headers: map<string, Header>) returns (names: set<string>)
    ensures names == RequiredHeaders(headers)
  {
    names := {};
    var pending := headers.Keys;
    while pending != {}
      invariant pending <= headers.Keys
      invariant names == set name | name in headers.Keys - pending && headers[name].required
    {
      var name: string :| name in pending;
      if headers[name].required {
        names := names + {name};
      }
      pending := pending - {name};
    }
  }

  /** The first loop of validateBodyPresets: the required fields of every used node. */
  method RequiredFieldsByNode(used: map<string, Node>) returns (required: map<string, set<string>>)
    ensures required == map id | id in used :: RequiredFields(used[id].body)
  {
    required := map[];
    var pending := used.Keys;
    while pending != {}
      invariant pending <= used.Keys
      invariant required == map id | id in used.Keys - pending :: RequiredFields(used[id].body)
    {
      var id: string :| id in pending;
      var names := RequiredFieldsOf(used[id].body);
      required := required[id := names];
      pending := pending - {id};
    }
  }

  method RequiredHeadersByNode(used: map<string, Node>) returns (required: map<string, set<string>>)
    ensures required == map id | id in used :: RequiredHeaders(used[id].headers)
  {
    required := map[];
    var pending := used.Keys;
    while pending != {}
      invariant pending <= used.Keys
      invariant required == map id | id in used.Keys - pending :: RequiredHeaders(used[id].headers)
    {
      var id: string :| id in pending;
      var names := RequiredHeadersOf(used[id].headers);
      required := required[id := names];
      pending := pending - {id};
    }
  }

  /**
   * The loop over one node's body presets: a field the node lacks or a value
   * its check does not accept ends it; each checked field is struck off the
   * required set, which must then be empty.
   */
  method CheckNodeBodyPresets(node: Node, presets: map<string, JsonValue>, required: set<string>)
    returns (r: Result<()>)
    ensures r.Ok? <==>
              (forall name | name in presets :: name in node.body && CheckBodyField(node.body[name], presets[name]) == {Accept})
              && required <= presets.Keys
    ensures r.Fail? ==> r.kind == ValidationFailed
    ensures r.Panic? ==> exists name | name in presets ::
                           name in node.body && Verdict.Panic in CheckBodyField(node.body[name], presets[name])
  {
    var remaining := required;
    var pending := presets.Keys;
    while pending != {}
      invariant pending <= presets.Keys
      invariant forall name | name in presets.Keys - pending ::
                  name in node.body && CheckBodyField(node.body[name], presets[name]) == {Accept}
      invariant remaining == required - (presets.Keys - pending)
    {
      var name: string :| name in pending;
      if name !in node.body {
        return Fail(ValidationFailed);
      }
      // the verdict of this run, one of those the iteration orders allow
      var verdict: Verdict :| verdict in CheckBodyField(node.body[name], presets[name]);
      if verdict == Verdict.Panic {
        return Result.Panic;
      }
      if verdict == Reject {
        return Fail(ValidationFailed);
      }
      remaining := remaining - {name};
      pending := pending - {name};
    }
    if remaining != {} {
      return Fail(ValidationFailed);
    }
    return Ok(());
  }

  method CheckNodeHeaderPresets(node: Node, presets: map<string, string>, required: set<string>)
    returns (r: Result<()>)
    ensures r.Ok? <==>
              (forall name | name in presets :: name in node.headers && CheckHeader(node.headers[name], presets[name]) == Accept)
              && required <= presets.Keys
    ensures r.Fail? ==> r.kind == ValidationFailed
    ensures r.Panic? ==> exists name | name in presets ::
                           name in node.headers && CheckHeader(node.headers[name], presets[name]) == Verdict.Panic
  {
    var remaining := required;
    var pending := presets.Keys;
    while pending != {}
      invariant pending <= presets.Keys
      invariant forall name | name in presets.Keys - pending ::
                  name in node.headers && CheckHeader(node.headers[name], presets[name]) == Accept
      invariant remaining == required - (presets.Keys - pending)
    {
      var name: string :| name in pending;
      if name !in node.headers {
        return Fail(ValidationFailed);
      }
      var verdict := CheckHeader(node.headers[name], presets[name]);
      if verdict == Verdict.Panic {
        return Result.Panic;
      }
      if verdict == Reject {
        return Fail(ValidationFailed);
      }
      remaining := remaining - {name};
      pending := pending - {name};
    }
    if remaining != {} {
      return Fail(ValidationFailed);
    }
    return Ok(());
  }

  /**
   * validateBodyPresets: succeeds iff every node keyed in the presets fits
   * them (a node the script does not use is Go's zero Node, which has no
   * fields). Nodes with no preset entry are not checked for required fields.
   */
  method ValidateBodyPresets(used: map<string, Node>, bodyPresets: map<string, map<string, JsonValue>>)
    returns (r: Result<()>)
    requires UsedNodesKeyed(used)
    ensures r.Ok? <==> BodyPresetsValid(used, bodyPresets)
    ensures r.Fail? ==> r.kind == ValidationFailed
    ensures r.Panic? ==> BodyPresetsCanPanic(used, bodyPresets)
  {
    var requiredByNode := RequiredFieldsByNode(used);
    var pending := bodyPresets.Keys;
    while pending != {}
      invariant pending <= bodyPresets.Keys
      invariant forall id | id in bodyPresets.Keys - pending :: BodyPresetsFit(NodeOrZero(used, id), bodyPresets[id])
    {
      var id: string :| id in pending;
      var node := NodeOrZero(used, id);
      // looked up by the node's own id, which is `id` for a used node and "" otherwise
      var required := if node.id in requiredByNode then requiredByNode[node.id] else {};
      assert required == RequiredFields(node.body);
      r := CheckNodeBodyPresets(node, bodyPresets[id], required);
      if !r.Ok? {
        return r;
      }
      pending := pending - {id};
    }
    return Ok(());
  }

  /** validateHeaderPresets: the same over headers and CheckHeader, the required set looked up by the preset's node id. */
  method ValidateHeaderPresets(used: map<string, Node>, headerPresets: map<string, map<string, string>>)
    returns (r: Result<()>)
    requires UsedNodesKeyed(used)
    ensures r.Ok? <==> HeaderPresetsValid(used, headerPresets)
    ensures r.Fail? ==> r.kind == ValidationFailed
    ensures r.Panic? ==> HeaderPresetsCanPanic(used, headerPresets)
  {
    var requiredByNode := RequiredHeadersByNode(used);
    var pending := headerPresets.Keys;
    while pending != {}
      invariant pending <= headerPresets.Keys
      invariant forall id | id in headerPresets.Keys - pending :: HeaderPresetsFit(NodeOrZero(used, id), headerPresets[id])
    {
      var id: string :| id in pending;
      var node := NodeOrZero(used, id);
      var required := if id in requiredByNode then requiredByNode[id] else {};
      assert required == RequiredHeaders(node.headers);
      r := CheckNodeHeaderPresets(node, headerPresets[id], required);
      if !r.Ok? {
        return r;
      }
      pending := pending - {id};
    }
    return Ok(());
  }

  // ---------------------------------------------------------------------
  // fillScriptMap
  // ---------------------------------------------------------------------

  /** A workflow with every node id replaced by its node. */
  type FilledWorkflow = map<Int64, map<nat, seq<Node>>>

  function StepNodeIds(step: map<nat, seq<string>>): set<string>
  {
    set k, id | k in step && id in step[k] :: id
  }

  function WorkflowNodeIds(workflow: Scripts.Workflow): set<string>
  {
    set n, id | n in workflow && id in StepNodeIds(workflow[n]) :: id
  }

  /** Every id the workflow names is among `nodes`. */
  predicate AllKnown(workflow: Scripts.Workflow, nodes: map<string, Node>)
  {
    forall n, k, j | n in workflow && k in workflow[n] && 0 <= j < |workflow[n][k]| :: workflow[n][k][j] in nodes
  }

  predicate ChainResolves(chain: seq<string>, filled: seq<Node>, nodes: map<string, Node>)
  {
    |filled| == |chain| && forall j | 0 <= j < |chain| :: chain[j] in nodes && filled[j] == nodes[chain[j]]
  }

  predicate StepResolves(step: map<nat, seq<string>>, filled: map<nat, seq<Node>>, nodes: map<string, Node>)
  {
    filled.Keys == step.Keys && forall k | k in step :: ChainResolves(step[k], filled[k], nodes)
  }

  /** `filled` has the steps and chains of `workflow`, each position holding the node of the id there. */
  predicate Resolves(workflow: Scripts.Workflow, filled: FilledWorkflow, nodes: map<string, Node>)
  {
    filled.Keys == workflow.Keys && forall n | n in workflow :: StepResolves(workflow[n], filled[n], nodes)
  }

  /** The first loop of fillScriptMap: every id of every chain. */
  method CollectNodeIds(workflow: Scripts.Workflow) returns (ids: set<string>)
    ensures ids == WorkflowNodeIds(workflow)
  {
    ids := {};
    var pending := workflow.Keys;
    while pending != {}
      invariant pending <= workflow.Keys
      invariant ids == set n, id | n in workflow.Keys - pending && id in StepNodeIds(workflow[n]) :: id
    {
      var n: Int64 :| n in pending;
      var stepIds := CollectStepNodeIds(workflow[n]);
      ids := ids + stepIds;
      pending := pending - {n};
    }
  }

  method CollectStepNodeIds(step: map<nat, seq<string>>) returns (ids: set<string>)
    ensures ids == StepNodeIds(step)
  {
    ids := {};
    var pending := step.Keys;
    while pending != {}
      invariant pending <= step.Keys
      invariant ids == set k, id | k in step.Keys - pending && id in step[k] :: id
    {
      var k: nat :| k in pending;
      ids := ids + set id | id in step[k];
      pending := pending - {k};
    }
  }

  /** The innermost loop of fillScriptMap: an id with no node is an error. */
  method FillChain(chain: seq<string>, nodes: map<string, Node>) returns (r: Option<seq<Node>>)
    ensures r.Some? <==> forall j | 0 <= j < |chain| :: chain[j] in nodes
    ensures r.Some? ==> ChainResolves(chain, r.value, nodes)
  {
    var filled: seq<Node> := [];
    for j := 0 to |chain|
      invariant ChainResolves(chain[..j], filled, nodes)
    {
      if chain[j] !in nodes {
        return None;
      }
      filled := filled + [nodes[chain[j]]];
    }
    assert chain[..|chain|] == chain;
    r := Some(filled);
  }

  method FillStep(step: map<nat, seq<string>>, nodes: map<string, Node>) returns (r: Option<map<nat, seq<Node>>>)
    ensures r.Some? <==> forall k, j | k in step && 0 <= j < |step[k]| :: step[k][j] in nodes
    ensures r.Some? ==> StepResolves(step, r.value, nodes)
  {
    var filled: map<nat, seq<Node>> := map[];
    var pending := step.Keys;
    while pending != {}
      invariant pending <= step.Keys
      invariant filled.Keys == step.Keys - pending
      invariant forall k | k in filled :: ChainResolves(step[k], filled[k], nodes)
    {
      var k: nat :| k in pending;
      var chain := FillChain(step[k], nodes);
      if chain.None? {
        return None;
      }
      filled := filled[k := chain.value];
      pending := pending - {k};
    }
    r := Some(filled);
  }

  method FillWorkflow(workflow: Scripts.Workflow, nodes: map<string, Node>) returns (r: Option<FilledWorkflow>)
    ensures r.Some? <==> AllKnown(workflow, nodes)
    ensures r.Some? ==> Resolves(workflow, r.value, nodes)
  {
    var filled: FilledWorkflow := map[];
    var pending := workflow.Keys;
    while pending != {}
      invariant pending <= workflow.Keys
      invariant filled.Keys == workflow.Keys - pending
      invariant forall n | n in filled :: StepResolves(workflow[n], filled[n], nodes)
    {
      var n: Int64 :| n in pending;
      var step := FillStep(workflow[n], nodes);
      if step.None? {
        return None;
      }
      filled := filled[n := step.value];
      pending := pending - {n};
    }
    r := Some(filled);
  }

  /**
   * fillScriptMap: one store call for every id of the workflow
   * (DatabaseError when it fails or finds none), every row decoded
   * (ParseError), then every id replaced by its node; an id the store did
   * not return is a ValidationFailed.
   */
  method FillScriptMap(workflow: Scripts.Workflow, store: NodeStore) returns (r: Result<FilledWorkflow>)
    ensures !r.Panic?
    ensures GetByIds(store, WorkflowNodeIds(workflow)).None? ==> r == Fail(DatabaseError)
    ensures GetByIds(store, WorkflowNodeIds(workflow)).Some? ==>
              var rows := GetByIds(store, WorkflowNodeIds(workflow)).value;
              && (!RowsDecode(rows) ==> r == Fail(ParseError))
              && (RowsDecode(rows) ==> (r.Ok? <==> AllKnown(workflow, DecodedRows(rows))))
              && (RowsDecode(rows) && !r.Ok? ==> r == Fail(ValidationFailed))
              && (r.Ok? ==> Resolves(workflow, r.value, DecodedRows(rows)))
  {
    var ids := CollectNodeIds(workflow);
    var rows := GetByIds(store, ids);
    if rows.None? {
      return Fail(DatabaseError);
    }
    var nodes := DecodeRows(rows.value);
    if nodes.None? {
      return Fail(ParseError);
    }
    var filled := FillWorkflow(workflow, nodes.value);
    if filled.None? {
      return Fail(ValidationFailed);
    }
    return Ok(filled.value);
  }

  /** Every id at a position of the workflow is among its node ids. */
  lemma PositionNamed(workflow: Scripts.Workflow, n: Int64, k: nat, j: int)
    requires n in workflow && k in workflow[n] && 0 <= j < |workflow[n][k]|
    ensures workflow[n][k][j] in WorkflowNodeIds(workflow)
  {
    var step := workflow[n];
    assert step[k][j] in step[k];
    assert step[k][j] in StepNodeIds(step);
  }

  /** Every node id of a workflow stands at some position. */
  lemma NamedAtPosition(workflow: Scripts.Workflow, id: string) returns (n: Int64, k: nat, j: nat)
    requires id in WorkflowNodeIds(workflow)
    ensures n in workflow && k in workflow[n] && j < |workflow[n][k]| && workflow[n][k][j] == id
  {
    var n', id' :| n' in workflow && id' in StepNodeIds(workflow[n']) && id' == id;
    n := n';
    var k', id'' :| k' in workflow[n] && id'' in workflow[n][k'] && id'' == id;
    k := k';
    var j' :| 0 <= j' < |workflow[n][k]| && workflow[n][k][j'] == id;
    j := j';
  }

  /** The store holds every id a workflow names exactly when the workflow resolves against the rows it returns. */
  lemma AllKnownIffStored(workflow: Scripts.Workflow, store: NodeStore)
    requires GetByIds(store, WorkflowNodeIds(workflow)).Some?
    requires RowsDecode(GetByIds(store, WorkflowNodeIds(workflow)).value)
    ensures AllKnown(workflow, DecodedRows(GetByIds(store, WorkflowNodeIds(workflow)).value)) <==>
              WorkflowNodeIds(workflow) <= store.rows.Keys
  {
    var ids := WorkflowNodeIds(workflow);
    var nodes := DecodedRows(GetByIds(store, ids).value);
    assert nodes.Keys == ids * store.rows.Keys;
    if ids <= store.rows.Keys {
      forall n, k, j | n in workflow && k in workflow[n] && 0 <= j < |workflow[n][k]|
        ensures workflow[n][k][j] in nodes
      {
        PositionNamed(workflow, n, k, j);
      }
    }
    if AllKnown(workflow, nodes) {
      forall id | id in ids ensures id in store.rows {
        var n, k, j := NamedAtPosition(workflow, id);
      }
    }
  }

  /** In a resolved workflow each position holds the node whose id is the one written there. */
  lemma ResolvedIds(workflow: Scripts.Workflow, filled: FilledWorkflow, rows: NodeRows)
    requires RowsDecode(rows) && Resolves(workflow, filled, DecodedRows(rows))
    ensures forall n, k, j | n in workflow && k in workflow[n] && 0 <= j < |workflow[n][k]| ::
              filled[n][k][j].id == workflow[n][k][j]
  {
    var nodes := DecodedRows(rows);
    forall n, k, j | n in workflow && k in workflow[n] && 0 <= j < |workflow[n][k]|
      ensures filled[n][k][j].id == workflow[n][k][j]
    {
      assert StepResolves(workflow[n], filled[n], nodes);
      assert ChainResolves(workflow[n][k], filled[n][k], nodes);
    }
  }
}

/**
 * One chain of a script step (internal/service/script/common.go):
 * generateNodeFilledObject builds a node's request body from its field
 * specs, the presets and the running data, and chainHandler calls the
 * chain's nodes in order, each node's extracted answer becoming the next
 * node's data. The HTTP call and the JSON path lookup are parameters.
 */
module ScriptChain {

  import opened Json
  import opened Outcomes
  import opened Nodes

  // ---------------------------------------------------------------------
  // Outcome sets of a loop over a Go map
  // ---------------------------------------------------------------------

  /** The possible outcomes of one run: at least one, and a success only when it is the only one. */
  predicate Settled(s: set<Result<JsonValue>>)
  {
    s != {} && forall x | x in s && x.Ok? :: s == {x}
  }

  predicate Succeeds(s: set<Result<JsonValue>>)
  {
    exists x | x in s :: x.Ok?
  }

  ghost function OkValue(s: set<Result<JsonValue>>): JsonValue
    requires Settled(s) && Succeeds(s)
  {
    var x :| x in s && x.Ok?; x.value
  }

  /**
   * A loop filling an object entry by entry that stops at the first entry
   * that does not succeed: it succeeds with the object of all entries when
   * every entry must succeed, and otherwise ends with an outcome of some
   * entry that does not.
   */
  ghost function Combine(outcomes: map<string, set<Result<JsonValue>>>): (r: set<Result<JsonValue>>)
    requires forall k | k in outcomes :: Settled(outcomes[k])
    ensures Settled(r)
    ensures Succeeds(r) <==> forall k | k in outcomes :: Succeeds(outcomes[k])
    ensures forall x | x in r && x.Ok? ::
              x.value.JObject? && x.value.fields.Keys == outcomes.Keys
              && forall k | k in outcomes :: Ok(x.value.fields[k]) in outcomes[k]
    ensures forall x | x in r && !x.Ok? :: exists k | k in outcomes :: x in outcomes[k]
    ensures forall k, x | k in outcomes && x in outcomes[k] && !x.Ok? :: x in r
  {
    if forall k | k in outcomes :: Succeeds(outcomes[k]) then
      var v := JObject(map k | k in outcomes :: OkValue(outcomes[k]));
      assert forall k | k in outcomes :: outcomes[k] == {Ok(v.fields[k])} by {
        forall k | k in outcomes ensures outcomes[k] == {Ok(v.fields[k])} {
          assert Settled(outcomes[k]);
          var x :| x in outcomes[k] && x.Ok?;
          assert outcomes[k] == {x};
        }
      }
      {Ok(v)}
    else
      var k :| k in outcomes && !Succeeds(outcomes[k]);
      assert Settled(outcomes[k]);
      var x :| x in outcomes[k];
      var r := set k, x | k in outcomes && x in outcomes[k] && !x.Ok? :: x;
      assert x in r;
      r
  }

  /** When every entry succeeded, the loop's object is the only outcome. */
  lemma CombineAllOk(outcomes: map<string, set<Result<JsonValue>>>, generated: map<string, JsonValue>)
    requires forall k | k in outcomes :: Settled(outcomes[k])
    requires generated.Keys == outcomes.Keys
    requires forall k | k in generated :: Ok(generated[k]) in outcomes[k]
    ensures Combine(outcomes) == {Ok(JObject(generated))}
  {
    forall k | k in outcomes ensures outcomes[k] == {Ok(generated[k])} && Succeeds(outcomes[k]) {
      assert Settled(outcomes[k]);
      assert Ok(generated[k]) in outcomes[k];
    }
    assert Succeeds(Combine(outcomes));
    var x :| x in Combine(outcomes) && x.Ok?;
    assert x.value.fields == generated by {
      forall k | k in outcomes ensures x.value.fields[k] == generated[k] {
        assert Ok(x.value.fields[k]) in outcomes[k];
      }
    }
  }

  /** An entry that does not succeed ends the loop with its outcome. */
  lemma CombineStops(outcomes: map<string, set<Result<JsonValue>>>, k: string, x: Result<JsonValue>)
    requires forall k | k in outcomes :: Settled(outcomes[k])
    requires k in outcomes && x in outcomes[k] && !x.Ok?
    ensures x in Combine(outcomes)
  {
  }

  // ---------------------------------------------------------------------
  // generateNodeFilledObject
  // ---------------------------------------------------------------------

  /** The kinds generateNodeFilledObject fills; a field of any other kind is left out. */
  predicate Fills(kind: string)
  {
    kind in {PromptKind, ConstKind, SelectKind, ObjectKind, DataKind}
  }

  /**
   * The outcomes of filling one field that has a preset. Prompt, const and
   * select take the preset, which must be a string (else the type assertion
   * panics); data takes the running data; object needs values[0] (panics
   * when there is none) to be a map of decodable specs and the preset to be
   * a map, and fills the nested specs from the nested presets. The errors
   * are plain errors, which a run reports as ExecError.
   */
  ghost function FieldFill(f: BodyField, preset: JsonValue, data: string): (r: set<Result<JsonValue>>)
    requires Fills(f.kind)
    ensures Settled(r)
    decreases if |f.values| == 0 then 0 else 1, JArray(f.values)
  {
    if f.kind == DataKind then {Ok(JString(data))}
    else if f.kind != ObjectKind then (if preset.JString? then {Ok(preset)} else {Result.Panic})
    else if |f.values| == 0 then {Result.Panic}
    else if !f.values[0].JObject? || !BodyDecodes(f.values[0].fields) || !preset.JObject? then {Fail(ExecError)}
    else
      var typings := f.values[0].fields;
      Combine(map k | k in typings && k in preset.fields && Fills(DecodeBodyField(typings[k]).value.kind) ::
                (assert typings[k] < f.values[0];
                 FieldFill(DecodeBodyField(typings[k]).value, preset.fields[k], data)))
  }

  /** The outcomes of generateNodeFilledObject: every field of a filled kind that has a preset is filled. */
  ghost function FillOutcomes(fields: map<string, BodyField>, data: string, presets: map<string, JsonValue>)
    : (r: set<Result<JsonValue>>)
    ensures Settled(r)
  {
    Combine(FieldOutcomes(fields, data, presets))
  }

  /** The outcomes of each field that is filled. */
  ghost function FieldOutcomes(fields: map<string, BodyField>, data: string, presets: map<string, JsonValue>)
    : (outcomes: map<string, set<Result<JsonValue>>>)
    ensures forall k :: k in outcomes <==> k in fields && k in presets && Fills(fields[k].kind)
    ensures forall k | k in outcomes :: outcomes[k] == FieldFill(fields[k], presets[k], data)
  {
    map k | k in fields && k in presets && Fills(fields[k].kind) :: FieldFill(fields[k], presets[k], data)
  }

  /** The nested fill of an object field is the fill of its decoded nested specs. */
  lemma NestedFill(f: BodyField, preset: JsonValue, data: string)
    requires f.kind == ObjectKind && |f.values| > 0 && f.values[0].JObject? && BodyDecodes(f.values[0].fields)
    requires preset.JObject?
    ensures FieldFill(f, preset, data) ==
              FillOutcomes(map k | k in f.values[0].fields :: DecodeBodyField(f.values[0].fields[k]).value,
                           data, preset.fields)
  {
    var typings := f.values[0].fields;
    var nested := map k | k in typings :: DecodeBodyField(typings[k]).value;
    assert FieldOutcomes(nested, data, preset.fields)
        == (map k | k in typings && k in preset.fields && Fills(DecodeBodyField(typings[k]).value.kind) ::
              FieldFill(DecodeBodyField(typings[k]).value, preset.fields[k], data));
  }

  /**
   * A filled body has exactly the fields of a filled kind that have a
   * preset: a data field holds the running data, a prompt, const or select
   * field its preset, an object field a nested object.
   */
  lemma FilledObjectShape(fields: map<string, BodyField>, data: string, presets: map<string, JsonValue>,
                          x: Result<JsonValue>)
    requires x in FillOutcomes(fields, data, presets) && x.Ok?
    ensures x.value.JObject?
    ensures forall k :: k in x.value.fields <==> k in fields && k in presets && Fills(fields[k].kind)
    ensures forall k | k in x.value.fields && fields[k].kind == DataKind :: x.value.fields[k] == JString(data)
    ensures forall k | k in x.value.fields && fields[k].kind in {PromptKind, ConstKind, SelectKind} ::
              x.value.fields[k] == presets[k]
    ensures forall k | k in x.value.fields && fields[k].kind == ObjectKind :: x.value.fields[k].JObject?
  {
    var outcomes := FieldOutcomes(fields, data, presets);
    forall k | k in x.value.fields
      ensures fields[k].kind == DataKind ==> x.value.fields[k] == JString(data)
      ensures fields[k].kind in {PromptKind, ConstKind, SelectKind} ==> x.value.fields[k] == presets[k]
      ensures fields[k].kind == ObjectKind ==> x.value.fields[k].JObject?
    {
      assert Ok(x.value.fields[k]) in FieldFill(fields[k], presets[k], data);
    }
  }

  /** Every value array of `fields` lies inside `origin`, which bounds the nesting. */
  ghost predicate NestedIn(fields: map<string, BodyField>, origin: JsonValue)
  {
    forall k | k in fields && |fields[k].values| > 0 :: JArray(fields[k].values) < origin
  }

  /** A node's own specs lie inside their stored form. */
  lemma SpecsInStoredForm(fields: map<string, BodyField>)
    ensures NestedIn(fields, JObject(EncodeBody(fields)))
  {
    forall k | k in fields && |fields[k].values| > 0
      ensures JArray(fields[k].values) < JObject(EncodeBody(fields))
    {
      var e := EncodeBodyField(fields[k]);
      assert EncodeBody(fields)[k] == e;
      assert e.fields["values"] == JArray(fields[k].values);
      assert JArray(fields[k].values) < e;
    }
  }

  /**
   * generateNodeFilledObject: the outcome is one of those FillOutcomes
   * allows. `origin` is a JSON value that contains every spec's values and
   * only bounds the recursion.
   */
  method GenerateNodeFilledObject(fields: map<string, BodyField>, data: string, presets: map<string, JsonValue>,
                                  ghost origin: JsonValue)
    returns (r: Result<JsonValue>)
    requires NestedIn(fields, origin)
    ensures r in FillOutcomes(fields, data, presets)
    decreases origin, 1
  {
    ghost var outcomes := FieldOutcomes(fields, data, presets);
    var generated: map<string, JsonValue> := map[];
    var pending := fields.Keys;
    while pending != {}
      invariant pending <= fields.Keys
      invariant generated.Keys == outcomes.Keys - pending
      invariant forall k | k in generated :: Ok(generated[k]) in outcomes[k]
    {
      var name: string :| name in pending;
      var value := fields[name];
      if name in presets && Fills(value.kind) {
        var filled := FillField(value, data, presets[name], origin);
        if !filled.Ok? {
          assert filled in outcomes[name];
          CombineStops(outcomes, name, filled);
          return filled;
        }
        generated := generated[name := filled.value];
      }
      pending := pending - {name};
    }
    CombineAllOk(outcomes, generated);
    r := Ok(JObject(generated));
  }

  /** The switch of generateNodeFilledObject on one field that has a preset. */
  method FillField(value: BodyField, data: string, preset: JsonValue, ghost origin: JsonValue)
    returns (r: Result<JsonValue>)
    requires Fills(value.kind)
    requires |value.values| > 0 ==> JArray(value.values) < origin
    ensures r in FieldFill(value, preset, data)
    decreases origin, 0
  {
    if value.kind == DataKind {
      return Ok(JString(data));
    }
    if value.kind != ObjectKind {
      // prompt, const and select: the preset's string type assertion
      if !preset.JString? {
        return Result.Panic;
      }
      return Ok(preset);
    }
    if |value.values| == 0 {
      return Result.Panic;
    }
    match value.values[0]
    case JObject(nestedFields) =>
      var nestedTyped := DecodeBodyLoop(nestedFields);
      if nestedTyped.None? {
        return Fail(ExecError);
      }
      if !preset.JObject? {
        return Fail(ExecError);
      }
      NestedFill(value, preset, data);
      forall k | k in nestedTyped.value && |nestedTyped.value[k].values| > 0
        ensures JArray(nestedTyped.value[k].values) < value.values[0]
      {
        assert nestedFields[k] < value.values[0];
      }
      r := GenerateNodeFilledObject(nestedTyped.value, data, preset.fields, value.values[0]);
    case _ =>
      return Fail(ExecError);
  }

  // ---------------------------------------------------------------------
  // chainHandler
  // ---------------------------------------------------------------------

  /** What a chain sends on the step's channel (internal/domain/chain.go). */
  datatype ChainResult = ChainResult(response: string, mime: string, failed: bool)

  /** The result an error sends: no response and no mime. */
  const ErrorResult := ChainResult("", "", true)

  /**
   * How a chain ends: it sends a result, or a panic crashes the process.
   * `invoked` counts the nodes whose HTTP call was made.
   */
  datatype ChainEnd = Sent(result: ChainResult, invoked: nat) | Crashed(invoked: nat)

  /**
   * The node call (the marshalled request body, the node's header presets;
   * None for a transport error) and the gojsonq path lookup on a response.
   */
  datatype Invoker = Invoker(
    call: (Node, map<string, string>, JsonValue) -> Option<string>,
    find: (string, string) -> JsonValue)

  function Later(e: ChainEnd, n: nat): ChainEnd
  {
    e.(invoked := e.invoked + n)
  }

  /**
   * How one node of a chain can end: the ends that stop the chain here, and
   * the answer the chain goes on with, if it can go on.
   */
  datatype NodeEnds = NodeEnds(halts: set<ChainEnd>, next: Option<string>)

  /** A fill that panics crashes the chain; a fill error sends the error result. */
  function FillHalts(fills: set<Result<JsonValue>>): (r: set<ChainEnd>)
    requires fills != {}
    ensures r != {}
    ensures forall e | e in r :: e.invoked == 0 && (e.Sent? ==> e.result == ErrorResult)
  {
    var x :| x in fills;
    var r := set x | x in fills :: if x.Panic? then Crashed(0) else Sent(ErrorResult, 0);
    assert (if x.Panic? then Crashed(0) else Sent(ErrorResult, 0)) in r;
    r
  }

  /**
   * The ends of one node from running data `prompt`: its body is filled from
   * the presets under its id, a fill error sends the error result and a fill
   * panic crashes; then the node is called, a failed call sends the error
   * result, a non-string answer at the node's response path crashes, and
   * otherwise that answer goes on.
   */
  ghost function NodeRun(env: Invoker, bodyPresets: map<string, map<string, JsonValue>>,
                         headerPresets: map<string, map<string, string>>, node: Node, prompt: string)
    : (r: NodeEnds)
    ensures r.halts != {} || r.next.Some?
    ensures r.next.Some? ==> r.halts == {}
    ensures forall e | e in r.halts :: e.invoked <= 1 && (e.Sent? ==> e.result == ErrorResult)
  {
    var fills := FillOutcomes(node.body, prompt, LookupMap(bodyPresets, node.id));
    if !Succeeds(fills) then NodeEnds(FillHalts(fills), None)
    else match env.call(node, LookupMap(headerPresets, node.id), OkValue(fills))
      case None => NodeEnds({Sent(ErrorResult, 1)}, None)
      case Some(response) =>
        var next := env.find(response, node.responseDirection);
        if next.JString? then NodeEnds({}, Some(next.str)) else NodeEnds({Crashed(1)}, None)
  }

  /** The ends of the rest of a chain, counted from one node earlier. */
  function Lift(ends: set<ChainEnd>): (r: set<ChainEnd>)
    ensures forall e | e in ends :: Later(e, 1) in r
    ensures forall e | e in r :: exists e' | e' in ends :: e == Later(e', 1)
  {
    set e | e in ends :: Later(e, 1)
  }

  /**
   * The ends a chain can reach from running data `prompt` and mime `mime`:
   * a node's own ends, and, when it answers, the ends of the rest of the
   * chain from its answer and its response mime. After the last node the
   * running data and mime are sent.
   */
  ghost function ChainRun(env: Invoker, bodyPresets: map<string, map<string, JsonValue>>,
                          headerPresets: map<string, map<string, string>>,
                          chain: seq<Node>, prompt: string, mime: string): (r: set<ChainEnd>)
    ensures r != {}
    decreases |chain|
  {
    if chain == [] then {Sent(ChainResult(prompt, mime, false), 0)}
    else
      var first := NodeRun(env, bodyPresets, headerPresets, chain[0], prompt);
      if first.next.None? then first.halts
      else
        var rest := ChainRun(env, bodyPresets, headerPresets, chain[1..], first.next.value, chain[0].responseMime);
        var e :| e in rest;
        assert Later(e, 1) in Lift(rest);
        Lift(rest)
  }

  /**
   * Every end of a chain: at most every node was called; a success called
   * every node and carries the last node's response mime (the starting mime
   * for an empty chain); an error result has no response and no mime.
   */
  lemma {:induction false} ChainEnds(env: Invoker, bodyPresets: map<string, map<string, JsonValue>>,
                                     headerPresets: map<string, map<string, string>>,
                                     chain: seq<Node>, prompt: string, mime: string)
    ensures forall e | e in ChainRun(env, bodyPresets, headerPresets, chain, prompt, mime) ::
              && e.invoked <= |chain|
              && (e.Sent? && !e.result.failed ==>
                    e.invoked == |chain| && e.result.mime == (if chain == [] then mime else chain[|chain| - 1].responseMime))
              && (e.Sent? && e.result.failed ==> e.result == ErrorResult)
    decreases |chain|
  {
    if chain != [] {
      var first := NodeRun(env, bodyPresets, headerPresets, chain[0], prompt);
      if first.next.Some? {
        var rest := ChainRun(env, bodyPresets, headerPresets, chain[1..], first.next.value, chain[0].responseMime);
        ChainEnds(env, bodyPresets, headerPresets, chain[1..], first.next.value, chain[0].responseMime);
        if |chain| > 1 {
          assert chain[1..][|chain[1..]| - 1] == chain[|chain| - 1];
        }
        forall e | e in Lift(rest)
          ensures e.invoked <= |chain|
          ensures e.Sent? && !e.result.failed ==> e.invoked == |chain| && e.result.mime == chain[|chain| - 1].responseMime
          ensures e.Sent? && e.result.failed ==> e.result == ErrorResult
        {
          var e' :| e' in rest && e == Later(e', 1);
        }
      }
    }
  }

  /** The per-node part of chainHandler's loop: fill, marshal, call, extract. */
  method CallNode(env: Invoker, bodyPresets: map<string, map<string, JsonValue>>,
                  headerPresets: map<string, map<string, string>>, node: Node, prompt: string)
    returns (halt: Option<ChainEnd>, answer: string)
    ensures halt.Some? ==> halt.value in NodeRun(env, bodyPresets, headerPresets, node, prompt).halts
    ensures halt.None? ==> NodeRun(env, bodyPresets, headerPresets, node, prompt).next == Some(answer)
  {
    SpecsInStoredForm(node.body);
    var body := GenerateNodeFilledObject(node.body, prompt, LookupMap(bodyPresets, node.id),
                                         JObject(EncodeBody(node.body)));
    ghost var fills := FillOutcomes(node.body, prompt, LookupMap(bodyPresets, node.id));
    if body.Panic? {
      return Some(Crashed(0)), "";
    }
    if body.Fail? {
      return Some(Sent(ErrorResult, 0)), "";
    }
    // json.Marshal of the filled object cannot fail
    assert fills == {body};
    var response := env.call(node, LookupMap(headerPresets, node.id), body.value);
    if response.None? {
      return Some(Sent(ErrorResult, 1)), "";
    }
    var next := env.find(response.value, node.responseDirection);
    if !next.JString? {
      return Some(Crashed(1)), "";
    }
    return None, next.str;
  }

  /**
   * Whatever the chain from node `i` on can end in, from running data
   * `prompt` and mime `mime`, the whole chain from `data` can end in too,
   * with the first `i` calls counted.
   */
  ghost predicate Reaches(env: Invoker, bodyPresets: map<string, map<string, JsonValue>>,
                          headerPresets: map<string, map<string, string>>, chain: seq<Node>, data: string,
                          i: nat, prompt: string, mime: string)
    requires i <= |chain|
  {
    forall e | e in ChainRun(env, bodyPresets, headerPresets, chain[i..], prompt, mime) ::
      Later(e, i) in ChainRun(env, bodyPresets, headerPresets, chain, data, JsonContentType)
  }

  /** A node that answers hands its answer and its response mime to the rest of the chain. */
  lemma ReachesNext(env: Invoker, bodyPresets: map<string, map<string, JsonValue>>,
                    headerPresets: map<string, map<string, string>>, chain: seq<Node>, data: string,
                    i: nat, prompt: string, mime: string, answer: string)
    requires i < |chain| && Reaches(env, bodyPresets, headerPresets, chain, data, i, prompt, mime)
    requires NodeRun(env, bodyPresets, headerPresets, chain[i], prompt).next == Some(answer)
    ensures Reaches(env, bodyPresets, headerPresets, chain, data, i + 1, answer, chain[i].responseMime)
  {
    var tail := chain[i..];
    assert tail[0] == chain[i] && tail[1..] == chain[i + 1..];
    var rest := ChainRun(env, bodyPresets, headerPresets, chain[i + 1..], answer, chain[i].responseMime);
    assert ChainRun(env, bodyPresets, headerPresets, tail, prompt, mime) == Lift(rest);
    forall e | e in rest
      ensures Later(e, i + 1) in ChainRun(env, bodyPresets, headerPresets, chain, data, JsonContentType)
    {
      assert Later(e, 1) in Lift(rest);
      assert Later(Later(e, 1), i) == Later(e, i + 1);
    }
  }

  /** A node that stops the chain ends the chain from that node. */
  lemma ReachesHalt(env: Invoker, bodyPresets: map<string, map<string, JsonValue>>,
                    headerPresets: map<string, map<string, string>>, chain: seq<Node>, data: string,
                    i: nat, prompt: string, mime: string, halt: ChainEnd)
    requires i < |chain| && Reaches(env, bodyPresets, headerPresets, chain, data, i, prompt, mime)
    requires halt in NodeRun(env, bodyPresets, headerPresets, chain[i], prompt).halts
    ensures Later(halt, i) in ChainRun(env, bodyPresets, headerPresets, chain, data, JsonContentType)
  {
    var tail := chain[i..];
    assert tail[0] == chain[i];
    assert halt in ChainRun(env, bodyPresets, headerPresets, tail, prompt, mime);
  }

  /** Before any node is called, the chain reaches its own ends. */
  lemma ReachesStart(env: Invoker, bodyPresets: map<string, map<string, JsonValue>>,
                     headerPresets: map<string, map<string, string>>, chain: seq<Node>, data: string)
    ensures Reaches(env, bodyPresets, headerPresets, chain, data, 0, data, JsonContentType)
  {
    assert chain[0..] == chain;
    forall e | e in ChainRun(env, bodyPresets, headerPresets, chain, data, JsonContentType)
      ensures Later(e, 0) in ChainRun(env, bodyPresets, headerPresets, chain, data, JsonContentType)
    {
      assert Later(e, 0) == e;
    }
  }

  /** After every node answered, the last answer and mime are sent. */
  lemma ReachesEnd(env: Invoker, bodyPresets: map<string, map<string, JsonValue>>,
                   headerPresets: map<string, map<string, string>>, chain: seq<Node>, data: string,
                   prompt: string, mime: string)
    requires Reaches(env, bodyPresets, headerPresets, chain, data, |chain|, prompt, mime)
    ensures Sent(ChainResult(prompt, mime, false), |chain|)
              in ChainRun(env, bodyPresets, headerPresets, chain, data, JsonContentType)
  {
    assert chain[|chain|..] == [];
    assert Sent(ChainResult(prompt, mime, false), 0)
             in ChainRun(env, bodyPresets, headerPresets, chain[|chain|..], prompt, mime);
  }

  /**
   * chainHandler: the nodes are called in order, each with the previous
   * node's extracted answer as its data; the first failure sends the error
   * result and calls no further node; the end is one ChainRun allows.
   */
  method ChainHandler(env: Invoker, bodyPresets: map<string, map<string, JsonValue>>,
                      headerPresets: map<string, map<string, string>>, chain: seq<Node>, data: string)
    returns (end: ChainEnd)
    ensures end in ChainRun(env, bodyPresets, headerPresets, chain, data, JsonContentType)
  {
    var prompt := data;
    var finalMime := JsonContentType;
    ReachesStart(env, bodyPresets, headerPresets, chain, data);
    for i := 0 to |chain|
      invariant Reaches(env, bodyPresets, headerPresets, chain, data, i, prompt, finalMime)
    {
      var halt, answer := CallNode(env, bodyPresets, headerPresets, chain[i], prompt);
      if halt.Some? {
        ReachesHalt(env, bodyPresets, headerPresets, chain, data, i, prompt, finalMime, halt.value);
        return Later(halt.value, i);
      }
      ReachesNext(env, bodyPresets, headerPresets, chain, data, i, prompt, finalMime, answer);
      prompt := answer;
      finalMime := chain[i].responseMime;
    }
    ReachesEnd(env, bodyPresets, headerPresets, chain, data, prompt, finalMime);
    return Sent(ChainResult(prompt, finalMime, false), |chain|);
  }
}

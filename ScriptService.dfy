/**
 * Creating and running scripts (internal/service/script/service.go).
 * Create parses the workflow, validates it and the presets against the
 * stored nodes, then stores the script and commits. Run loads a script,
 * resolves its node ids, runs its steps one after the other (the chains of
 * a step side by side, each with the step's input) and hands back the
 * final context.
 */
module ScriptService {

  import opened Json
  import opened Outcomes
  import opened Decimal
  import opened Nodes
  import opened Stores
  import opened Requests
  import opened ScriptCommon
  import opened ScriptChain
  import Scripts

  // ---------------------------------------------------------------------
  // Create
  // ---------------------------------------------------------------------

  /** The rows validateWorkflow reads for a request whose entries are all ids. */
  function WorkflowRows(req: CreateScriptRequest, nodes: NodeStore): Option<NodeRows>
  {
    GetByIds(nodes, ReferencedIds(req.workflow))
  }

  /**
   * The error of the first check of Create that fails before the presets
   * are looked at: a step key that is not a decimal int, a workflow entry
   * that is not an id, a failed node lookup, a row that does not decode.
   */
  function EarlyError(req: CreateScriptRequest, nodes: NodeStore): Option<ErrorKind>
  {
    if !Scripts.KeysParse(req.workflow) then Some(ParseError)
    else if !OnlyIds(req.workflow) then Some(ValidationFailed)
    else if WorkflowRows(req, nodes).None? then Some(DatabaseError)
    else if !RowsDecode(WorkflowRows(req, nodes).value) then Some(ParseError)
    else None
  }

  /** The nodes the presets are checked against, once the early checks pass. */
  function UsedNodes(req: CreateScriptRequest, nodes: NodeStore): map<string, Node>
    requires EarlyError(req, nodes).None?
  {
    DecodedRows(WorkflowRows(req, nodes).value)
  }

  /** A request Create's checks all pass. */
  predicate Admissible(req: CreateScriptRequest, nodes: NodeStore)
  {
    && EarlyError(req, nodes).None?
    && BodyPresetsValid(UsedNodes(req, nodes), req.bodyPresets)
    && HeaderPresetsValid(UsedNodes(req, nodes), req.headerPresets)
  }

  /**
   * The checks of Create, in order: the step keys are parsed first
   * (ParseError before any validation), then the workflow, the body presets
   * and the header presets are validated, and the first error is returned.
   * On success the parsed workflow is handed back.
   */
  method CheckRequest(req: CreateScriptRequest, nodes: NodeStore) returns (r: Result<Scripts.Workflow>)
    ensures EarlyError(req, nodes).Some? ==> r == Fail(EarlyError(req, nodes).value)
    ensures r.Ok? <==> Admissible(req, nodes)
    ensures r.Ok? ==> Scripts.IsWorkflowOf(req.workflow, r.value)
    ensures r.Fail? && EarlyError(req, nodes).None? ==> r.kind == ValidationFailed
    ensures r.Panic? ==>
              && EarlyError(req, nodes).None?
              && (BodyPresetsCanPanic(UsedNodes(req, nodes), req.bodyPresets)
                  || HeaderPresetsCanPanic(UsedNodes(req, nodes), req.headerPresets))
  {
    var workflow := Scripts.ParseWorkflow(req.workflow);
    if workflow.None? {
      return Fail(ParseError);
    }
    var used := ValidateWorkflow(req.workflow, nodes);
    if !used.Ok? {
      return Fail(used.kind);
    }
    var bodyChecked := ValidateBodyPresets(used.value, req.bodyPresets);
    if bodyChecked.Fail? {
      return Fail(bodyChecked.kind);
    } else if bodyChecked.Panic? {
      return Result.Panic;
    }
    var headerChecked := ValidateHeaderPresets(used.value, req.headerPresets);
    if headerChecked.Fail? {
      return Fail(headerChecked.kind);
    } else if headerChecked.Panic? {
      return Result.Panic;
    }
    return Ok(workflow.value);
  }

  /**
   * Create: a request that fails a check is answered with that check's
   * error and nothing is written. An admissible request is stored as
   * Script.ToModel lays it out; a failed insert is a DatabaseError, and the
   * commit follows a successful insert only. The script returned carries
   * the request's name and presets, the parsed workflow, the author, the
   * fixed key "test_key" and the id of the inserted record, which is the
   * record ToModel built and so the zero id.
   */
  method Create(req: CreateScriptRequest, authorId: string, tx: Transaction, nodes: NodeStore)
    returns (r: Result<Scripts.Script>, effects: seq<Effect>, ghost built: Scripts.Script)
    ensures !tx.starts ==> r == Fail(TxError) && effects == []
    ensures tx.starts && !Admissible(req, nodes) ==> !r.Ok? && effects == []
    ensures tx.starts && EarlyError(req, nodes).Some? ==> r == Fail(EarlyError(req, nodes).value)
    ensures tx.starts && EarlyError(req, nodes).None? && !Admissible(req, nodes) ==>
              r == Fail(ValidationFailed)
              || (r.Panic? && (BodyPresetsCanPanic(UsedNodes(req, nodes), req.bodyPresets)
                               || HeaderPresetsCanPanic(UsedNodes(req, nodes), req.headerPresets)))
    ensures tx.starts && Admissible(req, nodes) ==>
              && Scripts.IsWorkflowOf(req.workflow, built.workflow)
              && built == Scripts.Script(ZeroId, req.name, built.workflow, req.bodyPresets, req.headerPresets,
                                         authorId, "test_key")
              && |effects| >= 1 && effects[0].InsertScript? && Scripts.IsModelOf(built.(id := ""), effects[0].script)
              && effects == [effects[0]] + (if tx.inserts then [Commit] else [])
              && (!tx.inserts ==> r == Fail(DatabaseError))
              && (tx.inserts && !tx.commits ==> r == Fail(TxError))
              && (tx.inserts && tx.commits ==> r == Ok(built))
  {
    effects := [];
    built := Scripts.Script("", "", map[], map[], map[], "", "");
    if !tx.starts {
      return Fail(TxError), effects, built;
    }
    var checked := CheckRequest(req, nodes);
    if checked.Fail? {
      return Fail(checked.kind), effects, built;
    } else if checked.Panic? {
      return Result.Panic, effects, built;
    }
    var script := Scripts.Script("", req.name, checked.value, req.bodyPresets, req.headerPresets, authorId, "test_key");
    built := script.(id := ZeroId);
    r, effects := Store(script, tx);
  }

  /**
   * The writing half of Create: the script is inserted as Script.ToModel
   * lays it out; a failed insert is a DatabaseError, and the commit follows
   * a successful insert only. The script comes back with the id of the
   * inserted record, which is the record ToModel built and so the zero id.
   */
  method Store(script: Scripts.Script, tx: Transaction) returns (r: Result<Scripts.Script>, effects: seq<Effect>)
    ensures |effects| >= 1 && effects[0].InsertScript? && Scripts.IsModelOf(script, effects[0].script)
    ensures effects == [effects[0]] + (if tx.inserts then [Commit] else [])
    ensures !tx.inserts ==> r == Fail(DatabaseError)
    ensures tx.inserts && !tx.commits ==> r == Fail(TxError)
    ensures tx.inserts && tx.commits ==> r == Ok(script.(id := ZeroId))
  {
    // Script.ToModel cannot fail: every workflow and preset marshals
    var model := Scripts.ToModel(script);
    effects := [InsertScript(model)];
    if !tx.inserts {
      return Fail(DatabaseError), effects;
    }
    effects := effects + [Commit];
    if !tx.commits {
      return Fail(TxError), effects;
    }
    // the insert hands back `model`, so the id is the one ToModel left unset
    return Ok(script.(id := model.id)), effects;
  }

  // ---------------------------------------------------------------------
  // One step: its chains, and the results they send
  // ---------------------------------------------------------------------

  /** The chain keys Run launches for a step, among 0 .. n-1, in ascending order. */
  function ChainKeys(step: map<nat, seq<Node>>, n: nat): (keys: seq<nat>)
    ensures forall k | 0 <= k < |keys| :: keys[k] < n && keys[k] in step
    ensures forall j: nat | j < n && j in step :: j in keys
    ensures forall k, l | 0 <= k < l < |keys| :: keys[k] < keys[l]
  {
    if n == 0 then [] else ChainKeys(step, n - 1) + (if n - 1 in step then [n - 1] else [])
  }

  /** `ends` are ends of the chains under `keys`, one each and in the same order, all run from `context`. */
  ghost predicate StepEnds(env: Invoker, bodyPresets: map<string, map<string, JsonValue>>,
                           headerPresets: map<string, map<string, string>>,
                           step: map<nat, seq<Node>>, keys: seq<nat>, context: string, ends: seq<ChainEnd>)
  {
    |ends| == |keys|
    && forall k | 0 <= k < |keys| ::
         keys[k] in step && ends[k] in ChainRun(env, bodyPresets, headerPresets, step[keys[k]], context, JsonContentType)
  }

  lemma StepEndsMore(env: Invoker, bodyPresets: map<string, map<string, JsonValue>>,
                     headerPresets: map<string, map<string, string>>,
                     step: map<nat, seq<Node>>, keys: seq<nat>, context: string, ends: seq<ChainEnd>,
                     key: nat, end: ChainEnd)
    requires StepEnds(env, bodyPresets, headerPresets, step, keys, context, ends)
    requires key in step && end in ChainRun(env, bodyPresets, headerPresets, step[key], context, JsonContentType)
    ensures StepEnds(env, bodyPresets, headerPresets, step, keys + [key], context, ends + [end])
  {
    var keys', ends' := keys + [key], ends + [end];
    forall k | 0 <= k < |keys'|
      ensures keys'[k] in step
              && ends'[k] in ChainRun(env, bodyPresets, headerPresets, step[keys'[k]], context, JsonContentType)
    {
      if k < |keys| {
        assert keys'[k] == keys[k] && ends'[k] == ends[k];
      }
    }
  }

  /**
   * The launch loop of a step: every chain key 0 .. bound-1 present in the
   * step gets one chainHandler run from the step's input. Run's bound is
   * len(step).
   */
  method LaunchStep(env: Invoker, bodyPresets: map<string, map<string, JsonValue>>,
                    headerPresets: map<string, map<string, string>>, step: map<nat, seq<Node>>, bound: nat,
                    context: string)
    returns (ends: seq<ChainEnd>)
    ensures StepEnds(env, bodyPresets, headerPresets, step, ChainKeys(step, bound), context, ends)
  {
    ends := [];
    for j := 0 to bound
      invariant StepEnds(env, bodyPresets, headerPresets, step, ChainKeys(step, j), context, ends)
    {
      if j in step {
        var end := ChainHandler(env, bodyPresets, headerPresets, step[j], context);
        StepEndsMore(env, bodyPresets, headerPresets, step, ChainKeys(step, j), context, ends, j, end);
        ends := ends + [end];
      }
    }
  }

  /** Some chain panicked, which ends the whole process. */
  predicate AnyCrash(ends: seq<ChainEnd>)
  {
    exists k | 0 <= k < |ends| :: ends[k].Crashed?
  }

  /** What the chains of a step put on the result channel, in launch order. */
  function Results(ends: seq<ChainEnd>): (results: seq<ChainResult>)
    requires !AnyCrash(ends)
    ensures |results| == |ends| && forall k | 0 <= k < |ends| :: ends[k] == Sent(results[k], ends[k].invoked)
  {
    seq(|ends|, k requires 0 <= k < |ends| && ends[k].Sent? => ends[k].result)
  }

  predicate AnyFailure(results: seq<ChainResult>)
  {
    exists k | 0 <= k < |results| :: results[k].failed
  }

  function Responses(results: seq<ChainResult>): (responses: seq<string>)
    ensures |responses| == |results| && forall k | 0 <= k < |results| :: responses[k] == results[k].response
  {
    seq(|results|, k requires 0 <= k < |results| => results[k].response)
  }

  /** The indices of a sequence. */
  function Indices(n: nat): (s: set<nat>)
    ensures forall k: nat :: k in s <==> k < n
  {
    if n == 0 then {} else Indices(n - 1) + {n - 1}
  }

  /**
   * The read loop over the step's channel, in whatever order the results
   * arrived (`order`): the first failed result read stops it; otherwise
   * every response is collected, in reading order.
   */
  method Drain(results: seq<ChainResult>) returns (failed: bool, responses: seq<string>, ghost order: seq<nat>)
    ensures failed <==> AnyFailure(results)
    ensures !failed ==> Scripts.IsOrdering(order, Indices(|results|))
                        && |responses| == |order|
                        && forall i | 0 <= i < |order| :: responses[i] == results[order[i]].response
  {
    var unread := Indices(|results|);
    ghost var read: set<nat> := {};
    responses := [];
    order := [];
    while unread != {}
      invariant read !! unread && read + unread == Indices(|results|)
      invariant Scripts.IsOrdering(order, read)
      invariant |responses| == |order|
      invariant forall i | 0 <= i < |order| :: order[i] < |results| && responses[i] == results[order[i]].response
      invariant forall k | k in read :: !results[k].failed
      decreases |unread|
    {
      var k: nat :| k in unread;
      if results[k].failed {
        return true, responses, order;
      }
      Scripts.OrderOneMore(order, read, k);
      responses := responses + [results[k].response];
      order := order + [k];
      read := read + {k};
      unread := unread - {k};
    }
    return false, responses, order;
  }

  // ---------------------------------------------------------------------
  // Run, as written
  // ---------------------------------------------------------------------

  /** How the step loop of Run ends; a step that never ends is Blocked. */
  datatype StepsOutcome = Finished(context: string) | ChainFailed | ChainPanicked | Blocked

  /** No step key among 1 .. len(scriptMap)-1 is present, so Run's step loop runs nothing. */
  predicate NoStepScheduled(filled: FilledWorkflow)
  {
    forall i | 1 <= i < |filled| :: i !in filled
  }

  /**
   * The step loop of Run: step keys 1 .. len(scriptMap)-1 are tried in
   * ascending order, absent ones skipped. The first present one is run
   * (`ran`, with its chains' ends), and it decides the whole outcome: a
   * panicking chain crashes the process, a failed result read from the
   * channel is an error, and once every result has been read the range
   * over the channel, which nobody closes, blocks for ever. Only when no
   * step runs does the loop end, with the input unchanged.
   */
  method ExecuteSteps(env: Invoker, bodyPresets: map<string, map<string, JsonValue>>,
                      headerPresets: map<string, map<string, string>>, filled: FilledWorkflow, enterData: string)
    returns (r: StepsOutcome, ran: Option<int>, ends: seq<ChainEnd>)
    ensures ran.None? <==> NoStepScheduled(filled)
    ensures ran.None? ==> r == Finished(enterData)
    ensures ran.Some? ==> 1 <= ran.value < |filled| && ran.value in filled
                          && (forall i | 1 <= i < ran.value :: i !in filled)
                          && StepEnds(env, bodyPresets, headerPresets, filled[ran.value],
                                      ChainKeys(filled[ran.value], |filled[ran.value]|), enterData, ends)
    ensures ran.Some? && AnyCrash(ends) ==> r == ChainPanicked
    ensures ran.Some? && !AnyCrash(ends) && AnyFailure(Results(ends)) ==> r == ChainFailed
    ensures ran.Some? && !AnyCrash(ends) && !AnyFailure(Results(ends)) ==> r == Blocked
    ensures ran.Some? ==> !r.Finished?
  {
    ends := [];
    var i := 1;
    while i < |filled|
      invariant 1 <= i && (i <= |filled| || i == 1)
      invariant forall j | 1 <= j < i :: j !in filled
    {
      if i in filled {
        ends := LaunchStep(env, bodyPresets, headerPresets, filled[i], |filled[i]|, enterData);
        ran := Some(i);
        if exists k | 0 <= k < |ends| :: ends[k].Crashed? {
          return ChainPanicked, ran, ends;
        }
        var failed, _, _ := Drain(Results(ends));
        if failed {
          return ChainFailed, ran, ends;
        }
        return Blocked, ran, ends;
      }
      i := i + 1;
    }
    return Finished(enterData), None, ends;
  }

  /** How Run ends: it returns a result, or it never returns. */
  datatype RunOutcome = Returned(result: Result<string>) | NeverReturns

  /** fillScriptMap succeeds: the store answers, every row decodes, every id is found. */
  predicate FillSucceeds(workflow: Scripts.Workflow, nodes: NodeStore)
  {
    && GetByIds(nodes, WorkflowNodeIds(workflow)).Some?
    && RowsDecode(GetByIds(nodes, WorkflowNodeIds(workflow)).value)
    && AllKnown(workflow, DecodedRows(GetByIds(nodes, WorkflowNodeIds(workflow)).value))
  }

  /**
   * Run: load the script (DatabaseError), read it back (ParseError),
   * resolve its node ids (fillScriptMap's errors), run the steps, commit
   * and return the final context. As written, a run that returns a context
   * returns the caller's input: a run whose step loop runs a step never
   * returns a context.
   */
  method Run(req: RunScriptRequest, tx: Transaction, scripts: ScriptStore, nodes: NodeStore, env: Invoker)
    returns (r: RunOutcome, ghost script: Option<Scripts.Script>, ghost filled: Option<FilledWorkflow>)
    ensures !tx.starts ==> r == Returned(Fail(TxError)) && script.None?
    ensures tx.starts && GetScriptById(scripts, req.id).None? ==> r == Returned(Fail(DatabaseError)) && script.None?
    ensures tx.starts && GetScriptById(scripts, req.id).Some?
            && !Scripts.FromModelSucceeds(GetScriptById(scripts, req.id).value) ==>
              r == Returned(Fail(ParseError)) && script.None?
    ensures script.Some? ==> tx.starts && GetScriptById(scripts, req.id).Some?
                             && Scripts.FromModelSucceeds(GetScriptById(scripts, req.id).value)
                             && Scripts.IsScriptOf(GetScriptById(scripts, req.id).value, script.value)
    ensures (tx.starts && GetScriptById(scripts, req.id).Some?
             && Scripts.FromModelSucceeds(GetScriptById(scripts, req.id).value)) ==> script.Some?
    ensures script.Some? ==> (filled.Some? <==> FillSucceeds(script.value.workflow, nodes))
    ensures script.Some? && filled.None? ==>
              r.Returned? && r.result.Fail? && r.result.kind in {DatabaseError, ParseError, ValidationFailed}
    ensures filled.Some? ==> script.Some? && FillSucceeds(script.value.workflow, nodes)
                             && Resolves(script.value.workflow, filled.value,
                                         DecodedRows(GetByIds(nodes, WorkflowNodeIds(script.value.workflow)).value))
    ensures filled.Some? && NoStepScheduled(filled.value) ==>
              r == (if tx.commits then Returned(Ok(req.enterData)) else Returned(Fail(TxError)))
    ensures filled.Some? && !NoStepScheduled(filled.value) ==>
              r in {NeverReturns, Returned(Fail(ExecError)), Returned(Result.Panic)}
    ensures r.Returned? && r.result.Ok? ==> r.result.value == req.enterData
  {
    script, filled := None, None;
    if !tx.starts {
      return Returned(Fail(TxError)), script, filled;
    }
    var model := GetScriptById(scripts, req.id);
    if model.None? {
      return Returned(Fail(DatabaseError)), script, filled;
    }
    var loaded := Scripts.FromModel(model.value);
    if loaded.None? {
      return Returned(Fail(ParseError)), script, filled;
    }
    script := loaded;
    var scriptMap := FillScriptMap(loaded.value.workflow, nodes);
    if !scriptMap.Ok? {
      return Returned(Fail(scriptMap.kind)), script, filled;
    }
    filled := Some(scriptMap.value);
    var outcome, _, _ := ExecuteSteps(env, loaded.value.bodyPresets, loaded.value.headerPresets,
                                      scriptMap.value, req.enterData);
    match outcome {
      case ChainPanicked => return Returned(Result.Panic), script, filled;
      case ChainFailed => return Returned(Fail(ExecError)), script, filled;
      case Blocked => return NeverReturns, script, filled;
      case Finished(context) =>
        if !tx.commits {
          return Returned(Fail(TxError)), script, filled;
        }
        return Returned(Ok(context)), script, filled;
    }
  }

  /** A script with a single step keyed 0 runs no step at all. */
  lemma StepZeroSkipped(filled: FilledWorkflow)
    requires filled.Keys == {0}
    ensures NoStepScheduled(filled)
  {
  }

  /** With fewer than two steps nothing runs and Run can only hand back its input. */
  lemma FewStepsRunNothing(filled: FilledWorkflow)
    requires |filled| < 2
    ensures NoStepScheduled(filled)
  {
  }

  // ---------------------------------------------------------------------
  // Run, as evidently intended: every step, in ascending key order, and
  // the step's responses joined in chain order
  // ---------------------------------------------------------------------

  /** strings.Join: the parts with `sep` between neighbours. */
  function Join(parts: seq<string>, sep: string): string
  {
    if |parts| == 0 then ""
    else if |parts| == 1 then parts[0]
    else Join(parts[..|parts| - 1], sep) + sep + parts[|parts| - 1]
  }

  function TotalLength(parts: seq<string>): nat
  {
    if parts == [] then 0 else TotalLength(parts[..|parts| - 1]) + |parts[|parts| - 1]|
  }

  /** A join holds every part and one separator between each two neighbours. */
  lemma {:induction false} JoinLength(parts: seq<string>, sep: string)
    requires parts != []
    ensures |Join(parts, sep)| == TotalLength(parts) + (|parts| - 1) * |sep|
    decreases |parts|
  {
    if |parts| > 1 {
      JoinLength(parts[..|parts| - 1], sep);
    }
  }

  /** Joining one more part appends the separator and that part. */
  lemma JoinAppend(parts: seq<string>, part: string, sep: string)
    requires parts != []
    ensures Join(parts + [part], sep) == Join(parts, sep) + sep + part
  {
    assert (parts + [part])[..|parts|] == parts;
  }

  /** Every chain of the step sent a result and none of them failed. */
  predicate StepSucceeds(ends: seq<ChainEnd>)
  {
    !AnyCrash(ends) && !AnyFailure(Results(ends))
  }

  /** The next step's input: the responses of the step's chains, in chain order, joined by ". ". */
  function JoinedStep(ends: seq<ChainEnd>): string
    requires !AnyCrash(ends)
  {
    Join(Responses(Results(ends)), ". ")
  }

  /** Two successful results whose responses are "X" and "Y" hand "X. Y" to the next step. */
  lemma TwoChainsJoined(x: ChainResult, y: ChainResult, i: nat, j: nat)
    requires x.response == "X" && y.response == "Y" && !x.failed && !y.failed
    ensures StepSucceeds([Sent(x, i), Sent(y, j)])
    ensures JoinedStep([Sent(x, i), Sent(y, j)]) == "X. Y"
  {
    var ends := [Sent(x, i), Sent(y, j)];
    assert Results(ends) == [x, y];
    assert Responses([x, y]) == ["X", "Y"];
    assert ["X", "Y"][..1] == ["X"];
  }

  /**
   * `stepEnds[t]` are the ends of the chains of step `ran[t]` run from
   * `contexts[t]`, and every step with a successor context succeeded and
   * handed its joined responses on.
   */
  ghost predicate StepsRun(env: Invoker, bodyPresets: map<string, map<string, JsonValue>>,
                           headerPresets: map<string, map<string, string>>, filled: FilledWorkflow,
                           ran: seq<Int64>, contexts: seq<string>, stepEnds: seq<seq<ChainEnd>>)
  {
    && |stepEnds| == |ran| && |ran| <= |contexts| <= |ran| + 1
    && (forall t | 0 <= t < |ran| :: StepRan(env, bodyPresets, headerPresets, filled, ran[t], contexts[t], stepEnds[t]))
    && (forall t | 0 <= t < |contexts| - 1 :: HandedOn(stepEnds[t], contexts[t + 1]))
  }

  /** Step `key` of `filled` ran its chains from `context` and they ended in `ends`. */
  ghost predicate StepRan(env: Invoker, bodyPresets: map<string, map<string, JsonValue>>,
                          headerPresets: map<string, map<string, string>>, filled: FilledWorkflow,
                          key: Int64, context: string, ends: seq<ChainEnd>)
  {
    key in filled
    && StepEnds(env, bodyPresets, headerPresets, filled[key], AllChainKeys(filled[key]), context, ends)
  }

  /** A step that ended in `ends` succeeded and handed `next` to the following step. */
  predicate HandedOn(ends: seq<ChainEnd>, next: string)
  {
    StepSucceeds(ends) && next == JoinedStep(ends)
  }

  lemma StepsRunMore(env: Invoker, bodyPresets: map<string, map<string, JsonValue>>,
                     headerPresets: map<string, map<string, string>>, filled: FilledWorkflow,
                     ran: seq<Int64>, contexts: seq<string>, stepEnds: seq<seq<ChainEnd>>,
                     key: Int64, ends: seq<ChainEnd>)
    requires StepsRun(env, bodyPresets, headerPresets, filled, ran, contexts, stepEnds)
    requires |contexts| == |ran| + 1
    requires StepRan(env, bodyPresets, headerPresets, filled, key, contexts[|ran|], ends)
    ensures StepsRun(env, bodyPresets, headerPresets, filled, ran + [key], contexts, stepEnds + [ends])
  {
    var ran', stepEnds' := ran + [key], stepEnds + [ends];
    forall t | 0 <= t < |ran'|
      ensures StepRan(env, bodyPresets, headerPresets, filled, ran'[t], contexts[t], stepEnds'[t])
    {
      if t < |ran| {
        assert ran'[t] == ran[t] && stepEnds'[t] == stepEnds[t];
      } else {
        assert t == |ran| && ran'[t] == key && stepEnds'[t] == ends;
      }
    }
    forall t | 0 <= t < |contexts| - 1
      ensures HandedOn(stepEnds'[t], contexts[t + 1])
    {
      assert stepEnds'[t] == stepEnds[t];
    }
  }

  lemma StepsRunJoined(env: Invoker, bodyPresets: map<string, map<string, JsonValue>>,
                       headerPresets: map<string, map<string, string>>, filled: FilledWorkflow,
                       ran: seq<Int64>, contexts: seq<string>, stepEnds: seq<seq<ChainEnd>>)
    requires StepsRun(env, bodyPresets, headerPresets, filled, ran, contexts, stepEnds)
    requires |contexts| == |ran| > 0 && StepSucceeds(stepEnds[|ran| - 1])
    ensures StepsRun(env, bodyPresets, headerPresets, filled, ran, contexts + [JoinedStep(stepEnds[|ran| - 1])], stepEnds)
  {
    var contexts' := contexts + [JoinedStep(stepEnds[|ran| - 1])];
    forall t | 0 <= t < |ran|
      ensures StepRan(env, bodyPresets, headerPresets, filled, ran[t], contexts'[t], stepEnds[t])
    {
      assert contexts'[t] == contexts[t];
    }
    forall t | 0 <= t < |contexts'| - 1
      ensures HandedOn(stepEnds[t], contexts'[t + 1])
    {
      if t < |contexts| - 1 {
        assert contexts'[t + 1] == contexts[t + 1];
      }
    }
  }

  /**
   * `ran` holds the keys of `filled` not in `pending`, in ascending order,
   * every one of them below every pending key.
   */
  ghost predicate RanBelow(filled: FilledWorkflow, ran: seq<Int64>, pending: set<Int64>)
  {
    && pending <= filled.Keys
    && (forall k | k in filled :: k in pending || k in ran)
    && (forall t | 0 <= t < |ran| :: ran[t] in filled && ran[t] !in pending)
    && (forall t, k | 0 <= t < |ran| && k in pending :: ran[t] < k)
    && (forall t, u | 0 <= t < u < |ran| :: ran[t] < ran[u])
  }

  lemma RanBelowMore(filled: FilledWorkflow, ran: seq<Int64>, pending: set<Int64>, key: Int64)
    requires RanBelow(filled, ran, pending)
    requires IsLeast(key, pending)
    ensures RanBelow(filled, ran + [key], pending - {key})
    ensures forall k | k in filled && k < key :: k in ran
  {
  }

  /** `ran` lists keys of `filled` in ascending order, with no key of `filled` skipped below any of them. */
  ghost predicate AscendingFromLowest(filled: FilledWorkflow, ran: seq<Int64>)
  {
    && (forall t | 0 <= t < |ran| :: ran[t] in filled)
    && (forall t, u | 0 <= t < u < |ran| :: ran[t] < ran[u])
    && (forall t, k | 0 <= t < |ran| && k in filled && k < ran[t] :: k in ran)
  }

  lemma RanBelowAscending(filled: FilledWorkflow, ran: seq<Int64>, pending: set<Int64>, key: Int64)
    requires RanBelow(filled, ran, pending) && IsLeast(key, pending)
    ensures AscendingFromLowest(filled, ran + [key])
  {
    RanBelowMore(filled, ran, pending, key);
  }

  /** A bound above every key of `keys`. */
  ghost function KeyBound(keys: set<nat>): (b: nat)
    ensures forall k | k in keys :: k < b
    decreases keys
  {
    if keys == {} then 0
    else
      var k :| k in keys;
      var rest := KeyBound(keys - {k});
      assert forall j | j in keys :: j == k || j in keys - {k};
      if k < rest then rest else k + 1
  }

  /** Launching below any bound past the last key launches the same chains. */
  lemma {:induction false} ChainKeysBeyond(step: map<nat, seq<Node>>, m: nat, n: nat)
    requires forall k | k in step :: k < m && k < n
    ensures ChainKeys(step, n) == ChainKeys(step, m)
    decreases if m < n then n - m else m - n
  {
    if m < n {
      ChainKeysBeyond(step, m, n - 1);
    } else if n < m {
      ChainKeysBeyond(step, m - 1, n);
    }
  }

  /** Every chain key of a step, each once, in ascending order: the launch order the intended loop uses. */
  ghost function AllChainKeys(step: map<nat, seq<Node>>): (keys: seq<nat>)
    ensures forall k: nat :: k in step <==> k in keys
    ensures forall k, l | 0 <= k < l < |keys| :: keys[k] < keys[l]
  {
    ChainKeys(step, KeyBound(step.Keys))
  }

  /** The loop computing a bound above every chain key of a step. */
  method ChainBound(step: map<nat, seq<Node>>) returns (bound: nat)
    ensures forall k | k in step :: k < bound
  {
    bound := 0;
    var pending := step.Keys;
    while pending != {}
      invariant pending <= step.Keys
      invariant forall k | k in step && k !in pending :: k < bound
      decreases pending
    {
      var k: nat :| k in pending;
      if bound <= k {
        bound := k + 1;
      }
      pending := pending - {k};
    }
  }

  /**
   * When a step launches its chains by AllChainKeys, every chain of the step
   * runs exactly once from the step's input: each key of the step has one
   * end, which is one of that chain's ends, and no key is launched twice.
   */
  lemma StepLaunchesEveryChain(env: Invoker, bodyPresets: map<string, map<string, JsonValue>>,
                               headerPresets: map<string, map<string, string>>, step: map<nat, seq<Node>>,
                               context: string, ends: seq<ChainEnd>)
    requires StepEnds(env, bodyPresets, headerPresets, step, AllChainKeys(step), context, ends)
    ensures forall t, u | 0 <= t < u < |ends| :: AllChainKeys(step)[t] != AllChainKeys(step)[u]
    ensures forall k | k in step :: exists t | 0 <= t < |ends| ::
              AllChainKeys(step)[t] == k
              && ends[t] in ChainRun(env, bodyPresets, headerPresets, step[k], context, JsonContentType)
  {
    var keys := AllChainKeys(step);
    forall k | k in step
      ensures exists t | 0 <= t < |ends| ::
                keys[t] == k && ends[t] in ChainRun(env, bodyPresets, headerPresets, step[k], context, JsonContentType)
    {
      var t :| 0 <= t < |keys| && keys[t] == k;
    }
  }

  /** A chain read back at position 1 of a one-chain step is launched, where Run's bound of 1 skips it. */
  lemma ShiftedChainLaunched(chain: seq<Node>)
    ensures AllChainKeys(map[1 := chain]) == [1]
    ensures ChainKeys(map[1 := chain], 1) == []
  {
    var step := map[1 := chain];
    ChainKeysBeyond(step, 2, KeyBound(step.Keys));
    assert ChainKeys(step, 1) == [];
  }

  /**
   * One step of the intended loop: its chains run from `context`; a
   * panicking chain or a failed result ends the run, otherwise the joined
   * responses are the next context.
   */
  method RunStepIntended(env: Invoker, bodyPresets: map<string, map<string, JsonValue>>,
                         headerPresets: map<string, map<string, string>>, step: map<nat, seq<Node>>, context: string)
    returns (r: StepsOutcome, ends: seq<ChainEnd>)
    ensures StepEnds(env, bodyPresets, headerPresets, step, AllChainKeys(step), context, ends)
    ensures r.ChainPanicked? <==> AnyCrash(ends)
    ensures r.ChainFailed? <==> !AnyCrash(ends) && AnyFailure(Results(ends))
    ensures r.Finished? <==> StepSucceeds(ends)
    ensures r.Finished? ==> r.context == JoinedStep(ends)
    ensures !r.Blocked?
  {
    var bound := ChainBound(step);
    ends := LaunchStep(env, bodyPresets, headerPresets, step, bound, context);
    ChainKeysBeyond(step, KeyBound(step.Keys), bound);
    StepLaunchesEveryChain(env, bodyPresets, headerPresets, step, context, ends);
    if exists k | 0 <= k < |ends| :: ends[k].Crashed? {
      return ChainPanicked, ends;
    }
    var results := Results(ends);
    if exists k | 0 <= k < |results| :: results[k].failed {
      return ChainFailed, ends;
    }
    return Finished(JoinedStep(ends)), ends;
  }

  /**
   * What the intended step loop promises: it never blocks; `ran` lists the
   * steps run, from the lowest key up with none skipped; `contexts` holds
   * the input of each (the first is the caller's input) and, when the run
   * finished, the final context, which follows every step of the script;
   * `stepEnds` holds the ends of each step's chains. A run that does not
   * finish stopped at its last step, which crashed or, with no crash,
   * read a failed result.
   */
  ghost predicate IntendedOutcome(env: Invoker, bodyPresets: map<string, map<string, JsonValue>>,
                                  headerPresets: map<string, map<string, string>>, filled: FilledWorkflow,
                                  enterData: string, r: StepsOutcome,
                                  ran: seq<Int64>, contexts: seq<string>, stepEnds: seq<seq<ChainEnd>>)
  {
    && !r.Blocked?
    && |contexts| >= 1 && contexts[0] == enterData
    && StepsRun(env, bodyPresets, headerPresets, filled, ran, contexts, stepEnds)
    && AscendingFromLowest(filled, ran)
    && (r.Finished? ==> |contexts| == |ran| + 1 && r.context == contexts[|ran|] && forall k | k in filled :: k in ran)
    && (r.ChainPanicked? ==> |contexts| == |ran| > 0 && AnyCrash(stepEnds[|ran| - 1]))
    && (r.ChainFailed? ==> |contexts| == |ran| > 0 && !AnyCrash(stepEnds[|ran| - 1])
                           && AnyFailure(Results(stepEnds[|ran| - 1])))
  }

  /** The intended loop stopping at a step that crashed or failed. */
  lemma IntendedStops(env: Invoker, bodyPresets: map<string, map<string, JsonValue>>,
                      headerPresets: map<string, map<string, string>>, filled: FilledWorkflow,
                      enterData: string, r: StepsOutcome,
                      ran: seq<Int64>, contexts: seq<string>, stepEnds: seq<seq<ChainEnd>>)
    requires StepsRun(env, bodyPresets, headerPresets, filled, ran, contexts, stepEnds)
    requires AscendingFromLowest(filled, ran)
    requires |contexts| == |ran| > 0 && contexts[0] == enterData
    requires r.ChainPanicked? <==> AnyCrash(stepEnds[|ran| - 1])
    requires r.ChainFailed? <==> !AnyCrash(stepEnds[|ran| - 1]) && AnyFailure(Results(stepEnds[|ran| - 1]))
    requires !r.Finished? && !r.Blocked?
    ensures IntendedOutcome(env, bodyPresets, headerPresets, filled, enterData, r, ran, contexts, stepEnds)
  {
  }

  /**
   * The state of the intended loop: the steps not `pending` ran, in
   * ascending key order, each from the joined responses of the one before,
   * and the last context is the input of the next step.
   */
  ghost predicate IntendedLoop(env: Invoker, bodyPresets: map<string, map<string, JsonValue>>,
                               headerPresets: map<string, map<string, string>>, filled: FilledWorkflow,
                               enterData: string, pending: set<Int64>,
                               ran: seq<Int64>, contexts: seq<string>, stepEnds: seq<seq<ChainEnd>>)
  {
    && RanBelow(filled, ran, pending)
    && StepsRun(env, bodyPresets, headerPresets, filled, ran, contexts, stepEnds)
    && |contexts| == |ran| + 1 && contexts[0] == enterData
  }

  /** Running the least pending step either ends the run as promised or keeps the loop state. */
  lemma IntendedAdvance(env: Invoker, bodyPresets: map<string, map<string, JsonValue>>,
                        headerPresets: map<string, map<string, string>>, filled: FilledWorkflow,
                        enterData: string, pending: set<Int64>,
                        ran: seq<Int64>, contexts: seq<string>, stepEnds: seq<seq<ChainEnd>>,
                        key: Int64, r: StepsOutcome, ends: seq<ChainEnd>)
    requires IntendedLoop(env, bodyPresets, headerPresets, filled, enterData, pending, ran, contexts, stepEnds)
    requires IsLeast(key, pending)
    requires StepRan(env, bodyPresets, headerPresets, filled, key, contexts[|ran|], ends)
    requires r.ChainPanicked? <==> AnyCrash(ends)
    requires r.ChainFailed? <==> !AnyCrash(ends) && AnyFailure(Results(ends))
    requires r.Finished? <==> StepSucceeds(ends)
    requires r.Finished? ==> r.context == JoinedStep(ends)
    requires !r.Blocked?
    ensures r.Finished? ==> IntendedLoop(env, bodyPresets, headerPresets, filled, enterData, pending - {key},
                                         ran + [key], contexts + [r.context], stepEnds + [ends])
    ensures !r.Finished? ==> IntendedOutcome(env, bodyPresets, headerPresets, filled, enterData, r,
                                             ran + [key], contexts, stepEnds + [ends])
  {
    RanBelowAscending(filled, ran, pending, key);
    RanBelowMore(filled, ran, pending, key);
    StepsRunMore(env, bodyPresets, headerPresets, filled, ran, contexts, stepEnds, key, ends);
    if r.Finished? {
      StepsRunJoined(env, bodyPresets, headerPresets, filled, ran + [key], contexts, stepEnds + [ends]);
    } else {
      IntendedStops(env, bodyPresets, headerPresets, filled, enterData, r, ran + [key], contexts, stepEnds + [ends]);
    }
  }

  /** The intended loop finishing once every step ran. */
  lemma IntendedFinishes(env: Invoker, bodyPresets: map<string, map<string, JsonValue>>,
                         headerPresets: map<string, map<string, string>>, filled: FilledWorkflow,
                         enterData: string, ran: seq<Int64>, contexts: seq<string>, stepEnds: seq<seq<ChainEnd>>)
    requires IntendedLoop(env, bodyPresets, headerPresets, filled, enterData, {}, ran, contexts, stepEnds)
    ensures IntendedOutcome(env, bodyPresets, headerPresets, filled, enterData, Finished(contexts[|ran|]),
                            ran, contexts, stepEnds)
  {
  }

  /**
   * The step loop Run evidently means: every step of the script runs, from
   * the lowest key up, each from the previous step's joined responses; a
   * panicking chain crashes and a failed chain ends the run with an error.
   */
  method ExecuteStepsIntended(env: Invoker, bodyPresets: map<string, map<string, JsonValue>>,
                              headerPresets: map<string, map<string, string>>, filled: FilledWorkflow,
                              enterData: string)
    returns (r: StepsOutcome, ghost ran: seq<Int64>, ghost contexts: seq<string>, ghost stepEnds: seq<seq<ChainEnd>>)
    ensures IntendedOutcome(env, bodyPresets, headerPresets, filled, enterData, r, ran, contexts, stepEnds)
    ensures !r.Blocked?
    ensures filled == map[] ==> r == Finished(enterData)
  {
    var pending: set<Int64> := filled.Keys;
    var context := enterData;
    ran, contexts, stepEnds := [], [enterData], [];
    while pending != {}
      invariant IntendedLoop(env, bodyPresets, headerPresets, filled, enterData, pending, ran, contexts, stepEnds)
      invariant |contexts| == |ran| + 1 && contexts[|ran|] == context
      decreases |pending|
    {
      ghost var least := Decimal.MinimumExists(pending);
      var key: Int64 :| key in pending && IsLeast(key, pending);
      assert key in filled;
      var outcome, ends := RunStepIntended(env, bodyPresets, headerPresets, filled[key], context);
      IntendedAdvance(env, bodyPresets, headerPresets, filled, enterData, pending, ran, contexts, stepEnds,
                      key, outcome, ends);
      ran, stepEnds := ran + [key], stepEnds + [ends];
      if !outcome.Finished? {
        return outcome, ran, contexts, stepEnds;
      }
      context := outcome.context;
      contexts := contexts + [context];
      pending := pending - {key};
    }
    IntendedFinishes(env, bodyPresets, headerPresets, filled, enterData, ran, contexts, stepEnds);
    return Finished(context), ran, contexts, stepEnds;
  }

  /**
   * Run with the intended step loop: the same loading and resolution, then
   * every step runs and the run always returns. A crash in a chain is a
   * panic, a failed result an ExecError, and a run whose every step
   * succeeded commits and returns the last step's joined responses.
   */
  method RunIntended(req: RunScriptRequest, tx: Transaction, scripts: ScriptStore, nodes: NodeStore, env: Invoker)
    returns (r: Result<string>, ghost script: Option<Scripts.Script>, ghost filled: Option<FilledWorkflow>,
             ghost steps: Option<StepsOutcome>, ghost ran: seq<Int64>, ghost contexts: seq<string>,
             ghost stepEnds: seq<seq<ChainEnd>>)
    ensures !tx.starts ==> r == Fail(TxError)
    ensures tx.starts && GetScriptById(scripts, req.id).None? ==> r == Fail(DatabaseError)
    ensures tx.starts && GetScriptById(scripts, req.id).Some?
            && !Scripts.FromModelSucceeds(GetScriptById(scripts, req.id).value) ==>
              r == Fail(ParseError)
    ensures r.Ok? ==> tx.starts && tx.commits
    ensures script.Some? <==> tx.starts && GetScriptById(scripts, req.id).Some?
                              && Scripts.FromModelSucceeds(GetScriptById(scripts, req.id).value)
    ensures script.Some? ==> Scripts.IsScriptOf(GetScriptById(scripts, req.id).value, script.value)
    ensures script.Some? ==> (filled.Some? <==> FillSucceeds(script.value.workflow, nodes))
    ensures script.Some? && filled.None? ==> r.Fail? && r.kind in {DatabaseError, ParseError, ValidationFailed}
    ensures filled.Some? ==> script.Some? && steps.Some?
                             && IntendedOutcome(env, script.value.bodyPresets, script.value.headerPresets, filled.value,
                                                req.enterData, steps.value, ran, contexts, stepEnds)
    ensures steps == Some(ChainPanicked) ==> r == Result.Panic
    ensures steps == Some(ChainFailed) ==> r == Fail(ExecError)
    ensures steps.Some? && steps.value.Finished? ==>
              r == (if tx.commits then Ok(steps.value.context) else Fail(TxError))
  {
    script, filled, steps, ran, contexts, stepEnds := None, None, None, [], [], [];
    if !tx.starts {
      return Fail(TxError), script, filled, steps, ran, contexts, stepEnds;
    }
    var model := GetScriptById(scripts, req.id);
    if model.None? {
      return Fail(DatabaseError), script, filled, steps, ran, contexts, stepEnds;
    }
    var loaded := Scripts.FromModel(model.value);
    if loaded.None? {
      return Fail(ParseError), script, filled, steps, ran, contexts, stepEnds;
    }
    script := loaded;
    var scriptMap := FillScriptMap(loaded.value.workflow, nodes);
    if !scriptMap.Ok? {
      return Fail(scriptMap.kind), script, filled, steps, ran, contexts, stepEnds;
    }
    filled := Some(scriptMap.value);
    var outcome;
    outcome, ran, contexts, stepEnds := ExecuteStepsIntended(env, loaded.value.bodyPresets, loaded.value.headerPresets,
                                                             scriptMap.value, req.enterData);
    steps := Some(outcome);
    match outcome {
      case ChainPanicked => r := Result.Panic;
      case ChainFailed => r := Fail(ExecError);
      case Finished(context) => r := if tx.commits then Ok(context) else Fail(TxError);
    }
  }

  /**
   * The single step of a script keyed 0 is run by the intended loop, and
   * it is the only step run, whether the run finishes, crashes or fails.
   */
  lemma StepZeroRunsIntended(env: Invoker, bodyPresets: map<string, map<string, JsonValue>>,
                             headerPresets: map<string, map<string, string>>, filled: FilledWorkflow,
                             enterData: string, r: StepsOutcome,
                             ran: seq<Int64>, contexts: seq<string>, stepEnds: seq<seq<ChainEnd>>)
    requires IntendedOutcome(env, bodyPresets, headerPresets, filled, enterData, r, ran, contexts, stepEnds)
    requires filled.Keys == {0}
    ensures ran == [0]
  {
    assert ran != [] by {
      assert 0 in filled;
    }
    assert forall t | 0 <= t < |ran| :: ran[t] == 0;
  }
}

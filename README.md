# warehouse-script: the workflow compiler and the run engine

warehouse-script stores **nodes** and **scripts**.

- A node is an HTTP endpoint together with a typed schema for its request body and headers. Each body field has a kind: `const`, `select`, `object`, `prompt` or `data`. Headers have the same kinds except `object` and `data`.
- A script is a **workflow**: numbered steps. Each step holds parallel **chains**, and a chain is a sequence of node ids. Beside the workflow a script keeps **presets**, the fixed values for each node's body fields and headers.

This project is a Dafny model of the system's core:

- `Nodes`: the schema of a node. It covers the checks a preset value must pass against a field or header spec (`CheckBodyField`, `CheckHeader`). It also covers the mapping between a node and its stored record, and the JSON decoding of a spec.
- `NodeValidation` and `NodeService`: admitting a new node. The body and header specs are validated, the node is stored, and the transaction is committed.
- `Scripts`: a script and its stored form. This covers how a step's JSON list is parsed into chains (`parseStep`), and how a script is written to and read back from its stored record.
- `ScriptCommon`: the compiler's checks.
  - The workflow may reference node ids only, and the referenced nodes are fetched.
  - Body and header presets are checked against those nodes.
  - The workflow is resolved into node records (`fillScriptMap`).
- `ScriptChain`: one chain at run time. Each node's request body is generated from its presets and the running value, the node is called, and the next running value is extracted from the response.
- `ScriptService`: `Create`, which compiles and stores a script, and `Run`, which loads a script, resolves it and executes its steps.

Supporting modules:

- `Json`: decoded JSON values.
- `Outcomes`: error kinds. A Go panic is an explicit `Panic` outcome.
- `Requests`: the handler request records.
- `Stores`: the repositories, as values.
- `Decimal`: `strconv.Itoa` and `strconv.Atoi` on 64-bit ints.

Modelling conventions:

- **Map iteration.** Go visits a map in an arbitrary order. Each such loop is a `method` that picks the next key with `:|`. Its contract holds for every visiting order. Where the order decides the result, the specification function returns the *set* of possible results. Examples are `CheckBodyField`, `FillOutcomes` and `ChainRun`.
- **Store calls.** A transaction is a value that says whether it starts, whether the insert succeeds and whether the commit succeeds. The inserts and commits a method performs are returned as a sequence of `Effect`s.
- **Goroutines.** Each chain of a step is evaluated as an independent computation. A run that would block for ever is the outcome `Blocked` (in `Run`, `NeverReturns`).

The model follows the code, also where the code does something other than its structure, error messages and names evidently intend:

- Run's step loop starts at key 1, so step 0 never runs.
- Run joins a step's results by ranging over a channel that nobody closes, so a step that succeeds blocks the run.
- Create accepts unknown node ids. The store reports an error only when *none* of the ids exists, and later lookups see an unknown node as the zero node.
- A nested id list in a step keeps only its first id. In `Create` it is rejected anyway, because the `[]string` case of the workflow check never matches decoded JSON.
- A `select` header spec is refused only with more than two values, although its error message asks for more than one.
- A script does not survive being stored and read back. Non-empty presets are rejected when the record is read, and the chain keys are shifted by the padding the stored step lists carry.
- `Add` and `Create` return the zero id, because the repositories return the record they were given, whose id is still unset. For `Create` this path is never reached against a real database: the script INSERT binds `:workflow` (internal/repository/operations/script/postgres.go:42-43) while the record tags that field `db:"nodes"` (internal/repository/models/script.go:15), so the insert always fails.

## Model

| member | source | states |
|---|---|---|
| Decimal.Atoi | internal/service/script/service.go:62-66 | a parsed step key is a 64-bit int; text parses only if it is an optional sign followed by at least one digit and nothing else, so empty text, a lone sign or any other character is an error |
| Decimal.AtoiDigits | internal/service/script/service.go:62-66 | digits whose value fits a 64-bit int parse to that value, with leading zeros and with or without a plus sign |
| Decimal.AtoiNegated | internal/service/script/service.go:62-66 | a minus sign and digits whose negated value fits a 64-bit int parse to that negated value |
| Decimal.AtoiItoa | internal/domain/script.go:114 | parsing the decimal form of any 64-bit int gives the int back |
| Decimal.ItoaInjective | internal/domain/script.go:114 | distinct step keys are stored under distinct strings |
| Stores.GetByIds | internal/repository/operations/nodes/postgres.go:63-75 | returns rows iff the store is up and at least one id exists; the rows are exactly the requested ids the store holds |
| Stores.GetScriptById | internal/repository/operations/script/postgres.go:26-38 | returns the stored record iff the store is up and holds the id |
| Nodes.DecodeBodyField | internal/domain/nodes.go:52-56 | a body spec decodes only from null or an object; decoded values come from the object's "values" list |
| Nodes.DecodeHeader | internal/domain/nodes.go:58-62 | a header spec decodes only from null or an object |
| Nodes.DecodeEncodeBodyField | internal/domain/nodes.go:136-148 | decoding the stored JSON form of a body spec gives the spec back |
| Nodes.DecodeEncodeHeader | internal/domain/nodes.go:150-162 | decoding the stored JSON form of a header spec gives the spec back |
| Nodes.FirstFailure | internal/domain/nodes.go:113-117 | the nested check accepts iff every nested field accepts; every nested rejection or panic is a possible result, and no other result is |
| Nodes.CheckBodyField | internal/domain/nodes.go:64-121 | a check never has an empty set of outcomes, and an accepting check has no other outcome |
| Nodes.ConstFieldVerdict | internal/domain/nodes.go:65-74 | a const field accepts exactly its one string value and rejects anything that is not a string |
| Nodes.SelectFieldVerdict | internal/domain/nodes.go:76-90 | a select field accepts exactly the strings in its list |
| Nodes.ObjectFieldVerdict | internal/domain/nodes.go:92-118 | an object field rejects a non-object and accepts an object iff every nested spec accepts the nested value |
| Nodes.MissingNestedFieldRejected | internal/domain/nodes.go:113-117 | a missing value for a nested const, select or object field makes the whole object rejected |
| Nodes.FreeKindsAccept | internal/domain/nodes.go:64-121 | prompt, data and unknown kinds accept any value |
| Nodes.CheckHeader | internal/domain/nodes.go:123-133 | a const header accepts only its value and panics without one; a select header accepts only listed values; other kinds accept anything |
| Nodes.RequiredNotConsulted | internal/domain/nodes.go:64-133 | the `required` flag never changes a field or header check |
| Nodes.NodeFromModel | internal/domain/nodes.go:177-220 | reading a stored node succeeds iff every stored body and header spec decodes |
| Nodes.ToModel | internal/domain/nodes.go:135-175 | the stored record is the mapping of the node |
| Nodes.EncodeBodyLoop | internal/domain/nodes.go:136-148 | the stored body holds every field's spec in JSON form |
| Nodes.EncodeHeadersLoop | internal/domain/nodes.go:150-162 | the stored headers hold every header's spec in JSON form |
| Nodes.FromModel | internal/domain/nodes.go:177-220 | reading a record gives the node of the mapping, or fails exactly when a spec does not decode |
| Nodes.DecodeBodyLoop | internal/domain/nodes.go:178-191 | succeeds iff every body spec decodes, with each key mapped to its decoded spec |
| Nodes.DecodeHeadersLoop | internal/domain/nodes.go:193-206 | succeeds iff every header spec decodes, with each key mapped to its decoded spec |
| Nodes.NodeRoundTrip | internal/domain/nodes.go:170 | storing and reading a node gives it back with no id and with its request mime in place of its response mime |
| Nodes.NodeRoundTripIntended | internal/domain/nodes.go:135-220 | with the response mime stored, a node reads back unchanged except for the unset id |
| NodeValidation.ValidateHeader | internal/service/node/common.go:11-42 | never panics; undecodable specs are a ParseError; accepted iff every spec keeps the const, select and prompt multiplicity rules; the result is the decoded specs |
| NodeValidation.ValidateBody | internal/service/node/common.go:44-106 | never panics; accepts a body iff it is empty; a ParseError points at an undecodable spec, possibly nested |
| NodeValidation.ValidateBodyIntended | internal/service/node/common.go:60-103 | never panics; accepts iff every field keeps the rule of its own kind, nested object specs recursively; the result is the decoded specs |
| NodeValidation.CheckFieldSpec | internal/service/node/common.go:61-102 | true iff one decoded spec keeps the rule of its own kind |
| NodeValidation.ValidSpecNeverPanics | internal/domain/nodes.go:64-121 | a preset check against a spec that keeps the schema rules never panics |
| NodeValidation.ConstSchemaValid | internal/service/node/common.go:74-80 | a body with one well-formed const field keeps the schema rules, yet is not empty |
| NodeService.Add | internal/service/node/service.go:43-88 | no store call unless the body is empty and the headers pass; then exactly one insert of the node's record, a commit only after it, and the node returned with the zero id |
| NodeService.AddIntended | internal/service/node/service.go:43-88 | the same sequence with the intended body validation and mapping: every schema-valid node with accepted headers is inserted with its own response mime |
| Scripts.ParsedStep | internal/domain/script.go:21-37 | a position holds a chain iff its entry is a string or a list; a chain has at most one id |
| Scripts.ChainOf | internal/domain/script.go:24-33 | one entry yields at most one node id |
| Scripts.ParseStep | internal/domain/script.go:21-37 | the parsed step is `ParsedStep` of the list |
| Scripts.NestedListKeepsFirst | internal/domain/script.go:28 | a nested id list keeps only its first id |
| Scripts.StepToJson | internal/domain/script.go:107-112 | a stored step is as many nulls as it has chains, then each chain's JSON, in the order the map was visited |
| Scripts.ToModel | internal/domain/script.go:87-130 | the record holds name, author and API key, the marshalled presets and each step stored under its decimal key |
| Scripts.MarshalBodyPresets | internal/domain/script.go:88-95 | every node's body presets become a byte cell under the same key |
| Scripts.MarshalHeaderPresets | internal/domain/script.go:97-104 | every node's header presets become a byte cell under the same key |
| Scripts.StoreWorkflow | internal/domain/script.go:106-115 | the stored workflow has one decimal key per step, holding that step's stored list |
| Scripts.DecodeWorkflow | internal/domain/script.go:40-43 | a decoded workflow has the keys of the stored object |
| Scripts.ParseWorkflow | internal/domain/script.go:45-54 | succeeds iff every key parses as a decimal int; each step is the parse of its list |
| Scripts.UnwrapBodyPresets | internal/domain/script.go:56-64 | succeeds iff every cell holds a decoded object, whose fields become the presets |
| Scripts.UnwrapHeaderPresets | internal/domain/script.go:66-74 | succeeds iff every cell holds a string map, which becomes the presets |
| Scripts.FromModel | internal/domain/script.go:39-85 | reading a record succeeds iff the workflow decodes, its keys parse and the preset cells unwrap; the script carries the record's fields |
| Scripts.ChainOfEncoded | internal/domain/script.go:24-33 | an empty chain is stored as null; a stored chain reads back as its first id |
| Scripts.ReparseStep | internal/domain/script.go:107-112 | re-parsing a stored step gives its chains at positions shifted past the padding |
| Scripts.StoredStepReparse | internal/domain/script.go:107-112 | every chain read back sits at a position from n to 2n-1 and holds exactly one id |
| Scripts.PaddingShiftsChains | internal/domain/script.go:108-112 | chain 0 holding two ids reads back as chain 1 holding one |
| Scripts.ScriptRoundTrip | internal/domain/script.go:39-130 | a stored script reads back iff it has no presets; then name, author, key and step keys survive and each step reads back shifted |
| Scripts.StoredWorkflowParses | internal/domain/script.go:106-115 | a stored workflow decodes and every key parses back to a step key of the script |
| Scripts.StoredPresetsRejected | internal/domain/script.go:56-74 | stored presets unwrap iff they were empty |
| Scripts.StoredWorkflowReadBack | internal/domain/script.go:40-54 | reading back a stored workflow gives the same step keys, each step shifted |
| Scripts.NestedListKeepsAllIntended | internal/domain/script.go:28 | with nested lists flattened recursively, a nested list of ids is one chain of all of them, and a list nested inside it contributes its ids in place |
| Scripts.StepRoundTripIntended | internal/domain/script.go:108-112 | a step with chain keys 0 .. n-1, stored as a list of length n with chain k at index k and parsed keeping every id of a nested list, reads back unchanged |
| Scripts.PresetRoundTripIntended | internal/domain/script.go:94 | body presets stored as objects pass the body type assertion and unwrap to the same presets; header presets pass the header assertion when the stored cell is a string map |
| ScriptCommon.DecodeRows | internal/service/script/common.go:228-234 | succeeds iff every fetched row decodes, keyed by its id |
| ScriptCommon.CollectStepIds | internal/service/script/common.go:209-221 | succeeds iff every entry of the step is a string, collecting those ids |
| ScriptCommon.CollectIds | internal/service/script/common.go:209-221 | succeeds iff the workflow holds only id strings, collecting every referenced id |
| ScriptCommon.ValidateWorkflow | internal/service/script/common.go:206-237 | never panics; a non-string entry is ValidationFailed, a failed fetch DatabaseError, an undecodable row ParseError; otherwise exactly the found nodes |
| ScriptCommon.NodeOrZero | internal/service/script/common.go:135 | a node the lookup does not know is the zero node, with no body, no headers and an empty id |
| ScriptCommon.RequiredFieldsOf | internal/service/script/common.go:122-127 | the names of exactly the required body fields |
| ScriptCommon.RequiredHeadersOf | internal/service/script/common.go:167-172 | the names of exactly the required headers |
| ScriptCommon.RequiredFieldsByNode | internal/service/script/common.go:120-129 | each used node mapped to its required body fields |
| ScriptCommon.RequiredHeadersByNode | internal/service/script/common.go:165-174 | each used node mapped to its required headers |
| ScriptCommon.CheckNodeBodyPresets | internal/service/script/common.go:135-158 | accepted iff every preset names a field of the node that accepts it and every required field has a preset; a panic comes from a panicking field check |
| ScriptCommon.CheckNodeHeaderPresets | internal/service/script/common.go:177-200 | accepted iff every preset names a header of the node that accepts it and every required header has a preset; a panic comes from a const header with no value |
| ScriptCommon.ValidateBodyPresets | internal/service/script/common.go:118-162 | accepted iff every node's body presets are accepted; failures are ValidationFailed; a panic needs a panicking check |
| ScriptCommon.ValidateHeaderPresets | internal/service/script/common.go:164-204 | accepted iff every node's header presets are accepted; failures are ValidationFailed; a panic needs a panicking check |
| ScriptCommon.CollectNodeIds | internal/service/script/common.go:72-77 | every node id the workflow references |
| ScriptCommon.CollectStepNodeIds | internal/service/script/common.go:74-76 | every node id one step references |
| ScriptCommon.FillChain | internal/service/script/common.go:96-106 | succeeds iff every id of the chain is known, resolving each position to its node |
| ScriptCommon.FillStep | internal/service/script/common.go:94-108 | succeeds iff every id of the step is known, resolving every chain |
| ScriptCommon.FillWorkflow | internal/service/script/common.go:92-112 | succeeds iff every referenced id is known, resolving every step |
| ScriptCommon.FillScriptMap | internal/service/script/common.go:71-115 | never panics; a failed fetch is DatabaseError, an undecodable row ParseError, an unknown id ValidationFailed; otherwise the resolved workflow |
| ScriptCommon.AllKnownIffStored | internal/service/script/common.go:79-112 | resolution succeeds iff the store holds every referenced id |
| ScriptCommon.ResolvedIds | internal/service/script/common.go:99-106 | each resolved position holds the node whose id the workflow names there |
| ScriptChain.Combine | internal/service/script/common.go:266-306 | an object fill succeeds iff every field fill can succeed, giving an object with exactly those keys; every field error is a possible result |
| ScriptChain.FieldFill | internal/service/script/common.go:266-306 | filling one field has at least one possible outcome, and a success is the only possible outcome |
| ScriptChain.FillOutcomes | internal/service/script/common.go:257-311 | filling a body has at least one possible outcome, and a success is the only possible outcome, whatever order the fields are visited in |
| ScriptChain.NestedFill | internal/service/script/common.go:273-303 | an object field with a map spec fills as the nested body with the nested presets |
| ScriptChain.FilledObjectShape | internal/service/script/common.go:257-311 | a generated body has exactly the preset fillable fields; data fields carry the running value, prompt, const and select fields their preset, object fields an object |
| ScriptChain.GenerateNodeFilledObject | internal/service/script/common.go:257-311 | the generated body is one of the possible fill outcomes |
| ScriptChain.FillField | internal/service/script/common.go:266-306 | the filled field is one of the field's possible outcomes |
| ScriptChain.FillHalts | internal/service/script/common.go:31-39 | a failed fill ends the chain with an error result before any call |
| ScriptChain.NodeRun | internal/service/script/common.go:31-61 | one node either ends the chain, after at most one call and with an error result, or hands on a next value |
| ScriptChain.ChainRun | internal/service/script/common.go:17-69 | a chain always has some end |
| ScriptChain.ChainEnds | internal/service/script/common.go:17-69 | at most one call per node; a successful result comes after calling every node and carries the last node's response mime; a failed result is the empty error result |
| ScriptChain.CallNode | internal/service/script/common.go:31-61 | the node's run either halts the chain with one of its halts or yields the extracted answer |
| ScriptChain.ChainHandler | internal/service/script/common.go:17-69 | the chain's end is one of its possible ends |
| ScriptService.CheckRequest | internal/service/script/service.go:61-83 | the first error in key parsing or workflow checks is returned; otherwise accepted iff the presets pass, giving the parsed workflow |
| ScriptService.Create | internal/service/script/service.go:54-112 | nothing is stored unless the request is admissible; then one insert of the built script's record, a commit only after it, and the script returned with the zero id |
| ScriptService.Store | internal/service/script/service.go:95-109 | one insert of the script's record, a commit only after a successful insert, and the script returned with the zero id |
| ScriptService.ChainKeys | internal/service/script/service.go:143-150 | the present chain keys below the bound, each once, in ascending order |
| ScriptService.LaunchStep | internal/service/script/service.go:143-152 | every present chain key below the bound (len(step) in Run) runs once, in ascending order, from the step's input |
| ScriptService.Drain | internal/service/script/service.go:155-162 | fails iff some result failed; otherwise every result's response once, in the order the results were read |
| ScriptService.ExecuteSteps | internal/service/script/service.go:135-166 | only the first present key in 1..len-1 runs; it panics, fails or blocks; with no such key the input comes back unchanged |
| ScriptService.Run | internal/service/script/service.go:114-173 | load and fill errors are reported by kind; with a step scheduled the run fails, panics or never returns; otherwise it returns its input |
| ScriptService.StepZeroSkipped | internal/service/script/service.go:136 | a script whose only step is 0 runs no step |
| ScriptService.FewStepsRunNothing | internal/service/script/service.go:136 | a script with fewer than two steps runs no step |
| ScriptService.JoinLength | internal/service/script/service.go:164 | the joined text is the responses' total length plus one separator between each pair |
| ScriptService.TwoChainsJoined | internal/service/script/service.go:164 | two successful results whose responses are "X" and "Y" hand on "X. Y" |
| ScriptService.AllChainKeys | internal/service/script/service.go:143-150 | every chain key of a step, each once, in ascending order: the launch order the intended loop uses |
| ScriptService.ChainBound | internal/service/script/service.go:143 | a loop bound above every chain key of the step |
| ScriptService.StepLaunchesEveryChain | internal/service/script/service.go:143-150 | launched by AllChainKeys, every chain of the step has exactly one end, which is one of that chain's ends |
| ScriptService.ShiftedChainLaunched | internal/service/script/service.go:143 | a step read back with its one chain at key 1 launches that chain, where Run's bound of len(step) launches none |
| ScriptService.RunStepIntended | internal/service/script/service.go:139-164 | every chain of the step runs, whatever its key; the step panics iff a chain crashed, fails iff a result failed, otherwise hands on the join of the responses in chain-key order; it never blocks |
| ScriptService.ExecuteStepsIntended | internal/service/script/service.go:135-166 | every step runs in ascending key order, with all its chains, each from the join of the one before, until one crashes or fails; it never blocks; with no steps the input comes back |
| ScriptService.RunIntended | internal/service/script/service.go:114-173 | load and fill errors as in Run; then every step runs with all its chains, a crashed step panics, a failed step is ExecError, and a finished run returns the last step's join if the commit succeeds |
| ScriptService.StepZeroRunsIntended | internal/service/script/service.go:136 | in every outcome of the intended loop (finished, crashed or failed), a script whose only step is 0 runs exactly step 0 |

## Left out

- HTTP calls, the gojsonq path lookup and json.Marshal of a request body are parameters of the `Invoker` value (`call`, `find`). Timeouts, status codes and headers on the wire are not modelled. The call returns the body whatever the HTTP status.
- Goroutines, the WaitGroup and the channel. The chains of a step are evaluated independently. The order in which results are read from the channel is an arbitrary permutation (`Drain`). A panicking chain crashes the process before the main goroutine can act.
- `json.Marshal` of decoded values is taken never to fail. encoding/json's case-insensitive key matching is not modelled. A spec decodes by exact key names.
- The repositories' SQL, column selection and row scanning are not modelled, nor the logger and error-message texts. The stores are values. The script SELECT names the alias `n` with no FROM clause and filters on `s.id` (internal/repository/operations/script/common.go:20-23, internal/repository/operations/script/postgres.go:27), so against a real database every `Run` ends in DatabaseError and every `Create` insert fails. The free `GetScriptById` and insert outcome of the model include these runs.
- `defer tx.Rollback()` is not an effect. No effect follows a failed step.
- Handlers, authentication, configuration and the server are not part of this model.
- ScriptService.ExecuteStepsIntended: joins the responses in chain-key order, which makes the join deterministic. The code reads the channel in arrival order.
- Scripts.StepRoundTripIntended and Scripts.PresetRoundTripIntended: the intended storage is modelled as functions with their round-trip lemmas. No second `ToModel`/`FromModel` pipeline uses them.
- Scripts.PresetRoundTripIntended: the header half takes the stored cell to be a string map. The real JSON column decodes a header object into `map[string]interface{}`, so the header fix also needs a changed read-side assertion, which is not modelled.
- ScriptService.Run: does not say what a successful step would hand on, because no step that runs can let the run return.

## Findings

| source | as written | input that shows it | evidently intended | confidence | as-written member | corrected member |
|---|---|---|---|---|---|---|
| internal/service/script/service.go:136 | the step loop starts at key 1 and stops below the number of steps | a script whose only step has key 0: no node is called and the input comes back | every step runs, in ascending key order, from the lowest key | not executed | ScriptService.StepZeroSkipped | ScriptService.StepZeroRunsIntended |
| internal/service/script/service.go:156 | ranges over the step's channel, which is never closed | any step whose chains all succeed: the loop blocks after reading every result | read one result per chain, then join them with ". " | not executed | ScriptService.ExecuteSteps | ScriptService.ExecuteStepsIntended |
| internal/service/script/service.go:143 | chains are launched for keys 0 .. len(step)-1 only | a step read back with its one chain at key 1: no chain is launched | launch every chain of the step, in ascending key order | not executed | ScriptService.ShiftedChainLaunched | ScriptService.RunStepIntended |
| internal/domain/nodes.go:170 | the record's response mime is the node's request mime | a node with request mime "application/json" and response mime "text/plain" reads back with "application/json" | store the response mime | not executed | Nodes.NodeRoundTrip | Nodes.NodeRoundTripIntended |
| internal/service/node/common.go:61-80 | each kind check rejects every field of another kind in its else branch | body `{"lang": {"type": "const", "values": ["en"]}}` is rejected | check each field only against the rule of its own kind | not executed | NodeValidation.ConstSchemaValid | NodeValidation.ValidateBodyIntended |
| internal/domain/script.go:108-112 | the step list is created with its length and the chains are then appended | a step whose chain 0 holds two ids reads back as chain 1 holding one id | create the list with the step's length and put chain k at index k (`step[k] = chainValue`); creating it empty with that capacity and appending would still store the chains in map-iteration order without their keys | not executed | Scripts.PaddingShiftsChains | Scripts.StepRoundTripIntended |
| internal/domain/script.go:28 | a nested list keeps only its own chain 0 | the entry `["a", "b"]` becomes the chain `["a"]` | keep every id of the nested list, flattening lists nested inside it recursively | not executed | Scripts.NestedListKeepsFirst | Scripts.NestedListKeepsAllIntended |
| internal/domain/script.go:94 | presets are stored as marshalled bytes, but reading requires a decoded map | any script with a body preset cannot be read back | store the presets as objects; for headers the read side must also change, since the JSON column decodes an object into `map[string]interface{}`, which the `map[string]string` assertion at internal/domain/script.go:68 rejects | not executed | Scripts.StoredPresetsRejected | Scripts.PresetRoundTripIntended |

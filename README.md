# JAQL record pipelines in Dafny

JAQL transforms JSON/YAML documents with a small relational pipeline. A document is first
normalised into a list of records, where a record is one dict. An ordered list of pipes then
transforms the records:

- `select` keeps the records on which a Python expression is truthy;
- `project` keeps the listed top-level fields;
- `derive` adds fields computed from expressions.

Expressions are evaluated by `safe_eval`, which limits the built-ins, binds `rec` and `get`,
and turns every error into `False`. A multi-stage specification runs named stages. Each stage
reads one input document and has its own pipes; optional `outputs` then rename and select the
stage results. Two validators check configurations without running them:

- `validate_pipeline` collects one message per ill-typed pipe;
- `load_pipeline` stops at the first structural defect.

`validate_pipeline_file` combines them for a whole file.

The model has one module per source file, plus three modules for the values those files work on:

| module | file | models |
|---|---|---|
| `Wrappers` | wrappers.dfy | `Option` and `Result` |
| `Values` | values.dfy | JSON values; dicts as insertion-ordered association lists with Python's assignment (`Set`) and lookup |
| `Python` | python.dfy | the Python semantics the core relies on: truthiness, `==`, ordering, `in`, `[]`, iteration, `+ - *`, `str`/`int` of integers, and the exceptions as `PyError` |
| `Utils` | utils.dfy | jaql/utils.py: the `safe_eval` boundary over an expression AST, `deep_get`, `deep_set`, `is_list_of_dicts`, `normalize_to_records` |
| `Io` | io.dfy | jaql/io.py: `normalize_to_records` |
| `Pipes` | pipes.dfy | jaql/pipes.py: the three operators and `apply_pipeline` |
| `Parser` | parser.dfy | jaql/parser.py: `validate_pipeline` and the structural checks of `load_pipeline` |
| `Runner` | runner.dfy | jaql/runner.py: the single-stage run, the multi-stage executor, and the structural part of `validate_pipeline_file` |

The source's loops are written as Dafny methods with loop invariants. Each method is proved equal
to a specification function, for example `Pipes.PipeSelect` to `Pipes.Select` and
`Runner.RunPipelineMultiStage` to `Runner.RunMultiStage`. The properties are lemmas about those
functions. Python can raise on wrongly shaped configuration values; such a raise is an explicit
`Failure` with the Python exception, not a precondition. Examples: iterating a number, testing
`in` on an int pipe, a list used as a dict key, `.items()` of a non-dict.

Behaviour worth noting:

- A failed `derive` expression stores `False`, not null (jaql/utils.py:43-45).
- `project` looks up each field name literally. There is no dotted-path traversal (jaql/pipes.py:67).
- `validate_pipeline` does not check that a pipe holds exactly one operation. It looks only at the
  first of `select`, `project`, `derive` that the pipe contains (jaql/parser.py:53-68). Only
  `load_pipeline` checks the number of keys.
- No validator parses the expressions. A syntactically wrong `select` string passes validation and
  selects nothing at run time.

## Model

| member | source | states |
|---|---|---|
| Values.Set | jaql/pipes.py:68 | dict assignment `d[k] = v`: afterwards `k` maps to `v` and every other key keeps its value; an existing key keeps its position and a new key is appended last |
| Values.Lookup | jaql/pipes.py:67-68 | a lookup finds a value exactly when the key is present, and the pair is in the dict |
| Values.SetUnique | jaql/pipes.py:68 | assignment never creates a repeated key |
| Values.SetKeysDedup | jaql/runner.py:64 | assigning keys one after another leaves the distinct keys in order of first assignment |
| Python.IntStringRoundTrip | jaql/utils.py:24-25 | `int(str(n)) == n` for every integer |
| Utils.SafeBuiltinsLookup | jaql/utils.py:18-28 | each allow-listed name is bound in the safe table to its own built-in |
| Utils.SafeEvalOutcome | jaql/utils.py:14-45 | safe_eval never raises; a successful evaluation yields the expression's raw, uncoerced value, a failing one yields `False`; a truthy result means the evaluation succeeded with a truthy value |
| Utils.SafeEval | jaql/utils.py:9-45 | safe_eval never raises: its value is `False` or the value a successful evaluation of the parsed string produced |
| Utils.Resolve | jaql/utils.py:18-40 | a record field is seen by its bare name unless it is `get` or `rec`; a name fails only when it is none of `get`, `rec`, `__builtins__` or a field, and then with NameError or TypeError |
| Utils.Eval | jaql/utils.py:42 | a comparison or `not` that succeeds gives a bool; an `and` or `or` gives the result of one of its operands |
| Utils.SafeEvalSyntaxError | jaql/utils.py:14-15 | text that does not parse, or a non-string expression, evaluates to `False` |
| Utils.FieldShadowsBuiltin | jaql/utils.py:33-34 | a record field is visible by its bare name, hiding a built-in of the same name |
| Utils.BuiltinVisible | jaql/utils.py:18-31 | without such a field, a safe built-in's name denotes that built-in |
| Utils.UnknownNameFails | jaql/utils.py:110 | a name that is no field, not `rec`/`get` and no safe built-in fails, so safe_eval yields `False` |
| Utils.RecIsWholeRecord | jaql/utils.py:36-37 | `rec` is the whole record, even in a record with a field named `rec` |
| Utils.RecSubscript | jaql/utils.py:36-37 | `rec['k']` reads field `k` of any spelling; a missing field is a KeyError and hence `False` |
| Utils.GetFieldOrDefault | jaql/utils.py:39-40 | `get(k, d)` is the field's value when `k` is present, else `d`; `get(k)` defaults to None |
| Utils.BoolOpsReturnOperands | jaql/utils.py:42 | `and`/`or` return one of their operands, chosen by the left operand's truthiness |
| Utils.ExampleComparison | jaql/utils.py:97 | `age >= 18` is `True` on `{"age": 20}` and `False` on `{"age": 17}` |
| Utils.ExampleLen | jaql/utils.py:100 | `len(name)` on `{"name": "Alice"}` is 5 |
| Utils.ExampleHyphenatedKey | jaql/utils.py:103 | `rec['load-state'] == 'loaded'` is `True` on `{"load-state": "loaded"}` |
| Utils.ExampleGetField | jaql/utils.py:106 | `get('load-state') == 'loaded'` is `True` on `{"load-state": "loaded"}` |
| Utils.ExampleGetDefault | jaql/utils.py:107 | `get('nonexistent', 'default')` on `{}` is `'default'` |
| Utils.SplitJoin | jaql/utils.py:53 | `path.split('.')` loses nothing: the pieces contain no `.` and join back to the path |
| Utils.SplitWithoutSeparator | jaql/utils.py:53 | a path without `.` is one piece |
| Utils.DeepGet | jaql/utils.py:47-60 | the loop walking `current` returns what the dotted-path walk specifies: the nested value, or `default` at a missing key or a non-dict |
| Utils.DeepGetSingleKey | jaql/utils.py:52-60 | a key without `.` is a single lookup with the default for a missing key or a non-dict object |
| Utils.DeepGetThroughNonDict | jaql/utils.py:54-57 | reaching a non-dict while segments remain gives the default |
| Utils.DeepSetPath | jaql/utils.py:66-74 | walking the parts raises only TypeError, and a success binds the first part at the top level |
| Utils.DeepSet | jaql/utils.py:62-74 | deep_set raises only TypeError, and afterwards the path's first segment is a top-level key |
| Utils.DeepSetSucceedsIff | jaql/utils.py:66-74 | deep_set raises exactly when an existing intermediate along the path is not a dict |
| Utils.DeepSetFresh | jaql/utils.py:70-71 | below a missing key every intermediate is created, so the walk cannot fail |
| Utils.DeepSetThenGet | jaql/utils.py:66-74 | after deep_set succeeds, walking the same path reads the value back |
| Utils.DeepSetThenDeepGet | jaql/utils.py:47-74 | the same round trip for a dotted path text: `deep_get(deep_set(obj, p, v), p) == v` |
| Utils.DeepSetFrame | jaql/utils.py:69-74 | deep_set changes only the first segment's top-level entry, which is appended last when new; all other top-level keys keep their values |
| Utils.DeepSetCreatesIntermediates | jaql/utils.py:70-71 | `deep_set({}, "a.b", v)` gives `{"a": {"b": v}}` |
| Utils.IsListOfDicts | jaql/utils.py:76-78 | true exactly for lists whose every item is a dict, the empty list included |
| Utils.NormalizeToRecords | jaql/utils.py:80-91 | a list of dicts gives back exactly its records; anything else gives one record |
| Utils.NormalizeRecords | jaql/utils.py:87-88 | a list of dicts normalises to itself |
| Utils.NormalizeShapes | jaql/utils.py:80-91 | a dict becomes `[dict]`; a list of dicts is kept; a list with a non-dict item and any other value become `[{"value": data}]` |
| Io.NormalizeDocument | jaql/io.py:44-64 | a list gives one record per item; anything else gives one record |
| Io.NormalizeDocumentShapes | jaql/io.py:54-64 | a dict becomes `[dict]`; a list keeps its length and order, each dict item as it is and each other item as `{"value": item}`; any other value becomes `[{"value": doc}]` |
| Io.NormalizeDocumentOfRecords | jaql/io.py:54-57 | a list of dicts, the empty list included, is returned unchanged |
| Io.NormalizeDocumentIdempotent | jaql/io.py:54-64 | normalising twice equals normalising once |
| Io.UtilsNormalizeAfterDocument | jaql/io.py:54-64 | the utils normaliser is the identity on this normaliser's output |
| Io.MixedListNormalisersDiffer | jaql/io.py:59 | on `[1, {}]` io.py gives `[{"value": 1}, {}]` while utils.py gives `[{"value": [1, {}]}]` |
| Pipes.Select | jaql/pipes.py:46-50 | the selection is never longer than the input |
| Pipes.PipeSelect | jaql/pipes.py:35-50 | the loop's result is the select specification |
| Pipes.SelectIsSubsequence | jaql/pipes.py:46-50 | the result is the input at strictly increasing positions, and a position is kept exactly when safe_eval of the expression on its record is truthy |
| Pipes.SelectNone | jaql/pipes.py:48 | an expression falsy or failing on every record selects nothing |
| Pipes.SelectFailingExpression | jaql/pipes.py:48 | an expression whose evaluation fails on every record selects `[]` |
| Pipes.SelectAll | jaql/pipes.py:46-50 | an expression truthy on every record keeps the input unchanged |
| Pipes.ProjectOne | jaql/pipes.py:65-68 | the inner loop succeeds exactly when every requested field is hashable (else TypeError), and then builds the projected record |
| Pipes.PipeProject | jaql/pipes.py:52-70 | the loops' result is the project specification, raising TypeError for a non-iterable or unhashable field list only when there are records |
| Pipes.ProjectEach | jaql/pipes.py:63-70 | the outer loop: `[]` without records; otherwise TypeError unless the fields iterate to hashable values, and then every record projected |
| Pipes.Project | jaql/pipes.py:52-70 | project keeps the number of records, and raises only TypeError and only when there are records |
| Pipes.ProjectRecordLookup | jaql/pipes.py:65-68 | a projected record maps `k` to the record's value exactly when `k` was requested and is a key of the record; otherwise `k` is absent, never null |
| Pipes.ProjectRecordKeys | jaql/pipes.py:65-68 | the projected keys are the requested fields present in the record, in request order, each once |
| Pipes.ProjectRecordUnique | jaql/pipes.py:65-68 | a projection has no repeated key |
| Pipes.ProjectNoDottedPaths | jaql/pipes.py:67 | `"user.name"` is a literal key: projecting it from `{"user": {"name": "Ann"}}` gives `{}` |
| Pipes.ProjectRecordCongruent | jaql/pipes.py:66-68 | the projection reads only the requested fields of the record |
| Pipes.ProjectRecordIdempotent | jaql/pipes.py:66-68 | projecting a projected record on the same fields changes nothing |
| Pipes.ProjectIdempotent | jaql/pipes.py:63-70 | pipe_project applied twice with the same fields equals applying it once |
| Pipes.DeriveOne | jaql/pipes.py:86-88 | the inner loop sets each derived field on the copy to safe_eval of its expression on the original record |
| Pipes.PipeDerive | jaql/pipes.py:72-91 | the loops' result is the derive specification; with records present, derivations that are not a dict raise AttributeError |
| Pipes.Derive | jaql/pipes.py:72-91 | derive keeps the number of records; with a dict of derivations it never raises, whatever the expressions, and otherwise it can raise only AttributeError |
| Pipes.DeriveRecordLookup | jaql/pipes.py:86-88 | a derived field holds safe_eval of its expression on the original record, so no derivation sees another's result; every other field keeps the record's value |
| Pipes.DeriveRecordKeys | jaql/pipes.py:86-88 | the record's fields keep their positions and new derived fields follow them; the keys are exactly the record's and the derivations' |
| Pipes.ApplyOne | jaql/pipes.py:26-31 | one turn of the loop is the dispatch specification of one pipe |
| Pipes.ApplyPipeline | jaql/pipes.py:10-33 | the loop normalises the data, then applies the pipes in order, stopping with the first exception |
| Pipes.ApplyPipesFailurePersists | jaql/pipes.py:25-31 | once a prefix of the pipes raises, the whole pipeline raises the same |
| Pipes.ApplyPipesCompose | jaql/pipes.py:25-31 | running `ps + qs` is running `ps`, then `qs` on its result |
| Pipes.Apply | jaql/pipes.py:10-33 | a pipeline that is not iterable raises TypeError; an empty pipeline returns the normalised input |
| Pipes.DispatchPriority | jaql/pipes.py:26-31 | on a dict pipe `select` beats `project`, which beats `derive`; a pipe with none of them leaves the records unchanged |
| Parser.ValidatePipeline | jaql/parser.py:47-70 | the loop's messages are the validation specification, in pipe order |
| Parser.Issues | jaql/parser.py:53-68 | at most one issue per pipe; validation raises only the exception of some pipe's own check |
| Parser.Validate | jaql/parser.py:47-70 | a pipeline that is not iterable raises TypeError; otherwise there are never more messages than pipes |
| Parser.IssuesFailurePersists | jaql/parser.py:53-68 | once a pipe's check raises, validation raises the same |
| Parser.IssuesAscending | jaql/parser.py:53-68 | at most one issue per pipe, so never more issues than pipes, in strictly ascending pipe index |
| Parser.IssuesExact | jaql/parser.py:53-68 | pipe `i` has an issue exactly when its own check finds a defect, and then it is that defect |
| Parser.ValidateMessages | jaql/parser.py:53-68 | every message is `Pipe {i}: ...` for a defective pipe `i`, in ascending order, with that pipe's defect text |
| Parser.DictPipeDefect | jaql/parser.py:54-68 | a dict pipe passes exactly when its highest-priority operation is well typed; a pipe with none of the three keys passes, and other keys are never counted |
| Parser.NoIssuesIff | jaql/parser.py:53-70 | the message list is empty exactly when every pipe passes its own check |
| Parser.ProjectDefects | jaql/parser.py:58-62 | for `project`, "not a list" and "fields must be strings" are distinct, exclusive defects |
| Parser.DeriveDefects | jaql/parser.py:64-68 | for `derive`, "not an object" and "keys and values must be strings" are distinct, exclusive defects |
| Parser.PassedPipeApplies | jaql/parser.py:54-68 | a pipe that passes its check cannot make its operator raise |
| Parser.ValidPipelineApplies | jaql/parser.py:53-70 | a pipeline without messages runs without raising on any records |
| Parser.LoadPipeline | jaql/parser.py:20-45 | the checks return the `pipes` list, or the first defect: non-dict config, missing `pipes`, non-list `pipes`, then the pipes in order |
| Parser.LoadChecks | jaql/parser.py:20-45 | an accepted config is a dict, and the result is its `pipes` list itself |
| Parser.CheckPipesFirst | jaql/parser.py:33-43 | once a prefix of the pipes has a defect, that defect is the result |
| Parser.CheckPipesIff | jaql/parser.py:33-43 | no defect exactly when every pipe is a dict with exactly one known key; otherwise the error is that of the first pipe that is not |
| Parser.LoadSucceedsIff | jaql/parser.py:20-45 | load_pipeline accepts exactly a dict holding a list under `pipes` whose every item is well formed: a dict with exactly one key, and that key is one of `select`, `project`, `derive` |
| Parser.UnknownBeforeCount | jaql/parser.py:37-43 | a pipe with an unknown key reports unknown operations including that key; `{}` reports "exactly one operation" |
| Parser.LoadInvalidOperationExample | jaql/parser.py:37-40 | `pipes: [{invalid_operation: "test"}]` fails at pipe 0 with the unknown operation `invalid_operation` |
| Parser.LoadValidExample | jaql/parser.py:45 | a well-formed two-pipe config is returned as it is |
| Runner.RunSingleStage | jaql/runner.py:22-33 | the single-stage run is the pipes applied straight to the records; a non-iterable pipeline raises TypeError |
| Runner.StageRecords | jaql/runner.py:51-64 | one stage: its `input` document, range-checked, normalised by io.py and run through its pipes |
| Runner.OutputRecords | jaql/runner.py:71-74 | one output: the records of the stage its `from` names, or the source-not-found error |
| Runner.NamedOutputs | jaql/runner.py:68-75 | the outputs loop is the outputs specification |
| Runner.RunMultiStage | jaql/runner.py:35-78 | a spec that is not a dict raises TypeError at `spec["stages"]`, a dict without `stages` raises KeyError, and a successful run had a dict of stages |
| Runner.SubscriptedByName | jaql/runner.py:49 | `spec[name]` succeeds exactly on a dict holding that key; any other spec raises TypeError |
| Runner.RunPipelineMultiStage | jaql/runner.py:35-78 | the executor is the multi-stage specification: stages in declared order with fail-fast, then the outputs when `outputs` is truthy |
| Runner.FoldFailurePersists | jaql/runner.py:49-64 | once an entry raises, no later stage or output affects the result |
| Runner.FoldFailFast | jaql/runner.py:49-75 | a failed run fails with the error of its first failing entry, every earlier entry having succeeded |
| Runner.FoldAllSucceed | jaql/runner.py:49-75 | a successful run ran every entry successfully |
| Runner.FoldKeys | jaql/runner.py:64 | the result holds one key per entry name, in declared order |
| Runner.FoldLookup | jaql/runner.py:64 | with distinct names, each name is bound to its own entry's records |
| Runner.InputOutOfRangeError | jaql/runner.py:53-54 | a numeric `input` at least the number of documents raises the out-of-range error naming the stage, the index and the count |
| Runner.DefaultInputIsFirst | jaql/runner.py:51 | `input` defaults to 0, so with no documents such a stage is out of range at index 0 |
| Runner.StageResultIsPipeline | jaql/runner.py:57-64 | a successful stage read an existing document, negative indices wrapping as in Python, and its result is the pipes applied to that document's records |
| Runner.PipesFallback | jaql/runner.py:60 | the operator list is `pipes` when truthy, else `steps`, else `[]` |
| Runner.NoOutputsKeys | jaql/runner.py:66-78 | with `outputs` absent or empty, the result's keys are exactly the stage names in order |
| Runner.OutputKeys | jaql/runner.py:69-75 | with outputs, the result's keys are exactly the output names in order |
| Runner.OutputSources | jaql/runner.py:70-74 | each output is bound to the records of the executed stage its `from` names |
| Runner.MultiStageResult | jaql/runner.py:49-64 | without outputs, each stage name is bound to that stage's own result |
| Runner.UnreferencedStagesAbsent | jaql/runner.py:68-75 | with non-empty outputs, a name that is not an output name is absent from the result |
| Runner.MissingSourceError | jaql/runner.py:72-73 | an output whose `from` names no stage raises the error naming the output and the source |
| Runner.FileValid | jaql/runner.py:169-215 | only a dict spec can be valid: a list, string, number, bool or None fails |
| Runner.ValidatePipelineFile | jaql/runner.py:169-211 | the loop returns the file-validity specification, stopping at the first non-dict stage, non-list operator list or stage with messages |
| Runner.ValidFileStagesApply | jaql/runner.py:175-191 | every stage of a valid multi-stage file runs its pipes without raising, on any input |
| Runner.ValidFilePipesApply | jaql/runner.py:196-211 | a valid single-stage file has `pipes`, and they run without raising on any input |

## Left out

- `ast.parse`: the host parser is the parameter `parse` of type `ExprParser`. Python's grammar is not part of this model.
- Expressions cover constants, names, list displays, subscripts, calls, comparisons, `+ - *`, unary minus, `not`, `and`, `or` and conditional expressions. Other forms are left out: attribute access and method calls, chained comparisons, `/ // % **`, `is`, dict displays, slices and lambdas.
- Floating point: there are no float values, and a `float(...)` call fails, so safe_eval gives `False`.
- `str()` of a list, dict or function fails instead of producing its text; `int()` of a string accepts surrounding whitespace, a sign and ASCII digits only.
- Calls take positional arguments only. Keyword arguments, such as `get('k', default=0)`, `min(xs, default=0)` and `sum(xs, start=1)`, cannot be written in the expression model.
- `int(s, base)` with two arguments raises TypeError in the model. Python converts `s` in that base.
- Function values compare by what they are made of, not by identity. `get` functions are equal when made for the same record, and built-ins when they have the same name. In Python, two `get` functions from separate safe_eval calls are different objects and never equal. So after `derive: {a: "get", b: "get"}`, the expression `a == b` is true in the model and false in Python.
- Dict keys are strings only. Non-string YAML keys are not modelled, so the key half of the `derive` check always holds.
- `Utils.Resolve`: it is a name-resolution function. It does not model `safe_globals` being built by successive dictionary updates, and no `eval` globals object exists.
- `Utils.DeepSet`: the result is a new record rather than an in-place update, so aliasing of nested dicts is not captured. A TypeError arises only before any dict is created, so the failure case is exact.
- The claim that `pipe_derive` does not modify its input records holds by construction on values, and is not a separate lemma.
- `Runner.FoldLookup`, `Runner.OutputSources`, `Runner.MultiStageResult`: stated for distinct stage or output names, as every Python dict has. A model dict may repeat a key, and then the last binding counts.
- `Parser.ValidateMessages`: states the message texts for some issue list with the proved properties; the issue list itself is `Parser.Issues`.
- Exception messages of the executor and of `load_pipeline` are datatypes carrying the same data (stage, index, count; output, source; pipe index, unknown keys), not formatted text.
- I/O and plumbing are left out: `load_stream` (YAML/JSON parsing), `output_result`, `load_from_file_or_stdin`, `load_pipeline_spec`, `run_pipeline`, the file and YAML part of `load_pipeline`, the prints of `validate_pipeline_file`, jaql/cli.py and jaql/__init__.py.
- The in-file test function of jaql/utils.py is not modelled as code; its assertions are the `Utils.Example*` and `Utils.UnknownNameFails` lemmas.

/**
  jaql/runner.py: the single-stage wrapper, the multi-stage executor (named stages over a list of
  input documents, with optional renamed outputs), and the structural part of the pipeline-file
  validator, on a specification that has already been read from YAML.
*/
module Runner {
  import opened Wrappers
  import opened Values
  import opened Python
  import opened Utils
  import Io
  import Pipes
  import Parser

  /** The exceptions of a multi-stage run: one the code raises itself, or one of Python's. */
  datatype RunError =
    | Raised(error: PyError)
    | InputOutOfRange(stage: string, index: Value, count: nat)
    | SourceNotFound(output: string, source: Value)

  /** Stage or output name to its records, in insertion order. */
  type Results = seq<(string, seq<Record>)>

  function Raise<T>(r: Result<T, PyError>): Result<T, RunError> {
    r.MapFailure(e => Raised(e))
  }

  // ---------------------------------------------------------------------------------------------
  // Single stage

  /** `run_pipeline_single_stage(records, pipeline)`. */
  function RunSingleStage(parse: ExprParser, records: seq<Record>, pipeline: Value): (r: Result<seq<Record>, PyError>)
    ensures pipeline.List? ==> r == Pipes.ApplyPipes(parse, records, pipeline.items)
    ensures Iter(pipeline).None? ==> r == Failure(TypeError)
  {
    NormalizeRecords(records);
    Pipes.Apply(parse, RecordsValue(records), pipeline)
  }

  // ---------------------------------------------------------------------------------------------
  // Multi-stage

  /** `stage_config.get("input", 0)`. */
  function InputIndex(config: Record): Value {
    Lookup(config, "input").GetOr(Int(0))
  }

  /** `stage_config.get("pipes") or stage_config.get("steps", [])`. */
  function PipesOf(config: Record): Value {
    var p := Lookup(config, "pipes").GetOr(Null);
    if Truthy(p) then p else Lookup(config, "steps").GetOr(List([]))
  }

  /** One stage: the pipeline applied to the normalised input document. */
  function RunStage(parse: ExprParser, docs: seq<Value>, name: string, config: Value): Result<seq<Record>, RunError> {
    if !config.Dict? then Failure(Raised(AttributeError))
    else
      var idx := InputIndex(config.fields);
      match Compare(idx, Int(|docs|))
      case None => Failure(Raised(TypeError))
      case Some(c) =>
        if c >= 0 then Failure(InputOutOfRange(name, idx, |docs|))
        else
          var doc :- Raise(GetItem(List(docs), idx));
          Raise(Pipes.Apply(parse, RecordsValue(Io.NormalizeDocument(doc)), PipesOf(config.fields)))
  }

  /** How one stage or output turns its name and configuration into records. */
  type EntryRun = (string, Value) -> Result<seq<Record>, RunError>

  /**
    The loop shared by the stages and the outputs: the entries in declared order, each run by
    `run` and its records bound to its name, stopping at the first that raises.
  */
  function FoldNamed(run: EntryRun, entries: seq<(string, Value)>): Result<Results, RunError> {
    if entries == [] then Success([])
    else
      var prev :- FoldNamed(run, entries[..|entries| - 1]);
      var last := entries[|entries| - 1];
      var result :- run(last.0, last.1);
      Success(Set(prev, last.0, result))
  }

  /** `RunStage` over the given documents. */
  function StageRunner(parse: ExprParser, docs: seq<Value>): EntryRun {
    (name, config) => RunStage(parse, docs, name, config)
  }

  /** The loop over the stages of `run_pipeline_multi_stage`. */
  function RunStages(parse: ExprParser, docs: seq<Value>, stages: seq<(string, Value)>): Result<Results, RunError> {
    FoldNamed(StageRunner(parse, docs), stages)
  }

  /** One output: the results of the stage its `from` names. */
  function SourceOf(results: Results, name: string, config: Value): Result<seq<Record>, RunError> {
    var source :- Raise(GetItem(config, Str("from")));
    if !Hashable(source) then Failure(Raised(TypeError))
    else if !(source.Str? && source.s in Keys(results)) then Failure(SourceNotFound(name, source))
    else Success(Lookup(results, source.s).value)
  }

  /** `SourceOf` over the given stage results. */
  function OutputSource(results: Results): EntryRun {
    (name, config) => SourceOf(results, name, config)
  }

  /** The loop over the outputs of `run_pipeline_multi_stage`. */
  function OutputsFrom(results: Results, outputs: seq<(string, Value)>): Result<Results, RunError> {
    FoldNamed(OutputSource(results), outputs)
  }

  /** `outputs_spec.items()`: the outputs must be a dict. */
  function SelectOutputs(results: Results, outputs: Value): Result<Results, RunError> {
    if !outputs.Dict? then Failure(Raised(AttributeError)) else OutputsFrom(results, outputs.fields)
  }

  /** `spec.get("outputs", {})`. */
  function OutputsOf(spec: Record): Value {
    Lookup(spec, "outputs").GetOr(Dict([]))
  }

  /** Only a name can subscript a dict: any other spec raises at `spec[name]`. */
  lemma {:induction false} SubscriptedByName(spec: Value, name: string)
    ensures GetItem(spec, Str(name)).Success? <==> spec.Dict? && name in Keys(spec.fields)
    ensures !spec.Dict? ==> GetItem(spec, Str(name)) == Failure(TypeError)
  {
    assert !IsNumber(Str(name));
  }

  /** `run_pipeline_multi_stage(docs, spec)`. */
  function RunMultiStage(parse: ExprParser, docs: seq<Value>, spec: Value): (r: Result<Results, RunError>)
    ensures !spec.Dict? ==> r == Failure(Raised(TypeError))
    ensures spec.Dict? && "stages" !in Keys(spec.fields) ==> r == Failure(Raised(KeyError))
    ensures r.Success? ==> spec.Dict? && "stages" in Keys(spec.fields) && Lookup(spec.fields, "stages").value.Dict?
  {
    SubscriptedByName(spec, "stages");
    var stages :- Raise(GetItem(spec, Str("stages")));
    if !stages.Dict? then Failure(Raised(AttributeError))
    else
      var results :- RunStages(parse, docs, stages.fields);
      // `spec.get` on a non-dict; `spec["stages"]` has already raised for every such spec
      if !spec.Dict? then Failure(Raised(AttributeError))
      else if Truthy(OutputsOf(spec.fields)) then SelectOutputs(results, OutputsOf(spec.fields))
      else Success(results)
  }

  /** One output of `run_pipeline_multi_stage`: the source stage named by `from`, which must exist. */
  method OutputRecords(results: Results, name: string, config: Value) returns (r: Result<seq<Record>, RunError>)
    ensures r == SourceOf(results, name, config)
  {
    var source :- Raise(GetItem(config, Str("from")));
    if !Hashable(source) {
      return Failure(Raised(TypeError));
    }
    if !(source.Str? && source.s in Keys(results)) {
      return Failure(SourceNotFound(name, source));
    }
    return Success(Lookup(results, source.s).value);
  }

  /** The loop over the outputs of `run_pipeline_multi_stage`. */
  method NamedOutputs(results: Results, outputs: Value) returns (r: Result<Results, RunError>)
    ensures r == SelectOutputs(results, outputs)
  {
    if !outputs.Dict? {
      return Failure(Raised(AttributeError));
    }
    var items := outputs.fields;
    var named: Results := [];
    for i := 0 to |items|
      invariant OutputsFrom(results, items[..i]) == Success(named)
    {
      var (name, config) := items[i];
      var records := OutputRecords(results, name, config);
      if records.Failure? {
        FoldStepFailure(OutputSource(results), items, i);
        return Failure(records.error);
      }
      FoldStepSuccess(OutputSource(results), items, i);
      named := Set(named, name, records.value);
    }
    assert items[..|items|] == items;
    return Success(named);
  }

  /** One stage of `run_pipeline_multi_stage`: its input document, normalised, through its pipes. */
  method StageRecords(parse: ExprParser, docs: seq<Value>, name: string, config: Value) returns (r: Result<seq<Record>, RunError>)
    ensures r == RunStage(parse, docs, name, config)
  {
    if !config.Dict? {
      return Failure(Raised(AttributeError));
    }
    var docIndex := InputIndex(config.fields);
    var c := Compare(docIndex, Int(|docs|));
    if c.None? {
      return Failure(Raised(TypeError));
    }
    if c.value >= 0 {
      return Failure(InputOutOfRange(name, docIndex, |docs|));
    }
    var doc :- Raise(GetItem(List(docs), docIndex));
    var records := Io.NormalizeDocument(doc);
    var pipes := PipesOf(config.fields);
    var result := Pipes.ApplyPipeline(parse, RecordsValue(records), pipes);
    if result.Failure? {
      return Failure(Raised(result.error));
    }
    return Success(result.value);
  }

  /** `run_pipeline_multi_stage(docs, spec)`. */
  method RunPipelineMultiStage(parse: ExprParser, docs: seq<Value>, spec: Value) returns (r: Result<Results, RunError>)
    ensures r == RunMultiStage(parse, docs, spec)
  {
    var entry := GetItem(spec, Str("stages"));
    if entry.Failure? {
      return Failure(Raised(entry.error));
    }
    SubscriptedByName(spec, "stages");
    var stages := entry.value;
    if !stages.Dict? {
      return Failure(Raised(AttributeError));
    }
    var items := stages.fields;
    var stageResults: Results := [];
    for i := 0 to |items|
      invariant RunStages(parse, docs, items[..i]) == Success(stageResults)
    {
      var (name, config) := items[i];
      var result := StageRecords(parse, docs, name, config);
      if result.Failure? {
        FoldStepFailure(StageRunner(parse, docs), items, i);
        return Failure(result.error);
      }
      FoldStepSuccess(StageRunner(parse, docs), items, i);
      stageResults := Set(stageResults, name, result.value);
    }
    assert items[..|items|] == items;
    var outputs := OutputsOf(spec.fields);
    if Truthy(outputs) {
      r := NamedOutputs(stageResults, outputs);
    } else {
      r := Success(stageResults);
    }
  }

  /** Once a prefix of the entries raises, the whole loop raises the same: no later entry matters. */
  lemma {:induction false} FoldFailurePersists(run: EntryRun, entries: seq<(string, Value)>, n: nat)
    requires n <= |entries|
    ensures FoldNamed(run, entries[..n]).Failure? ==>
      FoldNamed(run, entries) == FoldNamed(run, entries[..n])
    decreases |entries| - n
  {
    if n < |entries| {
      var init := entries[..|entries| - 1];
      assert init[..n] == entries[..n];
      FoldFailurePersists(run, init, n);
    } else {
      assert entries[..n] == entries;
    }
  }

  /** A turn of the loop whose entry raises ends the loop with that error. */
  lemma {:induction false} FoldStepFailure(run: EntryRun, entries: seq<(string, Value)>, i: nat)
    requires i < |entries| && FoldNamed(run, entries[..i]).Success?
    requires run(entries[i].0, entries[i].1).Failure?
    ensures FoldNamed(run, entries) == Failure(run(entries[i].0, entries[i].1).error)
  {
    FoldStepPrefix(run, entries, i);
    FoldFailurePersists(run, entries, i + 1);
  }

  /** A turn of the loop whose entry succeeds binds its records to its name. */
  lemma {:induction false} FoldStepSuccess(run: EntryRun, entries: seq<(string, Value)>, i: nat)
    requires i < |entries| && FoldNamed(run, entries[..i]).Success?
    requires run(entries[i].0, entries[i].1).Success?
    ensures FoldNamed(run, entries[..i + 1])
      == Success(Set(FoldNamed(run, entries[..i]).value, entries[i].0, run(entries[i].0, entries[i].1).value))
  {
    FoldStepPrefix(run, entries, i);
  }

  /** The prefix one longer ends with the next entry. */
  lemma {:induction false} FoldStepPrefix(run: EntryRun, entries: seq<(string, Value)>, i: nat)
    requires i < |entries|
    ensures entries[..i + 1][..i] == entries[..i] && entries[..i + 1][i] == entries[i]
  {
  }

  /** A successful loop ran its earlier entries successfully. */
  lemma {:induction false} FoldInit(run: EntryRun, entries: seq<(string, Value)>)
    requires entries != [] && FoldNamed(run, entries).Success?
    ensures FoldNamed(run, entries[..|entries| - 1]).Success?
  {
  }

  /** A successful loop ran its last entry successfully and bound its records to its name. */
  lemma {:induction false} FoldLast(run: EntryRun, entries: seq<(string, Value)>)
    requires entries != [] && FoldNamed(run, entries).Success?
    ensures run(entries[|entries| - 1].0, entries[|entries| - 1].1).Success?
    ensures FoldNamed(run, entries).value
      == Set(FoldNamed(run, entries[..|entries| - 1]).value, entries[|entries| - 1].0,
             run(entries[|entries| - 1].0, entries[|entries| - 1].1).value)
  {
    var last := entries[|entries| - 1];
    assert FoldNamed(run, entries[..|entries| - 1]).Success?;
    assert run(last.0, last.1).Success?;
  }

  /** A failed loop either failed in its earlier entries, with their error, or in its last entry. */
  lemma {:induction false} FoldFailure(run: EntryRun, entries: seq<(string, Value)>)
    requires entries != [] && FoldNamed(run, entries).Failure?
    ensures FoldNamed(run, entries[..|entries| - 1]).Failure? ==>
      FoldNamed(run, entries[..|entries| - 1]).error == FoldNamed(run, entries).error
    ensures FoldNamed(run, entries[..|entries| - 1]).Success? ==>
      run(entries[|entries| - 1].0, entries[|entries| - 1].1)
        == Failure(FoldNamed(run, entries).error)
  {
  }

  /** A failed loop fails with the error of its first failing entry; every entry before it succeeded. */
  lemma {:induction false} FoldFailFast(run: EntryRun, entries: seq<(string, Value)>)
    requires FoldNamed(run, entries).Failure?
    ensures exists i ::
      && 0 <= i < |entries|
      && run(entries[i].0, entries[i].1) == Failure(FoldNamed(run, entries).error)
      && forall j :: 0 <= j < i ==> run(entries[j].0, entries[j].1).Success?
  {
    var init := entries[..|entries| - 1];
    FoldFailure(run, entries);
    if FoldNamed(run, init).Failure? {
      FoldFailFast(run, init);
      var i :| 0 <= i < |init|
        && run(init[i].0, init[i].1) == Failure(FoldNamed(run, init).error)
        && forall j :: 0 <= j < i ==> run(init[j].0, init[j].1).Success?;
      forall j | 0 <= j <= i ensures init[j] == entries[j] {
      }
    } else {
      FoldAllSucceed(run, init);
      forall j | 0 <= j < |init| ensures init[j] == entries[j] {
      }
    }
  }

  /** A successful loop means every entry succeeded. */
  lemma {:induction false} FoldAllSucceed(run: EntryRun, entries: seq<(string, Value)>)
    requires FoldNamed(run, entries).Success?
    ensures forall j :: 0 <= j < |entries| ==> run(entries[j].0, entries[j].1).Success?
  {
    if entries != [] {
      var init := entries[..|entries| - 1];
      FoldInit(run, entries);
      FoldLast(run, entries);
      FoldAllSucceed(run, init);
      forall j | 0 <= j < |init| ensures run(entries[j].0, entries[j].1).Success? {
        assert init[j] == entries[j];
      }
    }
  }

  /** The result holds one key per entry name, in declared order. */
  lemma {:induction false} FoldKeys(run: EntryRun, entries: seq<(string, Value)>)
    requires FoldNamed(run, entries).Success?
    ensures Keys(FoldNamed(run, entries).value) == Dedup(Keys(entries))
  {
    if entries != [] {
      var init := entries[..|entries| - 1];
      var last := entries[|entries| - 1];
      FoldInit(run, entries);
      FoldKeys(run, init);
      assert Keys(FoldNamed(run, entries).value) == Dedup(Keys(init) + [last.0]) by {
        FoldLast(run, entries);
        SetKeysDedup(FoldNamed(run, init).value, Keys(init), last.0, run(last.0, last.1).value);
      }
      assert Keys(entries) == Keys(init) + [last.0];
    }
  }

  /** With distinct entry names, each name is bound to its own entry's records. */
  lemma {:induction false} FoldLookup(run: EntryRun, entries: seq<(string, Value)>, i: nat)
    requires FoldNamed(run, entries).Success? && UniqueKeys(entries) && i < |entries|
    ensures run(entries[i].0, entries[i].1).Success?
    ensures Lookup(FoldNamed(run, entries).value, entries[i].0) == Some(run(entries[i].0, entries[i].1).value)
  {
    var init := entries[..|entries| - 1];
    var last := entries[|entries| - 1];
    FoldLast(run, entries);
    if i < |init| {
      FoldInit(run, entries);
      assert UniqueKeys(init);
      FoldLookup(run, init, i);
      assert init[i] == entries[i];
      assert entries[i].0 != last.0;
    }
  }

  /** A stage whose `input` is a number at least the number of documents is out of range. */
  lemma {:induction false} InputOutOfRangeError(parse: ExprParser, docs: seq<Value>, name: string, config: Record)
    requires IsNumber(InputIndex(config)) && Num(InputIndex(config)) >= |docs|
    ensures RunStage(parse, docs, name, Dict(config)) == Failure(InputOutOfRange(name, InputIndex(config), |docs|))
  {
  }

  /** `input` defaults to 0, so with no documents a stage without `input` is out of range at index 0. */
  lemma {:induction false} DefaultInputIsFirst(parse: ExprParser, name: string, config: Record)
    requires "input" !in Keys(config)
    ensures InputIndex(config) == Int(0)
    ensures RunStage(parse, [], name, Dict(config)) == Failure(InputOutOfRange(name, Int(0), 0))
  {
  }

  /**
    A stage that succeeds read an existing input document; its result is the pipeline applied
    to that document's records, the second normalisation inside apply_pipeline changing nothing.
  */
  lemma {:induction false} StageResultIsPipeline(parse: ExprParser, docs: seq<Value>, name: string, config: Record)
    requires RunStage(parse, docs, name, Dict(config)).Success?
    ensures var idx := InputIndex(config);
      && IsNumber(idx) && -|docs| <= Num(idx) < |docs|
      && var j := if Num(idx) < 0 then Num(idx) + |docs| else Num(idx);
         && Iter(PipesOf(config)).Some?
         && Pipes.ApplyPipes(parse, Io.NormalizeDocument(docs[j]), Iter(PipesOf(config)).value)
            == Success(RunStage(parse, docs, name, Dict(config)).value)
  {
    var idx := InputIndex(config);
    var j := if Num(idx) < 0 then Num(idx) + |docs| else Num(idx);
    assert GetItem(List(docs), idx) == Success(docs[j]);
    var records := Io.NormalizeDocument(docs[j]);
    var applied := Pipes.Apply(parse, RecordsValue(records), PipesOf(config));
    assert RunStage(parse, docs, name, Dict(config)) == Raise(applied);
    Io.UtilsNormalizeAfterDocument(docs[j]);
    assert applied == Pipes.ApplyPipes(parse, records, Iter(PipesOf(config)).value);
  }

  /** The operator list is `pipes` when truthy, else `steps`, else empty. */
  lemma {:induction false} PipesFallback(config: Record)
    ensures "pipes" in Keys(config) && Truthy(Lookup(config, "pipes").value) ==> PipesOf(config) == Lookup(config, "pipes").value
    ensures !("pipes" in Keys(config) && Truthy(Lookup(config, "pipes").value)) && "steps" in Keys(config)
            ==> PipesOf(config) == Lookup(config, "steps").value
    ensures !("pipes" in Keys(config) && Truthy(Lookup(config, "pipes").value)) && "steps" !in Keys(config)
            ==> PipesOf(config) == List([])
  {
  }

  /** Without outputs, or with empty outputs, the result is keyed by exactly the stage names. */
  lemma {:induction false} NoOutputsKeys(parse: ExprParser, docs: seq<Value>, spec: Record)
    requires RunMultiStage(parse, docs, Dict(spec)).Success?
    requires !Truthy(OutputsOf(spec))
    ensures Lookup(spec, "stages").Some? && Lookup(spec, "stages").value.Dict?
    ensures Keys(RunMultiStage(parse, docs, Dict(spec)).value) == Dedup(Keys(Lookup(spec, "stages").value.fields))
  {
    FoldKeys(StageRunner(parse, docs), Lookup(spec, "stages").value.fields);
  }

  /** Named outputs: one key per output name, in declared order. */
  lemma {:induction false} OutputKeys(results: Results, outputs: seq<(string, Value)>)
    requires OutputsFrom(results, outputs).Success?
    ensures Keys(OutputsFrom(results, outputs).value) == Dedup(Keys(outputs))
    ensures forall k :: k !in Keys(outputs) ==> Lookup(OutputsFrom(results, outputs).value, k) == None
  {
    FoldKeys(OutputSource(results), outputs);
  }

  /** With distinct output names, each output is bound to the result of the stage its `from` names. */
  lemma {:induction false} OutputSources(results: Results, outputs: seq<(string, Value)>, i: nat)
    requires OutputsFrom(results, outputs).Success? && UniqueKeys(outputs) && i < |outputs|
    ensures GetItem(outputs[i].1, Str("from")).Success?
    ensures var source := GetItem(outputs[i].1, Str("from")).value;
      && source.Str? && source.s in Keys(results)
      && Lookup(OutputsFrom(results, outputs).value, outputs[i].0) == Lookup(results, source.s)
  {
    FoldLookup(OutputSource(results), outputs, i);
  }

  /** Without outputs and with distinct stage names, each stage name is bound to that stage's records. */
  lemma {:induction false} MultiStageResult(parse: ExprParser, docs: seq<Value>, spec: Record, i: nat)
    requires RunMultiStage(parse, docs, Dict(spec)).Success? && !Truthy(OutputsOf(spec))
    requires Lookup(spec, "stages").Some? && Lookup(spec, "stages").value.Dict?
    requires UniqueKeys(Lookup(spec, "stages").value.fields) && i < |Lookup(spec, "stages").value.fields|
    ensures var (name, config) := Lookup(spec, "stages").value.fields[i];
      && RunStage(parse, docs, name, config).Success?
      && Lookup(RunMultiStage(parse, docs, Dict(spec)).value, name) == Some(RunStage(parse, docs, name, config).value)
  {
    FoldLookup(StageRunner(parse, docs), Lookup(spec, "stages").value.fields, i);
  }

  /** With non-empty outputs, stage names that are not output names are absent from the result. */
  lemma {:induction false} UnreferencedStagesAbsent(parse: ExprParser, docs: seq<Value>, spec: Record, k: string)
    requires RunMultiStage(parse, docs, Dict(spec)).Success?
    requires Truthy(OutputsOf(spec))
    ensures OutputsOf(spec).Dict?
    ensures k !in Keys(OutputsOf(spec).fields) ==> Lookup(RunMultiStage(parse, docs, Dict(spec)).value, k) == None
  {
    var results := RunStages(parse, docs, Lookup(spec, "stages").value.fields).value;
    OutputKeys(results, OutputsOf(spec).fields);
  }

  /** An output whose `from` names no stage raises, naming the output and the source, once earlier outputs succeeded. */
  lemma {:induction false} MissingSourceError(results: Results, outputs: seq<(string, Value)>, i: nat, source: string)
    requires i < |outputs| && OutputsFrom(results, outputs[..i]).Success?
    requires GetItem(outputs[i].1, Str("from")) == Success(Str(source)) && source !in Keys(results)
    ensures OutputsFrom(results, outputs) == Failure(SourceNotFound(outputs[i].0, Str(source)))
  {
    assert outputs[..i + 1][..i] == outputs[..i];
    FoldFailurePersists(OutputSource(results), outputs, i + 1);
  }

  // ---------------------------------------------------------------------------------------------
  // validate_pipeline_file

  /** One stage passes: a dict whose operator list is a list with no validation message. */
  predicate StageValid(config: Value) {
    config.Dict? && PipesOf(config.fields).List? && Parser.Validate(PipesOf(config.fields)) == Success([])
  }

  /**
    The structural check of `validate_pipeline_file`: True or False, any exception counting as
    False.  A spec with `stages` needs a dict of valid stages; one without needs valid `pipes`.
  */
  predicate FileValid(spec: Value): (ok: bool)
    ensures ok ==> spec.Dict?
  {
    match Contains(spec, Str("stages"))
    case Failure(_) => false
    case Success(true) =>
      (match GetItem(spec, Str("stages"))
       case Failure(_) => false
       case Success(stages) => stages.Dict? && forall i :: 0 <= i < |stages.fields| ==> StageValid(stages.fields[i].1))
    case Success(false) =>
      (match Contains(spec, Str("pipes"))
       case Success(true) =>
         (match GetItem(spec, Str("pipes"))
          case Success(pipeline) => Parser.Validate(pipeline) == Success([])
          case Failure(_) => false)
       case _ => false)
  }

  /** `validate_pipeline_file` after loading: the loop over the stages returns at the first bad one. */
  method ValidatePipelineFile(spec: Value) returns (ok: bool)
    ensures ok == FileValid(spec)
  {
    var hasStages := Contains(spec, Str("stages"));
    if hasStages.Failure? {
      return false;
    }
    if hasStages.value {
      var stagesItem := GetItem(spec, Str("stages"));
      if stagesItem.Failure? || !stagesItem.value.Dict? {
        return false;
      }
      var stages := stagesItem.value.fields;
      for i := 0 to |stages|
        invariant forall j :: 0 <= j < i ==> StageValid(stages[j].1)
      {
        var config := stages[i].1;
        if !config.Dict? {
          return false;
        }
        var pipes := PipesOf(config.fields);
        if !pipes.List? {
          return false;
        }
        var errors := Parser.ValidatePipeline(pipes);
        if errors.Failure? || errors.value != [] {
          return false;
        }
      }
      return true;
    } else {
      var hasPipes := Contains(spec, Str("pipes"));
      if hasPipes.Failure? || !hasPipes.value {
        return false;
      }
      var pipeline := GetItem(spec, Str("pipes"));
      if pipeline.Failure? {
        return false;
      }
      var errors := Parser.ValidatePipeline(pipeline.value);
      return errors.Success? && errors.value == [];
    }
  }

  /** A multi-stage file that validates has stages whose pipelines all run without raising, whatever the input. */
  lemma {:induction false} ValidFileStagesApply(parse: ExprParser, spec: Record, i: nat, data: Value)
    requires FileValid(Dict(spec)) && "stages" in Keys(spec)
    requires Lookup(spec, "stages").value.Dict? && i < |Lookup(spec, "stages").value.fields|
    ensures var config := Lookup(spec, "stages").value.fields[i].1;
      config.Dict? && Pipes.Apply(parse, data, PipesOf(config.fields)).Success?
  {
    var stages := Lookup(spec, "stages").value;
    assert Contains(Dict(spec), Str("stages")) == Success(true);
    assert GetItem(Dict(spec), Str("stages")) == Success(stages);
    var config := stages.fields[i].1;
    assert StageValid(config);
    var pipes := PipesOf(config.fields).items;
    Parser.ValidPipelineApplies(parse, NormalizeToRecords(data), pipes);
  }

  /** A single-stage file that validates has a pipeline that runs without raising. */
  lemma {:induction false} ValidFilePipesApply(parse: ExprParser, spec: Record, data: Value)
    requires FileValid(Dict(spec)) && "stages" !in Keys(spec)
    ensures "pipes" in Keys(spec)
    ensures Pipes.Apply(parse, data, Lookup(spec, "pipes").value).Success?
  {
    var pipeline := Lookup(spec, "pipes").value;
    var pipes := Iter(pipeline).value;
    Parser.ValidPipelineApplies(parse, NormalizeToRecords(data), pipes);
  }

}

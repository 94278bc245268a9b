/**
  jaql/parser.py: `validate_pipeline`, which collects one message per ill-typed pipe, and the
  structural checks of `load_pipeline`, which stop at the first defect, applied to a
  configuration that has already been read from YAML.
*/
module Parser {
  import opened Wrappers
  import opened Values
  import opened Python
  import opened Utils
  import Pipes

  // ---------------------------------------------------------------------------------------------
  // validate_pipeline

  /** What can be wrong with the argument of a pipe's operation. */
  datatype Defect =
    | SelectNotString
    | ProjectNotList
    | ProjectFieldNotString
    | DeriveNotDict
    | DeriveEntryNotString

  datatype Issue = Issue(index: nat, defect: Defect)

  function DefectText(d: Defect): string {
    match d
    case SelectNotString => "'select' must be a string expression"
    case ProjectNotList => "'project' must be a list of field names"
    case ProjectFieldNotString => "'project' fields must be strings"
    case DeriveNotDict => "'derive' must be an object mapping field names to expressions"
    case DeriveEntryNotString => "'derive' keys and values must be strings"
  }

  /** The message text `f"Pipe {i}: ..."`. */
  function Message(issue: Issue): string {
    "Pipe " + NatToString(issue.index) + ": " + DefectText(issue.defect)
  }

  function Messages(issues: seq<Issue>): (ms: seq<string>)
    ensures |ms| == |issues| && forall k :: 0 <= k < |issues| ==> ms[k] == Message(issues[k])
  {
    seq(|issues|, k requires 0 <= k < |issues| => Message(issues[k]))
  }

  predicate AllStrings(xs: seq<Value>) {
    forall i :: 0 <= i < |xs| ==> xs[i].Str?
  }

  /** Every key of a model dict is a string, so only the values need checking. */
  predicate AllStringValues(fs: seq<(string, Value)>) {
    forall i :: 0 <= i < |fs| ==> fs[i].1.Str?
  }

  /** The check of one pipe: only the first of `select`, `project`, `derive` it contains is looked at. */
  function PipeDefect(pipe: Value): Result<Option<Defect>, PyError> {
    var hasSelect :- Contains(pipe, Str("select"));
    if hasSelect then
      var v :- GetItem(pipe, Str("select"));
      Success(if v.Str? then None else Some(SelectNotString))
    else
      var hasProject :- Contains(pipe, Str("project"));
      if hasProject then
        var v :- GetItem(pipe, Str("project"));
        Success(if !v.List? then Some(ProjectNotList)
                else if !AllStrings(v.items) then Some(ProjectFieldNotString)
                else None)
      else
        var hasDerive :- Contains(pipe, Str("derive"));
        if hasDerive then
          var v :- GetItem(pipe, Str("derive"));
          Success(if !v.Dict? then Some(DeriveNotDict)
                  else if !AllStringValues(v.fields) then Some(DeriveEntryNotString)
                  else None)
        else Success(None)
  }

  /** The issues of the pipes, in pipe order. */
  function Issues(pipes: seq<Value>): (r: Result<seq<Issue>, PyError>)
    ensures r.Success? ==> |r.value| <= |pipes|
    ensures r.Failure? ==> exists i :: 0 <= i < |pipes| && PipeDefect(pipes[i]) == Failure(r.error)
  {
    if pipes == [] then Success([])
    else
      var prev :- Issues(pipes[..|pipes| - 1]);
      var d :- PipeDefect(pipes[|pipes| - 1]);
      Success(if d.Some? then prev + [Issue(|pipes| - 1, d.value)] else prev)
  }

  /** `validate_pipeline(pipeline)`. */
  function Validate(pipeline: Value): (r: Result<seq<string>, PyError>)
    ensures Iter(pipeline).None? ==> r == Failure(TypeError)
    ensures r.Success? ==> Iter(pipeline).Some? && |r.value| <= |Iter(pipeline).value|
  {
    var pipes :- IterOrRaise(pipeline);
    var issues :- Issues(pipes);
    Success(Messages(issues))
  }

  /** Once a prefix of the pipes raises, the whole validation raises the same. */
  lemma {:induction false} IssuesFailurePersists(pipes: seq<Value>, n: nat)
    requires n <= |pipes|
    ensures Issues(pipes[..n]).Failure? ==> Issues(pipes) == Issues(pipes[..n])
    decreases |pipes| - n
  {
    if n < |pipes| {
      var init := pipes[..|pipes| - 1];
      assert init[..n] == pipes[..n];
      IssuesFailurePersists(init, n);
    } else {
      assert pipes[..n] == pipes;
    }
  }

  /** `validate_pipeline(pipeline)`. */
  method ValidatePipeline(pipeline: Value) returns (r: Result<seq<string>, PyError>)
    ensures r == Validate(pipeline)
  {
    var pipes :- IterOrRaise(pipeline);
    var errors: seq<string> := [];
    for i := 0 to |pipes|
      invariant Issues(pipes[..i]).Success? && errors == Messages(Issues(pipes[..i]).value)
    {
      var d := PipeDefect(pipes[i]);
      if d.Failure? {
        IssuesStepFailure(pipes, i);
        return Failure(d.error);
      }
      IssuesStep(pipes, i);
      if d.value.Some? {
        MessagesSnoc(Issues(pipes[..i]).value, Issue(i, d.value.value));
        errors := errors + [Message(Issue(i, d.value.value))];
      }
    }
    assert pipes[..|pipes|] == pipes;
    return Success(errors);
  }

  /** A pipe whose check raises, after a prefix that does not, makes the validation raise that. */
  lemma {:induction false} IssuesStepFailure(pipes: seq<Value>, i: nat)
    requires i < |pipes| && Issues(pipes[..i]).Success? && PipeDefect(pipes[i]).Failure?
    ensures Issues(pipes) == Failure(PipeDefect(pipes[i]).error)
  {
    assert pipes[..i + 1][..i] == pipes[..i] && pipes[..i + 1][i] == pipes[i];
    IssuesFailurePersists(pipes, i + 1);
  }

  /** One more pipe whose check does not raise adds its issue, if any. */
  lemma {:induction false} IssuesStep(pipes: seq<Value>, i: nat)
    requires i < |pipes| && Issues(pipes[..i]).Success? && PipeDefect(pipes[i]).Success?
    ensures var prev, d := Issues(pipes[..i]).value, PipeDefect(pipes[i]).value;
      Issues(pipes[..i + 1]) == Success(if d.Some? then prev + [Issue(i, d.value)] else prev)
  {
    assert pipes[..i + 1][..i] == pipes[..i] && pipes[..i + 1][i] == pipes[i];
  }

  lemma {:induction false} MessagesSnoc(issues: seq<Issue>, issue: Issue)
    ensures Messages(issues + [issue]) == Messages(issues) + [Message(issue)]
  {
  }

  /** At most one issue per pipe: issues come in strictly ascending pipe order. */
  lemma {:induction false} IssuesAscending(pipes: seq<Value>)
    requires Issues(pipes).Success?
    ensures var iss := Issues(pipes).value;
      && |iss| <= |pipes|
      && (forall k :: 0 <= k < |iss| ==> iss[k].index < |pipes|)
      && (forall k, l :: 0 <= k < l < |iss| ==> iss[k].index < iss[l].index)
  {
    if pipes != [] {
      IssuesAscending(pipes[..|pipes| - 1]);
    }
  }

  /** Pipe i has an issue exactly when its own check finds a defect, and then it is that defect. */
  lemma {:induction false} IssuesExact(pipes: seq<Value>, i: nat)
    requires Issues(pipes).Success? && i < |pipes|
    ensures PipeDefect(pipes[i]).Success?
    ensures forall d :: Issue(i, d) in Issues(pipes).value <==> PipeDefect(pipes[i]) == Success(Some(d))
  {
    var init := pipes[..|pipes| - 1];
    IssuesAscending(init);
    if i < |init| {
      assert init[i] == pipes[i];
      IssuesExact(init, i);
    }
  }

  /** The messages are exactly `Pipe {i}: ...` for the defective pipes, in ascending order. */
  lemma {:induction false} ValidateMessages(pipeline: Value)
    requires Validate(pipeline).Success?
    ensures pipeline.List? || pipeline.Str? || pipeline.Dict?
    ensures var pipes, ms := Iter(pipeline).value, Validate(pipeline).value;
      exists iss: seq<Issue> ::
        && |iss| == |ms| && |iss| <= |pipes|
        && (forall k :: 0 <= k < |iss| ==> ms[k] == "Pipe " + NatToString(iss[k].index) + ": " + DefectText(iss[k].defect))
        && (forall k :: 0 <= k < |iss| ==> iss[k].index < |pipes| && PipeDefect(pipes[iss[k].index]) == Success(Some(iss[k].defect)))
        && (forall k, l :: 0 <= k < l < |iss| ==> iss[k].index < iss[l].index)
  {
    var pipes := Iter(pipeline).value;
    var iss := Issues(pipes).value;
    IssuesAscending(pipes);
    forall k | 0 <= k < |iss|
      ensures PipeDefect(pipes[iss[k].index]) == Success(Some(iss[k].defect))
    {
      IssuesExact(pipes, iss[k].index);
    }
  }

  /** The argument of a dict pipe's first operation is well typed. */
  predicate WellTypedPipe(pipe: Record) {
    if "select" in Keys(pipe) then Lookup(pipe, "select").value.Str?
    else if "project" in Keys(pipe) then
      var v := Lookup(pipe, "project").value;
      v.List? && AllStrings(v.items)
    else if "derive" in Keys(pipe) then
      var v := Lookup(pipe, "derive").value;
      v.Dict? && AllStringValues(v.fields)
    else true
  }

  /** A dict pipe passes exactly when its highest-priority operation is well typed; other keys are never counted. */
  lemma {:induction false} DictPipeDefect(pipe: Record)
    ensures PipeDefect(Dict(pipe)).Success?
    ensures PipeDefect(Dict(pipe)) == Success(None) <==> WellTypedPipe(pipe)
  {
  }

  /** The list of messages is empty exactly when every pipe passes its own check. */
  lemma {:induction false} NoIssuesIff(pipes: seq<Value>)
    ensures Issues(pipes) == Success([]) <==> forall i :: 0 <= i < |pipes| ==> PipeDefect(pipes[i]) == Success(None)
  {
    if pipes != [] {
      var init := pipes[..|pipes| - 1];
      NoIssuesIff(init);
      if Issues(init).Success? {
        IssuesAscending(init);
      }
      assert forall i :: 0 <= i < |init| ==> init[i] == pipes[i];
    }
  }

  /** For `project`, a wrong container and wrong elements are distinct, exclusive defects. */
  lemma {:induction false} ProjectDefects(pipe: Record)
    requires "select" !in Keys(pipe) && "project" in Keys(pipe)
    ensures var v := Lookup(pipe, "project").value;
      && (PipeDefect(Dict(pipe)) == Success(Some(ProjectNotList)) <==> !v.List?)
      && (PipeDefect(Dict(pipe)) == Success(Some(ProjectFieldNotString)) <==> v.List? && !AllStrings(v.items))
  {
  }

  /** For `derive`, likewise. */
  lemma {:induction false} DeriveDefects(pipe: Record)
    requires "select" !in Keys(pipe) && "project" !in Keys(pipe) && "derive" in Keys(pipe)
    ensures var v := Lookup(pipe, "derive").value;
      && (PipeDefect(Dict(pipe)) == Success(Some(DeriveNotDict)) <==> !v.Dict?)
      && (PipeDefect(Dict(pipe)) == Success(Some(DeriveEntryNotString)) <==> v.Dict? && !AllStringValues(v.fields))
  {
  }

  /** A pipe that passes its check cannot make its operator raise. */
  lemma {:induction false} PassedPipeApplies(parse: ExprParser, records: seq<Record>, pipe: Value)
    requires PipeDefect(pipe) == Success(None)
    ensures Pipes.ApplyPipe(parse, records, pipe).Success?
  {
  }

  /** A pipeline with no validation message runs without raising, on any records. */
  lemma {:induction false} ValidPipelineApplies(parse: ExprParser, records: seq<Record>, pipes: seq<Value>)
    requires Issues(pipes) == Success([])
    ensures Pipes.ApplyPipes(parse, records, pipes).Success?
  {
    NoIssuesIff(pipes);
    if pipes != [] {
      var init := pipes[..|pipes| - 1];
      NoIssuesIff(init);
      assert forall i :: 0 <= i < |init| ==> init[i] == pipes[i];
      ValidPipelineApplies(parse, records, init);
      PassedPipeApplies(parse, Pipes.ApplyPipes(parse, records, init).value, pipes[|pipes| - 1]);
    }
  }

  // ---------------------------------------------------------------------------------------------
  // load_pipeline's structural checks

  /** The ValueErrors of load_pipeline's structural checks. */
  datatype LoadError =
    | NotAnObject
    | MissingPipes
    | PipesNotList
    | PipeNotObject(index: nat)
    | UnknownOperations(index: nat, ops: set<string>)
    | NotExactlyOne(index: nat)

  const ValidOperations: set<string> := {"select", "project", "derive"}

  /** `set(pipe.keys())`. */
  function KeySet(fs: seq<(string, Value)>): set<string> {
    set k | k in Keys(fs)
  }

  /** The checks of loop iteration i: a dict, with only known keys, exactly one of them. */
  function CheckPipe(i: nat, pipe: Value): Option<LoadError> {
    if !pipe.Dict? then Some(PipeNotObject(i))
    else
      var ops := KeySet(pipe.fields);
      if !(ops <= ValidOperations) then Some(UnknownOperations(i, ops - ValidOperations))
      else if |ops| != 1 then Some(NotExactlyOne(i))
      else None
  }

  /** The first defective pipe's error. */
  function CheckPipes(pipes: seq<Value>): Option<LoadError> {
    if pipes == [] then None
    else
      var prev := CheckPipes(pipes[..|pipes| - 1]);
      if prev.Some? then prev else CheckPipe(|pipes| - 1, pipes[|pipes| - 1])
  }

  /** load_pipeline after reading the YAML: the `pipes` list itself, or the first defect found. */
  function LoadChecks(config: Value): (r: Result<seq<Value>, LoadError>)
    ensures r.Success? ==> config.Dict? && Lookup(config.fields, "pipes") == Some(List(r.value))
  {
    if !config.Dict? then Failure(NotAnObject)
    else if "pipes" !in Keys(config.fields) then Failure(MissingPipes)
    else
      var pipes := Lookup(config.fields, "pipes").value;
      if !pipes.List? then Failure(PipesNotList)
      else match CheckPipes(pipes.items)
        case Some(e) => Failure(e)
        case None => Success(pipes.items)
  }

  /** The structural part of `load_pipeline`. */
  method LoadPipeline(config: Value) returns (r: Result<seq<Value>, LoadError>)
    ensures r == LoadChecks(config)
  {
    if !config.Dict? {
      return Failure(NotAnObject);
    }
    if "pipes" !in Keys(config.fields) {
      return Failure(MissingPipes);
    }
    var pipes := Lookup(config.fields, "pipes").value;
    if !pipes.List? {
      return Failure(PipesNotList);
    }
    var items := pipes.items;
    for i := 0 to |items|
      invariant CheckPipes(items[..i]) == None
    {
      assert items[..i + 1][..i] == items[..i];
      var e := CheckPipe(i, items[i]);
      if e.Some? {
        CheckPipesFirst(items, i + 1);
        return Failure(e.value);
      }
    }
    assert items[..|items|] == items;
    return Success(items);
  }

  /** Once a prefix has a defect, that defect is the result. */
  lemma {:induction false} CheckPipesFirst(pipes: seq<Value>, n: nat)
    requires n <= |pipes|
    ensures CheckPipes(pipes[..n]).Some? ==> CheckPipes(pipes) == CheckPipes(pipes[..n])
    decreases |pipes| - n
  {
    if n < |pipes| {
      var init := pipes[..|pipes| - 1];
      assert init[..n] == pipes[..n];
      CheckPipesFirst(init, n);
    } else {
      assert pipes[..n] == pipes;
    }
  }

  /** A pipe load_pipeline accepts: a dict with exactly one key, a known operation. */
  predicate WellFormedPipe(pipe: Value) {
    pipe.Dict? && KeySet(pipe.fields) <= ValidOperations && |KeySet(pipe.fields)| == 1
  }

  /** CheckPipes finds nothing exactly when every pipe is well formed; otherwise it names the first bad one. */
  lemma {:induction false} CheckPipesIff(pipes: seq<Value>)
    ensures CheckPipes(pipes) == None <==> forall i :: 0 <= i < |pipes| ==> WellFormedPipe(pipes[i])
    ensures CheckPipes(pipes).Some? ==> exists i ::
      && 0 <= i < |pipes|
      && CheckPipes(pipes) == CheckPipe(i, pipes[i])
      && !WellFormedPipe(pipes[i])
      && forall j :: 0 <= j < i ==> WellFormedPipe(pipes[j])
  {
    if pipes != [] {
      var init := pipes[..|pipes| - 1];
      CheckPipesIff(init);
      assert forall i :: 0 <= i < |init| ==> init[i] == pipes[i];
    }
  }

  /**
    load_pipeline accepts exactly the configs that are dicts with a list under `pipes` whose
    every item is well formed, and then returns that list unchanged.
  */
  lemma {:induction false} LoadSucceedsIff(config: Value)
    ensures LoadChecks(config).Success? <==>
      && config.Dict? && "pipes" in Keys(config.fields)
      && Lookup(config.fields, "pipes").value.List?
      && forall i :: 0 <= i < |Lookup(config.fields, "pipes").value.items| ==>
           WellFormedPipe(Lookup(config.fields, "pipes").value.items[i])
  {
    if config.Dict? && "pipes" in Keys(config.fields) && Lookup(config.fields, "pipes").value.List? {
      CheckPipesIff(Lookup(config.fields, "pipes").value.items);
    }
  }

  /** An unknown key is reported as such, even alongside other keys; `{}` has not exactly one operation. */
  lemma {:induction false} UnknownBeforeCount(i: nat, pipe: Record, k: string)
    requires k in Keys(pipe) && k !in ValidOperations
    ensures CheckPipe(i, Dict(pipe)).Some? && CheckPipe(i, Dict(pipe)).value.UnknownOperations?
    ensures k in CheckPipe(i, Dict(pipe)).value.ops
    ensures CheckPipe(i, Dict([])) == Some(NotExactlyOne(i))
  {
    assert KeySet([]) == {};
  }

  /** `pipes: [{invalid_operation: "test"}]` is rejected at pipe 0 for an unknown operation. */
  lemma {:induction false} LoadInvalidOperationExample()
    ensures LoadChecks(Dict([("pipes", List([Dict([("invalid_operation", Str("test"))])]))]))
         == Failure(UnknownOperations(0, {"invalid_operation"}))
  {
    var pipe: Record := [("invalid_operation", Str("test"))];
    assert Keys(pipe) == ["invalid_operation"];
    assert KeySet(pipe) == {"invalid_operation"};
    assert KeySet(pipe) - ValidOperations == {"invalid_operation"};
    assert CheckPipe(0, Dict(pipe)) == Some(UnknownOperations(0, {"invalid_operation"}));
    var items := [Dict(pipe)];
    assert items[..0] == [];
    assert CheckPipes(items) == Some(UnknownOperations(0, {"invalid_operation"}));
    var config: Record := [("pipes", List(items))];
    assert Keys(config) == ["pipes"];
  }

  /** A well-formed two-pipe config is returned as it is. */
  lemma {:induction false} LoadValidExample()
    ensures var items := [Dict([("select", Str("age >= 18"))]), Dict([("project", List([Str("name"), Str("email")]))])];
      LoadChecks(Dict([("pipes", List(items))])) == Success(items)
  {
    var items := [Dict([("select", Str("age >= 18"))]), Dict([("project", List([Str("name"), Str("email")]))])];
    assert Keys(items[0].fields) == ["select"];
    assert KeySet(items[0].fields) == {"select"};
    assert Keys(items[1].fields) == ["project"];
    assert KeySet(items[1].fields) == {"project"};
    assert WellFormedPipe(items[0]) && WellFormedPipe(items[1]);
    CheckPipesIff(items);
    var config: Record := [("pipes", List(items))];
    assert Keys(config) == ["pipes"];
  }
}

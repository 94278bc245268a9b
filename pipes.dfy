/**
  jaql/pipes.py: the three record operators and the pipeline fold.

  Each operator is a specification function over the list of records and a method with the loops
  of the source, proved equal to it.  Operator arguments come straight from the configuration, so
  they can have any shape; where Python would raise on a wrongly shaped argument the operator
  fails with that exception.
*/
module Pipes {
  import opened Wrappers
  import opened Values
  import opened Python
  import opened Utils

  // ---------------------------------------------------------------------------------------------
  // select

  /** The records on which the expression is truthy, in their order. */
  function Select(parse: ExprParser, records: seq<Record>, expr: Value): (r: seq<Record>)
    ensures |r| <= |records|
  {
    if records == [] then []
    else
      var prev := Select(parse, records[..|records| - 1], expr);
      var last := records[|records| - 1];
      if Truthy(SafeEval(parse, expr, last)) then prev + [last] else prev
  }

  /** The positions of the kept records. */
  function KeptIndices(parse: ExprParser, records: seq<Record>, expr: Value): seq<nat> {
    if records == [] then []
    else
      var prev := KeptIndices(parse, records[..|records| - 1], expr);
      if Truthy(SafeEval(parse, expr, records[|records| - 1])) then prev + [|records| - 1] else prev
  }

  /** `pipe_select(records, expression)`. */
  method PipeSelect(parse: ExprParser, records: seq<Record>, expr: Value) returns (result: seq<Record>)
    ensures result == Select(parse, records, expr)
  {
    result := [];
    for i := 0 to |records|
      invariant result == Select(parse, records[..i], expr)
    {
      assert records[..i + 1][..i] == records[..i];
      if Truthy(SafeEval(parse, expr, records[i])) {
        result := result + [records[i]];
      }
    }
    assert records[..|records|] == records;
  }

  /**
    select keeps records in their original order: the result is the input at strictly increasing
    positions, and a position is kept exactly when the expression is truthy on its record.
  */
  lemma {:induction false} SelectIsSubsequence(parse: ExprParser, records: seq<Record>, expr: Value)
    ensures var r, ks := Select(parse, records, expr), KeptIndices(parse, records, expr);
      && |r| == |ks|
      && (forall k :: 0 <= k < |ks| ==> ks[k] < |records| && r[k] == records[ks[k]])
      && (forall k, l :: 0 <= k < l < |ks| ==> ks[k] < ks[l])
      && (forall i :: 0 <= i < |records| ==> (i in ks <==> Truthy(SafeEval(parse, expr, records[i]))))
  {
    if records != [] {
      var init := records[..|records| - 1];
      SelectIsSubsequence(parse, init, expr);
      var ks := KeptIndices(parse, records, expr);
      var ks0 := KeptIndices(parse, init, expr);
      forall i | 0 <= i < |records| ensures i in ks <==> Truthy(SafeEval(parse, expr, records[i])) {
        if i < |init| {
          assert records[i] == init[i];
          assert i in ks <==> i in ks0;
        } else {
          assert i !in ks0;
        }
      }
    }
  }

  /** An expression that is falsy or fails on every record selects nothing. */
  lemma {:induction false} SelectNone(parse: ExprParser, records: seq<Record>, expr: Value)
    requires forall i :: 0 <= i < |records| ==> !Truthy(SafeEval(parse, expr, records[i]))
    ensures Select(parse, records, expr) == []
  {
    if records != [] {
      SelectNone(parse, records[..|records| - 1], expr);
    }
  }

  /** In particular a name no record has, or text that does not parse, selects nothing. */
  lemma {:induction false} SelectFailingExpression(parse: ExprParser, records: seq<Record>, s: string, e: Expr)
    requires parse(s) == Some(e)
    requires forall i :: 0 <= i < |records| ==> Eval(e, records[i]).Failure?
    ensures Select(parse, records, Str(s)) == []
  {
    SelectNone(parse, records, Str(s));
  }

  /** An expression truthy on every record keeps them all. */
  lemma {:induction false} SelectAll(parse: ExprParser, records: seq<Record>, expr: Value)
    requires forall i :: 0 <= i < |records| ==> Truthy(SafeEval(parse, expr, records[i]))
    ensures Select(parse, records, expr) == records
  {
    if records != [] {
      SelectAll(parse, records[..|records| - 1], expr);
    }
  }

  // ---------------------------------------------------------------------------------------------
  // project

  /** The record restricted to the requested fields that are its literal top-level keys. */
  function ProjectRecord(record: Record, fields: seq<Value>): Record {
    if fields == [] then []
    else
      var p := ProjectRecord(record, fields[..|fields| - 1]);
      var f := fields[|fields| - 1];
      if f.Str? && f.s in Keys(record) then Set(p, f.s, Lookup(record, f.s).value) else p
  }

  /** The requested field names, in request order, that are keys of the record. */
  function PresentFields(record: Record, fields: seq<Value>): seq<string> {
    if fields == [] then []
    else
      var prev := PresentFields(record, fields[..|fields| - 1]);
      var f := fields[|fields| - 1];
      if f.Str? && f.s in Keys(record) then prev + [f.s] else prev
  }

  predicate AllHashable(xs: seq<Value>) {
    forall i :: 0 <= i < |xs| ==> Hashable(xs[i])
  }

  /**
    `pipe_project(records, fields)`: with no records the fields are never looked at; otherwise
    they must be iterable and each must be hashable, since each is tested with `in` on a dict.
  */
  function Project(records: seq<Record>, fields: Value): (r: Result<seq<Record>, PyError>)
    ensures r.Success? ==> |r.value| == |records|
    ensures r.Failure? ==> records != [] && r.error == TypeError
  {
    if records == [] then Success([])
    else match Iter(fields)
      case None => Failure(TypeError)
      case Some(fs) =>
        if AllHashable(fs) then Success(ProjectAll(records, fs))
        else Failure(TypeError)
  }

  /** Every record projected on the same fields. */
  function ProjectAll(records: seq<Record>, fs: seq<Value>): seq<Record> {
    seq(|records|, i requires 0 <= i < |records| => ProjectRecord(records[i], fs))
  }

  /** The inner loop of `pipe_project`: builds `projected` for one record, field by field. */
  method ProjectOne(record: Record, fs: seq<Value>) returns (r: Result<Record, PyError>)
    ensures r.Success? <==> AllHashable(fs)
    ensures r.Success? ==> r.value == ProjectRecord(record, fs)
    ensures r.Failure? ==> r.error == TypeError
  {
    var projected: Record := [];
    for k := 0 to |fs|
      invariant projected == ProjectRecord(record, fs[..k])
      invariant AllHashable(fs[..k])
    {
      ProjectRecordStep(record, fs, k);
      ContainsInDict(record, fs[k]);
      var present := Contains(Dict(record), fs[k]);
      if present.Failure? {
        assert !Hashable(fs[k]);
        return Failure(TypeError);
      }
      if present.value {
        projected := Set(projected, fs[k].s, Lookup(record, fs[k].s).value);
      }
      assert fs[..k + 1] == fs[..k] + [fs[k]];
    }
    assert fs[..|fs|] == fs;
    return Success(projected);
  }

  /** One more requested field extends the projection by that field when the record has it. */
  lemma {:induction false} ProjectRecordStep(record: Record, fs: seq<Value>, k: nat)
    requires k < |fs|
    ensures ProjectRecord(record, fs[..k + 1])
         == if fs[k].Str? && fs[k].s in Keys(record)
            then Set(ProjectRecord(record, fs[..k]), fs[k].s, Lookup(record, fs[k].s).value)
            else ProjectRecord(record, fs[..k])
  {
    assert fs[..k + 1][..k] == fs[..k] && fs[..k + 1][k] == fs[k];
  }

  /** `pipe_project(records, fields)`. */
  method PipeProject(records: seq<Record>, fields: Value) returns (r: Result<seq<Record>, PyError>)
    ensures r == Project(records, fields)
  {
    // `for field in fields` iterates the same value for every record.
    r := ProjectEach(records, Iter(fields));
  }

  /** The outer loop of `pipe_project`, given what iterating `fields` yields (None: not iterable). */
  method ProjectEach(records: seq<Record>, iterable: Option<seq<Value>>) returns (r: Result<seq<Record>, PyError>)
    ensures records == [] ==> r == Success([])
    ensures records != [] && iterable.None? ==> r == Failure(TypeError)
    ensures records != [] && iterable.Some? ==>
      r == if AllHashable(iterable.value) then Success(ProjectAll(records, iterable.value)) else Failure(TypeError)
  {
    ghost var expected := ProjectAll(records, if iterable.Some? then iterable.value else []);
    var result: seq<Record> := [];
    for i := 0 to |records|
      invariant i > 0 ==> iterable.Some? && AllHashable(iterable.value)
      invariant result == expected[..i]
    {
      if iterable.None? {
        return Failure(TypeError);
      }
      var projected := ProjectOne(records[i], iterable.value);
      if projected.Failure? {
        return Failure(TypeError);
      }
      assert expected[..i + 1] == expected[..i] + [expected[i]];
      result := result + [projected.value];
    }
    assert expected[..|records|] == expected;
    return Success(result);
  }

  /**
    A projected record binds exactly the requested names that the record has, to the record's
    values; missing fields are left out, not set to None.
  */
  lemma {:induction false} ProjectRecordLookup(record: Record, fields: seq<Value>, k: string)
    ensures Lookup(ProjectRecord(record, fields), k)
         == if Str(k) in fields && k in Keys(record) then Lookup(record, k) else None
  {
    if Str(k) in fields && k in Keys(record) {
      ProjectRecordKept(record, fields, k);
    } else {
      ProjectRecordDropped(record, fields, k);
    }
  }

  lemma {:induction false} ProjectRecordKept(record: Record, fields: seq<Value>, k: string)
    requires Str(k) in fields && k in Keys(record)
    ensures Lookup(ProjectRecord(record, fields), k) == Lookup(record, k)
  {
    var init := fields[..|fields| - 1];
    var f := fields[|fields| - 1];
    if f != Str(k) {
      assert Str(k) in init by {
        assert fields == init + [f];
      }
      ProjectRecordKept(record, init, k);
    }
  }

  lemma {:induction false} ProjectRecordDropped(record: Record, fields: seq<Value>, k: string)
    requires !(Str(k) in fields && k in Keys(record))
    ensures Lookup(ProjectRecord(record, fields), k) == None
  {
    if fields != [] {
      var init := fields[..|fields| - 1];
      assert !(Str(k) in init && k in Keys(record)) by {
        assert fields == init + [fields[|fields| - 1]];
      }
      ProjectRecordDropped(record, init, k);
    }
  }

  /** Its keys are the requested names present in the record, in request order, each once. */
  lemma {:induction false} ProjectRecordKeys(record: Record, fields: seq<Value>)
    ensures Keys(ProjectRecord(record, fields)) == Dedup(PresentFields(record, fields))
  {
    if fields != [] {
      var init := fields[..|fields| - 1];
      ProjectRecordKeys(record, init);
      var prev := PresentFields(record, init);
      var f := fields[|fields| - 1];
      if f.Str? && f.s in Keys(record) {
        var s := prev + [f.s];
        assert s[..|s| - 1] == prev;
      }
    }
  }

  /** A projection has no repeated key. */
  lemma {:induction false} ProjectRecordUnique(record: Record, fields: seq<Value>)
    ensures UniqueKeys(ProjectRecord(record, fields))
  {
    var p := ProjectRecord(record, fields);
    ProjectRecordKeys(record, fields);
    forall i, j | 0 <= i < j < |p| ensures p[i].0 != p[j].0 {
      assert p[i].0 == Keys(p)[i] && p[j].0 == Keys(p)[j];
    }
  }

  /** No path traversal: "user.name" is a literal key, not a path into "user". */
  lemma {:induction false} ProjectNoDottedPaths()
    ensures ProjectRecord([("user", Dict([("name", Str("Ann"))]))], [Str("user.name")]) == []
  {
    var rec: Record := [("user", Dict([("name", Str("Ann"))]))];
    assert Keys(rec) == ["user"];
    assert [Str("user.name")][..0] == [];
  }

  /** The projection reads only the requested fields of the record. */
  lemma {:induction false} ProjectRecordCongruent(a: Record, b: Record, fields: seq<Value>)
    requires forall i :: 0 <= i < |fields| && fields[i].Str? ==> Lookup(a, fields[i].s) == Lookup(b, fields[i].s)
    ensures ProjectRecord(a, fields) == ProjectRecord(b, fields)
  {
    if fields != [] {
      var init := fields[..|fields| - 1];
      assert forall i :: 0 <= i < |init| ==> init[i] == fields[i];
      ProjectRecordCongruent(a, b, init);
    }
  }

  /** Projecting a projection with the same fields changes nothing. */
  lemma {:induction false} ProjectRecordIdempotent(record: Record, fields: seq<Value>)
    ensures ProjectRecord(ProjectRecord(record, fields), fields) == ProjectRecord(record, fields)
  {
    var p := ProjectRecord(record, fields);
    forall i | 0 <= i < |fields| && fields[i].Str?
      ensures Lookup(p, fields[i].s) == Lookup(record, fields[i].s)
    {
      ProjectRecordLookup(record, fields, fields[i].s);
      assert Str(fields[i].s) == fields[i];
    }
    ProjectRecordCongruent(p, record, fields);
  }

  /** pipe_project is idempotent. */
  lemma {:induction false} ProjectIdempotent(records: seq<Record>, fields: Value)
    requires Project(records, fields).Success?
    ensures Project(Project(records, fields).value, fields) == Project(records, fields)
  {
    var once := Project(records, fields).value;
    if records != [] {
      var fs := Iter(fields).value;
      forall i | 0 <= i < |records| ensures ProjectRecord(once[i], fs) == once[i] {
        ProjectRecordIdempotent(records[i], fs);
      }
      assert once == ProjectAll(once, fs);
    }
  }

  // ---------------------------------------------------------------------------------------------
  // derive

  /** A copy of the record with each derived field set to its expression's value on the ORIGINAL record. */
  function DeriveRecord(parse: ExprParser, record: Record, derivations: seq<(string, Value)>): Record {
    if derivations == [] then record
    else
      var prev := DeriveRecord(parse, record, derivations[..|derivations| - 1]);
      var (name, expr) := derivations[|derivations| - 1];
      Set(prev, name, SafeEval(parse, expr, record))
  }

  /** `pipe_derive(records, derivations)`: with records present, the derivations must be a dict (`.items()`). */
  function Derive(parse: ExprParser, records: seq<Record>, derivations: Value): (r: Result<seq<Record>, PyError>)
    ensures r.Success? ==> |r.value| == |records|
    ensures derivations.Dict? ==> r.Success?
    ensures r.Failure? ==> r.error == AttributeError
  {
    if records == [] then Success([])
    else if !derivations.Dict? then Failure(AttributeError)
    else Success(seq(|records|, i requires 0 <= i < |records| => DeriveRecord(parse, records[i], derivations.fields)))
  }

  /** The inner loop of `pipe_derive`: one record's derived fields, each evaluated on the original record. */
  method DeriveOne(parse: ExprParser, record: Record, ds: seq<(string, Value)>) returns (newRecord: Record)
    ensures newRecord == DeriveRecord(parse, record, ds)
  {
    newRecord := record;
    for k := 0 to |ds|
      invariant newRecord == DeriveRecord(parse, record, ds[..k])
    {
      assert ds[..k + 1][..k] == ds[..k];
      newRecord := Set(newRecord, ds[k].0, SafeEval(parse, ds[k].1, record));
    }
    assert ds[..|ds|] == ds;
  }

  /** `pipe_derive(records, derivations)`. */
  method PipeDerive(parse: ExprParser, records: seq<Record>, derivations: Value) returns (r: Result<seq<Record>, PyError>)
    ensures r == Derive(parse, records, derivations)
  {
    var result: seq<Record> := [];
    for i := 0 to |records|
      invariant |result| == i
      invariant i > 0 ==> derivations.Dict?
      invariant forall j :: 0 <= j < i ==> result[j] == DeriveRecord(parse, records[j], derivations.fields)
    {
      if !derivations.Dict? {
        return Failure(AttributeError);
      }
      var newRecord := DeriveOne(parse, records[i], derivations.fields);
      result := result + [newRecord];
    }
    if records != [] {
      assert result == seq(|records|, j requires 0 <= j < |records| => DeriveRecord(parse, records[j], derivations.fields));
    }
    return Success(result);
  }

  /**
    A derived field holds its expression's value on the original record, so no derivation sees
    another's result; every other field keeps the record's value.
  */
  lemma {:induction false} DeriveRecordLookup(parse: ExprParser, record: Record, ds: seq<(string, Value)>, k: string)
    ensures Lookup(DeriveRecord(parse, record, ds), k)
         == match Lookup(ds, k)
            case Some(expr) => Some(SafeEval(parse, expr, record))
            case None => Lookup(record, k)
  {
    if ds != [] {
      DeriveRecordLookup(parse, record, ds[..|ds| - 1], k);
    }
  }

  /** The record's fields keep their positions; derived fields that are new follow them. */
  lemma {:induction false} DeriveRecordKeys(parse: ExprParser, record: Record, ds: seq<(string, Value)>)
    ensures |Keys(record)| <= |Keys(DeriveRecord(parse, record, ds))|
    ensures Keys(DeriveRecord(parse, record, ds))[..|record|] == Keys(record)
    ensures forall k :: k in Keys(DeriveRecord(parse, record, ds)) <==> k in Keys(record) || k in Keys(ds)
  {
    DeriveRecordPrefix(parse, record, ds);
    forall k ensures k in Keys(DeriveRecord(parse, record, ds)) <==> k in Keys(record) || k in Keys(ds) {
      DeriveRecordHasKey(parse, record, ds, k);
    }
  }

  lemma {:induction false} DeriveRecordPrefix(parse: ExprParser, record: Record, ds: seq<(string, Value)>)
    ensures |record| <= |DeriveRecord(parse, record, ds)|
    ensures Keys(DeriveRecord(parse, record, ds))[..|record|] == Keys(record)
  {
    if ds == [] {
      assert Keys(record)[..|record|] == Keys(record);
    } else {
      var p := DeriveRecord(parse, record, ds[..|ds| - 1]);
      DeriveRecordPrefix(parse, record, ds[..|ds| - 1]);
      var (name, expr) := ds[|ds| - 1];
      SetKeysPrefix(p, name, SafeEval(parse, expr, record), |record|);
    }
  }

  lemma {:induction false} DeriveRecordHasKey(parse: ExprParser, record: Record, ds: seq<(string, Value)>, k: string)
    ensures k in Keys(DeriveRecord(parse, record, ds)) <==> k in Keys(record) || k in Keys(ds)
  {
    if ds != [] {
      var init := ds[..|ds| - 1];
      DeriveRecordHasKey(parse, record, init, k);
      var (name, expr) := ds[|ds| - 1];
      SetHasKey(DeriveRecord(parse, record, init), name, SafeEval(parse, expr, record), k);
      KeysSnoc(ds, k);
    }
  }

  // ---------------------------------------------------------------------------------------------
  // The pipeline fold

  /** One pipe: the first of `select`, `project`, `derive` that the pipe contains; none of them, no change. */
  function ApplyPipe(parse: ExprParser, records: seq<Record>, pipe: Value): Result<seq<Record>, PyError> {
    var hasSelect :- Contains(pipe, Str("select"));
    if hasSelect then
      var e :- GetItem(pipe, Str("select"));
      Success(Select(parse, records, e))
    else
      var hasProject :- Contains(pipe, Str("project"));
      if hasProject then
        var f :- GetItem(pipe, Str("project"));
        Project(records, f)
      else
        var hasDerive :- Contains(pipe, Str("derive"));
        if hasDerive then
          var d :- GetItem(pipe, Str("derive"));
          Derive(parse, records, d)
        else Success(records)
  }

  /** The pipes applied in order, stopping at the first that raises. */
  function ApplyPipes(parse: ExprParser, records: seq<Record>, pipes: seq<Value>): Result<seq<Record>, PyError> {
    if pipes == [] then Success(records)
    else
      var prev :- ApplyPipes(parse, records, pipes[..|pipes| - 1]);
      ApplyPipe(parse, prev, pipes[|pipes| - 1])
  }

  /** `apply_pipeline(data, pipeline)`: normalise, then fold the pipes. */
  function Apply(parse: ExprParser, data: Value, pipeline: Value): (r: Result<seq<Record>, PyError>)
    ensures Iter(pipeline).None? ==> r == Failure(TypeError)
    ensures pipeline == List([]) ==> r == Success(NormalizeToRecords(data))
  {
    var pipes :- IterOrRaise(pipeline);
    ApplyPipes(parse, NormalizeToRecords(data), pipes)
  }

  /** The body of `apply_pipeline`'s loop: one pipe's dispatch. */
  method ApplyOne(parse: ExprParser, records: seq<Record>, pipe: Value) returns (r: Result<seq<Record>, PyError>)
    ensures r == ApplyPipe(parse, records, pipe)
  {
    var hasSelect :- Contains(pipe, Str("select"));
    if hasSelect {
      var e :- GetItem(pipe, Str("select"));
      var selected := PipeSelect(parse, records, e);
      return Success(selected);
    }
    var hasProject :- Contains(pipe, Str("project"));
    if hasProject {
      var f :- GetItem(pipe, Str("project"));
      r := PipeProject(records, f);
      return;
    }
    var hasDerive :- Contains(pipe, Str("derive"));
    if hasDerive {
      var d :- GetItem(pipe, Str("derive"));
      r := PipeDerive(parse, records, d);
      return;
    }
    return Success(records);
  }

  /** `apply_pipeline(data, pipeline)`. */
  method ApplyPipeline(parse: ExprParser, data: Value, pipeline: Value) returns (r: Result<seq<Record>, PyError>)
    ensures r == Apply(parse, data, pipeline)
  {
    var records := NormalizeToRecords(data);
    var pipes :- IterOrRaise(pipeline);
    for i := 0 to |pipes|
      invariant ApplyPipes(parse, NormalizeToRecords(data), pipes[..i]) == Success(records)
    {
      var next := ApplyOne(parse, records, pipes[i]);
      if next.Failure? {
        ApplyPipesStepFailure(parse, NormalizeToRecords(data), pipes, i, next.error);
        return Failure(next.error);
      }
      ApplyPipesStepSuccess(parse, NormalizeToRecords(data), pipes, i);
      records := next.value;
    }
    assert pipes[..|pipes|] == pipes;
    return Success(records);
  }

  /** A pipe that raises ends the whole pipeline with its error. */
  lemma {:induction false} ApplyPipesStepFailure(parse: ExprParser, records: seq<Record>, pipes: seq<Value>, i: nat, e: PyError)
    requires i < |pipes| && ApplyPipes(parse, records, pipes[..i]).Success?
    requires ApplyPipe(parse, ApplyPipes(parse, records, pipes[..i]).value, pipes[i]) == Failure(e)
    ensures ApplyPipes(parse, records, pipes) == Failure(e)
  {
    assert pipes[..i + 1][..i] == pipes[..i];
    assert ApplyPipes(parse, records, pipes[..i + 1]) == Failure(e);
    ApplyPipesFailurePersists(parse, records, pipes, i + 1);
  }

  /** A pipe that succeeds extends the prefix the loop has applied. */
  lemma {:induction false} ApplyPipesStepSuccess(parse: ExprParser, records: seq<Record>, pipes: seq<Value>, i: nat)
    requires i < |pipes| && ApplyPipes(parse, records, pipes[..i]).Success?
    ensures ApplyPipes(parse, records, pipes[..i + 1])
         == ApplyPipe(parse, ApplyPipes(parse, records, pipes[..i]).value, pipes[i])
  {
    assert pipes[..i + 1][..i] == pipes[..i];
  }

  /** Once a prefix of the pipes raises, the whole pipeline raises the same. */
  lemma {:induction false} ApplyPipesFailurePersists(parse: ExprParser, records: seq<Record>, pipes: seq<Value>, n: nat)
    requires n <= |pipes|
    ensures ApplyPipes(parse, records, pipes[..n]).Failure? ==>
      ApplyPipes(parse, records, pipes) == ApplyPipes(parse, records, pipes[..n])
  {
    ApplyPipesCompose(parse, records, pipes[..n], pipes[n..]);
    assert pipes[..n] + pipes[n..] == pipes;
  }

  /** Running `ps + qs` is running `ps`, then `qs` on its result. */
  lemma {:induction false} ApplyPipesCompose(parse: ExprParser, records: seq<Record>, ps: seq<Value>, qs: seq<Value>)
    ensures ApplyPipes(parse, records, ps + qs)
         == match ApplyPipes(parse, records, ps)
            case Success(mid) => ApplyPipes(parse, mid, qs)
            case Failure(e) => Failure(e)
  {
    if qs == [] {
      assert ps + qs == ps;
    } else {
      var init := qs[..|qs| - 1];
      ApplyPipesCompose(parse, records, ps, init);
      assert (ps + qs)[..|ps + qs| - 1] == ps + init;
      assert (ps + qs)[|ps + qs| - 1] == qs[|qs| - 1];
    }
  }

  /** For a dict pipe, `select` beats `project`, which beats `derive`; a pipe with none of them is skipped. */
  lemma {:induction false} DispatchPriority(parse: ExprParser, records: seq<Record>, pipe: Record)
    ensures "select" in Keys(pipe) ==>
      ApplyPipe(parse, records, Dict(pipe)) == Success(Select(parse, records, Lookup(pipe, "select").value))
    ensures "select" !in Keys(pipe) && "project" in Keys(pipe) ==>
      ApplyPipe(parse, records, Dict(pipe)) == Project(records, Lookup(pipe, "project").value)
    ensures "select" !in Keys(pipe) && "project" !in Keys(pipe) && "derive" in Keys(pipe) ==>
      ApplyPipe(parse, records, Dict(pipe)) == Derive(parse, records, Lookup(pipe, "derive").value)
    ensures "select" !in Keys(pipe) && "project" !in Keys(pipe) && "derive" !in Keys(pipe) ==>
      ApplyPipe(parse, records, Dict(pipe)) == Success(records)
  {
  }
}

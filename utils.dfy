/**
  jaql/utils.py: expression evaluation against a record (`safe_eval`), dotted-path access
  (`deep_get`, `deep_set`) and the record normaliser used by the pipeline.

  Python parses an expression with `ast.parse` and evaluates it with `eval`.  Here the parser is a
  parameter of type `ExprParser` (the host's, outside this model), producing the small expression
  language `Expr`; `Eval` is its evaluator, with an explicit failure outcome, and `SafeEval` is the
  boundary that turns every failure into `False`.
*/
module Utils {
  import opened Wrappers
  import opened Values
  import opened Python

  datatype CmpOp = Equal | NotEqual | Less | LessEq | Greater | GreaterEq | IsIn | NotIn

  datatype ArithOp = Plus | Minus | Times

  /** The expression forms the model evaluates, named after Python's `ast` nodes. */
  datatype Expr =
    | Const(value: Value)
    | Name(id: string)
    | ListDisplay(elts: seq<Expr>)
    | Subscript(target: Expr, index: Expr)
    | Call(func: Expr, args: seq<Expr>)
    | Comparison(op: CmpOp, left: Expr, right: Expr)
    | Arith(aop: ArithOp, left: Expr, right: Expr)
    | Negate(operand: Expr)
    | Not(operand: Expr)
    | And(left: Expr, right: Expr)
    | Or(left: Expr, right: Expr)
    | IfExp(test: Expr, body: Expr, orelse: Expr)

  /** `ast.parse(text, mode='eval')`: None where Python raises SyntaxError. */
  type ExprParser = string -> Option<Expr>

  /** The allow-listed built-ins, in the order of the source's table. */
  const SafeBuiltinNames: seq<string> := ["len", "min", "max", "sum", "abs", "str", "int", "float", "bool"]

  /** The `safe_builtins` dict: each name bound to its function. */
  function SafeBuiltins(): Record {
    seq(|SafeBuiltinNames|, i requires 0 <= i < |SafeBuiltinNames| => (SafeBuiltinNames[i], Builtin(SafeBuiltinNames[i])))
  }

  lemma {:induction false} SafeBuiltinsLookup(id: string)
    requires id in SafeBuiltinNames
    ensures id in Keys(SafeBuiltins()) && Lookup(SafeBuiltins(), id) == Some(Builtin(id))
  {
    var b := SafeBuiltins();
    var i :| 0 <= i < |SafeBuiltinNames| && SafeBuiltinNames[i] == id;
    assert b[i] == (id, Builtin(id));
    assert UniqueKeys(b);
    LookupUnique(b, i);
  }

  /**
    The builtins namespace `eval` uses: the globals' `__builtins__` entry.  The record's fields are
    copied into the globals, so a field named `__builtins__` replaces the safe table.
  */
  function BuiltinNamespace(ctx: Record): Value {
    match Lookup(ctx, "__builtins__")
    case Some(v) => v
    case None => Dict(SafeBuiltins())
  }

  /**
    Name lookup in the globals built by safe_eval: `get` and `rec` were bound last, so they win;
    then the record's fields; then the `__builtins__` entry itself; then the builtins namespace.
  */
  function Resolve(id: string, ctx: Record): (r: Result<Value, PyError>)
    ensures id != "get" && id != "rec" && id in Keys(ctx) ==> r == Success(Lookup(ctx, id).value)
    ensures r.Failure? ==>
      && id != "get" && id != "rec" && id != "__builtins__" && id !in Keys(ctx)
      && (r.error == NameError || r.error == TypeError)
  {
    if id == "get" then Success(GetFn(ctx))
    else if id == "rec" then Success(Dict(ctx))
    else if id in Keys(ctx) then Success(Lookup(ctx, id).value)
    else if id == "__builtins__" then Success(Dict(SafeBuiltins()))
    else match BuiltinNamespace(ctx)
      case Dict(b) => if id in Keys(b) then Success(Lookup(b, id).value) else Failure(NameError)
      case _ => Failure(TypeError)
  }

  function Abs(n: int): nat {
    if n < 0 then -n else n
  }

  /** `str(v)` for None, booleans, integers and strings. */
  function StrOf(v: Value): Result<Value, PyError> {
    match v
    case Null => Success(Str("None"))
    case Bool(b) => Success(Str(if b then "True" else "False"))
    case Int(n) => Success(Str(IntToString(n)))
    case Str(s) => Success(v)
    case _ => Failure(TypeError)
  }

  /** `min`/`max` over `best` and then `rest`: an item replaces the best so far only when strictly smaller (larger). */
  function Extreme(best: Value, rest: seq<Value>, wantMax: bool): Result<Value, PyError>
    decreases |rest|
  {
    if rest == [] then Success(best)
    else match Compare(rest[0], best)
      case None => Failure(TypeError)
      case Some(c) =>
        var better := if wantMax then c > 0 else c < 0;
        Extreme(if better then rest[0] else best, rest[1..], wantMax)
  }

  /** `sum(items, start)`: `start + items[0] + items[1] + ...`. */
  function SumFrom(acc: Value, items: seq<Value>): Result<Value, PyError>
    decreases |items|
  {
    if items == [] then Success(acc)
    else
      var next :- Add(acc, items[0]);
      SumFrom(next, items[1..])
  }

  function IterOrRaise(v: Value): Result<seq<Value>, PyError> {
    match Iter(v)
    case Some(xs) => Success(xs)
    case None => Failure(TypeError)
  }

  /** A call of one of the safe built-ins. */
  function ApplyBuiltin(name: string, args: seq<Value>): Result<Value, PyError> {
    if name == "len" then
      if |args| != 1 then Failure(TypeError)
      else match args[0]
        case Str(s) => Success(Int(|s|))
        case List(xs) => Success(Int(|xs|))
        case Dict(fs) => Success(Int(|fs|))
        case _ => Failure(TypeError)
    else if name == "abs" then
      if |args| == 1 && IsNumber(args[0]) then Success(Int(Abs(Num(args[0])))) else Failure(TypeError)
    else if name == "bool" then
      if |args| == 0 then Success(Bool(false))
      else if |args| == 1 then Success(Bool(Truthy(args[0])))
      else Failure(TypeError)
    else if name == "int" then
      if |args| == 0 then Success(Int(0))
      else if |args| != 1 then Failure(TypeError)
      else if IsNumber(args[0]) then Success(Int(Num(args[0])))
      else if args[0].Str? then
        match ParseInt(args[0].s)
        case Some(n) => Success(Int(n))
        case None => Failure(ValueError)
      else Failure(TypeError)
    else if name == "str" then
      if |args| == 0 then Success(Str(""))
      else if |args| == 1 then StrOf(args[0])
      else Failure(TypeError)
    else if name == "min" || name == "max" then
      var items :- if |args| == 1 then IterOrRaise(args[0])
                   else if |args| >= 2 then Success(args)
                   else Failure(TypeError);
      if items == [] then Failure(ValueError) else Extreme(items[0], items[1..], name == "max")
    else if name == "sum" then
      if |args| != 1 && |args| != 2 then Failure(TypeError)
      else
        var start := if |args| == 2 then args[1] else Int(0);
        if start.Str? then Failure(TypeError)
        else
          var items :- IterOrRaise(args[0]);
          SumFrom(start, items)
    else
      // `float`, whose results the model has no values for
      Failure(TypeError)
  }

  /** Calling a value: `get(key[, default])`, a built-in, or anything else (TypeError). */
  function ApplyCallable(f: Value, args: seq<Value>): Result<Value, PyError> {
    match f
    case GetFn(env) =>
      if |args| < 1 || |args| > 2 then Failure(TypeError)
      else if !Hashable(args[0]) then Failure(TypeError)
      else if args[0].Str? && args[0].s in Keys(env) then Success(Lookup(env, args[0].s).value)
      else Success(if |args| == 2 then args[1] else Null)
    case Builtin(name) => ApplyBuiltin(name, args)
    case _ => Failure(TypeError)
  }

  function CompareValues(op: CmpOp, a: Value, b: Value): Result<Value, PyError> {
    match op
    case Equal => Success(Bool(Eq(a, b)))
    case NotEqual => Success(Bool(!Eq(a, b)))
    case IsIn =>
      var c :- Contains(b, a);
      Success(Bool(c))
    case NotIn =>
      var c :- Contains(b, a);
      Success(Bool(!c))
    case _ =>
      match Compare(a, b)
      case None => Failure(TypeError)
      case Some(c) =>
        Success(Bool(match op
                     case Less => c < 0
                     case LessEq => c <= 0
                     case Greater => c > 0
                     case _ => c >= 0))
  }

  function ApplyArith(op: ArithOp, a: Value, b: Value): Result<Value, PyError> {
    match op
    case Plus => Add(a, b)
    case Minus => Sub(a, b)
    case Times => Mul(a, b)
  }

  /**
    `eval` of an expression with the globals safe_eval builds from record `ctx`.  Operands are
    evaluated left to right; `and`, `or` and conditional expressions evaluate only the operand
    they need and return an operand's own value, not a bool.
  */
  function Eval(e: Expr, ctx: Record): (r: Result<Value, PyError>)
    ensures r.Success? && (e.Not? || e.Comparison?) ==> r.value.Bool?
    ensures r.Success? && (e.And? || e.Or?) ==> r == Eval(e.left, ctx) || r == Eval(e.right, ctx)
    decreases e
  {
    match e
    case Const(v) => Success(v)
    case Name(id) => Resolve(id, ctx)
    case ListDisplay(elts) =>
      var vs :- EvalAll(elts, ctx);
      Success(List(vs))
    case Subscript(t, i) =>
      var tv :- Eval(t, ctx);
      var iv :- Eval(i, ctx);
      GetItem(tv, iv)
    case Call(f, args) =>
      var fv :- Eval(f, ctx);
      var avs :- EvalAll(args, ctx);
      ApplyCallable(fv, avs)
    case Comparison(op, l, r) =>
      var a :- Eval(l, ctx);
      var b :- Eval(r, ctx);
      CompareValues(op, a, b)
    case Arith(op, l, r) =>
      var a :- Eval(l, ctx);
      var b :- Eval(r, ctx);
      ApplyArith(op, a, b)
    case Negate(x) =>
      var a :- Eval(x, ctx);
      Neg(a)
    case Not(x) =>
      var a :- Eval(x, ctx);
      Success(Bool(!Truthy(a)))
    case And(l, r) =>
      var a :- Eval(l, ctx);
      if !Truthy(a) then Success(a) else Eval(r, ctx)
    case Or(l, r) =>
      var a :- Eval(l, ctx);
      if Truthy(a) then Success(a) else Eval(r, ctx)
    case IfExp(t, b, o) =>
      var c :- Eval(t, ctx);
      if Truthy(c) then Eval(b, ctx) else Eval(o, ctx)
  }

  /** The arguments of a call or the items of a list display, left to right; the first failure wins. */
  function EvalAll(es: seq<Expr>, ctx: Record): (r: Result<seq<Value>, PyError>)
    ensures r.Success? <==> forall i :: 0 <= i < |es| ==> Eval(es[i], ctx).Success?
    ensures r.Success? ==> |r.value| == |es| && forall i :: 0 <= i < |es| ==> r.value[i] == Eval(es[i], ctx).value
    decreases es
  {
    if es == [] then Success([])
    else
      assert forall i :: 1 <= i < |es| ==> es[i] == es[1..][i - 1];
      var v :- Eval(es[0], ctx);
      var vs :- EvalAll(es[1..], ctx);
      Success([v] + vs)
  }

  /**
    `safe_eval(expr, context)`: the value of the expression, or False when anything goes wrong:
    a source that is not a string, a syntax error, or an error raised during evaluation.
  */
  function SafeEval(parse: ExprParser, expr: Value, ctx: Record): (r: Value)
    ensures r == Bool(false) || (expr.Str? && parse(expr.s).Some? && Eval(parse(expr.s).value, ctx) == Success(r))
  {
    if !expr.Str? then Bool(false)
    else match parse(expr.s)
      case None => Bool(false)
      case Some(e) =>
        match Eval(e, ctx)
        case Success(v) => v
        case Failure(_) => Bool(false)
  }

  /** safe_eval never raises; a failure reads as False, a success is the value itself, uncoerced. */
  lemma {:induction false} SafeEvalOutcome(parse: ExprParser, s: string, e: Expr, ctx: Record)
    requires parse(s) == Some(e)
    ensures Eval(e, ctx).Success? ==> SafeEval(parse, Str(s), ctx) == Eval(e, ctx).value
    ensures Eval(e, ctx).Failure? ==> SafeEval(parse, Str(s), ctx) == Bool(false)
    ensures Truthy(SafeEval(parse, Str(s), ctx)) ==> Eval(e, ctx).Success? && Truthy(Eval(e, ctx).value)
  {
  }

  /** Text that does not parse, and sources that are not strings, evaluate to False. */
  lemma {:induction false} SafeEvalSyntaxError(parse: ExprParser, expr: Value, ctx: Record)
    requires !expr.Str? || parse(expr.s) == None
    ensures SafeEval(parse, expr, ctx) == Bool(false)
  {
  }

  /** A record field is visible by its bare name, and hides a built-in of the same name. */
  lemma {:induction false} FieldShadowsBuiltin(ctx: Record, id: string)
    requires id in Keys(ctx) && id != "rec" && id != "get"
    ensures Eval(Name(id), ctx) == Success(Lookup(ctx, id).value)
  {
  }

  /** Without a field of that name, a safe built-in's name denotes the built-in. */
  lemma {:induction false} BuiltinVisible(ctx: Record, id: string)
    requires id in SafeBuiltinNames
    requires id !in Keys(ctx) && "__builtins__" !in Keys(ctx)
    ensures Eval(Name(id), ctx) == Success(Builtin(id))
  {
    SafeBuiltinsLookup(id);
  }

  /** A call evaluates the callee, then the arguments left to right, then applies the one to the others. */
  lemma {:induction false} CallEvaluation(f: Expr, args: seq<Expr>, ctx: Record)
    requires Eval(f, ctx).Success? && EvalAll(args, ctx).Success?
    ensures Eval(Call(f, args), ctx) == ApplyCallable(Eval(f, ctx).value, EvalAll(args, ctx).value)
  {
  }

  /** A name that is neither a field, nor `rec`/`get`, nor a safe built-in, fails to resolve. */
  lemma {:induction false} UnknownNameFails(parse: ExprParser, s: string, ctx: Record)
    requires parse(s) == Some(Name(s))
    requires s !in Keys(ctx) && s !in SafeBuiltinNames && s != "rec" && s != "get" && s != "__builtins__"
    requires "__builtins__" !in Keys(ctx)
    ensures Eval(Name(s), ctx).Failure?
    ensures SafeEval(parse, Str(s), ctx) == Bool(false)
  {
  }

  /** `rec` is always the whole record, even when the record has a field named `rec`. */
  lemma {:induction false} RecIsWholeRecord(ctx: Record)
    ensures Eval(Name("rec"), ctx) == Success(Dict(ctx))
  {
  }

  /** `rec['k']` reads field k of any name; a missing field is a KeyError, hence False. */
  lemma {:induction false} RecSubscript(parse: ExprParser, s: string, ctx: Record, k: string)
    requires parse(s) == Some(Subscript(Name("rec"), Const(Str(k))))
    ensures k in Keys(ctx) ==> SafeEval(parse, Str(s), ctx) == Lookup(ctx, k).value
    ensures k !in Keys(ctx) ==> Eval(Subscript(Name("rec"), Const(Str(k))), ctx) == Failure(KeyError)
    ensures k !in Keys(ctx) ==> SafeEval(parse, Str(s), ctx) == Bool(false)
  {
    assert Eval(Name("rec"), ctx) == Success(Dict(ctx));
    assert Eval(Const(Str(k)), ctx) == Success(Str(k));
  }

  /** `get(k, d)` is the field's value when present, else `d`; `get(k)` defaults to None. */
  lemma {:induction false} GetFieldOrDefault(ctx: Record, k: string, d: Value)
    ensures Eval(Call(Name("get"), [Const(Str(k)), Const(d)]), ctx)
         == Success(if k in Keys(ctx) then Lookup(ctx, k).value else d)
    ensures Eval(Call(Name("get"), [Const(Str(k))]), ctx)
         == Success(if k in Keys(ctx) then Lookup(ctx, k).value else Null)
  {
    var two := [Const(Str(k)), Const(d)];
    assert EvalAll(two, ctx).value == [Str(k), d];
    var one := [Const(Str(k))];
    assert EvalAll(one, ctx).value == [Str(k)];
  }

  /** `and` and `or` yield one of their operands, not a bool. */
  lemma {:induction false} BoolOpsReturnOperands(l: Expr, r: Expr, ctx: Record)
    requires Eval(l, ctx).Success? && Eval(r, ctx).Success?
    ensures Eval(And(l, r), ctx) == (if Truthy(Eval(l, ctx).value) then Eval(r, ctx) else Eval(l, ctx))
    ensures Eval(Or(l, r), ctx) == (if Truthy(Eval(l, ctx).value) then Eval(l, ctx) else Eval(r, ctx))
  {
  }

  // The assertions of the source's own check of safe_eval, each for a parser that reads the text
  // as Python does.

  lemma {:induction false} ExampleComparison(parse: ExprParser)
    requires parse("age >= 18") == Some(Comparison(GreaterEq, Name("age"), Const(Int(18))))
    ensures SafeEval(parse, Str("age >= 18"), [("age", Int(20))]) == Bool(true)
    ensures SafeEval(parse, Str("age >= 18"), [("age", Int(17))]) == Bool(false)
  {
    assert Keys([("age", Int(20))])[0] == "age";
    assert Keys([("age", Int(17))])[0] == "age";
  }

  lemma {:induction false} ExampleLen(parse: ExprParser)
    requires parse("len(name)") == Some(Call(Name("len"), [Name("name")]))
    ensures SafeEval(parse, Str("len(name)"), [("name", Str("Alice"))]) == Int(5)
  {
    var alice: Record := [("name", Str("Alice"))];
    assert Keys(alice) == ["name"];
    assert SafeBuiltinNames[0] == "len";
    BuiltinVisible(alice, "len");
    FieldShadowsBuiltin(alice, "name");
    assert Lookup(alice, "name") == Some(Str("Alice"));
    assert EvalAll([Name("name")], alice).value == [Str("Alice")];
    CallEvaluation(Name("len"), [Name("name")], alice);
  }

  lemma {:induction false} ExampleHyphenatedKey(parse: ExprParser)
    requires parse("rec['load-state'] == 'loaded'")
          == Some(Comparison(Equal, Subscript(Name("rec"), Const(Str("load-state"))), Const(Str("loaded"))))
    ensures SafeEval(parse, Str("rec['load-state'] == 'loaded'"), [("load-state", Str("loaded"))]) == Bool(true)
  {
    var r: Record := [("load-state", Str("loaded"))];
    assert Keys(r)[0] == "load-state";
    assert Eval(Subscript(Name("rec"), Const(Str("load-state"))), r) == Success(Str("loaded"));
  }

  lemma {:induction false} ExampleGetField(parse: ExprParser)
    requires parse("get('load-state') == 'loaded'")
          == Some(Comparison(Equal, Call(Name("get"), [Const(Str("load-state"))]), Const(Str("loaded"))))
    ensures SafeEval(parse, Str("get('load-state') == 'loaded'"), [("load-state", Str("loaded"))]) == Bool(true)
  {
    var r: Record := [("load-state", Str("loaded"))];
    assert Keys(r)[0] == "load-state";
    assert Eval(Call(Name("get"), [Const(Str("load-state"))]), r) == Success(Str("loaded"));
  }

  lemma {:induction false} ExampleGetDefault(parse: ExprParser)
    requires parse("get('nonexistent', 'default')")
          == Some(Call(Name("get"), [Const(Str("nonexistent")), Const(Str("default"))]))
    ensures SafeEval(parse, Str("get('nonexistent', 'default')"), []) == Str("default")
  {
    GetFieldOrDefault([], "nonexistent", Str("default"));
  }

  // ---------------------------------------------------------------------------------------------
  // Dotted paths

  /** `s.split(sep)`: the pieces between separators, empty pieces included. */
  function Split(s: string, sep: char): (parts: seq<string>)
    ensures |parts| >= 1
    decreases |s|
  {
    if s == [] then [""]
    else
      var rest := Split(s[1..], sep);
      if s[0] == sep then [""] + rest else [[s[0]] + rest[0]] + rest[1..]
  }

  /** `sep.join(parts)`. */
  function Join(parts: seq<string>, sep: char): string
    decreases |parts|
  {
    if parts == [] then ""
    else if |parts| == 1 then parts[0]
    else parts[0] + [sep] + Join(parts[1..], sep)
  }

  /** Splitting loses nothing: the pieces hold no separator and join back to the text. */
  lemma {:induction false} SplitJoin(s: string, sep: char)
    ensures Join(Split(s, sep), sep) == s
    ensures forall i :: 0 <= i < |Split(s, sep)| ==> sep !in Split(s, sep)[i]
    decreases |s|
  {
    if s != [] {
      SplitJoin(s[1..], sep);
      var rest := Split(s[1..], sep);
      if s[0] == sep {
        assert Split(s, sep) == [""] + rest;
        assert Join([""] + rest, sep) == [sep] + Join(rest, sep) by {
          assert ([""] + rest)[1..] == rest;
        }
        assert s == [s[0]] + s[1..];
        forall i | 0 <= i < |Split(s, sep)| ensures sep !in Split(s, sep)[i] {
          if i > 0 { assert Split(s, sep)[i] == rest[i - 1]; }
        }
      } else {
        var parts := Split(s, sep);
        assert parts == [[s[0]] + rest[0]] + rest[1..];
        if |rest| == 1 {
          assert Join(parts, sep) == [s[0]] + rest[0];
        } else {
          assert parts[1..] == rest[1..];
          assert Join(rest, sep) == rest[0] + [sep] + Join(rest[1..], sep);
        }
        assert s == [s[0]] + s[1..];
        forall i | 0 <= i < |parts| ensures sep !in parts[i] {
          if i > 0 { assert parts[i] == rest[i]; } else { assert sep !in rest[0]; }
        }
      }
    }
  }

  /** A text without the separator is a single piece. */
  lemma {:induction false} SplitWithoutSeparator(s: string, sep: char)
    requires sep !in s
    ensures Split(s, sep) == [s]
    decreases |s|
  {
    if s != [] {
      SplitWithoutSeparator(s[1..], sep);
      assert s == [s[0]] + s[1..];
    }
  }

  /** Walks `parts` down through nested dicts; `default` at a missing key or a non-dict. */
  function DeepGetPath(current: Value, parts: seq<string>, default: Value): Value
    decreases |parts|
  {
    if parts == [] then current
    else match current
      case Dict(fs) =>
        if parts[0] in Keys(fs) then DeepGetPath(Lookup(fs, parts[0]).value, parts[1..], default) else default
      case _ => default
  }

  /** `deep_get(obj, path, default)`. */
  method DeepGet(obj: Value, path: string, default: Value) returns (r: Value)
    ensures r == DeepGetPath(obj, Split(path, '.'), default)
  {
    var parts := Split(path, '.');
    var current := obj;
    var i := 0;
    while i < |parts|
      invariant 0 <= i <= |parts|
      invariant DeepGetPath(current, parts[i..], default) == DeepGetPath(obj, parts, default)
    {
      assert parts[i..][1..] == parts[i + 1..];
      if !current.Dict? {
        return default;
      }
      if parts[i] !in Keys(current.fields) {
        return default;
      }
      current := Lookup(current.fields, parts[i]).value;
      i := i + 1;
    }
    return current;
  }

  /** A path without '.' is one lookup, with the default for a missing key or a non-dict. */
  lemma {:induction false} DeepGetSingleKey(obj: Value, key: string, default: Value)
    requires '.' !in key
    ensures DeepGetPath(obj, Split(key, '.'), default)
         == if obj.Dict? && key in Keys(obj.fields) then Lookup(obj.fields, key).value else default
  {
    SplitWithoutSeparator(key, '.');
  }

  /** Reaching a value that is not a dict while segments remain gives the default. */
  lemma {:induction false} DeepGetThroughNonDict(v: Value, parts: seq<string>, default: Value)
    requires !v.Dict? && parts != []
    ensures DeepGetPath(v, parts, default) == default
  {
  }

  /** The walk of deep_set: creates missing intermediate dicts, raises at an existing non-dict one. */
  function DeepSetPath(r: Record, parts: seq<string>, value: Value): (res: Result<Record, PyError>)
    requires |parts| >= 1
    ensures res.Failure? ==> res.error == TypeError
    ensures res.Success? ==> parts[0] in Keys(res.value)
    decreases |parts|
  {
    if |parts| == 1 then Success(Set(r, parts[0], value))
    else
      var child :- match Lookup<Value>(r, parts[0])
                   case None => Success([])
                   case Some(Dict(c)) => Success(c)
                   case Some(_) => Failure(TypeError);
      var child' :- DeepSetPath(child, parts[1..], value);
      Success(Set(r, parts[0], Dict(child')))
  }

  /**
    `deep_set(obj, path, value)`.  The source updates `obj` in place; a TypeError can only arise
    before the first new dict is created, when nothing has been changed yet.
  */
  function DeepSet(obj: Record, path: string, value: Value): (r: Result<Record, PyError>)
    ensures r.Failure? ==> r.error == TypeError
    ensures r.Success? ==> Split(path, '.')[0] in Keys(r.value)
  {
    DeepSetPath(obj, Split(path, '.'), value)
  }

  /** Every intermediate along the path that already exists is a dict. */
  predicate DictsAlong(r: Record, parts: seq<string>)
    decreases |parts|
  {
    |parts| <= 1 ||
    match Lookup<Value>(r, parts[0])
    case None => true
    case Some(Dict(c)) => DictsAlong(c, parts[1..])
    case Some(_) => false
  }

  /** deep_set succeeds exactly when no existing intermediate is a non-dict. */
  lemma {:induction false} DeepSetSucceedsIff(r: Record, parts: seq<string>, value: Value)
    requires |parts| >= 1
    ensures DeepSetPath(r, parts, value).Success? <==> DictsAlong(r, parts)
    decreases |parts|
  {
    if |parts| > 1 {
      match Lookup<Value>(r, parts[0])
      case None => DeepSetFresh([], parts[1..], value);
      case Some(Dict(c)) => DeepSetSucceedsIff(c, parts[1..], value);
      case Some(_) =>
    }
  }

  /** Below a missing key every intermediate is created, so the walk cannot fail. */
  lemma {:induction false} DeepSetFresh(r: Record, parts: seq<string>, value: Value)
    requires |parts| >= 1 && r == []
    ensures DeepSetPath(r, parts, value).Success?
    decreases |parts|
  {
    if |parts| > 1 {
      DeepSetFresh([], parts[1..], value);
    }
  }

  /** After deep_set, deep_get of the same path reads the value back. */
  lemma {:induction false} DeepSetThenGet(r: Record, parts: seq<string>, value: Value, default: Value)
    requires |parts| >= 1 && DeepSetPath(r, parts, value).Success?
    ensures DeepGetPath(Dict(DeepSetPath(r, parts, value).value), parts, default) == value
    decreases |parts|
  {
    var r' := DeepSetPath(r, parts, value).value;
    if |parts| > 1 {
      var child := match Lookup<Value>(r, parts[0]) case Some(Dict(c)) => c case _ => [];
      var child' := DeepSetPath(child, parts[1..], value).value;
      assert r' == Set(r, parts[0], Dict(child'));
      DeepSetThenGet(child, parts[1..], value, default);
      DeepGetStep(r', parts, default);
    } else {
      DeepGetStep(r', parts, default);
    }
  }

  /** deep_get of a path present at the top level continues in that entry with the rest of the path. */
  lemma {:induction false} DeepGetStep(fs: Record, parts: seq<string>, default: Value)
    requires |parts| >= 1 && parts[0] in Keys(fs)
    ensures DeepGetPath(Dict(fs), parts, default) == DeepGetPath(Lookup(fs, parts[0]).value, parts[1..], default)
  {
  }

  /** The same, for a dotted path text. */
  lemma {:induction false} DeepSetThenDeepGet(obj: Record, path: string, value: Value, default: Value)
    requires DeepSet(obj, path, value).Success?
    ensures DeepGetPath(Dict(DeepSet(obj, path, value).value), Split(path, '.'), default) == value
  {
    DeepSetThenGet(obj, Split(path, '.'), value, default);
  }

  /** deep_set touches only the first segment's top-level entry, adding it last when new. */
  lemma {:induction false} DeepSetFrame(r: Record, parts: seq<string>, value: Value)
    requires |parts| >= 1 && DeepSetPath(r, parts, value).Success?
    ensures forall k :: k != parts[0] ==> Lookup(DeepSetPath(r, parts, value).value, k) == Lookup(r, k)
    ensures Keys(DeepSetPath(r, parts, value).value)
         == if parts[0] in Keys(r) then Keys(r) else Keys(r) + [parts[0]]
  {
  }

  /** Missing intermediates are created as empty dicts. */
  lemma {:induction false} DeepSetCreatesIntermediates(value: Value)
    ensures DeepSet([], "a.b", value) == Success([("a", Dict([("b", value)]))])
  {
    assert Split("a.b", '.') == ["a", "b"] by {
        SplitWithoutSeparator("b", '.');
      assert Split(".b", '.') == ["", "b"] by { assert ".b"[1..] == "b"; }
      assert "a.b"[1..] == ".b";
      assert "a.b"[0] == 'a';
      assert ['a'] + "" == "a";
      assert ["", "b"][1..] == ["b"];
    }
    var parts := ["a", "b"];
    assert parts[1..] == ["b"];
    assert Set<Value>([], "b", value) == [("b", value)];
    assert DeepSetPath([], ["b"], value) == Success([("b", value)]);
    assert Set<Value>([], "a", Dict([("b", value)])) == [("a", Dict([("b", value)]))];
  }

  // ---------------------------------------------------------------------------------------------
  // Normalisation

  predicate AllDicts(xs: seq<Value>) {
    xs == [] || (xs[0].Dict? && AllDicts(xs[1..]))
  }

  /** `is_list_of_dicts(data)`: a list whose every element is a dict; the empty list included. */
  function IsListOfDicts(data: Value): (r: bool)
    ensures r <==> data.List? && forall i :: 0 <= i < |data.items| ==> data.items[i].Dict?
  {
    if data.List? then AllDictsIff(data.items); AllDicts(data.items) else false
  }

  lemma {:induction false} AllDictsIff(xs: seq<Value>)
    ensures AllDicts(xs) <==> forall i :: 0 <= i < |xs| ==> xs[i].Dict?
  {
    if xs != [] {
      AllDictsIff(xs[1..]);
      assert forall i :: 1 <= i < |xs| ==> xs[i] == xs[1..][i - 1];
    }
  }

  /** The records of a list whose items are all dicts. */
  function DictFields(xs: seq<Value>): (rs: seq<Record>)
    requires forall i :: 0 <= i < |xs| ==> xs[i].Dict?
    ensures RecordsValue(rs) == List(xs)
  {
    var rs := seq(|xs|, i requires 0 <= i < |xs| => xs[i].fields);
    assert RecordsValue(rs).items == xs;
    rs
  }

  /** `normalize_to_records(data)` of utils.py. */
  function NormalizeToRecords(data: Value): (r: seq<Record>)
    ensures IsListOfDicts(data) ==> RecordsValue(r) == data
    ensures !IsListOfDicts(data) ==> |r| == 1
  {
    if data.Dict? then [data.fields]
    else if IsListOfDicts(data) then DictFields(data.items)
    else [[("value", data)]]
  }

  /** A list of records normalises to itself: normalisation inverts `RecordsValue`. */
  lemma {:induction false} NormalizeRecords(rs: seq<Record>)
    ensures NormalizeToRecords(RecordsValue(rs)) == rs
  {
    var v := RecordsValue(rs);
    assert IsListOfDicts(v);
    assert DictFields(v.items) == rs;
  }

  /** A dict is one record; a list of dicts is its records; anything else, a mixed list included, is wrapped whole. */
  lemma {:induction false} NormalizeShapes(data: Value)
    ensures data.Dict? ==> NormalizeToRecords(data) == [data.fields]
    ensures !data.Dict? && IsListOfDicts(data) ==> RecordsValue(NormalizeToRecords(data)) == data
    ensures data.List? && (exists i :: 0 <= i < |data.items| && !data.items[i].Dict?)
            ==> NormalizeToRecords(data) == [[("value", data)]]
    ensures !data.Dict? && !data.List? ==> NormalizeToRecords(data) == [[("value", data)]]
  {
  }
}

/**
  The parts of Python's own semantics the engine relies on, over the model's values:
  truthiness, `==`, ordering, `in`, subscription, iteration, arithmetic, and the
  conversions between integers and their decimal text.  Every operation that Python would
  answer by raising returns a `Failure` carrying the exception's kind.
*/
module Python {
  import opened Wrappers
  import opened Values

  datatype PyError = TypeError | AttributeError | KeyError | IndexError | ValueError | NameError

  /** `bool(v)`: None, False, 0 and empty containers are false; everything else is true. */
  predicate Truthy(v: Value) {
    match v
    case Null => false
    case Bool(b) => b
    case Int(i) => i != 0
    case Str(s) => s != []
    case List(xs) => xs != []
    case Dict(fs) => fs != []
    case Builtin(_) => true
    case GetFn(_) => true
  }

  /** Lists and dicts are unhashable: they cannot be dict keys or set members. */
  predicate Hashable(v: Value) {
    !v.List? && !v.Dict?
  }

  /** `bool` is a subclass of `int` in Python: True behaves as 1 and False as 0. */
  predicate IsNumber(v: Value) {
    v.Int? || v.Bool?
  }

  function Num(v: Value): int
    requires IsNumber(v)
  {
    if v.Int? then v.i else if v.b then 1 else 0
  }

  /** `iter(v)`: a list yields its items, a string its one-character strings, a dict its keys. */
  function Iter(v: Value): (r: Option<seq<Value>>)
    ensures r.Some? <==> v.List? || v.Str? || v.Dict?
  {
    match v
    case List(xs) => Some(xs)
    case Str(s) => Some(seq(|s|, i requires 0 <= i < |s| => Str([s[i]])))
    case Dict(fs) => Some(seq(|fs|, i requires 0 <= i < |fs| => Str(fs[i].0)))
    case _ => None
  }

  /** `a == b`.  Numbers compare by value across int and bool, dicts regardless of key order. */
  predicate Eq(a: Value, b: Value)
    decreases a
  {
    if IsNumber(a) && IsNumber(b) then Num(a) == Num(b)
    else match (a, b)
      case (Null, Null) => true
      case (Str(s), Str(t)) => s == t
      case (List(xs), List(ys)) =>
        |xs| == |ys| && forall i :: 0 <= i < |xs| ==> Eq(xs[i], ys[i])
      case (Dict(f), Dict(g)) =>
        && |f| == |g|
        && forall i :: 0 <= i < |f| ==>
             (match Lookup(g, f[i].0)
              case Some(w) => Eq(f[i].1, w)
              case None => false)
      case (Builtin(x), Builtin(y)) => x == y
      case (GetFn(e), GetFn(e')) => e == e'
      case _ => false
  }

  /** Lexicographic order of strings by code point: -1, 0 or 1. */
  function StrCompare(s: string, t: string): (c: int)
    ensures c == 0 <==> s == t
    ensures -1 <= c <= 1
  {
    if s == [] && t == [] then 0
    else if s == [] then -1
    else if t == [] then 1
    else if s[0] < t[0] then -1
    else if s[0] > t[0] then 1
    else
      var c := StrCompare(s[1..], t[1..]);
      assert s == [s[0]] + s[1..] && t == [t[0]] + t[1..];
      c
  }

  /** The outcome of `a < b` and its relatives: the sign of a - b, or None where Python raises TypeError. */
  function Compare(a: Value, b: Value): Option<int>
    decreases a
  {
    if IsNumber(a) && IsNumber(b) then
      Some(if Num(a) < Num(b) then -1 else if Num(a) == Num(b) then 0 else 1)
    else match (a, b)
      case (Str(s), Str(t)) => Some(StrCompare(s, t))
      case (List(xs), List(ys)) => ListCompare(xs, ys)
      case _ => None
  }

  /** Lists compare at the first position where their items differ, else by length. */
  function ListCompare(xs: seq<Value>, ys: seq<Value>): Option<int>
    decreases xs
  {
    if xs == [] && ys == [] then Some(0)
    else if xs == [] then Some(-1)
    else if ys == [] then Some(1)
    else if Eq(xs[0], ys[0]) then ListCompare(xs[1..], ys[1..])
    else Compare(xs[0], ys[0])
  }

  /** `sub in s` for strings. */
  predicate IsSubstring(sub: string, s: string)
    decreases |s|
  {
    sub <= s || (s != [] && IsSubstring(sub, s[1..]))
  }

  /** `item in container`. */
  function Contains(container: Value, item: Value): Result<bool, PyError> {
    match container
    case Dict(fs) =>
      if !Hashable(item) then Failure(TypeError)
      else Success(item.Str? && item.s in Keys(fs))
    case List(xs) => Success(exists i | 0 <= i < |xs| :: Eq(xs[i], item))
    case Str(s) => if item.Str? then Success(IsSubstring(item.s, s)) else Failure(TypeError)
    case _ => Failure(TypeError)
  }

  /** `item in d` for a dict `d`: only a hashable item can be tested, and only a string can be a key. */
  lemma {:induction false} ContainsInDict(fs: seq<(string, Value)>, item: Value)
    ensures Contains(Dict(fs), item).Failure? <==> !Hashable(item)
    ensures Contains(Dict(fs), item).Success? ==> Contains(Dict(fs), item).value == (item.Str? && item.s in Keys(fs))
  {
  }

  /** `container[key]`: dict lookup, or list and string indexing with Python's negative indices. */
  function GetItem(container: Value, key: Value): Result<Value, PyError> {
    match container
    case Dict(fs) =>
      if !Hashable(key) then Failure(TypeError)
      else if key.Str? && key.s in Keys(fs) then Success(Lookup(fs, key.s).value)
      else Failure(KeyError)
    case List(xs) =>
      if !IsNumber(key) then Failure(TypeError)
      else
        var j := if Num(key) < 0 then Num(key) + |xs| else Num(key);
        if 0 <= j < |xs| then Success(xs[j]) else Failure(IndexError)
    case Str(s) =>
      if !IsNumber(key) then Failure(TypeError)
      else
        var j := if Num(key) < 0 then Num(key) + |s| else Num(key);
        if 0 <= j < |s| then Success(Str([s[j]])) else Failure(IndexError)
    case _ => Failure(TypeError)
  }

  /** `s * n` for a sequence: n copies, none when n <= 0. */
  function Repeat<T>(s: seq<T>, n: int): (r: seq<T>)
    ensures |r| == if n <= 0 then 0 else n * |s|
    decreases n
  {
    if n <= 0 then [] else s + Repeat(s, n - 1)
  }

  /** `a + b`. */
  function Add(a: Value, b: Value): Result<Value, PyError> {
    if IsNumber(a) && IsNumber(b) then Success(Int(Num(a) + Num(b)))
    else if a.Str? && b.Str? then Success(Str(a.s + b.s))
    else if a.List? && b.List? then Success(List(a.items + b.items))
    else Failure(TypeError)
  }

  /** `a - b`. */
  function Sub(a: Value, b: Value): Result<Value, PyError> {
    if IsNumber(a) && IsNumber(b) then Success(Int(Num(a) - Num(b))) else Failure(TypeError)
  }

  /** `a * b`: numbers multiply; a string or list times a number repeats it. */
  function Mul(a: Value, b: Value): Result<Value, PyError> {
    if IsNumber(a) && IsNumber(b) then Success(Int(Num(a) * Num(b)))
    else if a.Str? && IsNumber(b) then Success(Str(Repeat(a.s, Num(b))))
    else if IsNumber(a) && b.Str? then Success(Str(Repeat(b.s, Num(a))))
    else if a.List? && IsNumber(b) then Success(List(Repeat(a.items, Num(b))))
    else if IsNumber(a) && b.List? then Success(List(Repeat(b.items, Num(a))))
    else Failure(TypeError)
  }

  /** `-a`. */
  function Neg(a: Value): Result<Value, PyError> {
    if IsNumber(a) then Success(Int(-Num(a))) else Failure(TypeError)
  }

  function DigitChar(d: nat): char
    requires d < 10
  {
    "0123456789"[d]
  }

  predicate IsDigit(c: char) {
    '0' <= c <= '9'
  }

  function DigitValue(c: char): nat
    requires IsDigit(c)
  {
    (c - '0') as nat
  }

  /** The decimal digits of a natural number, most significant first. */
  function NatToString(n: nat): (s: string)
    ensures s != [] && forall i :: 0 <= i < |s| ==> IsDigit(s[i])
    decreases n
  {
    if n < 10 then [DigitChar(n)] else NatToString(n / 10) + [DigitChar(n % 10)]
  }

  /** `str(n)` for an integer. */
  function IntToString(n: int): string {
    if n < 0 then "-" + NatToString(-n) else NatToString(n)
  }

  /** The value of a string of decimal digits. */
  function DigitsValue(s: string): nat
    requires forall i :: 0 <= i < |s| ==> IsDigit(s[i])
  {
    if s == [] then 0 else DigitsValue(s[..|s| - 1]) * 10 + DigitValue(s[|s| - 1])
  }

  predicate IsWhitespace(c: char) {
    c == ' ' || c == '\t' || c == '\n' || c == '\r' || c == '\U{000B}' || c == '\U{000C}'
  }

  /** `s.strip()` for ASCII whitespace. */
  function Strip(s: string): (r: string)
    ensures |r| <= |s|
    decreases |s|
  {
    if s != [] && IsWhitespace(s[0]) then Strip(s[1..])
    else if s != [] && IsWhitespace(s[|s| - 1]) then Strip(s[..|s| - 1])
    else s
  }

  /** `int(s)` for a string: optional surrounding whitespace, an optional sign, decimal digits. */
  function ParseInt(s: string): Option<int> {
    var t := Strip(s);
    var neg := t != [] && t[0] == '-';
    var digits := if t != [] && (t[0] == '-' || t[0] == '+') then t[1..] else t;
    if digits != [] && forall i :: 0 <= i < |digits| ==> IsDigit(digits[i]) then
      var magnitude: int := DigitsValue(digits);
      Some(if neg then -magnitude else magnitude)
    else None
  }

  lemma {:induction false} DigitsOfNat(n: nat)
    ensures DigitsValue(NatToString(n)) == n
    decreases n
  {
    if n >= 10 {
      DigitsOfNat(n / 10);
      var s := NatToString(n);
      assert s[..|s| - 1] == NatToString(n / 10);
    }
  }

  /** `int(str(n)) == n`: the decimal text of an integer reads back as that integer. */
  lemma {:induction false} IntStringRoundTrip(n: int)
    ensures ParseInt(IntToString(n)) == Some(n)
  {
    var s := IntToString(n);
    var digits := NatToString(if n < 0 then -n else n);
    assert Strip(s) == s by {
      assert !IsWhitespace(s[0]) && !IsWhitespace(s[|s| - 1]);
    }
    if n < 0 {
      assert s[1..] == digits;
    }
    DigitsOfNat(if n < 0 then -n else n);
  }
}

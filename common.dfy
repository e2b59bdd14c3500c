/** Shared vocabulary of the model: optional and fallible results, the loosely
    typed configuration values the JavaScript code passes around, and the few
    sequence and string operations (filter, sum, join) the source relies on. */
module Common {

  datatype Option<+T> = None | Some(value: T) {
    /** `x || d` on a value that may be missing. */
    function GetOr(default: T): T {
      match this
      case Some(v) => v
      case None => default
    }
  }

  /** An exception thrown by a call the model cannot see (an RPC read, a signer)
      is `Err`; its message is not modelled. */
  datatype Result<+T> = Ok(value: T) | Err

  /** A configuration or metrics value as the JavaScript objects hold it.
      `Dec(milli)` is a number that is not an integer, given by its
      floor(x * 1000), which is all the code ever derives from one (the gas
      price multiplier). */
  datatype Value =
    | Null
    | Bool(b: bool)
    | Int(i: int)
    | Dec(milli: int)
    | Str(s: string)
    | List(items: seq<string>)

  /** JavaScript truthiness: null, false, 0 and "" are falsy; arrays are truthy. */
  predicate Truthy(v: Value) {
    match v
    case Null => false
    case Bool(b) => b
    case Int(i) => i != 0
    case Dec(_) => true
    case Str(s) => s != ""
    case List(_) => true
  }

  /** A configuration object: the keys present and their values. */
  type Config = map<string, Value>

  /** `cfg[key]`, `None` standing for `undefined`. */
  function Field(cfg: Config, key: string): Option<Value> {
    if key in cfg then Some(cfg[key]) else None
  }

  /** `Math.floor(v * 1000)`, where `*` turns its operand into a number: null,
      false, "" and an empty array are 0 and true is 1; `undefined`, another
      array or a non-empty string give NaN (`None`). A falsy value always
      multiplies to 0. */
  function MilliOf(v: Option<Value>): (r: Option<int>)
    ensures v.Some? && !Truthy(v.value) ==> r == Some(0)
    ensures r.Some? && r.value != 0 ==> v.Some? && Truthy(v.value)
  {
    match v
    case None => None
    case Some(x) =>
      match x
      case Null => Some(0)
      case Bool(b) => Some(if b then 1000 else 0)
      case Int(i) => Some(i * 1000)
      case Dec(m) => Some(m)
      case Str(s) => if s == "" then Some(0) else None
      case List(items) => if items == [] then Some(0) else None
  }

  /** `BigInt(v)`: an integer, a boolean, "" or an empty array converts;
      `undefined`, null, a number that is not an integer, a non-empty string
      and a longer array throw (`None`). Whatever converts is a whole number
      of the scale `MilliOf` works in. */
  function BigIntOf(v: Option<Value>): (r: Option<int>)
    ensures r.Some? ==> MilliOf(v) == Some(r.value * 1000)
    ensures v.Some? && v.value.Int? ==> r == Some(v.value.i)
  {
    match v
    case None => None
    case Some(x) =>
      match x
      case Null => None
      case Bool(b) => Some(if b then 1 else 0)
      case Int(i) => Some(i)
      case Dec(_) => None
      case Str(s) => if s == "" then Some(0) else None
      case List(items) => if items == [] then Some(0) else None
  }

  /** `config.chains` as the list of chain keys it holds; anything that is not
      an array holds none. */
  function ConfigChains(cfg: Config): seq<string> {
    if "chains" in cfg && cfg["chains"].List? then cfg["chains"].items else []
  }

  /** A counter that may be missing from a stored record; `Count` reads it the
      way the source does, with `c || 0`. */
  type Counter = Option<nat>

  function Count(c: Counter): nat {
    c.GetOr(0)
  }

  /** `Array.prototype.filter`: keeps the elements satisfying `p`, in order. */
  function Filter<T(!new)>(p: T -> bool, s: seq<T>): (r: seq<T>)
    ensures |r| <= |s|
    ensures forall i :: 0 <= i < |r| ==> p(r[i])
    ensures forall x :: x in r <==> x in s && p(x)
  {
    if s == [] then [] else (if p(s[0]) then [s[0]] else []) + Filter(p, s[1..])
  }

  lemma {:induction false} FilterConcat<T(!new)>(p: T -> bool, a: seq<T>, b: seq<T>)
    ensures Filter(p, a + b) == Filter(p, a) + Filter(p, b)
  {
    if a == [] {
      assert a + b == b;
    } else {
      assert (a + b)[1..] == a[1..] + b;
      FilterConcat(p, a[1..], b);
    }
  }

  /** Filtering with a predicate no element satisfies removes nothing. */
  lemma {:induction false} FilterAll<T(!new)>(p: T -> bool, s: seq<T>)
    requires forall i :: 0 <= i < |s| ==> p(s[i])
    ensures Filter(p, s) == s
  {
    if s != [] {
      FilterAll(p, s[1..]);
    }
  }

  /** Filtering a sequence extended by one element. */
  lemma FilterSnoc<T(!new)>(p: T -> bool, s: seq<T>, x: T)
    ensures Filter(p, s + [x]) == if p(x) then Filter(p, s) + [x] else Filter(p, s)
  {
    FilterConcat(p, s, [x]);
    assert [x][1..] == [];
  }

  /** A filter removes something exactly when some element fails `p`. */
  lemma {:induction false} FilterSameLength<T(!new)>(p: T -> bool, s: seq<T>)
    ensures |Filter(p, s)| == |s| <==> forall i :: 0 <= i < |s| ==> p(s[i])
  {
    if s != [] {
      FilterSameLength(p, s[1..]);
      assert forall i :: 1 <= i < |s| ==> s[i] == s[1..][i - 1];
    }
  }

  /** Filters by predicates that agree everywhere agree. */
  lemma {:induction false} FilterSame<T(!new)>(p: T -> bool, q: T -> bool, s: seq<T>)
    requires forall x :: p(x) == q(x)
    ensures Filter(p, s) == Filter(q, s)
  {
    if s != [] {
      FilterSame(p, q, s[1..]);
    }
  }

  /** Filtering by `p` and then by `q` is filtering by their conjunction. */
  lemma {:induction false} FilterCompose<T(!new)>(p: T -> bool, q: T -> bool, pq: T -> bool, s: seq<T>)
    requires forall x :: pq(x) == (p(x) && q(x))
    ensures Filter(pq, s) == Filter(q, Filter(p, s))
  {
    if s != [] {
      FilterCompose(p, q, pq, s[1..]);
      var rest := Filter(p, s[1..]);
      if p(s[0]) {
        assert Filter(p, s) == [s[0]] + rest;
        assert ([s[0]] + rest)[1..] == rest;
      } else {
        assert Filter(p, s) == rest;
      }
    }
  }

  /** Number of elements satisfying `p`. */
  function CountIf<T(!new)>(p: T -> bool, s: seq<T>): nat {
    |Filter(p, s)|
  }

  /** `s.reduce((sum, x) => sum + f(x), 0)`, folded from the left. */
  function SumOf<T>(f: T -> nat, s: seq<T>): nat
    decreases |s|
  {
    if s == [] then 0 else SumOf(f, s[..|s| - 1]) + f(s[|s| - 1])
  }

  lemma {:induction false} SumOfConcat<T>(f: T -> nat, a: seq<T>, b: seq<T>)
    ensures SumOf(f, a + b) == SumOf(f, a) + SumOf(f, b)
    decreases |b|
  {
    if b == [] {
      assert a + b == a;
    } else {
      assert (a + b)[..|a + b| - 1] == a + b[..|b| - 1];
      SumOfConcat(f, a, b[..|b| - 1]);
    }
  }

  /** `parts.join(sep)`. */
  function Join(parts: seq<string>, sep: string): string {
    if parts == [] then ""
    else if |parts| == 1 then parts[0]
    else parts[0] + sep + Join(parts[1..], sep)
  }

  /** Number of occurrences of the character `c` in `s`. */
  function CountChar(c: char, s: string): nat {
    if s == [] then 0 else (if s[0] == c then 1 else 0) + CountChar(c, s[1..])
  }

  lemma {:induction false} CountCharConcat(c: char, a: string, b: string)
    ensures CountChar(c, a + b) == CountChar(c, a) + CountChar(c, b)
  {
    if a == [] {
      assert a + b == b;
    } else {
      assert (a + b)[1..] == a[1..] + b;
      CountCharConcat(c, a[1..], b);
    }
  }

  /** Occurrences of `c` over all of `parts`. */
  function CountCharIn(c: char, parts: seq<string>): nat {
    if parts == [] then 0 else CountChar(c, parts[0]) + CountCharIn(c, parts[1..])
  }

  lemma {:induction false} CountCharInConcat(c: char, a: seq<string>, b: seq<string>)
    ensures CountCharIn(c, a + b) == CountCharIn(c, a) + CountCharIn(c, b)
  {
    if a == [] {
      assert a + b == b;
    } else {
      assert (a + b)[1..] == a[1..] + b;
      CountCharInConcat(c, a[1..], b);
    }
  }

  /** The characters of `Join(parts, sep)` are those of the parts and of the
      separators between them. */
  lemma {:induction false} CountCharJoin(c: char, parts: seq<string>, sep: string)
    requires parts != []
    ensures CountChar(c, Join(parts, sep)) == CountCharIn(c, parts) + (|parts| - 1) * CountChar(c, sep)
  {
    if |parts| == 1 {
      assert parts[1..] == [];
    } else {
      var rest := parts[1..];
      var k := CountChar(c, sep);
      CountCharJoin(c, rest, sep);
      CountCharConcat(c, parts[0] + sep, Join(rest, sep));
      CountCharConcat(c, parts[0], sep);
      var n := |rest| - 1;
      assert (n + 1) * k == n * k + k;
    }
  }
}

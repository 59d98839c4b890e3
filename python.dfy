/**
 * The parts of Python's semantics that the rest of the model relies on:
 * the exceptions a call can raise, the values telemetry fields hold and how
 * `==` compares them, insertion-ordered dictionaries, slicing with negative
 * bounds, and the string helpers the source uses (`str.split`, `str.strip`,
 * `str.capitalize`, `str.endswith`, `int()` on a decimal string).
 */
module Python {
  import opened Wrappers

  /** The exception a Python call raises, with the message when the source chooses one. */
  datatype PyError =
    | ValueError(message: string)
    | TypeError(message: string)
    | AttributeError(message: string)
    | ConnectionError(message: string)
    | ZeroDivisionError
    | IndexError
    | StructError

  /** The value a rule's `handle` returns: `True`, `False` or `None`. */
  datatype PyReturn = PyTrue | PyFalse | PyNone


  // ---------------------------------------------------------------------------
  // Scalar values and `==`.

  /** A value without attributes of its own: what a telemetry field can hold. */
  datatype PyValue =
    | NoneValue
    | BoolValue(b: bool)
    | IntValue(i: int)
    | FloatValue(r: real)
    | StrValue(s: string)
    | ListValue(items: seq<PyValue>)

  /** The number a value stands for in a numeric comparison (`True == 1 == 1.0`). */
  function Numeric(v: PyValue): Option<real> {
    match v
    case BoolValue(b) => Some(if b then 1.0 else 0.0)
    case IntValue(i) => Some(i as real)
    case FloatValue(r) => Some(r)
    case _ => None
  }

  /** Python's `a == b` on these values: numbers across types, strings, `None`, lists element by element. */
  predicate PyEq(a: PyValue, b: PyValue) {
    if Numeric(a).Some? || Numeric(b).Some? then Numeric(a) == Numeric(b)
    else match a
      case NoneValue => b.NoneValue?
      case StrValue(s) => b.StrValue? && b.s == s
      case ListValue(xs) =>
        b.ListValue? && |xs| == |b.items|
        && forall i :: 0 <= i < |xs| ==> PyEq(xs[i], b.items[i])
      case _ => false
  }

  lemma {:induction false} PyEqReflexive(a: PyValue)
    ensures PyEq(a, a)
  {
    match a
    case ListValue(xs) =>
      forall i | 0 <= i < |xs|
        ensures PyEq(xs[i], xs[i])
      {
        PyEqReflexive(xs[i]);
      }
    case _ =>
  }

  lemma {:induction false} PyEqSymmetric(a: PyValue, b: PyValue)
    requires PyEq(a, b)
    ensures PyEq(b, a)
  {
    match a
    case ListValue(xs) =>
      if Numeric(b).None? {
        forall i | 0 <= i < |xs|
          ensures PyEq(b.items[i], xs[i])
        {
          PyEqSymmetric(xs[i], b.items[i]);
        }
      }
    case _ =>
  }

  // ---------------------------------------------------------------------------
  // Insertion-ordered dictionaries, as association lists.

  type Dict<K, V> = seq<(K, V)>

  predicate HasKey<K(==), V>(d: Dict<K, V>, k: K) {
    exists i :: 0 <= i < |d| && d[i].0 == k
  }

  predicate DistinctKeys<K(==), V>(d: Dict<K, V>) {
    forall i, j :: 0 <= i < j < |d| ==> d[i].0 != d[j].0
  }

  /** Past a first entry with another key, the key is present iff it is present in the rest. */
  lemma HasKeyTail<K, V>(d: Dict<K, V>, k: K)
    requires d != [] && d[0].0 != k
    ensures HasKey(d, k) <==> HasKey(d[1..], k)
  {
    if HasKey(d, k) {
      var i :| 0 <= i < |d| && d[i].0 == k;
      assert i > 0 && d[1..][i - 1].0 == k;
    }
    if HasKey(d[1..], k) {
      var i :| 0 <= i < |d[1..]| && d[1..][i].0 == k;
      assert d[i + 1].0 == k;
    }
  }

  /** `d.get(k)`. */
  function DictGet<K(==), V>(d: Dict<K, V>, k: K): (r: Option<V>)
    ensures r.Some? <==> HasKey(d, k)
    ensures r.Some? ==> (k, r.value) in d
  {
    if d == [] then None
    else if d[0].0 == k then Some(d[0].1)
    else
      HasKeyTail(d, k);
      DictGet(d[1..], k)
  }

  /** Looking a key up in a dictionary with one more entry in front. */
  lemma DictGetCons<K, V>(x: (K, V), rest: Dict<K, V>, k: K)
    ensures DictGet([x] + rest, k) == if x.0 == k then Some(x.1) else DictGet(rest, k)
  {
    assert ([x] + rest)[1..] == rest;
  }

  /** The step of `DictSet` past a first entry with another key. */
  lemma DictSetStep<K, V>(d: Dict<K, V>, k: K, v: V, rest: Dict<K, V>)
    requires d != [] && d[0].0 != k
    requires DictGet(rest, k) == Some(v)
    requires forall k' :: k' != k ==> DictGet(rest, k') == DictGet(d[1..], k')
    requires HasKey(d[1..], k) ==> |rest| == |d[1..]|
    requires !HasKey(d[1..], k) ==> rest == d[1..] + [(k, v)]
    ensures DictGet([d[0]] + rest, k) == Some(v)
    ensures forall k' :: k' != k ==> DictGet([d[0]] + rest, k') == DictGet(d, k')
    ensures HasKey(d, k) ==> |[d[0]] + rest| == |d|
    ensures !HasKey(d, k) ==> [d[0]] + rest == d + [(k, v)]
  {
    HasKeyTail(d, k);
    DictGetCons(d[0], rest, k);
    forall k' | k' != k
      ensures DictGet([d[0]] + rest, k') == DictGet(d, k')
    {
      DictGetCons(d[0], rest, k');
      assert d == [d[0]] + d[1..];
      DictGetCons(d[0], d[1..], k');
    }
    if !HasKey(d, k) {
      assert [d[0]] + (d[1..] + [(k, v)]) == d + [(k, v)];
    }
  }

  /** `d[k] = v`: an existing key keeps its position, a new key goes last. */
  function DictSet<K(==,!new), V>(d: Dict<K, V>, k: K, v: V): (r: Dict<K, V>)
    ensures DictGet(r, k) == Some(v)
    ensures forall k' :: k' != k ==> DictGet(r, k') == DictGet(d, k')
    ensures HasKey(d, k) ==> |r| == |d|
    ensures !HasKey(d, k) ==> r == d + [(k, v)]
  {
    if d == [] then [(k, v)]
    else if d[0].0 == k then
      DictSetHead(d, k, v);
      [(k, v)] + d[1..]
    else
      var rest := DictSet(d[1..], k, v);
      DictSetStep(d, k, v, rest);
      [d[0]] + rest
  }

  /** Overwriting the first entry's value. */
  lemma DictSetHead<K, V>(d: Dict<K, V>, k: K, v: V)
    requires d != [] && d[0].0 == k
    ensures DictGet([(k, v)] + d[1..], k) == Some(v)
    ensures forall k' :: k' != k ==> DictGet([(k, v)] + d[1..], k') == DictGet(d, k')
    ensures HasKey(d, k)
  {
    DictGetCons((k, v), d[1..], k);
    forall k' | k' != k
      ensures DictGet([(k, v)] + d[1..], k') == DictGet(d, k')
    {
      DictGetCons((k, v), d[1..], k');
      assert d == [d[0]] + d[1..];
      DictGetCons(d[0], d[1..], k');
    }
    assert d[0].0 == k;
  }

  /** `del d[k]` for a key that is present; the other entries keep their order. */
  function DictDelete<K(==,!new), V>(d: Dict<K, V>, k: K): (r: Dict<K, V>)
    ensures !HasKey(d, k) ==> r == d
    ensures DistinctKeys(d) ==> !HasKey(r, k)
    ensures forall k' :: k' != k ==> DictGet(r, k') == DictGet(d, k')
  {
    if d == [] then []
    else if d[0].0 == k then d[1..]
    else
      var r := [d[0]] + DictDelete(d[1..], k);
      assert r[1..] == DictDelete(d[1..], k);
      r
  }

  /** The keys of a dictionary, in order. */
  function Keys<K(==), V>(d: Dict<K, V>): (ks: seq<K>)
    ensures |ks| == |d|
    ensures forall i :: 0 <= i < |d| ==> ks[i] == d[i].0
  {
    if d == [] then [] else [d[0].0] + Keys(d[1..])
  }

  /** A dictionary without repeated keys: its tail has none either, and lacks the first key. */
  lemma DistinctTail<K, V>(d: Dict<K, V>)
    requires d != [] && DistinctKeys(d)
    ensures DistinctKeys(d[1..]) && !HasKey(d[1..], d[0].0)
  {
    forall i | 0 <= i < |d[1..]|
      ensures d[1..][i].0 != d[0].0
    {
      assert d[1..][i] == d[i + 1];
    }
  }

  /** A new first key keeps the keys distinct. */
  lemma DistinctCons<K, V>(x: (K, V), rest: Dict<K, V>)
    requires DistinctKeys(rest) && !HasKey(rest, x.0)
    ensures DistinctKeys([x] + rest)
  {
    var r := [x] + rest;
    forall i, j | 0 <= i < j < |r|
      ensures r[i].0 != r[j].0
    {
      if i == 0 {
        assert r[j] == rest[j - 1];
      } else {
        assert r[i] == rest[i - 1] && r[j] == rest[j - 1];
      }
    }
  }

  lemma {:induction false} DictSetKeepsKeysDistinct<K(!new), V>(d: Dict<K, V>, k: K, v: V)
    requires DistinctKeys(d)
    ensures DistinctKeys(DictSet(d, k, v))
  {
    if d != [] {
      DistinctTail(d);
      if d[0].0 == k {
        DistinctCons((k, v), d[1..]);
      } else {
        DictSetKeepsKeysDistinct(d[1..], k, v);
        var rest := DictSet(d[1..], k, v);
        assert DictGet(rest, d[0].0) == DictGet(d[1..], d[0].0);
        DistinctCons(d[0], rest);
      }
    }
  }

  // ---------------------------------------------------------------------------
  // Slicing with Python's bounds.

  /** The index a Python slice bound denotes on a sequence of length `n`. */
  function SliceIndex(n: nat, bound: int): (i: nat)
    ensures i <= n
  {
    if bound < 0 then (if n + bound < 0 then 0 else n + bound)
    else if bound > n then n else bound
  }

  /** `s[:stop]`. */
  function SliceTo<T>(s: seq<T>, stop: int): (r: seq<T>)
    ensures stop >= 0 ==> |r| == if stop < |s| then stop else |s|
    ensures |r| <= |s| && r == s[..|r|]
  {
    s[..SliceIndex(|s|, stop)]
  }

  /** `s[start:]`. */
  function SliceFrom<T>(s: seq<T>, start: int): (r: seq<T>)
    ensures start <= 0 ==> |r| == if -start < |s| && start != 0 then -start else |s|
    ensures |r| <= |s| && r == s[|s| - |r|..]
  {
    s[SliceIndex(|s|, start)..]
  }

  // ---------------------------------------------------------------------------
  // Strings.

  /** `s.split(sep)`: the pieces between occurrences of `sep`, empty pieces included. */
  function Split(s: string, sep: char): (parts: seq<string>)
    ensures |parts| >= 1
    ensures forall i :: 0 <= i < |parts| ==> sep !in parts[i]
  {
    if s == [] then [[]]
    else
      var rest := Split(s[1..], sep);
      if s[0] == sep then [[]] + rest
      else [[s[0]] + rest[0]] + rest[1..]
  }

  /** A string without the separator splits into itself alone. */
  lemma {:induction false} SplitWithoutSeparator(w: string, sep: char)
    requires sep !in w
    ensures Split(w, sep) == [w]
  {
    if w != [] {
      SplitWithoutSeparator(w[1..], sep);
      assert [w[0]] + w[1..] == w;
    }
  }

  /** Splitting at the first separator. */
  lemma {:induction false} SplitAtFirst(w: string, sep: char, rest: string)
    requires sep !in w
    ensures Split(w + [sep] + rest, sep) == [w] + Split(rest, sep)
  {
    if w == [] {
      assert w + [sep] + rest == [sep] + rest;
      assert ([sep] + rest)[1..] == rest;
    } else {
      SplitAtFirst(w[1..], sep, rest);
      assert (w + [sep] + rest)[1..] == w[1..] + [sep] + rest;
      assert [w[0]] + w[1..] == w;
    }
  }

  /** `sep.join(parts)`. */
  function Join(parts: seq<string>, sep: char): string {
    if parts == [] then []
    else if |parts| == 1 then parts[0]
    else parts[0] + [sep] + Join(parts[1..], sep)
  }

  lemma {:induction false} JoinSplit(s: string, sep: char)
    ensures Join(Split(s, sep), sep) == s
  {
    if s != [] {
      var rest := Split(s[1..], sep);
      JoinSplit(s[1..], sep);
      if s[0] == sep {
        assert ([[]] + rest)[1..] == rest;
      } else {
        var parts := [[s[0]] + rest[0]] + rest[1..];
        if |rest| == 1 {
          assert parts == [[s[0]] + rest[0]];
        } else {
          assert parts[1..] == rest[1..];
          assert Join(rest, sep) == rest[0] + [sep] + Join(rest[1..], sep);
        }
      }
    }
  }

  predicate IsAsciiUpper(c: char) {
    'A' <= c <= 'Z'
  }

  predicate IsAsciiLower(c: char) {
    'a' <= c <= 'z'
  }

  function Upper(c: char): (u: char)
    ensures !IsAsciiLower(u)
  {
    if IsAsciiLower(c) then (c as int - 32) as char else c
  }

  function Lower(c: char): (l: char)
    ensures !IsAsciiUpper(l)
  {
    if IsAsciiUpper(c) then (c as int + 32) as char else c
  }

  function LowerAll(s: string): (r: string)
    ensures |r| == |s|
    ensures forall i :: 0 <= i < |s| ==> r[i] == Lower(s[i])
  {
    if s == [] then [] else [Lower(s[0])] + LowerAll(s[1..])
  }

  /** `w.capitalize()`: the first character upper-cased and the rest lower-cased (ASCII letters). */
  function Capitalize(w: string): (r: string)
    ensures |r| == |w|
    ensures w != [] ==> r[0] == Upper(w[0]) && !IsAsciiLower(r[0])
    ensures forall i :: 0 < i < |w| ==> r[i] == Lower(w[i]) && !IsAsciiUpper(r[i])
  {
    if w == [] then [] else [Upper(w[0])] + LowerAll(w[1..])
  }

  /** `s.endswith(suffix)`. */
  predicate EndsWith(s: string, suffix: string) {
    |suffix| <= |s| && s[|s| - |suffix|..] == suffix
  }

  /** `s.strip(c)`: `s` without the runs of `c` at either end. */
  function Strip(s: string, c: char): (r: string)
    ensures r != [] ==> r[0] != c && r[|r| - 1] != c
    ensures c !in s ==> r == s
  {
    if s == [] then []
    else if s[0] == c then Strip(s[1..], c)
    else if s[|s| - 1] == c then Strip(s[..|s| - 1], c)
    else s
  }

  predicate IsSpace(c: char) {
    c == ' ' || c == '\t' || c == '\n' || c == '\r' || c as int == 11 || c as int == 12
  }

  predicate IsDigit(c: char) {
    '0' <= c <= '9'
  }

  function DigitValue(c: char): nat
    requires IsDigit(c)
  {
    c as int - '0' as int
  }

  function DigitChar(d: nat): (c: char)
    requires d < 10
    ensures IsDigit(c) && DigitValue(c) == d
  {
    ('0' as int + d) as char
  }

  predicate AllDigits(s: string) {
    forall i :: 0 <= i < |s| ==> IsDigit(s[i])
  }

  /** The number a non-empty run of decimal digits denotes. */
  function DigitsValue(ds: string): nat
    requires AllDigits(ds)
  {
    if ds == [] then 0 else 10 * DigitsValue(ds[..|ds| - 1]) + DigitValue(ds[|ds| - 1])
  }

  function TrimSpace(s: string): string {
    if s == [] then []
    else if IsSpace(s[0]) then TrimSpace(s[1..])
    else if IsSpace(s[|s| - 1]) then TrimSpace(s[..|s| - 1])
    else s
  }

  /** `int(s)` on text: optional surrounding whitespace, an optional sign, then decimal digits. */
  function ParseInt(s: string): (r: Result<int, PyError>)
    ensures r.Failure? ==> r.error.ValueError?
  {
    var t := TrimSpace(s);
    var negative := t != [] && t[0] == '-';
    var body := if t != [] && (t[0] == '-' || t[0] == '+') then t[1..] else t;
    if body == [] || !AllDigits(body) then
      Failure(ValueError("invalid literal for int() with base 10"))
    else
      Success(if negative then -(DigitsValue(body) as int) else DigitsValue(body))
  }

  /** The decimal digits of a natural number, as `str(n)` writes them. */
  function Decimal(n: nat): (ds: string)
    ensures ds != []
    ensures forall i :: 0 <= i < |ds| ==> IsDigit(ds[i])
  {
    if n < 10 then [DigitChar(n)] else Decimal(n / 10) + [DigitChar(n % 10)]
  }

  lemma {:induction false} DecimalValue(n: nat)
    ensures DigitsValue(Decimal(n)) == n
  {
    if n >= 10 {
      DecimalValue(n / 10);
      var ds := Decimal(n);
      assert ds[..|ds| - 1] == Decimal(n / 10);
    }
  }

  /** `int(str(n)) == n` for any natural number. */
  lemma ParseIntDecimal(n: nat)
    ensures ParseInt(Decimal(n)) == Success(n)
  {
    var ds := Decimal(n);
    DecimalValue(n);
    assert TrimSpace(ds) == ds by {
      assert !IsSpace(ds[0]) && !IsSpace(ds[|ds| - 1]);
    }
  }
}

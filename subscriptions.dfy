/**
 * The telemetry subscription manager: a table from field pattern to the
 * handlers subscribed under it, and the last value seen for every field path.
 *
 * A notification flattens the telemetry record into dotted paths, reports
 * the paths whose value differs (`!=`) from the last one seen, and calls every
 * handler of every pattern that matches a reported path (`fnmatch`). Nothing
 * is deduplicated: a handler is called once per (changed path, matching
 * pattern, occurrence in that pattern's list).
 */
module TelemetrySubscriptions {
  import opened Wrappers
  import opened Python
  import opened Events
  import opened Lists

  // ---------------------------------------------------------------------------
  // Patterns (`fnmatch.fnmatch`).

  /**
   * Whether `name` matches the shell pattern `p` as a whole: `*` matches any
   * run of characters (dots included), `?` any one character, every other
   * character itself.
   */
  predicate Match(name: string, p: string)
    decreases |name| + |p|
  {
    if p == [] then name == []
    else if p[0] == '*' then Match(name, p[1..]) || (name != [] && Match(name[1..], p))
    else name != [] && (p[0] == '?' || p[0] == name[0]) && Match(name[1..], p[1..])
  }

  predicate IsLiteral(p: string) {
    forall i :: 0 <= i < |p| ==> p[i] != '*' && p[i] != '?'
  }

  /** A pattern without wildcards matches exactly itself. */
  lemma {:induction false} LiteralMatchesItself(name: string, p: string)
    requires IsLiteral(p)
    ensures Match(name, p) <==> name == p
  {
    if p != [] && name != [] {
      assert IsLiteral(p[1..]) by {
        assert forall i :: 0 <= i < |p[1..]| ==> p[1..][i] == p[i + 1];
      }
      LiteralMatchesItself(name[1..], p[1..]);
      if name[0] == p[0] && name[1..] == p[1..] {
        assert name == [name[0]] + name[1..] && p == [p[0]] + p[1..];
      }
    }
  }

  lemma {:induction false} StarMatchesEverything(name: string)
    ensures Match(name, "*")
  {
    if name != [] {
      StarMatchesEverything(name[1..]);
    }
  }

  /**
   * A literal followed by `*` matches exactly the names that start with the
   * literal: `truck.*` matches every `truck.` path however deep.
   */
  lemma {:induction false} PrefixStarMatchesExtensions(name: string, lit: string)
    requires IsLiteral(lit)
    ensures Match(name, lit + "*") <==> |lit| <= |name| && name[..|lit|] == lit
  {
    if lit == [] {
      assert lit + "*" == "*";
      StarMatchesEverything(name);
    } else {
      assert (lit + "*")[0] == lit[0] && (lit + "*")[1..] == lit[1..] + "*";
      assert IsLiteral(lit[1..]) by {
        assert forall i :: 0 <= i < |lit[1..]| ==> lit[1..][i] == lit[i + 1];
      }
      if name != [] {
        PrefixStarMatchesExtensions(name[1..], lit[1..]);
        if |lit| <= |name| {
          assert name[..|lit|] == [name[0]] + name[1..][..|lit| - 1];
          assert lit == [lit[0]] + lit[1..];
        }
      }
    }
  }

  // ---------------------------------------------------------------------------
  // Flattening a record into dotted paths (`_extract_values`).

  /**
   * What an attribute holds: a value without attributes, an object with
   * attributes (in `vars()` order), or a dictionary.
   */
  datatype Value =
    | Scalar(v: PyValue)
    | Record(attrs: seq<(string, Value)>)
    | Mapping(entries: Dict<string, PyValue>)

  /** `f"{prefix}.{attr}".strip('.')`. */
  function PathJoin(prefix: string, attr: string): (path: string)
    ensures path != [] ==> path[0] != '.' && path[|path| - 1] != '.'
  {
    Strip(prefix + "." + attr, '.')
  }

  /** `values.update(more)`: each entry of `more`, in order, set into `values`. */
  function Update(values: Dict<string, PyValue>, more: Dict<string, PyValue>): Dict<string, PyValue>
    decreases |more|
  {
    if more == [] then values else Update(DictSet(values, more[0].0, more[0].1), more[1..])
  }

  /**
   * The flattened paths of an object: attributes holding objects or
   * dictionaries are recursed into, everything else (lists included) is one
   * leaf. `vars()` of something that is not an object raises `TypeError`.
   */
  function Flatten(v: Value, prefix: string): Result<Dict<string, PyValue>, PyError>
    decreases v, 1
  {
    match v
    case Record(attrs) => FlattenAttrs(v, 0, prefix, [])
    case _ => Failure(TypeError("vars() argument must have __dict__ attribute"))
  }

  function FlattenAttrs(owner: Value, i: nat, prefix: string, acc: Dict<string, PyValue>): Result<Dict<string, PyValue>, PyError>
    requires owner.Record? && i <= |owner.attrs|
    decreases owner, 0, |owner.attrs| - i
  {
    if i == |owner.attrs| then Success(acc)
    else
      var attr := owner.attrs[i].0;
      var val := owner.attrs[i].1;
      var path := PathJoin(prefix, attr);
      if val.Scalar? then FlattenAttrs(owner, i + 1, prefix, DictSet(acc, path, val.v))
      else
        var sub :- Flatten(val, path);
        FlattenAttrs(owner, i + 1, prefix, Update(acc, sub))
  }

  predicate NoOuterDots(path: string) {
    path != [] ==> path[0] != '.' && path[|path| - 1] != '.'
  }

  predicate PathsClean(d: Dict<string, PyValue>) {
    DistinctKeys(d) && forall i :: 0 <= i < |d| ==> NoOuterDots(d[i].0)
  }

  lemma {:induction false} DictSetKeepsClean(d: Dict<string, PyValue>, k: string, v: PyValue)
    requires PathsClean(d) && NoOuterDots(k)
    ensures PathsClean(DictSet(d, k, v))
  {
    DictSetKeepsKeysDistinct(d, k, v);
    var r := DictSet(d, k, v);
    forall i | 0 <= i < |r|
      ensures NoOuterDots(r[i].0)
    {
      var key := r[i].0;
      assert HasKey(r, key);
      if key != k {
        assert DictGet(d, key).Some?;
        var m :| 0 <= m < |d| && d[m] == (key, DictGet(d, key).value);
      }
    }
  }

  lemma {:induction false} UpdateKeepsClean(values: Dict<string, PyValue>, more: Dict<string, PyValue>)
    requires PathsClean(values) && PathsClean(more)
    ensures PathsClean(Update(values, more))
    decreases |more|
  {
    if more != [] {
      DictSetKeepsClean(values, more[0].0, more[0].1);
      assert PathsClean(more[1..]) by {
        assert forall i :: 0 <= i < |more[1..]| ==> more[1..][i] == more[i + 1];
      }
      UpdateKeepsClean(DictSet(values, more[0].0, more[0].1), more[1..]);
    }
  }

  /**
   * Flattening yields every path once, dot-joined, with no dot at either end
   * of a path.
   */
  lemma {:induction false} FlattenPathsClean(v: Value, prefix: string)
    ensures Flatten(v, prefix).Success? ==> PathsClean(Flatten(v, prefix).value)
    decreases v, 1
  {
    if v.Record? {
      FlattenAttrsPathsClean(v, 0, prefix, []);
    }
  }

  lemma {:induction false} FlattenAttrsPathsClean(owner: Value, i: nat, prefix: string, acc: Dict<string, PyValue>)
    requires owner.Record? && i <= |owner.attrs|
    requires PathsClean(acc)
    ensures FlattenAttrs(owner, i, prefix, acc).Success? ==> PathsClean(FlattenAttrs(owner, i, prefix, acc).value)
    decreases owner, 0, |owner.attrs| - i
  {
    if i < |owner.attrs| {
      var val := owner.attrs[i].1;
      var path := PathJoin(prefix, owner.attrs[i].0);
      if val.Scalar? {
        DictSetKeepsClean(acc, path, val.v);
        FlattenAttrsPathsClean(owner, i + 1, prefix, DictSet(acc, path, val.v));
      } else {
        FlattenPathsClean(val, path);
        if Flatten(val, path).Success? {
          var sub := Flatten(val, path).value;
          UpdateKeepsClean(acc, sub);
          FlattenAttrsPathsClean(owner, i + 1, prefix, Update(acc, sub));
        }
      }
    }
  }

  /** An attribute that holds a dictionary makes flattening raise `TypeError`. */
  lemma {:induction false} DictionaryAttributeRaises(owner: Value, i: nat, prefix: string, acc: Dict<string, PyValue>, j: nat)
    requires owner.Record? && i <= j < |owner.attrs|
    requires owner.attrs[j].1.Mapping?
    ensures FlattenAttrs(owner, i, prefix, acc).Failure?
    ensures FlattenAttrs(owner, i, prefix, acc).error.TypeError?
    decreases |owner.attrs| - i
  {
    var val := owner.attrs[i].1;
    var path := PathJoin(prefix, owner.attrs[i].0);
    if i < j {
      if val.Scalar? {
        DictionaryAttributeRaises(owner, i + 1, prefix, DictSet(acc, path, val.v), j);
      } else if Flatten(val, path).Success? {
        DictionaryAttributeRaises(owner, i + 1, prefix, Update(acc, Flatten(val, path).value), j);
      } else {
        FlattenFailsWithTypeError(val, path);
      }
    }
  }

  /** The only error flattening raises is `TypeError`. */
  lemma {:induction false} FlattenFailsWithTypeError(v: Value, prefix: string)
    ensures Flatten(v, prefix).Failure? ==> Flatten(v, prefix).error.TypeError?
    decreases v, 1
  {
    if v.Record? {
      FlattenAttrsFailsWithTypeError(v, 0, prefix, []);
    }
  }

  lemma {:induction false} FlattenAttrsFailsWithTypeError(owner: Value, i: nat, prefix: string, acc: Dict<string, PyValue>)
    requires owner.Record? && i <= |owner.attrs|
    ensures FlattenAttrs(owner, i, prefix, acc).Failure? ==> FlattenAttrs(owner, i, prefix, acc).error.TypeError?
    decreases owner, 0, |owner.attrs| - i
  {
    if i < |owner.attrs| {
      var val := owner.attrs[i].1;
      var path := PathJoin(prefix, owner.attrs[i].0);
      if val.Scalar? {
        FlattenAttrsFailsWithTypeError(owner, i + 1, prefix, DictSet(acc, path, val.v));
      } else {
        FlattenFailsWithTypeError(val, path);
        if Flatten(val, path).Success? {
          FlattenAttrsFailsWithTypeError(owner, i + 1, prefix, Update(acc, Flatten(val, path).value));
        }
      }
    }
  }

  /** A list-valued attribute is one leaf holding the whole list, not one path per element. */
  lemma ListIsOneLeaf(attr: string, xs: seq<PyValue>)
    ensures Flatten(Record([(attr, Scalar(ListValue(xs)))]), "")
         == Success([(PathJoin("", attr), ListValue(xs))])
  {
    var v := Record([(attr, Scalar(ListValue(xs)))]);
    var path := PathJoin("", attr);
    assert DictSet([], path, ListValue(xs)) == [(path, ListValue(xs))];
    assert FlattenAttrs(v, 0, "", []) == FlattenAttrs(v, 1, "", [(path, ListValue(xs))]);
  }

  // ---------------------------------------------------------------------------
  // Change detection (`_find_changed_fields`).

  /** `last_known_values.get(path)`: a path never seen reads as `None`. */
  function Baseline(base: map<string, PyValue>, path: string): PyValue {
    if path in base then base[path] else NoneValue
  }

  /** The paths reported changed, in order, and the baseline afterwards. */
  function Changes(base: map<string, PyValue>, items: Dict<string, PyValue>): (r: (seq<string>, map<string, PyValue>))
    decreases |items|
  {
    if items == [] then ([], base)
    else
      var (path, v) := items[0];
      if !PyEq(Baseline(base, path), v) then
        var rest := Changes(base[path := v], items[1..]);
        ([path] + rest.0, rest.1)
      else Changes(base, items[1..])
  }

  /** A path is reported iff its value differs from the baseline, and a reported path's baseline becomes its value. */
  lemma {:induction false} ChangesReportDifferences(base: map<string, PyValue>, items: Dict<string, PyValue>)
    requires DistinctKeys(items)
    ensures forall path :: path in Changes(base, items).0 <==>
              exists i :: 0 <= i < |items| && items[i].0 == path && !PyEq(Baseline(base, path), items[i].1)
    ensures forall i :: 0 <= i < |items| ==>
              if PyEq(Baseline(base, items[i].0), items[i].1)
              then Baseline(Changes(base, items).1, items[i].0) == Baseline(base, items[i].0)
              else Baseline(Changes(base, items).1, items[i].0) == items[i].1
    ensures forall path :: (forall i :: 0 <= i < |items| ==> items[i].0 != path) ==>
              Baseline(Changes(base, items).1, path) == Baseline(base, path)
    decreases |items|
  {
    if items != [] {
      var (p, v) := items[0];
      var tail := items[1..];
      assert DistinctKeys(tail) by {
        assert forall i :: 0 <= i < |tail| ==> tail[i] == items[i + 1];
      }
      assert forall i :: 0 <= i < |tail| ==> tail[i].0 != p by {
        assert forall i :: 0 <= i < |tail| ==> tail[i] == items[i + 1];
      }
      var base' := if !PyEq(Baseline(base, p), v) then base[p := v] else base;
      ChangesReportDifferences(base', tail);
      assert forall i :: 0 < i < |items| ==> items[i] == tail[i - 1];
      assert forall path :: path != p ==> Baseline(base', path) == Baseline(base, path);
    }
  }

  /** Notifying twice with the same values reports nothing the second time. */
  lemma SecondNotificationReportsNothing(base: map<string, PyValue>, items: Dict<string, PyValue>)
    requires DistinctKeys(items)
    ensures Changes(Changes(base, items).1, items).0 == []
  {
    ChangesReportDifferences(base, items);
    var after := Changes(base, items).1;
    forall i | 0 <= i < |items|
      ensures PyEq(Baseline(after, items[i].0), items[i].1)
    {
      PyEqReflexive(items[i].1);
    }
    UnchangedReportsNothing(after, items);
  }

  lemma {:induction false} UnchangedReportsNothing(base: map<string, PyValue>, items: Dict<string, PyValue>)
    requires forall i :: 0 <= i < |items| ==> PyEq(Baseline(base, items[i].0), items[i].1)
    ensures Changes(base, items) == ([], base)
    decreases |items|
  {
    if items != [] {
      assert forall i :: 0 <= i < |items[1..]| ==> items[1..][i] == items[i + 1];
      UnchangedReportsNothing(base, items[1..]);
    }
  }

  /** A path seen for the first time whose value is `None` is not reported. */
  lemma NewNonePathNotReported(base: map<string, PyValue>, items: Dict<string, PyValue>, path: string)
    requires DistinctKeys(items) && path !in base
    requires forall i :: 0 <= i < |items| && items[i].0 == path ==> items[i].1 == NoneValue
    ensures path !in Changes(base, items).0
  {
    ChangesReportDifferences(base, items);
  }

  // ---------------------------------------------------------------------------
  // Dispatch (`notify_handlers`).

  type Table = Dict<string, seq<ObjectId>>

  /** The handlers called for one changed path: every handler of every matching pattern, table order. */
  function MatchingHandlers(path: string, table: Table): seq<ObjectId> {
    if table == [] then []
    else (if Match(path, table[0].0) then table[0].1 else []) + MatchingHandlers(path, table[1..])
  }

  /** The handlers called for a list of changed paths, path after path. */
  function Calls(paths: seq<string>, table: Table): seq<ObjectId> {
    if paths == [] then [] else MatchingHandlers(paths[0], table) + Calls(paths[1..], table)
  }

  /** The handlers called for a path are exactly those subscribed under a pattern it matches. */
  lemma {:induction false} MatchingHandlersExact(path: string, table: Table, h: ObjectId)
    ensures h in MatchingHandlers(path, table) <==>
              exists i :: 0 <= i < |table| && Match(path, table[i].0) && h in table[i].1
  {
    if table != [] {
      MatchingHandlersExact(path, table[1..], h);
      assert forall i :: 0 < i < |table| ==> table[i] == table[1..][i - 1];
      if h in MatchingHandlers(path, table[1..]) {
        var i :| 0 <= i < |table[1..]| && Match(path, table[1..][i].0) && h in table[1..][i].1;
        assert table[i + 1] == table[1..][i];
      }
    }
  }

  /**
   * No deduplication: a handler is called once for every occurrence under
   * every pattern that matches the path.
   */
  lemma {:induction false} MatchingHandlersCount(path: string, table: Table, h: ObjectId)
    ensures multiset(MatchingHandlers(path, table))[h] == OccurrencesUnderMatches(path, table, h)
  {
    if table != [] {
      MatchingHandlersCount(path, table[1..], h);
    }
  }

  function OccurrencesUnderMatches(path: string, table: Table, h: ObjectId): nat {
    if table == [] then 0
    else (if Match(path, table[0].0) then multiset(table[0].1)[h] else 0) + OccurrencesUnderMatches(path, table[1..], h)
  }

  /** A handler is called for a batch of paths iff it is subscribed under a pattern one of the paths matches. */
  lemma {:induction false} CallsExact(paths: seq<string>, table: Table, h: ObjectId)
    ensures h in Calls(paths, table) <==>
              exists k, i :: 0 <= k < |paths| && 0 <= i < |table| && Match(paths[k], table[i].0) && h in table[i].1
  {
    if paths != [] {
      CallsExact(paths[1..], table, h);
      MatchingHandlersExact(paths[0], table, h);
      assert forall k :: 0 < k < |paths| ==> paths[k] == paths[1..][k - 1];
      if h in Calls(paths[1..], table) {
        var k, i :| 0 <= k < |paths[1..]| && 0 <= i < |table| && Match(paths[1..][k], table[i].0) && h in table[i].1;
        assert paths[k + 1] == paths[1..][k];
      }
    }
  }

  lemma {:induction false} MatchingHandlersAppend(path: string, a: Table, b: Table)
    ensures MatchingHandlers(path, a + b) == MatchingHandlers(path, a) + MatchingHandlers(path, b)
  {
    if a == [] {
      assert a + b == b;
    } else {
      assert (a + b)[0] == a[0] && (a + b)[1..] == a[1..] + b;
      MatchingHandlersAppend(path, a[1..], b);
    }
  }

  lemma {:induction false} CallsAppend(a: seq<string>, b: seq<string>, table: Table)
    ensures Calls(a + b, table) == Calls(a, table) + Calls(b, table)
  {
    if a == [] {
      assert a + b == b;
    } else {
      assert (a + b)[0] == a[0] && (a + b)[1..] == a[1..] + b;
      CallsAppend(a[1..], b, table);
    }
  }

  /**
   * The calls a notification makes when the handlers in `raising` raise from
   * `handle_telemetry_data`: nothing catches the error, so the loop stops
   * right after the first raising call.
   */
  function CallsMade(calls: seq<ObjectId>, raising: map<ObjectId, PyError>): (r: seq<ObjectId>)
    ensures r <= calls
    ensures forall i :: 0 <= i < |r| - 1 ==> r[i] !in raising
    ensures r == calls || (r != [] && r[|r| - 1] in raising)
  {
    if calls == [] then []
    else if calls[0] in raising then [calls[0]]
    else [calls[0]] + CallsMade(calls[1..], raising)
  }

  /** What reaches the caller: the first raising handler's error, if any handler raises. */
  function Propagated(calls: seq<ObjectId>, raising: map<ObjectId, PyError>): (r: Result<(), PyError>)
    ensures r.Failure? <==> exists i :: 0 <= i < |calls| && calls[i] in raising
    ensures r.Failure? ==> exists i :: 0 <= i < |calls| && calls[i] in raising && r.error == raising[calls[i]]
  {
    if calls == [] then Success(())
    else if calls[0] in raising then Failure(raising[calls[0]])
    else
      var rest := Propagated(calls[1..], raising);
      assert forall i :: 0 < i < |calls| ==> calls[i] == calls[1..][i - 1];
      rest
  }

  predicate NoneRaise(calls: seq<ObjectId>, raising: map<ObjectId, PyError>) {
    forall i :: 0 <= i < |calls| ==> calls[i] !in raising
  }

  /** Calls that do not raise are made in full, and the rest of the loop goes on. */
  lemma {:induction false} CallsMadeAppend(a: seq<ObjectId>, b: seq<ObjectId>, raising: map<ObjectId, PyError>)
    requires NoneRaise(a, raising)
    ensures CallsMade(a + b, raising) == a + CallsMade(b, raising)
    ensures Propagated(a + b, raising) == Propagated(b, raising)
  {
    if a == [] {
      assert a + b == b;
    } else {
      assert (a + b)[0] == a[0] && (a + b)[1..] == a[1..] + b;
      CallsMadeAppend(a[1..], b, raising);
    }
  }

  /** When no handler raises, a notification makes every call and returns normally. */
  lemma CallsMadeWithoutRaise(calls: seq<ObjectId>, raising: map<ObjectId, PyError>)
    requires NoneRaise(calls, raising)
    ensures CallsMade(calls, raising) == calls && Propagated(calls, raising) == Success(())
  {
    CallsMadeAppend(calls, [], raising);
    assert calls + [] == calls;
  }

  /** The calls for path `k` under the patterns after `j`, then those for the paths after `k`. */
  function CallsAfter(paths: seq<string>, table: Table, k: nat, j: nat): seq<ObjectId>
    requires k < |paths| && j < |table|
  {
    MatchingHandlers(paths[k], table[j + 1..]) + Calls(paths[k + 1..], table)
  }

  /**
   * The full call list seen from inside the loops: the calls for the paths
   * before `k`, those for path `k` under the patterns before `j`, the
   * handlers of pattern `j` when it matches, and everything after.
   */
  lemma CallsSplit(paths: seq<string>, table: Table, k: nat, j: nat)
    requires k < |paths| && j < |table| && Match(paths[k], table[j].0)
    ensures Calls(paths, table)
         == Calls(paths[..k], table) + MatchingHandlers(paths[k], table[..j]) + table[j].1 + CallsAfter(paths, table, k, j)
  {
    CallsAt(paths, table, k);
    MatchingHandlersAt(paths[k], table, j);
    Regroup(Calls(paths[..k], table), MatchingHandlers(paths[k], table[..j]), table[j].1,
            MatchingHandlers(paths[k], table[j + 1..]), Calls(paths[k + 1..], table));
  }

  /** A raising call inside the loops is the last call made, and its error is what propagates. */
  lemma FirstRaiseStops(paths: seq<string>, table: Table, k: nat, j: nat, m: nat,
                        called: seq<ObjectId>, raising: map<ObjectId, PyError>)
    requires k < |paths| && j < |table| && Match(paths[k], table[j].0)
    requires m < |table[j].1| && table[j].1[m] in raising
    requires called == Calls(paths[..k], table) + MatchingHandlers(paths[k], table[..j]) + table[j].1[..m]
    requires NoneRaise(called, raising)
    ensures CallsMade(Calls(paths, table), raising) == called + [table[j].1[m]]
    ensures Propagated(Calls(paths, table), raising) == Failure(raising[table[j].1[m]])
  {
    var hs := table[j].1;
    var tail := [hs[m]] + (hs[m + 1..] + CallsAfter(paths, table, k, j));
    CallsAround(paths, table, k, j, m, called);
    CallsMadeAppend(called, tail, raising);
    assert tail[0] == hs[m];
  }

  /** The full call list as the calls made so far, the raising call, and the rest. */
  lemma CallsAround(paths: seq<string>, table: Table, k: nat, j: nat, m: nat, called: seq<ObjectId>)
    requires k < |paths| && j < |table| && Match(paths[k], table[j].0) && m < |table[j].1|
    requires called == Calls(paths[..k], table) + MatchingHandlers(paths[k], table[..j]) + table[j].1[..m]
    ensures Calls(paths, table) == called + ([table[j].1[m]] + (table[j].1[m + 1..] + CallsAfter(paths, table, k, j)))
  {
    CallsSplit(paths, table, k, j);
    Around(Calls(paths, table), Calls(paths[..k], table) + MatchingHandlers(paths[k], table[..j]),
           table[j].1, CallsAfter(paths, table, k, j), m);
  }

  /** Cutting a concatenation around element `m` of its middle part. */
  lemma Around(full: seq<ObjectId>, before: seq<ObjectId>, hs: seq<ObjectId>, after: seq<ObjectId>, m: nat)
    requires m < |hs| && full == before + hs + after
    ensures full == (before + hs[..m]) + ([hs[m]] + (hs[m + 1..] + after))
  {
    assert hs == hs[..m] + ([hs[m]] + hs[m + 1..]);
  }

  /** Regrouping a concatenation, kept apart from the recursive functions. */
  lemma Regroup(a: seq<ObjectId>, b: seq<ObjectId>, c: seq<ObjectId>, d: seq<ObjectId>, e: seq<ObjectId>)
    ensures a + (b + c + d) + e == a + b + c + (d + e)
  {
  }

  lemma CallsAt(paths: seq<string>, table: Table, k: nat)
    requires k < |paths|
    ensures Calls(paths, table)
         == Calls(paths[..k], table) + MatchingHandlers(paths[k], table) + Calls(paths[k + 1..], table)
  {
    var tail := paths[k..];
    assert paths == paths[..k] + tail;
    CallsAppend(paths[..k], tail, table);
    assert tail[0] == paths[k] && tail[1..] == paths[k + 1..];
    assert Calls(tail, table) == MatchingHandlers(paths[k], table) + Calls(paths[k + 1..], table);
  }

  lemma MatchingHandlersAt(path: string, table: Table, j: nat)
    requires j < |table| && Match(path, table[j].0)
    ensures MatchingHandlers(path, table)
         == MatchingHandlers(path, table[..j]) + table[j].1 + MatchingHandlers(path, table[j + 1..])
  {
    var tail := table[j..];
    assert table == table[..j] + tail;
    MatchingHandlersAppend(path, table[..j], tail);
    assert tail[0] == table[j] && tail[1..] == table[j + 1..];
    assert MatchingHandlers(path, tail) == table[j].1 + MatchingHandlers(path, table[j + 1..]);
  }

  // ---------------------------------------------------------------------------
  // The subscription table.

  /** A `subscribe`/`unsubscribe` argument: one pattern string or a list of them. */
  datatype Patterns = One(pattern: string) | Many(patterns: seq<string>)

  function PatternList(ps: Patterns): seq<string> {
    match ps
    case One(p) => [p]
    case Many(l) => l
  }

  /** `subscriptions[pattern]` on a `defaultdict(list)`: the list, or an empty one. */
  function HandlersUnder(table: Table, pattern: string): seq<ObjectId> {
    DictGet(table, pattern).GetOr([])
  }

  /** `subscriptions[pattern].append(handler)`. */
  function SubscribeOne(table: Table, pattern: string, h: ObjectId): Table {
    DictSet(table, pattern, HandlersUnder(table, pattern) + [h])
  }

  /**
   * One pattern of `unsubscribe`: the membership test inserts an empty list
   * for a pattern never subscribed; a present handler loses one occurrence,
   * and a list left empty is deleted.
   */
  function UnsubscribeOne(table: Table, pattern: string, h: ObjectId): Table {
    var table' := if HasKey(table, pattern) then table else table + [(pattern, [])];
    var hs := HandlersUnder(table, pattern);
    if h !in hs then table'
    else if ListRemove(hs, h) == [] then DictDelete(table', pattern)
    else DictSet(table', pattern, ListRemove(hs, h))
  }

  function SubscribeAll(table: Table, patterns: seq<string>, h: ObjectId): Table
    decreases |patterns|
  {
    if patterns == [] then table else SubscribeAll(SubscribeOne(table, patterns[0], h), patterns[1..], h)
  }

  function UnsubscribeAll(table: Table, patterns: seq<string>, h: ObjectId): Table
    decreases |patterns|
  {
    if patterns == [] then table else UnsubscribeAll(UnsubscribeOne(table, patterns[0], h), patterns[1..], h)
  }

  lemma {:induction false} SubscribeAllSnoc(table: Table, patterns: seq<string>, p: string, h: ObjectId)
    ensures SubscribeAll(table, patterns + [p], h) == SubscribeOne(SubscribeAll(table, patterns, h), p, h)
    decreases |patterns|
  {
    if patterns == [] {
      assert patterns + [p] == [p];
    } else {
      assert (patterns + [p])[0] == patterns[0] && (patterns + [p])[1..] == patterns[1..] + [p];
      SubscribeAllSnoc(SubscribeOne(table, patterns[0], h), patterns[1..], p, h);
    }
  }

  lemma {:induction false} UnsubscribeAllSnoc(table: Table, patterns: seq<string>, p: string, h: ObjectId)
    ensures UnsubscribeAll(table, patterns + [p], h) == UnsubscribeOne(UnsubscribeAll(table, patterns, h), p, h)
    decreases |patterns|
  {
    if patterns == [] {
      assert patterns + [p] == [p];
    } else {
      assert (patterns + [p])[0] == patterns[0] && (patterns + [p])[1..] == patterns[1..] + [p];
      UnsubscribeAllSnoc(UnsubscribeOne(table, patterns[0], h), patterns[1..], p, h);
    }
  }

  /** Subscribing appends the handler to its pattern's list, duplicates kept, and leaves every other pattern alone. */
  lemma SubscribeAppends(table: Table, pattern: string, h: ObjectId)
    ensures HandlersUnder(SubscribeOne(table, pattern, h), pattern) == HandlersUnder(table, pattern) + [h]
    ensures forall q :: q != pattern ==> DictGet(SubscribeOne(table, pattern, h), q) == DictGet(table, q)
  {
  }

  /**
   * Unsubscribing a present handler removes exactly one occurrence; the
   * pattern disappears once its list is empty.
   */
  lemma UnsubscribeRemovesOne(table: Table, pattern: string, h: ObjectId)
    requires DistinctKeys(table)
    requires h in HandlersUnder(table, pattern)
    ensures multiset(HandlersUnder(UnsubscribeOne(table, pattern, h), pattern))
         == multiset(HandlersUnder(table, pattern)) - multiset{h}
    ensures HandlersUnder(table, pattern) == [h] ==> !HasKey(UnsubscribeOne(table, pattern, h), pattern)
    ensures forall q :: q != pattern ==> DictGet(UnsubscribeOne(table, pattern, h), q) == DictGet(table, q)
  {
    assert HasKey(table, pattern);
  }

  /** Unsubscribing an absent handler raises nothing and changes no list, but a pattern never seen gets an empty entry. */
  lemma UnsubscribeAbsentHandler(table: Table, pattern: string, h: ObjectId)
    requires h !in HandlersUnder(table, pattern)
    ensures HasKey(table, pattern) ==> UnsubscribeOne(table, pattern, h) == table
    ensures !HasKey(table, pattern) ==> UnsubscribeOne(table, pattern, h) == table + [(pattern, [])]
  {
  }

  /** Subscribing and then unsubscribing the same handler restores the pattern's handlers as a multiset. */
  lemma SubscribeThenUnsubscribe(table: Table, pattern: string, h: ObjectId)
    requires DistinctKeys(table)
    ensures multiset(HandlersUnder(UnsubscribeOne(SubscribeOne(table, pattern, h), pattern, h), pattern))
         == multiset(HandlersUnder(table, pattern))
  {
    var t1 := SubscribeOne(table, pattern, h);
    DictSetKeepsKeysDistinct(table, pattern, HandlersUnder(table, pattern) + [h]);
    UnsubscribeRemovesOne(t1, pattern, h);
  }

  class TelemetrySubscriptionManager {
    var subscriptions: Table
    var lastKnownValues: map<string, PyValue>

    constructor()
      ensures subscriptions == [] && lastKnownValues == map[]
    {
      subscriptions := [];
      lastKnownValues := map[];
    }

    method Subscribe(patterns: Patterns, h: ObjectId)
      modifies this
      ensures subscriptions == SubscribeAll(old(subscriptions), PatternList(patterns), h)
      ensures lastKnownValues == old(lastKnownValues)
    {
      var ps := PatternList(patterns);
      for i := 0 to |ps|
        invariant subscriptions == SubscribeAll(old(subscriptions), ps[..i], h)
        invariant lastKnownValues == old(lastKnownValues)
      {
        SubscribeAllSnoc(old(subscriptions), ps[..i], ps[i], h);
        assert ps[..i + 1] == ps[..i] + [ps[i]];
        subscriptions := SubscribeOne(subscriptions, ps[i], h);
      }
      assert ps[..|ps|] == ps;
    }

    method Unsubscribe(patterns: Patterns, h: ObjectId)
      modifies this
      ensures subscriptions == UnsubscribeAll(old(subscriptions), PatternList(patterns), h)
      ensures lastKnownValues == old(lastKnownValues)
    {
      var ps := PatternList(patterns);
      for i := 0 to |ps|
        invariant subscriptions == UnsubscribeAll(old(subscriptions), ps[..i], h)
        invariant lastKnownValues == old(lastKnownValues)
      {
        UnsubscribeAllSnoc(old(subscriptions), ps[..i], ps[i], h);
        assert ps[..i + 1] == ps[..i] + [ps[i]];
        subscriptions := UnsubscribeOne(subscriptions, ps[i], h);
      }
      assert ps[..|ps|] == ps;
    }

    /** Reports the paths whose value changed, updating their baseline as it goes. */
    method FindChangedFields(current: Dict<string, PyValue>) returns (changed: seq<string>)
      modifies this
      ensures (changed, lastKnownValues) == Changes(old(lastKnownValues), current)
      ensures subscriptions == old(subscriptions)
    {
      changed := [];
      assert current[0..] == current;
      assert changed + Changes(lastKnownValues, current).0 == Changes(lastKnownValues, current).0;
      for i := 0 to |current|
        invariant Changes(old(lastKnownValues), current)
               == (changed + Changes(lastKnownValues, current[i..]).0, Changes(lastKnownValues, current[i..]).1)
        invariant subscriptions == old(subscriptions)
      {
        var path, v := current[i].0, current[i].1;
        assert current[i..][0] == current[i] && current[i..][1..] == current[i + 1..];
        ghost var before := Changes(lastKnownValues, current[i..]);
        if !PyEq(Baseline(lastKnownValues, path), v) {
          assert before == ([path] + Changes(lastKnownValues[path := v], current[i + 1..]).0,
                            Changes(lastKnownValues[path := v], current[i + 1..]).1);
          assert changed + before.0 == (changed + [path]) + Changes(lastKnownValues[path := v], current[i + 1..]).0;
          lastKnownValues := lastKnownValues[path := v];
          changed := changed + [path];
        } else {
          assert before == Changes(lastKnownValues, current[i + 1..]);
        }
      }
      assert current[|current|..] == [];
      assert changed + [] == changed;
    }

    /**
     * Flattens the record, finds the changed paths and calls, in order, the
     * handlers of every matching pattern. `raising` gives the handlers whose
     * `handle_telemetry_data` raises and what they raise: the first such call
     * ends the notification with its error, after the baseline has been
     * updated. Flattening that raises changes nothing and calls nobody.
     */
    method NotifyHandlers(data: Value, raising: map<ObjectId, PyError>) returns (called: seq<ObjectId>, r: Result<(), PyError>)
      modifies this
      ensures Flatten(data, "").Failure? ==>
                called == [] && r == Failure(Flatten(data, "").error) && lastKnownValues == old(lastKnownValues)
      ensures Flatten(data, "").Success? ==>
                var (paths, base) := Changes(old(lastKnownValues), Flatten(data, "").value);
                called == CallsMade(Calls(paths, subscriptions), raising)
                && r == Propagated(Calls(paths, subscriptions), raising)
                && lastKnownValues == base
      ensures subscriptions == old(subscriptions)
    {
      var flattened := Flatten(data, "");
      if flattened.Failure? {
        return [], Failure(flattened.error);
      }
      var changed := FindChangedFields(flattened.value);
      var table := subscriptions;
      ghost var base := lastKnownValues;
      called := [];
      for k := 0 to |changed|
        invariant called == Calls(changed[..k], table) && NoneRaise(called, raising)
        invariant subscriptions == table && lastKnownValues == base
      {
        ghost var before := called;
        for j := 0 to |table|
          invariant called == before + MatchingHandlers(changed[k], table[..j]) && NoneRaise(called, raising)
          invariant subscriptions == table && lastKnownValues == base
        {
          MatchingHandlersAppend(changed[k], table[..j], [table[j]]);
          assert table[..j + 1] == table[..j] + [table[j]];
          if Match(changed[k], table[j].0) {
            var handlers := table[j].1;
            ghost var passed := called;
            for m := 0 to |handlers|
              invariant called == passed + handlers[..m] && NoneRaise(called, raising)
              invariant subscriptions == table && lastKnownValues == base
            {
              assert handlers[..m + 1] == handlers[..m] + [handlers[m]];
              if handlers[m] in raising {
                FirstRaiseStops(changed, table, k, j, m, called, raising);
                return called + [handlers[m]], Failure(raising[handlers[m]]);
              }
              called := called + [handlers[m]];
            }
            assert handlers[..|handlers|] == handlers;
          }
        }
        assert table[..|table|] == table;
        CallsAppend(changed[..k], [changed[k]], table);
        assert changed[..k + 1] == changed[..k] + [changed[k]];
      }
      assert changed[..|changed|] == changed;
      CallsMadeWithoutRaise(called, raising);
      r := Success(());
    }
  }
}

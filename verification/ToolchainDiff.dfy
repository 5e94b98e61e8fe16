// The explicit-stack comparison of two toolchain records
// (scripts/release_versioned.py:61-125).
module ToolchainDiff {
  import opened Wrappers

  // A decoded JSON value; an object lists its keys in increasing order, once each.
  // Infinity and NaN are what the decoder makes of those literals.
  datatype Json = Null | Bool(b: bool) | Int(n: int) | Float(r: real) | Infinite(positive: bool) | NaN | Str(s: string)
                | List(items: seq<Json>) | Dict(keys: seq<string>, items: seq<Json>)

  // ---- the order of sorted() on strings ----

  predicate Less(a: string, b: string) {
    b != [] && (a == [] || a[0] < b[0] || (a[0] == b[0] && Less(a[1..], b[1..])))
  }

  lemma {:induction false} LessTotal(a: string, b: string)
    ensures Less(a, b) || a == b || Less(b, a)
    ensures !(Less(a, b) && Less(b, a)) && !Less(a, a)
  {
    if a != [] && b != [] {
      LessTotal(a[1..], b[1..]);
      assert a == [a[0]] + a[1..] && b == [b[0]] + b[1..];
    }
    if a != [] {
      LessTotal(a[1..], a[1..]);
    }
  }

  lemma {:induction false} LessTransitive(a: string, b: string, c: string)
    requires Less(a, b) && Less(b, c)
    ensures Less(a, c)
  {
    if a != [] && a[0] == b[0] && b[0] == c[0] {
      LessTransitive(a[1..], b[1..], c[1..]);
    }
  }

  predicate Increasing(keys: seq<string>) {
    forall i, j :: 0 <= i < j < |keys| ==> Less(keys[i], keys[j])
  }

  predicate Wf(v: Json) {
    match v
    case List(items) => forall i :: 0 <= i < |items| ==> Wf(items[i])
    case Dict(keys, items) => |keys| == |items| && Increasing(keys) && forall i :: 0 <= i < |items| ==> Wf(items[i])
    case _ => true
  }

  // ---- Python's == ----

  predicate Numeric(v: Json) { v.Bool? || v.Int? || v.Float? }

  function Number(v: Json): real {
    match v
    case Bool(b) => if b then 1.0 else 0.0
    case Int(n) => n as real
    case Float(r) => r
    case _ => 0.0
  }

  // The decoder hands out one NaN object.
  predicate OneNaN(a: Json, b: Json) { a.NaN? && b.NaN? }

  // Inside containers Python takes an object to equal itself before it asks ==.
  predicate PyEqAll(a: seq<Json>, b: seq<Json>)
    decreases a
  {
    |a| == |b| && (a == [] || ((OneNaN(a[0], b[0]) || PyEq(a[0], b[0])) && PyEqAll(a[1..], b[1..])))
  }

  predicate PyEq(a: Json, b: Json)
    decreases a
  {
    if Numeric(a) && Numeric(b) then Number(a) == Number(b)
    else match (a, b)
      case (List(x), List(y)) => PyEqAll(x, y)
      case (Dict(k, x), Dict(l, y)) => k == l && PyEqAll(x, y)
      case _ => a == b && !a.NaN?
  }

  predicate Same(a: Json, b: Json) { OneNaN(a, b) || PyEq(a, b) }

  function TypeName(v: Json): string {
    match v
    case Null => "NoneType"
    case Bool(_) => "bool"
    case Int(_) => "int"
    case Float(_) => "float"
    case Infinite(_) => "float"
    case NaN => "float"
    case Str(_) => "str"
    case List(_) => "list"
    case Dict(_, _) => "dict"
  }

  // ---- one comparison, and the ones below it ----

  // Values that may be missing on one side, under a path.
  datatype Pair = Pair(path: string, before: Option<Json>, after: Option<Json>)

  // A reported difference.
  datatype Change = MissingBefore(path: string) | MissingAfter(path: string)
                  | TypeChanged(path: string, before: string, after: string) | ValueChanged(path: string)

  // diagnostic_label and the escaping of keys stay abstract.
  datatype Labels = Labels(field: (string, string) -> string, position: (string, nat) -> string)

  function Fields(l: Labels, path: string, k: seq<string>, x: seq<Json>, m: seq<string>, y: seq<Json>): seq<Pair>
    requires |k| == |x| && |m| == |y|
    decreases |k| + |m|
  {
    if k == [] && m == [] then []
    else if m == [] || (k != [] && Less(k[0], m[0])) then
      [Pair(l.field(path, k[0]), Some(x[0]), None)] + Fields(l, path, k[1..], x[1..], m, y)
    else if k == [] || Less(m[0], k[0]) then
      [Pair(l.field(path, m[0]), None, Some(y[0]))] + Fields(l, path, k, x, m[1..], y[1..])
    else [Pair(l.field(path, k[0]), Some(x[0]), Some(y[0]))] + Fields(l, path, k[1..], x[1..], m[1..], y[1..])
  }

  function Positions(l: Labels, path: string, x: seq<Json>, y: seq<Json>, from: nat): seq<Pair>
    decreases |x| + |y|
  {
    if x == [] && y == [] then []
    else
      [Pair(l.position(path, from), if x == [] then None else Some(x[0]), if y == [] then None else Some(y[0]))]
      + Positions(l, path, if x == [] then [] else x[1..], if y == [] then [] else y[1..], from + 1)
  }

  predicate Opens(p: Pair) {
    && p.before.Some? && p.after.Some? && !PyEq(p.before.value, p.after.value)
    && ((p.before.value.Dict? && p.after.value.Dict?) || (p.before.value.List? && p.after.value.List?))
  }

  // The comparisons a mapping or a list leads to, in reporting order.
  function Below(l: Labels, p: Pair): seq<Pair>
    requires Opens(p) && WfPair(p)
  {
    match (p.before.value, p.after.value)
    case (Dict(k, x), Dict(m, y)) => Fields(l, p.path, k, x, m, y)
    case (List(x), List(y)) => Positions(l, p.path, x, y, 0)
  }

  predicate WfPair(p: Pair) {
    && (p.before.Some? ==> Wf(p.before.value)) && (p.after.Some? ==> Wf(p.after.value))
    && (p.before.Some? || p.after.Some?)
  }

  predicate WfAll(ps: seq<Pair>) { forall i :: 0 <= i < |ps| ==> WfPair(ps[i]) }

  // ---- sizes ----

  function Size(v: Json): nat
    decreases v
  {
    match v
    case List(items) => 1 + SizeAll(items)
    case Dict(_, items) => 1 + SizeAll(items)
    case _ => 1
  }

  function SizeAll(items: seq<Json>): nat
    decreases items
  {
    if items == [] then 0 else 1 + Size(items[0]) + SizeAll(items[1..])
  }

  function Weight(p: Pair): nat {
    1 + (if p.before.Some? then Size(p.before.value) else 0) + (if p.after.Some? then Size(p.after.value) else 0)
  }

  function Total(ps: seq<Pair>): nat {
    if ps == [] then 0 else Weight(ps[0]) + Total(ps[1..])
  }

  lemma {:induction false} FieldsFacts(l: Labels, path: string, k: seq<string>, x: seq<Json>, m: seq<string>, y: seq<Json>)
    requires |k| == |x| && |m| == |y| && (forall i :: 0 <= i < |x| ==> Wf(x[i])) && (forall i :: 0 <= i < |y| ==> Wf(y[i]))
    ensures WfAll(Fields(l, path, k, x, m, y)) && Total(Fields(l, path, k, x, m, y)) <= SizeAll(x) + SizeAll(y)
    decreases |k| + |m|
  {
    hide Wf, Size;
    if k == [] && m == [] {
    } else if m == [] || (k != [] && Less(k[0], m[0])) {
      FieldsFacts(l, path, k[1..], x[1..], m, y);
    } else if k == [] || Less(m[0], k[0]) {
      FieldsFacts(l, path, k, x, m[1..], y[1..]);
    } else {
      FieldsFacts(l, path, k[1..], x[1..], m[1..], y[1..]);
    }
  }

  lemma {:induction false} PositionsFacts(l: Labels, path: string, x: seq<Json>, y: seq<Json>, from: nat)
    requires (forall i :: 0 <= i < |x| ==> Wf(x[i])) && (forall i :: 0 <= i < |y| ==> Wf(y[i]))
    ensures WfAll(Positions(l, path, x, y, from)) && Total(Positions(l, path, x, y, from)) <= SizeAll(x) + SizeAll(y)
    decreases |x| + |y|
  {
    hide Wf, Size;
    if x != [] || y != [] {
      PositionsFacts(l, path, if x == [] then [] else x[1..], if y == [] then [] else y[1..], from + 1);
    }
  }

  lemma BelowFacts(l: Labels, p: Pair)
    requires Opens(p) && WfPair(p)
    ensures WfAll(Below(l, p)) && Total(Below(l, p)) < Weight(p)
  {
    match (p.before.value, p.after.value)
    case (Dict(k, x), Dict(m, y)) => FieldsFacts(l, p.path, k, x, m, y);
    case (List(x), List(y)) => PositionsFacts(l, p.path, x, y, 0);
  }

  // ---- the recursive difference ----

  function Diff(l: Labels, p: Pair): seq<Change>
    requires WfPair(p)
    decreases Weight(p), 0
  {
    if p.before.None? then [MissingBefore(p.path)]
    else if p.after.None? then [MissingAfter(p.path)]
    else if PyEq(p.before.value, p.after.value) then []
    else if Opens(p) then BelowFacts(l, p); DiffAll(l, Below(l, p))
    else if TypeName(p.before.value) != TypeName(p.after.value) then
      [TypeChanged(p.path, TypeName(p.before.value), TypeName(p.after.value))]
    else [ValueChanged(p.path)]
  }

  function DiffAll(l: Labels, ps: seq<Pair>): seq<Change>
    requires WfAll(ps)
    decreases Total(ps), |ps|
  {
    if ps == [] then [] else Diff(l, ps[0]) + DiffAll(l, ps[1..])
  }

  lemma {:induction false} DiffConcat(l: Labels, a: seq<Pair>, b: seq<Pair>)
    requires WfAll(a) && WfAll(b)
    ensures WfAll(a + b) && DiffAll(l, a + b) == DiffAll(l, a) + DiffAll(l, b)
    decreases |a|
  {
    hide Diff, WfPair;
    if a == [] {
      assert a + b == b;
    } else {
      DiffConcat(l, a[1..], b);
      assert (a + b)[1..] == a[1..] + b;
    }
  }

  lemma {:induction false} TotalConcat(a: seq<Pair>, b: seq<Pair>)
    ensures Total(a + b) == Total(a) + Total(b)
  {
    hide Weight;
    if a == [] {
      assert a + b == b;
    } else {
      TotalConcat(a[1..], b);
      assert (a + b)[1..] == a[1..] + b;
    }
  }

  // ---- the explicit stack ----

  function Reversed(ps: seq<Pair>): (r: seq<Pair>)
    ensures |r| == |ps| && forall i :: 0 <= i < |ps| ==> r[i] == ps[|ps| - 1 - i]
  {
    if ps == [] then [] else Reversed(ps[1..]) + [ps[0]]
  }

  // The stack read from its top is what is still to be compared, in order.
  lemma {:induction false} Popping(pending: seq<Pair>)
    requires pending != []
    ensures Reversed(pending) == [pending[|pending| - 1]] + Reversed(pending[..|pending| - 1])
    decreases |pending|
  {
    var n := |pending| - 1;
    if n > 0 {
      Popping(pending[1..]);
      assert pending[1..][..n - 1] == pending[..n][1..];
    }
  }

  lemma Pushing(pending: seq<Pair>, children: seq<Pair>)
    ensures Reversed(pending + Reversed(children)) == children + Reversed(pending)
  {
    hide Reversed;
    var pushed := pending + Reversed(children);
    var read := children + Reversed(pending);
    forall i | 0 <= i < |pushed| ensures Reversed(pushed)[i] == read[i] {
      assert Reversed(pushed)[i] == pushed[|pushed| - 1 - i];
    }
  }

  // ---- the two queue helpers ----

  function Lookup(k: seq<string>, x: seq<Json>, key: string): Option<Json>
    requires |k| == |x|
  {
    if k == [] then None else if k[0] == key then Some(x[0]) else Lookup(k[1..], x[1..], key)
  }

  // sorted(before.keys() | after.keys())
  function Union(k: seq<string>, m: seq<string>): seq<string>
    decreases |k| + |m|
  {
    if k == [] then m
    else if m == [] then k
    else if Less(k[0], m[0]) then [k[0]] + Union(k[1..], m)
    else if Less(m[0], k[0]) then [m[0]] + Union(k, m[1..])
    else [k[0]] + Union(k[1..], m[1..])
  }

  predicate Above(key: string, keys: seq<string>) { forall i :: 0 <= i < |keys| ==> Less(key, keys[i]) }

  lemma IncreasingTail(k: seq<string>)
    requires Increasing(k) && k != []
    ensures Increasing(k[1..]) && Above(k[0], k[1..])
  {
  }

  lemma AboveLower(key: string, k: seq<string>)
    requires Increasing(k) && k != [] && Less(key, k[0])
    ensures Above(key, k)
  {
    forall i | 0 <= i < |k| ensures Less(key, k[i]) {
      if i > 0 {
        LessTransitive(key, k[0], k[i]);
      }
    }
  }

  lemma {:induction false} UnionMembers(k: seq<string>, m: seq<string>)
    ensures forall u :: u in Union(k, m) <==> u in k || u in m
    decreases |k| + |m|
  {
    if k != [] && m != [] {
      assert k == [k[0]] + k[1..] && m == [m[0]] + m[1..];
      LessTotal(k[0], m[0]);
      if Less(k[0], m[0]) {
        UnionMembers(k[1..], m);
      } else if Less(m[0], k[0]) {
        UnionMembers(k, m[1..]);
      } else {
        UnionMembers(k[1..], m[1..]);
      }
    }
  }

  // The keys come in increasing order, each once.
  lemma {:induction false} UnionSorted(k: seq<string>, m: seq<string>)
    requires Increasing(k) && Increasing(m)
    ensures Increasing(Union(k, m))
    decreases |k| + |m|
  {
    if k != [] && m != [] {
      LessTotal(k[0], m[0]);
      IncreasingTail(k);
      IncreasingTail(m);
      if Less(k[0], m[0]) {
        AboveLower(k[0], m);
        UnionSorted(k[1..], m);
        FirstBelow(k[0], k[1..], m);
      } else if Less(m[0], k[0]) {
        AboveLower(m[0], k);
        UnionSorted(k, m[1..]);
        FirstBelow(m[0], k, m[1..]);
      } else {
        UnionSorted(k[1..], m[1..]);
        FirstBelow(k[0], k[1..], m[1..]);
      }
    }
  }

  lemma FirstBelow(key: string, k: seq<string>, m: seq<string>)
    requires Above(key, k) && Above(key, m) && Increasing(Union(k, m))
    ensures Increasing([key] + Union(k, m))
  {
    UnionMembers(k, m);
    var u := Union(k, m);
    forall i | 0 <= i < |u| ensures Less(key, u[i]) {
      assert u[i] in k || u[i] in m;
    }
  }

  lemma {:induction false} LookupAbsent(k: seq<string>, x: seq<Json>, key: string)
    requires |k| == |x| && Above(key, k)
    ensures Lookup(k, x, key) == None
  {
    if k != [] {
      LessTotal(key, k[0]);
      assert forall i :: 0 <= i < |k[1..]| ==> k[1..][i] == k[i + 1];
      LookupAbsent(k[1..], x[1..], key);
    }
  }

  lemma AboveUnion(key: string, k: seq<string>, m: seq<string>)
    requires Above(key, k) && Above(key, m)
    ensures forall u :: u in Union(k, m) ==> u != key
  {
    UnionMembers(k, m);
    LessTotal(key, key);
  }

  // The pairs of two mappings are those of the sorted union of their keys, each
  // with what the two mappings hold under it.
  ghost predicate ByKey(l: Labels, path: string, u: seq<string>, k: seq<string>, x: seq<Json>, m: seq<string>, y: seq<Json>, ps: seq<Pair>)
    requires |k| == |x| && |m| == |y|
  {
    && |ps| == |u|
    && forall i :: 0 <= i < |u| ==> ps[i] == Pair(l.field(path, u[i]), Lookup(k, x, u[i]), Lookup(m, y, u[i]))
  }

  // Pairs by key below a first key that no later key equals.
  lemma OneMore(l: Labels, path: string, key: string, u: seq<string>, k: seq<string>, x: seq<Json>, m: seq<string>, y: seq<Json>,
                k': seq<string>, x': seq<Json>, m': seq<string>, y': seq<Json>, ps: seq<Pair>)
    requires |k| == |x| && |m| == |y| && |k'| == |x'| && |m'| == |y'| && ByKey(l, path, u, k', x', m', y', ps)
    requires forall v :: v in u ==> v != key
    requires (k' == k && x' == x) || (k != [] && k[0] == key && k' == k[1..] && x' == x[1..])
    requires (m' == m && y' == y) || (m != [] && m[0] == key && m' == m[1..] && y' == y[1..])
    ensures ByKey(l, path, [key] + u, k, x, m, y, [Pair(l.field(path, key), Lookup(k, x, key), Lookup(m, y, key))] + ps)
  {
    var v := [key] + u;
    forall i | 0 < i < |v| ensures Lookup(k, x, v[i]) == Lookup(k', x', v[i]) && Lookup(m, y, v[i]) == Lookup(m', y', v[i]) {
      assert v[i] == u[i - 1] && u[i - 1] in u;
    }
  }

  lemma {:induction false} FieldsByKey(l: Labels, path: string, k: seq<string>, x: seq<Json>, m: seq<string>, y: seq<Json>)
    requires |k| == |x| && |m| == |y| && Increasing(k) && Increasing(m)
    ensures ByKey(l, path, Union(k, m), k, x, m, y, Fields(l, path, k, x, m, y))
    decreases |k| + |m|
  {
    hide Less;
    if k == [] && m == [] {
    } else if m == [] || (k != [] && Less(k[0], m[0])) {
      IncreasingTail(k);
      if m != [] { AboveLower(k[0], m); }
      FieldsByKey(l, path, k[1..], x[1..], m, y);
      LookupAbsent(m, y, k[0]);
      AboveUnion(k[0], k[1..], m);
      assert Union(k, m) == [k[0]] + Union(k[1..], m);
      OneMore(l, path, k[0], Union(k[1..], m), k, x, m, y, k[1..], x[1..], m, y, Fields(l, path, k[1..], x[1..], m, y));
    } else if k == [] || Less(m[0], k[0]) {
      IncreasingTail(m);
      if k != [] { AboveLower(m[0], k); LessTotal(m[0], k[0]); }
      FieldsByKey(l, path, k, x, m[1..], y[1..]);
      LookupAbsent(k, x, m[0]);
      AboveUnion(m[0], k, m[1..]);
      assert Union(k, m) == [m[0]] + Union(k, m[1..]);
      OneMore(l, path, m[0], Union(k, m[1..]), k, x, m, y, k, x, m[1..], y[1..], Fields(l, path, k, x, m[1..], y[1..]));
    } else {
      LessTotal(k[0], m[0]);
      IncreasingTail(k);
      IncreasingTail(m);
      FieldsByKey(l, path, k[1..], x[1..], m[1..], y[1..]);
      AboveUnion(k[0], k[1..], m[1..]);
      OneMore(l, path, k[0], Union(k[1..], m[1..]), k, x, m, y, k[1..], x[1..], m[1..], y[1..], Fields(l, path, k[1..], x[1..], m[1..], y[1..]));
    }
  }

  lemma PositionsByIndex(l: Labels, path: string, x: seq<Json>, y: seq<Json>, from: nat)
    ensures var ps := Positions(l, path, x, y, from);
      && |ps| == (if |x| < |y| then |y| else |x|)
      && forall i :: 0 <= i < |ps| ==>
           ps[i] == Pair(l.position(path, from + i), if i < |x| then Some(x[i]) else None, if i < |y| then Some(y[i]) else None)
  {
    hide Positions;
    var ps := Positions(l, path, x, y, from);
    PositionsLength(l, path, x, y, from);
    forall i | 0 <= i < |ps|
      ensures ps[i] == Pair(l.position(path, from + i), if i < |x| then Some(x[i]) else None, if i < |y| then Some(y[i]) else None)
    {
      PositionAt(l, path, x, y, from, i);
    }
  }

  lemma {:induction false} PositionsLength(l: Labels, path: string, x: seq<Json>, y: seq<Json>, from: nat)
    ensures |Positions(l, path, x, y, from)| == (if |x| < |y| then |y| else |x|)
    decreases |x| + |y|
  {
    if x != [] || y != [] {
      PositionsLength(l, path, if x == [] then [] else x[1..], if y == [] then [] else y[1..], from + 1);
    }
  }

  lemma {:induction false} PositionAt(l: Labels, path: string, x: seq<Json>, y: seq<Json>, from: nat, i: nat)
    requires i < |Positions(l, path, x, y, from)|
    ensures Positions(l, path, x, y, from)[i]
            == Pair(l.position(path, from + i), if i < |x| then Some(x[i]) else None, if i < |y| then Some(y[i]) else None)
    decreases i
  {
    if i > 0 {
      var x', y' := if x == [] then [] else x[1..], if y == [] then [] else y[1..];
      PositionAt(l, path, x', y', from + 1, i - 1);
      assert i < |x| ==> x'[i - 1] == x[i];
      assert i < |y| ==> y'[i - 1] == y[i];
    }
  }

  // _queue_toolchain_mapping: the keys are pushed in reverse order.
  method QueueMapping(l: Labels, pending: seq<Pair>, path: string, before: Json, after: Json) returns (next: seq<Pair>)
    requires before.Dict? && after.Dict? && Wf(before) && Wf(after)
    ensures next == pending + Reversed(Fields(l, path, before.keys, before.items, after.keys, after.items))
  {
    hide Wf, Less, Fields, Lookup, Reversed;
    WfDict(before);
    WfDict(after);
    ghost var fields := Fields(l, path, before.keys, before.items, after.keys, after.items);
    FieldsByKey(l, path, before.keys, before.items, after.keys, after.items);
    var keys := Union(before.keys, after.keys);
    next := pending;
    var i := |keys|;
    assert fields[i..] == [];
    NoneReversed();
    while i > 0
      invariant i <= |keys| && next == pending + Reversed(fields[i..])
    {
      i := i - 1;
      PushOne(pending, fields, i);
      next := next + [Pair(l.field(path, keys[i]), Lookup(before.keys, before.items, keys[i]), Lookup(after.keys, after.items, keys[i]))];
    }
    assert fields[0..] == fields;
  }

  // _queue_toolchain_list
  method QueueList(l: Labels, pending: seq<Pair>, path: string, before: Json, after: Json) returns (next: seq<Pair>)
    requires before.List? && after.List?
    ensures next == pending + Reversed(Positions(l, path, before.items, after.items, 0))
  {
    hide Positions, Reversed;
    ghost var all := Positions(l, path, before.items, after.items, 0);
    PositionsByIndex(l, path, before.items, after.items, 0);
    next := pending;
    var i := if |before.items| < |after.items| then |after.items| else |before.items|;
    assert all[i..] == [];
    NoneReversed();
    while i > 0
      invariant i <= |all| && next == pending + Reversed(all[i..])
    {
      i := i - 1;
      PushOne(pending, all, i);
      next := next + [Pair(l.position(path, i), if i < |before.items| then Some(before.items[i]) else None,
                           if i < |after.items| then Some(after.items[i]) else None)];
    }
    assert all[0..] == all;
  }

  lemma WfDict(v: Json)
    requires Wf(v) && v.Dict?
    ensures |v.keys| == |v.items| && Increasing(v.keys)
  {
  }

  lemma PushOne(pending: seq<Pair>, ps: seq<Pair>, i: nat)
    requires i < |ps|
    ensures pending + Reversed(ps[i..]) == pending + Reversed(ps[i + 1..]) + [ps[i]]
  {
    assert ps[i..][1..] == ps[i + 1..];
  }

  // ---- toolchain_changes ----

  method ToolchainChanges(l: Labels, original: Json, current: Json) returns (changes: seq<Change>)
    requires Wf(original) && Wf(current)
    ensures changes == Diff(l, Pair("toolchain", Some(original), Some(current)))
  {
    hide Diff, PyEq, Wf, Fields, Positions, TypeName, Reversed;
    changes := [];
    var start := Pair("toolchain", Some(original), Some(current));
    var pending := [start];
    assert DiffAll(l, [start]) == Diff(l, start) + DiffAll(l, [start][1..]);
    OneReversed(start);
    while pending != []
      invariant WfAll(Reversed(pending))
      invariant changes + DiffAll(l, Reversed(pending)) == Diff(l, start)
      decreases Total(Reversed(pending))
    {
      var n := |pending| - 1;
      var Pair(path, before, after) := pending[n];
      ghost var p := pending[n];
      Popping(pending);
      ghost var rest := Reversed(pending[..n]);
      assert Reversed(pending)[0] == p && Reversed(pending)[1..] == rest;
      Popped(l, Reversed(pending), changes);
      pending := pending[..n];
      if before.None? {
        Closed(l, p);
        changes := changes + [MissingBefore(path)];
      } else if after.None? {
        Closed(l, p);
        changes := changes + [MissingAfter(path)];
      } else if PyEq(before.value, after.value) {
        Closed(l, p);
      } else if TypeName(before.value) != TypeName(after.value) {
        NamesDiffer(p);
        Closed(l, p);
        changes := changes + [TypeChanged(path, TypeName(before.value), TypeName(after.value))];
      } else if before.value.Dict? {
        NamesAgree(p);
        Descend(l, p, pending, rest, changes);
        pending := QueueMapping(l, pending, path, before.value, after.value);
      } else if before.value.List? {
        NamesAgree(p);
        Descend(l, p, pending, rest, changes);
        pending := QueueList(l, pending, path, before.value, after.value);
      } else {
        NamesAgree(p);
        Closed(l, p);
        changes := changes + [ValueChanged(path)];
      }
    }
    NoneReversed();
  }

  lemma NamesDiffer(p: Pair)
    requires p.before.Some? && p.after.Some? && TypeName(p.before.value) != TypeName(p.after.value)
    ensures !Opens(p)
  {
  }

  lemma NamesAgree(p: Pair)
    requires p.before.Some? && p.after.Some? && TypeName(p.before.value) == TypeName(p.after.value)
    ensures (p.before.value.Dict? <==> p.after.value.Dict?) && (p.before.value.List? <==> p.after.value.List?)
  {
  }

  // A comparison that leads to others is replaced by them, which weigh less.
  lemma Descend(l: Labels, p: Pair, pending: seq<Pair>, rest: seq<Pair>, changes: seq<Change>)
    requires WfPair(p) && Opens(p) && WfAll(rest) && rest == Reversed(pending)
    ensures var children := Below(l, p); var next := Reversed(pending + Reversed(children));
      && WfAll(next) && Total(next) < Weight(p) + Total(rest)
      && DiffAll(l, next) == Diff(l, p) + DiffAll(l, rest)
  {
    hide Diff, DiffAll, Below, Opens, WfPair, Reversed;
    var children := Below(l, p);
    BelowFacts(l, p);
    Opened(l, p);
    Pushing(pending, children);
    DiffConcat(l, children, rest);
    TotalConcat(children, rest);
  }

  lemma OneReversed(p: Pair)
    ensures Reversed([p]) == [p]
  {
  }

  lemma NoneReversed()
    ensures Reversed([]) == []
  {
  }

  lemma Popped(l: Labels, ps: seq<Pair>, changes: seq<Change>)
    requires WfAll(ps) && ps != []
    ensures WfPair(ps[0]) && WfAll(ps[1..]) && Total(ps) == Weight(ps[0]) + Total(ps[1..]) && Weight(ps[0]) > 0
    ensures changes + DiffAll(l, ps) == changes + Diff(l, ps[0]) + DiffAll(l, ps[1..])
  {
    hide Diff, WfPair;
  }

  // What the loop yields for a comparison that leads to no others.
  function Report(p: Pair): seq<Change> {
    if p.before.None? then [MissingBefore(p.path)]
    else if p.after.None? then [MissingAfter(p.path)]
    else if PyEq(p.before.value, p.after.value) then []
    else if TypeName(p.before.value) != TypeName(p.after.value) then
      [TypeChanged(p.path, TypeName(p.before.value), TypeName(p.after.value))]
    else [ValueChanged(p.path)]
  }

  lemma Closed(l: Labels, p: Pair)
    requires WfPair(p) && !Opens(p)
    ensures Diff(l, p) == Report(p)
  {
  }

  lemma Opened(l: Labels, p: Pair)
    requires WfPair(p) && Opens(p)
    ensures WfAll(Below(l, p)) && Diff(l, p) == DiffAll(l, Below(l, p))
  {
    BelowFacts(l, p);
  }

  // ---- what silence means ----

  lemma {:induction false} FieldsAllEqual(l: Labels, path: string, k: seq<string>, x: seq<Json>, m: seq<string>, y: seq<Json>)
    requires |k| == |x| && |m| == |y|
    ensures (forall p :: p in Fields(l, path, k, x, m, y) ==> p.before.Some? && p.after.Some? && Same(p.before.value, p.after.value))
            <==> k == m && PyEqAll(x, y)
    decreases |k| + |m|
  {
    hide PyEq, Less, OneNaN;
    var fields := Fields(l, path, k, x, m, y);
    if k == [] && m == [] {
    } else if m == [] || (k != [] && Less(k[0], m[0])) {
      assert fields[0] in fields;
      if k == m { LessTotal(k[0], k[0]); }
    } else if k == [] || Less(m[0], k[0]) {
      assert fields[0] in fields;
      if k == m { LessTotal(k[0], k[0]); }
    } else {
      LessTotal(k[0], m[0]);
      FieldsAllEqual(l, path, k[1..], x[1..], m[1..], y[1..]);
      var rest := Fields(l, path, k[1..], x[1..], m[1..], y[1..]);
      assert fields == [fields[0]] + rest;
      assert k == [k[0]] + k[1..] && m == [m[0]] + m[1..];
      assert fields[0] in fields && forall p :: p in rest ==> p in fields;
    }
  }

  lemma {:induction false} PositionsAllEqual(l: Labels, path: string, x: seq<Json>, y: seq<Json>, from: nat)
    ensures (forall p :: p in Positions(l, path, x, y, from) ==> p.before.Some? && p.after.Some? && Same(p.before.value, p.after.value))
            <==> PyEqAll(x, y)
    decreases |x| + |y|
  {
    hide PyEq, OneNaN;
    var all := Positions(l, path, x, y, from);
    if x == [] && y == [] {
    } else if x == [] || y == [] {
      assert all[0] in all;
    } else {
      PositionsAllEqual(l, path, x[1..], y[1..], from + 1);
      var rest := Positions(l, path, x[1..], y[1..], from + 1);
      assert all == [all[0]] + rest;
      assert all[0] in all && forall p :: p in rest ==> p in all;
    }
  }

  lemma BelowNotAllEqual(l: Labels, p: Pair)
    requires WfPair(p) && Opens(p)
    ensures exists q :: q in Below(l, p) && (q.before.None? || q.after.None? || !Same(q.before.value, q.after.value))
  {
    match (p.before.value, p.after.value)
    case (Dict(k, x), Dict(m, y)) => FieldsAllEqual(l, p.path, k, x, m, y);
    case (List(x), List(y)) => PositionsAllEqual(l, p.path, x, y, 0);
  }

  lemma {:induction false} AllSilent(l: Labels, ps: seq<Pair>, q: Pair)
    requires WfAll(ps) && q in ps && DiffAll(l, ps) == []
    ensures WfPair(q) && Weight(q) <= Total(ps) && Diff(l, q) == []
  {
    hide Diff, WfPair;
    if q != ps[0] {
      assert ps == [ps[0]] + ps[1..];
      AllSilent(l, ps[1..], q);
    }
  }

  // Nothing is reported exactly when Python calls the two records equal.
  lemma {:induction false} SilentIffPyEq(l: Labels, p: Pair)
    requires WfPair(p) && p.before.Some? && p.after.Some?
    ensures Diff(l, p) == [] <==> PyEq(p.before.value, p.after.value)
    decreases Weight(p)
  {
    if Opens(p) && Diff(l, p) == [] {
      Opened(l, p);
      BelowFacts(l, p);
      BelowNotAllEqual(l, p);
      hide Diff, PyEq, Below, WfPair, Opens;
      var q :| q in Below(l, p) && (q.before.None? || q.after.None? || !Same(q.before.value, q.after.value));
      AllSilent(l, Below(l, p), q);
      if q.before.Some? && q.after.Some? {
        SilentIffPyEq(l, q);
      } else {
        MissingSpeaks(l, q);
      }
    }
  }

  lemma MissingSpeaks(l: Labels, q: Pair)
    requires WfPair(q) && (q.before.None? || q.after.None?)
    ensures Diff(l, q) != []
  {
  }

  // Somewhere the two records hold numbers of different JSON types.
  predicate Clash(a: Json, b: Json)
    decreases a
  {
    match (a, b)
    case (List(x), List(y)) => ClashAll(x, y)
    case (Dict(_, x), Dict(_, y)) => ClashAll(x, y)
    case _ => Numeric(a) && Numeric(b) && TypeName(a) != TypeName(b)
  }

  predicate ClashAll(x: seq<Json>, y: seq<Json>)
    decreases x
  {
    x != [] && y != [] && (Clash(x[0], y[0]) || ClashAll(x[1..], y[1..]))
  }

  lemma {:induction false} PyEqIs(a: Json, b: Json)
    ensures a == b <==> Same(a, b) && !Clash(a, b)
    decreases a
  {
    match (a, b)
    case (List(x), List(y)) => PyEqAllIs(x, y);
    case (Dict(_, x), Dict(_, y)) => PyEqAllIs(x, y);
    case _ =>
  }

  lemma {:induction false} PyEqAllIs(x: seq<Json>, y: seq<Json>)
    ensures x == y <==> PyEqAll(x, y) && !ClashAll(x, y)
    decreases x
  {
    if x != [] && y != [] {
      PyEqIs(x[0], y[0]);
      PyEqAllIs(x[1..], y[1..]);
      assert x == [x[0]] + x[1..] && y == [y[0]] + y[1..];
    }
  }

  // Nothing is reported exactly when the records are equal and not the bare NaN, or
  // equal to Python while some number changed its JSON type.
  lemma SilentIff(l: Labels, original: Json, current: Json)
    requires Wf(original) && Wf(current)
    ensures Diff(l, Pair("toolchain", Some(original), Some(current))) == []
            <==> (original == current && !original.NaN?) || (PyEq(original, current) && Clash(original, current))
  {
    SilentIffPyEq(l, Pair("toolchain", Some(original), Some(current)));
    PyEqIs(original, current);
  }

  // A NaN on both sides is passed over while the field beside it is equal, and reported
  // as changed as soon as that field differs.
  lemma NaNSpeaks(l: Labels, k: string, m: string, x: Json, y: Json)
    requires Less(k, m) && Wf(x) && Wf(y)
    ensures var a, b := Dict([k, m], [NaN, x]), Dict([k, m], [NaN, y]);
      && Wf(a) && Wf(b)
      && Diff(l, Pair("toolchain", Some(a), Some(b)))
         == if Same(x, y) then [] else [ValueChanged(l.field("toolchain", k))] + Diff(l, Pair(l.field("toolchain", m), Some(x), Some(y)))
  {
    var a, b := Dict([k, m], [NaN, x]), Dict([k, m], [NaN, y]);
    BesideNaN(k, m, x, y);
    var p := Pair("toolchain", Some(a), Some(b));
    if !Same(x, y) {
      var first := Pair(l.field("toolchain", k), Some(NaN), Some(NaN));
      var second := Pair(l.field("toolchain", m), Some(x), Some(y));
      FieldsPair(l, "toolchain", k, m, NaN, x, NaN, y);
      assert Below(l, p) == [first, second];
      Opened(l, p);
      Closed(l, first);
      hide Diff, Below, Same, Wf, PyEq;
      DiffTwo(l, first, second);
    }
  }

  lemma BesideNaN(k: string, m: string, x: Json, y: Json)
    requires Less(k, m) && Wf(x) && Wf(y)
    ensures var a, b := Dict([k, m], [NaN, x]), Dict([k, m], [NaN, y]);
      Wf(a) && Wf(b) && (PyEq(a, b) <==> Same(x, y))
  {
    assert [NaN, x][1..] == [x] && [NaN, y][1..] == [y];
    assert PyEqAll([NaN, x], [NaN, y]) <==> PyEqAll([x], [y]);
    assert [x][1..] == [] && [y][1..] == [];
    assert PyEqAll([x], [y]) <==> Same(x, y) && PyEqAll([], []);
    assert PyEq(Dict([k, m], [NaN, x]), Dict([k, m], [NaN, y])) <==> PyEqAll([NaN, x], [NaN, y]);
  }

  lemma DiffTwo(l: Labels, p: Pair, q: Pair)
    requires WfPair(p) && WfPair(q)
    ensures DiffAll(l, [p, q]) == Diff(l, p) + Diff(l, q)
  {
    hide Diff, WfPair;
    assert [p, q][1..] == [q] && [q][1..] == [];
    assert DiffAll(l, [q]) == Diff(l, q) + DiffAll(l, []);
    assert DiffAll(l, [p, q]) == Diff(l, p) + DiffAll(l, [q]);
  }

  lemma FieldsPair(l: Labels, path: string, k: string, m: string, a: Json, b: Json, c: Json, d: Json)
    requires Less(k, m)
    ensures Fields(l, path, [k, m], [a, b], [k, m], [c, d]) == [Pair(l.field(path, k), Some(a), Some(c)), Pair(l.field(path, m), Some(b), Some(d))]
  {
    LessTotal(k, k);
    LessTotal(m, m);
    assert [k, m][1..] == [m] && [a, b][1..] == [b] && [c, d][1..] == [d];
    assert [m][1..] == [] && [b][1..] == [] && [d][1..] == [];
    assert Fields(l, path, [m], [b], [m], [d]) == [Pair(l.field(path, m), Some(b), Some(d))] + Fields(l, path, [], [], [], []);
  }

  lemma TrueBecomesOne(l: Labels)
    ensures var a, b := Dict(["lto"], [Bool(true)]), Dict(["lto"], [Int(1)]);
      Wf(a) && Wf(b) && a != b && Diff(l, Pair("toolchain", Some(a), Some(b))) == []
  {
    var a, b := Dict(["lto"], [Bool(true)]), Dict(["lto"], [Int(1)]);
    assert Wf(a) && Wf(b);
    assert PyEqAll([Bool(true)], [Int(1)]);
    SilentIff(l, a, b);
    assert ClashAll([Bool(true)], [Int(1)]);
  }
}

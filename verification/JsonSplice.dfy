// Applying several scalar edits to one text (scripts/version_plan.py, the end of _json_edit).
module JsonSplice {
  import opened Wrappers
  import opened JsonScan
  import opened JsonTree
  import opened JsonEdit

  datatype Splice = Splice(start: nat, end: nat, token: string)

  predicate Fits(e: Splice, text: string) {
    e.start <= e.end <= |text|
  }

  function ApplyOne(text: string, e: Splice): string {
    if Fits(e, text) then text[..e.start] + e.token + text[e.end..] else text
  }

  // The edits applied one after the other, first to last.
  function ApplyAll(text: string, edits: seq<Splice>): string {
    if edits == [] then text else ApplyOne(ApplyAll(text, edits[..|edits| - 1]), edits[|edits| - 1])
  }

  // All edits at once: every piece outside them is copied from the original text.
  function Substitute(text: string, edits: seq<Splice>, end: nat): string
    requires Descending(edits, end) && end <= |text|
  {
    if edits == [] then text[..end]
    else Substitute(text, edits[1..], edits[0].start) + edits[0].token + text[edits[0].end..end]
  }

  // Ordered by decreasing position, without overlap, ending at or before end.
  predicate Descending(edits: seq<Splice>, end: nat) {
    edits == [] || (edits[0].start <= edits[0].end <= end && Descending(edits[1..], edits[0].start))
  }

  lemma {:induction false} ApplyFirst(text: string, edits: seq<Splice>)
    requires edits != []
    ensures ApplyAll(text, edits) == ApplyAll(ApplyOne(text, edits[0]), edits[1..])
  {
    var n := |edits| - 1;
    hide ApplyOne;
    if n == 0 {
      assert edits[..0] == [] && edits[1..] == [];
    } else {
      ApplyFirst(text, edits[..n]);
      assert edits[..n][1..] == edits[1..][..n - 1];
      assert edits[1..][n - 1] == edits[n];
    }
  }

  lemma {:induction false} FromTheBack(text: string, edits: seq<Splice>, end: nat, suffix: string)
    requires end <= |text| && Descending(edits, end)
    ensures ApplyAll(text[..end] + suffix, edits) == Substitute(text, edits, end) + suffix
  {
    if edits != [] {
      var e := edits[0];
      var s := text[..end] + suffix;
      ApplyFirst(s, edits);
      assert s[..e.start] == text[..e.start];
      assert s[e.end..] == text[e.end..end] + suffix;
      FromTheBack(text, edits[1..], e.start, e.token + (text[e.end..end] + suffix));
      assert ApplyOne(s, e) == text[..e.start] + (e.token + (text[e.end..end] + suffix));
      var rest := Substitute(text, edits[1..], e.start);
      assert rest + (e.token + (text[e.end..end] + suffix)) == rest + e.token + text[e.end..end] + suffix;
    }
  }

  // Applied from the last position to the first, the edits act as one simultaneous substitution.
  lemma ReverseOrderIsSimultaneous(text: string, edits: seq<Splice>)
    requires Descending(edits, |text|)
    ensures ApplyAll(text, edits) == Substitute(text, edits, |text|)
  {
    FromTheBack(text, edits, |text|, "");
    assert text[..|text|] + "" == text;
    assert Substitute(text, edits, |text|) + "" == Substitute(text, edits, |text|);
  }

  // ---- edits of a parsed document ----

  // A recorded span with the token that replaces it.
  datatype Change = Change(path: Path, splice: Splice)

  function Splices(cs: seq<Change>): (r: seq<Splice>)
    ensures |r| == |cs|
  {
    seq(|cs|, i requires 0 <= i < |cs| => cs[i].splice)
  }

  function Start(b: Body, path: Path): nat {
    match Locate(b, path)
    case Some(place) => |place.left|
    case None => 0
  }

  function End(b: Body, path: Path): nat {
    match Locate(b, path)
    case Some(place) => |place.left| + |place.token|
    case None => 0
  }

  // Each change carries the span its path has in b, where b begins at the given offset.
  predicate Recorded(b: Body, at: nat, c: Change) {
    && Locate(b, c.path).Some? && ScalarToken(c.splice.token)
    && c.splice.start == at + Start(b, c.path) && c.splice.end == at + End(b, c.path)
  }

  predicate AllRecorded(b: Body, at: nat, cs: seq<Change>) {
    forall i :: 0 <= i < |cs| ==> Recorded(b, at, cs[i])
  }

  predicate Sorted(cs: seq<Change>) {
    forall i, j :: 0 <= i < j < |cs| ==> cs[i].splice.start > cs[j].splice.start
  }

  function ReplaceAll(b: Body, cs: seq<Change>): Body {
    if cs == [] then b
    else Replace(ReplaceAll(b, cs[..|cs| - 1]), cs[|cs| - 1].path, cs[|cs| - 1].splice.token)
  }

  function Settings(cs: seq<Change>): map<Path, Scalar> {
    if cs == [] then map[]
    else Settings(cs[..|cs| - 1])[cs[|cs| - 1].path := TokenValue(cs[|cs| - 1].splice.token)]
  }

  // Two scalars that start at different positions do not overlap.
  lemma StartOrder(b: Body, p: Path, q: Path)
    requires Locate(b, p).Some? && Locate(b, q).Some? && Start(b, p) < Start(b, q)
    ensures p != q && Precedes(Locate(b, p).value, Locate(b, q).value)
  {
    LocateOther(b, q, "0", p);
  }

  // A scalar before every change keeps its span.
  lemma {:induction false} EarlierStays(b: Body, at: nat, cs: seq<Change>, q: Path)
    requires AllRecorded(b, at, cs) && Sorted(cs) && Locate(b, q).Some?
    requires forall i :: 0 <= i < |cs| ==> Start(b, q) < Start(b, cs[i].path)
    ensures var place := Locate(ReplaceAll(b, cs), q);
            place.Some? && place.value.left == Locate(b, q).value.left && place.value.token == Locate(b, q).value.token
    decreases |cs|
  {
    hide Locate, Replace, ScalarToken;
    if cs != [] {
      var n := |cs| - 1;
      var c, b' := cs[n], ReplaceAll(b, cs[..n]);
      EarlierStays(b, at, cs[..n], q);
      EarlierStays(b, at, cs[..n], c.path);
      StartOrder(b', q, c.path);
      LocateOther(b', c.path, c.splice.token, q);
    }
  }

  lemma LastStays(b: Body, at: nat, cs: seq<Change>)
    requires cs != [] && AllRecorded(b, at, cs) && Sorted(cs)
    ensures var c := cs[|cs| - 1]; var place := Locate(ReplaceAll(b, cs[..|cs| - 1]), c.path);
            place.Some? && place.value.left == Locate(b, c.path).value.left && place.value.token == Locate(b, c.path).value.token
  {
    hide Locate, Replace, ReplaceAll, ScalarToken;
    EarlierStays(b, at, cs[..|cs| - 1], cs[|cs| - 1].path);
  }

  // Splicing the recorded spans, last position first, renders the tree with those tokens replaced.
  lemma {:induction false} SplicesReplace(b: Body, before: string, after: string, cs: seq<Change>)
    requires AllRecorded(b, |before|, cs) && Sorted(cs)
    ensures ApplyAll(before + Render(b) + after, Splices(cs)) == before + Render(ReplaceAll(b, cs)) + after
    decreases |cs|
  {
    hide Locate, Replace, Render, ScalarToken;
    if cs != [] {
      var n := |cs| - 1;
      var c, b' := cs[n], ReplaceAll(b, cs[..n]);
      SplicesReplace(b, before, after, cs[..n]);
      assert Splices(cs)[..n] == Splices(cs[..n]);
      LastStays(b, |before|, cs);
      LocateRenders(b', c.path);
      LocateReplaced(b', c.path, c.splice.token);
      LocateRenders(Replace(b', c.path, c.splice.token), c.path);
      SpliceOne(before, Locate(b', c.path).value, after, c.splice);
    }
  }

  lemma SpliceOne(before: string, place: Place, after: string, e: Splice)
    requires e.start == |before| + |place.left| && e.end == e.start + |place.token|
    ensures ApplyOne(before + place.Text() + after, e) == before + place.(token := e.token).Text() + after
  {
    var s := before + place.Text() + after;
    assert s[..e.start] == before + place.left;
    assert s[e.end..] == place.right + after;
  }

  lemma {:induction false} WfReplaceAll(b: Body, at: nat, cs: seq<Change>)
    requires WfBody(b) && AllRecorded(b, at, cs) && Sorted(cs)
    ensures WfBody(ReplaceAll(b, cs))
    decreases |cs|
  {
    hide Locate, Replace, WfBody, ScalarToken;
    if cs != [] {
      var n := |cs| - 1;
      LastStays(b, at, cs);
      WfReplaceAll(b, at, cs[..n]);
      WfReplace(ReplaceAll(b, cs[..n]), cs[n].path, cs[n].splice.token);
    }
  }

  lemma {:induction false} ValueReplaceAll(b: Body, at: nat, cs: seq<Change>)
    requires WfBody(b) && AllRecorded(b, at, cs) && Sorted(cs)
    ensures Value(ReplaceAll(b, cs)) == SetMany(Value(b), [], Settings(cs))
    decreases |cs|
  {
    hide Locate, Replace, WfBody, ScalarToken, Value, SetMany, Sound;
    if cs == [] {
      SetManyEmpty(Value(b), []);
    } else {
      var n := |cs| - 1;
      var c, b' := cs[n], ReplaceAll(b, cs[..n]);
      LastStays(b, at, cs);
      ValueReplaceAll(b, at, cs[..n]);
      ValueReplace(b', c.path, c.splice.token);
      ValueSound(b);
      LocateGet(b, c.path);
      SetSetMany(Value(b), [], Settings(cs[..n]), c.path, TokenValue(c.splice.token));
      assert [] + c.path == c.path;
    }
  }

  // The spans of distinct scalars, sorted by decreasing start, do not overlap.
  lemma {:induction false} SortedDescends(b: Body, at: nat, cs: seq<Change>, end: nat)
    requires AllRecorded(b, at, cs) && Sorted(cs)
    requires cs != [] ==> cs[0].splice.end <= end
    ensures Descending(Splices(cs), end)
    decreases |cs|
  {
    hide Locate, ScalarToken;
    if |cs| > 1 {
      StartOrder(b, cs[1].path, cs[0].path);
      SortedDescends(b, at, cs[1..], cs[0].splice.start);
      assert Splices(cs)[1..] == Splices(cs[1..]);
    }
  }

  // ---- sorted(edits, reverse=True) ----

  // Spans are disjoint, so comparing starts decides the order.
  function Insert(c: Change, cs: seq<Change>): seq<Change> {
    if cs == [] || c.splice.start > cs[0].splice.start then [c] + cs else [cs[0]] + Insert(c, cs[1..])
  }

  function SortDown(cs: seq<Change>): seq<Change> {
    if cs == [] then [] else Insert(cs[0], SortDown(cs[1..]))
  }

  predicate StartsDiffer(cs: seq<Change>) {
    forall i, j :: 0 <= i < j < |cs| ==> cs[i].splice.start != cs[j].splice.start
  }

  lemma {:induction false} InsertSorts(c: Change, cs: seq<Change>)
    requires Sorted(cs) && forall d :: d in cs ==> d.splice.start != c.splice.start
    ensures Sorted(Insert(c, cs)) && multiset(Insert(c, cs)) == multiset{c} + multiset(cs)
  {
    if cs == [] || c.splice.start > cs[0].splice.start {
    } else {
      assert cs == [cs[0]] + cs[1..];
      InsertSorts(c, cs[1..]);
      var rest := Insert(c, cs[1..]);
      assert Insert(c, cs) == [cs[0]] + rest;
      hide Insert;
      forall d | d in rest ensures d.splice.start < cs[0].splice.start {
        FromMultiset(c, cs[1..], rest, d);
      }
      SortedCons(cs[0], rest);
    }
  }

  lemma FromMultiset(c: Change, cs: seq<Change>, rest: seq<Change>, d: Change)
    requires multiset(rest) == multiset{c} + multiset(cs) && d in rest
    ensures d == c || d in cs
  {
    assert d in multiset(rest);
  }

  lemma SortedCons(c: Change, cs: seq<Change>)
    requires Sorted(cs) && forall d :: d in cs ==> d.splice.start < c.splice.start
    ensures Sorted([c] + cs)
  {
  }

  lemma {:induction false} SortDownSorts(cs: seq<Change>)
    requires StartsDiffer(cs)
    ensures Sorted(SortDown(cs)) && multiset(SortDown(cs)) == multiset(cs)
  {
    if cs != [] {
      SortDownSorts(cs[1..]);
      assert cs == [cs[0]] + cs[1..];
      forall d | d in SortDown(cs[1..]) ensures d.splice.start != cs[0].splice.start {
        assert d in multiset(cs[1..]);
      }
      InsertSorts(cs[0], SortDown(cs[1..]));
    }
  }
}

// The span-retaining parser and the edit, in the source's own loops
// (scripts/version_plan.py, class _JsonDocument and _json_edit).
module JsonDocument {
  import opened Wrappers
  import opened JsonScan
  import opened JsonTree
  import opened JsonEdit
  import opened JsonSplice
  import opened JsonField

  // ---- what a partly parsed container already determines ----

  function Joined<T>(done: seq<T>, n: nat, rest: Option<(seq<T>, nat)>): Option<(seq<T>, nat)> {
    match rest
    case None => None
    case Some((more, k)) => Some((done + more, n + k))
  }

  // The length of the finished children with their commas.
  function Past(cs: seq<Child>): nat {
    if cs == [] then 0
    else Past(cs[..|cs| - 1]) + |cs[|cs| - 1].head| + |RenderItem(cs[|cs| - 1].item)| + 1
  }

  lemma {:induction false} LeadOfLast(cs: seq<Child>, c: Child)
    ensures |Lead(cs + [c], |cs|)| == Past(cs) + |c.head|
    decreases |cs|
  {
    hide RenderItem;
    if cs != [] {
      LeadOfLast(cs[1..], c);
      assert (cs + [c])[1..] == cs[1..] + [c];
      PastFirst(cs);
    }
  }

  lemma {:induction false} PastFirst(cs: seq<Child>)
    requires cs != []
    ensures Past(cs) == |cs[0].head| + |RenderItem(cs[0].item)| + 1 + Past(cs[1..])
    decreases |cs|
  {
    hide RenderItem;
    var n := |cs| - 1;
    if n > 0 {
      PastFirst(cs[..n]);
      assert cs[..n][1..] == cs[1..][..n - 1];
      assert cs[1..][n - 1] == cs[n];
    }
  }

  lemma {:induction false} LeadPrefix(cs: seq<Child>, c: Child, k: nat)
    requires k < |cs|
    ensures Lead(cs + [c], k) == Lead(cs, k)
  {
    if k > 0 {
      LeadPrefix(cs[1..], c, k - 1);
      assert (cs + [c])[1..] == cs[1..] + [c];
    }
  }

  // Adding a child leaves the spans of the earlier ones alone.
  lemma {:induction false} SpansPrefix(b: Body, bigger: Body, c: Child, k: nat, at: nat, path: Path)
    requires Children(bigger) == Children(b) + [c] && k <= |Children(b)|
    requires forall i :: 0 <= i < |Children(b)| ==> StepOfChild(bigger, i) == StepOfChild(b, i)
    ensures SpansUpTo(bigger, k, at, path) == SpansUpTo(b, k, at, path)
    decreases k
  {
    hide SpansBody, StepOfChild, Children;
    if k > 0 {
      SpansPrefix(b, bigger, c, k - 1, at, path);
      LeadPrefix(Children(b), c, k - 1);
    }
  }

  lemma SpansGrow(b: Body, bigger: Body, c: Child, at: nat, path: Path)
    requires Children(bigger) == Children(b) + [c]
    requires forall i :: 0 <= i < |Children(b)| ==> StepOfChild(bigger, i) == StepOfChild(b, i)
    ensures var n := |Children(b)|;
            SpansUpTo(bigger, n + 1, at, path)
            == SpansUpTo(b, n, at, path)
               + SpansBody(c.item.body, at + 1 + Past(Children(b)) + |c.head| + |c.item.before|, path + [StepOfChild(bigger, n)])
  {
    hide SpansBody, StepOfChild, Children;
    SpansPrefix(b, bigger, c, |Children(b)|, at, path);
    LeadOfLast(Children(b), c);
  }

  lemma BlanksAgain(s: string, t: string)
    requires t == s[Blanks(s)..]
    ensures Blanks(t) == 0
  {
    assert t != "" ==> t[0] == s[Blanks(s)];
  }

  // One more array item.
  lemma ItemsStep(s: string)
    requires ParseItem(s).Some?
    ensures var (item, n) := ParseItem(s).value;
            ParseItems(s) ==
            if n < |s| && s[n] == ']' then Some(([item], n + 1))
            else if n < |s| && s[n] == ',' then Joined([item], n + 1, ParseItems(s[n + 1..]))
            else None
  {
    hide ParseItem;
  }

  lemma MembersStep(s: string, seen: set<Text>)
    requires ParseMember(s).Some?
    ensures var (member, text, n) := ParseMember(s).value;
            ParseMembers(s, seen) ==
            if text in seen then None
            else if n < |s| && s[n] == '}' then Some(([member], n + 1))
            else if n < |s| && s[n] == ',' then Joined([member], n + 1, ParseMembers(s[n + 1..], seen + {text}))
            else None
  {
    hide ParseMember;
  }

  lemma JoinJoined<T>(a: seq<T>, n: nat, b: seq<T>, k: nat, rest: Option<(seq<T>, nat)>)
    ensures Joined(a, n, Joined(b, k, rest)) == Joined(a + b, n + k, rest)
  {
    if rest.Some? {
      assert a + (b + rest.value.0) == a + b + rest.value.0;
    }
  }

  // What a call that parses a body at the given position returns and records.
  ghost predicate Finished(r: Option<(Json, nat)>, body: Option<(Body, nat)>, at: nat, path: Path,
                           before: map<Path, (nat, nat)>, after: map<Path, (nat, nat)>) {
    match body
    case None => r == None
    case Some((b, n)) => r == Some((Value(b), at + n)) && after == before + SpansBody(b, at, path)
  }

  lemma ScalarFinished(s: string, at: nat, path: Path, before: map<Path, (nat, nat)>)
    requires s != "" && s[0] != '{' && s[0] != '['
    ensures Scan(s).None? ==> Finished(None, ParseBody(s), at, path, before, before)
    ensures Scan(s).Some? ==>
      var (value, n) := Scan(s).value;
      Finished(Some((Leaf(value), at + n)), ParseBody(s), at, path, before, before + map[path := (at, at + n)])
  {
    hide ParseItems, ParseMembers, ScanString, NumberLength, Literal, Blanks;
    if Scan(s).Some? {
      ScannedIsToken(s);
    }
  }

  lemma EmptyFinished(at: nat, path: Path, before: map<Path, (nat, nat)>)
    ensures Finished(None, ParseBody(""), at, path, before, before)
  {
  }

  // The blanks, body and blanks of one item.
  lemma ItemParts(text: string, from: nat)
    requires from <= |text|
    ensures var w := Blanks(text[from..]);
      match ParseBody(text[from + w..])
      case None => ParseItem(text[from..]).None?
      case Some((b, k)) =>
        var e := from + w + k;
        && e <= |text| && ParseItem(text[from..]).Some?
        && var (item, n) := ParseItem(text[from..]).value;
           && item.body == b && |item.before| == w && |RenderItem(item)| == n && from + n == e + Blanks(text[e..])
  {
    hide ParseBody, Blanks, RenderItem;
    var t := text[from..];
    var w := Blanks(t);
    assert t[w..] == text[from + w..];
    match ParseBody(t[w..])
    case None =>
    case Some((b, k)) =>
      assert t[w + k..] == text[from + w + k..];
      ParseItemSound(t);
  }

  // ---- arrays ----

  function ArrayOf(items: Option<(seq<Item>, nat)>): Option<(Body, nat)> {
    match items
    case None => None
    case Some((all, n)) => Some((Arr("", all), n + 1))
  }

  // The items parsed so far end before `from`, where the next one begins.
  ghost predicate ArrayProgress(text: string, start: nat, done: seq<Item>, from: nat, values: seq<Json>, path: Path,
                                before: map<Path, (nat, nat)>, after: map<Path, (nat, nat)>) {
    && start < from <= |text| && from == start + 1 + Past(Children(Arr("", done)))
    && ParseBody(text[start..]) == ArrayOf(Joined(done, from - start - 1, ParseItems(text[from..])))
    && List(values) == Value(Arr("", done))
    && after == before + SpansUpTo(Arr("", done), |done|, start, path)
  }

  lemma ArrayStart(text: string, start: nat, path: Path, before: map<Path, (nat, nat)>)
    requires start < |text| && text[start] == '['
    ensures var w := Blanks(text[start + 1..]);
            if start + 1 + w < |text| && text[start + 1 + w] == ']' then
              Finished(Some((List([]), start + w + 2)), ParseBody(text[start..]), start, path, before, before)
            else ArrayProgress(text, start, [], start + 1, [], path, before, before)
  {
    hide Scan, ParseItems, ParseMembers, Blanks, SpansBody, SpansUpTo;
    var s := text[start..];
    assert s[1..] == text[start + 1..] && s[0] == '[';
    var w := Blanks(s[1..]);
    EmptySpans(Arr(s[1..1 + w], []), start, path, before);
    EmptySpans(Arr("", []), start, path, before);
    if start + 1 + w < |text| && text[start + 1 + w] == ']' {
      assert s[1 + w] == ']';
    } else {
      JoinNothing(ParseItems(s[1..]));
    }
  }

  lemma JoinNothing<T>(r: Option<(seq<T>, nat)>)
    ensures Joined([], 0, r) == r
  {
    if r.Some? {
      assert [] + r.value.0 == r.value.0;
    }
  }

  lemma EmptySpans(b: Body, at: nat, path: Path, before: map<Path, (nat, nat)>)
    requires (b.Arr? && b.items == []) || (b.Obj? && b.members == [])
    ensures before + SpansBody(b, at, path) == before && before + SpansUpTo(b, 0, at, path) == before
    ensures Value(b) == if b.Arr? then List([]) else Dict([], [])
    ensures |Children(b)| == 0
  {
    assert Keys([]) == [];
  }

  lemma ArrayGrows(done: seq<Item>, item: Item, values: seq<Json>, start: nat, path: Path)
    requires List(values) == Value(Arr("", done))
    ensures var more := Arr("", done + [item]); var past := Past(Children(Arr("", done)));
      && List(values + [Value(item.body)]) == Value(more)
      && Past(Children(more)) == past + |RenderItem(item)| + 1
      && SpansUpTo(more, |done| + 1, start, path)
         == SpansUpTo(Arr("", done), |done|, start, path) + SpansBody(item.body, start + 1 + past + |item.before|, path + [Index(|done|)])
  {
    hide SpansUpTo, SpansBody, RenderItem;
    var b, more := Arr("", done), Arr("", done + [item]);
    assert Children(more) == Children(b) + [Child("", item)];
    SpansGrow(b, more, Child("", item), start, path);
    assert Children(more)[..|done|] == Children(b);
  }

  lemma MapUnion<K, V>(a: map<K, V>, b: map<K, V>, c: map<K, V>)
    ensures a + b + c == a + (b + c)
  {
  }

  // After one more item, whose body ends at e: the delimiter decides how the array goes on.
  ghost predicate ArrayTurn(text: string, start: nat, done: seq<Item>, values: seq<Json>, path: Path,
                            before: map<Path, (nat, nat)>, e: nat, next: map<Path, (nat, nat)>) {
    && start < e <= |text|
    && ArrayRest(text, start, done, e + Blanks(text[e..]))
    && e + Blanks(text[e..]) == start + Past(Children(Arr("", done)))
    && List(values) == Value(Arr("", done))
    && next == before + SpansUpTo(Arr("", done), |done|, start, path)
  }

  ghost predicate ArrayRest(text: string, start: nat, done: seq<Item>, end: nat) {
    && start < end <= |text|
    && (end < |text| && text[end] == ']' ==> ParseBody(text[start..]) == Some((Arr("", done), end + 1 - start)))
    && (end < |text| && text[end] == ',' ==>
          ParseBody(text[start..]) == ArrayOf(Joined(done, end - start, ParseItems(text[end + 1..]))))
    && (end == |text| || (text[end] != ']' && text[end] != ',') ==> ParseBody(text[start..]).None?)
  }

  lemma ArrayContinues(text: string, start: nat, done: seq<Item>, from: nat)
    requires start < from <= |text| && ParseItem(text[from..]).Some?
    requires ParseBody(text[start..]) == ArrayOf(Joined(done, from - start - 1, ParseItems(text[from..])))
    ensures var (item, n) := ParseItem(text[from..]).value; ArrayRest(text, start, done + [item], from + n)
  {
    hide ParseBody, ParseItem, ParseItems;
    var t := text[from..];
    ItemsStep(t);
    var (item, n) := ParseItem(t).value;
    if from + n < |text| && text[from + n] == ',' {
      assert t[n + 1..] == text[from + n + 1..];
      JoinJoined(done, from - start - 1, [item], n + 1, ParseItems(t[n + 1..]));
    }
  }

  lemma ArrayFailsAt(text: string, start: nat, done: seq<Item>, from: nat, values: seq<Json>, path: Path,
                     before: map<Path, (nat, nat)>, after: map<Path, (nat, nat)>, next: map<Path, (nat, nat)>)
    requires ArrayProgress(text, start, done, from, values, path, before, after)
    requires from <= |text| && ParseItem(text[from..]).None?
    ensures Finished(None, ParseBody(text[start..]), start, path, before, next)
  {
    hide ParseBody, ParseItem, ParseItems, SpansBody, SpansUpTo, Children, Past, Value;
    NoItem(text[from..]);
  }

  lemma NoItemFinished(text: string, from: nat, path: Path, after: map<Path, (nat, nat)>, next: map<Path, (nat, nat)>)
    requires from <= |text|
    requires var i := from + Blanks(text[from..]); Finished(None, ParseBody(text[i..]), i, path, after, next)
    ensures ParseItem(text[from..]).None?
  {
    hide *;
    var i := from + Blanks(text[from..]);
    FinishedNone(ParseBody(text[i..]), i, path, after, next);
    ItemParts(text, from);
  }

  lemma FinishedNone(body: Option<(Body, nat)>, at: nat, path: Path, before: map<Path, (nat, nat)>, after: map<Path, (nat, nat)>)
    requires Finished(None, body, at, path, before, after)
    ensures body.None?
  {
  }

  ghost predicate ItemRead(text: string, from: nat, r: Option<(Json, nat)>, path: Path,
                           before: map<Path, (nat, nat)>, after: map<Path, (nat, nat)>) {
    from <= |text| && var i := from + Blanks(text[from..]); Finished(r, ParseBody(text[i..]), i, path, before, after)
  }

  lemma ItemIsRead(text: string, from: nat, i: nat, r: Option<(Json, nat)>, path: Path,
                   before: map<Path, (nat, nat)>, after: map<Path, (nat, nat)>)
    requires from <= i <= |text| && i == from + Blanks(text[from..]) && Blanks(text[i..]) == 0
    requires var j := i + Blanks(text[i..]); Finished(r, ParseBody(text[j..]), j, path, before, after)
    ensures ItemRead(text, from, r, path, before, after)
  {
    hide Blanks, ParseBody, Finished;
  }

  // One turn of the loop in _JsonDocument.array: no item, so no array.
  lemma ArrayNoItem(text: string, start: nat, done: seq<Item>, from: nat, values: seq<Json>, path: Path,
                    before: map<Path, (nat, nat)>, after: map<Path, (nat, nat)>, next: map<Path, (nat, nat)>)
    requires ArrayProgress(text, start, done, from, values, path, before, after)
    requires ItemRead(text, from, None, path + [Index(|done|)], after, next)
    ensures Finished(None, ParseBody(text[start..]), start, path, before, next)
  {
    hide Finished, ParseBody, ParseItem, ArrayProgress, Blanks;
    NoItemFinished(text, from, path + [Index(|done|)], after, next);
    ArrayFailsAt(text, start, done, from, values, path, before, after, next);
  }

  // The call that parsed the item at `from` returned its value, and recorded its spans.
  lemma ItemFinished(text: string, from: nat, value: Json, e: nat, path: Path, after: map<Path, (nat, nat)>, next: map<Path, (nat, nat)>)
    requires from <= |text|
    requires var i := from + Blanks(text[from..]); Finished(Some((value, e)), ParseBody(text[i..]), i, path, after, next)
    ensures ParseItem(text[from..]).Some? && from + Blanks(text[from..]) < e <= |text|
    ensures var (item, n) := ParseItem(text[from..]).value;
      && value == Value(item.body) && |RenderItem(item)| == n && from + n == e + Blanks(text[e..])
      && next == after + SpansBody(item.body, from + |item.before|, path)
  {
    hide *;
    var i := from + Blanks(text[from..]);
    FinishedSome(value, e, ParseBody(text[i..]), i, path, after, next);
    ItemParts(text, from);
  }

  lemma FinishedSome(value: Json, e: nat, body: Option<(Body, nat)>, at: nat, path: Path, before: map<Path, (nat, nat)>, after: map<Path, (nat, nat)>)
    requires Finished(Some((value, e)), body, at, path, before, after)
    ensures body.Some? && value == Value(body.value.0) && e == at + body.value.1 && after == before + SpansBody(body.value.0, at, path)
  {
  }

  // One more item.
  lemma ArrayItem(text: string, start: nat, done: seq<Item>, from: nat, values: seq<Json>, path: Path, before: map<Path, (nat, nat)>,
                  after: map<Path, (nat, nat)>, value: Json, e: nat, next: map<Path, (nat, nat)>)
    requires ArrayProgress(text, start, done, from, values, path, before, after)
    requires ItemRead(text, from, Some((value, e)), path + [Index(|done|)], after, next)
    ensures ParseItem(text[from..]).Some? && from + Blanks(text[from..]) < e <= |text|
    ensures ArrayTurn(text, start, done + [ParseItem(text[from..]).value.0], values + [value], path, before, e, next)
  {
    hide ParseBody, ParseItem, ParseItems, Blanks, RenderItem, Value, SpansBody, SpansUpTo, Children, Past, ArrayRest, Finished, Joined, ArrayOf;
    ItemFinished(text, from, value, e, path + [Index(|done|)], after, next);
    AllSpans(Arr("", done), start, path);
    var (item, n) := ParseItem(text[from..]).value;
    ArrayContinues(text, start, done, from);
    ArrayGrows(done, item, values, start, path);
    MapUnion(before, SpansUpTo(Arr("", done), |done|, start, path), SpansBody(item.body, from + |item.before|, path + [Index(|done|)]));
  }

  lemma ArrayCloses(text: string, start: nat, done: seq<Item>, values: seq<Json>, path: Path,
                    before: map<Path, (nat, nat)>, e: nat, next: map<Path, (nat, nat)>)
    requires ArrayTurn(text, start, done, values, path, before, e, next)
    ensures start < e <= |text|
    ensures var end := e + Blanks(text[e..]); end < |text| && text[end] == ']' ==>
              Finished(Some((List(values), end + 1)), ParseBody(text[start..]), start, path, before, next)
  {
    hide ParseBody, ParseItems, Blanks, SpansBody, SpansUpTo, Past, Joined, Value;
    AllSpans(Arr("", done), start, path);
  }

  lemma ArrayFails(text: string, start: nat, done: seq<Item>, values: seq<Json>, path: Path,
                   before: map<Path, (nat, nat)>, e: nat, next: map<Path, (nat, nat)>)
    requires ArrayTurn(text, start, done, values, path, before, e, next)
    ensures var end := e + Blanks(text[e..]); end == |text| || (text[end] != ']' && text[end] != ',') ==>
              Finished(None, ParseBody(text[start..]), start, path, before, next)
  {
    hide ParseBody, ParseItems, Blanks, SpansBody, SpansUpTo, Past, Joined, Value, Children;
  }

  lemma ArrayGoesOn(text: string, start: nat, done: seq<Item>, values: seq<Json>, path: Path,
                    before: map<Path, (nat, nat)>, e: nat, next: map<Path, (nat, nat)>)
    requires ArrayTurn(text, start, done, values, path, before, e, next)
    ensures var end := e + Blanks(text[e..]); end < |text| && text[end] == ',' ==>
              ArrayProgress(text, start, done, end + 1, values, path, before, next)
  {
    hide ParseBody, ParseItems, Blanks, SpansBody, SpansUpTo, Past, Joined, Value, Children;
  }

  lemma NoItem(s: string)
    requires ParseItem(s).None?
    ensures ParseItems(s).None? && (forall seen :: ParseMembers(s, seen).None? || ParseMember(s).Some?)
  {
  }

  lemma AllSpans(b: Body, at: nat, path: Path)
    requires !b.Scalar?
    ensures SpansBody(b, at, path) == SpansUpTo(b, |Children(b)|, at, path)
    ensures b.Arr? ==> |Children(b)| == |b.items|
    ensures b.Obj? ==> |Children(b)| == |b.members|
  {
  }

  // ---- objects ----

  function ObjectOf(members: Option<(seq<Member>, nat)>): Option<(Body, nat)> {
    match members
    case None => None
    case Some((all, n)) => Some((Obj("", all), n + 1))
  }

  function KeySet(keys: seq<Text>): set<Text> {
    set k | k in keys
  }

  ghost predicate ObjectProgress(text: string, start: nat, done: seq<Member>, from: nat, keys: seq<Text>, values: seq<Json>, path: Path,
                                 before: map<Path, (nat, nat)>, after: map<Path, (nat, nat)>) {
    && start < from <= |text| && from == start + 1 + Past(Children(Obj("", done)))
    && ParseBody(text[start..]) == ObjectOf(Joined(done, from - start - 1, ParseMembers(text[from..], KeySet(keys))))
    && Dict(keys, values) == Value(Obj("", done))
    && after == before + SpansUpTo(Obj("", done), |done|, start, path)
  }

  lemma ObjectStart(text: string, start: nat, path: Path, before: map<Path, (nat, nat)>)
    requires start < |text| && text[start] == '{'
    ensures var w := Blanks(text[start + 1..]);
            if start + 1 + w < |text| && text[start + 1 + w] == '}' then
              Finished(Some((Dict([], []), start + w + 2)), ParseBody(text[start..]), start, path, before, before)
            else ObjectProgress(text, start, [], start + 1, [], [], path, before, before)
  {
    hide Scan, ParseItems, ParseMembers, Blanks, SpansBody, SpansUpTo;
    var s := text[start..];
    assert s[1..] == text[start + 1..] && s[0] == '{';
    var w := Blanks(s[1..]);
    EmptySpans(Obj(s[1..1 + w], []), start, path, before);
    EmptySpans(Obj("", []), start, path, before);
    if start + 1 + w < |text| && text[start + 1 + w] == '}' {
      assert s[1 + w] == '}';
    } else {
      assert KeySet([]) == {};
      JoinNothing(ParseMembers(s[1..], {}));
    }
  }

  // The key, colon and value of the member at `from`.
  lemma MemberParts(text: string, from: nat)
    requires from <= |text|
    ensures var i := from + Blanks(text[from..]);
      match ScanString(text[i..])
      case None => ParseMember(text[from..]).None?
      case Some((key, k)) =>
        i + k <= |text| &&
        var j := i + k + Blanks(text[i + k..]);
        if j == |text| || text[j] != ':' then ParseMember(text[from..]).None?
        else match ParseItem(text[j + 1..])
          case None => ParseMember(text[from..]).None?
          case Some((value, n)) =>
            && ParseMember(text[from..]).Some?
            && var (m, name, len) := ParseMember(text[from..]).value;
               && m.value == value && name == key && KeyText(m) == key && from + len == j + 1 + n
               && |m.before + m.key + m.mid + ":"| == j + 1 - from && |RenderItem(m.value)| == n
  {
    hide ParseItem, Blanks, RenderItem, ScanString, ParseHead, KeyText;
    var t := text[from..];
    HeadParts(text, from);
    if ParseHead(t).Some? {
      var n := ParseHead(t).value.Length();
      assert t[n..] == text[from + n..];
      if ParseItem(t[n..]).Some? {
        MemberFound(t);
      }
    }
  }

  // The head alone: blanks, key, blanks and colon.
  lemma HeadParts(text: string, from: nat)
    requires from <= |text|
    ensures var i := from + Blanks(text[from..]);
      match ScanString(text[i..])
      case None => ParseHead(text[from..]).None?
      case Some((key, k)) =>
        i + k <= |text| &&
        var j := i + k + Blanks(text[i + k..]);
        if j == |text| || text[j] != ':' then ParseHead(text[from..]).None?
        else ParseHead(text[from..]).Some? && var h := ParseHead(text[from..]).value; from + h.Length() == j + 1 && h.text == key
  {
    hide Blanks, ScanString;
    var t := text[from..];
    var w := Blanks(t);
    assert t[w..] == text[from + w..];
    match ScanString(t[w..])
    case None =>
    case Some((key, k)) =>
      assert t[w + k..] == text[from + w + k..];
      var m := Blanks(t[w + k..]);
      assert w + k + m < |t| ==> t[w + k + m] == text[from + w + k + m];
  }

  lemma MemberFound(s: string)
    requires ParseHead(s).Some? && ParseItem(s[ParseHead(s).value.Length()..]).Some?
    ensures ParseMember(s).Some? && KeyText(ParseMember(s).value.0) == ParseMember(s).value.1
    ensures |RenderItem(ParseMember(s).value.0.value)| == ParseItem(s[ParseHead(s).value.Length()..]).value.1
  {
    hide ParseHead, ParseItem, RenderItem, KeyText, KeyToken, IsBlank, WfItem;
    ParseMemberSound(s);
    ParseItemSound(s[ParseHead(s).value.Length()..]);
  }

  lemma NoMember(s: string, seen: set<Text>)
    requires ParseMember(s).None? || ParseMember(s).value.1 in seen
    ensures ParseMembers(s, seen).None?
  {
    hide ParseMember;
  }

  // No member, or one whose key was already there: no object.
  lemma ObjectFailsAt(text: string, start: nat, done: seq<Member>, from: nat, keys: seq<Text>, values: seq<Json>, path: Path,
                      before: map<Path, (nat, nat)>, after: map<Path, (nat, nat)>, next: map<Path, (nat, nat)>)
    requires ObjectProgress(text, start, done, from, keys, values, path, before, after)
    requires from <= |text| && (ParseMember(text[from..]).None? || ParseMember(text[from..]).value.1 in keys)
    ensures Finished(None, ParseBody(text[start..]), start, path, before, next)
  {
    hide ParseBody, ParseMember, ParseMembers, SpansBody, SpansUpTo, Children, Past, Value;
    NoMember(text[from..], KeySet(keys));
  }

  lemma ObjectGrows(done: seq<Member>, m: Member, keys: seq<Text>, values: seq<Json>, start: nat, path: Path)
    requires Dict(keys, values) == Value(Obj("", done))
    ensures var more := Obj("", done + [m]); var past := Past(Children(Obj("", done))); var head := |m.before + m.key + m.mid + ":"|;
      && Dict(keys + [KeyText(m)], values + [Value(m.value.body)]) == Value(more)
      && Past(Children(more)) == past + head + |RenderItem(m.value)| + 1
      && SpansUpTo(more, |done| + 1, start, path)
         == SpansUpTo(Obj("", done), |done|, start, path)
            + SpansBody(m.value.body, start + 1 + past + head + |m.value.before|, path + [Key(KeyText(m))])
  {
    hide SpansUpTo, SpansBody, RenderItem, KeyText;
    var b, more := Obj("", done), Obj("", done + [m]);
    var c := Child(m.before + m.key + m.mid + ":", m.value);
    assert Children(more) == Children(b) + [c];
    SpansGrow(b, more, c, start, path);
    assert Children(more)[..|done|] == Children(b);
    assert Keys(done + [m]) == Keys(done) + [KeyText(m)];
  }

  // After one more member, whose value ends at e.
  ghost predicate ObjectTurn(text: string, start: nat, done: seq<Member>, keys: seq<Text>, values: seq<Json>, path: Path,
                             before: map<Path, (nat, nat)>, e: nat, next: map<Path, (nat, nat)>) {
    && start < e <= |text|
    && ObjectRest(text, start, done, keys, e + Blanks(text[e..]))
    && e + Blanks(text[e..]) == start + Past(Children(Obj("", done)))
    && Dict(keys, values) == Value(Obj("", done))
    && next == before + SpansUpTo(Obj("", done), |done|, start, path)
  }

  ghost predicate ObjectRest(text: string, start: nat, done: seq<Member>, keys: seq<Text>, end: nat) {
    && start < end <= |text|
    && (end < |text| && text[end] == '}' ==> ParseBody(text[start..]) == Some((Obj("", done), end + 1 - start)))
    && (end < |text| && text[end] == ',' ==>
          ParseBody(text[start..]) == ObjectOf(Joined(done, end - start, ParseMembers(text[end + 1..], KeySet(keys)))))
    && (end == |text| || (text[end] != '}' && text[end] != ',') ==> ParseBody(text[start..]).None?)
  }

  lemma ObjectContinues(text: string, start: nat, done: seq<Member>, from: nat, keys: seq<Text>)
    requires start < from <= |text| && ParseMember(text[from..]).Some? && ParseMember(text[from..]).value.1 !in keys
    requires ParseBody(text[start..]) == ObjectOf(Joined(done, from - start - 1, ParseMembers(text[from..], KeySet(keys))))
    ensures var (m, key, n) := ParseMember(text[from..]).value; ObjectRest(text, start, done + [m], keys + [key], from + n)
  {
    hide ParseBody, ParseMember, ParseMembers;
    var t := text[from..];
    MembersStep(t, KeySet(keys));
    var (m, key, n) := ParseMember(t).value;
    assert KeySet(keys + [key]) == KeySet(keys) + {key};
    if from + n < |text| && text[from + n] == ',' {
      assert t[n + 1..] == text[from + n + 1..];
      JoinJoined(done, from - start - 1, [m], n + 1, ParseMembers(t[n + 1..], KeySet(keys) + {key}));
    }
  }

  // The key at `from` is followed by a colon at j.
  ghost predicate MemberHead(text: string, from: nat, key: Text, j: nat) {
    && from <= |text| && j < |text| && text[j] == ':'
    && var i := from + Blanks(text[from..]); var found := ScanString(text[i..]);
       found.Some? && found.value.0 == key && i + found.value.1 <= |text| && j == i + found.value.1 + Blanks(text[i + found.value.1..])
  }

  // What reading the key token at i, and the colon after it, returns.
  ghost predicate KeyRead(text: string, i: nat, keys: seq<Text>, r: Option<(Text, nat)>) {
    i <= |text| &&
    match ScanString(text[i..])
    case None => r.None?
    case Some((key, k)) =>
      i + k <= |text| &&
      var j := i + k + Blanks(text[i + k..]);
      r == if key in keys || j == |text| || text[j] != ':' then None else Some((key, j))
  }

  // The member at `from` was parsed: its key, its value ending at e, and its spans.
  ghost predicate MemberRead(text: string, from: nat, key: Text, value: Json, e: nat, path: Path,
                             after: map<Path, (nat, nat)>, next: map<Path, (nat, nat)>) {
    && from < e <= |text| && from + Blanks(text[from..]) < e && ParseMember(text[from..]).Some?
    && var (m, name, n) := ParseMember(text[from..]).value;
       && name == key == KeyText(m) && from + n == e + Blanks(text[e..]) && value == Value(m.value.body)
       && n == |m.before + m.key + m.mid + ":"| + |RenderItem(m.value)|
       && next == after + SpansBody(m.value.body, from + |m.before + m.key + m.mid + ":"| + |m.value.before|, path + [Key(key)])
  }

  lemma MemberIsRead(text: string, from: nat, key: Text, j: nat, value: Json, e: nat, path: Path,
                     after: map<Path, (nat, nat)>, next: map<Path, (nat, nat)>)
    requires MemberHead(text, from, key, j) && from <= |text| && from + Blanks(text[from..]) <= j < |text|
    requires var i := j + 1 + Blanks(text[j + 1..]); Finished(Some((value, e)), ParseBody(text[i..]), i, path + [Key(key)], after, next)
    ensures MemberRead(text, from, key, value, e, path, after, next)
  {
    hide ParseBody, ParseItem, ParseMember, Blanks, RenderItem, Value, SpansBody, Finished, ScanString, KeyText;
    ItemFinished(text, j + 1, value, e, path + [Key(key)], after, next);
    MemberParts(text, from);
  }

  // One turn of the loop in _JsonDocument.object.
  lemma ObjectMember(text: string, start: nat, done: seq<Member>, from: nat, keys: seq<Text>, values: seq<Json>, path: Path,
                     before: map<Path, (nat, nat)>, after: map<Path, (nat, nat)>,
                     key: Text, value: Json, e: nat, next: map<Path, (nat, nat)>)
    requires ObjectProgress(text, start, done, from, keys, values, path, before, after)
    requires key !in keys && MemberRead(text, from, key, value, e, path, after, next)
    ensures from <= |text| && ParseMember(text[from..]).Some? && from + Blanks(text[from..]) < e <= |text|
    ensures ObjectTurn(text, start, done + [ParseMember(text[from..]).value.0], keys + [key], values + [value], path, before, e, next)
  {
    hide ParseBody, ParseMember, ParseMembers, Blanks, RenderItem, Value, SpansBody, SpansUpTo, Children, Past;
    hide ObjectRest, Joined, ObjectOf, KeyText, KeySet;
    AllSpans(Obj("", done), start, path);
    var (m, name, n) := ParseMember(text[from..]).value;
    ObjectContinues(text, start, done, from, keys);
    ObjectGrows(done, m, keys, values, start, path);
    MapUnion(before, SpansUpTo(Obj("", done), |done|, start, path),
             SpansBody(m.value.body, from + |m.before + m.key + m.mid + ":"| + |m.value.before|, path + [Key(key)]));
  }

  lemma KeyIsHead(text: string, from: nat, keys: seq<Text>, key: Text, j: nat)
    requires from <= |text| && KeyRead(text, from + Blanks(text[from..]), keys, Some((key, j)))
    ensures MemberHead(text, from, key, j) && key !in keys && from + Blanks(text[from..]) <= j < |text|
  {
  }

  lemma NoKeyNoMember(text: string, from: nat, keys: seq<Text>)
    requires from <= |text| && KeyRead(text, from + Blanks(text[from..]), keys, None)
    ensures ParseMember(text[from..]).None? || ParseMember(text[from..]).value.1 in keys
  {
    hide ParseMember, ScanString, Blanks, ParseItem, RenderItem, KeyText;
    MemberParts(text, from);
  }

  lemma NoValueNoMember(text: string, from: nat, key: Text, j: nat)
    requires MemberHead(text, from, key, j) && ParseItem(text[j + 1..]).None?
    ensures ParseMember(text[from..]).None?
  {
    hide ParseMember, ScanString, Blanks, ParseItem, RenderItem, KeyText;
    MemberParts(text, from);
  }

  lemma ObjectCloses(text: string, start: nat, done: seq<Member>, keys: seq<Text>, values: seq<Json>, path: Path,
                     before: map<Path, (nat, nat)>, e: nat, next: map<Path, (nat, nat)>)
    requires ObjectTurn(text, start, done, keys, values, path, before, e, next)
    ensures start < e <= |text|
    ensures var end := e + Blanks(text[e..]); end < |text| && text[end] == '}' ==>
              Finished(Some((Dict(keys, values), end + 1)), ParseBody(text[start..]), start, path, before, next)
  {
    hide ParseBody, ParseMembers, Blanks, SpansBody, SpansUpTo, Past, Joined, Value;
    AllSpans(Obj("", done), start, path);
  }

  lemma ObjectFails(text: string, start: nat, done: seq<Member>, keys: seq<Text>, values: seq<Json>, path: Path,
                    before: map<Path, (nat, nat)>, e: nat, next: map<Path, (nat, nat)>)
    requires ObjectTurn(text, start, done, keys, values, path, before, e, next)
    ensures var end := e + Blanks(text[e..]); end == |text| || (text[end] != '}' && text[end] != ',') ==>
              Finished(None, ParseBody(text[start..]), start, path, before, next)
  {
    hide ParseBody, ParseMembers, Blanks, SpansBody, SpansUpTo, Past, Joined, Value, Children;
  }

  lemma ObjectGoesOn(text: string, start: nat, done: seq<Member>, keys: seq<Text>, values: seq<Json>, path: Path,
                     before: map<Path, (nat, nat)>, e: nat, next: map<Path, (nat, nat)>)
    requires ObjectTurn(text, start, done, keys, values, path, before, e, next)
    ensures var end := e + Blanks(text[e..]); end < |text| && text[end] == ',' ==>
              ObjectProgress(text, start, done, end + 1, keys, values, path, before, next)
  {
    hide ParseBody, ParseMembers, Blanks, SpansBody, SpansUpTo, Past, Joined, Value, Children;
  }

  // ---- the parser object ----

  class Parser {
    const text: string
    var spans: map<Path, (nat, nat)>

    constructor (raw: string)
      ensures text == raw && spans == map[]
    {
      text := raw;
      spans := map[];
    }

    method Whitespace(index: nat) returns (i: nat)
      requires index <= |text|
      ensures i == index + Blanks(text[index..])
    {
      i := index;
      while i < |text| && IsSpace(text[i])
        invariant index <= i <= |text|
        invariant index + Blanks(text[index..]) == i + Blanks(text[i..])
      {
        assert text[i..][1..] == text[i + 1..];
        i := i + 1;
      }
      assert i < |text| ==> text[i..][0] == text[i];
    }

    method Parse(index: nat, path: Path) returns (r: Option<(Json, nat)>)
      requires index <= |text|
      modifies this
      ensures var i := index + Blanks(text[index..]); Finished(r, ParseBody(text[i..]), i, path, old(spans), spans)
      decreases |text| - index, 1
    {
      hide *;
      var i := Whitespace(index);
      if i == |text| {
        assert text[i..] == "";
        EmptyFinished(i, path, spans);
        return None;
      }
      if text[i] == '{' {
        r := ObjectAt(i, path);
      } else if text[i] == '[' {
        r := ArrayAt(i, path);
      } else {
        r := ScalarAt(i, path);
      }
    }

    // raw_decode at a scalar, recording where it stands.
    method ScalarAt(index: nat, path: Path) returns (r: Option<(Json, nat)>)
      requires index < |text| && text[index] != '{' && text[index] != '['
      modifies this
      ensures Finished(r, ParseBody(text[index..]), index, path, old(spans), spans)
    {
      hide *;
      ScalarFinished(text[index..], index, path, spans);
      match Scan(text[index..]) {
        case None => r := None;
        case Some((value, n)) =>
          spans := spans + map[path := (index, index + n)];
          r := Some((Leaf(value), index + n));
      }
    }

    // One array item, once the blanks before it are passed.
    method ItemAt(ghost from: nat, i: nat, path: Path) returns (r: Option<(Json, nat)>)
      requires from <= i <= |text| && i == from + Blanks(text[from..])
      modifies this
      ensures ItemRead(text, from, r, path, old(spans), spans)
      decreases |text| - i, 2
    {
      hide *;
      BlanksAgain(text[from..], text[i..]);
      ghost var before := spans;
      r := Parse(i, path);
      ItemIsRead(text, from, i, r, path, before, spans);
    }

    method ArrayAt(index: nat, path: Path) returns (r: Option<(Json, nat)>)
      requires index < |text| && text[index] == '['
      modifies this
      ensures Finished(r, ParseBody(text[index..]), index, path, old(spans), spans)
      decreases |text| - index, 0
    {
      hide *;
      var result: seq<Json> := [];
      ghost var done: seq<Item> := [];
      ghost var from, before := index + 1, spans;
      ArrayStart(text, index, path, spans);
      var i := Whitespace(index + 1);
      if i < |text| && text[i] == ']' {
        return Some((List(result), i + 1));
      }
      while true
        invariant index < from <= i <= |text| && i == from + Blanks(text[from..])
        invariant |result| == |done|
        invariant ArrayProgress(text, index, done, from, result, path, before, spans)
        decreases |text| - i
      {
        ghost var recorded := spans;
        r := ItemAt(from, i, path + [Index(|result|)]);
        if r.None? {
          ArrayNoItem(text, index, done, from, result, path, before, recorded, spans);
          return None;
        }
        ArrayItem(text, index, done, from, result, path, before, recorded, r.value.0, r.value.1, spans);
        done := done + [ParseItem(text[from..]).value.0];
        result := result + [r.value.0];
        ghost var e := r.value.1;
        i := Whitespace(r.value.1);
        if i < |text| && text[i] == ']' {
          ArrayCloses(text, index, done, result, path, before, e, spans);
          return Some((List(result), i + 1));
        }
        if i == |text| || text[i] != ',' {
          ArrayFails(text, index, done, result, path, before, e, spans);
          return None;
        }
        ArrayGoesOn(text, index, done, result, path, before, e, spans);
        from := i + 1;
        i := Whitespace(i + 1);
      }
    }

    // The key token of a member and the position of its colon.
    method KeyAt(i: nat, keys: seq<Text>) returns (r: Option<(Text, nat)>)
      requires i <= |text|
      ensures KeyRead(text, i, keys, r)
    {
      hide ScanString, Blanks;
      var found := ScanString(text[i..]);
      if found.None? || found.value.0 in keys {
        return None;
      }
      var j := Whitespace(i + found.value.1);
      if j == |text| || text[j] != ':' {
        return None;
      }
      return Some((found.value.0, j));
    }

    // One member: a new key, its colon and its value.
    method MemberAt(ghost from: nat, i: nat, keys: seq<Text>, path: Path) returns (key: Text, r: Option<(Json, nat)>)
      requires from <= i <= |text| && i == from + Blanks(text[from..])
      modifies this
      ensures r.None? ==> ParseMember(text[from..]).None? || ParseMember(text[from..]).value.1 in keys
      ensures r.Some? ==> key !in keys && MemberRead(text, from, key, r.value.0, r.value.1, path, old(spans), spans)
      decreases |text| - i, 0
    {
      hide *;
      ghost var before := spans;
      var head := KeyAt(i, keys);
      if head.None? {
        NoKeyNoMember(text, from, keys);
        return [], None;
      }
      var j := head.value.1;
      key := head.value.0;
      KeyIsHead(text, from, keys, key, j);
      r := Parse(j + 1, path + [Key(key)]);
      if r.None? {
        NoItemFinished(text, j + 1, path + [Key(key)], before, spans);
        NoValueNoMember(text, from, key, j);
      } else {
        MemberIsRead(text, from, key, j, r.value.0, r.value.1, path, before, spans);
      }
    }

    method ObjectAt(index: nat, path: Path) returns (r: Option<(Json, nat)>)
      requires index < |text| && text[index] == '{'
      modifies this
      ensures Finished(r, ParseBody(text[index..]), index, path, old(spans), spans)
      decreases |text| - index, 0
    {
      hide *;
      var keys: seq<Text>, values: seq<Json> := [], [];
      ghost var done: seq<Member> := [];
      ghost var from, before := index + 1, spans;
      ObjectStart(text, index, path, spans);
      var i := Whitespace(index + 1);
      if i < |text| && text[i] == '}' {
        return Some((Dict(keys, values), i + 1));
      }
      while true
        invariant index < from <= i <= |text| && i == from + Blanks(text[from..])
        invariant ObjectProgress(text, index, done, from, keys, values, path, before, spans)
        decreases |text| - i
      {
        ghost var recorded := spans;
        var key, member := MemberAt(from, i, keys, path);
        if member.None? {
          ObjectFailsAt(text, index, done, from, keys, values, path, before, recorded, spans);
          return None;
        }
        r := member;
        ObjectMember(text, index, done, from, keys, values, path, before, recorded, key, r.value.0, r.value.1, spans);
        done := done + [ParseMember(text[from..]).value.0];
        keys, values := keys + [key], values + [r.value.0];
        ghost var e := r.value.1;
        i := Whitespace(r.value.1);
        if i < |text| && text[i] == '}' {
          ObjectCloses(text, index, done, keys, values, path, before, e, spans);
          return Some((Dict(keys, values), i + 1));
        }
        if i == |text| || text[i] != ',' {
          ObjectFails(text, index, done, keys, values, path, before, e, spans);
          return None;
        }
        ObjectGoesOn(text, index, done, keys, values, path, before, e, spans);
        from := i + 1;
        i := Whitespace(i + 1);
      }
    }
  }

  // ---- _json_document and _json_edit ----

  lemma WholeDocument(raw: string)
    ensures var i := Blanks(raw);
      match ParseBody(raw[i..])
      case None => Document(raw).None?
      case Some((b, k)) =>
        var e := i + k;
        && e <= |raw| && (Document(raw).Some? <==> e + Blanks(raw[e..]) == |raw|)
        && (Document(raw).Some? ==> Document(raw).value.body == b && |Document(raw).value.before| == i)
  {
    hide ParseBody, ParseItem, Blanks, RenderItem;
    ItemParts(raw, 0);
    assert raw[0..] == raw;
  }

  lemma NothingBefore<K, V>(m: map<K, V>)
    ensures map[] + m == m
  {
  }

  method Load(raw: string) returns (r: Option<(Json, map<Path, (nat, nat)>)>)
    ensures r == match Document(raw)
                 case None => None
                 case Some(item) => Some((Value(item.body), Spans(item)))
  {
    hide ParseBody, ParseItem, Blanks, Value, SpansBody, Document;
    assert raw[0..] == raw;
    WholeDocument(raw);
    var document := new Parser(raw);
    var parsed := document.Parse(0, []);
    if parsed.None? {
      return None;
    }
    var end := document.Whitespace(parsed.value.1);
    if end != |raw| {
      return None;
    }
    NothingBefore(Spans(Document(raw).value));
    return Some((parsed.value.0, document.spans));
  }

  lemma {:induction false} PlanFails(v: Json, spans: map<Path, (nat, nat)>, fields: seq<Path>, value: Projection, i: nat)
    requires i <= |fields| && Plan(v, spans, fields[..i], value).Err?
    ensures Plan(v, spans, fields, value) == Plan(v, spans, fields[..i], value)
    decreases |fields|
  {
    hide EditField;
    if i == |fields| {
      assert fields[..i] == fields;
    } else {
      assert fields[..|fields| - 1][..i] == fields[..i];
      PlanFails(v, spans, fields[..|fields| - 1], value, i);
    }
  }

  method JsonEditText(raw: string, sel: Selector, value: Projection) returns (r: Result<(string, seq<Scalar>), Failure>)
    ensures r == Edit(raw, sel, value)
  {
    hide Document, Value, SpansBody, Fields, EditField, SortDown, ApplyOne;
    var document := Load(raw);
    if document.None? {
      return Err(Malformed);
    }
    var (data, spans) := document.value;
    var fields := Fields(sel, data);
    if fields.Err? {
      return Err(fields.error);
    }
    var edits: seq<Change>, previous: seq<Scalar> := [], [];
    var i := 0;
    while i < |fields.value|
      invariant i <= |fields.value|
      invariant Plan(data, spans, fields.value[..i], value) == Ok((edits, previous))
    {
      assert fields.value[..i + 1][..i] == fields.value[..i];
      var step := EditField(data, spans, fields.value[i], value);
      if step.Err? {
        PlanFails(data, spans, fields.value, value, i + 1);
        return Err(step.error);
      }
      edits, previous := edits + step.value.0, previous + [step.value.1];
      i := i + 1;
    }
    assert fields.value[..i] == fields.value;
    var sorted := Splices(SortDown(edits));
    var text := raw;
    i := 0;
    while i < |sorted|
      invariant i <= |sorted| && text == ApplyAll(raw, sorted[..i])
    {
      assert sorted[..i + 1][..i] == sorted[..i];
      text := ApplyOne(text, sorted[i]);
      i := i + 1;
    }
    assert sorted[..i] == sorted;
    return Ok((text, previous));
  }
}

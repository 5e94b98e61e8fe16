// Scalar places in a JSON text, and what replacing them does
// (scripts/version_plan.py, _get, _JsonDocument.spans and _json_edit).
module JsonEdit {
  import opened Wrappers
  import opened JsonScan
  import opened JsonTree

  datatype Step = Key(text: Text) | Index(n: nat)
  type Path = seq<Step>

  // The decoded document; keys are kept in document order.
  datatype Json = Leaf(scalar: Scalar) | List(items: seq<Json>) | Dict(keys: seq<Text>, items: seq<Json>)

  function TokenValue(token: string): Scalar {
    match Scan(token)
    case Some((value, _)) => value
    case None => Null
  }

  function Value(b: Body): Json
    decreases b
  {
    match b
    case Scalar(token) => Leaf(TokenValue(token))
    case Arr(_, items) => List(seq(|items|, i requires 0 <= i < |items| => Value(items[i].body)))
    case Obj(_, members) => Dict(Keys(members), seq(|members|, i requires 0 <= i < |members| => Value(members[i].value.body)))
  }

  function Keys(members: seq<Member>): seq<Text> {
    seq(|members|, i requires 0 <= i < |members| => KeyText(members[i]))
  }

  function IndexOf(keys: seq<Text>, key: Text): (r: Option<nat>)
    ensures r.Some? ==> r.value < |keys| && keys[r.value] == key
    ensures r.None? ==> key !in keys
  {
    if keys == [] then None
    else if keys[0] == key then Some(0)
    else match IndexOf(keys[1..], key)
      case Some(k) => Some(k + 1)
      case None => None
  }

  // ---- reading and writing decoded documents ----

  function FindIn(v: Json, step: Step): (r: Option<nat>)
    ensures r.Some? ==> !v.Leaf? && r.value < |v.items|
  {
    match (v, step)
    case (List(items), Index(n)) => if n < |items| then Some(n) else None
    case (Dict(keys, items), Key(text)) =>
      (match IndexOf(keys, text)
       case Some(k) => if k < |items| then Some(k) else None
       case None => None)
    case _ => None
  }

  function Get(v: Json, path: Path): Option<Json>
    decreases |path|
  {
    if path == [] then Some(v)
    else match FindIn(v, path[0])
      case Some(k) => Get(v.items[k], path[1..])
      case None => None
  }

  function Set(v: Json, path: Path, x: Json): Json
    decreases |path|
  {
    if path == [] then x
    else match FindIn(v, path[0])
      case Some(k) => v.(items := v.items[k := Set(v.items[k], path[1..], x)])
      case None => v
  }

  predicate Apart(p: Path, q: Path) {
    !(p <= q) && !(q <= p)
  }

  lemma {:induction false} GetSet(v: Json, path: Path, x: Json)
    requires Get(v, path).Some?
    ensures Get(Set(v, path, x), path) == Some(x)
    decreases |path|
  {
    if path != [] {
      var k := FindIn(v, path[0]).value;
      GetSet(v.items[k], path[1..], x);
      assert FindIn(Set(v, path, x), path[0]) == Some(k);
    }
  }

  lemma {:induction false} SetGet(v: Json, path: Path)
    requires Get(v, path).Some?
    ensures Set(v, path, Get(v, path).value) == v
    decreases |path|
  {
    if path != [] {
      var k := FindIn(v, path[0]).value;
      SetGet(v.items[k], path[1..]);
      assert v.items[k := v.items[k]] == v.items;
    }
  }

  lemma {:induction false} GetOther(v: Json, path: Path, x: Json, other: Path)
    requires Get(v, path).Some? && Apart(path, other)
    ensures Get(Set(v, path, x), other) == Get(v, other)
    decreases |path|
  {
    var k := FindIn(v, path[0]).value;
    var w := Set(v, path, x);
    assert FindIn(w, other[0]) == FindIn(v, other[0]);
    if FindIn(v, other[0]) == Some(k) {
      SameStep(v, path[0], other[0], k);
      ApartTail(path, other);
      GetOther(v.items[k], path[1..], x, other[1..]);
    }
  }

  lemma ApartTail(p: Path, q: Path)
    requires Apart(p, q) && p[0] == q[0]
    ensures Apart(p[1..], q[1..])
  {
    assert p == [p[0]] + p[1..] && q == [q[0]] + q[1..];
  }

  lemma SameStep(v: Json, a: Step, b: Step, k: nat)
    requires FindIn(v, a) == Some(k) == FindIn(v, b)
    ensures a == b
  {
  }

  // Above the changed place only the one child differs, so a dictionary stays one.
  lemma {:induction false} GetAbove(v: Json, path: Path, x: Json, above: Path)
    requires Get(v, path).Some? && above < path
    ensures Get(v, above).Some? && Get(Set(v, path, x), above) == Some(Set(Get(v, above).value, path[|above|..], x))
    decreases |path|
  {
    if above != [] {
      var k := FindIn(v, path[0]).value;
      assert FindIn(Set(v, path, x), path[0]) == Some(k);
      assert above == above[..1] + above[1..];
      GetAbove(v.items[k], path[1..], x, above[1..]);
      assert path[1..][|above[1..]|..] == path[|above|..];
    } else {
      assert path[0..] == path;
    }
  }

  // ---- children of a container, with the text on both sides ----

  // A child of a container and the text that introduces it.
  datatype Child = Child(head: string, item: Item)

  function Children(b: Body): seq<Child> {
    match b
    case Scalar(_) => []
    case Arr(_, items) => seq(|items|, i requires 0 <= i < |items| => Child("", items[i]))
    case Obj(_, members) =>
      seq(|members|, i requires 0 <= i < |members| => Child(members[i].before + members[i].key + members[i].mid + ":", members[i].value))
  }

  function Opening(b: Body): string { if b.Obj? then "{" else "[" }

  function Closing(b: Body): string { if b.Obj? then "}" else "]" }

  function RenderChildren(cs: seq<Child>, closing: string): string {
    if cs == [] then ""
    else cs[0].head + RenderItem(cs[0].item) + (if |cs| == 1 then closing else "," + RenderChildren(cs[1..], closing))
  }

  lemma {:induction false} ItemsAsChildren(items: seq<Item>)
    ensures RenderItems(items) == RenderChildren(Children(Arr("", items)), "]")
  {
    if items != [] {
      ItemsAsChildren(items[1..]);
      assert Children(Arr("", items))[1..] == Children(Arr("", items[1..]));
    }
  }

  lemma {:induction false} MembersAsChildren(members: seq<Member>)
    ensures RenderMembers(members) == RenderChildren(Children(Obj("", members)), "}")
  {
    if members != [] {
      MembersAsChildren(members[1..]);
      assert Children(Obj("", members))[1..] == Children(Obj("", members[1..]));
    }
  }

  lemma RenderAsChildren(b: Body)
    requires Children(b) != []
    ensures Render(b) == Opening(b) + RenderChildren(Children(b), Closing(b))
  {
    match b
    case Arr(_, items) => ItemsAsChildren(items); assert Children(b) == Children(Arr("", items));
    case Obj(_, members) => MembersAsChildren(members); assert Children(b) == Children(Obj("", members));
  }

  // The text of the children before the k-th one, and after it.
  function Lead(cs: seq<Child>, k: nat): string
    requires k < |cs|
  {
    if k == 0 then cs[0].head else cs[0].head + RenderItem(cs[0].item) + "," + Lead(cs[1..], k - 1)
  }

  function Trail(cs: seq<Child>, k: nat, closing: string): string
    requires k < |cs|
  {
    if k > 0 then Trail(cs[1..], k - 1, closing)
    else if |cs| == 1 then closing else "," + RenderChildren(cs[1..], closing)
  }

  lemma {:induction false} Around(cs: seq<Child>, k: nat, closing: string)
    requires k < |cs|
    ensures RenderChildren(cs, closing) == Lead(cs, k) + RenderItem(cs[k].item) + Trail(cs, k, closing)
  {
    if k > 0 {
      hide RenderItem;
      Around(cs[1..], k - 1, closing);
      Assoc(cs[0].head + RenderItem(cs[0].item) + ",", Lead(cs[1..], k - 1), RenderItem(cs[k].item), Trail(cs, k, closing));
    }
  }

  lemma {:induction false} LeadTrailUpdate(cs: seq<Child>, k: nat, item: Item, j: nat, closing: string)
    requires k < |cs| && j < |cs|
    ensures var ds := cs[k := cs[k].(item := item)];
            && (j <= k ==> Lead(ds, j) == Lead(cs, j))
            && (k <= j ==> Trail(ds, j, closing) == Trail(cs, j, closing))
  {
    hide RenderItem;
    var ds := cs[k := cs[k].(item := item)];
    if k == 0 {
      assert ds[1..] == cs[1..];
    } else if j > 0 {
      LeadTrailUpdate(cs[1..], k - 1, item, j - 1, closing);
      assert ds[1..] == cs[1..][k - 1 := cs[k].(item := item)];
    }
  }

  lemma {:induction false} LeadOrder(cs: seq<Child>, j: nat, k: nat)
    requires j < k < |cs|
    ensures |Lead(cs, j)| + |RenderItem(cs[j].item)| < |Lead(cs, k)|
  {
    hide RenderItem;
    if j > 0 {
      LeadOrder(cs[1..], j - 1, k - 1);
    }
  }

  // ---- scalar places ----

  function Find(b: Body, step: Step): (r: Option<nat>)
    ensures r.Some? ==> r.value < |Children(b)|
  {
    match (b, step)
    case (Arr(_, items), Index(n)) => if n < |items| then Some(n) else None
    case (Obj(_, members), Key(text)) => IndexOf(Keys(members), text)
    case _ => None
  }

  // A scalar token with the text before and after it.
  datatype Place = Place(left: string, token: string, right: string)
  {
    function Text(): string { left + token + right }
  }

  function Outer(b: Body, k: nat, inner: Place): Place
    requires k < |Children(b)|
  {
    var c := Children(b)[k].item;
    Place(Opening(b) + Lead(Children(b), k) + c.before + inner.left, inner.token,
          inner.right + c.after + Trail(Children(b), k, Closing(b)))
  }

  function Locate(b: Body, path: Path): Option<Place>
    decreases |path|
  {
    if path == [] then (if b.Scalar? then Some(Place("", b.token, "")) else None)
    else match Find(b, path[0])
      case None => None
      case Some(k) =>
        match Locate(Children(b)[k].item.body, path[1..])
        case Some(inner) => Some(Outer(b, k, inner))
        case None => None
  }

  function WithChild(b: Body, k: nat, body: Body): (r: Body)
    requires k < |Children(b)|
    ensures Children(r) == Children(b)[k := Children(b)[k].(item := Children(b)[k].item.(body := body))]
    ensures Opening(r) == Opening(b) && Closing(r) == Closing(b)
    ensures forall step :: Find(r, step) == Find(b, step)
  {
    match b
    case Arr(blank, items) => Arr(blank, items[k := items[k].(body := body)])
    case Obj(blank, members) =>
      var ms := members[k := members[k].(value := members[k].value.(body := body))];
      assert Keys(ms) == Keys(members);
      Obj(blank, ms)
  }

  function Replace(b: Body, path: Path, token: string): Body
    decreases |path|
  {
    if path == [] then Scalar(token)
    else match Find(b, path[0])
      case None => b
      case Some(k) => WithChild(b, k, Replace(Children(b)[k].item.body, path[1..], token))
  }

  lemma {:induction false} LocateRenders(b: Body, path: Path)
    requires Locate(b, path).Some?
    ensures Render(b) == Locate(b, path).value.Text()
    decreases |path|
  {
    if path != [] {
      var k := Find(b, path[0]).value;
      var c := Children(b)[k].item;
      LocateRenders(c.body, path[1..]);
      RenderAsChildren(b);
      Around(Children(b), k, Closing(b));
      OuterText(b, k, Locate(c.body, path[1..]).value);
    }
  }

  lemma OuterText(b: Body, k: nat, inner: Place)
    requires k < |Children(b)|
    ensures var c := Children(b)[k].item;
            Outer(b, k, inner).Text() == Opening(b) + (Lead(Children(b), k) + (c.before + inner.Text() + c.after) + Trail(Children(b), k, Closing(b)))
  {
    hide Lead, Trail, Children, Opening, Closing;
  }

  lemma OuterWithChild(b: Body, k: nat, body: Body, inner: Place)
    requires k < |Children(b)|
    ensures Outer(WithChild(b, k, body), k, inner) == Outer(b, k, inner)
  {
    hide Lead, Trail, Children, WithChild, Opening, Closing;
    LeadTrailUpdate(Children(b), k, Children(b)[k].item.(body := body), k, Closing(b));
  }

  // The replaced token stands between the same texts.
  lemma {:induction false} LocateReplaced(b: Body, path: Path, token: string)
    requires Locate(b, path).Some?
    ensures Locate(Replace(b, path, token), path) == Some(Locate(b, path).value.(token := token))
    decreases |path|
  {
    if path != [] {
      hide Outer, WithChild, Children, Find;
      var k := Find(b, path[0]).value;
      var c := Children(b)[k].item;
      LocateReplaced(c.body, path[1..], token);
      var body := Replace(c.body, path[1..], token);
      OuterWithChild(b, k, body, Locate(body, path[1..]).value);
      OuterToken(b, k, Locate(c.body, path[1..]).value, token);
    }
  }

  lemma OuterToken(b: Body, k: nat, inner: Place, token: string)
    requires k < |Children(b)|
    ensures Outer(b, k, inner.(token := token)) == Outer(b, k, inner).(token := token)
  {
  }

  // ---- the other places ----

  ghost predicate Precedes(p: Place, q: Place) {
    |p.left| + |p.token| < |q.left|
  }

  // Replacing a token leaves every other scalar's token alone; what precedes it
  // keeps its position, and what follows it keeps its distance from the end.
  ghost predicate Beside(was: Place, now: Option<Place>, changed: Place) {
    && now.Some? && now.value.token == was.token
    && (Precedes(was, changed) || Precedes(changed, was))
    && (Precedes(was, changed) ==> now.value.left == was.left)
    && (Precedes(changed, was) ==> now.value.right == was.right)
  }

  lemma {:induction false} LocateOther(b: Body, path: Path, token: string, other: Path)
    requires Locate(b, path).Some? && Locate(b, other).Some? && path != other
    ensures Beside(Locate(b, other).value, Locate(Replace(b, path, token), other), Locate(b, path).value)
    decreases |path|
  {
    var k, j := Find(b, path[0]).value, Find(b, other[0]).value;
    if j == k {
      var c := Children(b)[k].item;
      var body := Replace(c.body, path[1..], token);
      StepOf(b, path[0], other[0], k);
      LocateOther(c.body, path[1..], token, other[1..]);
      hide Children, WithChild, Outer, Lead, Trail;
      OuterWithChild(b, k, body, Locate(body, other[1..]).value);
      OuterBeside(b, k, Locate(c.body, other[1..]).value, Locate(body, other[1..]).value, Locate(c.body, path[1..]).value);
    } else {
      LocateElsewhere(b, path, token, other);
    }
  }

  // What is beside below one child is beside in the container.
  lemma OuterBeside(b: Body, k: nat, was: Place, now: Place, changed: Place)
    requires k < |Children(b)| && Beside(was, Some(now), changed)
    ensures Beside(Outer(b, k, was), Some(Outer(b, k, now)), Outer(b, k, changed))
  {
    hide Children, Lead, Trail, Opening, Closing;
  }

  // The two scalars lie in different children.
  lemma LocateElsewhere(b: Body, path: Path, token: string, other: Path)
    requires Locate(b, path).Some? && Locate(b, other).Some? && path != [] && other != []
    requires Find(b, path[0]).value != Find(b, other[0]).value
    ensures Beside(Locate(b, other).value, Locate(Replace(b, path, token), other), Locate(b, path).value)
  {
    var k, j := Find(b, path[0]).value, Find(b, other[0]).value;
    var cs := Children(b);
    var c, d := cs[k].item, cs[j].item;
    var body := Replace(c.body, path[1..], token);
    hide Lead, Trail, Children, WithChild, Opening, Closing;
    LocateRenders(c.body, path[1..]);
    LocateRenders(d.body, other[1..]);
    LeadTrailUpdate(cs, k, c.(body := body), j, Closing(b));
    if j < k {
      LeadOrder(cs, j, k);
    } else {
      LeadOrder(cs, k, j);
    }
  }

  lemma StepOf(b: Body, p: Step, q: Step, k: nat)
    requires Find(b, p) == Some(k) == Find(b, q)
    ensures p == q
  {
  }

  // ---- well-formedness ----

  lemma {:induction false} WfItemsAt(items: seq<Item>, k: nat, body: Body)
    requires WfItems(items) && k < |items|
    ensures WfItem(items[k])
    ensures WfBody(body) ==> WfItems(items[k := items[k].(body := body)])
  {
    hide WfBody;
    if k > 0 {
      WfItemsAt(items[1..], k - 1, body);
      assert items[k := items[k].(body := body)][1..] == items[1..][k - 1 := items[k].(body := body)];
    } else {
      assert items[k := items[k].(body := body)][1..] == items[1..];
    }
  }

  lemma {:induction false} WfMembersAt(members: seq<Member>, seen: set<Text>, k: nat, body: Body)
    requires WfMembers(members, seen) && k < |members|
    ensures WfItem(members[k].value)
    ensures WfBody(body) ==> WfMembers(members[k := members[k].(value := members[k].value.(body := body))], seen)
  {
    hide WfBody, KeyToken, ScanString, IsBlank;
    var m := members[k].(value := members[k].value.(body := body));
    if k > 0 {
      WfMembersAt(members[1..], seen + {KeyText(members[0])}, k - 1, body);
      assert members[k := m][1..] == members[1..][k - 1 := m];
    } else {
      assert members[k := m][1..] == members[1..];
    }
  }

  lemma WfWithChild(b: Body, k: nat, body: Body)
    requires WfBody(b) && k < |Children(b)|
    ensures WfItem(Children(b)[k].item)
    ensures WfBody(body) ==> WfBody(WithChild(b, k, body))
  {
    hide WfItems, WfMembers, WfItem, IsBlank;
    match b
    case Arr(_, items) => WfItemsAt(items, k, body);
    case Obj(_, members) => WfMembersAt(members, {}, k, body);
  }

  lemma {:induction false} WfReplace(b: Body, path: Path, token: string)
    requires WfBody(b) && Locate(b, path).Some? && ScalarToken(token)
    ensures WfBody(Replace(b, path, token))
    decreases |path|
  {
    if path != [] {
      var k := Find(b, path[0]).value;
      hide WithChild;
      WfWithChild(b, k, Replace(Children(b)[k].item.body, path[1..], token));
      WfReplace(Children(b)[k].item.body, path[1..], token);
    }
  }

  // ---- decoded values ----

  // Keys are distinct and paired with values, at every level.
  predicate Sound(v: Json) {
    match v
    case Leaf(_) => true
    case List(items) => forall i :: 0 <= i < |items| ==> Sound(items[i])
    case Dict(keys, items) =>
      && |keys| == |items| && (forall i :: 0 <= i < |items| ==> Sound(items[i]))
      && (forall i, j :: 0 <= i < j < |keys| ==> keys[i] != keys[j])
  }

  lemma {:induction false} MembersDistinct(members: seq<Member>, seen: set<Text>)
    requires WfMembers(members, seen)
    ensures forall i :: 0 <= i < |members| ==> WfItem(members[i].value) && KeyText(members[i]) !in seen
    ensures forall i, j :: 0 <= i < j < |members| ==> KeyText(members[i]) != KeyText(members[j])
  {
    hide WfItem, KeyToken, KeyText, IsBlank;
    if members != [] {
      MembersDistinct(members[1..], seen + {KeyText(members[0])});
      assert forall i :: 0 < i < |members| ==> members[i] == members[1..][i - 1];
    }
  }

  lemma {:induction false} ItemsWf(items: seq<Item>)
    requires WfItems(items)
    ensures forall i :: 0 <= i < |items| ==> WfItem(items[i])
  {
    if items != [] {
      ItemsWf(items[1..]);
      assert forall i :: 0 < i < |items| ==> items[i] == items[1..][i - 1];
    }
  }

  lemma {:induction false} ValueSound(b: Body)
    requires WfBody(b)
    ensures Sound(Value(b))
    decreases b
  {
    hide WfItems, WfMembers, KeyText;
    match b
    case Scalar(_) =>
    case Arr(_, items) =>
      ItemsWf(items);
      forall i | 0 <= i < |items| ensures Sound(Value(items[i].body)) { ValueSound(items[i].body); }
    case Obj(_, members) =>
      MembersDistinct(members, {});
      forall i | 0 <= i < |members| ensures Sound(Value(members[i].value.body)) { ValueSound(members[i].value.body); }
  }

  lemma FindValue(b: Body, step: Step)
    ensures FindIn(Value(b), step) == Find(b, step)
    ensures !b.Scalar? ==> |Value(b).items| == |Children(b)| && forall k :: 0 <= k < |Children(b)| ==> Value(b).items[k] == Value(Children(b)[k].item.body)
    ensures b.Scalar? <==> Value(b).Leaf?
  {
  }

  lemma ValueWithChild(b: Body, k: nat, body: Body)
    requires k < |Children(b)|
    ensures !Value(b).Leaf? && k < |Value(b).items| && Value(WithChild(b, k, body)) == Value(b).(items := Value(b).items[k := Value(body)])
  {
    if b.Obj? {
      assert Keys(WithChild(b, k, body).members) == Keys(b.members);
    }
  }

  // A recorded place is exactly a selectable scalar.
  lemma {:induction false} LocateGet(b: Body, path: Path)
    ensures Locate(b, path).Some? <==> Get(Value(b), path).Some? && Get(Value(b), path).value.Leaf?
    ensures Locate(b, path).Some? ==> Get(Value(b), path) == Some(Leaf(TokenValue(Locate(b, path).value.token)))
    decreases |path|
  {
    if path != [] {
      FindValue(b, path[0]);
      if Find(b, path[0]).Some? {
        LocateGet(Children(b)[Find(b, path[0]).value].item.body, path[1..]);
      }
    }
  }

  lemma {:induction false} ValueReplace(b: Body, path: Path, token: string)
    requires Locate(b, path).Some?
    ensures Value(Replace(b, path, token)) == Set(Value(b), path, Leaf(TokenValue(token)))
    decreases |path|
  {
    if path != [] {
      var k := Find(b, path[0]).value;
      FindValue(b, path[0]);
      hide WithChild, Children;
      ValueReplace(Children(b)[k].item.body, path[1..], token);
      ValueWithChild(b, k, Replace(Children(b)[k].item.body, path[1..], token));
    }
  }

  // ---- several scalars replaced at once ----

  function StepAt(v: Json, k: nat): Step {
    if v.Dict? && k < |v.keys| then Key(v.keys[k]) else Index(k)
  }

  function SetMany(v: Json, at: Path, m: map<Path, Scalar>): Json
    decreases v
  {
    match v
    case Leaf(_) => if at in m then Leaf(m[at]) else v
    case List(items) => List(seq(|items|, i requires 0 <= i < |items| => SetMany(items[i], at + [StepAt(v, i)], m)))
    case Dict(keys, items) => Dict(keys, seq(|items|, i requires 0 <= i < |items| => SetMany(items[i], at + [StepAt(v, i)], m)))
  }

  lemma FindSetMany(v: Json, at: Path, m: map<Path, Scalar>, step: Step)
    ensures FindIn(SetMany(v, at, m), step) == FindIn(v, step)
    ensures Sound(v) && FindIn(v, step).Some? ==> StepAt(v, FindIn(v, step).value) == step
  {
  }

  // Reading a scalar back, and every path that is not one of the selected scalars.
  lemma {:induction false} GetSetMany(v: Json, at: Path, m: map<Path, Scalar>, path: Path)
    requires Sound(v)
    ensures Get(SetMany(v, at, m), path).Some? <==> Get(v, path).Some?
    ensures Get(v, path).Some? ==> Get(SetMany(v, at, m), path) == Some(SetMany(Get(v, path).value, at + path, m))
    decreases |path|
  {
    if path == [] {
      assert at + path == at;
    } else {
      FindSetMany(v, at, m, path[0]);
      if FindIn(v, path[0]).Some? {
        GetSetMany(v.items[FindIn(v, path[0]).value], at + [path[0]], m, path[1..]);
        assert at + [path[0]] + path[1..] == at + path;
      }
    }
  }

  lemma {:induction false} SetManyNone(v: Json, at: Path, m: map<Path, Scalar>, n: map<Path, Scalar>)
    requires forall q :: at <= q ==> ((q in m) <==> (q in n)) && (q in m ==> m[q] == n[q])
    ensures SetMany(v, at, m) == SetMany(v, at, n)
    decreases v
  {
    if !v.Leaf? {
      forall i | 0 <= i < |v.items| ensures SetMany(v.items[i], at + [StepAt(v, i)], m) == SetMany(v.items[i], at + [StepAt(v, i)], n) {
        SetManyNone(v.items[i], at + [StepAt(v, i)], m, n);
      }
    }
  }

  lemma {:induction false} SetSetMany(v: Json, at: Path, m: map<Path, Scalar>, path: Path, x: Scalar)
    requires Sound(v) && Get(v, path).Some? && Get(v, path).value.Leaf?
    ensures Set(SetMany(v, at, m), path, Leaf(x)) == SetMany(v, at, m[at + path := x])
    decreases |path|
  {
    var n := m[at + path := x];
    if path == [] {
      assert at + path == at;
    } else {
      var k := FindIn(v, path[0]).value;
      FindSetMany(v, at, m, path[0]);
      SetSetMany(v.items[k], at + [path[0]], m, path[1..], x);
      assert at + [path[0]] + path[1..] == at + path;
      forall i | 0 <= i < |v.items| && i != k
        ensures SetMany(v.items[i], at + [StepAt(v, i)], m) == SetMany(v.items[i], at + [StepAt(v, i)], n)
      {
        assert StepAt(v, i) != path[0];
        assert (at + path)[|at|] == path[0];
        SetManyNone(v.items[i], at + [StepAt(v, i)], m, n);
      }
    }
  }

  lemma {:induction false} SetManyEmpty(v: Json, at: Path)
    ensures SetMany(v, at, map[]) == v
    decreases v
  {
    if !v.Leaf? {
      forall i | 0 <= i < |v.items| ensures SetMany(v.items[i], at + [StepAt(v, i)], map[]) == v.items[i] {
        SetManyEmpty(v.items[i], at + [StepAt(v, i)]);
      }
    }
  }
}

// Editing the version fields of a JSON manifest or npm lock file
// (scripts/version_plan.py, _json_document, _scalar and _json_edit).
module JsonField {
  import opened Wrappers
  import opened JsonScan
  import opened JsonTree
  import opened JsonEdit
  import opened JsonSplice
  import Decimal

  // Every failure is a VersionError or a ValueError of the source.
  datatype Failure = Malformed | NotOwned | MissingField | NotScalar | NotEditable

  // What the release plan projects onto the field: a build number or a version text.
  datatype Projection = Number(n: int) | Version(text: string)

  datatype Selector = NpmLock(package: string) | Manifest(field: seq<string>, owner: Option<string>)

  // The whole text is one value with blanks around it.
  function Document(text: string): Option<Item> {
    match ParseItem(text)
    case Some((item, n)) => if n == |text| then Some(item) else None
    case None => None
  }

  // ---- recorded spans ----

  function SpansBody(b: Body, at: nat, path: Path): map<Path, (nat, nat)>
    decreases b, 1, 0
  {
    if b.Scalar? then map[path := (at, at + |b.token|)] else SpansUpTo(b, |Children(b)|, at, path)
  }

  // The spans of the first k children.
  function SpansUpTo(b: Body, k: nat, at: nat, path: Path): map<Path, (nat, nat)>
    requires k <= |Children(b)|
    decreases b, 0, k
  {
    if k == 0 then map[]
    else
      var c := Children(b)[k - 1].item;
      SpansUpTo(b, k - 1, at, path) + SpansBody(c.body, ChildAt(b, k - 1, at), path + [StepOfChild(b, k - 1)])
  }

  // Where the k-th child's value begins.
  function ChildAt(b: Body, k: nat, at: nat): nat
    requires k < |Children(b)|
  {
    at + 1 + |Lead(Children(b), k)| + |Children(b)[k].item.before|
  }

  function StepOfChild(b: Body, k: nat): Step
    requires k < |Children(b)|
  {
    match b
    case Obj(_, members) => Key(KeyText(members[k]))
    case _ => Index(k)
  }

  function Spans(item: Item): map<Path, (nat, nat)> {
    SpansBody(item.body, |item.before|, [])
  }

  // The scalar that path q denotes below a body recorded under the given path.
  function Below(b: Body, path: Path, q: Path): Option<Place> {
    if path <= q then Locate(b, q[|path|..]) else None
  }

  predicate SpanOf(spans: map<Path, (nat, nat)>, q: Path, at: nat, place: Option<Place>) {
    && (q in spans <==> place.Some?)
    && (q in spans ==> spans[q] == (at + |place.value.left|, at + |place.value.left| + |place.value.token|))
  }

  lemma FindChild(b: Body, k: nat)
    requires WfBody(b) && k < |Children(b)|
    ensures Find(b, StepOfChild(b, k)) == Some(k) && WfItem(Children(b)[k].item)
  {
    hide WfItems, WfMembers, KeyText, WfItem, IsBlank;
    match b
    case Arr(_, items) => ItemsWf(items);
    case Obj(_, members) =>
      MembersDistinct(members, {});
      IndexOfKey(Keys(members), k);
  }

  lemma {:induction false} IndexOfKey(keys: seq<Text>, k: nat)
    requires k < |keys| && forall i, j :: 0 <= i < j < |keys| ==> keys[i] != keys[j]
    ensures IndexOf(keys, keys[k]) == Some(k)
  {
    if k > 0 {
      IndexOfKey(keys[1..], k - 1);
    }
  }

  lemma FindStep(b: Body, step: Step)
    requires Find(b, step).Some?
    ensures StepOfChild(b, Find(b, step).value) == step
  {
  }

  // A span is recorded for exactly the scalar paths, and covers exactly the token.
  lemma {:induction false} SpansLocate(b: Body, at: nat, path: Path, q: Path)
    requires WfBody(b)
    ensures SpanOf(SpansBody(b, at, path), q, at, Below(b, path, q))
    decreases b, 1, 0
  {
    hide WfBody, Lead, Children;
    if b.Scalar? {
      assert path <= q && |q| == |path| ==> q == path;
      assert q == path ==> q[|path|..] == [];
    } else {
      SpansUpToLocate(b, |Children(b)|, at, path, q);
      if path <= q && q != path && Find(b, q[|path|]).Some? {
        assert q[|path|..][0] == q[|path|];
      }
      if path <= q && |q| == |path| { assert q == path; }
    }
  }

  // The place of q, when it lies below one of the first k children.
  function Among(b: Body, k: nat, path: Path, q: Path): Option<Place> {
    if path < q && Find(b, q[|path|]).Some? && Find(b, q[|path|]).value < k then Locate(b, q[|path|..]) else None
  }

  lemma {:induction false} SpansUpToLocate(b: Body, k: nat, at: nat, path: Path, q: Path)
    requires WfBody(b) && !b.Scalar? && k <= |Children(b)|
    ensures SpanOf(SpansUpTo(b, k, at, path), q, at, Among(b, k, path, q))
    decreases b, 0, k
  {
    hide WfBody, WfItem, Lead, Find, Locate, IsBlank, SpanOf, ChildAt, StepOfChild, SpansBody;
    if k > 0 {
      var c := Children(b)[k - 1].item;
      SpansUpToLocate(b, k - 1, at, path, q);
      FindChild(b, k - 1);
      WfOf(c);
      var step := StepOfChild(b, k - 1);
      SpansLocate(c.body, ChildAt(b, k - 1, at), path + [step], q);
      ChildPlace(b, k - 1, at, path, q);
      JoinSpans(SpansUpTo(b, k - 1, at, path), SpansBody(c.body, ChildAt(b, k - 1, at), path + [step]), q, at,
                Among(b, k - 1, path, q), ChildAt(b, k - 1, at), Below(c.body, path + [step], q), Among(b, k, path, q));
    } else {
      NoSpan(q, at);
    }
  }

  lemma NoSpan(q: Path, at: nat)
    ensures SpanOf(map[], q, at, None)
  {
  }

  lemma JoinSpans(early: map<Path, (nat, nat)>, late: map<Path, (nat, nat)>, q: Path,
                  at: nat, p: Option<Place>, from: nat, inner: Option<Place>, joined: Option<Place>)
    requires SpanOf(early, q, at, p) && SpanOf(late, q, from, inner)
    requires inner.None? ==> joined == p
    requires inner.Some? ==> joined.Some? && at + |joined.value.left| == from + |inner.value.left| && joined.value.token == inner.value.token
    ensures SpanOf(early + late, q, at, joined)
  {
  }

  lemma WfOf(c: Item)
    requires WfItem(c)
    ensures WfBody(c.body)
  {
  }

  lemma ChildPlace(b: Body, k: nat, at: nat, path: Path, q: Path)
    requires !b.Scalar? && k < |Children(b)| && Find(b, StepOfChild(b, k)) == Some(k)
    ensures path + [StepOfChild(b, k)] <= q <==> path < q && Find(b, q[|path|]) == Some(k)
    ensures path + [StepOfChild(b, k)] <= q ==>
      var inner, outer := Locate(Children(b)[k].item.body, q[|path| + 1..]), Locate(b, q[|path|..]);
      && (inner.Some? <==> outer.Some?)
      && (inner.Some? ==> at + |outer.value.left| == ChildAt(b, k, at) + |inner.value.left| && outer.value.token == inner.value.token)
  {
    hide Lead, StepOfChild;
    var step := StepOfChild(b, k);
    if path < q && Find(b, q[|path|]) == Some(k) {
      FindStep(b, q[|path|]);
    }
    if path + [step] <= q {
      assert q[|path|] == (path + [step])[|path|];
      assert q[|path|..][0] == step && q[|path|..][1..] == q[|path| + 1..];
    }
  }

  // ---- the edit ----

  function KeyPath(field: seq<string>): (p: Path)
    ensures |p| == |field|
  {
    seq(|field|, i requires 0 <= i < |field| => Key(Codes(field[i])))
  }

  function NamePath(): Path { KeyPath(["name"]) }

  function VersionPath(): Path { KeyPath(["version"]) }

  function PackagesPath(): Path { KeyPath(["packages"]) }

  function RootPath(): Path { KeyPath(["packages", ""]) }

  function RootNamePath(): Path { KeyPath(["packages", "", "name"]) }

  function RootVersionPath(): Path { KeyPath(["packages", "", "version"]) }

  predicate Named(v: Json, path: Path, package: string) {
    Get(v, path) == Some(Leaf(Str(Codes(package))))
  }

  // The fields the selector owns, when the document belongs to the selected package.
  function Fields(sel: Selector, v: Json): Result<seq<Path>, Failure> {
    match sel
    case Manifest(field, owner) =>
      if owner.Some? && !Named(v, NamePath(), owner.value) then Err(NotOwned) else Ok([KeyPath(field)])
    case NpmLock(package) =>
      if !Named(v, NamePath(), package) then Err(NotOwned)
      else if Get(v, PackagesPath()).None? then Ok([VersionPath()])
      else if Get(v, RootPath()).None? then Err(MissingField)
      else if !Get(v, RootPath()).value.Dict? then Err(NotOwned)
      else if Get(v, RootNamePath()).Some? && !Named(v, RootNamePath(), package) then Err(NotOwned)
      else Ok([VersionPath(), RootVersionPath()])
  }

  function Shown(value: Projection): string {
    match value
    case Number(n) => Decimal.DecInt(n)
    case Version(text) => text
  }

  // The replacement and its JSON notation; a number field takes only a number.
  function Coerce(value: Projection, was: Scalar): Option<(Scalar, string)> {
    match was
    case Int(_) => if value.Number? then Some((Int(value.n), Decimal.DecInt(value.n))) else None
    case Str(_) => Some((Str(Codes(Shown(value))), DumpString(Shown(value))))
    case _ => None
  }

  function EditField(v: Json, spans: map<Path, (nat, nat)>, field: Path, value: Projection): Result<(seq<Change>, Scalar), Failure> {
    match Get(v, field)
    case None => Err(MissingField)
    case Some(was) =>
      if !(field in spans && was.Leaf?) then Err(NotScalar)
      else match Coerce(value, was.scalar)
        case None => Err(NotEditable)
        case Some((now, token)) =>
          Ok((if now == was.scalar then [] else [Change(field, Splice(spans[field].0, spans[field].1, token))], was.scalar))
  }

  // The changes for all fields in order, and the previous values.
  function Plan(v: Json, spans: map<Path, (nat, nat)>, fields: seq<Path>, value: Projection): Result<(seq<Change>, seq<Scalar>), Failure>
    decreases |fields|
  {
    if fields == [] then Ok(([], []))
    else match Plan(v, spans, fields[..|fields| - 1], value)
      case Err(e) => Err(e)
      case Ok((changes, previous)) =>
        match EditField(v, spans, fields[|fields| - 1], value)
        case Err(e) => Err(e)
        case Ok((change, was)) => Ok((changes + change, previous + [was]))
  }

  function Edit(text: string, sel: Selector, value: Projection): Result<(string, seq<Scalar>), Failure> {
    match Document(text)
    case None => Err(Malformed)
    case Some(item) =>
      var v := Value(item.body);
      match Fields(sel, v)
      case Err(e) => Err(e)
      case Ok(fields) =>
        match Plan(v, Spans(item), fields, value)
        case Err(e) => Err(e)
        case Ok((changes, previous)) => Ok((ApplyAll(text, Splices(SortDown(changes))), previous))
  }

  // ---- what the edit means ----

  predicate Distinct(fields: seq<Path>) {
    forall i, j :: 0 <= i < j < |fields| ==> fields[i] != fields[j]
  }

  predicate Editable(v: Json, field: Path, value: Projection) {
    Get(v, field).Some? && Get(v, field).value.Leaf? && Coerce(value, Get(v, field).value.scalar).Some?
  }

  function NewScalar(v: Json, field: Path, value: Projection): Scalar {
    if Editable(v, field, value) then Coerce(value, Get(v, field).value.scalar).value.0 else Null
  }

  // Every selected field, with the projected value in the field's own kind.
  function Chosen(v: Json, fields: seq<Path>, value: Projection): map<Path, Scalar> {
    map f | f in fields :: NewScalar(v, f, value)
  }

  lemma CoerceScans(value: Projection, was: Scalar)
    requires Coerce(value, was).Some?
    ensures ScalarToken(Coerce(value, was).value.1) && TokenValue(Coerce(value, was).value.1) == Coerce(value, was).value.0
  {
    hide Scan, ScanString, NumberLength;
    if was.Int? {
      DumpIntScans(value.n);
      IntStarts(value.n);
    } else {
      DumpStringScans(Shown(value));
    }
  }

  lemma IntStarts(n: int)
    ensures Decimal.DecInt(n)[0] == '-' || Decimal.IsDigit(Decimal.DecInt(n)[0])
  {
  }

  // Coercing again gives the same scalar, so a repeated edit has nothing to do.
  lemma CoerceStable(value: Projection, was: Scalar)
    requires Coerce(value, was).Some?
    ensures Coerce(value, Coerce(value, was).value.0) == Coerce(value, was)
  {
  }

  lemma FieldsDistinct(sel: Selector, v: Json)
    requires Fields(sel, v).Ok?
    ensures Distinct(Fields(sel, v).value)
  {
    hide Get, Named;
    assert |VersionPath()| != |RootVersionPath()|;
  }

  predicate Planned(b: Body, at: nat, fields: seq<Path>, value: Projection, changes: seq<Change>) {
    && AllRecorded(b, at, changes)
    && (forall c :: c in changes ==> c.path in fields && TokenValue(c.splice.token) == NewScalar(Value(b), c.path, value))
    && (forall i, j :: 0 <= i < j < |changes| ==> changes[i].path != changes[j].path)
    && (forall f :: f in fields ==> Editable(Value(b), f, value))
    && (forall f :: f in fields && (forall c :: c in changes ==> c.path != f) ==> Get(Value(b), f) == Some(Leaf(NewScalar(Value(b), f, value))))
  }

  lemma FieldSpan(b: Body, at: nat, field: Path)
    requires WfBody(b)
    ensures SpanOf(SpansBody(b, at, []), field, at, Locate(b, field))
  {
    hide WfBody, Locate, SpansBody;
    SpansLocate(b, at, [], field);
    assert field[0..] == field;
  }

  lemma ChangeRecorded(b: Body, at: nat, field: Path, token: string)
    requires WfBody(b) && Locate(b, field).Some? && ScalarToken(token)
    ensures field in SpansBody(b, at, [])
    ensures var span := SpansBody(b, at, [])[field]; Recorded(b, at, Change(field, Splice(span.0, span.1, token)))
  {
    hide WfBody, Locate, SpansBody, ScalarToken;
    FieldSpan(b, at, field);
  }

  lemma EditFieldPlanned(b: Body, at: nat, field: Path, value: Projection)
    requires WfBody(b) && EditField(Value(b), SpansBody(b, at, []), field, value).Ok?
    ensures Planned(b, at, [field], value, EditField(Value(b), SpansBody(b, at, []), field, value).value.0)
    ensures |EditField(Value(b), SpansBody(b, at, []), field, value).value.0| <= 1
  {
    hide WfBody, Locate, ScalarToken, SpansBody, Coerce, Value, Get, Recorded, TokenValue;
    LocateGet(b, field);
    var was := Get(Value(b), field).value.scalar;
    CoerceScans(value, was);
    ChangeRecorded(b, at, field, Coerce(value, was).value.1);
  }

  lemma {:induction false} PlanPlanned(b: Body, at: nat, fields: seq<Path>, value: Projection)
    requires WfBody(b) && Distinct(fields) && Plan(Value(b), SpansBody(b, at, []), fields, value).Ok?
    ensures Planned(b, at, fields, value, Plan(Value(b), SpansBody(b, at, []), fields, value).value.0)
    decreases |fields|
  {
    hide WfBody, Recorded, Value, SpansBody, EditField, Editable, NewScalar, TokenValue, Get;
    if fields != [] {
      var n := |fields| - 1;
      PlanPlanned(b, at, fields[..n], value);
      EditFieldPlanned(b, at, fields[n], value);
      var some := Plan(Value(b), SpansBody(b, at, []), fields[..n], value).value.0;
      var last := EditField(Value(b), SpansBody(b, at, []), fields[n], value).value.0;
      PlannedAppend(b, at, fields[..n], fields[n], value, some, last);
      assert fields == fields[..n] + [fields[n]];
    }
  }

  lemma PlannedAppend(b: Body, at: nat, fields: seq<Path>, field: Path, value: Projection, some: seq<Change>, last: seq<Change>)
    requires Planned(b, at, fields, value, some) && Planned(b, at, [field], value, last) && field !in fields && |last| <= 1
    ensures Planned(b, at, fields + [field], value, some + last)
  {
    hide Recorded, Editable, NewScalar, TokenValue, Get, Value;
    forall f | f in fields + [field] && (forall c :: c in some + last ==> c.path != f)
      ensures Get(Value(b), f) == Some(Leaf(NewScalar(Value(b), f, value)))
    {
      assert forall c :: c in some ==> c in some + last;
      assert forall c :: c in last ==> c in some + last;
    }
  }
}

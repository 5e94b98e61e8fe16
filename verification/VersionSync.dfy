// Synchronising every declared version input (scripts/version_plan.py:1041-1099).
module VersionSync {
  import opened Wrappers
  import opened JsonScan
  import opened JsonTree
  import opened JsonEdit
  import opened JsonSplice
  import opened JsonField
  import opened JsonMeaning

  // A selector in one input file and the value the plan projects onto it.
  datatype Declaration<S> = Declaration(path: string, selector: S, value: Projection)

  // An edit adapter: the file with the value written, or a refusal.
  type Adapter<!S> = (string, S, Projection) -> Option<string>

  type Files = map<string, string>

  // One edit of the first pass.
  function EditOne<S(==)>(edit: Adapter<S>, files: Files, d: Declaration<S>): Option<Files> {
    if d.path !in files then None
    else match edit(files[d.path], d.selector, d.value)
      case Some(text) => Some(files[d.path := text])
      case None => None
  }

  function EditAll<S(==)>(edit: Adapter<S>, files: Files, ds: seq<Declaration<S>>): Option<Files> {
    if ds == [] then Some(files)
    else match EditAll(edit, files, ds[..|ds| - 1])
      case Some(edited) => EditOne(edit, edited, ds[|ds| - 1])
      case None => None
  }

  // Writing the declaration again changes nothing.
  predicate Settled<S(==)>(edit: Adapter<S>, files: Files, d: Declaration<S>) {
    EditOne(edit, files, d) == Some(files)
  }

  datatype Outcome = Synced(files: Files, drift: set<string>) | Refused | Conflict | Drifted(drift: set<string>)

  function Drift(before: Files, after: Files): set<string> {
    set name | name in before && name in after && before[name] != after[name]
  }

  predicate AllSettled<S(==)>(edit: Adapter<S>, files: Files, ds: seq<Declaration<S>>) {
    forall d :: d in ds ==> Settled(edit, files, d)
  }

  function Sync<S(==)>(edit: Adapter<S>, files: Files, ds: seq<Declaration<S>>, check: bool): Outcome {
    match EditAll(edit, files, ds)
    case None => Refused
    case Some(edited) =>
      if !AllSettled(edit, edited, ds) then Conflict
      else if check && Drift(files, edited) != {} then Drifted(Drift(files, edited))
      else Synced(edited, Drift(files, edited))
  }

  lemma {:induction false} EditAllNone<S>(edit: Adapter<S>, files: Files, ds: seq<Declaration<S>>, i: nat)
    requires i <= |ds| && EditAll(edit, files, ds[..i]).None?
    ensures EditAll(edit, files, ds).None?
    decreases |ds|
  {
    if i == |ds| {
      assert ds[..i] == ds;
    } else {
      assert ds[..|ds| - 1][..i] == ds[..i];
      EditAllNone(edit, files, ds[..|ds| - 1], i);
    }
  }

  // sync_versions: all edits first, then every declared expectation once more.
  method SyncVersions<S(==)>(edit: Adapter<S>, files: Files, ds: seq<Declaration<S>>, check: bool) returns (r: Outcome)
    ensures r == Sync(edit, files, ds, check)
  {
    var edited := files;
    var i := 0;
    while i < |ds|
      invariant i <= |ds| && EditAll(edit, files, ds[..i]) == Some(edited)
    {
      assert ds[..i + 1][..i] == ds[..i];
      var updated := EditOne(edit, edited, ds[i]);
      if updated.None? {
        EditAllNone(edit, files, ds, i + 1);
        return Refused;
      }
      edited := updated.value;
      i := i + 1;
    }
    assert ds[..i] == ds;
    i := 0;
    while i < |ds|
      invariant i <= |ds| && AllSettled(edit, edited, ds[..i])
    {
      if EditOne(edit, edited, ds[i]) != Some(edited) {
        assert !Settled(edit, edited, ds[i]) && ds[i] in ds;
        return Conflict;
      }
      i := i + 1;
    }
    assert ds[..i] == ds;
    var drift := set name | name in files && name in edited && files[name] != edited[name];
    if check && drift != {} {
      return Drifted(drift);
    }
    return Synced(edited, drift);
  }

  // ---- what acceptance means, for any adapter ----

  lemma {:induction false} SettledStays<S>(edit: Adapter<S>, files: Files, ds: seq<Declaration<S>>)
    requires AllSettled(edit, files, ds)
    ensures EditAll(edit, files, ds) == Some(files)
    decreases |ds|
  {
    if ds != [] {
      var n := |ds| - 1;
      assert ds[n] in ds && forall d :: d in ds[..n] ==> d in ds;
      SettledStays(edit, files, ds[..n]);
      assert Settled(edit, files, ds[n]);
    }
  }

  // An accepted synchronisation leaves every selector settled at once, however many
  // share a file, and checking its result finds no drift.
  lemma SecondRunFindsNoDrift<S>(edit: Adapter<S>, files: Files, ds: seq<Declaration<S>>, check: bool, again: bool)
    requires Sync(edit, files, ds, check).Synced?
    ensures var done := Sync(edit, files, ds, check).files;
      AllSettled(edit, done, ds) && Sync(edit, done, ds, again) == Synced(done, {})
  {
    var done := Sync(edit, files, ds, check).files;
    SettledStays(edit, done, ds);
    assert Drift(done, done) == {};
  }

  // A check that passes means the inputs already were in place.
  lemma CheckPassesIff<S>(edit: Adapter<S>, files: Files, ds: seq<Declaration<S>>)
    ensures Sync(edit, files, ds, true).Synced? <==> AllSettled(edit, files, ds)
  {
    if AllSettled(edit, files, ds) {
      SettledStays(edit, files, ds);
      assert Drift(files, files) == {};
    } else if EditAll(edit, files, ds).Some? {
      EditAllKeys(edit, files, ds);
      NoDriftIsSame(files, EditAll(edit, files, ds).value);
    }
  }

  lemma NoDriftIsSame(before: Files, after: Files)
    requires after.Keys == before.Keys
    ensures Drift(before, after) == {} <==> after == before
  {
    if Drift(before, after) == {} {
      forall name | name in before ensures before[name] == after[name] {
        assert name !in Drift(before, after);
      }
    }
  }

  lemma {:induction false} EditAllKeys<S>(edit: Adapter<S>, files: Files, ds: seq<Declaration<S>>)
    ensures EditAll(edit, files, ds).Some? ==> EditAll(edit, files, ds).value.Keys == files.Keys
    decreases |ds|
  {
    if ds != [] {
      EditAllKeys(edit, files, ds[..|ds| - 1]);
    }
  }

  // ---- JSON inputs ----

  function JsonAdapter(text: string, sel: Selector, value: Projection): Option<string> {
    match Edit(text, sel, value)
    case Ok((out, _)) => Some(out)
    case Err(_) => None
  }

  // Every field the selector owns holds the projected value in its own kind.
  predicate Holds(text: string, sel: Selector, value: Projection) {
    && Edit(text, sel, value).Ok?
    && var v := Value(Document(text).value.body);
       forall f :: f in Fields(sel, v).value ==> Get(v, f) == Some(Leaf(NewScalar(v, f, value)))
  }

  // A settled JSON selector holds its value.
  lemma SettledHolds(text: string, sel: Selector, value: Projection)
    requires JsonAdapter(text, sel, value) == Some(text)
    ensures Holds(text, sel, value)
  {
    EditLocality(text, sel, value);
    var v := Value(Document(text).value.body);
    var m := Chosen(v, Fields(sel, v).value, value);
    hide Document, Value, Fields, Sound, Editable, NewScalar, Edit, Edited;
    forall f | f in Fields(sel, v).value ensures Get(v, f) == Some(Leaf(NewScalar(v, f, value))) {
      ReadsBack(v, m, f, value);
    }
  }

  lemma ReadsBack(v: Json, m: map<Path, Scalar>, f: Path, value: Projection)
    requires Sound(v) && SetMany(v, [], m) == v && f in m && Editable(v, f, value)
    ensures Get(v, f) == Some(Leaf(m[f]))
  {
    GetSetMany(v, [], m, f);
    assert [] + f == f;
  }

  // The paths a selector may write, and those its ownership checks read.
  function Writes(sel: Selector): set<Path> {
    match sel
    case NpmLock(_) => {VersionPath(), RootVersionPath()}
    case Manifest(field, _) => {KeyPath(field)}
  }

  function Names(sel: Selector): set<Path> {
    match sel
    case NpmLock(_) => {NamePath(), RootNamePath()}
    case Manifest(_, owner) => if owner.Some? then {NamePath()} else {}
  }

  // Neither a field nor a name of the first is written by the second.
  predicate Undisturbed(sel: Selector, other: Selector) {
    Writes(other) !! Writes(sel) + Names(sel)
  }

  lemma FieldsWritten(sel: Selector, v: Json)
    requires Fields(sel, v).Ok?
    ensures forall f :: f in Fields(sel, v).value ==> f in Writes(sel)
  {
    hide Named, Get, KeyPath;
  }

  lemma FieldsKept(v: Json, sel: Selector, m: map<Path, Scalar>)
    requires Sound(v) && Fields(sel, v).Ok? && forall p :: p in m ==> p !in Names(sel)
    ensures Fields(sel, SetMany(v, [], m)) == Fields(sel, v)
  {
    match sel
    case Manifest(field, owner) =>
      if owner.Some? {
        NamedAfter(v, m, NamePath(), owner.value);
      }
    case NpmLock(package) =>
      NamedAfter(v, m, NamePath(), package);
      NamedAfter(v, m, RootNamePath(), package);
      KindAfter(v, m, PackagesPath());
      KindAfter(v, m, RootPath());
      KindAfter(v, m, RootNamePath());
      hide SetMany, Sound, Get, Codes, KeyPath, Named, NamePath, VersionPath, PackagesPath, RootPath, RootNamePath, RootVersionPath;
  }

  // A field that holds its value is left alone, in any document where it reads the same.
  lemma {:induction false} PlanIdle(b: Body, at: nat, fields: seq<Path>, value: Projection)
    requires WfBody(b)
    requires forall f :: f in fields ==> Editable(Value(b), f, value) && Get(Value(b), f) == Some(Leaf(NewScalar(Value(b), f, value)))
    ensures Plan(Value(b), SpansBody(b, at, []), fields, value).Ok? && Plan(Value(b), SpansBody(b, at, []), fields, value).value.0 == []
    decreases |fields|
  {
    hide WfBody, Value, SpansBody, Editable, NewScalar, EditField, Get;
    if fields != [] {
      var n := |fields| - 1;
      PlanIdle(b, at, fields[..n], value);
      assert fields[n] in fields;
      FieldIdle(b, at, fields[n], value);
      var none: seq<Change> := [];
      assert none + none == none;
    }
  }

  lemma FieldIdle(b: Body, at: nat, field: Path, value: Projection)
    requires WfBody(b) && Editable(Value(b), field, value) && Get(Value(b), field) == Some(Leaf(NewScalar(Value(b), field, value)))
    ensures EditField(Value(b), SpansBody(b, at, []), field, value).Ok? && EditField(Value(b), SpansBody(b, at, []), field, value).value.0 == []
  {
    hide WfBody, Value, SpansBody, Coerce, Locate;
    LocateGet(b, field);
    FieldSpan(b, at, field);
  }

  lemma HoldsSettles(text: string, sel: Selector, value: Projection)
    requires Document(text).Some? && Fields(sel, Value(Document(text).value.body)).Ok?
    requires var v := Value(Document(text).value.body);
      forall f :: f in Fields(sel, v).value ==> Editable(v, f, value) && Get(v, f) == Some(Leaf(NewScalar(v, f, value)))
    ensures JsonAdapter(text, sel, value) == Some(text)
  {
    DocumentRenders(text);
    var item := Document(text).value;
    hide Document, Value, Fields, Editable, NewScalar, Get, SpansBody, Plan, ApplyOne;
    PlanIdle(item.body, |item.before|, Fields(sel, Value(item.body)).value, value);
  }

  lemma HoldsAfter(v: Json, m: map<Path, Scalar>, f: Path, value: Projection)
    requires Sound(v) && Editable(v, f, value) && Get(v, f) == Some(Leaf(NewScalar(v, f, value))) && f !in m
    ensures var w := SetMany(v, [], m); Editable(w, f, value) && Get(w, f) == Some(Leaf(NewScalar(w, f, value)))
  {
    GetSetMany(v, [], m, f);
    assert [] + f == f;
    hide Sound, Coerce, Get;
  }

  // An edit by another selector keeps a settled one settled, unless it writes one of
  // its fields or names.
  lemma OtherEditKeeps(text: string, sel: Selector, value: Projection, other: Selector, value': Projection)
    requires JsonAdapter(text, sel, value) == Some(text) && JsonAdapter(text, other, value').Some? && Undisturbed(sel, other)
    ensures var out := JsonAdapter(text, other, value').value; JsonAdapter(out, sel, value) == Some(out)
  {
    SettledHolds(text, sel, value);
    EditLocality(text, other, value');
    var v := Value(Document(text).value.body);
    var m := Chosen(v, Fields(other, v).value, value');
    var out := JsonAdapter(text, other, value').value;
    EditLocality(text, sel, value);
    FieldsWritten(other, v);
    FieldsWritten(sel, v);
    hide Document, Value, Fields, Sound, Editable, NewScalar, Edit, Edited, Get, Writes, Names, SetMany;
    assert forall p :: p in m ==> p !in Names(sel);
    FieldsKept(v, sel, m);
    forall f | f in Fields(sel, v).value
      ensures Editable(SetMany(v, [], m), f, value) && Get(SetMany(v, [], m), f) == Some(Leaf(NewScalar(SetMany(v, [], m), f, value)))
    {
      HoldsAfter(v, m, f, value);
    }
    HoldsSettles(out, sel, value);
  }

  // ---- conflict-free policies ----

  // Declarations that share a file leave each other alone, and none overwrites the
  // name that grants its own ownership.
  predicate Independent(ds: seq<Declaration<Selector>>) {
    && (forall d :: d in ds ==> KeepsOwner(d.selector, d.value))
    && (forall i, j :: 0 <= i < j < |ds| && ds[i].path == ds[j].path ==> Undisturbed(ds[i].selector, ds[j].selector))
  }

  lemma EditedIsSettled(files: Files, d: Declaration<Selector>)
    requires EditOne(JsonAdapter, files, d).Some? && KeepsOwner(d.selector, d.value)
    ensures Settled(JsonAdapter, EditOne(JsonAdapter, files, d).value, d)
  {
    EditTwice(files[d.path], d.selector, d.value);
    hide Edit, KeepsOwner;
    var done := EditOne(JsonAdapter, files, d).value;
    assert done[d.path := done[d.path]] == done;
  }

  lemma SettledKept(files: Files, d: Declaration<Selector>, e: Declaration<Selector>)
    requires Settled(JsonAdapter, files, d) && EditOne(JsonAdapter, files, e).Some?
    requires d.path == e.path ==> Undisturbed(d.selector, e.selector)
    ensures Settled(JsonAdapter, EditOne(JsonAdapter, files, e).value, d)
  {
    hide JsonAdapter, Undisturbed;
    var done := EditOne(JsonAdapter, files, e).value;
    var text := JsonAdapter(files[d.path], d.selector, d.value).value;
    assert files[d.path := text][d.path] == text == files[d.path];
    if d.path == e.path {
      OtherEditKeeps(files[d.path], d.selector, d.value, e.selector, e.value);
    }
    assert done[d.path := done[d.path]] == done;
  }

  // With independent JSON selectors no conflict arises: the synchronisation succeeds
  // exactly when every edit does, whatever the order.
  lemma {:induction false} IndependentNeverConflicts(files: Files, ds: seq<Declaration<Selector>>)
    requires Independent(ds) && EditAll(JsonAdapter, files, ds).Some?
    ensures AllSettled(JsonAdapter, EditAll(JsonAdapter, files, ds).value, ds)
    decreases |ds|
  {
    hide JsonAdapter, KeepsOwner, Undisturbed, EditOne, Settled;
    if ds != [] {
      var n := |ds| - 1;
      var before := EditAll(JsonAdapter, files, ds[..n]).value;
      assert ds[n] in ds && forall d :: d in ds[..n] ==> d in ds;
      IndependentNeverConflicts(files, ds[..n]);
      EditedIsSettled(before, ds[n]);
      forall d | d in ds ensures Settled(JsonAdapter, EditAll(JsonAdapter, files, ds).value, d) {
        if d != ds[n] {
          var i :| 0 <= i < |ds| && ds[i] == d;
          assert ds[..n][i] == d;
          SettledKept(before, d, ds[n]);
        }
      }
    }
  }

  // An accepted JSON synchronisation holds every declared value at once.
  lemma AcceptedHolds(files: Files, ds: seq<Declaration<Selector>>, check: bool, d: Declaration<Selector>)
    requires Sync(JsonAdapter, files, ds, check).Synced? && d in ds
    ensures var done := Sync(JsonAdapter, files, ds, check).files; d.path in done && Holds(done[d.path], d.selector, d.value)
  {
    hide JsonAdapter, Holds;
    var done := Sync(JsonAdapter, files, ds, check).files;
    assert Settled(JsonAdapter, done, d);
    var text := JsonAdapter(done[d.path], d.selector, d.value).value;
    assert done[d.path := text][d.path] == text == done[d.path];
    SettledHolds(done[d.path], d.selector, d.value);
  }
}

// What an accepted JSON edit does, and why repeating it does nothing
// (RFC 8259, sections 4 to 7; scripts/version_plan.py, _json_edit).
module JsonMeaning {
  import opened Wrappers
  import opened JsonScan
  import opened JsonTree
  import opened JsonEdit
  import opened JsonSplice
  import opened JsonField

  // Exactly the accepted documents are renderings of well-formed trees.
  lemma DocumentRenders(text: string)
    requires Document(text).Some?
    ensures WfItem(Document(text).value) && RenderItem(Document(text).value) == text
  {
    hide ParseItem, RenderItem, WfItem;
    ParseItemSound(text);
    assert text[..|text|] == text;
  }

  lemma RenderedIsDocument(item: Item)
    requires WfItem(item)
    ensures Document(RenderItem(item)) == Some(item)
  {
    hide ParseItem, RenderItem, WfItem;
    ParseItemComplete(item, "");
    assert RenderItem(item) + "" == RenderItem(item);
  }

  // ---- sorting keeps the changes ----

  lemma PlannedStartsDiffer(b: Body, at: nat, fields: seq<Path>, value: Projection, cs: seq<Change>)
    requires Planned(b, at, fields, value, cs)
    ensures StartsDiffer(cs)
  {
    hide Locate, Value, Get, ScalarToken, TokenValue;
    forall i, j | 0 <= i < j < |cs| ensures cs[i].splice.start != cs[j].splice.start {
      LocateOther(b, cs[i].path, "0", cs[j].path);
    }
  }

  lemma SortedRecorded(b: Body, at: nat, fields: seq<Path>, value: Projection, cs: seq<Change>)
    requires Planned(b, at, fields, value, cs)
    ensures Sorted(SortDown(cs)) && AllRecorded(b, at, SortDown(cs)) && forall c :: c in SortDown(cs) <==> c in cs
  {
    hide Recorded, SortDown, StartsDiffer, Sorted, Editable, NewScalar, TokenValue, Get, Value;
    PlannedStartsDiffer(b, at, fields, value, cs);
    SortDownSorts(cs);
    SameMembers(SortDown(cs), cs);
    assert forall i :: 0 <= i < |SortDown(cs)| ==> SortDown(cs)[i] in cs;
  }

  lemma SameMembers(a: seq<Change>, b: seq<Change>)
    requires multiset(a) == multiset(b)
    ensures forall c :: c in a <==> c in b
  {
    forall c ensures c in a <==> c in b {
      assert c in multiset(a) <==> c in multiset(b);
    }
  }

  lemma {:induction false} SettingsKeys(cs: seq<Change>, p: Path)
    ensures p in Settings(cs) <==> exists c :: c in cs && c.path == p
    decreases |cs|
  {
    if cs != [] {
      SettingsKeys(cs[..|cs| - 1], p);
      assert cs == cs[..|cs| - 1] + [cs[|cs| - 1]];
    }
  }

  lemma {:induction false} SettingsValues(v: Json, cs: seq<Change>, value: Projection)
    requires forall c :: c in cs ==> TokenValue(c.splice.token) == NewScalar(v, c.path, value)
    ensures forall p :: p in Settings(cs) ==> Settings(cs)[p] == NewScalar(v, p, value)
    decreases |cs|
  {
    hide TokenValue, NewScalar;
    if cs != [] {
      SettingsValues(v, cs[..|cs| - 1], value);
    }
  }

  // Two settings that agree on every scalar of the document have the same effect.
  predicate AgreeAt(m: map<Path, Scalar>, n: map<Path, Scalar>, q: Path, x: Scalar) {
    (if q in m then m[q] else x) == (if q in n then n[q] else x)
  }

  predicate Agree(v: Json, at: Path, m: map<Path, Scalar>, n: map<Path, Scalar>)
    decreases v
  {
    if v.Leaf? then AgreeAt(m, n, at, v.scalar)
    else forall i :: 0 <= i < |v.items| ==> Agree(v.items[i], at + [StepAt(v, i)], m, n)
  }

  lemma {:induction false} SetManyAgree(v: Json, at: Path, m: map<Path, Scalar>, n: map<Path, Scalar>)
    requires Agree(v, at, m, n)
    ensures SetMany(v, at, m) == SetMany(v, at, n)
    decreases v
  {
    if !v.Leaf? {
      forall i | 0 <= i < |v.items| ensures SetMany(v.items[i], at + [StepAt(v, i)], m) == SetMany(v.items[i], at + [StepAt(v, i)], n) {
        SetManyAgree(v.items[i], at + [StepAt(v, i)], m, n);
      }
    }
  }

  lemma {:induction false} GetAppend(v: Json, p: Path, q: Path)
    ensures Get(v, p).Some? ==> Get(v, p + q) == Get(Get(v, p).value, q)
    decreases |p|
  {
    if p == [] {
      assert p + q == q;
    } else if FindIn(v, p[0]).Some? {
      GetAppend(v.items[FindIn(v, p[0]).value], p[1..], q);
      assert (p + q)[1..] == p[1..] + q;
    }
  }

  lemma ChildStep(v: Json, k: nat)
    requires Sound(v) && !v.Leaf? && k < |v.items|
    ensures FindIn(v, StepAt(v, k)) == Some(k)
  {
    if v.Dict? {
      IndexOfKey(v.keys, k);
    }
  }

  lemma {:induction false} AgreeBelow(root: Json, v: Json, at: Path, m: map<Path, Scalar>, n: map<Path, Scalar>)
    requires Sound(v) && Get(root, at) == Some(v)
    requires forall q :: Get(root, q).Some? && Get(root, q).value.Leaf? ==> AgreeAt(m, n, q, Get(root, q).value.scalar)
    ensures Agree(v, at, m, n)
    decreases v
  {
    hide AgreeAt;
    if !v.Leaf? {
      forall i | 0 <= i < |v.items| ensures Agree(v.items[i], at + [StepAt(v, i)], m, n) {
        var step := StepAt(v, i);
        ChildStep(v, i);
        GetAppend(root, at, [step]);
        assert Get(v, [step]) == Get(v.items[i], []);
        AgreeBelow(root, v.items[i], at + [step], m, n);
      }
    }
  }

  // A field whose scalar already holds the projection needs no change.
  lemma ChosenAgrees(b: Body, at: nat, fields: seq<Path>, value: Projection, cs: seq<Change>, sorted: seq<Change>)
    requires WfBody(b) && Planned(b, at, fields, value, cs) && forall c :: c in sorted <==> c in cs
    ensures SetMany(Value(b), [], Settings(sorted)) == SetMany(Value(b), [], Chosen(Value(b), fields, value))
  {
    var v := Value(b);
    var m, n := Settings(sorted), Chosen(v, fields, value);
    ValueSound(b);
    hide WfBody, Value, Recorded, SetMany, NewScalar, Get, Settings, Sound, TokenValue, Editable, Agree;
    SettingsValues(v, sorted, value);
    forall q | Get(v, q).Some? && Get(v, q).value.Leaf? ensures AgreeAt(m, n, q, Get(v, q).value.scalar) {
      SettingsKeys(sorted, q);
    }
    assert Get(v, []) == Some(v) by { GetEmpty(v); }
    AgreeBelow(v, v, [], m, n);
    SetManyAgree(v, [], m, n);
  }

  lemma GetEmpty(v: Json)
    ensures Get(v, []) == Some(v)
  {
  }

  // ---- the main statements ----

  function Changes(text: string, sel: Selector, value: Projection): seq<Change>
    requires Edit(text, sel, value).Ok?
  {
    var item := Document(text).value;
    Plan(Value(item.body), Spans(item), Fields(sel, Value(item.body)).value, value).value.0
  }

  function Edited(text: string, sel: Selector, value: Projection): Item
    requires Edit(text, sel, value).Ok?
  {
    var item := Document(text).value;
    item.(body := ReplaceAll(item.body, SortDown(Changes(text, sel, value))))
  }

  lemma EditPlanned(text: string, sel: Selector, value: Projection)
    requires Edit(text, sel, value).Ok?
    ensures var item := Document(text).value; var fields := Fields(sel, Value(item.body)).value; var cs := Changes(text, sel, value);
            && WfItem(item) && WfBody(item.body) && RenderItem(item) == text && Distinct(fields)
            && Planned(item.body, |item.before|, fields, value, cs)
            && Edit(text, sel, value).value.0 == ApplyAll(text, Splices(SortDown(cs)))
  {
    hide ParseItem, RenderItem, WfBody, Value, Fields, Plan, Planned, SpansBody;
    DocumentRenders(text);
    var item := Document(text).value;
    FieldsDistinct(sel, Value(item.body));
    PlanPlanned(item.body, |item.before|, Fields(sel, Value(item.body)).value, value);
  }

  // The edited text is again an accepted document with the same blanks around the value,
  // and its value is the old one with exactly the selected scalars replaced.
  lemma EditLocality(text: string, sel: Selector, value: Projection)
    requires Edit(text, sel, value).Ok?
    ensures var item, out := Document(text).value, Edited(text, sel, value); var v := Value(item.body);
            && Document(Edit(text, sel, value).value.0) == Some(out)
            && out.before == item.before && out.after == item.after
            && Value(out.body) == SetMany(v, [], Chosen(v, Fields(sel, v).value, value))
            && Sound(v) && forall f :: f in Fields(sel, v).value ==> Editable(v, f, value)
  {
    EditPlanned(text, sel, value);
    var item := Document(text).value;
    var fields := Fields(sel, Value(item.body)).value;
    var cs := Changes(text, sel, value);
    hide Document, Fields, Plan, Value, Render, Edit, Changes, WfBody, SetMany, Chosen, Recorded, Editable, Sound, SortDown, ReplaceAll, ApplyAll, Distinct;
    SortedRecorded(item.body, |item.before|, fields, value, cs);
    SplicesReplace(item.body, item.before, item.after, SortDown(cs));
    WfReplaceAll(item.body, |item.before|, SortDown(cs));
    ValueReplaceAll(item.body, |item.before|, SortDown(cs));
    ChosenAgrees(item.body, |item.before|, fields, value, cs, SortDown(cs));
    RenderedIsDocument(Edited(text, sel, value));
    ValueSound(item.body);
  }

  // The loop over the edits in reverse order is the simultaneous substitution of their spans.
  lemma EditIsSimultaneous(text: string, sel: Selector, value: Projection)
    requires Edit(text, sel, value).Ok?
    ensures var edits := Splices(SortDown(Changes(text, sel, value)));
            Descending(edits, |text|) && Edit(text, sel, value).value.0 == Substitute(text, edits, |text|)
  {
    EditPlanned(text, sel, value);
    var item := Document(text).value;
    var fields := Fields(sel, Value(item.body)).value;
    var cs := Changes(text, sel, value);
    hide Document, Fields, Plan, Value, Render, Edit, Changes, WfItem, Planned, SortDown, Locate;
    SortedRecorded(item.body, |item.before|, fields, value, cs);
    var sorted := SortDown(cs);
    if sorted != [] {
      LocateRenders(item.body, sorted[0].path);
    }
    SortedDescends(item.body, |item.before|, sorted, |text|);
    ReverseOrderIsSimultaneous(text, Splices(sorted));
  }

  // ---- editing twice ----

  // The ownership checks read the same after the edit, unless the edited field is the name itself.
  predicate KeepsOwner(sel: Selector, value: Projection) {
    sel.Manifest? && sel.owner.Some? && KeyPath(sel.field) == NamePath() ==> Codes(Shown(value)) == Codes(sel.owner.value)
  }

  lemma NamesApart()
    ensures NamePath() != VersionPath() && NamePath() != RootVersionPath()
    ensures RootNamePath() != VersionPath() && RootNamePath() != RootVersionPath()
  {
    assert NamePath()[0] == Key(Codes("name")) && VersionPath()[0] == Key(Codes("version"));
    assert Codes("name") != Codes("version") by { assert |Codes("name")| != |Codes("version")|; }
    assert RootNamePath()[2] == Key(Codes("name")) && RootVersionPath()[2] == Key(Codes("version"));
    assert |NamePath()| == 1 && |RootVersionPath()| == 3 && |VersionPath()| == 1 && |RootNamePath()| == 3;
  }

  lemma NamedAfter(v: Json, m: map<Path, Scalar>, path: Path, package: string)
    requires Sound(v)
    ensures path !in m ==> (Named(SetMany(v, [], m), path, package) <==> Named(v, path, package))
    ensures path in m && Named(v, path, package) ==> (Named(SetMany(v, [], m), path, package) <==> m[path] == Str(Codes(package)))
  {
    hide Sound, Get, Codes;
    GetSetMany(v, [], m, path);
    assert [] + path == path;
  }

  lemma KindAfter(v: Json, m: map<Path, Scalar>, path: Path)
    requires Sound(v)
    ensures Get(SetMany(v, [], m), path).Some? <==> Get(v, path).Some?
    ensures Get(v, path).Some? ==> (Get(SetMany(v, [], m), path).value.Dict? <==> Get(v, path).value.Dict?)
  {
    hide Sound, Get;
    GetSetMany(v, [], m, path);
  }

  lemma FieldsAfter(v: Json, sel: Selector, value: Projection)
    requires Sound(v) && Fields(sel, v).Ok? && forall f :: f in Fields(sel, v).value ==> Editable(v, f, value)
    ensures var w := SetMany(v, [], Chosen(v, Fields(sel, v).value, value));
            && (KeepsOwner(sel, value) ==> Fields(sel, w) == Fields(sel, v))
            && (!KeepsOwner(sel, value) ==> Fields(sel, w) == Err(NotOwned))
  {
    match sel
    case Manifest(field, owner) => ManifestAfter(v, field, owner, value);
    case NpmLock(package) => LockAfter(v, package, value);
  }

  lemma ManifestAfter(v: Json, field: seq<string>, owner: Option<string>, value: Projection)
    requires var sel := Manifest(field, owner); Sound(v) && Fields(sel, v).Ok? && Editable(v, KeyPath(field), value)
    ensures var sel := Manifest(field, owner); var w := SetMany(v, [], Chosen(v, [KeyPath(field)], value));
            && Fields(sel, v) == Ok([KeyPath(field)])
            && Fields(sel, w) == if KeepsOwner(sel, value) then Ok([KeyPath(field)]) else Err(NotOwned)
  {
    if owner.Some? {
      NamedAfter(v, Chosen(v, [KeyPath(field)], value), NamePath(), owner.value);
      hide SetMany, Sound, Get, Codes, KeyPath, NamePath;
    }
  }

  lemma LockAfter(v: Json, package: string, value: Projection)
    requires Sound(v) && Fields(NpmLock(package), v).Ok?
    ensures Fields(NpmLock(package), SetMany(v, [], Chosen(v, Fields(NpmLock(package), v).value, value))) == Fields(NpmLock(package), v)
  {
    var m := Chosen(v, Fields(NpmLock(package), v).value, value);
    NamesApart();
    NamedAfter(v, m, NamePath(), package);
    NamedAfter(v, m, RootNamePath(), package);
    KindAfter(v, m, PackagesPath());
    KindAfter(v, m, RootPath());
    KindAfter(v, m, RootNamePath());
    hide SetMany, Sound, Get, Codes, KeyPath, Named, NamePath, VersionPath, PackagesPath, RootPath, RootNamePath, RootVersionPath, Editable, NewScalar;
  }

  // The values a field holds once the projection has been written.
  function News(v: Json, fields: seq<Path>, value: Projection): seq<Scalar> {
    seq(|fields|, i requires 0 <= i < |fields| => NewScalar(v, fields[i], value))
  }

  lemma {:induction false} PlanAgain(b: Body, at: nat, v: Json, fields: seq<Path>, all: seq<Path>, value: Projection)
    requires WfBody(b) && Sound(v) && Value(b) == SetMany(v, [], Chosen(v, all, value))
    requires (forall f :: f in fields ==> f in all) && (forall f :: f in all ==> Editable(v, f, value))
    ensures Plan(Value(b), SpansBody(b, at, []), fields, value) == Ok(([], News(v, fields, value)))
    decreases |fields|
  {
    hide WfBody, Value, SpansBody, SetMany, Sound, Editable, NewScalar, EditField;
    if fields != [] {
      var n := |fields| - 1;
      PlanAgain(b, at, v, fields[..n], all, value);
      EditAgain(b, at, v, fields[n], all, value);
      var none: seq<Change> := [];
      assert none + none == none;
      assert News(v, fields, value) == News(v, fields[..n], value) + [NewScalar(v, fields[n], value)];
    } else {
      assert News(v, fields, value) == [];
    }
  }

  lemma EditAgain(b: Body, at: nat, v: Json, field: Path, all: seq<Path>, value: Projection)
    requires WfBody(b) && Sound(v) && Value(b) == SetMany(v, [], Chosen(v, all, value))
    requires field in all && Editable(v, field, value)
    ensures EditField(Value(b), SpansBody(b, at, []), field, value) == Ok(([], NewScalar(v, field, value)))
  {
    hide WfBody, Value, SpansBody, Sound, Get, Coerce, Locate;
    GetSetMany(v, [], Chosen(v, all, value), field);
    assert [] + field == field;
    LocateGet(b, field);
    FieldSpan(b, at, field);
    CoerceStable(value, Get(v, field).value.scalar);
  }

  // A second edit changes nothing and reports the projected values as the previous ones;
  // it is refused exactly when the first edit overwrote the name that grants ownership.
  lemma EditTwice(text: string, sel: Selector, value: Projection)
    requires Edit(text, sel, value).Ok?
    ensures var v := Value(Document(text).value.body); var out := Edit(text, sel, value).value.0;
            Edit(out, sel, value) == if KeepsOwner(sel, value) then Ok((out, News(v, Fields(sel, v).value, value))) else Err(NotOwned)
  {
    EditLocality(text, sel, value);
    var v := Value(Document(text).value.body);
    var fields := Fields(sel, v).value;
    var out := Edit(text, sel, value).value.0;
    var item := Edited(text, sel, value);
    hide Document, Fields, Plan, Value, Render, WfBody, SetMany, Chosen, Editable, Sound, Edited, KeepsOwner, News;
    FieldsAfter(v, sel, value);
    if KeepsOwner(sel, value) {
      DocumentRenders(out);
      PlanAgain(item.body, |item.before|, v, fields, fields, value);
    }
  }

  // ---- a refused second edit ----

  // The document {"name":"..."} with the given name.
  function NameItem(name: string): Item {
    Item("", Obj("", [Member("", DumpString("name"), "", Item("", Scalar(DumpString(name)), ""))]), "")
  }

  lemma DumpedKey(key: string)
    ensures KeyToken(DumpString(key)) && ScanString(DumpString(key)).value.0 == Codes(key)
  {
    DumpStringScans(key);
    NoLiteral(DumpString(key));
    hide Literal, ScanString, EscapeAll;
  }

  lemma DumpedValue(s: string)
    ensures ScalarToken(DumpString(s)) && TokenValue(DumpString(s)) == Str(Codes(s))
  {
    DumpStringScans(s);
    hide Scan, EscapeAll, Codes;
  }

  lemma NameParts(name: string)
    ensures WfItem(NameItem(name)) && Value(NameItem(name).body) == Dict([Codes("name")], [Leaf(Str(Codes(name)))])
  {
    DumpedKey("name");
    DumpedValue(name);
    hide ScanString, DumpString, Codes, ScalarToken, TokenValue, WfBody, Value;
    OneMember(DumpString("name"), DumpString(name));
  }

  lemma OneMember(key: string, token: string)
    requires KeyToken(key) && ScalarToken(token)
    ensures var m := Member("", key, "", Item("", Scalar(token), ""));
      WfBody(Obj("", [m])) && Value(Obj("", [m])) == Dict([KeyText(m)], [Leaf(TokenValue(token))])
  {
    hide KeyToken, ScalarToken, KeyText, TokenValue;
    var m := Member("", key, "", Item("", Scalar(token), ""));
    assert WfItem(m.value);
    assert WfMembers([m][1..], {} + {KeyText(m)});
    assert Keys([m]) == [KeyText(m)];
  }

  lemma NameField(name: string)
    ensures Get(Value(NameItem(name).body), NamePath()) == Some(Leaf(Str(Codes(name))))
    ensures NamePath() in Spans(NameItem(name))
  {
    NameParts(name);
    assert NamePath()[0] == Key(Codes("name")) && NamePath()[1..] == [];
    hide Value, WfItem, NameItem, NamePath, DumpString;
    LocateGet(NameItem(name).body, NamePath());
    FieldSpan(NameItem(name).body, 0, NamePath());
  }

  lemma NamePlan(owner: string, version: string)
    ensures var v := Value(NameItem(owner).body);
      && Fields(Manifest(["name"], Some(owner)), v) == Ok([NamePath()])
      && Plan(v, Spans(NameItem(owner)), [NamePath()], Version(version)).Ok?
  {
    NameField(owner);
    hide Get, Value, Spans, NameItem, DumpString, Codes, KeyPath;
    var none: seq<Path> := [];
    assert [NamePath()][..0] == none;
  }

  // A field that selects the name with an owner is accepted once: writing any other
  // version there makes the second edit fail.
  lemma OwnerOverwritten(owner: string, version: string)
    requires Codes(owner) != Codes(version)
    ensures var sel, text := Manifest(["name"], Some(owner)), RenderItem(NameItem(owner));
      var first := Edit(text, sel, Version(version));
      first.Ok? && Edit(first.value.0, sel, Version(version)) == Err(NotOwned)
  {
    var sel, text := Manifest(["name"], Some(owner)), RenderItem(NameItem(owner));
    NameParts(owner);
    RenderedIsDocument(NameItem(owner));
    hide WfItem, RenderItem, Document, Value, Spans, NameItem, Codes, Fields, Plan, News, SortDown;
    NamePlan(owner, version);
    EditTwice(text, sel, Version(version));
  }

  lemma OneRendered(key: string, token: string)
    ensures RenderItem(Item("", Obj("", [Member("", key, "", Item("", Scalar(token), ""))]), "")) == "{" + key + ":" + token + "}"
  {
    var m := Member("", key, "", Item("", Scalar(token), ""));
    assert RenderItem(m.value) == token;
    assert RenderMember(m) == key + ":" + token;
    assert RenderMembers([m]) == RenderMember(m) + "}";
  }

  lemma DumpedTexts()
    ensures DumpString("name") == "\"name\"" && DumpString("a") == "\"a\""
  {
    EscapedName();
    assert EscapeAll("a") == "a" by { assert "a"[1..] == ""; }
    hide EscapeAll;
  }

  lemma NameText()
    ensures RenderItem(NameItem("a")) == "{\"name\":\"a\"}"
  {
    DumpedTexts();
    hide DumpString, RenderItem;
    OneRendered(DumpString("name"), DumpString("a"));
  }

  lemma EscapedName()
    ensures EscapeAll("name") == "name"
  {
    assert EscapeAll("me") == "me";
    assert "ame"[1..] == "me" && "name"[1..] == "ame";
    assert EscapeAll("ame") == "ame";
  }

  // {"name":"a"} with owner a and version b: accepted, then refused.
  lemma SecondEditRefused()
    ensures var sel := Manifest(["name"], Some("a"));
      var first := Edit("{\"name\":\"a\"}", sel, Version("b"));
      first.Ok? && Edit(first.value.0, sel, Version("b")) == Err(NotOwned)
  {
    hide Edit, RenderItem, NameItem;
    NameText();
    assert Codes("a")[0] != Codes("b")[0];
    OwnerOverwritten("a", "b");
  }
}

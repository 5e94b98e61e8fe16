// Concrete syntax of accepted JSON documents, and the parser that recovers it
// (RFC 8259, sections 2 to 7; scripts/version_plan.py, _JsonDocument).
module JsonTree {
  import opened Wrappers
  import opened JsonScan

  // Every character of the text is kept: blanks around values, key tokens and
  // scalar tokens exactly as written.
  datatype Body = Scalar(token: string) | Arr(blank: string, items: seq<Item>) | Obj(blank: string, members: seq<Member>)
  datatype Item = Item(before: string, body: Body, after: string)
  datatype Member = Member(before: string, key: string, mid: string, value: Item)

  function Blanks(s: string): (n: nat)
    ensures n <= |s| && IsBlank(s[..n]) && (n < |s| ==> !IsSpace(s[n]))
  {
    if s == "" || !IsSpace(s[0]) then 0 else
    assert forall i :: 0 < i < |s| ==> s[i] == s[1..][i - 1];
    1 + Blanks(s[1..])
  }

  predicate IsClosing(c: char) { c == ']' || c == '}' }

  predicate IsBlank(s: string) {
    forall i :: 0 <= i < |s| ==> IsSpace(s[i])
  }

  // ---- rendering ----

  function Render(b: Body): (s: string)
    decreases b
  {
    match b
    case Scalar(token) => token
    case Arr(blank, items) => if items == [] then "[" + blank + "]" else "[" + RenderItems(items)
    case Obj(blank, members) => if members == [] then "{" + blank + "}" else "{" + RenderMembers(members)
  }

  function RenderItem(i: Item): string
    decreases i
  {
    i.before + Render(i.body) + i.after
  }

  // The items with their separators and the closing bracket.
  function RenderItems(items: seq<Item>): string
    decreases items
  {
    if items == [] then ""
    else RenderItem(items[0]) + (if |items| == 1 then "]" else "," + RenderItems(items[1..]))
  }

  function RenderMember(m: Member): string
    decreases m
  {
    m.before + m.key + m.mid + ":" + RenderItem(m.value)
  }

  function RenderMembers(members: seq<Member>): string
    decreases members
  {
    if members == [] then ""
    else RenderMember(members[0]) + (if |members| == 1 then "}" else "," + RenderMembers(members[1..]))
  }

  // ---- well-formed trees ----

  function KeyText(m: Member): Text {
    match ScanString(m.key)
    case Some((text, _)) => text
    case None => []
  }

  predicate KeyToken(key: string) {
    ScanString(key).Some? && ScanString(key).value.1 == |key|
  }

  predicate ScalarToken(t: string) {
    Token(t) && t[0] != '{' && t[0] != '['
  }

  predicate WfBody(b: Body)
    decreases b
  {
    match b
    case Scalar(token) => ScalarToken(token)
    case Arr(blank, items) => IsBlank(blank) && (items != [] ==> blank == "") && WfItems(items)
    case Obj(blank, members) => IsBlank(blank) && (members != [] ==> blank == "") && WfMembers(members, {})
  }

  predicate WfItem(i: Item)
    decreases i
  {
    IsBlank(i.before) && IsBlank(i.after) && WfBody(i.body)
  }

  predicate WfItems(items: seq<Item>)
    decreases items
  {
    items == [] || (WfItem(items[0]) && WfItems(items[1..]))
  }

  // Keys differ from each other and from those already seen.
  predicate WfMembers(members: seq<Member>, seen: set<Text>)
    decreases members
  {
    members == [] ||
    (&& IsBlank(members[0].before) && KeyToken(members[0].key) && IsBlank(members[0].mid)
     && KeyText(members[0]) !in seen && WfItem(members[0].value)
     && WfMembers(members[1..], seen + {KeyText(members[0])}))
  }

  // ---- parsing ----

  function ParseBody(s: string): (r: Option<(Body, nat)>)
    ensures r.Some? ==> 0 < r.value.1 <= |s|
    decreases |s|, 1
  {
    if s == "" then None
    else if s[0] == '{' then
      var w := Blanks(s[1..]);
      if 1 + w < |s| && s[1 + w] == '}' then Some((Obj(s[1..1 + w], []), w + 2))
      else match ParseMembers(s[1..], {})
        case Some((members, n)) => Some((Obj("", members), n + 1))
        case None => None
    else if s[0] == '[' then
      var w := Blanks(s[1..]);
      if 1 + w < |s| && s[1 + w] == ']' then Some((Arr(s[1..1 + w], []), w + 2))
      else match ParseItems(s[1..])
        case Some((items, n)) => Some((Arr("", items), n + 1))
        case None => None
    else match Scan(s)
      case Some((_, n)) => Some((Scalar(s[..n]), n))
      case None => None
  }

  // A value with the blanks on both sides.
  function ParseItem(s: string): (r: Option<(Item, nat)>)
    ensures r.Some? ==> 0 < r.value.1 <= |s|
    decreases |s|, 2
  {
    var w := Blanks(s);
    match ParseBody(s[w..])
    case None => None
    case Some((body, n)) =>
      var a := Blanks(s[w + n..]);
      Some((Item(s[..w], body, s[w + n..w + n + a]), w + n + a))
  }

  function ParseItems(s: string): (r: Option<(seq<Item>, nat)>)
    ensures r.Some? ==> 0 < r.value.1 <= |s| && r.value.0 != []
    decreases |s|, 3
  {
    match ParseItem(s)
    case None => None
    case Some((item, n)) =>
      if n < |s| && s[n] == ']' then Some(([item], n + 1))
      else if n < |s| && s[n] == ',' then
        match ParseItems(s[n + 1..])
        case Some((rest, k)) => Some(([item] + rest, n + 1 + k))
        case None => None
      else None
  }

  // The blanks, key token, blanks and colon before a member's value.
  datatype Head = Head(before: string, key: string, mid: string, text: Text)
  {
    function Length(): nat { |before| + |key| + |mid| + 1 }

    function Text(): string { before + key + mid + ":" }
  }

  function ParseHead(s: string): (r: Option<Head>)
    ensures r.Some? ==> r.value.Length() <= |s|
  {
    var w := Blanks(s);
    match ScanString(s[w..])
    case None => None
    case Some((text, k)) =>
      var m := Blanks(s[w + k..]);
      if w + k + m < |s| && s[w + k + m] == ':' then Some(Head(s[..w], s[w..w + k], s[w + k..w + k + m], text)) else None
  }

  function ParseMember(s: string): (r: Option<(Member, Text, nat)>)
    ensures r.Some? ==> 0 < r.value.2 <= |s|
    decreases |s|, 2
  {
    match ParseHead(s)
    case None => None
    case Some(h) =>
      match ParseItem(s[h.Length()..])
      case None => None
      case Some((value, n)) => Some((Member(h.before, h.key, h.mid, value), h.text, h.Length() + n))
  }

  function ParseMembers(s: string, seen: set<Text>): (r: Option<(seq<Member>, nat)>)
    ensures r.Some? ==> 0 < r.value.1 <= |s| && r.value.0 != []
    decreases |s|, 3
  {
    match ParseMember(s)
    case None => None
    case Some((member, text, n)) =>
      if text in seen then None
      else if n < |s| && s[n] == '}' then Some(([member], n + 1))
      else if n < |s| && s[n] == ',' then
        match ParseMembers(s[n + 1..], seen + {text})
        case Some((rest, k)) => Some(([member] + rest, n + 1 + k))
        case None => None
      else None
  }

  // ---- the parser returns the text's own tree ----

  lemma {:induction false} ParseBodySound(s: string)
    requires ParseBody(s).Some?
    ensures WfBody(ParseBody(s).value.0) && Render(ParseBody(s).value.0) == s[..ParseBody(s).value.1]
    decreases |s|, 1
  {
    hide Scan, ScanString, ParseItems, ParseMembers;
    if s[0] == '{' {
      var w := Blanks(s[1..]);
      if 1 + w < |s| && s[1 + w] == '}' {
        assert s[1..][..w] == s[1..1 + w];
      } else {
        ParseMembersSound(s[1..], {});
      }
    } else if s[0] == '[' {
      var w := Blanks(s[1..]);
      if 1 + w < |s| && s[1 + w] == ']' {
        assert s[1..][..w] == s[1..1 + w];
      } else {
        ParseItemsSound(s[1..]);
      }
    } else {
      ScannedIsToken(s);
    }
  }

  lemma Slices(s: string, w: nat, n: nat, a: nat)
    requires w + n + a <= |s|
    ensures s[w + n..][..a] == s[w + n..w + n + a]
    ensures s[..w] + s[w..][..n] + s[w + n..w + n + a] == s[..w + n + a]
  {
  }

  lemma {:induction false} ParseItemSound(s: string)
    requires ParseItem(s).Some?
    ensures WfItem(ParseItem(s).value.0) && RenderItem(ParseItem(s).value.0) == s[..ParseItem(s).value.1]
    decreases |s|, 2
  {
    hide ParseBody, Blanks, IsBlank, WfBody, Render;
    var w := Blanks(s);
    ParseBodySound(s[w..]);
    var n := ParseBody(s[w..]).value.1;
    Slices(s, w, n, Blanks(s[w + n..]));
  }

  lemma {:induction false} ParseItemsSound(s: string)
    requires ParseItems(s).Some?
    ensures WfItems(ParseItems(s).value.0) && RenderItems(ParseItems(s).value.0) == s[..ParseItems(s).value.1]
    decreases |s|, 3
  {
    hide ParseItem, RenderItem;
    ParseItemSound(s);
    var (item, n) := ParseItem(s).value;
    if s[n] == ']' {
      assert s[..n] + "]" == s[..n + 1];
    } else {
      ParseItemsSound(s[n + 1..]);
      var (rest, k) := ParseItems(s[n + 1..]).value;
      assert s[..n] + ("," + s[n + 1..][..k]) == s[..n + 1 + k];
      assert ([item] + rest)[1..] == rest;
    }
  }

  lemma ParseHeadSound(s: string)
    requires ParseHead(s).Some?
    ensures var h := ParseHead(s).value;
            h.Text() == s[..h.Length()] && IsBlank(h.before) && IsBlank(h.mid) && KeyToken(h.key) && ScanString(h.key).value.0 == h.text
  {
    hide ScanString, Blanks, IsBlank;
    var w := Blanks(s);
    var (text, k) := ScanString(s[w..]).value;
    var m := Blanks(s[w + k..]);
    ScanStringPrefix(s[w..], "");
    assert s[w..][..k] + "" == s[w..w + k];
    assert s[w + k..][..m] == s[w + k..w + k + m];
    assert s[w + k + m..w + k + m + 1] == ":";
    assert s[..w] + s[w..w + k] + s[w + k..w + k + m] + ":" == s[..w + k + m + 1];
  }

  lemma {:induction false} ParseMemberSound(s: string)
    requires ParseMember(s).Some?
    ensures var (m, text, n) := ParseMember(s).value;
            && RenderMember(m) == s[..n] && IsBlank(m.before) && IsBlank(m.mid) && KeyToken(m.key)
            && KeyText(m) == text && WfItem(m.value)
    decreases |s|, 2
  {
    hide ParseHead, ParseItem, ScanString, IsBlank, RenderItem, WfItem;
    ParseHeadSound(s);
    var h := ParseHead(s).value;
    ParseItemSound(s[h.Length()..]);
    var (value, n) := ParseItem(s[h.Length()..]).value;
    assert h.Text() + s[h.Length()..][..n] == s[..h.Length() + n];
    assert RenderMember(Member(h.before, h.key, h.mid, value)) == h.Text() + RenderItem(value);
  }

  lemma {:induction false} ParseMembersSound(s: string, seen: set<Text>)
    requires ParseMembers(s, seen).Some?
    ensures WfMembers(ParseMembers(s, seen).value.0, seen)
    ensures RenderMembers(ParseMembers(s, seen).value.0) == s[..ParseMembers(s, seen).value.1]
    decreases |s|, 3
  {
    hide ParseMember, RenderMember, KeyToken, KeyText, IsBlank;
    ParseMemberSound(s);
    var (member, text, n) := ParseMember(s).value;
    if s[n] == '}' {
      assert s[..n] + "}" == s[..n + 1];
    } else {
      ParseMembersSound(s[n + 1..], seen + {text});
      var (rest, k) := ParseMembers(s[n + 1..], seen + {text}).value;
      assert s[..n] + ("," + s[n + 1..][..k]) == s[..n + 1 + k];
      assert ([member] + rest)[1..] == rest;
    }
  }

  // ---- every well-formed tree is recovered from its text ----

  lemma {:induction false} BlanksOf(blank: string, rest: string)
    requires IsBlank(blank) && (rest != "" ==> !IsSpace(rest[0]))
    ensures Blanks(blank + rest) == |blank|
  {
    if blank != "" {
      BlanksOf(blank[1..], rest);
      assert (blank + rest)[1..] == blank[1..] + rest;
    } else {
      assert blank + rest == rest;
    }
  }

  lemma RenderStarts(b: Body)
    requires WfBody(b)
    ensures Render(b) != "" && !IsSpace(Render(b)[0]) && !IsClosing(Render(b)[0])
  {
    if b.Scalar? {
      ScalarStarts(b.token);
    }
  }

  lemma ScalarStarts(t: string)
    requires Token(t)
    ensures !IsSpace(t[0]) && !IsClosing(t[0])
  {
    if Literal(t).None? && ScanString(t).None? {
      NumberStart(t);
    }
  }

  lemma Split(a: string, b: string)
    ensures (a + b)[..|a|] == a && (a + b)[|a|..] == b
  {
  }

  // Where the four pieces of a concatenation lie.
  lemma Pieces(a: string, b: string, c: string, d: string)
    ensures var s := a + b + c + d;
            && s == a + (b + (c + d)) && s == a + b + (c + d)
            && s[..|a|] == a && s[|a|..] == b + (c + d) && s[|a| + |b|..] == c + d
            && s[|a| + |b|..|a| + |b| + |c|] == c && s[|a|..|a| + |b|] == b && s[|a| + |b| + |c|..] == d
  {
  }

  lemma {:induction false} ParseBodyComplete(b: Body, rest: string)
    requires WfBody(b) && Delimited(rest)
    ensures ParseBody(Render(b) + rest) == Some((b, |Render(b)|))
    decreases b
  {
    hide ParseBody, ParseItems, ParseMembers, Token, ScalarToken, RenderItems, RenderMembers, IsBlank, WfItems, WfMembers, Delimited;
    match b
    case Scalar(token) => ParseScalarComplete(token, rest);
    case Arr(blank, items) =>
      if items == [] {
        ParseEmpty(blank, rest);
      } else {
        ParseItemsComplete(items, rest);
        ParseArr(items, rest);
      }
    case Obj(blank, members) =>
      if members == [] {
        ParseEmpty(blank, rest);
      } else {
        ParseMembersComplete(members, {}, rest);
        ParseObj(members, rest);
      }
  }

  lemma ParseArr(items: seq<Item>, rest: string)
    requires items != [] && WfItems(items)
    requires ParseItems(RenderItems(items) + rest) == Some((items, |RenderItems(items)|))
    ensures ParseBody("[" + RenderItems(items) + rest) == Some((Arr("", items), |RenderItems(items)| + 1))
  {
    hide Scan, ParseItems, ParseMembers, RenderItems, WfItems, Blanks, IsBlank;
    var s := "[" + RenderItems(items) + rest;
    assert s[1..] == RenderItems(items) + rest;
    ItemsStart(items, rest);
  }

  lemma ParseObj(members: seq<Member>, rest: string)
    requires members != [] && WfMembers(members, {})
    requires ParseMembers(RenderMembers(members) + rest, {}) == Some((members, |RenderMembers(members)|))
    ensures ParseBody("{" + RenderMembers(members) + rest) == Some((Obj("", members), |RenderMembers(members)| + 1))
  {
    hide Scan, ParseItems, ParseMembers, RenderMembers, WfMembers, Blanks, IsBlank;
    var s := "{" + RenderMembers(members) + rest;
    assert s[1..] == RenderMembers(members) + rest;
    MembersStart(members, rest);
  }

  lemma ParseScalarComplete(token: string, rest: string)
    requires ScalarToken(token) && Delimited(rest)
    ensures ParseBody(token + rest) == Some((Scalar(token), |token|))
  {
    TokenInContext(token, rest);
    hide Scan;
    Split(token, rest);
    assert (token + rest)[0] == token[0];
  }

  lemma ParseEmpty(blank: string, rest: string)
    requires IsBlank(blank)
    ensures ParseBody("[" + blank + "]" + rest) == Some((Arr(blank, []), |blank| + 2))
    ensures ParseBody("{" + blank + "}" + rest) == Some((Obj(blank, []), |blank| + 2))
  {
    hide Blanks, Scan, ParseItems, ParseMembers;
    var s, t := "[" + blank + "]" + rest, "{" + blank + "}" + rest;
    BlanksOf(blank, "]" + rest);
    BlanksOf(blank, "}" + rest);
    assert s[1..] == blank + ("]" + rest) && t[1..] == blank + ("}" + rest);
    assert s[1..1 + |blank|] == blank && t[1..1 + |blank|] == blank;
  }

  function ItemsTail(items: seq<Item>): string
    requires items != []
  {
    if |items| == 1 then "]" else "," + RenderItems(items[1..])
  }

  function MembersTail(members: seq<Member>): string
    requires members != []
  {
    if |members| == 1 then "}" else "," + RenderMembers(members[1..])
  }

  // A text of blanks and then a token does not look like an empty list.
  lemma StartsWith(before: string, token: string, tail: string)
    requires IsBlank(before) && token != "" && !IsSpace(token[0])
    ensures Blanks(before + token + tail) == |before| && (before + token + tail)[|before|] == token[0]
  {
    hide Blanks, IsBlank;
    assert before + token + tail == before + (token + tail);
    BlanksOf(before, token + tail);
  }

  lemma ItemsStart(items: seq<Item>, rest: string)
    requires items != [] && WfItems(items)
    ensures var s := RenderItems(items) + rest; Blanks(s) < |s| && !IsClosing(s[Blanks(s)])
  {
    var i := items[0];
    FirstItem(items);
    hide *;
    Regroup(i.before, Render(i.body), i.after, ItemsTail(items), rest);
    StartsWith(i.before, Render(i.body), i.after + (ItemsTail(items) + rest));
  }

  lemma FirstItem(items: seq<Item>)
    requires items != [] && WfItems(items)
    ensures RenderItems(items) == items[0].before + Render(items[0].body) + items[0].after + ItemsTail(items)
    ensures var text := Render(items[0].body); IsBlank(items[0].before) && text != "" && !IsSpace(text[0]) && !IsClosing(text[0])
  {
    hide Render, IsBlank, WfBody;
    RenderStarts(items[0].body);
  }

  lemma MembersStart(members: seq<Member>, rest: string)
    requires members != [] && WfMembers(members, {})
    ensures var s := RenderMembers(members) + rest; Blanks(s) < |s| && !IsClosing(s[Blanks(s)])
  {
    hide *;
    var m := members[0];
    FirstMember(members);
    var value := ":" + RenderItem(m.value) + MembersTail(members);
    Regroup(m.before, m.key, m.mid, value, rest);
    QuoteStarts(m.before, m.key, m.mid + (value + rest));
  }

  lemma Regroup(a: string, b: string, c: string, d: string, e: string)
    ensures a + b + c + d + e == a + b + (c + (d + e))
  {
  }

  // A quoted key after blanks neither is a blank nor closes a container.
  lemma QuoteStarts(before: string, key: string, tail: string)
    requires IsBlank(before) && key != "" && key[0] == '\"'
    ensures var s := before + key + tail; Blanks(s) < |s| && !IsClosing(s[Blanks(s)])
  {
    hide Blanks, IsBlank;
    StartsWith(before, key, tail);
  }

  lemma KeyStarts(key: string)
    requires KeyToken(key)
    ensures key != "" && key[0] == '\"'
  {
  }

  lemma FirstMember(members: seq<Member>)
    requires members != [] && WfMembers(members, {})
    ensures RenderMembers(members) == members[0].before + members[0].key + members[0].mid + (":" + RenderItem(members[0].value) + MembersTail(members))
    ensures IsBlank(members[0].before) && members[0].key != "" && members[0].key[0] == '\"'
  {
    hide RenderItem, IsBlank, KeyToken, WfItem;
    var m := members[0];
    KeyStarts(m.key);
    Assoc(m.before + m.key + m.mid, ":", RenderItem(m.value), MembersTail(members));
  }

  lemma Assoc(a: string, b: string, c: string, d: string)
    ensures a + b + c + d == a + (b + c + d)
  {
  }

  lemma {:induction false} ParseItemComplete(i: Item, rest: string)
    requires WfItem(i) && Delimited(rest) && (rest != "" ==> !IsSpace(rest[0]))
    ensures ParseItem(RenderItem(i) + rest) == Some((i, |RenderItem(i)|))
    decreases i
  {
    hide ParseBody, ParseItem, Render, WfBody, Blanks;
    AfterDelimited(i.after, rest);
    ParseBodyComplete(i.body, i.after + rest);
    RenderStarts(i.body);
    ParseItemFrom(i, Render(i.body), rest);
  }

  lemma ParseItemFrom(i: Item, text: string, rest: string)
    requires IsBlank(i.before) && text != "" && !IsSpace(text[0]) && IsBlank(i.after)
    requires rest != "" ==> !IsSpace(rest[0])
    requires ParseBody(text + (i.after + rest)) == Some((i.body, |text|))
    ensures ParseItem(i.before + text + i.after + rest) == Some((i, |i.before| + |text| + |i.after|))
  {
    hide ParseBody, Blanks, IsBlank, IsSpace, ParseItem;
    Layout(i.before, text, i.after, rest);
    ParseItemAt(i.before + text + i.after + rest, |i.before|, i.body, |text|, |i.after|);
  }

  lemma Layout(a: string, b: string, c: string, d: string)
    requires IsBlank(a) && b != "" && !IsSpace(b[0]) && IsBlank(c) && (d != "" ==> !IsSpace(d[0]))
    ensures var s := a + b + c + d;
            && Blanks(s) == |a| && Blanks(s[|a| + |b|..]) == |c|
            && s[..|a|] == a && s[|a|..] == b + (c + d) && s[|a| + |b|..|a| + |b| + |c|] == c
            && s[|a|..|a| + |b|] == b && s[|a| + |b| + |c|..] == d
  {
    hide Blanks, IsBlank, IsSpace;
    StartsWith(a, b, c + d);
    BlanksOf(c, d);
    Pieces(a, b, c, d);
  }

  lemma ParseItemAt(s: string, w: nat, body: Body, n: nat, a: nat)
    requires w <= |s| && Blanks(s) == w && ParseBody(s[w..]) == Some((body, n))
    requires w + n <= |s| && Blanks(s[w + n..]) == a
    requires w + n + a <= |s|
    ensures ParseItem(s) == Some((Item(s[..w], body, s[w + n..w + n + a]), w + n + a))
  {
    hide ParseBody, Blanks, IsBlank, IsSpace, ParseItems, ParseMembers;
  }

  lemma AfterDelimited(after: string, rest: string)
    requires IsBlank(after) && Delimited(rest)
    ensures Delimited(after + rest)
  {
    assert after == "" ==> after + rest == rest;
  }

  lemma ItemsLast(s: string, item: Item, n: nat)
    requires ParseItem(s) == Some((item, n)) && n < |s| && s[n] == ']'
    ensures ParseItems(s) == Some(([item], n + 1))
  {
    hide ParseItem;
  }

  lemma ItemsCons(s: string, item: Item, n: nat, rest: seq<Item>, k: nat)
    requires ParseItem(s) == Some((item, n)) && n < |s| && s[n] == ',' && ParseItems(s[n + 1..]) == Some((rest, k))
    ensures ParseItems(s) == Some(([item] + rest, n + 1 + k))
  {
    hide ParseItem;
  }

  // How a rendered list of two or more goes on after its first element.
  lemma Continues(first: string, others: string, rest: string)
    ensures var s := first + ("," + others) + rest;
      && s == first + ("," + (others + rest)) && |first| < |s| && s[|first|] == ',' && s[|first| + 1..] == others + rest
  {
  }

  lemma Ends(first: string, close: char, rest: string)
    ensures var s := first + [close] + rest; s == first + ([close] + rest) && |first| < |s| && s[|first|] == close
  {
  }

  lemma {:induction false} ParseItemsComplete(items: seq<Item>, rest: string)
    requires items != [] && WfItems(items)
    ensures ParseItems(RenderItems(items) + rest) == Some((items, |RenderItems(items)|))
    decreases items
  {
    hide ParseItem, ParseItems, RenderItem, WfItem;
    var first := RenderItem(items[0]);
    if |items| == 1 {
      Ends(first, ']', rest);
      ParseItemComplete(items[0], "]" + rest);
      ItemsLast(RenderItems(items) + rest, items[0], |first|);
      assert items == [items[0]];
    } else {
      var others := RenderItems(items[1..]);
      Continues(first, others, rest);
      ParseItemComplete(items[0], "," + (others + rest));
      ParseItemsComplete(items[1..], rest);
      ItemsCons(RenderItems(items) + rest, items[0], |first|, items[1..], |others|);
      assert items == [items[0]] + items[1..];
    }
  }

  lemma MembersLast(s: string, seen: set<Text>, m: Member, text: Text, n: nat)
    requires ParseMember(s) == Some((m, text, n)) && text !in seen && n < |s| && s[n] == '}'
    ensures ParseMembers(s, seen) == Some(([m], n + 1))
  {
    hide ParseMember;
  }

  lemma MembersCons(s: string, seen: set<Text>, m: Member, text: Text, n: nat, rest: seq<Member>, k: nat)
    requires ParseMember(s) == Some((m, text, n)) && text !in seen && n < |s| && s[n] == ','
    requires ParseMembers(s[n + 1..], seen + {text}) == Some((rest, k))
    ensures ParseMembers(s, seen) == Some(([m] + rest, n + 1 + k))
  {
    hide ParseMember;
  }

  lemma {:induction false} ParseMembersComplete(members: seq<Member>, seen: set<Text>, rest: string)
    requires members != [] && WfMembers(members, seen)
    ensures ParseMembers(RenderMembers(members) + rest, seen) == Some((members, |RenderMembers(members)|))
    decreases members
  {
    hide ParseMember, ParseMembers, RenderMember, WfItem, KeyToken, KeyText, IsBlank;
    var m := members[0];
    var first := RenderMember(m);
    if |members| == 1 {
      Ends(first, '}', rest);
      ParseMemberComplete(m, "}" + rest);
      MembersLast(RenderMembers(members) + rest, seen, m, KeyText(m), |first|);
      assert members == [m];
    } else {
      var others := RenderMembers(members[1..]);
      Continues(first, others, rest);
      ParseMemberComplete(m, "," + (others + rest));
      ParseMembersComplete(members[1..], seen + {KeyText(m)}, rest);
      MembersCons(RenderMembers(members) + rest, seen, m, KeyText(m), |first|, members[1..], |others|);
      assert members == [m] + members[1..];
    }
  }

  lemma {:induction false} ParseMemberComplete(m: Member, rest: string)
    requires IsBlank(m.before) && KeyToken(m.key) && IsBlank(m.mid) && WfItem(m.value)
    requires Delimited(rest) && (rest != "" ==> !IsSpace(rest[0]))
    ensures ParseMember(RenderMember(m) + rest) == Some((m, KeyText(m), |RenderMember(m)|))
    decreases m
  {
    hide ParseHead, ParseItem, RenderItem, ScanString, IsBlank, WfItem;
    var h := Head(m.before, m.key, m.mid, KeyText(m));
    var s := RenderMember(m) + rest;
    assert RenderMember(m) == h.Text() + RenderItem(m.value);
    assert s == h.Text() + (RenderItem(m.value) + rest);
    ParseHeadComplete(m, RenderItem(m.value) + rest);
    Split(h.Text(), RenderItem(m.value) + rest);
    ParseItemComplete(m.value, rest);
  }

  // The key, the blanks around it and the colon are found where they were rendered.
  lemma ParseHeadComplete(m: Member, tail: string)
    requires IsBlank(m.before) && KeyToken(m.key) && IsBlank(m.mid)
    ensures var h := Head(m.before, m.key, m.mid, KeyText(m)); ParseHead(h.Text() + tail) == Some(h)
  {
    hide ScanString, Blanks, IsBlank, KeyToken;
    var s := m.before + m.key + m.mid + (":" + tail);
    var after := m.mid + (":" + tail);
    KeyInContext(m, after);
    Layout(m.before, m.key, m.mid, ":" + tail);
    HeadAt(s, |m.before|, |m.key|, |m.mid|, KeyText(m));
    ColonAfter(m.before, m.key, m.mid, tail);
  }

  lemma ColonAfter(a: string, b: string, c: string, tail: string)
    ensures a + b + c + ":" + tail == a + b + c + (":" + tail)
  {
  }

  lemma HeadAt(s: string, w: nat, k: nat, m: nat, text: Text)
    requires w <= |s| && Blanks(s) == w && ScanString(s[w..]) == Some((text, k)) && w + k <= |s| && Blanks(s[w + k..]) == m
    requires w + k + m < |s| && s[w + k + m] == ':'
    ensures ParseHead(s) == Some(Head(s[..w], s[w..w + k], s[w + k..w + k + m], text))
  {
    hide ScanString, Blanks;
  }

  lemma KeyInContext(m: Member, after: string)
    requires KeyToken(m.key)
    ensures m.key != "" && !IsSpace(m.key[0]) && ScanString(m.key + after) == Some((KeyText(m), |m.key|))
  {
    ScanStringPrefix(m.key, after);
    assert m.key[..|m.key|] == m.key;
  }
}

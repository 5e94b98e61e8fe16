// Lines, headings and sections of release notes, aligned with the masked text
// (scripts/release_control.py:1659-1668, 1709-1782).
module MarkdownSections {
  import opened Wrappers
  import opened MarkdownMask

  // ---- lines ----

  // io.StringIO ends a line after each newline character and nowhere else.
  function LineEnd(text: string, i: nat): (e: nat)
    requires i < |text|
    ensures i < e <= |text| && (e < |text| ==> text[e - 1] == '\n') && forall k :: i <= k < e - 1 ==> text[k] != '\n'
    decreases |text| - i
  {
    if text[i] == '\n' || i + 1 == |text| then i + 1 else LineEnd(text, i + 1)
  }

  function Split(text: string, i: nat): seq<string>
    requires i <= |text|
    decreases |text| - i
  {
    if i == |text| then [] else [text[i..LineEnd(text, i)]] + Split(text, LineEnd(text, i))
  }

  function Join(lines: seq<string>): string {
    if lines == [] then "" else lines[0] + Join(lines[1..])
  }

  lemma {:induction false} SplitJoins(text: string, i: nat)
    requires i <= |text|
    ensures Join(Split(text, i)) == text[i..]
    decreases |text| - i
  {
    if i < |text| {
      SplitJoins(text, LineEnd(text, i));
      assert text[i..] == text[i..LineEnd(text, i)] + text[LineEnd(text, i)..];
    }
  }

  // ---- fences ----

  function Count(line: string, c: char): (n: nat)
    ensures n <= |line| && (forall k :: 0 <= k < n ==> line[k] == c) && (n < |line| ==> line[n] != c)
  {
    if line == "" || line[0] != c then 0 else
    assert forall k :: 0 < k < |line| ==> line[k] == line[1..][k - 1];
    1 + Count(line[1..], c)
  }

  datatype Fence = Fence(marker: char, length: nat, info: string)

  function FenceOf(line: string): Option<Fence> {
    var indentation := Count(line, ' ');
    var content := line[indentation..];
    if indentation > 3 || content == "" || !(content[0] == '`' || content[0] == '~') then None
    else
      var length := Count(content, content[0]);
      if length < 3 then None else Some(Fence(content[0], length, content[length..]))
  }

  predicate Blank(s: string) {
    forall k :: 0 <= k < |s| ==> s[k] == ' ' || s[k] == '\t' || s[k] == '\r' || s[k] == '\n'
  }

  predicate FenceCloses(candidate: Option<Fence>, marker: char, length: nat) {
    candidate.Some? && candidate.value.marker == marker && candidate.value.length >= length && Blank(candidate.value.info)
  }

  predicate Opens(f: Fence) { f.marker == '~' || '`' !in f.info }

  // ---- the line states ----

  datatype Reading = Plain(comment: bool) | Fenced(marker: char, length: nat)

  datatype Line = Line(visible: string, heading: bool, guidance: bool)

  function ReadLine(line: string, r: Reading): (Line, Reading) {
    match r
    case Fenced(marker, length) =>
      var closes := FenceCloses(FenceOf(line), marker, length);
      (Line(line, false, !closes), if closes then Plain(false) else r)
    case Plain(comment) =>
      var f := FenceOf(line);
      if !comment && f.Some? && Opens(f.value) then (Line(line, false, false), Fenced(f.value.marker, f.value.length))
      else if !comment && ("    " <= line || "\t" <= line) then (Line(line, false, true), r)
      else (Line(MaskLine(line, comment).0, true, true), Plain(MaskLine(line, comment).1))
  }

  function Read(lines: seq<string>, r: Reading): seq<Line> {
    if lines == [] then [] else [ReadLine(lines[0], r).0] + Read(lines[1..], ReadLine(lines[0], r).1)
  }

  function State(lines: seq<string>, r: Reading): Reading {
    if lines == [] then r else State(lines[1..], ReadLine(lines[0], r).1)
  }

  function Lines(text: string): seq<Line> { Read(Split(text, 0), Plain(false)) }

  function Visible(lines: seq<Line>): string {
    if lines == [] then "" else lines[0].visible + Visible(lines[1..])
  }

  lemma {:induction false} ReadAppend(lines: seq<string>, line: string, r: Reading)
    ensures Read(lines + [line], r) == Read(lines, r) + [ReadLine(line, State(lines, r)).0]
    ensures State(lines + [line], r) == ReadLine(line, State(lines, r)).1
  {
    hide ReadLine;
    if lines != [] {
      ReadAppend(lines[1..], line, ReadLine(lines[0], r).1);
      assert (lines + [line])[1..] == lines[1..] + [line];
    } else {
      assert lines + [line] == [line];
    }
  }

  // _release_lines
  method ReleaseLines(text: string) returns (lines: seq<Line>)
    ensures lines == Lines(text)
  {
    hide FenceOf, FenceCloses, MaskLine, Split;
    var source := Split(text, 0);
    var fence: Option<(char, nat)> := None;
    var comment := false;
    lines := [];
    var i := 0;
    while i < |source|
      invariant i <= |source| && lines == Read(source[..i], Plain(false))
      invariant State(source[..i], Plain(false)) == if fence.Some? then Fenced(fence.value.0, fence.value.1) else Plain(comment)
      invariant fence.Some? ==> !comment
    {
      var line := source[i];
      ReadAppend(source[..i], line, Plain(false));
      assert source[..i + 1] == source[..i] + [line];
      var candidate := FenceOf(line);
      if fence.Some? {
        var closes := FenceCloses(candidate, fence.value.0, fence.value.1);
        lines := lines + [Line(line, false, !closes)];
        if closes {
          fence := None;
        }
      } else if !comment && candidate.Some? && Opens(candidate.value) {
        fence := Some((candidate.value.marker, candidate.value.length));
        lines := lines + [Line(line, false, false)];
      } else if !comment && ("    " <= line || "\t" <= line) {
        lines := lines + [Line(line, false, true)];
      } else {
        var visible;
        visible, comment := CommentLine(line, comment);
        lines := lines + [Line(visible, true, true)];
      }
      i := i + 1;
    }
    assert source[..i] == source;
  }

  // ---- alignment ----

  // Same length, same newlines, and a different character only where a blank replaces it.
  predicate Aligned(text: string, visible: string) {
    && |visible| == |text|
    && forall k :: 0 <= k < |text| ==>
         (Newline(visible[k]) <==> Newline(text[k])) && (visible[k] != text[k] ==> visible[k] == ' ')
  }

  lemma LineAligned(line: string, r: Reading)
    ensures Aligned(line, ReadLine(line, r).0.visible)
    ensures !ReadLine(line, r).0.heading ==> ReadLine(line, r).0.visible == line
  {
    hide FenceOf, FenceCloses, Scan;
    if r.Plain? {
      forall k | 0 <= k < |line|
        ensures Newline(MaskLine(line, r.comment).0[k]) <==> Newline(line[k])
        ensures MaskLine(line, r.comment).0[k] != line[k] ==> MaskLine(line, r.comment).0[k] == ' '
      {
        MaskKeeps(line, r.comment, k);
      }
    }
  }

  lemma AlignedConcat(a: string, b: string, v: string, w: string)
    requires Aligned(a, v) && Aligned(b, w)
    ensures Aligned(a + b, v + w)
  {
  }

  lemma {:induction false} ReadAligned(lines: seq<string>, r: Reading)
    ensures |Read(lines, r)| == |lines| && Aligned(Join(lines), Visible(Read(lines, r)))
    ensures forall i :: 0 <= i < |lines| ==> |Read(lines, r)[i].visible| == |lines[i]|
    ensures forall i :: 0 <= i < |lines| && !Read(lines, r)[i].heading ==> Read(lines, r)[i].visible == lines[i]
  {
    hide ReadLine, Aligned;
    if lines == [] {
      EmptyAligned();
    } else {
      LineAligned(lines[0], r);
      AlignedLength(lines[0], ReadLine(lines[0], r).0.visible);
      ReadAligned(lines[1..], ReadLine(lines[0], r).1);
      AlignedConcat(lines[0], Join(lines[1..]), ReadLine(lines[0], r).0.visible, Visible(Read(lines[1..], ReadLine(lines[0], r).1)));
      assert Read(lines, r)[1..] == Read(lines[1..], ReadLine(lines[0], r).1);
    }
  }

  lemma EmptyAligned()
    ensures Aligned("", "")
  {
  }

  lemma AlignedLength(a: string, v: string)
    requires Aligned(a, v)
    ensures |a| == |v|
  {
  }

  // The masked text has the length and the newlines of the original, changes only to
  // blanks, and leaves every fenced, fence and indented code line exactly as it was.
  lemma MaskingAligned(text: string)
    ensures Aligned(text, Visible(Lines(text)))
    ensures |Lines(text)| == |Split(text, 0)|
    ensures forall i :: 0 <= i < |Lines(text)| ==> |Lines(text)[i].visible| == |Split(text, 0)[i]|
    ensures forall i :: 0 <= i < |Lines(text)| && !Lines(text)[i].heading ==> Lines(text)[i].visible == Split(text, 0)[i]
  {
    hide Aligned, Read, Split;
    SplitJoins(text, 0);
    assert text[0..] == text;
    ReadAligned(Split(text, 0), Plain(false));
  }

  // ---- headings ----

  // Its level, the text after the marks, and where its line starts and stops.
  datatype Heading = Heading(level: nat, content: string, start: nat, stop: nat)

  function HeadingOf(line: Line, offset: nat): seq<Heading> {
    var indentation := Count(line.visible, ' ');
    var heading := if indentation <= 3 then line.visible[indentation..] else line.visible;
    var level := Count(heading, '#');
    if line.heading && 1 <= level <= 6
       && (level == |heading| || heading[level] == ' ' || heading[level] == '\t' || heading[level] == '\r' || heading[level] == '\n')
    then [Heading(level, heading[level..], offset, offset + |line.visible|)] else []
  }

  function Offset(lines: seq<Line>): nat {
    if lines == [] then 0 else Offset(lines[..|lines| - 1]) + |lines[|lines| - 1].visible|
  }

  function Headings(lines: seq<Line>): seq<Heading> {
    if lines == [] then []
    else Headings(lines[..|lines| - 1]) + HeadingOf(lines[|lines| - 1], Offset(lines[..|lines| - 1]))
  }

  // _release_headings
  method ReleaseHeadings(lines: seq<Line>) returns (headings: seq<Heading>)
    ensures headings == Headings(lines)
  {
    hide HeadingOf;
    headings := [];
    var offset := 0;
    var i := 0;
    while i < |lines|
      invariant i <= |lines| && offset == Offset(lines[..i]) && headings == Headings(lines[..i])
    {
      assert lines[..i + 1][..i] == lines[..i];
      headings := headings + HeadingOf(lines[i], offset);
      offset := offset + |lines[i].visible|;
      i := i + 1;
    }
    assert lines[..i] == lines;
  }

  lemma {:induction false} OffsetVisible(lines: seq<Line>)
    ensures Offset(lines) == |Visible(lines)|
    decreases |lines|
  {
    if lines != [] {
      OffsetVisible(lines[..|lines| - 1]);
      VisibleAppend(lines[..|lines| - 1], lines[|lines| - 1]);
      assert lines == lines[..|lines| - 1] + [lines[|lines| - 1]];
    }
  }

  lemma {:induction false} VisibleAppend(lines: seq<Line>, line: Line)
    ensures Visible(lines + [line]) == Visible(lines) + line.visible
  {
    if lines != [] {
      VisibleAppend(lines[1..], line);
      assert (lines + [line])[1..] == lines[1..] + [line];
    } else {
      assert lines + [line] == [line] && [line][1..] == [];
    }
  }

  // Headings come in order, each before the next, inside the text.
  predicate InOrder(hs: seq<Heading>, length: nat) {
    && (forall i :: 0 <= i < |hs| ==> hs[i].start < hs[i].stop <= length && 1 <= hs[i].level <= 6)
    && (forall i, j :: 0 <= i < j < |hs| ==> hs[i].stop <= hs[j].start)
  }

  lemma {:induction false} HeadingsInOrder(lines: seq<Line>)
    ensures InOrder(Headings(lines), Offset(lines))
    decreases |lines|
  {
    if lines != [] {
      HeadingsInOrder(lines[..|lines| - 1]);
      hide Count;
    }
  }

  // ---- sections ----

  datatype Section = Section(content: string, body: string, visible: string, start: nat, stop: nat)

  function UpTo(hs: seq<Heading>, level: nat): seq<Heading> {
    if hs == [] then []
    else UpTo(hs[..|hs| - 1], level) + (if hs[|hs| - 1].level <= level then [hs[|hs| - 1]] else [])
  }

  lemma {:induction false} UpToInOrder(hs: seq<Heading>, level: nat, length: nat)
    requires InOrder(hs, length)
    ensures InOrder(UpTo(hs, level), length)
    ensures forall h :: h in UpTo(hs, level) <==> h in hs && h.level <= level
    decreases |hs|
  {
    if hs != [] {
      var n := |hs| - 1;
      UpToInOrder(hs[..n], level, length);
      assert hs == hs[..n] + [hs[n]];
      var some := UpTo(hs[..n], level);
      forall i | 0 <= i < |some| ensures some[i].stop <= hs[n].start {
        assert some[i] in hs[..n];
      }
    }
  }

  function SectionEnd(hs: seq<Heading>, i: nat, length: nat): nat {
    if i + 1 < |hs| then hs[i + 1].start else length
  }

  // _release_sections: the bodies below the headings of one level.
  method ReleaseSections(text: string, level: nat) returns (sections: seq<Section>)
    ensures var hs := UpTo(Headings(Lines(text)), level); Cut(text, Visible(Lines(text)), hs, level, sections)
  {
    hide Lines, Visible, Headings, UpTo, InOrder;
    var lines := ReleaseLines(text);
    var visible := Visible(lines);
    var all := ReleaseHeadings(lines);
    var headings := UpTo(all, level);
    MaskingAligned(text);
    AlignedLength(text, visible);
    OffsetVisible(lines);
    HeadingsInOrder(lines);
    UpToInOrder(all, level, |text|);
    sections := [];
    var i := 0;
    ghost var from: seq<nat> := [];
    while i < |headings|
      invariant i <= |headings| && CutFrom(text, visible, headings, level, sections, from, i)
    {
      if headings[i].level == level {
        HeadingBounds(headings, i, |text|);
        var start, end := headings[i].stop, SectionEnd(headings, i, |text|);
        sections := sections + [Section(headings[i].content, text[start..end], visible[start..end], start, end)];
        from := from + [i];
      }
      i := i + 1;
    }
  }

  lemma HeadingBounds(hs: seq<Heading>, i: nat, length: nat)
    requires InOrder(hs, length) && i < |hs|
    ensures hs[i].stop <= SectionEnd(hs, i, length) <= length
  {
  }

  // Each section is the stretch between a heading of the level and the next heading
  // of that level or a higher one.
  ghost predicate IsSection(text: string, visible: string, hs: seq<Heading>, level: nat, s: Section, i: nat) {
    && i < |hs| && hs[i].level == level && s.content == hs[i].content
    && s.start == hs[i].stop && s.stop == SectionEnd(hs, i, |text|) && s.start <= s.stop <= |text| && |visible| == |text|
    && s.body == text[s.start..s.stop] && s.visible == visible[s.start..s.stop]
  }

  ghost predicate CutFrom(text: string, visible: string, hs: seq<Heading>, level: nat, sections: seq<Section>, from: seq<nat>, n: nat)
  {
    && |from| == |sections| && n <= |hs|
    && (forall k :: 0 <= k < |from| ==> from[k] < n && IsSection(text, visible, hs, level, sections[k], from[k]))
    && (forall j, k :: 0 <= j < k < |from| ==> from[j] < from[k])
    && (forall i :: 0 <= i < n && hs[i].level == level ==> i in from)
  }

  ghost predicate Cut(text: string, visible: string, hs: seq<Heading>, level: nat, sections: seq<Section>) {
    exists from :: CutFrom(text, visible, hs, level, sections, from, |hs|)
  }

  // Section bodies are ordered, disjoint slices of the original that line up with
  // the masked text, and no heading of the level or above lies inside one.
  lemma SectionsOrdered(text: string, level: nat, sections: seq<Section>, j: nat, k: nat)
    requires Cut(text, Visible(Lines(text)), UpTo(Headings(Lines(text)), level), level, sections) && j < k < |sections|
    ensures sections[j].start <= sections[j].stop <= sections[k].start <= sections[k].stop <= |text|
  {
    var lines := Lines(text);
    var hs := UpTo(Headings(lines), level);
    MaskingAligned(text);
    OffsetVisible(lines);
    HeadingsInOrder(lines);
    UpToInOrder(Headings(lines), level, |text|);
    hide Lines, Visible, Headings, UpTo, Aligned, Split;
    var from :| CutFrom(text, Visible(lines), hs, level, sections, from, |hs|);
    assert IsSection(text, Visible(lines), hs, level, sections[j], from[j]);
    assert IsSection(text, Visible(lines), hs, level, sections[k], from[k]);
  }

  lemma SectionsFacts(text: string, level: nat)
    ensures var lines := Lines(text);
      Aligned(text, Visible(lines)) && InOrder(UpTo(Headings(lines), level), |text|)
      && forall h :: h in UpTo(Headings(lines), level) <==> h in Headings(lines) && h.level <= level
  {
    hide Lines, Visible, Headings, UpTo, Split, InOrder, Aligned;
    var lines := Lines(text);
    MaskingAligned(text);
    AlignedLength(text, Visible(lines));
    OffsetVisible(lines);
    HeadingsInOrder(lines);
    UpToInOrder(Headings(lines), level, |text|);
  }

  lemma AlignedSlice(text: string, visible: string, start: nat, stop: nat)
    requires Aligned(text, visible) && start <= stop <= |text|
    ensures Aligned(text[start..stop], visible[start..stop])
  {
  }

  lemma NoHeadingInside(hs: seq<Heading>, i: nat, length: nat, h: Heading)
    requires InOrder(hs, length) && i < |hs| && h in hs
    ensures !(hs[i].stop <= h.start < SectionEnd(hs, i, length))
  {
    var j :| 0 <= j < |hs| && hs[j] == h;
  }

  lemma SectionBody(text: string, level: nat, sections: seq<Section>, k: nat)
    requires Cut(text, Visible(Lines(text)), UpTo(Headings(Lines(text)), level), level, sections) && k < |sections|
    ensures var s := sections[k]; s.start <= s.stop <= |text| && s.body == text[s.start..s.stop] && Aligned(s.body, s.visible)
    ensures forall h :: h in Headings(Lines(text)) && h.level <= level ==> !(sections[k].start <= h.start < sections[k].stop)
  {
    hide Lines, Visible, Headings, UpTo, InOrder, Aligned, SectionEnd;
    SectionsFacts(text, level);
    var visible, hs := Visible(Lines(text)), UpTo(Headings(Lines(text)), level);
    var from :| CutFrom(text, visible, hs, level, sections, from, |hs|);
    var s, i := sections[k], from[k];
    assert IsSection(text, visible, hs, level, s, i);
    AlignedSlice(text, visible, s.start, s.stop);
    forall h | h in hs ensures !(s.start <= h.start < s.stop) {
      NoHeadingInside(hs, i, |text|, h);
    }
  }
}

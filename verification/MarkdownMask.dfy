// The offset-preserving Markdown scanner of release notes
// (scripts/release_control.py:1659-1782; CommonMark sections 4.2, 4.5 and 6.1).
module MarkdownMask {
  import opened Wrappers

  // ---- backtick runs ----

  function RunEnd(line: string, i: nat): (e: nat)
    requires i <= |line|
    ensures i <= e <= |line| && (forall k :: i <= k < e ==> line[k] == '`') && (e < |line| ==> line[e] != '`')
    decreases |line| - i
  {
    if i == |line| || line[i] != '`' then i else RunEnd(line, i + 1)
  }

  datatype Span = Span(start: nat, end: nat)

  // re.finditer("`+", line): the maximal runs, left to right.
  function Runs(line: string, i: nat): seq<Span>
    requires i <= |line|
    decreases |line| - i
  {
    if i == |line| then []
    else if line[i] != '`' then Runs(line, i + 1)
    else [Span(i, RunEnd(line, i))] + Runs(line, RunEnd(line, i))
  }

  predicate Ordered(runs: seq<Span>, from: nat, length: nat) {
    && (forall k :: 0 <= k < |runs| ==> from <= runs[k].start < runs[k].end <= length)
    && (forall j, k :: 0 <= j < k < |runs| ==> runs[j].end <= runs[k].start)
  }

  lemma {:induction false} RunsOrdered(line: string, i: nat)
    requires i <= |line|
    ensures Ordered(Runs(line, i), i, |line|)
    decreases |line| - i
  {
    if i < |line| {
      if line[i] != '`' {
        RunsOrdered(line, i + 1);
      } else {
        RunsOrdered(line, RunEnd(line, i));
      }
    }
  }

  // A run is exactly a maximal block of backticks.
  lemma {:induction false} RunsMaximal(line: string, i: nat, s: Span)
    requires i <= |line| && (i > 0 && i < |line| && line[i] == '`' ==> line[i - 1] != '`')
    ensures s in Runs(line, i) <==>
      && i <= s.start < s.end <= |line| && (forall k :: s.start <= k < s.end ==> line[k] == '`')
      && (s.start > 0 ==> line[s.start - 1] != '`') && (s.end < |line| ==> line[s.end] != '`')
    decreases |line| - i
  {
    if i < |line| {
      if line[i] != '`' {
        RunsMaximal(line, i + 1, s);
      } else {
        var e := RunEnd(line, i);
        RunsMaximal(line, e, s);
      }
    }
  }

  function Length(s: Span): int { s.end - s.start }

  // The end of the nearest run at or after position i that has the given length.
  function Nearest(runs: seq<Span>, i: nat, length: int): Option<nat>
    requires i <= |runs|
    decreases |runs| - i
  {
    if i == |runs| then None
    else if Length(runs[i]) == length then Some(runs[i].end)
    else Nearest(runs, i + 1, length)
  }

  // Each run that has a later one of its length, with the end of the nearest.
  function Ends(runs: seq<Span>, i: nat): map<nat, nat>
    requires i <= |runs|
    decreases |runs| - i
  {
    if i == |runs| then map[]
    else match Nearest(runs, i + 1, Length(runs[i]))
      case None => Ends(runs, i + 1)
      case Some(end) => Ends(runs, i + 1)[runs[i].start := end]
  }

  function CodeEnds(line: string): map<nat, nat> { Ends(Runs(line, 0), 0) }

  lemma {:induction false} NearestIs(runs: seq<Span>, i: nat, length: int, j: nat)
    requires i <= j < |runs| && Length(runs[j]) == length && forall k :: i <= k < j ==> Length(runs[k]) != length
    ensures Nearest(runs, i, length) == Some(runs[j].end)
    decreases j - i
  {
    if i < j {
      NearestIs(runs, i + 1, length, j);
    }
  }

  lemma {:induction false} NearestFrom(runs: seq<Span>, i: nat, length: int) returns (j: nat)
    requires i <= |runs| && Nearest(runs, i, length).Some?
    ensures i <= j < |runs| && Length(runs[j]) == length && runs[j].end == Nearest(runs, i, length).value
    ensures forall k :: i <= k < j ==> Length(runs[k]) != length
    decreases |runs| - i
  {
    if Length(runs[i]) == length {
      j := i;
    } else {
      j := NearestFrom(runs, i + 1, length);
    }
  }

  // The run k closes the run j: the same length, and none of it in between.
  predicate Closes(runs: seq<Span>, j: nat, k: nat) {
    j < k < |runs| && Length(runs[j]) == Length(runs[k]) && forall m :: j < m < k ==> Length(runs[m]) != Length(runs[j])
  }

  lemma {:induction false} EndsAt(runs: seq<Span>, i: nat, j: nat)
    requires i <= j < |runs| && forall a, b :: 0 <= a < b < |runs| ==> runs[a].start != runs[b].start
    ensures runs[j].start in Ends(runs, i) <==> Nearest(runs, j + 1, Length(runs[j])).Some?
    ensures runs[j].start in Ends(runs, i) ==> Ends(runs, i)[runs[j].start] == Nearest(runs, j + 1, Length(runs[j])).value
    decreases |runs| - i
  {
    hide Nearest;
    if i < j {
      EndsAt(runs, i + 1, j);
    } else {
      EndsKeys(runs, i + 1, runs[j].start);
    }
  }

  lemma {:induction false} EndsKeys(runs: seq<Span>, i: nat, p: nat)
    requires i <= |runs|
    ensures p in Ends(runs, i) ==> exists j :: i <= j < |runs| && runs[j].start == p
    decreases |runs| - i
  {
    if i < |runs| {
      EndsKeys(runs, i + 1, p);
    }
  }

  // The reverse pass records the end of the nearest later run of equal length, for
  // exactly the runs that have one.
  lemma CodeEndsClose(line: string, j: nat)
    requires j < |Runs(line, 0)|
    ensures var runs := Runs(line, 0);
      && (runs[j].start in CodeEnds(line) <==> exists k: nat :: Closes(runs, j, k))
      && (forall k: nat :: Closes(runs, j, k) ==> runs[j].start in CodeEnds(line) && CodeEnds(line)[runs[j].start] == runs[k].end)
  {
    var runs := Runs(line, 0);
    RunsOrdered(line, 0);
    EndsAt(runs, 0, j);
    hide Ends, Runs, Nearest, Ordered;
    if Nearest(runs, j + 1, Length(runs[j])).Some? {
      var k := NearestFrom(runs, j + 1, Length(runs[j]));
      assert Closes(runs, j, k);
    }
    forall k: nat | Closes(runs, j, k) ensures Nearest(runs, j + 1, Length(runs[j])) == Some(runs[k].end) {
      NearestIs(runs, j + 1, Length(runs[j]), k);
    }
  }

  // A recorded end lies after the start of its run, inside the line.
  lemma CodeEndsInside(line: string, p: nat)
    requires p in CodeEnds(line)
    ensures p < CodeEnds(line)[p] <= |line|
  {
    var runs := Runs(line, 0);
    RunsOrdered(line, 0);
    EndsKeys(runs, 0, p);
    var j: nat :| j < |runs| && runs[j].start == p;
    EndsAt(runs, 0, j);
    var k := NearestFrom(runs, j + 1, Length(runs[j]));
  }

  // _release_code_span_ends: one reverse pass over the runs.
  method CodeSpanEnds(line: string) returns (ends: map<nat, nat>)
    ensures ends == CodeEnds(line)
  {
    var runs := Runs(line, 0);
    var following: map<int, nat> := map[];
    ends := map[];
    var i: nat := |runs|;
    while i > 0
      invariant 0 <= i <= |runs| && ends == Ends(runs, i)
      invariant forall length :: length in following <==> Nearest(runs, i, length).Some?
      invariant forall length :: length in following ==> Nearest(runs, i, length) == Some(following[length])
    {
      i := i - 1;
      var length := runs[i].end - runs[i].start;
      if length in following {
        ends := ends[runs[i].start := following[length]];
      }
      following := following[length := runs[i].end];
    }
  }

  // ---- comments in one line ----

  function Find(line: string, mark: string, i: nat): Option<nat>
    requires i <= |line|
    ensures Find(line, mark, i).Some? ==> i <= Find(line, mark, i).value && Find(line, mark, i).value + |mark| <= |line|
    decreases |line| - i
  {
    if mark <= line[i..] then Some(i) else if i == |line| then None else Find(line, mark, i + 1)
  }

  function CommentStop(line: string, i: nat): (stop: nat)
    requires i < |line|
    ensures i < stop <= |line|
  {
    match Find(line, "-->", i)
    case Some(end) => end + 3
    case None => |line|
  }

  // A stretch of the line that is inside a comment, or outside.
  datatype Piece = Piece(start: nat, stop: nat, comment: bool)

  // The line read from left to right: comments, escapes, code spans and single characters.
  function Scan(line: string, i: nat, comment: bool): (r: (seq<Piece>, bool))
    decreases |line| - i, if comment then 0 else 1
  {
    if i >= |line| then ([], comment)
    else if comment then
      var stop := CommentStop(line, i);
      var rest := Scan(line, stop, Find(line, "-->", i).None?);
      ([Piece(i, stop, true)] + rest.0, rest.1)
    else if line[i] == '\\' then
      var rest := Scan(line, i + 2, false);
      ([Piece(i, if i + 2 <= |line| then i + 2 else |line|, false)] + rest.0, rest.1)
    else if i in CodeEnds(line) then
      CodeEndsInside(line, i);
      var rest := Scan(line, CodeEnds(line)[i], false);
      ([Piece(i, CodeEnds(line)[i], false)] + rest.0, rest.1)
    else if "<!--" <= line[i..] then Scan(line, i, true)
    else
      var rest := Scan(line, i + 1, false);
      ([Piece(i, i + 1, false)] + rest.0, rest.1)
  }

  predicate Newline(c: char) { c == '\r' || c == '\n' }

  predicate Within(pieces: seq<Piece>, k: nat) {
    exists j :: 0 <= j < |pieces| && pieces[j].comment && pieces[j].start <= k < pieces[j].stop
  }

  // Characters inside comments become blanks; newlines stay.
  function Mask(line: string, pieces: seq<Piece>): (r: string)
    ensures |r| == |line|
  {
    seq(|line|, k requires 0 <= k < |line| => if Within(pieces, k) && !Newline(line[k]) then ' ' else line[k])
  }

  // The pieces cover the line without gap or overlap.
  predicate Tiles(pieces: seq<Piece>, from: nat, length: nat) {
    && (forall k :: 0 <= k < |pieces| ==> pieces[k].start < pieces[k].stop <= length)
    && (forall k :: 0 < k < |pieces| ==> pieces[k - 1].stop == pieces[k].start)
    && (if pieces == [] then from >= length else pieces[0].start == from && pieces[|pieces| - 1].stop == length)
  }

  // A comment starts at its opening mark, unless it goes on from an earlier line, and
  // ends with the first closing mark, or with the line.
  predicate CommentPiece(line: string, p: Piece, continued: bool) {
    && p.start < |line| && p.stop == CommentStop(line, p.start)
    && (continued || "<!--" <= line[p.start..])
  }

  // One step of the scan.
  lemma ScanStep(line: string, i: nat, comment: bool)
    ensures i >= |line| ==> Scan(line, i, comment) == ([], comment)
    ensures i < |line| && comment ==>
      var rest := Scan(line, CommentStop(line, i), Find(line, "-->", i).None?);
      Scan(line, i, comment) == ([Piece(i, CommentStop(line, i), true)] + rest.0, rest.1)
    ensures i < |line| && !comment && line[i] == '\\' ==>
      var rest := Scan(line, i + 2, false);
      Scan(line, i, comment) == ([Piece(i, if i + 2 <= |line| then i + 2 else |line|, false)] + rest.0, rest.1)
    ensures i < |line| && !comment && line[i] != '\\' && i in CodeEnds(line) ==>
      i < CodeEnds(line)[i] <= |line| &&
      var rest := Scan(line, CodeEnds(line)[i], false);
      Scan(line, i, comment) == ([Piece(i, CodeEnds(line)[i], false)] + rest.0, rest.1)
    ensures i < |line| && !comment && line[i] != '\\' && i !in CodeEnds(line) && "<!--" <= line[i..] ==>
      Scan(line, i, comment) == Scan(line, i, true)
    ensures i < |line| && !comment && line[i] != '\\' && i !in CodeEnds(line) && !("<!--" <= line[i..]) ==>
      var rest := Scan(line, i + 1, false);
      Scan(line, i, comment) == ([Piece(i, i + 1, false)] + rest.0, rest.1)
  {
    if i in CodeEnds(line) {
      CodeEndsInside(line, i);
    }
    hide CodeEnds, Find, CommentStop;
  }

  lemma TileFirst(p: Piece, rest: seq<Piece>, length: nat)
    requires p.start < p.stop <= length && Tiles(rest, p.stop, length)
    ensures Tiles([p] + rest, p.start, length)
  {
  }

  lemma {:induction false} ScanTiles(line: string, i: nat, comment: bool)
    ensures Tiles(Scan(line, i, comment).0, i, |line|)
    decreases |line| - i, if comment then 0 else 1
  {
    hide CodeEnds, Find, CommentStop, Scan, Tiles;
    ScanStep(line, i, comment);
    if i >= |line| {
      NoTiles(i, |line|);
    } else if comment {
      ScanTiles(line, CommentStop(line, i), Find(line, "-->", i).None?);
      TileFirst(Piece(i, CommentStop(line, i), true), Scan(line, CommentStop(line, i), Find(line, "-->", i).None?).0, |line|);
    } else if line[i] == '\\' {
      if i + 2 <= |line| {
        ScanTiles(line, i + 2, false);
        TileFirst(Piece(i, i + 2, false), Scan(line, i + 2, false).0, |line|);
      } else {
        ScanStep(line, i + 2, false);
        NoTiles(|line|, |line|);
        TileFirst(Piece(i, |line|, false), [], |line|);
      }
    } else if i in CodeEnds(line) {
      ScanTiles(line, CodeEnds(line)[i], false);
      TileFirst(Piece(i, CodeEnds(line)[i], false), Scan(line, CodeEnds(line)[i], false).0, |line|);
    } else if "<!--" <= line[i..] {
      ScanTiles(line, i, true);
    } else {
      ScanTiles(line, i + 1, false);
      TileFirst(Piece(i, i + 1, false), Scan(line, i + 1, false).0, |line|);
    }
  }

  lemma NoTiles(from: nat, length: nat)
    requires from >= length
    ensures Tiles([], from, length)
  {
  }

  // Every comment piece is a comment: opened where it starts or on an earlier line,
  // and stopped by the first closing mark or the end of the line.
  lemma {:induction false} ScanComments(line: string, i: nat, comment: bool, k: nat)
    requires k < |Scan(line, i, comment).0| && Scan(line, i, comment).0[k].comment
    ensures CommentPiece(line, Scan(line, i, comment).0[k], comment && k == 0)
    decreases |line| - i, if comment then 0 else 1
  {
    hide CodeEnds, Find, CommentStop, Scan;
    ScanStep(line, i, comment);
    if i < |line| {
      if comment {
        if k > 0 {
          if Find(line, "-->", i).None? {
            StopsAtEnd(line, i);
            ScanStep(line, CommentStop(line, i), true);
          } else {
            ScanComments(line, CommentStop(line, i), false, k - 1);
          }
        }
      } else if line[i] == '\\' {
        ScanComments(line, i + 2, false, k - 1);
      } else if i in CodeEnds(line) {
        ScanComments(line, CodeEnds(line)[i], false, k - 1);
      } else if "<!--" <= line[i..] {
        ScanStep(line, i, true);
        ScanComments(line, i, true, k);
      } else {
        ScanComments(line, i + 1, false, k - 1);
      }
    }
  }

  lemma StopsAtEnd(line: string, i: nat)
    requires i < |line| && Find(line, "-->", i).None?
    ensures CommentStop(line, i) == |line|
  {
  }

  function MaskLine(line: string, comment: bool): (r: (string, bool))
    ensures |r.0| == |line|
  {
    (Mask(line, Scan(line, 0, comment).0), Scan(line, 0, comment).1)
  }

  // _release_comment_line, blanking the comments in place.
  method CommentLine(line: string, comment0: bool) returns (masked: string, comment: bool)
    ensures (masked, comment) == MaskLine(line, comment0)
  {
    hide CodeEnds, Find, CommentStop, Scan, Mask;
    var visible := new char[|line|](k requires 0 <= k < |line| => line[k]);
    assert visible[..] == line;
    var codeEnds := CodeSpanEnds(line);
    var position := 0;
    comment := comment0;
    ghost var done: seq<Piece> := [];
    NoPieces(line);
    assert [] + Scan(line, 0, comment0).0 == Scan(line, 0, comment0).0;
    while position < |line|
      invariant visible.Length == |line| && visible[..] == Mask(line, done)
      invariant Scan(line, 0, comment0).0 == done + Scan(line, position, comment).0
      invariant Scan(line, 0, comment0).1 == Scan(line, position, comment).1
      decreases |line| - position, if comment then 0 else 1
    {
      ScanStep(line, position, comment);
      if !comment && line[position] != '\\' && position !in codeEnds && "<!--" <= line[position..] {
        comment := true;
      } else {
        var stop := if comment then CommentStop(line, position)
                    else if line[position] == '\\' then position + 2
                    else if position in codeEnds then codeEnds[position]
                    else position + 1;
        ghost var piece := Piece(position, if stop <= |line| then stop else |line|, comment);
        ghost var tail := Scan(line, stop, comment && Find(line, "-->", position).None?).0;
        assert done + ([piece] + tail) == done + [piece] + tail;
        if comment {
          ghost var before := visible[..];
          Blank(visible, position, stop);
          Masked(line, done, position, stop, before, visible[..]);
        } else {
          Unmasked(line, done, piece);
        }
        done := done + [piece];
        comment := comment && Find(line, "-->", position).None?;
        position := stop;
      }
    }
    ScanStep(line, position, comment);
    masked := visible[..];
    assert done + [] == done;
  }

  lemma NoPieces(line: string)
    ensures Mask(line, []) == line
  {
  }

  method Blank(visible: array<char>, start: nat, stop: nat)
    requires start <= stop <= visible.Length
    modifies visible
    ensures forall k :: 0 <= k < visible.Length ==>
      visible[k] == if start <= k < stop && !Newline(old(visible[k])) then ' ' else old(visible[k])
  {
    var k := start;
    while k < stop
      invariant start <= k <= stop
      invariant forall j :: 0 <= j < visible.Length ==>
        visible[j] == if start <= j < k && !Newline(old(visible[j])) then ' ' else old(visible[j])
    {
      if !Newline(visible[k]) {
        visible[k] := ' ';
      }
      k := k + 1;
    }
  }

  lemma WithinAppend(pieces: seq<Piece>, p: Piece, k: nat)
    ensures Within(pieces + [p], k) <==> Within(pieces, k) || (p.comment && p.start <= k < p.stop)
  {
    var more := pieces + [p];
    if Within(pieces, k) {
      var j :| 0 <= j < |pieces| && pieces[j].comment && pieces[j].start <= k < pieces[j].stop;
      assert more[j] == pieces[j];
    }
    if p.comment && p.start <= k < p.stop {
      assert more[|pieces|] == p;
    }
  }

  lemma Masked(line: string, done: seq<Piece>, start: nat, stop: nat, before: string, after: string)
    requires before == Mask(line, done) && |after| == |line|
    requires forall k :: 0 <= k < |line| ==> after[k] == if start <= k < stop && !Newline(before[k]) then ' ' else before[k]
    ensures after == Mask(line, done + [Piece(start, stop, true)])
  {
    forall k | 0 <= k < |line| ensures after[k] == Mask(line, done + [Piece(start, stop, true)])[k] {
      WithinAppend(done, Piece(start, stop, true), k);
    }
  }

  lemma Unmasked(line: string, done: seq<Piece>, p: Piece)
    requires !p.comment
    ensures Mask(line, done + [p]) == Mask(line, done)
  {
    forall k | 0 <= k < |line| ensures Mask(line, done + [p])[k] == Mask(line, done)[k] {
      WithinAppend(done, p, k);
    }
  }

  // Masking keeps the length and every newline, and changes nothing outside comments.
  lemma MaskKeeps(line: string, comment: bool, k: nat)
    requires k < |line|
    ensures var masked := MaskLine(line, comment).0; var pieces := Scan(line, 0, comment).0;
      && (masked[k] != line[k] ==> masked[k] == ' ' && Within(pieces, k) && !Newline(line[k]))
      && (Newline(line[k]) <==> Newline(masked[k]))
      && (!Within(pieces, k) ==> masked[k] == line[k])
  {
  }
}

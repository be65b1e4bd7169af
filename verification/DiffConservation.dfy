/** What acceptance by the parser says about any input at all: the declared counts of every hunk are
    kept, and the recorded numbers are exactly those of the added lines, by position. */
module DiffConservation {
  import opened Text
  import opened Records
  import opened UnifiedDiff

  // ---------------------------------------------------------------- reading positions, not states

  predicate Marked(line: string, marker: char) {
    line != "" && line[0] == marker
  }

  /** How many of the lines carry one of two markers. */
  function Count(lines: seq<string>, a: char, b: char): nat {
    if lines == [] then 0
    else Count(lines[..|lines| - 1], a, b) + if Marked(lines[|lines| - 1], a) || Marked(lines[|lines| - 1], b) then 1 else 0
  }

  predicate Boundary(line: string) {
    StartsWith(line, FILE_MARK) || StartsWith(line, HUNK_MARK)
  }

  /** The header of the hunk that is open after these lines. */
  function OpenHunk(lines: seq<string>): (i: Option<nat>)
    ensures i.Some? ==> i.value < |lines| && StartsWith(lines[i.value], HUNK_MARK)
  {
    if lines == [] then None
    else if StartsWith(lines[|lines| - 1], FILE_MARK) then None
    else if StartsWith(lines[|lines| - 1], HUNK_MARK) then Some(|lines| - 1)
    else OpenHunk(lines[..|lines| - 1])
  }

  /** The right-side path in force after these lines: the last `+++ ` line outside a hunk since the last
      `diff --git ` line. */
  function PathInForce(lines: seq<string>): Option<string> {
    if lines == [] then None
    else
      var init, last := lines[..|lines| - 1], lines[|lines| - 1];
      if StartsWith(last, FILE_MARK) then None
      else if OpenHunk(init).None? && StartsWith(last, PATH_MARK) && RightSidePath(last[4..]).Ok? then
        Some(RightSidePath(last[4..]).value)
      else PathInForce(init)
  }

  /** After the lines `before`, this one is an added line of `path`, and `n` is its number in the new file by
      its hunk's header. */
  predicate AddedAfter(before: seq<string>, line: string, path: string, n: int) {
    && Marked(line, '+') && PathInForce(before) == Some(path) && OpenHunk(before).Some?
    && var i := OpenHunk(before).value;
       MatchHeader(before[i]).Some? && n == MatchHeader(before[i]).value.newStart + Count(before[i + 1..], ' ', '+')
  }

  predicate AddedAt(lines: seq<string>, k: nat, path: string, n: int) {
    k < |lines| && AddedAfter(lines[..k], lines[k], path, n)
  }

  // ---------------------------------------------------------------- the parser's state, by position

  ghost predicate Describes(st: State, lines: seq<string>) {
    && st.path == PathInForce(lines)
    && st.inHunk == OpenHunk(lines).Some?
    && (st.inHunk ==>
          var i := OpenHunk(lines).value;
          && MatchHeader(lines[i]).Some?
          && var h := MatchHeader(lines[i]).value;
             && st.oldRemaining == h.oldCount - Count(lines[i + 1..], ' ', '-') >= 0
             && st.newRemaining == h.newCount - Count(lines[i + 1..], ' ', '+') >= 0
             && st.newLine == h.newStart + Count(lines[i + 1..], ' ', '+'))
  }

  lemma CountSnoc(lines: seq<string>, line: string, a: char, b: char)
    ensures Count(lines + [line], a, b) == Count(lines, a, b) + if Marked(line, a) || Marked(line, b) then 1 else 0
  {
    assert (lines + [line])[..|lines|] == lines;
  }

  lemma OpenSnoc(lines: seq<string>, line: string)
    ensures OpenHunk(lines + [line]) ==
            if StartsWith(line, FILE_MARK) then None
            else if StartsWith(line, HUNK_MARK) then Some(|lines|)
            else OpenHunk(lines)
    ensures PathInForce(lines + [line]) ==
            if StartsWith(line, FILE_MARK) then None
            else if OpenHunk(lines).None? && StartsWith(line, PATH_MARK) && RightSidePath(line[4..]).Ok? then
              Some(RightSidePath(line[4..]).value)
            else PathInForce(lines)
  {
    assert (lines + [line])[..|lines|] == lines;
  }

  lemma MarksDiffer(line: string)
    ensures StartsWith(line, FILE_MARK) ==> Marked(line, 'd')
    ensures StartsWith(line, HUNK_MARK) ==> Marked(line, '@')
    ensures StartsWith(line, PATH_MARK) ==> Marked(line, '+')
    ensures StartsWith(line, NO_NEWLINE) ==> Marked(line, '\\')
  {
    assert FILE_MARK[0] == 'd' && HUNK_MARK[0] == '@' && PATH_MARK[0] == '+' && NO_NEWLINE[0] == '\\';
  }

  lemma DescribesNext(st: State, lines: seq<string>, line: string)
    requires Describes(st, lines) && ParseLine(st, line).Ok?
    ensures Describes(ParseLine(st, line).value, lines + [line])
  {
    OpenSnoc(lines, line);
    MarksDiffer(line);
    var all := lines + [line];
    hide StartsWith, OpenHunk, PathInForce, MatchHeader, RightSidePath, Count;
    if !StartsWith(line, FILE_MARK) && StartsWith(line, HUNK_MARK) {
      assert all[|lines| + 1..] == [];
      NoCount(' ', '-');
      NoCount(' ', '+');
    } else if !StartsWith(line, FILE_MARK) && st.inHunk {
      var i := OpenHunk(lines).value;
      assert all[i] == lines[i] && all[i + 1..] == lines[i + 1..] + [line];
      CountSnoc(lines[i + 1..], line, ' ', '-');
      CountSnoc(lines[i + 1..], line, ' ', '+');
    }
  }

  lemma NoCount(a: char, b: char)
    ensures Count([], a, b) == 0
  {
  }

  lemma {:induction false} Described(lines: seq<string>)
    requires ParseFrom(INITIAL, lines).Ok?
    ensures Describes(ParseFrom(INITIAL, lines).value, lines)
  {
    if lines != [] {
      var init, last := lines[..|lines| - 1], lines[|lines| - 1];
      Described(init);
      DescribesNext(ParseFrom(INITIAL, init).value, init, last);
      assert init + [last] == lines;
    }
  }

  /** An accepted input is accepted up to every line. */
  lemma Prefix(lines: seq<string>, k: nat)
    requires k <= |lines| && ParseFrom(INITIAL, lines).Ok?
    ensures ParseFrom(INITIAL, lines[..k]).Ok?
    ensures k < |lines| ==> ParseLine(ParseFrom(INITIAL, lines[..k]).value, lines[k]).Ok?
  {
    hide ParseLine;
    if ParseFrom(INITIAL, lines[..k]).Err? {
      ParseStops(INITIAL, lines, k);
    }
    if k < |lines| {
      assert lines[..k + 1][..k] == lines[..k];
      if ParseFrom(INITIAL, lines[..k + 1]).Err? {
        ParseStops(INITIAL, lines, k + 1);
      }
    }
  }

  // ---------------------------------------------------------------- every hunk keeps its counts

  /** `end` is where the hunk that opens at line `i` ends: the next boundary, or the end of the input. */
  predicate HunkEnds(lines: seq<string>, i: nat, end: nat) {
    && i < end <= |lines| && StartsWith(lines[i], HUNK_MARK)
    && (forall k :: i < k < end ==> !Boundary(lines[k]))
    && (end < |lines| ==> Boundary(lines[end]))
  }

  lemma {:induction false} OpenInside(lines: seq<string>, i: nat, k: nat)
    requires i < k <= |lines| && StartsWith(lines[i], HUNK_MARK) && forall j :: i < j < k ==> !Boundary(lines[j])
    ensures OpenHunk(lines[..k]) == Some(i)
    decreases k
  {
    assert lines[..k][..k - 1] == lines[..k - 1];
    if k == i + 1 {
      MarksDiffer(lines[i]);
    } else {
      OpenInside(lines, i, k - 1);
    }
  }

  predicate Tagged(line: string) {
    Marked(line, ' ') || Marked(line, '-') || Marked(line, '+') || StartsWith(line, NO_NEWLINE)
  }

  lemma BodyTagged(st: State, line: string)
    requires st.inHunk && ParseLine(st, line).Ok? && !Boundary(line)
    ensures Tagged(line)
  {
    hide StartsWith, RightSidePath, MatchHeader;
  }

  lemma BoundaryFinishes(st: State, line: string)
    requires Boundary(line) && ParseLine(st, line).Ok?
    ensures FinishHunk(st).Ok?
  {
    MarksDiffer(line);
    hide StartsWith, RightSidePath, MatchHeader;
  }

  /** At a hunk's end both of its counts are used up. */
  lemma HunkUsedUp(lines: seq<string>, i: nat, end: nat)
    requires Parse(lines).Ok? && HunkEnds(lines, i, end)
    ensures MatchHeader(lines[i]).Some?
    ensures var h, body := MatchHeader(lines[i]).value, lines[i + 1..end];
            Count(body, ' ', '-') == h.oldCount && Count(body, ' ', '+') == h.newCount
  {
    hide StartsWith, RightSidePath, MatchHeader, Count, ParseFrom, ParseLine, OpenHunk, PathInForce;
    Prefix(lines, end);
    Described(lines[..end]);
    OpenInside(lines, i, end);
    assert lines[..end][i + 1..] == lines[i + 1..end];
    assert lines[..end][i] == lines[i];
    if end < |lines| {
      BoundaryFinishes(ParseFrom(INITIAL, lines[..end]).value, lines[end]);
    } else {
      assert lines[..end] == lines;
    }
  }

  lemma InsideTagged(lines: seq<string>, i: nat, end: nat, k: nat)
    requires Parse(lines).Ok? && HunkEnds(lines, i, end) && i < k < end
    ensures Tagged(lines[k])
  {
    hide StartsWith, RightSidePath, MatchHeader, Count, ParseFrom, ParseLine, OpenHunk, PathInForce, Boundary;
    Prefix(lines, k);
    Described(lines[..k]);
    OpenInside(lines, i, k);
    BodyTagged(ParseFrom(INITIAL, lines[..k]).value, lines[k]);
  }

  /** Hunk conservation: in an accepted input every hunk has exactly the old and new lines its header
      declares, every body line is tagged, and so additions minus deletions is new count minus old count. */
  lemma HunkConservation(lines: seq<string>, i: nat, end: nat)
    requires Parse(lines).Ok? && HunkEnds(lines, i, end)
    ensures MatchHeader(lines[i]).Some?
    ensures var h, body := MatchHeader(lines[i]).value, lines[i + 1..end];
            && Count(body, ' ', '-') == h.oldCount && Count(body, ' ', '+') == h.newCount
            && Count(body, '+', '+') - Count(body, '-', '-') == h.newCount - h.oldCount
    ensures forall k :: i < k < end ==> Tagged(lines[k])
  {
    hide MatchHeader, Count, Parse, HunkEnds, Tagged;
    HunkUsedUp(lines, i, end);
    EndsInside(lines, i, end);
    CountSplits(lines[i + 1..end]);
    forall k | i < k < end ensures Tagged(lines[k]) {
      InsideTagged(lines, i, end, k);
    }
  }

  lemma EndsInside(lines: seq<string>, i: nat, end: nat)
    requires HunkEnds(lines, i, end)
    ensures i < end <= |lines|
  {
  }

  lemma {:induction false} CountSplits(body: seq<string>)
    ensures Count(body, ' ', '-') == Count(body, ' ', ' ') + Count(body, '-', '-')
    ensures Count(body, ' ', '+') == Count(body, ' ', ' ') + Count(body, '+', '+')
  {
    if body != [] {
      CountSplits(body[..|body| - 1]);
    }
  }

  // ---------------------------------------------------------------- the numbers, by position

  ghost predicate NumberedAt(lines: seq<string>, path: string, n: int) {
    exists k: nat :: AddedAt(lines, k, path, n)
  }

  lemma NumberedSnoc(lines: seq<string>, line: string, path: string, n: int)
    ensures NumberedAt(lines + [line], path, n) <==> NumberedAt(lines, path, n) || AddedAt(lines + [line], |lines|, path, n)
  {
    var all := lines + [line];
    forall k: nat | k < |lines| ensures AddedAt(all, k, path, n) <==> AddedAt(lines, k, path, n) {
      AddedInPrefix(lines, line, k, path, n);
    }
    hide AddedAt;
    if NumberedAt(lines, path, n) {
      var k: nat :| AddedAt(lines, k, path, n);
      AddedInside(lines, k, path, n);
      assert AddedAt(all, k, path, n);
    }
    if NumberedAt(all, path, n) {
      var k: nat :| AddedAt(all, k, path, n);
      AddedInside(all, k, path, n);
    }
  }

  lemma AddedInside(lines: seq<string>, k: nat, path: string, n: int)
    requires AddedAt(lines, k, path, n)
    ensures k < |lines|
  {
  }

  lemma AddedInPrefix(lines: seq<string>, line: string, k: nat, path: string, n: int)
    requires k < |lines|
    ensures AddedAt(lines + [line], k, path, n) <==> AddedAt(lines, k, path, n)
  {
    hide AddedAfter;
    assert (lines + [line])[..k] == lines[..k];
  }

  predicate Recorded(added: AddedLines, path: string, n: nat) {
    path in added && n in added[path]
  }

  lemma RecordedNext(st: State, lines: seq<string>, line: string, path: string, n: nat)
    requires Describes(st, lines) && ParseLine(st, line).Ok?
    ensures Recorded(ParseLine(st, line).value.added, path, n) <==>
              Recorded(st.added, path, n) || AddedAt(lines + [line], |lines|, path, n)
  {
    MarksDiffer(line);
    AddedLast(lines, line, path, n);
    hide StartsWith, OpenHunk, PathInForce, MatchHeader, RightSidePath, Count, AddedAt;
    if st.inHunk && Marked(line, '+') {
      RecordStep(st, line, path, n);
    } else {
      SameRecords(st, line, path, n);
    }
  }

  lemma AddedLast(lines: seq<string>, line: string, path: string, n: int)
    ensures AddedAt(lines + [line], |lines|, path, n) <==> AddedAfter(lines, line, path, n)
  {
    hide AddedAfter;
    assert (lines + [line])[..|lines|] == lines;
  }

  lemma RecordStep(st: State, line: string, path: string, n: nat)
    requires st.inHunk && Marked(line, '+') && ParseLine(st, line).Ok?
    ensures Recorded(ParseLine(st, line).value.added, path, n) <==>
              Recorded(st.added, path, n) || (st.path == Some(path) && n == st.newLine)
  {
    MarksDiffer(line);
    hide StartsWith, MatchHeader, RightSidePath;
  }

  lemma SameRecords(st: State, line: string, path: string, n: nat)
    requires !(st.inHunk && Marked(line, '+')) && ParseLine(st, line).Ok?
    ensures Recorded(ParseLine(st, line).value.added, path, n) <==> Recorded(st.added, path, n)
  {
    MarksDiffer(line);
    hide StartsWith, MatchHeader, RightSidePath;
  }

  lemma {:induction false} RecordedByPosition(lines: seq<string>, path: string, n: nat)
    requires ParseFrom(INITIAL, lines).Ok?
    ensures Recorded(ParseFrom(INITIAL, lines).value.added, path, n) <==> NumberedAt(lines, path, n)
  {
    if lines == [] {
    } else {
      var init, last := lines[..|lines| - 1], lines[|lines| - 1];
      RecordedByPosition(init, path, n);
      Described(init);
      hide AddedAt;
      RecordedNext(ParseFrom(INITIAL, init).value, init, last, path, n);
      NumberedSnoc(init, last, path, n);
      assert init + [last] == lines;
    }
  }

  lemma {:induction false} FindEnd(lines: seq<string>, i: nat, k: nat) returns (end: nat)
    requires i < k <= |lines| && StartsWith(lines[i], HUNK_MARK) && forall j :: i < j < k ==> !Boundary(lines[j])
    ensures k <= end && HunkEnds(lines, i, end)
    decreases |lines| - k
  {
    if k == |lines| || Boundary(lines[k]) {
      end := k;
    } else {
      end := FindEnd(lines, i, k + 1);
    }
  }

  lemma {:induction false} NoBoundarySince(lines: seq<string>)
    requires OpenHunk(lines).Some?
    ensures forall j :: OpenHunk(lines).value < j < |lines| ==> !Boundary(lines[j])
  {
    if !StartsWith(lines[|lines| - 1], HUNK_MARK) {
      NoBoundarySince(lines[..|lines| - 1]);
    }
  }

  lemma {:induction false} CountPrefix(lines: seq<string>, k: nat, a: char, b: char)
    requires k < |lines| && (Marked(lines[k], a) || Marked(lines[k], b))
    ensures Count(lines[..k], a, b) < Count(lines, a, b)
  {
    if k + 1 == |lines| {
      assert lines[..|lines| - 1] == lines[..k];
    } else {
      CountPrefix(lines[..|lines| - 1], k, a, b);
      assert lines[..|lines| - 1][..k] == lines[..k];
    }
  }

  /** In an accepted input the recorded numbers of a path are exactly the numbers that its added lines have by
      position. */
  lemma NumbersAreAddedLines(lines: seq<string>, path: string, n: nat)
    requires Parse(lines).Ok?
    ensures Recorded(Parse(lines).value, path, n) <==> NumberedAt(lines, path, n)
  {
    RecordedByPosition(lines, path, n);
  }

  /** Every finding is on a line that the diff adds. */
  ghost predicate OnAddedLines(diff: string, findings: seq<Finding>) {
    forall i :: 0 <= i < |findings| ==> findings[i].line >= 0 && NumberedAt(SplitLines(diff), findings[i].path, findings[i].line)
  }

  /** A review fits an accepted diff exactly when every finding is on an added line. */
  lemma ValidExactly(diff: string, findings: seq<Finding>)
    requires Parse(SplitLines(diff)).Ok?
    ensures ValidResult(Parse(SplitLines(diff)).value, findings) <==> OnAddedLines(diff, findings)
  {
    var lines := SplitLines(diff);
    forall i | 0 <= i < |findings|
      ensures OnAddedLine(Parse(lines).value, findings[i]) <==>
              findings[i].line >= 0 && NumberedAt(lines, findings[i].path, findings[i].line)
    {
      if findings[i].line >= 0 {
        NumbersAreAddedLines(lines, findings[i].path, findings[i].line);
      }
      hide Parse, SplitLines, NumberedAt;
    }
    hide Parse, SplitLines, NumberedAt, OnAddedLine;
  }

  /** Each of them lies in the new range that its hunk declares. */
  lemma NumbersInRange(lines: seq<string>, k: nat, path: string, n: int)
    requires Parse(lines).Ok?
    ensures AddedAt(lines, k, path, n) ==>
              var h := MatchHeader(lines[OpenHunk(lines[..k]).value]).value;
              h.newStart <= n < h.newStart + h.newCount
  {
    hide MatchHeader, Count, Parse, OpenHunk, StartsWith, PathInForce;
    if AddedAt(lines, k, path, n) {
      var before := lines[..k];
      var i := OpenHunk(before).value;
      NoBoundarySince(before);
      assert forall j :: i < j < k ==> lines[j] == before[j];
      assert before[i] == lines[i] && before[i + 1..] == lines[i + 1..k];
      MarksDiffer(lines[k]);
      var end := FindEnd(lines, i, k + 1);
      HunkConservation(lines, i, end);
      var body := lines[i + 1..end];
      assert body[k - i - 1] == lines[k];
      assert body[..k - i - 1] == lines[i + 1..k];
      CountPrefix(body, k - i - 1, ' ', '+');
    }
  }

  // ---------------------------------------------------------------- what is accepted

  /** The old and new lines that the open hunk still has to come. */
  ghost predicate Room(before: seq<string>, marker: char) {
    && OpenHunk(before).Some?
    && var i := OpenHunk(before).value;
       && MatchHeader(before[i]).Some?
       && var h := MatchHeader(before[i]).value;
          && (marker != '+' ==> Count(before[i + 1..], ' ', '-') < h.oldCount)
          && (marker != '-' ==> Count(before[i + 1..], ' ', '+') < h.newCount)
  }

  /** The open hunk, if there is one, has all its lines. */
  ghost predicate Full(before: seq<string>) {
    OpenHunk(before).Some? ==>
      var i := OpenHunk(before).value;
      && MatchHeader(before[i]).Some?
      && var h := MatchHeader(before[i]).value;
         Count(before[i + 1..], ' ', '-') == h.oldCount && Count(before[i + 1..], ' ', '+') == h.newCount
  }

  /** The line may follow these lines. */
  ghost predicate Fits(before: seq<string>, line: string) {
    if "diff --git " <= line then Full(before)
    else if OpenHunk(before).None? && "+++ " <= line then RightSidePath(line[4..]).Ok?
    else if "@@ " <= line then Full(before) && PathInForce(before).Some? && MatchHeader(line).Some?
    else if OpenHunk(before).None? then true
    else
      || "\\ No newline at end of file" <= line
      || (line != "" && (line[0] == ' ' || line[0] == '-' || line[0] == '+') && Room(before, line[0]))
  }

  lemma HunkHasPath(st: State, lines: seq<string>)
    requires ParseFrom(INITIAL, lines) == Ok(st) && st.inHunk
    ensures st.path.Some?
    decreases |lines|
  {
    if lines != [] {
      var before := ParseFrom(INITIAL, lines[..|lines| - 1]).value;
      if before.inHunk {
        HunkHasPath(before, lines[..|lines| - 1]);
      }
      MarksDiffer(lines[|lines| - 1]);
    }
    hide RightSidePath, MatchHeader, StartsWith;
  }

  lemma BodyFits(st: State, lines: seq<string>, line: string)
    requires Describes(st, lines) && st.inHunk && st.path.Some?
    requires !("diff --git " <= line) && !("@@ " <= line)
    ensures BodyLine(st, line).Ok? <==> Fits(lines, line)
  {
    MarksDiffer(line);
    hide OpenHunk, PathInForce, MatchHeader, RightSidePath, Count;
  }

  lemma LineFits(st: State, lines: seq<string>, line: string)
    requires Describes(st, lines) && (st.inHunk ==> st.path.Some?)
    ensures ParseLine(st, line).Ok? <==> Fits(lines, line)
  {
    MarksDiffer(line);
    if st.inHunk && !("diff --git " <= line) && !("@@ " <= line) {
      BodyFits(st, lines, line);
    }
    hide OpenHunk, PathInForce, MatchHeader, RightSidePath, Count, BodyLine, Room;
  }

  /** Every line may follow the lines before it. */
  ghost predicate AllFit(lines: seq<string>) {
    forall k :: 0 <= k < |lines| ==> Fits(lines[..k], lines[k])
  }

  lemma AllFitSnoc(lines: seq<string>, line: string)
    ensures AllFit(lines + [line]) <==> AllFit(lines) && Fits(lines, line)
  {
    hide Fits;
    var all := lines + [line];
    assert all[..|lines|] == lines && all[|lines|] == line;
    forall k | 0 <= k < |lines| ensures Fits(all[..k], all[k]) <==> Fits(lines[..k], lines[k]) {
      assert all[..k] == lines[..k];
    }
    if AllFit(all) {
      forall k | 0 <= k < |lines| ensures Fits(lines[..k], lines[k]) {
        assert Fits(all[..k], all[k]);
      }
    }
  }

  lemma ParsedFits(lines: seq<string>, line: string)
    requires ParseFrom(INITIAL, lines).Ok?
    ensures ParseLine(ParseFrom(INITIAL, lines).value, line).Ok? <==> Fits(lines, line)
  {
    var st := ParseFrom(INITIAL, lines).value;
    Described(lines);
    if st.inHunk { HunkHasPath(st, lines); }
    LineFits(st, lines, line);
    hide Fits, ParseLine, ParseFrom;
  }

  lemma {:induction false} PrefixFits(lines: seq<string>)
    ensures ParseFrom(INITIAL, lines).Ok? <==> AllFit(lines)
  {
    if lines != [] {
      var init, last := lines[..|lines| - 1], lines[|lines| - 1];
      assert lines == init + [last];
      hide *;
      PrefixFits(init);
      AllFitSnoc(init, last);
      ParseSnoc(INITIAL, init, last);
      if ParseFrom(INITIAL, init).Ok? {
        ParsedFits(init, last);
      }
    }
  }

  /** The parser accepts exactly the inputs each of whose lines may follow the lines before it, and whose last hunk has
      all its lines. */
  lemma AcceptsExactly(lines: seq<string>)
    ensures Parse(lines).Ok? <==> AllFit(lines) && Full(lines)
  {
    hide AllFit, OpenHunk, MatchHeader, Count, PathInForce, ParseFrom;
    PrefixFits(lines);
    if ParseFrom(INITIAL, lines).Ok? {
      Described(lines);
    }
  }
}

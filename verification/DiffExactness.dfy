/** The parser is exact on well-formed diffs. */
module DiffExactness {
  import opened Text
  import opened UnifiedDiff
  import opened DiffSemantics

  // ---------------------------------------------------------------- hunk headers

  lemma {:induction false} DigitRunStops(digits: string, rest: string)
    requires AllDigits(digits) && (rest == "" || !IsDigit(rest[0]))
    ensures DigitRun(digits + rest) == |digits|
  {
    if digits == "" {
      assert digits + rest == rest;
    } else {
      assert (digits + rest)[1..] == digits[1..] + rest;
      DigitRunStops(digits[1..], rest);
    }
  }

  lemma TakeDecimal(n: nat, rest: string)
    requires rest == "" || !IsDigit(rest[0])
    ensures TakeNumber(Decimal(n) + rest) == Some((n, rest))
  {
    var s := Decimal(n) + rest;
    DigitRunStops(Decimal(n), rest);
    assert s[..|Decimal(n)|] == Decimal(n) && s[|Decimal(n)|..] == rest;
    DecimalRoundTrip(n);
  }

  lemma TakeRangeText(start: nat, count: nat, short: bool, rest: string)
    requires rest != "" && rest[0] == ' '
    ensures TakeRange(RangeText(start, count, short) + rest) == Some((start, count, rest))
  {
    hide TakeNumber, Decimal;
    if short && count == 1 {
      TakeDecimal(start, rest);
      assert RangeText(start, count, short) + rest == Decimal(start) + rest;
    } else {
      var tail := "," + Decimal(count) + rest;
      TakeDecimal(start, tail);
      assert RangeText(start, count, short) + rest == Decimal(start) + tail;
      assert tail[1..] == Decimal(count) + rest;
      TakeDecimal(count, rest);
    }
  }

  lemma MatchPieces(line: string, oldText: string, newText: string, close: string, h: Header)
    requires line == "@@ -" + oldText
    requires TakeRange(oldText) == Some((h.oldStart, h.oldCount, " +" + newText))
    requires TakeRange(newText) == Some((h.newStart, h.newCount, close))
    requires close == " @@" || StartsWith(close, " @@ ")
    ensures MatchHeader(line) == Some(h)
  {
    hide TakeRange;
    assert line[4..] == oldText;
    assert (" +" + newText)[2..] == newText;
  }

  lemma HunkMarked(line: string, rest: string)
    requires line == "@@ -" + rest
    ensures StartsWith(line, HUNK_MARK) && !StartsWith(line, FILE_MARK) && !StartsWith(line, PATH_MARK)
  {
    assert line[0] == '@' && FILE_MARK[0] == 'd' && PATH_MARK[0] == '+';
  }

  lemma HeaderRoundTrip(h: Hunk)
    ensures MatchHeader(HeaderText(h)) == Some(Header(h.oldStart, OldLines(h.body), h.newStart, NewLines(h.body)))
    ensures StartsWith(HeaderText(h), HUNK_MARK) && !StartsWith(HeaderText(h), FILE_MARK) && !StartsWith(HeaderText(h), PATH_MARK)
  {
    hide TakeRange, RangeText, MatchHeader, OldLines, NewLines;
    var line := HeaderText(h);
    var close := " @@" + if h.heading.None? then "" else " " + h.heading.value;
    var newText := RangeText(h.newStart, NewLines(h.body), h.shortNew) + close;
    var oldText := RangeText(h.oldStart, OldLines(h.body), h.shortOld) + (" +" + newText);
    assert line == "@@ -" + oldText;
    TakeRangeText(h.oldStart, OldLines(h.body), h.shortOld, " +" + newText);
    TakeRangeText(h.newStart, NewLines(h.body), h.shortNew, close);
    assert h.heading.None? ==> close == " @@";
    assert h.heading.Some? ==> close == " @@ " + h.heading.value;
    MatchPieces(line, oldText, newText, close, Header(h.oldStart, OldLines(h.body), h.newStart, NewLines(h.body)));
    HunkMarked(line, oldText);
  }

  // ---------------------------------------------------------------- hunk bodies

  /** The numbers the parser gives the added lines of a body that starts at new line `n`. */
  function AddedNumbers(body: seq<DiffLine>, n: nat): set<nat> {
    if body == [] then {}
    else
      var init, last := body[..|body| - 1], body[|body| - 1];
      AddedNumbers(init, n) + if last.Line? && last.tag == Addition then {n + NewLines(init)} else {}
  }

  function AddTo(added: AddedLines, path: string, lines: set<nat>): AddedLines {
    added[path := (if path in added then added[path] else {}) + lines]
  }

  lemma LineKind(l: DiffLine, st: State)
    requires st.inHunk
    ensures ParseLine(st, LineText(l)) == BodyLine(st, LineText(l))
    ensures StartsWith(LineText(l), NO_NEWLINE) <==> l.NoNewlineMark?
  {
    var line := LineText(l);
    assert FILE_MARK[0] == 'd' && HUNK_MARK[0] == '@' && NO_NEWLINE[0] == '\\';
    assert line[0] != 'd' && line[0] != '@';
  }

  lemma AddNothing(added: AddedLines, p: string, lines: set<nat>)
    requires p in added && lines <= added[p]
    ensures AddTo(added, p, lines) == added
  {
    assert added[p] + lines == added[p];
  }

  lemma AddToTwice(added: AddedLines, p: string, a: set<nat>, b: set<nat>)
    ensures AddTo(AddTo(added, p, a), p, b) == AddTo(added, p, a + b)
  {
    var all := if p in added then added[p] else {};
    assert all + a + b == all + (a + b);
  }

  /** One body line moves the counts and the line number by what its tag says. */
  lemma BodyLineParses(st: State, p: string, l: DiffLine)
    requires st.inHunk && st.path == Some(p) && p in st.added
    requires OldLines([l]) <= st.oldRemaining && NewLines([l]) <= st.newRemaining
    ensures ParseLine(st, LineText(l)) ==
            Ok(st.(added := AddTo(st.added, p, if l.Line? && l.tag == Addition then {st.newLine} else {}),
                   oldRemaining := st.oldRemaining - OldLines([l]), newRemaining := st.newRemaining - NewLines([l]),
                   newLine := st.newLine + NewLines([l])))
  {
    assert [l][..0] == [];
    LineKind(l, st);
    hide ParseLine, StartsWith;
    AddNothing(st.added, p, {});
  }

  lemma CountsSnoc(body: seq<DiffLine>)
    requires body != []
    ensures var init, last := body[..|body| - 1], [body[|body| - 1]];
            OldLines(body) == OldLines(init) + OldLines(last) && NewLines(body) == NewLines(init) + NewLines(last)
  {
    assert [body[|body| - 1]][..0] == [];
  }

  /** Where the parser stands after a body read with room for `oldCount` and `newCount` lines. */
  function BodyState(added: AddedLines, p: string, oldCount: nat, newCount: nat, n: nat, body: seq<DiffLine>): State {
    State(AddTo(added, p, AddedNumbers(body, n)), Some(p), oldCount - OldLines(body), newCount - NewLines(body),
          n + NewLines(body), true)
  }

  lemma BodySnoc(init: seq<DiffLine>, l: DiffLine, n: nat)
    ensures OldLines(init + [l]) == OldLines(init) + OldLines([l]) && NewLines(init + [l]) == NewLines(init) + NewLines([l])
    ensures AddedNumbers(init + [l], n)
            == AddedNumbers(init, n) + if l.Line? && l.tag == Addition then {n + NewLines(init)} else {}
  {
    assert (init + [l])[..|init|] == init;
    assert [l][..0] == [];
  }

  lemma BodyStep(added: AddedLines, p: string, oldCount: nat, newCount: nat, n: nat, init: seq<DiffLine>, l: DiffLine)
    requires OldLines(init + [l]) <= oldCount && NewLines(init + [l]) <= newCount
    ensures ParseLine(BodyState(added, p, oldCount, newCount, n, init), LineText(l))
            == Ok(BodyState(added, p, oldCount, newCount, n, init + [l]))
  {
    BodySnoc(init, l, n);
    hide ParseLine, LineText, OldLines, NewLines, AddedNumbers, AddTo;
    KeepsPath(added, p, AddedNumbers(init, n));
    BodyLineParses(BodyState(added, p, oldCount, newCount, n, init), p, l);
    AddToTwice(added, p, AddedNumbers(init, n), if l.Line? && l.tag == Addition then {n + NewLines(init)} else {});
  }

  lemma BodyTextSnoc(body: seq<DiffLine>)
    requires body != []
    ensures BodyText(body) == BodyText(body[..|body| - 1]) + [LineText(body[|body| - 1])]
  {
  }

  lemma BodyParsesMore(added: AddedLines, p: string, oldCount: nat, newCount: nat, n: nat, init: seq<DiffLine>, l: DiffLine)
    requires OldLines(init + [l]) <= oldCount && NewLines(init + [l]) <= newCount
    requires OldLines(init) <= oldCount && NewLines(init) <= newCount
    requires ParseFrom(State(added, Some(p), oldCount, newCount, n, true), BodyText(init)) == Ok(BodyState(added, p, oldCount, newCount, n, init))
    ensures ParseFrom(State(added, Some(p), oldCount, newCount, n, true), BodyText(init + [l]))
            == Ok(BodyState(added, p, oldCount, newCount, n, init + [l]))
  {
    BodyTextSnoc(init + [l]);
    assert (init + [l])[..|init|] == init;
    hide *;
    BodyStep(added, p, oldCount, newCount, n, init, l);
    ParseSnoc(State(added, Some(p), oldCount, newCount, n, true), BodyText(init), LineText(l));
  }

  lemma NoBodyParses(added: AddedLines, p: string, oldCount: nat, newCount: nat, n: nat)
    requires p in added
    ensures OldLines([]) == 0 && NewLines([]) == 0
    ensures ParseFrom(State(added, Some(p), oldCount, newCount, n, true), BodyText([])) == Ok(BodyState(added, p, oldCount, newCount, n, []))
  {
    AddNothing(added, p, {});
    assert BodyText([]) == [];
  }

  lemma {:induction false} BodyParses(added: AddedLines, p: string, oldCount: nat, newCount: nat, n: nat, body: seq<DiffLine>)
    requires p in added && OldLines(body) <= oldCount && NewLines(body) <= newCount
    ensures ParseFrom(State(added, Some(p), oldCount, newCount, n, true), BodyText(body)) ==
            Ok(BodyState(added, p, oldCount, newCount, n, body))
  {
    hide *;
    if body == [] {
      NoBodyParses(added, p, oldCount, newCount, n);
    } else {
      CountsSnoc(body);
      var init, l := body[..|body| - 1], body[|body| - 1];
      assert body == init + [l];
      BodyParses(added, p, oldCount, newCount, n, init);
      BodyParsesMore(added, p, oldCount, newCount, n, init, l);
    }
  }

  lemma KeepsPath(added: AddedLines, p: string, lines: set<nat>)
    ensures p in AddTo(added, p, lines)
  {
  }

  /** The parser can leave whatever hunk it is in. */
  predicate Idle(st: State) {
    st.inHunk ==> st.oldRemaining == 0 && st.newRemaining == 0
  }

  lemma HunkParses(st: State, h: Hunk)
    requires Idle(st) && st.path.Some? && st.path.value in st.added
    ensures var r := ParseFrom(st, [HeaderText(h)] + BodyText(h.body));
            && r.Ok? && Idle(r.value) && r.value.path == st.path && r.value.inHunk
            && r.value.added == AddTo(st.added, st.path.value, AddedNumbers(h.body, h.newStart))
  {
    HeaderRoundTrip(h);
    ParseConcat(st, [HeaderText(h)], BodyText(h.body));
    ParseOne(st, HeaderText(h));
    BodyParses(st.added, st.path.value, OldLines(h.body), NewLines(h.body), h.newStart, h.body);
  }

  function HunkNumbers(hunks: seq<Hunk>): set<nat> {
    if hunks == [] then {}
    else HunkNumbers(hunks[..|hunks| - 1]) + AddedNumbers(hunks[|hunks| - 1].body, hunks[|hunks| - 1].newStart)
  }

  lemma {:induction false} HunksParse(st: State, hunks: seq<Hunk>)
    requires Idle(st) && st.path.Some? && st.path.value in st.added
    ensures var r := ParseFrom(st, HunksText(hunks));
            r.Ok? && Idle(r.value) && r.value.path == st.path && r.value.added == AddTo(st.added, st.path.value, HunkNumbers(hunks))
  {
    if hunks == [] {
      AddNothing(st.added, st.path.value, {});
    } else {
      var init, h := hunks[..|hunks| - 1], hunks[|hunks| - 1];
      HunksParse(st, init);
      ParseConcat(st, HunksText(init), [HeaderText(h)] + BodyText(h.body));
      var mid := ParseFrom(st, HunksText(init)).value;
      HunkParses(mid, h);
      AddToTwice(st.added, st.path.value, HunkNumbers(init), AddedNumbers(h.body, h.newStart));
    }
  }

  // ---------------------------------------------------------------- files

  // ---------------------------------------------------------------- paths

  lemma {:induction false} SplitJoins(path: string)
    ensures PathText(Split(path, '/')) == path
    ensures forall i :: 0 <= i < |Split(path, '/')| ==> '/' !in Split(path, '/')[i]
    ensures '\0' !in path ==> forall i :: 0 <= i < |Split(path, '/')| ==> '\0' !in Split(path, '/')[i]
  {
    if path != "" {
      var parts, rest := Split(path, '/'), Split(path[1..], '/');
      SplitJoins(path[1..]);
      assert path == [path[0]] + path[1..];
      if path[0] == '/' {
        assert parts == [""] + rest && parts[1..] == rest;
        assert PathText(parts) == "" + "/" + PathText(rest);
      } else {
        assert parts[1..] == rest[1..];
        if |rest| > 1 {
          assert [path[0]] + (rest[0] + "/" + PathText(rest[1..])) == [path[0]] + rest[0] + "/" + PathText(rest[1..]);
        }
      }
    }
  }

  lemma {:induction false} JoinSplits(parts: seq<string>)
    requires parts != [] && forall i :: 0 <= i < |parts| ==> '/' !in parts[i]
    ensures Split(PathText(parts), '/') == parts
    decreases |parts|
  {
    if |parts| == 1 {
      SplitWhole(parts[0], '/');
    } else {
      JoinSplits(parts[1..]);
      SplitAfter(parts[0], PathText(parts[1..]), '/');
      assert parts[0] + "/" + PathText(parts[1..]) == parts[0] + ("/" + PathText(parts[1..]));
    }
  }

  lemma {:induction false} SplitWhole(s: string, c: char)
    requires c !in s
    ensures Split(s, c) == [s]
  {
    if s != "" {
      SplitWhole(s[1..], c);
      assert s == [s[0]] + s[1..];
    }
  }

  lemma {:induction false} SplitAfter(s: string, rest: string, c: char)
    requires c !in s
    ensures Split(s + ([c] + rest), c) == [s] + Split(rest, c)
  {
    var all := s + ([c] + rest);
    if s == "" {
      assert all[0] == c && all[1..] == rest;
    } else {
      assert all[0] == s[0] && all[1..] == s[1..] + ([c] + rest);
      SplitAfter(s[1..], rest, c);
      assert s == [s[0]] + s[1..];
    }
  }

  lemma {:induction false} PathChars(parts: seq<string>)
    requires parts != [] && forall i :: 0 <= i < |parts| ==> Component(parts[i])
    ensures PathText(parts) != "" && PathText(parts)[0] != '/' && '\0' !in PathText(parts)
    decreases |parts|
  {
    assert parts[0][0] in parts[0];
    if |parts| > 1 {
      PathChars(parts[1..]);
    }
  }

  /** The paths the parser accepts are exactly those below the repository's root. */
  lemma SafePathExactly(path: string)
    ensures SafePath(path) <==> RelativePath(path)
  {
    SplitJoins(path);
    if SafePath(path) {
      assert forall i :: 0 <= i < |Split(path, '/')| ==> Component(Split(path, '/')[i]);
    }
    if RelativePath(path) {
      var parts: seq<string> :| parts != [] && (forall i :: 0 <= i < |parts| ==> Component(parts[i])) && path == PathText(parts);
      JoinSplits(parts);
      PathChars(parts);
    }
  }

  lemma {:induction false} SplitFirst(s: string, rest: string, c: char)
    requires c !in s && (rest == "" || rest[0] == c)
    ensures Split(s + rest, c)[0] == s
  {
    if s == "" {
      assert s + rest == rest;
    } else {
      assert (s + rest)[1..] == s[1..] + rest;
      SplitFirst(s[1..], rest, c);
      assert s == [s[0]] + s[1..];
    }
  }

  lemma PathParses(path: string, stamp: Option<string>)
    requires RelativePath(path) && '\t' !in path
    ensures RightSidePath("b/" + path + if stamp.None? then "" else "\t" + stamp.value) == Ok(path)
  {
    var raw := "b/" + path;
    var rest := if stamp.None? then "" else "\t" + stamp.value;
    SplitFirst(raw, rest, '\t');
    SafePathExactly(path);
    assert raw[2..] == path;
    assert raw[0] == 'b' && raw[1] == '/';
  }

  lemma {:induction false} HeadersParse(st: State, headers: seq<string>)
    requires !st.inHunk && forall i :: 0 <= i < |headers| ==> PlainHeader(headers[i])
    ensures ParseFrom(st, headers) == Ok(st)
  {
    if headers != [] {
      HeadersParse(st, headers[..|headers| - 1]);
    }
  }

  /** After a file's mark and headers the parser is outside any hunk and has no path. */
  lemma PreambleParses(st: State, title: string, headers: seq<string>)
    requires Idle(st) && forall i :: 0 <= i < |headers| ==> PlainHeader(headers[i])
    ensures ParseFrom(st, ["diff --git " + title] + headers) == Ok(st.(inHunk := false, path := None))
  {
    ParseConcat(st, ["diff --git " + title], headers);
    ParseOne(st, "diff --git " + title);
    HeadersParse(st.(inHunk := false, path := None), headers);
  }

  lemma TargetParses(st: State, path: string, stamp: Option<string>)
    requires !st.inHunk && RelativePath(path) && '\t' !in path
    ensures ParseFrom(st, TargetText(Kept(path, stamp))) ==
            Ok(st.(path := Some(path), added := Mention(st.added, path)))
  {
    hide RelativePath, SafePath;
    var rest := "b/" + path + if stamp.None? then "" else "\t" + stamp.value;
    assert "+++ b/" + path == "+++ " + ("b/" + path);
    assert TargetText(Kept(path, stamp))[0] == "+++ " + rest;
    assert TargetText(Kept(path, stamp)) == ["+++ " + rest];
    PathParses(path, stamp);
    PathLine(st, rest);
    ParseOne(st, "+++ " + rest);
  }

  /** What the parser collects from a file. */
  function Collect(added: AddedLines, f: FileDiff): AddedLines {
    match f.target
    case Kept(path, _) => AddTo(added, path, HunkNumbers(f.hunks))
    case _ => added
  }

  lemma NothingParses(st: State)
    ensures ParseFrom(st, []) == Ok(st)
  {
  }

  lemma FileParses(st: State, f: FileDiff)
    requires Idle(st) && WellFormed(f)
    ensures var r := ParseFrom(st, FileText(f)); r.Ok? && Idle(r.value) && r.value.added == Collect(st.added, f)
  {
    hide RelativePath;
    hide ParseFrom;
    var preamble := ["diff --git " + f.title] + f.headers;
    var st' := st.(inHunk := false, path := None);
    PreambleParses(st, f.title, f.headers);
    ParseConcat(st, preamble, TargetText(f.target));
    ParseConcat(st, preamble + TargetText(f.target), HunksText(f.hunks));
    if f.target.Kept? {
      var p := f.target.path;
      TargetParses(st', p, f.target.stamp);
      HunksParse(st'.(path := Some(p), added := Mention(st.added, p)), f.hunks);
      assert AddTo(Mention(st.added, p), p, HunkNumbers(f.hunks)) == AddTo(st.added, p, HunkNumbers(f.hunks));
    } else {
      NothingParses(st');
    }
  }

  function CollectAll(files: seq<FileDiff>): AddedLines {
    if files == [] then map[] else Collect(CollectAll(files[..|files| - 1]), files[|files| - 1])
  }

  lemma {:induction false} DiffParses(files: seq<FileDiff>)
    requires forall i :: 0 <= i < |files| ==> WellFormed(files[i])
    ensures var r := ParseFrom(INITIAL, DiffLines(files)); r.Ok? && Idle(r.value) && r.value.added == CollectAll(files)
  {
    if files != [] {
      var init, f := files[..|files| - 1], files[|files| - 1];
      DiffParses(init);
      ParseConcat(INITIAL, DiffLines(init), FileText(f));
      FileParses(ParseFrom(INITIAL, DiffLines(init)).value, f);
    }
  }

  // ---------------------------------------------------------------- the numbers are those of the edit script

  lemma {:induction false} BodyNumbers(base: seq<string>, at: nat, body: seq<DiffLine>, offset: nat)
    requires BodyOrigins(base, at, body).Some?
    ensures var origins := BodyOrigins(base, at, body).value;
            |origins| == NewLines(body) && WrittenLines(origins, offset) == AddedNumbers(body, offset + 1)
  {
    if body != [] {
      var init, last := body[..|body| - 1], body[|body| - 1];
      BodyNumbers(base, at, init, offset);
      var origins, before := BodyOrigins(base, at, body).value, BodyOrigins(base, at, init).value;
      if |origins| > |before| {
        WrittenSnoc(before, origins[|before|], offset);
        assert origins == before + [origins[|before|]];
      }
    }
  }

  lemma WrittenSnoc(origins: seq<Origin>, o: Origin, offset: nat)
    ensures WrittenLines(origins + [o], offset)
            == WrittenLines(origins, offset) + if o.Written? then {offset + |origins| + 1} else {}
  {
    var all := origins + [o];
    assert all[|origins|] == o;
    assert forall i :: 0 <= i < |origins| ==> all[i] == origins[i];
  }

  lemma {:induction false} WrittenConcat(a: seq<Origin>, b: seq<Origin>, offset: nat)
    ensures WrittenLines(a + b, offset) == WrittenLines(a, offset) + WrittenLines(b, offset + |a|)
    decreases |b|
  {
    if b == [] {
      assert a + b == a;
    } else {
      var init := b[..|b| - 1];
      WrittenConcat(a, init, offset);
      assert a + b == (a + init) + [b[|b| - 1]];
      assert b == init + [b[|b| - 1]];
      WrittenSnoc(a + init, b[|b| - 1], offset);
      WrittenSnoc(init, b[|b| - 1], offset + |a|);
    }
  }

  lemma NoneWritten(first: nat, last: nat, offset: nat)
    requires first <= last
    ensures WrittenLines(Copies(first, last), offset) == {}
  {
  }

  lemma {:induction false} NoNumbers(body: seq<DiffLine>, n: nat)
    requires NewLines(body) == 0
    ensures AddedNumbers(body, n) == {}
  {
    if body != [] {
      NoNumbers(body[..|body| - 1], n);
    }
  }

  lemma HunkStep(base: seq<string>, p: Patched, h: Hunk, from: nat, body: seq<Origin>)
    requires p.at <= from && BodyOrigins(base, from, h.body) == Some(body)
    requires Before(h.newStart, NewLines(h.body)) == |p.origins| + from - p.at
    ensures WrittenLines(p.origins + Copies(p.at, from) + body, 0)
            == WrittenLines(p.origins, 0) + AddedNumbers(h.body, h.newStart)
  {
    hide WrittenLines, BodyOrigins, AddedNumbers, NewLines;
    var gap := Copies(p.at, from);
    WrittenConcat(p.origins, gap, 0);
    NoneWritten(p.at, from, |p.origins|);
    WrittenConcat(p.origins + gap, body, 0);
    BodyNumbers(base, from, h.body, |p.origins + gap|);
    if NewLines(h.body) == 0 {
      NoNumbers(h.body, h.newStart);
      NoNumbers(h.body, |p.origins + gap| + 1);
    }
  }

  lemma {:induction false} PatchNumbers(base: seq<string>, hunks: seq<Hunk>)
    requires Patch(base, hunks).Some?
    ensures WrittenLines(Patch(base, hunks).value.origins, 0) == HunkNumbers(hunks)
  {
    if hunks != [] {
      var init, h := hunks[..|hunks| - 1], hunks[|hunks| - 1];
      hide WrittenLines, Copies, BodyOrigins, AddedNumbers, OldLines, NewLines;
      PatchNumbers(base, init);
      var p := Patch(base, init).value;
      var from := Before(h.oldStart, OldLines(h.body));
      HunkStep(base, p, h, from, BodyOrigins(base, from, h.body).value);
    }
  }

  lemma NumbersAreCommentable(f: FileDiff)
    requires WellFormed(f)
    ensures HunkNumbers(f.hunks) == Commentable(f)
  {
    PatchNumbers(f.base, f.hunks);
    PatchInside(f.base, f.hunks);
    var p := Patch(f.base, f.hunks).value;
    WrittenConcat(p.origins, Copies(p.at, |f.base|), 0);
    NoneWritten(p.at, |f.base|, |p.origins|);
  }

  ghost predicate Touches(files: seq<FileDiff>, path: string) {
    exists i :: 0 <= i < |files| && files[i].target.Kept? && files[i].target.path == path
  }

  /** Line `n` of the new version of `path` is not a copy of an old line. */
  ghost predicate NewLineOf(files: seq<FileDiff>, path: string, n: nat)
    requires forall i :: 0 <= i < |files| ==> WellFormed(files[i])
  {
    exists i :: 0 <= i < |files| && files[i].target.Kept? && files[i].target.path == path && n in Commentable(files[i])
  }

  lemma TouchesSnoc(files: seq<FileDiff>, path: string)
    requires files != []
    ensures var init, f := files[..|files| - 1], files[|files| - 1];
            Touches(files, path) <==> Touches(init, path) || (f.target.Kept? && f.target.path == path)
  {
    var init, f := files[..|files| - 1], files[|files| - 1];
    if Touches(init, path) {
      var i :| 0 <= i < |init| && init[i].target.Kept? && init[i].target.path == path;
      assert files[i] == init[i];
    }
    assert files[|files| - 1] == f;
  }

  lemma NewLineSnoc(files: seq<FileDiff>, path: string, n: nat)
    requires files != [] && forall i :: 0 <= i < |files| ==> WellFormed(files[i])
    ensures var init, f := files[..|files| - 1], files[|files| - 1];
            NewLineOf(files, path, n) <==>
              NewLineOf(init, path, n) || (f.target.Kept? && f.target.path == path && n in Commentable(f))
  {
    hide RelativePath, PlainHeader, NewFile;
    var init, f := files[..|files| - 1], files[|files| - 1];
    if NewLineOf(init, path, n) {
      var i :| 0 <= i < |init| && init[i].target.Kept? && init[i].target.path == path && n in Commentable(init[i]);
      assert files[i] == init[i];
    }
    assert files[|files| - 1] == f;
  }

  lemma NewLineTouches(files: seq<FileDiff>, path: string, n: nat)
    requires forall i :: 0 <= i < |files| ==> WellFormed(files[i])
    ensures NewLineOf(files, path, n) ==> Touches(files, path)
  {
  }

  lemma {:induction false} CollectedLines(files: seq<FileDiff>, path: string)
    requires forall i :: 0 <= i < |files| ==> WellFormed(files[i])
    ensures path in CollectAll(files) <==> Touches(files, path)
    ensures path in CollectAll(files) ==> forall n: nat :: n in CollectAll(files)[path] <==> NewLineOf(files, path, n)
  {
    if files != [] {
      var init, f := files[..|files| - 1], files[|files| - 1];
      CollectedLines(init, path);
      TouchesSnoc(files, path);
      NumbersAreCommentable(f);
      if path in CollectAll(files) {
        forall n: nat ensures n in CollectAll(files)[path] <==> NewLineOf(files, path, n) {
          NewLineSnoc(files, path, n);
          NewLineTouches(init, path, n);
        }
      }
    }
  }

  // ---------------------------------------------------------------- from lines to text

  lemma {:induction false} LineLengthOf(line: string, rest: string)
    requires OneLine(line) && rest != "" && LineBreak(rest[0])
    ensures LineLength(line + rest) == |line|
  {
    if line == "" {
      assert line + rest == rest;
    } else {
      assert (line + rest)[1..] == line[1..] + rest;
      LineLengthOf(line[1..], rest);
    }
  }

  /** Each line break ends a line, a carriage return and a newline together as one. */
  lemma SplitOneLine(line: string, ending: string, rest: string)
    requires OneLine(line)
    requires ending == "\r\n" || (|ending| == 1 && LineBreak(ending[0]) && (ending == "\r" ==> rest == "" || rest[0] != '\n'))
    ensures SplitLines(line + ending + rest) == [line] + SplitLines(rest)
  {
    var s, tail := line + ending + rest, ending + rest;
    assert s == line + tail;
    LineLengthOf(line, tail);
    hide LineLength, OneLine, LineBreak;
    assert s[..|line|] == line && s[|line|] == ending[0] && s[|line| + |ending|..] == rest;
    assert |line| + 1 < |s| ==> s[|line| + 1] == if |ending| == 2 then ending[1] else rest[0];
  }

  /** A last line needs no line break. */
  lemma SplitLastLine(line: string)
    requires OneLine(line) && line != ""
    ensures SplitLines(line) == [line]
  {
    assert LineLength(line) == |line|;
  }

  lemma {:induction false} LinesRoundTrip(lines: seq<string>)
    requires forall i :: 0 <= i < |lines| ==> OneLine(lines[i])
    ensures SplitLines(Joined(lines)) == lines
  {
    if lines != [] {
      LinesRoundTrip(lines[1..]);
      SplitOneLine(lines[0], "\n", Joined(lines[1..]));
      assert lines == [lines[0]] + lines[1..];
      hide SplitLines, OneLine;
    }
  }

  /** The main result.  Parsing the text of a well-formed diff succeeds, finds exactly the files that have
      a right side, and for each of them exactly the lines of the new file that are not copied from the
      old one. */
  lemma ParserIsExact(files: seq<FileDiff>, path: string, n: nat)
    requires forall i :: 0 <= i < |files| ==> WellFormed(files[i])
    requires forall i :: 0 <= i < |DiffLines(files)| ==> OneLine(DiffLines(files)[i])
    ensures var r := Parse(SplitLines(Joined(DiffLines(files))));
            && r.Ok?
            && (path in r.value <==> Touches(files, path))
            && (path in r.value && n in r.value[path] <==> NewLineOf(files, path, n))
  {
    LinesRoundTrip(DiffLines(files));
    DiffParses(files);
    CollectedLines(files, path);
    NewLineTouches(files, path, n);
  }

  /** A removed file is refused, wherever it stands and whatever follows it. */
  lemma RemovedFileIsRefused(files: seq<FileDiff>, removed: FileDiff, rest: seq<string>)
    requires forall i :: 0 <= i < |files| ==> WellFormed(files[i])
    requires removed.target.Removed? && forall i :: 0 <= i < |removed.headers| ==> PlainHeader(removed.headers[i])
    ensures Parse(DiffLines(files) + FileText(removed) + rest) == Err(DeletedFile)
  {
    DiffParses(files);
    var st := ParseFrom(INITIAL, DiffLines(files)).value;
    var preamble := ["diff --git " + removed.title] + removed.headers;
    PreambleParses(st, removed.title, removed.headers);
    RemovedTarget(st.(inHunk := false, path := None));
    assert FileText(removed) == preamble + ["+++ /dev/null"] + HunksText(removed.hunks);
    hide *;
    var gone := ["+++ /dev/null"];
    ParseConcat(INITIAL, DiffLines(files), preamble);
    ParseConcat(INITIAL, DiffLines(files) + preamble, gone);
    ParseConcat(INITIAL, DiffLines(files) + preamble + gone, HunksText(removed.hunks) + rest);
    Regroup(DiffLines(files), preamble, gone, HunksText(removed.hunks), rest);
  }

  lemma Regroup<T>(a: seq<T>, b: seq<T>, c: seq<T>, d: seq<T>, e: seq<T>)
    ensures a + (b + c + d) + e == a + b + c + (d + e)
  {
  }

  lemma RemovedTarget(st: State)
    requires !st.inHunk
    ensures ParseFrom(st, ["+++ /dev/null"]) == Err(DeletedFile)
  {
    ParseOne(st, "+++ /dev/null");
    assert "+++ /dev/null" == "+++ " + "/dev/null";
    NullPath();
    PathLine(st, "/dev/null");
  }

  lemma NullPath()
    ensures RightSidePath("/dev/null") == Err(DeletedFile)
  {
    SplitFirst("/dev/null", "", '\t');
    assert "/dev/null" + "" == "/dev/null";
  }

  /** Outside a hunk a `+++ ` line is read as a right-side path. */
  lemma PathLine(st: State, header: string)
    requires !st.inHunk
    ensures ParseLine(st, "+++ " + header) ==
            match RightSidePath(header)
            case Err(e) => Err(e)
            case Ok(path) => Ok(st.(path := Some(path), added := Mention(st.added, path)))
  {
    var line := "+++ " + header;
    assert line[4..] == header;
    assert line[0] == '+' && FILE_MARK[0] == 'd';
  }

  /** Why each line of the diff must be one line for Python: any of its line breaks inside an added line, a form feed
      say, splits the line in two, and unless the second part happens to begin like a diff line the parser
      refuses the diff. */
  lemma StrayBreakIsRefused(st: State, before: string, breaker: char, after: string)
    requires st.inHunk && st.path.Some? && st.oldRemaining >= 0 && st.newRemaining > 0
    requires OneLine(before) && LineBreak(breaker) && OneLine(after) && after != ""
    requires after[0] != ' ' && after[0] != '+' && after[0] != '-' && after[0] != '\\' && after[0] != '@' && after[0] != 'd'
    ensures ParseFrom(st, SplitLines("+" + before + [breaker] + after + "\n")) == Err(MalformedBody)
  {
    var added := "+" + before;
    assert OneLine(added);
    assert after[0] != '\n';
    SplitOneLine(added, [breaker], after + "\n");
    SplitOneLine(after, "\n", "");
    assert added + [breaker] + (after + "\n") == "+" + before + [breaker] + after + "\n";
    assert after + "\n" + "" == after + "\n";
    assert [added] + ([after] + []) == [added] + [after];
    AddedLineParses(st, before);
    hide ParseLine, SplitLines, OneLine, LineBreak;
    assert SplitLines("") == [] by { NoLines(); }
    StrayLineFails(ParseLine(st, added).value, after);
    ParseOne(st, added);
    ParseSnoc(st, [added], after);
  }

  lemma NoLines()
    ensures SplitLines("") == []
  {
  }

  lemma AddedLineParses(st: State, text: string)
    requires st.inHunk && st.path.Some? && st.oldRemaining >= 0 && st.newRemaining > 0
    ensures ParseLine(st, "+" + text).Ok? && ParseLine(st, "+" + text).value.inHunk
  {
    LineKind(Line(Addition, text), st);
    assert LineText(Line(Addition, text)) == "+" + text;
    hide ParseLine, StartsWith;
  }

  lemma StrayLineFails(st: State, line: string)
    requires st.inHunk && line != ""
    requires line[0] != ' ' && line[0] != '+' && line[0] != '-' && line[0] != '\\' && line[0] != '@' && line[0] != 'd'
    ensures ParseLine(st, line) == Err(MalformedBody)
  {
    assert FILE_MARK[0] == 'd' && HUNK_MARK[0] == '@' && NO_NEWLINE[0] == '\\';
  }
}

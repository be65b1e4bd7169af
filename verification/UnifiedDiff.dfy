/** The unified-diff parser that decides which right-side lines may receive review comments. */
module UnifiedDiff {
  import opened Text
  import opened Records

  datatype DiffError =
    | HunkMismatch | DeletedFile | QuotedPath | NotRightSide | UnsafePath | HunkWithoutPath | MalformedHeader
    | EmptyHunkLine | LineWithoutPath | TooManyRightLines | MalformedBody | TooManyLines

  datatype Result<+T> = Ok(value: T) | Err(error: DiffError) {
    predicate IsFailure() { Err? }
    function PropagateFailure<U>(): Result<U> requires Err? { Err(error) }
    function Extract(): T requires Ok? { value }
  }

  type AddedLines = map<string, set<nat>>

  // ---------------------------------------------------------------- lines of a text

  /** The characters at which `str.splitlines` ends a line. */
  predicate IsBreak(c: char) {
    || c == '\n' || c == '\r' || c == '\U{0B}' || c == '\U{0C}' || c == '\U{1C}' || c == '\U{1D}' || c == '\U{1E}'
    || c == '\U{85}' || c == '\U{2028}' || c == '\U{2029}'
  }

  /** The length of the first line, without its line break. */
  function LineLength(s: string): (n: nat)
    ensures n <= |s| && (forall i :: 0 <= i < n ==> !IsBreak(s[i])) && (n < |s| ==> IsBreak(s[n]))
  {
    if s == "" || IsBreak(s[0]) then 0 else 1 + LineLength(s[1..])
  }

  function SplitLines(s: string): seq<string>
    decreases |s|
  {
    if s == "" then []
    else
      var n := LineLength(s);
      if n == |s| then [s]
      else if s[n] == '\r' && n + 1 < |s| && s[n + 1] == '\n' then [s[..n]] + SplitLines(s[n + 2..])
      else [s[..n]] + SplitLines(s[n + 1..])
  }

  // ---------------------------------------------------------------- hunk headers

  /** `oldStart` is matched but never used. */
  datatype Header = Header(oldStart: nat, oldCount: nat, newStart: nat, newCount: nat)

  /** A decimal number at the front of `s`, and what follows it. */
  function TakeNumber(s: string): Option<(nat, string)> {
    var n := DigitRun(s);
    if n == 0 then None else Some((Number(s[..n]), s[n..]))
  }

  /** A start, with the count defaulting to one when it is not written. */
  function TakeRange(s: string): Option<(nat, nat, string)> {
    match TakeNumber(s)
    case None => None
    case Some((start, rest)) =>
      if rest != "" && rest[0] == ',' then
        match TakeNumber(rest[1..])
        case None => None
        case Some((count, rest')) => Some((start, count, rest'))
      else Some((start, 1, rest))
  }

  function MatchHeader(line: string): Option<Header> {
    if !StartsWith(line, "@@ -") then None
    else match TakeRange(line[4..])
      case None => None
      case Some((oldStart, oldCount, rest)) =>
        if !StartsWith(rest, " +") then None
        else match TakeRange(rest[2..])
          case None => None
          case Some((newStart, newCount, rest')) =>
            if rest' == " @@" || StartsWith(rest', " @@ ") then Some(Header(oldStart, oldCount, newStart, newCount))
            else None
  }

  // ---------------------------------------------------------------- right-side paths

  function Split(s: string, separator: char): (parts: seq<string>)
    ensures parts != []
  {
    if s == "" then [""]
    else
      var rest := Split(s[1..], separator);
      if s[0] == separator then [""] + rest else [[s[0]] + rest[0]] + rest[1..]
  }

  predicate SafePath(path: string) {
    && path != "" && path[0] != '/' && '\0' !in path
    && forall i :: 0 <= i < |Split(path, '/')| ==>
         Split(path, '/')[i] != "" && Split(path, '/')[i] != "." && Split(path, '/')[i] != ".."
  }

  function RightSidePath(header: string): Result<string> {
    var raw := Split(header, '\t')[0];
    if raw == "/dev/null" then Err(DeletedFile)
    else if StartsWith(raw, "\"") then Err(QuotedPath)
    else if !StartsWith(raw, "b/") then Err(NotRightSide)
    else if !SafePath(raw[2..]) then Err(UnsafePath)
    else Ok(raw[2..])
  }

  // ---------------------------------------------------------------- the parser, one line at a time

  const FILE_MARK := "diff --git "
  const HUNK_MARK := "@@ "
  const PATH_MARK := "+++ "
  const NO_NEWLINE := "\\ No newline at end of file"

  datatype State = State(
    added: AddedLines,
    path: Option<string>,
    oldRemaining: int,
    newRemaining: int,
    newLine: nat,
    inHunk: bool)

  const INITIAL := State(map[], None, 0, 0, 0, false)

  function FinishHunk(st: State): Result<State> {
    if st.inHunk && (st.oldRemaining != 0 || st.newRemaining != 0) then Err(HunkMismatch) else Ok(st.(inHunk := false))
  }

  function Mention(added: AddedLines, path: string): AddedLines {
    if path in added then added else added[path := {}]
  }

  function Record(added: AddedLines, path: string, line: nat): AddedLines {
    added[path := (if path in added then added[path] else {}) + {line}]
  }

  function BodyLine(st: State, line: string): Result<State> {
    if StartsWith(line, NO_NEWLINE) then Ok(st)
    else if line == "" then Err(EmptyHunkLine)
    else
      var st' :-
        if line[0] == ' ' then
          Ok(st.(oldRemaining := st.oldRemaining - 1, newRemaining := st.newRemaining - 1, newLine := st.newLine + 1))
        else if line[0] == '-' then Ok(st.(oldRemaining := st.oldRemaining - 1))
        else if line[0] == '+' then
          if st.path.None? then Err(LineWithoutPath)
          else if st.newRemaining <= 0 then Err(TooManyRightLines)
          else Ok(st.(added := Record(st.added, st.path.value, st.newLine),
                      newRemaining := st.newRemaining - 1, newLine := st.newLine + 1))
        else Err(MalformedBody);
      if st'.oldRemaining < 0 || st'.newRemaining < 0 then Err(TooManyLines) else Ok(st')
  }

  function ParseLine(st: State, line: string): Result<State> {
    if StartsWith(line, FILE_MARK) then
      var st' :- FinishHunk(st);
      Ok(st'.(path := None))
    else if !st.inHunk && StartsWith(line, PATH_MARK) then
      var path :- RightSidePath(line[4..]);
      Ok(st.(path := Some(path), added := Mention(st.added, path)))
    else if StartsWith(line, HUNK_MARK) then
      var st' :- FinishHunk(st);
      if st'.path.None? then Err(HunkWithoutPath)
      else match MatchHeader(line)
        case None => Err(MalformedHeader)
        case Some(h) => Ok(st'.(oldRemaining := h.oldCount, newRemaining := h.newCount, newLine := h.newStart, inHunk := true))
    else if !st.inHunk then Ok(st)
    else BodyLine(st, line)
  }

  function ParseFrom(st: State, lines: seq<string>): Result<State> {
    if lines == [] then Ok(st)
    else
      var st' :- ParseFrom(st, lines[..|lines| - 1]);
      ParseLine(st', lines[|lines| - 1])
  }

  function Parse(lines: seq<string>): Result<AddedLines> {
    var st :- ParseFrom(INITIAL, lines);
    var st' :- FinishHunk(st);
    Ok(st'.added)
  }

  /** The parser as its own loop over five variables. */
  method ParseUnifiedDiff(diff: string) returns (r: Result<AddedLines>)
    ensures r == Parse(SplitLines(diff))
  {
    var lines := SplitLines(diff);
    var added: AddedLines := map[];
    var currentPath: Option<string> := None;
    var oldRemaining: int := 0;
    var newRemaining: int := 0;
    var newLine: nat := 0;
    var inHunk := false;
    assert ParseFrom(INITIAL, lines[..0]) == Ok(INITIAL);
    hide ParseFrom, SplitLines, RightSidePath, MatchHeader, Record, Mention, StartsWith;
    var i := 0;
    while i < |lines|
      invariant 0 <= i <= |lines|
      invariant ParseFrom(INITIAL, lines[..i]) == Ok(State(added, currentPath, oldRemaining, newRemaining, newLine, inHunk))
    {
      var line := lines[i];
      ghost var before := State(added, currentPath, oldRemaining, newRemaining, newLine, inHunk);
      ParseNext(lines, i, before);
      i := i + 1;
      if StartsWith(line, FILE_MARK) {
        hide BodyLine;
        if inHunk && (oldRemaining != 0 || newRemaining != 0) { return Err(HunkMismatch); }
        inHunk := false;
        currentPath := None;
        continue;
      }
      if !inHunk && StartsWith(line, PATH_MARK) {
        hide BodyLine, FinishHunk;
        var path := RightSidePath(line[4..]);
        if path.Err? { return Err(path.error); }
        currentPath := Some(path.value);
        added := Mention(added, path.value);
        continue;
      }
      if StartsWith(line, HUNK_MARK) {
        hide BodyLine;
        if inHunk && (oldRemaining != 0 || newRemaining != 0) { return Err(HunkMismatch); }
        inHunk := false;
        if currentPath == None { return Err(HunkWithoutPath); }
        var header := MatchHeader(line);
        if header == None { return Err(MalformedHeader); }
        oldRemaining := header.value.oldCount;
        newRemaining := header.value.newCount;
        newLine := header.value.newStart;
        inHunk := true;
        continue;
      }
      if !inHunk { continue; }
      assert ParseLine(before, line) == BodyLine(before, line);
      hide ParseLine, FinishHunk;
      if StartsWith(line, NO_NEWLINE) { continue; }
      if line == "" { return Err(EmptyHunkLine); }
      var marker := line[0];
      if marker == ' ' {
        oldRemaining := oldRemaining - 1;
        newRemaining := newRemaining - 1;
        newLine := newLine + 1;
      } else if marker == '-' {
        oldRemaining := oldRemaining - 1;
      } else if marker == '+' {
        if currentPath == None { return Err(LineWithoutPath); }
        if newRemaining <= 0 { return Err(TooManyRightLines); }
        added := Record(added, currentPath.value, newLine);
        newRemaining := newRemaining - 1;
        newLine := newLine + 1;
      } else {
        return Err(MalformedBody);
      }
      if oldRemaining < 0 || newRemaining < 0 { return Err(TooManyLines); }
    }
    assert lines[..i] == lines;
    if inHunk && (oldRemaining != 0 || newRemaining != 0) { return Err(HunkMismatch); }
    return Ok(added);
  }

  /** An error at a prefix is the error of the whole input. */
  lemma {:induction false} ParseStops(st: State, lines: seq<string>, k: nat)
    requires k <= |lines| && ParseFrom(st, lines[..k]).Err?
    ensures ParseFrom(st, lines) == ParseFrom(st, lines[..k])
    decreases |lines|
  {
    if k == |lines| {
      assert lines[..k] == lines;
    } else {
      assert lines[..|lines| - 1][..k] == lines[..k];
      ParseStops(st, lines[..|lines| - 1], k);
    }
  }

  /** One line further: the new prefix's state, or the whole input's error. */
  lemma ParseNext(lines: seq<string>, i: nat, st: State)
    requires i < |lines| && ParseFrom(INITIAL, lines[..i]) == Ok(st)
    ensures ParseFrom(INITIAL, lines[..i + 1]) == ParseLine(st, lines[i])
    ensures ParseLine(st, lines[i]).Err? ==> Parse(lines) == Err(ParseLine(st, lines[i]).error)
  {
    assert lines[..i + 1][..i] == lines[..i];
    if ParseLine(st, lines[i]).Err? {
      ParseStops(INITIAL, lines, i + 1);
    }
  }

  lemma {:induction false} ParseConcat(st: State, a: seq<string>, b: seq<string>)
    ensures ParseFrom(st, a + b) ==
            match ParseFrom(st, a)
            case Err(e) => Err(e)
            case Ok(st') => ParseFrom(st', b)
    decreases |b|
  {
    if b == [] {
      assert a + b == a;
    } else {
      ParseConcat(st, a, b[..|b| - 1]);
      assert (a + b)[..|a + b| - 1] == a + b[..|b| - 1];
    }
  }

  lemma ParseSnoc(st: State, lines: seq<string>, line: string)
    ensures ParseFrom(st, lines + [line]) ==
            match ParseFrom(st, lines)
            case Err(e) => Err(e)
            case Ok(st') => ParseLine(st', line)
  {
    assert (lines + [line])[..|lines|] == lines;
  }

  lemma ParseOne(st: State, line: string)
    ensures ParseFrom(st, [line]) == ParseLine(st, line)
  {
    assert [line][..0] == [];
  }

  // ---------------------------------------------------------------- inline findings

  /** A finding may be published only on a line the diff added. */
  predicate OnAddedLine(added: AddedLines, finding: Finding) {
    finding.path in added && finding.line >= 0 && finding.line as nat in added[finding.path]
  }

  predicate ValidResult(added: AddedLines, findings: seq<Finding>) {
    forall i :: 0 <= i < |findings| ==> OnAddedLine(added, findings[i])
  }
}

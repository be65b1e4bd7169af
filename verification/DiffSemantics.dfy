/** What a unified diff means, independently of the parser: files, hunks and tagged lines in the
    "Diff -u or -U Output Format" of the POSIX.1-2017 `diff` utility with git headers, and the edit
    script they describe on an old file.  The parser is exact against it. */
module DiffSemantics {
  import opened Text
  import opened UnifiedDiff

  // ---------------------------------------------------------------- structured diffs

  datatype Tag = Context | Deletion | Addition

  datatype DiffLine = Line(tag: Tag, text: string) | NoNewlineMark

  /** `short` counts are left unwritten when they are one, as the format allows. */
  datatype Hunk = Hunk(oldStart: nat, newStart: nat, body: seq<DiffLine>, heading: Option<string>, shortOld: bool, shortNew: bool)

  datatype Target = NoText | Kept(path: string, stamp: Option<string>) | Removed

  /** One file of a diff.  `base` is the file the hunks apply to; it is not part of the rendering. */
  datatype FileDiff = FileDiff(title: string, headers: seq<string>, target: Target, hunks: seq<Hunk>, base: seq<string>)

  function OldLines(body: seq<DiffLine>): nat {
    if body == [] then 0
    else
      var last := body[|body| - 1];
      OldLines(body[..|body| - 1]) + if last.Line? && last.tag != Addition then 1 else 0
  }

  function NewLines(body: seq<DiffLine>): nat {
    if body == [] then 0
    else
      var last := body[|body| - 1];
      NewLines(body[..|body| - 1]) + if last.Line? && last.tag != Deletion then 1 else 0
  }

  // ---------------------------------------------------------------- rendering

  function RangeText(start: nat, count: nat, short: bool): string {
    Decimal(start) + if short && count == 1 then "" else "," + Decimal(count)
  }

  function HeaderText(h: Hunk): string {
    "@@ -" + RangeText(h.oldStart, OldLines(h.body), h.shortOld)
    + " +" + RangeText(h.newStart, NewLines(h.body), h.shortNew)
    + " @@" + if h.heading.None? then "" else " " + h.heading.value
  }

  function LineText(l: DiffLine): string {
    match l
    case NoNewlineMark => "\\ No newline at end of file"
    case Line(Context, text) => " " + text
    case Line(Deletion, text) => "-" + text
    case Line(Addition, text) => "+" + text
  }

  function BodyText(body: seq<DiffLine>): seq<string> {
    seq(|body|, i requires 0 <= i < |body| => LineText(body[i]))
  }

  function HunksText(hunks: seq<Hunk>): seq<string> {
    if hunks == [] then []
    else HunksText(hunks[..|hunks| - 1]) + ([HeaderText(hunks[|hunks| - 1])] + BodyText(hunks[|hunks| - 1].body))
  }

  function TargetText(target: Target): seq<string> {
    match target
    case NoText => []
    case Kept(path, stamp) => ["+++ b/" + path + if stamp.None? then "" else "\t" + stamp.value]
    case Removed => ["+++ /dev/null"]
  }

  function FileText(f: FileDiff): seq<string> {
    ["diff --git " + f.title] + f.headers + TargetText(f.target) + HunksText(f.hunks)
  }

  function DiffLines(files: seq<FileDiff>): seq<string> {
    if files == [] then [] else DiffLines(files[..|files| - 1]) + FileText(files[|files| - 1])
  }

  /** The text of the diff: every line ended by a newline. */
  function Joined(lines: seq<string>): string {
    if lines == [] then "" else lines[0] + "\n" + Joined(lines[1..])
  }

  /** Where Python ends a line. */
  predicate LineBreak(c: char) {
    || c == '\n' || c == '\U{0B}' || c == '\U{0C}' || c == '\r' || c == '\U{1C}' || c == '\U{1D}' || c == '\U{1E}'
    || c == '\U{85}' || c == '\U{2028}' || c == '\U{2029}'
  }

  predicate OneLine(line: string) {
    forall i :: 0 <= i < |line| ==> !LineBreak(line[i])
  }

  // ---------------------------------------------------------------- the edit script

  /** Where a line of the new file comes from. */
  datatype Origin = Copied(oldLine: nat) | Written(text: string)

  /** The zero-based position before which a range of `count` lines starting at `start` begins. */
  function Before(start: nat, count: nat): int {
    if count == 0 then start else start - 1
  }

  function Copies(first: nat, last: nat): seq<Origin>
    requires first <= last
  {
    seq(last - first, i requires 0 <= i < last - first => Copied(first + i))
  }

  /** What a hunk body makes of the old lines from `at` on, if they are the lines it names. */
  function BodyOrigins(base: seq<string>, at: nat, body: seq<DiffLine>): Option<seq<Origin>> {
    if body == [] then Some([])
    else
      var init, last := body[..|body| - 1], body[|body| - 1];
      var here := at + OldLines(init);
      match BodyOrigins(base, at, init)
      case None => None
      case Some(origins) =>
        match last
        case NoNewlineMark => Some(origins)
        case Line(Addition, text) => Some(origins + [Written(text)])
        case Line(Context, text) => if here < |base| && base[here] == text then Some(origins + [Copied(here)]) else None
        case Line(Deletion, text) => if here < |base| && base[here] == text then Some(origins) else None
  }

  datatype Patched = Patched(at: nat, origins: seq<Origin>)

  /** The new file so far: everything up to the last hunk's end. */
  function Patch(base: seq<string>, hunks: seq<Hunk>): Option<Patched> {
    if hunks == [] then Some(Patched(0, []))
    else
      var h := hunks[|hunks| - 1];
      match Patch(base, hunks[..|hunks| - 1])
      case None => None
      case Some(p) =>
        var from := Before(h.oldStart, OldLines(h.body));
        if from < p.at || Before(h.newStart, NewLines(h.body)) != |p.origins| + from - p.at then None
        else match BodyOrigins(base, from, h.body)
          case None => None
          case Some(body) =>
            if from + OldLines(h.body) > |base| then None
            else Some(Patched(from + OldLines(h.body), p.origins + Copies(p.at, from) + body))
  }

  lemma {:induction false} PatchInside(base: seq<string>, hunks: seq<Hunk>)
    ensures Patch(base, hunks).Some? ==> Patch(base, hunks).value.at <= |base|
  {
  }

  /** Every line of the new file, with its origin. */
  function NewFile(base: seq<string>, hunks: seq<Hunk>): Option<seq<Origin>> {
    match Patch(base, hunks)
    case None => None
    case Some(p) => PatchInside(base, hunks); Some(p.origins + Copies(p.at, |base|))
  }

  /** The one-based numbers of the lines that are not copies of old lines, counted from `offset`. */
  function WrittenLines(origins: seq<Origin>, offset: nat): set<nat> {
    set i | 0 <= i < |origins| && origins[i].Written? :: offset + i + 1
  }

  // ---------------------------------------------------------------- well-formed diffs

  predicate Component(part: string) {
    part != "" && part != "." && part != ".." && '/' !in part && '\0' !in part
  }

  /** Components separated by single slashes. */
  function PathText(parts: seq<string>): string
    requires parts != []
  {
    if |parts| == 1 then parts[0] else parts[0] + "/" + PathText(parts[1..])
  }

  /** A path below the repository's root. */
  ghost predicate RelativePath(path: string) {
    exists parts: seq<string> :: parts != [] && (forall i :: 0 <= i < |parts| ==> Component(parts[i])) && path == PathText(parts)
  }

  predicate PlainHeader(line: string) {
    !("diff --git " <= line) && !("+++ " <= line) && !("@@ " <= line)
  }

  /** A file of a well-formed diff: its hunks, in order, turn `base` into a new file. */
  ghost predicate WellFormed(f: FileDiff) {
    && (forall i :: 0 <= i < |f.headers| ==> PlainHeader(f.headers[i]))
    && (f.target.NoText? ==> f.hunks == [])
    && !f.target.Removed?
    && (f.target.Kept? ==> RelativePath(f.target.path) && '\t' !in f.target.path)
    && NewFile(f.base, f.hunks).Some?
  }

  /** What the review may comment on: the lines of the new file that the old file does not have. */
  function Commentable(f: FileDiff): set<nat>
    requires WellFormed(f)
  {
    WrittenLines(NewFile(f.base, f.hunks).value, 0)
  }
}

/** Exactly which headers and paths the parser accepts. */
module DiffForms {
  import opened Text
  import opened UnifiedDiff
  import opened DiffSemantics
  import opened DiffExactness

  // ---------------------------------------------------------------- hunk headers

  predicate Numeral(text: string) {
    text != "" && forall i :: 0 <= i < |text| ==> '0' <= text[i] <= '9'
  }

  /** A start, and a count unless it is one and not written. */
  ghost predicate IsRange(text: string, start: nat, count: nat) {
    || (Numeral(text) && Number(text) == start && count == 1)
    || (exists a, b :: Numeral(a) && Numeral(b) && text == a + "," + b && Number(a) == start && Number(b) == count)
  }

  ghost predicate IsHeader(line: string, h: Header) {
    exists was, now, heading ::
      && IsRange(was, h.oldStart, h.oldCount) && IsRange(now, h.newStart, h.newCount)
      && (heading == "" || heading[0] == ' ')
      && line == "@@ -" + (was + (" +" + (now + (" @@" + heading))))
  }

  lemma TakeNumeral(a: string, rest: string)
    requires Numeral(a) && (rest == "" || !IsDigit(rest[0]))
    ensures TakeNumber(a + rest) == Some((Number(a), rest))
  {
    DigitRunStops(a, rest);
    assert (a + rest)[..|a|] == a && (a + rest)[|a|..] == rest;
  }

  lemma TakeRangeOf(text: string, start: nat, count: nat, rest: string)
    requires IsRange(text, start, count) && rest != "" && rest[0] == ' '
    ensures TakeRange(text + rest) == Some((start, count, rest))
  {
    hide TakeNumber, Number;
    if Numeral(text) && Number(text) == start && count == 1 {
      TakeNumeral(text, rest);
    } else {
      var a, b :| Numeral(a) && Numeral(b) && text == a + "," + b && Number(a) == start && Number(b) == count;
      var tail := "," + b + rest;
      assert text + rest == a + tail && tail[1..] == b + rest;
      TakeNumeral(a, tail);
      TakeNumeral(b, rest);
    }
  }

  lemma NumberTaken(s: string) returns (a: string)
    requires TakeNumber(s).Some?
    ensures Numeral(a) && TakeNumber(s).value.0 == Number(a) && s == a + TakeNumber(s).value.1
  {
    var n := DigitRun(s);
    a := s[..n];
    assert s == s[..n] + s[n..];
  }

  lemma PlainRange(a: string)
    requires Numeral(a)
    ensures IsRange(a, Number(a), 1)
  {
  }

  lemma CountedRange(a: string, b: string)
    requires Numeral(a) && Numeral(b)
    ensures IsRange(a + "," + b, Number(a), Number(b))
  {
  }

  lemma RangeTaken(s: string) returns (text: string)
    requires TakeRange(s).Some?
    ensures IsRange(text, TakeRange(s).value.0, TakeRange(s).value.1) && s == text + TakeRange(s).value.2
  {
    hide TakeNumber, IsRange, Number;
    var a := NumberTaken(s);
    var rest := TakeNumber(s).value.1;
    if rest != "" && rest[0] == ',' {
      var b := NumberTaken(rest[1..]);
      CountedRange(a, b);
      text := a + "," + b;
      CountedText(a, b, rest, TakeNumber(rest[1..]).value.1);
    } else {
      PlainRange(a);
      text := a;
    }
  }

  lemma CountedText(a: string, b: string, rest: string, rest': string)
    requires rest != "" && rest[0] == ',' && rest[1..] == b + rest'
    ensures a + rest == a + "," + b + rest'
  {
    assert rest == "," + (b + rest');
  }

  lemma Closed(rest: string) returns (heading: string)
    requires rest == " @@" || StartsWith(rest, " @@ ")
    ensures rest == " @@" + heading && (heading == "" || heading[0] == ' ')
  {
    heading := rest[3..];
    assert rest == rest[..3] + rest[3..];
    assert rest[..3] == " @@";
    assert StartsWith(rest, " @@ ") ==> heading[0] == rest[3] == ' ';
  }

  lemma MakeHeader(line: string, was: string, now: string, heading: string, h: Header)
    requires IsRange(was, h.oldStart, h.oldCount) && IsRange(now, h.newStart, h.newCount)
    requires (heading == "" || heading[0] == ' ') && line == "@@ -" + (was + (" +" + (now + (" @@" + heading))))
    ensures IsHeader(line, h)
  {
    hide IsRange;
  }

  lemma MatchUnfolds(line: string, h: Header)
    requires MatchHeader(line) == Some(h)
    ensures StartsWith(line, "@@ -") && TakeRange(line[4..]).Some?
    ensures var (oldStart, oldCount, rest) := TakeRange(line[4..]).value;
            && oldStart == h.oldStart && oldCount == h.oldCount && StartsWith(rest, " +") && TakeRange(rest[2..]).Some?
            && var (newStart, newCount, rest') := TakeRange(rest[2..]).value;
               newStart == h.newStart && newCount == h.newCount && (rest' == " @@" || StartsWith(rest', " @@ "))
  {
    hide TakeRange;
  }

  lemma Rejoined(s: string, prefix: string)
    requires StartsWith(s, prefix)
    ensures s == prefix + s[|prefix|..]
  {
  }

  lemma MatchedIsHeader(line: string, h: Header)
    requires MatchHeader(line) == Some(h)
    ensures IsHeader(line, h)
  {
    MatchUnfolds(line, h);
    hide TakeRange, IsRange, MatchHeader, IsHeader, StartsWith;
    Rejoined(line, "@@ -");
    var was := RangeTaken(line[4..]);
    var rest := TakeRange(line[4..]).value.2;
    Rejoined(rest, " +");
    var now := RangeTaken(rest[2..]);
    var heading := Closed(TakeRange(rest[2..]).value.2);
    MakeHeader(line, was, now, heading, h);
  }

  lemma HeaderParts(line: string, was: string, now: string, heading: string, h: Header)
    requires IsRange(was, h.oldStart, h.oldCount) && IsRange(now, h.newStart, h.newCount)
    requires (heading == "" || heading[0] == ' ') && line == "@@ -" + (was + (" +" + (now + (" @@" + heading))))
    ensures MatchHeader(line) == Some(h)
  {
    hide TakeRange, IsRange, MatchHeader;
    var close := " @@" + heading;
    TakeRangeOf(was, h.oldStart, h.oldCount, " +" + (now + close));
    TakeRangeOf(now, h.newStart, h.newCount, close);
    assert heading == "" ==> close == " @@";
    assert heading != "" ==> close == " @@ " + heading[1..];
    MatchPieces(line, was + (" +" + (now + close)), now + close, close, h);
  }

  lemma HeaderIsMatched(line: string, h: Header)
    requires IsHeader(line, h)
    ensures MatchHeader(line) == Some(h)
  {
    var was, now, heading :|
      && IsRange(was, h.oldStart, h.oldCount) && IsRange(now, h.newStart, h.newCount)
      && (heading == "" || heading[0] == ' ')
      && line == "@@ -" + (was + (" +" + (now + (" @@" + heading))));
    hide *;
    HeaderParts(line, was, now, heading, h);
  }

  /** The hunk headers the parser accepts are exactly those of the format, with numerals of any length, counts left
      out only for one, and anything after a blank. */
  lemma HeaderExactly(line: string, h: Header)
    ensures MatchHeader(line) == Some(h) <==> IsHeader(line, h)
  {
    hide MatchHeader, IsHeader;
    if MatchHeader(line) == Some(h) {
      MatchedIsHeader(line, h);
    }
    if IsHeader(line, h) {
      HeaderIsMatched(line, h);
    }
  }

  // ---------------------------------------------------------------- right-side paths

  lemma {:induction false} SplitHead(s: string, c: char)
    ensures var head := Split(s, c)[0];
            c !in head && (s == head || head + [c] <= s)
  {
    if s != "" && s[0] != c {
      SplitHead(s[1..], c);
      assert s == [s[0]] + s[1..];
    }
  }

  /** The right-side paths the parser accepts are exactly those below the repository's root, after `b/` and up to a tab. */
  lemma RightSideExactly(header: string, path: string)
    ensures RightSidePath(header) == Ok(path) <==>
              RelativePath(path) && '\t' !in path && (header == "b/" + path || "b/" + path + "\t" <= header)
  {
    SafePathExactly(path);
    SplitHead(header, '\t');
    hide RelativePath, SafePath;
    var raw := Split(header, '\t')[0];
    if RightSidePath(header) == Ok(path) {
      assert raw == "b/" + raw[2..];
    }
    if RelativePath(path) && '\t' !in path && (header == "b/" + path || "b/" + path + "\t" <= header) {
      var text := "b/" + path;
      assert header == text + header[|text|..];
      SplitFirst(text, header[|text|..], '\t');
      assert raw == text && raw[2..] == path && raw[0] == 'b' && raw[1] == '/';
    }
  }
}

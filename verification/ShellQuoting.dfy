/** The shell text the pipeline builds, and the words a POSIX shell reads back from it.

    The lexer follows section 2.2 (Quoting) of the POSIX.1-2017 Shell Command Language: single
    quotes keep everything, double quotes leave the backslash and command substitution active, and
    an unquoted backslash before a newline joins two lines.  Text outside the subset the pipeline
    writes (pipes, redirections, globs, parameters) has no reading here. */
module ShellQuoting {
  import opened Text

  // ---------------------------------------------------------------- what the pipeline writes

  /** The value with every single quote closed, quoted on its own and reopened. */
  function Escaped(value: string): string {
    if value == "" then ""
    else (if value[0] == '\'' then "'\"'\"'" else [value[0]]) + Escaped(value[1..])
  }

  function ShellQuote(value: string): string {
    "'" + Escaped(value) + "'"
  }

  /** A list-valued step command: every argument quoted, joined by single spaces. */
  function CommandText(command: seq<string>): string {
    if command == [] then ""
    else if |command| == 1 then ShellQuote(command[0])
    else ShellQuote(command[0]) + " " + CommandText(command[1..])
  }

  // ---------------------------------------------------------------- what a shell reads

  datatype Mode = Plain | Single | Double

  predicate IsBlank(c: char) {
    c == ' ' || c == '\t'
  }

  /** Characters that end or alter a word when no quote protects them. */
  predicate IsSpecial(c: char) {
    c == '|' || c == '&' || c == ';' || c == '<' || c == '>' || c == '(' || c == ')' || c == '$' || c == '`' || c == '\n' || c == '*' || c == '?' || c == '[' || c == '#' || c == '~'
  }

  /** The length of the command inside `$(`...`)` at the front of `s`, when it is closed and plain. */
  function SubstitutionLength(s: string): Option<nat> {
    if s == "" || (s[0] == '(' || s[0] == '"' || s[0] == '\'' || s[0] == '\\' || s[0] == '`' || s[0] == '$') then None
    else if s[0] == ')' then Some(0)
    else match SubstitutionLength(s[1..])
      case None => None
      case Some(n) => Some(n + 1)
  }

  lemma SubstitutionFits(s: string)
    ensures SubstitutionLength(s).Some? ==> SubstitutionLength(s).value < |s|
  {
  }

  /** The words of `s`.  `word` is the word being read, `begun` whether it has begun (a quoted empty
      string begins one), and `output` what a substituted command prints. */
  function Lex(s: string, mode: Mode, word: string, begun: bool, output: string -> string): Option<seq<string>>
    decreases |s|
  {
    if s == "" then
      if mode.Plain? then Some(if begun then [word] else []) else None
    else match mode
      case Plain =>
        if IsBlank(s[0]) then
          match Lex(s[1..], Plain, "", false, output)
            case None => None
            case Some(words) => Some(if begun then [word] + words else words)
        else if s[0] == '\'' then Lex(s[1..], Single, word, true, output)
        else if s[0] == '"' then Lex(s[1..], Double, word, true, output)
        else if s[0] == '\\' then
          if |s| == 1 then None
          else if s[1] == '\n' then Lex(s[2..], Plain, word, begun, output)
          else Lex(s[2..], Plain, word + [s[1]], true, output)
        else if IsSpecial(s[0]) then None
        else Lex(s[1..], Plain, word + [s[0]], true, output)
      case Single =>
        if s[0] == '\'' then Lex(s[1..], Plain, word, true, output)
        else Lex(s[1..], Single, word + [s[0]], true, output)
      case Double =>
        if s[0] == '"' then Lex(s[1..], Plain, word, true, output)
        else if s[0] == '`' then None
        else if s[0] == '$' then
          if |s| == 1 || s[1] != '(' then None
          else match SubstitutionLength(s[2..])
            case None => None
            case Some(n) =>
              SubstitutionFits(s[2..]);
              Lex(s[n + 3..], Double, word + output(s[2..n + 2]), true, output)
        else if s[0] == '\\' then
          if |s| == 1 then None
          else if s[1] == '\n' then Lex(s[2..], Double, word, true, output)
          else if (s[1] == '$' || s[1] == '`' || s[1] == '"' || s[1] == '\\') then Lex(s[2..], Double, word + [s[1]], true, output)
          else Lex(s[1..], Double, word + ['\\'], true, output)
        else Lex(s[1..], Double, word + [s[0]], true, output)
  }

  function Words(s: string, output: string -> string): Option<seq<string>> {
    Lex(s, Plain, "", false, output)
  }

  // ---------------------------------------------------------------- quoting one value

  lemma StepSingle(c: char, t: string, word: string, output: string -> string)
    ensures Lex([c] + t, Single, word, true, output)
            == if c == '\'' then Lex(t, Plain, word, true, output) else Lex(t, Single, word + [c], true, output)
  {
    assert ([c] + t)[1..] == t;
  }

  lemma StepOpen(t: string, word: string, begun: bool, output: string -> string)
    ensures Lex(['\''] + t, Plain, word, begun, output) == Lex(t, Single, word, true, output)
    ensures Lex(['"'] + t, Plain, word, begun, output) == Lex(t, Double, word, true, output)
  {
    assert (['\''] + t)[1..] == t;
    assert (['"'] + t)[1..] == t;
  }

  lemma StepDouble(c: char, t: string, word: string, output: string -> string)
    requires (c != '`' && c != '$' && c != '\\')
    ensures Lex([c] + t, Double, word, true, output)
            == if c == '"' then Lex(t, Plain, word, true, output) else Lex(t, Double, word + [c], true, output)
  {
    assert ([c] + t)[1..] == t;
  }

  /** The five characters that stand for one single quote inside single quotes. */
  lemma StepEscapedQuote(t: string, word: string, output: string -> string)
    ensures Lex("'\"'\"'" + t, Single, word, true, output) == Lex(t, Single, word + ['\''], true, output)
  {
    hide Lex;
    StepSingle('\'', "\"'\"'" + t, word, output);
    StepOpen("'\"'" + t, word, true, output);
    StepDouble('\'', "\"'" + t, word, output);
    StepDouble('"', "'" + t, word + ['\''], output);
    StepOpen(t, word + ['\''], true, output);
    assert "'\"'\"'" + t == ['\''] + ("\"'\"'" + t);
    assert "\"'\"'" + t == ['"'] + ("'\"'" + t);
    assert "'\"'" + t == ['\''] + ("\"'" + t);
    assert "\"'" + t == ['"'] + ("'" + t);
    assert "'" + t == ['\''] + t;
  }

  lemma {:induction false} LexEscaped(value: string, rest: string, word: string, output: string -> string)
    ensures Lex(Escaped(value) + "'" + rest, Single, word, true, output)
            == Lex(rest, Plain, word + value, true, output)
    decreases |value|
  {
    if value == "" {
      assert Escaped(value) + "'" + rest == ['\''] + rest;
      StepSingle('\'', rest, word, output);
      assert word + value == word;
    } else {
      var tail := Escaped(value[1..]) + "'" + rest;
      LexEscaped(value[1..], rest, word + [value[0]], output);
      assert word + [value[0]] + value[1..] == word + value;
      if value[0] == '\'' {
        assert Escaped(value) + "'" + rest == "'\"'\"'" + tail;
        StepEscapedQuote(tail, word, output);
      } else {
        assert Escaped(value) + "'" + rest == [value[0]] + tail;
        StepSingle(value[0], tail, word, output);
      }
    }
  }

  /** A quoted value adds exactly itself to the word being read, whatever characters it holds. */
  lemma LexQuoted(value: string, rest: string, word: string, begun: bool, output: string -> string)
    ensures Lex(ShellQuote(value) + rest, Plain, word, begun, output) == Lex(rest, Plain, word + value, true, output)
  {
    var s := ShellQuote(value) + rest;
    assert s[1..] == Escaped(value) + "'" + rest;
    LexEscaped(value, rest, word, output);
  }

  /** A shell reads a quoted value back as one word equal to the value. */
  lemma QuoteRoundTrip(value: string, output: string -> string)
    ensures Words(ShellQuote(value), output) == Some([value])
  {
    assert ShellQuote(value) + "" == ShellQuote(value);
    assert "" + value == value;
    LexQuoted(value, "", "", false, output);
  }

  /** A shell reads a list-valued command back as the argument list it was built from. */
  lemma {:induction false} CommandRoundTrip(command: seq<string>, output: string -> string)
    ensures Words(CommandText(command), output) == Some(command)
  {
    if |command| == 1 {
      QuoteRoundTrip(command[0], output);
      assert command == [command[0]];
    } else if |command| > 1 {
      var rest := " " + CommandText(command[1..]);
      assert CommandText(command) == ShellQuote(command[0]) + rest;
      LexQuoted(command[0], rest, "", false, output);
      assert "" + command[0] == command[0];
      assert rest[1..] == CommandText(command[1..]);
      CommandRoundTrip(command[1..], output);
      assert command == [command[0]] + command[1..];
    }
  }

  // ---------------------------------------------------------------- the whole container command

  /** A piece of a word: text written as it is, a quoted value, or the fixed double-quoted
      `$(id -u):$(id -g)`. */
  datatype Piece = Bare(text: string) | Quoted(value: string) | Ids

  /** A word with the separator written before it. */
  datatype Word = Word(gap: string, pieces: seq<Piece>)

  function PieceText(piece: Piece): string {
    match piece
    case Bare(text) => text
    case Quoted(value) => ShellQuote(value)
    case Ids => "\"$(id -u):$(id -g)\""
  }

  /** What the piece contributes to the argument, by the meaning of each kind of quoting. */
  function PieceValue(piece: Piece, output: string -> string): string {
    match piece
    case Bare(text) => text
    case Quoted(value) => value
    case Ids => output("id -u") + ":" + output("id -g")
  }

  function PiecesText(pieces: seq<Piece>): string {
    if pieces == [] then "" else PieceText(pieces[0]) + PiecesText(pieces[1..])
  }

  function PiecesValue(pieces: seq<Piece>, output: string -> string): string {
    if pieces == [] then "" else PieceValue(pieces[0], output) + PiecesValue(pieces[1..], output)
  }

  function LineText(words: seq<Word>): string {
    if words == [] then "" else words[0].gap + PiecesText(words[0].pieces) + LineText(words[1..])
  }

  function Values(words: seq<Word>, output: string -> string): seq<string> {
    if words == [] then [] else [PiecesValue(words[0].pieces, output)] + Values(words[1..], output)
  }

  /** Letters, digits and `+ , - . / : =`, which no rule of the lexer treats specially. */
  predicate IsPlain(c: char) {
    'a' <= c <= 'z' || '+' <= c <= ':' || 'A' <= c <= 'Z' || c == '='
  }

  predicate GoodPiece(piece: Piece) {
    piece.Bare? ==> piece.text != "" && forall i :: 0 <= i < |piece.text| ==> IsPlain(piece.text[i])
  }

  predicate GoodPieces(pieces: seq<Piece>) {
    pieces != [] && forall i :: 0 <= i < |pieces| ==> GoodPiece(pieces[i])
  }

  /** Blanks and joined lines. */
  predicate IsFill(s: string) {
    if s == "" then true
    else if IsBlank(s[0]) then IsFill(s[1..])
    else |s| >= 2 && s[0] == '\\' && s[1] == '\n' && IsFill(s[2..])
  }

  predicate IsGap(s: string) {
    s != "" && IsBlank(s[0]) && IsFill(s)
  }

  predicate GoodLine(words: seq<Word>, begun: bool) {
    forall i :: 0 <= i < |words| ==>
      && GoodPieces(words[i].pieces)
      && (if i == 0 && !begun then words[i].gap == "" else IsGap(words[i].gap))
  }

  lemma {:induction false} LexFill(fill: string, rest: string, output: string -> string)
    requires IsFill(fill)
    ensures Lex(fill + rest, Plain, "", false, output) == Lex(rest, Plain, "", false, output)
  {
    if fill == "" {
      assert fill + rest == rest;
    } else if IsBlank(fill[0]) {
      LexFill(fill[1..], rest, output);
      assert (fill + rest)[1..] == fill[1..] + rest;
    } else {
      LexFill(fill[2..], rest, output);
      assert (fill + rest)[2..] == fill[2..] + rest;
    }
  }

  lemma LexGap(gap: string, rest: string, word: string, output: string -> string)
    requires IsGap(gap)
    ensures Lex(gap + rest, Plain, word, true, output) ==
            match Lex(rest, Plain, "", false, output)
            case None => None
            case Some(words) => Some([word] + words)
  {
    LexFill(gap[1..], rest, output);
    assert (gap + rest)[1..] == gap[1..] + rest;
  }

  lemma {:induction false} LexBare(text: string, rest: string, word: string, begun: bool, output: string -> string)
    requires text != "" && forall i :: 0 <= i < |text| ==> IsPlain(text[i])
    ensures Lex(text + rest, Plain, word, begun, output) == Lex(rest, Plain, word + text, true, output)
  {
    assert (text + rest)[1..] == text[1..] + rest;
    if |text| == 1 {
      assert text[1..] + rest == rest;
      assert word + [text[0]] == word + text;
    } else {
      LexBare(text[1..], rest, word + [text[0]], true, output);
      assert word + [text[0]] + text[1..] == word + text;
    }
  }

  lemma {:induction false} SubstitutionOf(command: string, rest: string)
    requires forall i :: 0 <= i < |command| ==> (command[i] != '(' && command[i] != ')' && command[i] != '"' && command[i] != '\'' && command[i] != '\\' && command[i] != '`' && command[i] != '$')
    ensures SubstitutionLength(command + ")" + rest) == Some(|command|)
  {
    if command == "" {
      assert (command + ")" + rest)[0] == ')';
    } else {
      SubstitutionOf(command[1..], rest);
      assert (command + ")" + rest)[1..] == command[1..] + ")" + rest;
    }
  }

  lemma LexSubstitution(command: string, rest: string, word: string, output: string -> string)
    requires forall i :: 0 <= i < |command| ==> (command[i] != '(' && command[i] != ')' && command[i] != '"' && command[i] != '\'' && command[i] != '\\' && command[i] != '`' && command[i] != '$')
    ensures Lex("$(" + command + ")" + rest, Double, word, true, output)
            == Lex(rest, Double, word + output(command), true, output)
  {
    SubstitutionOf(command, rest);
    var s := "$(" + command + ")" + rest;
    assert s[2..] == command + ")" + rest;
    assert s[2..|command| + 2] == command;
    assert s[|command| + 3..] == rest;
  }

  lemma LexGroup(rest: string, word: string, output: string -> string)
    ensures Lex("$(id -g)\"" + rest, Double, word, true, output)
            == Lex(rest, Plain, word + output("id -g"), true, output)
  {
    assert "$(id -g)\"" + rest == "$(" + "id -g" + ")" + (['"'] + rest);
    LexSubstitution("id -g", ['"'] + rest, word, output);
    StepDouble('"', rest, word + output("id -g"), output);
  }

  lemma LexIds(rest: string, word: string, begun: bool, output: string -> string)
    ensures Lex(PieceText(Ids) + rest, Plain, word, begun, output)
            == Lex(rest, Plain, word + PieceValue(Ids, output), true, output)
  {
    var group := "$(id -g)\"" + rest;
    var user := "$(" + "id -u" + ")" + ([':'] + group);
    assert PieceText(Ids) + rest == ['"'] + user;
    StepOpen(user, word, begun, output);
    LexSubstitution("id -u", [':'] + group, word, output);
    StepDouble(':', group, word + output("id -u"), output);
    LexGroup(rest, word + output("id -u") + [':'], output);
    assert word + output("id -u") + [':'] + output("id -g") == word + PieceValue(Ids, output);
  }

  lemma LexPiece(piece: Piece, rest: string, word: string, begun: bool, output: string -> string)
    requires GoodPiece(piece)
    ensures Lex(PieceText(piece) + rest, Plain, word, begun, output)
            == Lex(rest, Plain, word + PieceValue(piece, output), true, output)
  {
    match piece
    case Bare(text) => LexBare(text, rest, word, begun, output);
    case Quoted(value) => LexQuoted(value, rest, word, begun, output);
    case Ids => LexIds(rest, word, begun, output);
  }

  lemma {:induction false} LexPieces(pieces: seq<Piece>, rest: string, word: string, begun: bool, output: string -> string)
    requires GoodPieces(pieces)
    ensures Lex(PiecesText(pieces) + rest, Plain, word, begun, output)
            == Lex(rest, Plain, word + PiecesValue(pieces, output), true, output)
    decreases |pieces|
  {
    var tail := PiecesText(pieces[1..]) + rest;
    var value := PieceValue(pieces[0], output);
    assert PiecesText(pieces) + rest == PieceText(pieces[0]) + tail;
    LexPiece(pieces[0], tail, word, begun, output);
    if |pieces| == 1 {
      assert tail == rest;
      assert word + PiecesValue(pieces, output) == word + value;
    } else {
      LexPieces(pieces[1..], rest, word + value, true, output);
      assert word + value + PiecesValue(pieces[1..], output) == word + PiecesValue(pieces, output);
    }
  }

  /** One word and its separator. */
  lemma LexWord(w: Word, tail: string, word: string, begun: bool, output: string -> string)
    requires GoodPieces(w.pieces)
    requires if begun then IsGap(w.gap) else w.gap == "" && word == ""
    ensures Lex(w.gap + PiecesText(w.pieces) + tail, Plain, word, begun, output) ==
            match Lex(tail, Plain, PiecesValue(w.pieces, output), true, output)
            case None => None
            case Some(words) => Some(if begun then [word] + words else words)
  {
    var body := PiecesText(w.pieces) + tail;
    assert w.gap + PiecesText(w.pieces) + tail == w.gap + body;
    LexPieces(w.pieces, tail, "", false, output);
    assert "" + PiecesValue(w.pieces, output) == PiecesValue(w.pieces, output);
    if begun {
      LexGap(w.gap, body, word, output);
    } else {
      assert w.gap + body == body;
    }
  }

  /** A shell reads a line back as the values of its words, in order. */
  lemma {:induction false} LexLine(words: seq<Word>, word: string, begun: bool, output: string -> string)
    requires GoodLine(words, begun)
    requires begun || word == ""
    ensures Lex(LineText(words), Plain, word, begun, output)
            == Some(if begun then [word] + Values(words, output) else Values(words, output))
    decreases |words|
  {
    if words == [] {
      assert [word] + Values(words, output) == [word];
    } else {
      GoodTail(words, begun);
      LexWord(words[0], LineText(words[1..]), word, begun, output);
      LexLine(words[1..], PiecesValue(words[0].pieces, output), true, output);
    }
  }

  lemma GoodTail(words: seq<Word>, begun: bool)
    requires GoodLine(words, begun) && words != []
    ensures GoodLine(words[1..], true)
  {
    assert forall i :: 0 <= i < |words[1..]| ==> words[1..][i] == words[i + 1];
  }
}

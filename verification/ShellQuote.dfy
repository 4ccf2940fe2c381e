/**
 * ops/burst.py, `_q` and the pipelines built with it, against the word parsing of the POSIX shell
 * (Shell Command Language, sections 2.2.1, 2.2.2 and 2.3 of IEEE Std 1003.1).
 */
module ShellQuote {
  import opened Options

  // ---- The shell's side ----

  datatype Token = Word(text: string) | Operator(op: char)

  /** `Unsupported`: an unquoted character that starts an expansion, a comment or a double quote. */
  datatype Parse = Tokens(tokens: seq<Token>) | Unsupported | Unterminated

  datatype Mode = Unquoted | SingleQuoted

  predicate IsBlank(c: char) {
    c == ' ' || c == '\t'
  }

  predicate IsOperator(c: char) {
    c == '|' || c == '&' || c == ';' || c == '<' || c == '>' || c == '(' || c == ')' || c == '\n'
  }

  predicate Expands(c: char) {
    || c == '$' || c == '`' || c == '"' || c == '*' || c == '?' || c == '[' || c == ']'
    || c == '#' || c == '~' || c == '{' || c == '}' || c == '!'
  }

  /** A character an unquoted word may contain as itself. */
  predicate Ordinary(c: char) {
    !IsBlank(c) && !IsOperator(c) && !Expands(c) && c != '\'' && c != '\\'
  }

  function Grown(word: Option<string>, more: string): Option<string> {
    Some((if word.Some? then word.value else "") + more)
  }

  function Delimited(word: Option<string>, out: seq<Token>): seq<Token> {
    if word.Some? then out + [Word(word.value)] else out
  }

  /** Reads `input` in the given quoting mode, with the word in progress and the tokens so far. */
  function Scan(input: string, mode: Mode, word: Option<string>, out: seq<Token>): Parse {
    if input == "" then
      if mode.SingleQuoted? then Unterminated else Tokens(Delimited(word, out))
    else
      var c, rest := input[0], input[1..];
      if mode.SingleQuoted? then
        if c == '\'' then Scan(rest, Unquoted, word, out)
        else Scan(rest, SingleQuoted, Grown(word, [c]), out)
      else if c == '\'' then Scan(rest, SingleQuoted, Grown(word, ""), out)
      else if c == '\\' then
        if rest == "" then Unterminated
        else if rest[0] == '\n' then Scan(rest[1..], Unquoted, word, out)
        else Scan(rest[1..], Unquoted, Grown(word, [rest[0]]), out)
      else if IsBlank(c) then Scan(rest, Unquoted, None, Delimited(word, out))
      else if IsOperator(c) then Scan(rest, Unquoted, None, Delimited(word, out) + [Operator(c)])
      else if Expands(c) then Unsupported
      else Scan(rest, Unquoted, Grown(word, [c]), out)
  }

  function Shell(input: string): Parse {
    Scan(input, Unquoted, None, [])
  }

  // ---- The program's side ----

  /** `str.replace`: every single quote becomes quote, backslash, quote, quote. */
  function Escaped(s: string): string {
    if s == "" then ""
    else (if s[0] == '\'' then ['\'', '\\', '\'', '\''] else [s[0]]) + Escaped(s[1..])
  }

  function Q(s: string): string {
    ['\''] + Escaped(s) + ['\'']
  }

  /** The pieces a command line is concatenated from. */
  datatype Piece = Plain(text: string) | Quoted(text: string) | Blank | Op(op: char)

  function Render(pieces: seq<Piece>): string {
    if pieces == [] then ""
    else
      (match pieces[0]
       case Plain(text) => text
       case Quoted(text) => Q(text)
       case Blank => " "
       case Op(op) => [op]) + Render(pieces[1..])
  }

  predicate OrdinaryText(text: string) {
    text != "" && forall i :: 0 <= i < |text| ==> Ordinary(text[i])
  }

  predicate PieceOk(p: Piece) {
    (p.Plain? ==> OrdinaryText(p.text)) && (p.Op? ==> IsOperator(p.op))
  }

  predicate WellFormed(pieces: seq<Piece>) {
    pieces != [] ==> PieceOk(pieces[0]) && WellFormed(pieces[1..])
  }

  /** What the pieces are meant to be: adjacent texts join, blanks and operators delimit. */
  function Meaning(pieces: seq<Piece>, word: Option<string>, out: seq<Token>): seq<Token> {
    if pieces == [] then Delimited(word, out)
    else
      match pieces[0]
      case Plain(text) => Meaning(pieces[1..], Grown(word, text), out)
      case Quoted(text) => Meaning(pieces[1..], Grown(word, text), out)
      case Blank => Meaning(pieces[1..], None, Delimited(word, out))
      case Op(op) => Meaning(pieces[1..], None, Delimited(word, out) + [Operator(op)])
  }

  // ---- Quoting is undone by parsing ----

  /** The four characters that stand for one quote close, escape a quote and open again. */
  lemma QuoteScan(tail: string, word: string, out: seq<Token>)
    ensures Scan(['\'', '\\', '\'', '\''] + tail, SingleQuoted, Some(word), out)
        == Scan(tail, SingleQuoted, Some(word + ['\'']), out)
  {
    var d := ['\''] + tail;
    var c := ['\''] + d;
    var b := ['\\'] + c;
    assert ['\'', '\\', '\'', '\''] + tail == ['\''] + b;
    assert (['\''] + b)[1..] == b && b[1..] == c && c[1..] == d && d[1..] == tail;
    assert word + ['\''] + "" == word + ['\''];
    assert Scan(['\''] + b, SingleQuoted, Some(word), out) == Scan(b, Unquoted, Some(word), out);
    assert Scan(b, Unquoted, Some(word), out) == Scan(d, Unquoted, Some(word + ['\'']), out);
    assert Scan(d, Unquoted, Some(word + ['\'']), out) == Scan(tail, SingleQuoted, Some(word + ['\'']), out);
  }

  lemma {:induction false} EscapedScan(s: string, rest: string, word: string, out: seq<Token>)
    ensures Scan(Escaped(s) + ['\''] + rest, SingleQuoted, Some(word), out) == Scan(rest, Unquoted, Some(word + s), out)
    decreases |s|
  {
    if s == "" {
      assert Escaped(s) + ['\''] + rest == ['\''] + rest;
      assert (['\''] + rest)[1..] == rest;
      assert word + s == word;
    } else {
      var tail := Escaped(s[1..]) + ['\''] + rest;
      EscapedScan(s[1..], rest, word + [s[0]], out);
      assert word + [s[0]] + s[1..] == word + s;
      if s[0] == '\'' {
        QuoteScan(tail, word, out);
        assert Escaped(s) + ['\''] + rest == ['\'', '\\', '\'', '\''] + tail;
      } else {
        assert Escaped(s) + ['\''] + rest == [s[0]] + tail;
        assert ([s[0]] + tail)[1..] == tail;
      }
    }
  }

  /** A quoted string adds exactly itself to the word, and leaves the shell unquoted. */
  lemma QuotedScan(s: string, rest: string, word: Option<string>, out: seq<Token>)
    ensures Scan(Q(s) + rest, Unquoted, word, out) == Scan(rest, Unquoted, Grown(word, s), out)
  {
    var begun := Grown(word, "");
    assert Q(s) + rest == ['\''] + (Escaped(s) + ['\''] + rest);
    assert (Q(s) + rest)[1..] == Escaped(s) + ['\''] + rest;
    EscapedScan(s, rest, begun.value, out);
    assert begun.value + s == Grown(word, s).value;
  }

  /** The round trip of `_q`: one word, and it is `s`. */
  lemma QuoteRoundTrip(s: string)
    ensures Shell(Q(s)) == Tokens([Word(s)])
  {
    QuotedScan(s, "", None, []);
    assert Q(s) + "" == Q(s);
    assert "" + s == s;
  }

  lemma {:induction false} PlainScan(text: string, rest: string, word: Option<string>, out: seq<Token>)
    requires OrdinaryText(text)
    ensures Scan(text + rest, Unquoted, word, out) == Scan(rest, Unquoted, Grown(word, text), out)
    decreases |text|
  {
    var c, tail := text[0], text[1..];
    assert text == [c] + tail;
    assert text + rest == [c] + (tail + rest);
    if tail == "" {
      assert tail + rest == rest && text == [c];
    } else {
      PlainScan(tail, rest, Grown(word, [c]), out);
      var w := if word.Some? then word.value else "";
      assert w + [c] + tail == w + text;
    }
  }

  lemma {:induction false} RenderScan(pieces: seq<Piece>, word: Option<string>, out: seq<Token>)
    requires WellFormed(pieces)
    ensures Scan(Render(pieces), Unquoted, word, out) == Tokens(Meaning(pieces, word, out))
    decreases |pieces|
  {
    if pieces != [] {
      var p, rest := pieces[0], pieces[1..];
      match p
      case Plain(text) =>
        RenderScan(rest, Grown(word, text), out);
        PlainScan(text, Render(rest), word, out);
      case Quoted(text) =>
        RenderScan(rest, Grown(word, text), out);
        QuotedScan(text, Render(rest), word, out);
      case Blank =>
        RenderScan(rest, None, Delimited(word, out));
        assert (" " + Render(rest))[1..] == Render(rest);
      case Op(op) =>
        RenderScan(rest, None, Delimited(word, out) + [Operator(op)]);
        assert ([op] + Render(rest))[1..] == Render(rest);
    }
  }

  /** Whatever is quoted into a command line, the shell reads back the pieces as meant. */
  lemma CommandRoundTrip(pieces: seq<Piece>)
    requires WellFormed(pieces)
    ensures Shell(Render(pieces)) == Tokens(Meaning(pieces, None, []))
  {
    RenderScan(pieces, None, []);
  }

  // ---- The command lines of restore and snapshot ----

  /** Bare words, each followed by a blank. */
  function Args(words: seq<string>): seq<Piece> {
    if words == [] then [] else [Plain(words[0]), Blank] + Args(words[1..])
  }

  function WordTokens(words: seq<string>): seq<Token> {
    if words == [] then [] else [Word(words[0])] + WordTokens(words[1..])
  }

  lemma WordMeaning(text: string, rest: seq<Piece>, out: seq<Token>)
    ensures Meaning([Plain(text), Blank] + rest, None, out) == Meaning(rest, None, out + [Word(text)])
  {
    var pieces := [Plain(text), Blank] + rest;
    assert pieces[1..] == [Blank] + rest && ([Blank] + rest)[1..] == rest;
    assert "" + text == text;
  }

  lemma {:induction false} ArgsMeaning(words: seq<string>, rest: seq<Piece>, out: seq<Token>)
    ensures Meaning(Args(words) + rest, None, out) == Meaning(rest, None, out + WordTokens(words))
    decreases |words|
  {
    hide Meaning;
    if words == [] {
      assert Args(words) + rest == rest && out + WordTokens(words) == out;
    } else {
      var tail := Args(words[1..]) + rest;
      assert Args(words) + rest == [Plain(words[0]), Blank] + tail;
      WordMeaning(words[0], tail, out);
      ArgsMeaning(words[1..], rest, out + [Word(words[0])]);
      assert out + [Word(words[0])] + WordTokens(words[1..]) == out + WordTokens(words);
    }
  }

  lemma {:induction false} ArgsWellFormed(words: seq<string>, rest: seq<Piece>)
    requires WellFormed(rest) && forall i :: 0 <= i < |words| ==> OrdinaryText(words[i])
    ensures WellFormed(Args(words) + rest)
    decreases |words|
  {
    if words == [] {
      assert Args(words) + rest == rest;
    } else {
      ArgsWellFormed(words[1..], rest);
      var tail := Args(words[1..]) + rest;
      assert Args(words) + rest == [Plain(words[0])] + ([Blank] + tail);
      assert ([Blank] + tail)[1..] == tail;
      assert WellFormed([Blank] + tail);
      assert ([Plain(words[0])] + ([Blank] + tail))[1..] == [Blank] + tail;
    }
  }

  /** Bare words, then one quoted string. */
  lemma QuotedLast(words: seq<string>, text: string)
    requires forall i :: 0 <= i < |words| ==> OrdinaryText(words[i])
    ensures Shell(Render(Args(words) + [Quoted(text)])) == Tokens(WordTokens(words) + [Word(text)])
  {
    var last := [Quoted(text)];
    assert last[1..] == [] && WellFormed(last);
    ArgsWellFormed(words, last);
    CommandRoundTrip(Args(words) + last);
    ArgsMeaning(words, last, []);
    assert [] + WordTokens(words) == WordTokens(words) && "" + text == text;
    assert Meaning(last, None, WordTokens(words)) == Delimited(Grown(None, text), WordTokens(words));
  }

  /** `timeout N bash -c` with a command line quoted as its last argument. */
  function BashC(seconds: string, line: string): seq<Piece> {
    Args(["timeout", seconds, "bash", "-c"]) + [Quoted(line)]
  }

  /** The `sshpass` leg: fixed options, the tunnel's port, and a remote script of its own. */
  function SshWords(port: string): seq<string> {
    ["sshpass", "-e", "ssh", "-p", port, "-o", "StrictHostKeyChecking=no", "-o", "UserKnownHostsFile=/dev/null",
     "-o", "ConnectTimeout=15", "root@127.0.0.1"]
  }

  const UNTAR := "mkdir -p /workspace && tar -C /workspace -xzf -"
  const TAR := "tar -C /workspace -czf - ."

  function RestoreLine(obj: string, port: string): seq<Piece> {
    Args(["mc", "cat"]) + [Quoted(obj), Blank, Op('|'), Blank] + Args(SshWords(port)) + [Quoted(UNTAR)]
  }

  function SnapshotLine(obj: string, port: string): seq<Piece> {
    Args(SshWords(port)) + [Quoted(TAR), Blank, Op('|'), Blank] + Args(["mc", "pipe"]) + [Quoted(obj)]
  }

  /** A quoted string, a pipe, and whatever follows. */
  function Pipe(quoted: string, tail: seq<Piece>): seq<Piece> {
    [Quoted(quoted), Blank, Op('|'), Blank] + tail
  }

  lemma PipeMeaning(quoted: string, tail: seq<Piece>, out: seq<Token>)
    ensures Meaning(Pipe(quoted, tail), None, out) == Meaning(tail, None, out + [Word(quoted), Operator('|')])
  {
    var d := [Blank] + tail;
    var c := [Op('|')] + d;
    var b := [Blank] + c;
    assert Pipe(quoted, tail) == [Quoted(quoted)] + b;
    assert d[1..] == tail && c[1..] == d && b[1..] == c && ([Quoted(quoted)] + b)[1..] == b;
    assert "" + quoted == quoted;
    assert out + [Word(quoted)] + [Operator('|')] == out + [Word(quoted), Operator('|')];
    assert Meaning(b, Some(quoted), out) == Meaning(c, None, out + [Word(quoted)]);
    assert Meaning(c, None, out + [Word(quoted)]) == Meaning(d, None, out + [Word(quoted), Operator('|')]);
  }

  lemma PipeWellFormed(quoted: string, tail: seq<Piece>)
    requires WellFormed(tail)
    ensures WellFormed(Pipe(quoted, tail))
  {
    var d := [Blank] + tail;
    var c := [Op('|')] + d;
    var b := [Blank] + c;
    assert Pipe(quoted, tail) == [Quoted(quoted)] + b;
    assert d[1..] == tail && c[1..] == d && b[1..] == c && ([Quoted(quoted)] + b)[1..] == b;
    assert WellFormed(d) && WellFormed(c);
  }

  lemma LastMeaning(last: string, out: seq<Token>)
    ensures WellFormed([Quoted(last)])
    ensures Meaning([Quoted(last)], None, out) == out + [Word(last)]
  {
    var end := [Quoted(last)];
    assert end[1..] == [] && "" + last == last;
  }

  lemma PipedMeaning(left: seq<string>, quoted: string, right: seq<string>, last: string)
    requires forall i :: 0 <= i < |left| ==> OrdinaryText(left[i])
    requires forall i :: 0 <= i < |right| ==> OrdinaryText(right[i])
    ensures Shell(Render(Args(left) + [Quoted(quoted), Blank, Op('|'), Blank] + Args(right) + [Quoted(last)]))
            == Tokens(WordTokens(left) + [Word(quoted), Operator('|')] + WordTokens(right) + [Word(last)])
  {
    hide Meaning, WellFormed, Render, Shell, OrdinaryText, Args, WordTokens;
    var end := [Quoted(last)];
    var out := WordTokens(left);
    var piped := out + [Word(quoted), Operator('|')];
    var tail := Args(right) + end;
    LastMeaning(last, piped + WordTokens(right));
    ArgsWellFormed(right, end);
    PipeWellFormed(quoted, tail);
    ArgsWellFormed(left, Pipe(quoted, tail));
    assert Args(left) + [Quoted(quoted), Blank, Op('|'), Blank] + Args(right) + [Quoted(last)]
        == Args(left) + Pipe(quoted, tail);
    CommandRoundTrip(Args(left) + Pipe(quoted, tail));
    ArgsMeaning(left, Pipe(quoted, tail), []);
    assert [] + out == out;
    PipeMeaning(quoted, tail, out);
    ArgsMeaning(right, end, piped);
  }

  lemma ShortWordsOrdinary()
    ensures OrdinaryText("sshpass") && OrdinaryText("-e") && OrdinaryText("ssh") && OrdinaryText("-p")
        && OrdinaryText("-o")
  {
  }

  lemma KeyOptionOrdinary()
    ensures OrdinaryText("StrictHostKeyChecking=no")
  {
  }

  lemma TimeoutOptionOrdinary()
    ensures OrdinaryText("ConnectTimeout=15") && OrdinaryText("root@127.0.0.1")
  {
  }

  lemma HostsFileOrdinary()
    ensures OrdinaryText("UserKnownHostsFile=/dev/null")
  {
  }

  lemma SshWordsOrdinary(port: string)
    requires OrdinaryText(port)
    ensures forall i :: 0 <= i < |SshWords(port)| ==> OrdinaryText(SshWords(port)[i])
  {
    hide OrdinaryText;
    ShortWordsOrdinary();
    KeyOptionOrdinary();
    TimeoutOptionOrdinary();
    HostsFileOrdinary();
  }

  lemma PlainCommandsOrdinary(seconds: string)
    requires OrdinaryText(seconds)
    ensures OrdinaryText("mc") && OrdinaryText("cat") && OrdinaryText("pipe")
    ensures OrdinaryText("timeout") && OrdinaryText(seconds) && OrdinaryText("bash") && OrdinaryText("-c")
  {
  }

  /**
   * Restoring: the outer shell hands bash one line, and bash reads in it a two-stage pipeline whose
   * source object is exactly `obj`, whatever characters it has.
   */
  lemma RestoreReadsObject(obj: string, port: string, seconds: string)
    requires OrdinaryText(port) && OrdinaryText(seconds)
    ensures var line := Render(RestoreLine(obj, port));
            && Shell(Render(BashC(seconds, line)))
               == Tokens(WordTokens(["timeout", seconds, "bash", "-c"]) + [Word(line)])
            && Shell(line)
              == Tokens(WordTokens(["mc", "cat"]) + [Word(obj), Operator('|')] + WordTokens(SshWords(port))
                        + [Word(UNTAR)])
  {
    SshWordsOrdinary(port);
    PlainCommandsOrdinary(seconds);
    hide Shell, Render, OrdinaryText, Args, WordTokens, SshWords;
    PipedMeaning(["mc", "cat"], obj, SshWords(port), UNTAR);
    QuotedLast(["timeout", seconds, "bash", "-c"], Render(RestoreLine(obj, port)));
  }

  /** Snapshotting: likewise, and the object is the pipeline's destination. */
  lemma SnapshotReadsObject(obj: string, port: string, seconds: string)
    requires OrdinaryText(port) && OrdinaryText(seconds)
    ensures var line := Render(SnapshotLine(obj, port));
            && Shell(Render(BashC(seconds, line)))
               == Tokens(WordTokens(["timeout", seconds, "bash", "-c"]) + [Word(line)])
            && Shell(line)
              == Tokens(WordTokens(SshWords(port)) + [Word(TAR), Operator('|')] + WordTokens(["mc", "pipe"])
                        + [Word(obj)])
  {
    SshWordsOrdinary(port);
    PlainCommandsOrdinary(seconds);
    hide Shell, Render, OrdinaryText, Args, WordTokens, SshWords;
    PipedMeaning(SshWords(port), TAR, ["mc", "pipe"], obj);
    QuotedLast(["timeout", seconds, "bash", "-c"], Render(SnapshotLine(obj, port)));
  }
}

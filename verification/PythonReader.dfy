/**
  The scanner against a reader that also knows comments, and escapes in triple-quoted
  literals: when the two see the same literals.
 */
module PythonReader {
  import opened LiteralScanner

  datatype Place = Outside | Comment | Line(quote: char, escaped: bool) | Block(quote: char, escaped: bool)

  /** Where the scanner should be when the reader is here. */
  function Seen(p: Place): State {
    match p
    case Outside => Code
    case Comment => Code
    case Line(q, escaped) => Ordinary(q, escaped)
    case Block(q, _) => Triple(q)
  }

  predicate StartsCrLf(text: string) {
    |text| >= 2 && text[0] == '\r' && text[1] == '\n'
  }

  predicate Sane(p: Place) {
    Proper(Seen(p))
  }

  // ---- reading ------------------------------------------------------------------------------------

  function ReadWidth(p: Place, text: string): (n: nat)
    requires text != []
    ensures 1 <= n <= |text|
  {
    match p
    case Outside => Width(Code, text)
    case Comment => 1
    case Line(q, escaped) => if escaped && StartsCrLf(text) then 2 else Width(Ordinary(q, escaped), text)
    case Block(q, escaped) => if !escaped && StartsTriple(text, q) then 3 else 1
  }

  /** A raw line break in a single-line literal is taken as part of it, as its writer meant it. */
  function ReadAfter(p: Place, text: string): Place
    requires text != []
  {
    match p
    case Outside =>
      if text[0] == '#' then Comment
      else if !IsQuote(text[0]) then Outside
      else if StartsTriple(text, text[0]) then Block(text[0], false)
      else Line(text[0], false)
    case Comment => if IsNewline(text[0]) then Outside else Comment
    case Line(q, escaped) =>
      if escaped then Line(q, false)
      else if text[0] == '\\' then Line(q, true)
      else if text[0] == q then Outside
      else p
    case Block(q, escaped) =>
      if escaped then Block(q, false)
      else if text[0] == '\\' then Block(q, true)
      else if StartsTriple(text, q) then Outside
      else p
  }

  /** The text has no raw line break in a single-line literal: it is fine as it stands. */
  predicate Fine(p: Place, text: string)
    decreases |text|
  {
    text == [] || (!Offends(Seen(p), text) && Fine(ReadAfter(p, text), text[ReadWidth(p, text)..]))
  }

  // ---- where the two part --------------------------------------------------------------------------

  /**
    A quote in a comment; behind a backslash, three quotes in a triple-quoted literal, or a
    two-character line break in another.
   */
  predicate Trap(p: Place, text: string)
    requires text != []
  {
    || (p.Comment? && IsQuote(text[0]))
    || (p.Block? && p.escaped && StartsTriple(text, p.quote))
    || (p.Line? && p.escaped && StartsCrLf(text))
  }

  predicate Trapped(p: Place, text: string)
    decreases |text|
  {
    text != [] && (Trap(p, text) || Trapped(ReadAfter(p, text), text[ReadWidth(p, text)..]))
  }

  /** Token by token the scanner is where the reader is. */
  predicate InStep(p: Place, text: string)
    decreases |text|
  {
    text == [] ||
    (&& Width(Seen(p), text) == ReadWidth(p, text)
     && After(Seen(p), text) == Seen(ReadAfter(p, text))
     && InStep(ReadAfter(p, text), text[ReadWidth(p, text)..]))
  }

  lemma {:induction false} InStepExactly(p: Place, text: string)
    requires Sane(p)
    ensures InStep(p, text) <==> !Trapped(p, text)
    decreases |text|
  {
    if text != [] {
      InStepExactly(ReadAfter(p, text), text[ReadWidth(p, text)..]);
    }
  }

  lemma {:induction false} FineInStep(p: Place, text: string)
    requires InStep(p, text)
    ensures Fine(p, text) <==> Clean(Seen(p), text)
    decreases |text|
  {
    if text != [] {
      FineInStep(ReadAfter(p, text), text[ReadWidth(p, text)..]);
    }
  }

  // ---- what the scanner does to what the reader reads ------------------------------------------------

  lemma TrappedPrefixed(p: Place, head: string, rest: string)
    requires head != [] && ReadWidth(p, head + rest) == |head|
    ensures Trapped(p, head + rest) <==> Trap(p, head + rest) || Trapped(ReadAfter(p, head + rest), rest)
  {
    assert (head + rest)[|head|..] == rest;
  }

  /** A copied token is read as the same token. */
  lemma CopiedReadsTheSame(p: Place, text: string)
    requires Sane(p) && text != [] && !Offends(Seen(p), text) && !Trapped(p, text)
    ensures
      var out := Escape(Seen(p), text);
      out != [] && ReadWidth(p, out) == ReadWidth(p, text) && ReadAfter(p, out) == ReadAfter(p, text) && !Trap(p, out)
  {
    hide Trapped, Clean, Final;
    var st := Seen(p);
    EscapeHead(st, text);
    EmittedReadsTheSame(st, text, Escape(After(st, text), text[Width(st, text)..]));
    if p.Block? {
      TripleLooksTheSame(p.quote, text);
    }
    NoTrap(p, text);
    if p.Line? && p.escaped && |text| > 1 {
      EscapeHead(Ordinary(p.quote, false), text[1..]);
    }
  }

  lemma NoTrap(p: Place, text: string)
    requires text != [] && !Trapped(p, text)
    ensures !Trap(p, text)
  {
  }

  lemma {:induction false} EscapeUntrapped(p: Place, text: string)
    requires Sane(p) && !Trapped(p, text)
    ensures !Trapped(p, Escape(Seen(p), text))
    decreases |text|
  {
    if text != [] {
      var st, w := Seen(p), ReadWidth(p, text);
      InStepExactly(p, text);
      var rest := Escape(After(st, text), text[w..]);
      EscapeUntrapped(ReadAfter(p, text), text[w..]);
      if Offends(st, text) {
        assert "\\n" + rest == ['\\'] + (['n'] + rest);
        TrappedPrefixed(p, ['\\'], ['n'] + rest);
        TrappedPrefixed(Line(p.quote, true), ['n'], rest);
      } else {
        CopiedReadsTheSame(p, text);
        TrappedPrefixed(p, text[..w], rest);
      }
    }
  }

  /**
    Where the reader meets no trap, scanner and reader agree throughout, so the rewriting
    leaves exactly the fine texts alone and makes the others fine.
   */
  lemma UntrappedIsRepaired(text: string)
    requires !Trapped(Outside, text)
    ensures InStep(Outside, text)
    ensures Escape(Code, text) == text <==> Fine(Outside, text)
    ensures Fine(Outside, Escape(Code, text)) && !Trapped(Outside, Escape(Code, text))
  {
    InStepExactly(Outside, text);
    FineInStep(Outside, text);
    ChangedExactlyWhenBroken(Code, text);
    EscapeUntrapped(Outside, text);
    InStepExactly(Outside, Escape(Code, text));
    FineInStep(Outside, Escape(Code, text));
    EscapeCleans(Code, text);
  }

  /**
    For texts that are fine: one is changed exactly if it has a trap and the scanner, misled,
    comes upon a line break it takes to be in a single-line literal.
   */
  lemma FineChangedExactly(text: string)
    requires Fine(Outside, text)
    ensures Escape(Code, text) != text <==> Trapped(Outside, text) && !Clean(Code, text)
  {
    ChangedExactlyWhenBroken(Code, text);
    if !Trapped(Outside, text) {
      UntrappedIsRepaired(text);
    }
  }

  /** Traps can be harmless, as paired quotes in a comment are ... */
  lemma QuotedWordInComment(text: string)
    requires text == "#'a'"
    ensures Fine(Outside, text) && Trapped(Outside, text) && Escape(Code, text) == text
  {
    hide Fine, Trapped, Clean;
    ReadOn(Comment, text, 4);
    ReadOn(Comment, text, 3);
    ReadOn(Comment, text, 2);
    ReadOn(Comment, text, 1);
    ReadOn(Outside, text, 0);
    TrapAhead(text);
    CleanOn(Code, text, 4);
    CleanOn(Ordinary('\'', false), text, 3);
    CleanOn(Ordinary('\'', false), text, 2);
    CleanOn(Code, text, 1);
    CleanOn(Code, text, 0);
    assert text[0..] == text;
    ChangedExactlyWhenBroken(Code, text);
  }

  lemma TrapAhead(text: string)
    requires |text| >= 2 && text[0] == '#' && IsQuote(text[1])
    ensures Trapped(Outside, text)
  {
    assert text[1..][0] == text[1];
    assert Trapped(Comment, text[1..]);
  }

  lemma CleanOn(st: State, text: string, i: nat)
    requires i <= |text|
    ensures i == |text| ==> Clean(st, text[i..])
    ensures i < |text| ==>
              var rest := text[i..];
              && i + Width(st, rest) <= |text|
              && (Clean(st, rest) <==> !Offends(st, rest) && Clean(After(st, rest), text[i + Width(st, rest)..]))
  {
    if i < |text| {
      Advance(text, i, st);
    }
  }

  /** ... or not, as these are not: an apostrophe in a comment, */
  lemma ApostropheInComment(text: string)
    requires text == "#'\n"
    ensures Fine(Outside, text) && Escape(Code, text) == "#'\\n"
  {
    assert text[1..] == "'\n" && text[2..] == "\n" && text[1..][1..] == "\n" && text[2..][1..] == "";
    assert Fine(Outside, text[2..][1..]);
    assert ReadAfter(Outside, text) == Comment && ReadAfter(Comment, text[1..]) == Comment;
    assert Fine(Comment, text[2..]) && Fine(Comment, text[1..]);
    assert Escape(Ordinary('\'', false), "\n") == "\\n";
    assert Escape(Code, "'\n") == "'" + Escape(Ordinary('\'', false), "\n");
    assert Escape(Code, text) == "#" + Escape(Code, "'\n");
  }

  /** an escaped quote before two more in a triple-quoted literal, */
  const BLOCK: string := ['"', '"', '"', '\\', '"', '"', '"', '\'', '\n', '"', '"', '"']

  lemma EscapedQuoteInBlock()
    ensures Fine(Outside, BLOCK)
    ensures Escape(Code, BLOCK) == BLOCK[..8] + "\\n" + BLOCK[9..]
  {
    hide Fine, Escape;
    var open, escaped := Block('"', false), Block('"', true);
    ReadOn(Outside, BLOCK, 12);
    ReadOn(open, BLOCK, 9);
    ReadOn(open, BLOCK, 8);
    ReadOn(open, BLOCK, 7);
    ReadOn(open, BLOCK, 6);
    ReadOn(open, BLOCK, 5);
    ReadOn(escaped, BLOCK, 4);
    ReadOn(open, BLOCK, 3);
    ReadOn(Outside, BLOCK, 0);
    assert BLOCK[0..] == BLOCK;
    BlockScanned();
  }

  lemma BlockScanned()
    ensures Escape(Code, BLOCK) == BLOCK[..8] + "\\n" + BLOCK[9..]
  {
    hide Escape;
    LineScanned();
    ScanOn(Code, BLOCK, 7);
    ScanOn(Triple('"'), BLOCK, 4);
    ScanOn(Triple('"'), BLOCK, 3);
    ScanOn(Code, BLOCK, 0);
    assert BLOCK[0..] == BLOCK;
  }

  lemma LineScanned()
    ensures Escape(Ordinary('\'', false), BLOCK[8..]) == "\\n" + BLOCK[9..]
  {
    hide Escape;
    var line := Ordinary('\'', false);
    ScanOn(line, BLOCK, 12);
    ScanOn(line, BLOCK, 11);
    ScanOn(line, BLOCK, 10);
    ScanOn(line, BLOCK, 9);
    ScanOn(line, BLOCK, 8);
  }

  /** a continued line of a text with two-character line breaks. */
  lemma ContinuedLine(text: string)
    requires text == ['\'', '\\', '\r', '\n', '\'']
    ensures Fine(Outside, text) && Escape(Code, text) == ['\'', '\\', '\r', '\\', 'n', '\'']
  {
    hide Fine, Escape;
    ReadOn(Outside, text, 5);
    ReadOn(Line('\'', false), text, 4);
    ReadOn(Line('\'', true), text, 2);
    ReadOn(Line('\'', false), text, 1);
    ReadOn(Outside, text, 0);
    ScanOn(Code, text, 5);
    ScanOn(Ordinary('\'', false), text, 4);
    ScanOn(Ordinary('\'', false), text, 3);
    ScanOn(Ordinary('\'', true), text, 2);
    ScanOn(Ordinary('\'', false), text, 1);
    ScanOn(Code, text, 0);
    assert text[0..] == text;
  }

  /** One token of the reader, from position `i` on. */
  lemma ReadOn(p: Place, text: string, i: nat)
    requires i <= |text|
    ensures i == |text| ==> Fine(p, text[i..])
    ensures i < |text| ==>
              var rest := text[i..];
              && i + ReadWidth(p, rest) <= |text|
              && rest[0] == text[i]
              && (Fine(p, rest) <==>
                    !Offends(Seen(p), rest) && Fine(ReadAfter(p, rest), text[i + ReadWidth(p, rest)..]))
  {
    if i < |text| {
      assert text[i..][ReadWidth(p, text[i..])..] == text[i + ReadWidth(p, text[i..])..];
    }
  }

  /** One token of the scanner. */
  lemma ScanOn(st: State, text: string, i: nat)
    requires i <= |text|
    ensures i == |text| ==> Escape(st, text[i..]) == ""
    ensures i < |text| ==>
              var rest := text[i..];
              && i + Width(st, rest) <= |text|
              && Escape(st, rest) == Emit(st, rest) + Escape(After(st, rest), text[i + Width(st, rest)..])
  {
    if i < |text| {
      Advance(text, i, st);
    }
  }
}

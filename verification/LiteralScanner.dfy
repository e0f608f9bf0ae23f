/**
  Normalizing raw newlines inside single-line Python string literals: a scanner over
  quote, triple and escape state.
 */
module LiteralScanner {
  import opened Basics

  datatype State = Code | Ordinary(quote: char, escaped: bool) | Triple(quote: char)

  predicate IsQuote(c: char) {
    c == '\'' || c == '"'
  }

  predicate Proper(st: State) {
    !st.Code? ==> IsQuote(st.quote)
  }

  predicate IsNewline(c: char) {
    c == '\r' || c == '\n'
  }

  predicate StartsTriple(text: string, q: char) {
    |text| >= 3 && text[0] == q && text[1] == q && text[2] == q
  }

  // ---- reading: how much the next token is, and the state after it ----------------------

  /** A newline that would end a single-line literal early. */
  predicate Offends(st: State, text: string)
    requires text != []
  {
    st.Ordinary? && !st.escaped && IsNewline(text[0])
  }

  function Width(st: State, text: string): (n: nat)
    requires text != []
    ensures 1 <= n <= |text|
  {
    match st
    case Code => if IsQuote(text[0]) && StartsTriple(text, text[0]) then 3 else 1
    case Triple(q) => if StartsTriple(text, q) then 3 else 1
    case Ordinary(q, escaped) => if Offends(st, text) && text[0] == '\r' && |text| > 1 && text[1] == '\n' then 2 else 1
  }

  function After(st: State, text: string): State
    requires text != []
  {
    match st
    case Code =>
      if !IsQuote(text[0]) then Code
      else if StartsTriple(text, text[0]) then Triple(text[0])
      else Ordinary(text[0], false)
    case Triple(q) => if StartsTriple(text, q) then Code else st
    case Ordinary(q, escaped) =>
      if escaped then Ordinary(q, false)
      else if text[0] == '\\' then Ordinary(q, true)
      else if text[0] == q then Code
      else st
  }

  /** The state a text leaves the scanner in. */
  function Final(st: State, text: string): State
    decreases |text|
  {
    if text == [] then st else Final(After(st, text), text[Width(st, text)..])
  }

  /** No single-line literal of the text holds an unescaped newline. */
  predicate Clean(st: State, text: string)
    decreases |text|
  {
    text == [] || (!Offends(st, text) && Clean(After(st, text), text[Width(st, text)..]))
  }

  // ---- rewriting ---------------------------------------------------------------------------

  function Emit(st: State, text: string): string
    requires text != []
  {
    if Offends(st, text) then "\\n" else text[..Width(st, text)]
  }

  /** Every offending newline becomes a backslash and an `n`; everything else is copied. */
  function Escape(st: State, text: string): string
    decreases |text|
  {
    if text == [] then [] else Emit(st, text) + Escape(After(st, text), text[Width(st, text)..])
  }

  // ---- looking ahead in the output sees what looking ahead in the input saw -----------------

  lemma EscapeHead(st: State, text: string)
    requires text != [] && Proper(st)
    ensures Escape(st, text) != []
    ensures !Offends(st, text) ==> Escape(st, text)[0] == text[0]
    ensures Offends(st, text) ==> Escape(st, text)[0] == '\\'
  {
  }

  /** Copying inside a triple-quoted literal neither makes nor breaks a closing quote. */
  lemma TripleLooksTheSame(q: char, text: string)
    requires IsQuote(q)
    ensures StartsTriple(Escape(Triple(q), text), q) <==> StartsTriple(text, q)
  {
    var st := Triple(q);
    var out := Escape(st, text);
    if StartsTriple(text, q) {
      assert out[..3] == text[..3];
      assert out[0] == q && out[1] == q && out[2] == q;
    } else if |text| > 0 && text[0] == q {
      Copied(st, text);
      if |text| > 1 && text[1] == q {
        Copied(st, text[1..]);
        if |text| > 2 {
          EscapeHead(st, text[2..]);
        }
      } else if |text| > 1 {
        EscapeHead(st, text[1..]);
      }
    } else if |text| > 0 {
      EscapeHead(st, text);
    }
  }

  lemma Copied(st: State, text: string)
    requires text != [] && !Offends(st, text) && Width(st, text) == 1
    ensures Escape(st, text) == [text[0]] + Escape(After(st, text), text[1..])
  {
  }

  /** An opening quote that was not a triple quote does not become one. */
  lemma OpeningStaysSingle(q: char, rest: string)
    requires IsQuote(q) && !StartsTriple([q] + rest, q)
    ensures !StartsTriple([q] + Escape(Ordinary(q, false), rest), q)
  {
    var st := Ordinary(q, false);
    if rest != [] {
      EscapeHead(st, rest);
      if rest[0] == q {
        Copied(st, rest);
        if |rest| > 1 {
          assert ([q] + rest)[2] == rest[1];
          EscapeHead(Code, rest[1..]);
        }
      }
    }
  }

  // ---- what the rewriting achieves ----------------------------------------------------------

  lemma Prefixed(st: State, head: string, rest: string)
    requires head != [] && Width(st, head + rest) == |head|
    ensures (head + rest)[Width(st, head + rest)..] == rest
    ensures Final(st, head + rest) == Final(After(st, head + rest), rest)
    ensures Clean(st, head + rest) <==> !Offends(st, head + rest) && Clean(After(st, head + rest), rest)
  {
    assert (head + rest)[|head|..] == rest;
  }

  /**
    The output holds no unescaped newline in a single-line literal, and reading it ends in
    the same quote, triple and escape state as reading the input.
   */
  lemma {:induction false} EscapeCleans(st: State, text: string)
    requires Proper(st)
    ensures Clean(st, Escape(st, text))
    ensures Final(st, Escape(st, text)) == Final(st, text)
    decreases |text|
  {
    if text != [] {
      var w := Width(st, text);
      var rest := Escape(After(st, text), text[w..]);
      EscapeCleans(After(st, text), text[w..]);
      var out := Emit(st, text) + rest;
      if Offends(st, text) {
        EscapedNewlineReads(st.quote, rest);
      } else {
        EmittedReadsTheSame(st, text, rest);
        Prefixed(st, text[..w], rest);
      }
    }
  }

  /** A written backslash and `n` leave the scanner where it was. */
  lemma EscapedNewlineReads(q: char, rest: string)
    requires IsQuote(q)
    ensures Final(Ordinary(q, false), "\\n" + rest) == Final(Ordinary(q, false), rest)
    ensures Clean(Ordinary(q, false), "\\n" + rest) <==> Clean(Ordinary(q, false), rest)
  {
    assert "\\n" + rest == ['\\'] + (['n'] + rest);
    Prefixed(Ordinary(q, false), ['\\'], ['n'] + rest);
    Prefixed(Ordinary(q, true), ['n'], rest);
  }

  /** The copied token is read back as the same token. */
  lemma EmittedReadsTheSame(st: State, text: string, rest: string)
    requires Proper(st) && text != [] && !Offends(st, text)
    requires rest == Escape(After(st, text), text[Width(st, text)..])
    ensures
      var out := text[..Width(st, text)] + rest;
      !Offends(st, out) && Width(st, out) == Width(st, text) && After(st, out) == After(st, text)
  {
    var out := text[..Width(st, text)] + rest;
    assert out[0] == text[0];
    match st {
      case Code =>
        if IsQuote(text[0]) && !StartsTriple(text, text[0]) {
          assert text == [text[0]] + text[1..];
          OpeningStaysSingle(text[0], text[1..]);
          assert out == [text[0]] + rest;
        }
      case Triple(q) =>
        TripleLooksTheSame(q, text);
        assert out == Escape(st, text);
      case Ordinary(q, escaped) =>
    }
  }

  /** Clean text is left alone. */
  lemma {:induction false} CleanUnchanged(st: State, text: string)
    requires Clean(st, text)
    ensures Escape(st, text) == text
    decreases |text|
  {
    if text != [] {
      CleanUnchanged(After(st, text), text[Width(st, text)..]);
      assert text == text[..Width(st, text)] + text[Width(st, text)..];
    }
  }

  /** Text is changed exactly when a single-line literal of it holds an unescaped newline. */
  lemma ChangedExactlyWhenBroken(st: State, text: string)
    requires Proper(st)
    ensures Escape(st, text) == text <==> Clean(st, text)
  {
    EscapeCleans(st, text);
    if Clean(st, text) {
      CleanUnchanged(st, text);
    }
  }

  /** A second pass does nothing. */
  lemma EscapeIdempotent(st: State, text: string)
    requires Proper(st)
    ensures Escape(st, Escape(st, text)) == Escape(st, text)
  {
    EscapeCleans(st, text);
    CleanUnchanged(st, Escape(st, text));
  }

  // ---- what the text says ---------------------------------------------------------------------

  /** What a reader gets from the text: copied pieces, and line breaks inside single-line literals. */
  datatype Token = Piece(text: string) | LineBreak

  /** A raw line break in a single-line literal and a written backslash-`n` say the same. */
  function TokenOf(st: State, text: string): seq<Token>
    requires text != []
  {
    if Offends(st, text) then [LineBreak]
    else if st.Ordinary? && st.escaped then [if text[0] == 'n' then LineBreak else Piece(['\\', text[0]])]
    else if st.Ordinary? && text[0] == '\\' then []
    else [Piece(text[..Width(st, text)])]
  }

  function Tokens(st: State, text: string): seq<Token>
    decreases |text|
  {
    if text == [] then [] else TokenOf(st, text) + Tokens(After(st, text), text[Width(st, text)..])
  }

  lemma TokensPrefixed(st: State, head: string, rest: string)
    requires head != [] && Width(st, head + rest) == |head|
    ensures Tokens(st, head + rest) == TokenOf(st, head + rest) + Tokens(After(st, head + rest), rest)
  {
    assert (head + rest)[|head|..] == rest;
  }

  lemma EscapedNewlineSays(q: char, rest: string)
    requires IsQuote(q)
    ensures Tokens(Ordinary(q, false), "\\n" + rest) == [LineBreak] + Tokens(Ordinary(q, false), rest)
  {
    assert "\\n" + rest == ['\\'] + (['n'] + rest);
    TokensPrefixed(Ordinary(q, false), ['\\'], ['n'] + rest);
    TokensPrefixed(Ordinary(q, true), ['n'], rest);
  }

  /** The output says what the input said: nothing is dropped, added or moved. */
  lemma {:induction false} EscapeKeepsMeaning(st: State, text: string)
    requires Proper(st)
    ensures Tokens(st, Escape(st, text)) == Tokens(st, text)
    decreases |text|
  {
    if text != [] {
      var w := Width(st, text);
      var rest := Escape(After(st, text), text[w..]);
      EscapeKeepsMeaning(After(st, text), text[w..]);
      if Offends(st, text) {
        EscapedNewlineSays(st.quote, rest);
      } else {
        EmittedReadsTheSame(st, text, rest);
        assert (text[..w] + rest)[..w] == text[..w];
        TokensPrefixed(st, text[..w], rest);
      }
    }
  }

  // ---- the scanner --------------------------------------------------------------------------

  ghost function StateOf(quote: Option<char>, triple: bool, escaped: bool): State {
    if quote.None? then Code else if triple then Triple(quote.value) else Ordinary(quote.value, escaped)
  }

  lemma Advance(text: string, i: nat, st: State)
    requires i < |text|
    ensures i + Width(st, text[i..]) <= |text|
    ensures text[i..][Width(st, text[i..])..] == text[i + Width(st, text[i..])..]
    ensures Escape(st, text[i..])
        == Emit(st, text[i..]) + Escape(After(st, text[i..]), text[i + Width(st, text[i..])..])
  {
  }

  /** One character, or one line break, inside an ordinary literal. */
  method OrdinaryStep(text: string, i: nat, quote: char, escaped: bool)
    returns (copied: string, width: nat, open: bool, escaped': bool)
    requires i < |text| && IsQuote(quote)
    ensures
      var st := Ordinary(quote, escaped);
      && copied == Emit(st, text[i..]) && width == Width(st, text[i..])
      && After(st, text[i..]) == (if open then Ordinary(quote, escaped') else Code)
  {
    var ch := text[i];
    copied, width, open, escaped' := [ch], 1, true, false;
    if escaped {
    } else if ch == '\\' {
      escaped' := true;
    } else if ch == quote {
      open := false;
    } else if ch == '\r' || ch == '\n' {
      copied := "\\n";
      if ch == '\r' && i + 1 < |text| && text[i + 1] == '\n' {
        width := 2;
      }
    }
  }

  /** One token inside a triple-quoted literal: its closing quote, or one character. */
  method TripleStep(text: string, i: nat, quote: char) returns (copied: string, width: nat, open: bool)
    requires i < |text|
    ensures copied == Emit(Triple(quote), text[i..]) && width == Width(Triple(quote), text[i..])
    ensures After(Triple(quote), text[i..]) == if open then Triple(quote) else Code
  {
    if StartsTriple(text[i..], quote) {
      return [quote, quote, quote], 3, false;
    }
    return [text[i]], 1, true;
  }

  /** One token outside literals: an opening quote, single or triple, or one character. */
  method CodeStep(text: string, i: nat) returns (copied: string, width: nat, quote: Option<char>, triple: bool)
    requires i < |text|
    ensures copied == Emit(Code, text[i..]) && width == Width(Code, text[i..])
    ensures After(Code, text[i..]) == StateOf(quote, triple, false) && (quote.None? ==> !triple)
    ensures Proper(StateOf(quote, triple, false))
  {
    var ch := text[i];
    if !IsQuote(ch) {
      return [ch], 1, None, false;
    }
    if StartsTriple(text[i..], ch) {
      return [ch, ch, ch], 3, Some(ch), true;
    }
    return [ch], 1, Some(ch), false;
  }

  method EscapePythonLiteralNewlines(text: string) returns (result: string)
    ensures result == Escape(Code, text)
    ensures Clean(Code, result)
    ensures result == text <==> Clean(Code, text)
  {
    hide Escape, Clean, StartsTriple, Final, Emit, Width, After, Offends;
    var out, quote, triple, escaped, i := [], None, false, false, 0;
    assert text[0..] == text;
    while i < |text|
      invariant 0 <= i <= |text|
      invariant Proper(StateOf(quote, triple, escaped)) && (quote.None? ==> !triple)
      invariant out + Escape(StateOf(quote, triple, escaped), text[i..]) == Escape(Code, text)
    {
      Advance(text, i, StateOf(quote, triple, escaped));
      var copied, width;
      if quote.Some? {
        var open;
        if triple {
          copied, width, open := TripleStep(text, i, quote.value);
          triple := open;
        } else {
          copied, width, open, escaped := OrdinaryStep(text, i, quote.value, escaped);
        }
        quote := if open then quote else None;
      } else {
        copied, width, quote, triple := CodeStep(text, i);
        escaped := false;
      }
      ghost var rest := Escape(StateOf(quote, triple, escaped), text[i + width..]);
      assert out + (copied + rest) == (out + copied) + rest;
      out := out + copied;
      i := i + width;
    }
    assert text[i..] == [];
    EmptyEscape(StateOf(quote, triple, escaped));
    assert out + [] == out;
    EscapeCleans(Code, text);
    ChangedExactlyWhenBroken(Code, text);
    result := out;
  }

  lemma EmptyEscape(st: State)
    ensures Escape(st, []) == []
  {
  }
}

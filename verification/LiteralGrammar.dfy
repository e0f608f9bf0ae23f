/**
  What the scanner does to whole pieces of a program: code without quotes, single-line
  literals and triple-quoted literals.
 */
module LiteralGrammar {
  import opened LiteralScanner

  lemma StepOn(st: State, text: string, w: nat)
    requires text != [] && Width(st, text) == w
    ensures w <= |text| && Escape(st, text) == Emit(st, text) + Escape(After(st, text), text[w..])
  {
  }

  // ---- code -----------------------------------------------------------------------------------

  /** Code without quotes is copied. */
  lemma {:induction false} CodeCopied(code: string, rest: string)
    requires '\'' !in code && '"' !in code
    ensures Escape(Code, code + rest) == code + Escape(Code, rest)
  {
    hide Escape;
    if code == "" {
      assert code + rest == rest;
    } else {
      var text := code + rest;
      assert text == [code[0]] + (code[1..] + rest) && text[1..] == code[1..] + rest;
      StepOn(Code, text, 1);
      CodeCopied(code[1..], rest);
      assert code == [code[0]] + code[1..];
    }
  }

  // ---- single-line literals ----------------------------------------------------------------------

  /** The content of a literal: single characters, and backslashes with the character they escape. */
  datatype Unit = Char(c: char) | Pair(c: char)

  predicate Within(units: seq<Unit>, q: char) {
    forall u :: u in units && u.Char? ==> u.c != q && u.c != '\\'
  }

  function Spelled(u: Unit): string {
    match u
    case Char(c) => [c]
    case Pair(c) => ['\\', c]
  }

  function Written(units: seq<Unit>): string {
    if units == [] then "" else Spelled(units[0]) + Written(units[1..])
  }

  /** Each raw line break, of one character or two, becomes a backslash and an `n`. */
  function Repaired(units: seq<Unit>): string {
    if units == [] then ""
    else if units[0] == Char('\r') && |units| > 1 && units[1] == Char('\n') then "\\n" + Repaired(units[2..])
    else if units[0] == Char('\r') || units[0] == Char('\n') then "\\n" + Repaired(units[1..])
    else Spelled(units[0]) + Repaired(units[1..])
  }

  /** A backslash and the character it escapes are copied, whatever that character is. */
  lemma PairCopied(q: char, c: char, next: string)
    requires q == '\'' || q == '"'
    ensures Escape(Ordinary(q, false), ['\\', c] + next) == ['\\', c] + Escape(Ordinary(q, false), next)
  {
    hide Escape;
    var text := ['\\', c] + next;
    assert text[1..] == [c] + next && text[1..][1..] == next;
    StepOn(Ordinary(q, false), text, 1);
    StepOn(Ordinary(q, true), text[1..], 1);
    assert text[..1] == ['\\'] && text[1..][..1] == [c];
    assert Escape(Ordinary(q, false), text) == ['\\'] + ([c] + Escape(Ordinary(q, false), next));
  }

  lemma BreakRepaired(q: char, raw: string, next: string)
    requires (q == '\'' || q == '"') && (raw == "\r\n" || raw == "\r" || raw == "\n")
    requires raw == "\r" ==> next == "" || next[0] != '\n'
    ensures Escape(Ordinary(q, false), raw + next) == "\\n" + Escape(Ordinary(q, false), next)
  {
    hide Escape;
    var text := raw + next;
    assert text[|raw|..] == next && text[0] == raw[0];
    StepOn(Ordinary(q, false), text, |raw|);
  }

  lemma CharCopied(q: char, c: char, next: string)
    requires (q == '\'' || q == '"') && c != q && c != '\\' && c != '\r' && c != '\n'
    ensures Escape(Ordinary(q, false), [c] + next) == [c] + Escape(Ordinary(q, false), next)
  {
    hide Escape;
    var text := [c] + next;
    assert text[1..] == next && text[..1] == [c];
    StepOn(Ordinary(q, false), text, 1);
  }

  /** The first unit, and what becomes of it: it takes its line feed with it if it is a carriage return. */
  lemma FirstUnit(units: seq<Unit>)
    requires units != []
    ensures units[0].Pair? ==>
              && Written(units) == ['\\', units[0].c] + Written(units[1..])
              && Repaired(units) == ['\\', units[0].c] + Repaired(units[1..])
    ensures units[0].Char? && units[0].c != '\r' && units[0].c != '\n' ==>
              && Written(units) == [units[0].c] + Written(units[1..])
              && Repaired(units) == [units[0].c] + Repaired(units[1..])
    ensures units[0].Char? && (units[0].c == '\r' || units[0].c == '\n') ==>
              var n := if units[0].c == '\r' && |units| > 1 && units[1] == Char('\n') then 2 else 1;
              && Written(units) == (if n == 2 then "\r\n" else [units[0].c]) + Written(units[n..])
              && Repaired(units) == "\\n" + Repaired(units[n..])
              && (units[0].c == '\r' && n == 1 ==> units[1..] == [] || units[1..][0] != Char('\n'))
  {
    if |units| > 1 {
      assert units[1..][0] == units[1] && units[1..][1..] == units[2..];
      Joined(Spelled(units[0]), Spelled(units[1]), Written(units[2..]));
    }
  }

  lemma Joined(head: string, tail: string, end: string)
    ensures (head + tail) + end == head + (tail + end)
  {
  }

  /** Inside a literal, up to and with its closing quote. */
  lemma {:induction false} ContentRepaired(q: char, units: seq<Unit>, rest: string)
    requires (q == '\'' || q == '"') && Within(units, q)
    ensures Escape(Ordinary(q, false), Written(units) + ([q] + rest)) == Repaired(units) + ([q] + Escape(Code, rest))
    decreases |units|
  {
    hide Escape;
    var end, end' := [q] + rest, [q] + Escape(Code, rest);
    if units == [] {
      assert Written(units) + end == end && end[1..] == rest;
      StepOn(Ordinary(q, false), end, 1);
    } else {
      hide After, Emit, Width, Written, Repaired;
      var u := units[0];
      assert u in units;
      FirstUnit(units);
      var n := if u == Char('\r') && |units| > 1 && units[1] == Char('\n') then 2 else 1;
      var tail, tail' := Written(units[n..]), Repaired(units[n..]);
      ContentRepaired(q, units[n..], rest);
      if u.Pair? {
        Joined(['\\', u.c], tail, end);
        Joined(['\\', u.c], tail', end');
        PairCopied(q, u.c, tail + end);
      } else if u.c == '\r' || u.c == '\n' {
        var raw := if n == 2 then "\r\n" else [u.c];
        Joined(raw, tail, end);
        Joined("\\n", tail', end');
        if raw == "\r" {
          NotLineFeed(q, units[1..], rest);
        }
        BreakRepaired(q, raw, tail + end);
      } else {
        Joined([u.c], tail, end);
        Joined([u.c], tail', end');
        CharCopied(q, u.c, tail + end);
      }
    }
  }

  lemma NotLineFeed(q: char, units: seq<Unit>, rest: string)
    requires (q == '\'' || q == '"') && (units == [] || units[0] != Char('\n'))
    ensures (Written(units) + ([q] + rest))[0] != '\n'
  {
  }

  /** In a single-line literal the raw line breaks are repaired and nothing else changes; the rest is read afresh. */
  lemma LineRepaired(q: char, units: seq<Unit>, rest: string)
    requires (q == '\'' || q == '"') && Within(units, q) && (units != [] || rest == [] || rest[0] != q)
    ensures Escape(Code, [q] + Written(units) + [q] + rest) == [q] + Repaired(units) + [q] + Escape(Code, rest)
  {
    hide Escape;
    var text := [q] + Written(units) + [q] + rest;
    var inner := Written(units) + ([q] + rest);
    assert text == [q] + inner && text[1..] == inner;
    assert !StartsTriple(text, q) by {
      if units != [] {
        assert units[0] in units;
        assert inner[0] != q;
      }
    }
    StepOn(Code, text, 1);
    ContentRepaired(q, units, rest);
    assert [q] + (Repaired(units) + ([q] + Escape(Code, rest))) == [q] + Repaired(units) + [q] + Escape(Code, rest);
  }

  // ---- triple-quoted literals --------------------------------------------------------------------

  /** The closing quotes are the first three in a row. */
  ghost predicate ClosesFirst(body: string, q: char) {
    forall i :: 0 <= i < |body| ==> !StartsTriple((body + [q, q, q])[i..], q)
  }

  lemma {:induction false} BodyCopied(q: char, body: string, rest: string)
    requires (q == '\'' || q == '"') && ClosesFirst(body, q)
    ensures Escape(Triple(q), body + ([q, q, q] + rest)) == body + ([q, q, q] + Escape(Code, rest))
    decreases |body|
  {
    hide Escape;
    var text := body + ([q, q, q] + rest);
    if body == "" {
      assert text[..3] == [q, q, q] && text[3..] == rest;
      StepOn(Triple(q), text, 3);
    } else {
      var tail := body[1..];
      assert text[..1] == [body[0]] && text[1..] == tail + ([q, q, q] + rest);
      assert !StartsTriple(text, q) by {
        var closed := body + [q, q, q];
        assert closed[0..] == closed && text[..3] == closed[..3];
        assert !StartsTriple(closed[0..], q);
        assert text[0] == text[..3][0] && text[1] == text[..3][1] && text[2] == text[..3][2];
        assert closed[0] == closed[..3][0] && closed[1] == closed[..3][1] && closed[2] == closed[..3][2];
      }
      assert ClosesFirst(tail, q) by {
        forall i | 0 <= i < |tail|
          ensures !StartsTriple((tail + [q, q, q])[i..], q)
        {
          assert (tail + [q, q, q])[i..] == (body + [q, q, q])[i + 1..];
        }
      }
      StepOn(Triple(q), text, 1);
      BodyCopied(q, tail, rest);
    }
  }

  /** A triple-quoted literal is copied, line breaks and all. */
  lemma BlockCopied(q: char, body: string, rest: string)
    requires (q == '\'' || q == '"') && ClosesFirst(body, q)
    ensures Escape(Code, [q, q, q] + body + [q, q, q] + rest) == [q, q, q] + body + [q, q, q] + Escape(Code, rest)
  {
    hide Escape;
    var text := [q, q, q] + body + [q, q, q] + rest;
    assert text[..3] == [q, q, q] && text[3..] == body + ([q, q, q] + rest);
    StepOn(Code, text, 3);
    BodyCopied(q, body, rest);
  }
}

/** Where comments and quoted text end, shared by the two source strippers. */
module Lexing {
  import opened Prelude

  /** The white space of Python strings. */
  predicate IsSpace(c: char) {
    || '\t' <= c <= '\r' || '\U{1C}' <= c <= ' ' || c == '\U{85}' || c == '\U{A0}' || c == '\U{1680}'
    || '\U{2000}' <= c <= '\U{200A}' || c == '\U{2028}' || c == '\U{2029}' || c == '\U{202F}'
    || c == '\U{205F}' || c == '\U{3000}'
  }

  function Spaces(n: nat): (s: string)
    ensures |s| == n && forall k | 0 <= k < n :: s[k] == ' '
  {
    seq(n, _ => ' ')
  }

  function Prepend(s: string, rest: Option<string>): Option<string> {
    if rest.None? then None else Some(s + rest.value)
  }

  lemma PrependTwice(a: string, b: string, rest: Option<string>)
    ensures Prepend(a, Prepend(b, rest)) == Prepend(a + b, rest)
  {
    if rest.Some? {
      assert a + (b + rest.value) == a + b + rest.value;
    }
  }

  lemma PrependNothing(rest: Option<string>)
    ensures Prepend("", rest) == rest
  {
    if rest.Some? {
      assert "" + rest.value == rest.value;
    }
  }

  predicate At(src: string, i: nat, text: string) {
    i + |text| <= |src| && src[i..i + |text|] == text
  }

  predicate Pair(src: string, i: nat, first: char, second: char) {
    i + 1 < |src| && src[i] == first && src[i + 1] == second
  }

  /** The end of the line: the next newline, or the end of the text. */
  function LineEnd(src: string, i: nat): (e: nat)
    requires i <= |src|
    ensures i <= e <= |src|
    ensures e == |src| || src[e] == '\n'
    ensures forall k | i <= k < e :: src[k] != '\n'
    decreases |src| - i
  {
    if i == |src| || src[i] == '\n' then i else LineEnd(src, i + 1)
  }

  /** The end of the first occurrence of a text. */
  function EndOfFirst(src: string, i: nat, text: string): (e: Option<nat>)
    requires i <= |src| && text != []
    ensures e.None? ==> forall k | i <= k <= |src| :: !At(src, k, text)
    ensures e.Some? ==> i + |text| <= e.value <= |src| && At(src, e.value - |text|, text)
    ensures e.Some? ==> forall k | i <= k < e.value - |text| :: !At(src, k, text)
    decreases |src| - i
  {
    if At(src, i, text) then Some(i + |text|) else if i == |src| then None else EndOfFirst(src, i + 1, text)
  }

  /** The end of a quoted text: a backslash takes the next character with it. */
  function QuoteEnd(src: string, i: nat, quote: char): (e: Option<nat>)
    requires i <= |src|
    ensures e.Some? ==> i < e.value <= |src| && src[e.value - 1] == quote
    decreases |src| - i
  {
    if i == |src| then None
    else if src[i] == '\\' && i + 1 < |src| then QuoteEnd(src, i + 2, quote)
    else if src[i] == quote then Some(i + 1)
    else QuoteEnd(src, i + 1, quote)
  }

  /** The number of backslashes right before k, looking back no further than i. */
  function Backslashes(src: string, i: nat, k: nat): nat
    requires i <= k <= |src|
  {
    if k == i || src[k - 1] != '\\' then 0 else 1 + Backslashes(src, i, k - 1)
  }

  predicate Closes(src: string, i: nat, k: nat, quote: char)
    requires i <= k < |src|
  {
    src[k] == quote && Backslashes(src, i, k) % 2 == 0
  }

  /** A quoted text ends at the first quote with an even number of backslashes before it. */
  lemma {:induction false} QuoteEndIsFirstUnescaped(src: string, i: nat, quote: char)
    requires i <= |src| && quote != '\\'
    ensures forall k | i <= k < (if QuoteEnd(src, i, quote).Some? then QuoteEnd(src, i, quote).value - 1 else |src|)
      :: !Closes(src, i, k, quote)
    ensures QuoteEnd(src, i, quote).Some? ==> Closes(src, i, QuoteEnd(src, i, quote).value - 1, quote)
    decreases |src| - i
  {
    if i < |src| {
      if src[i] == '\\' && i + 1 < |src| {
        QuoteEndIsFirstUnescaped(src, i + 2, quote);
        assert Backslashes(src, i, i + 1) == 1;
        forall k | i + 2 <= k < |src| ensures Closes(src, i, k, quote) == Closes(src, i + 2, k, quote) {
          PairShifts(src, i, k);
        }
      } else if src[i] != quote {
        QuoteEndIsFirstUnescaped(src, i + 1, quote);
        forall k | i + 1 <= k < |src| ensures Closes(src, i, k, quote) == Closes(src, i + 1, k, quote) {
          PlainShifts(src, i, k);
        }
      }
    }
  }

  lemma {:induction false} PairShifts(src: string, i: nat, k: nat)
    requires i + 2 <= k <= |src| && src[i] == '\\'
    ensures Backslashes(src, i, k) % 2 == Backslashes(src, i + 2, k) % 2
    decreases k
  {
    assert Backslashes(src, i, i + 1) == 1;
    if k > i + 2 {
      PairShifts(src, i, k - 1);
    }
  }

  lemma {:induction false} PlainShifts(src: string, i: nat, k: nat)
    requires i + 1 <= k <= |src| && src[i] != '\\'
    ensures Backslashes(src, i, k) == Backslashes(src, i + 1, k)
    decreases k
  {
    if k > i + 1 {
      PlainShifts(src, i, k - 1);
    }
  }

  // Blanking whole comments and literals.

  /** What starts at a position of code: one kept character, or text blanked up to its end, if it has one. */
  datatype Lexeme = Plain | Blank(end: Option<nat>)

  predicate Covers(lexemes: seq<Lexeme>, src: string) {
    && |lexemes| == |src|
    && forall i | 0 <= i < |src| && lexemes[i].Blank? && lexemes[i].end.Some? :: i < lexemes[i].end.value <= |src|
  }

  function Mask(src: string, lexemes: seq<Lexeme>, i: nat): Option<string>
    requires i <= |src| && Covers(lexemes, src)
    decreases |src| - i
  {
    if i == |src| then Some("")
    else
      match lexemes[i]
      case Plain => Prepend([src[i]], Mask(src, lexemes, i + 1))
      case Blank(e) => if e.None? then None else Prepend(Spaces(e.value - i), Mask(src, lexemes, e.value))
  }

  function BlankTo(src: string, lexemes: seq<Lexeme>, i: nat, e: Option<nat>): Option<string>
    requires i <= |src| && Covers(lexemes, src) && (e.Some? ==> i <= e.value <= |src|)
  {
    if e.None? then None else Prepend(Spaces(e.value - i), Mask(src, lexemes, e.value))
  }

  /** Blanking in two goes is blanking once. */
  lemma BlankTwice(src: string, lexemes: seq<Lexeme>, i: nat, j: nat, e: Option<nat>)
    requires i <= j <= |src| && Covers(lexemes, src) && (e.Some? ==> j <= e.value <= |src|)
    ensures Prepend(Spaces(j - i), BlankTo(src, lexemes, j, e)) == BlankTo(src, lexemes, i, e)
  {
    if e.Some? && Mask(src, lexemes, e.value).Some? {
      var rest := Mask(src, lexemes, e.value).value;
      assert Spaces(j - i) + (Spaces(e.value - j) + rest) == Spaces(e.value - i) + rest;
    }
  }

  lemma BlankNothing(src: string, lexemes: seq<Lexeme>, i: nat)
    requires i <= |src| && Covers(lexemes, src)
    ensures BlankTo(src, lexemes, i, Some(i)) == Mask(src, lexemes, i)
  {
    if Mask(src, lexemes, i).Some? {
      assert Spaces(0) + Mask(src, lexemes, i).value == Mask(src, lexemes, i).value;
    }
  }

  /** One turn of a scanning loop: the next state, the next position, and whether what was passed is blanked. */
  datatype Turn<S> = Turn(state: S, index: nat, blank: bool)

  function Passed<S>(src: string, t: Turn<S>, i: nat): (s: string)
    requires i < t.index <= |src|
    ensures |s| == t.index - i
  {
    if t.blank then Spaces(t.index - i) else src[i..t.index]
  }

  /** Such a turn, from position i with end e to position j with end f. */
  predicate TurnOk(lexemes: seq<Lexeme>, i: nat, e: Option<nat>, j: nat, f: Option<nat>, blank: bool)
    requires i < |lexemes|
  {
    if blank then e == f || (e == Some(i) && lexemes[i] == Blank(f))
    else e == Some(i) && lexemes[i].Plain? && j == i + 1 && f == Some(j)
  }

  lemma TurnRefines(src: string, lexemes: seq<Lexeme>, i: nat, e: Option<nat>, j: nat, f: Option<nat>, blank: bool)
    requires i < j <= |src| && Covers(lexemes, src) && (e.Some? ==> i <= e.value <= |src|)
    requires f.Some? ==> j <= f.value <= |src|
    requires TurnOk(lexemes, i, e, j, f, blank)
    ensures BlankTo(src, lexemes, i, e)
      == Prepend(if blank then Spaces(j - i) else src[i..j], BlankTo(src, lexemes, j, f))
  {
    if blank {
      BlankTwice(src, lexemes, i, j, f);
      BlankNothing(src, lexemes, i);
    } else {
      BlankNothing(src, lexemes, i);
      BlankNothing(src, lexemes, j);
      assert src[i..j] == [src[i]];
    }
  }

  /** Masking keeps offsets; a character is blanked or kept, and only plain ones are kept. */
  predicate Masks(src: string, lexemes: seq<Lexeme>, i: nat, masked: string)
    requires i <= |src| && Covers(lexemes, src)
  {
    && |masked| == |src| - i
    && forall k | 0 <= k < |masked| :: masked[k] == ' ' || (masked[k] == src[i + k] && lexemes[i + k].Plain?)
  }

  lemma {:induction false} MaskKeepsOffsets(src: string, lexemes: seq<Lexeme>, i: nat)
    requires i <= |src| && Covers(lexemes, src) && Mask(src, lexemes, i).Some?
    ensures Masks(src, lexemes, i, Mask(src, lexemes, i).value)
    decreases |src| - i
  {
    if i < |src| {
      match lexemes[i]
      case Plain => MaskKeepsOffsets(src, lexemes, i + 1);
      case Blank(e) => MaskKeepsOffsets(src, lexemes, e.value);
    }
  }

  /** Text in which nothing opens is left alone. */
  lemma {:induction false} MaskOfPlain(src: string, lexemes: seq<Lexeme>, i: nat)
    requires i <= |src| && Covers(lexemes, src)
    requires forall k | 0 <= k < |src| :: lexemes[k].Plain?
    ensures Mask(src, lexemes, i) == Some(src[i..])
    decreases |src| - i
  {
    if i < |src| {
      MaskOfPlain(src, lexemes, i + 1);
      assert [src[i]] + src[i + 1..] == src[i..];
    } else {
      assert src[i..] == "";
    }
  }
}

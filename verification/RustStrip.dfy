/** Blanking the comments and literals of Rust source without moving any other character. */
module RustStrip {
  import opened Prelude
  import opened Lexing

  datatype State = Code | Line | Block(depth: nat) | Text | Character | RawText(terminator: string)

  function Hashes(src: string, i: nat): (n: nat)
    requires i <= |src|
    ensures i + n <= |src|
    ensures forall k | i <= k < i + n :: src[k] == '#'
    ensures i + n < |src| ==> src[i + n] != '#'
    decreases |src| - i
  {
    if i < |src| && src[i] == '#' then 1 + Hashes(src, i + 1) else 0
  }

  /** The number of hashes of a raw string literal that starts here: r, or br, at most 255 hashes, a quote. */
  function RawHashes(src: string, i: nat): (n: Option<nat>)
    requires i <= |src|
    ensures n.Some? ==> RawOpen(src, i, n.value) <= |src| && '"' in src[i..RawOpen(src, i, n.value)]
  {
    if Pair(src, i, 'b', 'r') || (i < |src| && src[i] == 'r') then
      var start := if src[i] == 'b' then i + 2 else i + 1;
      var n := Hashes(src, start);
      if n <= 255 && start + n < |src| && src[start + n] == '"' then
        assert src[i..start + n + 1][start + n - i] == '"';
        Some(n)
      else None
    else None
  }

  /** Where the contents of such a literal start. */
  function RawOpen(src: string, i: nat, n: nat): nat {
    (if i < |src| && src[i] == 'b' then i + 2 else i + 1) + n + 1
  }

  predicate IsRaw(src: string, isAlnum: char -> bool, i: nat)
    requires i <= |src|
  {
    RawHashes(src, i).Some? && (i == 0 || !(isAlnum(src[i - 1]) || src[i - 1] == '_'))
  }

  /** A quote that starts a character literal rather than a lifetime. */
  predicate IsCharacter(src: string, i: nat)
    requires i < |src|
  {
    && src[i] == '\''
    && ((i + 2 < |src| && src[i + 2] == '\'') || (i + 3 < |src| && src[i + 1] == '\\' && src[i + 3] == '\''))
  }

  function Terminator(n: nat): string {
    "\"" + seq(n, _ => '#')
  }

  /** What opens at a position of code, and where its contents start. */
  function Opens(src: string, isAlnum: char -> bool, i: nat): (r: (State, nat))
    requires i < |src|
    ensures i < r.1 <= |src|
    ensures r.0.Code? ==> r.1 == i + 1
    ensures r.0.RawText? ==> r.0.terminator != []
  {
    if IsRaw(src, isAlnum, i) then
      var n := RawHashes(src, i).value;
      (RawText(Terminator(n)), RawOpen(src, i, n))
    else if Pair(src, i, '/', '/') then (Line, i + 2)
    else if Pair(src, i, '/', '*') then (Block(1), i + 2)
    else if src[i] == '"' then (Text, i + 1)
    else if IsCharacter(src, i) then (Character, i + 1)
    else (Code, i + 1)
  }

  /** The end of a block comment with so many levels still open. */
  function BlockEnd(src: string, i: nat, depth: nat): (e: Option<nat>)
    requires i <= |src|
    ensures e.Some? ==> i <= e.value <= |src|
    decreases |src| - i
  {
    if depth == 0 then Some(i)
    else if i == |src| then None
    else if Pair(src, i, '/', '*') then BlockEnd(src, i + 2, depth + 1)
    else if Pair(src, i, '*', '/') then BlockEnd(src, i + 2, depth - 1)
    else BlockEnd(src, i + 1, depth)
  }

  predicate Sane(state: State) {
    state.RawText? ==> state.terminator != []
  }

  function EndFrom(src: string, state: State, i: nat): (e: Option<nat>)
    requires i <= |src| && Sane(state)
    ensures e.Some? ==> i <= e.value <= |src|
  {
    match state
    case Code => Some(i)
    case Line => Some(LineEnd(src, i))
    case Block(depth) => BlockEnd(src, i, depth)
    case Text => QuoteEnd(src, i, '"')
    case Character => QuoteEnd(src, i, '\'')
    case RawText(terminator) => EndOfFirst(src, i, terminator)
  }

  function LexemeAt(src: string, isAlnum: char -> bool, i: nat): Lexeme
    requires i < |src|
  {
    var (state, start) := Opens(src, isAlnum, i);
    if state.Code? then Plain else Blank(EndFrom(src, state, start))
  }

  function Lexemes(src: string, isAlnum: char -> bool): (l: seq<Lexeme>)
    ensures Covers(l, src)
  {
    seq(|src|, i requires 0 <= i < |src| => LexemeAt(src, isAlnum, i))
  }

  /** The source with every comment and literal blanked as a whole; none if one of them never ends. */
  function Strip(src: string, isAlnum: char -> bool): Option<string> {
    Mask(src, Lexemes(src, isAlnum), 0)
  }

  // The character-by-character machine.

  function BlockStep(src: string, depth: nat, i: nat): (t: Turn<State>)
    requires i < |src|
    ensures i < t.index <= |src| && Sane(t.state) && t.blank
  {
    if Pair(src, i, '/', '*') then Turn(Block(depth + 1), i + 2, true)
    else if Pair(src, i, '*', '/') then Turn(if depth <= 1 then Code else Block(depth - 1), i + 2, true)
    else Turn(Block(depth), i + 1, true)
  }

  function Step(src: string, isAlnum: char -> bool, state: State, i: nat): (t: Turn<State>)
    requires i < |src| && Sane(state)
    ensures i < t.index <= |src| && Sane(t.state)
    ensures !t.blank ==> t.index == i + 1
  {
    match state
    case Code =>
      var (entered, start) := Opens(src, isAlnum, i);
      Turn(entered, start, !entered.Code?)
    case Line =>
      if src[i] == '\n' then Turn(Code, i + 1, false) else Turn(Line, i + 1, true)
    case Block(depth) => BlockStep(src, depth, i)
    case Text =>
      if src[i] == '\\' && i + 1 < |src| then Turn(state, i + 2, true)
      else Turn(if src[i] == '"' then Code else state, i + 1, true)
    case Character =>
      if src[i] == '\\' && i + 1 < |src| then Turn(state, i + 2, true)
      else Turn(if src[i] == '\'' then Code else state, i + 1, true)
    case RawText(terminator) =>
      if At(src, i, terminator) then Turn(Code, i + |terminator|, true) else Turn(state, i + 1, true)
  }

  predicate Running(src: string, state: State, i: nat) {
    i <= |src| && Sane(state) && state != Block(0)
  }

  lemma {:induction false} BlockTurn(src: string, depth: nat, i: nat)
    requires i < |src| && depth > 0
    ensures
      var t := BlockStep(src, depth, i);
      BlockEnd(src, i, depth) == EndFrom(src, t.state, t.index)
  {
    if Pair(src, i, '/', '*') {
      assert BlockEnd(src, i, depth) == BlockEnd(src, i + 2, depth + 1);
    } else if Pair(src, i, '*', '/') {
      assert BlockEnd(src, i, depth) == BlockEnd(src, i + 2, depth - 1);
    } else {
      assert BlockEnd(src, i, depth) == BlockEnd(src, i + 1, depth);
    }
  }

  lemma {:induction false} StepTurnOk(src: string, isAlnum: char -> bool, state: State, i: nat)
    requires i < |src| && Running(src, state, i)
    ensures
      var t := Step(src, isAlnum, state, i);
      TurnOk(Lexemes(src, isAlnum), i, EndFrom(src, state, i), t.index, EndFrom(src, t.state, t.index), t.blank)
  {
    assert Lexemes(src, isAlnum)[i] == LexemeAt(src, isAlnum, i);
    match state
    case Code =>
    case Line => assert src[i] == '\n' ==> Opens(src, isAlnum, i).0.Code?;
    case Block(depth) => BlockTurn(src, depth, i);
    case Text =>
    case Character =>
    case RawText(terminator) =>
  }

  /** What is still to come, given the state the machine is in. */
  function Rest(src: string, isAlnum: char -> bool, state: State, i: nat): Option<string>
    requires Running(src, state, i)
  {
    BlankTo(src, Lexemes(src, isAlnum), i, EndFrom(src, state, i))
  }

  /** The machine produces, turn by turn, what blanking whole comments and literals produces. */
  lemma StepRefines(src: string, isAlnum: char -> bool, state: State, i: nat)
    requires i < |src| && Running(src, state, i)
    ensures
      var t := Step(src, isAlnum, state, i);
      && Running(src, t.state, t.index)
      && Rest(src, isAlnum, state, i) == Prepend(Passed(src, t, i), Rest(src, isAlnum, t.state, t.index))
  {
    var t := Step(src, isAlnum, state, i);
    StepTurnOk(src, isAlnum, state, i);
    TurnRefines(src, Lexemes(src, isAlnum), i, EndFrom(src, state, i), t.index, EndFrom(src, t.state, t.index), t.blank);
  }

  method BlankRange(result: array<char>, from: nat, to: nat)
    requires from <= to <= result.Length
    modifies result
    ensures forall k | from <= k < to :: result[k] == ' '
    ensures forall k | 0 <= k < result.Length && !(from <= k < to) :: result[k] == old(result[k])
  {
    for k := from to to
      invariant forall j | from <= j < k :: result[j] == ' '
      invariant forall j | 0 <= j < result.Length && !(from <= j < k) :: result[j] == old(result[j])
    {
      result[k] := ' ';
    }
  }

  /** One turn of the loop, overwriting what it passes. */
  method Advance(source: string, isAlnum: char -> bool, result: array<char>, index: nat, state: State)
    returns (next: nat, entered: State)
    requires index < |source| == result.Length && Running(source, state, index)
    modifies result
    ensures Step(source, isAlnum, state, index) == Turn(entered, next, Step(source, isAlnum, state, index).blank)
    ensures forall k | index <= k < next ::
      result[k] == if Step(source, isAlnum, state, index).blank then ' ' else old(result[k])
    ensures forall k | 0 <= k < index || next <= k < result.Length :: result[k] == old(result[k])
  {
    next, entered := index + 1, state;
    if state.Code? {
      if IsRaw(source, isAlnum, index) {
        var hashes := RawHashes(source, index).value;
        next, entered := RawOpen(source, index, hashes), RawText(Terminator(hashes));
        BlankRange(result, index, next);
      } else if Pair(source, index, '/', '/') {
        result[index], result[index + 1] := ' ', ' ';
        next, entered := index + 2, Line;
      } else if Pair(source, index, '/', '*') {
        result[index], result[index + 1] := ' ', ' ';
        next, entered := index + 2, Block(1);
      } else if source[index] == '"' {
        result[index] := ' ';
        entered := Text;
      } else if IsCharacter(source, index) {
        result[index] := ' ';
        entered := Character;
      }
    } else if state.Line? {
      if source[index] == '\n' {
        entered := Code;
      } else {
        result[index] := ' ';
      }
    } else if state.Block? {
      result[index] := ' ';
      if Pair(source, index, '/', '*') {
        result[index + 1] := ' ';
        next, entered := index + 2, Block(state.depth + 1);
      } else if Pair(source, index, '*', '/') {
        result[index + 1] := ' ';
        next, entered := index + 2, if state.depth == 1 then Code else Block(state.depth - 1);
      }
    } else if state.Text? || state.Character? {
      result[index] := ' ';
      if source[index] == '\\' && index + 1 < |source| {
        result[index + 1] := ' ';
        next := index + 2;
      } else if (state.Text? && source[index] == '"') || (state.Character? && source[index] == '\'') {
        entered := Code;
      }
    } else {
      if At(source, index, state.terminator) {
        next, entered := index + |state.terminator|, Code;
        BlankRange(result, index, next);
      } else {
        result[index] := ' ';
      }
    }
  }

  lemma RestAtEnd(src: string, isAlnum: char -> bool, state: State)
    requires Running(src, state, |src|)
    ensures Rest(src, isAlnum, state, |src|) == if state.Code? || state.Line? then Some("") else None
  {
    assert Spaces(0) + "" == "";
    if state.RawText? {
      assert !At(src, |src|, state.terminator);
    }
  }

  /** The loop's account of its work so far, carried over one turn. */
  lemma TurnExtends(src: string, isAlnum: char -> bool, state: State, i: nat, before: string)
    requires i < |src| && Running(src, state, i)
    ensures
      var t := Step(src, isAlnum, state, i);
      && Running(src, t.state, t.index)
      && Prepend(before, Rest(src, isAlnum, state, i))
        == Prepend(before + Passed(src, t, i), Rest(src, isAlnum, t.state, t.index))
  {
    var t := Step(src, isAlnum, state, i);
    StepRefines(src, isAlnum, state, i);
    PrependTwice(before, Passed(src, t, i), Rest(src, isAlnum, t.state, t.index));
  }

  method StripCommentsAndStrings(source: string, isAlnum: char -> bool) returns (r: Option<string>)
    ensures r == Strip(source, isAlnum)
  {
    var result := new char[|source|](i requires 0 <= i < |source| => source[i]);
    var index, state := 0, Code;
    BlankNothing(source, Lexemes(source, isAlnum), 0);
    PrependNothing(Strip(source, isAlnum));
    while index < |source|
      invariant Running(source, state, index)
      invariant forall k | index <= k < |source| :: result[k] == source[k]
      invariant Strip(source, isAlnum) == Prepend(result[..index], Rest(source, isAlnum, state, index))
    {
      ghost var before, turn := result[..index], Step(source, isAlnum, state, index);
      TurnExtends(source, isAlnum, state, index, before);
      var next, entered := Advance(source, isAlnum, result, index, state);
      assert result[..next] == before + Passed(source, turn, index);
      index, state := next, entered;
    }
    RestAtEnd(source, isAlnum, state);
    assert result[..] == result[..index] + "";
    if !(state.Code? || state.Line?) {
      return None;
    }
    return Some(result[..]);
  }

  // What the stripped text is good for.

  /** Nested comments: closing m + n levels is closing m levels and then n more. */
  lemma {:induction false} BlockEndNests(src: string, i: nat, m: nat, n: nat)
    requires i <= |src|
    ensures
      var inner := BlockEnd(src, i, m);
      BlockEnd(src, i, m + n) == if inner.None? then None else BlockEnd(src, inner.value, n)
    decreases |src| - i
  {
    if m > 0 && i < |src| {
      if Pair(src, i, '/', '*') {
        BlockEndNests(src, i + 2, m + 1, n);
      } else if Pair(src, i, '*', '/') {
        BlockEndNests(src, i + 2, m - 1, n);
      } else {
        BlockEndNests(src, i + 1, m, n);
      }
    }
  }

  /** Nothing but a raw string opens here. */
  predicate Quiet(src: string, i: nat)
    requires i < |src|
  {
    src[i] != '"' && !Pair(src, i, '/', '/') && !Pair(src, i, '/', '*') && !IsCharacter(src, i)
  }

  /** Blanked or kept, and only quiet characters are kept. */
  predicate Faded(src: string, out: string) {
    |out| == |src| && forall k | 0 <= k < |src| :: out[k] == ' ' || (out[k] == src[k] && Quiet(src, k))
  }

  lemma StripFades(src: string, isAlnum: char -> bool)
    requires Strip(src, isAlnum).Some?
    ensures Faded(src, Strip(src, isAlnum).value)
  {
    var out := Strip(src, isAlnum).value;
    MaskKeepsOffsets(src, Lexemes(src, isAlnum), 0);
    forall k | 0 <= k < |src| && out[k] != ' ' ensures out[k] == src[k] && Quiet(src, k) {
      assert Lexemes(src, isAlnum)[k] == LexemeAt(src, isAlnum, k);
    }
  }

  /** A faded text opens nothing anywhere: whatever could open here would have opened in the source. */
  lemma FadedOpensNothing(src: string, out: string, isAlnum: char -> bool, i: nat)
    requires Faded(src, out) && i < |src|
    ensures Quiet(out, i) && Opens(out, isAlnum, i).0.Code?
  {
    assert Quiet(out, i);
  }

  /**
   Stripping keeps every offset, leaves each character or blanks it, leaves no string quote and no
   comment opener, and changes nothing when it is done again.
   */
  lemma StripIsIdempotent(src: string, isAlnum: char -> bool)
    requires Strip(src, isAlnum).Some?
    ensures
      var out := Strip(src, isAlnum).value;
      && |out| == |src|
      && (forall k | 0 <= k < |src| :: out[k] == src[k] || out[k] == ' ')
      && (forall k | 0 <= k < |src| :: out[k] != '"' && !Pair(out, k, '/', '/') && !Pair(out, k, '/', '*'))
      && Strip(out, isAlnum) == Some(out)
  {
    var out := Strip(src, isAlnum).value;
    StripFades(src, isAlnum);
    forall k | 0 <= k < |src| ensures Quiet(out, k) && Lexemes(out, isAlnum)[k].Plain? {
      FadedOpensNothing(src, out, isAlnum, k);
    }
    MaskOfPlain(out, Lexemes(out, isAlnum), 0);
  }
}

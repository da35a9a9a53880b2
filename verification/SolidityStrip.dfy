/** Blanking the comments and strings of Solidity source, and cutting out one function body. */
module SolidityStrip {
  import opened Prelude
  import opened Lexing
  import opened Brackets

  datatype State = Code | Line | Block | Text(quote: char)

  function Opens(src: string, i: nat): (r: (State, nat))
    requires i < |src|
    ensures i < r.1 <= |src|
    ensures r.0.Code? ==> r.1 == i + 1
  {
    if Pair(src, i, '/', '/') then (Line, i + 2)
    else if Pair(src, i, '/', '*') then (Block, i + 2)
    else if src[i] == '"' || src[i] == '\'' then (Text(src[i]), i + 1)
    else (Code, i + 1)
  }

  /** Block comments do not nest: the first terminator ends them. */
  function EndFrom(src: string, state: State, i: nat): (e: Option<nat>)
    requires i <= |src|
    ensures e.Some? ==> i <= e.value <= |src|
  {
    match state
    case Code => Some(i)
    case Line => Some(LineEnd(src, i))
    case Block => EndOfFirst(src, i, "*/")
    case Text(quote) => QuoteEnd(src, i, quote)
  }

  function LexemeAt(src: string, i: nat): Lexeme
    requires i < |src|
  {
    var (state, start) := Opens(src, i);
    if state.Code? then Plain else Blank(EndFrom(src, state, start))
  }

  function Lexemes(src: string): (l: seq<Lexeme>)
    ensures Covers(l, src)
  {
    seq(|src|, i requires 0 <= i < |src| => LexemeAt(src, i))
  }

  /** The source with every comment and string blanked as a whole; none if one of them never ends. */
  function Strip(src: string): Option<string> {
    Mask(src, Lexemes(src), 0)
  }

  function Step(src: string, state: State, i: nat): (t: Turn<State>)
    requires i < |src|
    ensures i < t.index <= |src|
    ensures !t.blank ==> t.index == i + 1
  {
    match state
    case Code =>
      var (entered, start) := Opens(src, i);
      Turn(entered, start, !entered.Code?)
    case Line =>
      if src[i] == '\n' then Turn(Code, i + 1, false) else Turn(Line, i + 1, true)
    case Block =>
      if Pair(src, i, '*', '/') then Turn(Code, i + 2, true) else Turn(Block, i + 1, true)
    case Text(quote) =>
      if src[i] == '\\' && i + 1 < |src| then Turn(state, i + 2, true)
      else Turn(if src[i] == quote then Code else state, i + 1, true)
  }

  lemma StepTurnOk(src: string, state: State, i: nat)
    requires i < |src|
    ensures
      var t := Step(src, state, i);
      TurnOk(Lexemes(src), i, EndFrom(src, state, i), t.index, EndFrom(src, t.state, t.index), t.blank)
  {
    assert Lexemes(src)[i] == LexemeAt(src, i);
    assert At(src, i, "*/") == Pair(src, i, '*', '/') by {
      if Pair(src, i, '*', '/') {
        assert src[i..i + 2] == "*/";
      }
      if At(src, i, "*/") {
        assert src[i..i + 2][0] == '*' && src[i..i + 2][1] == '/';
      }
    }
  }

  /** What is still to come, given the state the machine is in. */
  function Rest(src: string, state: State, i: nat): Option<string>
    requires i <= |src|
  {
    BlankTo(src, Lexemes(src), i, EndFrom(src, state, i))
  }

  lemma TurnExtends(src: string, state: State, i: nat, before: string)
    requires i < |src|
    ensures
      var t := Step(src, state, i);
      Prepend(before, Rest(src, state, i)) == Prepend(before + Passed(src, t, i), Rest(src, t.state, t.index))
  {
    var t := Step(src, state, i);
    StepTurnOk(src, state, i);
    TurnRefines(src, Lexemes(src), i, EndFrom(src, state, i), t.index, EndFrom(src, t.state, t.index), t.blank);
    PrependTwice(before, Passed(src, t, i), Rest(src, t.state, t.index));
  }

  lemma RestAtEnd(src: string, state: State)
    ensures Rest(src, state, |src|) == if state.Code? || state.Line? then Some("") else None
  {
    assert Spaces(0) + "" == "";
    assert !At(src, |src|, "*/");
  }

  /** One turn of the loop, overwriting what it passes. */
  method Advance(source: string, result: array<char>, index: nat, state: State) returns (next: nat, entered: State)
    requires index < |source| == result.Length
    modifies result
    ensures Step(source, state, index) == Turn(entered, next, Step(source, state, index).blank)
    ensures forall k | index <= k < next :: result[k] == if Step(source, state, index).blank then ' ' else old(result[k])
    ensures forall k | 0 <= k < index || next <= k < result.Length :: result[k] == old(result[k])
  {
    next, entered := index + 1, state;
    if state.Code? {
      if Pair(source, index, '/', '/') {
        result[index], result[index + 1] := ' ', ' ';
        next, entered := index + 2, Line;
      } else if Pair(source, index, '/', '*') {
        result[index], result[index + 1] := ' ', ' ';
        next, entered := index + 2, Block;
      } else if source[index] == '"' || source[index] == '\'' {
        result[index] := ' ';
        entered := Text(source[index]);
      }
    } else if state.Line? {
      if source[index] == '\n' {
        entered := Code;
      } else {
        result[index] := ' ';
      }
    } else if state.Block? {
      result[index] := ' ';
      if Pair(source, index, '*', '/') {
        result[index + 1] := ' ';
        next, entered := index + 2, Code;
      }
    } else {
      result[index] := ' ';
      if source[index] == '\\' && index + 1 < |source| {
        result[index + 1] := ' ';
        next := index + 2;
      } else if source[index] == state.quote {
        entered := Code;
      }
    }
  }

  method StripCommentsAndStrings(source: string) returns (r: Option<string>)
    ensures r == Strip(source)
  {
    var result := new char[|source|](i requires 0 <= i < |source| => source[i]);
    var index, state := 0, Code;
    BlankNothing(source, Lexemes(source), 0);
    PrependNothing(Strip(source));
    while index < |source|
      invariant index <= |source|
      invariant forall k | index <= k < |source| :: result[k] == source[k]
      invariant Strip(source) == Prepend(result[..index], Rest(source, state, index))
    {
      ghost var before, turn := result[..index], Step(source, state, index);
      TurnExtends(source, state, index, before);
      var next, entered := Advance(source, result, index, state);
      assert result[..next] == before + Passed(source, turn, index);
      index, state := next, entered;
    }
    RestAtEnd(source, state);
    assert result[..] == result[..index] + "";
    if state.Block? || state.Text? {
      return None;
    }
    return Some(result[..]);
  }

  /**
   Stripping keeps every offset, leaves each character or blanks it, leaves no quote of either kind
   and no comment opener, and changes nothing when it is done again.
   */
  lemma StripIsIdempotent(src: string)
    requires Strip(src).Some?
    ensures
      var out := Strip(src).value;
      && |out| == |src|
      && (forall k | 0 <= k < |src| :: out[k] == src[k] || out[k] == ' ')
      && (forall k | 0 <= k < |src| ::
        out[k] != '"' && out[k] != '\'' && !Pair(out, k, '/', '/') && !Pair(out, k, '/', '*'))
      && Strip(out) == Some(out)
  {
    var out := Strip(src).value;
    MaskKeepsOffsets(src, Lexemes(src), 0);
    forall k | 0 <= k < |src|
      ensures Lexemes(out)[k].Plain?
    {
      if out[k] != ' ' {
        assert Lexemes(src)[k] == LexemeAt(src, k);
      }
    }
    forall k | 0 <= k < |src|
      ensures out[k] != '"' && out[k] != '\'' && !Pair(out, k, '/', '/') && !Pair(out, k, '/', '*')
    {
      assert Lexemes(out)[k] == LexemeAt(out, k);
    }
    MaskOfPlain(out, Lexemes(out), 0);
  }

  // Function bodies.

  /** A body: the first brace after the signature, with no semicolon before it, up to its matching brace. */
  predicate BodyAt(cleaned: string, after: nat, brace: nat, end: nat) {
    && after <= brace && GroupAt(cleaned, brace, end, '{', '}')
    && forall k | after <= k < brace :: cleaned[k] != '{' && cleaned[k] != ';'
  }

  lemma BodyIsUnique(cleaned: string, after: nat, brace: nat, end: nat, otherBrace: nat, otherEnd: nat)
    requires BodyAt(cleaned, after, brace, end) && BodyAt(cleaned, after, otherBrace, otherEnd)
    ensures brace == otherBrace && end == otherEnd
  { }

  /** Cutting a body out of stripped source, from the end of the text that names the function. */
  method FunctionBody(cleaned: string, after: nat) returns (r: Option<string>)
    requires after <= |cleaned|
    ensures r.Some? <==> exists brace, end :: BodyAt(cleaned, after, brace, end)
    ensures forall brace: nat, end: nat | BodyAt(cleaned, after, brace, end) :: r == Some(cleaned[brace..end])
  {
    var brace := after;
    while brace < |cleaned| && cleaned[brace] != '{' && cleaned[brace] != ';'
      invariant after <= brace <= |cleaned|
      invariant forall k | after <= k < brace :: cleaned[k] != '{' && cleaned[k] != ';'
    {
      brace := brace + 1;
    }
    if brace == |cleaned| || cleaned[brace] == ';' {
      return None;
    }
    var group := Balanced(cleaned, brace, '{', '}');
    if group.None? {
      assert forall otherBrace, end | BodyAt(cleaned, after, otherBrace, end) :: otherBrace == brace;
      return None;
    }
    assert BodyAt(cleaned, after, brace, group.value.1);
    forall otherBrace, otherEnd | BodyAt(cleaned, after, otherBrace, otherEnd)
      ensures otherBrace == brace && otherEnd == group.value.1
    {
      BodyIsUnique(cleaned, after, brace, group.value.1, otherBrace, otherEnd);
    }
    return Some(cleaned[brace..group.value.1]);
  }
}

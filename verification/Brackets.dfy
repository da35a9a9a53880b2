/** Bracket scanning over stripped source text. */
module Brackets {
  import opened Prelude

  // One kind of bracket, counted.

  function Weight(c: char, opening: char, closing: char): int {
    if c == opening then 1 else if c == closing then -1 else 0
  }

  function Depth(s: string, from: nat, till: nat, opening: char, closing: char): int
    requires from <= till <= |s|
    decreases till
  {
    if till == from then 0 else Depth(s, from, till - 1, opening, closing) + Weight(s[till - 1], opening, closing)
  }

  /** The group that starts at an opening bracket ends where the depth first returns to zero. */
  predicate GroupAt(s: string, start: nat, end: nat, opening: char, closing: char) {
    && start + 2 <= end <= |s| && s[start] == opening
    && Depth(s, start, end, opening, closing) == 0
    && forall k | start < k < end :: Depth(s, start, k, opening, closing) > 0
  }

  method Balanced(source: string, start: nat, opening: char, closing: char) returns (r: Option<(string, nat)>)
    ensures r.Some? ==>
      && GroupAt(source, start, r.value.1, opening, closing) && r.value.0 == source[start + 1..r.value.1 - 1]
      && source[r.value.1 - 1] == closing && Paired(r.value.0, opening, closing)
    ensures r.None? ==> forall end :: !GroupAt(source, start, end, opening, closing)
  {
    if start >= |source| || source[start] != opening {
      return None;
    }
    var depth := 0;
    var index := start;
    while index < |source|
      invariant start <= index <= |source|
      invariant depth == Depth(source, start, index, opening, closing)
      invariant forall k | start < k <= index :: Depth(source, start, k, opening, closing) > 0
    {
      if source[index] == opening {
        depth := depth + 1;
      } else if source[index] == closing {
        depth := depth - 1;
        if depth == 0 {
          GroupCloses(source, start, index + 1, opening, closing);
          GroupIffPaired(source, start, index + 1, opening, closing);
          return Some((source[start + 1..index], index + 1));
        }
      }
      index := index + 1;
    }
    return None;
  }

  /** A text whose brackets of one kind pair up. */
  predicate Paired(s: string, opening: char, closing: char) {
    && Depth(s, 0, |s|, opening, closing) == 0
    && forall k | 0 <= k <= |s| :: Depth(s, 0, k, opening, closing) >= 0
  }

  lemma {:induction false} DepthShift(s: string, a: string, from: nat, till: nat, opening: char, closing: char)
    requires till <= |a| && from + till <= |s| && s[from..from + till] == a[..till]
    ensures Depth(s, from, from + till, opening, closing) == Depth(a, 0, till, opening, closing)
    decreases till
  {
    if till > 0 {
      assert s[from..from + till][..till - 1] == s[from..from + (till - 1)];
      assert s[from..from + till][till - 1] == s[from + till - 1];
      DepthShift(s, a, from, till - 1, opening, closing);
    }
  }

  lemma {:induction false} DepthSplit(s: string, from: nat, mid: nat, till: nat, opening: char, closing: char)
    requires from <= mid <= till <= |s|
    ensures Depth(s, from, till, opening, closing)
      == Depth(s, from, mid, opening, closing) + Depth(s, mid, till, opening, closing)
    decreases till
  {
    if mid < till {
      DepthSplit(s, from, mid, till - 1, opening, closing);
    }
  }

  /** The scan recovers a bracketed group from any surroundings, and what it returns always pairs up. */
  lemma GroupIffPaired(s: string, start: nat, end: nat, opening: char, closing: char)
    requires start + 2 <= end <= |s| && opening != closing
    requires s[start] == opening && s[end - 1] == closing
    ensures GroupAt(s, start, end, opening, closing) <==> Paired(s[start + 1..end - 1], opening, closing)
  {
    var body := s[start + 1..end - 1];
    forall k | 0 <= k <= |body|
      ensures Depth(s, start, start + 1 + k, opening, closing) == 1 + Depth(body, 0, k, opening, closing)
    {
      DepthSplit(s, start, start + 1, start + 1 + k, opening, closing);
      assert s[start + 1..start + 1 + k] == body[..k];
      DepthShift(s, body, start + 1, k, opening, closing);
    }
    assert Depth(s, start, end, opening, closing) == Depth(s, start, end - 1, opening, closing) - 1;
    if GroupAt(s, start, end, opening, closing) {
      forall k | 0 <= k <= |body| ensures Depth(body, 0, k, opening, closing) >= 0 {
        assert Depth(s, start, start + 1 + k, opening, closing) > 0;
      }
    }
    if Paired(body, opening, closing) {
      forall k | start < k < end ensures Depth(s, start, k, opening, closing) > 0 {
        assert Depth(body, 0, k - start - 1, opening, closing) >= 0;
      }
    }
  }

  /** A group ends with its closing bracket. */
  lemma GroupCloses(s: string, start: nat, end: nat, opening: char, closing: char)
    requires GroupAt(s, start, end, opening, closing)
    ensures opening != closing && s[end - 1] == closing
  {
    assert Depth(s, start, start + 1, opening, closing) == 1;
    assert Depth(s, start, end - 1, opening, closing) >= 0;
  }

  // Three kinds of brackets, on a stack.

  function Opener(closing: char): char {
    if closing == ')' then '(' else if closing == ']' then '[' else '{'
  }

  predicate IsOpening(c: char) { c == '(' || c == '[' || c == '{' }

  predicate IsClosing(c: char) { c == ')' || c == ']' || c == '}' }

  /** The open brackets after reading a text; none if a bracket closes what is not open. */
  function Run(s: string, stack: string): Option<string>
    decreases |s|
  {
    if s == [] then Some(stack)
    else
      var next := Read(s[0], stack);
      if next.None? then None else Run(s[1..], next.value)
  }

  function Read(c: char, stack: string): Option<string> {
    if IsOpening(c) then Some(stack + [c])
    else if IsClosing(c) then
      if stack == [] || stack[|stack| - 1] != Opener(c) then None else Some(stack[..|stack| - 1])
    else Some(stack)
  }

  predicate Nested(s: string) {
    Run(s, "") == Some("")
  }

  lemma {:induction false} RunAppend(a: string, b: string, stack: string)
    ensures Run(a + b, stack) == var mid := Run(a, stack); if mid.None? then None else Run(b, mid.value)
    decreases |a|
  {
    if a == [] {
      assert a + b == b;
    } else {
      assert (a + b)[1..] == a[1..] + b;
      if Read(a[0], stack).Some? {
        RunAppend(a[1..], b, Read(a[0], stack).value);
      }
    }
  }

  /** Brackets already open below do not matter to a text that never reaches them. */
  lemma {:induction false} RunFrame(s: string, below: string, stack: string)
    requires Run(s, stack).Some?
    ensures Run(s, below + stack) == Some(below + Run(s, stack).value)
    decreases |s|
  {
    if s != [] {
      var next := Read(s[0], stack);
      if IsOpening(s[0]) {
        assert below + stack + [s[0]] == below + (stack + [s[0]]);
      } else if IsClosing(s[0]) {
        assert (below + stack)[..|below + stack| - 1] == below + stack[..|stack| - 1];
      }
      RunFrame(s[1..], below, next.value);
    }
  }
}

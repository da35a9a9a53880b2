/** Splitting a Rust argument list at its top-level commas. */
module TopLevel {
  import opened Prelude
  import opened Brackets
  import opened Lexing

  function TrimStart(s: string): string {
    if s != [] && IsSpace(s[0]) then TrimStart(s[1..]) else s
  }

  function TrimEnd(s: string): string {
    if s != [] && IsSpace(s[|s| - 1]) then TrimEnd(s[..|s| - 1]) else s
  }

  function Trim(s: string): (t: string)
    ensures |t| <= |s|
  {
    TrimShrinks(s);
    TrimEnd(TrimStart(s))
  }

  lemma TrimShrinks(s: string)
    ensures |TrimEnd(TrimStart(s))| <= |s|
  {
    StartShrinks(s);
    EndShrinks(TrimStart(s));
  }

  lemma StartShrinks(s: string)
    ensures |TrimStart(s)| <= |s|
  { }

  lemma EndShrinks(s: string)
    ensures |TrimEnd(s)| <= |s|
  { }

  predicate Trimmed(s: string) {
    s != [] && !IsSpace(s[0]) && !IsSpace(s[|s| - 1])
  }

  // Pieces between commas.

  predicate TopComma(s: string, k: nat)
    requires k < |s|
  {
    s[k] == ',' && Nested(s[..k])
  }

  function FirstComma(s: string, from: nat): (k: nat)
    requires from <= |s|
    ensures from <= k <= |s|
    ensures k < |s| ==> TopComma(s, k)
    ensures forall j | from <= j < k :: !TopComma(s, j)
    decreases |s| - from
  {
    if from == |s| || TopComma(s, from) then from else FirstComma(s, from + 1)
  }

  lemma {:induction false} FirstCommaIs(s: string, from: nat, k: nat)
    requires from <= k <= |s| && (k < |s| ==> TopComma(s, k))
    requires forall j | from <= j < k :: !TopComma(s, j)
    ensures FirstComma(s, from) == k
    decreases k - from
  {
    if from < k {
      FirstCommaIs(s, from + 1, k);
    }
  }

  function Pieces(s: string): (ps: seq<string>)
    ensures ps != []
    decreases |s|
  {
    var k := FirstComma(s, 0);
    if k == |s| then [s] else [s[..k]] + Pieces(s[k + 1..])
  }

  /** A text that can stand between two top-level commas. */
  predicate Item(p: string) {
    Nested(p) && forall k | 0 <= k < |p| :: !TopComma(p, k)
  }

  predicate Items(ps: seq<string>) {
    forall i | 0 <= i < |ps| :: Item(ps[i])
  }

  function Join(ps: seq<string>): string
    requires ps != []
  {
    if |ps| == 1 then ps[0] else ps[0] + ("," + Join(ps[1..]))
  }

  lemma NestedAppend(a: string, b: string)
    requires Nested(a)
    ensures Run(a + b, "") == Run(b, "")
  {
    RunAppend(a, b, "");
  }

  lemma CommaSkips(b: string)
    ensures Run("," + b, "") == Run(b, "")
  {
    assert ("," + b)[1..] == b;
  }

  /** Cutting a nested text at its commas gives items, and joining them gives the text back. */
  lemma {:induction false} JoinOfPieces(s: string)
    requires Nested(s)
    ensures Items(Pieces(s)) && Join(Pieces(s)) == s
    decreases |s|
  {
    var k := FirstComma(s, 0);
    if k == |s| {
      assert Item(s);
    } else {
      var head, rest := s[..k], s[k + 1..];
      assert s == head + ("," + rest);
      NestedAppend(head, "," + rest);
      CommaSkips(rest);
      JoinOfPieces(rest);
      assert forall j | 0 <= j < k :: head[..j] == s[..j];
      assert forall j | 0 <= j < k :: TopComma(head, j) == TopComma(s, j);
      assert Pieces(s)[1..] == Pieces(rest);
    }
  }

  lemma CutAfterItem(head: string, rest: string)
    requires Item(head)
    ensures Pieces(head + ("," + rest)) == [head] + Pieces(rest)
  {
    var s := head + ("," + rest);
    assert s[..|head|] == head && s[|head| + 1..] == rest;
    forall j | 0 <= j < |head| ensures !TopComma(s, j) {
      assert s[..j] == head[..j];
      assert !TopComma(head, j);
    }
    FirstCommaIs(s, 0, |head|);
  }

  /** Joining items and cutting the result gives the items back: the pieces are the only such list. */
  lemma {:induction false} PiecesOfJoin(ps: seq<string>)
    requires ps != [] && Items(ps)
    ensures Nested(Join(ps)) && Pieces(Join(ps)) == ps
    decreases |ps|
  {
    var s := Join(ps);
    if |ps| == 1 {
      FirstCommaIs(s, 0, |s|);
      assert ps == [ps[0]];
    } else {
      var head, rest := ps[0], Join(ps[1..]);
      PiecesOfJoin(ps[1..]);
      NestedAppend(head, "," + rest);
      CommaSkips(rest);
      CutAfterItem(head, rest);
      assert ps == [ps[0]] + ps[1..];
    }
  }

  /** Strip each piece, and forget the last one when nothing is left of it. */
  function Tidy(ps: seq<string>): seq<string>
    requires ps != []
  {
    if |ps| > 1 then [Trim(ps[0])] + Tidy(ps[1..])
    else if Trim(ps[0]) == "" then []
    else [Trim(ps[0])]
  }

  function TopLevelItems(s: string): Option<seq<string>> {
    if Nested(s) then Some(Tidy(Pieces(s))) else None
  }

  lemma PrefixFails(s: string, k: nat)
    requires k <= |s| && Run(s[..k], "").None?
    ensures !Nested(s)
  {
    RunAppend(s[..k], s[k..], "");
    assert s[..k] + s[k..] == s;
  }

  lemma ReadNext(s: string, k: nat, stack: string)
    requires k < |s| && Run(s[..k], "") == Some(stack)
    ensures Run(s[..k + 1], "") == Read(s[k], stack)
  {
    assert s[..k + 1] == s[..k] + [s[k]];
    RunAppend(s[..k], [s[k]], "");
    if Read(s[k], stack).Some? {
      assert [s[k]][1..] == [];
      assert Run([], Read(s[k], stack).value) == Read(s[k], stack);
    }
  }

  /** Commas of a suffix that starts outside all brackets are commas of the whole. */
  lemma SuffixCommas(s: string, start: nat, k: nat)
    requires start <= k < |s| && Nested(s[..start])
    ensures TopComma(s[start..], k - start) == TopComma(s, k)
  {
    assert s[start..][..k - start] == s[start..k];
    assert s[..k] == s[..start] + s[start..k];
    NestedAppend(s[..start], s[start..k]);
  }

  lemma CutHere(s: string, start: nat, k: nat)
    requires start <= k < |s| && Nested(s[..start]) && TopComma(s, k)
    requires forall j | start <= j < k :: !TopComma(s, j)
    ensures Nested(s[..k + 1])
    ensures Tidy(Pieces(s[start..])) == [Trim(s[start..k])] + Tidy(Pieces(s[k + 1..]))
  {
    var t := s[start..];
    forall j | 0 <= j <= k - start ensures TopComma(t, j) == TopComma(s, start + j) {
      SuffixCommas(s, start, start + j);
    }
    FirstCommaIs(t, 0, k - start);
    assert t[..k - start] == s[start..k] && t[k - start + 1..] == s[k + 1..];
    assert Pieces(t)[1..] == Pieces(s[k + 1..]);
    ReadNext(s, k, "");
  }

  lemma NoMoreCuts(s: string, start: nat)
    requires start <= |s| && Nested(s[..start])
    requires forall j | start <= j < |s| :: !TopComma(s, j)
    ensures Tidy(Pieces(s[start..])) == if Trim(s[start..]) == "" then [] else [Trim(s[start..])]
  {
    forall j | 0 <= j < |s| - start ensures !TopComma(s[start..], j) {
      SuffixCommas(s, start, start + j);
    }
    FirstCommaIs(s[start..], 0, |s| - start);
  }

  /** How far the loop has got: the items cut so far, where the next one starts, the open brackets. */
  predicate Cutting(source: string, items: seq<string>, start: nat, index: nat, stack: string) {
    && start <= index <= |source|
    && Nested(source[..start]) && Run(source[..index], "") == Some(stack)
    && Tidy(Pieces(source)) == items + Tidy(Pieces(source[start..]))
    && forall j | start <= j < index :: !TopComma(source, j)
  }

  lemma CuttingStarts(source: string)
    ensures Cutting(source, [], 0, 0, "")
  {
    assert source[0..] == source && source[..0] == "";
  }

  lemma PlainTurn(source: string, items: seq<string>, start: nat, index: nat, stack: string, next: string)
    requires index < |source| && Cutting(source, items, start, index, stack)
    requires Read(source[index], stack) == Some(next) && !(source[index] == ',' && stack == [])
    ensures Cutting(source, items, start, index + 1, next)
  {
    ReadNext(source, index, stack);
    assert !TopComma(source, index);
  }

  lemma CommaTurn(source: string, items: seq<string>, start: nat, index: nat)
    requires index < |source| && Cutting(source, items, start, index, "") && source[index] == ','
    ensures Cutting(source, items + [Trim(source[start..index])], index + 1, index + 1, "")
  {
    ReadNext(source, index, "");
    CutHere(source, start, index);
    var item, rest := [Trim(source[start..index])], Tidy(Pieces(source[index + 1..]));
    assert items + (item + rest) == items + item + rest;
  }

  lemma CuttingEnds(source: string, items: seq<string>, start: nat, stack: string)
    requires Cutting(source, items, start, |source|, stack)
    ensures stack != [] ==> TopLevelItems(source).None?
    ensures stack == [] ==>
      TopLevelItems(source) == Some(if Trim(source[start..]) == "" then items else items + [Trim(source[start..])])
  {
    assert items + [] == items;
    assert source[..|source|] == source;
    NoMoreCuts(source, start);
  }

  /** The splitting loop, with its bracket stack and its list of items. */
  method SplitTopLevel(source: string) returns (r: Option<seq<string>>)
    ensures r == TopLevelItems(source)
  {
    var items: seq<string> := [];
    var start := 0;
    var stack: string := [];
    var index := 0;
    CuttingStarts(source);
    while index < |source|
      invariant Cutting(source, items, start, index, stack)
    {
      var character := source[index];
      if IsOpening(character) {
        PlainTurn(source, items, start, index, stack, stack + [character]);
        stack := stack + [character];
      } else if IsClosing(character) {
        if stack == [] || stack[|stack| - 1] != Opener(character) {
          ReadNext(source, index, stack);
          PrefixFails(source, index + 1);
          return None;
        }
        PlainTurn(source, items, start, index, stack, stack[..|stack| - 1]);
        stack := stack[..|stack| - 1];
      } else if character == ',' && stack == [] {
        CommaTurn(source, items, start, index);
        items := items + [Trim(source[start..index])];
        start := index + 1;
      } else {
        PlainTurn(source, items, start, index, stack, stack);
      }
      index := index + 1;
    }
    CuttingEnds(source, items, start, stack);
    if stack != [] {
      return None;
    }
    var final := Trim(source[start..]);
    if final != "" {
      items := items + [final];
    }
    return Some(items);
  }
}

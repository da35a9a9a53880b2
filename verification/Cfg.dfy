/** Evaluating Rust configuration predicates for the reviewed production configuration. */
module Cfg {
  import opened Prelude
  import opened Brackets
  import opened Lexing
  import opened TopLevel

  datatype Op = All | Any | Not

  datatype Predicate = Leaf(text: string) | Call(op: Op, args: seq<Predicate>)

  // The evaluator, over text.

  function SkipSpaces(e: string, i: nat): (k: nat)
    requires i <= |e|
    ensures i <= k <= |e|
    decreases |e| - i
  {
    if i < |e| && IsSpace(e[i]) then SkipSpaces(e, i + 1) else i
  }

  function Name(op: Op): (s: string)
    ensures |s| == 3
  {
    match op
    case All => "all"
    case Any => "any"
    case Not => "not"
  }

  /** An operator name, optional spaces, and everything between an opening and the final closing bracket. */
  function CallBody(e: string, op: Op): (body: Option<string>)
    ensures body.Some? ==> |body.value| < |e|
  {
    if |e| >= 3 && e[..3] == Name(op) then
      var k := SkipSpaces(e, 3);
      if k + 1 < |e| && e[k] == '(' && e[|e| - 1] == ')' then Some(e[k + 1..|e| - 1]) else None
    else None
  }

  function MatchCall(e: string): (m: Option<(Op, string)>)
    ensures m.Some? ==> |m.value.1| < |e|
  {
    if CallBody(e, All).Some? then Some((All, CallBody(e, All).value))
    else if CallBody(e, Any).Some? then Some((Any, CallBody(e, Any).value))
    else if CallBody(e, Not).Some? then Some((Not, CallBody(e, Not).value))
    else None
  }

  const TEST_DEPLOYMENT: string := "feature = \"test-deployment\""
  const STORAGE_SERDE: string := "feature = \"storage-serde\""
  const WASM32: string := "target_arch = \"wasm32\""

  predicate Recognised(e: string) {
    || e == "test" || e == "verus_keep_ghost" || e == "debug_assertions"
    || e == TEST_DEPLOYMENT || e == STORAGE_SERDE || e == WASM32
  }

  /** What the evaluator answers for a recognised leaf. */
  predicate LeafHolds(e: string, wasm: bool, features: set<string>) {
    || (e == TEST_DEPLOYMENT && "test-deployment" in features)
    || (e == STORAGE_SERDE && "storage-serde" in features)
    || (e == WASM32 && wasm)
  }

  function Combine(op: Op, values: seq<bool>): Option<bool> {
    match op
    case All => Some(false !in values)
    case Any => Some(true in values)
    case Not => if |values| == 1 then Some(!values[0]) else None
  }

  function Evaluate(text: string, wasm: bool, features: set<string>): Option<bool>
    decreases |text|, 0
  {
    var e := Trim(text);
    var call := MatchCall(e);
    if call.Some? then
      var arguments := TopLevelItems(call.value.1);
      if arguments.None? then None
      else
        SplitShrinks(call.value.1);
        var values := EvaluateAll(arguments.value, |call.value.1|, wasm, features);
        if values.None? then None else Combine(call.value.0, values.value)
    else if Recognised(e) then Some(LeafHolds(e, wasm, features))
    else None
  }

  function EvaluateAll(arguments: seq<string>, bound: nat, wasm: bool, features: set<string>): (r: Option<seq<bool>>)
    requires forall i | 0 <= i < |arguments| :: |arguments[i]| <= bound
    decreases bound, |arguments|
  {
    if arguments == [] then Some([])
    else
      var first := Evaluate(arguments[0], wasm, features);
      var rest := EvaluateAll(arguments[1..], bound, wasm, features);
      if first.None? || rest.None? then None else Some([first.value] + rest.value)
  }

  lemma SplitShrinks(s: string)
    requires TopLevelItems(s).Some?
    ensures forall i | 0 <= i < |TopLevelItems(s).value| :: |TopLevelItems(s).value[i]| <= |s|
  {
    PiecesShrink(s);
    TidyShrinks(Pieces(s), |s|);
  }

  lemma {:induction false} PiecesShrink(s: string)
    ensures forall i | 0 <= i < |Pieces(s)| :: |Pieces(s)[i]| <= |s|
    decreases |s|
  {
    var k := FirstComma(s, 0);
    if k < |s| {
      PiecesShrink(s[k + 1..]);
    }
  }

  lemma {:induction false} TidyShrinks(ps: seq<string>, bound: nat)
    requires ps != [] && forall i | 0 <= i < |ps| :: |ps[i]| <= bound
    ensures forall i | 0 <= i < |Tidy(ps)| :: |Tidy(ps)[i]| <= bound
  {
    if |ps| > 1 {
      TidyShrinks(ps[1..], bound);
    }
  }

  // Predicates as trees, and how they are written.

  function CommaList(parts: seq<string>): string {
    if parts == [] then ""
    else if |parts| == 1 then parts[0]
    else parts[0] + ("," + (" " + CommaList(parts[1..])))
  }

  function Render(p: Predicate): string
    decreases p, 0
  {
    match p
    case Leaf(text) => text
    case Call(op, args) => Wrap(Name(op), CommaList(RenderAll(args)))
  }

  function RenderAll(args: seq<Predicate>): (texts: seq<string>)
    ensures |texts| == |args|
    ensures forall i | 0 <= i < |args| :: texts[i] == Render(args[i])
    decreases args, 0
  {
    seq(|args|, i requires 0 <= i < |args| => Render(args[i]))
  }

  function Wrap(name: string, body: string): string {
    name + ("(" + (body + ")"))
  }

  /** A leaf that reads as one argument and not as a call. */
  predicate Leafy(text: string) {
    Trimmed(text) && Item(text) && MatchCall(text).None?
  }

  predicate Written(p: Predicate) {
    match p
    case Leaf(text) => Leafy(text)
    case Call(op, args) => forall i | 0 <= i < |args| :: Written(args[i])
  }

  /** Every leaf is recognised and every negation has exactly one argument. */
  predicate WellFormed(p: Predicate) {
    match p
    case Leaf(text) => Recognised(text)
    case Call(op, args) => (op.Not? ==> |args| == 1) && forall i | 0 <= i < |args| :: WellFormed(args[i])
  }

  /** The configuration options that are set: the target architecture, and one key-value pair per feature. */
  function Options(wasm: bool, features: set<string>): set<string> {
    (if wasm then {WASM32} else {}) + set f | f in features :: FeatureOption(f)
  }

  function FeatureOption(feature: string): string {
    "feature = \"" + feature + "\""
  }

  /**
   The meaning given by the Rust Reference: an option holds if it is set, all is conjunction, any is
   disjunction, not is negation.
   */
  predicate Holds(p: Predicate, wasm: bool, features: set<string>) {
    match p
    case Leaf(text) => text in Options(wasm, features)
    case Call(All, args) => forall i | 0 <= i < |args| :: Holds(args[i], wasm, features)
    case Call(Any, args) => exists i | 0 <= i < |args| :: Holds(args[i], wasm, features)
    case Call(Not, args) => |args| == 1 && !Holds(args[0], wasm, features)
  }

  lemma FeatureOptionInjective(f: string, g: string)
    ensures FeatureOption(f) == FeatureOption(g) ==> f == g
    ensures FeatureOption(f)[0] == 'f' && |FeatureOption(f)| == 12 + |f|
  {
    assert FeatureOption(f)[11..11 + |f|] == f && FeatureOption(g)[11..11 + |g|] == g;
  }

  lemma FeatureIsSet(feature: string, wasm: bool, features: set<string>)
    ensures FeatureOption(feature) in Options(wasm, features) <==> feature in features
  {
    FeatureOptionInjective(feature, feature);
    forall f | f in features && FeatureOption(f) == FeatureOption(feature) ensures f == feature {
      FeatureOptionInjective(f, feature);
    }
    assert WASM32[0] == 't';
  }

  /** The evaluator knows exactly which recognised options are set. */
  lemma LeafMeans(text: string, wasm: bool, features: set<string>)
    requires Recognised(text)
    ensures LeafHolds(text, wasm, features) <==> text in Options(wasm, features)
  {
    assert TEST_DEPLOYMENT == FeatureOption("test-deployment") && STORAGE_SERDE == FeatureOption("storage-serde");
    if text == TEST_DEPLOYMENT {
      FeatureIsSet("test-deployment", wasm, features);
    } else if text == STORAGE_SERDE {
      FeatureIsSet("storage-serde", wasm, features);
    } else {
      NotAFeature(text, wasm, features);
    }
  }

  lemma NotAFeature(text: string, wasm: bool, features: set<string>)
    requires text == "test" || text == "verus_keep_ghost" || text == "debug_assertions" || text == WASM32
    ensures text in Options(wasm, features) <==> text == WASM32 && wasm
  {
    assert text[0] != 'f';
    forall f | f in features ensures FeatureOption(f) != text {
      FeatureOptionInjective(f, f);
    }
  }

  // Splitting undoes listing.

  lemma TrimOfTrimmed(p: string)
    requires Trimmed(p)
    ensures Trim(p) == p && Trim(" " + p) == p
  {
    assert (" " + p)[1..] == p;
  }

  lemma PadItem(p: string)
    requires Item(p)
    ensures Item(" " + p)
  {
    var s := " " + p;
    assert s[1..] == p;
    forall k | 0 <= k < |s| ensures !TopComma(s, k) {
      if k > 0 {
        assert s[..k][1..] == p[..k - 1];
        assert Run(s[..k], "") == Run(p[..k - 1], "");
        assert !TopComma(p, k - 1);
      }
    }
  }

  function Pad(padded: bool, s: string): string {
    if padded then " " + s else s
  }

  lemma PadReads(p: string, padded: bool)
    requires Trimmed(p) && Item(p)
    ensures Item(Pad(padded, p)) && Trim(Pad(padded, p)) == p
  {
    PadItem(p);
    TrimOfTrimmed(p);
  }

  lemma SplitOfOne(p: string, padded: bool)
    requires Trimmed(p) && Item(p)
    ensures Nested(Pad(padded, p)) && Tidy(Pieces(Pad(padded, p))) == [p]
  {
    PadReads(p, padded);
    FirstCommaIs(Pad(padded, p), 0, |Pad(padded, p)|);
  }

  lemma SplitOfMore(p: string, padded: bool, rest: string)
    requires Trimmed(p) && Item(p) && Nested(rest)
    ensures
      var s := Pad(padded, p) + ("," + rest);
      Nested(s) && Tidy(Pieces(s)) == [p] + Tidy(Pieces(rest))
  {
    var head := Pad(padded, p);
    PadReads(p, padded);
    CutAfterItem(head, rest);
    NestedAppend(head, "," + rest);
    CommaSkips(rest);
    assert ([head] + Pieces(rest))[1..] == Pieces(rest);
  }

  lemma PadOfList(parts: seq<string>, padded: bool)
    requires |parts| > 1
    ensures Pad(padded, CommaList(parts)) == Pad(padded, parts[0]) + ("," + Pad(true, CommaList(parts[1..])))
  {
    var rest := "," + (" " + CommaList(parts[1..]));
    assert " " + (parts[0] + rest) == " " + parts[0] + rest;
  }

  lemma {:induction false} SplitOfPadded(parts: seq<string>, padded: bool)
    requires parts != [] && forall i | 0 <= i < |parts| :: Trimmed(parts[i]) && Item(parts[i])
    ensures
      var s := Pad(padded, CommaList(parts));
      Nested(s) && Tidy(Pieces(s)) == parts
    decreases |parts|
  {
    if |parts| == 1 {
      SplitOfOne(parts[0], padded);
      assert parts == [parts[0]];
    } else {
      var rest := Pad(true, CommaList(parts[1..]));
      SplitOfPadded(parts[1..], true);
      SplitOfMore(parts[0], padded, rest);
      PadOfList(parts, padded);
      assert parts == [parts[0]] + parts[1..];
    }
  }

  /** A comma-separated list of trimmed arguments splits into exactly those arguments. */
  lemma SplitOfList(parts: seq<string>)
    requires forall i | 0 <= i < |parts| :: Trimmed(parts[i]) && Item(parts[i])
    ensures TopLevelItems(CommaList(parts)) == Some(parts)
  {
    if parts == [] {
      assert Pieces("") == [""] && Trim("") == "";
    } else {
      SplitOfPadded(parts, false);
    }
  }

  // Rendered predicates read back as themselves.

  lemma {:induction false} WordsOpenNothing(s: string, stack: string)
    requires forall k | 0 <= k < |s| :: !IsOpening(s[k]) && !IsClosing(s[k])
    ensures Run(s, stack) == Some(stack)
    decreases |s|
  {
    if s != [] {
      WordsOpenNothing(s[1..], stack);
    }
  }

  lemma RunInside(name: string, body: string)
    requires forall k | 0 <= k < |name| :: !IsOpening(name[k]) && !IsClosing(name[k])
    requires Run(body, "").Some?
    ensures Run(name + ("(" + body), "") == Some("(" + Run(body, "").value)
  {
    RunAppend(name, "(" + body, "");
    WordsOpenNothing(name, "");
    assert ("(" + body)[1..] == body;
    RunFrame(body, "(", "");
    assert "(" + "" == "(" && "" + ['('] == "(";
  }

  lemma PrefixRuns(s: string, k: nat)
    requires k <= |s| && Nested(s)
    ensures Run(s[..k], "").Some?
  {
    if Run(s[..k], "").None? {
      PrefixFails(s, k);
    }
  }

  /** Commas between brackets are not at the top. */
  lemma WrapIsItem(name: string, body: string)
    requires forall k | 0 <= k < |name| :: !IsOpening(name[k]) && !IsClosing(name[k]) && name[k] != ','
    requires Nested(body)
    ensures Item(Wrap(name, body))
  {
    var s := Wrap(name, body);
    assert s == name + ("(" + body) + ")";
    RunInside(name, body);
    RunAppend(name + ("(" + body), ")", "");
    assert Run(")", "(") == Some("") by { assert ")"[1..] == "" && "("[..0] == ""; }
    forall k | 0 <= k < |s| ensures !TopComma(s, k) {
      var j := k - |name| - 1;
      if 0 <= j < |body| {
        assert s[..k] == name + ("(" + body[..j]);
        PrefixRuns(body, j);
        RunInside(name, body[..j]);
      }
    }
  }

  lemma WordsAreItems(s: string)
    requires forall k | 0 <= k < |s| :: !IsOpening(s[k]) && !IsClosing(s[k]) && s[k] != ','
    ensures Item(s)
  {
    WordsOpenNothing(s, "");
  }

  lemma WordsAreLeafy(text: string)
    requires Trimmed(text) && text[0] != 'a' && text[0] != 'n'
    requires forall k | 0 <= k < |text| :: !IsOpening(text[k]) && !IsClosing(text[k]) && text[k] != ','
    ensures Leafy(text)
  {
    WordsAreItems(text);
    assert forall op | |text| >= 3 && text[..3] == Name(op) :: text[0] == Name(op)[0];
  }

  lemma FlagIsLeafy(text: string)
    requires text == "test" || text == "verus_keep_ghost" || text == "debug_assertions"
    ensures Leafy(text)
  {
    if text == "test" {
      WordsAreLeafy("test");
    } else if text == "verus_keep_ghost" {
      WordsAreLeafy("verus_keep_ghost");
    } else {
      WordsAreLeafy("debug_assertions");
    }
  }

  lemma SettingIsLeafy(text: string)
    requires text == TEST_DEPLOYMENT || text == STORAGE_SERDE || text == WASM32
    ensures Leafy(text)
  {
    if text == TEST_DEPLOYMENT {
      WordsAreLeafy(TEST_DEPLOYMENT);
    } else if text == STORAGE_SERDE {
      WordsAreLeafy(STORAGE_SERDE);
    } else {
      WordsAreLeafy(WASM32);
    }
  }

  /** The recognised leaves can all be written. */
  lemma RecognisedIsLeafy(text: string)
    requires Recognised(text)
    ensures Leafy(text)
  {
    if text == TEST_DEPLOYMENT || text == STORAGE_SERDE || text == WASM32 {
      SettingIsLeafy(text);
    } else {
      FlagIsLeafy(text);
    }
  }

  lemma NameIsPlain(op: Op)
    ensures forall k | 0 <= k < 3 ::
      !IsOpening(Name(op)[k]) && !IsClosing(Name(op)[k]) && Name(op)[k] != ',' && !IsSpace(Name(op)[k])
  { }

  lemma {:induction false} RenderReads(p: Predicate)
    requires Written(p)
    ensures Trimmed(Render(p)) && Item(Render(p))
    decreases p
  {
    if p.Call? {
      forall i | 0 <= i < |p.args| ensures Trimmed(Render(p.args[i])) && Item(Render(p.args[i])) {
        RenderReads(p.args[i]);
      }
      SplitOfList(RenderAll(p.args));
      NameIsPlain(p.op);
      WrapIsItem(Name(p.op), CommaList(RenderAll(p.args)));
    }
  }

  lemma MatchOfWrap(op: Op, body: string)
    ensures MatchCall(Wrap(Name(op), body)) == Some((op, body))
  {
    var e := Wrap(Name(op), body);
    assert e[..3] == Name(op);
    assert e[3] == '(' && SkipSpaces(e, 3) == 3 && e[|e| - 1] == ')';
    assert e[4..|e| - 1] == body;
    assert "all"[0] != "any"[0] || "all"[1] != "any"[1];
    assert "not"[0] != "any"[0] && "not"[0] != "all"[0];
  }

  /**
   The evaluator answers a written predicate with its meaning when it is well formed, and refuses it
   otherwise: no short cut hides an unknown leaf or a bad negation.
   */
  lemma {:induction false} EvaluateRender(p: Predicate, wasm: bool, features: set<string>)
    requires Written(p)
    ensures Evaluate(Render(p), wasm, features) == if WellFormed(p) then Some(Holds(p, wasm, features)) else None
    decreases p, 0
  {
    RenderReads(p);
    match p
    case Leaf(text) =>
      TrimOfTrimmed(text);
      if Recognised(text) {
        LeafMeans(text, wasm, features);
      }
    case Call(op, args) =>
      var texts := RenderAll(args);
      forall i | 0 <= i < |args| ensures Trimmed(texts[i]) && Item(texts[i]) {
        RenderReads(args[i]);
      }
      EvaluateCall(op, texts, wasm, features);
      SplitOfList(texts);
      SplitShrinks(CommaList(texts));
      EvaluateEach(texts, |CommaList(texts)|, wasm, features);
      forall i | 0 <= i < |args|
        ensures Evaluate(texts[i], wasm, features) == if WellFormed(args[i]) then Some(Holds(args[i], wasm, features)) else None
      {
        EvaluateRender(args[i], wasm, features);
      }
      var values := EvaluateAll(texts, |CommaList(texts)|, wasm, features);
      if values.Some? {
        CombineMeans(op, args, values.value, wasm, features);
      }
  }

  lemma EvaluateCall(op: Op, texts: seq<string>, wasm: bool, features: set<string>)
    requires forall i | 0 <= i < |texts| :: Trimmed(texts[i]) && Item(texts[i])
    requires Trimmed(Wrap(Name(op), CommaList(texts)))
    ensures forall i | 0 <= i < |texts| :: |texts[i]| <= |CommaList(texts)|
    ensures Evaluate(Wrap(Name(op), CommaList(texts)), wasm, features)
      == var values := EvaluateAll(texts, |CommaList(texts)|, wasm, features);
        if values.None? then None else Combine(op, values.value)
  {
    TrimOfTrimmed(Wrap(Name(op), CommaList(texts)));
    MatchOfWrap(op, CommaList(texts));
    SplitOfList(texts);
    SplitShrinks(CommaList(texts));
  }

  lemma CombineMeans(op: Op, args: seq<Predicate>, values: seq<bool>, wasm: bool, features: set<string>)
    requires |values| == |args| && forall i | 0 <= i < |args| :: values[i] == Holds(args[i], wasm, features)
    ensures Combine(op, values)
      == if op.Not? ==> |args| == 1 then Some(Holds(Call(op, args), wasm, features)) else None
  {
    assert forall i | 0 <= i < |args| :: values[i] in values;
  }

  /** All arguments are evaluated, and each has to succeed. */
  lemma {:induction false} EvaluateEach(texts: seq<string>, bound: nat, wasm: bool, features: set<string>)
    requires forall i | 0 <= i < |texts| :: |texts[i]| <= bound
    ensures
      var values := EvaluateAll(texts, bound, wasm, features);
      && (values.Some? <==> forall i | 0 <= i < |texts| :: Evaluate(texts[i], wasm, features).Some?)
      && (values.Some? ==> |values.value| == |texts|)
      && (values.Some? ==>
        forall i | 0 <= i < |texts| :: Evaluate(texts[i], wasm, features) == Some(values.value[i]))
    decreases |texts|
  {
    if texts != [] {
      EvaluateEach(texts[1..], bound, wasm, features);
      assert forall i | 1 <= i < |texts| :: texts[i] == texts[1..][i - 1];
      assert texts == [texts[0]] + texts[1..];
    }
  }
}

/** Setting the gateway port of the managed local network in a configuration file, line by line. */
module LocalNetwork {
  import opened Prelude
  import opened Lexing

  // Lines and text.

  predicate IsBreak(c: char) {
    || '\n' <= c <= '\r' || '\U{1C}' <= c <= '\U{1E}' || c == '\U{85}' || c == '\U{2028}' || c == '\U{2029}'
  }

  predicate Unbroken(line: string) {
    forall k | 0 <= k < |line| :: !IsBreak(line[k])
  }

  function BreakAt(s: string, i: nat): (k: nat)
    requires i <= |s|
    ensures i <= k <= |s|
    ensures k < |s| ==> IsBreak(s[k])
    ensures forall j | i <= j < k :: !IsBreak(s[j])
    decreases |s| - i
  {
    if i == |s| || IsBreak(s[i]) then i else BreakAt(s, i + 1)
  }

  function SplitLines(s: string): (lines: seq<string>)
    decreases |s|
  {
    var k := BreakAt(s, 0);
    if s == [] then []
    else if k == |s| then [s]
    else [s[..k]] + SplitLines(s[k + (if Pair(s, k, '\r', '\n') then 2 else 1)..])
  }

  /** The lines joined by newlines, with one more at the end. */
  function Text(lines: seq<string>): string
    requires lines != []
  {
    if |lines| == 1 then lines[0] + "\n" else lines[0] + ("\n" + Text(lines[1..]))
  }

  predicate AllUnbroken(lines: seq<string>) {
    forall k | 0 <= k < |lines| :: Unbroken(lines[k])
  }

  lemma {:induction false} SplitLinesUnbroken(s: string)
    ensures AllUnbroken(SplitLines(s))
    decreases |s|
  {
    var k := BreakAt(s, 0);
    if k < |s| {
      SplitLinesUnbroken(s[k + (if Pair(s, k, '\r', '\n') then 2 else 1)..]);
    }
  }

  lemma {:induction false} BreakIs(s: string, i: nat, k: nat)
    requires i <= k < |s| && IsBreak(s[k]) && forall j | i <= j < k :: !IsBreak(s[j])
    ensures BreakAt(s, i) == k
    decreases k - i
  {
    if i < k {
      BreakIs(s, i + 1, k);
    }
  }

  lemma CutLine(head: string, rest: string)
    requires Unbroken(head)
    ensures SplitLines(head + ("\n" + rest)) == [head] + SplitLines(rest)
  {
    var s := head + ("\n" + rest);
    assert forall j | 0 <= j < |head| :: s[j] == head[j];
    BreakIs(s, 0, |head|);
    assert s[..|head|] == head && s[|head| + 1..] == rest;
  }

  /** Splitting undoes joining. */
  lemma {:induction false} SplitOfText(lines: seq<string>)
    requires lines != [] && AllUnbroken(lines)
    ensures SplitLines(Text(lines)) == lines
    decreases |lines|
  {
    assert lines == [lines[0]] + lines[1..];
    if |lines| == 1 {
      CutLine(lines[0], "");
      assert Text(lines) == lines[0] + ("\n" + "");
    } else {
      CutLine(lines[0], Text(lines[1..]));
      SplitOfText(lines[1..]);
    }
  }

  // The kinds of line that matter.

  predicate StartsWith(line: string, prefix: string) {
    |prefix| <= |line| && forall k | 0 <= k < |prefix| :: line[k] == prefix[k]
  }

  function Indent(line: string): nat {
    if line != [] && IsSpace(line[0]) then 1 + Indent(line[1..]) else 0
  }

  datatype Kind = Networks | Top | Local | Item | Gateway | InlineGateway | Dedent | PortKind

  datatype Mark = Mark(
    networks: bool, top: bool, local: bool, item: bool, gateway: bool, inlineGateway: bool, dedent: bool, port: bool)

  predicate Has(m: Mark, kind: Kind) {
    match kind
    case Networks => m.networks
    case Top => m.top
    case Local => m.local
    case Item => m.item
    case Gateway => m.gateway
    case InlineGateway => m.inlineGateway
    case Dedent => m.dedent
    case PortKind => m.port
  }

  /** The kinds a line is of; only these decide where the port goes. */
  function MarkOf(line: string): Mark {
    Mark(
      line == "networks:",
      line != [] && !IsSpace(line[0]),
      line == "  - name: local",
      StartsWith(line, "  - "),
      line == "    gateway:",
      StartsWith(line, "    gateway:") && line != "    gateway:",
      line != [] && Indent(line) <= 4,
      StartsWith(line, "      port:"))
  }

  function Marks(lines: seq<string>): (ms: seq<Mark>)
    ensures |ms| == |lines| && forall i | 0 <= i < |lines| :: ms[i] == MarkOf(lines[i])
  {
    seq(|lines|, i requires 0 <= i < |lines| => MarkOf(lines[i]))
  }

  // First and last lines of a kind.

  function First(ms: seq<Mark>, from: nat, till: nat, kind: Kind): (k: nat)
    requires from <= till <= |ms|
    ensures from <= k <= till
    decreases till - from
  {
    if from == till || Has(ms[from], kind) then from else First(ms, from + 1, till, kind)
  }

  function Last(ms: seq<Mark>, from: nat, till: nat, kind: Kind): (k: Option<nat>)
    requires from <= till <= |ms|
    ensures k.Some? ==> from <= k.value < till
    decreases till - from
  {
    if from == till then None
    else if Has(ms[till - 1], kind) then Some(till - 1)
    else Last(ms, from, till - 1, kind)
  }

  lemma {:induction false} FirstHas(ms: seq<Mark>, from: nat, till: nat, kind: Kind)
    requires from <= till <= |ms|
    ensures
      var k := First(ms, from, till, kind);
      (k < till ==> Has(ms[k], kind)) && Without(ms, from, k, kind)
    decreases till - from
  {
    if from < till && !Has(ms[from], kind) {
      FirstHas(ms, from + 1, till, kind);
    }
  }

  lemma {:induction false} LastHas(ms: seq<Mark>, from: nat, till: nat, kind: Kind)
    requires from <= till <= |ms|
    ensures
      var k := Last(ms, from, till, kind);
      && (k.Some? ==> Has(ms[k.value], kind))
      && Without(ms, if k.Some? then k.value + 1 else from, till, kind)
    decreases till - from
  {
    if from < till && !Has(ms[till - 1], kind) {
      LastHas(ms, from, till - 1, kind);
    }
  }

  // Where the port line is, or where lines are missing.

  datatype Slot = NoNetworks | NoLocal(at: nat) | NoGateway(at: nat) | NoPort(at: nat) | Port(at: nat) | Inline

  function Locate(ms: seq<Mark>): (slot: Slot)
    ensures SlotIn(slot, |ms|)
  {
    var n := First(ms, 0, |ms|, Networks);
    if n == |ms| then NoNetworks
    else
      var e := First(ms, n + 1, |ms|, Top);
      var l := Last(ms, n + 1, e, Local);
      if l.None? then NoLocal(e) else LocateGateway(ms, l.value, e)
  }

  function LocateGateway(ms: seq<Mark>, l: nat, e: nat): (slot: Slot)
    requires l < e <= |ms|
    ensures SlotIn(slot, |ms|)
  {
    var le := First(ms, l + 1, e, Item);
    if First(ms, l + 1, le, InlineGateway) < le then Inline
    else
      var g := Last(ms, l + 1, le, Gateway);
      if g.None? then NoGateway(le)
      else
        var ge := First(ms, g.value + 1, le, Dedent);
        var p := Last(ms, g.value + 1, ge, PortKind);
        if p.None? then NoPort(g.value + 1) else Port(p.value)
  }

  predicate SlotIn(slot: Slot, n: nat) {
    match slot
    case NoNetworks => true
    case Inline => true
    case Port(at) => at < n
    case _ => slot.at <= n
  }

  function Decimal(n: nat): string {
    if n < 10 then [('0' as int + n) as char] else Decimal(n / 10) + [('0' as int + n % 10) as char]
  }

  function PortLine(port: nat): string {
    "      port: " + Decimal(port)
  }

  function Insert<T>(lines: seq<T>, at: nat, more: seq<T>): seq<T>
    requires at <= |lines|
  {
    lines[..at] + more + lines[at..]
  }

  function Edit(lines: seq<string>, slot: Slot, port: nat): Option<seq<string>>
    requires SlotIn(slot, |lines|)
  {
    match slot
    case NoNetworks =>
      Some(lines + Gap(lines) + (["networks:"] + Block(port)))
    case NoLocal(at) => Some(Insert(lines, at, Block(port)))
    case NoGateway(at) => Some(Insert(lines, at, GatewayBlock(port)))
    case NoPort(at) => Some(Insert(lines, at, [PortLine(port)]))
    case Port(at) => Some(lines[at := PortLine(port)])
    case Inline => None
  }

  function Render(source: string, port: nat): Option<string> {
    var lines := SplitLines(source);
    var edited := Edit(lines, Locate(Marks(lines)), port);
    if edited.None? then None else Some(Text(edited.value))
  }

  // What the lines written are, and what they are not.

  /** A line starts with n spaces, and goes on with something else or is not known further. */
  lemma {:induction false} IndentOfSpaces(line: string, n: nat)
    requires n <= |line| && forall k | 0 <= k < n :: line[k] == ' '
    ensures Indent(line) >= n
    ensures n < |line| && !IsSpace(line[n]) ==> Indent(line) == n
    decreases n
  {
    if n > 0 {
      IndentOfSpaces(line[1..], n - 1);
    }
  }

  const BLANK_MARK := Mark(false, false, false, false, false, false, false, false)
  const NETWORKS_MARK := BLANK_MARK.(networks := true, top := true, dedent := true)
  const LOCAL_MARK := BLANK_MARK.(local := true, item := true, dedent := true)
  const MODE_MARK := BLANK_MARK.(dedent := true)
  const GATEWAY_MARK := BLANK_MARK.(gateway := true, dedent := true)
  const PORT_MARK := BLANK_MARK.(port := true)

  /** A port line is nothing else. */
  lemma PortLineMark(line: string)
    requires StartsWith(line, "      port:")
    ensures MarkOf(line) == PORT_MARK
  {
    assert forall k | 0 <= k < 6 :: line[k] == "      port:"[k] == ' ';
    IndentOfSpaces(line, 6);
    assert line[2] != "  - "[2] && line[4] != "    gateway:"[4];
  }

  lemma PortMark(port: nat)
    ensures MarkOf(PortLine(port)) == PORT_MARK
  {
    assert StartsWith(PortLine(port), "      port:");
    PortLineMark(PortLine(port));
  }

  lemma NetworksLineMark()
    ensures MarkOf("networks:") == NETWORKS_MARK && MarkOf("") == BLANK_MARK
  {
    assert "networks:"[0] != ' ' && Indent("networks:") == 0;
  }

  lemma LocalLineMark()
    ensures MarkOf("  - name: local") == LOCAL_MARK
  {
    var line := "  - name: local";
    assert line[2] != "    gateway:"[2] && line[2] != "      port:"[2] && line[0] == line[1] == ' ';
    IndentOfSpaces(line, 2);
  }

  lemma ModeLineMark()
    ensures MarkOf("    mode: managed") == MODE_MARK
  {
    var line := "    mode: managed";
    assert line[2] != "  - "[2] && line[4] != "    gateway:"[4] && line[4] != "      port:"[4];
    IndentOfSpaces(line, 4);
  }

  lemma GatewayLineMark()
    ensures MarkOf("    gateway:") == GATEWAY_MARK
  {
    var line := "    gateway:";
    assert line[2] != "  - "[2] && line[4] != "      port:"[4];
    IndentOfSpaces(line, 4);
  }

  // The lines that bound the port line, one level of nesting after the other.

  /** No line of a kind between two positions. */
  predicate Without(ms: seq<Mark>, from: nat, till: nat, kind: Kind)
    requires till <= |ms|
  {
    forall j | from <= j < till :: !Has(ms[j], kind)
  }

  predicate NetworksAt(ms: seq<Mark>, n: nat, e: nat) {
    && n < e <= |ms| && Has(ms[n], Networks) && Without(ms, 0, n, Networks)
    && (e < |ms| ==> Has(ms[e], Top)) && Without(ms, n + 1, e, Top)
  }

  predicate LocalAt(ms: seq<Mark>, l: nat, e: nat, le: nat) {
    && l < le <= e <= |ms| && Has(ms[l], Local) && Without(ms, l + 1, e, Local)
    && (le < e ==> Has(ms[le], Item)) && Without(ms, l + 1, le, Item) && Without(ms, l + 1, le, InlineGateway)
  }

  predicate GatewayAt(ms: seq<Mark>, g: nat, le: nat, ge: nat) {
    && g < ge <= le <= |ms| && Has(ms[g], Gateway) && Without(ms, g + 1, le, Gateway)
    && (ge < le ==> Has(ms[ge], Dedent)) && Without(ms, g + 1, ge, Dedent)
  }

  predicate PortAt(ms: seq<Mark>, p: nat, ge: nat) {
    p < ge <= |ms| && Has(ms[p], PortKind) && Without(ms, p + 1, ge, PortKind)
  }

  predicate Finds(ms: seq<Mark>, n: nat, e: nat, l: nat, le: nat, g: nat, ge: nat, p: nat) {
    n < l < g < p && NetworksAt(ms, n, e) && LocalAt(ms, l, e, le) && GatewayAt(ms, g, le, ge) && PortAt(ms, p, ge)
  }

  lemma {:induction false} FirstIs(ms: seq<Mark>, from: nat, till: nat, kind: Kind, k: nat)
    requires from <= k <= till <= |ms| && (k < till ==> Has(ms[k], kind))
    requires Without(ms, from, k, kind)
    ensures First(ms, from, till, kind) == k
    decreases k - from
  {
    if from < k {
      FirstIs(ms, from + 1, till, kind, k);
    }
  }

  lemma {:induction false} LastIs(ms: seq<Mark>, from: nat, till: nat, kind: Kind, k: nat)
    requires from <= k < till <= |ms| && Has(ms[k], kind) && Without(ms, k + 1, till, kind)
    ensures Last(ms, from, till, kind) == Some(k)
    decreases till - k
  {
    if k < till - 1 {
      LastIs(ms, from, till - 1, kind, k);
    }
  }

  lemma LocateIs(ms: seq<Mark>, n: nat, e: nat, l: nat)
    requires n < l < e <= |ms|
    requires First(ms, 0, |ms|, Networks) == n && First(ms, n + 1, |ms|, Top) == e && Last(ms, n + 1, e, Local) == Some(l)
    ensures Locate(ms) == LocateGateway(ms, l, e)
  { }

  lemma LocateGatewayIs(ms: seq<Mark>, l: nat, e: nat, le: nat, g: nat, ge: nat, p: nat)
    requires l < g < p < ge <= le <= e <= |ms|
    requires First(ms, l + 1, e, Item) == le && First(ms, l + 1, le, InlineGateway) == le
    requires Last(ms, l + 1, le, Gateway) == Some(g)
    requires First(ms, g + 1, le, Dedent) == ge && Last(ms, g + 1, ge, PortKind) == Some(p)
    ensures LocateGateway(ms, l, e) == Port(p)
  { }

  lemma FindsNetwork(ms: seq<Mark>, n: nat, e: nat, l: nat, le: nat, g: nat, ge: nat, p: nat)
    requires Finds(ms, n, e, l, le, g, ge, p)
    ensures Locate(ms) == LocateGateway(ms, l, e)
  {
    FirstIs(ms, 0, |ms|, Networks, n);
    FirstIs(ms, n + 1, |ms|, Top, e);
    LastIs(ms, n + 1, e, Local, l);
    LocateIs(ms, n, e, l);
  }

  lemma FindsGateway(ms: seq<Mark>, n: nat, e: nat, l: nat, le: nat, g: nat, ge: nat, p: nat)
    requires Finds(ms, n, e, l, le, g, ge, p)
    ensures LocateGateway(ms, l, e) == Port(p)
  {
    FirstIs(ms, l + 1, e, Item, le);
    FirstIs(ms, l + 1, le, InlineGateway, le);
    LastIs(ms, l + 1, le, Gateway, g);
    FirstIs(ms, g + 1, le, Dedent, ge);
    LastIs(ms, g + 1, ge, PortKind, p);
    LocateGatewayIs(ms, l, e, le, g, ge, p);
  }

  lemma FindsLocates(ms: seq<Mark>, n: nat, e: nat, l: nat, le: nat, g: nat, ge: nat, p: nat)
    requires Finds(ms, n, e, l, le, g, ge, p)
    ensures Locate(ms) == Port(p)
  {
    FindsNetwork(ms, n, e, l, le, g, ge, p);
    FindsGateway(ms, n, e, l, le, g, ge, p);
  }

  // Inserting lines of other kinds moves the bounds and nothing else.

  predicate Lacks(more: seq<Mark>, kind: Kind) {
    Without(more, 0, |more|, kind)
  }

  lemma InsertWithout(ms: seq<Mark>, at: nat, more: seq<Mark>, from: nat, till: nat, kind: Kind)
    requires from <= at <= till <= |ms| && Without(ms, from, till, kind) && Lacks(more, kind)
    ensures Without(Insert(ms, at, more), from, till + |more|, kind)
  {
    var out := Insert(ms, at, more);
    forall j | from <= j < till + |more| ensures !Has(out[j], kind) {
      assert out[j] == if j < at then ms[j] else if j < at + |more| then more[j - at] else ms[j - |more|];
    }
  }

  lemma InsertBelow(ms: seq<Mark>, at: nat, more: seq<Mark>, from: nat, till: nat, kind: Kind)
    requires till <= at <= |ms| && Without(ms, from, till, kind)
    ensures Without(Insert(ms, at, more), from, till, kind)
  {
    assert forall j | 0 <= j < at :: Insert(ms, at, more)[j] == ms[j];
  }

  lemma InsertIndex(ms: seq<Mark>, at: nat, more: seq<Mark>, k: nat)
    requires at <= |ms| && k < |ms|
    ensures
      var out := Insert(ms, at, more);
      if k < at then out[k] == ms[k] else out[k + |more|] == ms[k]
  { }

  lemma InsertNetworks(ms: seq<Mark>, at: nat, more: seq<Mark>, n: nat, e: nat)
    requires NetworksAt(ms, n, e) && n < at <= e && Lacks(more, Top)
    ensures NetworksAt(Insert(ms, at, more), n, e + |more|)
  {
    InsertIndex(ms, at, more, n);
    if e < |ms| {
      InsertIndex(ms, at, more, e);
    }
    InsertBelow(ms, at, more, 0, n, Networks);
    InsertWithout(ms, at, more, n + 1, e, Top);
  }

  lemma InsertLocal(ms: seq<Mark>, at: nat, more: seq<Mark>, l: nat, e: nat, le: nat)
    requires LocalAt(ms, l, e, le) && l < at <= le
    requires Lacks(more, Local) && Lacks(more, Item) && Lacks(more, InlineGateway)
    ensures LocalAt(Insert(ms, at, more), l, e + |more|, le + |more|)
  {
    InsertIndex(ms, at, more, l);
    if le < e {
      InsertIndex(ms, at, more, le);
    }
    InsertWithout(ms, at, more, l + 1, e, Local);
    InsertWithout(ms, at, more, l + 1, le, Item);
    InsertWithout(ms, at, more, l + 1, le, InlineGateway);
  }

  // After an edit the port line is where it was put.

  lemma AppendedIsFound(ms: seq<Mark>, gap: seq<Mark>)
    requires Locate(ms) == NoNetworks && (gap == [] || gap == [BLANK_MARK])
    ensures
      var out := ms + gap + [NETWORKS_MARK, LOCAL_MARK, MODE_MARK, GATEWAY_MARK, PORT_MARK];
      Locate(out) == Port(|out| - 1)
  {
    FirstHas(ms, 0, |ms|, Networks);
    var out := ms + gap + [NETWORKS_MARK, LOCAL_MARK, MODE_MARK, GATEWAY_MARK, PORT_MARK];
    var n := |ms| + |gap|;
    assert forall j | 0 <= j < n :: !Has(out[j], Networks);
    BlockIsFound(out, n, |out|);
  }

  /** A networks block with just a local network in it. */
  lemma BlockIsFound(out: seq<Mark>, n: nat, e: nat)
    requires e == n + 5 == |out| && Without(out, 0, n, Networks)
    requires out[n] == NETWORKS_MARK && out[n + 1] == LOCAL_MARK && out[n + 2] == MODE_MARK
    requires out[n + 3] == GATEWAY_MARK && out[n + 4] == PORT_MARK
    ensures Locate(out) == Port(n + 4)
  {
    FindsLocates(out, n, e, n + 1, e, n + 3, e, n + 4);
  }

  lemma NetworksBounds(ms: seq<Mark>) returns (n: nat, e: nat)
    requires !Locate(ms).NoNetworks?
    ensures NetworksAt(ms, n, e)
    ensures
      var l := Last(ms, n + 1, e, Local);
      Locate(ms) == if l.None? then NoLocal(e) else LocateGateway(ms, l.value, e)
  {
    n := First(ms, 0, |ms|, Networks);
    FirstHas(ms, 0, |ms|, Networks);
    e := First(ms, n + 1, |ms|, Top);
    FirstHas(ms, n + 1, |ms|, Top);
  }

  lemma LocalBounds(ms: seq<Mark>, n: nat, e: nat) returns (l: nat, le: nat)
    requires n < e <= |ms| && Last(ms, n + 1, e, Local).Some?
    requires !LocateGateway(ms, Last(ms, n + 1, e, Local).value, e).Inline?
    ensures n < l && LocalAt(ms, l, e, le) && l == Last(ms, n + 1, e, Local).value && le == First(ms, l + 1, e, Item)
  {
    l := Last(ms, n + 1, e, Local).value;
    LastHas(ms, n + 1, e, Local);
    le := First(ms, l + 1, e, Item);
    FirstHas(ms, l + 1, e, Item);
    FirstHas(ms, l + 1, le, InlineGateway);
  }

  lemma NewLocalIsFound(ms: seq<Mark>, at: nat)
    requires Locate(ms) == NoLocal(at)
    ensures Locate(Insert(ms, at, [LOCAL_MARK, MODE_MARK, GATEWAY_MARK, PORT_MARK])) == Port(at + 3)
  {
    var n, e := NetworksBounds(ms);
    InsertedLocal(ms, n, e);
  }

  lemma InsertedLocal(ms: seq<Mark>, n: nat, e: nat)
    requires NetworksAt(ms, n, e)
    ensures Locate(Insert(ms, e, [LOCAL_MARK, MODE_MARK, GATEWAY_MARK, PORT_MARK])) == Port(e + 3)
  {
    InsertedLocalFinds(ms, n, e);
    FindsLocates(Insert(ms, e, [LOCAL_MARK, MODE_MARK, GATEWAY_MARK, PORT_MARK]), n, e + 4, e, e + 4, e + 2, e + 4, e + 3);
  }

  lemma InsertedLocalFinds(ms: seq<Mark>, n: nat, e: nat)
    requires NetworksAt(ms, n, e)
    ensures Finds(Insert(ms, e, [LOCAL_MARK, MODE_MARK, GATEWAY_MARK, PORT_MARK]), n, e + 4, e, e + 4, e + 2, e + 4, e + 3)
  {
    var more := [LOCAL_MARK, MODE_MARK, GATEWAY_MARK, PORT_MARK];
    var out := Insert(ms, e, more);
    InsertNetworks(ms, e, more, n, e);
    assert forall j | 0 <= j < 4 :: out[e + j] == more[j];
    assert out[e] == LOCAL_MARK && out[e + 1] == MODE_MARK && out[e + 2] == GATEWAY_MARK && out[e + 3] == PORT_MARK;
  }

  lemma GatewaySlot(ms: seq<Mark>) returns (n: nat, e: nat, l: nat, le: nat)
    requires Locate(ms).NoGateway?
    ensures n < l && NetworksAt(ms, n, e) && LocalAt(ms, l, e, le) && Locate(ms) == NoGateway(le)
  {
    n, e := NetworksBounds(ms);
    l, le := LocalBounds(ms, n, e);
  }

  lemma NewGatewayIsFound(ms: seq<Mark>, le: nat)
    requires Locate(ms) == NoGateway(le)
    ensures Locate(Insert(ms, le, [GATEWAY_MARK, PORT_MARK])) == Port(le + 1)
  {
    var n, e, l, e2 := GatewaySlot(ms);
    InsertedGateway(ms, n, e, l, le);
  }

  lemma InsertedGateway(ms: seq<Mark>, n: nat, e: nat, l: nat, le: nat)
    requires n < l && NetworksAt(ms, n, e) && LocalAt(ms, l, e, le)
    ensures Locate(Insert(ms, le, [GATEWAY_MARK, PORT_MARK])) == Port(le + 1)
  {
    var more := [GATEWAY_MARK, PORT_MARK];
    var out := Insert(ms, le, more);
    InsertNetworks(ms, le, more, n, e);
    InsertLocal(ms, le, more, l, e, le);
    assert forall j | 0 <= j < 2 :: out[le + j] == more[j];
    assert out[le] == GATEWAY_MARK && out[le + 1] == PORT_MARK;
    FindsLocates(out, n, e + 2, l, le + 2, le, le + 2, le + 1);
  }

  lemma GatewayBounds(ms: seq<Mark>, l: nat, e: nat, le: nat, at: nat) returns (ge: nat)
    requires l < e <= |ms| && LocateGateway(ms, l, e) == NoPort(at) && le == First(ms, l + 1, e, Item)
    ensures l < at - 1 && GatewayAt(ms, at - 1, le, ge) && Without(ms, at, ge, PortKind)
  {
    LastHas(ms, l + 1, le, Gateway);
    ge := First(ms, at, le, Dedent);
    FirstHas(ms, at, le, Dedent);
    LastHas(ms, at, ge, PortKind);
  }

  /** The bounds of a local network whose gateway, on the line before, has no port yet. */
  predicate NoPortAt(ms: seq<Mark>, n: nat, e: nat, l: nat, le: nat, ge: nat, at: nat) {
    && n < l < at - 1 && NetworksAt(ms, n, e) && LocalAt(ms, l, e, le) && GatewayAt(ms, at - 1, le, ge)
    && Without(ms, at, ge, PortKind)
  }

  lemma PortSlot(ms: seq<Mark>, at: nat) returns (n: nat, e: nat, l: nat, le: nat, ge: nat)
    requires Locate(ms) == NoPort(at)
    ensures NoPortAt(ms, n, e, l, le, ge, at)
  {
    n, e := NetworksBounds(ms);
    l, le := LocalBounds(ms, n, e);
    ge := GatewayBounds(ms, l, e, le, at);
  }

  lemma NewPortIsFound(ms: seq<Mark>, at: nat)
    requires Locate(ms) == NoPort(at)
    ensures Locate(Insert(ms, at, [PORT_MARK])) == Port(at)
  {
    var n, e, l, le, ge := PortSlot(ms, at);
    InsertedPort(ms, n, e, l, le, ge, at);
  }

  lemma InsertedPort(ms: seq<Mark>, n: nat, e: nat, l: nat, le: nat, ge: nat, at: nat)
    requires NoPortAt(ms, n, e, l, le, ge, at)
    ensures Locate(Insert(ms, at, [PORT_MARK])) == Port(at)
  {
    InsertedPortFinds(ms, n, e, l, le, ge, at);
    FindsLocates(Insert(ms, at, [PORT_MARK]), n, e + 1, l, le + 1, at - 1, ge + 1, at);
  }

  lemma InsertedPortFinds(ms: seq<Mark>, n: nat, e: nat, l: nat, le: nat, ge: nat, at: nat)
    requires NoPortAt(ms, n, e, l, le, ge, at)
    ensures Finds(Insert(ms, at, [PORT_MARK]), n, e + 1, l, le + 1, at - 1, ge + 1, at)
  {
    InsertNetworks(ms, at, [PORT_MARK], n, e);
    InsertLocal(ms, at, [PORT_MARK], l, e, le);
    InsertGateway(ms, at - 1, le, ge);
  }

  lemma InsertGateway(ms: seq<Mark>, g: nat, le: nat, ge: nat)
    requires GatewayAt(ms, g, le, ge) && Without(ms, g + 1, ge, PortKind)
    ensures
      var out := Insert(ms, g + 1, [PORT_MARK]);
      GatewayAt(out, g, le + 1, ge + 1) && PortAt(out, g + 1, ge + 1)
  {
    var more, out := [PORT_MARK], Insert(ms, g + 1, [PORT_MARK]);
    InsertIndex(ms, g + 1, more, g);
    if ge < le {
      InsertIndex(ms, g + 1, more, ge);
    }
    InsertWithout(ms, g + 1, more, g + 1, le, Gateway);
    InsertWithout(ms, g + 1, more, g + 1, ge, Dedent);
    forall j | g + 2 <= j < ge + 1 ensures !Has(out[j], PortKind) {
      InsertIndex(ms, g + 1, more, j - 1);
    }
  }

  // The laws of the edit, on lines.

  function Gap(lines: seq<string>): seq<string> {
    if lines == [] || lines[|lines| - 1] == "" then [] else [""]
  }

  /** Where the port line is after the edit. */
  function NewAt(lines: seq<string>, slot: Slot): nat {
    match slot
    case NoNetworks => |lines| + |Gap(lines)| + 4
    case NoLocal(at) => at + 3
    case NoGateway(at) => at + 1
    case NoPort(at) => at
    case Port(at) => at
    case Inline => 0
  }

  lemma MarksInsert(lines: seq<string>, at: nat, more: seq<string>)
    requires at <= |lines|
    ensures Marks(Insert(lines, at, more)) == Insert(Marks(lines), at, Marks(more))
  { }

  /** The lines that set a gateway port. */
  function GatewayBlock(port: nat): seq<string> {
    ["    gateway:", PortLine(port)]
  }

  /** The lines of a local network that sets its gateway port. */
  function Block(port: nat): seq<string> {
    ["  - name: local", "    mode: managed"] + GatewayBlock(port)
  }

  lemma GatewayMarks(port: nat)
    ensures Marks(GatewayBlock(port)) == [GATEWAY_MARK, PORT_MARK]
  {
    GatewayLineMark();
    PortMark(port);
  }

  lemma LocalMarks()
    ensures Marks(["  - name: local", "    mode: managed"]) == [LOCAL_MARK, MODE_MARK]
  {
    LocalLineMark();
    ModeLineMark();
  }

  lemma BlockMarks(port: nat)
    ensures Marks(Block(port)) == [LOCAL_MARK, MODE_MARK, GATEWAY_MARK, PORT_MARK]
  {
    LocalMarks();
    GatewayMarks(port);
    MarksAppend(["  - name: local", "    mode: managed"], GatewayBlock(port));
  }

  lemma MarksAppend(a: seq<string>, b: seq<string>)
    ensures Marks(a + b) == Marks(a) + Marks(b)
  { }

  lemma GapMarks(lines: seq<string>)
    ensures Marks(Gap(lines)) == [] || Marks(Gap(lines)) == [BLANK_MARK]
    ensures Marks(["networks:"]) == [NETWORKS_MARK]
  {
    NetworksLineMark();
  }

  lemma AppendLaw(lines: seq<string>, gap: seq<string>, head: seq<string>, block: seq<string>)
    requires Locate(Marks(lines)).NoNetworks? && (Marks(gap) == [] || Marks(gap) == [BLANK_MARK])
    requires Marks(head) == [NETWORKS_MARK] && Marks(block) == [LOCAL_MARK, MODE_MARK, GATEWAY_MARK, PORT_MARK]
    ensures Locate(Marks(lines + gap + (head + block))) == Port(|lines| + |gap| + 4)
  {
    MarksAppend(lines, gap);
    MarksAppend(head, block);
    MarksAppend(lines + gap, head + block);
    assert Marks(head) + Marks(block) == [NETWORKS_MARK, LOCAL_MARK, MODE_MARK, GATEWAY_MARK, PORT_MARK];
    AppendedIsFound(Marks(lines), Marks(gap));
  }

  lemma LocalLaw(lines: seq<string>, block: seq<string>, at: nat)
    requires Locate(Marks(lines)) == NoLocal(at) && Marks(block) == [LOCAL_MARK, MODE_MARK, GATEWAY_MARK, PORT_MARK]
    ensures Locate(Marks(Insert(lines, at, block))) == Port(at + 3)
  {
    MarksInsert(lines, at, block);
    NewLocalIsFound(Marks(lines), at);
  }

  lemma GatewayLaw(lines: seq<string>, block: seq<string>, at: nat)
    requires Locate(Marks(lines)) == NoGateway(at) && Marks(block) == [GATEWAY_MARK, PORT_MARK]
    ensures Locate(Marks(Insert(lines, at, block))) == Port(at + 1)
  {
    MarksInsert(lines, at, block);
    NewGatewayIsFound(Marks(lines), at);
  }

  lemma NoPortLaw(lines: seq<string>, port: nat, at: nat)
    requires Locate(Marks(lines)) == NoPort(at)
    ensures Locate(Marks(Edit(lines, NoPort(at), port).value)) == Port(at)
  {
    PortMark(port);
    MarksInsert(lines, at, [PortLine(port)]);
    assert Marks([PortLine(port)]) == [PORT_MARK];
    NewPortIsFound(Marks(lines), at);
  }

  lemma GatewayLocatesPort(ms: seq<Mark>, l: nat, e: nat)
    requires l < e <= |ms| && LocateGateway(ms, l, e).Port?
    ensures Has(ms[LocateGateway(ms, l, e).at], PortKind)
  {
    var le := First(ms, l + 1, e, Item);
    var g := Last(ms, l + 1, le, Gateway).value;
    LastHas(ms, g + 1, First(ms, g + 1, le, Dedent), PortKind);
  }

  lemma LocatedIsPort(ms: seq<Mark>, at: nat)
    requires Locate(ms) == Port(at)
    ensures Has(ms[at], PortKind)
  {
    var n, e := NetworksBounds(ms);
    GatewayLocatesPort(ms, Last(ms, n + 1, e, Local).value, e);
  }

  lemma SamePortMarks(lines: seq<string>, at: nat, line: string)
    requires at < |lines| && MarkOf(lines[at]) == MarkOf(line)
    ensures Marks(lines[at := line]) == Marks(lines)
  { }

  lemma PortLaw(lines: seq<string>, port: nat, at: nat)
    requires Locate(Marks(lines)) == Port(at)
    ensures Locate(Marks(Edit(lines, Port(at), port).value)) == Port(at)
  {
    LocatedIsPort(Marks(lines), at);
    PortLineMark(lines[at]);
    PortMark(port);
    SamePortMarks(lines, at, PortLine(port));
  }

  lemma AppendedEdit(lines: seq<string>, port: nat)
    requires Locate(Marks(lines)).NoNetworks?
    ensures Locate(Marks(Edit(lines, NoNetworks, port).value)) == Port(|lines| + |Gap(lines)| + 4)
  {
    GapMarks(lines);
    BlockMarks(port);
    AppendLaw(lines, Gap(lines), ["networks:"], Block(port));
  }

  lemma InsertedEdit(lines: seq<string>, port: nat)
    requires Locate(Marks(lines)).NoLocal? || Locate(Marks(lines)).NoGateway?
    ensures
      var slot := Locate(Marks(lines));
      Locate(Marks(Edit(lines, slot, port).value)) == Port(NewAt(lines, slot))
  {
    match Locate(Marks(lines))
    case NoLocal(at) =>
      BlockMarks(port);
      LocalLaw(lines, Block(port), at);
    case NoGateway(at) =>
      GatewayMarks(port);
      GatewayLaw(lines, GatewayBlock(port), at);
  }

  /** In all five cases the edit puts the port line where it will be looked for. */
  lemma EditIsFound(lines: seq<string>, port: nat)
    requires !Locate(Marks(lines)).Inline?
    ensures
      var slot := Locate(Marks(lines));
      Locate(Marks(Edit(lines, slot, port).value)) == Port(NewAt(lines, slot))
  {
    match Locate(Marks(lines))
    case NoNetworks => AppendedEdit(lines, port);
    case NoLocal(at) => InsertedEdit(lines, port);
    case NoGateway(at) => InsertedEdit(lines, port);
    case NoPort(at) => NoPortLaw(lines, port, at);
    case Port(at) => PortLaw(lines, port, at);
  }

  lemma InsertShape(lines: seq<string>, at: nat, a: seq<string>, b: seq<string>, k: nat)
    requires at <= |lines| && |a| == |b| && k < |a| && b == a[k := b[k]]
    ensures Insert(lines, at, a)[at + k] == a[k] && Insert(lines, at, a)[at + k := b[k]] == Insert(lines, at, b)
  { }

  /** Seen as lines, the edit with another port differs in the port line only. */
  lemma EditShape(lines: seq<string>, slot: Slot, port: nat, other: nat)
    requires SlotIn(slot, |lines|) && !slot.Inline?
    ensures
      var out, at := Edit(lines, slot, port).value, NewAt(lines, slot);
      && at < |out| && out[at] == PortLine(port)
      && out[at := PortLine(other)] == Edit(lines, slot, other).value
  {
    match slot
    case NoNetworks =>
      InsertShape(lines + Gap(lines), |lines + Gap(lines)|, ["networks:"] + Block(port), ["networks:"] + Block(other), 4);
      assert forall more :: Insert(lines + Gap(lines), |lines + Gap(lines)|, more) == lines + Gap(lines) + more;
    case NoLocal(at) => InsertShape(lines, at, Block(port), Block(other), 3);
    case NoGateway(at) => InsertShape(lines, at, GatewayBlock(port), GatewayBlock(other), 1);
    case NoPort(at) => InsertShape(lines, at, [PortLine(port)], [PortLine(other)], 0);
    case Port(at) =>
  }

  // The laws of the edit, on text.

  lemma {:induction false} DecimalUnbroken(n: nat)
    ensures Unbroken(Decimal(n))
  {
    if n >= 10 {
      DecimalUnbroken(n / 10);
    }
  }

  lemma BlockUnbroken(port: nat)
    ensures AllUnbroken(Block(port)) && AllUnbroken(GatewayBlock(port)) && Unbroken(PortLine(port))
  {
    DecimalUnbroken(port);
  }

  lemma EditUnbroken(lines: seq<string>, slot: Slot, port: nat)
    requires AllUnbroken(lines) && SlotIn(slot, |lines|) && !slot.Inline?
    ensures AllUnbroken(Edit(lines, slot, port).value)
  {
    BlockUnbroken(port);
    assert Unbroken("networks:") && AllUnbroken(Gap(lines));
  }

  /** The lines of an edited text are the edited lines. */
  lemma RenderLines(source: string, port: nat)
    requires Render(source, port).Some?
    ensures
      var lines := SplitLines(source);
      !Locate(Marks(lines)).Inline? && SplitLines(Render(source, port).value) == Edit(lines, Locate(Marks(lines)), port).value
  {
    var lines := SplitLines(source);
    SplitLinesUnbroken(source);
    EditUnbroken(lines, Locate(Marks(lines)), port);
    SplitOfText(Edit(lines, Locate(Marks(lines)), port).value);
  }

  /** The port line of the local network, as far as the text has one. */
  function PortOf(source: string): Option<string> {
    var lines := SplitLines(source);
    var slot := Locate(Marks(lines));
    if slot.Port? then Some(lines[slot.at]) else None
  }

  /** Put, then get: the port just set is the one found. */
  lemma RenderSetsPort(source: string, port: nat)
    ensures Render(source, port).Some? ==> PortOf(Render(source, port).value) == Some(PortLine(port))
  {
    if Render(source, port).Some? {
      var lines := SplitLines(source);
      RenderLines(source, port);
      EditIsFound(lines, port);
      EditShape(lines, Locate(Marks(lines)), port, port);
    }
  }

  /** Put twice: the last port wins, and nothing else is left of the first. */
  lemma RenderTwice(source: string, port: nat, other: nat)
    ensures Render(source, port).Some? ==> Render(Render(source, port).value, other) == Render(source, other)
  {
    if Render(source, port).Some? {
      var lines := SplitLines(source);
      RenderLines(source, port);
      EditIsFound(lines, port);
      EditShape(lines, Locate(Marks(lines)), port, other);
    }
  }

  /** Get, then put: setting the port that is there keeps every line. */
  lemma RenderSamePort(source: string, port: nat)
    ensures PortOf(source) == Some(PortLine(port)) ==> Render(source, port) == Some(Text(SplitLines(source)))
  {
    if PortOf(source) == Some(PortLine(port)) {
      var lines := SplitLines(source);
      var at := Locate(Marks(lines)).at;
      assert lines[at := lines[at]] == lines;
    }
  }

  /** All lines stay, in order, around the lines written; only an old port line is replaced. */
  predicate KeepsLines(lines: seq<string>, slot: Slot, out: seq<string>)
    requires SlotIn(slot, |lines|)
  {
    if slot.Port? then |out| == |lines| && forall j | 0 <= j < |lines| && j != slot.at :: out[j] == lines[j]
    else
      var at := if slot.NoNetworks? || slot.Inline? then |lines| else slot.at;
      |lines| <= |out| && out[..at] == lines[..at] && out[|out| - (|lines| - at)..] == lines[at..]
  }

  lemma InsertKeeps(lines: seq<string>, at: nat, more: seq<string>)
    requires at <= |lines|
    ensures
      var out := Insert(lines, at, more);
      out[..at] == lines[..at] && out[|out| - (|lines| - at)..] == lines[at..]
  { }

  lemma EditKeeps(lines: seq<string>, slot: Slot, port: nat)
    requires SlotIn(slot, |lines|) && !slot.Inline?
    ensures KeepsLines(lines, slot, Edit(lines, slot, port).value)
  {
    match slot
    case NoNetworks =>
    case NoLocal(at) => InsertKeeps(lines, at, Block(port));
    case NoGateway(at) => InsertKeeps(lines, at, GatewayBlock(port));
    case NoPort(at) => InsertKeeps(lines, at, [PortLine(port)]);
    case Port(at) =>
  }

  lemma OtherLinesKept(source: string, port: nat)
    ensures
      var lines := SplitLines(source);
      Render(source, port).Some? ==>
        KeepsLines(lines, Locate(Marks(lines)), SplitLines(Render(source, port).value))
  {
    if Render(source, port).Some? {
      RenderLines(source, port);
      EditKeeps(SplitLines(source), Locate(Marks(SplitLines(source))), port);
    }
  }

  function Digits(s: string): nat {
    if s == [] then 0 else Digits(s[..|s| - 1]) * 10 + (if '0' <= s[|s| - 1] <= '9' then s[|s| - 1] as int - '0' as int else 0)
  }

  lemma {:induction false} DecimalReads(n: nat)
    ensures Digits(Decimal(n)) == n
  {
    if n >= 10 {
      DecimalReads(n / 10);
      assert Decimal(n)[..|Decimal(n)| - 1] == Decimal(n / 10);
    } else {
      assert Digits([]) == 0;
    }
  }

  /** Different ports are written differently. */
  lemma PortLineInjective(port: nat, other: nat)
    requires PortLine(port) == PortLine(other)
    ensures port == other
  {
    assert PortLine(port)[12..] == Decimal(port) && PortLine(other)[12..] == Decimal(other);
    DecimalReads(port);
    DecimalReads(other);
  }

  // The scanning loops, over what each line is.

  method FindNetworks(ms: seq<Mark>) returns (n: nat)
    ensures n == First(ms, 0, |ms|, Networks)
  {
    n := 0;
    while n < |ms|
      invariant 0 <= n <= |ms|
      invariant First(ms, 0, |ms|, Networks) == First(ms, n, |ms|, Networks)
    {
      if ms[n].networks {
        return;
      }
      n := n + 1;
    }
  }

  method FindLocal(ms: seq<Mark>, n: nat) returns (e: nat, l: Option<nat>)
    requires n < |ms|
    ensures e == First(ms, n + 1, |ms|, Top) && l == Last(ms, n + 1, e, Local)
  {
    e, l := n + 1, None;
    while e < |ms|
      invariant n + 1 <= e <= |ms|
      invariant First(ms, n + 1, |ms|, Top) == First(ms, e, |ms|, Top)
      invariant l == Last(ms, n + 1, e, Local)
    {
      if ms[e].top {
        return;
      }
      if ms[e].local {
        l := Some(e);
      }
      e := e + 1;
    }
  }

  method FindGateway(ms: seq<Mark>, l: nat, e: nat) returns (le: nat, g: Option<nat>, inline: bool)
    requires l < e <= |ms|
    ensures
      var end := First(ms, l + 1, e, Item);
      && inline == (First(ms, l + 1, end, InlineGateway) < end)
      && (!inline ==> le == end && g == Last(ms, l + 1, end, Gateway))
  {
    le, g, inline := l + 1, None, false;
    while le < e
      invariant l + 1 <= le <= e
      invariant First(ms, l + 1, e, Item) == First(ms, le, e, Item)
      invariant g == Last(ms, l + 1, le, Gateway)
      invariant Without(ms, l + 1, le, InlineGateway)
    {
      if ms[le].item {
        FirstIs(ms, l + 1, le, InlineGateway, le);
        return;
      }
      if ms[le].inlineGateway {
        FirstHas(ms, l + 1, First(ms, l + 1, e, Item), InlineGateway);
        inline := true;
        return;
      }
      if ms[le].gateway {
        g := Some(le);
      }
      le := le + 1;
    }
    FirstIs(ms, l + 1, le, InlineGateway, le);
  }

  method FindPort(ms: seq<Mark>, g: nat, le: nat) returns (p: Option<nat>)
    requires g < le <= |ms|
    ensures p == Last(ms, g + 1, First(ms, g + 1, le, Dedent), PortKind)
  {
    p := None;
    var ge := g + 1;
    while ge < le
      invariant g + 1 <= ge <= le
      invariant First(ms, g + 1, le, Dedent) == First(ms, ge, le, Dedent)
      invariant p == Last(ms, g + 1, ge, PortKind)
    {
      if ms[ge].dedent {
        return;
      }
      if ms[ge].port {
        p := Some(ge);
      }
      ge := ge + 1;
    }
  }

  method LocateInLocal(ms: seq<Mark>, l: nat, e: nat) returns (slot: Slot)
    requires l < e <= |ms|
    ensures slot == LocateGateway(ms, l, e)
  {
    var le, g, inline := FindGateway(ms, l, e);
    if inline {
      return Inline;
    }
    if g.None? {
      return NoGateway(le);
    }
    var p := FindPort(ms, g.value, le);
    if p.None? {
      return NoPort(g.value + 1);
    }
    return Port(p.value);
  }

  method LocateSlot(ms: seq<Mark>) returns (slot: Slot)
    ensures slot == Locate(ms)
  {
    var n := FindNetworks(ms);
    if n == |ms| {
      return NoNetworks;
    }
    var e, l := FindLocal(ms, n);
    if l.None? {
      return NoLocal(e);
    }
    slot := LocateInLocal(ms, l.value, e);
  }

  /** The edit in place: lines are appended, inserted or overwritten. */
  method RenderConfig(source: string, port: nat) returns (r: Option<string>)
    ensures r == Render(source, port)
  {
    var lines := SplitLines(source);
    var slot := LocateSlot(Marks(lines));
    if slot.Inline? {
      return None;
    }
    match slot {
    case NoNetworks =>
      lines := lines + Gap(lines) + (["networks:"] + Block(port));
    case NoLocal(at) =>
      lines := lines[..at] + Block(port) + lines[at..];
    case NoGateway(at) =>
      lines := lines[..at] + GatewayBlock(port) + lines[at..];
    case NoPort(at) =>
      lines := lines[..at] + [PortLine(port)] + lines[at..];
    case Port(at) =>
      lines := lines[at := PortLine(port)];
    }
    return Some(Text(lines));
  }
}

/** Signed cursor tokens: unpadded base64url (sections 3.2 and 5 of RFC 4648) around a payload and its MAC. */
module CursorToken {
  import opened Prelude
  import opened ByteStrings

  type sextet = n: nat | n < 64

  // The standard alphabet of section 4 of RFC 4648, as `btoa` and `atob` use it.

  function Symbol(d: sextet): char {
    if d < 26 then 'A' + d as char
    else if d < 52 then 'a' + (d - 26) as char
    else if d < 62 then '0' + (d - 52) as char
    else if d == 62 then '+' else '/'
  }

  function SymbolValue(c: char): Option<sextet> {
    if 'A' <= c <= 'Z' then Some(c as int - 'A' as int)
    else if 'a' <= c <= 'z' then Some(c as int - 'a' as int + 26)
    else if '0' <= c <= '9' then Some(c as int - '0' as int + 52)
    else if c == '+' then Some(62) else if c == '/' then Some(63) else None
  }

  /** Three bytes as four sextets. */
  function Group(x: byte, y: byte, z: byte): (d: seq<sextet>)
    ensures |d| == 4
  {
    [x / 4, x % 4 * 16 + y / 16, y % 16 * 4 + z / 64, z % 64]
  }

  /** The bit string cut into sextets, three bytes at a time; a short last group is filled with zero bits. */
  function Sextets(b: seq<byte>): seq<sextet> {
    if |b| == 0 then []
    else if |b| == 1 then Group(b[0], 0, 0)[..2]
    else if |b| == 2 then Group(b[0], b[1], 0)[..3]
    else Group(b[0], b[1], b[2]) + Sextets(b[3..])
  }

  function Symbols(d: seq<sextet>): string {
    seq(|d|, i requires 0 <= i < |d| => Symbol(d[i]))
  }

  function Pads(b: seq<byte>): string {
    if |b| % 3 == 1 then "==" else if |b| % 3 == 2 then "=" else ""
  }

  function Btoa(b: seq<byte>): string {
    Symbols(Sextets(b)) + Pads(b)
  }

  predicate AsciiSpace(c: char) {
    c == ' ' || c == '\t' || c == '\n' || c == '\r' || c == 12 as char
  }

  function WithoutSpaces(s: string): string {
    if s == "" then "" else if AsciiSpace(s[0]) then WithoutSpaces(s[1..]) else [s[0]] + WithoutSpaces(s[1..])
  }

  function FirstByte(d0: int, d1: int): byte
    requires 0 <= d0 < 64 && 0 <= d1 < 64
  {
    d0 * 4 + d1 / 16
  }

  function SecondByte(d1: int, d2: int): byte
    requires 0 <= d1 < 64 && 0 <= d2 < 64
  {
    d1 % 16 * 16 + d2 / 4
  }

  function ThirdByte(d2: int, d3: int): byte
    requires 0 <= d2 < 64 && 0 <= d3 < 64
  {
    d2 % 4 * 64 + d3
  }

  /** Sextets to bytes; a trailing group of two or three drops its spare bits, a single one is refused. */
  function Bytes(d: seq<sextet>): Option<seq<byte>>
    decreases |d|
  {
    if |d| == 0 then Some([])
    else if |d| == 1 then None
    else if |d| == 2 then Some([FirstByte(d[0], d[1])])
    else if |d| == 3 then Some([FirstByte(d[0], d[1]), SecondByte(d[1], d[2])])
    else
      var rest := Bytes(d[4..]);
      if rest.None? then None
      else Some([FirstByte(d[0], d[1]), SecondByte(d[1], d[2]), ThirdByte(d[2], d[3])] + rest.value)
  }

  predicate Standard(s: string) {
    forall i | 0 <= i < |s| :: SymbolValue(s[i]).Some?
  }

  function DecodeSymbols(s: string): Option<seq<byte>> {
    if !Standard(s) then None
    else Bytes(seq(|s|, i requires 0 <= i < |s| => SymbolValue(s[i]).value))
  }

  /** Forgiving decode: spaces are ignored and, in a whole number of groups, up to two trailing pads. */
  function Atob(s: string): Option<seq<byte>> {
    var t := WithoutSpaces(s);
    var n := |t|;
    DecodeSymbols(
      if n > 0 && n % 4 == 0 && t[n - 1] == '=' then (if t[n - 2] == '=' then t[..n - 2] else t[..n - 1]) else t)
  }

  function ReplaceAll(s: string, from: char, to: char): string {
    seq(|s|, i requires 0 <= i < |s| => if s[i] == from then to else s[i])
  }

  function StripPads(s: string): string {
    if s != "" && s[|s| - 1] == '=' then StripPads(s[..|s| - 1]) else s
  }

  function Encode(b: seq<byte>): string {
    StripPads(ReplaceAll(ReplaceAll(Btoa(b), '+', '-'), '/', '_'))
  }

  function Decode(s: string): Option<seq<byte>> {
    Atob(ReplaceAll(ReplaceAll(s, '-', '+'), '_', '/'))
  }

  predicate UrlSafe(c: char) {
    'A' <= c <= 'Z' || 'a' <= c <= 'z' || '0' <= c <= '9' || c == '-' || c == '_'
  }

  /** Three bytes and the four sextets they are cut into are the same 24 bits, and each byte is recovered from them. */
  lemma GroupRecovers(x: byte, y: byte, z: byte)
    ensures var d := Group(x, y, z);
      && FirstByte(d[0], d[1]) == x && SecondByte(d[1], d[2]) == y && ThirdByte(d[2], d[3]) == z
      && ((d[0] as int * 64 + d[1]) * 64 + d[2]) * 64 + d[3] == (x as int * 256 + y) * 256 + z
  {
    var d1, d2 := x % 4 * 16 + y / 16, y % 16 * 4 + z / 64;
    assert d1 / 16 == x % 4 && d1 % 16 == y / 16;
    assert d2 / 4 == y % 16 && d2 % 4 == z / 64;
  }

  lemma BytesOfGroup(d: seq<sextet>, rest: seq<sextet>)
    requires |d| == 4 && Bytes(rest).Some?
    ensures Bytes(d + rest) == Some([FirstByte(d[0], d[1]), SecondByte(d[1], d[2]), ThirdByte(d[2], d[3])] + Bytes(rest).value)
  {
    assert (d + rest)[4..] == rest;
  }

  lemma {:induction false} BytesOfSextets(b: seq<byte>)
    ensures Bytes(Sextets(b)) == Some(b)
  {
    if |b| >= 3 {
      BytesOfSextets(b[3..]);
      GroupRecovers(b[0], b[1], b[2]);
      BytesOfGroup(Group(b[0], b[1], b[2]), Sextets(b[3..]));
      assert b == [b[0], b[1], b[2]] + b[3..];
    } else if |b| == 2 {
      GroupRecovers(b[0], b[1], 0);
      assert b == [b[0], b[1]];
    } else if |b| == 1 {
      GroupRecovers(b[0], 0, 0);
      assert b == [b[0]];
    }
  }

  lemma SymbolRoundTrip(d: sextet)
    ensures SymbolValue(Symbol(d)) == Some(d)
    ensures Symbol(d) != '=' && !AsciiSpace(Symbol(d)) && Symbol(d) != '-' && Symbol(d) != '_'
    ensures UrlSafe(if Symbol(d) == '+' then '-' else if Symbol(d) == '/' then '_' else Symbol(d))
  {
  }

  lemma DecodeSymbolsOf(d: seq<sextet>)
    ensures DecodeSymbols(Symbols(d)) == Bytes(d)
  {
    var s := Symbols(d);
    forall i | 0 <= i < |s| ensures SymbolValue(s[i]) == Some(d[i]) {
      SymbolRoundTrip(d[i]);
    }
    assert seq(|s|, i requires 0 <= i < |s| => SymbolValue(s[i]).value) == d;
  }

  lemma {:induction false} StripPadsOfPadded(s: string, b: seq<byte>)
    requires forall i | 0 <= i < |s| :: s[i] != '='
    ensures StripPads(s + Pads(b)) == s
  {
    var t := s + Pads(b);
    if |b| % 3 == 1 {
      assert t[..|t| - 1] == s + "=";
      assert (s + "=")[..|s + "="| - 1] == s;
      assert StripPads(s + "=") == StripPads(s) == s;
    } else if |b| % 3 == 2 {
      assert t[..|t| - 1] == s;
    } else {
      assert t == s;
    }
  }

  lemma {:induction false} NothingToSkip(s: string)
    requires forall i | 0 <= i < |s| :: !AsciiSpace(s[i])
    ensures WithoutSpaces(s) == s
  {
    if s != "" {
      NothingToSkip(s[1..]);
    }
  }

  function ToUrl(s: string): string {
    ReplaceAll(ReplaceAll(s, '+', '-'), '/', '_')
  }

  /** Encoding yields only URL-safe characters, and undoing the substitutions gives back the unpadded symbols. */
  lemma EncodeIsUrlText(b: seq<byte>)
    ensures forall i | 0 <= i < |Encode(b)| :: UrlSafe(Encode(b)[i])
    ensures ReplaceAll(ReplaceAll(Encode(b), '-', '+'), '_', '/') == Symbols(Sextets(b))
  {
    var d := Sextets(b);
    var s := Symbols(d);
    var url := ToUrl(s);
    forall i | 0 <= i < |s| ensures s[i] != '-' && s[i] != '_' && UrlSafe(url[i]) && url[i] != '=' {
      SymbolRoundTrip(d[i]);
    }
    assert ToUrl(Btoa(b)) == url + Pads(b);
    StripPadsOfPadded(url, b);
    assert ReplaceAll(ReplaceAll(url, '-', '+'), '_', '/') == s;
  }

  /** Every byte string survives encoding and decoding. */
  lemma Base64UrlRoundTrip(b: seq<byte>)
    ensures Decode(Encode(b)) == Some(b)
  {
    EncodeIsUrlText(b);
    var d := Sextets(b);
    var s := Symbols(d);
    forall i | 0 <= i < |s| ensures !AsciiSpace(s[i]) && s[i] != '=' {
      SymbolRoundTrip(d[i]);
    }
    NothingToSkip(s);
    DecodeSymbolsOf(d);
    BytesOfSextets(b);
  }

  // Tokens.

  function Sign(payload: seq<byte>, mac: seq<byte> -> seq<byte>): string {
    Encode(payload) + (['.'] + Encode(mac(payload)))
  }

  /** Opening checks the shape, both encodings and the MAC before the payload is looked at. */
  function Open(token: string, mac: seq<byte> -> seq<byte>): Option<seq<byte>> {
    var parts := Split(token, '.');
    if |parts| != 2 then None
    else
      var payload, signature := Decode(parts[0]), Decode(parts[1]);
      if payload.None? || signature.None? || signature.value != mac(payload.value) then None
      else payload
  }

  /** A signed token splits into exactly its two parts and opens to the payload that was signed. */
  lemma SignedTokenOpens(payload: seq<byte>, mac: seq<byte> -> seq<byte>)
    ensures Split(Sign(payload, mac), '.') == [Encode(payload), Encode(mac(payload))]
    ensures Open(Sign(payload, mac), mac) == Some(payload)
  {
    EncodeIsUrlText(payload);
    EncodeIsUrlText(mac(payload));
    SplitOfJoined([Encode(payload), Encode(mac(payload))], '.');
    Base64UrlRoundTrip(payload);
    Base64UrlRoundTrip(mac(payload));
  }
}

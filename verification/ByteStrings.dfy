/** Fixed-width big-endian numbers and the order of byte strings. */
module ByteStrings {
  type byte = n: nat | n < 256
  type bytes = seq<byte>

  function Power256(width: nat): nat {
    if width == 0 then 1 else 256 * Power256(width - 1)
  }

  function BigEndian(n: nat, width: nat): (b: bytes)
    ensures |b| == width
  {
    if width == 0 then [] else BigEndian(n / 256, width - 1) + [n % 256]
  }

  function Value(b: bytes): nat {
    if b == [] then 0 else Value(b[..|b| - 1]) * 256 + b[|b| - 1]
  }

  /** A number that fits its width is recovered from its digits. */
  lemma {:induction false} BigEndianValue(n: nat, width: nat)
    requires n < Power256(width)
    ensures Value(BigEndian(n, width)) == n
  {
    if width != 0 {
      BigEndianValue(n / 256, width - 1);
      assert BigEndian(n, width)[..width - 1] == BigEndian(n / 256, width - 1);
    }
  }

  lemma BigEndianInjective(m: nat, n: nat, width: nat)
    requires m < Power256(width) && n < Power256(width) && BigEndian(m, width) == BigEndian(n, width)
    ensures m == n
  {
    BigEndianValue(m, width);
    BigEndianValue(n, width);
  }

  /** Lexicographic order over ranked bytes, as sorting strings or paths uses it. */
  predicate Less(rank: byte -> int, a: bytes, b: bytes) {
    b != [] && (a == [] || rank(a[0]) < rank(b[0]) || (rank(a[0]) == rank(b[0]) && Less(rank, a[1..], b[1..])))
  }

  lemma {:induction false} LessIsAsymmetric(rank: byte -> int, a: bytes, b: bytes)
    ensures !(Less(rank, a, b) && Less(rank, b, a))
  {
    if a != [] && b != [] {
      LessIsAsymmetric(rank, a[1..], b[1..]);
    }
  }

  /** If two concatenations agree and their first parts are equally long, the parts agree. */
  lemma SplitEqual<T>(a: seq<T>, b: seq<T>, c: seq<T>, d: seq<T>)
    requires |a| == |c| && a + b == c + d
    ensures a == c && b == d
  {
    assert a == (a + b)[..|a|] && c == (c + d)[..|c|];
    assert b == (a + b)[|a|..] && d == (c + d)[|c|..];
  }
}

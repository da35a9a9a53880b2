/** Source fingerprints: a sorted map of logical paths to contents, framed by lengths and fed to a digest. */
module Fingerprint {
  import opened Prelude
  import opened ByteStrings

  datatype Input = Input(path: bytes, content: bytes)

  datatype InputError = LengthOverflow | DuplicateLogicalInput

  /** Lengths are written on eight bytes; a longer one is refused. */
  const WIDTH: nat := 8

  predicate Fits(i: Input) {
    |i.path| < Power256(WIDTH) && |i.content| < Power256(WIDTH)
  }

  predicate AllFit(inputs: seq<Input>) {
    forall k | 0 <= k < |inputs| :: Fits(inputs[k])
  }

  function Field(b: bytes): bytes {
    BigEndian(|b|, WIDTH) + b
  }

  function Frame(i: Input): bytes {
    Field(i.path) + Field(i.content)
  }

  /** Everything the digest is fed, in order. */
  function Stream(inputs: seq<Input>): bytes {
    if inputs == [] then [] else Frame(inputs[0]) + Stream(inputs[1..])
  }

  lemma Associate(a: bytes, b: bytes, c: bytes)
    ensures a + b + c == a + (b + c)
  { }

  /** Four updates of the digest; a length that does not fit is refused. */
  method FeedInput(stream: bytes, i: Input) returns (fed: Option<bytes>)
    ensures fed == if Fits(i) then Some(stream + Frame(i)) else None
  {
    if |i.path| >= Power256(WIDTH) || |i.content| >= Power256(WIDTH) {
      return None;
    }
    var path, content := BigEndian(|i.path|, WIDTH), BigEndian(|i.content|, WIDTH);
    var r := stream + path;
    r := r + i.path;
    r := r + content;
    r := r + i.content;
    Associate(stream, path, i.path);
    Associate(stream + (path + i.path), content, i.content);
    Associate(stream, path + i.path, content + i.content);
    return Some(r);
  }

  /** The digest loop over the inputs. */
  method FeedDigest(inputs: seq<Input>) returns (fed: Option<bytes>)
    ensures fed.Some? <==> AllFit(inputs)
    ensures fed.Some? ==> fed.value == Stream(inputs)
  {
    var stream: bytes := [];
    var k := 0;
    while k < |inputs|
      invariant 0 <= k <= |inputs|
      invariant forall j | 0 <= j < k :: Fits(inputs[j])
      invariant Stream(inputs) == stream + Stream(inputs[k..])
    {
      var next := FeedInput(stream, inputs[k]);
      if next.None? {
        return None;
      }
      NextFrame(inputs, k, stream);
      stream := next.value;
      k := k + 1;
    }
    return Some(stream);
  }

  lemma NextFrame(inputs: seq<Input>, k: nat, stream: bytes)
    requires k < |inputs|
    ensures stream + Stream(inputs[k..]) == stream + Frame(inputs[k]) + Stream(inputs[k + 1..])
  {
    assert inputs[k..][0] == inputs[k] && inputs[k..][1..] == inputs[k + 1..];
    Associate(stream, Frame(inputs[k]), Stream(inputs[k + 1..]));
  }

  // Reading a stream back.

  function ReadField(s: bytes): Option<(bytes, bytes)> {
    if |s| < WIDTH then None
    else
      var n := Value(s[..WIDTH]);
      if |s| < WIDTH + n then None else Some((s[WIDTH..WIDTH + n], s[WIDTH + n..]))
  }

  function Unframe(s: bytes): Option<seq<Input>>
    decreases |s|
  {
    if s == [] then Some([])
    else
      var path := ReadField(s);
      if path.None? then None
      else
        var content := ReadField(path.value.1);
        if content.None? then None
        else
          var rest := Unframe(content.value.1);
          if rest.None? then None else Some([Input(path.value.0, content.value.0)] + rest.value)
  }

  lemma ReadFieldRoundTrip(b: bytes, rest: bytes)
    requires |b| < Power256(WIDTH)
    ensures ReadField(Field(b) + rest) == Some((b, rest))
  {
    var s := Field(b) + rest;
    assert s[..WIDTH] == BigEndian(|b|, WIDTH);
    BigEndianValue(|b|, WIDTH);
    assert s[WIDTH..WIDTH + |b|] == b && s[WIDTH + |b|..] == rest;
  }

  /** A decoder recovers the exact list of paths and contents from the stream. */
  lemma {:induction false} UnframeStream(inputs: seq<Input>)
    requires AllFit(inputs)
    ensures Unframe(Stream(inputs)) == Some(inputs)
  {
    if inputs != [] {
      var i, rest := inputs[0], inputs[1..];
      UnframeStream(rest);
      Associate(Field(i.path), Field(i.content), Stream(rest));
      ReadFieldRoundTrip(i.path, Field(i.content) + Stream(rest));
      ReadFieldRoundTrip(i.content, Stream(rest));
      assert [i] + rest == inputs;
    }
  }

  // From file sets to input lists.

  /** Bytes of a UTF-8 path string, ordered as strings are. */
  function StringRank(b: byte): int { b }

  const SLASH: byte := 47

  /** The separator comes before every other byte. */
  function PathRank(b: byte): int {
    if b == SLASH then -1 else b
  }

  /** Paths are ordered as lists of components. */
  predicate ComponentsLess(a: seq<bytes>, b: seq<bytes>) {
    && b != []
    && (a == [] || Less(StringRank, a[0], b[0]) || (a[0] == b[0] && ComponentsLess(a[1..], b[1..])))
  }

  /** Ranking the separator first orders paths component by component. */
  lemma {:induction false} PathRankOrdersComponents(a: bytes, b: bytes)
    ensures Less(PathRank, a, b) <==> ComponentsLess(Split(a, SLASH), Split(b, SLASH))
    decreases |a|
  {
    if a != [] && b != [] {
      PathRankOrdersComponents(a[1..], b[1..]);
      var x, y := Split(a[1..], SLASH), Split(b[1..], SLASH);
      if a[0] == SLASH && b[0] == SLASH {
        assert ([[]] + x)[1..] == x && ([[]] + y)[1..] == y;
      } else if a[0] != SLASH && b[0] != SLASH {
        SameHead(a[0], x[0], b[0], y[0]);
      }
    }
  }

  lemma SameHead(c: byte, a: bytes, d: byte, b: bytes)
    ensures Less(StringRank, [c] + a, [d] + b) <==> c < d || (c == d && Less(StringRank, a, b))
    ensures [c] + a == [d] + b <==> c == d && a == b
  {
    assert ([c] + a)[1..] == a && ([d] + b)[1..] == b;
  }

  /** The inputs of a map in sorted path order; both fingerprints sort, by string or by path. */
  predicate Enumerates(rank: byte -> int, inputs: seq<Input>, m: map<bytes, bytes>) {
    && (forall j, k | 0 <= j < k < |inputs| :: Less(rank, inputs[j].path, inputs[k].path))
    && (forall k | 0 <= k < |inputs| :: inputs[k].path in m && m[inputs[k].path] == inputs[k].content)
    && (forall p | p in m :: exists k :: 0 <= k < |inputs| && inputs[k].path == p)
  }

  /** Sorting makes the list a function of the map: there is only one enumeration. */
  lemma {:induction false} EnumerationUnique(rank: byte -> int, a: seq<Input>, b: seq<Input>, m: map<bytes, bytes>)
    requires Enumerates(rank, a, m) && Enumerates(rank, b, m)
    ensures a == b
    decreases |a|
  {
    SameEmptiness(rank, a, b, m);
    if a != [] {
      FirstIsLeast(rank, a, b, m);
      EnumerationTail(rank, a, m);
      EnumerationTail(rank, b, m);
      EnumerationUnique(rank, a[1..], b[1..], m - {a[0].path});
      SameParts(a, b);
    }
  }

  lemma SameParts(a: seq<Input>, b: seq<Input>)
    requires a != [] && b != [] && a[0] == b[0] && a[1..] == b[1..]
    ensures a == b
  {
    assert a == [a[0]] + a[1..] && b == [b[0]] + b[1..];
  }

  lemma SameEmptiness(rank: byte -> int, a: seq<Input>, b: seq<Input>, m: map<bytes, bytes>)
    requires Enumerates(rank, a, m) && Enumerates(rank, b, m)
    ensures a == [] <==> b == []
  {
    if a != [] {
      assert a[0].path in m;
    }
    if b != [] {
      assert b[0].path in m;
    }
  }

  lemma FirstIsLeast(rank: byte -> int, a: seq<Input>, b: seq<Input>, m: map<bytes, bytes>)
    requires Enumerates(rank, a, m) && Enumerates(rank, b, m) && a != [] && b != []
    ensures a[0] == b[0]
  {
    var j :| 0 <= j < |a| && a[j].path == b[0].path;
    var k :| 0 <= k < |b| && b[k].path == a[0].path;
    LessIsAsymmetric(rank, a[0].path, b[0].path);
  }

  lemma EnumerationTail(rank: byte -> int, a: seq<Input>, m: map<bytes, bytes>)
    requires Enumerates(rank, a, m) && a != []
    ensures Enumerates(rank, a[1..], m - {a[0].path})
  {
    forall k | 0 < k < |a| ensures a[k].path != a[0].path {
      LessIsAsymmetric(rank, a[0].path, a[k].path);
    }
    forall p | p in m && p != a[0].path ensures exists k :: 0 <= k < |a[1..]| && a[1..][k].path == p {
      var k :| 0 <= k < |a| && a[k].path == p;
      assert a[1..][k - 1].path == p;
    }
  }

  /** Two file sets give the same stream exactly when they are the same map. */
  lemma StreamIdentifiesMap(rank: byte -> int, a: seq<Input>, m: map<bytes, bytes>, b: seq<Input>, n: map<bytes, bytes>)
    requires Enumerates(rank, a, m) && Enumerates(rank, b, n) && AllFit(a) && AllFit(b)
    ensures Stream(a) == Stream(b) <==> m == n
  {
    UnframeStream(a);
    UnframeStream(b);
    if m == n {
      EnumerationUnique(rank, a, b, m);
    }
    if a == b {
      SameEnumerationSameMap(rank, a, m, n);
    }
  }

  lemma SameEnumerationSameMap(rank: byte -> int, a: seq<Input>, m: map<bytes, bytes>, n: map<bytes, bytes>)
    requires Enumerates(rank, a, m) && Enumerates(rank, a, n)
    ensures m == n
  {
    forall p | p in m ensures p in n && m[p] == n[p] {
      var k :| 0 <= k < |a| && a[k].path == p;
    }
    forall p | p in n ensures p in m {
      var k :| 0 <= k < |a| && a[k].path == p;
    }
  }

  /** The proof fingerprint sorts its inputs as strings. */
  lemma ProofStreamIdentifiesMap(a: seq<Input>, m: map<bytes, bytes>, b: seq<Input>, n: map<bytes, bytes>)
    requires Enumerates(StringRank, a, m) && Enumerates(StringRank, b, n) && AllFit(a) && AllFit(b)
    ensures Stream(a) == Stream(b) <==> m == n
  {
    StreamIdentifiesMap(StringRank, a, m, b, n);
  }

  /** The Certora fingerprint sorts them as paths. */
  predicate EnumeratesByPath(inputs: seq<Input>, m: map<bytes, bytes>) {
    && (forall j, k | 0 <= j < k < |inputs| ::
      ComponentsLess(Split(inputs[j].path, SLASH), Split(inputs[k].path, SLASH)))
    && (forall k | 0 <= k < |inputs| :: inputs[k].path in m && m[inputs[k].path] == inputs[k].content)
    && (forall p | p in m :: exists k :: 0 <= k < |inputs| && inputs[k].path == p)
  }

  lemma ByPathIsByRank(inputs: seq<Input>, m: map<bytes, bytes>)
    requires EnumeratesByPath(inputs, m)
    ensures Enumerates(PathRank, inputs, m)
  {
    forall j, k | 0 <= j < k < |inputs| ensures Less(PathRank, inputs[j].path, inputs[k].path) {
      PathRankOrdersComponents(inputs[j].path, inputs[k].path);
    }
  }

  lemma CertoraStreamIdentifiesMap(a: seq<Input>, m: map<bytes, bytes>, b: seq<Input>, n: map<bytes, bytes>)
    requires EnumeratesByPath(a, m) && EnumeratesByPath(b, n) && AllFit(a) && AllFit(b)
    ensures Stream(a) == Stream(b) <==> m == n
  {
    ByPathIsByRank(a, m);
    ByPathIsByRank(b, n);
    StreamIdentifiesMap(PathRank, a, m, b, n);
  }

  /** Equal digests of different file sets give two different strings with that digest. */
  lemma DigestCollision<T>(
    digest: bytes -> T, rank: byte -> int, a: seq<Input>, m: map<bytes, bytes>, b: seq<Input>, n: map<bytes, bytes>)
    returns (x: bytes, y: bytes)
    requires Enumerates(rank, a, m) && Enumerates(rank, b, n) && AllFit(a) && AllFit(b) && m != n
    requires digest(Stream(a)) == digest(Stream(b))
    ensures x != y && digest(x) == digest(y)
  {
    StreamIdentifiesMap(rank, a, m, b, n);
    x, y := Stream(a), Stream(b);
  }

  /** Filling the dictionary of logical paths succeeds exactly when no two files share one. */
  method CollectInputs(paths: set<bytes>, logical: map<bytes, bytes>) returns (r: Result<map<bytes, bytes>, InputError>)
    requires paths <= logical.Keys
    ensures r.Ok? <==> forall p, q | p in paths && q in paths && logical[p] == logical[q] :: p == q
    ensures r.Ok? ==> forall p | p in paths :: logical[p] in r.value && r.value[logical[p]] == p
    ensures r.Ok? ==> forall l | l in r.value :: r.value[l] in paths && logical[r.value[l]] == l
  {
    var inputs: map<bytes, bytes> := map[];
    var rest := paths;
    while rest != {}
      invariant rest <= paths
      invariant forall p | p in paths && p !in rest :: logical[p] in inputs && inputs[logical[p]] == p
      invariant forall l | l in inputs :: inputs[l] in paths && inputs[l] !in rest && logical[inputs[l]] == l
      decreases rest
    {
      var path :| path in rest;
      var key := logical[path];
      var previous := if key in inputs then inputs[key] else path;
      inputs := if key in inputs then inputs else inputs[key := path];
      if previous != path {
        return Err(DuplicateLogicalInput);
      }
      rest := rest - {path};
    }
    return Ok(inputs);
  }
}

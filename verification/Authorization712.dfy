/** The typed-data digest the signer commits to for one mint authorization. */
module Authorization712 {
  import opened Prelude
  import opened ByteStrings
  import opened Kernel

  type word = w: bytes | |w| == 32 witness seq(32, _ => 0)
  type address = a: bytes | |a| == 20 witness seq(20, _ => 0)

  datatype Domain = Domain(name: bytes, version: bytes, chainId: u64, verifyingContract: address)

  datatype Authorization = Authorization(
    depositId: word,
    recipient: address,
    grossAmount: u128,
    maxServiceFee: u128,
    chargedServiceFee: u128,
    deadline: u64,
    epoch: u64)

  /** One declared member of a type: its own type, and its name. */
  datatype Member = Member(kind: string, name: string)

  const DOMAIN_MEMBERS := [
    Member("string", "name"), Member("string", "version"), Member("uint256", "chainId"),
    Member("address", "verifyingContract")]

  const AUTHORIZATION_MEMBERS := [
    Member("bytes32", "depositId"), Member("address", "recipient"), Member("uint256", "grossAmount"),
    Member("uint256", "maxServiceFee"), Member("uint256", "chargedServiceFee"), Member("uint256", "deadline"),
    Member("uint256", "authorizationEpoch")]

  /** The type strings that are hashed, letter by letter; the text is cut after every member. */
  const DOMAIN_TYPE: string := "EIP712Domain(" + Together(DOMAIN_TEXT)

  const DOMAIN_TEXT := ["string name,", "string version,", "uint256 chainId,", "address verifyingContract)"]

  const AUTHORIZATION_TYPE: string := "MintAuthorization(" + Together(AUTHORIZATION_TEXT)

  const AUTHORIZATION_TEXT := [
    "bytes32 depositId,", "address recipient,", "uint256 grossAmount,", "uint256 maxServiceFee,",
    "uint256 chargedServiceFee,", "uint256 deadline,", "uint256 authorizationEpoch)"]

  function Together(pieces: seq<string>): string {
    if pieces == [] then [] else pieces[0] + Together(pieces[1..])
  }

  function Declarations(members: seq<Member>): (d: seq<string>)
    ensures |d| == |members|
    ensures forall i | 0 <= i < |members| :: d[i] == Joined([members[i].kind, members[i].name], ' ')
  {
    seq(|members|, i requires 0 <= i < |members| => Joined([members[i].kind, members[i].name], ' '))
  }

  /** The encoding of a type: its name, and its members in order between brackets. */
  function TypeString(name: string, members: seq<Member>): string
    requires members != []
  {
    name + (['('] + (Joined(Declarations(members), ',') + [')']))
  }

  // Reading a type string back.

  function AfterBracket(s: string): string {
    if s == [] then [] else if s[0] == '(' then s[1..] else AfterBracket(s[1..])
  }

  /** The members a type string declares, in order; none if one of them is not a type and a name. */
  function DeclaredMembers(t: string): Option<seq<Member>> {
    var inner := AfterBracket(t);
    if inner == [] then None else ReadMembers(Split(inner[..|inner| - 1], ','))
  }

  function ReadMembers(declarations: seq<string>): Option<seq<Member>> {
    if declarations == [] then Some([])
    else
      var words := Split(declarations[0], ' ');
      var rest := ReadMembers(declarations[1..]);
      if |words| != 2 || rest.None? then None else Some([Member(words[0], words[1])] + rest.value)
  }

  /** Neither a type nor a name contains the characters that delimit them. */
  predicate Plain(s: string) {
    forall k | 0 <= k < |s| :: s[k] != ' ' && s[k] != ',' && s[k] != '('
  }

  lemma {:induction false} AfterBracketOf(name: string, rest: string)
    requires '(' !in name
    ensures AfterBracket(name + (['('] + rest)) == rest
  {
    var s := name + (['('] + rest);
    if name == [] {
      assert s[1..] == rest;
    } else {
      assert s[1..] == name[1..] + (['('] + rest);
      AfterBracketOf(name[1..], rest);
    }
  }

  predicate AllPlain(members: seq<Member>) {
    forall i | 0 <= i < |members| :: Plain(members[i].kind) && Plain(members[i].name)
  }

  lemma DeclarationHasNoComma(m: Member)
    requires Plain(m.kind) && Plain(m.name)
    ensures ',' !in Joined([m.kind, m.name], ' ')
    ensures Split(Joined([m.kind, m.name], ' '), ' ') == [m.kind, m.name]
  {
    var parts := [m.kind, m.name];
    assert parts[1..] == [m.name];
    assert Joined(parts, ' ') == m.kind + ([' '] + m.name);
    SplitOfJoined(parts, ' ');
  }

  lemma {:induction false} ReadMembersOf(members: seq<Member>)
    requires AllPlain(members)
    ensures ReadMembers(Declarations(members)) == Some(members)
  {
    if members != [] {
      ReadMembersOf(members[1..]);
      assert Declarations(members)[1..] == Declarations(members[1..]);
      DeclarationHasNoComma(members[0]);
      assert members == [members[0]] + members[1..];
    }
  }

  /** A type string declares exactly the members it was made of. */
  lemma TypeStringReads(name: string, members: seq<Member>)
    requires members != [] && Plain(name) && AllPlain(members)
    ensures DeclaredMembers(TypeString(name, members)) == Some(members)
  {
    var list := Joined(Declarations(members), ',');
    AfterBracketOf(name, list + [')']);
    assert (list + [')'])[..|list + [')']| - 1] == list;
    ReadMembersOf(members);
    forall i | 0 <= i < |members| ensures ',' !in Declarations(members)[i] {
      DeclarationHasNoComma(members[i]);
    }
    SplitOfJoined(Declarations(members), ',');
  }

  lemma KindIsPlain(s: string)
    requires s == "string" || s == "uint256" || s == "address" || s == "bytes32"
    ensures Plain(s)
  {
    if s == "string" {
      assert Plain("string");
    } else if s == "uint256" {
      assert Plain("uint256");
    } else if s == "address" {
      assert Plain("address");
    } else {
      assert Plain("bytes32");
    }
  }

  lemma DomainWordIsPlain(s: string)
    requires s == "name" || s == "version" || s == "chainId" || s == "verifyingContract" || s == "EIP712Domain"
    ensures Plain(s)
  {
    if s == "name" {
      assert Plain("name");
    } else if s == "version" {
      assert Plain("version");
    } else if s == "chainId" {
      assert Plain("chainId");
    } else if s == "verifyingContract" {
      assert Plain("verifyingContract");
    } else {
      assert Plain("EIP712Domain");
    }
  }

  lemma AmountNameIsPlain(s: string)
    requires s == "grossAmount" || s == "maxServiceFee" || s == "chargedServiceFee" || s == "deadline"
    ensures Plain(s)
  {
    if s == "grossAmount" {
      assert Plain("grossAmount");
    } else if s == "maxServiceFee" {
      assert Plain("maxServiceFee");
    } else if s == "chargedServiceFee" {
      assert Plain("chargedServiceFee");
    } else {
      assert Plain("deadline");
    }
  }

  lemma OtherNameIsPlain(s: string)
    requires s == "depositId" || s == "recipient" || s == "authorizationEpoch" || s == "MintAuthorization"
    ensures Plain(s)
  {
    if s == "depositId" {
      assert Plain("depositId");
    } else if s == "recipient" {
      assert Plain("recipient");
    } else if s == "authorizationEpoch" {
      assert Plain("authorizationEpoch");
    } else {
      assert Plain("MintAuthorization");
    }
  }

  lemma DomainMembersPlain()
    ensures AllPlain(DOMAIN_MEMBERS) && Plain("EIP712Domain")
  {
    forall i | 0 <= i < |DOMAIN_MEMBERS| ensures Plain(DOMAIN_MEMBERS[i].kind) && Plain(DOMAIN_MEMBERS[i].name) {
      KindIsPlain(DOMAIN_MEMBERS[i].kind);
      DomainWordIsPlain(DOMAIN_MEMBERS[i].name);
    }
    DomainWordIsPlain("EIP712Domain");
  }

  lemma AuthorizationMembersPlain()
    ensures AllPlain(AUTHORIZATION_MEMBERS) && Plain("MintAuthorization")
  {
    forall i | 0 <= i < |AUTHORIZATION_MEMBERS|
      ensures Plain(AUTHORIZATION_MEMBERS[i].kind) && Plain(AUTHORIZATION_MEMBERS[i].name)
    {
      KindIsPlain(AUTHORIZATION_MEMBERS[i].kind);
      if 2 <= i < 6 {
        AmountNameIsPlain(AUTHORIZATION_MEMBERS[i].name);
      } else {
        OtherNameIsPlain(AUTHORIZATION_MEMBERS[i].name);
      }
    }
    OtherNameIsPlain("MintAuthorization");
  }

  // The type strings are the encodings of their types.

  predicate Declares(piece: string, m: Member, next: char) {
    piece == m.kind + [' '] + m.name + [next]
  }

  lemma DeclarationIs(m: Member)
    ensures Joined([m.kind, m.name], ' ') == m.kind + [' '] + m.name
  {
    assert [m.kind, m.name][1..] == [m.name];
  }

  lemma {:induction false} TogetherIsList(pieces: seq<string>, members: seq<Member>)
    requires members != [] && |pieces| == |members|
    requires forall i | 0 <= i < |members| :: Declares(pieces[i], members[i], if i == |members| - 1 then ')' else ',')
    ensures Together(pieces) == Joined(Declarations(members), ',') + [')']
    decreases |members|
  {
    var d := Declarations(members);
    DeclarationIs(members[0]);
    if |members| == 1 {
      assert Together(pieces[1..]) == [];
      assert pieces[0] == d[0] + [')'];
    } else {
      TogetherIsList(pieces[1..], members[1..]);
      assert Declarations(members[1..]) == d[1..];
      assert pieces[0] == d[0] + [','];
    }
  }

  lemma TypeTextIs(head: string, name: string, pieces: seq<string>, members: seq<Member>)
    requires members != [] && |pieces| == |members| && head == name + ['(']
    requires forall i | 0 <= i < |members| :: Declares(pieces[i], members[i], if i == |members| - 1 then ')' else ',')
    ensures head + Together(pieces) == TypeString(name, members)
  {
    TogetherIsList(pieces, members);
  }

  lemma DomainDeclaresTexts(i: nat)
    requires i < 2
    ensures Declares(DOMAIN_TEXT[i], DOMAIN_MEMBERS[i], if i == 3 then ')' else ',')
  {
    if i == 0 {
      assert Declares("string name,", Member("string", "name"), ',');
    } else {
      assert Declares("string version,", Member("string", "version"), ',');
    }
  }

  lemma DomainDeclaresPlace(i: nat)
    requires 2 <= i < 4
    ensures Declares(DOMAIN_TEXT[i], DOMAIN_MEMBERS[i], if i == 3 then ')' else ',')
  {
    if i == 2 {
      assert Declares("uint256 chainId,", Member("uint256", "chainId"), ',');
    } else {
      assert Declares("address verifyingContract)", Member("address", "verifyingContract"), ')');
    }
  }

  lemma DomainTypeIs()
    ensures DOMAIN_TYPE == TypeString("EIP712Domain", DOMAIN_MEMBERS)
  {
    forall i | 0 <= i < 4 ensures Declares(DOMAIN_TEXT[i], DOMAIN_MEMBERS[i], if i == 3 then ')' else ',') {
      if i < 2 {
        DomainDeclaresTexts(i);
      } else {
        DomainDeclaresPlace(i);
      }
    }
    TypeTextIs("EIP712Domain(", "EIP712Domain", DOMAIN_TEXT, DOMAIN_MEMBERS);
  }

  lemma AuthorizationDeclaresDeposit(i: nat)
    requires i < 3
    ensures Declares(AUTHORIZATION_TEXT[i], AUTHORIZATION_MEMBERS[i], if i == 6 then ')' else ',')
  {
    if i == 0 {
      assert Declares("bytes32 depositId,", Member("bytes32", "depositId"), ',');
    } else if i == 1 {
      assert Declares("address recipient,", Member("address", "recipient"), ',');
    } else {
      assert Declares("uint256 grossAmount,", Member("uint256", "grossAmount"), ',');
    }
  }

  lemma AuthorizationDeclaresFees(i: nat)
    requires 3 <= i < 5
    ensures Declares(AUTHORIZATION_TEXT[i], AUTHORIZATION_MEMBERS[i], if i == 6 then ')' else ',')
  {
    if i == 3 {
      assert Declares("uint256 maxServiceFee,", Member("uint256", "maxServiceFee"), ',');
    } else {
      assert Declares("uint256 chargedServiceFee,", Member("uint256", "chargedServiceFee"), ',');
    }
  }

  lemma AuthorizationDeclaresLimits(i: nat)
    requires 5 <= i < 7
    ensures Declares(AUTHORIZATION_TEXT[i], AUTHORIZATION_MEMBERS[i], if i == 6 then ')' else ',')
  {
    if i == 5 {
      assert Declares("uint256 deadline,", Member("uint256", "deadline"), ',');
    } else {
      assert Declares("uint256 authorizationEpoch)", Member("uint256", "authorizationEpoch"), ')');
    }
  }

  lemma AuthorizationTypeIs()
    ensures AUTHORIZATION_TYPE == TypeString("MintAuthorization", AUTHORIZATION_MEMBERS)
  {
    forall i | 0 <= i < 7 ensures Declares(AUTHORIZATION_TEXT[i], AUTHORIZATION_MEMBERS[i], if i == 6 then ')' else ',') {
      if i < 3 {
        AuthorizationDeclaresDeposit(i);
      } else if i < 5 {
        AuthorizationDeclaresFees(i);
      } else {
        AuthorizationDeclaresLimits(i);
      }
    }
    TypeTextIs("MintAuthorization(", "MintAuthorization", AUTHORIZATION_TEXT, AUTHORIZATION_MEMBERS);
  }

  lemma DomainTypeReads()
    ensures DeclaredMembers(DOMAIN_TYPE) == Some(DOMAIN_MEMBERS)
  {
    DomainTypeIs();
    DomainMembersPlain();
    TypeStringReads("EIP712Domain", DOMAIN_MEMBERS);
  }

  lemma AuthorizationTypeReads()
    ensures DeclaredMembers(AUTHORIZATION_TYPE) == Some(AUTHORIZATION_MEMBERS)
  {
    AuthorizationTypeIs();
    AuthorizationMembersPlain();
    TypeStringReads("MintAuthorization", AUTHORIZATION_MEMBERS);
  }

  function Ascii(s: string): bytes {
    seq(|s|, i requires 0 <= i < |s| => s[i] as int % 256)
  }

  function Zeros(n: nat): (z: bytes)
    ensures |z| == n && forall i | 0 <= i < n :: z[i] == 0
  {
    seq(n, _ => 0)
  }

  function UintWord(n: u128): word { Zeros(16) + BigEndian(n, 16) }

  function AddressWord(a: address): word { Zeros(12) + a }

  /** A zeroed word whose tail is overwritten, as both padding helpers do. */
  method PadLeft(tail: bytes) returns (padded: array<byte>)
    requires |tail| <= 32
    ensures fresh(padded) && padded[..] == Zeros(32 - |tail|) + tail
  {
    padded := new byte[32](_ => 0);
    var start := 32 - |tail|;
    for i := 0 to |tail|
      invariant forall j | 0 <= j < start :: padded[j] == 0
      invariant forall j | 0 <= j < i :: padded[start + j] == tail[j]
    {
      padded[start + i] := tail[i];
    }
    assert padded[..] == padded[..start] + padded[start..];
  }

  method MakeUintWord(n: u128) returns (padded: array<byte>)
    ensures fresh(padded) && padded[..] == UintWord(n)
  {
    padded := PadLeft(BigEndian(n, 16));
  }

  method MakeAddressWord(a: address) returns (padded: array<byte>)
    ensures fresh(padded) && padded[..] == AddressWord(a)
  {
    padded := PadLeft(a);
  }

  function Concat(words: seq<word>): (b: bytes)
    ensures |b| == 32 * |words|
  {
    if words == [] then [] else words[0] + Concat(words[1..])
  }

  function DomainWords(keccak: bytes -> word, d: Domain): seq<word> {
    [keccak(Ascii(DOMAIN_TYPE)), keccak(d.name), keccak(d.version), UintWord(d.chainId), AddressWord(d.verifyingContract)]
  }

  function AuthorizationWords(keccak: bytes -> word, a: Authorization): seq<word> {
    [ keccak(Ascii(AUTHORIZATION_TYPE)), a.depositId, AddressWord(a.recipient), UintWord(a.grossAmount),
      UintWord(a.maxServiceFee), UintWord(a.chargedServiceFee), UintWord(a.deadline), UintWord(a.epoch)]
  }

  // The words that the type strings prescribe.

  /** The value a structure has for a declared member. */
  datatype Value = Text(text: bytes) | Number(number: u128) | Holder(holder: address) | Fixed(fixed: word)

  function DomainValue(d: Domain, name: string): Option<Value> {
    if name == "name" then Some(Text(d.name))
    else if name == "version" then Some(Text(d.version))
    else if name == "chainId" then Some(Number(d.chainId))
    else if name == "verifyingContract" then Some(Holder(d.verifyingContract))
    else None
  }

  function AuthorizationValue(a: Authorization, name: string): Option<Value> {
    if name == "depositId" then Some(Fixed(a.depositId))
    else if name == "recipient" then Some(Holder(a.recipient))
    else if name == "grossAmount" then Some(Number(a.grossAmount))
    else if name == "maxServiceFee" then Some(Number(a.maxServiceFee))
    else if name == "chargedServiceFee" then Some(Number(a.chargedServiceFee))
    else if name == "deadline" then Some(Number(a.deadline))
    else if name == "authorizationEpoch" then Some(Number(a.epoch))
    else None
  }

  /** How a value of a declared type is encoded as one word. */
  function EncodeValue(keccak: bytes -> word, kind: string, v: Value): Option<word> {
    match v
    case Text(text) => if kind == "string" then Some(keccak(text)) else None
    case Number(number) => if kind == "uint256" then Some(UintWord(number)) else None
    case Holder(holder) => if kind == "address" then Some(AddressWord(holder)) else None
    case Fixed(fixed) => if kind == "bytes32" then Some(fixed) else None
  }

  predicate EncodesMember(keccak: bytes -> word, m: Member, value: Option<Value>, w: word) {
    value.Some? && EncodeValue(keccak, m.kind, value.value) == Some(w)
  }

  /** The words hashed for the domain are its type hash and what the type string declares, member by member. */
  lemma DomainFollowsType(keccak: bytes -> word, d: Domain)
    ensures DomainWords(keccak, d)[0] == keccak(Ascii(DOMAIN_TYPE))
    ensures
      var members := DeclaredMembers(DOMAIN_TYPE);
      && members.Some? && |DomainWords(keccak, d)| == 1 + |members.value|
      && forall i | 0 <= i < |members.value| ::
        EncodesMember(keccak, members.value[i], DomainValue(d, members.value[i].name), DomainWords(keccak, d)[1 + i])
  {
    DomainTypeReads();
    DomainNames(d);
  }

  lemma DomainNames(d: Domain)
    ensures DomainValue(d, "name") == Some(Text(d.name))
    ensures DomainValue(d, "version") == Some(Text(d.version))
    ensures DomainValue(d, "chainId") == Some(Number(d.chainId))
    ensures DomainValue(d, "verifyingContract") == Some(Holder(d.verifyingContract))
  {
    assert "version"[0] != "chainId"[0];
  }

  /** And so are those hashed for the authorization. */
  lemma AuthorizationFollowsType(keccak: bytes -> word, a: Authorization)
    ensures AuthorizationWords(keccak, a)[0] == keccak(Ascii(AUTHORIZATION_TYPE))
    ensures
      var members := DeclaredMembers(AUTHORIZATION_TYPE);
      && members.Some? && |AuthorizationWords(keccak, a)| == 1 + |members.value|
      && forall i | 0 <= i < |members.value| ::
        EncodesMember(keccak, members.value[i], AuthorizationValue(a, members.value[i].name), AuthorizationWords(keccak, a)[1 + i])
  {
    AuthorizationTypeReads();
    AuthorizationNames(a);
  }

  lemma AuthorizationNames(a: Authorization)
    ensures AuthorizationValue(a, "depositId") == Some(Fixed(a.depositId))
    ensures AuthorizationValue(a, "recipient") == Some(Holder(a.recipient))
    ensures AuthorizationValue(a, "grossAmount") == Some(Number(a.grossAmount))
    ensures AuthorizationValue(a, "maxServiceFee") == Some(Number(a.maxServiceFee))
    ensures AuthorizationValue(a, "chargedServiceFee") == Some(Number(a.chargedServiceFee))
    ensures AuthorizationValue(a, "deadline") == Some(Number(a.deadline))
    ensures AuthorizationValue(a, "authorizationEpoch") == Some(Number(a.epoch))
  {
    assert "depositId"[0] != "recipient"[0];
  }

  function DomainInput(keccak: bytes -> word, d: Domain): (b: bytes)
    ensures |b| == 160
  {
    Concat(DomainWords(keccak, d))
  }

  function StructInput(keccak: bytes -> word, a: Authorization): (b: bytes)
    ensures |b| == 256
  {
    Concat(AuthorizationWords(keccak, a))
  }

  function DigestInput(keccak: bytes -> word, d: Domain, a: Authorization): (b: bytes)
    ensures |b| == 66
  {
    [0x19, 0x01] + (keccak(DomainInput(keccak, d)) + keccak(StructInput(keccak, a)))
  }

  /** The digest, built by extending one vector. */
  method Digest(keccak: bytes -> word, d: Domain, a: Authorization) returns (r: word)
    ensures r == keccak(DigestInput(keccak, d, a))
  {
    var separator := keccak(DomainInput(keccak, d));
    var structHash := keccak(StructInput(keccak, a));
    var input: bytes := [];
    input := input + [0x19, 0x01];
    input := input + separator;
    input := input + structHash;
    assert input == DigestInput(keccak, d, a);
    return keccak(input);
  }

  /** Everything hashed on the way to a digest, in a fixed order. */
  function Preimages(keccak: bytes -> word, d: Domain, a: Authorization): seq<bytes> {
    [d.name, d.version, DomainInput(keccak, d), StructInput(keccak, a), DigestInput(keccak, d, a)]
  }

  ghost predicate Collides(keccak: bytes -> word, p: seq<bytes>, q: seq<bytes>) {
    exists i :: 0 <= i < |p| && i < |q| && p[i] != q[i] && keccak(p[i]) == keccak(q[i])
  }

  lemma {:induction false} ConcatInjective(v: seq<word>, w: seq<word>)
    requires |v| == |w| && Concat(v) == Concat(w)
    ensures v == w
  {
    if v != [] {
      SplitEqual(v[0], Concat(v[1..]), w[0], Concat(w[1..]));
      ConcatInjective(v[1..], w[1..]);
      assert v == [v[0]] + v[1..] && w == [w[0]] + w[1..];
    }
  }

  lemma UintWordInjective(m: u128, n: u128)
    ensures UintWord(m) == UintWord(n) ==> m == n
  {
    if UintWord(m) == UintWord(n) {
      SplitEqual(Zeros(16), BigEndian(m, 16), Zeros(16), BigEndian(n, 16));
      assert Power256(4) == 0x1_0000_0000;
      assert Power256(8) == 0x1_0000_0000_0000_0000;
      assert Power256(12) == 0x1_0000_0000_0000_0000_0000_0000;
      assert Power256(16) == 0x1_0000_0000_0000_0000_0000_0000_0000_0000;
      BigEndianInjective(m, n, 16);
    }
  }

  lemma AddressWordInjective(a: address, b: address)
    ensures AddressWord(a) == AddressWord(b) ==> a == b
  {
    if AddressWord(a) == AddressWord(b) {
      SplitEqual(Zeros(12), a, Zeros(12), b);
    }
  }

  lemma DomainBinding(keccak: bytes -> word, d: Domain, e: Domain)
    requires DomainInput(keccak, d) == DomainInput(keccak, e)
    requires keccak(d.name) == keccak(e.name) ==> d.name == e.name
    requires keccak(d.version) == keccak(e.version) ==> d.version == e.version
    ensures d == e
  {
    var v, w := DomainWords(keccak, d), DomainWords(keccak, e);
    ConcatInjective(v, w);
    assert v[1] == w[1] && v[2] == w[2] && v[3] == w[3] && v[4] == w[4];
    UintWordInjective(d.chainId, e.chainId);
    AddressWordInjective(d.verifyingContract, e.verifyingContract);
  }

  lemma StructBinding(keccak: bytes -> word, a: Authorization, b: Authorization)
    requires StructInput(keccak, a) == StructInput(keccak, b)
    ensures a == b
  {
    var v, w := AuthorizationWords(keccak, a), AuthorizationWords(keccak, b);
    ConcatInjective(v, w);
    assert v[1] == w[1] && v[2] == w[2] && v[3] == w[3] && v[4] == w[4];
    assert v[5] == w[5] && v[6] == w[6] && v[7] == w[7];
    AddressWordInjective(a.recipient, b.recipient);
    UintWordInjective(a.grossAmount, b.grossAmount);
    UintWordInjective(a.maxServiceFee, b.maxServiceFee);
    UintWordInjective(a.chargedServiceFee, b.chargedServiceFee);
    UintWordInjective(a.deadline, b.deadline);
    UintWordInjective(a.epoch, b.epoch);
  }

  /**
   Equal digests bind the whole domain and authorization, unless two of the strings hashed at the
   same place of the computation are different and still hash alike.
   */
  lemma DigestBinding(keccak: bytes -> word, d: Domain, a: Authorization, e: Domain, b: Authorization)
    requires keccak(DigestInput(keccak, d, a)) == keccak(DigestInput(keccak, e, b))
    ensures (d == e && a == b) || Collides(keccak, Preimages(keccak, d, a), Preimages(keccak, e, b))
  {
    var p, q := Preimages(keccak, d, a), Preimages(keccak, e, b);
    if !Collides(keccak, p, q) {
      NoCollision(keccak, p, q, 0);
      NoCollision(keccak, p, q, 1);
      NoCollision(keccak, p, q, 2);
      NoCollision(keccak, p, q, 3);
      NoCollision(keccak, p, q, 4);
      OuterBinding(keccak, d, a, e, b);
      DomainBinding(keccak, d, e);
      StructBinding(keccak, a, b);
    }
  }

  lemma NoCollision(keccak: bytes -> word, p: seq<bytes>, q: seq<bytes>, i: nat)
    requires i < |p| && i < |q| && !Collides(keccak, p, q)
    ensures keccak(p[i]) == keccak(q[i]) ==> p[i] == q[i]
  { }

  lemma OuterBinding(keccak: bytes -> word, d: Domain, a: Authorization, e: Domain, b: Authorization)
    requires DigestInput(keccak, d, a) == DigestInput(keccak, e, b)
    ensures keccak(DomainInput(keccak, d)) == keccak(DomainInput(keccak, e))
    ensures keccak(StructInput(keccak, a)) == keccak(StructInput(keccak, b))
  {
    var s: bytes, t: bytes := keccak(DomainInput(keccak, d)), keccak(DomainInput(keccak, e));
    var x: bytes, y: bytes := keccak(StructInput(keccak, a)), keccak(StructInput(keccak, b));
    SplitEqual([0x19, 0x01], s + x, [0x19, 0x01], t + y);
    SplitEqual(s, x, t, y);
  }
}

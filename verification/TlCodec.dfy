/**
 The SignatureSet union codec installed by services/user-service/scripts/capture-ton-proof-fixture.ts
 (`installSimplexCaptureCodec`), over the TL primitives it calls: little-endian 32-bit integers,
 raw 256-bit integers, length-prefixed padded byte strings, and counted vectors.
 */
module TlCodec {
  import opened Outcomes

  type Byte = b: nat | b < 256

  datatype Signature = Signature(nodeIdShort: seq<Byte>, signature: seq<Byte>)

  datatype SignatureSet =
    | Ordinary(validatorSetHash: int, catchainSeqno: int, signatures: seq<Signature>)
    | Simplex(ccSeqno: int, validatorSetHash: int, signatures: seq<Signature>, sessionId: seq<Byte>, slot: int, candidate: seq<Byte>)
    | Unsupported

  /** `n | 0` in JavaScript: the low 32 bits, read as a signed number. */
  function ToInt32(n: nat): int {
    var low := n % 0x1_0000_0000;
    if low >= 0x8000_0000 then low - 0x1_0000_0000 else low
  }

  const ORDINARY_SIGNATURE_SET_ID := ToInt32(0xf644a6e6)
  const SIMPLEX_SIGNATURE_SET_ID := ToInt32(0xac249800)

  // ---------- Primitives, as functions on bytes ----------

  predicate IsInt32(v: int) {
    -0x8000_0000 <= v < 0x8000_0000
  }

  function Uint32Bytes(v: nat): (bytes: seq<Byte>)
    requires v < 0x1_0000_0000
    ensures |bytes| == 4
  {
    [v % 256, v / 256 % 256, v / 256 / 256 % 256, v / 256 / 256 / 256]
  }

  function Int32Bytes(v: int): (bytes: seq<Byte>)
    requires IsInt32(v)
    ensures |bytes| == 4
  {
    Uint32Bytes(Unsigned(v))
  }

  /** The zeros that bring `n` bytes to a multiple of four. */
  function PadSize(n: nat): nat {
    (4 - n % 4) % 4
  }

  function PadBytes(n: nat): (bytes: seq<Byte>)
    ensures |bytes| == n
  {
    seq(n, (i: nat) => 0)
  }

  predicate IsTlLength(n: nat) {
    n < 0x100_0000
  }

  /** One length byte up to 253, otherwise 254 and three. */
  function LengthBytes(n: nat): (bytes: seq<Byte>)
    requires IsTlLength(n)
    ensures |bytes| == if n <= 253 then 1 else 4
  {
    if n <= 253 then [n] else [254, n % 256, n / 256 % 256, n / 256 / 256]
  }

  function BufferBytes(b: seq<Byte>): seq<Byte>
    requires IsTlLength(|b|)
  {
    LengthBytes(|b|) + (b + PadBytes(PadSize(|LengthBytes(|b|)| + |b|)))
  }

  predicate SignatureOk(s: Signature) {
    |s.nodeIdShort| == 32 && IsTlLength(|s.signature|)
  }

  predicate SignaturesOk(s: seq<Signature>) {
    |s| < 0x1_0000_0000 && forall i | 0 <= i < |s| :: SignatureOk(s[i])
  }

  function SignatureBytes(s: Signature): seq<Byte>
    requires SignatureOk(s)
  {
    s.nodeIdShort + BufferBytes(s.signature)
  }

  function Concat(parts: seq<seq<Byte>>): seq<Byte> {
    if parts == [] then [] else Concat(parts[..|parts| - 1]) + parts[|parts| - 1]
  }

  function Encodings(s: seq<Signature>): seq<seq<Byte>>
    requires forall i | 0 <= i < |s| :: SignatureOk(s[i])
  {
    seq(|s|, i requires 0 <= i < |s| => SignatureBytes(s[i]))
  }

  function SignatureListBytes(s: seq<Signature>): seq<Byte>
    requires forall i | 0 <= i < |s| :: SignatureOk(s[i])
  {
    Concat(Encodings(s))
  }

  function VectorBytes(s: seq<Signature>): seq<Byte>
    requires SignaturesOk(s)
  {
    Uint32Bytes(|s|) + SignatureListBytes(s)
  }

  /** What the encoder accepts. */
  predicate Encodable(v: SignatureSet) {
    match v
    case Ordinary(h, c, s) => IsInt32(h) && IsInt32(c) && SignaturesOk(s)
    case Simplex(c, h, s, id, slot, candidate) =>
      IsInt32(c) && IsInt32(h) && SignaturesOk(s) && |id| == 32 && IsInt32(slot) && IsTlLength(|candidate|)
    case Unsupported => false
  }

  function SetBytes(v: SignatureSet): seq<Byte>
    requires Encodable(v)
  {
    match v
    case Ordinary(h, c, s) =>
      Int32Bytes(ORDINARY_SIGNATURE_SET_ID) + (Int32Bytes(h) + (Int32Bytes(c) + VectorBytes(s)))
    case Simplex(c, h, s, id, slot, candidate) =>
      Int32Bytes(SIMPLEX_SIGNATURE_SET_ID) + (Int32Bytes(c) + (Int32Bytes(h) + (VectorBytes(s) + (id + (Int32Bytes(slot) + BufferBytes(candidate))))))
  }

  // ---------- Reading, as functions on bytes ----------

  type Parsed<+T> = Option<(T, seq<Byte>)>

  function LittleEndian(a: nat, b: nat, c: nat, d: nat): nat {
    a + 0x100 * b + 0x1_0000 * c + 0x100_0000 * d
  }

  function TakeUint32(bytes: seq<Byte>): Parsed<nat> {
    if |bytes| < 4 then None else Some((LittleEndian(bytes[0], bytes[1], bytes[2], bytes[3]), bytes[4..]))
  }

  function TakeInt32(bytes: seq<Byte>): Parsed<int> {
    match TakeUint32(bytes)
    case None => None
    case Some((v, rest)) => Some((ToInt32(v), rest))
  }

  function TakeRaw(n: nat, bytes: seq<Byte>): Parsed<seq<Byte>> {
    if |bytes| < n then None else Some((bytes[..n], bytes[n..]))
  }

  function TakeLength(bytes: seq<Byte>): (r: Parsed<nat>)
    ensures r.Some? ==> |r.value.1| <= |bytes|
  {
    if |bytes| < 1 then None
    else if bytes[0] != 254 then Some((bytes[0], bytes[1..]))
    else if |bytes| < 4 then None
    else Some((LittleEndian(bytes[1], bytes[2], bytes[3], 0), bytes[4..]))
  }

  function TakeBuffer(bytes: seq<Byte>): Parsed<seq<Byte>> {
    match TakeLength(bytes)
    case None => None
    case Some((n, rest)) => TakePadded(n, |bytes| - |rest|, rest)
  }

  /** `n` bytes and the zeros behind them, `used` bytes having been taken for their length. */
  function TakePadded(n: nat, used: int, bytes: seq<Byte>): Parsed<seq<Byte>>
    requires used >= 0
  {
    match TakeRaw(n, bytes)
    case None => None
    case Some((b, rest)) =>
      match TakeRaw(PadSize(used + n), rest)
      case None => None
      case Some((_, rest')) => Some((b, rest'))
  }

  function TakeSignature(bytes: seq<Byte>): Parsed<Signature> {
    match TakeRaw(32, bytes)
    case None => None
    case Some((id, rest)) =>
      match TakeBuffer(rest)
      case None => None
      case Some((b, rest')) => Some((Signature(id, b), rest'))
  }

  /** `n` elements, each read by `take`, the last one outermost. */
  function TakeMany<T>(n: nat, bytes: seq<Byte>, take: seq<Byte> -> Parsed<T>): Parsed<seq<T>> {
    if n == 0 then Some(([], bytes))
    else
      match TakeMany(n - 1, bytes, take)
      case None => None
      case Some((s, rest)) =>
        match take(rest)
        case None => None
        case Some((last, rest')) => Some((s + [last], rest'))
  }

  function TakeVector(bytes: seq<Byte>): Parsed<seq<Signature>> {
    match TakeUint32(bytes)
    case None => None
    case Some((n, rest)) => TakeMany(n, rest, TakeSignature)
  }

  function TakeOrdinary(bytes: seq<Byte>): Parsed<SignatureSet> {
    match TakeInt32(bytes)
    case None => None
    case Some((h, b1)) =>
      match TakeInt32(b1)
      case None => None
      case Some((c, b2)) =>
        match TakeVector(b2)
        case None => None
        case Some((s, rest)) => Some((Ordinary(h, c, s), rest))
  }

  function TakeSimplex(bytes: seq<Byte>): Parsed<SignatureSet> {
    match TakeInt32(bytes)
    case None => None
    case Some((c, b1)) =>
      match TakeInt32(b1)
      case None => None
      case Some((h, b2)) =>
        match TakeVector(b2)
        case None => None
        case Some((s, b3)) =>
          match TakeRaw(32, b3)
          case None => None
          case Some((id, b4)) =>
            match TakeInt32(b4)
            case None => None
            case Some((slot, b5)) =>
              match TakeBuffer(b5)
              case None => None
              case Some((candidate, rest)) => Some((Simplex(c, h, s, id, slot, candidate), rest))
  }

  function TakeSet(bytes: seq<Byte>): Parsed<SignatureSet> {
    match TakeInt32(bytes)
    case None => None
    case Some((kind, rest)) =>
      if kind == ORDINARY_SIGNATURE_SET_ID then TakeOrdinary(rest)
      else if kind == SIMPLEX_SIGNATURE_SET_ID then TakeSimplex(rest)
      else None
  }

  // ---------- Round trips ----------

  /** The signed reading of 32 bits undoes the unsigned one. */
  function Unsigned(v: int): nat
    requires IsInt32(v)
    ensures ToInt32(Unsigned(v)) == v && Unsigned(v) < 0x1_0000_0000
  {
    if v < 0 then v + 0x1_0000_0000 else v
  }

  lemma Int32RoundTrip(v: int, rest: seq<Byte>)
    requires IsInt32(v)
    ensures TakeInt32(Int32Bytes(v) + rest) == Some((v, rest))
  {
    Uint32RoundTrip(Unsigned(v), rest);
  }

  lemma FourBytes(v: nat)
    requires v < 0x1_0000_0000
    ensures LittleEndian(v % 256, v / 256 % 256, v / 256 / 256 % 256, v / 256 / 256 / 256) == v
  {
  }

  lemma TakeFour(a: Byte, b: Byte, c: Byte, d: Byte, rest: seq<Byte>)
    ensures TakeUint32([a, b, c, d] + rest) == Some((LittleEndian(a, b, c, d), rest))
  {
    assert ([a, b, c, d] + rest)[4..] == rest;
  }

  lemma Uint32RoundTrip(v: nat, rest: seq<Byte>)
    requires v < 0x1_0000_0000
    ensures TakeUint32(Uint32Bytes(v) + rest) == Some((v, rest))
  {
    FourBytes(v);
    var a, b, c, d := v % 256, v / 256 % 256, v / 256 / 256 % 256, v / 256 / 256 / 256;
    TakeFour(a, b, c, d, rest);
  }

  lemma RawRoundTrip(b: seq<Byte>, rest: seq<Byte>)
    ensures TakeRaw(|b|, b + rest) == Some((b, rest))
  {
    assert (b + rest)[..|b|] == b && (b + rest)[|b|..] == rest;
  }

  lemma ThreeBytes(n: nat)
    requires IsTlLength(n)
    ensures LittleEndian(n % 256, n / 256 % 256, n / 256 / 256, 0) == n
  {
  }

  lemma LengthRoundTrip(n: nat, rest: seq<Byte>)
    requires IsTlLength(n)
    ensures TakeLength(LengthBytes(n) + rest) == Some((n, rest))
  {
    var bytes := LengthBytes(n) + rest;
    if n <= 253 {
      assert bytes[0] == n && bytes[1..] == rest;
    } else {
      ThreeBytes(n);
      var a, b, c := n % 256, n / 256 % 256, n / 256 / 256;
      assert bytes[0] == 254 && bytes[1] == a && bytes[2] == b && bytes[3] == c && bytes[4..] == rest;
    }
  }

  lemma TakeBufferParts(bytes: seq<Byte>, n: nat, behind: seq<Byte>, b: seq<Byte>, behind': seq<Byte>, pad: seq<Byte>, rest: seq<Byte>)
    requires TakeLength(bytes) == Some((n, behind)) && TakeRaw(n, behind) == Some((b, behind'))
    requires TakeRaw(PadSize(|bytes| - |behind| + n), behind') == Some((pad, rest))
    ensures TakeBuffer(bytes) == Some((b, rest))
  {
  }

  lemma Padded(n: nat)
    ensures (n + PadSize(n)) % 4 == 0
  {
  }

  lemma PaddedRoundTrip(length: seq<Byte>, b: seq<Byte>, pad: seq<Byte>, rest: seq<Byte>)
    requires TakeLength(length + (b + (pad + rest))) == Some((|b|, b + (pad + rest)))
    requires |pad| == PadSize(|length| + |b|)
    ensures TakeBuffer(length + (b + (pad + rest))) == Some((b, rest))
    ensures |length + (b + pad)| % 4 == 0
  {
    RawRoundTrip(b, pad + rest);
    RawRoundTrip(pad, rest);
    TakeBufferParts(length + (b + (pad + rest)), |b|, b + (pad + rest), b, pad + rest, pad, rest);
    Padded(|length| + |b|);
  }

  lemma Regroup(a: seq<Byte>, b: seq<Byte>, c: seq<Byte>, d: seq<Byte>)
    ensures (a + (b + c)) + d == a + (b + (c + d))
  {
  }

  lemma BufferRoundTrip(b: seq<Byte>, rest: seq<Byte>)
    requires IsTlLength(|b|)
    ensures TakeBuffer(BufferBytes(b) + rest) == Some((b, rest))
    ensures |BufferBytes(b)| % 4 == 0
  {
    var length := LengthBytes(|b|);
    var pad := PadBytes(PadSize(|length| + |b|));
    LengthRoundTrip(|b|, b + (pad + rest));
    PaddedRoundTrip(length, b, pad, rest);
    Regroup(length, b, pad, rest);
  }

  lemma SignatureRoundTrip(s: Signature, rest: seq<Byte>)
    requires SignatureOk(s)
    ensures TakeSignature(SignatureBytes(s) + rest) == Some((s, rest))
  {
    assert SignatureBytes(s) + rest == s.nodeIdShort + (BufferBytes(s.signature) + rest);
    RawRoundTrip(s.nodeIdShort, BufferBytes(s.signature) + rest);
    BufferRoundTrip(s.signature, rest);
  }

  lemma ConcatSnoc(front: seq<seq<Byte>>, last: seq<Byte>)
    ensures Concat(front + [last]) == Concat(front) + last
  {
    assert (front + [last])[..|front|] == front;
  }

  /** Part `i` is an encoding of `s[i]`. */
  ghost predicate EncodeEach<T(!new)>(parts: seq<seq<Byte>>, s: seq<T>, take: seq<Byte> -> Parsed<T>) {
    |parts| == |s| && forall i, r | 0 <= i < |s| :: take(parts[i] + r) == Some((s[i], r))
  }

  /** A vector is read back whenever its elements are. */
  lemma {:induction false} ConcatRoundTrip<T(!new)>(parts: seq<seq<Byte>>, s: seq<T>, rest: seq<Byte>, take: seq<Byte> -> Parsed<T>)
    requires EncodeEach(parts, s, take)
    ensures TakeMany(|s|, Concat(parts) + rest, take) == Some((s, rest))
  {
    if s == [] {
      assert [] + rest == rest;
    } else {
      var n := |s| - 1;
      ConcatRoundTrip(parts[..n], s[..n], parts[n] + rest, take);
      Reassociate(Concat(parts[..n]), parts[n], rest);
      assert take(parts[n] + rest) == Some((s[n], rest));
      assert s == s[..n] + [s[n]];
    }
  }

  lemma SignatureListRoundTrip(s: seq<Signature>, rest: seq<Byte>)
    requires forall i | 0 <= i < |s| :: SignatureOk(s[i])
    ensures TakeMany(|s|, SignatureListBytes(s) + rest, TakeSignature) == Some((s, rest))
  {
    var parts := Encodings(s);
    forall i, r | 0 <= i < |s|
      ensures TakeSignature(parts[i] + r) == Some((s[i], r))
    {
      SignatureRoundTrip(s[i], r);
    }
    ConcatRoundTrip(parts, s, rest, TakeSignature);
  }

  lemma VectorRoundTrip(s: seq<Signature>, rest: seq<Byte>)
    requires SignaturesOk(s)
    ensures TakeVector(VectorBytes(s) + rest) == Some((s, rest))
  {
    assert VectorBytes(s) + rest == Uint32Bytes(|s|) + (SignatureListBytes(s) + rest);
    Uint32RoundTrip(|s|, SignatureListBytes(s) + rest);
    SignatureListRoundTrip(s, rest);
  }

  lemma OrdinaryRoundTrip(v: SignatureSet, rest: seq<Byte>)
    requires Encodable(v) && v.Ordinary?
    ensures TakeSet(SetBytes(v) + rest) == Some((v, rest))
  {
    var b2 := VectorBytes(v.signatures) + rest;
    var b1 := Int32Bytes(v.catchainSeqno) + b2;
    var b0 := Int32Bytes(v.validatorSetHash) + b1;
    assert SetBytes(v) + rest == Int32Bytes(ORDINARY_SIGNATURE_SET_ID) + b0;
    Int32RoundTrip(ORDINARY_SIGNATURE_SET_ID, b0);
    Int32RoundTrip(v.validatorSetHash, b1);
    Int32RoundTrip(v.catchainSeqno, b2);
    VectorRoundTrip(v.signatures, rest);
  }

  /** What stands behind the tag and two integers of a simplex set. */
  function SimplexTail(v: SignatureSet, rest: seq<Byte>): seq<Byte>
    requires Encodable(v) && v.Simplex?
  {
    VectorBytes(v.signatures) + (v.sessionId + (Int32Bytes(v.slot) + (BufferBytes(v.candidate) + rest)))
  }

  lemma Reassociate(a: seq<Byte>, b: seq<Byte>, rest: seq<Byte>)
    ensures (a + b) + rest == a + (b + rest)
  {
  }

  lemma SimplexBytes(v: SignatureSet, rest: seq<Byte>)
    requires Encodable(v) && v.Simplex?
    ensures SetBytes(v) + rest == Int32Bytes(SIMPLEX_SIGNATURE_SET_ID)
                                  + (Int32Bytes(v.ccSeqno) + (Int32Bytes(v.validatorSetHash) + SimplexTail(v, rest)))
  {
    var buffer := BufferBytes(v.candidate);
    var slot := Int32Bytes(v.slot) + buffer;
    var session := v.sessionId + slot;
    var vector := VectorBytes(v.signatures) + session;
    var hash := Int32Bytes(v.validatorSetHash) + vector;
    var seqno := Int32Bytes(v.ccSeqno) + hash;
    Reassociate(Int32Bytes(v.slot), buffer, rest);
    Reassociate(v.sessionId, slot, rest);
    Reassociate(VectorBytes(v.signatures), session, rest);
    Reassociate(Int32Bytes(v.validatorSetHash), vector, rest);
    Reassociate(Int32Bytes(v.ccSeqno), hash, rest);
    Reassociate(Int32Bytes(SIMPLEX_SIGNATURE_SET_ID), seqno, rest);
  }

  lemma TakeSimplexParts(v: SignatureSet, b0: seq<Byte>, b1: seq<Byte>, b2: seq<Byte>, b3: seq<Byte>, b4: seq<Byte>, b5: seq<Byte>, rest: seq<Byte>)
    requires v.Simplex?
    requires TakeInt32(b0) == Some((v.ccSeqno, b1)) && TakeInt32(b1) == Some((v.validatorSetHash, b2))
    requires TakeVector(b2) == Some((v.signatures, b3)) && TakeRaw(32, b3) == Some((v.sessionId, b4))
    requires TakeInt32(b4) == Some((v.slot, b5)) && TakeBuffer(b5) == Some((v.candidate, rest))
    ensures TakeSimplex(b0) == Some((v, rest))
  {
  }

  lemma SimplexTailRoundTrip(v: SignatureSet, rest: seq<Byte>, b3: seq<Byte>, b4: seq<Byte>, b5: seq<Byte>)
    requires Encodable(v) && v.Simplex?
    requires b5 == BufferBytes(v.candidate) + rest && b4 == Int32Bytes(v.slot) + b5 && b3 == v.sessionId + b4
    ensures TakeVector(SimplexTail(v, rest)) == Some((v.signatures, b3)) && TakeRaw(32, b3) == Some((v.sessionId, b4))
    ensures TakeInt32(b4) == Some((v.slot, b5)) && TakeBuffer(b5) == Some((v.candidate, rest))
  {
    VectorRoundTrip(v.signatures, b3);
    RawRoundTrip(v.sessionId, b4);
    Int32RoundTrip(v.slot, b5);
    BufferRoundTrip(v.candidate, rest);
  }

  lemma SimplexFieldsRoundTrip(v: SignatureSet, rest: seq<Byte>, b0: seq<Byte>)
    requires Encodable(v) && v.Simplex?
    requires b0 == Int32Bytes(v.ccSeqno) + (Int32Bytes(v.validatorSetHash) + SimplexTail(v, rest))
    ensures TakeSimplex(b0) == Some((v, rest))
  {
    var b5 := BufferBytes(v.candidate) + rest;
    var b4 := Int32Bytes(v.slot) + b5;
    var b3 := v.sessionId + b4;
    var b2 := SimplexTail(v, rest);
    var b1 := Int32Bytes(v.validatorSetHash) + b2;
    Int32RoundTrip(v.ccSeqno, b1);
    Int32RoundTrip(v.validatorSetHash, b2);
    SimplexTailRoundTrip(v, rest, b3, b4, b5);
    TakeSimplexParts(v, b0, b1, b2, b3, b4, b5, rest);
  }

  lemma TakeSetSimplex(bytes: seq<Byte>, b0: seq<Byte>)
    requires TakeInt32(bytes) == Some((SIMPLEX_SIGNATURE_SET_ID, b0))
    ensures TakeSet(bytes) == TakeSimplex(b0)
  {
  }

  lemma SimplexRoundTrip(v: SignatureSet, rest: seq<Byte>, bytes: seq<Byte>)
    requires Encodable(v) && v.Simplex? && bytes == SetBytes(v) + rest
    ensures TakeSet(bytes) == Some((v, rest))
  {
    SimplexBytes(v, rest);
    var b0 := Int32Bytes(v.ccSeqno) + (Int32Bytes(v.validatorSetHash) + SimplexTail(v, rest));
    Int32RoundTrip(SIMPLEX_SIGNATURE_SET_ID, b0);
    SimplexFieldsRoundTrip(v, rest, b0);
    TakeSetSimplex(bytes, b0);
  }

  /** Whatever follows an encoded value, decoding gives the value and leaves exactly what follows. */
  lemma SetRoundTrip(v: SignatureSet, rest: seq<Byte>)
    requires Encodable(v)
    ensures TakeSet(SetBytes(v) + rest) == Some((v, rest))
  {
    if v.Ordinary? {
      OrdinaryRoundTrip(v, rest);
    } else {
      SimplexRoundTrip(v, rest, SetBytes(v) + rest);
    }
  }

  /** No encoding is a prefix of another, so a stream of them is read back in one way only. */
  lemma PrefixFree(v: SignatureSet, w: SignatureSet, rest: seq<Byte>)
    requires Encodable(v) && Encodable(w) && SetBytes(w) == SetBytes(v) + rest
    ensures v == w && rest == []
  {
    SetRoundTrip(v, rest);
    SetRoundTrip(w, []);
    assert SetBytes(w) + [] == SetBytes(w);
  }

  // ---------- What the bytes are ----------

  ghost predicate Signed32(v: int) {
    -2147483648 <= v <= 2147483647
  }

  ghost predicate Fit(s: seq<Signature>) {
    |s| <= 4294967295 && forall i | 0 <= i < |s| :: |s[i].nodeIdShort| == 32 && |s[i].signature| <= 16777215
  }

  /** What can be encoded: signed 32-bit numbers, 256-bit identifiers, byte strings below 2^24. */
  lemma EncodableIff(v: SignatureSet)
    ensures Encodable(v) <==>
            || (v.Ordinary? && Signed32(v.validatorSetHash) && Signed32(v.catchainSeqno) && Fit(v.signatures))
            || (v.Simplex? && Signed32(v.ccSeqno) && Signed32(v.validatorSetHash) && Fit(v.signatures)
                && |v.sessionId| == 32 && Signed32(v.slot) && |v.candidate| <= 16777215)
  {
  }

  /** Four bytes that are `v`, least significant first, a negative number in two's complement. */
  ghost predicate Are(b: seq<Byte>, v: int) {
    && |b| == 4
    && var w: int, x: int, y: int, z: int := b[0], b[1], b[2], b[3];
       w + 0x100 * x + 0x1_0000 * y + 0x100_0000 * z == if v < 0 then v + 0x1_0000_0000 else v
  }

  lemma Uint32Are(v: nat)
    requires v < 0x1_0000_0000
    ensures Are(Uint32Bytes(v), v)
  {
    FourBytes(v);
  }

  lemma Int32Are(v: int)
    requires IsInt32(v)
    ensures Are(Int32Bytes(v), v)
  {
    Uint32Are(Unsigned(v));
  }

  /** A constructor, two numbers and a count, in the first sixteen bytes. */
  ghost predicate Header(b: seq<Byte>, tag: int, first: int, second: int, count: nat) {
    && 16 <= |b|
    && Are(b[..4], tag) && Are(b[4..8], first) && Are(b[8..12], second) && Are(b[12..16], count)
  }

  lemma FourAndFour(t: seq<Byte>, u: seq<Byte>, w: seq<Byte>, n: seq<Byte>, rest: seq<Byte>)
    requires |t| == |u| == |w| == |n| == 4
    ensures var b := t + (u + (w + (n + rest)));
            b[..4] == t && b[4..8] == u && b[8..12] == w && b[12..16] == n
  {
  }

  /** An encoded set begins with its constructor, its two numbers and the count of its signatures. */
  lemma OrdinaryHeader(v: SignatureSet)
    requires v.Ordinary? && Encodable(v)
    ensures Header(SetBytes(v), 0xf644a6e6 - 0x1_0000_0000, v.validatorSetHash, v.catchainSeqno, |v.signatures|)
  {
    FourAndFour(Int32Bytes(ORDINARY_SIGNATURE_SET_ID), Int32Bytes(v.validatorSetHash), Int32Bytes(v.catchainSeqno),
                Uint32Bytes(|v.signatures|), SignatureListBytes(v.signatures));
    Int32Are(ORDINARY_SIGNATURE_SET_ID);
    Int32Are(v.validatorSetHash);
    Int32Are(v.catchainSeqno);
    Uint32Are(|v.signatures|);
  }

  lemma SimplexHeader(v: SignatureSet)
    requires v.Simplex? && Encodable(v)
    ensures Header(SetBytes(v), 0xac249800 - 0x1_0000_0000, v.ccSeqno, v.validatorSetHash, |v.signatures|)
  {
    var behind := v.sessionId + (Int32Bytes(v.slot) + BufferBytes(v.candidate));
    var list := SignatureListBytes(v.signatures);
    assert Uint32Bytes(|v.signatures|) + list + behind == Uint32Bytes(|v.signatures|) + (list + behind);
    FourAndFour(Int32Bytes(SIMPLEX_SIGNATURE_SET_ID), Int32Bytes(v.ccSeqno), Int32Bytes(v.validatorSetHash),
                Uint32Bytes(|v.signatures|), list + behind);
    Int32Are(SIMPLEX_SIGNATURE_SET_ID);
    Int32Are(v.ccSeqno);
    Int32Are(v.validatorSetHash);
    Uint32Are(|v.signatures|);
  }

  // ---------- The write buffer and the read cursor ----------

  lemma ListExtends(start: seq<Byte>, s: seq<Signature>, i: nat)
    requires i < |s| && forall j | 0 <= j <= i :: SignatureOk(s[j])
    ensures start + SignatureListBytes(s[..i + 1]) == start + SignatureListBytes(s[..i]) + SignatureBytes(s[i])
  {
    assert Encodings(s[..i + 1]) == Encodings(s[..i]) + [SignatureBytes(s[i])];
    ConcatSnoc(Encodings(s[..i]), SignatureBytes(s[i]));
    Reassociate(start, SignatureListBytes(s[..i]), SignatureBytes(s[i]));
  }

  /** `TLWriteBuffer`: a refused value is a thrown exception, and the buffer is then abandoned. */
  class Writer {
    var bytes: seq<Byte>

    constructor ()
      ensures bytes == []
    {
      bytes := [];
    }

    method WriteInt32(v: int) returns (ok: bool)
      modifies this
      ensures ok <==> IsInt32(v)
      ensures ok ==> bytes == old(bytes) + Int32Bytes(v)
    {
      ok := IsInt32(v);
      if ok {
        bytes := bytes + Int32Bytes(v);
      }
    }

    method WriteInt256(b: seq<Byte>) returns (ok: bool)
      modifies this
      ensures ok <==> |b| == 32
      ensures ok ==> bytes == old(bytes) + b
    {
      ok := |b| == 32;
      if ok {
        bytes := bytes + b;
      }
    }

    method WriteBytes(b: seq<Byte>)
      modifies this
      ensures bytes == old(bytes) + b
    {
      for i := 0 to |b|
        invariant bytes == old(bytes) + b[..i]
      {
        assert b[..i + 1] == b[..i] + [b[i]];
        Reassociate(old(bytes), b[..i], [b[i]]);
        bytes := bytes + [b[i]];
      }
      assert b[..|b|] == b;
    }

    /** Zeros until the count of bytes written, `n` so far, is a multiple of four. */
    method WritePadding(n: nat)
      modifies this
      ensures bytes == old(bytes) + PadBytes(PadSize(n))
    {
      var len := n;
      while len % 4 != 0
        invariant n <= len <= n + PadSize(n)
        invariant bytes == old(bytes) + PadBytes(len - n)
        decreases n + PadSize(n) - len
      {
        assert PadBytes(len + 1 - n) == PadBytes(len - n) + [0];
        bytes := bytes + [0];
        len := len + 1;
      }
    }

    /** The length, the bytes, then zeros up to a multiple of four. */
    method WriteBuffer(b: seq<Byte>) returns (ok: bool)
      modifies this
      ensures ok <==> IsTlLength(|b|)
      ensures ok ==> bytes == old(bytes) + BufferBytes(b)
    {
      if |b| >= 0x100_0000 {
        return false;
      }
      var length := LengthBytes(|b|);
      WriteBytes(length);
      WriteBytes(b);
      WritePadding(|length| + |b|);
      ghost var pad := PadBytes(PadSize(|length| + |b|));
      Reassociate(old(bytes) + length, b, pad);
      Reassociate(old(bytes), length, b + pad);
      return true;
    }

    method WriteSignature(s: Signature) returns (ok: bool)
      modifies this
      ensures ok <==> SignatureOk(s)
      ensures ok ==> bytes == old(bytes) + SignatureBytes(s)
    {
      ok := WriteInt256(s.nodeIdShort);
      if ok {
        ok := WriteBuffer(s.signature);
      }
    }

    method WriteVector(s: seq<Signature>) returns (ok: bool)
      modifies this
      ensures ok <==> SignaturesOk(s)
      ensures ok ==> bytes == old(bytes) + VectorBytes(s)
    {
      if |s| >= 0x1_0000_0000 {
        return false;
      }
      bytes := bytes + Uint32Bytes(|s|);
      ghost var start := bytes;
      for i := 0 to |s|
        invariant forall j | 0 <= j < i :: SignatureOk(s[j])
        invariant bytes == start + SignatureListBytes(s[..i])
      {
        ok := WriteSignature(s[i]);
        if !ok {
          return;
        }
        ListExtends(start, s, i);
      }
      assert s[..|s|] == s;
      Reassociate(old(bytes), Uint32Bytes(|s|), SignatureListBytes(s));
      return true;
    }

    method EncodeOrdinary(v: SignatureSet) returns (ok: bool)
      requires v.Ordinary?
      modifies this
      ensures ok <==> Encodable(v)
      ensures ok ==> bytes == old(bytes) + SetBytes(v)
    {
      ok := WriteInt32(ORDINARY_SIGNATURE_SET_ID);
      ok := WriteInt32(v.validatorSetHash);
      if ok {
        ok := WriteInt32(v.catchainSeqno);
      }
      if ok {
        ok := WriteVector(v.signatures);
      }
      if ok {
        ghost var tag, hash := Int32Bytes(ORDINARY_SIGNATURE_SET_ID), Int32Bytes(v.validatorSetHash);
        ghost var seqno, vector := Int32Bytes(v.catchainSeqno), VectorBytes(v.signatures);
        Reassociate(((old(bytes) + tag) + hash), seqno, vector);
        Reassociate(old(bytes) + tag, hash, seqno + vector);
        Reassociate(old(bytes), tag, hash + (seqno + vector));
      }
    }

    /** The first four fields of a simplex set. */
    method WriteSimplexHead(v: SignatureSet) returns (ok: bool)
      requires v.Simplex?
      modifies this
      ensures ok <==> IsInt32(v.ccSeqno) && IsInt32(v.validatorSetHash) && SignaturesOk(v.signatures)
      ensures ok ==> bytes == old(bytes) + Int32Bytes(SIMPLEX_SIGNATURE_SET_ID) + Int32Bytes(v.ccSeqno)
                              + Int32Bytes(v.validatorSetHash) + VectorBytes(v.signatures)
    {
      ok := WriteInt32(SIMPLEX_SIGNATURE_SET_ID);
      ok := WriteInt32(v.ccSeqno);
      if ok {
        ok := WriteInt32(v.validatorSetHash);
      }
      if ok {
        ok := WriteVector(v.signatures);
      }
    }

    /** The last three fields of a simplex set. */
    method WriteSimplexTail(v: SignatureSet) returns (ok: bool)
      requires v.Simplex?
      modifies this
      ensures ok <==> |v.sessionId| == 32 && IsInt32(v.slot) && IsTlLength(|v.candidate|)
      ensures ok ==> bytes == old(bytes) + (v.sessionId + (Int32Bytes(v.slot) + BufferBytes(v.candidate)))
    {
      ok := WriteInt256(v.sessionId);
      if ok {
        ok := WriteInt32(v.slot);
      }
      if ok {
        ok := WriteBuffer(v.candidate);
      }
      if ok {
        Reassociate(old(bytes) + v.sessionId, Int32Bytes(v.slot), BufferBytes(v.candidate));
        Reassociate(old(bytes), v.sessionId, Int32Bytes(v.slot) + BufferBytes(v.candidate));
      }
    }

    method EncodeSimplex(v: SignatureSet) returns (ok: bool)
      requires v.Simplex?
      modifies this
      ensures ok <==> Encodable(v)
      ensures ok ==> bytes == old(bytes) + SetBytes(v)
    {
      ok := WriteSimplexHead(v);
      if ok {
        ok := WriteSimplexTail(v);
      }
      if ok {
        ghost var tag, seqno := Int32Bytes(SIMPLEX_SIGNATURE_SET_ID), Int32Bytes(v.ccSeqno);
        ghost var hash, vector := Int32Bytes(v.validatorSetHash), VectorBytes(v.signatures);
        ghost var tail := v.sessionId + (Int32Bytes(v.slot) + BufferBytes(v.candidate));
        Reassociate(old(bytes) + tag + seqno + hash, vector, tail);
        Reassociate(old(bytes) + tag + seqno, hash, vector + tail);
        Reassociate(old(bytes) + tag, seqno, hash + (vector + tail));
        Reassociate(old(bytes), tag, seqno + (hash + (vector + tail)));
      }
    }

    /** `codec.encode` */
    method Encode(v: SignatureSet) returns (ok: bool)
      modifies this
      ensures ok <==> Encodable(v)
      ensures ok ==> bytes == old(bytes) + SetBytes(v)
    {
      if v.Ordinary? {
        ok := EncodeOrdinary(v);
      } else if v.Simplex? {
        ok := EncodeSimplex(v);
      } else {
        ok := false;
      }
    }
  }

  /** `TLReadBuffer`: a cursor into bytes that never change. A read past the end throws. */
  class Reader {
    const buffer: seq<Byte>
    var offset: nat

    ghost predicate Valid()
      reads this
    {
      offset <= |buffer|
    }

    constructor (buffer: seq<Byte>)
      ensures Valid() && this.buffer == buffer && Rest() == buffer
    {
      this.buffer := buffer;
      offset := 0;
    }

    /** What has not been read. */
    ghost function Rest(): seq<Byte>
      requires Valid()
      reads this
    {
      buffer[offset..]
    }

    /** A read returns what the function on bytes does, and leaves what it leaves. */
    ghost predicate Follows<T>(taken: Parsed<T>, r: Option<T>)
      requires Valid()
      reads this
    {
      match taken
      case None => r.None?
      case Some((v, rest)) => r == Some(v) && Rest() == rest
    }

    method ReadUint32() returns (r: Option<nat>)
      requires Valid()
      modifies this`offset
      ensures Valid() && Follows(TakeUint32(old(Rest())), r)
    {
      if offset + 4 > |buffer| {
        return None;
      }
      r := Some(LittleEndian(buffer[offset], buffer[offset + 1], buffer[offset + 2], buffer[offset + 3]));
      offset := offset + 4;
    }

    method ReadInt32() returns (r: Option<int>)
      requires Valid()
      modifies this`offset
      ensures Valid() && Follows(TakeInt32(old(Rest())), r)
    {
      var u := ReadUint32();
      r := if u.Some? then Some(ToInt32(u.value)) else None;
    }

    /** `n` raw bytes. */
    method ReadRaw(n: nat) returns (r: Option<seq<Byte>>)
      requires Valid()
      modifies this`offset
      ensures Valid() && Follows(TakeRaw(n, old(Rest())), r)
    {
      if offset + n > |buffer| {
        return None;
      }
      assert Rest()[..n] == buffer[offset..offset + n] && Rest()[n..] == buffer[offset + n..];
      r := Some(buffer[offset..offset + n]);
      offset := offset + n;
    }

    method ReadLength() returns (r: Option<nat>)
      requires Valid()
      modifies this`offset
      ensures Valid() && Follows(TakeLength(old(Rest())), r)
    {
      if offset == |buffer| {
        return None;
      }
      if buffer[offset] != 254 {
        r := Some(buffer[offset]);
        offset := offset + 1;
        return;
      }
      if offset + 4 > |buffer| {
        return None;
      }
      r := Some(LittleEndian(buffer[offset + 1], buffer[offset + 2], buffer[offset + 3], 0));
      offset := offset + 4;
    }

    method ReadBuffer() returns (r: Option<seq<Byte>>)
      requires Valid()
      modifies this`offset
      ensures Valid() && Follows(TakeBuffer(old(Rest())), r)
    {
      var start := offset;
      var n := ReadLength();
      if n.None? {
        return None;
      }
      r := ReadPadded(n.value, offset - start);
    }

    method ReadPadded(n: nat, used: nat) returns (r: Option<seq<Byte>>)
      requires Valid()
      modifies this`offset
      ensures Valid() && Follows(TakePadded(n, used, old(Rest())), r)
    {
      r := ReadRaw(n);
      if r.None? {
        return;
      }
      var pad := ReadRaw(PadSize(used + n));
      if pad.None? {
        return None;
      }
    }

    method ReadSignature() returns (r: Option<Signature>)
      requires Valid()
      modifies this`offset
      ensures Valid() && Follows(TakeSignature(old(Rest())), r)
    {
      var id := ReadRaw(32);
      if id.None? {
        return None;
      }
      var b := ReadBuffer();
      r := if b.Some? then Some(Signature(id.value, b.value)) else None;
    }

    method ReadVector() returns (r: Option<seq<Signature>>)
      requires Valid()
      modifies this`offset
      ensures Valid() && Follows(TakeVector(old(Rest())), r)
    {
      var n := ReadUint32();
      if n.None? {
        return None;
      }
      ghost var start := Rest();
      var s := [];
      for i := 0 to n.value
        invariant Valid() && Follows(TakeMany(i, start, TakeSignature), Some(s))
      {
        var next := ReadSignature();
        if next.None? {
          ShortVector(i + 1, n.value, start, TakeSignature);
          return None;
        }
        s := s + [next.value];
      }
      return Some(s);
    }

    method ReadOrdinary() returns (r: Option<SignatureSet>)
      requires Valid()
      modifies this`offset
      ensures Valid() && Follows(TakeOrdinary(old(Rest())), r)
    {
      var h := ReadInt32();
      if h.None? {
        return None;
      }
      var c := ReadInt32();
      if c.None? {
        return None;
      }
      var s := ReadVector();
      r := if s.Some? then Some(Ordinary(h.value, c.value, s.value)) else None;
    }

    method ReadSimplex() returns (r: Option<SignatureSet>)
      requires Valid()
      modifies this`offset
      ensures Valid() && Follows(TakeSimplex(old(Rest())), r)
    {
      var c := ReadInt32();
      if c.None? {
        return None;
      }
      var h := ReadInt32();
      if h.None? {
        return None;
      }
      var s := ReadVector();
      if s.None? {
        return None;
      }
      var id := ReadRaw(32);
      if id.None? {
        return None;
      }
      var slot := ReadInt32();
      if slot.None? {
        return None;
      }
      var candidate := ReadBuffer();
      r := if candidate.Some? then Some(Simplex(c.value, h.value, s.value, id.value, slot.value, candidate.value)) else None;
    }

    /** `codec.decode` */
    method Decode() returns (r: Option<SignatureSet>)
      requires Valid()
      modifies this`offset
      ensures Valid() && Follows(TakeSet(old(Rest())), r)
      // An encoded value is decoded, and the cursor stops right behind it.
      ensures forall v, rest | Encodable(v) && old(Rest()) == SetBytes(v) + rest :: r == Some(v) && Rest() == rest
    {
      ghost var before := Rest();
      var kind := ReadInt32();
      if kind.None? {
        r := None;
      } else if kind.value == ORDINARY_SIGNATURE_SET_ID {
        r := ReadOrdinary();
      } else if kind.value == SIMPLEX_SIGNATURE_SET_ID {
        r := ReadSimplex();
      } else {
        r := None; // unsupported LiteServer SignatureSet constructor
      }
      forall v, rest | Encodable(v) && before == SetBytes(v) + rest
        ensures TakeSet(before) == Some((v, rest))
      {
        SetRoundTrip(v, rest);
      }
    }
  }

  lemma {:induction false} ShortVector<T>(i: nat, n: nat, bytes: seq<Byte>, take: seq<Byte> -> Parsed<T>)
    requires i <= n && TakeMany(i, bytes, take).None?
    ensures TakeMany(n, bytes, take).None?
  {
    if i < n {
      ShortVector(i, n - 1, bytes, take);
    }
  }
}

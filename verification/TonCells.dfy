/**
 TON cells as the encoders of contracts-ton/wrappers/TonJettonEscrow.ts build them: a builder
 collects fields and references, and a cell is at most 1023 bits and 4 references.
 A parser for the same fields is the decoder every round trip is stated with.
 */
module TonCells {
  import opened Outcomes

  const MAX_BITS := 1023
  const MAX_REFS := 4

  datatype Cell = Cell(bits: seq<bool>, refs: seq<Cell>)

  /** Every cell of the tree is within capacity. */
  predicate Fits(c: Cell) {
    |c.bits| <= MAX_BITS && |c.refs| <= MAX_REFS && forall r | r in c.refs :: Fits(r)
  }

  function Pow2(n: nat): (p: nat)
    ensures p > 0
  {
    if n == 0 then 1 else 2 * Pow2(n - 1)
  }

  /** A standard address: a signed 8-bit workchain and a 256-bit account. */
  datatype RawAddress = RawAddress(workchain: int, account: nat)

  predicate IsAddress(a: RawAddress) {
    -128 <= a.workchain < 128 && a.account < Pow2(256)
  }

  type Address = a: RawAddress | IsAddress(a)
    witness RawAddress(0, 0)

  // ---------- Fields ----------

  datatype Field = Uint(value: int, size: nat) | Coins(amount: int) | Addr(address: Address)

  datatype Kind = UintKind(size: nat) | CoinsKind | AddrKind

  /** Fields in the order they are stored, the last one outermost. */
  datatype Fields = Start | Then(before: Fields, last: Field)

  datatype Kinds = StartKinds | ThenKind(before: Kinds, last: Kind) {
    function Uint(size: nat): Kinds {
      ThenKind(this, UintKind(size))
    }

    function Coins(): Kinds {
      ThenKind(this, CoinsKind)
    }

    function Address(): Kinds {
      ThenKind(this, AddrKind)
    }
  }

  predicate FieldOk(f: Field) {
    match f
    case Uint(v, n) => 0 <= v < Pow2(n)
    case Coins(v) => 0 <= v < Pow2(120)
    case Addr(_) => true
  }

  predicate FieldsOk(fs: Fields) {
    fs.Then? ==> FieldsOk(fs.before) && FieldOk(fs.last)
  }

  function KindOf(f: Field): Kind {
    match f
    case Uint(_, n) => UintKind(n)
    case Coins(_) => CoinsKind
    case Addr(_) => AddrKind
  }

  function KindsOf(fs: Fields): Kinds {
    if fs.Start? then StartKinds else ThenKind(KindsOf(fs.before), KindOf(fs.last))
  }

  /** Big-endian, exactly `n` bits. */
  function UintBits(v: nat, n: nat): (bits: seq<bool>)
    ensures |bits| == n
  {
    if n == 0 then [] else UintBits(v / 2, n - 1) + [v % 2 == 1]
  }

  function BitsValue(bits: seq<bool>): nat {
    if bits == [] then 0 else 2 * BitsValue(bits[..|bits| - 1]) + (if bits[|bits| - 1] then 1 else 0)
  }

  function ByteLength(v: nat): nat {
    if v == 0 then 0 else 1 + ByteLength(v / 256)
  }

  /** Two's complement in 8 bits. */
  function WorkchainByte(workchain: int): nat
    requires -128 <= workchain < 128
  {
    if workchain < 0 then workchain + 256 else workchain
  }

  /** uintN; VarUInteger 16; addr_std without anycast. */
  function FieldBits(f: Field): seq<bool>
    requires FieldOk(f)
  {
    match f
    case Uint(v, n) => UintBits(v, n)
    case Coins(v) => UintBits(ByteLength(v), 4) + UintBits(v, 8 * ByteLength(v))
    case Addr(a) => UintBits(2, 2) + (UintBits(0, 1) + (UintBits(WorkchainByte(a.workchain), 8) + UintBits(a.account, 256)))
  }

  function Bits(fs: Fields): seq<bool>
    requires FieldsOk(fs)
  {
    if fs.Start? then [] else Bits(fs.before) + FieldBits(fs.last)
  }

  /** The most bits a field of a kind takes. */
  function MaxBits(k: Kind): nat {
    match k
    case UintKind(n) => n
    case CoinsKind => 124
    case AddrKind => 267
  }

  function MaxBitsOf(ks: Kinds): nat {
    if ks.StartKinds? then 0 else MaxBitsOf(ks.before) + MaxBits(ks.last)
  }

  function First(fs: Fields): Field
    requires fs.Then?
  {
    if fs.before.Start? then fs.last else First(fs.before)
  }

  // ---------- Builder ----------

  /** `tail` is what `storeSlice` appends behind the fields. */
  datatype Builder = Builder(fields: Fields, tail: seq<bool>, refs: seq<Cell>) {
    function Store(f: Field): (b: Builder)
      ensures KindsOf(b.fields) == ThenKind(KindsOf(fields), KindOf(f))
      ensures FieldsOk(b.fields) <==> FieldsOk(fields) && FieldOk(f)
      ensures MaxBitsOf(KindsOf(b.fields)) == MaxBitsOf(KindsOf(fields)) + MaxBits(KindOf(f))
      ensures First(b.fields) == (if fields.Start? then f else First(fields))
      ensures FieldsOk(b.fields) ==> |Bits(b.fields)| == |Bits(fields)| + |FieldBits(f)|
    {
      this.(fields := Then(fields, f))
    }

    function StoreUint(value: int, size: nat): Builder {
      Store(Uint(value, size))
    }

    function StoreCoins(amount: int): Builder {
      Store(Coins(amount))
    }

    function StoreAddress(address: Address): Builder {
      Store(Addr(address))
    }

    function StoreRef(c: Cell): Builder {
      this.(refs := refs + [c])
    }

    /** `storeSlice(c.beginParse())` as the last thing stored. */
    function StoreSlice(c: Cell): Builder {
      this.(tail := tail + c.bits, refs := refs + c.refs)
    }

    /** A builder refuses what does not fit, and values out of their field's range. */
    function EndCell(): Result<Cell> {
      if !FieldsOk(fields) then Err("value out of range")
      else
        var bits := Bits(fields) + tail;
        if |bits| > MAX_BITS || |refs| > MAX_REFS then Err("BitBuilder overflow") else Ok(Cell(bits, refs))
    }
  }

  const BeginCell := Builder(Start, [], [])

  // ---------- Parser ----------

  function LoadUint(n: nat, bits: seq<bool>): Option<(nat, seq<bool>)> {
    if |bits| < n then None else Some((BitsValue(bits[..n]), bits[n..]))
  }

  function LoadCoins(bits: seq<bool>): Option<(nat, seq<bool>)> {
    match LoadUint(4, bits)
    case None => None
    case Some((n, rest)) => LoadUint(8 * n, rest)
  }

  function LoadAddress(bits: seq<bool>): Option<(Address, seq<bool>)> {
    match LoadUint(2, bits)
    case None => None
    case Some((tag, bits1)) =>
      match LoadUint(1, bits1)
      case None => None
      case Some((anycast, bits2)) =>
        match LoadUint(8, bits2)
        case None => None
        case Some((w, bits3)) =>
          match LoadUint(256, bits3)
          case None => None
          case Some((account, rest)) =>
            var a := RawAddress(if w >= 128 then w - 256 else w, account);
            if tag == 2 && anycast == 0 && IsAddress(a) then Some((a, rest)) else None
  }

  function LoadField(k: Kind, bits: seq<bool>): Option<(Field, seq<bool>)> {
    match k
    case UintKind(n) => (match LoadUint(n, bits) case None => None case Some((v, rest)) => Some((Uint(v, n), rest)))
    case CoinsKind => (match LoadCoins(bits) case None => None case Some((v, rest)) => Some((Coins(v), rest)))
    case AddrKind => (match LoadAddress(bits) case None => None case Some((a, rest)) => Some((Addr(a), rest)))
  }

  function LoadFields(ks: Kinds, bits: seq<bool>): Option<(Fields, seq<bool>)> {
    if ks.StartKinds? then Some((Start, bits))
    else
      match LoadFields(ks.before, bits)
      case None => None
      case Some((fs, rest)) =>
        match LoadField(ks.last, rest)
        case None => None
        case Some((f, rest')) => Some((Then(fs, f), rest'))
  }

  // ---------- Numbers ----------

  lemma {:induction false} Pow2Add(m: nat, n: nat)
    ensures Pow2(m + n) == Pow2(m) * Pow2(n)
  {
    if m > 0 {
      Pow2Add(m - 1, n);
      Twice(Pow2(m - 1), Pow2(n));
    }
  }

  lemma Twice(a: int, b: int)
    ensures (2 * a) * b == 2 * (a * b)
  {
  }

  lemma Pow2Four()
    ensures Pow2(4) == 16
  {
    assert Pow2(2) == 4;
  }

  lemma Pow2Eight()
    ensures Pow2(8) == 256
  {
    Pow2Four();
    Pow2Add(4, 4);
  }

  lemma {:induction false} Pow2Mono(m: nat, n: nat)
    requires m <= n
    ensures Pow2(m) <= Pow2(n)
  {
    if m < n {
      Pow2Mono(m, n - 1);
    }
  }

  lemma {:induction false} UintRoundTrip(v: nat, n: nat)
    requires v < Pow2(n)
    ensures BitsValue(UintBits(v, n)) == v
  {
    if n > 0 {
      UintRoundTrip(v / 2, n - 1);
      assert UintBits(v, n)[..n - 1] == UintBits(v / 2, n - 1);
    }
  }

  /** A value below 2^(8k) takes at most `k` bytes, and its bytes hold it. */
  lemma {:induction false} ByteLengthBound(v: nat, k: nat)
    ensures v < Pow2(8 * ByteLength(v))
    ensures v < Pow2(8 * k) ==> ByteLength(v) <= k
  {
    if v > 0 {
      Pow2Eight();
      ByteLengthBound(v / 256, if k > 0 then k - 1 else 0);
      Pow2Add(8, 8 * ByteLength(v / 256));
      if k > 0 {
        Pow2Add(8, 8 * (k - 1));
      }
    }
  }

  // ---------- Round trips ----------

  lemma LoadUintRoundTrip(v: nat, n: nat, rest: seq<bool>)
    requires v < Pow2(n)
    ensures LoadUint(n, UintBits(v, n) + rest) == Some((v, rest))
  {
    UintRoundTrip(v, n);
    assert (UintBits(v, n) + rest)[..n] == UintBits(v, n);
    assert (UintBits(v, n) + rest)[n..] == rest;
  }

  lemma LoadCoinsParts(bits: seq<bool>, n: nat, mid: seq<bool>, v: nat, rest: seq<bool>)
    requires LoadUint(4, bits) == Some((n, mid)) && LoadUint(8 * n, mid) == Some((v, rest))
    ensures LoadCoins(bits) == Some((v, rest))
  {
  }

  lemma CoinsRoundTrip(v: nat, rest: seq<bool>)
    requires v < Pow2(120)
    ensures LoadCoins(FieldBits(Coins(v)) + rest) == Some((v, rest))
  {
    var n := ByteLength(v);
    ByteLengthBound(v, 15);
    Pow2Four();
    LoadUintRoundTrip(n, 4, UintBits(v, 8 * n) + rest);
    LoadUintRoundTrip(v, 8 * n, rest);
    assert FieldBits(Coins(v)) + rest == UintBits(n, 4) + (UintBits(v, 8 * n) + rest);
    LoadCoinsParts(FieldBits(Coins(v)) + rest, n, UintBits(v, 8 * n) + rest, v, rest);
  }

  lemma LoadAddressParts(bits: seq<bool>, bits1: seq<bool>, bits2: seq<bool>, bits3: seq<bool>, rest: seq<bool>, a: Address)
    requires LoadUint(2, bits) == Some((2, bits1)) && LoadUint(1, bits1) == Some((0, bits2))
    requires LoadUint(8, bits2) == Some((WorkchainByte(a.workchain), bits3)) && LoadUint(256, bits3) == Some((a.account, rest))
    ensures LoadAddress(bits) == Some((a, rest))
  {
  }

  lemma LoadAddressBits(w: nat, account: nat, rest: seq<bool>)
    requires w < Pow2(8) && account < Pow2(256)
    ensures var bits3 := UintBits(account, 256) + rest;
            var bits2 := UintBits(w, 8) + bits3;
            var bits1 := UintBits(0, 1) + bits2;
            && LoadUint(2, UintBits(2, 2) + bits1) == Some((2, bits1))
            && LoadUint(1, bits1) == Some((0, bits2))
            && LoadUint(8, bits2) == Some((w, bits3))
            && LoadUint(256, bits3) == Some((account, rest))
  {
    var bits3 := UintBits(account, 256) + rest;
    var bits2 := UintBits(w, 8) + bits3;
    Pow2Mono(1, 8);
    LoadUintRoundTrip(account, 256, rest);
    LoadUintRoundTrip(w, 8, bits3);
    LoadUintRoundTrip(0, 1, bits2);
    LoadUintRoundTrip(2, 2, UintBits(0, 1) + bits2);
  }

  lemma Regroup(a: seq<bool>, b: seq<bool>, c: seq<bool>, d: seq<bool>, rest: seq<bool>)
    ensures (a + (b + (c + d))) + rest == a + (b + (c + (d + rest)))
  {
  }

  lemma AddressRoundTrip(a: Address, rest: seq<bool>)
    ensures LoadAddress(FieldBits(Addr(a)) + rest) == Some((a, rest))
  {
    var w := WorkchainByte(a.workchain);
    Pow2Eight();
    LoadAddressBits(w, a.account, rest);
    Regroup(UintBits(2, 2), UintBits(0, 1), UintBits(w, 8), UintBits(a.account, 256), rest);
    var bits3 := UintBits(a.account, 256) + rest;
    var bits2 := UintBits(w, 8) + bits3;
    LoadAddressParts(FieldBits(Addr(a)) + rest, UintBits(0, 1) + bits2, bits2, bits3, rest, a);
  }

  lemma FieldRoundTrip(f: Field, rest: seq<bool>)
    requires FieldOk(f)
    ensures LoadField(KindOf(f), FieldBits(f) + rest) == Some((f, rest))
  {
    match f
    case Uint(v, n) => LoadUintRoundTrip(v, n, rest);
    case Coins(v) => CoinsRoundTrip(v, rest);
    case Addr(a) => AddressRoundTrip(a, rest);
  }

  lemma LoadOneMore(ks: Kinds, k: Kind, bits: seq<bool>, fs: Fields, mid: seq<bool>, f: Field, rest: seq<bool>)
    requires LoadFields(ks, bits) == Some((fs, mid)) && LoadField(k, mid) == Some((f, rest))
    ensures LoadFields(ThenKind(ks, k), bits) == Some((Then(fs, f), rest))
  {
  }

  lemma BitsThen(fs: Fields, rest: seq<bool>)
    requires FieldsOk(fs) && fs.Then?
    ensures Bits(fs) + rest == Bits(fs.before) + (FieldBits(fs.last) + rest)
  {
  }

  /** Parsing by the kinds of what was stored gives it back, and leaves what follows. */
  lemma {:induction false} FieldsRoundTrip(fs: Fields, rest: seq<bool>)
    requires FieldsOk(fs)
    ensures LoadFields(KindsOf(fs), Bits(fs) + rest) == Some((fs, rest))
  {
    match fs
    case Start =>
      assert [] + rest == rest;
    case Then(before, last) =>
      var mid := FieldBits(last) + rest;
      var bits := Bits(fs) + rest;
      BitsThen(fs, rest);
      FieldsRoundTrip(before, mid);
      FieldRoundTrip(last, rest);
      LoadOneMore(KindsOf(before), KindOf(last), bits, before, mid, last, rest);
  }

  /** The first field stored is the first read, whatever the others are. */
  lemma {:induction false} FirstFieldFirst(fs: Fields, rest: seq<bool>)
    requires FieldsOk(fs) && fs.Then? && First(fs).Uint?
    ensures |Bits(fs)| >= First(fs).size
    ensures var r := LoadUint(First(fs).size, Bits(fs) + rest); r.Some? && r.value.0 == First(fs).value
  {
    if fs.before.Start? {
      assert Bits(fs) == UintBits(fs.last.value, fs.last.size);
      LoadUintRoundTrip(fs.last.value, fs.last.size, rest);
    } else {
      BitsThen(fs, rest);
      FirstFieldFirst(fs.before, FieldBits(fs.last) + rest);
    }
  }

  lemma Pow2ThirtyTwo()
    ensures Pow2(32) == 0x1_0000_0000
  {
    Pow2Eight();
    Pow2Add(8, 8);
    Pow2Add(16, 16);
  }

  // ---------- Cells ----------

  /** How many bits a field takes. */
  function FieldSize(f: Field): nat {
    match f
    case Uint(_, n) => n
    case Coins(v) => if v < 0 then 0 else 4 + 8 * ByteLength(v)
    case Addr(_) => 267
  }

  function FieldsSize(fs: Fields): nat {
    if fs.Start? then 0 else FieldsSize(fs.before) + FieldSize(fs.last)
  }

  lemma {:induction false} BitsSize(fs: Fields)
    requires FieldsOk(fs)
    ensures |Bits(fs)| == FieldsSize(fs)
  {
    if fs.Then? {
      BitsSize(fs.before);
    }
  }

  lemma {:induction false} SizeBound(fs: Fields)
    requires FieldsOk(fs)
    ensures |Bits(fs)| <= MaxBitsOf(KindsOf(fs))
  {
    if fs.Then? {
      SizeBound(fs.before);
      if fs.last.Coins? {
        ByteLengthBound(fs.last.amount, 15);
      }
    }
  }

  /** A builder ends exactly when every value is in its field's range and there are at most 1023 bits and
      four references; and a cell fits when that is so throughout its tree. */
  lemma EndCellIff(b: Builder)
    ensures b.EndCell().Ok? <==> FieldsOk(b.fields) && |Bits(b.fields)| + |b.tail| < 1024 && |b.refs| < 5
    ensures b.EndCell().Ok? ==>
              (Fits(b.EndCell().value) <==> |Bits(b.fields)| + |b.tail| < 1024 && |b.refs| < 5 && forall r | r in b.refs :: Fits(r))
  {
  }

  /** A standard address is a signed byte and 256 bits. */
  lemma AddressIff(a: RawAddress)
    ensures IsAddress(a) <==> -129 < a.workchain <= 127 && a.account < Pow2(256)
  {
  }

  /** What was stored in a cell is what is parsed from it. */
  lemma CellRoundTrip(b: Builder)
    requires FieldsOk(b.fields) && MaxBitsOf(KindsOf(b.fields)) + |b.tail| <= MAX_BITS && |b.refs| <= MAX_REFS
    ensures b.EndCell().Ok?
    ensures b.EndCell().value.refs == b.refs
    ensures LoadFields(KindsOf(b.fields), b.EndCell().value.bits) == Some((b.fields, b.tail))
    ensures (forall r | r in b.refs :: Fits(r)) ==> Fits(b.EndCell().value)
  {
    SizeBound(b.fields);
    FieldsRoundTrip(b.fields, b.tail);
  }
}

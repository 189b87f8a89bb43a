/**
 * The material record shared between the CPU and the shaders.  Its only
 * logic is the 32-bit word `Packed`: the low 28 bits hold the index of the
 * material in the GPU material buffer, bits 28-29 the alpha mode and bit 30
 * the double-sided flag.  The setters OR bits into the word, the getters
 * mask them out.
 */
module MaterialPacking {
  import opened Bitwise

  type uint32 = x: nat | x < 0x1_0000_0000

  /** Bound the index setter asserts: at most 1'000'000 materials. */
  const MaxMaterials: nat := 1_000_000
  /** `GpuBufferIndex()`'s mask: the low 28 bits. */
  const IndexMask: nat := 0x0FFF_FFFF
  /** `uint32_t(-1)`: the "no texture" value of a texture slot. */
  const NoTexture: uint32 := 0xFFFF_FFFF

  lemma Pow2Values()
    ensures Pow2(2) == 4 && Pow2(28) == 0x1000_0000 && Pow2(30) == 0x4000_0000
    ensures Pow2(32) == 0x1_0000_0000
  {
    assert Pow2(2) == 4;
    assert Pow2(4) == 16;
    Pow2Add(4, 4);
    Pow2Add(8, 8);
    Pow2Add(16, 8);
    Pow2Add(24, 4);
    Pow2Add(28, 2);
    Pow2Add(30, 2);
  }

  /** ALPHA_MODE: OPAQUE = 0, MASK, BLEND, COUNT. */
  datatype AlphaMode = Opaque | Mask | Blend | Count

  /** The enum's underlying value. */
  function Code(m: AlphaMode): (r: nat)
    ensures r < 4
    ensures m != Count <==> r < 3
  {
    match m
    case Opaque => 0
    case Mask => 1
    case Blend => 2
    case Count => 3
  }

  // ---------------------------------------------------------------------
  // The fields of the packed word, as the layout comment describes them

  /** Bits 0-27: the material-buffer index. */
  function IndexField(p: nat): nat { Low(p, 28) }
  /** Bits 28-29: the alpha mode. */
  function AlphaField(p: nat): nat { Low(Shr(p, 28), 2) }
  /** Bit 30: the double-sided flag. */
  function FlagField(p: nat): bool { Low(Shr(p, 30), 1) == 1 }

  // ---------------------------------------------------------------------
  // The getters: masks on the packed word

  /** `GpuBufferIndex()`: `Packed & 0x0fffffff`. */
  function GpuBufferIndexOf(p: uint32): (r: uint32)
    ensures r == IndexField(p)
  {
    Pow2Values();
    AndLowMask(p, 28);
    BitAnd(p, IndexMask)
  }

  /** `IsDoubleSided()`: `Packed & (1 << 30)`, converted to bool. */
  function IsDoubleSidedOf(p: uint32): (r: bool)
    ensures r == FlagField(p)
  {
    ShlOne(30);
    AndBit(p, 30);
    BitAnd(p, Shl(1, 30)) != 0
  }

  /** `(Packed >> 28) & 3`: the alpha bits (the source has no getter for them). */
  function AlphaBitsOf(p: uint32): (r: nat)
    ensures r == AlphaField(p)
  {
    Pow2Values();
    AndLowMask(Shr(p, 28), 2);
    BitAnd(Shr(p, 28), 3)
  }

  // ---------------------------------------------------------------------
  // The setters: each ORs its bits into the word

  /** `SetGpuBufferIndex(idx)`: `Packed |= idx`, after asserting `idx < 1'000'000`. */
  function OrIndex(p: uint32, idx: uint32): (r: uint32)
    requires idx < MaxMaterials
    ensures BitOr(p, r) == r
    ensures Shr(r, 28) == Shr(p, 28)
    ensures Low(r, 28) == BitOr(Low(p, 28), idx)
  {
    Pow2Values();
    OrKeeps(p, idx);
    OrLow(p, idx, 28);
    OrBound(p, idx, 32);
    BitOr(p, idx)
  }

  /** `SetAlphaMode(mode)`: `Packed |= (uint32_t)mode << 28`. */
  function OrAlphaMode(p: uint32, m: AlphaMode): (r: uint32)
    ensures BitOr(p, r) == r
    ensures Low(r, 28) == Low(p, 28)
    ensures Shr(r, 28) == BitOr(Shr(p, 28), Code(m))
  {
    Pow2Values();
    OrKeeps(p, Shl(Code(m), 28));
    OrHigh(p, Code(m), 28);
    ShlBound(Code(m), 28, 2);
    OrBound(p, Shl(Code(m), 28), 32);
    BitOr(p, Shl(Code(m), 28))
  }

  /** `SetDoubleSided(b)`: `Packed |= (uint32_t)b << 30`. */
  function OrDoubleSided(p: uint32, b: bool): (r: uint32)
    ensures BitOr(p, r) == r
    ensures Low(r, 30) == Low(p, 30)
    ensures Shr(r, 30) == BitOr(Shr(p, 30), if b then 1 else 0)
  {
    Pow2Values();
    OrKeeps(p, Shl(if b then 1 else 0, 30));
    OrHigh(p, if b then 1 else 0, 30);
    ShlBound(if b then 1 else 0, 30, 1);
    OrBound(p, Shl(if b then 1 else 0, 30), 32);
    BitOr(p, Shl(if b then 1 else 0, 30))
  }

  /**
   * The index setter writes only the index field: the alpha mode and the
   * flag read back unchanged, and on a word whose index field is clear the
   * index reads back as set.
   */
  lemma IndexSetterFields(p: uint32, idx: uint32)
    requires idx < MaxMaterials
    ensures GpuBufferIndexOf(OrIndex(p, idx)) == BitOr(GpuBufferIndexOf(p), idx)
    ensures GpuBufferIndexOf(p) == 0 ==> GpuBufferIndexOf(OrIndex(p, idx)) == idx
    ensures AlphaBitsOf(OrIndex(p, idx)) == AlphaBitsOf(p)
    ensures IsDoubleSidedOf(OrIndex(p, idx)) == IsDoubleSidedOf(p)
  {
    var r := OrIndex(p, idx);
    OrZero(idx);
    ShrShr(r, 28, 2);
    ShrShr(p, 28, 2);
  }

  /** The alpha setter writes only the alpha field. */
  lemma AlphaSetterFields(p: uint32, m: AlphaMode)
    ensures GpuBufferIndexOf(OrAlphaMode(p, m)) == GpuBufferIndexOf(p)
    ensures AlphaBitsOf(OrAlphaMode(p, m)) == BitOr(AlphaBitsOf(p), Code(m))
    ensures AlphaBitsOf(p) == 0 ==> AlphaBitsOf(OrAlphaMode(p, m)) == Code(m)
    ensures IsDoubleSidedOf(OrAlphaMode(p, m)) == IsDoubleSidedOf(p)
  {
    var r := OrAlphaMode(p, m);
    Pow2Values();
    OrLow(Shr(p, 28), Code(m), 2);
    OrZero(Code(m));
    ShrShr(r, 28, 2);
    ShrShr(p, 28, 2);
  }

  /** The double-sided setter writes only the flag; with `false` it changes nothing. */
  lemma FlagSetterFields(p: uint32, b: bool)
    ensures GpuBufferIndexOf(OrDoubleSided(p, b)) == GpuBufferIndexOf(p)
    ensures AlphaBitsOf(OrDoubleSided(p, b)) == AlphaBitsOf(p)
    ensures b ==> IsDoubleSidedOf(OrDoubleSided(p, b))
    ensures !b ==> OrDoubleSided(p, b) == p
  {
    var r := OrDoubleSided(p, b);
    LowAgree(r, p, 30, 0, 28);
    LowAgree(r, p, 30, 28, 2);
    Pow2Values();
    OrLow(Shr(p, 30), if b then 1 else 0, 1);
    if b {
      assert Low(Shr(r, 30), 1) == BitOr(Low(Shr(p, 30), 1), 1);
      assert Low(Shr(p, 30), 1) == 0 || Low(Shr(p, 30), 1) == 1;
    } else {
      ShlZero(30);
      OrZero(p);
    }
  }

  // ---------------------------------------------------------------------
  // Any sequence of setter calls

  /** One call of a setter, with its argument. */
  datatype Setter = SetIndex(idx: uint32) | SetAlpha(mode: AlphaMode) | SetDouble(b: bool)

  /** A call the source admits: the index setter asserts `idx < 1'000'000`. */
  predicate Admissible(op: Setter) {
    op.SetIndex? ==> op.idx < MaxMaterials
  }

  /** The bits a setter call ORs into the word. */
  function BitsOf(op: Setter): nat {
    match op
    case SetIndex(idx) => idx
    case SetAlpha(m) => Shl(Code(m), 28)
    case SetDouble(b) => Shl(if b then 1 else 0, 30)
  }

  /** The word after one setter call: the old word with that call's bits ORed in. */
  function Apply(p: uint32, op: Setter): (r: uint32)
    requires Admissible(op)
    ensures r == BitOr(p, BitsOf(op))
  {
    match op
    case SetIndex(idx) => OrIndex(p, idx)
    case SetAlpha(m) => OrAlphaMode(p, m)
    case SetDouble(b) => OrDoubleSided(p, b)
  }

  /** Calling a setter twice with the same argument is calling it once. */
  lemma SetterIdempotent(p: uint32, op: Setter)
    requires Admissible(op)
    ensures Apply(Apply(p, op), op) == Apply(p, op)
  {
    OrAbsorb(p, BitsOf(op));
  }

  /** Any two setter calls commute. */
  lemma SettersCommute(p: uint32, a: Setter, b: Setter)
    requires Admissible(a) && Admissible(b)
    ensures Apply(Apply(p, a), b) == Apply(Apply(p, b), a)
  {
    OrAssoc(p, BitsOf(a), BitsOf(b));
    OrAssoc(p, BitsOf(b), BitsOf(a));
    OrComm(BitsOf(a), BitsOf(b));
  }

  /** The word after the setter calls `ops`, in order. */
  function ApplyAll(p: uint32, ops: seq<Setter>): uint32
    requires forall k :: 0 <= k < |ops| ==> Admissible(ops[k])
    decreases |ops|
  {
    if ops == [] then p else ApplyAll(Apply(p, ops[0]), ops[1..])
  }

  /** The OR of all the bits the calls `ops` set. */
  function BitsOfAll(ops: seq<Setter>): nat {
    if ops == [] then 0 else BitOr(BitsOf(ops[0]), BitsOfAll(ops[1..]))
  }

  /** Running the setters only ORs their bits in. */
  lemma {:induction false} ApplyAllIsOr(p: uint32, ops: seq<Setter>)
    requires forall k :: 0 <= k < |ops| ==> Admissible(ops[k])
    ensures ApplyAll(p, ops) == BitOr(p, BitsOfAll(ops))
    decreases |ops|
  {
    if ops == [] {
      OrZero(p);
    } else {
      ApplyAllIsOr(Apply(p, ops[0]), ops[1..]);
      OrAssoc(p, BitsOf(ops[0]), BitsOfAll(ops[1..]));
    }
  }

  /** Removing the call at position `k` leaves the other calls' bits. */
  lemma {:induction false} BitsOfAllRemove(ops: seq<Setter>, k: nat)
    requires k < |ops|
    ensures BitsOfAll(ops) == BitOr(BitsOf(ops[k]), BitsOfAll(ops[..k] + ops[k + 1..]))
    decreases k
  {
    if k > 0 {
      var tail := ops[1..];
      var rest := tail[..k - 1] + tail[k..];
      BitsOfAllRemove(tail, k - 1);
      assert ops[..k] + ops[k + 1..] == [ops[0]] + rest;
      assert (ops[..k] + ops[k + 1..])[1..] == rest;
      OrAssoc(BitsOf(ops[0]), BitsOf(ops[k]), BitsOfAll(rest));
      OrAssoc(BitsOf(ops[k]), BitsOf(ops[0]), BitsOfAll(rest));
      OrComm(BitsOf(ops[0]), BitsOf(ops[k]));
    } else {
      assert ops[..0] + ops[1..] == ops[1..];
    }
  }

  /** The order of the calls does not matter. */
  lemma {:induction false} BitsOfAllPermutation(xs: seq<Setter>, ys: seq<Setter>)
    requires multiset(xs) == multiset(ys)
    ensures BitsOfAll(xs) == BitsOfAll(ys)
    decreases |xs|
  {
    if xs == [] {
      assert |ys| == |multiset(ys)| == 0;
    } else {
      assert xs[0] in multiset(ys);
      var k :| 0 <= k < |ys| && ys[k] == xs[0];
      var rest := ys[..k] + ys[k + 1..];
      assert ys == ys[..k] + [ys[k]] + ys[k + 1..];
      assert multiset(ys) == multiset(ys[..k]) + multiset{ys[k]} + multiset(ys[k + 1..]);
      assert xs == [xs[0]] + xs[1..];
      assert multiset(xs) == multiset{xs[0]} + multiset(xs[1..]);
      assert multiset(rest) == multiset(ys[..k]) + multiset(ys[k + 1..]);
      assert multiset(xs[1..]) == multiset(xs) - multiset{xs[0]};
      assert multiset(rest) == multiset(ys) - multiset{ys[k]};
      BitsOfAllPermutation(xs[1..], rest);
      BitsOfAllRemove(ys, k);
    }
  }

  /** The three setters called once each on a fresh word, in declaration order. */
  lemma CanonicalFields(idx: uint32, m: AlphaMode, b: bool)
    requires idx < MaxMaterials
    ensures GpuBufferIndexOf(OrDoubleSided(OrAlphaMode(OrIndex(0, idx), m), b)) == idx
    ensures IsDoubleSidedOf(OrDoubleSided(OrAlphaMode(OrIndex(0, idx), m), b)) == b
    ensures AlphaBitsOf(OrDoubleSided(OrAlphaMode(OrIndex(0, idx), m), b)) == Code(m)
  {
    var p1 := OrIndex(0, idx);
    var p2 := OrAlphaMode(p1, m);
    ZeroFields(28, 28);
    ZeroFields(30, 2);
    IndexSetterFields(0, idx);
    AlphaSetterFields(p1, m);
    FlagSetterFields(p2, b);
    if !b {
      assert !IsDoubleSidedOf(p2);
    }
  }

  /**
   * Round trip on a fresh material (`Packed == 0`): whatever order the
   * three setters are called in, the index, the alpha mode and the
   * double-sided flag read back as set.
   */
  lemma RoundTrip(ops: seq<Setter>, idx: uint32, m: AlphaMode, b: bool)
    requires idx < MaxMaterials
    requires multiset(ops) == multiset{SetIndex(idx), SetAlpha(m), SetDouble(b)}
    ensures forall k :: 0 <= k < |ops| ==> Admissible(ops[k])
    ensures ApplyAll(0, ops) == OrDoubleSided(OrAlphaMode(OrIndex(0, idx), m), b)
  {
    forall k | 0 <= k < |ops| ensures Admissible(ops[k]) {
      assert ops[k] in multiset(ops);
    }
    var canonical := [SetIndex(idx), SetAlpha(m), SetDouble(b)];
    assert forall k :: 0 <= k < |canonical| ==> Admissible(canonical[k]);
    ApplyAllIsOr(0, ops);
    ApplyAllIsOr(0, canonical);
    BitsOfAllPermutation(ops, canonical);
    CanonicalApply(idx, m, b);
  }

  /** Three setter calls in a row. */
  lemma ApplyThree(p: uint32, x: Setter, y: Setter, z: Setter)
    requires Admissible(x) && Admissible(y) && Admissible(z)
    ensures ApplyAll(p, [x, y, z]) == Apply(Apply(Apply(p, x), y), z)
  {
    var ops := [x, y, z];
    assert ops[1..] == [y, z];
    assert [y, z][1..] == [z];
    assert [z][1..] == [];
    calc {
      ApplyAll(p, ops);
      ApplyAll(Apply(p, x), [y, z]);
      ApplyAll(Apply(Apply(p, x), y), [z]);
      ApplyAll(Apply(Apply(Apply(p, x), y), z), []);
    }
  }

  lemma CanonicalApply(idx: uint32, m: AlphaMode, b: bool)
    requires idx < MaxMaterials
    ensures ApplyAll(0, [SetIndex(idx), SetAlpha(m), SetDouble(b)])
         == OrDoubleSided(OrAlphaMode(OrIndex(0, idx), m), b)
  {
    ApplyThree(0, SetIndex(idx), SetAlpha(m), SetDouble(b));
  }

  // ---------------------------------------------------------------------
  // The material record

  class Material {
    var BaseColorTexture: uint32
    var NormalTexture: uint32
    var MetalnessRoughnessTexture: uint32
    var EmissiveTexture: uint32
    /** Low 28 bits: material-buffer index; bits 28-29: alpha mode; bit 30: double-sided. */
    var Packed: uint32

    /** Every texture slot empty, nothing packed. */
    constructor ()
      ensures Packed == 0
      ensures BaseColorTexture == NoTexture && NormalTexture == NoTexture
      ensures MetalnessRoughnessTexture == NoTexture && EmissiveTexture == NoTexture
    {
      BaseColorTexture := NoTexture;
      MetalnessRoughnessTexture := NoTexture;
      NormalTexture := NoTexture;
      EmissiveTexture := NoTexture;
      Packed := 0;
    }

    method SetGpuBufferIndex(idx: uint32)
      requires idx < MaxMaterials
      modifies this`Packed
      ensures Packed == OrIndex(old(Packed), idx)
    {
      Packed := OrIndex(Packed, idx);
    }

    method SetAlphaMode(mode: AlphaMode)
      modifies this`Packed
      ensures Packed == OrAlphaMode(old(Packed), mode)
    {
      Packed := OrAlphaMode(Packed, mode);
    }

    method SetDoubleSided(b: bool)
      modifies this`Packed
      ensures Packed == OrDoubleSided(old(Packed), b)
    {
      Packed := OrDoubleSided(Packed, b);
    }

    function GpuBufferIndex(): uint32
      reads this
    {
      GpuBufferIndexOf(Packed)
    }

    function IsDoubleSided(): bool
      reads this
    {
      IsDoubleSidedOf(Packed)
    }
  }

  /** A fresh material with the three setters called once each, the flag first, reads back what was set. */
  method ConfigureFresh(idx: uint32, m: AlphaMode, b: bool) returns (mat: Material)
    requires idx < MaxMaterials
    ensures fresh(mat)
    ensures mat.GpuBufferIndex() == idx && mat.IsDoubleSided() == b
    ensures AlphaBitsOf(mat.Packed) == Code(m)
  {
    mat := new Material();
    mat.SetDoubleSided(b);
    mat.SetGpuBufferIndex(idx);
    mat.SetAlphaMode(m);
    SettersCommute(0, SetDouble(b), SetIndex(idx));
    SettersCommute(OrIndex(0, idx), SetDouble(b), SetAlpha(m));
    CanonicalFields(idx, m, b);
  }
}

/** How an address is taken apart: controller, rank and bank are bit fields, each exclusive-ored with higher
    address bits; the page number is the address with the three fields cut out and the page offset dropped. */
module Address {
  import opened Numbers

  // ---------------------------------------------------------------- bits

  function Pow2(k: nat): (p: nat)
    ensures p > 0
  {
    if k == 0 then 1 else 2 * Pow2(k - 1)
  }

  function Div(a: nat, d: nat): nat
    requires d > 0
  {
    a / d
  }

  function Mod(a: nat, d: nat): nat
    requires d > 0
  {
    a % d
  }

  /** a >> k */
  function Shr(a: nat, k: nat): nat { Div(a, Pow2(k)) }

  /** a % (1 << k) */
  function Low(a: nat, k: nat): nat { Mod(a, Pow2(k)) }

  /** (hi << k) + lo */
  function Join(lo: nat, k: nat, hi: nat): nat { hi * Pow2(k) + lo }

  function Xor(a: nat, b: nat): nat
    decreases a + b
  {
    if a == 0 then b else if b == 0 then a else 2 * Xor(a / 2, b / 2) + if a % 2 == b % 2 then 0 else 1
  }

  lemma DivMod(a: nat, d: nat)
    requires d > 0
    ensures a == Div(a, d) * d + Mod(a, d) && Mod(a, d) < d
  {
  }

  lemma Divided(a: nat, d: nat, q: nat, r: nat)
    requires d > 0 && a == q * d + r && r < d
    ensures a / d == q && a % d == r
  {
    var q', r' := a / d, a % d;
    assert (q - q') * d == r' - r;
    if q > q' { AtLeastOnce(q - q', d); }
    if q < q' { AtLeastOnce(q' - q, d); }
  }

  /** The first bit apart. */
  lemma OneBit(a: nat, k: nat)
    requires k > 0
    ensures Shr(a, k) == Shr(a / 2, k - 1) && Low(a, k) == a % 2 + 2 * Low(a / 2, k - 1)
  {
    var m := Pow2(k - 1);
    var q, r := (a / 2) / m, (a / 2) % m;
    assert a / 2 == q * m + r;
    assert a == q * (2 * m) + (2 * r + a % 2);
    Divided(a, 2 * m, q, 2 * r + a % 2);
  }

  lemma Rebuild(a: nat, k: nat)
    ensures a == Join(Low(a, k), k, Shr(a, k)) && Low(a, k) < Pow2(k)
  {
    DivMod(a, Pow2(k));
  }

  lemma Parts(lo: nat, k: nat, hi: nat)
    requires lo < Pow2(k)
    ensures Shr(Join(lo, k, hi), k) == hi && Low(Join(lo, k, hi), k) == lo
  {
    Divided(Join(lo, k, hi), Pow2(k), hi, lo);
  }

  lemma {:induction false} ShrShr(a: nat, i: nat, j: nat)
    ensures Shr(Shr(a, i), j) == Shr(a, i + j)
  {
    if i == 0 {
      assert Shr(a, 0) == a;
    } else {
      OneBit(a, i);
      OneBit(a, i + j);
      ShrShr(a / 2, i - 1, j);
    }
  }

  lemma {:induction false} LowLow(a: nat, i: nat, j: nat)
    requires i <= j
    ensures Low(Low(a, j), i) == Low(a, i)
  {
    if i > 0 {
      OneBit(a, j);
      OneBit(a, i);
      var l := Low(a, j);
      OneBit(l, i);
      assert l / 2 == Low(a / 2, j - 1) && l % 2 == a % 2;
      LowLow(a / 2, i - 1, j - 1);
    }
  }

  /** A field is the low bits of what lies above its base, and the low bits up to its end determine it. */
  lemma {:induction false} FieldInLow(a: nat, base: nat, bits: nat)
    ensures Low(Shr(a, base), bits) == Shr(Low(a, base + bits), base)
  {
    if base == 0 {
      assert Shr(a, 0) == a && Shr(Low(a, bits), 0) == Low(a, bits);
    } else {
      OneBit(a, base);
      OneBit(a, base + bits);
      var l := Low(a, base + bits);
      OneBit(l, base);
      assert l / 2 == Low(a / 2, base + bits - 1);
      FieldInLow(a / 2, base - 1, bits);
    }
  }

  lemma {:induction false} XorUndo(a: nat, b: nat)
    ensures Xor(Xor(a, b), b) == a
    decreases a + b
  {
    if a == 0 {
      if b != 0 {
        assert Xor(0, b) == b;
        XorSelf(b);
      }
    } else if b != 0 {
      XorUndo(a / 2, b / 2);
      var x := Xor(a, b);
      assert x / 2 == Xor(a / 2, b / 2) && x % 2 == if a % 2 == b % 2 then 0 else 1;
      XorBit(x, b);
    }
  }

  lemma {:induction false} XorSelf(b: nat)
    ensures Xor(b, b) == 0
  {
    if b > 0 { XorSelf(b / 2); }
  }

  lemma XorBit(a: nat, b: nat)
    ensures Xor(a, b) == 2 * Xor(a / 2, b / 2) + if a % 2 == b % 2 then 0 else 1
  {
  }

  lemma XorParts(a: nat, b: nat)
    ensures Xor(a, b) / 2 == Xor(a / 2, b / 2) && Xor(a, b) % 2 == if a % 2 == b % 2 then 0 else 1
  {
    hide Xor;
    XorBit(a, b);
  }

  /** Exclusive or works bit by bit: its low bits are those of its arguments. */
  lemma {:induction false} XorLow(a: nat, b: nat, k: nat)
    ensures Low(Xor(a, b), k) == Xor(Low(a, k), Low(b, k))
  {
    if k == 0 {
      assert Low(a, 0) == 0 && Low(b, 0) == 0 && Low(Xor(a, b), 0) == 0 && Xor(0, 0) == 0;
    } else {
      XorLow(a / 2, b / 2, k - 1);
      XorLowStep(a, b, k);
    }
  }

  lemma XorLowStep(a: nat, b: nat, k: nat)
    requires k > 0 && Low(Xor(a / 2, b / 2), k - 1) == Xor(Low(a / 2, k - 1), Low(b / 2, k - 1))
    ensures Low(Xor(a, b), k) == Xor(Low(a, k), Low(b, k))
  {
    hide Low, Xor;
    LowHalf(Xor(a, b), k);
    XorParts(a, b);
    LowHalf(a, k);
    LowHalf(b, k);
    XorBit(Low(a, k), Low(b, k));
  }

  lemma LowHalf(a: nat, k: nat)
    requires k > 0
    ensures Low(a, k) % 2 == a % 2 && Low(a, k) / 2 == Low(a / 2, k - 1)
    ensures Low(a, k) == a % 2 + 2 * Low(a / 2, k - 1)
  {
    OneBit(a, k);
  }

  // ---------------------------------------------------------------- taking an address apart

  datatype Field = Field(base: nat, bits: nat)

  /** The address bits of a field, before the exclusive or. */
  function Raw(a: nat, f: Field): nat { Low(Shr(a, f.base), f.bits) }

  /** get_rank_num, get_bank_num and which_mc: ((a >> base) ^ (a >> xorBase)) % width. */
  function Value(a: nat, f: Field, xorBase: nat): nat { Low(Xor(Shr(a, f.base), Shr(a, xorBase)), f.bits) }

  /** One step of get_page_num: (((a >> base) / width) << base) + (a % (1 << base)). */
  function Cut(a: nat, f: Field): nat { Join(Low(a, f.base), f.base, Shr(a, f.base) / Pow2(f.bits)) }

  /** The three fields, and which of them is which.  The fields are cut from the highest down. */
  datatype Layout = Layout(f0: Field, f1: Field, f2: Field, pageBits: nat, xorBase: nat)

  function PageNumber(a: nat, l: Layout): nat { Shr(Cut(Cut(Cut(a, l.f0), l.f1), l.f2), l.pageBits) }

  /** Fields do not overlap, the page offset lies below them and the bits to mix in above. */
  predicate Proper(l: Layout) {
    && l.pageBits <= l.f2.base && l.f2.base + l.f2.bits <= l.f1.base
    && l.f1.base + l.f1.bits <= l.f0.base && l.f0.base + l.f0.bits <= l.xorBase
  }

  lemma CutIs(a: nat, f: Field)
    ensures Cut(a, f) == Join(Low(a, f.base), f.base, Shr(a, f.base + f.bits))
  {
    ShrShr(a, f.base, f.bits);
  }

  /** Cutting leaves the bits below the field and moves those above it down. */
  lemma CutLow(a: nat, f: Field, k: nat)
    requires k <= f.base
    ensures Low(Cut(a, f), k) == Low(a, k)
  {
    Rebuild(a, f.base);
    CutIs(a, f);
    Parts(Low(a, f.base), f.base, Shr(a, f.base + f.bits));
    LowLow(Cut(a, f), k, f.base);
    LowLow(a, k, f.base);
  }

  lemma CutHigh(a: nat, f: Field, k: nat)
    requires k >= f.base
    ensures Shr(Cut(a, f), k) == Shr(a, k + f.bits)
  {
    Rebuild(a, f.base);
    CutIs(a, f);
    Parts(Low(a, f.base), f.base, Shr(a, f.base + f.bits));
    ShrShr(Cut(a, f), f.base, k - f.base);
    ShrShr(a, f.base + f.bits, k - f.base);
  }

  /** What is left, and the field, are the whole address. */
  lemma Uncut(a: nat, b: nat, f: Field)
    requires Cut(a, f) == Cut(b, f) && Raw(a, f) == Raw(b, f)
    ensures a == b
  {
    CutLow(a, f, f.base);
    CutLow(b, f, f.base);
    CutHigh(a, f, f.base);
    CutHigh(b, f, f.base);
    ShrShr(a, f.base, f.bits);
    ShrShr(b, f.base, f.bits);
    Rebuild(Shr(a, f.base), f.bits);
    Rebuild(Shr(b, f.base), f.bits);
    Rebuild(a, f.base);
    Rebuild(b, f.base);
  }

  /** A field below everything that is cut is still there. */
  lemma RawBelow(a: nat, g: Field, f: Field)
    requires f.base + f.bits <= g.base
    ensures Raw(Cut(a, g), f) == Raw(a, f)
  {
    FieldInLow(a, f.base, f.bits);
    FieldInLow(Cut(a, g), f.base, f.bits);
    CutLow(a, g, f.base + f.bits);
  }

  /** The exclusive or can be undone once the higher bits are known. */
  lemma RawFromValue(a: nat, b: nat, f: Field, xorBase: nat)
    requires Value(a, f, xorBase) == Value(b, f, xorBase) && Shr(a, xorBase) == Shr(b, xorBase)
    ensures Raw(a, f) == Raw(b, f)
  {
    var h := Shr(a, xorBase);
    XorLow(Shr(a, f.base), h, f.bits);
    XorLow(Shr(b, f.base), h, f.bits);
    XorUndo(Raw(a, f), Low(h, f.bits));
    XorUndo(Raw(b, f), Low(h, f.bits));
  }

  lemma {:induction false} XorSwap(a: nat, b: nat)
    ensures Xor(a, b) == Xor(b, a)
    decreases a + b
  {
    if a > 0 && b > 0 { XorSwap(a / 2, b / 2); }
  }

  /** The address bits that are mixed into a field. */
  function Mixed(a: nat, f: Field, xorBase: nat): nat { Low(Shr(a, xorBase), f.bits) }

  /** What the exclusive or is for: addresses that agree in a field go to the same rank (bank, controller) if and only
      if the bits mixed in agree too, so rows that used to collide are spread; with those bits zero the field stays. */
  lemma RowsSpread(a: nat, b: nat, f: Field, xorBase: nat)
    requires Raw(a, f) == Raw(b, f)
    ensures Value(a, f, xorBase) == Value(b, f, xorBase) <==> Mixed(a, f, xorBase) == Mixed(b, f, xorBase)
    ensures Mixed(a, f, xorBase) == 0 ==> Value(a, f, xorBase) == Raw(a, f)
  {
    var raw, x, y := Raw(a, f), Mixed(a, f, xorBase), Mixed(b, f, xorBase);
    XorLow(Shr(a, f.base), Shr(a, xorBase), f.bits);
    XorLow(Shr(b, f.base), Shr(b, xorBase), f.bits);
    XorSwap(raw, x);
    XorSwap(raw, y);
    XorUndo(x, raw);
    XorUndo(y, raw);
  }

  lemma PageHoldsTheRest(a: nat, b: nat, l: Layout)
    requires Proper(l) && PageNumber(a, l) == PageNumber(b, l) && Low(a, l.pageBits) == Low(b, l.pageBits)
    ensures Cut(Cut(Cut(a, l.f0), l.f1), l.f2) == Cut(Cut(Cut(b, l.f0), l.f1), l.f2)
  {
    OffsetStays(a, l);
    OffsetStays(b, l);
    Rebuild(Cut(Cut(Cut(a, l.f0), l.f1), l.f2), l.pageBits);
    Rebuild(Cut(Cut(Cut(b, l.f0), l.f1), l.f2), l.pageBits);
  }

  lemma OffsetStays(a: nat, l: Layout)
    requires Proper(l)
    ensures Low(Cut(Cut(Cut(a, l.f0), l.f1), l.f2), l.pageBits) == Low(a, l.pageBits)
  {
    CutLow(a, l.f0, l.pageBits);
    CutLow(Cut(a, l.f0), l.f1, l.pageBits);
    CutLow(Cut(Cut(a, l.f0), l.f1), l.f2, l.pageBits);
  }

  /** The bits that are mixed in are part of the page number. */
  lemma MixedIn(a: nat, l: Layout)
    requires Proper(l)
    ensures Shr(a, l.xorBase) == Shr(Cut(Cut(Cut(a, l.f0), l.f1), l.f2), l.xorBase - l.f0.bits - l.f1.bits - l.f2.bits)
  {
    var x0 := l.xorBase - l.f0.bits;
    var x1 := x0 - l.f1.bits;
    var x2 := x1 - l.f2.bits;
    CutHigh(a, l.f0, x0);
    CutHigh(Cut(a, l.f0), l.f1, x1);
    CutHigh(Cut(Cut(a, l.f0), l.f1), l.f2, x2);
  }

  /** The three field values, the page number and the page offset determine the address. */
  lemma DecompositionIsInjective(a: nat, b: nat, l: Layout)
    requires Proper(l)
    requires Value(a, l.f0, l.xorBase) == Value(b, l.f0, l.xorBase)
    requires Value(a, l.f1, l.xorBase) == Value(b, l.f1, l.xorBase)
    requires Value(a, l.f2, l.xorBase) == Value(b, l.f2, l.xorBase)
    requires PageNumber(a, l) == PageNumber(b, l) && Low(a, l.pageBits) == Low(b, l.pageBits)
    ensures a == b
  {
    PageHoldsTheRest(a, b, l);
    MixedIn(a, l);
    MixedIn(b, l);
    RawFromValue(a, b, l.f0, l.xorBase);
    RawFromValue(a, b, l.f1, l.xorBase);
    RawFromValue(a, b, l.f2, l.xorBase);
    var a0, b0 := Cut(a, l.f0), Cut(b, l.f0);
    RawBelow(a, l.f0, l.f1);
    RawBelow(b, l.f0, l.f1);
    RawBelow(a, l.f0, l.f2);
    RawBelow(b, l.f0, l.f2);
    RawBelow(a0, l.f1, l.f2);
    RawBelow(b0, l.f1, l.f2);
    Uncut(Cut(a0, l.f1), Cut(b0, l.f1), l.f2);
    Uncut(a0, b0, l.f1);
    Uncut(a, b, l.f0);
  }

  // ---------------------------------------------------------------- with the controller's parameters

  /** The constructor's three interleavers, kept by base; of equal bases the one inserted first comes first. */
  function Sorted(rank: Field, bank: Field, mc: Field, pageBits: nat, xorBase: nat): Layout {
    if rank.base <= bank.base then
      if bank.base <= mc.base then Layout(mc, bank, rank, pageBits, xorBase)
      else if rank.base <= mc.base then Layout(bank, mc, rank, pageBits, xorBase)
      else Layout(bank, rank, mc, pageBits, xorBase)
    else
      if rank.base <= mc.base then Layout(mc, rank, bank, pageBits, xorBase)
      else if bank.base <= mc.base then Layout(rank, mc, bank, pageBits, xorBase)
      else Layout(rank, bank, mc, pageBits, xorBase)
  }

  predicate Disjoint(f: Field, g: Field) { f.base + f.bits <= g.base || g.base + g.bits <= f.base }

  /** Sorting brings any three disjoint fields between the page offset and the mixed-in bits into the order to cut. */
  lemma SortedIsProper(rank: Field, bank: Field, mc: Field, pageBits: nat, xorBase: nat)
    requires rank.base != bank.base && rank.base != mc.base && bank.base != mc.base
    ensures Proper(Sorted(rank, bank, mc, pageBits, xorBase)) <==>
      && Disjoint(rank, bank) && Disjoint(rank, mc) && Disjoint(bank, mc)
      && forall f :: f in {rank, bank, mc} ==> pageBits <= f.base && f.base + f.bits <= xorBase
    ensures var l := Sorted(rank, bank, mc, pageBits, xorBase); {l.f0, l.f1, l.f2} == {rank, bank, mc}
  {
    var l := Sorted(rank, bank, mc, pageBits, xorBase);
    assert rank in {rank, bank, mc} && bank in {rank, bank, mc} && mc in {rank, bank, mc};
    assert {l.f0, l.f1, l.f2} == {rank, bank, mc};
  }

  /** Two addresses with the same controller, rank, bank, page and offset are the same address. */
  lemma AddressesDiffer(a: nat, b: nat, rank: Field, bank: Field, mc: Field, pageBits: nat, xorBase: nat)
    requires Proper(Sorted(rank, bank, mc, pageBits, xorBase)) && a != b
    ensures
      var l := Sorted(rank, bank, mc, pageBits, xorBase);
      || Value(a, mc, xorBase) != Value(b, mc, xorBase)
      || Value(a, rank, xorBase) != Value(b, rank, xorBase)
      || Value(a, bank, xorBase) != Value(b, bank, xorBase)
      || PageNumber(a, l) != PageNumber(b, l)
      || Low(a, pageBits) != Low(b, pageBits)
  {
    var l := Sorted(rank, bank, mc, pageBits, xorBase);
    if Value(a, mc, xorBase) == Value(b, mc, xorBase) && Value(a, rank, xorBase) == Value(b, rank, xorBase)
       && Value(a, bank, xorBase) == Value(b, bank, xorBase)
       && PageNumber(a, l) == PageNumber(b, l) && Low(a, pageBits) == Low(b, pageBits)
    {
      DecompositionIsInjective(a, b, l);
    }
  }
}

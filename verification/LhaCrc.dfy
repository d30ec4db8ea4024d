/** The archive's CRC as what it is: the remainder of the data, taken as a
    polynomial over the two-element field, by x^16 + x^15 + x^2 + 1. */
module LhaCrc {
  import opened Octets
  import opened Lha

  /** Coefficients, the highest power first. */
  type Poly = seq<bool>

  function Zeros(n: nat): (z: Poly)
    ensures |z| == n
  {
    seq(n, _ => false)
  }

  /** The sum of two polynomials, which is also their difference. */
  function Plus(a: Poly, b: Poly): (r: Poly)
    requires |a| == |b|
    ensures |r| == |a|
  {
    seq(|a|, i requires 0 <= i < |a| => a[i] != b[i])
  }

  /** x^16 + x^15 + x^2 + 1. */
  const GENERATOR: Poly := [true] + [true] + Zeros(12) + [true, false, true]

  /** The product of `q` and the generator. */
  function Times(q: Poly): (r: Poly)
    ensures |r| == |q| + 16
  {
    if q == [] then Zeros(16)
    else
      var front := q[..|q| - 1];
      Plus(Times(front) + [false], Zeros(|front|) + (if q[|q| - 1] then GENERATOR else Zeros(17)))
  }

  // ------------------------------------------------------------------ bits

  const MASKS: seq<bv16> :=
    [1, 2, 4, 8, 0x10, 0x20, 0x40, 0x80, 0x100, 0x200, 0x400, 0x800, 0x1000, 0x2000, 0x4000, 0x8000]

  predicate Bit(v: bv16, mask: bv16) { v & mask != 0 }

  /** The register with its lowest bit first: that is the power x^15. */
  function Register(v: bv16): (r: Poly)
    ensures |r| == 16
  {
    seq(16, i requires 0 <= i < 16 => Bit(v, MASKS[i]))
  }

  /** An octet, lowest bit first, as the archive format reads its data. */
  function Byte(c: Octet): (r: Poly)
    ensures |r| == 8
  {
    Register(c as bv16)[..8]
  }

  function Bits(data: seq<Octet>): (r: Poly)
    ensures |r| == 8 * |data|
  {
    if data == [] then [] else Bits(data[..|data| - 1]) + Byte(data[|data| - 1])
  }

  lemma OneBit(v: bv16, w: bv16, mask: bv16)
    requires mask & (mask - 1) == 0 && mask != 0
    ensures Bit(v ^ w, mask) == (Bit(v, mask) != Bit(w, mask))
  {
  }

  lemma NextBit(v: bv16, mask: bv16)
    requires mask < 0x8000
    ensures Bit(v >> 1, mask) == Bit(v, mask << 1)
  {
  }

  lemma MaskIs(i: nat)
    requires i < 16
    ensures |MASKS| == 16 && MASKS[i] & (MASKS[i] - 1) == 0 && MASKS[i] != 0
    ensures i < 15 ==> MASKS[i] < 0x8000 && MASKS[i] << 1 == MASKS[i + 1]
  {
  }

  lemma RegisterPlus(v: bv16, w: bv16)
    ensures Register(v ^ w) == Plus(Register(v), Register(w))
  {
    hide Bit, MASKS;
    forall i | 0 <= i < 16 ensures Register(v ^ w)[i] == Plus(Register(v), Register(w))[i] {
      MaskIs(i);
      OneBit(v, w, MASKS[i]);
    }
  }

  lemma Halved(v: bv16)
    ensures Register(v >> 1) == Register(v)[1..] + [false]
  {
    hide Bit, MASKS;
    TopClear(v);
    forall i | 0 <= i < 16 ensures Register(v >> 1)[i] == (Register(v)[1..] + [false])[i] {
      MaskIs(i);
      if i < 15 { NextBit(v, MASKS[i]); }
    }
  }

  lemma TopClear(v: bv16)
    ensures !Bit(v >> 1, MASKS[15])
  {
  }

  lemma Taps()
    ensures Register(0xA001) == GENERATOR[1..]
  {
    assert GENERATOR[1..] == [true] + Zeros(12) + [true, false, true];
  }

  lemma LowBit(v: bv16)
    ensures (v & 1 == 1) == Register(v)[0]
  {
  }

  /** An octet fills the low half of the register only. */
  lemma OctetLow(c: Octet)
    ensures Register(c as bv16) == Byte(c) + Zeros(8)
  {
    hide MASKS, Bit;
    OctetSmall(c);
    MaskIs(0);
    var b := c as bv16;
    forall i | 8 <= i < 16 ensures !Register(b)[i] { HighClear(b, i); }
  }

  lemma OctetSmall(c: Octet)
    ensures c as bv16 < 256
  {
    var b := c as bv16;
    assert b >= 256 ==> b as int >= 256;
  }

  lemma HighClear(b: bv16, i: nat)
    requires b < 256 && 8 <= i < 16
    ensures !Bit(b, MASKS[i])
  {
  }

  // --------------------------------------------------------------- division

  /** One shift of the register: the bit that leaves decides. */
  function Shift(r: Poly): (n: Poly)
    requires |r| == 16
    ensures |n| == 16
  {
    var moved := r[1..] + [false];
    if r[0] then Plus(moved, GENERATOR[1..]) else moved
  }

  lemma ShiftIs(v: bv16)
    ensures Register(if v & 1 == 1 then (v >> 1) ^ 0xA001 else v >> 1) == Shift(Register(v))
  {
    hide Register, GENERATOR;
    LowBit(v);
    Halved(v);
    RegisterPlus(v >> 1, 0xA001);
    Taps();
  }

  function Shifts(r: Poly, n: nat): (s: Poly)
    requires |r| == 16
    ensures |s| == 16
    decreases n
  {
    if n == 0 then r else Shifts(Shift(r), n - 1)
  }

  lemma {:induction false} CrcBitsIs(v: bv16, n: nat)
    ensures Register(CrcBits(v, n)) == Shifts(Register(v), n)
    decreases n
  {
    hide Register, Shift;
    if n > 0 {
      ShiftIs(v);
      CrcBitsIs(if v & 1 == 1 then (v >> 1) ^ 0xA001 else v >> 1, n - 1);
    }
  }

  /** The division: `r` is what is left of `s` times x^16 without `q` times the
      generator. */
  ghost predicate Leaves(s: Poly, q: Poly, r: Poly) {
    |q| == |s| && |r| == 16 && Plus(s + Zeros(16), Times(q)) == Zeros(|s|) + r
  }

  /** The bits still in the register: those of `m` not yet taken are added ahead. */
  lemma {:induction false} Divide(s: Poly, q: Poly, r: Poly, m: Poly) returns (more: Poly)
    requires |r| == 16 && Leaves(s, q, r) && |m| <= 16
    ensures Leaves(s + m, q + more, Shifts(Plus(r, m + Zeros(16 - |m|)), |m|))
    decreases |m|
  {
    hide Leaves, Shift, Plus, Zeros;
    var now := Plus(r, m + Zeros(16 - |m|));
    if m == [] {
      more := [];
      NothingAdded(r);
      assert s + m == s && q + more == q;
      assert [] + Zeros(16) == Zeros(16);
    } else {
      DivideOne(s, q, r, m[0]);
      assert |m[1..]| == |m| - 1;
      var next := Shift(Plus(r, [m[0]] + Zeros(15)));
      ShiftLinear(r, m);
      var rest := Divide(s + [m[0]], q + [now[0]], next, m[1..]);
      more := [now[0]] + rest;
      assert s + [m[0]] + m[1..] == s + m && q + [now[0]] + rest == q + more;
    }
  }

  lemma NothingAdded(r: Poly)
    ensures Plus(r, Zeros(|r|)) == r
  {
  }

  /** Adding the later bits before or after the shift is the same. */
  lemma ShiftLinear(r: Poly, m: Poly)
    requires |r| == 16 && 0 < |m| <= 16
    ensures Shift(Plus(r, m + Zeros(16 - |m|)))
            == Plus(Shift(Plus(r, [m[0]] + Zeros(15))), m[1..] + Zeros(16 - |m[1..]|))
    ensures Plus(r, m + Zeros(16 - |m|))[0] == Plus(r, [m[0]] + Zeros(15))[0]
  {
    hide GENERATOR;
  }

  lemma DivideOne(s: Poly, q: Poly, r: Poly, b: bool)
    requires Leaves(s, q, r)
    ensures var now := Plus(r, [b] + Zeros(15)); Leaves(s + [b], q + [now[0]], Shift(now))
  {
    hide GENERATOR, Times;
    var now := Plus(r, [b] + Zeros(15));
    var all := q + [now[0]];
    TimesMore(q, now[0]);
    GeneratorHead();
    var left := Plus((s + [b]) + Zeros(16), Times(all));
    var want := Zeros(|s| + 1) + Shift(now);
    forall i | 0 <= i < |s| + 17 ensures left[i] == want[i] { DivideAt(s, q, r, b, i); }
  }

  /** One coefficient of it. */
  lemma DivideAt(s: Poly, q: Poly, r: Poly, b: bool, i: nat)
    requires Leaves(s, q, r) && i < |s| + 17 && |GENERATOR| == 17 && GENERATOR[0]
    requires |q| == |s| && |r| == 16
    ensures var now := Plus(r, [b] + Zeros(15));
            var g := if now[0] then GENERATOR else Zeros(17);
            var times := Plus(Times(q) + [false], Zeros(|q|) + g);
            Plus((s + [b]) + Zeros(16), times)[i] == (Zeros(|s| + 1) + Shift(now))[i]
  {
    hide GENERATOR, Times, Shift, Plus, Zeros, Leaves;
    var n, t := |s|, Times(q);
    var now := Plus(r, [b] + Zeros(15));
    var g := if now[0] then GENERATOR else Zeros(17);
    ZeroAt();
    PlusAt((s + [b]) + Zeros(16), Plus(t + [false], Zeros(n) + g), i);
    PlusAt(t + [false], Zeros(n) + g, i);
    LeftAt(s, q, r, i);
    if i == n {
      PlusAt(r, [b] + Zeros(15), 0);
    } else if i > n {
      ShiftAt(r, b, i - n);
      assert (Zeros(n + 1) + Shift(now))[i] == Shift(now)[i - n - 1];
    }
  }

  lemma PlusAt(a: Poly, b: Poly, i: nat)
    requires |a| == |b| && i < |a|
    ensures Plus(a, b)[i] == (a[i] != b[i])
  {
  }

  lemma ZeroAt()
    ensures forall n: nat, i: nat :: i < n ==> !Zeros(n)[i]
  {
  }

  /** What the product is, coefficient by coefficient. */
  lemma LeftAt(s: Poly, q: Poly, r: Poly, i: nat)
    requires Leaves(s, q, r) && i < |s| + 17
    ensures (Times(q) + [false])[i] == if i < |s| then s[i] else if i < |s| + 16 then r[i - |s|] else false
  {
    hide Times, Plus, Zeros;
    ZeroAt();
    if i < |s| + 16 { PlusAt(s + Zeros(16), Times(q), i); }
  }

  lemma ShiftAt(r: Poly, b: bool, j: nat)
    requires |r| == 16 && 0 < j < 17 && |GENERATOR| == 17
    ensures var now := Plus(r, [b] + Zeros(15));
            Shift(now)[j - 1] == ((if j < 16 then r[j] else false) != (now[0] && GENERATOR[j]))
  {
    hide GENERATOR;
  }

  lemma GeneratorHead()
    ensures |GENERATOR| == 17 && GENERATOR[0]
  {
  }

  lemma TimesMore(q: Poly, b: bool)
    ensures Times(q + [b]) == Plus(Times(q) + [false], Zeros(|q|) + (if b then GENERATOR else Zeros(17)))
  {
    assert (q + [b])[..|q|] == q;
  }

  /** The CRC of any data is the remainder of its bits, followed by sixteen zeros,
      by the generator: with some quotient they differ by just that. */
  lemma {:induction false} CrcIsRemainder(data: seq<Octet>) returns (q: Poly)
    ensures Leaves(Bits(data), q, Register(Crc(data)))
  {
    hide Leaves, Register, CrcBits;
    q := [];
    if data == [] {
      NoBits();
    } else {
      var front, c := data[..|data| - 1], data[|data| - 1];
      q := CrcIsRemainder(front);
      var more := Divide(Bits(front), q, Register(Crc(front)), Byte(c));
      OctetIn(Crc(front), c);
      q := q + more;
    }
  }

  /** An octet goes into the register and through it. */
  lemma OctetIn(v: bv16, c: Octet)
    ensures Register(CrcBits(v ^ (c as bv16), 8)) == Shifts(Plus(Register(v), Byte(c) + Zeros(8)), 8)
  {
    hide Register, CrcBits, Byte, Shifts;
    OctetLow(c);
    RegisterPlus(v, c as bv16);
    CrcBitsIs(v ^ (c as bv16), 8);
  }

  lemma NoBits()
    ensures Leaves([], [], Register(0))
  {
    assert Register(0) == Zeros(16);
  }
}

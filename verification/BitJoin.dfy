/** The number that two bit patterns side by side stand for, by doubling the width of the lower one. */
module BitJoin {

  function Num(n: bv64): nat { n as nat }

  function Joined1(x: bv64, b: bv64): bv64 { (x << 1) | b }

  lemma Doubled(x: bv64)
    requires x < 0x8000_0000_0000_0000
    ensures (x << 1) as nat == 2 * x as nat
  {
  }

  lemma DoubledAndOne(x: bv64)
    requires x < 0x8000_0000_0000_0000
    ensures ((x << 1) | 1) as nat == 2 * x as nat + 1
  {
  }

  lemma OneBit(x: bv64, b: bv64)
    requires b <= 1
    ensures Joined1(x, b) == if b == 0 then x << 1 else (x << 1) | 1
    ensures b == 0 || b == 1
  {
  }

  lemma Value1(x: bv64, b: bv64)
    requires x < 0x8000_0000_0000_0000 && b <= 1
    ensures Num(Joined1(x, b)) == 2 * Num(x) + Num(b)
  {
    hide Joined1;
    OneBit(x, b);
    if b == 0 {
      Doubled(x);
    } else {
      DoubledAndOne(x);
    }
  }

  function Joined2(x: bv64, b: bv64): bv64 { (x << 2) | b }

  lemma Bits2(x: bv64, b: bv64)
    ensures (x << 2) | b == (((x << 1) | (b >> 1)) << 1) | (b & 0x1)
  {
  }

  lemma Parts2(b: bv64)
    ensures b == Joined1(b >> 1, b & 0x1)
  {
  }

  lemma Halves2(x: bv64, b: bv64)
    ensures Joined2(x, b) == Joined1(Joined1(x, b >> 1), b & 0x1)
  {
    Bits2(x, b);
  }

  lemma Fits2(x: bv64, b: bv64)
    requires x < 0x4000_0000_0000_0000 && b <= 0x3
    ensures x < 0x8000_0000_0000_0000 && b >> 1 <= 0x1 && b >> 1 < 0x8000_0000_0000_0000 && b & 0x1 <= 0x1 && Joined1(x, b >> 1) < 0x8000_0000_0000_0000
  {
  }

  lemma Value2(x: bv64, b: bv64)
    requires x < 0x4000_0000_0000_0000 && b <= 0x3
    ensures Num(Joined2(x, b)) == 0x4 * Num(x) + Num(b)
  {
    hide Num, Joined1, Joined2;
    Halves2(x, b);
    Parts2(b);
    Fits2(x, b);
    Value1(x, b >> 1);
    Value1(Joined1(x, b >> 1), b & 0x1);
    Value1(b >> 1, b & 0x1);
  }

  function Joined4(x: bv64, b: bv64): bv64 { (x << 4) | b }

  lemma Bits4(x: bv64, b: bv64)
    ensures (x << 4) | b == (((x << 2) | (b >> 2)) << 2) | (b & 0x3)
  {
  }

  lemma Parts4(b: bv64)
    ensures b == Joined2(b >> 2, b & 0x3)
  {
  }

  lemma Halves4(x: bv64, b: bv64)
    ensures Joined4(x, b) == Joined2(Joined2(x, b >> 2), b & 0x3)
  {
    Bits4(x, b);
  }

  lemma Fits4(x: bv64, b: bv64)
    requires x < 0x1000_0000_0000_0000 && b <= 0xf
    ensures x < 0x4000_0000_0000_0000 && b >> 2 <= 0x3 && b >> 2 < 0x4000_0000_0000_0000 && b & 0x3 <= 0x3 && Joined2(x, b >> 2) < 0x4000_0000_0000_0000
  {
  }

  lemma Value4(x: bv64, b: bv64)
    requires x < 0x1000_0000_0000_0000 && b <= 0xf
    ensures Num(Joined4(x, b)) == 0x10 * Num(x) + Num(b)
  {
    hide Num, Joined2, Joined4;
    Halves4(x, b);
    Parts4(b);
    Fits4(x, b);
    Value2(x, b >> 2);
    Value2(Joined2(x, b >> 2), b & 0x3);
    Value2(b >> 2, b & 0x3);
  }

  function Joined8(x: bv64, b: bv64): bv64 { (x << 8) | b }

  lemma Bits8(x: bv64, b: bv64)
    ensures (x << 8) | b == (((x << 4) | (b >> 4)) << 4) | (b & 0xf)
  {
  }

  lemma Parts8(b: bv64)
    ensures b == Joined4(b >> 4, b & 0xf)
  {
  }

  lemma Halves8(x: bv64, b: bv64)
    ensures Joined8(x, b) == Joined4(Joined4(x, b >> 4), b & 0xf)
  {
    Bits8(x, b);
  }

  lemma Fits8(x: bv64, b: bv64)
    requires x < 0x100_0000_0000_0000 && b <= 0xff
    ensures x < 0x1000_0000_0000_0000 && b >> 4 <= 0xf && b >> 4 < 0x1000_0000_0000_0000 && b & 0xf <= 0xf && Joined4(x, b >> 4) < 0x1000_0000_0000_0000
  {
  }

  lemma Value8(x: bv64, b: bv64)
    requires x < 0x100_0000_0000_0000 && b <= 0xff
    ensures Num(Joined8(x, b)) == 0x100 * Num(x) + Num(b)
  {
    hide Num, Joined4, Joined8;
    Halves8(x, b);
    Parts8(b);
    Fits8(x, b);
    Value4(x, b >> 4);
    Value4(Joined4(x, b >> 4), b & 0xf);
    Value4(b >> 4, b & 0xf);
  }

  function Joined16(x: bv64, b: bv64): bv64 { (x << 16) | b }

  lemma Bits16(x: bv64, b: bv64)
    ensures (x << 16) | b == (((x << 8) | (b >> 8)) << 8) | (b & 0xff)
  {
  }

  lemma Parts16(b: bv64)
    ensures b == Joined8(b >> 8, b & 0xff)
  {
  }

  lemma Halves16(x: bv64, b: bv64)
    ensures Joined16(x, b) == Joined8(Joined8(x, b >> 8), b & 0xff)
  {
    Bits16(x, b);
  }

  lemma Fits16(x: bv64, b: bv64)
    requires x < 0x1_0000_0000_0000 && b <= 0xffff
    ensures x < 0x100_0000_0000_0000 && b >> 8 <= 0xff && b >> 8 < 0x100_0000_0000_0000 && b & 0xff <= 0xff && Joined8(x, b >> 8) < 0x100_0000_0000_0000
  {
  }

  lemma Value16(x: bv64, b: bv64)
    requires x < 0x1_0000_0000_0000 && b <= 0xffff
    ensures Num(Joined16(x, b)) == 0x1_0000 * Num(x) + Num(b)
  {
    hide Num, Joined8, Joined16;
    Halves16(x, b);
    Parts16(b);
    Fits16(x, b);
    Value8(x, b >> 8);
    Value8(Joined8(x, b >> 8), b & 0xff);
    Value8(b >> 8, b & 0xff);
  }

  function Joined32(x: bv64, b: bv64): bv64 { (x << 32) | b }

  lemma Bits32(x: bv64, b: bv64)
    ensures (x << 32) | b == (((x << 16) | (b >> 16)) << 16) | (b & 0xffff)
  {
  }

  lemma Parts32(b: bv64)
    ensures b == Joined16(b >> 16, b & 0xffff)
  {
  }

  lemma Halves32(x: bv64, b: bv64)
    ensures Joined32(x, b) == Joined16(Joined16(x, b >> 16), b & 0xffff)
  {
    Bits32(x, b);
  }

  lemma Fits32(x: bv64, b: bv64)
    requires x < 0x1_0000_0000 && b <= 0xffff_ffff
    ensures x < 0x1_0000_0000_0000 && b >> 16 <= 0xffff && b >> 16 < 0x1_0000_0000_0000 && b & 0xffff <= 0xffff && Joined16(x, b >> 16) < 0x1_0000_0000_0000
  {
  }

  lemma Value32(x: bv64, b: bv64)
    requires x < 0x1_0000_0000 && b <= 0xffff_ffff
    ensures Num(Joined32(x, b)) == 0x1_0000_0000 * Num(x) + Num(b)
  {
    hide Num, Joined16, Joined32;
    Halves32(x, b);
    Parts32(b);
    Fits32(x, b);
    Value16(x, b >> 16);
    Value16(Joined16(x, b >> 16), b & 0xffff);
    Value16(b >> 16, b & 0xffff);
  }
}

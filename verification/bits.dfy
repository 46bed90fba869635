/**
  Bridges between 16-bit masks and shifts and integer division and remainder, used to
  read opcode fields as hexadecimal digits. Each split is done at a fixed width so the
  solver only meets constant shifts.
 */
module Bits {

  lemma DivMod(n: int, q: int, r: int, m: int)
    requires m == 16 || m == 256 || m == 4096
    requires 0 <= r < m && 0 <= q && n == q * m + r
    ensures n % m == r && n / m == q
  {
    if m == 16 {
      assert n == q * 16 + r;
    } else if m == 256 {
      assert n == q * 256 + r;
    } else {
      assert n == q * 4096 + r;
    }
  }

  lemma Join4(hi: bv16, lo: bv16)
    requires lo < 0x10 && hi < 0x1000
    ensures ((hi << 4) | lo) as int == hi as int * 16 + lo as int
  {
  }

  lemma Join8(hi: bv16, lo: bv16)
    requires lo < 0x100 && hi < 0x100
    ensures ((hi << 8) | lo) as int == hi as int * 256 + lo as int
  {
  }

  lemma Join12(hi: bv16, lo: bv16)
    requires lo < 0x1000 && hi < 0x10
    ensures ((hi << 12) | lo) as int == hi as int * 4096 + lo as int
  {
  }

  lemma Cut4(hi: bv16, lo: bv16)
    requires lo < 0x10 && hi < 0x1000
    ensures ((hi << 4) | lo) & 0xF == lo && ((hi << 4) | lo) >> 4 == hi
  {
  }

  lemma Split4(a: bv16) returns (hi: bv16, lo: bv16)
    ensures a == (hi << 4) | lo && lo < 0x10 && hi < 0x1000
  {
    hi, lo := a >> 4, a & 0xF;
  }

  lemma Widen(b: bv8)
    ensures (b as bv16) as int == b as int && b as bv16 < 0x100
  {
  }

  /** Two bytes joined high byte first: the big-endian 16-bit value. */
  lemma JoinBytes(hi: bv8, lo: bv8)
    ensures ((hi as bv16 << 8) | lo as bv16) as int == hi as int * 256 + lo as int
  {
    Widen(hi);
    Widen(lo);
    Join8(hi as bv16, lo as bv16);
  }

  /** The low 4 bits are the remainder by 16 and the rest the quotient. */
  lemma Low4(a: bv16)
    ensures (a & 0xF) as int == a as int % 16
    ensures (a >> 4) as int == a as int / 16
  {
    var hi, lo := Split4(a);
    Cut4(hi, lo);
    Join4(hi, lo);
    DivMod(a as int, hi as int, lo as int, 16);
  }

  lemma Cut8(hi: bv16, lo: bv16)
    requires lo < 0x100 && hi < 0x100
    ensures ((hi << 8) | lo) & 0xFF == lo && ((hi << 8) | lo) >> 8 == hi
  {
  }

  lemma Split8(a: bv16) returns (hi: bv16, lo: bv16)
    ensures a == (hi << 8) | lo && lo < 0x100 && hi < 0x100
  {
    hi, lo := a >> 8, a & 0xFF;
  }

  /** The low 8 bits are the remainder by 256 and the rest the quotient. */
  lemma Low8(a: bv16)
    ensures (a & 0xFF) as int == a as int % 256
    ensures (a >> 8) as int == a as int / 256
  {
    var hi, lo := Split8(a);
    Cut8(hi, lo);
    Join8(hi, lo);
    DivMod(a as int, hi as int, lo as int, 256);
  }

  lemma Cut12(hi: bv16, lo: bv16)
    requires lo < 0x1000 && hi < 0x10
    ensures ((hi << 12) | lo) & 0xFFF == lo && ((hi << 12) | lo) >> 12 == hi
  {
  }

  lemma Split12(a: bv16) returns (hi: bv16, lo: bv16)
    ensures a == (hi << 12) | lo && lo < 0x1000 && hi < 0x10
  {
    hi, lo := a >> 12, a & 0xFFF;
  }

  /** The low 12 bits are the remainder by 4096 and the rest the quotient. */
  lemma Low12(a: bv16)
    ensures (a & 0xFFF) as int == a as int % 4096
    ensures (a >> 12) as int == a as int / 4096
  {
    var hi, lo := Split12(a);
    Cut12(hi, lo);
    Join12(hi, lo);
    DivMod(a as int, hi as int, lo as int, 4096);
  }

  /** Masked fields put back together give the wider field they were cut from. */
  lemma Reassemble(op: bv16)
    ensures (op & 0xF000) | (op & 0x0FFF) == op
    ensures (((op & 0x0F00) >> 8) << 8) | (op & 0x00FF) == op & 0x0FFF
    ensures (((op & 0x00F0) >> 4) << 4) | (op & 0x000F) == op & 0x00FF
  {
  }
}

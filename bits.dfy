/**
 * Unsigned machine integers of the interpreter, as mathematical integers in range,
 * and the bitwise operators the instruction set uses on bytes (`|`, `&`, `^` on `u8`).
 */
module Bits {

  /** An unsigned 8-bit value (`u8`). */
  type Byte = x: int | 0 <= x < 0x100

  /** An unsigned 16-bit value (`u16`): instruction words, addresses, `pc`, `I`, stack entries. */
  type U16 = x: int | 0 <= x < 0x1_0000

  /** A 4-bit field of an instruction word. */
  type Nibble = x: int | 0 <= x < 0x10

  function Pow2(k: nat): (r: nat)
    ensures r > 0
  {
    if k == 0 then 1 else 2 * Pow2(k - 1)
  }

  /** Bit `k` of `v`, counting from the least significant bit. */
  predicate Bit(v: nat, k: nat)
  {
    if k == 0 then v % 2 == 1 else Bit(v / 2, k - 1)
  }

  /**
   * The low `w` bits of `a` and `b` combined bit by bit under `op`: the
   * common shape of `|`, `&` and `^`.
   */
  function Bitwise(op: (bool, bool) -> bool, a: nat, b: nat, w: nat): (r: nat)
    ensures r < Pow2(w)
  {
    if w == 0 then 0
    else 2 * Bitwise(op, a / 2, b / 2, w - 1) + (if op(a % 2 == 1, b % 2 == 1) then 1 else 0)
  }

  function Or(a: Byte, b: Byte): Byte
  {
    Bitwise((p, q) => p || q, a, b, 8)
  }

  function And(a: Byte, b: Byte): Byte
  {
    Bitwise((p, q) => p && q, a, b, 8)
  }

  function Xor(a: Byte, b: Byte): Byte
  {
    Bitwise((p, q) => p != q, a, b, 8)
  }

  /** Every bit below the width is the operator applied to the two input bits. */
  lemma {:induction false} BitwiseBit(op: (bool, bool) -> bool, a: nat, b: nat, w: nat, k: nat)
    requires k < w
    ensures Bit(Bitwise(op, a, b, w), k) == op(Bit(a, k), Bit(b, k))
  {
    var rest := Bitwise(op, a / 2, b / 2, w - 1);
    var low := if op(a % 2 == 1, b % 2 == 1) then 1 else 0;
    assert Bitwise(op, a, b, w) == 2 * rest + low;
    assert (2 * rest + low) / 2 == rest;
    if k > 0 {
      BitwiseBit(op, a / 2, b / 2, w - 1, k - 1);
    }
  }

  /** `a & b` has a bit set exactly where both `a` and `b` do. */
  lemma AndBits(a: Byte, b: Byte, k: nat)
    requires k < 8
    ensures Bit(And(a, b), k) <==> Bit(a, k) && Bit(b, k)
  {
    BitwiseBit((p, q) => p && q, a, b, 8, k);
  }

  /** `a | b` has a bit set exactly where `a` or `b` does. */
  lemma OrBits(a: Byte, b: Byte, k: nat)
    requires k < 8
    ensures Bit(Or(a, b), k) <==> Bit(a, k) || Bit(b, k)
  {
    BitwiseBit((p, q) => p || q, a, b, 8, k);
  }

  /** `a ^ b` has a bit set exactly where `a` and `b` differ. */
  lemma XorBits(a: Byte, b: Byte, k: nat)
    requires k < 8
    ensures Bit(Xor(a, b), k) <==> Bit(a, k) != Bit(b, k)
  {
    BitwiseBit((p, q) => p != q, a, b, 8, k);
  }
}

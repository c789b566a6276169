/**
 * Places where chip_8.rs and cpu.rs, read as written, do something other than
 * what the surrounding code and the instruction set evidently intend. Each
 * definition here is the code as written; the lemma beside it exhibits the
 * difference on a concrete input. The rest of the model uses the intended
 * behaviour, and the lemmas name the definitions that carry it.
 */
module AsWritten {
  import opened Bits
  import opened Isa
  import CpuSemantics
  import Chip8Semantics

  // ----- `decode`: `&` binds looser than `>>` -----

  function Both(p: bool, q: bool): bool { p && q }

  /** `a & b` on `u16`. */
  function Mask16(a: nat, b: nat): nat
  {
    Bitwise(Both, a, b, 16)
  }

  /** `a >> k`. */
  function ShiftRight(a: nat, k: nat): nat
  {
    if k == 0 then a else ShiftRight(a / 2, k - 1)
  }

  /**
   * The family, `vx` and `vy` that `decode` computes: `opcode & 0xF000 >> 12`
   * parses as `opcode & (0xF000 >> 12)`, and the same for the two fields.
   */
  function FieldsAsWritten(w: U16): (nat, nat, nat)
  {
    (Mask16(w, ShiftRight(0xF000, 12)), Mask16(w, ShiftRight(0x0F00, 8)), Mask16(w, ShiftRight(0x00F0, 4)))
  }

  lemma MulSign(d: int, k: int)
    requires d > 0
    decreases if k >= 0 then k else -k
    ensures k >= 1 ==> d * k >= d
    ensures k <= -1 ==> d * k <= -d
  {
    if k > 1 {
      MulSign(d, k - 1);
    } else if k < -1 {
      MulSign(d, k + 1);
    }
  }

  /** A quotient and a remainder in range are the ones `/` and `%` give. */
  lemma ModUnique(a: int, d: int, q: int, r: int)
    requires d > 0 && a == d * q + r && 0 <= r < d
    ensures a % d == r
  {
    var q', r' := a / d, a % d;
    MulSign(d, q - q');
    assert d * (q - q') == r' - r;
  }

  /** Dropping the low bit and reducing modulo `p` is reducing modulo `2 * p`, shifted. */
  lemma HalveMod(a: nat, p: nat)
    requires p > 0
    ensures a % (2 * p) == 2 * ((a / 2) % p) + a % 2
  {
    var q, r := (a / 2) / p, (a / 2) % p;
    assert a / 2 == p * q + r;
    assert a == (2 * p) * q + (2 * r + a % 2);
    ModUnique(a, 2 * p, q, 2 * r + a % 2);
  }

  /** `k` one bits: 2^k - 1. */
  function LowOnes(k: nat): nat
  {
    if k == 0 then 0 else 2 * LowOnes(k - 1) + 1
  }

  /** The low `k` bits of `a`. */
  function LowBits(a: nat, k: nat): nat
  {
    if k == 0 then 0 else 2 * LowBits(a / 2, k - 1) + a % 2
  }

  /** `a & 0` is 0 at every width. */
  lemma {:induction false} AndNothing(a: nat, w: nat)
    ensures Bitwise(Both, a, 0, w) == 0
  {
    if w > 0 {
      AndNothing(a / 2, w - 1);
    }
  }

  /** Masking with `k` low ones keeps the low `k` bits. */
  lemma {:induction false} AndLowOnes(a: nat, k: nat, w: nat)
    requires k <= w
    ensures Bitwise(Both, a, LowOnes(k), w) == LowBits(a, k)
  {
    if k == 0 {
      AndNothing(a, w);
    } else {
      assert LowOnes(k) / 2 == LowOnes(k - 1) && LowOnes(k) % 2 == 1;
      AndLowOnes(a / 2, k - 1, w - 1);
    }
  }

  /** The low `k` bits of `a` are `a` modulo 2^k. */
  lemma {:induction false} LowBitsMod(a: nat, k: nat)
    ensures LowBits(a, k) == a % Pow2(k)
  {
    if k > 0 {
      LowBitsMod(a / 2, k - 1);
      HalveMod(a, Pow2(k - 1));
    }
  }

  /** As written, the family, `vx` and `vy` are all the low nibble of the word. */
  lemma FieldsAsWrittenLowNibble(w: U16)
    ensures FieldsAsWritten(w) == (N(w), N(w), N(w))
  {
    NibbleMask();
    MaskLow(w, 4);
    LowNibble(w);
  }

  /** `N(w)` is `w` modulo 16. */
  lemma LowNibble(w: U16)
    ensures N(w) == w % 0x10
  {
    var q, r := w / 0x100, w % 0x100;
    assert w == 0x10 * (0x10 * q + r / 0x10) + r % 0x10;
    ModUnique(w, 0x10, 0x10 * q + r / 0x10, r % 0x10);
  }

  /** The three shifted masks of `decode` are all `0xF`, four low ones. */
  lemma NibbleMask()
    ensures ShiftRight(0xF000, 12) == 0xF && ShiftRight(0x0F00, 8) == 0xF && ShiftRight(0x00F0, 4) == 0xF
    ensures LowOnes(4) == 0xF && Pow2(4) == 0x10
  {
  }

  /** `w & (2^k - 1)` is `w` modulo 2^k. */
  lemma MaskLow(w: U16, k: nat)
    requires k <= 16
    ensures Mask16(w, LowOnes(k)) == w % Pow2(k)
  {
    AndLowOnes(w, k, 16);
    LowBitsMod(w, k);
  }

  /**
   * Every jump `1nnn` decodes to the jump, while the code as written
   * dispatches it on its low nibble: `1234` goes to `4xkk` on V4.
   */
  lemma JumpMisread(w: U16)
    requires Family(w) == 0x1
    ensures Decode(w) == Jp(NNN(w))
    ensures FieldsAsWritten(w) == (N(w), N(w), N(w))
    ensures N(w) != 0x1 ==> FieldsAsWritten(w).0 != Family(w)
  {
    FieldsAsWrittenLowNibble(w);
  }

  /**
   * The instruction `decode` as written dispatches to. The family, `vx` and
   * `vy` are all the low nibble `v` (by `FieldsAsWrittenLowNibble`); the
   * inner matches and the operands the handlers mask out themselves (`nnn`,
   * `kk`, the height) are read correctly.
   */
  function DecodeAsWritten(w: U16): Instr
  {
    var v, kk, nnn := N(w), Lo(w), NNN(w);
    match v
    case 0x0 => DecodeSystem(w)
    case 0x1 => Jp(nnn)
    case 0x2 => Call(nnn)
    case 0x3 => SeByte(v, kk)
    case 0x4 => SneByte(v, kk)
    case 0x5 => SeReg(v, v)
    case 0x6 => LdByte(v, kk)
    case 0x7 => AddByte(v, kk)
    case 0x8 => DecodeArithmeticAsWritten(w, v)
    case 0x9 => SneReg(v, v)
    case 0xA => LdI(nnn)
    case 0xB => JpV0(nnn)
    case 0xC => Rnd(v, kk)
    case 0xD => Drw(v, v, N(w))
    case 0xE => DecodeKeysAsWritten(w, v)
    case _ => DecodeMiscAsWritten(w, v)
  }

  /** Family 8 as written: the inner match on the low nibble, with `vx` = `vy` = `v`. */
  function DecodeArithmeticAsWritten(w: U16, v: Nibble): Instr
  {
    match N(w)
    case 0x0 => LdReg(v, v)
    case 0x1 => OrReg(v, v)
    case 0x2 => AndReg(v, v)
    case 0x3 => XorReg(v, v)
    case 0x4 => AddReg(v, v)
    case 0x5 => SubReg(v, v)
    case 0x6 => Shr(v, v)
    case 0x7 => SubnReg(v, v)
    case 0xE => Shl(v, v)
    case _ => Unknown(w)
  }

  /** Family E as written: the inner match on the low byte, with `vx` = `v`. */
  function DecodeKeysAsWritten(w: U16, v: Nibble): Instr
  {
    match Lo(w)
    case 0x9E => Skp(v)
    case 0xA1 => Sknp(v)
    case _ => Unknown(w)
  }

  /** Family F as written: the inner match on the low byte, with `vx` = `v`. */
  function DecodeMiscAsWritten(w: U16, v: Nibble): Instr
  {
    match Lo(w)
    case 0x07 => LdVxDt(v)
    case 0x0A => LdVxKey(v)
    case 0x15 => LdDtVx(v)
    case 0x18 => LdStVx(v)
    case 0x1E => AddI(v)
    case 0x29 => LdGlyph(v)
    case 0x33 => LdBcd(v)
    case 0x55 => StoreRegs(v)
    case 0x65 => LoadRegs(v)
    case _ => Unknown(w)
  }

  /**
   * As written, an inner match only sees words whose low nibble is its own
   * family, so `00EE`, `ExA1`, every `8xy_` and every `Fx__` handler is
   * unreachable; `3003` reaches `3xkk` on V3 and `DDDD` reaches `Dxyn`.
   */
  lemma HandlersUnreachable(w: U16)
    ensures var ins := DecodeAsWritten(w);
            !ins.Ret? && !ins.Sknp?
            && !(ins.LdReg? || ins.OrReg? || ins.AndReg? || ins.XorReg? || ins.AddReg?
                 || ins.SubReg? || ins.Shr? || ins.SubnReg? || ins.Shl?)
            && !(ins.LdVxDt? || ins.LdVxKey? || ins.LdDtVx? || ins.LdStVx? || ins.AddI?
                 || ins.LdGlyph? || ins.LdBcd? || ins.StoreRegs? || ins.LoadRegs?)
    ensures DecodeAsWritten(0x3003) == SeByte(3, 3) && DecodeAsWritten(0xDDDD) == Drw(0xD, 0xD, 0xD)
  {
    var v, lo := N(w), Lo(w);
    assert v == lo % 0x10;
    if v == 0xF {
      assert lo !in {0x07, 0x0A, 0x15, 0x18, 0x1E, 0x29, 0x33, 0x55, 0x65};
    } else if v == 0xE {
      assert lo != 0xA1;
    } else if v == 0x0 {
      assert lo != 0xEE;
    }
  }

  // ----- `3xkk`, `4xkk`, `5xy0`, `9xy0`: the skip moves `sp` -----

  /** A skip as written: a taken skip adds 2 to `sp` and leaves `pc` alone. */
  function SkipIfAsWritten(s: CpuSemantics.CpuState, cond: bool): CpuSemantics.CpuState
  {
    if cond then s.(sp := s.sp + 2) else s
  }

  /**
   * A taken skip as written skips nothing, leaves the stack pointer past the
   * stack once 15 or more return addresses are pushed, and, once the decode
   * reaches `00EE`, lets it pop a slot that was never pushed from an empty stack.
   */
  lemma SkipMovesStackPointer(s: CpuSemantics.CpuState)
    requires CpuSemantics.Fetched(s)
    ensures SkipIfAsWritten(s, true).pc == s.pc
    ensures CpuSemantics.SkipIf(s, true).pc == s.pc + 2
    ensures CpuSemantics.Valid(SkipIfAsWritten(s, true)) <==> s.sp + 2 <= StackSize
    ensures s.sp == 0 ==> CpuSemantics.Return(s).Err? && CpuSemantics.Return(SkipIfAsWritten(s, true)).Ok?
  {
  }

  // ----- `Fx55`, `Fx65`: `0..vx` leaves out Vx -----

  /**
   * `Fx55` as written: `ram[I + k] := Vk` for `k` in `0..x`; an index past
   * memory panics, and with `x` = 0 the loop runs no step, so nothing is indexed.
   */
  function StoreRegistersAsWritten(m: Chip8Semantics.Machine, x: Nibble): CpuSemantics.Outcome<Chip8Semantics.Machine>
    requires Chip8Semantics.Valid(m)
  {
    var i := m.cpu.i;
    if x == 0 then CpuSemantics.Ok(m)
    else if i + x > MemorySize then CpuSemantics.Err(CpuSemantics.AddressOutOfRange)
    else CpuSemantics.Ok(m.(cpu := m.cpu.(ram := m.cpu.ram[..i] + m.cpu.regs[..x] + m.cpu.ram[i + x..])))
  }

  /** `Fx65` as written: `Vk := ram[I + k]` for `k` in `0..x`, again indexing nothing when `x` = 0. */
  function LoadRegistersAsWritten(m: Chip8Semantics.Machine, x: Nibble): CpuSemantics.Outcome<Chip8Semantics.Machine>
    requires Chip8Semantics.Valid(m)
  {
    var i := m.cpu.i;
    if x == 0 then CpuSemantics.Ok(m)
    else if i + x > MemorySize then CpuSemantics.Err(CpuSemantics.AddressOutOfRange)
    else CpuSemantics.Ok(m.(cpu := m.cpu.(regs := m.cpu.ram[i..i + x] + m.cpu.regs[x..])))
  }

  /**
   * As written, `Fx55` never stores Vx and `Fx65` never loads it (so `F055`
   * and `F065` do nothing); the intended instructions include Vx.
   */
  lemma TransfersSkipVx(m: Chip8Semantics.Machine, x: Nibble)
    requires Chip8Semantics.Valid(m) && m.cpu.i + x < MemorySize
    ensures StoreRegistersAsWritten(m, x).Ok? && LoadRegistersAsWritten(m, x).Ok?
    ensures StoreRegistersAsWritten(m, x).state.cpu.ram[m.cpu.i + x] == m.cpu.ram[m.cpu.i + x]
    ensures LoadRegistersAsWritten(m, x).state.cpu.regs[x] == m.cpu.regs[x]
    ensures x == 0 ==> StoreRegistersAsWritten(m, x) == CpuSemantics.Ok(m) && LoadRegistersAsWritten(m, x) == CpuSemantics.Ok(m)
    ensures Chip8Semantics.StoreRegisters(m, x).state.cpu.ram[m.cpu.i + x] == m.cpu.regs[x]
    ensures Chip8Semantics.LoadRegisters(m, x).state.cpu.regs[x] == m.cpu.ram[m.cpu.i + x]
  {
    var i := m.cpu.i;
    assert (m.cpu.ram[..i] + m.cpu.regs[..x] + m.cpu.ram[i + x..])[i + x] == m.cpu.ram[i + x];
  }

  /**
   * As written, `F055` and `F065` do nothing wherever `I` points, even past
   * memory, while the intended `F055` and `F065` transfer V0 and fault there.
   */
  lemma EmptyTransfersAsWritten(m: Chip8Semantics.Machine)
    requires Chip8Semantics.Valid(m)
    ensures StoreRegistersAsWritten(m, 0) == CpuSemantics.Ok(m) && LoadRegistersAsWritten(m, 0) == CpuSemantics.Ok(m)
    ensures m.cpu.i >= MemorySize ==> Chip8Semantics.StoreRegisters(m, 0).Err? && Chip8Semantics.LoadRegisters(m, 0).Err?
  {
  }

  // ----- `Dxyn`: the toggle never reaches the display -----

  /**
   * Whether a set sprite pixel lands on a lit cell at the index the source
   * computes, `(y0 + row) * 64 + (x0 + col)`: a pixel past the right edge lands
   * at the start of the next row down rather than being clipped.
   */
  predicate HitsAsWritten(display: seq<bool>, ram: seq<Byte>, i: nat, n: nat, x0: nat, y0: nat)
    requires |display| == Chip8Semantics.DisplaySize && |ram| == MemorySize && Chip8Semantics.SpriteInRange(i, n)
  {
    exists row, col :: 0 <= row < n && 0 <= col < 8 && HitAt(display, ram, i, x0, y0, row, col)
  }

  /** Pixel `col` of sprite row `row` is set and its cell, at the source's index, is lit. */
  predicate HitAt(display: seq<bool>, ram: seq<Byte>, i: nat, x0: nat, y0: nat, row: nat, col: nat)
    requires |display| == Chip8Semantics.DisplaySize && i + row < |ram| && col < 8
  {
    Chip8Semantics.SpriteBit(ram[i + row], col)
    && (y0 + row) * Width + x0 + col < Chip8Semantics.DisplaySize && display[(y0 + row) * Width + x0 + col]
  }

  /**
   * `Dxyn` as written: `screen_pixel` is a copy of the cell, so only VF
   * changes. Every cell index the loops compute is read, so a sprite row past
   * memory or a cell index past the last row panics.
   */
  function DrawAsWritten(m: Chip8Semantics.Machine, x: Nibble, y: Nibble, n: Nibble): CpuSemantics.Outcome<Chip8Semantics.Machine>
    requires Chip8Semantics.Valid(m)
  {
    var x0, y0 := m.cpu.regs[x] % Width, m.cpu.regs[y] % Height;
    if n > 0 && (m.cpu.i + n > MemorySize || (y0 + n - 1) * Width + x0 + 7 >= Chip8Semantics.DisplaySize) then
      CpuSemantics.Err(CpuSemantics.AddressOutOfRange)
    else
      var hit := HitsAsWritten(m.display, m.cpu.ram, m.cpu.i, n, x0, y0);
      CpuSemantics.Ok(m.(cpu := CpuSemantics.SetReg(m.cpu, VF, if hit then 1 else 0)))
  }

  /**
   * On a blank screen a sprite whose top-left pixel is set lights the cell at
   * (Vx, Vy); as written every cell stays dark and no collision is reported.
   */
  lemma DrawLeavesScreenDark(m: Chip8Semantics.Machine, x: Nibble, y: Nibble, n: Nibble)
    requires Chip8Semantics.Valid(m) && m.display == Chip8Semantics.Blank()
    requires 1 <= n && m.cpu.i + n <= MemorySize && Chip8Semantics.SpriteBit(m.cpu.ram[m.cpu.i], 0)
    requires m.cpu.regs[x] < Width && m.cpu.regs[y] < Height
    ensures DrawAsWritten(m, x, y, n).Ok? ==>
              DrawAsWritten(m, x, y, n).state.display == m.display && DrawAsWritten(m, x, y, n).state.cpu.regs[VF] == 0
    ensures Chip8Semantics.Draw(m, x, y, n).Ok?
    ensures Chip8Semantics.Draw(m, x, y, n).state.display[m.cpu.regs[y] * Width + m.cpu.regs[x]]
  {
    var x0, y0 := m.cpu.regs[x], m.cpu.regs[y];
    var p := y0 * Width + x0;
    assert p / Width == y0 && p % Width == x0;
    assert Chip8Semantics.Covers(m.cpu.ram, m.cpu.i, n, x0, y0, p);
  }

  // ----- `8xy4`: the sum is a `u8` -----

  /**
   * `8xy4` as written: `regs[vx] + regs[vy]` is a `u8` sum (which wraps in a
   * release build and panics in a debug build), so `sum > 255` never holds.
   */
  function AddRegsAsWritten(s: CpuSemantics.CpuState, x: Nibble, y: Nibble): CpuSemantics.CpuState
    requires CpuSemantics.Valid(s)
  {
    var sum := (s.regs[x] as int + s.regs[y] as int) % 0x100;
    s.(regs := s.regs[VF := if sum > 0xFF then 1 else 0][x := sum])
  }

  /** As written the carry flag is never set; the intended `8xy4` sets it on every carry. */
  lemma CarryLost(s: CpuSemantics.CpuState, x: Nibble, y: Nibble)
    requires CpuSemantics.Valid(s) && x != VF
    ensures AddRegsAsWritten(s, x, y).regs[VF] == 0
    ensures s.regs[x] as int + s.regs[y] as int > 0xFF ==> CpuSemantics.AddRegs(s, x, y).regs[VF] == 1
  {
  }
}

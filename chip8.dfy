/**
 * The full engine of chip_8.rs: a `Chip8` that embeds the reduced engine's
 * registers, stack and memory and adds the timers, the keypad and the display.
 * Every method is proved against Chip8Semantics.
 */
module Chip8 {
  import opened Bits
  import opened Isa
  import opened Chip8Semantics
  import CpuSemantics
  import Cpu

  /**
   * Cell `p` lies under a sprite pixel that `Dxyn` visits before row `row`,
   * column `col` (rows top to bottom, columns left to right).
   */
  ghost predicate CoversBefore(ram: seq<Byte>, i: nat, n: nat, x0: nat, y0: nat, p: nat, row: nat, col: nat)
    requires |ram| == MemorySize && SpriteInRange(i, n)
  {
    Covers(ram, i, n, x0, y0, p)
    && (p / Width < y0 + row || (p / Width == y0 + row && p % Width < x0 + col))
  }

  lemma CellCoords(px: nat, py: nat)
    requires px < Width
    ensures (py * Width + px) / Width == py && (py * Width + px) % Width == px
  {
  }

  /**
   * Visiting sprite pixel (`row`, `col`) adds at most the one cell under it,
   * and only when that cell is on the screen and the pixel is set.
   */
  lemma CoversNextPixel(ram: seq<Byte>, i: nat, n: nat, x0: nat, y0: nat, row: nat, col: nat, p: nat)
    requires |ram| == MemorySize && SpriteInRange(i, n) && row < n && col < 8 && p < DisplaySize
    ensures var hit := x0 + col < Width && y0 + row < Height && SpriteBit(ram[i + row], col)
                       && p == (y0 + row) * Width + x0 + col;
            CoversBefore(ram, i, n, x0, y0, p, row, col + 1) <==> CoversBefore(ram, i, n, x0, y0, p, row, col) || hit
  {
    var px, py := p % Width, p / Width;
    assert p == py * Width + px;
    if py == y0 + row && px == x0 + col {
      assert p == (y0 + row) * Width + x0 + col;
    }
    if x0 + col < Width && p == (y0 + row) * Width + x0 + col {
      CellCoords(x0 + col, y0 + row);
      assert px == x0 + col && py == y0 + row;
    }
  }

  /** `Step` on `m` is the outcome of executing the next instruction on `advanced`, then the timer decay. */
  lemma StepOf(m: Machine, rnd: Byte, advanced: Machine)
    requires Valid(m) && m.cpu.pc + 1 < MemorySize
    requires advanced == m.(cpu := m.cpu.(pc := m.cpu.pc + 2))
    ensures Step(m, rnd) == match Exec(advanced, NextInstr(m), rnd)
                            case Ok(next) => CpuSemantics.Ok(Tick(next))
                            case Err(f) => CpuSemantics.Err(f)
  {
  }

  /**
   * A display toggled at every cell the whole sprite covers, with a flag set
   * exactly when one of those cells was on, is what `Draw` computes.
   */
  lemma DrawnIsDraw(before: seq<bool>, ram: seq<Byte>, i: nat, n: nat, x0: nat, y0: nat, after: seq<bool>, vf: Byte)
    requires |before| == DisplaySize && |after| == DisplaySize && |ram| == MemorySize && SpriteInRange(i, n)
    requires forall p :: 0 <= p < DisplaySize ==> after[p] == (before[p] != CoversBefore(ram, i, n, x0, y0, p, n, 0))
    requires vf in {0, 1}
    requires vf == 1 <==> exists p :: 0 <= p < DisplaySize && before[p] && CoversBefore(ram, i, n, x0, y0, p, n, 0)
    ensures after == DrawSprite(before, ram, i, n, x0, y0)
    ensures vf == if Collides(before, ram, i, n, x0, y0) then 1 else 0
  {
    assert forall p :: CoversBefore(ram, i, n, x0, y0, p, n, 0) == Covers(ram, i, n, x0, y0, p);
  }

  class Chip8 {
    const cpu: Cpu.Cpu
    var delay: Byte
    var sound: Byte
    const keypad: array<bool>
    const display: array<bool>

    ghost predicate Valid()
      reads this, cpu
    {
      cpu.Valid() && keypad.Length == KeyCount && display.Length == DisplaySize && keypad != display
    }

    /** The abstract value of the machine. */
    ghost function State(): Machine
      reads this, cpu, cpu.stack, cpu.regs, cpu.ram, keypad, display
    {
      Machine(cpu.State(), delay, sound, keypad[..], display[..])
    }

    /** A clean reset: the reduced engine's reset, timers zero, no key down, screen off. */
    constructor ()
      ensures Valid() && State() == Chip8Semantics.Reset()
      ensures fresh(cpu) && fresh(cpu.stack) && fresh(cpu.regs) && fresh(cpu.ram) && fresh(keypad) && fresh(display)
    {
      cpu := new Cpu.Cpu();
      delay, sound := 0, 0;
      keypad := new bool[KeyCount](_ => false);
      display := new bool[DisplaySize](_ => false);
    }

    /** `load_program`. */
    method LoadProgram(image: seq<Byte>) returns (fault: Option<CpuSemantics.Fault>)
      requires Valid()
      modifies cpu.ram
      ensures Valid()
      ensures CpuSemantics.Reports(Chip8Semantics.LoadProgram(old(State()), image), fault, old(State()), State())
    {
      fault := cpu.LoadProgram(image);
    }

    /**
     * One `cycle`: fetch, advance `pc` by 2, decode, execute, decay both timers.
     * A fault restores `pc` and leaves the timers alone.
     */
    method Cycle(rnd: Byte) returns (fault: Option<CpuSemantics.Fault>)
      requires Valid()
      modifies this, cpu, cpu.stack, cpu.regs, cpu.ram, display
      ensures Valid()
      ensures CpuSemantics.Reports(Step(old(State()), rnd), fault, old(State()), State())
    {
      if cpu.pc + 1 >= MemorySize {
        return Some(CpuSemantics.PcOutOfRange);
      }
      var opcode := cpu.Fetch();
      ghost var before := State();
      var fetchedAt := cpu.pc;
      cpu.pc := cpu.pc + 2;
      ghost var advanced := State();
      assert advanced == before.(cpu := before.cpu.(pc := before.cpu.pc + 2));
      assert Decode(opcode) == NextInstr(before);
      StepOf(before, rnd, advanced);
      fault := Execute(Decode(opcode), rnd);
      if fault.Some? {
        cpu.pc := fetchedAt;
        assert State() == before;
        return;
      }
      DecayTimers();
    }

    /** The end of a cycle that did not fault: each nonzero timer counts down by one. */
    method DecayTimers()
      requires Valid()
      modifies this
      ensures Valid()
      ensures State() == Tick(old(State()))
    {
      if delay > 0 {
        delay := delay - 1;
      }
      if sound > 0 {
        sound := sound - 1;
      }
    }

    /** The dispatch of `decode`: the display, key and F families here, the rest in the reduced engine. */
    method Execute(ins: Instr, rnd: Byte) returns (fault: Option<CpuSemantics.Fault>)
      requires Valid() && 2 <= cpu.pc <= MemorySize
      modifies this, cpu, cpu.stack, cpu.regs, cpu.ram, display
      ensures Valid()
      ensures CpuSemantics.Reports(Exec(old(State()), ins, rnd), fault, old(State()), State())
    {
      if ScreenKeyOp(ins) {
        fault := ExecuteScreenKeys(ins);
      } else if TimerOp(ins) {
        fault := None;
        ExecuteTimers(ins);
      } else if KeyIndexOp(ins) {
        fault := None;
        ExecuteKeyIndex(ins);
      } else if MemoryOp(ins) {
        fault := ExecuteMemory(ins);
      } else {
        fault := ExecuteCore(ins, rnd);
      }
    }

    /** The instructions the reduced engine also has, delegated to it. */
    method ExecuteCore(ins: Instr, rnd: Byte) returns (fault: Option<CpuSemantics.Fault>)
      requires Valid() && 2 <= cpu.pc <= MemorySize && (ins.CpuOp() || ins.Unknown?) && !ins.Cls?
      modifies cpu, cpu.stack, cpu.regs
      ensures Valid()
      ensures CpuSemantics.Reports(Exec(old(State()), ins, rnd), fault, old(State()), State())
    {
      fault := cpu.Execute(ins, rnd);
    }

    /** `00E0`, `Dxyn`, `Ex9E` and `ExA1`. */
    method ExecuteScreenKeys(ins: Instr) returns (fault: Option<CpuSemantics.Fault>)
      requires Valid() && 2 <= cpu.pc <= MemorySize && ScreenKeyOp(ins)
      modifies cpu, cpu.regs, display
      ensures Valid()
      ensures CpuSemantics.Reports(ExecScreenKeys(old(State()), ins), fault, old(State()), State())
    {
      fault := None;
      match ins
      case Cls => Op00E0();
      case Drw(x, y, n) => fault := OpDxyn(x, y, n);
      case Skp(x) => fault := OpEx9E(x);
      case Sknp(x) => fault := OpExA1(x);
    }

    /** `Fx07`, `Fx15` and `Fx18`, which never fault. */
    method ExecuteTimers(ins: Instr)
      requires Valid() && 2 <= cpu.pc <= MemorySize && TimerOp(ins)
      modifies this, cpu.regs
      ensures Valid()
      ensures State() == ExecTimers(old(State()), ins)
    {
      match ins
      case LdVxDt(x) => OpFx07(x);
      case LdDtVx(x) => OpFx15(x);
      case LdStVx(x) => OpFx18(x);
    }

    /** `Fx0A`, `Fx1E` and `Fx29`, which never fault. */
    method ExecuteKeyIndex(ins: Instr)
      requires Valid() && 2 <= cpu.pc <= MemorySize && KeyIndexOp(ins)
      modifies cpu, cpu.regs
      ensures Valid()
      ensures State() == ExecKeyIndex(old(State()), ins)
    {
      match ins
      case LdVxKey(x) => OpFx0A(x);
      case AddI(x) => OpFx1E(x);
      case LdGlyph(x) => OpFx29(x);
    }

    /** `Fx33`, `Fx55` and `Fx65`. */
    method ExecuteMemory(ins: Instr) returns (fault: Option<CpuSemantics.Fault>)
      requires Valid() && 2 <= cpu.pc <= MemorySize && MemoryOp(ins)
      modifies cpu.regs, cpu.ram
      ensures CpuSemantics.Reports(ExecMemory(old(State()), ins), fault, old(State()), State())
    {
      match ins
      case LdBcd(x) => fault := OpFx33(x);
      case StoreRegs(x) => fault := OpFx55(x);
      case LoadRegs(x) => fault := OpFx65(x);
    }

    /** `00E0`: every display cell off. */
    method Op00E0()
      requires Valid()
      modifies display
      ensures State() == old(State()).(display := Blank())
    {
      forall p | 0 <= p < display.Length {
        display[p] := false;
      }
    }

    /**
     * Cells and flag after `Dxyn` has visited the sprite pixels before (`row`,
     * `col`): exactly the cells covered so far are toggled, and VF is 1 exactly
     * when one of them was on.
     */
    ghost predicate DrawnUpTo(before: seq<bool>, n: nat, x0: nat, y0: nat, row: nat, col: nat)
      reads this, cpu, cpu.regs, cpu.ram, display
      requires Valid() && |before| == DisplaySize && SpriteInRange(cpu.i, n)
    {
      (forall p :: 0 <= p < DisplaySize ==>
         display[p] == (before[p] != CoversBefore(cpu.ram[..], cpu.i, n, x0, y0, p, row, col)))
      && cpu.regs[VF] in {0, 1}
      && (cpu.regs[VF] == 1 <==>
            exists p :: 0 <= p < DisplaySize && before[p] && CoversBefore(cpu.ram[..], cpu.i, n, x0, y0, p, row, col))
    }

    /** `Dxyn`: XOR an `n`-row sprite from `ram[I..]` onto the display, clipped at the edges. */
    method OpDxyn(x: Nibble, y: Nibble, n: Nibble) returns (fault: Option<CpuSemantics.Fault>)
      requires Valid()
      modifies cpu.regs, display
      ensures CpuSemantics.Reports(Draw(old(State()), x, y, n), fault, old(State()), State())
    {
      if !SpriteInRange(cpu.i, n) {
        return Some(CpuSemantics.AddressOutOfRange);
      }
      var x0 := cpu.regs[x] % Width;
      var y0 := cpu.regs[y] % Height;
      ghost var before := display[..];
      cpu.regs[VF] := 0;
      var row := 0;
      while row < n
        invariant 0 <= row <= n && Valid()
        invariant forall k :: 0 <= k < RegisterCount && k != VF ==> cpu.regs[k] == old(cpu.regs[k])
        invariant DrawnUpTo(before, n, x0, y0, row, 0)
      {
        DrawRow(before, n, x0, y0, row);
        row := row + 1;
      }
      DrawnIsDraw(before, cpu.ram[..], cpu.i, n, x0, y0, display[..], cpu.regs[VF]);
      assert cpu.regs[..] == old(cpu.regs[..])[VF := cpu.regs[VF]];
      fault := None;
    }

    /** The column loop of `Dxyn` for one sprite row. */
    method DrawRow(ghost before: seq<bool>, n: nat, x0: nat, y0: nat, row: nat)
      requires Valid() && |before| == DisplaySize && SpriteInRange(cpu.i, n) && row < n
      requires x0 < Width && y0 < Height
      requires DrawnUpTo(before, n, x0, y0, row, 0)
      modifies cpu.regs, display
      ensures forall k :: 0 <= k < RegisterCount && k != VF ==> cpu.regs[k] == old(cpu.regs[k])
      ensures DrawnUpTo(before, n, x0, y0, row + 1, 0)
    {
      ghost var ram := cpu.ram[..];
      var spriteByte := cpu.ram[cpu.i + row];
      var col := 0;
      while col < 8
        invariant 0 <= col <= 8
        invariant forall k :: 0 <= k < RegisterCount && k != VF ==> cpu.regs[k] == old(cpu.regs[k])
        invariant DrawnUpTo(before, n, x0, y0, row, col)
      {
        var hit := x0 + col < Width && y0 + row < Height && SpriteBit(spriteByte, col);
        var cell := (y0 + row) * Width + x0 + col;
        forall p | 0 <= p < DisplaySize
          ensures CoversBefore(ram, cpu.i, n, x0, y0, p, row, col + 1)
                  <==> CoversBefore(ram, cpu.i, n, x0, y0, p, row, col) || (hit && p == cell)
        {
          CoversNextPixel(ram, cpu.i, n, x0, y0, row, col, p);
        }
        if hit {
          assert !CoversBefore(ram, cpu.i, n, x0, y0, cell, row, col) by {
            CellCoords(x0 + col, y0 + row);
          }
          if display[cell] {
            cpu.regs[VF] := 1;
          }
          display[cell] := !display[cell];
        }
        col := col + 1;
      }
      forall p | 0 <= p < DisplaySize
        ensures CoversBefore(ram, cpu.i, n, x0, y0, p, row, 8) == CoversBefore(ram, cpu.i, n, x0, y0, p, row + 1, 0)
      {
      }
    }

    /** `Ex9E`: skip if key Vx is down. */
    method OpEx9E(x: Nibble) returns (fault: Option<CpuSemantics.Fault>)
      requires Valid() && 2 <= cpu.pc <= MemorySize
      modifies cpu
      ensures Valid()
      ensures CpuSemantics.Reports(SkipKey(old(State()), x, true), fault, old(State()), State())
    {
      var key := cpu.regs[x];
      if key >= KeyCount {
        return Some(CpuSemantics.KeyOutOfRange);
      }
      if keypad[key] {
        cpu.pc := cpu.pc + 2;
      }
      fault := None;
    }

    /** `ExA1`: skip if key Vx is up. */
    method OpExA1(x: Nibble) returns (fault: Option<CpuSemantics.Fault>)
      requires Valid() && 2 <= cpu.pc <= MemorySize
      modifies cpu
      ensures Valid()
      ensures CpuSemantics.Reports(SkipKey(old(State()), x, false), fault, old(State()), State())
    {
      var key := cpu.regs[x];
      if key >= KeyCount {
        return Some(CpuSemantics.KeyOutOfRange);
      }
      if !keypad[key] {
        cpu.pc := cpu.pc + 2;
      }
      fault := None;
    }

    /** `Fx07`: Vx := delay timer. */
    method OpFx07(x: Nibble)
      requires Valid()
      modifies cpu.regs
      ensures State() == old(State()).(cpu := CpuSemantics.SetReg(old(cpu.State()), x, delay))
    {
      cpu.regs[x] := delay;
    }

    /** `Fx0A`: wait for a key, taking the lowest one that is down. */
    method OpFx0A(x: Nibble)
      requires Valid() && 2 <= cpu.pc <= MemorySize
      modifies cpu, cpu.regs
      ensures Valid() && State() == WaitKey(old(State()), x)
    {
      var k := 0;
      while k < KeyCount
        invariant 0 <= k <= KeyCount
        invariant forall j :: 0 <= j < k ==> !keypad[j]
      {
        if keypad[k] {
          cpu.regs[x] := k;
          return;
        }
        k := k + 1;
      }
      cpu.pc := cpu.pc - 2;
    }

    /** `Fx15`: delay timer := Vx. */
    method OpFx15(x: Nibble)
      requires Valid()
      modifies this
      ensures Valid() && State() == old(State()).(delay := cpu.regs[x])
    {
      delay := cpu.regs[x];
    }

    /** `Fx18`: sound timer := Vx. */
    method OpFx18(x: Nibble)
      requires Valid()
      modifies this
      ensures Valid() && State() == old(State()).(sound := cpu.regs[x])
    {
      sound := cpu.regs[x];
    }

    /** `Fx1E`: I := I + Vx, wrapping at 0x10000. */
    method OpFx1E(x: Nibble)
      requires Valid()
      modifies cpu
      ensures Valid() && State() == old(State()).(cpu := old(cpu.State()).(i := (old(cpu.i) as int + cpu.regs[x] as int) % 0x1_0000))
    {
      cpu.i := (cpu.i as int + cpu.regs[x] as int) % 0x1_0000;
    }

    /** `Fx29`: I := the glyph of digit Vx. */
    method OpFx29(x: Nibble)
      requires Valid()
      modifies cpu
      ensures Valid() && State() == old(State()).(cpu := old(cpu.State()).(i := FontSetStart + (5 * cpu.regs[x] as int) % 0x100))
    {
      cpu.i := FontSetStart + (5 * cpu.regs[x] as int) % 0x100;
    }

    /** `Fx33`: the decimal digits of Vx at `ram[I..I+3]`, ones first as the source writes them. */
    method OpFx33(x: Nibble) returns (fault: Option<CpuSemantics.Fault>)
      requires Valid()
      modifies cpu.ram
      ensures CpuSemantics.Reports(StoreBcd(old(State()), x), fault, old(State()), State())
    {
      var i := cpu.i;
      if i + 2 >= MemorySize {
        return Some(CpuSemantics.AddressOutOfRange);
      }
      var value := cpu.regs[x];
      cpu.ram[i + 2] := value % 10;
      value := value / 10;
      cpu.ram[i + 1] := value % 10;
      value := value / 10;
      cpu.ram[i] := value % 10;
      assert cpu.ram[..] == old(cpu.ram[..])[..i] + Digits(cpu.regs[x]) + old(cpu.ram[..])[i + 3..];
      fault := None;
    }

    /** `Fx55`: V0..Vx (inclusive) to `ram[I..]`. */
    method OpFx55(x: Nibble) returns (fault: Option<CpuSemantics.Fault>)
      requires Valid()
      modifies cpu.ram
      ensures CpuSemantics.Reports(StoreRegisters(old(State()), x), fault, old(State()), State())
    {
      var i := cpu.i;
      if i + x >= MemorySize {
        return Some(CpuSemantics.AddressOutOfRange);
      }
      var k := 0;
      while k <= x
        invariant 0 <= k <= x + 1
        invariant forall a :: 0 <= a < MemorySize ==>
          cpu.ram[a] == if i <= a < i + k then cpu.regs[a - i] else old(cpu.ram[a])
      {
        cpu.ram[i + k] := cpu.regs[k];
        k := k + 1;
      }
      assert cpu.ram[..] == StoreRegisters(old(State()), x).state.cpu.ram;
      fault := None;
    }

    /** `Fx65`: `ram[I..]` to V0..Vx (inclusive). */
    method OpFx65(x: Nibble) returns (fault: Option<CpuSemantics.Fault>)
      requires Valid()
      modifies cpu.regs
      ensures CpuSemantics.Reports(LoadRegisters(old(State()), x), fault, old(State()), State())
    {
      var i := cpu.i;
      if i + x >= MemorySize {
        return Some(CpuSemantics.AddressOutOfRange);
      }
      var k := 0;
      while k <= x
        invariant 0 <= k <= x + 1
        invariant forall r :: 0 <= r < RegisterCount ==>
          cpu.regs[r] == if r < k then cpu.ram[i + r] else old(cpu.regs[r])
      {
        cpu.regs[k] := cpu.ram[i + k];
        k := k + 1;
      }
      assert cpu.regs[..] == LoadRegisters(old(State()), x).state.cpu.regs;
      fault := None;
    }
  }
}

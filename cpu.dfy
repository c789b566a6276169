/**
 * The reduced engine of cpu.rs: a `CPU` whose methods update its registers,
 * stack and memory in place. Every method is proved against CpuSemantics.
 */
module Cpu {
  import opened Bits
  import opened Isa
  import opened CpuSemantics

  class Cpu {
    var pc: U16
    var i: U16
    var sp: nat
    const stack: array<U16>
    const regs: array<Byte>
    const ram: array<Byte>

    ghost predicate Valid()
      reads this
    {
      stack.Length == StackSize && regs.Length == RegisterCount && ram.Length == MemorySize
      && sp <= StackSize && regs != ram
    }

    /** The abstract value of the engine. */
    ghost function State(): CpuState
      reads this, stack, regs, ram
    {
      CpuState(pc, i, sp, stack[..], regs[..], ram[..])
    }

    /** A clean reset: `pc` at 0x200, everything else zero, glyphs loaded. */
    constructor ()
      ensures Valid() && State() == Reset()
      ensures fresh(stack) && fresh(regs) && fresh(ram)
    {
      pc, i, sp := ProgramStart, 0, 0;
      stack := new U16[StackSize](_ => 0);
      regs := new Byte[RegisterCount](_ => 0);
      ram := new Byte[MemorySize](_ => 0);
      new;
      LoadFontSet();
    }

    /** Copies the glyph set to `ram[0x50..0xA0]`. */
    method LoadFontSet()
      requires Valid()
      modifies ram
      ensures State() == old(State()).(ram := WithFontSet(old(ram[..])))
    {
      ghost var before := ram[..];
      forall k | 0 <= k < |FontSet| {
        ram[FontSetStart + k] := FontSet[k];
      }
      ghost var loaded := WithFontSet(before);
      assert forall a | 0 <= a < MemorySize :: ram[a] == loaded[a];
      assert ram[..] == loaded;
    }

    /** Copies `image[k]` to `ram[0x200 + k]`, or reports `ProgramTooLarge`. */
    method LoadProgram(image: seq<Byte>) returns (fault: Option<Fault>)
      requires Valid()
      modifies ram
      ensures Reports(CpuSemantics.LoadProgram(old(State()), image), fault, old(State()), State())
    {
      if ProgramStart + |image| > MemorySize {
        return Some(ProgramTooLarge);
      }
      var k := 0;
      while k < |image|
        invariant 0 <= k <= |image|
        invariant forall a :: 0 <= a < MemorySize ==>
          ram[a] == if ProgramStart <= a < ProgramStart + k then image[a - ProgramStart] else old(ram[a])
      {
        ram[ProgramStart + k] := image[k];
        k := k + 1;
      }
      fault := None;
      assert ram[..] == old(ram[..])[..ProgramStart] + image + old(ram[..])[ProgramStart + |image|..];
    }

    /** The big-endian word at `pc`. */
    method Fetch() returns (opcode: U16)
      requires Valid() && pc + 1 < MemorySize
      ensures opcode == Isa.Fetch(ram[..], pc)
    {
      opcode := ram[pc] as int * 0x100 + ram[pc + 1] as int;
    }

    /**
     * One `cycle`: fetch, advance `pc` by 2, decode families 0..C, execute.
     * There are no timers in this engine.
     */
    method Cycle(rnd: Byte) returns (fault: Option<Fault>)
      requires Valid()
      modifies this, stack, regs
      ensures Valid()
      ensures Reports(Step(old(State()), rnd), fault, old(State()), State())
    {
      if pc + 1 >= MemorySize {
        return Some(PcOutOfRange);
      }
      var opcode := Fetch();
      ghost var before := State();
      var fetchedAt := pc;
      pc := pc + 2;
      assert State() == before.(pc := before.pc + 2);
      assert DecodeCpu(opcode) == NextInstr(before);
      assert Step(before, rnd) == Exec(before.(pc := before.pc + 2), NextInstr(before), rnd);
      fault := Execute(DecodeCpu(opcode), rnd);
      if fault.Some? {
        pc := fetchedAt;
        assert State() == before;
      }
    }

    /** The dispatch of `decode`; `00E0`, families D..F and unknown words do nothing. */
    method Execute(ins: Instr, rnd: Byte) returns (fault: Option<Fault>)
      requires Valid() && 2 <= pc <= MemorySize
      modifies this, stack, regs
      ensures Valid()
      ensures Reports(Exec(old(State()), ins, rnd), fault, old(State()), State())
    {
      fault := None;
      if ControlFlow(ins) {
        fault := ExecuteFlow(ins);
      } else if LoadOp(ins) {
        ExecuteLoad(ins, rnd);
      } else if LogicOp(ins) {
        ExecuteLogic(ins);
      } else if FlagOp(ins) {
        ExecuteFlags(ins);
      }
    }

    /** Jumps, calls, returns and skips. */
    method ExecuteFlow(ins: Instr) returns (fault: Option<Fault>)
      requires Valid() && 2 <= pc <= MemorySize
      requires ControlFlow(ins)
      modifies this, stack
      ensures Valid()
      ensures Reports(ExecFlow(old(State()), ins), fault, old(State()), State())
    {
      fault := None;
      match ins
      case Ret => fault := Op00EE();
      case Jp(nnn) => Op1nnn(nnn);
      case Call(nnn) => fault := Op2nnn(nnn);
      case SeByte(x, kk) => Op3xkk(x, kk);
      case SneByte(x, kk) => Op4xkk(x, kk);
      case SeReg(x, y) => Op5xy0(x, y);
      case SneReg(x, y) => Op9xy0(x, y);
      case JpV0(nnn) => OpBnnn(nnn);
    }

    /** Loads into Vx and I, which never fault. */
    method ExecuteLoad(ins: Instr, rnd: Byte)
      requires Valid() && 2 <= pc <= MemorySize
      requires LoadOp(ins)
      modifies this, regs
      ensures Valid()
      ensures State() == ExecLoad(old(State()), ins, rnd)
    {
      match ins
      case LdByte(x, kk) => Op6xkk(x, kk);
      case AddByte(x, kk) => Op7xkk(x, kk);
      case LdI(nnn) => OpAnnn(nnn);
      case Rnd(x, kk) => OpCxkk(x, kk, rnd);
    }

    /** `8xy0` to `8xy3`, which never fault. */
    method ExecuteLogic(ins: Instr)
      requires Valid() && 2 <= pc <= MemorySize
      requires LogicOp(ins)
      modifies regs
      ensures State() == ExecLogic(old(State()), ins)
    {
      match ins
      case LdReg(x, y) => Op8xy0(x, y);
      case OrReg(x, y) => Op8xy1(x, y);
      case AndReg(x, y) => Op8xy2(x, y);
      case XorReg(x, y) => Op8xy3(x, y);
    }

    /** `8xy4` to `8xyE`, the instructions that write VF; they never fault. */
    method ExecuteFlags(ins: Instr)
      requires Valid() && 2 <= pc <= MemorySize
      requires FlagOp(ins)
      modifies regs
      ensures State() == ExecFlags(old(State()), ins)
    {
      match ins
      case AddReg(x, y) => Op8xy4(x, y);
      case SubReg(x, y) => Op8xy5(x, y);
      case Shr(x, _) => Op8xy6(x);
      case SubnReg(x, y) => Op8xy7(x, y);
      case Shl(x, _) => Op8xyE(x);
    }

    /** `00EE`: return from a subroutine. */
    method Op00EE() returns (fault: Option<Fault>)
      requires Valid()
      modifies this
      ensures Valid()
      ensures Reports(Return(old(State())), fault, old(State()), State())
    {
      if sp == 0 {
        return Some(StackUnderflow);
      }
      sp := sp - 1;
      pc := stack[sp];
      fault := None;
    }

    /** `1nnn`: jump. */
    method Op1nnn(nnn: Addr)
      requires Valid()
      modifies this
      ensures Valid() && State() == old(State()).(pc := nnn)
    {
      pc := nnn;
    }

    /** `2nnn`: call a subroutine. */
    method Op2nnn(nnn: Addr) returns (fault: Option<Fault>)
      requires Valid()
      modifies this, stack
      ensures Valid()
      ensures Reports(CallSubroutine(old(State()), nnn), fault, old(State()), State())
    {
      if sp == StackSize {
        return Some(StackOverflow);
      }
      stack[sp] := pc;
      sp := sp + 1;
      pc := nnn;
      fault := None;
    }

    // The four skips below add 2 to `pc`; the source adds 2 to `sp`.

    /** `3xkk`: skip if Vx == kk. */
    method Op3xkk(x: Nibble, kk: Byte)
      requires Valid() && 2 <= pc <= MemorySize
      modifies this
      ensures Valid() && State() == SkipIf(old(State()), regs[x] == kk)
    {
      if regs[x] == kk {
        pc := pc + 2;
      }
    }

    /** `4xkk`: skip if Vx != kk. */
    method Op4xkk(x: Nibble, kk: Byte)
      requires Valid() && 2 <= pc <= MemorySize
      modifies this
      ensures Valid() && State() == SkipIf(old(State()), regs[x] != kk)
    {
      if regs[x] != kk {
        pc := pc + 2;
      }
    }

    /** `5xy0`: skip if Vx == Vy. */
    method Op5xy0(x: Nibble, y: Nibble)
      requires Valid() && 2 <= pc <= MemorySize
      modifies this
      ensures Valid() && State() == SkipIf(old(State()), regs[x] == regs[y])
    {
      if regs[x] == regs[y] {
        pc := pc + 2;
      }
    }

    /** `6xkk`: Vx := kk. */
    method Op6xkk(x: Nibble, kk: Byte)
      requires Valid()
      modifies regs
      ensures State() == SetReg(old(State()), x, kk)
    {
      regs[x] := kk;
    }

    /** `7xkk`: Vx := Vx + kk, wrapping at 256 (the source's `u8 +=`). */
    method Op7xkk(x: Nibble, kk: Byte)
      requires Valid()
      modifies regs
      ensures State() == SetReg(old(State()), x, (old(regs[x]) as int + kk as int) % 0x100)
    {
      regs[x] := (regs[x] as int + kk as int) % 0x100;
    }

    /** `8xy0`: Vx := Vy. */
    method Op8xy0(x: Nibble, y: Nibble)
      requires Valid()
      modifies regs
      ensures State() == SetReg(old(State()), x, old(regs[y]))
    {
      regs[x] := regs[y];
    }

    /** `8xy1`: Vx := Vx | Vy. */
    method Op8xy1(x: Nibble, y: Nibble)
      requires Valid()
      modifies regs
      ensures State() == SetReg(old(State()), x, Or(old(regs[x]), old(regs[y])))
    {
      regs[x] := Or(regs[x], regs[y]);
    }

    /** `8xy2`: Vx := Vx & Vy. */
    method Op8xy2(x: Nibble, y: Nibble)
      requires Valid()
      modifies regs
      ensures State() == SetReg(old(State()), x, And(old(regs[x]), old(regs[y])))
    {
      regs[x] := And(regs[x], regs[y]);
    }

    /** `8xy3`: Vx := Vx ^ Vy. */
    method Op8xy3(x: Nibble, y: Nibble)
      requires Valid()
      modifies regs
      ensures State() == SetReg(old(State()), x, Xor(old(regs[x]), old(regs[y])))
    {
      regs[x] := Xor(regs[x], regs[y]);
    }

    /** `8xy4`: add with carry into VF (the sum is taken in a wider type than `u8`). */
    method Op8xy4(x: Nibble, y: Nibble)
      requires Valid()
      modifies regs
      ensures State() == AddRegs(old(State()), x, y)
    {
      var sum := regs[x] as int + regs[y] as int;
      regs[VF] := if sum > 0xFF then 1 else 0;
      regs[x] := sum % 0x100;
    }

    /** `8xy5`: subtract with "no borrow" into VF, wrapping at 256. */
    method Op8xy5(x: Nibble, y: Nibble)
      requires Valid()
      modifies regs
      ensures State() == SubRegs(old(State()), x, y)
    {
      regs[VF] := if regs[x] > regs[y] then 1 else 0;
      regs[x] := (regs[x] as int - regs[y] as int) % 0x100;
    }

    /** `8xy6`: shift right, the low bit into VF. */
    method Op8xy6(x: Nibble)
      requires Valid()
      modifies regs
      ensures State() == ShiftRight(old(State()), x)
    {
      regs[VF] := regs[x] % 2;
      regs[x] := regs[x] / 2;
    }

    /** `8xy7`: Vx := Vy - Vx with "no borrow" into VF, wrapping at 256. */
    method Op8xy7(x: Nibble, y: Nibble)
      requires Valid()
      modifies regs
      ensures State() == SubnRegs(old(State()), x, y)
    {
      regs[VF] := if regs[x] < regs[y] then 1 else 0;
      regs[x] := (regs[y] as int - regs[x] as int) % 0x100;
    }

    /** `8xyE`: shift left, the high bit into VF. */
    method Op8xyE(x: Nibble)
      requires Valid()
      modifies regs
      ensures State() == ShiftLeft(old(State()), x)
    {
      regs[VF] := regs[x] / 0x80;
      regs[x] := regs[x] as int * 2 % 0x100;
    }

    /** `9xy0`: skip if Vx != Vy. */
    method Op9xy0(x: Nibble, y: Nibble)
      requires Valid() && 2 <= pc <= MemorySize
      modifies this
      ensures Valid() && State() == SkipIf(old(State()), regs[x] != regs[y])
    {
      if regs[x] != regs[y] {
        pc := pc + 2;
      }
    }

    /** `Annn`: I := nnn. */
    method OpAnnn(nnn: Addr)
      requires Valid()
      modifies this
      ensures Valid() && State() == old(State()).(i := nnn)
    {
      i := nnn;
    }

    /** `Bnnn`: jump to V0 + nnn. */
    method OpBnnn(nnn: Addr)
      requires Valid()
      modifies this
      ensures Valid() && State() == old(State()).(pc := regs[0] as int + nnn as int)
    {
      pc := regs[0] as int + nnn as int;
    }

    /** `Cxkk`: Vx := rnd & kk, with the random byte supplied by the caller. */
    method OpCxkk(x: Nibble, kk: Byte, rnd: Byte)
      requires Valid()
      modifies regs
      ensures State() == SetReg(old(State()), x, And(rnd, kk))
    {
      regs[x] := And(rnd, kk);
    }
  }
}

/**
 * The state machine of the reduced engine (the `CPU` of cpu.rs) as pure
 * functions: program counter, index register, stack, sixteen byte registers
 * and 4 KiB of memory, with no timers, keypad or display. The full engine
 * (Chip8Semantics) reuses this state and every instruction defined here.
 *
 * Where the source indexes out of range (a Rust panic), the model returns an
 * explicit `Err` instead of a state.
 */
module CpuSemantics {
  import opened Bits
  import opened Isa

  datatype Fault =
    | PcOutOfRange        // fetch at `pc` reads past the end of memory
    | StackOverflow       // `2nnn` with all 16 stack slots in use
    | StackUnderflow      // `00EE` with an empty stack
    | AddressOutOfRange   // a memory access at `I + k` past the end of memory
    | KeyOutOfRange       // `Ex9E` / `ExA1` with `Vx` > 0xF
    | ProgramTooLarge     // the program image does not fit above 0x200

  datatype Outcome<S> = Ok(state: S) | Err(fault: Fault)

  /**
   * How an engine method reports the outcome `r` of the pure semantics: no fault
   * and the new state on success; the fault and the untouched state on failure.
   */
  predicate Reports<S(==)>(r: Outcome<S>, fault: Option<Fault>, before: S, after: S)
  {
    match r
    case Ok(t) => fault == None && after == t
    case Err(f) => fault == Some(f) && after == before
  }

  datatype CpuState = CpuState(
    pc: U16,
    i: U16,
    sp: nat,
    stack: seq<U16>,
    regs: seq<Byte>,
    ram: seq<Byte>)

  predicate Valid(s: CpuState)
  {
    s.sp <= StackSize && |s.stack| == StackSize && |s.regs| == RegisterCount && |s.ram| == MemorySize
  }

  /** A state between fetch and execute: `pc` has just been moved past a fetched word. */
  predicate Fetched(s: CpuState)
  {
    Valid(s) && 2 <= s.pc <= MemorySize
  }

  /** `ram` with the glyph set copied to `FontSetStart`. */
  function WithFontSet(ram: seq<Byte>): (r: seq<Byte>)
    requires |ram| == MemorySize
    ensures |r| == MemorySize
    ensures r[FontSetStart..FontSetStart + |FontSet|] == FontSet
    ensures forall a :: FontSetStart <= a < FontSetStart + |FontSet| ==> r[a] == FontSet[a - FontSetStart]
    ensures forall a :: 0 <= a < MemorySize && !(FontSetStart <= a < FontSetStart + |FontSet|) ==> r[a] == ram[a]
  {
    ram[..FontSetStart] + FontSet + ram[FontSetStart + |FontSet|..]
  }

  /** The state after construction: `pc` at the program start, all else zero, glyphs loaded. */
  function Reset(): (s: CpuState)
    ensures Valid(s) && s.pc == ProgramStart && s.i == 0 && s.sp == 0
    ensures forall r :: 0 <= r < RegisterCount ==> s.regs[r] == 0
    ensures s.ram[FontSetStart..FontSetStart + |FontSet|] == FontSet
    ensures forall a :: 0 <= a < MemorySize && !(FontSetStart <= a < FontSetStart + |FontSet|) ==> s.ram[a] == 0
  {
    CpuState(ProgramStart, 0, 0, seq(StackSize, _ => 0), seq(RegisterCount, _ => 0),
             WithFontSet(seq(MemorySize, _ => 0)))
  }

  /**
   * Copies a program image to `ProgramStart`. The source writes past the end of
   * memory for an oversized image; here that is the `ProgramTooLarge` fault.
   */
  function LoadProgram(s: CpuState, image: seq<Byte>): (r: Outcome<CpuState>)
    requires Valid(s)
    ensures r.Ok? <==> ProgramStart + |image| <= MemorySize
    ensures r.Err? ==> r.fault == ProgramTooLarge
    ensures r.Ok? ==> Valid(r.state) && r.state == s.(ram := r.state.ram)
    ensures r.Ok? ==> r.state.ram[ProgramStart..ProgramStart + |image|] == image
    ensures r.Ok? ==> forall a :: 0 <= a < MemorySize && !(ProgramStart <= a < ProgramStart + |image|)
                        ==> r.state.ram[a] == s.ram[a]
  {
    if ProgramStart + |image| > MemorySize then Err(ProgramTooLarge)
    else Ok(s.(ram := s.ram[..ProgramStart] + image + s.ram[ProgramStart + |image|..]))
  }

  function SetReg(s: CpuState, x: Nibble, v: Byte): (r: CpuState)
    requires Valid(s)
    ensures Valid(r) && r == s.(regs := r.regs) && r.regs[x] == v
    ensures forall k :: 0 <= k < RegisterCount && k != x ==> r.regs[k] == s.regs[k]
  {
    s.(regs := s.regs[x := v])
  }

  /** `00EE`: pop the return address. */
  function Return(s: CpuState): (r: Outcome<CpuState>)
    requires Valid(s)
    ensures r.Err? <==> s.sp == 0
    ensures r.Err? ==> r.fault == StackUnderflow
    ensures r.Ok? ==> r.state == s.(sp := s.sp - 1, pc := s.stack[s.sp - 1])
  {
    if s.sp == 0 then Err(StackUnderflow)
    else Ok(s.(sp := s.sp - 1, pc := s.stack[s.sp - 1]))
  }

  /** `2nnn`: push `pc` (already past this instruction) and jump to `nnn`. */
  function CallSubroutine(s: CpuState, nnn: Addr): (r: Outcome<CpuState>)
    requires Valid(s)
    ensures r.Err? <==> s.sp == StackSize
    ensures r.Err? ==> r.fault == StackOverflow
    ensures r.Ok? ==> Valid(r.state) && r.state.sp == s.sp + 1 && r.state.pc == nnn
    ensures r.Ok? ==> r.state == s.(stack := r.state.stack, sp := s.sp + 1, pc := nnn)
    ensures r.Ok? ==> r.state.stack[s.sp] == s.pc
    ensures r.Ok? ==> forall k :: 0 <= k < StackSize && k != s.sp ==> r.state.stack[k] == s.stack[k]
  {
    if s.sp == StackSize then Err(StackOverflow)
    else Ok(s.(stack := s.stack[s.sp := s.pc], sp := s.sp + 1, pc := nnn))
  }

  /**
   * `3xkk`, `4xkk`, `5xy0`, `9xy0`: skip the next instruction when `cond`
   * holds. The source adds 2 to `sp` here; the model adds 2 to `pc`, as
   * the instruction set intends.
   */
  function SkipIf(s: CpuState, cond: bool): (r: CpuState)
    requires Fetched(s)
    ensures Valid(r) && r == s.(pc := r.pc)
    ensures r.pc == if cond then s.pc + 2 else s.pc
  {
    if cond then s.(pc := s.pc + 2) else s
  }

  /**
   * `8xy4`: the sum is formed first, VF receives the carry, and only then
   * Vx receives the low byte of the sum (so for x = F the sum wins).
   */
  function AddRegs(s: CpuState, x: Nibble, y: Nibble): (r: CpuState)
    requires Valid(s)
    ensures Valid(r) && r == s.(regs := r.regs)
    ensures x != VF ==> r.regs[VF] as int * 0x100 + r.regs[x] as int == s.regs[x] as int + s.regs[y] as int
    ensures x != VF ==> (r.regs[VF] == 1 <==> s.regs[x] as int + s.regs[y] as int > 0xFF)
    ensures x == VF ==> r.regs[VF] == (s.regs[x] as int + s.regs[y] as int) % 0x100
    ensures forall k :: 0 <= k < RegisterCount && k != x && k != VF ==> r.regs[k] == s.regs[k]
  {
    var sum := s.regs[x] as int + s.regs[y] as int;
    var flagged := s.regs[VF := if sum > 0xFF then 1 else 0];
    s.(regs := flagged[x := sum % 0x100])
  }

  /**
   * `8xy5`: VF := 1 when Vx > Vy (strictly, so equal values give VF = 0),
   * then Vx := Vx - Vy modulo 256, read after the flag write.
   */
  function SubRegs(s: CpuState, x: Nibble, y: Nibble): (r: CpuState)
    requires Valid(s)
    ensures Valid(r) && r == s.(regs := r.regs)
    ensures x != VF ==> (r.regs[VF] == 1 <==> s.regs[x] > s.regs[y]) && r.regs[VF] <= 1
    ensures x != VF && y != VF ==>
      r.regs[x] == s.regs[x] as int - s.regs[y] as int + (if s.regs[x] >= s.regs[y] then 0 else 0x100)
    ensures forall k :: 0 <= k < RegisterCount && k != x && k != VF ==> r.regs[k] == s.regs[k]
  {
    var flagged := s.regs[VF := if s.regs[x] > s.regs[y] then 1 else 0];
    s.(regs := flagged[x := (flagged[x] as int - flagged[y] as int) % 0x100])
  }

  /** `8xy7`: VF := 1 when Vy > Vx (strictly), then Vx := Vy - Vx modulo 256. */
  function SubnRegs(s: CpuState, x: Nibble, y: Nibble): (r: CpuState)
    requires Valid(s)
    ensures Valid(r) && r == s.(regs := r.regs)
    ensures x != VF ==> (r.regs[VF] == 1 <==> s.regs[y] > s.regs[x]) && r.regs[VF] <= 1
    ensures x != VF && y != VF ==>
      r.regs[x] == s.regs[y] as int - s.regs[x] as int + (if s.regs[y] >= s.regs[x] then 0 else 0x100)
    ensures forall k :: 0 <= k < RegisterCount && k != x && k != VF ==> r.regs[k] == s.regs[k]
  {
    var flagged := s.regs[VF := if s.regs[x] < s.regs[y] then 1 else 0];
    s.(regs := flagged[x := (flagged[y] as int - flagged[x] as int) % 0x100])
  }

  /** `8xy6`: VF := Vx & 1, taken before Vx := Vx >> 1. */
  function ShiftRight(s: CpuState, x: Nibble): (r: CpuState)
    requires Valid(s)
    ensures Valid(r) && r == s.(regs := r.regs)
    ensures x != VF ==> s.regs[x] == 2 * r.regs[x] as int + r.regs[VF] as int && r.regs[VF] <= 1
    ensures x != VF ==> (r.regs[VF] == 1 <==> Bit(s.regs[x], 0))
    ensures x == VF ==> r.regs[VF] == 0
    ensures forall k :: 0 <= k < RegisterCount && k != x && k != VF ==> r.regs[k] == s.regs[k]
  {
    var flagged := s.regs[VF := s.regs[x] % 2];
    s.(regs := flagged[x := flagged[x] / 2])
  }

  /** `8xyE`: VF := (Vx & 0x80) >> 7, taken before Vx := (Vx << 1) modulo 256. */
  function ShiftLeft(s: CpuState, x: Nibble): (r: CpuState)
    requires Valid(s)
    ensures Valid(r) && r == s.(regs := r.regs)
    ensures x != VF ==> s.regs[x] == 0x80 * r.regs[VF] as int + r.regs[x] / 2 && r.regs[VF] <= 1
    ensures x != VF ==> r.regs[x] % 2 == 0
    ensures x == VF ==> r.regs[VF] == s.regs[VF] / 0x80 * 2
    ensures forall k :: 0 <= k < RegisterCount && k != x && k != VF ==> r.regs[k] == s.regs[k]
  {
    var flagged := s.regs[VF := s.regs[x] / 0x80];
    s.(regs := flagged[x := flagged[x] as int * 2 % 0x100])
  }

  /** The instructions that assign `pc` beyond the fetch's advance. */
  predicate ControlFlow(ins: Instr)
  {
    ins.Ret? || ins.Jp? || ins.Call? || ins.SeByte? || ins.SneByte? || ins.SeReg? || ins.SneReg? || ins.JpV0?
  }

  /** The loads into `Vx` and `I`: `6xkk`, `7xkk`, `Annn` and `Cxkk`. */
  predicate LoadOp(ins: Instr)
  {
    ins.LdByte? || ins.AddByte? || ins.LdI? || ins.Rnd?
  }

  /** `8xy0` to `8xy3`, which leave VF alone. */
  predicate LogicOp(ins: Instr)
  {
    ins.LdReg? || ins.OrReg? || ins.AndReg? || ins.XorReg?
  }

  /** `8xy4` to `8xyE`, which write VF. */
  predicate FlagOp(ins: Instr)
  {
    ins.AddReg? || ins.SubReg? || ins.Shr? || ins.SubnReg? || ins.Shl?
  }

  /**
   * Executes one decoded instruction on a state whose `pc` already points past
   * it. `00E0` and every instruction outside families 0..C change nothing here.
   */
  function Exec(s: CpuState, ins: Instr, rnd: Byte): (r: Outcome<CpuState>)
    requires Fetched(s)
    ensures r.Ok? ==> Valid(r.state) && r.state.ram == s.ram
    ensures r.Err? ==> ins.Ret? || ins.Call?
    ensures !ControlFlow(ins) ==> r.Ok? && r.state == s.(i := r.state.i, regs := r.state.regs)
  {
    if ControlFlow(ins) then ExecFlow(s, ins)
    else if LoadOp(ins) then Ok(ExecLoad(s, ins, rnd))
    else if LogicOp(ins) then Ok(ExecLogic(s, ins))
    else if FlagOp(ins) then Ok(ExecFlags(s, ins))
    else Ok(s)
  }

  /** Returns, jumps, calls and skips. */
  function ExecFlow(s: CpuState, ins: Instr): (r: Outcome<CpuState>)
    requires Fetched(s) && ControlFlow(ins)
    ensures r.Ok? ==> Valid(r.state) && r.state == s.(pc := r.state.pc, sp := r.state.sp, stack := r.state.stack)
    ensures r.Err? ==> ins.Ret? || ins.Call?
  {
    match ins
    case Ret => Return(s)
    case Jp(nnn) => Ok(s.(pc := nnn))
    case Call(nnn) => CallSubroutine(s, nnn)
    case SeByte(x, kk) => Ok(SkipIf(s, s.regs[x] == kk))
    case SneByte(x, kk) => Ok(SkipIf(s, s.regs[x] != kk))
    case SeReg(x, y) => Ok(SkipIf(s, s.regs[x] == s.regs[y]))
    case SneReg(x, y) => Ok(SkipIf(s, s.regs[x] != s.regs[y]))
    case JpV0(nnn) => Ok(s.(pc := s.regs[0] as int + nnn as int))
  }

  /** Loads into `Vx` and `I`. */
  function ExecLoad(s: CpuState, ins: Instr, rnd: Byte): (r: CpuState)
    requires Fetched(s) && LoadOp(ins)
    ensures Valid(r)
    ensures ins.LdI? ==> r == s.(i := ins.nnn)
    ensures !ins.LdI? ==> r == SetReg(s, ins.x, r.regs[ins.x])
  {
    match ins
    case LdByte(x, kk) => SetReg(s, x, kk)
    case AddByte(x, kk) => SetReg(s, x, (s.regs[x] as int + kk as int) % 0x100)
    case LdI(nnn) => s.(i := nnn)
    case Rnd(x, kk) => SetReg(s, x, And(rnd, kk))
  }

  /** `8xy0` to `8xy3`. */
  function ExecLogic(s: CpuState, ins: Instr): (r: CpuState)
    requires Fetched(s) && LogicOp(ins)
    ensures Valid(r) && r == SetReg(s, ins.x, r.regs[ins.x])
  {
    match ins
    case LdReg(x, y) => SetReg(s, x, s.regs[y])
    case OrReg(x, y) => SetReg(s, x, Or(s.regs[x], s.regs[y]))
    case AndReg(x, y) => SetReg(s, x, And(s.regs[x], s.regs[y]))
    case XorReg(x, y) => SetReg(s, x, Xor(s.regs[x], s.regs[y]))
  }

  /** `8xy4` to `8xyE`, which write VF. */
  function ExecFlags(s: CpuState, ins: Instr): (r: CpuState)
    requires Fetched(s) && FlagOp(ins)
    ensures Valid(r) && r == s.(regs := r.regs)
    ensures forall k :: 0 <= k < RegisterCount && k != ins.x && k != VF ==> r.regs[k] == s.regs[k]
  {
    match ins
    case AddReg(x, y) => AddRegs(s, x, y)
    case SubReg(x, y) => SubRegs(s, x, y)
    case Shr(x, _) => ShiftRight(s, x)
    case SubnReg(x, y) => SubnRegs(s, x, y)
    case Shl(x, _) => ShiftLeft(s, x)
  }

  /** One `cycle`: fetch at `pc`, advance `pc` by 2, decode (families 0..C) and execute. */
  function Step(s: CpuState, rnd: Byte): (r: Outcome<CpuState>)
    requires Valid(s)
    ensures r.Ok? ==> Valid(r.state)
    ensures s.pc + 1 >= MemorySize <==> r == Err(PcOutOfRange)
  {
    if s.pc + 1 >= MemorySize then Err(PcOutOfRange)
    else Exec(s.(pc := s.pc + 2), DecodeCpu(Fetch(s.ram, s.pc)), rnd)
  }

  /** The instruction `Step` executes next. */
  function NextInstr(s: CpuState): Instr
    requires Valid(s) && s.pc + 1 < MemorySize
  {
    DecodeCpu(Fetch(s.ram, s.pc))
  }

  /**
   * After a successful cycle `pc` is the fetched address plus 2 unless a jump,
   * call, return or skip reassigned it; no instruction of this engine faults
   * except a call on a full stack and a return on an empty one.
   */
  lemma StepAdvancesPc(s: CpuState, rnd: Byte)
    requires Valid(s) && s.pc + 1 < MemorySize
    requires !ControlFlow(NextInstr(s))
    ensures Step(s, rnd).Ok? && Step(s, rnd).state.pc == s.pc + 2
    ensures Step(s, rnd).state.sp == s.sp && Step(s, rnd).state.stack == s.stack
    ensures Step(s, rnd).state.ram == s.ram
  {
  }

  /**
   * `00E0`, the display, keypad and timer families and any unknown word only
   * advance `pc`: registers, memory and stack are unchanged.
   */
  lemma StepNoOp(s: CpuState, rnd: Byte)
    requires Valid(s) && s.pc + 1 < MemorySize
    requires NextInstr(s).Cls? || NextInstr(s).Unknown? || Family(Fetch(s.ram, s.pc)) >= 0xD
    ensures Step(s, rnd) == Ok(s.(pc := s.pc + 2))
  {
  }

  /**
   * `2nnn` followed by the `00EE` at `nnn` returns to the instruction after the
   * call with the original `sp`; only the stale stack slot records the call.
   */
  lemma CallThenReturn(s: CpuState, rnd1: Byte, rnd2: Byte)
    requires Valid(s) && s.pc + 1 < MemorySize && s.sp < StackSize
    requires NextInstr(s).Call? && NextInstr(s).nnn + 1 < MemorySize
    requires DecodeCpu(Fetch(s.ram, NextInstr(s).nnn)) == Ret
    ensures Step(s, rnd1).Ok? && Step(s, rnd1).state.sp == s.sp + 1
    ensures var t := Step(s, rnd1).state;
            Step(t, rnd2) == Ok(s.(pc := s.pc + 2, stack := s.stack[s.sp := s.pc + 2]))
  {
    var t := Step(s, rnd1).state;
    assert t.pc == NextInstr(s).nnn && t.ram == s.ram;
    assert NextInstr(t) == Ret;
  }

  /** A call with all 16 slots in use faults, and so does a return on an empty stack. */
  lemma StackBounds(s: CpuState, rnd: Byte)
    requires Valid(s) && s.pc + 1 < MemorySize
    ensures NextInstr(s).Call? && s.sp == StackSize ==> Step(s, rnd) == Err(StackOverflow)
    ensures NextInstr(s).Ret? && s.sp == 0 ==> Step(s, rnd) == Err(StackUnderflow)
  {
  }

  /** `7xkk` adds modulo 256 and leaves VF alone (unless x is F). */
  lemma AddByteWraps(s: CpuState, x: Nibble, kk: Byte, rnd: Byte)
    requires Fetched(s)
    ensures var r := Exec(s, AddByte(x, kk), rnd).state;
            r.regs[x] == (s.regs[x] as int + kk as int) % 0x100 && r == s.(regs := r.regs)
            && forall k :: 0 <= k < RegisterCount && k != x ==> r.regs[k] == s.regs[k]
  {
  }

  /**
   * `8xy0`..`8xy3` set Vx to Vy, Vx | Vy, Vx & Vy or Vx ^ Vy bit by bit, and
   * change no other register.
   */
  lemma LogicalOps(s: CpuState, x: Nibble, y: Nibble, rnd: Byte, k: nat)
    requires Fetched(s) && k < 8
    ensures Exec(s, LdReg(x, y), rnd).state.regs[x] == s.regs[y]
    ensures Bit(Exec(s, OrReg(x, y), rnd).state.regs[x], k) <==> Bit(s.regs[x], k) || Bit(s.regs[y], k)
    ensures Bit(Exec(s, AndReg(x, y), rnd).state.regs[x], k) <==> Bit(s.regs[x], k) && Bit(s.regs[y], k)
    ensures Bit(Exec(s, XorReg(x, y), rnd).state.regs[x], k) <==> Bit(s.regs[x], k) != Bit(s.regs[y], k)
    ensures forall ins | ins in {LdReg(x, y), OrReg(x, y), AndReg(x, y), XorReg(x, y)} ::
              Exec(s, ins, rnd).Ok? && Exec(s, ins, rnd).state == SetReg(s, x, Exec(s, ins, rnd).state.regs[x])
  {
    OrBits(s.regs[x], s.regs[y], k);
    AndBits(s.regs[x], s.regs[y], k);
    XorBits(s.regs[x], s.regs[y], k);
  }

  /** `Cxkk` sets Vx to the random byte masked by kk: no bit outside kk is set. */
  lemma RandomMasked(s: CpuState, x: Nibble, kk: Byte, rnd: Byte, k: nat)
    requires Fetched(s) && k < 8
    ensures var r := Exec(s, Rnd(x, kk), rnd).state;
            (Bit(r.regs[x], k) <==> Bit(rnd, k) && Bit(kk, k)) && r == SetReg(s, x, r.regs[x])
  {
    AndBits(rnd, kk, k);
  }

  /** `Annn` sets I, `1nnn` and `Bnnn` set `pc` (`Bnnn` to V0 + nnn); nothing else changes. */
  lemma AddressOps(s: CpuState, nnn: Addr, rnd: Byte)
    requires Fetched(s)
    ensures Exec(s, LdI(nnn), rnd) == Ok(s.(i := nnn))
    ensures Exec(s, Jp(nnn), rnd) == Ok(s.(pc := nnn))
    ensures Exec(s, JpV0(nnn), rnd) == Ok(s.(pc := s.regs[0] as int + nnn as int))
  {
  }
}

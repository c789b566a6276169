/**
 * The full engine of chip_8.rs as a pure state machine: the reduced engine's
 * state plus the two timers, the keypad and the 64x32 display, and the
 * instructions that use them (`00E0`, `Dxyn`, `Ex9E`, `ExA1`, the F family).
 */
module Chip8Semantics {
  import opened Bits
  import opened Isa
  import opened CpuSemantics

  const DisplaySize: nat := Width * Height

  datatype Machine = Machine(
    cpu: CpuState,
    delay: Byte,
    sound: Byte,
    keypad: seq<bool>,
    display: seq<bool>)

  predicate Valid(m: Machine)
  {
    CpuSemantics.Valid(m.cpu) && |m.keypad| == KeyCount && |m.display| == DisplaySize
  }

  /** A machine between fetch and execute. */
  predicate Fetched(m: Machine)
  {
    Valid(m) && 2 <= m.cpu.pc <= MemorySize
  }

  function Blank(): (d: seq<bool>)
    ensures |d| == DisplaySize && forall p :: 0 <= p < DisplaySize ==> !d[p]
  {
    seq(DisplaySize, _ => false)
  }

  /** The machine after construction: the reduced engine's reset, timers zero, no key down, screen off. */
  function Reset(): (m: Machine)
    ensures Valid(m) && m.cpu == CpuSemantics.Reset() && m.delay == 0 && m.sound == 0
    ensures forall k :: 0 <= k < KeyCount ==> !m.keypad[k]
    ensures forall p :: 0 <= p < DisplaySize ==> !m.display[p]
  {
    Machine(CpuSemantics.Reset(), 0, 0, seq(KeyCount, _ => false), Blank())
  }

  /** An outcome of the reduced engine, with the timers, keypad and display carried along. */
  function Lift(m: Machine, r: Outcome<CpuState>): Outcome<Machine>
  {
    match r
    case Ok(c) => Ok(m.(cpu := c))
    case Err(f) => Err(f)
  }

  /** `load_program` of chip_8.rs, which is that of cpu.rs on the embedded state. */
  function LoadProgram(m: Machine, image: seq<Byte>): (r: Outcome<Machine>)
    requires Valid(m)
    ensures r.Ok? <==> ProgramStart + |image| <= MemorySize
    ensures r.Ok? ==> Valid(r.state) && r.state == m.(cpu := r.state.cpu)
    ensures r.Ok? ==> r.state.cpu.ram[ProgramStart..ProgramStart + |image|] == image
    ensures r.Ok? ==> r.state.cpu == CpuSemantics.LoadProgram(m.cpu, image).state
    ensures r.Err? ==> r.fault == ProgramTooLarge
  {
    Lift(m, CpuSemantics.LoadProgram(m.cpu, image))
  }

  // ----- timers -----

  /** One decrement of a timer that stops at zero. */
  function Decay(t: Byte): (r: Byte)
    ensures t > 0 ==> r == t - 1
    ensures t == 0 ==> r == 0
  {
    if t > 0 then t - 1 else 0
  }

  /** The end of every `cycle`: both timers decay. */
  function Tick(m: Machine): (r: Machine)
    ensures r == m.(delay := r.delay, sound := r.sound)
    ensures m.delay > 0 ==> r.delay == m.delay - 1
    ensures m.delay == 0 ==> r.delay == 0
    ensures m.sound > 0 ==> r.sound == m.sound - 1
    ensures m.sound == 0 ==> r.sound == 0
  {
    m.(delay := Decay(m.delay), sound := Decay(m.sound))
  }

  // ----- the display and `Dxyn` -----

  /** Sprite rows `ram[i..i+n]` are all inside memory. */
  predicate SpriteInRange(i: nat, n: nat)
  {
    n == 0 || i + n <= MemorySize
  }

  /** Pixel `col` of a sprite row, counted from the most significant bit. */
  predicate SpriteBit(b: Byte, col: nat)
    requires col < 8
  {
    Bit(b, 7 - col)
  }

  /**
   * Whether display cell `p` lies under a set pixel of the `n`-row sprite at
   * `ram[i..]` drawn with its top-left corner at `(x0, y0)`. Only cells of the
   * screen are considered, so sprite pixels past the right or bottom edge are
   * clipped rather than wrapped.
   */
  predicate Covers(ram: seq<Byte>, i: nat, n: nat, x0: nat, y0: nat, p: nat)
    requires |ram| == MemorySize && SpriteInRange(i, n)
  {
    var px := p % Width;
    var py := p / Width;
    x0 <= px < x0 + 8 && y0 <= py < y0 + n && SpriteBit(ram[i + (py - y0)], px - x0)
  }

  /**
   * The on-screen cell `(x0 + col, y0 + row)` is covered exactly when pixel
   * `col` of sprite row `row` is set.
   */
  lemma CoversPixel(ram: seq<Byte>, i: nat, n: nat, x0: nat, y0: nat, row: nat, col: nat)
    requires |ram| == MemorySize && SpriteInRange(i, n) && row < n && col < 8
    requires x0 + col < Width && y0 + row < Height
    ensures (y0 + row) * Width + x0 + col < DisplaySize
    ensures Covers(ram, i, n, x0, y0, (y0 + row) * Width + x0 + col) <==> SpriteBit(ram[i + row], col)
  {
    var p := (y0 + row) * Width + x0 + col;
    assert p / Width == y0 + row && p % Width == x0 + col;
  }

  /** The display with every covered cell toggled. */
  function DrawSprite(display: seq<bool>, ram: seq<Byte>, i: nat, n: nat, x0: nat, y0: nat): (d: seq<bool>)
    requires |display| == DisplaySize && |ram| == MemorySize && SpriteInRange(i, n)
    ensures |d| == DisplaySize
    ensures forall p :: 0 <= p < DisplaySize ==> d[p] == (display[p] != Covers(ram, i, n, x0, y0, p))
  {
    seq(DisplaySize, p requires 0 <= p < DisplaySize => display[p] != Covers(ram, i, n, x0, y0, p))
  }

  /** Whether the sprite covers a cell that is on. */
  predicate Collides(display: seq<bool>, ram: seq<Byte>, i: nat, n: nat, x0: nat, y0: nat)
    requires |display| == DisplaySize && |ram| == MemorySize && SpriteInRange(i, n)
  {
    exists p :: 0 <= p < DisplaySize && display[p] && Covers(ram, i, n, x0, y0, p)
  }

  /**
   * `Dxyn`: XOR the `n`-row sprite at `I` onto the display at `(Vx mod 64, Vy mod 32)`;
   * VF reports whether some lit cell went dark. Reading a sprite row past the
   * end of memory is a fault.
   */
  function Draw(m: Machine, x: Nibble, y: Nibble, n: Nibble): (r: Outcome<Machine>)
    requires Valid(m)
    ensures r.Err? <==> !SpriteInRange(m.cpu.i, n)
    ensures r.Err? ==> r.fault == AddressOutOfRange
    ensures r.Ok? ==> Valid(r.state) && r.state.cpu == SetReg(m.cpu, VF, r.state.cpu.regs[VF])
    ensures r.Ok? ==> r.state == m.(cpu := r.state.cpu, display := r.state.display)
    ensures r.Ok? ==> r.state.cpu.regs[VF] in {0, 1}
    ensures r.Ok? ==> (r.state.cpu.regs[VF] == 1 <==>
                         exists p :: 0 <= p < DisplaySize && m.display[p] && !r.state.display[p])
    ensures r.Ok? ==> forall p :: 0 <= p < DisplaySize ==>
              r.state.display[p] == (m.display[p] != Covers(m.cpu.ram, m.cpu.i, n, m.cpu.regs[x] % Width, m.cpu.regs[y] % Height, p))
  {
    if !SpriteInRange(m.cpu.i, n) then Err(AddressOutOfRange)
    else
      var x0 := m.cpu.regs[x] % Width;
      var y0 := m.cpu.regs[y] % Height;
      var d := DrawSprite(m.display, m.cpu.ram, m.cpu.i, n, x0, y0);
      var collided := Collides(m.display, m.cpu.ram, m.cpu.i, n, x0, y0);
      CollidesIffCleared(m.display, m.cpu.ram, m.cpu.i, n, x0, y0);
      Ok(m.(cpu := SetReg(m.cpu, VF, if collided then 1 else 0), display := d))
  }

  /** A collision is exactly a lit cell that the toggle turns off. */
  lemma CollidesIffCleared(display: seq<bool>, ram: seq<Byte>, i: nat, n: nat, x0: nat, y0: nat)
    requires |display| == DisplaySize && |ram| == MemorySize && SpriteInRange(i, n)
    ensures var d := DrawSprite(display, ram, i, n, x0, y0);
            Collides(display, ram, i, n, x0, y0) <==> exists p :: 0 <= p < DisplaySize && display[p] && !d[p]
  {
    var d := DrawSprite(display, ram, i, n, x0, y0);
    if Collides(display, ram, i, n, x0, y0) {
      var p :| 0 <= p < DisplaySize && display[p] && Covers(ram, i, n, x0, y0, p);
      assert display[p] && !d[p];
    }
    if exists p :: 0 <= p < DisplaySize && display[p] && !d[p] {
      var p :| 0 <= p < DisplaySize && display[p] && !d[p];
      assert Covers(ram, i, n, x0, y0, p);
    }
  }

  // ----- keys -----

  /** The lowest index of a key that is down, as `Fx0A` scans them. */
  function FirstPressed(keys: seq<bool>): (r: Option<nat>)
    ensures r.None? <==> forall k :: 0 <= k < |keys| ==> !keys[k]
    ensures r.Some? ==> r.value < |keys| && keys[r.value] && forall k :: 0 <= k < r.value ==> !keys[k]
  {
    if |keys| == 0 then None
    else if keys[0] then Some(0)
    else match FirstPressed(keys[1..])
      case None => None
      case Some(k) => Some(k + 1)
  }

  /** `Ex9E` and `ExA1`: skip when key Vx is (is not) down; a key index past 15 is a fault. */
  function SkipKey(m: Machine, x: Nibble, down: bool): (r: Outcome<Machine>)
    requires Fetched(m)
    ensures r.Err? <==> m.cpu.regs[x] >= KeyCount
    ensures r.Err? ==> r.fault == KeyOutOfRange
    ensures r.Ok? ==> r.state == m.(cpu := m.cpu.(pc := r.state.cpu.pc))
    ensures r.Ok? ==> r.state.cpu.pc == if m.keypad[m.cpu.regs[x]] == down then m.cpu.pc + 2 else m.cpu.pc
  {
    var key := m.cpu.regs[x];
    if key >= KeyCount then Err(KeyOutOfRange)
    else Ok(m.(cpu := SkipIf(m.cpu, m.keypad[key] == down)))
  }

  /**
   * `Fx0A`: Vx := the lowest key that is down; with no key down `pc` goes back
   * by 2, so the instruction runs again on the next cycle.
   */
  function WaitKey(m: Machine, x: Nibble): (r: Machine)
    requires Fetched(m)
    ensures Valid(r)
    ensures (forall k :: 0 <= k < KeyCount ==> !m.keypad[k]) ==>
              r == m.(cpu := m.cpu.(pc := m.cpu.pc - 2))
    ensures forall k :: 0 <= k < KeyCount && m.keypad[k] && (forall j :: 0 <= j < k ==> !m.keypad[j]) ==>
              r == m.(cpu := SetReg(m.cpu, x, k))
  {
    match FirstPressed(m.keypad)
    case None => m.(cpu := m.cpu.(pc := m.cpu.pc - 2))
    case Some(k) => m.(cpu := SetReg(m.cpu, x, k))
  }

  // ----- the F family on memory -----

  /** The decimal digits of a byte, hundreds first, as `Fx33` computes them. */
  function Digits(v: Byte): (d: seq<Byte>)
    ensures |d| == 3 && d[0] < 10 && d[1] < 10 && d[2] < 10
    ensures 100 * d[0] as int + 10 * d[1] as int + d[2] as int == v
  {
    [v / 10 / 10 % 10, v / 10 % 10, v % 10]
  }

  /** `Fx33`: the digits of Vx at `ram[I]`, `ram[I+1]`, `ram[I+2]`. */
  function StoreBcd(m: Machine, x: Nibble): (r: Outcome<Machine>)
    requires Valid(m)
    ensures r.Err? <==> m.cpu.i + 2 >= MemorySize
    ensures r.Err? ==> r.fault == AddressOutOfRange
    ensures r.Ok? ==> Valid(r.state) && r.state == m.(cpu := m.cpu.(ram := r.state.cpu.ram))
    ensures r.Ok? ==> r.state.cpu.ram[m.cpu.i..m.cpu.i + 3] == Digits(m.cpu.regs[x])
    ensures r.Ok? ==> forall a :: 0 <= a < MemorySize && !(m.cpu.i <= a < m.cpu.i + 3) ==>
                        r.state.cpu.ram[a] == m.cpu.ram[a]
  {
    var i := m.cpu.i;
    if i + 2 >= MemorySize then Err(AddressOutOfRange)
    else Ok(m.(cpu := m.cpu.(ram := m.cpu.ram[..i] + Digits(m.cpu.regs[x]) + m.cpu.ram[i + 3..])))
  }

  /** `Fx55`: V0..Vx (inclusive) to `ram[I..I+x+1]`. */
  function StoreRegisters(m: Machine, x: Nibble): (r: Outcome<Machine>)
    requires Valid(m)
    ensures r.Err? <==> m.cpu.i + x >= MemorySize
    ensures r.Err? ==> r.fault == AddressOutOfRange
    ensures r.Ok? ==> Valid(r.state) && r.state == m.(cpu := m.cpu.(ram := r.state.cpu.ram))
    ensures r.Ok? ==> forall a :: 0 <= a < MemorySize ==>
              r.state.cpu.ram[a] == if m.cpu.i <= a <= m.cpu.i + x then m.cpu.regs[a - m.cpu.i] else m.cpu.ram[a]
  {
    var i := m.cpu.i;
    if i + x >= MemorySize then Err(AddressOutOfRange)
    else Ok(m.(cpu := m.cpu.(ram := m.cpu.ram[..i] + m.cpu.regs[..x + 1] + m.cpu.ram[i + x + 1..])))
  }

  /** `Fx65`: `ram[I..I+x+1]` to V0..Vx (inclusive). */
  function LoadRegisters(m: Machine, x: Nibble): (r: Outcome<Machine>)
    requires Valid(m)
    ensures r.Err? <==> m.cpu.i + x >= MemorySize
    ensures r.Err? ==> r.fault == AddressOutOfRange
    ensures r.Ok? ==> Valid(r.state) && r.state == m.(cpu := m.cpu.(regs := r.state.cpu.regs))
    ensures r.Ok? ==> forall k :: 0 <= k < RegisterCount ==>
              r.state.cpu.regs[k] == if k <= x then m.cpu.ram[m.cpu.i + k] else m.cpu.regs[k]
  {
    var i := m.cpu.i;
    if i + x >= MemorySize then Err(AddressOutOfRange)
    else Ok(m.(cpu := m.cpu.(regs := m.cpu.ram[i..i + x + 1] + m.cpu.regs[x + 1..])))
  }

  // ----- dispatch and cycle -----

  /** `00E0` and the instructions that read the keypad or draw: `Dxyn`, `Ex9E`, `ExA1`. */
  predicate ScreenKeyOp(ins: Instr)
  {
    ins.Cls? || ins.Drw? || ins.Skp? || ins.Sknp?
  }

  /** The timer transfers `Fx07`, `Fx15` and `Fx18`. */
  predicate TimerOp(ins: Instr)
  {
    ins.LdVxDt? || ins.LdDtVx? || ins.LdStVx?
  }

  /** `Fx0A` and the updates of `I` by `Fx1E` and `Fx29`. */
  predicate KeyIndexOp(ins: Instr)
  {
    ins.LdVxKey? || ins.AddI? || ins.LdGlyph?
  }

  /** The memory transfers `Fx33`, `Fx55` and `Fx65`. */
  predicate MemoryOp(ins: Instr)
  {
    ins.LdBcd? || ins.StoreRegs? || ins.LoadRegs?
  }

  /**
   * Execute a decoded instruction on a machine whose `pc` is already past it.
   * The instructions the reduced engine knows behave exactly as there.
   */
  function Exec(m: Machine, ins: Instr, rnd: Byte): (r: Outcome<Machine>)
    requires Fetched(m)
    ensures r.Ok? ==> Valid(r.state) && r.state.keypad == m.keypad
    ensures r.Ok? && !ins.Cls? && !ins.Drw? ==> r.state.display == m.display
    ensures r.Ok? && !ins.LdDtVx? && !ins.LdStVx? ==> r.state.delay == m.delay && r.state.sound == m.sound
  {
    if ScreenKeyOp(ins) then ExecScreenKeys(m, ins)
    else if TimerOp(ins) then Ok(ExecTimers(m, ins))
    else if KeyIndexOp(ins) then Ok(ExecKeyIndex(m, ins))
    else if MemoryOp(ins) then ExecMemory(m, ins)
    else Lift(m, CpuSemantics.Exec(m.cpu, ins, rnd))
  }

  /** `00E0`, `Dxyn`, `Ex9E` and `ExA1`. */
  function ExecScreenKeys(m: Machine, ins: Instr): (r: Outcome<Machine>)
    requires Fetched(m) && ScreenKeyOp(ins)
    ensures r.Ok? ==> Valid(r.state) && r.state == m.(cpu := r.state.cpu, display := r.state.display)
    ensures r.Ok? && !ins.Cls? && !ins.Drw? ==> r.state.display == m.display
    ensures r.Ok? ==> r.state.cpu.ram == m.cpu.ram && r.state.cpu.i == m.cpu.i
  {
    match ins
    case Cls => Ok(m.(display := Blank()))
    case Drw(x, y, n) => Draw(m, x, y, n)
    case Skp(x) => SkipKey(m, x, true)
    case Sknp(x) => SkipKey(m, x, false)
  }

  /** `Fx07`, `Fx15` and `Fx18`. */
  function ExecTimers(m: Machine, ins: Instr): (r: Machine)
    requires Fetched(m) && TimerOp(ins)
    ensures Valid(r) && r == m.(cpu := r.cpu, delay := r.delay, sound := r.sound)
    ensures r.cpu == SetReg(m.cpu, ins.x, r.cpu.regs[ins.x])
    ensures ins.LdVxDt? ==> r.cpu.regs[ins.x] == m.delay && r.delay == m.delay && r.sound == m.sound
    ensures !ins.LdVxDt? ==> r.cpu == m.cpu
    ensures ins.LdDtVx? ==> r.delay == m.cpu.regs[ins.x] && r.sound == m.sound
    ensures ins.LdStVx? ==> r.sound == m.cpu.regs[ins.x] && r.delay == m.delay
  {
    match ins
    case LdVxDt(x) => m.(cpu := SetReg(m.cpu, x, m.delay))
    case LdDtVx(x) => m.(delay := m.cpu.regs[x])
    case LdStVx(x) => m.(sound := m.cpu.regs[x])
  }

  /** `Fx0A`, `Fx1E` and `Fx29`. */
  function ExecKeyIndex(m: Machine, ins: Instr): (r: Machine)
    requires Fetched(m) && KeyIndexOp(ins)
    ensures Valid(r) && r == m.(cpu := r.cpu)
    ensures r.cpu.ram == m.cpu.ram && r.cpu.sp == m.cpu.sp && r.cpu.stack == m.cpu.stack
    ensures !ins.LdVxKey? ==> r.cpu == m.cpu.(i := r.cpu.i)
  {
    var s := m.cpu;
    match ins
    case LdVxKey(x) => WaitKey(m, x)
    case AddI(x) => m.(cpu := s.(i := (s.i as int + s.regs[x] as int) % 0x1_0000))
    // `5 * Vx` is a byte product in the source, so it wraps modulo 256
    case LdGlyph(x) => m.(cpu := s.(i := FontSetStart + (5 * s.regs[x] as int) % 0x100))
  }

  /** `Fx33`, `Fx55` and `Fx65`. */
  function ExecMemory(m: Machine, ins: Instr): (r: Outcome<Machine>)
    requires Fetched(m) && MemoryOp(ins)
    ensures r.Ok? ==> Valid(r.state) && r.state == m.(cpu := r.state.cpu)
    ensures r.Ok? ==> r.state.cpu == m.cpu.(ram := r.state.cpu.ram, regs := r.state.cpu.regs)
    ensures r.Err? <==> m.cpu.i + (if ins.LdBcd? then 2 else ins.x) >= MemorySize
  {
    match ins
    case LdBcd(x) => StoreBcd(m, x)
    case StoreRegs(x) => StoreRegisters(m, x)
    case LoadRegs(x) => LoadRegisters(m, x)
  }

  /** The instruction the next `cycle` executes. */
  function NextInstr(m: Machine): Instr
    requires Valid(m) && m.cpu.pc + 1 < MemorySize
  {
    Decode(Fetch(m.cpu.ram, m.cpu.pc))
  }

  /**
   * One `cycle`: fetch the word at `pc`, advance `pc` by 2, decode and execute,
   * then decay both timers. A fault leaves the machine as it was.
   */
  function Step(m: Machine, rnd: Byte): (r: Outcome<Machine>)
    requires Valid(m)
    ensures r.Ok? ==> Valid(r.state)
    ensures m.cpu.pc + 1 >= MemorySize ==> r == Err(PcOutOfRange)
    ensures r.Ok? ==> r.state.delay == Decay(if NextInstr(m).LdDtVx? then m.cpu.regs[NextInstr(m).x] else m.delay)
    ensures r.Ok? ==> r.state.sound == Decay(if NextInstr(m).LdStVx? then m.cpu.regs[NextInstr(m).x] else m.sound)
  {
    if m.cpu.pc + 1 >= MemorySize then Err(PcOutOfRange)
    else
      match Exec(m.(cpu := m.cpu.(pc := m.cpu.pc + 2)), NextInstr(m), rnd)
      case Ok(next) => Ok(Tick(next))
      case Err(f) => Err(f)
  }

  // ----- properties -----

  /** An unknown word advances `pc` by 2 and decays the timers; nothing else changes. */
  lemma UnknownSkipped(m: Machine, rnd: Byte)
    requires Valid(m) && m.cpu.pc + 1 < MemorySize && NextInstr(m).Unknown?
    ensures Step(m, rnd) == Ok(Tick(m.(cpu := m.cpu.(pc := m.cpu.pc + 2))))
  {
  }

  /**
   * On every instruction the reduced engine dispatches except `00E0` (a no-op
   * there), a cycle of the full engine is a cycle of the reduced engine
   * followed by the timer decay.
   */
  lemma AgreesWithCpu(m: Machine, rnd: Byte)
    requires Valid(m) && m.cpu.pc + 1 < MemorySize && NextInstr(m).CpuOp() && !NextInstr(m).Cls?
    ensures Step(m, rnd) == match CpuSemantics.Step(m.cpu, rnd)
                            case Ok(c) => Ok(Tick(m.(cpu := c)))
                            case Err(f) => Err(f)
  {
    assert CpuSemantics.NextInstr(m.cpu) == NextInstr(m);
  }

  /**
   * `2nnn` followed by the `00EE` at `nnn`: `pc` is back after the call, `sp`
   * is restored, and the timers have decayed twice.
   */
  lemma CallThenReturn(m: Machine, rnd1: Byte, rnd2: Byte)
    requires Valid(m) && m.cpu.pc + 1 < MemorySize && m.cpu.sp < StackSize
    requires NextInstr(m).Call? && NextInstr(m).nnn + 1 < MemorySize
    requires Decode(Fetch(m.cpu.ram, NextInstr(m).nnn)) == Ret
    ensures Step(m, rnd1).Ok?
    ensures var t := Step(m, rnd1).state;
            Step(t, rnd2) == Ok(Tick(Tick(m)).(cpu := m.cpu.(pc := m.cpu.pc + 2, stack := m.cpu.stack[m.cpu.sp := m.cpu.pc + 2])))
  {
    AgreesWithCpu(m, rnd1);
    CpuSemantics.CallThenReturn(m.cpu, rnd1, rnd2);
    var t := Step(m, rnd1).state;
    assert t.cpu.ram == m.cpu.ram && t.cpu.pc == NextInstr(m).nnn;
    assert NextInstr(t) == Ret;
    AgreesWithCpu(t, rnd2);
  }

  /**
   * `Fx0A` with no key down leaves the machine where it was apart from the
   * timers: the same instruction is fetched again on the next cycle.
   */
  lemma WaitKeyRepeats(m: Machine, rnd: Byte)
    requires Valid(m) && m.cpu.pc + 1 < MemorySize && NextInstr(m).LdVxKey?
    requires forall k :: 0 <= k < KeyCount ==> !m.keypad[k]
    ensures Step(m, rnd) == Ok(Tick(m))
    ensures NextInstr(Step(m, rnd).state) == NextInstr(m)
  {
  }

  /** `Fx0A` with some key down stores the lowest such key and moves on. */
  lemma WaitKeyTakesLowest(m: Machine, rnd: Byte, k: nat)
    requires Valid(m) && m.cpu.pc + 1 < MemorySize && NextInstr(m).LdVxKey?
    requires k < KeyCount && m.keypad[k] && forall j :: 0 <= j < k ==> !m.keypad[j]
    ensures Step(m, rnd).Ok?
    ensures var r := Step(m, rnd).state;
            r.cpu.regs[NextInstr(m).x] == k && r.cpu.pc == m.cpu.pc + 2
  {
  }

  /** Toggling the same cells twice restores the display. */
  lemma DrawSpriteTwice(display: seq<bool>, ram: seq<Byte>, i: nat, n: nat, x0: nat, y0: nat)
    requires |display| == DisplaySize && |ram| == MemorySize && SpriteInRange(i, n)
    ensures DrawSprite(DrawSprite(display, ram, i, n, x0, y0), ram, i, n, x0, y0) == display
  {
    var d1 := DrawSprite(display, ram, i, n, x0, y0);
    var d2 := DrawSprite(d1, ram, i, n, x0, y0);
    forall p | 0 <= p < DisplaySize
      ensures d2[p] == display[p]
    {
      assert d1[p] == (display[p] != Covers(ram, i, n, x0, y0, p));
    }
  }

  /**
   * Drawing the same sprite twice at the same place (with neither coordinate
   * register being VF) restores the display, and the second draw reports a
   * collision exactly when the sprite covers a cell that was off before the first.
   */
  lemma {:induction false} DrawTwice(m: Machine, x: Nibble, y: Nibble, n: Nibble)
    requires Valid(m) && x != VF && y != VF && SpriteInRange(m.cpu.i, n)
    ensures Draw(m, x, y, n).Ok? && Draw(Draw(m, x, y, n).state, x, y, n).Ok?
    ensures var m2 := Draw(Draw(m, x, y, n).state, x, y, n).state;
            m2.display == m.display
            && (m2.cpu.regs[VF] == 1 <==>
                exists p :: 0 <= p < DisplaySize && !m.display[p]
                  && Covers(m.cpu.ram, m.cpu.i, n, m.cpu.regs[x] % Width, m.cpu.regs[y] % Height, p))
  {
    var x0, y0 := m.cpu.regs[x] % Width, m.cpu.regs[y] % Height;
    var ram, i := m.cpu.ram, m.cpu.i;
    var m1 := Draw(m, x, y, n).state;
    assert m1.cpu.regs[x] == m.cpu.regs[x] && m1.cpu.regs[y] == m.cpu.regs[y];
    var d1 := DrawSprite(m.display, ram, i, n, x0, y0);
    assert m1.display == d1;
    DrawSpriteTwice(m.display, ram, i, n, x0, y0);
    var m2 := Draw(m1, x, y, n).state;
    assert m2.cpu.regs[VF] == if Collides(d1, ram, i, n, x0, y0) then 1 else 0;
    if Collides(d1, ram, i, n, x0, y0) {
      var p :| 0 <= p < DisplaySize && d1[p] && Covers(ram, i, n, x0, y0, p);
      assert !m.display[p];
    }
    if exists p :: 0 <= p < DisplaySize && !m.display[p] && Covers(ram, i, n, x0, y0, p) {
      var p :| 0 <= p < DisplaySize && !m.display[p] && Covers(ram, i, n, x0, y0, p);
      assert d1[p];
    }
  }

  /**
   * On a dark screen, a sprite whose first row has its leftmost pixel set
   * draws without collision; drawing it again darkens the screen and reports VF = 1.
   */
  lemma DrawTwiceOnBlank(m: Machine, x: Nibble, y: Nibble, n: Nibble)
    requires Valid(m) && x != VF && y != VF && m.display == Blank()
    requires n > 0 && m.cpu.i + n <= MemorySize && SpriteBit(m.cpu.ram[m.cpu.i], 0)
    ensures Draw(m, x, y, n).Ok? && Draw(m, x, y, n).state.cpu.regs[VF] == 0
    ensures var m2 := Draw(Draw(m, x, y, n).state, x, y, n).state;
            m2.display == Blank() && m2.cpu.regs[VF] == 1
  {
    DrawTwice(m, x, y, n);
    var x0, y0 := m.cpu.regs[x] % Width, m.cpu.regs[y] % Height;
    var origin := y0 * Width + x0;
    assert origin % Width == x0 && origin / Width == y0;
    assert Covers(m.cpu.ram, m.cpu.i, n, x0, y0, origin);
    assert !m.display[origin];
  }

  /** `Fx33` on 157 stores 1, 5, 7. */
  lemma DigitsOf157()
    ensures Digits(157) == [1, 5, 7]
  {
  }

  /**
   * `Fx29` with a digit 0..F in Vx points I at that digit's five-byte glyph,
   * wherever the glyph set sits in memory as after reset.
   */
  lemma GlyphAddress(m: Machine, x: Nibble, rnd: Byte)
    requires Fetched(m) && m.cpu.regs[x] < 0x10
    requires m.cpu.ram[FontSetStart..FontSetStart + |FontSet|] == FontSet
    ensures Exec(m, LdGlyph(x), rnd).Ok?
    ensures var i := Exec(m, LdGlyph(x), rnd).state.cpu.i;
            i == FontSetStart + 5 * m.cpu.regs[x] as int
            && m.cpu.ram[i..i + 5] == FontSet[5 * m.cpu.regs[x] as int..5 * m.cpu.regs[x] as int + 5]
  {
    var d := m.cpu.regs[x] as int;
    assert (5 * d) % 0x100 == 5 * d;
    assert Exec(m, LdGlyph(x), rnd) == Ok(ExecKeyIndex(m, LdGlyph(x)));
    GlyphSlice(m.cpu.ram, d);
  }

  /** With the glyph set at 0x50, the five bytes at `0x50 + 5 * d` are digit `d`'s glyph. */
  lemma GlyphSlice(ram: seq<Byte>, d: int)
    requires |ram| == MemorySize && 0 <= d < 0x10
    requires ram[FontSetStart..FontSetStart + |FontSet|] == FontSet
    ensures ram[FontSetStart + 5 * d..FontSetStart + 5 * d + 5] == FontSet[5 * d..5 * d + 5]
  {
    var i := FontSetStart + 5 * d;
    forall a | i <= a < i + 5
      ensures ram[a] == FontSet[a - FontSetStart]
    {
      assert ram[a] == ram[FontSetStart..FontSetStart + |FontSet|][a - FontSetStart];
    }
  }

  /** `Fx55` followed by `Fx65` with the same x and I leaves the registers as they were. */
  lemma StoreThenLoad(m: Machine, x: Nibble)
    requires Valid(m) && StoreRegisters(m, x).Ok?
    ensures LoadRegisters(StoreRegisters(m, x).state, x) == StoreRegisters(m, x)
  {
    var m1 := StoreRegisters(m, x).state;
    var m2 := LoadRegisters(m1, x).state;
    assert m2.cpu.regs == m1.cpu.regs;
  }

  /** `Fx65` followed by `Fx55` with the same x and I leaves memory as it was. */
  lemma LoadThenStore(m: Machine, x: Nibble)
    requires Valid(m) && LoadRegisters(m, x).Ok?
    ensures StoreRegisters(LoadRegisters(m, x).state, x) == LoadRegisters(m, x)
  {
    var m1 := LoadRegisters(m, x).state;
    var m2 := StoreRegisters(m1, x).state;
    assert m2.cpu.ram == m1.cpu.ram;
  }
}

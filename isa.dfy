/**
 * The CHIP-8 instruction set as both engines see it: machine constants, the
 * built-in hex glyphs, big-endian instruction fetch, and the two-level decode
 * of a 16-bit instruction word into an instruction.
 */
module Isa {
  import opened Bits

  datatype Option<T> = None | Some(value: T)

  const MemorySize: int := 4096
  const StackSize: int := 16
  const RegisterCount: int := 16
  const KeyCount: int := 16
  const Width: int := 64
  const Height: int := 32
  const ProgramStart: int := 0x200
  const FontSetStart: int := 0x50
  /** Register 0xF doubles as the carry, borrow and collision flag. */
  const VF: Nibble := 0xF

  /** The sixteen 5-byte glyphs for the hex digits 0..F, loaded at `FontSetStart`. */
  const FontSet: seq<Byte> := [
    0xF0, 0x90, 0x90, 0x90, 0xF0, // 0
    0x20, 0x60, 0x20, 0x20, 0x70, // 1
    0xF0, 0x10, 0xF0, 0x80, 0xF0, // 2
    0xF0, 0x10, 0xF0, 0x10, 0xF0, // 3
    0x90, 0x90, 0xF0, 0x10, 0x10, // 4
    0xF0, 0x80, 0xF0, 0x10, 0xF0, // 5
    0xF0, 0x80, 0xF0, 0x90, 0xF0, // 6
    0xF0, 0x10, 0x20, 0x40, 0x40, // 7
    0xF0, 0x90, 0xF0, 0x90, 0xF0, // 8
    0xF0, 0x90, 0xF0, 0x10, 0xF0, // 9
    0xF0, 0x90, 0xF0, 0x90, 0x90, // A
    0xE0, 0x90, 0xE0, 0x90, 0xE0, // B
    0xF0, 0x80, 0x80, 0x80, 0xF0, // C
    0xE0, 0x90, 0x90, 0x90, 0xE0, // D
    0xF0, 0x80, 0xF0, 0x80, 0xF0, // E
    0xF0, 0x80, 0xF0, 0x80, 0x80  // F
  ]

  /** A 12-bit address operand `nnn`. */
  type Addr = x: int | 0 <= x < 0x1000

  /** One decoded instruction; the comment on each case is its opcode pattern. */
  datatype Instr =
    | Cls                           // 00E0
    | Ret                           // 00EE
    | Jp(nnn: Addr)                 // 1nnn
    | Call(nnn: Addr)               // 2nnn
    | SeByte(x: Nibble, kk: Byte)   // 3xkk
    | SneByte(x: Nibble, kk: Byte)  // 4xkk
    | SeReg(x: Nibble, y: Nibble)   // 5xy0
    | LdByte(x: Nibble, kk: Byte)   // 6xkk
    | AddByte(x: Nibble, kk: Byte)  // 7xkk
    | LdReg(x: Nibble, y: Nibble)   // 8xy0
    | OrReg(x: Nibble, y: Nibble)   // 8xy1
    | AndReg(x: Nibble, y: Nibble)  // 8xy2
    | XorReg(x: Nibble, y: Nibble)  // 8xy3
    | AddReg(x: Nibble, y: Nibble)  // 8xy4
    | SubReg(x: Nibble, y: Nibble)  // 8xy5
    | Shr(x: Nibble, y: Nibble)     // 8xy6
    | SubnReg(x: Nibble, y: Nibble) // 8xy7
    | Shl(x: Nibble, y: Nibble)     // 8xyE
    | SneReg(x: Nibble, y: Nibble)  // 9xy0
    | LdI(nnn: Addr)                // Annn
    | JpV0(nnn: Addr)               // Bnnn
    | Rnd(x: Nibble, kk: Byte)      // Cxkk
    | Drw(x: Nibble, y: Nibble, n: Nibble) // Dxyn
    | Skp(x: Nibble)                // Ex9E
    | Sknp(x: Nibble)               // ExA1
    | LdVxDt(x: Nibble)             // Fx07
    | LdVxKey(x: Nibble)            // Fx0A
    | LdDtVx(x: Nibble)             // Fx15
    | LdStVx(x: Nibble)             // Fx18
    | AddI(x: Nibble)               // Fx1E
    | LdGlyph(x: Nibble)            // Fx29
    | LdBcd(x: Nibble)              // Fx33
    | StoreRegs(x: Nibble)          // Fx55
    | LoadRegs(x: Nibble)           // Fx65
    | Unknown(w: U16)               // any word no pattern matches
  {
    /** The instructions the reduced engine without timers, keypad or display dispatches. */
    predicate CpuOp()
    {
      !(Drw? || Skp? || Sknp? || LdVxDt? || LdVxKey? || LdDtVx? || LdStVx?
        || AddI? || LdGlyph? || LdBcd? || StoreRegs? || LoadRegs? || Unknown?)
    }
  }

  // Fields of an instruction word. Each is masked first and shifted second:
  // the source writes `opcode & 0x0F00 >> 8`, which Rust parses as
  // `opcode & (0x0F00 >> 8)`; the model extracts the intended fields.

  function Hi(w: U16): Byte { w / 0x100 }
  function Lo(w: U16): Byte { w % 0x100 }
  /** Bits 12..15: the instruction family. */
  function Family(w: U16): Nibble { Hi(w) / 0x10 }
  /** Bits 8..11: register `x`. */
  function X(w: U16): Nibble { Hi(w) % 0x10 }
  /** Bits 4..7: register `y`. */
  function Y(w: U16): Nibble { Lo(w) / 0x10 }
  /** Bits 0..3: the nibble `n`. */
  function N(w: U16): Nibble { Lo(w) % 0x10 }
  /** Bits 0..11: the address `nnn`. */
  function NNN(w: U16): Addr { X(w) * 0x100 + Lo(w) }

  /** The word with family `f`, register field `x` and low byte `lo`. */
  function Word(f: Nibble, x: Nibble, lo: Byte): U16 { (f * 0x10 + x) * 0x100 + lo }

  /** The word at `ram[pc]`, `ram[pc + 1]`, high byte first. */
  function Fetch(ram: seq<Byte>, pc: int): (w: U16)
    requires 0 <= pc && pc + 1 < |ram|
    ensures Hi(w) == ram[pc] && Lo(w) == ram[pc + 1]
  {
    (ram[pc] as int) * 0x100 + ram[pc + 1] as int
  }

  /**
   * The full two-level decode: the family nibble first, then the low nibble
   * (family 8) or the low byte (families 0, E and F). Like the source, family 0
   * looks only at the low byte and families 5 and 9 ignore the low nibble.
   */
  function Decode(w: U16): Instr
  {
    var x, y, kk, nnn := X(w), Y(w), Lo(w), NNN(w);
    match Family(w)
    case 0x0 => DecodeSystem(w)
    case 0x1 => Jp(nnn)
    case 0x2 => Call(nnn)
    case 0x3 => SeByte(x, kk)
    case 0x4 => SneByte(x, kk)
    case 0x5 => SeReg(x, y)
    case 0x6 => LdByte(x, kk)
    case 0x7 => AddByte(x, kk)
    case 0x8 => DecodeArithmetic(w)
    case 0x9 => SneReg(x, y)
    case 0xA => LdI(nnn)
    case 0xB => JpV0(nnn)
    case 0xC => Rnd(x, kk)
    case 0xD => Drw(x, y, N(w))
    case 0xE => DecodeKeys(w)
    case _ => DecodeMisc(w)
  }

  /** Family 0, by the low byte. */
  function DecodeSystem(w: U16): Instr
  {
    match Lo(w)
    case 0xE0 => Cls
    case 0xEE => Ret
    case _ => Unknown(w)
  }

  /** Family 8, by the low nibble. */
  function DecodeArithmetic(w: U16): Instr
  {
    var x, y := X(w), Y(w);
    match N(w)
    case 0x0 => LdReg(x, y)
    case 0x1 => OrReg(x, y)
    case 0x2 => AndReg(x, y)
    case 0x3 => XorReg(x, y)
    case 0x4 => AddReg(x, y)
    case 0x5 => SubReg(x, y)
    case 0x6 => Shr(x, y)
    case 0x7 => SubnReg(x, y)
    case 0xE => Shl(x, y)
    case _ => Unknown(w)
  }

  /** Family E, by the low byte. */
  function DecodeKeys(w: U16): Instr
  {
    match Lo(w)
    case 0x9E => Skp(X(w))
    case 0xA1 => Sknp(X(w))
    case _ => Unknown(w)
  }

  /** Family F, by the low byte. */
  function DecodeMisc(w: U16): Instr
  {
    var x := X(w);
    match Lo(w)
    case 0x07 => LdVxDt(x)
    case 0x0A => LdVxKey(x)
    case 0x15 => LdDtVx(x)
    case 0x18 => LdStVx(x)
    case 0x1E => AddI(x)
    case 0x29 => LdGlyph(x)
    case 0x33 => LdBcd(x)
    case 0x55 => StoreRegs(x)
    case 0x65 => LoadRegs(x)
    case _ => Unknown(w)
  }

  /** The reduced engine's decode: families D, E and F are not implemented there. */
  function DecodeCpu(w: U16): (ins: Instr)
    ensures ins.Unknown? || ins.CpuOp()
    ensures Decode(w).CpuOp() ==> ins == Decode(w)
    ensures !Decode(w).CpuOp() ==> ins == Unknown(w)
  {
    if Family(w) >= 0xD then Unknown(w) else Decode(w)
  }

  /** The family, `x` field and low byte of the canonical word of an instruction with a pattern. */
  function Fields(ins: Instr): (Nibble, Nibble, Byte)
    requires !ins.Unknown?
  {
    match ins
    case Cls => (0x0, 0, 0xE0)
    case Ret => (0x0, 0, 0xEE)
    case Jp(nnn) => (0x1, nnn / 0x100, nnn % 0x100)
    case Call(nnn) => (0x2, nnn / 0x100, nnn % 0x100)
    case SeByte(x, kk) => (0x3, x, kk)
    case SneByte(x, kk) => (0x4, x, kk)
    case SeReg(x, y) => (0x5, x, y * 0x10)
    case LdByte(x, kk) => (0x6, x, kk)
    case AddByte(x, kk) => (0x7, x, kk)
    case LdReg(x, y) => (0x8, x, y * 0x10)
    case OrReg(x, y) => (0x8, x, y * 0x10 + 0x1)
    case AndReg(x, y) => (0x8, x, y * 0x10 + 0x2)
    case XorReg(x, y) => (0x8, x, y * 0x10 + 0x3)
    case AddReg(x, y) => (0x8, x, y * 0x10 + 0x4)
    case SubReg(x, y) => (0x8, x, y * 0x10 + 0x5)
    case Shr(x, y) => (0x8, x, y * 0x10 + 0x6)
    case SubnReg(x, y) => (0x8, x, y * 0x10 + 0x7)
    case Shl(x, y) => (0x8, x, y * 0x10 + 0xE)
    case SneReg(x, y) => (0x9, x, y * 0x10)
    case LdI(nnn) => (0xA, nnn / 0x100, nnn % 0x100)
    case JpV0(nnn) => (0xB, nnn / 0x100, nnn % 0x100)
    case Rnd(x, kk) => (0xC, x, kk)
    case Drw(x, y, n) => (0xD, x, y * 0x10 + n)
    case Skp(x) => (0xE, x, 0x9E)
    case Sknp(x) => (0xE, x, 0xA1)
    case LdVxDt(x) => (0xF, x, 0x07)
    case LdVxKey(x) => (0xF, x, 0x0A)
    case LdDtVx(x) => (0xF, x, 0x15)
    case LdStVx(x) => (0xF, x, 0x18)
    case AddI(x) => (0xF, x, 0x1E)
    case LdGlyph(x) => (0xF, x, 0x29)
    case LdBcd(x) => (0xF, x, 0x33)
    case StoreRegs(x) => (0xF, x, 0x55)
    case LoadRegs(x) => (0xF, x, 0x65)
  }

  /** The canonical word of an instruction; an unknown word encodes as itself. */
  function Encode(ins: Instr): U16
  {
    if ins.Unknown? then ins.w
    else
      var (f, x, lo) := Fields(ins);
      Word(f, x, lo)
  }

  /** The fields of a word built by `Word` are the parts it was built from. */
  lemma WordFields(f: Nibble, x: Nibble, lo: Byte)
    ensures var w := Word(f, x, lo);
            Hi(w) == f * 0x10 + x && Lo(w) == lo && Family(w) == f && X(w) == x
            && Y(w) == lo / 0x10 && N(w) == lo % 0x10 && NNN(w) == x * 0x100 + lo
  {
    var w := Word(f, x, lo);
    assert Hi(w) == f * 0x10 + x;
  }

  /** Decoding undoes encoding, for every instruction with a pattern. */
  lemma DecodeEncode(ins: Instr)
    requires !ins.Unknown?
    ensures Decode(Encode(ins)) == ins
  {
    if ins.Cls? {
      DecodeEncodeCls();
    } else if ins.Ret? {
      DecodeEncodeRet();
    } else if ins.Jp? || ins.Call? || ins.LdI? || ins.JpV0? {
      DecodeEncodeAddress(ins);
    } else if ins.SeByte? || ins.SneByte? || ins.SeReg? || ins.LdByte? || ins.AddByte? {
      DecodeEncodeLoads(ins);
    } else if ins.LdReg? || ins.OrReg? || ins.AndReg? || ins.XorReg? || ins.AddReg?
           || ins.SubReg? || ins.Shr? || ins.SubnReg? || ins.Shl? {
      DecodeEncodeArithmetic(ins);
    } else if ins.SneReg? || ins.Rnd? || ins.Drw? {
      DecodeEncodeHigh(ins);
    } else if ins.Skp? || ins.Sknp? {
      DecodeEncodeKeys(ins);
    } else {
      DecodeEncodeMisc(ins);
    }
  }

  /** `DecodeEncode` for `00E0`. */
  lemma DecodeEncodeCls()
    ensures Decode(Encode(Cls)) == Cls
  {
  }

  /** `DecodeEncode` for `00EE`. */
  lemma DecodeEncodeRet()
    ensures Decode(Encode(Ret)) == Ret
  {
  }

  /** `DecodeEncode` for families 1, 2, A and B, whose operand is an address. */
  lemma DecodeEncodeAddress(ins: Instr)
    requires ins.Jp? || ins.Call? || ins.LdI? || ins.JpV0?
    ensures Decode(Encode(ins)) == ins
  {
    var (f, x, lo) := Fields(ins);
    assert x == ins.nnn / 0x100 && lo == ins.nnn % 0x100;
    WordFields(f, x, lo);
    assert NNN(Word(f, x, lo)) == ins.nnn;
  }

  /** `DecodeEncode` for families 3 to 7. */
  lemma DecodeEncodeLoads(ins: Instr)
    requires ins.SeByte? || ins.SneByte? || ins.SeReg? || ins.LdByte? || ins.AddByte?
    ensures Decode(Encode(ins)) == ins
  {
    var (f, x, lo) := Fields(ins);
    WordFields(f, x, lo);
    var w := Word(f, x, lo);
    if f == 0x5 {
      assert Y(w) == ins.y;
    }
  }

  /** `DecodeEncode` for family 8. */
  lemma DecodeEncodeArithmetic(ins: Instr)
    requires ins.LdReg? || ins.OrReg? || ins.AndReg? || ins.XorReg? || ins.AddReg?
          || ins.SubReg? || ins.Shr? || ins.SubnReg? || ins.Shl?
    ensures Decode(Encode(ins)) == ins
  {
    var (f, x, lo) := Fields(ins);
    WordFields(f, x, lo);
    var w := Word(f, x, lo);
    assert Decode(w) == DecodeArithmetic(w);
    assert ins.x == x && Y(w) == ins.y;
  }

  /** `DecodeEncode` for families 9, C and D. */
  lemma DecodeEncodeHigh(ins: Instr)
    requires ins.SneReg? || ins.Rnd? || ins.Drw?
    ensures Decode(Encode(ins)) == ins
  {
    var (f, x, lo) := Fields(ins);
    WordFields(f, x, lo);
    var w := Word(f, x, lo);
    if f != 0xC {
      assert Y(w) == ins.y;
    }
  }

  /** `DecodeEncode` for family E. */
  lemma DecodeEncodeKeys(ins: Instr)
    requires ins.Skp? || ins.Sknp?
    ensures Decode(Encode(ins)) == ins
  {
    var (f, x, lo) := Fields(ins);
    WordFields(f, x, lo);
    var w := Word(f, x, lo);
    assert Decode(w) == DecodeKeys(w) && X(w) == ins.x;
  }

  /** `DecodeEncode` for family F. */
  lemma DecodeEncodeMisc(ins: Instr)
    requires ins.LdVxDt? || ins.LdVxKey? || ins.LdDtVx? || ins.LdStVx? || ins.AddI?
          || ins.LdGlyph? || ins.LdBcd? || ins.StoreRegs? || ins.LoadRegs?
    ensures Decode(Encode(ins)) == ins
  {
    var (f, x, lo) := Fields(ins);
    assert f == 0xF && x == ins.x;
    WordFields(f, x, lo);
    var w := Word(f, x, lo);
    assert Decode(w) == DecodeMisc(w) && X(w) == ins.x && Lo(w) == lo;
  }

  /**
   * The words the decoder reads the same way as another word: a family-0 word
   * with low byte `E0` or `EE` whose `x` nibble is not 0, and a family-5 or
   * family-9 word whose low nibble is not 0. Other family-0 words are unknown
   * and keep the whole word.
   */
  predicate Aliased(w: U16)
  {
    (Family(w) == 0x0 && X(w) != 0 && (Lo(w) == 0xE0 || Lo(w) == 0xEE))
    || ((Family(w) == 0x5 || Family(w) == 0x9) && N(w) != 0)
  }

  /** Every other word is the encoding of what it decodes to. */
  lemma EncodeDecode(w: U16)
    requires !Aliased(w)
    ensures Encode(Decode(w)) == w
  {
    assert w == Word(Family(w), X(w), Lo(w));
    if Decode(w).Unknown? {
    } else if Family(w) < 0x8 {
      FieldsOfDecodeLow(w);
    } else if Family(w) == 0x8 {
      FieldsOfDecodeArithmetic(w);
    } else {
      FieldsOfDecodeHigh(w);
    }
  }

  lemma FieldsOfDecodeLow(w: U16)
    requires !Aliased(w) && !Decode(w).Unknown? && Family(w) < 0x8
    ensures Fields(Decode(w)) == (Family(w), X(w), Lo(w))
  {
    assert NNN(w) / 0x100 == X(w) && NNN(w) % 0x100 == Lo(w);
    assert Lo(w) == Y(w) * 0x10 + N(w);
  }

  lemma FieldsOfDecodeArithmetic(w: U16)
    requires !Decode(w).Unknown? && Family(w) == 0x8
    ensures Fields(Decode(w)) == (Family(w), X(w), Lo(w))
  {
    assert Lo(w) == Y(w) * 0x10 + N(w);
  }

  lemma FieldsOfDecodeHigh(w: U16)
    requires !Aliased(w) && !Decode(w).Unknown? && Family(w) > 0x8
    ensures Fields(Decode(w)) == (Family(w), X(w), Lo(w))
  {
    assert NNN(w) / 0x100 == X(w) && NNN(w) % 0x100 == Lo(w);
    assert Lo(w) == Y(w) * 0x10 + N(w);
  }

  /** An aliased word decodes as its canonical form. */
  lemma AliasedDecode(w: U16)
    requires Aliased(w)
    ensures Family(w) == 0x0 ==> Decode(w) == Decode(Lo(w))
    ensures Family(w) != 0x0 ==> Decode(w) == Decode(w - N(w))
  {
    var f, x, lo := Family(w), X(w), Lo(w);
    assert w == Word(f, x, lo);
    WordFields(0, 0, lo);
    assert Lo(w) == Word(0, 0, lo);
    if f != 0 {
      assert w - N(w) == Word(f, x, Y(w) * 0x10);
      WordFields(f, x, Y(w) * 0x10);
    }
  }

  /** `FFFF` matches no pattern, so it is a decode failure. */
  lemma DecodeFFFF()
    ensures Decode(0xFFFF) == Unknown(0xFFFF)
  {
    assert Family(0xFFFF) == 0xF && Lo(0xFFFF) == 0xFF;
  }
}

/** The instruction set and its decoder (src/instructions.rs). Field names
    follow Cowgod's Chip-8 Technical Reference: `x`, `y` are register
    nibbles, `kk` the low byte, `nnn` the low 12 bits, `n` the low nibble. */
module Instructions {
  import opened Types

  /** All the CHIP-8 instructions except 0nnn (SYS), which the interpreter
      ignores. The dispatcher calls DivTwo, MultTwo and GetKeyPress by the
      names ShiftRight, ShiftLeft and WaitKeyPress. */
  datatype Instruction =
    | ClearDisplay
    | Return
    | Jump(addr: u16)
    | Call(addr: u16)
    | SkipIfEqualsByte(x: u8, kk: u8)
    | SkipIfNotEqualsByte(x: u8, kk: u8)
    | SkipIfEquals(x: u8, y: u8)
    | SetRegisterByte(x: u8, kk: u8)
    | AddByte(x: u8, kk: u8)
    | SetRegister(x: u8, y: u8)
    | Or(x: u8, y: u8)
    | And(x: u8, y: u8)
    | Xor(x: u8, y: u8)
    | Add(x: u8, y: u8)
    | Sub(x: u8, y: u8)
    | DivTwo(x: u8)
    | ReverseSub(x: u8, y: u8)
    | MultTwo(x: u8)
    | SkipIfNotEquals(x: u8, y: u8)
    | SetI(addr: u16)
    | JumpPlusV0(addr: u16)
    | SetRandAnd(x: u8, kk: u8)
    | Draw(x: u8, y: u8, n: u8)
    | SkipIfKeyPressed(x: u8)
    | SkipIfKeyNotPressed(x: u8)
    | SetToDelayTimer(x: u8)
    | GetKeyPress(x: u8)
    | SetDelayTimer(x: u8)
    | SetSoundTimer(x: u8)
    | AddRegisterI(x: u8)
    | SetSpriteI(byte: u8)
    | BCDRepresentation(x: u8)
    | CopyRegistersMemory(x: u8)
    | SetRegistersMemory(x: u8)

  // Operand fields of a raw word, extracted with shifts and masks.

  /** The most significant nibble: the instruction family. */
  function Family(raw: u16): u16 { (raw >> 12) & 0xF }
  /** Second most significant nibble. */
  function X(raw: u16): u8 { ((raw >> 8) & 0xF) as u8 }
  /** Second least significant nibble. */
  function Y(raw: u16): u8 { ((raw >> 4) & 0xF) as u8 }
  /** Least significant nibble. */
  function N(raw: u16): u8 { (raw & 0xF) as u8 }
  /** Least significant byte. */
  function KK(raw: u16): u8 { (raw & 0xFF) as u8 }
  /** Lowest 12 bits. */
  function NNN(raw: u16): u16 { raw & 0xFFF }

  /** The decoder: a total table lookup on the family nibble and, for
      families 0, 5, 8, 9, E and F, on the low nibble or low byte. Words
      outside the table decode to None. Every operand of a decoded
      instruction fits its field. */
  function Decode(raw: u16): (r: Option<Instruction>)
    ensures r.Some? ==> WellFormed(r.value)
  {
    FieldRelations(raw);
    SelectWellFormed(Family(raw), X(raw), Y(raw), N(raw), KK(raw), NNN(raw));
    Select(Family(raw), X(raw), Y(raw), N(raw), KK(raw), NNN(raw))
  }

  /** The decoder's table, applied to the fields it extracts first. */
  function Select(family: u16, x: u8, y: u8, n: u8, kk: u8, nnn: u16): Option<Instruction>
  {
    match family
    case 0x0 =>
      (match kk
       case 0xE0 => Some(ClearDisplay)
       case 0xEE => Some(Return)
       case _ => None)
    case 0x1 => Some(Jump(nnn))
    case 0x2 => Some(Call(nnn))
    case 0x3 => Some(SkipIfEqualsByte(x, kk))
    case 0x4 => Some(SkipIfNotEqualsByte(x, kk))
    case 0x5 =>
      (match n
       case 0x0 => Some(SkipIfEquals(x, y))
       case _ => None)
    case 0x6 => Some(SetRegisterByte(x, kk))
    case 0x7 => Some(AddByte(x, kk))
    case 0x8 =>
      (match n
       case 0x0 => Some(SetRegister(x, y))
       case 0x1 => Some(Or(x, y))
       case 0x2 => Some(And(x, y))
       case 0x3 => Some(Xor(x, y))
       case 0x4 => Some(Add(x, y))
       case 0x5 => Some(Sub(x, y))
       case 0x6 => Some(DivTwo(x))
       case 0x7 => Some(ReverseSub(x, y))
       case 0xE => Some(MultTwo(x))
       case _ => None)
    case 0x9 =>
      (match n
       case 0x0 => Some(SkipIfNotEquals(x, y))
       case _ => None)
    case 0xA => Some(SetI(nnn))
    case 0xB => Some(JumpPlusV0(nnn))
    case 0xC => Some(SetRandAnd(x, kk))
    case 0xD => Some(Draw(x, y, n))
    case 0xE =>
      (match kk
       case 0x9E => Some(SkipIfKeyPressed(x))
       case 0xA1 => Some(SkipIfKeyNotPressed(x))
       case _ => None)
    case _ =>
      (match kk
       case 0x07 => Some(SetToDelayTimer(x))
       case 0x0A => Some(GetKeyPress(x))
       case 0x15 => Some(SetDelayTimer(x))
       case 0x18 => Some(SetSoundTimer(x))
       case 0x1E => Some(AddRegisterI(x))
       case 0x29 => Some(SetSpriteI(x))
       case 0x33 => Some(BCDRepresentation(x))
       case 0x55 => Some(CopyRegistersMemory(x))
       case 0x65 => Some(SetRegistersMemory(x))
       case _ => None)
  }

  /** Each row of the table builds an instruction of the row's family. */
  lemma SelectFamily(family: u16, x: u8, y: u8, n: u8, kk: u8, nnn: u16)
    requires family < 16
    ensures var r := Select(family, x, y, n, kk, nnn); r.Some? ==> EncodedFamily(r.value) == family
  {
    if family == 0x8 {
      SelectFamilyArith(x, y, n, kk, nnn);
    } else if family == 0xF {
      SelectFamilyMisc(x, y, n, kk, nnn);
    } else if family < 0x8 {
    } else {
    }
  }

  /** The 8xyN rows build arithmetic instructions. */
  lemma SelectFamilyArith(x: u8, y: u8, n: u8, kk: u8, nnn: u16)
    ensures var r := Select(0x8, x, y, n, kk, nnn); r.Some? ==> EncodedFamily(r.value) == 0x8
  {
  }

  /** The Fxkk rows build timer, key, index and memory instructions. */
  lemma SelectFamilyMisc(x: u8, y: u8, n: u8, kk: u8, nnn: u16)
    ensures var r := Select(0xF, x, y, n, kk, nnn); r.Some? ==> EncodedFamily(r.value) == 0xF
  {
  }

  /** Fields within their widths give operands within theirs. */
  lemma SelectWellFormed(family: u16, x: u8, y: u8, n: u8, kk: u8, nnn: u16)
    requires x < 16 && y < 16 && n < 16 && nnn < 0x1000
    ensures var r := Select(family, x, y, n, kk, nnn); r.Some? ==> WellFormed(r.value)
  {
    if family == 0x8 {
      SelectWellFormedArith(x, y, n, kk, nnn);
    } else if family == 0xF || family >= 0x10 {
      SelectWellFormedMisc(family, x, y, n, kk, nnn);
    } else if family < 0x8 {
    } else {
    }
  }

  /** SelectWellFormed for the 8xyN rows. */
  lemma SelectWellFormedArith(x: u8, y: u8, n: u8, kk: u8, nnn: u16)
    requires x < 16 && y < 16
    ensures var r := Select(0x8, x, y, n, kk, nnn); r.Some? ==> WellFormed(r.value)
  {
  }

  /** SelectWellFormed for the Fxkk rows, which every family above 0xE selects. */
  lemma SelectWellFormedMisc(family: u16, x: u8, y: u8, n: u8, kk: u8, nnn: u16)
    requires family >= 0xF && x < 16
    ensures var r := Select(family, x, y, n, kk, nnn); r.Some? ==> WellFormed(r.value)
  {
  }

  /** Operands within the widths their fields have in an opcode word. */
  predicate WellFormed(inst: Instruction)
  {
    match inst
    case ClearDisplay | Return => true
    case Jump(a) => a < 0x1000
    case Call(a) => a < 0x1000
    case SetI(a) => a < 0x1000
    case JumpPlusV0(a) => a < 0x1000
    case SkipIfEqualsByte(x, _) => x < 16
    case SkipIfNotEqualsByte(x, _) => x < 16
    case SetRegisterByte(x, _) => x < 16
    case AddByte(x, _) => x < 16
    case SetRandAnd(x, _) => x < 16
    case SkipIfEquals(x, y) => x < 16 && y < 16
    case SetRegister(x, y) => x < 16 && y < 16
    case Or(x, y) => x < 16 && y < 16
    case And(x, y) => x < 16 && y < 16
    case Xor(x, y) => x < 16 && y < 16
    case Add(x, y) => x < 16 && y < 16
    case Sub(x, y) => x < 16 && y < 16
    case ReverseSub(x, y) => x < 16 && y < 16
    case SkipIfNotEquals(x, y) => x < 16 && y < 16
    case Draw(x, y, n) => x < 16 && y < 16 && n < 16
    case DivTwo(x) => x < 16
    case MultTwo(x) => x < 16
    case SkipIfKeyPressed(x) => x < 16
    case SkipIfKeyNotPressed(x) => x < 16
    case SetToDelayTimer(x) => x < 16
    case GetKeyPress(x) => x < 16
    case SetDelayTimer(x) => x < 16
    case SetSoundTimer(x) => x < 16
    case AddRegisterI(x) => x < 16
    case SetSpriteI(b) => b < 16
    case BCDRepresentation(x) => x < 16
    case CopyRegistersMemory(x) => x < 16
    case SetRegistersMemory(x) => x < 16
  }

  /** The word with family f, register nibble x and low byte low. */
  function Word(f: u16, x: u8, low: u16): u16
    requires f < 16 && x < 16 && low < 0x100
  {
    (f << 12) | ((x as u16) << 8) | low
  }

  /** The assembler: the opcode word of a well-formed instruction, as the
      reference's table writes it (0x0 in the unused x nibble of 00E0/00EE). */
  function Encode(inst: Instruction): u16
    requires WellFormed(inst)
  {
    EncodedXNibble(inst);
    Word(EncodedFamily(inst), EncodedX(inst), EncodedLow(inst))
  }

  /** The second nibble of a well-formed instruction fits in four bits. */
  lemma EncodedXNibble(inst: Instruction)
    requires WellFormed(inst)
    ensures EncodedX(inst) < 16
  {
  }

  /** The family nibble the reference's table gives each instruction. */
  function EncodedFamily(inst: Instruction): (f: u16)
    ensures f < 16
  {
    match inst
    case ClearDisplay | Return => 0x0
    case Jump(_) => 0x1
    case Call(_) => 0x2
    case SkipIfEqualsByte(_, _) => 0x3
    case SkipIfNotEqualsByte(_, _) => 0x4
    case SkipIfEquals(_, _) => 0x5
    case SetRegisterByte(_, _) => 0x6
    case AddByte(_, _) => 0x7
    case SetRegister(_, _) | Or(_, _) | And(_, _) | Xor(_, _) | Add(_, _) | Sub(_, _)
       | DivTwo(_) | ReverseSub(_, _) | MultTwo(_) => 0x8
    case SkipIfNotEquals(_, _) => 0x9
    case SetI(_) => 0xA
    case JumpPlusV0(_) => 0xB
    case SetRandAnd(_, _) => 0xC
    case Draw(_, _, _) => 0xD
    case SkipIfKeyPressed(_) | SkipIfKeyNotPressed(_) => 0xE
    case _ => 0xF
  }

  /** The second nibble of the encoding: the x register, or the top of an address. */
  function EncodedX(inst: Instruction): u8
  {
    match inst
    case ClearDisplay | Return => 0
    case Jump(a) => (a >> 8) as u8
    case Call(a) => (a >> 8) as u8
    case SetI(a) => (a >> 8) as u8
    case JumpPlusV0(a) => (a >> 8) as u8
    case SetSpriteI(b) => b
    case _ => inst.x
  }

  /** The low byte of the encoding. */
  function EncodedLow(inst: Instruction): (low: u16)
    requires WellFormed(inst)
    ensures low < 0x100
  {
    match inst
    case ClearDisplay => 0xE0
    case Return => 0xEE
    case Jump(a) => a & 0xFF
    case Call(a) => a & 0xFF
    case SetI(a) => a & 0xFF
    case JumpPlusV0(a) => a & 0xFF
    case SkipIfEqualsByte(_, kk) => kk as u16
    case SkipIfNotEqualsByte(_, kk) => kk as u16
    case SetRegisterByte(_, kk) => kk as u16
    case AddByte(_, kk) => kk as u16
    case SetRandAnd(_, kk) => kk as u16
    case SkipIfEquals(_, y) => (y as u16) << 4
    case SkipIfNotEquals(_, y) => (y as u16) << 4
    case SetRegister(_, y) => (y as u16) << 4
    case Or(_, y) => ((y as u16) << 4) | 0x1
    case And(_, y) => ((y as u16) << 4) | 0x2
    case Xor(_, y) => ((y as u16) << 4) | 0x3
    case Add(_, y) => ((y as u16) << 4) | 0x4
    case Sub(_, y) => ((y as u16) << 4) | 0x5
    case DivTwo(_) => 0x06
    case ReverseSub(_, y) => ((y as u16) << 4) | 0x7
    case MultTwo(_) => 0x0E
    case Draw(_, y, n) => ((y as u16) << 4) | n as u16
    case SkipIfKeyPressed(_) => 0x9E
    case SkipIfKeyNotPressed(_) => 0xA1
    case SetToDelayTimer(_) => 0x07
    case GetKeyPress(_) => 0x0A
    case SetDelayTimer(_) => 0x15
    case SetSoundTimer(_) => 0x18
    case AddRegisterI(_) => 0x1E
    case SetSpriteI(_) => 0x29
    case BCDRepresentation(_) => 0x33
    case CopyRegistersMemory(_) => 0x55
    case SetRegistersMemory(_) => 0x65
  }

  /** The word with the nibbles the decoder ignores cleared: in family 0
      it looks at the low byte only, and 8xy6/8xyE do not use y. */
  function Canonical(raw: u16): u16
  {
    if Family(raw) == 0 then raw & 0xFF
    else if Family(raw) == 8 && (N(raw) == 6 || N(raw) == 0xE) then raw & 0xFF0F
    else raw
  }

  /** The family nibble of an assembled word. */
  lemma FamilyOfWord(f: u16, x: u8, low: u16)
    requires f < 16 && x < 16 && low < 0x100
    ensures Family(Word(f, x, low)) == f
  {
  }

  /** The x nibble of an assembled word. */
  lemma XOfWord(f: u16, x: u8, low: u16)
    requires f < 16 && x < 16 && low < 0x100
    ensures X(Word(f, x, low)) == x
  {
  }

  /** The low byte of an assembled word. */
  lemma KKOfWord(f: u16, x: u8, low: u16)
    requires f < 16 && x < 16 && low < 0x100
    ensures KK(Word(f, x, low)) == low as u8
  {
  }

  /** The low two nibbles of an assembled word. */
  lemma YNOfWord(f: u16, x: u8, low: u16)
    requires f < 16 && x < 16 && low < 0x100
    ensures Y(Word(f, x, low)) == (low >> 4) as u8 && N(Word(f, x, low)) == (low & 0xF) as u8
  {
  }

  /** The address field of a word assembled from an address. */
  lemma NNNOfWord(f: u16, a: u16)
    requires f < 16 && a < 0x1000
    ensures Family((f << 12) | a) == f && NNN((f << 12) | a) == a
  {
  }

  /** Widening an extracted field back to a word loses nothing. */
  lemma FieldsWiden(raw: u16)
    ensures X(raw) as u16 == (raw >> 8) & 0xF && Y(raw) as u16 == (raw >> 4) & 0xF
    ensures N(raw) as u16 == raw & 0xF && KK(raw) as u16 == raw & 0xFF
  {
    assert X(raw) as u16 == (raw >> 8) & 0xF;
    assert Y(raw) as u16 == (raw >> 4) & 0xF;
    assert N(raw) as u16 == raw & 0xF;
  }

  /** Any word is assembled from its own family, x nibble and low byte. */
  lemma WordOfFields(raw: u16)
    ensures Family(raw) < 16 && X(raw) < 16
    ensures raw == Word(Family(raw), X(raw), KK(raw) as u16)
    ensures KK(raw) as u16 == ((Y(raw) as u16) << 4) | N(raw) as u16
    ensures raw & 0xFFF == ((X(raw) as u16) << 8) | KK(raw) as u16
  {
    FieldsWiden(raw);
    assert raw == (((raw >> 12) & 0xF) << 12) | (((raw >> 8) & 0xF) << 8) | (raw & 0xFF);
    assert raw & 0xFF == (((raw >> 4) & 0xF) << 4) | (raw & 0xF);
  }

  /** The decoder does not read the x nibble of family 0 nor the y nibble
      of 8xy6 and 8xyE: a word decodes like its canonical form. */
  lemma DecodeIgnores(raw: u16)
    ensures Decode(raw) == Decode(Canonical(raw))
  {
    var f, x, n, kk := Family(raw), X(raw), N(raw), KK(raw);
    CanonicalWord(raw);
    if f == 0 {
      DecodeWord(f, 0, kk as u16);
    } else if f == 8 && (n == 6 || n == 0xE) {
      DecodeWord(f, x, n as u16);
    }
  }

  /** Decoding a word built from a family, a register and a low byte. */
  lemma DecodeWord(f: u16, x: u8, low: u16)
    requires f < 16 && x < 16 && low < 0x100
    ensures Decode(Word(f, x, low))
         == Select(f, x, (low >> 4) as u8, (low & 0xF) as u8, low as u8, ((x as u16) << 8) | low)
  {
    FamilyOfWord(f, x, low);
    XOfWord(f, x, low);
    KKOfWord(f, x, low);
    YNOfWord(f, x, low);
  }

  /** The decoder inverts the assembler on well-formed instructions. */
  lemma DecodeEncode(inst: Instruction)
    requires WellFormed(inst)
    ensures Decode(Encode(inst)) == Some(inst)
  {
    var f, x, low := EncodedFamily(inst), EncodedX(inst), EncodedLow(inst);
    EncodedXNibble(inst);
    DecodeWord(f, x, low);
    SelectEncoded(inst, (low >> 4) as u8, (low & 0xF) as u8, low as u8, ((x as u16) << 8) | low);
  }

  /** The decoder's table maps the fields of an encoding back to the instruction. */
  lemma SelectEncoded(inst: Instruction, y: u8, n: u8, kk: u8, nnn: u16)
    requires WellFormed(inst)
    requires y == (EncodedLow(inst) >> 4) as u8 && n == (EncodedLow(inst) & 0xF) as u8
    requires kk == EncodedLow(inst) as u8
    requires nnn == ((EncodedX(inst) as u16) << 8) | EncodedLow(inst)
    ensures Select(EncodedFamily(inst), EncodedX(inst), y, n, kk, nnn) == Some(inst)
  {
    if inst.ClearDisplay? || inst.Return? || inst.Jump? || inst.Call? || inst.SetI? || inst.JumpPlusV0? {
      SelectAddress(inst, y, n, kk, nnn);
    } else if inst.SkipIfEqualsByte? || inst.SkipIfNotEqualsByte? || inst.SetRegisterByte?
           || inst.AddByte? || inst.SetRandAnd? {
      SelectByte(inst, y, n, kk, nnn);
    } else if inst.SkipIfEquals? || inst.SkipIfNotEquals? || inst.Draw? {
      SelectPair(inst, y, n, kk, nnn);
    } else if inst.SetRegister? || inst.Or? || inst.And? || inst.Xor? || inst.Add? || inst.Sub?
           || inst.ReverseSub? {
      SelectArith(inst, y, n, kk, nnn);
    } else {
      SelectSelector(inst, y, n, kk, nnn);
    }
  }

  /** SelectEncoded for family 0 and the `fnnn` forms. */
  lemma SelectAddress(inst: Instruction, y: u8, n: u8, kk: u8, nnn: u16)
    requires WellFormed(inst)
    requires inst.ClearDisplay? || inst.Return? || inst.Jump? || inst.Call? || inst.SetI? || inst.JumpPlusV0?
    requires kk == EncodedLow(inst) as u8
    requires nnn == ((EncodedX(inst) as u16) << 8) | EncodedLow(inst)
    ensures Select(EncodedFamily(inst), EncodedX(inst), y, n, kk, nnn) == Some(inst)
  {
    if !inst.ClearDisplay? && !inst.Return? {
      AddressSplit(inst.addr);
    }
  }

  /** SelectEncoded for the `fxkk` forms. */
  lemma SelectByte(inst: Instruction, y: u8, n: u8, kk: u8, nnn: u16)
    requires WellFormed(inst)
    requires inst.SkipIfEqualsByte? || inst.SkipIfNotEqualsByte? || inst.SetRegisterByte?
          || inst.AddByte? || inst.SetRandAnd?
    requires kk == EncodedLow(inst) as u8
    ensures Select(EncodedFamily(inst), EncodedX(inst), y, n, kk, nnn) == Some(inst)
  {
    ByteWiden(inst.kk);
  }

  /** SelectEncoded for 5xy0, 9xy0 and Dxyn. */
  lemma SelectPair(inst: Instruction, y: u8, n: u8, kk: u8, nnn: u16)
    requires WellFormed(inst)
    requires inst.SkipIfEquals? || inst.SkipIfNotEquals? || inst.Draw?
    requires y == (EncodedLow(inst) >> 4) as u8 && n == (EncodedLow(inst) & 0xF) as u8
    ensures Select(EncodedFamily(inst), EncodedX(inst), y, n, kk, nnn) == Some(inst)
  {
    var c: u16 := if inst.Draw? then inst.n as u16 else 0;
    NibblePair(inst.y, c);
    if inst.Draw? {
      ByteWiden(inst.n);
    }
  }

  /** SelectEncoded for the 8xyc forms that use y. */
  lemma SelectArith(inst: Instruction, y: u8, n: u8, kk: u8, nnn: u16)
    requires WellFormed(inst)
    requires inst.SetRegister? || inst.Or? || inst.And? || inst.Xor? || inst.Add? || inst.Sub?
          || inst.ReverseSub?
    requires y == (EncodedLow(inst) >> 4) as u8 && n == (EncodedLow(inst) & 0xF) as u8
    ensures Select(EncodedFamily(inst), EncodedX(inst), y, n, kk, nnn) == Some(inst)
  {
    NibblePair(inst.y, EncodedLow(inst) & 0xF);
  }

  /** SelectEncoded for the forms with one register and a fixed low byte. */
  lemma SelectSelector(inst: Instruction, y: u8, n: u8, kk: u8, nnn: u16)
    requires WellFormed(inst)
    requires inst.DivTwo? || inst.MultTwo? || inst.SkipIfKeyPressed? || inst.SkipIfKeyNotPressed?
          || inst.SetToDelayTimer? || inst.GetKeyPress? || inst.SetDelayTimer? || inst.SetSoundTimer?
          || inst.AddRegisterI? || inst.SetSpriteI? || inst.BCDRepresentation?
          || inst.CopyRegistersMemory? || inst.SetRegistersMemory?
    requires n == (EncodedLow(inst) & 0xF) as u8
    requires kk == EncodedLow(inst) as u8
    ensures Select(EncodedFamily(inst), EncodedX(inst), y, n, kk, nnn) == Some(inst)
  {
  }

  /** An address splits into its top nibble and its low byte. */
  lemma AddressSplit(a: u16)
    requires a < 0x1000
    ensures (a >> 8) as u8 < 16 && ((((a >> 8) as u8) as u16) << 8) | (a & 0xFF) == a
  {
  }

  /** Widening a byte to a word and narrowing it back is the identity. */
  lemma ByteWiden(b: u8)
    ensures (b as u16) as u8 == b && (b as u16) < 0x100
  {
  }

  /** Two nibbles packed into a byte unpack to themselves. */
  lemma NibblePair(r: u8, c: u16)
    requires r < 16 && c < 16
    ensures ((((r as u16) << 4) | c) >> 4) as u8 == r
    ensures ((((r as u16) << 4) | c) & 0xF) as u8 == c as u8
    ensures (((r as u16) << 4) | c) < 0x100
  {
  }

  /** Re-assembling a decoded instruction gives back its word, up to the x
      nibble of family 0, which the decoder ignores. */
  lemma EncodeDecode(raw: u16)
    requires Decode(raw).Some?
    ensures WellFormed(Decode(raw).value)
    ensures Encode(Decode(raw).value) == Canonical(raw)
  {
    var f, x, y, n, kk, nnn := Family(raw), X(raw), Y(raw), N(raw), KK(raw), NNN(raw);
    FieldRelations(raw);
    EncodeSelect(f, x, y, n, kk, nnn);
    CanonicalWord(raw);
  }

  /** EncodeDecode in terms of the fields the decoder extracted. */
  lemma EncodeSelect(f: u16, x: u8, y: u8, n: u8, kk: u8, nnn: u16)
    requires f < 16 && x < 16 && y < 16 && n < 16
    requires kk as u16 == ((y as u16) << 4) | n as u16
    requires nnn == ((x as u16) << 8) | kk as u16
    requires Select(f, x, y, n, kk, nnn).Some?
    ensures WellFormed(Select(f, x, y, n, kk, nnn).value)
    ensures Encode(Select(f, x, y, n, kk, nnn).value)
      == Word(f, if f == 0 then 0 else x, if f == 8 && (n == 6 || n == 0xE) then n as u16 else kk as u16)
  {
    SelectFields(f, x, y, n, kk, nnn);
  }

  /** The fields of a word overlap: the low byte is y and n, and the
      address is x and the low byte. */
  lemma FieldRelations(raw: u16)
    ensures Family(raw) < 16 && X(raw) < 16 && Y(raw) < 16 && N(raw) < 16
    ensures KK(raw) as u16 == ((Y(raw) as u16) << 4) | N(raw) as u16
    ensures NNN(raw) == ((X(raw) as u16) << 8) | KK(raw) as u16
  {
    WordOfFields(raw);
  }

  /** The canonical form of a word, assembled from its fields. */
  lemma CanonicalWord(raw: u16)
    ensures Family(raw) < 16 && X(raw) < 16
    ensures Canonical(raw) == Word(Family(raw), if Family(raw) == 0 then 0 else X(raw),
      if Family(raw) == 8 && (N(raw) == 6 || N(raw) == 0xE) then N(raw) as u16 else KK(raw) as u16)
  {
    WordOfFields(raw);
  }

  /** The assembler's tables recover the fields the decoder's table used. */
  lemma SelectFields(f: u16, x: u8, y: u8, n: u8, kk: u8, nnn: u16)
    requires f < 16 && x < 16 && y < 16 && n < 16
    requires kk as u16 == ((y as u16) << 4) | n as u16
    requires nnn == ((x as u16) << 8) | kk as u16
    requires Select(f, x, y, n, kk, nnn).Some?
    ensures WellFormed(Select(f, x, y, n, kk, nnn).value)
    ensures Reassembles(Select(f, x, y, n, kk, nnn).value, f, if f == 0 then 0 else x,
      if f == 8 && (n == 6 || n == 0xE) then n as u16 else kk as u16)
  {
    if f == 0x1 || f == 0x2 || f == 0xA || f == 0xB {
      AddressFields(x, kk, nnn);
      SelectFieldsAddress(f, x, y, n, kk, nnn);
    } else if f == 0x3 || f == 0x4 || f == 0x6 || f == 0x7 || f == 0xC {
      SelectFieldsByte(f, x, y, n, kk, nnn);
    } else if f == 0x5 || f == 0x9 || f == 0xD {
      SelectFieldsPair(f, x, y, n, kk, nnn);
    } else if f == 0x8 {
      SelectFieldsArith(f, x, y, n, kk, nnn);
    } else {
      SelectFieldsSelector(f, x, y, n, kk, nnn);
    }
  }

  /** A well-formed instruction is assembled from family f, second nibble
      x and low byte low. */
  predicate Reassembles(inst: Instruction, f: u16, x: u8, low: u16)
    requires WellFormed(inst)
  {
    EncodedFamily(inst) == f && EncodedX(inst) == x && EncodedLow(inst) == low
  }

  /** An address assembled from a register nibble and a byte splits back into them. */
  lemma AddressFields(x: u8, kk: u8, nnn: u16)
    requires x < 16 && nnn == ((x as u16) << 8) | kk as u16
    ensures nnn < 0x1000 && (nnn >> 8) as u8 == x && nnn & 0xFF == kk as u16
  {
  }

  /** SelectFields for the `fnnn` families. */
  lemma SelectFieldsAddress(f: u16, x: u8, y: u8, n: u8, kk: u8, nnn: u16)
    requires f == 0x1 || f == 0x2 || f == 0xA || f == 0xB
    requires nnn < 0x1000 && (nnn >> 8) as u8 == x && nnn & 0xFF == kk as u16
    requires Select(f, x, y, n, kk, nnn).Some?
    ensures WellFormed(Select(f, x, y, n, kk, nnn).value)
    ensures Reassembles(Select(f, x, y, n, kk, nnn).value, f, x, kk as u16)
  {
    SelectsAddress(f, x, y, n, kk, nnn);
    AddressEncoding(Select(f, x, y, n, kk, nnn).value);
  }

  /** The `fnnn` families decode to an instruction carrying nnn. */
  lemma SelectsAddress(f: u16, x: u8, y: u8, n: u8, kk: u8, nnn: u16)
    requires f == 0x1 || f == 0x2 || f == 0xA || f == 0xB
    ensures var r := Select(f, x, y, n, kk, nnn);
      r.Some? && (r.value.Jump? || r.value.Call? || r.value.SetI? || r.value.JumpPlusV0?)
      && r.value.addr == nnn
  {
  }

  /** The nibble and byte an address instruction is assembled from. */
  lemma AddressEncoding(inst: Instruction)
    requires inst.Jump? || inst.Call? || inst.SetI? || inst.JumpPlusV0?
    requires inst.addr < 0x1000
    ensures WellFormed(inst)
    ensures EncodedX(inst) == (inst.addr >> 8) as u8 && EncodedLow(inst) == inst.addr & 0xFF
  {
  }

  /** SelectFields for the `fxkk` families. */
  lemma SelectFieldsByte(f: u16, x: u8, y: u8, n: u8, kk: u8, nnn: u16)
    requires f == 0x3 || f == 0x4 || f == 0x6 || f == 0x7 || f == 0xC
    requires x < 16
    requires Select(f, x, y, n, kk, nnn).Some?
    ensures WellFormed(Select(f, x, y, n, kk, nnn).value)
    ensures Reassembles(Select(f, x, y, n, kk, nnn).value, f, x, kk as u16)
  {
    var inst := if f == 0x3 then SkipIfEqualsByte(x, kk) else if f == 0x4 then SkipIfNotEqualsByte(x, kk)
      else if f == 0x6 then SetRegisterByte(x, kk) else if f == 0x7 then AddByte(x, kk)
      else SetRandAnd(x, kk);
    assert Select(f, x, y, n, kk, nnn) == Some(inst);
    assert WellFormed(inst) && Reassembles(inst, f, x, kk as u16);
  }

  /** SelectFields for the `fxyn` families other than 8. */
  lemma SelectFieldsPair(f: u16, x: u8, y: u8, n: u8, kk: u8, nnn: u16)
    requires f == 0x5 || f == 0x9 || f == 0xD
    requires x < 16 && y < 16 && n < 16
    requires kk as u16 == ((y as u16) << 4) | n as u16
    requires Select(f, x, y, n, kk, nnn).Some?
    ensures WellFormed(Select(f, x, y, n, kk, nnn).value)
    ensures Reassembles(Select(f, x, y, n, kk, nnn).value, f, x, kk as u16)
  {
    var inst := if f == 0x5 then SkipIfEquals(x, y) else if f == 0x9 then SkipIfNotEquals(x, y)
      else Draw(x, y, n);
    assert Select(f, x, y, n, kk, nnn) == Some(inst);
    assert WellFormed(inst) && Reassembles(inst, f, x, kk as u16);
  }

  /** SelectFields for family 8. */
  lemma SelectFieldsArith(f: u16, x: u8, y: u8, n: u8, kk: u8, nnn: u16)
    requires f == 0x8
    requires x < 16 && y < 16 && n < 16
    requires kk as u16 == ((y as u16) << 4) | n as u16
    requires Select(f, x, y, n, kk, nnn).Some?
    ensures WellFormed(Select(f, x, y, n, kk, nnn).value)
    ensures Reassembles(Select(f, x, y, n, kk, nnn).value, f, x, if n == 6 || n == 0xE then n as u16 else kk as u16)
  {
  }

  /** SelectFields for the families that select on the low byte. */
  lemma SelectFieldsSelector(f: u16, x: u8, y: u8, n: u8, kk: u8, nnn: u16)
    requires f == 0x0 || f == 0xE || f == 0xF
    requires x < 16
    requires Select(f, x, y, n, kk, nnn).Some?
    ensures WellFormed(Select(f, x, y, n, kk, nnn).value)
    ensures Reassembles(Select(f, x, y, n, kk, nnn).value, f, if f == 0 then 0 else x, kk as u16)
  {
    if f == 0x0 {
      SelectFieldsSystem(x, y, n, kk, nnn);
    } else if f == 0xE {
      SelectFieldsKey(x, y, n, kk, nnn);
    } else {
      SelectFieldsMisc(x, y, n, kk, nnn);
    }
  }

  /** SelectFields for family 0: 00E0 and 00EE. */
  lemma SelectFieldsSystem(x: u8, y: u8, n: u8, kk: u8, nnn: u16)
    requires Select(0x0, x, y, n, kk, nnn).Some?
    ensures WellFormed(Select(0x0, x, y, n, kk, nnn).value)
    ensures Reassembles(Select(0x0, x, y, n, kk, nnn).value, 0x0, 0, kk as u16)
  {
  }

  /** SelectFields for family E: Ex9E and ExA1. */
  lemma SelectFieldsKey(x: u8, y: u8, n: u8, kk: u8, nnn: u16)
    requires x < 16
    requires Select(0xE, x, y, n, kk, nnn).Some?
    ensures WellFormed(Select(0xE, x, y, n, kk, nnn).value)
    ensures Reassembles(Select(0xE, x, y, n, kk, nnn).value, 0xE, x, kk as u16)
  {
  }

  /** SelectFields for family F, the timer, key, I and memory forms. */
  lemma SelectFieldsMisc(x: u8, y: u8, n: u8, kk: u8, nnn: u16)
    requires x < 16
    requires Select(0xF, x, y, n, kk, nnn).Some?
    ensures WellFormed(Select(0xF, x, y, n, kk, nnn).value)
    ensures Reassembles(Select(0xF, x, y, n, kk, nnn).value, 0xF, x, kk as u16)
  {
    if kk == 0x07 || kk == 0x0A || kk == 0x15 || kk == 0x18 {
      SelectFieldsTimer(x, y, n, kk, nnn);
    } else {
      SelectFieldsMemory(x, y, n, kk, nnn);
    }
  }

  /** SelectFields for Fx07, Fx0A, Fx15 and Fx18. */
  lemma SelectFieldsTimer(x: u8, y: u8, n: u8, kk: u8, nnn: u16)
    requires x < 16
    requires kk == 0x07 || kk == 0x0A || kk == 0x15 || kk == 0x18
    ensures Select(0xF, x, y, n, kk, nnn).Some?
    ensures WellFormed(Select(0xF, x, y, n, kk, nnn).value)
    ensures Reassembles(Select(0xF, x, y, n, kk, nnn).value, 0xF, x, kk as u16)
  {
  }

  /** SelectFields for Fx1E, Fx29, Fx33, Fx55 and Fx65. */
  lemma SelectFieldsMemory(x: u8, y: u8, n: u8, kk: u8, nnn: u16)
    requires x < 16
    requires Select(0xF, x, y, n, kk, nnn).Some?
    requires kk != 0x07 && kk != 0x0A && kk != 0x15 && kk != 0x18
    ensures WellFormed(Select(0xF, x, y, n, kk, nnn).value)
    ensures Reassembles(Select(0xF, x, y, n, kk, nnn).value, 0xF, x, kk as u16)
  {
  }
}

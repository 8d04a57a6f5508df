// Decoding of 16-bit CHIP-8 opcodes into instruction kinds. The Rust
// `execute` matches on the tuple of the four nibbles; here that match is a
// pure function into a closed datatype, and the final catch-all arm (which
// panics with `unimplemented!`) becomes `None`.
module Opcode {
  import opened Bytes

  datatype Option<T> = None | Some(value: T)

  /** One instruction kind per arm of the dispatch, named after the usual mnemonic. */
  datatype Instr =
    | Nop                               // 0000
    | Cls                               // 00E0
    | Ret                               // 00EE
    | Jump(nnn: addr)                   // 1NNN
    | Call(nnn: addr)                   // 2NNN
    | SkipEqImm(x: nibble, nn: u8)      // 3XNN
    | SkipNeImm(x: nibble, nn: u8)      // 4XNN
    | SkipEqReg(x: nibble, y: nibble)   // 5XY0
    | LoadImm(x: nibble, nn: u8)        // 6XNN
    | AddImm(x: nibble, nn: u8)         // 7XNN
    | Move(x: nibble, y: nibble)        // 8XY0
    | Or(x: nibble, y: nibble)          // 8XY1
    | And(x: nibble, y: nibble)         // 8XY2
    | Xor(x: nibble, y: nibble)         // 8XY3
    | AddReg(x: nibble, y: nibble)      // 8XY4
    | SubReg(x: nibble, y: nibble)      // 8XY5
    | ShiftRight(x: nibble, y: nibble)  // 8XY6
    | SubRev(x: nibble, y: nibble)      // 8XY7
    | ShiftLeft(x: nibble, y: nibble)   // 8XYE
    | SkipNeReg(x: nibble, y: nibble)   // 9XY0
    | LoadIndex(nnn: addr)              // ANNN
    | JumpV0(nnn: addr)                 // BNNN
    | Random(x: nibble, nn: u8)         // CXNN
    | Draw(x: nibble, y: nibble, n: nibble) // DXYN
    | SkipKey(x: nibble)                // EX9E
    | SkipNotKey(x: nibble)             // EXA1
    | GetDelay(x: nibble)               // FX07
    | WaitKey(x: nibble)                // FX0A
    | SetDelay(x: nibble)               // FX15
    | SetSound(x: nibble)               // FX18
    | AddIndex(x: nibble)               // FX1E
    | FontChar(x: nibble)               // FX29
    | StoreBcd(x: nibble)               // FX33
    | StoreRegs(x: nibble)              // FX55
    | LoadRegs(x: nibble)               // FX65

  /** The dispatch of `execute`: the first arm that matches the nibble tuple; `None` for the panicking catch-all.
      The arms sharing a leading nibble are grouped into one helper each. */
  function Decode(op: u16): Option<Instr>
  {
    var (d1, x, y, n) := Nibbles(op);
    var nn := LowByte(op);
    var nnn := Low12(op);
    match d1
    case 0 => DecodeSystem(x, y, n)
    case 1 => Some(Jump(nnn))
    case 2 => Some(Call(nnn))
    case 3 => Some(SkipEqImm(x, nn))
    case 4 => Some(SkipNeImm(x, nn))
    case 5 => if n == 0 then Some(SkipEqReg(x, y)) else None
    case 6 => Some(LoadImm(x, nn))
    case 7 => Some(AddImm(x, nn))
    case 8 => DecodeAlu(x, y, n)
    case 9 => if n == 0 then Some(SkipNeReg(x, y)) else None
    case 0xA => Some(LoadIndex(nnn))
    case 0xB => Some(JumpV0(nnn))
    case 0xC => Some(Random(x, nn))
    case 0xD => Some(Draw(x, y, n))
    case 0xE => DecodeKeySkip(x, y, n)
    case 0xF => DecodeMisc(x, y, n)
  }

  /** Arms (0, 0, 0, 0), (0, 0, 0xE, 0) and (0, 0, 0xE, 0xE). */
  function DecodeSystem(d2: nibble, d3: nibble, d4: nibble): Option<Instr>
  {
    match (d2, d3, d4)
    case (0, 0, 0) => Some(Nop)
    case (0, 0xE, 0) => Some(Cls)
    case (0, 0xE, 0xE) => Some(Ret)
    case _ => None
  }

  /** Arms (8, _, _, k). */
  function DecodeAlu(x: nibble, y: nibble, d4: nibble): Option<Instr>
  {
    match d4
    case 0 => Some(Move(x, y))
    case 1 => Some(Or(x, y))
    case 2 => Some(And(x, y))
    case 3 => Some(Xor(x, y))
    case 4 => Some(AddReg(x, y))
    case 5 => Some(SubReg(x, y))
    case 6 => Some(ShiftRight(x, y))
    case 7 => Some(SubRev(x, y))
    case 0xE => Some(ShiftLeft(x, y))
    case _ => None
  }

  /** Arms (0xE, _, 9, 0xE) and (0xE, _, 0xA, 1). */
  function DecodeKeySkip(x: nibble, d3: nibble, d4: nibble): Option<Instr>
  {
    match (d3, d4)
    case (9, 0xE) => Some(SkipKey(x))
    case (0xA, 1) => Some(SkipNotKey(x))
    case _ => None
  }

  /** Arms (0xF, _, k, l). */
  function DecodeMisc(x: nibble, d3: nibble, d4: nibble): Option<Instr>
  {
    match (d3, d4)
    case (0, 7) => Some(GetDelay(x))
    case (0, 0xA) => Some(WaitKey(x))
    case (1, 5) => Some(SetDelay(x))
    case (1, 8) => Some(SetSound(x))
    case (1, 0xE) => Some(AddIndex(x))
    case (2, 9) => Some(FontChar(x))
    case (3, 3) => Some(StoreBcd(x))
    case (5, 5) => Some(StoreRegs(x))
    case (6, 5) => Some(LoadRegs(x))
    case _ => None
  }

  function Op(d1: nibble, d2: nibble, d3: nibble, d4: nibble): u16 {
    (d1 as int * 0x1000 + d2 as int * 0x100 + d3 as int * 0x10 + d4 as int) as u16
  }

  function OpNnn(d1: nibble, nnn: addr): u16 {
    (d1 as int * 0x1000 + nnn as int) as u16
  }

  function OpXnn(d1: nibble, x: nibble, nn: u8): u16 {
    (d1 as int * 0x1000 + x as int * 0x100 + nn as int) as u16
  }

  /** The opcode word of an instruction: the inverse of Decode. */
  function Encode(ins: Instr): u16 {
    match ins
    case Nop => Op(0, 0, 0, 0)
    case Cls => Op(0, 0, 0xE, 0)
    case Ret => Op(0, 0, 0xE, 0xE)
    case Jump(nnn) => OpNnn(1, nnn)
    case Call(nnn) => OpNnn(2, nnn)
    case SkipEqImm(x, nn) => OpXnn(3, x, nn)
    case SkipNeImm(x, nn) => OpXnn(4, x, nn)
    case SkipEqReg(x, y) => Op(5, x, y, 0)
    case LoadImm(x, nn) => OpXnn(6, x, nn)
    case AddImm(x, nn) => OpXnn(7, x, nn)
    case Move(x, y) => Op(8, x, y, 0)
    case Or(x, y) => Op(8, x, y, 1)
    case And(x, y) => Op(8, x, y, 2)
    case Xor(x, y) => Op(8, x, y, 3)
    case AddReg(x, y) => Op(8, x, y, 4)
    case SubReg(x, y) => Op(8, x, y, 5)
    case ShiftRight(x, y) => Op(8, x, y, 6)
    case SubRev(x, y) => Op(8, x, y, 7)
    case ShiftLeft(x, y) => Op(8, x, y, 0xE)
    case SkipNeReg(x, y) => Op(9, x, y, 0)
    case LoadIndex(nnn) => OpNnn(0xA, nnn)
    case JumpV0(nnn) => OpNnn(0xB, nnn)
    case Random(x, nn) => OpXnn(0xC, x, nn)
    case Draw(x, y, n) => Op(0xD, x, y, n)
    case SkipKey(x) => Op(0xE, x, 9, 0xE)
    case SkipNotKey(x) => Op(0xE, x, 0xA, 1)
    case GetDelay(x) => Op(0xF, x, 0, 7)
    case WaitKey(x) => Op(0xF, x, 0, 0xA)
    case SetDelay(x) => Op(0xF, x, 1, 5)
    case SetSound(x) => Op(0xF, x, 1, 8)
    case AddIndex(x) => Op(0xF, x, 1, 0xE)
    case FontChar(x) => Op(0xF, x, 2, 9)
    case StoreBcd(x) => Op(0xF, x, 3, 3)
    case StoreRegs(x) => Op(0xF, x, 5, 5)
    case LoadRegs(x) => Op(0xF, x, 6, 5)
  }

  lemma NibblesOfOpNnn(d1: nibble, nnn: addr)
    ensures Nibbles(OpNnn(d1, nnn)).0 == d1 && Low12(OpNnn(d1, nnn)) == nnn
  {
    var n := nnn as int;
    DivMod256(n, n / 0x100, n % 0x100);
    DivMod16(n % 0x100, n % 0x100 / 0x10, n % 0x10);
    NibblesOf(OpNnn(d1, nnn), d1, (n / 0x100) as nibble, (n % 0x100 / 0x10) as nibble, (n % 0x10) as nibble);
  }

  lemma NibblesOfOpXnn(d1: nibble, x: nibble, nn: u8)
    ensures Nibbles(OpXnn(d1, x, nn)).0 == d1 && Nibbles(OpXnn(d1, x, nn)).1 == x
    ensures LowByte(OpXnn(d1, x, nn)) == nn
  {
    var n := nn as int;
    DivMod16(n, n / 0x10, n % 0x10);
    NibblesOf(OpXnn(d1, x, nn), d1, x, (n / 0x10) as nibble, (n % 0x10) as nibble);
  }

  lemma DecodeSystemOps(op: u16)
    requires op == 0 || op == 0xE0 || op == 0xEE
    ensures op == 0 ==> Decode(op) == Some(Nop)
    ensures op == 0xE0 ==> Decode(op) == Some(Cls)
    ensures op == 0xEE ==> Decode(op) == Some(Ret)
  {
    if op == 0 {
      NibblesOf(op, 0, 0, 0, 0);
    } else if op == 0xE0 {
      NibblesOf(op, 0, 0, 0xE, 0);
    } else {
      NibblesOf(op, 0, 0, 0xE, 0xE);
    }
  }

  lemma DecodeEncodeControl(ins: Instr)
    requires ins.Nop? || ins.Cls? || ins.Ret? || ins.Jump? || ins.Call? || ins.LoadIndex? || ins.JumpV0?
    ensures Decode(Encode(ins)) == Some(ins)
  {
    match ins
    case Nop => DecodeSystemOps(Encode(ins));
    case Cls => DecodeSystemOps(Encode(ins));
    case Ret => DecodeSystemOps(Encode(ins));
    case Jump(nnn) => NibblesOfOpNnn(1, nnn);
    case Call(nnn) => NibblesOfOpNnn(2, nnn);
    case LoadIndex(nnn) => NibblesOfOpNnn(0xA, nnn);
    case JumpV0(nnn) => NibblesOfOpNnn(0xB, nnn);
  }

  lemma DecodeEncodeSkips(ins: Instr)
    requires ins.SkipEqImm? || ins.SkipNeImm? || ins.SkipEqReg? || ins.SkipNeReg?
    ensures Decode(Encode(ins)) == Some(ins)
  {
    match ins
    case SkipEqImm(x, nn) => NibblesOfOpXnn(3, x, nn);
    case SkipNeImm(x, nn) => NibblesOfOpXnn(4, x, nn);
    case SkipEqReg(x, y) => NibblesOf(Encode(ins), 5, x, y, 0);
    case SkipNeReg(x, y) => NibblesOf(Encode(ins), 9, x, y, 0);
  }

  lemma DecodeEncodeImmediate(ins: Instr)
    requires ins.LoadImm? || ins.AddImm? || ins.Random?
    ensures Decode(Encode(ins)) == Some(ins)
  {
    match ins
    case LoadImm(x, nn) => NibblesOfOpXnn(6, x, nn);
    case AddImm(x, nn) => NibblesOfOpXnn(7, x, nn);
    case Random(x, nn) => NibblesOfOpXnn(0xC, x, nn);
  }

  lemma DecodeEncodeAlu(ins: Instr)
    requires ins.Move? || ins.Or? || ins.And? || ins.Xor? || ins.AddReg? || ins.SubReg? || ins.ShiftRight? || ins.SubRev? || ins.ShiftLeft?
    ensures Decode(Encode(ins)) == Some(ins)
  {
    match ins
    case Move(x, y) => NibblesOf(Encode(ins), 8, x, y, 0);
    case Or(x, y) => NibblesOf(Encode(ins), 8, x, y, 1);
    case And(x, y) => NibblesOf(Encode(ins), 8, x, y, 2);
    case Xor(x, y) => NibblesOf(Encode(ins), 8, x, y, 3);
    case AddReg(x, y) => NibblesOf(Encode(ins), 8, x, y, 4);
    case SubReg(x, y) => NibblesOf(Encode(ins), 8, x, y, 5);
    case ShiftRight(x, y) => NibblesOf(Encode(ins), 8, x, y, 6);
    case SubRev(x, y) => NibblesOf(Encode(ins), 8, x, y, 7);
    case ShiftLeft(x, y) => NibblesOf(Encode(ins), 8, x, y, 0xE);
  }

  lemma DecodeEncodeDrawKeys(ins: Instr)
    requires ins.Draw? || ins.SkipKey? || ins.SkipNotKey?
    ensures Decode(Encode(ins)) == Some(ins)
  {
    match ins
    case Draw(x, y, n) => NibblesOf(Encode(ins), 0xD, x, y, n);
    case SkipKey(x) => NibblesOf(Encode(ins), 0xE, x, 9, 0xE);
    case SkipNotKey(x) => NibblesOf(Encode(ins), 0xE, x, 0xA, 1);
  }

  lemma DecodeEncodeTimers(ins: Instr)
    requires ins.GetDelay? || ins.WaitKey? || ins.SetDelay? || ins.SetSound?
    ensures Decode(Encode(ins)) == Some(ins)
  {
    match ins
    case GetDelay(x) => NibblesOf(Encode(ins), 0xF, x, 0, 7);
    case WaitKey(x) => NibblesOf(Encode(ins), 0xF, x, 0, 0xA);
    case SetDelay(x) => NibblesOf(Encode(ins), 0xF, x, 1, 5);
    case SetSound(x) => NibblesOf(Encode(ins), 0xF, x, 1, 8);
  }

  lemma DecodeEncodeMemory(ins: Instr)
    requires ins.AddIndex? || ins.FontChar? || ins.StoreBcd? || ins.StoreRegs? || ins.LoadRegs?
    ensures Decode(Encode(ins)) == Some(ins)
  {
    match ins
    case AddIndex(x) => NibblesOf(Encode(ins), 0xF, x, 1, 0xE);
    case FontChar(x) => NibblesOf(Encode(ins), 0xF, x, 2, 9);
    case StoreBcd(x) => NibblesOf(Encode(ins), 0xF, x, 3, 3);
    case StoreRegs(x) => NibblesOf(Encode(ins), 0xF, x, 5, 5);
    case LoadRegs(x) => NibblesOf(Encode(ins), 0xF, x, 6, 5);
  }

  /** Every instruction survives encoding and decoding unchanged. */
  lemma DecodeEncode(ins: Instr)
    ensures Decode(Encode(ins)) == Some(ins)
  {
    if ins.Nop? || ins.Cls? || ins.Ret? || ins.Jump? || ins.Call? || ins.LoadIndex? || ins.JumpV0? {
      DecodeEncodeControl(ins);
    } else if ins.SkipEqImm? || ins.SkipNeImm? || ins.SkipEqReg? || ins.SkipNeReg? {
      DecodeEncodeSkips(ins);
    } else if ins.LoadImm? || ins.AddImm? || ins.Random? {
      DecodeEncodeImmediate(ins);
    } else if ins.Move? || ins.Or? || ins.And? || ins.Xor? || ins.AddReg? || ins.SubReg? || ins.ShiftRight? ||
              ins.SubRev? || ins.ShiftLeft?
    {
      DecodeEncodeAlu(ins);
    } else if ins.Draw? || ins.SkipKey? || ins.SkipNotKey? {
      DecodeEncodeDrawKeys(ins);
    } else if ins.GetDelay? || ins.WaitKey? || ins.SetDelay? || ins.SetSound? {
      DecodeEncodeTimers(ins);
    } else {
      DecodeEncodeMemory(ins);
    }
  }

  /** A decoded opcode is exactly the encoding of its instruction: no two opcodes decode alike. */
  lemma EncodeDecode(op: u16)
    requires Decode(op).Some?
    ensures Encode(Decode(op).value) == op
  {
    var (d1, x, y, n) := Nibbles(op);
    var nn, nnn := LowByte(op), Low12(op);
    assert op == Op(d1, x, y, n) && op == OpNnn(d1, nnn) && op == OpXnn(d1, x, nn);
    match d1
    case 0 => EncodeDecodeSystem(x, y, n);
    case 1 => assert Decode(op) == Some(Jump(nnn));
    case 2 => assert Decode(op) == Some(Call(nnn));
    case 3 => assert Decode(op) == Some(SkipEqImm(x, nn));
    case 4 => assert Decode(op) == Some(SkipNeImm(x, nn));
    case 5 => assert Decode(op) == Some(SkipEqReg(x, y));
    case 6 => assert Decode(op) == Some(LoadImm(x, nn));
    case 7 => assert Decode(op) == Some(AddImm(x, nn));
    case 8 => EncodeDecodeAlu(x, y, n);
    case 9 => assert Decode(op) == Some(SkipNeReg(x, y));
    case 0xA => assert Decode(op) == Some(LoadIndex(nnn));
    case 0xB => assert Decode(op) == Some(JumpV0(nnn));
    case 0xC => assert Decode(op) == Some(Random(x, nn));
    case 0xD => assert Decode(op) == Some(Draw(x, y, n));
    case 0xE => EncodeDecodeKeySkip(x, y, n);
    case 0xF => EncodeDecodeMisc(x, y, n);
  }

  lemma EncodeDecodeSystem(x: nibble, y: nibble, n: nibble)
    requires DecodeSystem(x, y, n).Some?
    ensures Encode(DecodeSystem(x, y, n).value) == Op(0, x, y, n)
  {
    if x == 0 && y == 0 && n == 0 {
      assert DecodeSystem(x, y, n) == Some(Nop);
    } else if x == 0 && y == 0xE && n == 0 {
      assert DecodeSystem(x, y, n) == Some(Cls);
    } else {
      assert x == 0 && y == 0xE && n == 0xE;
      assert DecodeSystem(x, y, n) == Some(Ret);
    }
  }

  lemma EncodeDecodeAlu(x: nibble, y: nibble, n: nibble)
    requires DecodeAlu(x, y, n).Some?
    ensures Encode(DecodeAlu(x, y, n).value) == Op(8, x, y, n)
  {
    match n
    case 0 => assert DecodeAlu(x, y, n) == Some(Move(x, y));
    case 1 => assert DecodeAlu(x, y, n) == Some(Or(x, y));
    case 2 => assert DecodeAlu(x, y, n) == Some(And(x, y));
    case 3 => assert DecodeAlu(x, y, n) == Some(Xor(x, y));
    case 4 => assert DecodeAlu(x, y, n) == Some(AddReg(x, y));
    case 5 => assert DecodeAlu(x, y, n) == Some(SubReg(x, y));
    case 6 => assert DecodeAlu(x, y, n) == Some(ShiftRight(x, y));
    case 7 => assert DecodeAlu(x, y, n) == Some(SubRev(x, y));
    case 0xE => assert DecodeAlu(x, y, n) == Some(ShiftLeft(x, y));
    case _ => assert false;
  }

  lemma EncodeDecodeKeySkip(x: nibble, y: nibble, n: nibble)
    requires DecodeKeySkip(x, y, n).Some?
    ensures Encode(DecodeKeySkip(x, y, n).value) == Op(0xE, x, y, n)
  {
    if y == 9 && n == 0xE {
      assert DecodeKeySkip(x, y, n) == Some(SkipKey(x));
    } else {
      assert y == 0xA && n == 1;
      assert DecodeKeySkip(x, y, n) == Some(SkipNotKey(x));
    }
  }

  lemma EncodeDecodeMisc(x: nibble, y: nibble, n: nibble)
    requires DecodeMisc(x, y, n).Some?
    ensures Encode(DecodeMisc(x, y, n).value) == Op(0xF, x, y, n)
  {
    if y == 0 && n == 7 {
      assert DecodeMisc(x, y, n) == Some(GetDelay(x));
    } else if y == 0 && n == 0xA {
      assert DecodeMisc(x, y, n) == Some(WaitKey(x));
    } else if y == 1 && n == 5 {
      assert DecodeMisc(x, y, n) == Some(SetDelay(x));
    } else if y == 1 && n == 8 {
      assert DecodeMisc(x, y, n) == Some(SetSound(x));
    } else if y == 1 && n == 0xE {
      assert DecodeMisc(x, y, n) == Some(AddIndex(x));
    } else if y == 2 && n == 9 {
      assert DecodeMisc(x, y, n) == Some(FontChar(x));
    } else if y == 3 && n == 3 {
      assert DecodeMisc(x, y, n) == Some(StoreBcd(x));
    } else if y == 5 && n == 5 {
      assert DecodeMisc(x, y, n) == Some(StoreRegs(x));
    } else {
      assert y == 6 && n == 5;
      assert DecodeMisc(x, y, n) == Some(LoadRegs(x));
    }
  }
}

// The `Emu` struct: its fixed-size arrays are updated in place by its
// methods. Every method is proved against the value-level specification in
// machine.dfy through Abstract().
module Emulator {
  import opened Bytes
  import opened Opcode
  import Machine

  /** What `execute` and `tick` end with; the source panics where this model returns Unimplemented. */
  datatype Outcome = Executed | Unimplemented(op: u16)

  class Emu {
    var pc: u16
    const ram: array<u8>
    const screen: array<bool>
    const vReg: array<u8>
    var iReg: u16
    var sp: u16
    const stack: array<u16>
    const keys: array<bool>
    var dt: u8
    var st: u8

    ghost predicate Valid()
      reads this
    {
      && ram.Length == Machine.RAM_SIZE
      && screen.Length == Machine.SCREEN_SIZE
      && vReg.Length == Machine.NUM_REGS
      && stack.Length == Machine.STACK_SIZE
      && keys.Length == Machine.NUM_KEYS
      && ram != vReg
      && screen != keys
      && sp as int <= Machine.STACK_SIZE
    }

    /** The emulator's fields as a value. */
    ghost function Abstract(): (s: Machine.State)
      reads this, ram, screen, vReg, stack, keys
      ensures Valid() ==> Machine.Wf(s)
    {
      Machine.State(pc, ram[..], screen[..], vReg[..], iReg, sp, stack[..], keys[..], dt, st)
    }

    /** `new`: everything zero except the font at the bottom of memory; pc at START_ADDR. */
    constructor ()
      ensures Valid() && Abstract() == Machine.Initial()
      ensures fresh(ram) && fresh(screen) && fresh(vReg) && fresh(stack) && fresh(keys)
    {
      pc := Machine.START_ADDR;
      ram := new u8[Machine.RAM_SIZE](_ => 0);
      screen := new bool[Machine.SCREEN_SIZE](_ => false);
      vReg := new u8[Machine.NUM_REGS](_ => 0);
      iReg := 0;
      sp := 0;
      stack := new u16[Machine.STACK_SIZE](_ => 0);
      keys := new bool[Machine.NUM_KEYS](_ => false);
      dt := 0;
      st := 0;
      new;
      forall a | 0 <= a < Machine.FONTSET_SIZE {
        ram[a] := Machine.FONTSET[a];
      }
      assert ram[..] == Machine.Initial().ram;
    }

    /** `reset`: back to the state `new` builds. */
    method Reset()
      requires Valid()
      modifies this, ram, screen, vReg, stack, keys
      ensures Valid() && Abstract() == Machine.Initial()
    {
      pc := Machine.START_ADDR;
      forall a | 0 <= a < Machine.RAM_SIZE {
        ram[a] := 0;
      }
      forall p | 0 <= p < Machine.SCREEN_SIZE {
        screen[p] := false;
      }
      forall r | 0 <= r < Machine.NUM_REGS {
        vReg[r] := 0;
      }
      iReg := 0;
      sp := 0;
      forall k | 0 <= k < Machine.STACK_SIZE {
        stack[k] := 0;
      }
      forall k | 0 <= k < Machine.NUM_KEYS {
        keys[k] := false;
      }
      dt := 0;
      st := 0;
      forall a | 0 <= a < Machine.FONTSET_SIZE {
        ram[a] := Machine.FONTSET[a];
      }
      assert ram[..] == Machine.Initial().ram;
    }

    /** `tick`: one fetch-decode-execute cycle; `rnd` stands for the byte CXNN draws from `random()`. */
    method Tick(rnd: u8) returns (outcome: Outcome)
      requires Valid() && Machine.CanStep(Abstract())
      modifies this, ram, screen, vReg, stack
      ensures Valid()
      ensures match Machine.Step(old(Abstract()), rnd)
              case Stepped(t) => outcome == Executed && Abstract() == t
              case Unimplemented(op) =>
                outcome == Unimplemented(op) && Abstract() == Machine.Advance(old(Abstract()))
    {
      var op := Fetch();
      outcome := Execute(op, rnd);
    }

    /** `fetch`: the big-endian word at pc, with pc moved past it. */
    method Fetch() returns (op: u16)
      requires Valid() && Machine.CanFetch(Abstract())
      modifies this
      ensures Valid()
      ensures op == Machine.OpcodeAt(old(Abstract())) && Abstract() == Machine.Advance(old(Abstract()))
    {
      var higherByte := ram[pc];
      var lowerByte := ram[pc + 1];
      op := Word(higherByte, lowerByte);
      pc := pc + 2;
    }

    /** `execute`: decodes `op` and runs it; an opcode no arm matches is reported, not run. */
    method Execute(op: u16, rnd: u8) returns (outcome: Outcome)
      requires Valid()
      requires Decode(op).Some? ==> Machine.Safe(Abstract(), Decode(op).value)
      modifies this, ram, screen, vReg, stack
      ensures Valid()
      ensures match Decode(op)
              case None => outcome == Unimplemented(op) && Abstract() == old(Abstract())
              case Some(ins) => outcome == Executed && Abstract() == Machine.Exec(old(Abstract()), ins, rnd)
    {
      match Decode(op)
      case None =>
        outcome := Unimplemented(op);
      case Some(ins) =>
        ExecuteInstr(ins, rnd);
        outcome := Executed;
    }

    /** The arms of `execute`'s match, one per instruction kind, grouped in seven methods. */
    method ExecuteInstr(ins: Instr, rnd: u8)
      requires Valid() && Machine.Safe(Abstract(), ins)
      modifies this, ram, screen, vReg, stack
      ensures Valid() && Abstract() == Machine.Exec(old(Abstract()), ins, rnd)
    {
      if Machine.IsFlow(ins) {
        ExecuteFlow(ins);
      } else if Machine.IsCompareSkip(ins) {
        ExecuteCompareSkip(ins);
      } else if Machine.IsRegLoad(ins) {
        ExecuteLoads(ins, rnd);
      } else if Machine.IsArith(ins) {
        ExecuteArith(ins);
      } else if Machine.IsKeyOp(ins) {
        ExecuteKeys(ins);
      } else if Machine.IsIndexTimer(ins) {
        ExecuteTimers(ins);
      } else {
        ExecuteMemory(ins);
      }
    }

    /** Control flow: the system opcodes, jumps, calls and returns. */
    method ExecuteFlow(ins: Instr)
      requires Valid() && Machine.Safe(Abstract(), ins) && Machine.IsFlow(ins)
      modifies this, screen, stack
      ensures Valid() && Abstract() == Machine.ExecFlow(old(Abstract()), ins)
    {
      match ins
      case Nop =>
      case Cls =>
        forall p | 0 <= p < Machine.SCREEN_SIZE {
          screen[p] := false;
        }
      case Ret =>
        var retAddr := Pop();
        pc := retAddr;
      case Jump(nnn) =>
        pc := nnn;
      case Call(nnn) =>
        Push(pc);
        pc := nnn;
      case JumpV0(nnn) =>
        pc := (vReg[0] as int + nnn as int) as u16;
    }

    /** The register-comparing skips: 3XNN, 4XNN, 5XY0 and 9XY0. */
    method ExecuteCompareSkip(ins: Instr)
      requires Valid() && Machine.Safe(Abstract(), ins) && Machine.IsCompareSkip(ins)
      modifies this
      ensures Valid() && Abstract() == Machine.ExecCompareSkip(old(Abstract()), ins)
    {
      match ins
      case SkipEqImm(x, nn) =>
        if vReg[x] == nn {
          pc := pc + 2;
        }
      case SkipNeImm(x, nn) =>
        if vReg[x] != nn {
          pc := pc + 2;
        }
      case SkipEqReg(x, y) =>
        if vReg[x] == vReg[y] {
          pc := pc + 2;
        }
      case SkipNeReg(x, y) =>
        if vReg[x] != vReg[y] {
          pc := pc + 2;
        }
    }

    /** The register loads and bitwise operations: 6XNN, 7XNN, 8XY0 to 8XY3 and CXNN. */
    method ExecuteLoads(ins: Instr, rnd: u8)
      requires Valid() && Machine.IsRegLoad(ins)
      modifies vReg
      ensures Valid() && Abstract() == Machine.ExecRegLoad(old(Abstract()), ins, rnd)
    {
      match ins
      case LoadImm(x, nn) =>
        vReg[x] := nn;
      case AddImm(x, nn) =>
        vReg[x] := WrappingAdd(vReg[x], nn);
      case Move(x, y) =>
        vReg[x] := vReg[y];
      case Or(x, y) =>
        vReg[x] := BitOr(vReg[x], vReg[y]);
      case And(x, y) =>
        vReg[x] := BitAnd(vReg[x], vReg[y]);
      case Xor(x, y) =>
        vReg[x] := BitXor(vReg[x], vReg[y]);
      case Random(x, nn) =>
        vReg[x] := BitAnd(rnd, nn);
    }

    /** The arithmetic that sets VF: 8XY4 to 8XY7 and 8XYE. */
    method ExecuteArith(ins: Instr)
      requires Valid() && Machine.IsArith(ins)
      modifies vReg
      ensures Valid() && Abstract() == Machine.ExecArith(old(Abstract()), ins)
    {
      match ins
      case AddReg(x, y) =>
        var (newVx, carry) := OverflowingAdd(vReg[x], vReg[y]);
        vReg[x] := newVx;
        vReg[Machine.VF] := Flag(carry);
      case SubReg(x, y) =>
        var (newVx, borrow) := OverflowingSub(vReg[x], vReg[y]);
        vReg[x] := newVx;
        vReg[Machine.VF] := Flag(!borrow);
      case ShiftRight(x, _) =>
        var lsb := vReg[x] % 2;
        vReg[x] := vReg[x] / 2;
        vReg[Machine.VF] := lsb;
      case SubRev(x, y) =>
        // As written in the source: VY is subtracted from itself.
        var (newVx, borrow) := OverflowingSub(vReg[y], vReg[y]);
        vReg[x] := newVx;
        vReg[Machine.VF] := Flag(!borrow);
      case ShiftLeft(x, _) =>
        var msb := vReg[x] / 0x80;
        vReg[x] := (vReg[x] as int * 2 % 0x100) as u8;
        vReg[Machine.VF] := msb;
    }

    /** The keypad instructions: EX9E, EXA1 and FX0A. */
    method ExecuteKeys(ins: Instr)
      requires Valid() && Machine.Safe(Abstract(), ins) && Machine.IsKeyOp(ins)
      modifies this, vReg
      ensures Valid() && Abstract() == Machine.ExecKeyOp(old(Abstract()), ins)
    {
      match ins
      case SkipKey(x) =>
        if keys[vReg[x]] {
          pc := pc + 2;
        }
      case SkipNotKey(x) =>
        if !keys[vReg[x]] {
          pc := pc + 2;
        }
      case WaitKey(x) =>
        WaitForKey(x);
    }

    /** Timers and the index register: ANNN, FX07, FX15, FX18, FX1E and FX29. */
    method ExecuteTimers(ins: Instr)
      requires Valid() && Machine.IsIndexTimer(ins)
      modifies this, vReg
      ensures Valid() && Abstract() == Machine.ExecIndexTimer(old(Abstract()), ins)
    {
      match ins
      case LoadIndex(nnn) =>
        iReg := nnn;
      case GetDelay(x) =>
        vReg[x] := dt;
      case SetDelay(x) =>
        dt := vReg[x];
      case SetSound(x) =>
        st := vReg[x];
      case AddIndex(x) =>
        iReg := WrappingAdd16(iReg, vReg[x] as u16);
      case FontChar(x) =>
        iReg := (vReg[x] as int * 5) as u16;
    }

    /** Screen and memory transfers: DXYN, FX33, FX55 and FX65. */
    method ExecuteMemory(ins: Instr)
      requires Valid() && Machine.Safe(Abstract(), ins)
      requires !(Machine.IsFlow(ins) || Machine.IsCompareSkip(ins) || Machine.IsRegLoad(ins) ||
                 Machine.IsArith(ins) || Machine.IsKeyOp(ins) || Machine.IsIndexTimer(ins))
      modifies ram, screen, vReg
      ensures Valid() && Abstract() == Machine.ExecMemory(old(Abstract()), ins)
    {
      match ins
      case Draw(x, y, n) =>
        DrawSprite(x, y, n);
      case StoreBcd(x) =>
        var (hundreds, tens, ones) := Machine.Bcd(vReg[x]);
        ram[iReg] := hundreds;
        ram[iReg as int + 1] := tens;
        ram[iReg as int + 2] := ones;
      case StoreRegs(x) =>
        StoreRegisters(x);
      case LoadRegs(x) =>
        LoadRegisters(x);
    }

    /** DXYN: XOR the n-row sprite at I onto the screen at (VX, VY); VF reports whether a lit pixel was erased. */
    method DrawSprite(x: nibble, y: nibble, n: nibble)
      requires Valid() && Machine.SpriteFits(Abstract(), n)
      modifies screen, vReg
      ensures Valid()
      ensures Abstract() == Machine.DrawSprite(old(Abstract()), old(vReg[x]), old(vReg[y]), n)
    {
      ghost var s := Abstract();
      var xCoord := vReg[x];
      var yCoord := vReg[y];
      var flipped := false;
      Machine.DrawEnds(s, xCoord, yCoord, n);
      var row := 0;
      while row < n as int
        invariant 0 <= row <= n as int
        invariant ram[..] == s.ram && vReg[..] == s.vReg
        invariant screen[..] == Machine.PartialScreen(s, xCoord, yCoord, n, row, 0)
        invariant flipped == Machine.PartialCollides(s, xCoord, yCoord, n, row, 0)
      {
        flipped := DrawRow(s, xCoord, yCoord, n, row, flipped);
        row := row + 1;
      }
      vReg[Machine.VF] := Flag(flipped);
    }

    /** One pass of the outer loop of DXYN: the eight columns of sprite row `row`. */
    method DrawRow(ghost s: Machine.State, xCoord: u8, yCoord: u8, n: nibble, row: int, flippedBefore: bool)
      returns (flipped: bool)
      requires Valid() && Machine.Wf(s) && Machine.SpriteFits(s, n) && 0 <= row < n as int
      requires s.ram == ram[..] && s.iReg == iReg
      requires screen[..] == Machine.PartialScreen(s, xCoord, yCoord, n, row, 0)
      requires flippedBefore == Machine.PartialCollides(s, xCoord, yCoord, n, row, 0)
      modifies screen
      ensures screen[..] == Machine.PartialScreen(s, xCoord, yCoord, n, row + 1, 0)
      ensures flipped == Machine.PartialCollides(s, xCoord, yCoord, n, row + 1, 0)
    {
      var pixels := ram[iReg as int + row];
      flipped := flippedBefore;
      var col := 0;
      while col < 8
        invariant 0 <= col <= 8
        invariant screen[..] == Machine.PartialScreen(s, xCoord, yCoord, n, row, col)
        invariant flipped == Machine.PartialCollides(s, xCoord, yCoord, n, row, col)
      {
        Machine.DrawCell(s, xCoord, yCoord, n, row, col);
        if SpriteBit(pixels, col) {
          var px := (xCoord as int + col) % Machine.SCREEN_WIDTH;
          var py := (yCoord as int + row) % Machine.SCREEN_HEIGHT;
          var idx := px + Machine.SCREEN_WIDTH * py;
          flipped := flipped || screen[idx];
          screen[idx] := !screen[idx];
        }
        col := col + 1;
      }
      Machine.DrawRowDone(s, xCoord, yCoord, n, row);
    }

    /** FX0A: VX receives the lowest pressed key; with none pressed pc steps back so the instruction repeats. */
    method WaitForKey(x: nibble)
      requires Valid() && Machine.Safe(Abstract(), WaitKey(x))
      modifies this, vReg
      ensures Valid() && Abstract() == Machine.ExecKeyOp(old(Abstract()), WaitKey(x))
    {
      var pressed := false;
      var i := 0;
      while i < keys.Length
        invariant 0 <= i <= keys.Length
        invariant forall j :: 0 <= j < i ==> !keys[j]
        invariant Machine.FirstPressed(keys[..], 0) == Machine.FirstPressed(keys[..], i)
        invariant !pressed && vReg[..] == old(vReg[..]) && pc == old(pc)
      {
        if keys[i] {
          vReg[x] := i as u8;
          pressed := true;
          break;
        }
        i := i + 1;
      }
      if !pressed {
        pc := pc - 2;
      }
    }

    /** FX55: V0..VX into memory from I on. */
    method StoreRegisters(x: nibble)
      requires Valid() && iReg as int + x as int < Machine.RAM_SIZE
      modifies ram
      ensures Valid() && Abstract() == Machine.ExecMemory(old(Abstract()), StoreRegs(x))
    {
      var i := iReg as int;
      for idx := 0 to x as int + 1
        invariant forall a :: 0 <= a < Machine.RAM_SIZE ==>
                    ram[a] == if i <= a < i + idx then vReg[a - i] else old(ram[a])
      {
        ram[i + idx] := vReg[idx];
      }
      assert ram[..] == Machine.StoredRegs(old(Abstract()), x);
    }

    /** FX65: memory from I on into V0..VX. */
    method LoadRegisters(x: nibble)
      requires Valid() && iReg as int + x as int < Machine.RAM_SIZE
      modifies vReg
      ensures Valid() && Abstract() == Machine.ExecMemory(old(Abstract()), LoadRegs(x))
    {
      var i := iReg as int;
      for idx := 0 to x as int + 1
        invariant forall r :: 0 <= r < Machine.NUM_REGS ==>
                    vReg[r] == if r < idx then ram[i + r] else old(vReg[r])
      {
        vReg[idx] := ram[i + idx];
      }
      assert vReg[..] == Machine.LoadedRegs(old(Abstract()), x);
    }

    /** `tick_timers`: count both timers down, stopping at zero. */
    method TickTimers()
      requires Valid()
      modifies this`dt, this`st
      ensures Valid() && Abstract() == Machine.TickTimers(old(Abstract()))
    {
      if dt > 0 {
        dt := dt - 1;
      }
      if st > 0 {
        st := st - 1;
      }
    }

    /** `push`: store at the stack pointer, then move it up. */
    method Push(val: u16)
      requires Valid() && sp as int < Machine.STACK_SIZE
      modifies this`sp, stack
      ensures Valid() && Abstract() == Machine.Push(old(Abstract()), val)
    {
      stack[sp] := val;
      sp := sp + 1;
    }

    /** `pop`: move the stack pointer down, then read there. */
    method Pop() returns (val: u16)
      requires Valid() && sp > 0
      modifies this`sp
      ensures Valid() && (val, Abstract()) == Machine.Pop(old(Abstract()))
    {
      sp := sp - 1;
      val := stack[sp];
    }

    /** `get_display`: the screen, row-major. */
    function GetDisplay(): (d: seq<bool>)
      reads this, screen
      requires Valid()
      ensures |d| == Machine.SCREEN_SIZE
      ensures forall p :: 0 <= p < Machine.SCREEN_SIZE ==> d[p] == screen[p]
    {
      screen[..]
    }

    /** `keypress`: set the state of key idx. */
    method Keypress(idx: int, pressed: bool)
      requires Valid() && 0 <= idx < Machine.NUM_KEYS
      modifies keys
      ensures Valid() && Abstract() == Machine.Keypress(old(Abstract()), idx, pressed)
    {
      keys[idx] := pressed;
    }

    /** `load`: copy the program into memory from START_ADDR on. */
    method Load(data: seq<u8>)
      requires Valid() && Machine.START_ADDR as int + |data| <= Machine.RAM_SIZE
      modifies ram
      ensures Valid() && Abstract() == Machine.Load(old(Abstract()), data)
    {
      var start := Machine.START_ADDR as int;
      forall k | 0 <= k < |data| {
        ram[start + k] := data[k];
      }
      assert ram[..] == Machine.Load(old(Abstract()), data).ram;
    }
  }
}

// Properties of the emulator's instruction semantics, stated over the
// value-level model in machine.dfy.
module Properties {
  import opened Bytes
  import opened Opcode
  import opened Machine

  // ---------------------------------------------------------------- fetch

  /** The fetched word is ram[pc] * 256 + ram[pc + 1], and fetching moves pc, nothing else, by 2. */
  lemma FetchIsBigEndian(s: State)
    requires CanFetch(s)
    ensures OpcodeAt(s) as int == s.ram[s.pc] as int * 0x100 + s.ram[s.pc as int + 1] as int
    ensures Advance(s).pc as int == s.pc as int + 2 && Advance(s) == s.(pc := Advance(s).pc)
  {
    var op := OpcodeAt(s);
    DivMod256(op as int, op as int / 0x100, op as int % 0x100);
  }

  // ---------------------------------------------------------------- skips

  predicate IsSkip(ins: Instr) {
    ins.SkipEqImm? || ins.SkipNeImm? || ins.SkipEqReg? || ins.SkipNeReg? || ins.SkipKey? || ins.SkipNotKey?
  }

  /** The condition under which each skip instruction skips, read off the instruction set. */
  predicate SkipCondition(s: State, ins: Instr)
    requires Wf(s) && IsSkip(ins)
    requires (ins.SkipKey? || ins.SkipNotKey?) ==> s.vReg[ins.x] as int < NUM_KEYS
  {
    match ins
    case SkipEqImm(x, nn) => s.vReg[x] == nn
    case SkipNeImm(x, nn) => s.vReg[x] != nn
    case SkipEqReg(x, y) => s.vReg[x] == s.vReg[y]
    case SkipNeReg(x, y) => s.vReg[x] != s.vReg[y]
    case SkipKey(x) => s.keys[s.vReg[x]]
    case SkipNotKey(x) => !s.keys[s.vReg[x]]
  }

  /** A skip instruction ends 4 bytes on when its condition holds and 2 bytes on otherwise, changing nothing else. */
  lemma SkipAdvancesPc(s: State, rnd: u8)
    requires CanStep(s) && Decode(OpcodeAt(s)).Some? && IsSkip(Decode(OpcodeAt(s)).value)
    ensures var ins := Decode(OpcodeAt(s)).value;
            && ((ins.SkipKey? || ins.SkipNotKey?) ==> s.vReg[ins.x] as int < NUM_KEYS)
            && Step(s, rnd) == Stepped(s.(pc := if SkipCondition(s, ins) then s.pc + 4 else s.pc + 2))
  {
  }

  // ---------------------------------------------------------------- arithmetic and flags

  /** 7XNN adds modulo 256 and leaves every other register, VF included, alone. */
  lemma AddImmWrapsWithoutFlag(s: State, x: nibble, nn: u8, rnd: u8)
    requires Wf(s)
    ensures var t := Exec(s, AddImm(x, nn), rnd);
            && t.vReg[x] as int == (s.vReg[x] as int + nn as int) % 0x100
            && (forall r :: 0 <= r < NUM_REGS && r != x as int ==> t.vReg[r] == s.vReg[r])
            && t == s.(vReg := t.vReg)
  {
  }

  /** 8XY4: VF is 1 exactly when VX + VY exceeds 255; written last, the flag wins when X is F. */
  lemma AddRegCarry(s: State, x: nibble, y: nibble, rnd: u8)
    requires Wf(s)
    ensures var t := Exec(s, AddReg(x, y), rnd);
            var sum := s.vReg[x] as int + s.vReg[y] as int;
            && t.vReg[VF] == (if sum > 0xFF then 1 else 0)
            && (x != VF ==> t.vReg[x] as int == sum % 0x100)
            && (forall r :: 0 <= r < NUM_REGS && r != x as int && r != VF as int ==> t.vReg[r] == s.vReg[r])
            && t == s.(vReg := t.vReg)
  {
  }

  /** 8XY5: VF is 0 exactly when VX < VY (a borrow); written last, the flag wins when X is F. */
  lemma SubRegBorrow(s: State, x: nibble, y: nibble, rnd: u8)
    requires Wf(s)
    ensures var t := Exec(s, SubReg(x, y), rnd);
            && t.vReg[VF] == (if s.vReg[x] < s.vReg[y] then 0 else 1)
            && (x != VF ==> t.vReg[x] as int == (s.vReg[x] as int - s.vReg[y] as int) % 0x100)
            && (forall r :: 0 <= r < NUM_REGS && r != x as int && r != VF as int ==> t.vReg[r] == s.vReg[r])
            && t == s.(vReg := t.vReg)
  {
  }

  /** 8XY6: VF receives the bit shifted out; with X not F, the shifted value and the flag hold every bit of the old VX. */
  lemma ShiftRightKeepsBits(s: State, x: nibble, y: nibble, rnd: u8)
    requires Wf(s)
    ensures var t := Exec(s, ShiftRight(x, y), rnd);
            && t.vReg[VF] as int == s.vReg[x] as int % 2
            && (x != VF ==> t.vReg[x] as int * 2 + t.vReg[VF] as int == s.vReg[x] as int)
            && (forall r :: 0 <= r < NUM_REGS && r != x as int && r != VF as int ==> t.vReg[r] == s.vReg[r])
            && t == s.(vReg := t.vReg)
  {
  }

  /** 8XYE: VF receives the top bit shifted out; with X not F, the rest is VX doubled. */
  lemma ShiftLeftKeepsBits(s: State, x: nibble, y: nibble, rnd: u8)
    requires Wf(s)
    ensures var t := Exec(s, ShiftLeft(x, y), rnd);
            && t.vReg[VF] as int == s.vReg[x] as int / 0x80
            && (x != VF ==> t.vReg[VF] as int * 0x100 + t.vReg[x] as int == s.vReg[x] as int * 2)
            && (forall r :: 0 <= r < NUM_REGS && r != x as int && r != VF as int ==> t.vReg[r] == s.vReg[r])
            && t == s.(vReg := t.vReg)
  {
  }

  /** 8XY1 repeated changes nothing more. */
  lemma OrIdempotent(s: State, x: nibble, y: nibble, rnd1: u8, rnd2: u8)
    requires Wf(s)
    ensures var t := Exec(s, Or(x, y), rnd1); Exec(t, Or(x, y), rnd2) == t
  {
    var t := Exec(s, Or(x, y), rnd1);
    BitOrIdempotent(s.vReg[x], s.vReg[y]);
    if x == y {
      BitSelf(s.vReg[x]);
    }
    assert Exec(t, Or(x, y), rnd2).vReg == t.vReg;
  }

  /** 8XY2 repeated changes nothing more. */
  lemma AndIdempotent(s: State, x: nibble, y: nibble, rnd1: u8, rnd2: u8)
    requires Wf(s)
    ensures var t := Exec(s, And(x, y), rnd1); Exec(t, And(x, y), rnd2) == t
  {
    var t := Exec(s, And(x, y), rnd1);
    BitAndIdempotent(s.vReg[x], s.vReg[y]);
    if x == y {
      BitSelf(s.vReg[x]);
    }
    assert Exec(t, And(x, y), rnd2).vReg == t.vReg;
  }

  /** 8XY3 applied twice, with X and Y distinct, restores VX. */
  lemma XorTwiceRestores(s: State, x: nibble, y: nibble, rnd1: u8, rnd2: u8)
    requires Wf(s) && x != y
    ensures Exec(Exec(s, Xor(x, y), rnd1), Xor(x, y), rnd2) == s
  {
    var t := Exec(s, Xor(x, y), rnd1);
    BitXorCancels(s.vReg[x], s.vReg[y]);
    assert Exec(t, Xor(x, y), rnd2).vReg == s.vReg;
  }

  /** 8XY1, 8XY2 and 8XY3 combine VX and VY bit by bit into VX and leave every other register alone. */
  lemma BitwiseSetsBits(s: State, x: nibble, y: nibble, i: nat, rnd: u8)
    requires Wf(s) && i < 8
    ensures var t := Exec(s, Or(x, y), rnd);
            && (TestBit(t.vReg[x] as nat, i) <==> TestBit(s.vReg[x] as nat, i) || TestBit(s.vReg[y] as nat, i))
            && (forall r :: 0 <= r < NUM_REGS && r != x as int ==> t.vReg[r] == s.vReg[r])
            && t == s.(vReg := t.vReg)
    ensures var t := Exec(s, And(x, y), rnd);
            && (TestBit(t.vReg[x] as nat, i) <==> TestBit(s.vReg[x] as nat, i) && TestBit(s.vReg[y] as nat, i))
            && (forall r :: 0 <= r < NUM_REGS && r != x as int ==> t.vReg[r] == s.vReg[r])
            && t == s.(vReg := t.vReg)
    ensures var t := Exec(s, Xor(x, y), rnd);
            && (TestBit(t.vReg[x] as nat, i) <==> TestBit(s.vReg[x] as nat, i) != TestBit(s.vReg[y] as nat, i))
            && (forall r :: 0 <= r < NUM_REGS && r != x as int ==> t.vReg[r] == s.vReg[r])
            && t == s.(vReg := t.vReg)
  {
    BitwiseBits(s.vReg[x], s.vReg[y], i);
  }

  /** CXNN stores the random byte masked by NN: bit by bit, only the bits NN allows; a mask of 0 clears VX, 0xFF passes the byte through. */
  lemma RandomMasked(s: State, x: nibble, nn: u8, rnd: u8, i: nat)
    requires Wf(s) && i < 8
    ensures var t := Exec(s, Random(x, nn), rnd);
            && t.vReg[x] == BitAnd(rnd, nn)
            && (TestBit(t.vReg[x] as nat, i) <==> TestBit(rnd as nat, i) && TestBit(nn as nat, i))
            && BitAnd(t.vReg[x], nn) == t.vReg[x]
            && (nn == 0 ==> t.vReg[x] == 0)
            && (nn == 0xFF ==> t.vReg[x] == rnd)
            && (forall r :: 0 <= r < NUM_REGS && r != x as int ==> t.vReg[r] == s.vReg[r])
            && t == s.(vReg := t.vReg)
  {
    BitwiseBits(rnd, nn, i);
    BitAndIdempotent(rnd, nn);
    BitAndMasks(rnd);
  }

  /** 6XNN, 8XY0 and FX07 copy a byte into VX and leave every other register alone. */
  lemma LoadsCopyIntoVx(s: State, x: nibble, y: nibble, nn: u8, rnd: u8)
    requires Wf(s)
    ensures var t := Exec(s, LoadImm(x, nn), rnd);
            && t.vReg[x] == nn
            && (forall r :: 0 <= r < NUM_REGS && r != x as int ==> t.vReg[r] == s.vReg[r])
            && t == s.(vReg := t.vReg)
    ensures var t := Exec(s, Move(x, y), rnd);
            && t.vReg[x] == s.vReg[y]
            && (forall r :: 0 <= r < NUM_REGS && r != x as int ==> t.vReg[r] == s.vReg[r])
            && t == s.(vReg := t.vReg)
    ensures var t := Exec(s, GetDelay(x), rnd);
            && t.vReg[x] == s.dt
            && (forall r :: 0 <= r < NUM_REGS && r != x as int ==> t.vReg[r] == s.vReg[r])
            && t == s.(vReg := t.vReg)
  {
  }

  // ---------------------------------------------------------------- 8XY7 as written and as intended

  /** 8XY7 as the source has it subtracts VY from itself: VX becomes 0 and VF 1, whatever VX and VY hold. */
  lemma SubRevIgnoresOperands(s: State, x: nibble, y: nibble, rnd: u8)
    requires Wf(s)
    ensures var t := Exec(s, SubRev(x, y), rnd);
            && t.vReg[VF] == 1
            && (x != VF ==> t.vReg[x] == 0)
            && (forall r :: 0 <= r < NUM_REGS && r != x as int && r != VF as int ==> t.vReg[r] == s.vReg[r])
            && t == s.(vReg := t.vReg)
  {
  }

  /** VY - VX with borrow, the result 8XY7 is documented to give: the wrapped difference and VF. */
  function SubRevIntended(vx: u8, vy: u8): (r: (u8, u8))
    ensures r.0 as int == (vy as int - vx as int) % 0x100
    ensures r.1 == if vy < vx then 0 else 1
  {
    var (diff, borrow) := OverflowingSub(vy, vx);
    (diff, Flag(!borrow))
  }

  /** With V0 = 1 and V1 = 3, 8017 leaves V0 = 0 where VY - VX = 2 is intended. */
  lemma SubRevDiffersFromIntended(s: State, rnd: u8)
    requires Wf(s) && s.vReg[0] == 1 && s.vReg[1] == 3
    ensures Exec(s, SubRev(0, 1), rnd).vReg[0] == 0
    ensures SubRevIntended(s.vReg[0], s.vReg[1]).0 == 2
  {
  }

  // ---------------------------------------------------------------- stack

  /** Pop returns what Push stored and restores the stack pointer. */
  lemma PopAfterPush(s: State, val: u16)
    requires Wf(s) && s.sp as int < STACK_SIZE
    ensures Pop(Push(s, val)) == (val, s.(stack := s.stack[s.sp := val]))
    ensures forall k :: 0 <= k < STACK_SIZE && k != s.sp as int ==> Push(s, val).stack[k] == s.stack[k]
  {
  }

  /** 0000 changes nothing; 00E0 blanks the screen; 1NNN and BNNN set pc to NNN and to NNN + V0; 2NNN pushes pc and jumps; 00EE pops pc off the stack. */
  lemma FlowEffects(s: State, nnn: addr, rnd: u8)
    requires Wf(s)
    ensures Exec(s, Nop, rnd) == s
    ensures var t := Exec(s, Cls, rnd);
            && (forall p :: 0 <= p < SCREEN_SIZE ==> !t.screen[p])
            && t == s.(screen := t.screen)
    ensures Exec(s, Jump(nnn), rnd) == s.(pc := nnn)
    ensures var t := Exec(s, JumpV0(nnn), rnd);
            t.pc as int == s.vReg[0] as int + nnn as int && t == s.(pc := t.pc)
    ensures s.sp as int < STACK_SIZE ==>
              var t := Exec(s, Call(nnn), rnd);
              && t.pc == nnn
              && t.stack == s.stack[s.sp := s.pc]
              && t.sp as int == s.sp as int + 1
              && t == s.(pc := t.pc, sp := t.sp, stack := t.stack)
    ensures s.sp > 0 ==>
              var t := Exec(s, Ret, rnd);
              && t.pc == s.stack[s.sp - 1]
              && t.sp as int == s.sp as int - 1
              && t == s.(pc := t.pc, sp := t.sp)
  {
  }

  /** ANNN and FX1E set I; nothing else changes. */
  lemma IndexWrites(s: State, x: nibble, nnn: addr, rnd: u8)
    requires Wf(s)
    ensures Exec(s, LoadIndex(nnn), rnd) == s.(iReg := nnn)
    ensures var t := Exec(s, AddIndex(x), rnd);
            t.iReg as int == (s.iReg as int + s.vReg[x] as int) % 0x1_0000 && t == s.(iReg := t.iReg)
  {
  }

  /** FX15 and FX18 set the delay and the sound timer from VX; nothing else changes. */
  lemma TimerWrites(s: State, x: nibble, rnd: u8)
    requires Wf(s)
    ensures Exec(s, SetDelay(x), rnd) == s.(dt := s.vReg[x])
    ensures Exec(s, SetSound(x), rnd) == s.(st := s.vReg[x])
  {
  }

  /** 2NNN followed by 00EE returns to the address after the call with the stack pointer restored. */
  lemma CallThenReturn(s: State, rnd1: u8, rnd2: u8)
    requires CanStep(s) && Decode(OpcodeAt(s)).Some? && Decode(OpcodeAt(s)).value.Call?
    requires var t := Step(s, rnd1).next; CanFetch(t) && Decode(OpcodeAt(t)) == Some(Ret)
    ensures var t := Step(s, rnd1).next;
            && t.pc == Decode(OpcodeAt(s)).value.nnn
            && CanStep(t)
            && Step(t, rnd2) == Stepped(s.(pc := s.pc + 2, stack := s.stack[s.sp := s.pc + 2]))
  {
  }

  // ---------------------------------------------------------------- DXYN

  /** Every set bit of the sprite toggles the pixel it lands on. */
  lemma DrawTogglesSpriteCells(s: State, vx: u8, vy: u8, n: nibble, row: int, col: int)
    requires Wf(s) && SpriteFits(s, n)
    requires 0 <= row < n as int && 0 <= col < 8 && SpriteBit(s.ram[s.iReg as int + row], col)
    ensures 0 <= PixelIndex(vx, vy, row, col) < SCREEN_SIZE
    ensures DrawSprite(s, vx, vy, n).screen[PixelIndex(vx, vy, row, col)] == !s.screen[PixelIndex(vx, vy, row, col)]
  {
    PixelIndexInverse(vx, vy, row, col);
  }

  /** A pixel that no set bit of the sprite lands on keeps its value. */
  lemma DrawLeavesOtherPixels(s: State, vx: u8, vy: u8, n: nibble, p: int)
    requires Wf(s) && SpriteFits(s, n) && 0 <= p < SCREEN_SIZE
    requires forall row, col :: 0 <= row < n as int && 0 <= col < 8 && SpriteBit(s.ram[s.iReg as int + row], col) ==>
               PixelIndex(vx, vy, row, col) != p
    ensures DrawSprite(s, vx, vy, n).screen[p] == s.screen[p]
  {
    PixelIndexCovers(vx, vy, p);
  }

  /** DXYN changes only the screen and VF: pc, I, memory, the stack, the keys, the timers and V0..VE keep their values. */
  lemma DrawFrame(s: State, x: nibble, y: nibble, n: nibble, rnd: u8)
    requires Wf(s) && SpriteFits(s, n)
    ensures var t := Exec(s, Draw(x, y, n), rnd);
            && (forall r :: 0 <= r < NUM_REGS && r != VF as int ==> t.vReg[r] == s.vReg[r])
            && t == s.(screen := t.screen, vReg := t.vReg)
  {
  }

  /** A collision is always caused by some set sprite bit landing on a lit pixel. */
  lemma CollisionHasCell(s: State, vx: u8, vy: u8, n: nibble)
    requires Wf(s) && SpriteFits(s, n) && Collides(s, vx, vy, n)
    ensures exists row, col :: 0 <= row < n as int && 0 <= col < 8 &&
              SpriteBit(s.ram[s.iReg as int + row], col) && s.screen[PixelIndex(vx, vy, row, col)]
  {
    var p :| 0 <= p < SCREEN_SIZE && Hit(s, vx, vy, n, p) && s.screen[p];
    PixelIndexCovers(vx, vy, p);
    var row, col := RowOf(vy, p), ColOf(vx, p);
    assert 0 <= row < n as int && 0 <= col < 8 && SpriteBit(s.ram[s.iReg as int + row], col);
    assert s.screen[PixelIndex(vx, vy, row, col)];
  }

  /** A set sprite bit landing on a lit pixel is a collision. */
  lemma CellCollides(s: State, vx: u8, vy: u8, n: nibble, row: int, col: int)
    requires Wf(s) && SpriteFits(s, n)
    requires 0 <= row < n as int && 0 <= col < 8 && SpriteBit(s.ram[s.iReg as int + row], col)
    requires 0 <= PixelIndex(vx, vy, row, col) < SCREEN_SIZE && s.screen[PixelIndex(vx, vy, row, col)]
    ensures Collides(s, vx, vy, n)
  {
    PixelIndexInverse(vx, vy, row, col);
    assert Hit(s, vx, vy, n, PixelIndex(vx, vy, row, col));
  }

  /** VF is 1 after a draw exactly when some set bit of the sprite landed on a pixel that was on. */
  lemma DrawCollisionFlag(s: State, vx: u8, vy: u8, n: nibble)
    requires Wf(s) && SpriteFits(s, n)
    ensures var f := DrawSprite(s, vx, vy, n).vReg[VF];
            && (f == 0 || f == 1)
            && (f == 1 <==> exists row, col :: 0 <= row < n as int && 0 <= col < 8 &&
                              SpriteBit(s.ram[s.iReg as int + row], col) && s.screen[PixelIndex(vx, vy, row, col)])
  {
    if Collides(s, vx, vy, n) {
      CollisionHasCell(s, vx, vy, n);
    }
    if exists row, col :: 0 <= row < n as int && 0 <= col < 8 &&
         SpriteBit(s.ram[s.iReg as int + row], col) && s.screen[PixelIndex(vx, vy, row, col)]
    {
      var row, col :| 0 <= row < n as int && 0 <= col < 8 &&
        SpriteBit(s.ram[s.iReg as int + row], col) && s.screen[PixelIndex(vx, vy, row, col)];
      PixelIndexInverse(vx, vy, row, col);
      CellCollides(s, vx, vy, n, row, col);
    }
  }

  /** Drawing the same sprite again at the same place, from the same memory, restores the screen. */
  lemma RedrawRestoresScreen(s: State, x: nibble, y: nibble, n: nibble, rnd1: u8, rnd2: u8)
    requires Wf(s) && SpriteFits(s, n)
    requires var t := Exec(s, Draw(x, y, n), rnd1); t.vReg[x] == s.vReg[x] && t.vReg[y] == s.vReg[y]
    ensures Exec(Exec(s, Draw(x, y, n), rnd1), Draw(x, y, n), rnd2).screen == s.screen
  {
    var t := Exec(s, Draw(x, y, n), rnd1);
    var u := Exec(t, Draw(x, y, n), rnd2);
    forall p | 0 <= p < SCREEN_SIZE
      ensures u.screen[p] == s.screen[p]
    {
      assert Hit(t, s.vReg[x], s.vReg[y], n, p) == Hit(s, s.vReg[x], s.vReg[y], n, p);
    }
  }

  /** On a blank screen the first draw reports no collision; a second identical draw reports one iff the sprite lit anything. */
  lemma DrawTwiceOnBlank(s: State, x: nibble, y: nibble, n: nibble, rnd1: u8, rnd2: u8)
    requires Wf(s) && SpriteFits(s, n) && x != VF && y != VF
    requires forall p :: 0 <= p < SCREEN_SIZE ==> !s.screen[p]
    ensures var t := Exec(s, Draw(x, y, n), rnd1);
            && t.vReg[VF] == 0
            && (Exec(t, Draw(x, y, n), rnd2).vReg[VF] == 1 <==> exists p :: 0 <= p < SCREEN_SIZE && t.screen[p])
  {
    var t := Exec(s, Draw(x, y, n), rnd1);
    var vx, vy := s.vReg[x], s.vReg[y];
    forall p | 0 <= p < SCREEN_SIZE
      ensures t.screen[p] == Hit(s, vx, vy, n, p) && Hit(t, vx, vy, n, p) == Hit(s, vx, vy, n, p)
    {
    }
  }

  // ---------------------------------------------------------------- FX0A

  /** With no key down, a step on FX0A changes nothing: pc returns to the instruction, which runs again. */
  lemma WaitKeyIdle(s: State, rnd: u8)
    requires CanStep(s) && Decode(OpcodeAt(s)).Some? && Decode(OpcodeAt(s)).value.WaitKey?
    requires forall k :: 0 <= k < NUM_KEYS ==> !s.keys[k]
    ensures Step(s, rnd) == Stepped(s)
  {
  }

  /** With keys down, FX0A stores the lowest pressed index in VX and moves on. */
  lemma WaitKeyTakesLowest(s: State, k: int, rnd: u8)
    requires CanStep(s) && Decode(OpcodeAt(s)).Some? && Decode(OpcodeAt(s)).value.WaitKey?
    requires 0 <= k < NUM_KEYS && s.keys[k] && forall j :: 0 <= j < k ==> !s.keys[j]
    ensures var x := Decode(OpcodeAt(s)).value.x;
            Step(s, rnd) == Stepped(s.(pc := s.pc + 2, vReg := s.vReg[x := k as u8]))
  {
    assert FirstPressed(s.keys, 0) == Some(k);
  }

  /** `keypress` records one key and changes nothing else. */
  lemma KeypressSetsOneKey(s: State, idx: int, pressed: bool)
    requires Wf(s) && 0 <= idx < NUM_KEYS
    ensures var t := Keypress(s, idx, pressed);
            && t.keys[idx] == pressed
            && (forall k :: 0 <= k < NUM_KEYS && k != idx ==> t.keys[k] == s.keys[k])
            && t == s.(keys := t.keys)
  {
  }

  /** A machine waiting with no key down, once key k is pressed, stores k on its next step. */
  lemma KeypressEndsWait(s: State, k: int, rnd: u8)
    requires CanStep(s) && Decode(OpcodeAt(s)).Some? && Decode(OpcodeAt(s)).value.WaitKey?
    requires forall j :: 0 <= j < NUM_KEYS ==> !s.keys[j]
    requires 0 <= k < NUM_KEYS
    ensures var t := Keypress(s, k, true);
            var x := Decode(OpcodeAt(s)).value.x;
            && CanStep(t)
            && Step(t, rnd) == Stepped(t.(pc := s.pc + 2, vReg := s.vReg[x := k as u8]))
  {
    var t := Keypress(s, k, true);
    assert OpcodeAt(t) == OpcodeAt(s);
    WaitKeyTakesLowest(t, k, rnd);
  }

  // ---------------------------------------------------------------- memory transfers

  /** FX33 writes the three decimal digits of VX at I, I+1, I+2 and touches nothing else. */
  lemma StoreBcdDigits(s: State, x: nibble, rnd: u8)
    requires Wf(s) && s.iReg as int + 2 < RAM_SIZE
    ensures var t := Exec(s, StoreBcd(x), rnd);
            var i := s.iReg as int;
            && t.ram[i] < 10 && t.ram[i + 1] < 10 && t.ram[i + 2] < 10
            && t.ram[i] as int * 100 + t.ram[i + 1] as int * 10 + t.ram[i + 2] as int == s.vReg[x] as int
            && (forall a :: 0 <= a < RAM_SIZE && !(i <= a < i + 3) ==> t.ram[a] == s.ram[a])
            && t == s.(ram := t.ram)
  {
  }

  /** FX55 copies exactly V0..VX to I..I+X. */
  lemma StoreRegsCopies(s: State, x: nibble, rnd: u8)
    requires Wf(s) && s.iReg as int + x as int < RAM_SIZE
    ensures var t := Exec(s, StoreRegs(x), rnd);
            var i := s.iReg as int;
            && (forall r :: 0 <= r <= x as int ==> t.ram[i + r] == s.vReg[r])
            && (forall a :: 0 <= a < RAM_SIZE && !(i <= a <= i + x as int) ==> t.ram[a] == s.ram[a])
            && t == s.(ram := t.ram)
  {
  }

  /** FX65 copies exactly I..I+X to V0..VX. */
  lemma LoadRegsCopies(s: State, x: nibble, rnd: u8)
    requires Wf(s) && s.iReg as int + x as int < RAM_SIZE
    ensures var t := Exec(s, LoadRegs(x), rnd);
            var i := s.iReg as int;
            && (forall r :: 0 <= r <= x as int ==> t.vReg[r] == s.ram[i + r])
            && (forall r :: x as int < r < NUM_REGS ==> t.vReg[r] == s.vReg[r])
            && t == s.(vReg := t.vReg)
  {
  }

  /** Reading back with FX65 what FX55 just stored changes no register. */
  lemma LoadAfterStoreRegs(s: State, x: nibble, rnd1: u8, rnd2: u8)
    requires Wf(s) && s.iReg as int + x as int < RAM_SIZE
    ensures var t := Exec(s, StoreRegs(x), rnd1);
            Exec(t, LoadRegs(x), rnd2) == t
  {
    var t := Exec(s, StoreRegs(x), rnd1);
    var u := Exec(t, LoadRegs(x), rnd2);
    assert u.vReg == t.vReg;
  }

  // ---------------------------------------------------------------- timers

  /** FX07 reads back the value FX15 stored in the delay timer. */
  lemma SetThenGetDelay(s: State, x: nibble, y: nibble, rnd1: u8, rnd2: u8)
    requires Wf(s)
    ensures Exec(Exec(s, SetDelay(x), rnd1), GetDelay(y), rnd2).vReg[y] == s.vReg[x]
  {
  }

  /** FX29 sets I to 5 * VX, for every VX, and changes nothing else. */
  lemma FontCharSetsIndex(s: State, x: nibble, rnd: u8)
    requires Wf(s)
    ensures var t := Exec(s, FontChar(x), rnd);
            t.iReg as int == 5 * s.vReg[x] as int && t == s.(iReg := t.iReg)
  {
  }

  /** FX29 points I at the five glyph bytes of digit VX, given the font is where `new` puts it. */
  lemma FontCharAddressesGlyph(s: State, x: nibble, rnd: u8)
    requires Wf(s) && s.ram[..FONTSET_SIZE] == FONTSET && s.vReg[x] < 16
    ensures var t := Exec(s, FontChar(x), rnd);
            var d := s.vReg[x] as int;
            && t.iReg as int == 5 * d
            && t.ram[t.iReg .. t.iReg as int + 5] == FONTSET[5 * d .. 5 * d + 5]
  {
    var d := s.vReg[x] as int;
    assert forall a :: 5 * d <= a < 5 * d + 5 ==> s.ram[a] == s.ram[..FONTSET_SIZE][a];
  }


  function TickTimersN(s: State, k: nat): State {
    if k == 0 then s else TickTimers(TickTimersN(s, k - 1))
  }

  function Max(a: int, b: int): int {
    if a < b then b else a
  }

  /** After k timer ticks each timer has dropped by k but never below 0, and nothing else changed. */
  lemma {:induction false} TimersAfterTicks(s: State, k: nat)
    ensures TickTimersN(s, k).dt as int == Max(s.dt as int - k, 0)
    ensures TickTimersN(s, k).st as int == Max(s.st as int - k, 0)
    ensures TickTimersN(s, k) == s.(dt := TickTimersN(s, k).dt, st := TickTimersN(s, k).st)
  {
    if k > 0 {
      TimersAfterTicks(s, k - 1);
    }
  }

  // ---------------------------------------------------------------- lifecycle

  /** A step on the bytes 60 05 sets V0 to 5. */
  lemma StepLoadsFive(s: State, rnd: u8)
    requires CanFetch(s) && s.ram[s.pc] == 0x60 && s.ram[s.pc as int + 1] == 0x05
    ensures CanStep(s) && Step(s, rnd) == Stepped(s.(pc := s.pc + 2, vReg := s.vReg[0 := 5]))
  {
    FetchIsBigEndian(s);
    NibblesOf(0x6005, 6, 0, 0, 5);
    assert Decode(OpcodeAt(s)) == Some(LoadImm(0, 5));
  }

  /** A step on the bytes 70 05 adds 5 to V0. */
  lemma StepAddsFive(s: State, rnd: u8)
    requires CanFetch(s) && s.ram[s.pc] == 0x70 && s.ram[s.pc as int + 1] == 0x05
    ensures CanStep(s) && Step(s, rnd) == Stepped(s.(pc := s.pc + 2, vReg := s.vReg[0 := WrappingAdd(s.vReg[0], 5)]))
  {
    FetchIsBigEndian(s);
    NibblesOf(0x7005, 7, 0, 0, 5);
    assert Decode(OpcodeAt(s)) == Some(AddImm(0, 5));
  }

  /** From any state whose pc points at 60 05 70 05, two steps leave V0 = 10 and pc four bytes on. */
  lemma RunLoadThenAdd(s: State, rnd1: u8, rnd2: u8)
    requires CanFetch(s) && s.pc as int + 3 < RAM_SIZE
    requires s.ram[s.pc] == 0x60 && s.ram[s.pc as int + 1] == 0x05
    requires s.ram[s.pc as int + 2] == 0x70 && s.ram[s.pc as int + 3] == 0x05
    ensures CanStep(s) && Step(s, rnd1).Stepped?
    ensures var t := Step(s, rnd1).next;
            && CanStep(t) && Step(t, rnd2).Stepped?
            && Step(t, rnd2).next.vReg[0] == 10
            && Step(t, rnd2).next.pc == s.pc + 4
  {
    StepLoadsFive(s, rnd1);
    var t := s.(pc := s.pc + 2, vReg := s.vReg[0 := 5]);
    StepAddsFive(t, rnd2);
  }

  /** Loading 60 05 70 05 into a fresh machine and stepping twice leaves V0 = 10 and pc = 0x204. */
  lemma LoadAndRunTwoInstructions(prog: seq<u8>, rnd1: u8, rnd2: u8)
    requires prog == [0x60, 0x05, 0x70, 0x05]
    ensures var s := Load(Initial(), prog);
            && CanStep(s) && Step(s, rnd1).Stepped?
            && var t := Step(s, rnd1).next;
            && CanStep(t) && Step(t, rnd2).Stepped?
            && Step(t, rnd2).next.vReg[0] == 10
            && Step(t, rnd2).next.pc == 0x204
  {
    var s := Load(Initial(), prog);
    assert s.ram[0x200] == prog[0] && s.ram[0x201] == prog[1];
    assert s.ram[0x202] == prog[2] && s.ram[0x203] == prog[3];
    RunLoadThenAdd(s, rnd1, rnd2);
  }
}

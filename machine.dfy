// The emulator state of `Emu` as a value, and the effect of every operation
// on it. The class in emu.dfy, which updates the state in place, is proved
// against these functions.
module Machine {
  import opened Bytes
  import opened Opcode

  const SCREEN_WIDTH: int := 64
  const SCREEN_HEIGHT: int := 32
  const SCREEN_SIZE: int := 2048  // SCREEN_WIDTH * SCREEN_HEIGHT
  const RAM_SIZE: int := 4096
  const NUM_REGS: int := 16
  const STACK_SIZE: int := 16
  const NUM_KEYS: int := 16
  const START_ADDR: u16 := 0x200
  const FONTSET_SIZE: int := 80

  /** The flag register VF. */
  const VF: nibble := 0xF

  /** Glyphs for the hex digits 0..F, five bytes each. */
  const FONTSET: seq<u8> := [
    0xF0, 0x90, 0x90, 0x90, 0xF0, // 0
    0x20, 0x60, 0x20, 0x20, 0x70, // 1
    0xF0, 0x10, 0xF0, 0x80, 0xF0, // 2
    0xF0, 0x10, 0xF0, 0x10, 0xF0, // 3
    0x90, 0x90, 0xF0, 0x10, 0x10, // 4
    0xF0, 0x80, 0xF0, 0x10, 0xF0, // 5
    0xF0, 0x80, 0xF0, 0x90, 0xF0, // 6
    0xF0, 0x10, 0x20, 0x40, 0x40, // 7
    0xF0, 0x90, 0xF0, 0x90, 0xF0, // 8
    0xF0, 0x90, 0xF0, 0x10, 0xF0, // 9
    0xF0, 0x90, 0xF0, 0x90, 0x90, // A
    0xE0, 0x90, 0xE0, 0x90, 0xE0, // B
    0xF0, 0x80, 0x80, 0x80, 0xF0, // C
    0xE0, 0x90, 0x90, 0x90, 0xE0, // D
    0xF0, 0x80, 0xF0, 0x80, 0xF0, // E
    0xF0, 0x80, 0xF0, 0x80, 0x80  // F
  ]

  /** The fields of `Emu`; the screen is row-major, pixel (x, y) at index x + 64 * y. */
  datatype State = State(
    pc: u16,
    ram: seq<u8>,
    screen: seq<bool>,
    vReg: seq<u8>,
    iReg: u16,
    sp: u16,
    stack: seq<u16>,
    keys: seq<bool>,
    dt: u8,
    st: u8)

  /** The fixed array sizes, and a stack pointer that push never takes past the last slot. */
  predicate Wf(s: State) {
    && |s.ram| == RAM_SIZE
    && |s.screen| == SCREEN_SIZE
    && |s.vReg| == NUM_REGS
    && |s.stack| == STACK_SIZE
    && |s.keys| == NUM_KEYS
    && s.sp as int <= STACK_SIZE
  }

  // ---------------------------------------------------------------- lifecycle

  /** The state built by `new` and restored by `reset`. */
  function Initial(): (s: State)
    ensures Wf(s)
    ensures s.pc == START_ADDR && s.iReg == 0 && s.sp == 0 && s.dt == 0 && s.st == 0
    ensures s.ram[..FONTSET_SIZE] == FONTSET
    ensures forall a :: FONTSET_SIZE <= a < RAM_SIZE ==> s.ram[a] == 0
    ensures forall p :: 0 <= p < SCREEN_SIZE ==> !s.screen[p]
    ensures forall r :: 0 <= r < NUM_REGS ==> s.vReg[r] == 0
    ensures forall k :: 0 <= k < STACK_SIZE ==> s.stack[k] == 0
    ensures forall k :: 0 <= k < NUM_KEYS ==> !s.keys[k]
  {
    State(
      START_ADDR,
      FONTSET + seq(RAM_SIZE - FONTSET_SIZE, _ => 0),
      seq(SCREEN_SIZE, _ => false),
      seq(NUM_REGS, _ => 0),
      0,
      0,
      seq(STACK_SIZE, _ => 0),
      seq(NUM_KEYS, _ => false),
      0,
      0)
  }

  /** `load`: the program bytes replace memory from START_ADDR on; nothing else changes. */
  function Load(s: State, data: seq<u8>): (t: State)
    requires Wf(s) && START_ADDR as int + |data| <= RAM_SIZE
    ensures Wf(t) && t == s.(ram := t.ram)
    ensures forall k :: 0 <= k < |data| ==> t.ram[START_ADDR as int + k] == data[k]
    ensures forall a :: 0 <= a < RAM_SIZE && !(START_ADDR as int <= a < START_ADDR as int + |data|) ==>
              t.ram[a] == s.ram[a]
  {
    var start := START_ADDR as int;
    s.(ram := s.ram[..start] + data + s.ram[start + |data|..])
  }

  /** `keypress`: records the state of one key. */
  function Keypress(s: State, idx: int, pressed: bool): (t: State)
    requires Wf(s) && 0 <= idx < NUM_KEYS
    ensures Wf(t)
  {
    s.(keys := s.keys[idx := pressed])
  }

  // ---------------------------------------------------------------- fetch

  predicate CanFetch(s: State) {
    Wf(s) && s.pc as int + 1 < RAM_SIZE
  }

  /** The big-endian opcode word at pc. */
  function OpcodeAt(s: State): (op: u16)
    requires CanFetch(s)
    ensures HighByte(op) == s.ram[s.pc] && LowByte(op) == s.ram[s.pc as int + 1]
  {
    Word(s.ram[s.pc], s.ram[s.pc as int + 1])
  }

  /** The state after a fetch: pc moved past the opcode. */
  function Advance(s: State): (t: State)
    requires CanFetch(s)
  {
    s.(pc := s.pc + 2)
  }

  // ---------------------------------------------------------------- stack

  function Push(s: State, val: u16): (t: State)
    requires Wf(s) && s.sp as int < STACK_SIZE
    ensures Wf(t)
  {
    s.(stack := s.stack[s.sp := val], sp := s.sp + 1)
  }

  function Pop(s: State): (r: (u16, State))
    requires Wf(s) && s.sp > 0
    ensures Wf(r.1)
  {
    var sp := s.sp - 1;
    (s.stack[sp], s.(sp := sp))
  }

  // ---------------------------------------------------------------- timers

  function Countdown(v: u8): u8 {
    if v > 0 then v - 1 else v
  }

  /** `tick_timers`: both timers count down by one unless already zero. */
  function TickTimers(s: State): State {
    s.(dt := Countdown(s.dt), st := Countdown(s.st))
  }

  // ---------------------------------------------------------------- helpers of execute

  function SetReg(s: State, x: nibble, v: u8): (t: State)
    requires Wf(s)
    ensures Wf(t)
  {
    s.(vReg := s.vReg[x := v])
  }

  /** Adds the extra 2 to pc that skips the next instruction. */
  function Skip(s: State): State
    requires s.pc as int + 2 < 0x1_0000
  {
    s.(pc := s.pc + 2)
  }

  /** The lowest index at or after `from` of a pressed key, if any. */
  function FirstPressed(keys: seq<bool>, from: nat): (r: Option<nat>)
    requires from <= |keys|
    ensures r.Some? ==> from <= r.value < |keys| && keys[r.value]
    ensures r.Some? ==> forall j :: from <= j < r.value ==> !keys[j]
    ensures r.None? <==> forall j :: from <= j < |keys| ==> !keys[j]
    decreases |keys| - from
  {
    if from == |keys| then None
    else if keys[from] then Some(from)
    else FirstPressed(keys, from + 1)
  }

  /** The hundreds, tens and ones digits that FX33 stores. */
  function Bcd(v: u8): (d: (u8, u8, u8))
    ensures d.0 < 10 && d.1 < 10 && d.2 < 10
    ensures d.0 as int * 100 + d.1 as int * 10 + d.2 as int == v as int
  {
    (v / 100, v / 10 % 10, v % 10)
  }

  /** Memory after FX55: cells I..I+x hold V0..Vx. */
  function StoredRegs(s: State, x: nibble): seq<u8>
    requires Wf(s) && s.iReg as int + x as int < RAM_SIZE
  {
    var i := s.iReg as int;
    seq(RAM_SIZE, a requires 0 <= a < RAM_SIZE => if i <= a <= i + x as int then s.vReg[a - i] else s.ram[a])
  }

  /** Registers after FX65: V0..Vx hold cells I..I+x. */
  function LoadedRegs(s: State, x: nibble): seq<u8>
    requires Wf(s) && s.iReg as int + x as int < RAM_SIZE
  {
    var i := s.iReg as int;
    seq(NUM_REGS, r requires 0 <= r < NUM_REGS => if r <= x as int then s.ram[i + r] else s.vReg[r])
  }

  // ---------------------------------------------------------------- DXYN

  /** Every sprite row read lies in memory. */
  predicate SpriteFits(s: State, n: nibble) {
    n == 0 || s.iReg as int + n as int <= RAM_SIZE
  }

  /** The screen index that sprite cell (row, col) lands on when drawn at (vx, vy), wrapping at the edges. */
  function PixelIndex(vx: u8, vy: u8, row: int, col: int): int {
    (vx as int + col) % SCREEN_WIDTH + SCREEN_WIDTH * ((vy as int + row) % SCREEN_HEIGHT)
  }

  /** The sprite column that would land on screen index p. */
  function ColOf(vx: u8, p: int): int {
    (p % SCREEN_WIDTH - vx as int) % SCREEN_WIDTH
  }

  /** The sprite row that would land on screen index p. */
  function RowOf(vy: u8, p: int): int {
    (p / SCREEN_WIDTH - vy as int) % SCREEN_HEIGHT
  }

  /** Drawing cell (row, col) and reading back which cell landed there are inverse: the wrap loses nothing. */
  lemma PixelIndexInverse(vx: u8, vy: u8, row: int, col: int)
    requires 0 <= row < SCREEN_HEIGHT && 0 <= col < SCREEN_WIDTH
    ensures 0 <= PixelIndex(vx, vy, row, col) < SCREEN_SIZE
    ensures ColOf(vx, PixelIndex(vx, vy, row, col)) == col
    ensures RowOf(vy, PixelIndex(vx, vy, row, col)) == row
  {
    var px, py := (vx as int + col) % SCREEN_WIDTH, (vy as int + row) % SCREEN_HEIGHT;
    var p := px + SCREEN_WIDTH * py;
    DivMod64(p, py, px);
    assert (px - vx as int) % SCREEN_WIDTH == col by {
      var k := (vx as int + col) / SCREEN_WIDTH;
      assert px - vx as int == col - SCREEN_WIDTH * k;
      ModShift64(col, -k);
    }
    assert (py - vy as int) % SCREEN_HEIGHT == row by {
      var k := (vy as int + row) / SCREEN_HEIGHT;
      assert py - vy as int == row - SCREEN_HEIGHT * k;
      ModShift32(row, -k);
    }
  }

  /** Every screen index is where the cell ColOf/RowOf names lands. */
  lemma PixelIndexCovers(vx: u8, vy: u8, p: int)
    requires 0 <= p < SCREEN_SIZE
    ensures PixelIndex(vx, vy, RowOf(vy, p), ColOf(vx, p)) == p
  {
    var px, py := p % SCREEN_WIDTH, p / SCREEN_WIDTH;
    var col, row := ColOf(vx, p), RowOf(vy, p);
    assert (vx as int + col) % SCREEN_WIDTH == px by {
      var k := (px - vx as int) / SCREEN_WIDTH;
      assert vx as int + col == px - SCREEN_WIDTH * k;
      ModShift64(px, -k);
    }
    assert (vy as int + row) % SCREEN_HEIGHT == py by {
      var k := (py - vy as int) / SCREEN_HEIGHT;
      assert vy as int + row == py - SCREEN_HEIGHT * k;
      ModShift32(py, -k);
    }
  }

  lemma DivMod64(p: int, q: int, r: int)
    requires p == r + SCREEN_WIDTH * q && 0 <= r < SCREEN_WIDTH
    ensures p % SCREEN_WIDTH == r && p / SCREEN_WIDTH == q
  {
  }

  lemma ModShift64(a: int, k: int)
    requires 0 <= a < 64
    ensures (a + 64 * k) % 64 == a
  {
  }

  lemma ModShift32(a: int, k: int)
    requires 0 <= a < 32
    ensures (a + 32 * k) % 32 == a
  {
  }

  /** Pixel p is covered by a set bit of the n-row sprite at I drawn at (vx, vy). */
  predicate Hit(s: State, vx: u8, vy: u8, n: nibble, p: int)
    requires Wf(s) && SpriteFits(s, n)
  {
    var col, row := ColOf(vx, p), RowOf(vy, p);
    col < 8 && row < n as int && SpriteBit(s.ram[s.iReg as int + row], col)
  }

  /** Cell (RowOf p, ColOf p) comes before (row, col) in the row-by-row, column-by-column drawing order. */
  predicate DrawnBefore(vx: u8, vy: u8, p: int, row: int, col: int) {
    RowOf(vy, p) < row || (RowOf(vy, p) == row && ColOf(vx, p) < col)
  }

  /** The screen with every hit pixel toggled. */
  function DrawnScreen(s: State, vx: u8, vy: u8, n: nibble): seq<bool>
    requires Wf(s) && SpriteFits(s, n)
  {
    seq(SCREEN_SIZE, p requires 0 <= p < SCREEN_SIZE => s.screen[p] != Hit(s, vx, vy, n, p))
  }

  /** Some hit pixel is on before the draw. */
  predicate Collides(s: State, vx: u8, vy: u8, n: nibble)
    requires Wf(s) && SpriteFits(s, n)
  {
    exists p :: 0 <= p < SCREEN_SIZE && Hit(s, vx, vy, n, p) && s.screen[p]
  }

  function DrawSprite(s: State, vx: u8, vy: u8, n: nibble): (t: State)
    requires Wf(s) && SpriteFits(s, n)
    ensures Wf(t)
  {
    s.(screen := DrawnScreen(s, vx, vy, n), vReg := s.vReg[VF := Flag(Collides(s, vx, vy, n))])
  }

  /** The screen part-way through the drawing loop: the cells before (row, col) toggled. */
  function PartialScreen(s: State, vx: u8, vy: u8, n: nibble, row: int, col: int): seq<bool>
    requires Wf(s) && SpriteFits(s, n)
  {
    seq(SCREEN_SIZE, p requires 0 <= p < SCREEN_SIZE => s.screen[p] != (Hit(s, vx, vy, n, p) && DrawnBefore(vx, vy, p, row, col)))
  }

  /** Some cell drawn before (row, col) has erased a lit pixel. */
  predicate PartialCollides(s: State, vx: u8, vy: u8, n: nibble, row: int, col: int)
    requires Wf(s) && SpriteFits(s, n)
  {
    exists p :: 0 <= p < SCREEN_SIZE && Hit(s, vx, vy, n, p) && DrawnBefore(vx, vy, p, row, col) && s.screen[p]
  }

  /** One pass of the inner drawing loop: cell (row, col) toggles its pixel iff its sprite bit is set. */
  lemma DrawCell(s: State, vx: u8, vy: u8, n: nibble, row: int, col: int)
    requires Wf(s) && SpriteFits(s, n) && 0 <= row < n as int && 0 <= col < 8
    ensures var idx := PixelIndex(vx, vy, row, col);
            var before := PartialScreen(s, vx, vy, n, row, col);
            var bit := SpriteBit(s.ram[s.iReg as int + row], col);
            && 0 <= idx < SCREEN_SIZE
            && before[idx] == s.screen[idx]
            && PartialScreen(s, vx, vy, n, row, col + 1) == (if bit then before[idx := !before[idx]] else before)
            && (PartialCollides(s, vx, vy, n, row, col + 1) <==>
                  PartialCollides(s, vx, vy, n, row, col) || (bit && s.screen[idx]))
  {
    var idx := PixelIndex(vx, vy, row, col);
    PixelIndexInverse(vx, vy, row, col);
    forall p | 0 <= p < SCREEN_SIZE
      ensures DrawnBefore(vx, vy, p, row, col + 1) <==> (DrawnBefore(vx, vy, p, row, col) || p == idx)
    {
      PixelIndexCovers(vx, vy, p);
    }
    var before := PartialScreen(s, vx, vy, n, row, col);
    var bit := SpriteBit(s.ram[s.iReg as int + row], col);
    assert Hit(s, vx, vy, n, idx) == bit;
    if PartialCollides(s, vx, vy, n, row, col + 1) && !PartialCollides(s, vx, vy, n, row, col) {
      var p :| 0 <= p < SCREEN_SIZE && Hit(s, vx, vy, n, p) && DrawnBefore(vx, vy, p, row, col + 1) && s.screen[p];
      assert p == idx;
    }
  }

  /** Finishing a row of eight cells is starting the next one. */
  lemma DrawRowDone(s: State, vx: u8, vy: u8, n: nibble, row: int)
    requires Wf(s) && SpriteFits(s, n)
    ensures PartialScreen(s, vx, vy, n, row, 8) == PartialScreen(s, vx, vy, n, row + 1, 0)
    ensures PartialCollides(s, vx, vy, n, row, 8) <==> PartialCollides(s, vx, vy, n, row + 1, 0)
  {
    assert forall p :: 0 <= p < SCREEN_SIZE && Hit(s, vx, vy, n, p) ==>
      (DrawnBefore(vx, vy, p, row, 8) <==> DrawnBefore(vx, vy, p, row + 1, 0));
  }

  /** Nothing is drawn before the first cell, and after all n rows the whole sprite is. */
  lemma DrawEnds(s: State, vx: u8, vy: u8, n: nibble)
    requires Wf(s) && SpriteFits(s, n)
    ensures PartialScreen(s, vx, vy, n, 0, 0) == s.screen
    ensures !PartialCollides(s, vx, vy, n, 0, 0)
    ensures PartialScreen(s, vx, vy, n, n as int, 0) == DrawnScreen(s, vx, vy, n)
    ensures PartialCollides(s, vx, vy, n, n as int, 0) <==> Collides(s, vx, vy, n)
  {
    assert forall p :: 0 <= p < SCREEN_SIZE ==> RowOf(vy, p) >= 0;
  }

  // ---------------------------------------------------------------- execute

  predicate CanSkip(s: State) {
    s.pc as int + 2 < 0x1_0000
  }

  /** What `execute` needs of the state so that no index, slice or u16 arithmetic panics. */
  predicate Safe(s: State, ins: Instr)
    requires Wf(s)
  {
    match ins
    case Ret => s.sp > 0
    case Call(_) => s.sp as int < STACK_SIZE
    case SkipEqImm(x, nn) => s.vReg[x] == nn ==> CanSkip(s)
    case SkipNeImm(x, nn) => s.vReg[x] != nn ==> CanSkip(s)
    case SkipEqReg(x, y) => s.vReg[x] == s.vReg[y] ==> CanSkip(s)
    case SkipNeReg(x, y) => s.vReg[x] != s.vReg[y] ==> CanSkip(s)
    case SkipKey(x) => s.vReg[x] as int < NUM_KEYS && (s.keys[s.vReg[x]] ==> CanSkip(s))
    case SkipNotKey(x) => s.vReg[x] as int < NUM_KEYS && (!s.keys[s.vReg[x]] ==> CanSkip(s))
    case Draw(_, _, n) => SpriteFits(s, n)
    case WaitKey(_) => FirstPressed(s.keys, 0).None? ==> s.pc >= 2
    case StoreBcd(_) => s.iReg as int + 2 < RAM_SIZE
    case StoreRegs(x) => s.iReg as int + x as int < RAM_SIZE
    case LoadRegs(x) => s.iReg as int + x as int < RAM_SIZE
    case _ => true
  }

  /** `execute` of one decoded instruction on the state after fetch; `rnd` is the byte `random()` returns. */
  function Exec(s: State, ins: Instr, rnd: u8): (t: State)
    requires Wf(s) && Safe(s, ins)
    ensures Wf(t)
  {
    if IsFlow(ins) then ExecFlow(s, ins)
    else if IsCompareSkip(ins) then ExecCompareSkip(s, ins)
    else if IsRegLoad(ins) then ExecRegLoad(s, ins, rnd)
    else if IsArith(ins) then ExecArith(s, ins)
    else if IsKeyOp(ins) then ExecKeyOp(s, ins)
    else if IsIndexTimer(ins) then ExecIndexTimer(s, ins)
    else ExecMemory(s, ins)
  }

  predicate IsFlow(ins: Instr) {
    ins.Nop? || ins.Cls? || ins.Ret? || ins.Jump? || ins.Call? || ins.JumpV0?
  }

  predicate IsCompareSkip(ins: Instr) {
    ins.SkipEqImm? || ins.SkipNeImm? || ins.SkipEqReg? || ins.SkipNeReg?
  }

  predicate IsRegLoad(ins: Instr) {
    ins.LoadImm? || ins.AddImm? || ins.Move? || ins.Or? || ins.And? || ins.Xor? || ins.Random?
  }

  predicate IsArith(ins: Instr) {
    ins.AddReg? || ins.SubReg? || ins.ShiftRight? || ins.SubRev? || ins.ShiftLeft?
  }

  predicate IsKeyOp(ins: Instr) {
    ins.SkipKey? || ins.SkipNotKey? || ins.WaitKey?
  }

  predicate IsIndexTimer(ins: Instr) {
    ins.LoadIndex? || ins.GetDelay? || ins.SetDelay? || ins.SetSound? || ins.AddIndex? || ins.FontChar?
  }

  /** 0000, 00E0, 00EE, 1NNN, 2NNN and BNNN. */
  function ExecFlow(s: State, ins: Instr): (t: State)
    requires Wf(s) && Safe(s, ins) && IsFlow(ins)
    ensures Wf(t)
  {
    match ins
    case Nop => s
    case Cls => s.(screen := seq(SCREEN_SIZE, _ => false))
    case Ret => var (addr, t) := Pop(s); t.(pc := addr)
    case Jump(nnn) => s.(pc := nnn)
    case Call(nnn) => Push(s, s.pc).(pc := nnn)
    case JumpV0(nnn) => s.(pc := (s.vReg[0] as int + nnn as int) as u16)
  }

  /** 3XNN, 4XNN, 5XY0 and 9XY0. */
  function ExecCompareSkip(s: State, ins: Instr): (t: State)
    requires Wf(s) && Safe(s, ins) && IsCompareSkip(ins)
    ensures Wf(t)
  {
    match ins
    case SkipEqImm(x, nn) => if s.vReg[x] == nn then Skip(s) else s
    case SkipNeImm(x, nn) => if s.vReg[x] != nn then Skip(s) else s
    case SkipEqReg(x, y) => if s.vReg[x] == s.vReg[y] then Skip(s) else s
    case SkipNeReg(x, y) => if s.vReg[x] != s.vReg[y] then Skip(s) else s
  }

  /** 6XNN, 7XNN, 8XY0 to 8XY3 and CXNN. */
  function ExecRegLoad(s: State, ins: Instr, rnd: u8): (t: State)
    requires Wf(s) && IsRegLoad(ins)
    ensures Wf(t)
  {
    match ins
    case LoadImm(x, nn) => SetReg(s, x, nn)
    case AddImm(x, nn) => SetReg(s, x, WrappingAdd(s.vReg[x], nn))
    case Move(x, y) => SetReg(s, x, s.vReg[y])
    case Or(x, y) => SetReg(s, x, BitOr(s.vReg[x], s.vReg[y]))
    case And(x, y) => SetReg(s, x, BitAnd(s.vReg[x], s.vReg[y]))
    case Xor(x, y) => SetReg(s, x, BitXor(s.vReg[x], s.vReg[y]))
    case Random(x, nn) => SetReg(s, x, BitAnd(rnd, nn))
  }

  /** 8XY4 to 8XY7 and 8XYE: the arithmetic that sets VF, written after VX. */
  function ExecArith(s: State, ins: Instr): (t: State)
    requires Wf(s) && IsArith(ins)
    ensures Wf(t)
  {
    match ins
    case AddReg(x, y) =>
      var (v, carry) := OverflowingAdd(s.vReg[x], s.vReg[y]);
      SetReg(SetReg(s, x, v), VF, Flag(carry))
    case SubReg(x, y) =>
      var (v, borrow) := OverflowingSub(s.vReg[x], s.vReg[y]);
      SetReg(SetReg(s, x, v), VF, Flag(!borrow))
    case ShiftRight(x, _) =>
      var lsb := s.vReg[x] % 2;  // v & 1
      SetReg(SetReg(s, x, s.vReg[x] / 2), VF, lsb)
    case SubRev(x, y) =>
      // As written in the source: VY is subtracted from itself, so VX is not read.
      var (v, borrow) := OverflowingSub(s.vReg[y], s.vReg[y]);
      SetReg(SetReg(s, x, v), VF, Flag(!borrow))
    case ShiftLeft(x, _) =>
      var msb := s.vReg[x] / 0x80;  // (v >> 7) & 1
      SetReg(SetReg(s, x, (s.vReg[x] as int * 2 % 0x100) as u8), VF, msb)
  }

  /** EX9E, EXA1 and FX0A. */
  function ExecKeyOp(s: State, ins: Instr): (t: State)
    requires Wf(s) && Safe(s, ins) && IsKeyOp(ins)
    ensures Wf(t)
  {
    match ins
    case SkipKey(x) => if s.keys[s.vReg[x]] then Skip(s) else s
    case SkipNotKey(x) => if !s.keys[s.vReg[x]] then Skip(s) else s
    case WaitKey(x) =>
      (match FirstPressed(s.keys, 0)
       case Some(k) => SetReg(s, x, k as u8)
       case None => s.(pc := s.pc - 2))
  }

  /** ANNN, FX07, FX15, FX18, FX1E and FX29. */
  function ExecIndexTimer(s: State, ins: Instr): (t: State)
    requires Wf(s) && IsIndexTimer(ins)
    ensures Wf(t)
  {
    match ins
    case LoadIndex(nnn) => s.(iReg := nnn)
    case GetDelay(x) => SetReg(s, x, s.dt)
    case SetDelay(x) => s.(dt := s.vReg[x])
    case SetSound(x) => s.(st := s.vReg[x])
    case AddIndex(x) => s.(iReg := WrappingAdd16(s.iReg, s.vReg[x] as u16))
    case FontChar(x) => s.(iReg := (s.vReg[x] as int * 5) as u16)
  }

  /** DXYN, FX33, FX55 and FX65. */
  function ExecMemory(s: State, ins: Instr): (t: State)
    requires Wf(s) && Safe(s, ins)
    requires !(IsFlow(ins) || IsCompareSkip(ins) || IsRegLoad(ins) || IsArith(ins) || IsKeyOp(ins) || IsIndexTimer(ins))
    ensures Wf(t)
  {
    match ins
    case Draw(x, y, n) => DrawSprite(s, s.vReg[x], s.vReg[y], n)
    case StoreBcd(x) =>
      var (h, t, o) := Bcd(s.vReg[x]);
      var i := s.iReg as int;
      s.(ram := s.ram[i := h][i + 1 := t][i + 2 := o])
    case StoreRegs(x) => s.(ram := StoredRegs(s, x))
    case LoadRegs(x) => s.(vReg := LoadedRegs(s, x))
  }

  // ---------------------------------------------------------------- tick

  datatype StepResult = Stepped(next: State) | Unimplemented(op: u16)

  /** Fetch is in range and the fetched instruction, if known, cannot panic. */
  predicate CanStep(s: State) {
    && CanFetch(s)
    && var op := OpcodeAt(s);
       Decode(op).Some? ==> Safe(Advance(s), Decode(op).value)
  }

  /** `tick`: fetch, then decode and execute on the advanced state. */
  function Step(s: State, rnd: u8): StepResult
    requires CanStep(s)
  {
    var op := OpcodeAt(s);
    match Decode(op)
    case None => Unimplemented(op)
    case Some(ins) => Stepped(Exec(Advance(s), ins, rnd))
  }
}

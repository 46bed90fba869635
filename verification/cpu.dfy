/**
  The CHIP-8 interpreter state and its cycle: initial state, font and program loading,
  big-endian opcode fetch, operand-field decoding, the `execute` dispatch, timer
  decrement and the tone decision.

  Every arm of `execute`'s opcode switch is empty in this implementation, so executing
  an opcode only advances the program counter by 2. Two evident slips are read as
  intended: the switch examines the fetched opcode `op` (the code names an undefined
  `opcode`), and memory is a 4096-byte array (the code misspells `new Uint8Array`).

  JavaScript details kept explicit:
  - reading memory past the last cell gives `undefined`, which `<<` and `|` treat as 0;
  - a `Uint8Array` silently drops writes past its last cell;
  - the program counter, index register and timers are plain numbers, not wrapped.
 */
module Cpu {
  import opened Wrappers
  import Bits

  const MemorySize: nat := 4096
  /** First address past the reserved interpreter area: programs load here. */
  const ProgramStart: nat := 0x200
  /** Largest program that fits between `ProgramStart` and the end of memory. */
  const MaxProgramSize: nat := 0xE00
  /** Instructions per cycle in a fresh CPU. */
  const DefaultSpeed: nat := 10
  /** Frequency of the tone the speaker is asked to play. */
  const ToneFrequency: nat := 440

  type Memory = m: seq<bv8> | |m| == 4096 witness seq(4096, _ => 0)
  type Registers = r: seq<bv8> | |r| == 16 witness seq(16, _ => 0)

  /** The interpreter state. The renderer, keyboard and speaker it holds are external
      devices; `cycle` reaches them only through the `Signal`s it emits. */
  datatype State = State(
    memory: Memory,
    v: Registers,
    i: nat,
    delayTimer: nat,
    soundTimer: nat,
    pc: nat,
    stack: seq<nat>,
    paused: bool,
    speed: nat)

  /** The one error `execute` can throw. */
  datatype Fault = UnknownOpcode(op: bv16)

  /** Calls a cycle makes on the speaker and renderer, in order. */
  datatype Signal = Play(frequency: nat) | Stop | Render

  datatype CycleOutcome = CycleOutcome(cpu: State, signals: seq<Signal>)

  /** `a` and `b` agree on registers, I, stack, pause flag and speed. */
  predicate SameControl(a: State, b: State)
  {
    a.v == b.v && a.i == b.i && a.stack == b.stack && a.paused == b.paused && a.speed == b.speed
  }

  /** `a` and `b` differ at most in memory. */
  predicate OnlyMemoryDiffers(a: State, b: State)
  {
    SameControl(a, b) && a.pc == b.pc && a.delayTimer == b.delayTimer && a.soundTimer == b.soundTimer
  }

  /** `a` and `b` differ at most in the timers. */
  predicate OnlyTimersDiffer(a: State, b: State)
  {
    SameControl(a, b) && a.memory == b.memory && a.pc == b.pc
  }

  /** `a` and `b` differ at most in the program counter and the timers. */
  predicate OnlyPcAndTimersDiffer(a: State, b: State)
  {
    SameControl(a, b) && a.memory == b.memory
  }

  /** `max(0, n)`: a timer value after decrementing towards zero. */
  function Floor0(n: int): nat
  {
    if n < 0 then 0 else n
  }

  // ---------------------------------------------------------------- state and loading

  /** The state the constructor builds. */
  function NewCpu(): (c: State)
    ensures forall a :: 0 <= a < MemorySize ==> c.memory[a] == 0
    ensures forall r :: 0 <= r < 16 ==> c.v[r] == 0
    ensures c.i == 0 && c.delayTimer == 0 && c.soundTimer == 0
    ensures c.pc == ProgramStart && c.stack == [] && !c.paused && c.speed == DefaultSpeed
  {
    State(seq(MemorySize, _ => 0), seq(16, _ => 0), 0, 0, 0, 0x200, [], false, 10)
  }

  /** The five rows of the font glyph for hexadecimal digit `d`, top row first. */
  function Glyph(d: nat): (rows: seq<bv8>)
    requires d < 16
    ensures |rows| == 5
  {
    match d
    case 0x0 => [0xF0, 0x90, 0x90, 0x90, 0xF0]
    case 0x1 => [0x20, 0x60, 0x20, 0x20, 0x70]
    case 0x2 => [0xF0, 0x10, 0xF0, 0x80, 0xF0]
    case 0x3 => [0xF0, 0x10, 0xF0, 0x10, 0xF0]
    case 0x4 => [0x90, 0x90, 0xF0, 0x10, 0x10]
    case 0x5 => [0xF0, 0x80, 0xF0, 0x10, 0xF0]
    case 0x6 => [0xF0, 0x80, 0xF0, 0x90, 0xF0]
    case 0x7 => [0xF0, 0x10, 0x20, 0x40, 0x40]
    case 0x8 => [0xF0, 0x90, 0xF0, 0x90, 0xF0]
    case 0x9 => [0xF0, 0x90, 0xF0, 0x10, 0xF0]
    case 0xA => [0xF0, 0x90, 0xF0, 0x90, 0x90]
    case 0xB => [0xE0, 0x90, 0xE0, 0x90, 0xE0]
    case 0xC => [0xF0, 0x80, 0x80, 0x80, 0xF0]
    case 0xD => [0xE0, 0x90, 0x90, 0x90, 0xE0]
    case 0xE => [0xF0, 0x80, 0xF0, 0x80, 0xF0]
    case _ => [0xF0, 0x80, 0xF0, 0x80, 0x80]
  }

  /** Byte `i` of the flat 80-byte sprite table, in the order font loading copies it
      to memory: five bytes per digit, digits 0..F one after another. */
  function SpriteByte(i: nat): bv8
    requires i < 80
  {
    match i
    case 0 => 0xF0 case 1 => 0x90 case 2 => 0x90 case 3 => 0x90 case 4 => 0xF0
    case 5 => 0x20 case 6 => 0x60 case 7 => 0x20 case 8 => 0x20 case 9 => 0x70
    case 10 => 0xF0 case 11 => 0x10 case 12 => 0xF0 case 13 => 0x80 case 14 => 0xF0
    case 15 => 0xF0 case 16 => 0x10 case 17 => 0xF0 case 18 => 0x10 case 19 => 0xF0
    case 20 => 0x90 case 21 => 0x90 case 22 => 0xF0 case 23 => 0x10 case 24 => 0x10
    case 25 => 0xF0 case 26 => 0x80 case 27 => 0xF0 case 28 => 0x10 case 29 => 0xF0
    case 30 => 0xF0 case 31 => 0x80 case 32 => 0xF0 case 33 => 0x90 case 34 => 0xF0
    case 35 => 0xF0 case 36 => 0x10 case 37 => 0x20 case 38 => 0x40 case 39 => 0x40
    case 40 => 0xF0 case 41 => 0x90 case 42 => 0xF0 case 43 => 0x90 case 44 => 0xF0
    case 45 => 0xF0 case 46 => 0x90 case 47 => 0xF0 case 48 => 0x10 case 49 => 0xF0
    case 50 => 0xF0 case 51 => 0x90 case 52 => 0xF0 case 53 => 0x90 case 54 => 0x90
    case 55 => 0xE0 case 56 => 0x90 case 57 => 0xE0 case 58 => 0x90 case 59 => 0xE0
    case 60 => 0xF0 case 61 => 0x80 case 62 => 0x80 case 63 => 0x80 case 64 => 0xF0
    case 65 => 0xE0 case 66 => 0x90 case 67 => 0x90 case 68 => 0x90 case 69 => 0xE0
    case 70 => 0xF0 case 71 => 0x80 case 72 => 0xF0 case 73 => 0x80 case 74 => 0xF0
    case 75 => 0xF0 case 76 => 0x80 case 77 => 0xF0 case 78 => 0x80 case _ => 0x80
  }

  /** The sprite table as a sequence. */
  function Sprites(): (table: seq<bv8>)
    ensures |table| == 80
  {
    seq(80, i requires 0 <= i < 80 => SpriteByte(i))
  }

  /** Stores `bytes` at `base`, `base + 1`, ... in order, dropping every store that
      falls past the end of memory as a `Uint8Array` does. */
  function WriteBytes(mem: Memory, base: nat, bytes: seq<bv8>): (r: Memory)
    ensures forall a {:trigger r[a]} :: 0 <= a < MemorySize ==>
      r[a] == if base <= a < base + |bytes| then bytes[a - base] else mem[a]
    decreases |bytes|
  {
    if |bytes| == 0 then mem
    else
      var mem' := if base < MemorySize then mem[base := bytes[0]] else mem;
      WriteBytes(mem', base + 1, bytes[1..])
  }

  /** Copies the font into addresses 0..79. */
  function LoadSpritesIntoMemory(cpu: State): (r: State)
    ensures forall a :: 0 <= a < 80 ==> r.memory[a] == Sprites()[a]
    ensures forall a :: 80 <= a < MemorySize ==> r.memory[a] == cpu.memory[a]
    ensures OnlyMemoryDiffers(r, cpu)
  {
    cpu.(memory := WriteBytes(cpu.memory, 0, Sprites()))
  }

  /** Copies a program image to `ProgramStart`; bytes that would land past the end of
      memory are dropped, so no length check is needed. */
  function LoadProgramIntoMemory(cpu: State, program: seq<bv8>): (r: State)
    ensures forall a :: 0 <= a < MemorySize ==>
      r.memory[a] == if ProgramStart <= a < ProgramStart + |program| then program[a - ProgramStart] else cpu.memory[a]
    ensures OnlyMemoryDiffers(r, cpu)
  {
    cpu.(memory := WriteBytes(cpu.memory, ProgramStart, program))
  }

  /** The flat table and the per-digit glyphs agree: byte `i` of the table is row
      `i % 5` of the glyph for digit `i / 5`. */
  lemma GlyphRow(i: nat)
    requires i < 80
    ensures Sprites()[i] == Glyph(i / 5)[i % 5]
  {
    assert Sprites()[i] == SpriteByte(i);
    if i < 20 {
      GlyphRowsQuarter0(i);
    } else if i < 40 {
      GlyphRowsQuarter1(i);
    } else if i < 60 {
      GlyphRowsQuarter2(i);
    } else {
      GlyphRowsQuarter3(i);
    }
  }

  /** `GlyphRow` for the digits 0..3, one digit at a time. */
  lemma GlyphRowsQuarter0(i: nat)
    requires i < 20
    ensures SpriteByte(i) == Glyph(i / 5)[i % 5]
  {
    if i < 5 {
      assert i / 5 == 0 && i % 5 == i - 0;
    } else if i < 10 {
      assert i / 5 == 1 && i % 5 == i - 5;
    } else if i < 15 {
      assert i / 5 == 2 && i % 5 == i - 10;
    } else {
      assert i / 5 == 3 && i % 5 == i - 15;
    }
  }

  /** `GlyphRow` for the digits 4..7, one digit at a time. */
  lemma GlyphRowsQuarter1(i: nat)
    requires 20 <= i < 40
    ensures SpriteByte(i) == Glyph(i / 5)[i % 5]
  {
    if i < 25 {
      assert i / 5 == 4 && i % 5 == i - 20;
    } else if i < 30 {
      assert i / 5 == 5 && i % 5 == i - 25;
    } else if i < 35 {
      assert i / 5 == 6 && i % 5 == i - 30;
    } else {
      assert i / 5 == 7 && i % 5 == i - 35;
    }
  }

  /** `GlyphRow` for the digits 8..B, one digit at a time. */
  lemma GlyphRowsQuarter2(i: nat)
    requires 40 <= i < 60
    ensures SpriteByte(i) == Glyph(i / 5)[i % 5]
  {
    if i < 45 {
      assert i / 5 == 8 && i % 5 == i - 40;
    } else if i < 50 {
      assert i / 5 == 9 && i % 5 == i - 45;
    } else if i < 55 {
      assert i / 5 == 10 && i % 5 == i - 50;
    } else {
      assert i / 5 == 11 && i % 5 == i - 55;
    }
  }

  /** `GlyphRow` for the digits C..F, one digit at a time. */
  lemma GlyphRowsQuarter3(i: nat)
    requires 60 <= i < 80
    ensures SpriteByte(i) == Glyph(i / 5)[i % 5]
  {
    if i < 65 {
      assert i / 5 == 12 && i % 5 == i - 60;
    } else if i < 70 {
      assert i / 5 == 13 && i % 5 == i - 65;
    } else if i < 75 {
      assert i / 5 == 14 && i % 5 == i - 70;
    } else {
      assert i / 5 == 15 && i % 5 == i - 75;
    }
  }

  /** Once the font is loaded, the glyph for digit `d` occupies addresses 5d..5d+4. */
  lemma GlyphLocation(cpu: State, d: nat)
    requires d < 16
    ensures forall j :: 0 <= j < 5 ==> LoadSpritesIntoMemory(cpu).memory[5 * d + j] == Glyph(d)[j]
  {
    forall j | 0 <= j < 5 ensures LoadSpritesIntoMemory(cpu).memory[5 * d + j] == Glyph(d)[j] {
      var i := 5 * d + j;
      assert i / 5 == d && i % 5 == j;
      GlyphRow(i);
    }
  }

  /** Only the first `MaxProgramSize` bytes of a program matter: loading the whole image
      equals loading that prefix, and a program that fits lands byte for byte. */
  lemma {:induction false} ProgramTruncation(cpu: State, program: seq<bv8>)
    ensures |program| > MaxProgramSize ==>
      LoadProgramIntoMemory(cpu, program) == LoadProgramIntoMemory(cpu, program[..MaxProgramSize])
    ensures |program| <= MaxProgramSize ==>
      forall k :: 0 <= k < |program| ==> LoadProgramIntoMemory(cpu, program).memory[ProgramStart + k] == program[k]
  {
    if |program| > MaxProgramSize {
      var m1 := LoadProgramIntoMemory(cpu, program).memory;
      var m2 := LoadProgramIntoMemory(cpu, program[..MaxProgramSize]).memory;
      assert forall a :: 0 <= a < MemorySize ==> m1[a] == m2[a];
    }
  }

  /** After construction, font loading and program loading, memory holds the font at
      0..79, zeroes up to 0x1FF, the program from 0x200 and zeroes after it. */
  lemma BootLayout(program: seq<bv8>)
    requires |program| <= MaxProgramSize
    ensures var m := LoadProgramIntoMemory(LoadSpritesIntoMemory(NewCpu()), program).memory;
      && (forall a :: 0 <= a < 80 ==> m[a] == Sprites()[a])
      && (forall a :: 80 <= a < ProgramStart ==> m[a] == 0)
      && (forall k :: 0 <= k < |program| ==> m[ProgramStart + k] == program[k])
      && (forall a :: ProgramStart + |program| <= a < MemorySize ==> m[a] == 0)
  {
    var c0 := NewCpu();
    assert forall a :: 0 <= a < MemorySize ==> c0.memory[a] == 0;
    LoadOntoZeroed(c0, program);
  }

  /** The layout `BootLayout` states, for any CPU whose memory starts zeroed. */
  lemma LoadOntoZeroed(c0: State, program: seq<bv8>)
    requires forall a :: 0 <= a < MemorySize ==> c0.memory[a] == 0
    requires |program| <= MaxProgramSize
    ensures var m := LoadProgramIntoMemory(LoadSpritesIntoMemory(c0), program).memory;
      && (forall a :: 0 <= a < 80 ==> m[a] == Sprites()[a])
      && (forall a :: 80 <= a < ProgramStart ==> m[a] == 0)
      && (forall k :: 0 <= k < |program| ==> m[ProgramStart + k] == program[k])
      && (forall a :: ProgramStart + |program| <= a < MemorySize ==> m[a] == 0)
  {
    FontSurvivesProgram(c0, program);
    ProgramTruncation(LoadSpritesIntoMemory(c0), program);
    RestStaysZero(c0, program);
  }

  /** Program loading does not disturb the font. */
  lemma FontSurvivesProgram(c0: State, program: seq<bv8>)
    ensures forall a :: 0 <= a < 80 ==>
      LoadProgramIntoMemory(LoadSpritesIntoMemory(c0), program).memory[a] == Sprites()[a]
  {
    var c1 := LoadSpritesIntoMemory(c0);
    var m := LoadProgramIntoMemory(c1, program).memory;
    forall a | 0 <= a < 80 ensures m[a] == Sprites()[a] {
      assert m[a] == c1.memory[a];
    }
  }

  /** Cells neither the font nor the program covers keep their initial zero. */
  lemma RestStaysZero(c0: State, program: seq<bv8>)
    requires forall a :: 0 <= a < MemorySize ==> c0.memory[a] == 0
    ensures forall a :: 80 <= a < MemorySize && !(ProgramStart <= a < ProgramStart + |program|) ==>
      LoadProgramIntoMemory(LoadSpritesIntoMemory(c0), program).memory[a] == 0
  {
    var c1 := LoadSpritesIntoMemory(c0);
    var m := LoadProgramIntoMemory(c1, program).memory;
    forall a | 80 <= a < MemorySize && !(ProgramStart <= a < ProgramStart + |program|)
      ensures m[a] == 0
    {
      assert m[a] == c1.memory[a] == c0.memory[a];
    }
  }

  // ---------------------------------------------------------------- fetch and decode

  /** `memory[addr]` as the bitwise operators see it: 0 past the end of memory. */
  function ReadByte(mem: Memory, addr: nat): (b: bv8)
    ensures addr < MemorySize ==> b == mem[addr]
    ensures addr >= MemorySize ==> b == 0
  {
    if addr < MemorySize then mem[addr] else 0
  }

  /** The opcode at `pc`: `memory[pc]` is the high byte, `memory[pc + 1]` the low byte. */
  function Fetch(cpu: State): (op: bv16)
    ensures (op >> 8) as bv8 == ReadByte(cpu.memory, cpu.pc)
    ensures (op & 0xFF) as bv8 == ReadByte(cpu.memory, cpu.pc + 1)
  {
    (ReadByte(cpu.memory, cpu.pc) as bv16 << 8) | ReadByte(cpu.memory, cpu.pc + 1) as bv16
  }

  /** As a number the opcode is `256 * memory[pc] + memory[pc + 1]`, in 0..0xFFFF; at or
      past the last cell the missing bytes read as 0. */
  lemma FetchBigEndian(cpu: State)
    ensures cpu.pc + 1 < MemorySize ==>
      Fetch(cpu) as int == cpu.memory[cpu.pc] as int * 256 + cpu.memory[cpu.pc + 1] as int
    ensures cpu.pc + 1 == MemorySize ==> Fetch(cpu) as int == cpu.memory[cpu.pc] as int * 256
    ensures cpu.pc >= MemorySize ==> Fetch(cpu) == 0
    ensures Fetch(cpu) as int <= 0xFFFF
  {
    Bits.JoinBytes(ReadByte(cpu.memory, cpu.pc), ReadByte(cpu.memory, cpu.pc + 1));
  }

  /** The operand fields `execute` extracts with masks and shifts. */
  datatype Fields = Fields(x: bv16, y: bv16, kk: bv16, nnn: bv16, n: bv16)

  function Decode(op: bv16): (f: Fields)
    ensures f.x < 16 && f.y < 16 && f.n < 16 && f.kk < 0x100 && f.nnn < 0x1000
  {
    Fields((op & 0x0F00) >> 8, (op & 0x00F0) >> 4, op & 0x00FF, op & 0x0FFF, op & 0x000F)
  }

  /** The fields nest and lose nothing: the top nibble with nnn rebuilds the opcode,
      x with kk rebuilds nnn, and y with n rebuilds kk. */
  lemma DecodeRoundTrip(op: bv16)
    ensures (op & 0xF000) | Decode(op).nnn == op
    ensures (Decode(op).x << 8) | Decode(op).kk == Decode(op).nnn
    ensures (Decode(op).y << 4) | Decode(op).n == Decode(op).kk
  {
    Bits.Reassemble(op);
  }

  /** The fields are the hexadecimal digits of the opcode: x, y and n are its second,
      third and fourth digits, kk its low byte and nnn its low three digits. */
  lemma DecodeDigits(op: bv16)
    ensures Decode(op).x as int == op as int / 0x100 % 0x10
    ensures Decode(op).y as int == op as int / 0x10 % 0x10
    ensures Decode(op).n as int == op as int % 0x10
    ensures Decode(op).kk as int == op as int % 0x100
    ensures Decode(op).nnn as int == op as int % 0x1000
  {
    Bits.Low4(op);
    Bits.Low8(op);
    Bits.Low12(op);
    assert Decode(op).x == (op >> 8) & 0xF;
    Bits.Low4(op >> 8);
    assert Decode(op).y == (op >> 4) & 0xF;
    Bits.Low4(op >> 4);
  }

  // ---------------------------------------------------------------- execute

  /** The top-nibble case labels of the switch. */
  const Families: set<bv16> := {
    0x0000, 0x1000, 0x2000, 0x3000, 0x4000, 0x5000, 0x6000, 0x7000,
    0x8000, 0x9000, 0xA000, 0xB000, 0xC000, 0xD000, 0xE000, 0xF000 }

  /** The switch arm an opcode reaches: its top-nibble label and, for the four families
      with an inner switch, the inner label it matched (`None` when the inner switch
      falls through unmatched). */
  datatype Arm = Arm(family: bv16, inner: Option<bv16>)

  /** The inner switches: family 0 switches on the whole opcode, family 8 on the low
      nibble, families E and F on the low byte; the rest have no inner switch. */
  function InnerLabel(family: bv16, op: bv16): (r: Option<bv16>)
    ensures family == 0x0000 ==> (r.Some? <==> op == 0x00E0 || op == 0x00EE) && (r.Some? ==> r.value == op)
    ensures family == 0x8000 ==>
      && (r.Some? <==> op & 0xF <= 0x7 || op & 0xF == 0xE)
      && (r.Some? ==> r.value == op & 0xF)
    ensures family == 0xE000 ==> (r.Some? <==> op & 0xFF == 0x9E || op & 0xFF == 0xA1) && (r.Some? ==> r.value == op & 0xFF)
    ensures family == 0xF000 ==>
      && (r.Some? <==> op & 0xFF in [0x07, 0x0A, 0x15, 0x18, 0x1E, 0x29, 0x33, 0x55, 0x65])
      && (r.Some? ==> r.value == op & 0xFF)
    ensures family != 0x0000 && family != 0x8000 && family != 0xE000 && family != 0xF000 ==> r.None?
  {
    if family == 0x0000 then
      (if op in {0x00E0, 0x00EE} then Some(op) else None)
    else if family == 0x8000 then
      (if op & 0xF in {0x0, 0x1, 0x2, 0x3, 0x4, 0x5, 0x6, 0x7, 0xE} then Some(op & 0xF) else None)
    else if family == 0xE000 then
      (if op & 0xFF in {0x9E, 0xA1} then Some(op & 0xFF) else None)
    else if family == 0xF000 then
      (if op & 0xFF in {0x07, 0x0A, 0x15, 0x18, 0x1E, 0x29, 0x33, 0x55, 0x65} then Some(op & 0xFF) else None)
    else None
  }

  /** The switch on `op & 0xF000`, with its `Unknown opcode` default. */
  function Dispatch(op: bv16): (r: Result<Arm, Fault>)
    ensures r.Success? ==> r.value.family == op & 0xF000 && r.value.inner == InnerLabel(op & 0xF000, op)
  {
    var family := op & 0xF000;
    if family in Families then Success(Arm(family, InnerLabel(family, op)))
    else Failure(UnknownOpcode(op))
  }

  /** The sixteen top-nibble labels cover every opcode: the default arm is unreachable. */
  lemma DispatchExhaustive(op: bv16)
    ensures Dispatch(op).Success?
  {
    var top := op >> 12;
    assert op & 0xF000 == top << 12;
    assert top < 16;
  }

  /** Executes one opcode: every arm is empty, so only the program counter moves. */
  function Execute(cpu: State, op: bv16): (r: Result<State, Fault>)
    ensures r.Success?
    ensures r.value.pc == cpu.pc + 2
    ensures OnlyPcAndTimersDiffer(r.value, cpu)
    ensures r.value.delayTimer == cpu.delayTimer && r.value.soundTimer == cpu.soundTimer
  {
    var advanced := cpu.(pc := cpu.pc + 2);
    DispatchExhaustive(op);
    match Dispatch(op)
    case Success(_) => Success(advanced)
    case Failure(e) => Failure(e)
  }

  // ---------------------------------------------------------------- timers, sound, cycle

  /** Decrements each nonzero timer by one. */
  function UpdateTimers(cpu: State): (r: State)
    ensures r.delayTimer == Floor0(cpu.delayTimer - 1) && r.soundTimer == Floor0(cpu.soundTimer - 1)
    ensures OnlyTimersDiffer(r, cpu)
  {
    var d := if cpu.delayTimer > 0 then cpu.delayTimer - 1 else cpu.delayTimer;
    var s := if cpu.soundTimer > 0 then cpu.soundTimer - 1 else cpu.soundTimer;
    cpu.(delayTimer := d, soundTimer := s)
  }

  /** `k` successive timer updates. */
  function UpdateTimersTimes(cpu: State, k: nat): State
    decreases k
  {
    if k == 0 then cpu else UpdateTimers(UpdateTimersTimes(cpu, k - 1))
  }

  /** Timers count down to zero and stay there: `k` updates leave `max(0, N - k)`. */
  lemma {:induction false} UpdateTimersIterated(cpu: State, k: nat)
    ensures UpdateTimersTimes(cpu, k).delayTimer == Floor0(cpu.delayTimer - k)
    ensures UpdateTimersTimes(cpu, k).soundTimer == Floor0(cpu.soundTimer - k)
    ensures OnlyTimersDiffer(UpdateTimersTimes(cpu, k), cpu)
    decreases k
  {
    if k > 0 {
      UpdateTimersIterated(cpu, k - 1);
    }
  }

  /** The speaker call: a tone while the sound timer runs, silence otherwise. */
  function PlaySound(cpu: State): (s: Signal)
    ensures s == Play(ToneFrequency) <==> cpu.soundTimer > 0
    ensures s == Stop <==> cpu.soundTimer == 0
  {
    if cpu.soundTimer > 0 then Play(440) else Stop
  }

  /** The first `n` iterations of the cycle loop: each one fetches and executes an
      opcode unless the CPU is paused. */
  function Steps(cpu: State, n: nat): (r: Result<State, Fault>)
    ensures r.Success?
    ensures cpu.paused ==> r.value.pc == cpu.pc
    ensures !cpu.paused ==> r.value.pc == cpu.pc + 2 * n
    ensures OnlyPcAndTimersDiffer(r.value, cpu)
    ensures r.value.delayTimer == cpu.delayTimer && r.value.soundTimer == cpu.soundTimer
    decreases n
  {
    if n == 0 then Success(cpu)
    else if cpu.paused then Steps(cpu, n - 1)
    else
      match Execute(cpu, Fetch(cpu))
      case Success(next) => Steps(next, n - 1)
      case Failure(e) => Failure(e)
  }

  /** One host frame: `speed` loop iterations, a timer update unless paused, then the
      speaker call and a render request. */
  function Cycle(cpu: State): (r: Result<CycleOutcome, Fault>)
    ensures r.Success?
    ensures cpu.paused ==> r.value.cpu.pc == cpu.pc && r.value.cpu.delayTimer == cpu.delayTimer && r.value.cpu.soundTimer == cpu.soundTimer
    ensures !cpu.paused ==>
      && r.value.cpu.pc == cpu.pc + 2 * cpu.speed
      && r.value.cpu.delayTimer == Floor0(cpu.delayTimer - 1)
      && r.value.cpu.soundTimer == Floor0(cpu.soundTimer - 1)
    ensures OnlyPcAndTimersDiffer(r.value.cpu, cpu)
    ensures |r.value.signals| == 2 && r.value.signals[1] == Render
    ensures r.value.signals[0] == Play(ToneFrequency) <==> r.value.cpu.soundTimer > 0
    ensures r.value.signals[0] == Stop <==> r.value.cpu.soundTimer == 0
  {
    match Steps(cpu, cpu.speed)
    case Success(after) =>
      var settled := if after.paused then after else UpdateTimers(after);
      Success(CycleOutcome(settled, [PlaySound(settled), Render]))
    case Failure(e) => Failure(e)
  }

  /** The state after `k` successive cycles (none of which can fault). */
  function Cycles(cpu: State, k: nat): State
    decreases k
  {
    if k == 0 then cpu else Cycle(Cycles(cpu, k - 1)).value.cpu
  }

  /** Cycles change only the program counter and the timers, and a paused CPU keeps even
      those. */
  lemma {:induction false} CyclesFrame(cpu: State, k: nat)
    ensures OnlyPcAndTimersDiffer(Cycles(cpu, k), cpu)
    ensures cpu.paused ==>
      && Cycles(cpu, k).pc == cpu.pc
      && Cycles(cpu, k).delayTimer == cpu.delayTimer
      && Cycles(cpu, k).soundTimer == cpu.soundTimer
    decreases k
  {
    if k > 0 {
      CyclesFrame(cpu, k - 1);
    }
  }

  /** Over `k` cycles a running CPU executes `speed` instructions per cycle and each timer
      ends at `max(0, N - k)`. */
  lemma {:induction false} CyclesRunning(cpu: State, k: nat)
    requires !cpu.paused
    ensures Cycles(cpu, k).pc == cpu.pc + 2 * cpu.speed * k
    ensures Cycles(cpu, k).delayTimer == Floor0(cpu.delayTimer - k)
    ensures Cycles(cpu, k).soundTimer == Floor0(cpu.soundTimer - k)
    decreases k
  {
    if k > 0 {
      CyclesRunning(cpu, k - 1);
      CyclesFrame(cpu, k - 1);
      var c := Cycles(cpu, k - 1);
      assert !c.paused && c.speed == cpu.speed;
      var next := Cycle(c).value.cpu;
      assert next.pc == c.pc + 2 * cpu.speed;
      assert 2 * cpu.speed * k == 2 * cpu.speed * (k - 1) + 2 * cpu.speed;
    }
  }
}

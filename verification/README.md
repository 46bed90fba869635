# CHIP-8 emulator core in Dafny

A model of three parts of a browser CHIP-8 emulator written in JavaScript:

- **the CPU** (`cpu.dfy`, module `Cpu`): the interpreter state built by the
  constructor, loading the 80-byte font at address 0 and a program image at 0x200,
  the big-endian opcode fetch, operand-field decoding, the `execute` dispatch on the
  opcode's top nibble, the timer decrement, the tone decision and the `cycle` driver;
- **the framebuffer** (`renderer.dfy`, module `Renderer`): the 64 x 32 display array
  with the wrapping, XOR-toggling `setPixel`, `clear` and the `testRenderer` demo;
- **the keypad** (`keyboard.dfy`, module `Keyboard`): the host-key-code map, the
  16-entry pressed-state vector updated by keydown and keyup, and the one-shot
  "next key press" handler slot.

`wrappers.dfy` holds `Option` and `Result`; `bits.dfy` holds the bridges between
16-bit masks/shifts and integer division used by the decoding lemmas.

Every arm of `execute`'s opcode switch is an empty `break` in this implementation, so
executing any opcode only advances the program counter by 2; the model does exactly
that and imports no CHIP-8 instruction semantics. The state is immutable: every
operation is a pure function from the old state to the new one. The devices the CPU
calls (speaker, renderer) appear as the ordered `Signal`s a cycle emits
(`Play(440)` or `Stop`, then `Render`); the keypad's handler closure is an opaque value
held in an `Option` slot, and calling it is reported as an `Invocation`.

JavaScript semantics kept explicit:

- reading `memory[pc]` past the last cell yields `undefined`, which `<<` and `|` turn
  into 0, so the fetch is total and needs no bounds precondition;
- a `Uint8Array` drops writes past its end, so loading an oversized program silently
  truncates it (no error) and needs no length precondition;
- a fresh `Array(2048)` holds `undefined`; `undefined ^ 1 == 1`, `1 ^ 1 == 0` and
  both `undefined` and 0 are falsy, so each display cell is a boolean starting `false`;
- `KEYMAP[code]` of an unmapped code is `undefined`; storing into
  `keysPressed[undefined]` creates a property named "undefined" and leaves keys
  0x0..0xF alone; the test `onNextKeyPress !== null && key` is false for logical key 0.

Evident slips read as intended, each noted at its definition: `execute` switches on an
undefined `opcode` (modelled: on `op`, the fetched opcode); the constructor writes
`newUint8Array(4096)` (modelled: a 4096-byte zeroed memory); `isKeyPressed` calls the
state array as a function and `onKeyDown` stores into a misspelled `keyPressed`
(modelled: both read and write the one `keysPressed` vector).

Behaviour a CHIP-8 reader might expect that this code lacks, modelled as the code has
it: program loading silently truncates an image longer than 0xE00 bytes instead of
rejecting it; an opcode whose family matches but whose inner sub-opcode does not
(`0x0123`, `0x8008`, `0xE000`, `0xF000`, ...) falls through the inner switch without
an error; and no opcode has any effect beyond the program-counter advance.

## Model

| member | source | states |
|---|---|---|
| Cpu.NewCpu | static/scripts/cpu.js:12-47 | A fresh CPU has 4096 zero bytes of memory, 16 zero registers, I = 0, both timers 0, pc = 0x200, an empty stack, is not paused and runs 10 instructions per cycle |
| Cpu.WriteBytes | static/scripts/cpu.js:88-92 | Storing a byte run at `base` leaves cell `a` holding `bytes[a - base]` when `a` is in the run and its old value otherwise; stores past address 4095 are dropped as a `Uint8Array` drops them |
| Cpu.LoadSpritesIntoMemory | static/scripts/cpu.js:57-81 | Font loading puts the 80 sprite bytes at addresses 0..79, leaves 80..4095 and every non-memory field unchanged |
| Cpu.Glyph | static/scripts/cpu.js:60-75 | The per-digit view of the font: five rows for each hexadecimal digit, one line of the source table each |
| Cpu.Sprites | static/scripts/cpu.js:59-76 | The flat 80-byte table as written in the source, byte by byte (`SpriteByte`), in the order font loading copies it |
| Cpu.GlyphRow | static/scripts/cpu.js:59-76 | The flat table and the per-digit glyphs agree: byte i of the table is row i mod 5 of the glyph for digit i / 5, for all 80 bytes |
| Cpu.GlyphLocation | static/scripts/cpu.js:57-81 | After font loading the five rows of the glyph for digit d sit at addresses 5d..5d+4 |
| Cpu.LoadProgramIntoMemory | static/scripts/cpu.js:88-92 | Program loading sets memory[0x200 + k] to program[k] for every k that lands inside memory, leaves all other cells and fields unchanged |
| Cpu.ProgramTruncation | static/scripts/cpu.js:88-92 | A program of at most 0xE00 bytes lands byte for byte; a longer one gives the same state as loading only its first 0xE00 bytes |
| Cpu.BootLayout | static/scripts/cpu.js:12-92 | Constructing, loading the font and loading a fitting program leaves the font at 0..79, zeroes up to 0x1FF, the program from 0x200 and zeroes after it |
| Cpu.LoadOntoZeroed | static/scripts/cpu.js:57-92 | The same layout for any CPU whose memory starts zeroed |
| Cpu.ReadByte | static/scripts/cpu.js:122 | A memory read as the shift-and-or of the fetch sees it: the stored byte inside memory, and 0 (the coerced `undefined`) at address 4096 and beyond |
| Cpu.Fetch | static/scripts/cpu.js:122 | The fetched opcode's high byte is memory[pc] and its low byte memory[pc + 1], each read as 0 past the end of memory |
| Cpu.FetchBigEndian | static/scripts/cpu.js:122 | As a number the opcode is 256 * memory[pc] + memory[pc + 1] (at most 0xFFFF); with pc = 4095 the low byte is 0, and from pc = 4096 on the opcode is 0 |
| Cpu.Decode | static/scripts/cpu.js:160-164 | x, y and n are in 0..15, kk in 0..255 and nnn in 0..0xFFF |
| Cpu.DecodeRoundTrip | static/scripts/cpu.js:160-164 | The fields lose nothing: bitwise-or of op & 0xF000 with nnn gives op, of x << 8 with kk gives nnn, and of y << 4 with n gives kk |
| Cpu.DecodeDigits | static/scripts/cpu.js:160-164 | x, y and n are the opcode's second, third and fourth hexadecimal digits, kk is op mod 256 and nnn is op mod 4096 |
| Cpu.InnerLabel | static/scripts/cpu.js:168-252 | The inner label an opcode reaches: family 0 matches the whole opcode against 0x00E0 and 0x00EE, family 8 its low nibble against 0..7 and 0xE, families E and F its low byte against their labels (0x9E, 0xA1; 0x07 ... 0x65); any other value falls through to no label, and the other twelve families have no inner switch |
| Cpu.Dispatch | static/scripts/cpu.js:166-258 | A dispatched opcode reaches the arm labelled with its top nibble `op & 0xF000`, and within it the inner label `InnerLabel` gives |
| Cpu.DispatchExhaustive | static/scripts/cpu.js:166-258 | The 16 top-nibble labels cover every 16-bit opcode, so the `Unknown opcode` default is unreachable |
| Cpu.Execute | static/scripts/cpu.js:156-260 | Executing any opcode never throws, advances pc by exactly 2 and changes nothing else |
| Cpu.UpdateTimers | static/scripts/cpu.js:135-143 | Each timer drops by one if nonzero and stays at 0 otherwise; nothing else changes |
| Cpu.UpdateTimersIterated | static/scripts/cpu.js:135-143 | k successive updates from N leave max(0, N - k) in each timer and nothing else changed |
| Cpu.PlaySound | static/scripts/cpu.js:148-154 | The speaker is asked to play 440 Hz exactly when the sound timer is nonzero and to stop exactly when it is zero |
| Cpu.Steps | static/scripts/cpu.js:119-125 | n loop iterations never throw; a paused CPU is left untouched, a running one has executed n opcodes, advancing pc by 2n and nothing else |
| Cpu.Cycle | static/scripts/cpu.js:118-133 | A paused CPU is left untouched (no fetch, no execute, timers frozen); a running one advances pc by 2 * speed and decrements its timers towards 0; either way the speaker is told Play(440) iff the resulting sound timer is nonzero, then a render is requested |
| Cpu.CyclesFrame | static/scripts/cpu.js:118-143 | Any number of cycles changes only the program counter and the timers, and leaves a paused CPU's program counter and timers where they were |
| Cpu.CyclesRunning | static/scripts/cpu.js:118-143 | Over k cycles a running CPU advances pc by 2 * speed * k and each timer ends at max(0, N - k): timers count down once per frame and stop at zero |
| Renderer.PixelIndex | static/scripts/renderer.js:32-36 | The touched index lies in 0..2047 and decodes back to column x mod 64 and row y mod 32 |
| Renderer.PixelIndexBijective | static/scripts/renderer.js:33-36 | Distinct on-screen coordinates touch distinct cells |
| Renderer.PixelIndexOnto | static/scripts/renderer.js:33-36 | Every cell is touched by its own column and row |
| Renderer.Blank | static/scripts/renderer.js:22 | A fresh display array (`new Array(2048)`, every cell `undefined` and so falsy) shows no lit pixel |
| Renderer.SetPixel | static/scripts/renderer.js:25-40 | setPixel flips exactly the addressed cell, leaves the other 2047 cells unchanged, and returns true iff the cell was lit before, i.e. is dark now |
| Renderer.SetPixelTwice | static/scripts/renderer.js:36-39 | Two calls at the same coordinates restore the display, and the second reports an erasure iff the first lit the pixel |
| Renderer.SetPixelWraps | static/scripts/renderer.js:28-34 | setPixel(x + 64, y) and setPixel(x, y + 32) behave exactly like setPixel(x, y) |
| Renderer.Clear | static/scripts/renderer.js:45-47 | After clear all 2048 cells are dark |
| Renderer.TestRenderer | static/scripts/renderer.js:67-70 | The demo flips cells (0, 0) and (5, 2) and no other |
| Renderer.TestRendererOnBlank | static/scripts/renderer.js:67-70 | On a cleared display the demo leaves exactly (0, 0) and (5, 2) lit |
| Keyboard.Lookup | static/scripts/keyboard.js:6-23 | A host code maps to a logical key iff it is one of the 16 table codes, and the key maps back to that code |
| Keyboard.KeyMapOnto | static/scripts/keyboard.js:6-23 | Every logical key 0x0..0xF is the image of a table code |
| Keyboard.KeyMapInjective | static/scripts/keyboard.js:6-23 | No two table codes share a logical key, so the table is a bijection onto 0x0..0xF |
| Keyboard.NewKeyboard | static/scripts/keyboard.js:25-29 | A fresh keypad reports no key pressed and has no pending handler |
| Keyboard.IsKeyPressed | static/scripts/keyboard.js:41-43 | The intended `keysPressed[k]`: a key never pressed gives `undefined` in the source and false here (the same truthiness, as with the display cells); otherwise the state the last keydown or keyup of its code wrote |
| Keyboard.AwaitNextKey | static/scripts/keyboard.js:28-29 | Installing a next-key handler fills the slot with it and changes no key state |
| Keyboard.Mark | static/scripts/keyboard.js:52-53 | Recording a mapped code sets its logical key's state; an unmapped code changes no key |
| Keyboard.OnKeyDown | static/scripts/keyboard.js:51-60 | Keydown marks the mapped key pressed and leaves the other 15 states unchanged; it calls the pending handler, once, with the key and empties the slot iff a handler is pending and the code maps to a nonzero key; otherwise the slot is unchanged |
| Keyboard.OnKeyUp | static/scripts/keyboard.js:68-71 | Keyup marks the mapped key released, leaves the other 15 states and the handler slot unchanged |
| Keyboard.KeyUpUndoesKeyDown | static/scripts/keyboard.js:51-71 | After keydown then keyup the key is released, and if it was released before every key state is as before |
| Keyboard.KeyStateReadBack | static/scripts/keyboard.js:41-43 | isKeyPressed reads back, for every logical key, what keydown and keyup of its code wrote |
| Keyboard.DeliverFiresAtMostOnce | static/scripts/keyboard.js:55-59 | Over any run of keydown and keyup events the handler is called at most once, only the handler that was pending is called, and once it has fired the slot stays empty |
| Keyboard.HandlerFiresOnce | static/scripts/keyboard.js:55-59 | With a handler installed, a nonzero key press calls it with that key, and a second press calls nothing |
| Keyboard.KeyZeroKeepsHandler | static/scripts/keyboard.js:56 | Logical key 0 and unmapped codes never call the handler and leave it pending |

## Left out

- `loadRom` (static/scripts/cpu.js:99-116): asynchronous `XMLHttpRequest` I/O; its effect is `LoadProgramIntoMemory` on the received bytes.
- Canvas setup and `render()` drawing (static/scripts/renderer.js:15-20, 52-65): browser graphics; the CPU's call to `render` is the `Render` signal.
- The `window.addEventListener` registrations (static/scripts/keyboard.js:31-32): host event plumbing; keydown and keyup are plain transitions on a host key code.
- `static/scripts/speaker.js`: a wrapper over the Web Audio API; the speaker is the `Play(440)` / `Stop` signal a cycle emits.
- `static/scripts/chip8.js`: the host frame loop (`requestAnimationFrame`, `Date.now`); it never constructs a CPU.
- CHIP-8 instruction semantics (register arithmetic with VF, draw, call/return, key waits, timer loads): every `execute` arm is empty in this code, so none is modelled; nothing sets `paused`, the timers, I, the registers or the stack after construction, and nothing in this source installs a next-key handler (`Keyboard.AwaitNextKey` models an outside write to the public `onNextKeyPress` field).
- Renderer.SetPixel: coordinates are natural numbers. JavaScript's `%` keeps the sign of a negative coordinate, so the computed index is either negative (a write to a non-index property) or a different real cell than the wrapped one: `setPixel(-1, 1)` computes -1 + 64 = 63 and toggles cell (63, 0), not (63, 1). Negative coordinates are not modelled.
- Keyboard.OnKeyDown: assumes the pending handler returns normally. The source calls it before clearing the slot, so a handler that throws would stay pending and be called again by the next nonzero keydown, and any write the handler makes to the slot is overwritten by the clearing; `DeliverFiresAtMostOnce` holds under the same assumption.
- Cpu.Execute: the `Unknown opcode` throw happens after `pc += 2`; the `Fault` value does not carry that advanced state, which is harmless because the throw is proved unreachable.
- Fractional or non-numeric arguments to the JavaScript functions, and 64-bit floating-point limits on the program counter (modelled as an unbounded natural number).

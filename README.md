# CHIP-8 interpreter core, modelled in Dafny

The repository is the start of a CHIP-8 interpreter written in Rust. Its
core is one struct, `Emulator`, which holds:

- 4 KiB of memory, 16 byte registers `V0`–`VF` and the index register;
- a 16-entry call stack with its stack pointer, and the program counter;
- a 64×32 monochrome screen and 16 key flags;
- the delay and sound timers.

`new` and `reset` put the built-in 80-byte font at the bottom of memory
and start the program counter at 0x200. One `cycle` fetches a big-endian
16-bit instruction word, decodes it by its four hexadecimal digits into a
label string, and executes the label. So far only NOP, CLS and RET are
executed. Every failure goes through `panic`, which prints a message and
spins forever.

The struct exists twice:

- `src/emulator.rs` holds the full decoder and the NOP/CLS/RET execute
  stage.
- `src/main.rs` is the crate root that is actually compiled. It holds a
  second copy whose `decode` always answers `"CLS"`, whose `execute` is
  empty and whose `cycle` only fetches.

The project has three modules:

- `Chip8` (`chip8.dfy`) holds the constants and the font. It also holds
  `Machine`, the struct's fields as a value. Both Rust files implement
  these transitions with the same code, apart from how `push` and `pop`
  reach `panic` and the text of push's message. They are defined once, as
  functions on `Machine`, and each class supplies its own messages:
  - `Initial`, for `new` and `reset`;
  - `WordAt` and `AfterFetch`, for `fetch`;
  - `TickTimers`, for `increment_timers`;
  - `Pushed` and `Popped`, for the stack.

  Lemmas about whole sequences of these operations sit beside them:
  timers count down to zero, and the stack is last-in first-out.
- `Emulator` (`emulator.dfy`) models `src/emulator.rs`:
  - `Decode`, a digit-for-digit copy of the source's `match`;
  - an independent reference, which is a table of digit patterns scanned
    first-match-first, with a proof that the two agree on every word;
  - `ExecuteStep` and `CycleStep`;
  - the class `Emulator`, whose methods update fields and arrays in place
    and are proved against those functions through `Snap()`, the class's
    current value as a `Machine`.
- `MainCrate` (`main_crate.dfy`) models `src/main.rs` as its own class.

A `panic` is modelled as the `Panic(info)` result. It carries the
source's exact message, and nothing after it runs. Every source `u8` and
`u16` becomes a bounded integer type (`Byte`, `Word`, `Nibble`). The
shift-and-or in `fetch` becomes `hi * 256 + lo`. The masks and shifts in
`decode` become division and remainder by powers of 16. These agree with
the source for every operand in range.

## Model

| member | source | states |
|---|---|---|
| Chip8.InitialLayout | src/emulator.rs:48-65 | the initial machine has the struct's array sizes, pc 0x200, the font in memory cells 0–79, and zero or false in every other cell, register, stack slot, key, pixel and timer |
| Chip8.Initial | src/emulator.rs:48-79 | the state `new` builds and `reset` restores has the struct's array sizes, pc 0x200 and an empty stack; Chip8.InitialLayout states the rest of its layout |
| Chip8.WordAt | src/emulator.rs:82-85 | the fetched word splits back into the byte at pc (high) and the byte at pc+1 (low) |
| Chip8.AfterFetch | src/emulator.rs:81-89 | fetching advances pc by exactly 2 and changes no other field |
| Chip8.TickTimers | src/emulator.rs:170-179 | one tick lowers each timer by one but never below zero, and changes no other field |
| Chip8.Ticks | src/emulator.rs:170-179 | repeated ticks change only the timers and never raise either; Chip8.TicksCountDown gives the closed form |
| Chip8.TicksCountDown | src/emulator.rs:170-179 | after k timer ticks each timer equals max(old − k, 0), and no other field changes |
| Chip8.Pushed | src/emulator.rs:181-186 | a push below 16 raises sp by one, makes the used stack the old one plus the value, leaves every other slot and every non-stack field alone |
| Chip8.Popped | src/emulator.rs:188-193 | a pop above 0 returns the top entry, lowers sp by one, leaves the stack array and every other field unchanged |
| Chip8.PushThenPop | src/emulator.rs:181-193 | popping right after pushing a value returns that value and restores sp |
| Chip8.PushAll | src/emulator.rs:181-186 | pushing a sequence that fits appends it to the used stack |
| Chip8.PopAll | src/emulator.rs:188-193 | popping k times yields the top k entries in reverse order and lowers sp by k |
| Chip8.PushAllThenPopAll | src/emulator.rs:181-193 | the stack is last-in first-out: pushing a sequence and popping as many times gives it back reversed, with sp and the used stack restored |
| Emulator.Nibbles | src/emulator.rs:92-95 | the four extracted digits recompose the word, most significant first |
| Emulator.Decode | src/emulator.rs:91-135 | decode either yields a label or halts with "Unimplemented opcode received." |
| Emulator.DecodeDigits | src/emulator.rs:96-134 | the source's match, arm for arm; a word no arm accepts halts with the decode message; Emulator.DecodeIsFirstMatch states its first-match meaning |
| Emulator.Family | src/emulator.rs:96-131 | the match arms with leading digit k, in source order; Emulator.FamilyHeads states that each fixes the leading digit to k, and Emulator.FamilyDecode that scanning them agrees with the match |
| Emulator.FamilyHeads | src/emulator.rs:96-131 | every pattern in family k has leading digit k |
| Emulator.DecodeTable | src/emulator.rs:96-134 | all families in ascending order of leading digit, which is the source's arm order; Emulator.DecodeIsFirstMatch states that scanning it is decode |
| Emulator.FirstMatch | src/emulator.rs:96-134 | scanning the pattern table yields a label or the decode panic message |
| Emulator.FirstMatchIsFirst | src/emulator.rs:96-134 | a scan fails exactly when no row matches, and a label comes from a matching row with no matching row before it |
| Emulator.TableUpToMatch | src/emulator.rs:96-134 | rows of other leading digits never match, so a scan of the table finds what the word's own family finds |
| Emulator.FamilyDecode | src/emulator.rs:96-134 | for each leading digit, decode agrees with the scan of that digit's rows |
| Emulator.DecodeIsFirstMatch | src/emulator.rs:91-135 | for every word, decode equals the first-match scan of the pattern table, including its panic |
| Emulator.DecodeAddressFamilies | src/emulator.rs:100-117 | 1nnn, 3xnn and Annn decode to "1nnn", "3nnn" and "Annn" whatever their operand digits |
| Emulator.DecodeRegisterFamilies | src/emulator.rs:111-121 | 8xy4 decodes to "8xy4" and Ex9E to "Ex93" whatever their register digits |
| Emulator.DecodeKnownWords | src/emulator.rs:97-133 | 0x0000 is "0000", both 0x00E0 and 0x00EE are "00E0", 0x800E is "8xyE", and 0x0123 halts |
| Emulator.DecodeRejects | src/emulator.rs:104-133 | 5xy1, 8xyF and Ex9F reach the decode panic for every x and y |
| Emulator.EightXyEOnlyAtZero | src/emulator.rs:115 | an 8xyE word decodes exactly when x and y are both zero |
| Emulator.DecodeNeverReturns | src/emulator.rs:96-134 | no word decodes to "00EE" |
| Emulator.DecodeNopAndCls | src/emulator.rs:97-99 | a word decodes to "0000" exactly when it is 0x0000, and to "00E0" exactly when it is 0x00E0 or 0x00EE |
| Emulator.ExecuteStep | src/emulator.rs:137-157 | execute keeps every array at its fixed size and sp within the stack |
| Emulator.ExecuteCases | src/emulator.rs:137-157 | NOP changes nothing; CLS clears every pixel and nothing else; RET halts with the pop message on an empty stack and otherwise jumps to the popped address; any other label halts with "Unimplemented" and changes nothing |
| Emulator.ReturnAfterPush | src/emulator.rs:148-151 | a RET right after pushing an address jumps to that address and restores sp |
| Emulator.CycleStep | src/emulator.rs:159-168 | a cycle keeps every array at its fixed size and sp within the stack |
| Emulator.CycleOutcome | src/emulator.rs:159-168 | a cycle completes exactly for 0x0000, 0x00E0 and 0x00EE; NOP only advances pc; both CLS words advance pc and blank the screen; a halt leaves pc advanced and nothing else changed, with the decode or execute message; the call stack never changes |
| Emulator.Emulator.constructor | src/emulator.rs:48-65 | a new emulator is the initial machine, built in fresh arrays |
| Emulator.Emulator.Reset | src/emulator.rs:67-79 | reset restores the initial machine, whatever the state was |
| Emulator.Emulator.Fetch | src/emulator.rs:81-89 | returns the big-endian word at the old pc, and the new state is the old one with pc advanced by 2 |
| Emulator.Emulator.Execute | src/emulator.rs:137-157 | the new state and outcome are exactly ExecuteStep of the old state |
| Emulator.Emulator.Cycle | src/emulator.rs:159-168 | the new state and outcome are exactly CycleStep of the old state |
| Emulator.Emulator.IncrementTimers | src/emulator.rs:170-179 | the new state is the old one with each positive timer one lower |
| Emulator.Emulator.Push | src/emulator.rs:181-186 | on a full stack halts with "Cannot push onto stack, pointer at 16." and changes nothing; otherwise the new state is Pushed of the old |
| Emulator.Emulator.Pop | src/emulator.rs:188-193 | on an empty stack halts with "Cannot pop stack, pointer at 0." and changes nothing; otherwise returns the top entry and the new state is Popped of the old |
| MainCrate.Decode | src/main.rs:91-93 | the stub decode; MainCrate.DecodeIgnoresWord states that it gives "CLS" for every word |
| MainCrate.DecodeIgnoresWord | src/main.rs:91-93 | the stub decode gives "CLS" for every word |
| MainCrate.Emulator.constructor | src/main.rs:48-65 | a new emulator is the initial machine, built in fresh arrays |
| MainCrate.Emulator.Reset | src/main.rs:67-79 | reset restores the initial machine, whatever the state was |
| MainCrate.Emulator.Fetch | src/main.rs:81-89 | returns the big-endian word at the old pc, and the new state is the old one with pc advanced by 2 |
| MainCrate.Emulator.Execute | src/main.rs:95-97 | the stub execute leaves the whole state unchanged |
| MainCrate.Emulator.Cycle | src/main.rs:99-104 | a cycle is only a fetch: pc advances by 2 and nothing else changes |
| MainCrate.Emulator.IncrementTimers | src/main.rs:106-115 | the new state is the old one with each positive timer one lower |
| MainCrate.Emulator.Push | src/main.rs:117-122 | on a full stack halts with "Cannot push onto stack, pointer at 16" (no final period) and changes nothing; otherwise the new state is Pushed of the old |
| MainCrate.Emulator.Pop | src/main.rs:124-129 | on an empty stack halts with "Cannot pop stack, pointer at 0." and changes nothing; otherwise returns the top entry and the new state is Popped of the old |

## Left out

- `panic` (src/emulator.rs:195-198, src/main.rs:132-135): the message print and the endless loop are not modelled. A halt is the `Panic(info)` result, and the caller stops at it.
- The empty `// beep` branch in `increment_timers` does nothing, so it has no counterpart in the model.
- `main` (src/main.rs:137-140) only calls `new` and then `reset`. Both are modelled, and the function itself is not.
- Emulator.Emulator.Fetch, MainCrate.Emulator.Fetch, Chip8.AfterFetch, Emulator.CycleStep, Emulator.Emulator.Cycle and MainCrate.Emulator.Cycle require `pc + 1 < 4096`. Past that point the source's array index or its `pc + 1` would abort, and the model does not describe that abort.
- The `to_string` copy of the decoded label in `cycle` is an allocation with no observable effect. The model passes the label on directly.
- The constants `MAX_PROGRAM_MEMORY` and `PROGRAM_END_ADDR` are declared but never used, so they are not modelled.
- Nothing in the source loads a program into memory, and so nothing in the model does either.
- The source executes only NOP, CLS and RET. Its other decoded labels all halt with "Unimplemented", and the model does exactly that.
- The `op` argument of `execute` is unused in both files. The model keeps it as a parameter and never reads it.
- Chip8.Popped: a pop leaves the popped value in the stack array, as the source does. Only the entries below `sp` count as the stack's contents.

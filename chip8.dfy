/**
 * Constants, the built-in font, and the value-level view of the CHIP-8
 * interpreter state shared by both copies of the `Emulator` struct.
 *
 * Both Rust files declare the same constants, the same font table and the
 * same struct. Their `new`, `reset`, `fetch` and `increment_timers` bodies
 * are the same text, and their `push` and `pop` bodies are the same apart
 * from how they reach `panic` and from push's message. The transitions
 * those bodies perform are defined here once, as functions on `Machine`
 * values; the two classes prove their methods against them, each with its
 * own panic messages.
 */
module Chip8 {

  /** Rust `u8`, `u16`, and the 4-bit slices of a `u16` produced by decode. */
  type Byte = x: int | 0 <= x < 0x100
  type Word = x: int | 0 <= x < 0x1_0000
  type Nibble = x: int | 0 <= x < 0x10

  const SCREEN_WIDTH: nat := 64
  const SCREEN_HEIGHT: nat := 32
  const SCREEN_SIZE: nat := SCREEN_WIDTH * SCREEN_HEIGHT
  const NUM_V_REG: nat := 16
  const NUM_KEYS: nat := 16
  const RAM_SIZE: nat := 4096
  const STACK_SIZE: nat := 16
  const FONTSET_SIZE: nat := 80
  const PROGRAM_START_ADDR: Word := 0x200

  /** Sixteen glyphs, 0 to F, five rows of 4 pixels each. */
  const FONTSET: seq<Byte> := [
    0xF0, 0x90, 0x90, 0x90, 0xF0, // 0
    0x20, 0x60, 0x20, 0x20, 0x70, // 1
    0xF0, 0x10, 0xF0, 0x80, 0xF0, // 2
    0xF0, 0x10, 0xF0, 0x10, 0xF0,
    0x90, 0x90, 0xF0, 0x10, 0x10,
    0xF0, 0x80, 0xF0, 0x10, 0xF0,
    0xF0, 0x80, 0xF0, 0x90, 0xF0,
    0xF0, 0x10, 0x20, 0x40, 0x40,
    0xF0, 0x90, 0xF0, 0x90, 0xF0,
    0xF0, 0x90, 0xF0, 0x10, 0xF0,
    0xF0, 0x90, 0xF0, 0x90, 0x90, // A
    0xE0, 0x90, 0xE0, 0x90, 0xE0,
    0xF0, 0x80, 0x80, 0x80, 0xF0,
    0xE0, 0x90, 0x90, 0x90, 0xE0,
    0xF0, 0x80, 0xF0, 0x80, 0xF0,
    0xF0, 0x80, 0xF0, 0x80, 0x80  // F
  ]

  /**
   * An operation either completes or reaches `panic`, which prints its
   * message and then spins forever; `Panic(info)` is that halt, carrying the
   * message the source passes.
   */
  datatype Result<T> = Ok(value: T) | Panic(info: string)

  /** The fields of the `Emulator` struct, as values. */
  datatype Machine = Machine(
    pc: Word,
    sp: Word,
    ram: seq<Byte>,
    v: seq<Byte>,
    screen: seq<bool>,
    index: Word,
    stack: seq<Word>,
    keys: seq<bool>,
    dt: Byte,
    st: Byte)

  /** A machine that fits the struct: every array at its fixed size, and a stack pointer within the stack. */
  predicate WellFormed(m: Machine) {
    && |m.ram| == RAM_SIZE
    && |m.v| == NUM_V_REG
    && |m.screen| == SCREEN_SIZE
    && |m.stack| == STACK_SIZE
    && |m.keys| == NUM_KEYS
    && m.sp <= STACK_SIZE
  }

  /** Every screen cell unlit. */
  function BlankScreen(): seq<bool> {
    seq(SCREEN_SIZE, _ => false)
  }

  /** The state `new` builds and `reset` restores: the font at the bottom of memory, pc at the program start, zero elsewhere. */
  function Initial(): (r: Machine)
    ensures WellFormed(r) && r.pc == PROGRAM_START_ADDR && r.sp == 0
  {
    Machine(
      pc := PROGRAM_START_ADDR,
      sp := 0,
      ram := FONTSET + seq(RAM_SIZE - FONTSET_SIZE, _ => 0),
      v := seq(NUM_V_REG, _ => 0),
      screen := BlankScreen(),
      index := 0,
      stack := seq(STACK_SIZE, _ => 0),
      keys := seq(NUM_KEYS, _ => false),
      dt := 0,
      st := 0)
  }

  lemma InitialLayout()
    ensures WellFormed(Initial())
    ensures Initial().pc == 0x200 && Initial().sp == 0 && Initial().index == 0
    ensures Initial().dt == 0 && Initial().st == 0
    ensures Initial().ram[..FONTSET_SIZE] == FONTSET
    ensures forall a :: FONTSET_SIZE <= a < RAM_SIZE ==> Initial().ram[a] == 0
    ensures forall i :: 0 <= i < NUM_V_REG ==> Initial().v[i] == 0
    ensures forall i :: 0 <= i < STACK_SIZE ==> Initial().stack[i] == 0
    ensures forall i :: 0 <= i < NUM_KEYS ==> !Initial().keys[i]
    ensures forall i :: 0 <= i < SCREEN_SIZE ==> !Initial().screen[i]
  {
  }

  // ---------------------------------------------------------------- fetch

  /**
   * The instruction word stored big-endian at `pc`: the source builds it as
   * `(hi << 8) | lo`, which for a byte `lo` is `hi * 256 + lo`.
   */
  function WordAt(ram: seq<Byte>, pc: nat): (w: Word)
    requires pc + 1 < |ram|
    // the word splits back into the two bytes it was read from, high byte first
    ensures w / 256 == ram[pc] && w % 256 == ram[pc + 1]
  {
    ram[pc] as int * 256 + ram[pc + 1]
  }

  /** The state after `fetch`: pc moved past the two-byte instruction, nothing else changed. */
  function AfterFetch(m: Machine): (r: Machine)
    requires m.pc + 1 < RAM_SIZE
    ensures r.pc == m.pc + 2 && r.(pc := m.pc) == m
  {
    m.(pc := m.pc + 2)
  }

  // --------------------------------------------------------------- timers

  function Saturating(x: int): Byte
    requires x < 0x100
  {
    if x > 0 then x else 0
  }

  /** One `increment_timers` call: each timer that is positive counts down by one. */
  function TickTimers(m: Machine): (r: Machine)
    ensures r.dt == Saturating(m.dt - 1) && r.st == Saturating(m.st - 1)
    ensures r.(dt := m.dt, st := m.st) == m
  {
    m.(dt := if m.dt > 0 then m.dt - 1 else 0,
       st := if m.st > 0 then m.st - 1 else 0)
  }

  /** `k` calls of `increment_timers` in a row. */
  function Ticks(m: Machine, k: nat): (r: Machine)
    ensures r.dt <= m.dt && r.st <= m.st
    ensures r.(dt := m.dt, st := m.st) == m
    decreases k
  {
    if k == 0 then m else Ticks(TickTimers(m), k - 1)
  }

  /**
   * Each timer counts down independently to zero and then stays there;
   * no other field of the machine is touched.
   */
  lemma {:induction false} TicksCountDown(m: Machine, k: nat)
    ensures Ticks(m, k) == m.(dt := Saturating(m.dt - k), st := Saturating(m.st - k))
    decreases k
  {
    if k > 0 {
      TicksCountDown(TickTimers(m), k - 1);
    }
  }

  // ---------------------------------------------------------------- stack

  /** The return addresses in use, oldest first. */
  function StackContents(m: Machine): seq<Word>
    requires m.sp <= |m.stack|
  {
    m.stack[..m.sp]
  }

  /** `a` and `b` agree on every field except the stack and its pointer. */
  predicate SameOutsideStack(a: Machine, b: Machine) {
    a.(stack := b.stack, sp := b.sp) == b
  }

  /** `push(value)` when it does not panic: the value goes on top, and only the entry at the old `sp` is overwritten. */
  function Pushed(m: Machine, value: Word): (r: Machine)
    requires WellFormed(m) && m.sp < STACK_SIZE
    ensures WellFormed(r) && SameOutsideStack(r, m)
    ensures r.sp == m.sp + 1 && StackContents(r) == StackContents(m) + [value]
    ensures forall i :: 0 <= i < STACK_SIZE && i != m.sp ==> r.stack[i] == m.stack[i]
  {
    m.(stack := m.stack[m.sp := value], sp := m.sp + 1)
  }

  /** `pop()` when it does not panic: the top entry is returned and the pointer drops by one; the entry itself stays in the array. */
  function Popped(m: Machine): (r: (Word, Machine))
    requires WellFormed(m) && 0 < m.sp
    ensures WellFormed(r.1) && SameOutsideStack(r.1, m) && r.1.stack == m.stack
    ensures r.1.sp == m.sp - 1 && StackContents(m) == StackContents(r.1) + [r.0]
  {
    (m.stack[m.sp - 1], m.(sp := m.sp - 1))
  }

  /** A push followed by a pop returns the pushed value and restores `sp`. */
  lemma PushThenPop(m: Machine, value: Word)
    requires WellFormed(m) && m.sp < STACK_SIZE
    ensures Popped(Pushed(m, value)).0 == value
    ensures Popped(Pushed(m, value)).1 == m.(stack := m.stack[m.sp := value])
  {
  }

  /** Push each of `vs` in order. */
  function PushAll(m: Machine, vs: seq<Word>): (r: Machine)
    requires WellFormed(m) && m.sp + |vs| <= STACK_SIZE
    ensures WellFormed(r) && SameOutsideStack(r, m)
    ensures r.sp == m.sp + |vs| && StackContents(r) == StackContents(m) + vs
    decreases |vs|
  {
    if vs == [] then m
    else
      var r := PushAll(Pushed(m, vs[0]), vs[1..]);
      assert StackContents(m) + vs == StackContents(m) + [vs[0]] + vs[1..];
      r
  }

  function Reversed(s: seq<Word>): (r: seq<Word>)
    ensures |r| == |s|
  {
    if s == [] then [] else Reversed(s[1..]) + [s[0]]
  }

  lemma {:induction false} ReversedSnoc(s: seq<Word>, x: Word)
    ensures Reversed(s + [x]) == [x] + Reversed(s)
  {
    if s != [] {
      assert (s + [x])[1..] == s[1..] + [x];
      ReversedSnoc(s[1..], x);
    } else {
      assert s + [x] == [x];
    }
  }

  /** Pop `k` times, collecting the values in the order they come off. */
  function PopAll(m: Machine, k: nat): (r: (seq<Word>, Machine))
    requires WellFormed(m) && k <= m.sp
    ensures WellFormed(r.1) && SameOutsideStack(r.1, m) && r.1.stack == m.stack
    ensures r.1.sp == m.sp - k
    ensures r.0 == Reversed(StackContents(m)[m.sp - k..])
    decreases k
  {
    if k == 0 then ([], m)
    else
      var (top, m1) := Popped(m);
      var (rest, m2) := PopAll(m1, k - 1);
      assert StackContents(m)[m.sp - k..] == StackContents(m1)[m1.sp - (k - 1)..] + [top];
      ReversedSnoc(StackContents(m1)[m1.sp - (k - 1)..], top);
      ([top] + rest, m2)
  }

  /** The stack is last-in first-out: what is pushed comes back in reverse order, and `sp` returns to where it was. */
  lemma PushAllThenPopAll(m: Machine, vs: seq<Word>)
    requires WellFormed(m) && m.sp + |vs| <= STACK_SIZE
    ensures PopAll(PushAll(m, vs), |vs|).0 == Reversed(vs)
    ensures PopAll(PushAll(m, vs), |vs|).1.sp == m.sp
    ensures StackContents(PopAll(PushAll(m, vs), |vs|).1) == StackContents(m)
  {
    var p := PushAll(m, vs);
    var q := PopAll(p, |vs|);
    assert StackContents(p) == StackContents(m) + vs;
    assert StackContents(p)[p.sp - |vs|..] == vs;
    assert StackContents(q.1) == StackContents(p)[..m.sp];
    assert StackContents(p)[..m.sp] == StackContents(m);
  }
}

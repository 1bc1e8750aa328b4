/**
 * The crate root src/main.rs, which is what actually gets compiled: its own
 * copy of the `Emulator` struct, in which `decode` always answers "CLS",
 * `execute` does nothing and `cycle` only fetches.
 */
module MainCrate {
  import opened Chip8

  const PUSH_PANIC := "Cannot push onto stack, pointer at 16"
  const POP_PANIC := "Cannot pop stack, pointer at 0."

  /** The stub `decode`: the same label for every word. */
  function Decode(op: Word): string {
    "CLS"
  }

  /** `decode` ignores its word entirely. */
  lemma DecodeIgnoresWord(a: Word, b: Word)
    ensures Decode(a) == Decode(b) == "CLS"
  {
  }

  class Emulator {
    var pc: Word
    var sp: Word
    const ram: array<Byte>
    const v: array<Byte>
    const screen: array<bool>
    var index: Word
    const stack: array<Word>
    const keys: array<bool>
    var dt: Byte
    var st: Byte

    /** The fixed array sizes of the struct, and a stack pointer within the stack. */
    ghost predicate Valid()
      reads this
    {
      && ram.Length == RAM_SIZE && v.Length == NUM_V_REG && screen.Length == SCREEN_SIZE
      && stack.Length == STACK_SIZE && keys.Length == NUM_KEYS
      && ram != v && screen != keys
      && sp <= STACK_SIZE
    }

    /** The struct's current value. */
    ghost function Snap(): (m: Machine)
      reads this, ram, v, screen, stack, keys
      requires Valid()
      ensures WellFormed(m)
    {
      Machine(pc, sp, ram[..], v[..], screen[..], index, stack[..], keys[..], dt, st)
    }

    /** `new`: everything zeroed, the font copied into the bottom of memory, pc at 0x200. */
    constructor ()
      ensures Valid() && Snap() == Initial()
      ensures fresh(ram) && fresh(v) && fresh(screen) && fresh(stack) && fresh(keys)
    {
      pc := PROGRAM_START_ADDR;
      ram := new Byte[RAM_SIZE](_ => 0);
      stack := new Word[STACK_SIZE](_ => 0);
      v := new Byte[NUM_V_REG](_ => 0);
      keys := new bool[NUM_KEYS](_ => false);
      screen := new bool[SCREEN_SIZE](_ => false);
      index := 0;
      sp := 0;
      dt := 0;
      st := 0;
      new;
      forall i | 0 <= i < FONTSET_SIZE {
        ram[i] := FONTSET[i];
      }
      assert ram[..] == Initial().ram;
      assert screen[..] == BlankScreen();
    }

    /** `reset`: back to the state `new` builds, in place, whatever was loaded before. */
    method Reset()
      requires Valid()
      modifies this, ram, v, screen, stack, keys
      ensures Valid() && Snap() == Initial()
    {
      pc := PROGRAM_START_ADDR;
      forall i | 0 <= i < ram.Length {
        ram[i] := 0;
      }
      forall i | 0 <= i < stack.Length {
        stack[i] := 0;
      }
      forall i | 0 <= i < screen.Length {
        screen[i] := false;
      }
      forall i | 0 <= i < v.Length {
        v[i] := 0;
      }
      index := 0;
      sp := 0;
      dt := 0;
      st := 0;
      forall i | 0 <= i < keys.Length {
        keys[i] := false;
      }
      forall i | 0 <= i < FONTSET_SIZE {
        ram[i] := FONTSET[i];
      }
      assert ram[..] == Initial().ram;
      assert screen[..] == BlankScreen();
    }

    /** `fetch`: the big-endian word at pc, and pc advanced past it. */
    method Fetch() returns (op: Word)
      requires Valid() && pc + 1 < RAM_SIZE
      modifies this
      ensures Valid()
      ensures op == WordAt(old(Snap()).ram, old(pc))
      ensures Snap() == AfterFetch(old(Snap()))
    {
      var hi := ram[pc];
      var lo := ram[pc + 1];
      op := hi as int * 256 + lo;
      pc := pc + 2;
    }

    /** The stub `execute`: its body is empty, so it changes nothing. */
    method Execute(op: Word)
      requires Valid()
      ensures Snap() == old(Snap())
    {
    }

    /** `cycle`: a fetch whose word is discarded, so only pc moves. */
    method Cycle()
      requires Valid() && pc + 1 < RAM_SIZE
      modifies this
      ensures Valid()
      ensures Snap() == AfterFetch(old(Snap()))
      ensures pc == old(pc) + 2
    {
      var op := Fetch();
    }

    /** `increment_timers`: each positive timer counts down by one. */
    method IncrementTimers()
      requires Valid()
      modifies this
      ensures Valid()
      ensures Snap() == TickTimers(old(Snap()))
    {
      if dt > 0 {
        dt := dt - 1;
      }
      if st > 0 {
        st := st - 1;
      }
    }

    /** `push`: halts when the stack is full, otherwise puts `value` on top. */
    method Push(value: Word) returns (r: Result<()>)
      requires Valid()
      modifies this, stack
      ensures Valid()
      ensures r == if old(sp) >= STACK_SIZE then Panic(PUSH_PANIC) else Ok(())
      ensures Snap() == if old(sp) >= STACK_SIZE then old(Snap()) else Pushed(old(Snap()), value)
    {
      if sp >= STACK_SIZE {
        return Panic(PUSH_PANIC);
      }
      stack[sp] := value;
      sp := sp + 1;
      r := Ok(());
    }

    /** `pop`: halts when the stack is empty, otherwise takes the top entry off. */
    method Pop() returns (r: Result<Word>)
      requires Valid()
      modifies this
      ensures Valid()
      ensures old(sp) == 0 ==> r == Panic(POP_PANIC) && Snap() == old(Snap())
      ensures old(sp) > 0 ==> r == Ok(Popped(old(Snap())).0) && Snap() == Popped(old(Snap())).1
    {
      if sp <= 0 {
        return Panic(POP_PANIC);
      }
      sp := sp - 1;
      r := Ok(stack[sp]);
    }
  }
}

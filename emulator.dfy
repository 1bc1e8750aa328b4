/**
 * The interpreter of src/emulator.rs: a nibble-pattern decoder, an execute
 * stage that handles only NOP, CLS and RET, and the `Emulator` struct whose
 * methods update its fields in place.
 */
module Emulator {
  import opened Chip8

  const DECODE_PANIC := "Unimplemented opcode received."
  const EXECUTE_PANIC := "Unimplemented"
  const PUSH_PANIC := "Cannot push onto stack, pointer at 16."
  const POP_PANIC := "Cannot pop stack, pointer at 0."

  // --------------------------------------------------------------- decode

  /** The four digits of a word, most significant first. */
  type Quad = (Nibble, Nibble, Nibble, Nibble)

  /**
   * The source's masks and shifts, `(op & 0xF000) >> 12` down to
   * `op & 0x000F`: the word's four hexadecimal digits.
   */
  function Nibbles(op: Word): (d: Quad)
    ensures op == d.0 * 0x1000 + d.1 * 0x100 + d.2 * 0x10 + d.3
  {
    (op / 0x1000, op / 0x100 % 0x10, op / 0x10 % 0x10, op % 0x10)
  }

  /**
   * `decode`: classifies a word by its digits. It reads nothing of the
   * machine and changes nothing; a word that no arm matches reaches `panic`.
   */
  function Decode(op: Word): (r: Result<string>)
    ensures r.Panic? ==> r.info == DECODE_PANIC
  {
    DecodeDigits(Nibbles(op))
  }

  /**
   * The source's `match`, arm for arm: the first arm that matches wins. The
   * labels are the source's strings, including its slips: 0x00EE is
   * labelled "00E0", the Ex9E arm is labelled "Ex93", the 3xnn arm "3nnn",
   * and the 8xyE arm matches only x = y = 0.
   */
  function DecodeDigits(n: Quad): (r: Result<string>)
    ensures r.Panic? ==> r.info == DECODE_PANIC
  {
    match n
    case (0, 0, 0, 0) => Ok("0000")
    case (0, 0, 0xE, 0) => Ok("00E0")
    case (0, 0, 0xE, 0xE) => Ok("00E0")
    case (1, _, _, _) => Ok("1nnn")
    case (2, _, _, _) => Ok("2nnn")
    case (3, _, _, _) => Ok("3nnn")
    case (4, _, _, _) => Ok("4xnn")
    case (5, _, _, 0) => Ok("5xy0")
    case (6, _, _, _) => Ok("6xnn")
    case (7, _, _, _) => Ok("7xnn")
    case (8, _, _, 0) => Ok("8xy0")
    case (8, _, _, 1) => Ok("8xy1")
    case (8, _, _, 2) => Ok("8xy2")
    case (8, _, _, 3) => Ok("8xy3")
    case (8, _, _, 4) => Ok("8xy4")
    case (8, _, _, 5) => Ok("8xy5")
    case (8, _, _, 6) => Ok("8xy6")
    case (8, _, _, 7) => Ok("8xy7")
    case (8, 0, 0, 0xE) => Ok("8xyE")
    case (9, _, _, 0) => Ok("9xy0")
    case (0xA, _, _, _) => Ok("Annn")
    case (0xB, _, _, _) => Ok("Bnnn")
    case (0xC, _, _, _) => Ok("Cxnn")
    case (0xD, _, _, _) => Ok("Dxyn")
    case (0xE, _, 9, 0xE) => Ok("Ex93")
    case (0xE, _, 0xA, 1) => Ok("ExA1")
    case (0xF, _, 0, 7) => Ok("Fx07")
    case (0xF, _, 0, 0xA) => Ok("Fx0A")
    case (0xF, _, 1, 5) => Ok("Fx15")
    case (0xF, _, 1, 8) => Ok("Fx18")
    case (0xF, _, 1, 0xE) => Ok("Fx1E")
    case (0xF, _, 2, 9) => Ok("Fx29")
    case (0xF, _, 3, 3) => Ok("Fx33")
    case (0xF, _, 5, 5) => Ok("Fx55")
    case (0xF, _, 6, 5) => Ok("Fx65")
    case _ => Panic(DECODE_PANIC)
  }

  // ------------------------------------------- the decode table, as data

  /** One position of a decode pattern: a wildcard or a fixed digit. */
  datatype Digit = Any | Is(n: Nibble)

  /** A decode pattern over the four digits and the label it yields. */
  datatype Row = Row(d1: Digit, d2: Digit, d3: Digit, d4: Digit, mnemonic: string)

  predicate Fits(d: Digit, n: Nibble) {
    d.Any? || d.n == n
  }

  predicate RowMatches(row: Row, n: Quad) {
    Fits(row.d1, n.0) && Fits(row.d2, n.1) && Fits(row.d3, n.2) && Fits(row.d4, n.3)
  }

  /** The rows of the source's decode `match` whose first digit is `k`, in source order. */
  function Family(k: Nibble): seq<Row> {
    match k
    case 0 => [
      Row(Is(0), Is(0), Is(0), Is(0), "0000"),
      Row(Is(0), Is(0), Is(0xE), Is(0), "00E0"),
      Row(Is(0), Is(0), Is(0xE), Is(0xE), "00E0")
    ]
    case 1 => [Row(Is(1), Any, Any, Any, "1nnn")]
    case 2 => [Row(Is(2), Any, Any, Any, "2nnn")]
    case 3 => [Row(Is(3), Any, Any, Any, "3nnn")]
    case 4 => [Row(Is(4), Any, Any, Any, "4xnn")]
    case 5 => [Row(Is(5), Any, Any, Is(0), "5xy0")]
    case 6 => [Row(Is(6), Any, Any, Any, "6xnn")]
    case 7 => [Row(Is(7), Any, Any, Any, "7xnn")]
    case 8 => [
      Row(Is(8), Any, Any, Is(0), "8xy0"),
      Row(Is(8), Any, Any, Is(1), "8xy1"),
      Row(Is(8), Any, Any, Is(2), "8xy2"),
      Row(Is(8), Any, Any, Is(3), "8xy3"),
      Row(Is(8), Any, Any, Is(4), "8xy4"),
      Row(Is(8), Any, Any, Is(5), "8xy5"),
      Row(Is(8), Any, Any, Is(6), "8xy6"),
      Row(Is(8), Any, Any, Is(7), "8xy7"),
      Row(Is(8), Is(0), Is(0), Is(0xE), "8xyE")
    ]
    case 9 => [Row(Is(9), Any, Any, Is(0), "9xy0")]
    case 0xA => [Row(Is(0xA), Any, Any, Any, "Annn")]
    case 0xB => [Row(Is(0xB), Any, Any, Any, "Bnnn")]
    case 0xC => [Row(Is(0xC), Any, Any, Any, "Cxnn")]
    case 0xD => [Row(Is(0xD), Any, Any, Any, "Dxyn")]
    case 0xE => [
      Row(Is(0xE), Any, Is(9), Is(0xE), "Ex93"),
      Row(Is(0xE), Any, Is(0xA), Is(1), "ExA1")
    ]
    case _ => [ // 0xF
      Row(Is(0xF), Any, Is(0), Is(7), "Fx07"),
      Row(Is(0xF), Any, Is(0), Is(0xA), "Fx0A"),
      Row(Is(0xF), Any, Is(1), Is(5), "Fx15"),
      Row(Is(0xF), Any, Is(1), Is(8), "Fx18"),
      Row(Is(0xF), Any, Is(1), Is(0xE), "Fx1E"),
      Row(Is(0xF), Any, Is(2), Is(9), "Fx29"),
      Row(Is(0xF), Any, Is(3), Is(3), "Fx33"),
      Row(Is(0xF), Any, Is(5), Is(5), "Fx55"),
      Row(Is(0xF), Any, Is(6), Is(5), "Fx65")
    ]
  }

  /** The rows of families `0` to `k - 1`, in order. */
  function TableUpTo(k: nat): seq<Row>
    requires k <= 16
  {
    if k == 0 then [] else TableUpTo(k - 1) + Family(k - 1)
  }

  /** The whole decode table in the source's order, which lists the families in ascending order. */
  function DecodeTable(): seq<Row> {
    TableUpTo(16)
  }

  /** The label of the first row that matches, or the decode panic. */
  function FirstMatch(rows: seq<Row>, n: Quad): (r: Result<string>)
    ensures r.Panic? ==> r.info == DECODE_PANIC
    decreases |rows|
  {
    if rows == [] then Panic(DECODE_PANIC)
    else if RowMatches(rows[0], n) then Ok(rows[0].mnemonic)
    else FirstMatch(rows[1..], n)
  }

  /** First-match semantics: a result names a matching row with no earlier match, and failure means no row matches. */
  lemma {:induction false} FirstMatchIsFirst(rows: seq<Row>, n: Quad)
    ensures FirstMatch(rows, n).Panic? <==> forall i :: 0 <= i < |rows| ==> !RowMatches(rows[i], n)
    ensures FirstMatch(rows, n).Ok? ==>
      exists i :: 0 <= i < |rows| && RowMatches(rows[i], n) && rows[i].mnemonic == FirstMatch(rows, n).value
        && forall j :: 0 <= j < i ==> !RowMatches(rows[j], n)
    decreases |rows|
  {
    if rows != [] && !RowMatches(rows[0], n) {
      FirstMatchIsFirst(rows[1..], n);
      if FirstMatch(rows, n).Ok? {
        var i :| 0 <= i < |rows| - 1 && RowMatches(rows[1..][i], n)
          && rows[1..][i].mnemonic == FirstMatch(rows, n).value
          && forall j :: 0 <= j < i ==> !RowMatches(rows[1..][j], n);
        assert RowMatches(rows[i + 1], n);
        assert forall j :: 0 <= j < i + 1 ==> !RowMatches(rows[j], n) by {
          forall j | 0 <= j < i + 1 ensures !RowMatches(rows[j], n) {
            if j > 0 { assert rows[j] == rows[1..][j - 1]; }
          }
        }
      }
      assert forall i :: 1 <= i < |rows| ==> rows[i] == rows[1..][i - 1];
    }
  }

  /** The first matching row decides the result. */
  lemma {:induction false} FirstMatchAt(rows: seq<Row>, n: Quad, i: nat)
    requires i < |rows| && RowMatches(rows[i], n)
    requires forall j :: 0 <= j < i ==> !RowMatches(rows[j], n)
    ensures FirstMatch(rows, n) == Ok(rows[i].mnemonic)
    decreases i
  {
    if i > 0 {
      assert !RowMatches(rows[0], n);
      assert forall j :: 0 <= j < i - 1 ==> rows[1..][j] == rows[j + 1];
      FirstMatchAt(rows[1..], n, i - 1);
    }
  }

  /** With no matching row, the result is the decode panic. */
  lemma {:induction false} FirstMatchNone(rows: seq<Row>, n: Quad)
    requires forall j :: 0 <= j < |rows| ==> !RowMatches(rows[j], n)
    ensures FirstMatch(rows, n) == Panic(DECODE_PANIC)
    decreases |rows|
  {
    if rows != [] {
      assert !RowMatches(rows[0], n);
      assert forall j :: 0 <= j < |rows| - 1 ==> rows[1..][j] == rows[j + 1];
      FirstMatchNone(rows[1..], n);
    }
  }

  lemma {:induction false} FirstMatchAppend(a: seq<Row>, b: seq<Row>, n: Quad)
    ensures FirstMatch(a + b, n) == if FirstMatch(a, n).Ok? then FirstMatch(a, n) else FirstMatch(b, n)
    decreases |a|
  {
    if a == [] {
      assert a + b == b;
    } else {
      assert (a + b)[0] == a[0] && (a + b)[1..] == a[1..] + b;
      FirstMatchAppend(a[1..], b, n);
    }
  }

  /** Every row of family `k` fixes the first digit to `k`. */
  lemma FamilyHeads(k: Nibble)
    ensures forall i :: 0 <= i < |Family(k)| ==> Family(k)[i].d1 == Is(k)
  {
  }

  lemma OtherFamilyMisses(k: Nibble, n: Quad)
    requires n.0 != k
    ensures FirstMatch(Family(k), n) == Panic(DECODE_PANIC)
  {
    FamilyHeads(k);
    FirstMatchNone(Family(k), n);
  }

  /** Scanning the first `k` families finds what the word's own family finds, if that family is among them. */
  lemma {:induction false} TableUpToMatch(k: nat, n: Quad)
    requires k <= 16
    ensures FirstMatch(TableUpTo(k), n) == if n.0 < k then FirstMatch(Family(n.0), n) else Panic(DECODE_PANIC)
    decreases k
  {
    if k > 0 {
      TableUpToMatch(k - 1, n);
      FirstMatchAppend(TableUpTo(k - 1), Family(k - 1), n);
      if n.0 != k - 1 {
        OtherFamilyMisses(k - 1, n);
      }
    }
  }

  lemma Family0Decode(n: Quad)
    requires n.0 == 0
    ensures DecodeDigits(n) == FirstMatch(Family(0), n)
  {
  }

  lemma Family8Decode(n: Quad)
    requires n.0 == 8
    ensures DecodeDigits(n) == FirstMatch(Family(8), n)
  {
    if n.3 == 0 {
      assert DecodeDigits(n) == Ok("8xy0");
      FirstMatchAt(Family(8), n, 0);
    } else if n.3 == 1 {
      assert DecodeDigits(n) == Ok("8xy1");
      FirstMatchAt(Family(8), n, 1);
    } else if n.3 == 2 {
      assert DecodeDigits(n) == Ok("8xy2");
      FirstMatchAt(Family(8), n, 2);
    } else if n.3 == 3 {
      assert DecodeDigits(n) == Ok("8xy3");
      FirstMatchAt(Family(8), n, 3);
    } else if n.3 == 4 {
      assert DecodeDigits(n) == Ok("8xy4");
      FirstMatchAt(Family(8), n, 4);
    } else if n.3 == 5 {
      assert DecodeDigits(n) == Ok("8xy5");
      FirstMatchAt(Family(8), n, 5);
    } else if n.3 == 6 {
      assert DecodeDigits(n) == Ok("8xy6");
      FirstMatchAt(Family(8), n, 6);
    } else if n.3 == 7 {
      assert DecodeDigits(n) == Ok("8xy7");
      FirstMatchAt(Family(8), n, 7);
    } else if n.1 == 0 && n.2 == 0 && n.3 == 0xE {
      assert DecodeDigits(n) == Ok("8xyE");
      FirstMatchAt(Family(8), n, 8);
    } else {
      assert DecodeDigits(n) == Panic(DECODE_PANIC);
      FirstMatchNone(Family(8), n);
    }
  }

  lemma FamilyEDecode(n: Quad)
    requires n.0 == 0xE
    ensures DecodeDigits(n) == FirstMatch(Family(0xE), n)
  {
    if n.2 == 9 && n.3 == 0xE {
      FirstMatchAt(Family(0xE), n, 0);
    } else if n.2 == 0xA && n.3 == 1 {
      FirstMatchAt(Family(0xE), n, 1);
    } else {
      FirstMatchNone(Family(0xE), n);
    }
  }

  lemma FamilyFDecode(n: Quad)
    requires n.0 == 0xF
    ensures DecodeDigits(n) == FirstMatch(Family(0xF), n)
  {
    if n.2 == 0 {
      if n.3 == 7 {
        FirstMatchAt(Family(0xF), n, 0);
      } else if n.3 == 0xA {
        FirstMatchAt(Family(0xF), n, 1);
      } else {
        FirstMatchNone(Family(0xF), n);
      }
    } else if n.2 == 1 {
      if n.3 == 5 {
        FirstMatchAt(Family(0xF), n, 2);
      } else if n.3 == 8 {
        FirstMatchAt(Family(0xF), n, 3);
      } else if n.3 == 0xE {
        FirstMatchAt(Family(0xF), n, 4);
      } else {
        FirstMatchNone(Family(0xF), n);
      }
    } else if n.2 == 2 && n.3 == 9 {
      FirstMatchAt(Family(0xF), n, 5);
    } else if n.2 == 3 && n.3 == 3 {
      FirstMatchAt(Family(0xF), n, 6);
    } else if n.2 == 5 && n.3 == 5 {
      FirstMatchAt(Family(0xF), n, 7);
    } else if n.2 == 6 && n.3 == 5 {
      FirstMatchAt(Family(0xF), n, 8);
    } else {
      FirstMatchNone(Family(0xF), n);
    }
  }

  /** Within its family, a word decodes to the first row of that family it matches. */
  lemma FamilyDecode(n: Quad)
    ensures DecodeDigits(n) == FirstMatch(Family(n.0), n)
  {
    if n.0 == 0 {
      Family0Decode(n);
    } else if n.0 == 8 {
      Family8Decode(n);
    } else if n.0 == 0xE {
      FamilyEDecode(n);
    } else if n.0 == 0xF {
      FamilyFDecode(n);
    } else if (n.0 == 5 || n.0 == 9) && n.3 != 0 {
      FirstMatchNone(Family(n.0), n);
    } else {
      FirstMatchAt(Family(n.0), n, 0);
    }
  }

  /** `decode` returns the label of the first row of the whole table that the word matches, and panics when none does. */
  lemma DecodeIsFirstMatch(op: Word)
    ensures Decode(op) == FirstMatch(DecodeTable(), Nibbles(op))
  {
    FamilyDecode(Nibbles(op));
    TableUpToMatch(16, Nibbles(op));
  }

  // ------------------------------------------------ decode, by example

  /** Address-operand families decode by their first digit alone, whatever the address. */
  lemma DecodeAddressFamilies(nnn: int)
    requires 0 <= nnn < 0x1000
    ensures Decode(0x1000 + nnn) == Ok("1nnn")
    ensures Decode(0x3000 + nnn) == Ok("3nnn")
    ensures Decode(0xA000 + nnn) == Ok("Annn")
  {
  }

  /** Register-operand arms ignore the register digits. */
  lemma DecodeRegisterFamilies(x: Nibble, y: Nibble)
    ensures Decode(0x8004 + x * 0x100 + y * 0x10) == Ok("8xy4")
    ensures Decode(0xE09E + x * 0x100) == Ok("Ex93")
  {
    assert Nibbles(0x8004 + x * 0x100 + y * 0x10) == (8, x, y, 4);
    assert Nibbles(0xE09E + x * 0x100) == (0xE, x, 9, 0xE);
  }

  lemma DecodeKnownWords()
    ensures Decode(0x0000) == Ok("0000")
    ensures Decode(0x00E0) == Ok("00E0")
    ensures Decode(0x00EE) == Ok("00E0")
    ensures Decode(0x800E) == Ok("8xyE")
    ensures Decode(0x0123) == Panic(DECODE_PANIC)
  {
  }

  /** Words no arm accepts reach the decode panic. */
  lemma DecodeRejects(x: Nibble, y: Nibble)
    ensures Decode(0x5001 + x * 0x100 + y * 0x10) == Panic(DECODE_PANIC)
    ensures Decode(0x800F + x * 0x100 + y * 0x10) == Panic(DECODE_PANIC)
    ensures Decode(0xE09F + x * 0x100) == Panic(DECODE_PANIC)
  {
  }

  /** The 8xyE arm accepts only x = y = 0. */
  lemma EightXyEOnlyAtZero(x: Nibble, y: Nibble)
    ensures Decode(0x800E + x * 0x100 + y * 0x10).Ok? <==> x == 0 && y == 0
  {
  }

  /** No word decodes to "00EE", so the RET arm of `execute` is unreachable from `cycle`. */
  lemma DecodeNeverReturns(op: Word)
    ensures Decode(op) != Ok("00EE")
  {
  }

  /** Exactly 0x0000 decodes to NOP, and exactly 0x00E0 and 0x00EE decode to CLS. */
  lemma DecodeNopAndCls(op: Word)
    ensures Decode(op) == Ok("0000") <==> op == 0x0000
    ensures Decode(op) == Ok("00E0") <==> op == 0x00E0 || op == 0x00EE
  {
  }

  // -------------------------------------------------------------- execute

  /** A machine after one step, and whether the step completed or halted in `panic`. */
  datatype Step = Step(machine: Machine, outcome: Result<()>)

  /** `execute(opcode, op)`: NOP, CLS and RET run; every other label halts. */
  function ExecuteStep(m: Machine, opcode: string): (r: Step)
    requires WellFormed(m)
    ensures WellFormed(r.machine)
  {
    if opcode == "0000" then Step(m, Ok(()))
    else if opcode == "00E0" then Step(m.(screen := BlankScreen()), Ok(()))
    else if opcode == "00EE" then
      if m.sp <= 0 then Step(m, Panic(POP_PANIC))
      else var (addr, m1) := Popped(m); Step(m1.(pc := addr), Ok(()))
    else Step(m, Panic(EXECUTE_PANIC))
  }

  lemma ExecuteCases(m: Machine, opcode: string)
    requires WellFormed(m)
    ensures opcode == "0000" ==> ExecuteStep(m, opcode) == Step(m, Ok(()))
    ensures opcode == "00E0" ==>
      && ExecuteStep(m, opcode).outcome == Ok(())
      && (forall i :: 0 <= i < SCREEN_SIZE ==> !ExecuteStep(m, opcode).machine.screen[i])
      && ExecuteStep(m, opcode).machine.(screen := m.screen) == m
    ensures opcode == "00EE" && m.sp == 0 ==> ExecuteStep(m, opcode) == Step(m, Panic(POP_PANIC))
    ensures opcode == "00EE" && m.sp > 0 ==>
      ExecuteStep(m, opcode) == Step(m.(pc := m.stack[m.sp - 1], sp := m.sp - 1), Ok(()))
    ensures opcode != "0000" && opcode != "00E0" && opcode != "00EE" ==>
      ExecuteStep(m, opcode) == Step(m, Panic(EXECUTE_PANIC))
  {
  }

  /** A return executed right after pushing `addr` jumps to `addr` and leaves `sp` where it was before the push. */
  lemma ReturnAfterPush(m: Machine, addr: Word)
    requires WellFormed(m) && m.sp < STACK_SIZE
    ensures ExecuteStep(Pushed(m, addr), "00EE") == Step(m.(pc := addr, stack := m.stack[m.sp := addr]), Ok(()))
  {
  }

  // ---------------------------------------------------------------- cycle

  /** `cycle`: fetch, then decode, then execute; a decode panic halts after pc has already advanced. */
  function CycleStep(m: Machine): (r: Step)
    requires WellFormed(m) && m.pc + 1 < RAM_SIZE
    ensures WellFormed(r.machine)
  {
    var m1 := AfterFetch(m);
    match Decode(WordAt(m.ram, m.pc))
    case Panic(info) => Step(m1, Panic(info))
    case Ok(opcode) => ExecuteStep(m1, opcode)
  }

  /**
   * What one cycle does: it completes exactly for the words 0x0000, 0x00E0
   * and 0x00EE, advancing pc by 2 and, for the last two, blanking the
   * screen; it never touches the call stack; any other word halts with pc
   * advanced and nothing else changed.
   */
  lemma CycleOutcome(m: Machine)
    requires WellFormed(m) && m.pc + 1 < RAM_SIZE
    ensures var op := WordAt(m.ram, m.pc);
      CycleStep(m).outcome.Ok? <==> op == 0x0000 || op == 0x00E0 || op == 0x00EE
    ensures WordAt(m.ram, m.pc) == 0x0000 ==> CycleStep(m).machine == AfterFetch(m)
    ensures var op := WordAt(m.ram, m.pc);
      op == 0x00E0 || op == 0x00EE ==> CycleStep(m).machine == AfterFetch(m).(screen := BlankScreen())
    ensures CycleStep(m).outcome.Panic? ==> CycleStep(m).machine == AfterFetch(m)
    ensures CycleStep(m).outcome.Panic? ==>
      CycleStep(m).outcome.info == if Decode(WordAt(m.ram, m.pc)).Panic? then DECODE_PANIC else EXECUTE_PANIC
    ensures CycleStep(m).machine.sp == m.sp && CycleStep(m).machine.stack == m.stack
  {
    var op := WordAt(m.ram, m.pc);
    DecodeNopAndCls(op);
    DecodeNeverReturns(op);
  }

  // ---------------------------------------------------------- the struct

  class Emulator {
    var pc: Word
    var sp: Word
    const ram: array<Byte>
    const v: array<Byte>
    const screen: array<bool>
    var index: Word
    const stack: array<Word>
    const keys: array<bool>
    var dt: Byte
    var st: Byte

    /** The fixed array sizes of the struct, and a stack pointer within the stack. */
    ghost predicate Valid()
      reads this
    {
      && ram.Length == RAM_SIZE && v.Length == NUM_V_REG && screen.Length == SCREEN_SIZE
      && stack.Length == STACK_SIZE && keys.Length == NUM_KEYS
      && ram != v && screen != keys
      && sp <= STACK_SIZE
    }

    /** The struct's current value. */
    ghost function Snap(): (m: Machine)
      reads this, ram, v, screen, stack, keys
      requires Valid()
      ensures WellFormed(m)
    {
      Machine(pc, sp, ram[..], v[..], screen[..], index, stack[..], keys[..], dt, st)
    }

    /** `new`: everything zeroed, the font copied into the bottom of memory, pc at 0x200. */
    constructor ()
      ensures Valid() && Snap() == Initial()
      ensures fresh(ram) && fresh(v) && fresh(screen) && fresh(stack) && fresh(keys)
    {
      pc := PROGRAM_START_ADDR;
      ram := new Byte[RAM_SIZE](_ => 0);
      stack := new Word[STACK_SIZE](_ => 0);
      v := new Byte[NUM_V_REG](_ => 0);
      keys := new bool[NUM_KEYS](_ => false);
      screen := new bool[SCREEN_SIZE](_ => false);
      index := 0;
      sp := 0;
      dt := 0;
      st := 0;
      new;
      forall i | 0 <= i < FONTSET_SIZE {
        ram[i] := FONTSET[i];
      }
      assert ram[..] == Initial().ram;
      assert screen[..] == BlankScreen();
    }

    /** `reset`: back to the state `new` builds, in place, whatever was loaded before. */
    method Reset()
      requires Valid()
      modifies this, ram, v, screen, stack, keys
      ensures Valid() && Snap() == Initial()
    {
      pc := PROGRAM_START_ADDR;
      forall i | 0 <= i < ram.Length {
        ram[i] := 0;
      }
      forall i | 0 <= i < stack.Length {
        stack[i] := 0;
      }
      forall i | 0 <= i < screen.Length {
        screen[i] := false;
      }
      forall i | 0 <= i < v.Length {
        v[i] := 0;
      }
      index := 0;
      sp := 0;
      dt := 0;
      st := 0;
      forall i | 0 <= i < keys.Length {
        keys[i] := false;
      }
      forall i | 0 <= i < FONTSET_SIZE {
        ram[i] := FONTSET[i];
      }
      assert ram[..] == Initial().ram;
      assert screen[..] == BlankScreen();
    }

    /** `fetch`: the big-endian word at pc, and pc advanced past it. */
    method Fetch() returns (op: Word)
      requires Valid() && pc + 1 < RAM_SIZE
      modifies this
      ensures Valid()
      ensures op == WordAt(old(Snap()).ram, old(pc))
      ensures Snap() == AfterFetch(old(Snap()))
    {
      var hi := ram[pc];
      var lo := ram[pc + 1];
      op := hi as int * 256 + lo;
      pc := pc + 2;
    }

    /** `execute`: runs NOP, CLS or RET; any other label halts. */
    method Execute(opcode: string, op: Word) returns (r: Result<()>)
      requires Valid()
      modifies this, screen
      ensures Valid()
      ensures Step(Snap(), r) == ExecuteStep(old(Snap()), opcode)
    {
      if opcode == "0000" {
        r := Ok(());
      } else if opcode == "00E0" {
        forall i | 0 <= i < screen.Length {
          screen[i] := false;
        }
        assert screen[..] == BlankScreen();
        r := Ok(());
      } else if opcode == "00EE" {
        var addr := Pop();
        match addr
        case Panic(info) =>
          r := Panic(info);
        case Ok(a) =>
          pc := a;
          r := Ok(());
      } else {
        r := Panic(EXECUTE_PANIC);
      }
    }

    /** `cycle`: one fetch, decode and execute. */
    method Cycle() returns (r: Result<()>)
      requires Valid() && pc + 1 < RAM_SIZE
      modifies this, screen
      ensures Valid()
      ensures Step(Snap(), r) == CycleStep(old(Snap()))
    {
      var op := Fetch();
      var opcode := Decode(op);
      match opcode
      case Panic(info) =>
        r := Panic(info);
      case Ok(mnemonic) =>
        r := Execute(mnemonic, op);
    }

    /** `increment_timers`: each positive timer counts down by one. */
    method IncrementTimers()
      requires Valid()
      modifies this
      ensures Valid()
      ensures Snap() == TickTimers(old(Snap()))
    {
      if dt > 0 {
        dt := dt - 1;
      }
      if st > 0 {
        st := st - 1;
      }
    }

    /** `push`: halts when the stack is full, otherwise puts `value` on top. */
    method Push(value: Word) returns (r: Result<()>)
      requires Valid()
      modifies this, stack
      ensures Valid()
      ensures r == if old(sp) >= STACK_SIZE then Panic(PUSH_PANIC) else Ok(())
      ensures Snap() == if old(sp) >= STACK_SIZE then old(Snap()) else Pushed(old(Snap()), value)
    {
      if sp >= STACK_SIZE {
        return Panic(PUSH_PANIC);
      }
      stack[sp] := value;
      sp := sp + 1;
      r := Ok(());
    }

    /** `pop`: halts when the stack is empty, otherwise takes the top entry off. */
    method Pop() returns (r: Result<Word>)
      requires Valid()
      modifies this
      ensures Valid()
      ensures old(sp) == 0 ==> r == Panic(POP_PANIC) && Snap() == old(Snap())
      ensures old(sp) > 0 ==> r == Ok(Popped(old(Snap())).0) && Snap() == Popped(old(Snap())).1
    {
      if sp <= 0 {
        return Panic(POP_PANIC);
      }
      sp := sp - 1;
      r := Ok(stack[sp]);
    }
  }
}

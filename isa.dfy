/**
 * The instruction vocabulary shared by the code generator and the execution
 * engine: 32-bit words, the twelve opcodes with their lower-case mnemonics and
 * operand counts, operands (resolved integers or, before linking, symbolic
 * variable and label references), memory cells, and the conversion of the
 * decoded JSON image into cells.
 */
module Isa {

  // ---------------------------------------------------------------------------
  // 32-bit two's-complement words
  // ---------------------------------------------------------------------------

  const WORD_MODULUS: int := 0x1_0000_0000
  const WORD_MIN: int := -0x8000_0000
  const WORD_MAX: int := 0x7FFF_FFFF

  newtype int32 = x: int | -0x8000_0000 <= x < 0x8000_0000

  /** The int32 that an unbounded integer becomes under wrap-around. */
  function Wrap(x: int): (r: int32)
    ensures (x - r as int) % WORD_MODULUS == 0
    ensures WORD_MIN <= x <= WORD_MAX ==> r as int == x
  {
    ((x - WORD_MIN) % WORD_MODULUS + WORD_MIN) as int32
  }

  /** Wrap-around forgets multiples of 2^32: congruent integers wrap alike. */
  lemma {:induction false} WrapCongruent(a: int, b: int)
    requires (a - b) % WORD_MODULUS == 0
    ensures Wrap(a) == Wrap(b)
  {
    var k := (a - b) / WORD_MODULUS;
    assert a - WORD_MIN == (b - WORD_MIN) + k * WORD_MODULUS;
    ModAddMultiple(b - WORD_MIN, k);
  }

  lemma {:induction false} ModAddMultiple(u: int, k: int)
    ensures (u + k * WORD_MODULUS) % WORD_MODULUS == u % WORD_MODULUS
    decreases if k < 0 then -k else k
  {
    if k > 0 {
      ModAddMultiple(u, k - 1);
      assert u + k * WORD_MODULUS == (u + (k - 1) * WORD_MODULUS) + WORD_MODULUS;
    } else if k < 0 {
      ModAddMultiple(u, k + 1);
      assert u + k * WORD_MODULUS == (u + (k + 1) * WORD_MODULUS) - WORD_MODULUS;
    }
  }

  /** Adding a wrapped operand and wrapping again is one wrapped addition. */
  lemma WrapSumOfWrap(a: int, b: int)
    ensures Wrap(a + Wrap(b) as int) == Wrap(a + b)
  {
    WrapCongruent(a + Wrap(b) as int, a + b);
  }

  /** Bitwise complement of an int32 (numpy's `~`). */
  function Not32(x: int32): (r: int32)
    ensures r as int + x as int == -1
  {
    (-1 - x as int) as int32
  }

  /**
   * numpy's `%` on int32: the remainder takes the sign of the divisor (floor
   * division), and a zero divisor yields 0.
   */
  function FloorMod(x: int32, y: int32): (r: int32)
    ensures y == 0 ==> r == 0
    ensures y > 0 ==> 0 <= r < y
    ensures y < 0 ==> y < r <= 0
    ensures y > 0 ==> r as int == x as int % y as int
  {
    if y == 0 then 0
    else
      var e := (x as int) % (y as int);
      if y > 0 || e == 0 then e as int32 else (e + y as int) as int32
  }

  // ---------------------------------------------------------------------------
  // Opcodes
  // ---------------------------------------------------------------------------

  datatype Opcode = Add | Sub | Mod | Inc | Dec | Ld | St | Mv | Be | Bne | Jmp | Hlt

  /** The lower-case mnemonic that the program image stores for an opcode. */
  function Name(op: Opcode): (s: string)
    ensures 2 <= |s| <= 3
    ensures forall i :: 0 <= i < |s| ==> 'a' <= s[i] <= 'z'
  {
    match op
    case Add => "add"
    case Sub => "sub"
    case Mod => "mod"
    case Inc => "inc"
    case Dec => "dec"
    case Ld => "ld"
    case St => "st"
    case Mv => "mv"
    case Be => "be"
    case Bne => "bne"
    case Jmp => "jmp"
    case Hlt => "hlt"
  }

  /** `Opcode(name)`: the opcode whose mnemonic is `s`, if any. */
  function FromName(s: string): (r: Option<Opcode>)
    ensures r.Some? ==> Name(r.value) == s
  {
    if s == "add" then Some(Add)
    else if s == "sub" then Some(Sub)
    else if s == "mod" then Some(Mod)
    else if s == "inc" then Some(Inc)
    else if s == "dec" then Some(Dec)
    else if s == "ld" then Some(Ld)
    else if s == "st" then Some(St)
    else if s == "mv" then Some(Mv)
    else if s == "be" then Some(Be)
    else if s == "bne" then Some(Bne)
    else if s == "jmp" then Some(Jmp)
    else if s == "hlt" then Some(Hlt)
    else None
  }

  /** The documented operand count of each opcode. */
  function Arity(op: Opcode): (n: nat)
    ensures n <= 3
    ensures n == 0 <==> op == Hlt
  {
    match op
    case Add | Sub | Mod => 3
    case Inc | Dec | Ld | St | Mv => 2
    case Be | Bne | Jmp => 1
    case Hlt => 0
  }

  /** True of the opcodes whose single operand is a branch target. */
  predicate IsBranch(op: Opcode)
  {
    op == Be || op == Bne || op == Jmp
  }

  const AllOpcodes: set<Opcode> := {Add, Sub, Mod, Inc, Dec, Ld, St, Mv, Be, Bne, Jmp, Hlt}

  /** There are exactly twelve opcodes and no two share a mnemonic. */
  lemma TwelveDistinctOpcodes()
    ensures forall op: Opcode :: op in AllOpcodes
    ensures |AllOpcodes| == 12
    ensures forall a: Opcode, b: Opcode :: Name(a) == Name(b) ==> a == b
  {
    forall op: Opcode ensures op in AllOpcodes {
      match op
      case Add => case Sub => case Mod => case Inc => case Dec => case Ld =>
      case St => case Mv => case Be => case Bne => case Jmp => case Hlt =>
    }
  }

  /** Every opcode's mnemonic decodes back to it. */
  lemma {:induction false} FromNameOfName(op: Opcode)
    ensures FromName(Name(op)) == Some(op)
  {
    match op
    case Add => case Sub => case Mod => case Inc => case Dec => case Ld =>
    case St => case Mv => case Be => case Bne => case Jmp => case Hlt =>
  }

  /** Mapping an opcode to its name and back returns the opcode; a name maps
      to an opcode only if it is that opcode's mnemonic. */
  lemma {:induction false} NameRoundTrip(op: Opcode, s: string)
    ensures FromName(Name(op)) == Some(op)
    ensures FromName(s) == Some(op) ==> Name(op) == s
    ensures FromName(s).None? <==> forall o: Opcode :: Name(o) != s
  {
    FromNameOfName(op);
    if FromName(s).None? {
      forall o: Opcode ensures Name(o) != s {
        FromNameOfName(o);
      }
    } else {
      var o := FromName(s).value;
      assert Name(o) == s;
    }
  }

  // ---------------------------------------------------------------------------
  // Operands and cells
  // ---------------------------------------------------------------------------

  /**
   * A key of the generator's variable table: a program identifier, or the
   * synthetic variable that backs an integer literal. The Python table keys
   * both by a string, a literal by its decimal text; identifiers start with a
   * letter or `_`, so the two key spaces never meet.
   */
  datatype Key = Ident(name: string) | Literal(value: int)

  /** An instruction operand: a resolved integer (a register index or an
      absolute address), or a symbolic variable or label reference. */
  datatype Operand = Int(v: int) | Var(key: Key) | Label(index: nat)

  /** One addressable unit of memory. */
  datatype Cell = Data(value: int32) | Instr(opcode: Opcode, args: seq<Operand>)

  /** True when no operand of the cell is symbolic. */
  predicate Resolved(c: Cell)
  {
    c.Instr? ==> forall i :: 0 <= i < |c.args| ==> c.args[i].Int?
  }

  /** A cell of the image as JSON decoding leaves it: a bare integer, or an
      object holding an opcode name and an operand list. */
  datatype JsonCell = JsonInt(n: int) | JsonObject(opcode: string, args: seq<Operand>)

  // ---------------------------------------------------------------------------
  // Errors
  // ---------------------------------------------------------------------------

  datatype Error =
    | UnknownOpcode(name: string)    // a name that is not a mnemonic
    | BadInstruction                 // a data cell fetched as an instruction, or a wrong operand count
    | NoSuchRegister(index: int)     // a register index of 5 or more
    | InvalidAddress(address: int)   // a load or store outside [0, memory_size)
    | IndexOutOfRange(index: int)    // a list index outside the list
    | NotANumber                     // arithmetic or comparison on a symbolic operand or an instruction cell
    | TooLongExecution               // the instruction limit was reached before HLT
    | InvalidMemorySize              // a memory size that is not positive
    | UndeclaredVariable(key: Key)   // a variable read or resolved before it is declared
    | NoRegisterForm                 // an integer literal lowered as a register expression

  datatype Option<+T> = None | Some(value: T)

  datatype Result<+T> = Ok(value: T) | Err(error: Error) {
    predicate IsFailure() { Err? }

    function PropagateFailure<U>(): Result<U>
      requires Err?
    {
      Err(error)
    }

    function Extract(): T
      requires Ok?
    {
      value
    }

    /** The same outcome with the value dropped. */
    function Void(): Result<()>
    {
      match this
      case Ok(_) => Ok(())
      case Err(e) => Err(e)
    }
  }

  /**
   * Python list indexing: an index in [0, len) selects that element, an index
   * in [-len, 0) counts from the end, anything else raises IndexError.
   */
  function ListIndex(len: nat, i: int): (r: Result<nat>)
    ensures r.Ok? <==> -(len as int) <= i < len
    ensures r.Ok? ==> r.value < len && (r.value - i) % len == 0
    ensures r.Ok? && 0 <= i ==> r.value == i
  {
    if 0 <= i < len then Ok(i)
    else if -(len as int) <= i < 0 then Ok(len + i)
    else Err(IndexOutOfRange(i))
  }

  // ---------------------------------------------------------------------------
  // Loading a decoded image
  // ---------------------------------------------------------------------------

  /** One step of the loader: an integer becomes an int32 data cell, an object
      keeps its operands and has its opcode name decoded. */
  function ConvertCell(c: JsonCell): (r: Result<Cell>)
    ensures c.JsonInt? ==> r == Ok(Data(Wrap(c.n)))
    ensures c.JsonObject? ==> (r.Ok? <==> FromName(c.opcode).Some?)
    ensures c.JsonObject? && r.Ok? ==>
      r.value.Instr? && Name(r.value.opcode) == c.opcode && r.value.args == c.args
  {
    match c
    case JsonInt(n) => Ok(Data(Wrap(n)))
    case JsonObject(name, args) =>
      match FromName(name)
      case None => Err(UnknownOpcode(name))
      case Some(op) => NameRoundTrip(op, name); Ok(Instr(op, args))
  }

  /** The JSON view of a cell that the image writer produces. */
  function EncodeCell(c: Cell): (r: JsonCell)
    ensures r.JsonInt? <==> c.Data?
    ensures c.Data? ==> Wrap(r.n) == c.value
    ensures c.Instr? ==> FromName(r.opcode) == Some(c.opcode) && r.args == c.args
  {
    match c
    case Data(v) => JsonInt(v as int)
    case Instr(op, args) => FromNameOfName(op); JsonObject(Name(op), args)
  }

  /** Writing a cell and reading it back gives the same cell. */
  lemma {:induction false} CellRoundTrip(c: Cell)
    ensures ConvertCell(EncodeCell(c)) == Ok(c)
  {
    match c
    case Data(v) =>
    case Instr(op, args) => NameRoundTrip(op, Name(op));
  }

  /**
   * The conversion loop of the loader: every cell is converted in order; the
   * first unknown opcode name aborts the load.
   */
  method ReadCode(code: seq<JsonCell>) returns (r: Result<seq<Cell>>)
    ensures r.Ok? <==> forall i :: 0 <= i < |code| ==> ConvertCell(code[i]).Ok?
    ensures r.Ok? ==> |r.value| == |code|
    ensures r.Ok? ==> forall i :: 0 <= i < |code| ==> r.value[i] == ConvertCell(code[i]).value
    ensures r.Err? ==> exists i :: (0 <= i < |code|
      && (forall j :: 0 <= j < i ==> ConvertCell(code[j]).Ok?)
      && ConvertCell(code[i]) == Err(r.error))
  {
    var cells: seq<Cell> := [];
    var i := 0;
    while i < |code|
      invariant 0 <= i <= |code|
      invariant |cells| == i
      invariant forall j :: 0 <= j < i ==> ConvertCell(code[j]) == Ok(cells[j])
    {
      match code[i] {
        case JsonInt(n) =>
          cells := cells + [Data(Wrap(n))];
        case JsonObject(name, args) =>
          var op := FromName(name);
          if op.None? {
            return Err(UnknownOpcode(name));
          }
          cells := cells + [Instr(op.value, args)];
      }
      i := i + 1;
    }
    return Ok(cells);
  }

  /** Loading the image the writer produced gives back the written cells. */
  method ReadWrittenCode(cells: seq<Cell>) returns (r: Result<seq<Cell>>)
    ensures r == Ok(cells)
  {
    var json := seq(|cells|, i requires 0 <= i < |cells| => EncodeCell(cells[i]));
    forall i | 0 <= i < |cells| ensures ConvertCell(json[i]) == Ok(cells[i]) {
      CellRoundTrip(cells[i]);
    }
    r := ReadCode(json);
    assert r.value == cells;
  }
}

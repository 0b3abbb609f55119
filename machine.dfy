/**
 * The microstep model of the processor: a data path (register file, two
 * buses, a bus-1 multiplexer, an ALU with input transforms, a zero flag and
 * the memory it shares with its caller) driven signal by signal by a control
 * unit that counts clock ticks. Every control-unit operation is proved to
 * have exactly the effect the instruction-level semantics in MachineSpec
 * gives it, and `Simulation` is proved to return what `Simulate` defines.
 */
module Machine {
  import opened Isa
  import opened MachineSpec

  // ---------------------------------------------------------------------------
  // The ALU as a function of its inputs and control lines
  // ---------------------------------------------------------------------------

  /** The four input-transform control lines of the ALU. */
  datatype Transform = Transform(inverseIn1: bool, inverseIn2: bool, incIn1: bool, incIn2: bool)

  /** `pass_alu_in`: both inputs unchanged. */
  const PassThrough := Transform(false, false, false, false)
  /** `inc_alu_in1`: input 1 incremented. */
  const IncrementIn1 := Transform(false, false, true, false)
  /** `negate_alu_in2`: input 2 complemented then incremented, i.e. negated. */
  const NegateIn2 := Transform(false, true, false, true)
  /** `dec_alu_in1`: input 2 complemented (the zero bus becomes −1). */
  const DecrementIn1 := Transform(false, true, false, false)

  /**
   * What the ALU outputs: each input is complemented, then incremented, as
   * its control lines say (wrapping at 32 bits), and the two are then added
   * or, with the mod line set, reduced by numpy's floor modulo. An
   * instruction cell on either input is a type error.
   */
  function Alu(in1: Cell, in2: Cell, t: Transform, mod: bool): (r: Result<int32>)
    ensures r.Ok? <==> in1.Data? && in2.Data?
    ensures r.Ok? && mod && !t.inverseIn2 && !t.incIn2 && in2.value > 0 ==> 0 <= r.value < in2.value
  {
    if !in1.Data? || !in2.Data? then Err(NotANumber)
    else
      var a := if t.inverseIn1 then Not32(in1.value) else in1.value;
      var b := if t.inverseIn2 then Not32(in2.value) else in2.value;
      var a' := if t.incIn1 then Wrap(a as int + 1) else a;
      var b' := if t.incIn2 then Wrap(b as int + 1) else b;
      Ok(if mod then FloorMod(a', b') else Wrap(a' as int + b' as int))
  }

  /** Pass+add is ADD and pass+mod is MOD. */
  lemma AluAddsAndReduces(x: int32, y: int32)
    ensures Alu(Data(x), Data(y), PassThrough, false) == Ok(Arith(Add, x, y))
    ensures Alu(Data(x), Data(y), PassThrough, true) == Ok(Arith(Mod, x, y))
  {
  }

  /** Negate+add is SUB: adding the two's-complement negation of the second
      input subtracts it, also when it is the most negative word. */
  lemma {:induction false} AluSubtracts(x: int32, y: int32)
    ensures Alu(Data(x), Data(y), NegateIn2, false) == Ok(Arith(Sub, x, y))
  {
    var b := Wrap(Not32(y) as int + 1);
    assert b == Wrap(-(y as int));
    WrapSumOfWrap(x as int, -(y as int));
  }

  /** With 0 on bus 2, increment+add is INC, the decrement setting is DEC and
      pass+add is MV. */
  lemma AluIncrementsAndDecrements(x: int32)
    ensures Alu(Data(x), Data(0), IncrementIn1, false) == Ok(Arith(Inc, x, 0))
    ensures Alu(Data(x), Data(0), DecrementIn1, false) == Ok(Arith(Dec, x, 0))
    ensures Alu(Data(x), Data(0), PassThrough, false) == Ok(Arith(Mv, x, 0))
  {
  }

  /** The ALU setting (input transform, mod line) that each arithmetic
      instruction's microprogram selects. */
  function AluSetting(op: Opcode): (Transform, bool)
  {
    match op
    case Sub => (NegateIn2, false)
    case Mod => (PassThrough, true)
    case Inc => (IncrementIn1, false)
    case Dec => (DecrementIn1, false)
    case _ => (PassThrough, false)
  }

  /** Under its instruction's setting the ALU computes the instruction's
      value (for INC, DEC and MV with 0 on bus 2). */
  lemma AluImplementsArith(op: Opcode, in1: Cell, in2: Cell, t: Transform, mod: bool)
    requires op in {Add, Sub, Mod, Inc, Dec, Mv} && (t, mod) == AluSetting(op)
    requires in1.Data? && in2.Data? && (op in {Inc, Dec, Mv} ==> in2.value == 0)
    ensures Alu(in1, in2, t, mod) == Ok(Arith(op, in1.value, in2.value))
  {
    AluAddsAndReduces(in1.value, in2.value);
    AluSubtracts(in1.value, in2.value);
    AluIncrementsAndDecrements(in1.value);
  }

  /** The fetch setting of the ALU adds one to the program counter. */
  lemma AluIncrementsPC(in1: Cell, in2: Cell, t: Transform, mod: bool)
    requires in1.Data? && in2 == Data(0) && t == IncrementIn1 && !mod
    ensures Alu(in1, in2, t, mod) == Ok(Wrap(in1.value as int + 1))
  {
  }

  /** With 0 on bus 2, pass+add puts bus 1's value out unchanged. */
  lemma AluPassesAddress(a: int32)
    ensures Alu(Data(a), Data(0), PassThrough, false) == Ok(a)
  {
  }

  // ---------------------------------------------------------------------------
  // The data path
  // ---------------------------------------------------------------------------

  class DataPath {
    const memorySize: int
    /** The caller's program image, written through by stores. */
    const memory: array<Cell>
    var registers: Registers
    var bus1: Cell
    var bus2: Cell
    var bus1Mux: Cell
    /** The ALU latch; after a memory read it holds the cell read. */
    var alu: Cell
    var zeroFlag: bool
    var inverseAluIn1: bool
    var inverseAluIn2: bool
    var incAluIn1: bool
    var incAluIn2: bool
    var addOrMod: bool

    ghost predicate Valid()
    {
      memorySize > 0
    }

    /** The part of the data path that instructions define: registers,
        memory and the zero flag. */
    function Snapshot(): (s: MachineSpec.State)
      reads this`registers, this`zeroFlag, memory
      ensures s.regs == registers && s.mem == memory[..] && s.zero == zeroFlag
    {
      MachineSpec.State(registers, memory[..], memorySize, zeroFlag)
    }

    /** The current input transform of the ALU. */
    function Controls(): Transform
      reads this`inverseAluIn1, this`inverseAluIn2, this`incAluIn1, this`incAluIn2
    {
      Transform(inverseAluIn1, inverseAluIn2, incAluIn1, incAluIn2)
    }

    /** A data path over the caller's memory: registers and buses 0, every
        control line and the flag clear. */
    constructor (memory: array<Cell>, memorySize: int)
      requires memorySize > 0
      ensures Valid() && this.memory == memory
      ensures Snapshot() == Initial(memory[..], memorySize)
    {
      this.memorySize := memorySize;
      this.memory := memory;
      registers := seq(REGISTER_COUNT, _ => Data(0));
      bus1, bus2, bus1Mux, alu := Data(0), Data(0), Data(0), Data(0);
      zeroFlag := false;
      inverseAluIn1, inverseAluIn2, incAluIn1, incAluIn2, addOrMod := false, false, false, false, false;
    }

    /** `select_registers`: both indices are checked first; index −1 puts 0 on
        its bus. */
    method SelectRegisters(o1: Operand, o2: Operand) returns (r: Result<()>)
      requires Valid()
      modifies this`bus1, this`bus2
      ensures var sel := MachineSpec.SelectRegisters(registers, o1, o2);
        r == sel.Void() && (sel.Ok? ==> bus1 == sel.value.0 && bus2 == sel.value.1)
    {
      var reg1 :- CheckRegister(o1);
      var reg2 :- CheckRegister(o2);
      bus1, bus2 := Data(0), Data(0);
      if reg1 != -1 {
        var i :- ListIndex(|registers|, reg1);
        bus1 := registers[i];
      }
      if reg2 != -1 {
        var i :- ListIndex(|registers|, reg2);
        bus2 := registers[i];
      }
      return Ok(());
    }

    /** `latch_register`: the ALU latch is written to the register. */
    method LatchRegister(o: Operand) returns (r: Result<()>)
      requires Valid()
      modifies this`registers
      ensures var l := Latch(old(registers), o, alu);
        r == l.Void() && registers == if l.Ok? then l.value else old(registers)
    {
      var reg :- CheckRegister(o);
      var i :- ListIndex(|registers|, reg);
      var value := alu;
      registers := registers[i := value];
      return Ok(());
    }

    /** `get_instruction`: the memory cell that R4 addresses. */
    method GetInstruction() returns (r: Result<Cell>)
      requires Valid()
      ensures r.Ok? <==> registers[PC].Data? && -memory.Length <= registers[PC].value as int < memory.Length
      ensures r.Ok? ==> r.value == memory[ListIndex(memory.Length, registers[PC].value as int).value]
      ensures r.Err? ==> r.error == if registers[PC].Data? then IndexOutOfRange(registers[PC].value as int) else NotANumber
      ensures r.Ok? && registers[PC].value >= 0 ==> r.value == memory[registers[PC].value]
    {
      var pc :- AsWord(registers[PC]);
      var i :- ListIndex(memory.Length, pc as int);
      return Ok(memory[i]);
    }

    method Bus1MuxSignalBus()
      modifies this`bus1Mux
      ensures bus1Mux == bus1
    {
      bus1Mux := bus1;
    }

    /** `bus1_mux_signal_instr(np.int32(arg))`: an instruction operand, as a
        32-bit word, on the bus-1 multiplexer. */
    method Bus1MuxSignalInstr(o: Operand) returns (r: Result<()>)
      modifies this`bus1Mux
      ensures r == AsInt(o).Void()
      ensures r.Ok? ==> bus1Mux == Data(Wrap(o.v))
    {
      var v :- AsInt(o);
      bus1Mux := Data(Wrap(v));
      return Ok(());
    }

    /** `execute_alu(save_flag)`: the ALU latch receives the ALU output; the
        flag records whether it is 0 unless `saveFlag` keeps it. */
    method ExecuteAlu(saveFlag: bool) returns (r: Result<()>)
      modifies this`alu, this`zeroFlag
      ensures var v := old(Alu(bus1Mux, bus2, Controls(), addOrMod));
        && r == v.Void()
        && (v.Ok? ==> alu == Data(v.value))
        && (v.Ok? ==> zeroFlag == if saveFlag then old(zeroFlag) else v.value == 0)
    {
      var out :- Alu(bus1Mux, bus2, Controls(), addOrMod);
      alu := Data(out);
      if !saveFlag {
        zeroFlag := out == 0;
      }
      return Ok(());
    }

    method IncAluIn1()
      modifies this`inverseAluIn1, this`inverseAluIn2, this`incAluIn1, this`incAluIn2
      ensures Controls() == IncrementIn1
    {
      incAluIn1, incAluIn2, inverseAluIn1, inverseAluIn2 := true, false, false, false;
    }

    method NegateAluIn2()
      modifies this`inverseAluIn1, this`inverseAluIn2, this`incAluIn1, this`incAluIn2
      ensures Controls() == NegateIn2
    {
      incAluIn1, incAluIn2, inverseAluIn1, inverseAluIn2 := false, true, false, true;
    }

    method DecAluIn1()
      modifies this`inverseAluIn1, this`inverseAluIn2, this`incAluIn1, this`incAluIn2
      ensures Controls() == DecrementIn1
    {
      incAluIn1, incAluIn2, inverseAluIn1, inverseAluIn2 := false, false, false, true;
    }

    method PassAluIn()
      modifies this`inverseAluIn1, this`inverseAluIn2, this`incAluIn1, this`incAluIn2
      ensures Controls() == PassThrough
    {
      incAluIn1, incAluIn2, inverseAluIn1, inverseAluIn2 := false, false, false, false;
    }

    method SelectAdd()
      modifies this`addOrMod
      ensures !addOrMod
    {
      addOrMod := false;
    }

    method SelectMod()
      modifies this`addOrMod
      ensures addOrMod
    {
      addOrMod := true;
    }

    /** `read`: the ALU latch, checked to be an address below the memory
        size, is replaced by the memory cell it addresses. */
    method Read() returns (r: Result<()>)
      requires Valid()
      modifies this`alu
      ensures !old(alu).Data? ==> r == Err(NotANumber)
      ensures old(alu).Data? ==> var a := old(alu).value as int;
        && (!(0 <= a < memorySize) ==> r == Err(InvalidAddress(a)))
        && (0 <= a < memorySize && a >= memory.Length ==> r == Err(IndexOutOfRange(a)))
        && (0 <= a < memorySize && a < memory.Length ==> r == Ok(()) && alu == memory[a])
    {
      var a :- AsWord(alu);
      if !(0 <= a as int < memorySize) {
        return Err(InvalidAddress(a as int));
      }
      var i :- ListIndex(memory.Length, a as int);
      alu := memory[i];
      return Ok(());
    }

    /** `wr`: bus 2 is stored at the address in the ALU latch, checked to be
        below the memory size. */
    method Wr() returns (r: Result<()>)
      requires Valid()
      modifies memory
      ensures !alu.Data? ==> r == Err(NotANumber)
      ensures alu.Data? ==> var a := alu.value as int;
        && (!(0 <= a < memorySize) ==> r == Err(InvalidAddress(a)))
        && (0 <= a < memorySize && a >= memory.Length ==> r == Err(IndexOutOfRange(a)))
        && (0 <= a < memorySize && a < memory.Length ==> r == Ok(()) && memory[..] == old(memory[..])[a := bus2])
      ensures r.Err? ==> unchanged(memory)
    {
      var a :- AsWord(alu);
      if !(0 <= a as int < memorySize) {
        return Err(InvalidAddress(a as int));
      }
      var i :- ListIndex(memory.Length, a as int);
      memory[i] := bus2;
      return Ok(());
    }
  }

  // ---------------------------------------------------------------------------
  // The control unit
  // ---------------------------------------------------------------------------

  /** What the execute phase tells the simulation loop: go on, or stop (the
      Python machine raises StopIteration on HLT). */
  datatype Signal = Continue | Stop

  class ControlUnit {
    const dataPath: DataPath
    var tick: nat

    constructor (dataPath: DataPath)
      ensures this.dataPath == dataPath && tick == 0
    {
      this.dataPath := dataPath;
      tick := 0;
    }

    method Tick()
      modifies this`tick
      ensures tick == old(tick) + 1
    {
      tick := tick + 1;
    }

    /** `fetch_instruction`: the cell at PC is returned and PC is advanced
        through the ALU with the flag kept; one tick. */
    method FetchInstruction() returns (r: Result<Cell>)
      requires dataPath.Valid()
      modifies this`tick, dataPath
      ensures var f := Fetch(old(dataPath.Snapshot()));
        && (r.Ok? <==> f.Ok?)
        && (r.Err? ==> r.error == f.error)
        && (r.Ok? ==> r.value == f.value.0 && dataPath.Snapshot() == f.value.1 && tick == old(tick) + 1)
    {
      ghost var s := dataPath.Snapshot();
      var instr :- dataPath.GetInstruction();
      var pc := dataPath.registers[PC].value;
      var _ := dataPath.SelectRegisters(Int(PC), Int(-1));
      dataPath.IncAluIn1();
      dataPath.Bus1MuxSignalBus();
      dataPath.SelectAdd();
      AluIncrementsPC(dataPath.bus1Mux, dataPath.bus2, dataPath.Controls(), dataPath.addOrMod);
      var _ := dataPath.ExecuteAlu(true);
      var _ := dataPath.LatchRegister(Int(PC));
      Tick();
      return Ok(instr);
    }

    /** The jump microprogram of JMP, and of BE and BNE when taken: the
        operand goes through the ALU into R4, setting the flag. */
    method JumpTo(target: Operand) returns (r: Result<()>)
      requires dataPath.Valid()
      modifies dataPath
      ensures var j := Jump(old(dataPath.Snapshot()), target);
        r == j.Void() && (j.Ok? ==> dataPath.Snapshot() == j.value)
    {
      var _ := dataPath.SelectRegisters(Int(-1), Int(-1));
      var _ :- dataPath.Bus1MuxSignalInstr(target);
      dataPath.PassAluIn();
      dataPath.SelectAdd();
      AluPassesAddress(Wrap(target.v));
      var _ := dataPath.ExecuteAlu(false);
      var _ := dataPath.LatchRegister(Int(PC));
      return Ok(());
    }

    /** The ALU setting calls of an arithmetic instruction's microprogram. */
    method SetAlu(op: Opcode)
      modifies dataPath`inverseAluIn1, dataPath`inverseAluIn2, dataPath`incAluIn1, dataPath`incAluIn2, dataPath`addOrMod
      ensures (dataPath.Controls(), dataPath.addOrMod) == AluSetting(op)
    {
      match op {
        case Sub =>
          dataPath.NegateAluIn2();
          dataPath.SelectAdd();
        case Mod =>
          dataPath.PassAluIn();
          dataPath.SelectMod();
        case Inc =>
          dataPath.IncAluIn1();
          dataPath.SelectAdd();
        case Dec =>
          dataPath.DecAluIn1();
          dataPath.SelectAdd();
        case _ =>
          dataPath.PassAluIn();
          dataPath.SelectAdd();
      }
    }

    /** ADD, SUB, MOD, INC, DEC and MV: the source registers on the buses
        (−1 puts 0 on bus 2), the ALU set for the operation, the result
        latched into the destination. */
    method ExecuteArithmetic(op: Opcode, o1: Operand, o2: Operand, od: Operand) returns (r: Result<()>)
      requires op in {Add, Sub, Mod, Inc, Dec, Mv} && (op in {Inc, Dec, Mv} ==> o2 == Int(-1))
      requires dataPath.Valid()
      modifies dataPath
      ensures var c := Compute(old(dataPath.Snapshot()), op, o1, o2, od);
        r == c.Void() && (c.Ok? ==> dataPath.Snapshot() == c.value)
    {
      ghost var s := dataPath.Snapshot();
      var _ :- dataPath.SelectRegisters(o1, o2);
      dataPath.Bus1MuxSignalBus();
      SetAlu(op);
      if dataPath.bus1Mux.Data? && dataPath.bus2.Data? {
        AluImplementsArith(op, dataPath.bus1Mux, dataPath.bus2, dataPath.Controls(), dataPath.addOrMod);
      }
      var _ :- dataPath.ExecuteAlu(false);
      ghost var v := Arith(op, dataPath.bus1Mux.value, dataPath.bus2.value);
      assert dataPath.alu == Data(v) && dataPath.zeroFlag == (v == 0);
      assert dataPath.registers == s.regs;
      var _ :- dataPath.LatchRegister(od);
      return Ok(());
    }

    /** LD a, rd: the address through the ALU, a memory read into the ALU
        latch, the latch into rd. */
    method ExecuteLoad(oa: Operand, od: Operand) returns (r: Result<()>)
      requires dataPath.Valid()
      modifies dataPath
      ensures var l := Load(old(dataPath.Snapshot()), oa, od);
        r == l.Void() && (l.Ok? ==> dataPath.Snapshot() == l.value)
    {
      var _ := dataPath.SelectRegisters(Int(-1), Int(-1));
      var _ :- dataPath.Bus1MuxSignalInstr(oa);
      dataPath.PassAluIn();
      dataPath.SelectAdd();
      AluPassesAddress(Wrap(oa.v));
      var _ := dataPath.ExecuteAlu(false);
      var _ :- dataPath.Read();
      var _ :- dataPath.LatchRegister(od);
      return Ok(());
    }

    /** ST r, a: the address through the ALU, register r on bus 2, bus 2
        written to memory. */
    method ExecuteStore(o: Operand, oa: Operand) returns (r: Result<()>)
      requires dataPath.Valid()
      modifies dataPath, dataPath.memory
      ensures var st := Store(old(dataPath.Snapshot()), o, oa);
        r == st.Void() && (st.Ok? ==> dataPath.Snapshot() == st.value)
    {
      var _ := dataPath.SelectRegisters(Int(-1), Int(-1));
      var _ :- dataPath.Bus1MuxSignalInstr(oa);
      dataPath.PassAluIn();
      dataPath.SelectAdd();
      AluPassesAddress(Wrap(oa.v));
      var _ := dataPath.ExecuteAlu(false);
      var _ :- dataPath.SelectRegisters(Int(-1), o);
      var _ :- dataPath.Wr();
      return Ok(());
    }

    /**
     * `decode_and_execute_instruction`: a data cell or a wrong operand count
     * is rejected, HLT stops the loop, every other instruction runs its
     * microprogram and spends its ticks (a branch 1 tick to test the flag and
     * 1 more to jump).
     */
    method DecodeAndExecuteInstruction(instr: Cell) returns (r: Result<Signal>)
      requires dataPath.Valid()
      modifies this`tick, dataPath, dataPath.memory
      ensures var e := Execute(old(dataPath.Snapshot()), instr);
        && (r.Ok? <==> e.Ok?)
        && (r.Err? ==> r.error == e.error)
        && (r.Ok? ==> (r.value == Stop <==> e.value.Halt?))
        && (r.Ok? && e.value.Next? ==> dataPath.Snapshot() == e.value.state && tick == old(tick) + e.value.ticks)
        && (r.Ok? && e.value.Halt? ==> dataPath.Snapshot() == old(dataPath.Snapshot()) && tick == old(tick))
    {
      if !instr.Instr? {
        return Err(BadInstruction);
      }
      var op, args := instr.opcode, instr.args;
      if op == Hlt {
        return Ok(Stop);
      }
      if |args| != Arity(op) {
        return Err(BadInstruction);
      }
      match op {
        case Jmp =>
          var _ :- JumpTo(args[0]);
          Tick();
        case Be =>
          Tick();
          if dataPath.zeroFlag {
            var _ :- JumpTo(args[0]);
            Tick();
          }
        case Bne =>
          Tick();
          if !dataPath.zeroFlag {
            var _ :- JumpTo(args[0]);
            Tick();
          }
        case Add | Sub | Mod =>
          var _ :- ExecuteArithmetic(op, args[0], args[1], args[2]);
          Tick();
        case Inc | Dec | Mv =>
          var _ :- ExecuteArithmetic(op, args[0], Int(-1), args[1]);
          Tick();
        case Ld =>
          var _ :- ExecuteLoad(args[0], args[1]);
          Tick();
        case St =>
          var _ :- ExecuteStore(args[0], args[1]);
          Tick();
      }
      return Ok(Continue);
    }

    /** One turn of the simulation loop: fetch, then decode and execute. */
    method FetchAndExecute() returns (r: Result<Signal>)
      requires dataPath.Valid()
      modifies this`tick, dataPath, dataPath.memory
      ensures var c := Cycle(old(dataPath.Snapshot()));
        && (r.Ok? <==> c.Ok?)
        && (r.Err? ==> r.error == c.error)
        && (r.Ok? ==> (r.value == Stop <==> c.value.Halted?) && dataPath.Snapshot() == c.value.state)
        && (r.Ok? ==> tick == old(tick) + if c.value.Halted? then 1 else c.value.ticks)
    {
      var instr :- FetchInstruction();
      r := DecodeAndExecuteInstruction(instr);
    }

    /** One turn of the simulation loop, seen against the run it belongs to:
        with `count` instructions retired, a failure ends the run, HLT ends it
        here, and any other instruction leaves the rest of the run to the new
        state. */
    method Advance(ghost limit: int, ghost count: nat) returns (r: Result<Signal>)
      requires dataPath.Valid() && count < limit
      modifies this`tick, dataPath, dataPath.memory
      ensures var run := Run(old(dataPath.Snapshot()), limit, count, old(tick));
        && (r.Err? ==> run == Err(r.error))
        && (r == Ok(Stop) ==> run == Ok(Outcome(count, tick, dataPath.Snapshot())))
        && (r == Ok(Continue) ==> run == Run(dataPath.Snapshot(), limit, count + 1, tick))
    {
      RunUnfolds(dataPath.Snapshot(), limit, count, tick);
      r := FetchAndExecute();
    }
  }

  // ---------------------------------------------------------------------------
  // The simulation loop
  // ---------------------------------------------------------------------------

  /** One turn of the loop seen from the instruction level: a failing cycle
      ends the run with its error, HLT ends it with one more tick, and any
      other instruction leaves the rest of the run to the next state. */
  lemma RunUnfolds(s: MachineSpec.State, limit: int, count: nat, ticks: nat)
    requires count < limit
    ensures Cycle(s).Err? ==> Run(s, limit, count, ticks) == Err(Cycle(s).error)
    ensures Cycle(s).Ok? && Cycle(s).value.Halted? ==>
      Run(s, limit, count, ticks) == Ok(Outcome(count, ticks + 1, Cycle(s).value.state))
    ensures Cycle(s).Ok? && Cycle(s).value.Stepped? ==>
      Run(s, limit, count, ticks) == Run(Cycle(s).value.state, limit, count + 1, ticks + Cycle(s).value.ticks)
  {
  }

  /**
   * `simulation(code, memory_size, limit)`: the control unit fetches and
   * executes until HLT, failing once `limit` instructions have retired; it
   * returns the instruction count and the tick count, and the stores of the
   * program are left in `code`.
   */
  method Simulation(code: array<Cell>, memorySize: int, limit: int) returns (r: Result<(nat, nat)>)
    modifies code
    ensures var o := Simulate(old(code[..]), memorySize, limit);
      r == if o.Ok? then Ok((o.value.instructions, o.value.ticks)) else Err(o.error)
    ensures r.Ok? ==> code[..] == Simulate(old(code[..]), memorySize, limit).value.final.mem
  {
    if memorySize <= 0 {
      return Err(InvalidMemorySize);
    }
    var dataPath := new DataPath(code, memorySize);
    var controlUnit := new ControlUnit(dataPath);
    var counter: nat := 0;
    ghost var run := Run(dataPath.Snapshot(), limit, 0, 0);
    while true
      invariant dataPath.Valid() && controlUnit.dataPath == dataPath && dataPath.memory == code
      invariant run == Simulate(old(code[..]), memorySize, limit)
      invariant Run(dataPath.Snapshot(), limit, counter, controlUnit.tick) == run
      decreases if counter < limit then limit - counter else 0
    {
      if !(limit > counter) {
        return Err(TooLongExecution);
      }
      var signal :- controlUnit.Advance(limit, counter);
      if signal == Stop {
        return Ok((counter, controlUnit.tick));
      }
      counter := counter + 1;
    }
  }
}

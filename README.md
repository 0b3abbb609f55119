# csa3 core in Dafny

This project models the two halves of a small accumulator-free register
machine toolchain and the instruction vocabulary they share.

- **The processor** (`machine.py`). A data path holds five registers (R4 is
  the program counter), a memory shared with the caller, two buses, a bus-1
  multiplexer, an ALU with input transforms and an add-or-mod select, and a
  zero flag. A control unit drives the data path signal by signal. It fetches,
  then decodes and executes, and counts clock ticks. `simulation` loops until
  `HLT`, bounded by an instruction limit.
- **The C-- code generator** (`ast_cmm.py`). `TranslateState` holds the
  emitted text, the variable table (insertion-ordered; integer literals are
  interned), the label table and the instruction counter. The `eval` methods
  of the syntax tree append to this state. `link` appends `HLT`, resolves
  symbolic operands to addresses and appends the data segment.
- **The instruction set** (`isa.py`). It has twelve opcodes with lower-case
  mnemonics and documented operand counts, memory cells that are either 32-bit
  words or instructions, and the per-cell conversion that loads a program
  image.

## Files

- `isa.dfy` (module `Isa`):
  - `int32` with explicit wrap-around.
  - Bitwise complement and numpy's floor modulo.
  - Opcodes, their names and arities.
  - Operands and cells.
  - The error type and `Result`.
  - Python list indexing, with negative indices allowed.
  - The image loader, `ReadCode`.
- `machine_spec.dfy` (module `MachineSpec`): the instruction-level semantics. It covers the state, fetch, the effect of each instruction, one cycle and a whole run (`Simulate`), with lemmas for each per-opcode property.
- `machine.dfy` (module `Machine`):
  - The ALU as a function of its inputs and control lines.
  - The `DataPath` and `ControlUnit` classes.
  - `Simulation`.
  - Each control-unit method is proved to have exactly the effect `MachineSpec` gives it.
- `ast.dfy` (module `Ast`): the syntax tree, and the declare-before-use rule that code generation enforces.
- `codegen_spec.dfy` (module `CodegenSpec`):
  - The generator state as a value.
  - The generation and link passes as functions.
  - The lemmas about the table, labels, layout, addresses and success conditions.
- `codegen.dfy` (module `Codegen`): the `TranslateState` class, the eval methods and `Translate`. Each is proved to leave the state the `CodegenSpec` function computes.

Variable-table keys are a tagged union. `Ident(name)` is a variable and `Literal(i)` is the interned literal `i`. Operands are `Int(v)`, `Var(key)`, or `Label(n)` for the branch operand `str(n)`.

## Model

| member | source | states |
|---|---|---|
| Isa.Wrap | machine.py:89-97 | the int32 that an integer becomes under two's-complement wrap-around: congruent modulo 2^32, and the identity on the int32 range |
| Isa.Not32 | machine.py:82-86 | the bitwise complement `~x` satisfies `~x + x == -1` |
| Isa.FloorMod | machine.py:94-95 | numpy's `%` on int32: 0 for a zero divisor; otherwise the result has the sign of the divisor and is smaller in magnitude; for a positive divisor it is the mathematical remainder |
| Isa.Name | isa.py:10-22 | each opcode's mnemonic is a 2 or 3 letter lower-case word |
| Isa.Arity | isa.py:11-22 | the documented operand count is at most 3, and 0 exactly for HLT |
| Isa.TwelveDistinctOpcodes | isa.py:10-22 | there are exactly twelve opcodes, and no two share a mnemonic |
| Isa.FromNameOfName | isa.py:10-22 | `Opcode(op.value) == op` for every opcode |
| Isa.NameRoundTrip | isa.py:10-22 | name-to-opcode is the inverse of opcode-to-name; a string that is no opcode's name is rejected |
| Isa.FromName | isa.py:45 | `Opcode(name)`: an opcode it finds has that name (NameRoundTrip states both directions) |
| Isa.ListIndex | machine.py:67 | Python list indexing: succeeds exactly for `-len <= i < len`, lands on the position congruent to `i`, and is `i` itself when `i >= 0` |
| Isa.ConvertCell | isa.py:41-45 | an integer becomes a wrapped int32 data cell; an object keeps its arguments and succeeds exactly when its opcode name is known |
| Isa.CellRoundTrip | isa.py:33-47 | writing a cell to JSON form and loading it gives the same cell back |
| Isa.EncodeCell | isa.py:33-35 | `json.dumps` of a cell: a data word is written as a JSON integer that wraps back to it, an instruction as an object whose name loads back as its opcode and whose operands are kept |
| Isa.ReadCode | isa.py:38-47 | the loader succeeds exactly when every cell converts; it keeps the number and order of cells, each converted; a failure is the conversion error of the first cell that does not convert |
| Isa.ReadWrittenCode | isa.py:33-47 | loading a written image returns the cells that were written |
| MachineSpec.Initial | machine.py:32-46 | the starting state: every register holds 0, the flag is clear, and memory is the caller's image |
| MachineSpec.AsInt | machine.py:177 | an operand is usable as a number exactly when it is an integer |
| MachineSpec.AsWord | machine.py:79-97 | a cell is usable as an ALU input exactly when it is a data word |
| MachineSpec.CheckRegister | machine.py:49-50 | a register operand passes exactly when it is an integer below 5 |
| MachineSpec.BusValue | machine.py:51-56 | index −1 puts 0 on the bus, a valid index puts that register there, and an index below −5 fails |
| MachineSpec.Latch | machine.py:58-60 | a register write succeeds exactly for an integer index in [−5, 5), and writes exactly that register |
| MachineSpec.SelectRegisters | machine.py:48-56 | both operands select exactly when each is an integer in [−5, 5); an index of 5 or more fails naming it, the first operand checked first; index −1 puts 0 on its bus and a non-negative index that register |
| MachineSpec.Arith | machine.py:208-266 | the ALU result: ADD, SUB, INC and DEC give x+y, x−y, x+1 and x−1 modulo 2^32; SUB gives 0 exactly when x == y; MOD by a positive divisor lies in [0, divisor); MV passes x on |
| MachineSpec.Fetch | machine.py:156-165 | a successful fetch needs a numeric PC, advances it by one with wrap-around, and keeps memory, its size, the flag and R0–R3 (FetchEffect and FetchFaults state the rest) |
| MachineSpec.Jump | machine.py:174-182 | the JMP path succeeds exactly for an integer target, sets PC to the wrapped target and the flag to whether it is 0, and keeps memory and R0–R3 |
| MachineSpec.Compute | machine.py:208-266 | a successful arithmetic instruction names a destination in [−5, 5), keeps memory and changes no register but the destination (SubComparesEqual and IncDecEffect state the values) |
| MachineSpec.Load | machine.py:268-277 | a successful LD reads an address inside memory, keeps memory and changes no register but the destination |
| MachineSpec.Store | machine.py:279-288 | a successful ST writes at an address inside memory, keeps every register and the memory length, and changes no other memory cell |
| MachineSpec.Execute | machine.py:167-291 | the execute phase costs 1 tick, or 2 only for a taken BE or BNE |
| MachineSpec.Cycle | machine.py:156-165 | a fetch and execute costs 2 or 3 ticks |
| MachineSpec.RunWith | machine.py:308-322 | a successful run reports a count between the starting count and the limit, the limit excluded |
| MachineSpec.Run | machine.py:314-321 | the loop with this machine's cycle: a successful run reports a count between the starting count and the limit, the limit excluded |
| MachineSpec.Simulate | machine.py:308-322 | a memory size of 0 or less is rejected; a successful simulation retired fewer instructions than the limit |
| MachineSpec.WrapZeroIffEqual | machine.py:98-99 | the wrapped difference of two words is zero exactly when they are equal |
| MachineSpec.FetchEffect | machine.py:156-165 | fetch returns `memory[PC]`, sets PC to PC+1 (wrapping), changes no other register and leaves the zero flag |
| MachineSpec.FetchFaults | machine.py:62-67 | fetch fails exactly when PC holds no number or is out of range for the memory list |
| MachineSpec.SubComparesEqual | machine.py:218-226 | `SUB r1, r2, rd` stores r1 − r2 (wrapping), changes no other register, and sets the flag exactly when r1 == r2 |
| MachineSpec.IncDecEffect | machine.py:238-256 | `INC r, rd` and `DEC r, rd` store r+1 and r−1 (wrapping); with r = −1 the source is 0 |
| MachineSpec.BranchEffect | machine.py:184-206 | BE jumps exactly when the flag is set and BNE exactly when it is clear, each then costing 2 ticks; otherwise the state is unchanged and the cost is 1 tick |
| MachineSpec.LoadStoreEffect | machine.py:268-288 | `LD a, rd` loads memory[a] into rd; `ST r, a` stores register r at a and changes no register; both set the flag to a == 0, and both fail outside [0, memory size) |
| MachineSpec.AddressingSetsFlag | machine.py:176-180 | after JMP t, LD a, _ or ST _, a the zero flag is (t == 0) or (a == 0) |
| MachineSpec.ExecuteFaults | machine.py:168-175 | a data cell in instruction position fails, as does a wrong operand count; HLT halts; an arithmetic instruction whose source register is 5 or more fails naming that register |
| MachineSpec.RegisterFaults | machine.py:208-288 | a destination index of 5 or more fails naming it, once the steps before the latch succeed: the third operand of ADD, SUB and MOD, the second of INC, DEC, MV and LD; and ST fails when its source register index is 5 or more |
| MachineSpec.LimitOnlyTruncatesWith | machine.py:314-318 | raising the limit changes a run only where the lower limit cut it short |
| MachineSpec.LimitOnlyTruncates | machine.py:314-318 | the same, for this machine's cycle |
| MachineSpec.RunTicksWith | machine.py:150-151 | a run that retires n instructions takes between 2n+1 and 3n+1 ticks: each instruction's fetch and execute ticks, plus one for the HLT fetch |
| MachineSpec.RunTicks | machine.py:308-322 | the same, for this machine's cycle |
| MachineSpec.HaltingRunIgnoresLimit | machine.py:316 | a run that halts gives the same result under any limit above its instruction count |
| MachineSpec.RunNeedsOnlyItsCountWith | machine.py:316 | a run that retires n instructions needs a limit no higher than n+1 |
| MachineSpec.RunNeedsOnlyItsCount | machine.py:316 | the same, for this machine's cycle |
| Machine.Alu | machine.py:78-97 | the ALU fails exactly on a non-word input; mod with untransformed positive input 2 yields a value in [0, in2) |
| Machine.AluAddsAndReduces | machine.py:208-216 | pass-through with add is ADD, and pass-through with mod is MOD (machine.py:228-236) |
| Machine.AluSubtracts | machine.py:107-111 | `in1 + (~in2 + 1)` is the wrapped difference, i.e. SUB |
| Machine.AluIncrementsAndDecrements | machine.py:101-117 | with 0 on bus 2: increment+add is INC, complement of input 2 (0 becomes −1) is DEC, and pass-through is MV |
| Machine.AluImplementsArith | machine.py:208-266 | under the ALU setting each arithmetic instruction selects, the ALU computes that instruction's value |
| Machine.AluIncrementsPC | machine.py:158-162 | the fetch setting of the ALU adds one to PC |
| Machine.AluPassesAddress | machine.py:176-180 | with 0 on bus 2, pass+add outputs the address unchanged |
| Machine.DataPath.Snapshot | machine.py:15-46 | the instruction-visible part of the data path: registers, memory contents and zero flag |
| Machine.DataPath.constructor | machine.py:32-46 | the data path shares the caller's memory and starts from the initial state |
| Machine.DataPath.SelectRegisters | machine.py:48-56 | both indices are checked first, then the buses take the selected registers, or 0 for −1 |
| Machine.DataPath.LatchRegister | machine.py:58-60 | the ALU latch is written to exactly the selected register |
| Machine.DataPath.GetInstruction | machine.py:62-67 | returns memory at PC with Python indexing; fails when PC holds no number or is out of range |
| Machine.DataPath.Bus1MuxSignalBus | machine.py:72-73 | the multiplexer passes bus 1 |
| Machine.DataPath.Bus1MuxSignalInstr | machine.py:75-76 | the multiplexer takes the wrapped integer operand; a non-integer fails |
| Machine.DataPath.ExecuteAlu | machine.py:78-99 | the latch takes the ALU's output; the flag is updated to output == 0 unless the flag is to be saved |
| Machine.DataPath.IncAluIn1 | machine.py:101-105 | selects the increment-input-1 transform |
| Machine.DataPath.NegateAluIn2 | machine.py:107-111 | selects the negate-input-2 transform |
| Machine.DataPath.DecAluIn1 | machine.py:113-117 | selects the complement-input-2 transform |
| Machine.DataPath.SelectAdd | machine.py:119-120 | selects addition |
| Machine.DataPath.SelectMod | machine.py:122-123 | selects modulo |
| Machine.DataPath.PassAluIn | machine.py:125-129 | selects pass-through inputs |
| Machine.DataPath.Read | machine.py:131-133 | the latch takes memory[a] when 0 <= a < memory size and a is inside the list; otherwise it fails with the matching error |
| Machine.DataPath.Wr | machine.py:135-137 | memory[a] takes bus 2 under the same checks, and nothing else in memory changes; a failure changes nothing |
| Machine.ControlUnit.constructor | machine.py:144-148 | tick count 0, over the given data path |
| Machine.ControlUnit.Tick | machine.py:150-151 | one more tick |
| Machine.ControlUnit.FetchInstruction | machine.py:156-165 | equals the spec's fetch: the cell at PC, PC+1, flag kept, one tick |
| Machine.ControlUnit.JumpTo | machine.py:176-181 | equals the spec's jump: PC takes the target and the flag is set from it |
| Machine.ControlUnit.SetAlu | machine.py:208-266 | sets the ALU lines each arithmetic instruction's microprogram selects |
| Machine.ControlUnit.ExecuteArithmetic | machine.py:208-266 | ADD, SUB, MOD, INC, DEC and MV have exactly the spec's effect on registers and flag, with the same errors |
| Machine.ControlUnit.ExecuteLoad | machine.py:268-277 | LD has exactly the spec's effect |
| Machine.ControlUnit.ExecuteStore | machine.py:279-288 | ST has exactly the spec's effect |
| Machine.ControlUnit.DecodeAndExecuteInstruction | machine.py:167-291 | every opcode has exactly the spec's effect and tick cost; HLT signals the stop |
| Machine.ControlUnit.FetchAndExecute | machine.py:317 | one loop turn equals the spec's cycle, ticks included |
| Machine.ControlUnit.Advance | machine.py:315-319 | one loop turn continues the run the spec defines from the current state |
| Machine.RunUnfolds | machine.py:315-321 | a run with count below the limit is one cycle followed by the rest of the run |
| Machine.Simulation | machine.py:308-322 | returns the spec run's instruction and tick counts, or its error; stores are left in the caller's image |
| Ast.DeclaredAfter | ast_cmm.py:171-190 | the declare-before-use rule: the declared names only grow |
| CodegenSpec.IndexOf | ast_cmm.py:25 | `keys().index(k)`: found exactly when declared, at an entry holding the key, and at its first occurrence |
| CodegenSpec.VarAddr | ast_cmm.py:23-25 | `get_var_addr`: succeeds exactly for a declared key (otherwise an undeclared-variable error), with an address in the data segment at the key's entry |
| CodegenSpec.AddVar | ast_cmm.py:20-21 | `vars[k] = v`: k is declared afterwards; the table grows by one exactly when k is new; every existing entry keeps its key and position (AddVarBinds states the values) |
| CodegenSpec.Intern | ast_cmm.py:102-103 | a literal's entry is present afterwards; the table only grows, and text, labels and pc are untouched (InternOnce states idempotence) |
| CodegenSpec.Stage | ast_cmm.py:101-109 | staging an operand only grows the text and table, with pc growing with the text, and leaves the labels |
| CodegenSpec.GenAexp | ast_cmm.py:84-121 | the same for VarAexp and BinopAexp |
| CodegenSpec.GenBexp | ast_cmm.py:137-154 | the same for RelopBexp |
| CodegenSpec.GenStmt | ast_cmm.py:171-251 | statement generation only grows the text, table and labels, with pc growing with the text |
| CodegenSpec.ResolveArgs | ast_cmm.py:35-38 | the operand pass keeps the operand count |
| CodegenSpec.ResolveOperand | ast_cmm.py:36-38 | an integer operand stays; a name resolves exactly when declared, to an integer, and otherwise fails as an undeclared variable |
| CodegenSpec.ResolveBranch | ast_cmm.py:31-32 | a branch operand that is a label in range becomes that label's value; a name that is not a number fails; the other operands and the count are kept |
| CodegenSpec.ResolveCell | ast_cmm.py:30-38 | a data cell in the text is rejected; a resolved instruction keeps its opcode and operand count (CellResolves states the operands) |
| CodegenSpec.ResolveText | ast_cmm.py:29-38 | the link loop keeps the instruction count |
| CodegenSpec.DataSegment | ast_cmm.py:40-41 | one data cell per variable, holding its value, in insertion order |
| CodegenSpec.Link | ast_cmm.py:27-41 | a successful link has (#emitted + 1 + #variables) cells (LinkLayout states the layout) |
| CodegenSpec.Translate | ast_cmm.py:44-50 | a successful translation comes from successful generation and has (#emitted + 1 + #variables) cells (TranslateLayout and TranslateOkIff state the rest) |
| CodegenSpec.IndexOfIsFirst | ast_cmm.py:25 | the first entry holding a key is where the lookup finds it |
| CodegenSpec.IndexOfSameKeys | ast_cmm.py:20-25 | tables with the same keys position each key alike |
| CodegenSpec.AddVarBinds | ast_cmm.py:20-21 | `vars[k] = v`: k then maps to v, at its old position or, when new, last; every other key keeps its position; distinct keys stay distinct |
| CodegenSpec.InternOnce | ast_cmm.py:102-103 | a literal is added to the table at most once: interning twice is interning once, and a present literal is left alone |
| CodegenSpec.AppendKeepsTable | ast_cmm.py:20-21 | appending a new key keeps keys distinct and literal entries holding their own value |
| CodegenSpec.DeclaredGrows | ast_cmm.py:20-21 | a key declared stays declared as the table grows |
| CodegenSpec.LinkableGrows | ast_cmm.py:27-38 | code that links keeps linking as the table and label table grow |
| CodegenSpec.DeclareKeepsWf | ast_cmm.py:20-21 | declaring a new key keeps the generator's invariant |
| CodegenSpec.StageWf | ast_cmm.py:101-114 | staging keeps the table distinct and every emitted operand resolvable |
| CodegenSpec.GenAexpWf | ast_cmm.py:84-121 | the same for expressions |
| CodegenSpec.GenBexpWf | ast_cmm.py:137-154 | the same for comparisons |
| CodegenSpec.AssignWf | ast_cmm.py:171-190 | the same for assignments |
| CodegenSpec.BranchKeepsWf | ast_cmm.py:216-223 | a new label and a branch naming it keep the invariant |
| CodegenSpec.GenStmtWf | ast_cmm.py:171-251 | the same for every statement |
| CodegenSpec.GenStmtLabels | ast_cmm.py:214-251 | with pc equal to the text length, pc stays equal to it; every label a statement creates is resolved to a position inside its code or just past it |
| CodegenSpec.CompareLayout | ast_cmm.py:152-154 | a comparison ends with `SUB 1, 2, 0` and reports whether the operator is `==` |
| CodegenSpec.IfLayout | ast_cmm.py:214-225 | the skipping branch follows the comparison: BNE after `==`, BE after `!=`; it names the new label, which resolves just past the body |
| CodegenSpec.WhileLayout | ast_cmm.py:236-251 | the first new label resolves just past the closing JMP; the second is the comparison's start and is the JMP's target |
| CodegenSpec.AssignForms | ast_cmm.py:171-190 | a new variable with a literal is a table entry with that value and emits nothing; a new variable otherwise is declared as 0 before its value is generated; every other form ends with `ST 0, x` |
| CodegenSpec.ResolveArgsPointwise | ast_cmm.py:35-38 | the operand pass fails exactly when some operand fails, and otherwise resolves each operand in place |
| CodegenSpec.ResolveTextOk | ast_cmm.py:29-38 | the link loop succeeds exactly when every instruction resolves |
| CodegenSpec.ResolveTextPointwise | ast_cmm.py:29-38 | a successful link loop resolves each instruction in place |
| CodegenSpec.ResolveArgsStops | ast_cmm.py:35-38 | the operand pass stops at the first failing operand, with its error |
| CodegenSpec.ResolveTextStep | ast_cmm.py:29-38 | one more instruction extends the resolved prefix |
| CodegenSpec.ResolveTextStops | ast_cmm.py:29-38 | the link loop stops at the first failing instruction, with its error |
| CodegenSpec.CellResolves | ast_cmm.py:30-38 | a linkable instruction resolves, keeping opcode and operand count: a branch operand becomes its label's value, a variable its address, and an integer stays |
| CodegenSpec.LinkLayout | ast_cmm.py:27-41 | linking succeeds; the output is the text, then HLT, then the data segment, (#emitted + 1 + #variables) cells; no operand stays symbolic |
| CodegenSpec.IdentsDeclared | ast_cmm.py:85 | a name is a declared variable exactly when it is among the table's identifiers |
| CodegenSpec.IdentsAppend | ast_cmm.py:20-21 | appending an entry adds its name, if it is an identifier, to the declared names |
| CodegenSpec.StageOkIff | ast_cmm.py:101-114 | staging succeeds exactly when the operand reads only declared variables; the only error is an undeclared variable |
| CodegenSpec.GenAexpOkIff | ast_cmm.py:84-121 | the same for expressions, which also leave the declared names alone |
| CodegenSpec.GenBexpOkIff | ast_cmm.py:137-154 | the same for comparisons |
| CodegenSpec.GenStmtOkIff | ast_cmm.py:171-251 | a statement generates exactly when it follows the declare-before-use rule, and then declares what the rule says; the only error is an undeclared variable |
| CodegenSpec.TranslateOkIff | ast_cmm.py:44-50 | a program translates exactly when every variable is declared before it is read |
| CodegenSpec.LinkedOperand | ast_cmm.py:23-25 | a variable operand of linked code is the length of the text with HLT plus its key's insertion index |
| CodegenSpec.LinkedBranch | ast_cmm.py:30-31 | a branch or jump operand of linked code is its label's value |
| CodegenSpec.TranslateLayout | ast_cmm.py:44-50 | translated code: the generated instructions with opcodes and operand counts kept and every operand an integer, HLT after them, then the data; every branch target lies inside the code or on HLT, so no label remains −1 |
| CodegenSpec.TranslateAddresses | ast_cmm.py:23-41 | each variable operand becomes its entry's address in the data segment, so equal names and equal literals share an address, and a literal's slot holds the literal |
| Codegen.TranslateState.constructor | ast_cmm.py:11-15 | an empty text, table and label table, and pc 0 |
| Codegen.TranslateState.AddVar | ast_cmm.py:20-21 | the table becomes the dictionary store of the spec |
| Codegen.TranslateState.Link | ast_cmm.py:27-41 | the in-place link pass fails exactly as, and otherwise produces exactly, the spec's link |
| Codegen.TranslateState.AppendData | ast_cmm.py:40-41 | the data loop appends the data segment |
| Codegen.TranslateState.ResolveInstruction | ast_cmm.py:29-38 | one turn of the link loop equals the spec's resolution of that cell |
| Codegen.StageOperand | ast_cmm.py:101-109 | staging in place leaves the state the spec computes, or fails with its error |
| Codegen.EvalAexp | ast_cmm.py:84-121 | VarAexp.eval and BinopAexp.eval leave the state the spec computes |
| Codegen.EvalBexp | ast_cmm.py:137-154 | RelopBexp.eval leaves the spec's state and returns whether the operator is `==` |
| Codegen.EvalStmt | ast_cmm.py:201-203 | statement eval leaves the state the spec computes; a compound statement evaluates its parts in order |
| Codegen.EvalAssign | ast_cmm.py:171-190 | AssignStatement.eval leaves the state the spec computes |
| Codegen.EvalIf | ast_cmm.py:214-225 | IfStatement.eval leaves the state the spec computes |
| Codegen.EvalWhile | ast_cmm.py:236-251 | WhileStatement.eval leaves the state the spec computes |
| Codegen.Translate | ast_cmm.py:44-50 | `translate` returns exactly the spec's translation, or its error |

## Left out

- The lexer, the parser, the command-line drivers and all file and JSON I/O.
  - `ReadCode` starts from decoded JSON values, as `JsonCell`.
  - `write_code` is modelled only as the cell-to-JSON mapping (`EncodeCell`).
- `ReadCode` builds a new sequence. The source overwrites the decoded list and each object's opcode in place; nothing else holds that list.
- The `randint` fallback in `get_instruction`, used when PC is not a number, is nondeterministic. The model fails with `NotANumber` there instead.
- `main` in `machine.py`, with its padding of memory to 512 cells, and logging and `__repr__`.
- The `assert memory_size > 0` of the data path appears as the `InvalidMemorySize` error of `Simulation`.
  - `DataPath.constructor` requires it, since `Simulation` checks it first.
- Python assertions, and the exceptions numpy or list indexing would raise, are `Err` results. Each cause has its own error constructor, but the model does not distinguish their Python exception types.
- `np.int32(x)` of an integer outside the int32 range is modelled as wrap-around. Recent numpy raises instead.
  - numpy's overflow warnings are not modelled.
  - `np.int32` of a numeric string is not modelled: an operand that is still symbolic fails as `NotANumber`. Only linked code reaches the machine, and it has integer operands.
- Keys of the variable table are a tagged union, `Ident(name)` or `Literal(i)`, rather than strings. An identifier starts with a letter or underscore, so it never equals the decimal text `str(i)` of a literal. The two encodings keep the same entries.
  - A branch operand is `Label(n)` for the string `str(n)`.
  - A label operand outside a branch would be looked up as the key `Literal(n)`, as the string would be. The generator never emits one.
- The link pass appends each variable's value as `Data(Wrap(value))`. The source appends the Python integer, which the loader turns into the same int32.
- The debug `print` calls in `translate` and the unused `reset_program` (which would fail if called).
- Operators are restricted to the parser's `+`, `-`, `%`, `==` and `!=`. With any other operator, BinopAexp would bump `pc` without emitting an instruction.
- `IntAexp.eval` returns its value; the model reads the literal directly.
  - Evaluating a bare literal into a register has no source form (`NoRegisterForm`). The generator never does it.
- Nothing is proved about the meaning of nested expressions. Both operands are staged in registers 1 and 2, so a nested right operand overwrites the left; the model states the emitted code, not its meaning.
- The optional end-to-end property (translate a program, then run it) is not stated.

// TranslateState and the eval methods of the C-- AST: the generator appends
// to the text, grows the variable table and the label table, bumps `pc`,
// and the link pass rewrites the text in place. Each method is proved to
// leave the state that the corresponding function of CodegenSpec computes.

module Codegen {

  import opened Isa
  import opened Ast
  import opened CodegenSpec

  class TranslateState {
    var text: seq<Cell>
    var vars: seq<Binding>
    var labels: seq<int>
    var pc: int

    /** The state as a value. */
    function Snapshot(): Gen
      reads this
    {
      Gen(text, vars, labels, pc)
    }

    constructor()
      ensures Snapshot() == Empty
    {
      text, vars, labels, pc := [], [], [], 0;
    }

    /** `add_var(name, value)`: a dictionary store into the table. */
    method AddVar(k: Key, v: int)
      modifies this
      ensures Snapshot() == old(Snapshot()).(vars := CodegenSpec.AddVar(old(vars), k, v))
    {
      match IndexOf(vars, k)
      case Some(i) =>
        vars := vars[i := Binding(k, v)];
      case None =>
        vars := vars + [Binding(k, v)];
    }

    /**
     * `link()`: append HLT; rewrite, instruction by instruction, a branch's
     * label operand to the label's value and every other string operand to
     * its variable's address; then append the table's values.
     */
    method Link() returns (r: Result<()>)
      modifies this`text
      ensures var l := CodegenSpec.Link(old(Snapshot()));
        && r == l.Void()
        && (l.Ok? ==> text == l.value)
        && vars == old(vars) && labels == old(labels) && pc == old(pc)
    {
      text := text + [Instr(Hlt, [])];
      ghost var linked := text;
      var textLen := |text|;
      var j := 0;
      while j < textLen
        invariant |text| == textLen == |linked| && 0 <= j <= textLen
        invariant ResolveText(labels, vars, textLen, linked[..j]) == Ok(text[..j])
        invariant text[j..] == linked[j..]
      {
        var cell := text[j];
        assert cell == linked[j] by { assert text[j..][0] == linked[j..][0]; }
        var resolved := ResolveInstruction(cell, textLen);
        if resolved.Err? {
          ResolveTextStops(labels, vars, textLen, linked, j);
          return Err(resolved.error);
        }
        ghost var done := text[..j];
        label Step:
        ResolveTextStep(labels, vars, textLen, linked, j, done, resolved.value);
        text := text[j := resolved.value];
        assert text[..j + 1] == done + [resolved.value];
        assert text[j + 1..] == linked[j + 1..] by { assert old@Step(text)[j + 1..] == text[j + 1..]; }
        j := j + 1;
      }
      assert linked[..j] == linked;
      assert text[..j] == text;
      AppendData();
      return Ok(());
    }

    /** The last loop of `link()`: the table's values, in insertion order,
        after the text. */
    method AppendData()
      modifies this`text
      ensures text == old(text) + DataSegment(vars)
    {
      var k := 0;
      while k < |vars|
        invariant 0 <= k <= |vars|
        invariant text == old(text) + DataSegment(vars[..k])
      {
        assert vars[..k + 1][..k] == vars[..k];
        text := text + [Data(Wrap(vars[k].value))];
        k := k + 1;
      }
      assert vars[..k] == vars;
    }

    /** One turn of the link loop: a branch or jump takes its label's value,
        HLT stays, any other instruction has its string operands resolved
        one by one. */
    method ResolveInstruction(cell: Cell, textLen: int) returns (r: Result<Cell>)
      ensures r == ResolveCell(labels, vars, textLen, cell)
    {
      match cell
      case Data(_) =>
        return Err(BadInstruction);
      case Instr(op, args) =>
        if IsBranch(op) {
          if |args| == 0 {
            return Err(IndexOutOfRange(0));
          }
          var n :- LabelNumber(args[0]);
          var i :- ListIndex(|labels|, n);
          return Ok(Instr(op, args[0 := Int(labels[i])]));
        } else if op == Hlt {
          return Ok(cell);
        }
        var resolved := args;
        var i := 0;
        while i < |args|
          invariant 0 <= i <= |args| == |resolved|
          invariant ResolveArgs(vars, textLen, args[..i]) == Ok(resolved[..i])
          invariant resolved[i..] == args[i..]
        {
          assert args[..i + 1][..i] == args[..i];
          var o := ResolveOperand(vars, textLen, args[i]);
          if o.Err? {
            ResolveArgsStops(vars, textLen, args, i);
            return Err(o.error);
          }
          resolved := resolved[i := o.value];
          assert resolved[..i + 1] == resolved[..i] + [o.value];
          i := i + 1;
        }
        assert args[..i] == args && resolved[..i] == resolved;
        return Ok(Instr(op, resolved));
    }
  }

  // ---------------------------------------------------------------------------
  // The eval methods
  // ---------------------------------------------------------------------------

  /** An operand of a binary node or a comparison: a literal is added to the
      table unless present and loaded from there; anything else evaluates
      itself into `reg`. */
  method StageOperand(e: Aexp, state: TranslateState, reg: int) returns (r: Result<()>)
    modifies state
    ensures var h := Stage(old(state.Snapshot()), e, reg);
      r == h.Void() && (h.Ok? ==> state.Snapshot() == h.value)
    decreases e, 1
  {
    if e.Num? {
      if !Declared(state.vars, Literal(e.value)) {
        state.AddVar(Literal(e.value), e.value);
      }
      state.text := state.text + [LoadCell(Literal(e.value), reg)];
      state.pc := state.pc + 1;
      return Ok(());
    }
    r := EvalAexp(e, state, reg);
  }

  /** `eval(state, reg)` of VarAexp and BinopAexp. */
  method EvalAexp(e: Aexp, state: TranslateState, reg: int) returns (r: Result<()>)
    modifies state
    ensures var h := GenAexp(old(state.Snapshot()), e, reg);
      r == h.Void() && (h.Ok? ==> state.Snapshot() == h.value)
    decreases e, 0
  {
    match e
    case Num(_) =>
      return Err(NoRegisterForm);
    case VarRef(x) =>
      if !Declared(state.vars, Ident(x)) {
        return Err(UndeclaredVariable(Ident(x)));
      }
      state.text := state.text + [LoadCell(Ident(x), reg)];
      state.pc := state.pc + 1;
      return Ok(());
    case Binop(op, left, right) =>
      var _ :- StageOperand(left, state, 1);
      var _ :- StageOperand(right, state, 2);
      state.text := state.text + [ArithCell(op, reg)];
      state.pc := state.pc + 1;
      return Ok(());
  }

  /** RelopBexp.eval: returns whether the operator is `==`. */
  method EvalBexp(b: Bexp, state: TranslateState) returns (r: Result<bool>)
    modifies state
    ensures var t := GenBexp(old(state.Snapshot()), b);
      && (t.Err? ==> r == Err(t.error))
      && (t.Ok? ==> r == Ok(t.value.1) && state.Snapshot() == t.value.0)
  {
    var _ :- StageOperand(b.left, state, 1);
    var _ :- StageOperand(b.right, state, 2);
    state.text := state.text + [CompareCell];
    state.pc := state.pc + 1;
    return Ok(b.op == Eq);
  }

  /** Statement.eval: dispatch on the statement form. */
  method EvalStmt(s: Stmt, state: TranslateState) returns (r: Result<()>)
    modifies state
    ensures var h := GenStmt(old(state.Snapshot()), s);
      r == h.Void() && (h.Ok? ==> state.Snapshot() == h.value)
    decreases s, 1
  {
    match s
    case Assign(_, _) =>
      r := EvalAssign(s, state);
    case Compound(a, b) =>
      var _ :- EvalStmt(a, state);
      r := EvalStmt(b, state);
    case If(_, _) =>
      r := EvalIf(s, state);
    case While(_, _) =>
      r := EvalWhile(s, state);
  }

  /** AssignStatement.eval: a declared target is stored to, a literal into
      a new target becomes its initial value, and any other value into a new
      target declares it as 0 first. */
  method EvalAssign(s: Stmt, state: TranslateState) returns (r: Result<()>)
    requires s.Assign?
    modifies state
    ensures var h := GenStmt(old(state.Snapshot()), s);
      r == h.Void() && (h.Ok? ==> state.Snapshot() == h.value)
  {
    var x, e := s.name, s.rhs;
    if Declared(state.vars, Ident(x)) {
      if e.Num? {
        if !Declared(state.vars, Literal(e.value)) {
          state.AddVar(Literal(e.value), e.value);
        }
        state.text := state.text + [LoadCell(Literal(e.value), 0), StoreCell(x)];
        state.pc := state.pc + 2;
      } else {
        var _ :- EvalAexp(e, state, 0);
        state.text := state.text + [StoreCell(x)];
        state.pc := state.pc + 1;
      }
    } else if e.Num? {
      state.AddVar(Ident(x), e.value);
    } else {
      state.AddVar(Ident(x), 0);
      var _ :- EvalAexp(e, state, 0);
      state.text := state.text + [StoreCell(x)];
      state.pc := state.pc + 1;
    }
    return Ok(());
  }

  /** IfStatement.eval: the branch past the body goes to a label reserved as
      -1 and set to the `pc` after the body. */
  method EvalIf(s: Stmt, state: TranslateState) returns (r: Result<()>)
    requires s.If?
    modifies state
    ensures var h := GenStmt(old(state.Snapshot()), s);
      r == h.Void() && (h.Ok? ==> state.Snapshot() == h.value)
    decreases s, 0
  {
    var eq :- EvalBexp(s.cond, state);
    var n := |state.labels|;
    state.labels := state.labels + [-1];
    state.text := state.text + [BranchCell(eq, n)];
    state.pc := state.pc + 1;
    var _ :- EvalStmt(s.body, state);
    state.labels := state.labels[n := state.pc];
    return Ok(());
  }

  /** WhileStatement.eval: two labels, the exit (reserved as -1, set after
      the closing jump) and the condition's first instruction, where the
      closing jump goes. */
  method EvalWhile(s: Stmt, state: TranslateState) returns (r: Result<()>)
    requires s.While?
    modifies state
    ensures var h := GenStmt(old(state.Snapshot()), s);
      r == h.Void() && (h.Ok? ==> state.Snapshot() == h.value)
    decreases s, 0
  {
    ghost var g := state.Snapshot();
    var condPc := state.pc;
    var eq :- EvalBexp(s.cond, state);
    ghost var t := GenBexp(g, s.cond).value;
    var n := |state.labels|;
    state.labels := state.labels + [-1, condPc];
    state.text := state.text + [BranchCell(eq, n)];
    state.pc := state.pc + 1;
    ghost var g1 := state.Snapshot();
    assert g1 == Emit(t.0.(labels := t.0.labels + [-1, g.pc]), BranchCell(t.1, n));
    var _ :- EvalStmt(s.body, state);
    state.text := state.text + [JumpCell(n + 1)];
    state.pc := state.pc + 1;
    state.labels := state.labels[n := state.pc];
    assert state.Snapshot() == GenStmt(g, s).value;
    return Ok(());
  }

  /** `translate(ast)`: evaluate the tree into a fresh state, link it and
      return the text. */
  method Translate(ast: Stmt) returns (r: Result<seq<Cell>>)
    ensures r == CodegenSpec.Translate(ast)
  {
    var state := new TranslateState();
    var _ :- EvalStmt(ast, state);
    var _ :- state.Link();
    return Ok(state.text);
  }
}

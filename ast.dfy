// The abstract syntax of the C-- subset the translator accepts, and the
// declare-before-use rule that its code generator enforces.
//
// The parser only ever builds `+`, `-` and `%` arithmetic nodes and `==` and
// `!=` comparisons, and integer literals are runs of decimal digits, so the
// operator fields are closed enumerations here.

module Ast {

  import opened Isa

  datatype ArithOp = Plus | Minus | Percent

  datatype RelOp = Eq | Ne

  /** IntAexp, VarAexp and BinopAexp. */
  datatype Aexp =
    | Num(value: int)
    | VarRef(name: string)
    | Binop(op: ArithOp, left: Aexp, right: Aexp)

  /** RelopBexp. */
  datatype Bexp = Relop(op: RelOp, left: Aexp, right: Aexp)

  /** AssignStatement, CompoundStatement, IfStatement and WhileStatement. */
  datatype Stmt =
    | Assign(name: string, rhs: Aexp)
    | Compound(first: Stmt, second: Stmt)
    | If(cond: Bexp, body: Stmt)
    | While(cond: Bexp, body: Stmt)

  /** Every variable the expression reads is among `declared`. */
  predicate ReadsDeclared(declared: set<string>, e: Aexp)
  {
    match e
    case Num(_) => true
    case VarRef(x) => x in declared
    case Binop(_, l, r) => ReadsDeclared(declared, l) && ReadsDeclared(declared, r)
  }

  /**
   * The names declared after `s`, when every variable it reads was declared
   * earlier in program text; None otherwise. An assignment declares its
   * target before its right-hand side is read, declarations are not scoped
   * (a body's declarations outlive it), and a literal right-hand side reads
   * nothing.
   */
  function DeclaredAfter(declared: set<string>, s: Stmt): (r: Option<set<string>>)
    ensures r.Some? ==> declared <= r.value
    decreases s
  {
    match s
    case Assign(x, e) =>
      if ReadsDeclared(declared + {x}, e) then Some(declared + {x}) else None
    case Compound(a, b) =>
      (match DeclaredAfter(declared, a)
       case None => None
       case Some(d) => DeclaredAfter(d, b))
    case If(Relop(_, l, r), body) =>
      if ReadsDeclared(declared, l) && ReadsDeclared(declared, r) then DeclaredAfter(declared, body) else None
    case While(Relop(_, l, r), body) =>
      if ReadsDeclared(declared, l) && ReadsDeclared(declared, r) then DeclaredAfter(declared, body) else None
  }
}

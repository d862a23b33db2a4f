/**
 * Abstract syntax of the C# programs whose scoping the model analyses: only the
 * parts that introduce or mention local names. Every other token of a program
 * (types, literals, operators, member names) is dropped; what remains, in
 * textual order, are embedded declarations (`int x = e`, `(int y)`, `out var z`,
 * `ref int w`), references to locals, argument lists, lambdas, query clauses and
 * the statements and type members that decide which scope each of them lands in.
 */
module Syntax {

  /** A source position: line and column, both counted from 1 as in a diagnostic. */
  datatype Pos = Pos(line: nat, col: nat)

  /** Strict textual order of positions. */
  predicate Before(p: Pos, q: Pos) {
    p.line < q.line || (p.line == q.line && p.col < q.col)
  }

  /** How a declared local receives its first value. */
  datatype Mode =
    | Initialized         // `int x = e`; also foreach, catch, using variables and parameters
    | Out                 // `out int x` / `out var x`: assigned once the call returns
    | Bare(start: Pos)    // `int x`, `(int x)` or `ref int x` with no initializer: read while unassigned;
                          // `start` is where the declaration (its type) begins

  /** A variable introduced by the construct itself: loop, catch or lambda parameter, range variable. */
  datatype Param = Param(name: string, at: Pos)

  datatype Expr =
    | Declare(name: string, at: Pos, mode: Mode)
    | Use(name: string, at: Pos, write: bool)          // `write`: the target of a plain assignment
    | Call(args: seq<Argument>)                        // one argument list, in textual order
    | Lambda(params: seq<Param>, body: Stmt)           // lambda or anonymous method
    | Query(source: seq<Expr>, range: Param, clauses: seq<Clause>)
                                                       // `from range in source` followed by its clauses

  /** One argument of an argument list. */
  datatype Argument = Argument(items: seq<Expr>)

  /** One clause of a query after its first `from`; it sees the range variable. */
  datatype Clause = Clause(items: seq<Expr>)

  /** One section of a switch statement: its labels and statements. */
  datatype Section = Section(stmts: seq<Stmt>)

  datatype Catch = Catch(param: Option<Param>, filter: seq<Expr>, block: seq<Stmt>)

  datatype Stmt =
    | Exprs(items: seq<Expr>)                          // an expression or declaration statement
    | Block(stmts: seq<Stmt>)
    | For(init: seq<Expr>, cond: seq<Expr>, incr: seq<Expr>, body: Stmt)
    | ForEach(variable: Param, collection: seq<Expr>, body: Stmt)
    | While(cond: seq<Expr>, body: Stmt)
    | Do(body: Stmt, cond: seq<Expr>)
    | Using(resource: seq<Expr>, body: Stmt)          // the resource variable and its initializer
    | Fixed(decl: seq<Expr>, body: Stmt)
    | Switch(governing: seq<Expr>, sections: seq<Section>)
    | If(cond: seq<Expr>, thenBranch: Stmt, elseBranch: Option<Stmt>)
    | Try(tryBlock: seq<Stmt>, catches: seq<Catch>, finallyBlock: Option<Stmt>)  // the finally block, a Block

  datatype Option<T> = None | Some(value: T)

  datatype Member =
    | Field(isStatic: bool, init: seq<Expr>)           // a field, property or event initializer
    | Const(init: seq<Expr>)
    | Constructor(initializer: Option<seq<Expr>>, body: seq<Stmt>)
                                                       // `initializer`: the `: base(...)`/`: this(...)` arguments
    | Method(params: seq<Param>, body: seq<Stmt>)

  /** One declaration of a type, or one fragment of a partial type. */
  datatype Fragment = Fragment(primaryBase: Option<seq<Expr>>, members: seq<Member>)

  /** A local as its declaration introduces it: name and position. */
  datatype Local = Local(name: string, at: Pos)

  /**
   * The locals an expression declares in the scope it is evaluated in, in textual
   * order: its own declarations, those of its argument lists and those of the
   * source of a query; a lambda and the clauses of a query keep theirs.
   */
  function ExprLocals(e: Expr): seq<Local>
    decreases e, 1
  {
    match e
    case Declare(n, at, _) => [Local(n, at)]
    case Use(_, _, _) => []
    case Call(args) => ArgLocals(args)
    case Lambda(_, _) => []
    case Query(source, _, _) => ExprsLocals(source)
  }

  function ExprsLocals(items: seq<Expr>): seq<Local>
    decreases items, 0
  {
    if items == [] then [] else ExprLocals(items[0]) + ExprsLocals(items[1..])
  }

  function ArgLocals(args: seq<Argument>): seq<Local>
    decreases args, 0
  {
    if args == [] then [] else ExprsLocals(args[0].items) + ArgLocals(args[1..])
  }

  /**
   * The references an expression makes in the scope it is evaluated in, in
   * textual order, as name and position; the same parts count as for `ExprLocals`.
   */
  function ExprRefs(e: Expr): seq<Local>
    decreases e, 1
  {
    match e
    case Declare(_, _, _) => []
    case Use(n, at, _) => [Local(n, at)]
    case Call(args) => ArgRefs(args)
    case Lambda(_, _) => []
    case Query(source, _, _) => ExprsRefs(source)
  }

  function ExprsRefs(items: seq<Expr>): seq<Local>
    decreases items, 0
  {
    if items == [] then [] else ExprRefs(items[0]) + ExprsRefs(items[1..])
  }

  function ArgRefs(args: seq<Argument>): seq<Local>
    decreases args, 0
  {
    if args == [] then [] else ExprsRefs(args[0].items) + ArgRefs(args[1..])
  }

  /** The locals a statement declares in the enclosing block: only an expression statement has any. */
  function StmtLocals(s: Stmt): seq<Local> {
    if s.Exprs? then ExprsLocals(s.items) else []
  }

  function StmtsLocals(ss: seq<Stmt>): seq<Local> {
    if ss == [] then [] else StmtLocals(ss[0]) + StmtsLocals(ss[1..])
  }

  function StmtRefs(s: Stmt): seq<Local> {
    if s.Exprs? then ExprsRefs(s.items) else []
  }

  function StmtsRefs(ss: seq<Stmt>): seq<Local> {
    if ss == [] then [] else StmtRefs(ss[0]) + StmtsRefs(ss[1..])
  }

  /** The names of some locals. */
  function Names(ls: seq<Local>): set<string> {
    set l | l in ls :: l.name
  }
}

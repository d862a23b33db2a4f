/**
 * The test DataFlow_03 (DeclarationExpressionsTests.cs, lines 2216 to 2260).
 *
 * Its program, with its local names left as parameters, is walked into a scope tree and
 * analysed; Outcome states the exact list of diagnostics Check reports, for any names that
 * differ where the outcome depends on it.
 */
module ScenDataFlow03 {
  import opened Syntax
  import opened Scopes
  import opened Binding
  import opened Reporting
  import opened Frames
  import opened Units
  import opened Traces

  /** The statements of the test's method, its names left as parameters. */
  function Body(x: string, y: string, z: string, u: string, v: string, w: string): seq<Stmt> {
    [Exprs([Call([Argument([Declare(x, Pos(6, 23), Initialized)])])])] + ([Exprs([Call([Argument([Declare(y, Pos(7, 23), Bare(Pos(7, 19)))])])])] + ([Exprs([Call([Argument([Declare(z, Pos(8, 24), Initialized)])])])] + ([Exprs([Call([Argument([Declare(u, Pos(9, 24), Bare(Pos(9, 20)))])])])] + ([Exprs([Call([Argument([Declare(v, Pos(10, 19), Bare(Pos(10, 15)))])])])] + ([Exprs([Call([Argument([Declare(w, Pos(11, 20), Bare(Pos(11, 16)))])])])])))))
  }

  /** The program of the test: one method holding those statements. */
  function Program(x: string, y: string, z: string, u: string, v: string, w: string): seq<Fragment> {
    MainUnit(Body(x, y, z, u, v, w))
  }

  /** Scopes 0 to 4, in the order the walk opens them. */
  function Layout0(): seq<Scope> {
    [Scope(Unit, None),
     Scope(InstanceInitializers, Some(0)),
     Scope(StaticInitializers, Some(0)),
     Scope(MethodBody, Some(0)),
     Scope(BlockBody, Some(3))]
  }

  /** Its scopes, in the order the walk opens them. */
  function Layout(): seq<Scope> {
    Layout0()
  }

  lemma {:induction false} LayoutJoin0()
    ensures [Scope(Unit, None), Scope(InstanceInitializers, Some(0)), Scope(StaticInitializers, Some(0)), Scope(MethodBody, Some(0)), Scope(BlockBody, Some(3))] == Layout0()
  {
  }

  /** The layout, scope by scope. */
  lemma {:induction false} LayoutFlat()
    ensures [Scope(Unit, None), Scope(InstanceInitializers, Some(0)), Scope(StaticInitializers, Some(0)), Scope(MethodBody, Some(0)), Scope(BlockBody, Some(3))] == Layout()
  {
    LayoutJoin0();
  }

  /** Events 0 to 7 of the test, in evaluation order. */
  function Chunk0(x: string, y: string, z: string, u: string, v: string, w: string): seq<Event> {
    []
      + [Declared(4, x, Pos(6, 23), Initialized, [])]
      + [OutAssigned(4, [], [])]
      + [Declared(4, y, Pos(7, 23), Bare(Pos(7, 19)), [])]
      + [OutAssigned(4, [], [])]
      + [Declared(4, z, Pos(8, 24), Initialized, [])]
      + [OutAssigned(4, [], [])]
      + [Declared(4, u, Pos(9, 24), Bare(Pos(9, 20)), [])]
      + [OutAssigned(4, [], [])]
  }

  /** Events 8 to 11 of the test, in evaluation order. */
  function Chunk1(x: string, y: string, z: string, u: string, v: string, w: string): seq<Event> {
    []
      + [Declared(4, v, Pos(10, 19), Bare(Pos(10, 15)), [])]
      + [OutAssigned(4, [], [])]
      + [Declared(4, w, Pos(11, 20), Bare(Pos(11, 16)), [])]
      + [OutAssigned(4, [], [])]
  }

  /** The events of the test, in evaluation order. */
  function Trace(x: string, y: string, z: string, u: string, v: string, w: string): seq<Event> {
    []
      + Chunk0(x, y, z, u, v, w)
      + Chunk1(x, y, z, u, v, w)
  }

  lemma {:induction false} Walk2(x: string, y: string, z: string, u: string, v: string, w: string, tr: Tree)
    requires |tr.scopes| == 5 && tr.arms == 0
    ensures WalkStmt(Exprs([Call([Argument([Declare(x, Pos(6, 23), Initialized)])])]), Ctx(4, [], []), tr) == Tree(tr.scopes, tr.events + [Declared(4, x, Pos(6, 23), Initialized, [])] + [OutAssigned(4, [], [])], 0)
  {
    WalkExprsOne(Call([Argument([Declare(x, Pos(6, 23), Initialized)])]), Ctx(4, [], []), tr);
    assert OutNames([]) == [];
    WalkArgsOne(Argument([Declare(x, Pos(6, 23), Initialized)]), [], Ctx(4, [], []), tr);
    WalkExprsOne(Declare(x, Pos(6, 23), Initialized), Ctx(4, [], []), tr);
    assert WalkExpr(Declare(x, Pos(6, 23), Initialized), Ctx(4, [], []), tr) == Tree(tr.scopes, tr.events + [Declared(4, x, Pos(6, 23), Initialized, [])], 0);
    assert WalkExprs([Declare(x, Pos(6, 23), Initialized)], Ctx(4, [], []), tr) == Tree(tr.scopes, tr.events + [Declared(4, x, Pos(6, 23), Initialized, [])], 0);
    OutNamesOfOne(Declare(x, Pos(6, 23), Initialized));
    OutNamesSnoc([], Argument([Declare(x, Pos(6, 23), Initialized)]));
    assert WalkArgs([Argument([Declare(x, Pos(6, 23), Initialized)])], [], Ctx(4, [], []), tr) == Tree(tr.scopes, tr.events + [Declared(4, x, Pos(6, 23), Initialized, [])], 0);
    assert OutNames([Argument([Declare(x, Pos(6, 23), Initialized)])]) == [];
    assert WalkExpr(Call([Argument([Declare(x, Pos(6, 23), Initialized)])]), Ctx(4, [], []), tr) == Tree(tr.scopes, tr.events + [Declared(4, x, Pos(6, 23), Initialized, [])] + [OutAssigned(4, [], [])], 0);
    assert WalkExprs([Call([Argument([Declare(x, Pos(6, 23), Initialized)])])], Ctx(4, [], []), tr) == Tree(tr.scopes, tr.events + [Declared(4, x, Pos(6, 23), Initialized, [])] + [OutAssigned(4, [], [])], 0);
    assert WalkStmt(Exprs([Call([Argument([Declare(x, Pos(6, 23), Initialized)])])]), Ctx(4, [], []), tr) == Tree(tr.scopes, tr.events + [Declared(4, x, Pos(6, 23), Initialized, [])] + [OutAssigned(4, [], [])], 0);
  }

  lemma {:induction false} Walk3(x: string, y: string, z: string, u: string, v: string, w: string, tr: Tree)
    requires |tr.scopes| == 5 && tr.arms == 0
    ensures WalkStmt(Exprs([Call([Argument([Declare(y, Pos(7, 23), Bare(Pos(7, 19)))])])]), Ctx(4, [], []), tr) == Tree(tr.scopes, tr.events + [Declared(4, y, Pos(7, 23), Bare(Pos(7, 19)), [])] + [OutAssigned(4, [], [])], 0)
  {
    WalkExprsOne(Call([Argument([Declare(y, Pos(7, 23), Bare(Pos(7, 19)))])]), Ctx(4, [], []), tr);
    assert OutNames([]) == [];
    WalkArgsOne(Argument([Declare(y, Pos(7, 23), Bare(Pos(7, 19)))]), [], Ctx(4, [], []), tr);
    WalkExprsOne(Declare(y, Pos(7, 23), Bare(Pos(7, 19))), Ctx(4, [], []), tr);
    assert WalkExpr(Declare(y, Pos(7, 23), Bare(Pos(7, 19))), Ctx(4, [], []), tr) == Tree(tr.scopes, tr.events + [Declared(4, y, Pos(7, 23), Bare(Pos(7, 19)), [])], 0);
    assert WalkExprs([Declare(y, Pos(7, 23), Bare(Pos(7, 19)))], Ctx(4, [], []), tr) == Tree(tr.scopes, tr.events + [Declared(4, y, Pos(7, 23), Bare(Pos(7, 19)), [])], 0);
    OutNamesOfOne(Declare(y, Pos(7, 23), Bare(Pos(7, 19))));
    OutNamesSnoc([], Argument([Declare(y, Pos(7, 23), Bare(Pos(7, 19)))]));
    assert WalkArgs([Argument([Declare(y, Pos(7, 23), Bare(Pos(7, 19)))])], [], Ctx(4, [], []), tr) == Tree(tr.scopes, tr.events + [Declared(4, y, Pos(7, 23), Bare(Pos(7, 19)), [])], 0);
    assert OutNames([Argument([Declare(y, Pos(7, 23), Bare(Pos(7, 19)))])]) == [];
    assert WalkExpr(Call([Argument([Declare(y, Pos(7, 23), Bare(Pos(7, 19)))])]), Ctx(4, [], []), tr) == Tree(tr.scopes, tr.events + [Declared(4, y, Pos(7, 23), Bare(Pos(7, 19)), [])] + [OutAssigned(4, [], [])], 0);
    assert WalkExprs([Call([Argument([Declare(y, Pos(7, 23), Bare(Pos(7, 19)))])])], Ctx(4, [], []), tr) == Tree(tr.scopes, tr.events + [Declared(4, y, Pos(7, 23), Bare(Pos(7, 19)), [])] + [OutAssigned(4, [], [])], 0);
    assert WalkStmt(Exprs([Call([Argument([Declare(y, Pos(7, 23), Bare(Pos(7, 19)))])])]), Ctx(4, [], []), tr) == Tree(tr.scopes, tr.events + [Declared(4, y, Pos(7, 23), Bare(Pos(7, 19)), [])] + [OutAssigned(4, [], [])], 0);
  }

  lemma {:induction false} Walk4(x: string, y: string, z: string, u: string, v: string, w: string, tr: Tree)
    requires |tr.scopes| == 5 && tr.arms == 0
    ensures WalkStmt(Exprs([Call([Argument([Declare(z, Pos(8, 24), Initialized)])])]), Ctx(4, [], []), tr) == Tree(tr.scopes, tr.events + [Declared(4, z, Pos(8, 24), Initialized, [])] + [OutAssigned(4, [], [])], 0)
  {
    WalkExprsOne(Call([Argument([Declare(z, Pos(8, 24), Initialized)])]), Ctx(4, [], []), tr);
    assert OutNames([]) == [];
    WalkArgsOne(Argument([Declare(z, Pos(8, 24), Initialized)]), [], Ctx(4, [], []), tr);
    WalkExprsOne(Declare(z, Pos(8, 24), Initialized), Ctx(4, [], []), tr);
    assert WalkExpr(Declare(z, Pos(8, 24), Initialized), Ctx(4, [], []), tr) == Tree(tr.scopes, tr.events + [Declared(4, z, Pos(8, 24), Initialized, [])], 0);
    assert WalkExprs([Declare(z, Pos(8, 24), Initialized)], Ctx(4, [], []), tr) == Tree(tr.scopes, tr.events + [Declared(4, z, Pos(8, 24), Initialized, [])], 0);
    OutNamesOfOne(Declare(z, Pos(8, 24), Initialized));
    OutNamesSnoc([], Argument([Declare(z, Pos(8, 24), Initialized)]));
    assert WalkArgs([Argument([Declare(z, Pos(8, 24), Initialized)])], [], Ctx(4, [], []), tr) == Tree(tr.scopes, tr.events + [Declared(4, z, Pos(8, 24), Initialized, [])], 0);
    assert OutNames([Argument([Declare(z, Pos(8, 24), Initialized)])]) == [];
    assert WalkExpr(Call([Argument([Declare(z, Pos(8, 24), Initialized)])]), Ctx(4, [], []), tr) == Tree(tr.scopes, tr.events + [Declared(4, z, Pos(8, 24), Initialized, [])] + [OutAssigned(4, [], [])], 0);
    assert WalkExprs([Call([Argument([Declare(z, Pos(8, 24), Initialized)])])], Ctx(4, [], []), tr) == Tree(tr.scopes, tr.events + [Declared(4, z, Pos(8, 24), Initialized, [])] + [OutAssigned(4, [], [])], 0);
    assert WalkStmt(Exprs([Call([Argument([Declare(z, Pos(8, 24), Initialized)])])]), Ctx(4, [], []), tr) == Tree(tr.scopes, tr.events + [Declared(4, z, Pos(8, 24), Initialized, [])] + [OutAssigned(4, [], [])], 0);
  }

  lemma {:induction false} Walk5(x: string, y: string, z: string, u: string, v: string, w: string, tr: Tree)
    requires |tr.scopes| == 5 && tr.arms == 0
    ensures WalkStmt(Exprs([Call([Argument([Declare(u, Pos(9, 24), Bare(Pos(9, 20)))])])]), Ctx(4, [], []), tr) == Tree(tr.scopes, tr.events + [Declared(4, u, Pos(9, 24), Bare(Pos(9, 20)), [])] + [OutAssigned(4, [], [])], 0)
  {
    WalkExprsOne(Call([Argument([Declare(u, Pos(9, 24), Bare(Pos(9, 20)))])]), Ctx(4, [], []), tr);
    assert OutNames([]) == [];
    WalkArgsOne(Argument([Declare(u, Pos(9, 24), Bare(Pos(9, 20)))]), [], Ctx(4, [], []), tr);
    WalkExprsOne(Declare(u, Pos(9, 24), Bare(Pos(9, 20))), Ctx(4, [], []), tr);
    assert WalkExpr(Declare(u, Pos(9, 24), Bare(Pos(9, 20))), Ctx(4, [], []), tr) == Tree(tr.scopes, tr.events + [Declared(4, u, Pos(9, 24), Bare(Pos(9, 20)), [])], 0);
    assert WalkExprs([Declare(u, Pos(9, 24), Bare(Pos(9, 20)))], Ctx(4, [], []), tr) == Tree(tr.scopes, tr.events + [Declared(4, u, Pos(9, 24), Bare(Pos(9, 20)), [])], 0);
    OutNamesOfOne(Declare(u, Pos(9, 24), Bare(Pos(9, 20))));
    OutNamesSnoc([], Argument([Declare(u, Pos(9, 24), Bare(Pos(9, 20)))]));
    assert WalkArgs([Argument([Declare(u, Pos(9, 24), Bare(Pos(9, 20)))])], [], Ctx(4, [], []), tr) == Tree(tr.scopes, tr.events + [Declared(4, u, Pos(9, 24), Bare(Pos(9, 20)), [])], 0);
    assert OutNames([Argument([Declare(u, Pos(9, 24), Bare(Pos(9, 20)))])]) == [];
    assert WalkExpr(Call([Argument([Declare(u, Pos(9, 24), Bare(Pos(9, 20)))])]), Ctx(4, [], []), tr) == Tree(tr.scopes, tr.events + [Declared(4, u, Pos(9, 24), Bare(Pos(9, 20)), [])] + [OutAssigned(4, [], [])], 0);
    assert WalkExprs([Call([Argument([Declare(u, Pos(9, 24), Bare(Pos(9, 20)))])])], Ctx(4, [], []), tr) == Tree(tr.scopes, tr.events + [Declared(4, u, Pos(9, 24), Bare(Pos(9, 20)), [])] + [OutAssigned(4, [], [])], 0);
    assert WalkStmt(Exprs([Call([Argument([Declare(u, Pos(9, 24), Bare(Pos(9, 20)))])])]), Ctx(4, [], []), tr) == Tree(tr.scopes, tr.events + [Declared(4, u, Pos(9, 24), Bare(Pos(9, 20)), [])] + [OutAssigned(4, [], [])], 0);
  }

  lemma {:induction false} Stmts1(x: string, y: string, z: string, u: string, v: string, w: string, tr: Tree, rest: seq<Stmt>)
    requires |tr.scopes| == 5 && tr.arms == 0
    ensures WalkStmts([Exprs([Call([Argument([Declare(x, Pos(6, 23), Initialized)])])])] + ([Exprs([Call([Argument([Declare(y, Pos(7, 23), Bare(Pos(7, 19)))])])])] + ([Exprs([Call([Argument([Declare(z, Pos(8, 24), Initialized)])])])] + ([Exprs([Call([Argument([Declare(u, Pos(9, 24), Bare(Pos(9, 20)))])])])] + (rest)))), Ctx(4, [], []), tr) == WalkStmts(rest, Ctx(4, [], []), Tree(tr.scopes, tr.events + [Declared(4, x, Pos(6, 23), Initialized, [])] + [OutAssigned(4, [], [])] + [Declared(4, y, Pos(7, 23), Bare(Pos(7, 19)), [])] + [OutAssigned(4, [], [])] + [Declared(4, z, Pos(8, 24), Initialized, [])] + [OutAssigned(4, [], [])] + [Declared(4, u, Pos(9, 24), Bare(Pos(9, 20)), [])] + [OutAssigned(4, [], [])], 0))
  {
    WalkStmtsCons(Exprs([Call([Argument([Declare(x, Pos(6, 23), Initialized)])])]), [Exprs([Call([Argument([Declare(y, Pos(7, 23), Bare(Pos(7, 19)))])])])] + ([Exprs([Call([Argument([Declare(z, Pos(8, 24), Initialized)])])])] + ([Exprs([Call([Argument([Declare(u, Pos(9, 24), Bare(Pos(9, 20)))])])])] + (rest))), Ctx(4, [], []), tr);
    Walk2(x, y, z, u, v, w, tr);
    assert WalkStmt(Exprs([Call([Argument([Declare(x, Pos(6, 23), Initialized)])])]), Ctx(4, [], []), tr) == Tree(tr.scopes, tr.events + [Declared(4, x, Pos(6, 23), Initialized, [])] + [OutAssigned(4, [], [])], 0);
    WalkStmtsCons(Exprs([Call([Argument([Declare(y, Pos(7, 23), Bare(Pos(7, 19)))])])]), [Exprs([Call([Argument([Declare(z, Pos(8, 24), Initialized)])])])] + ([Exprs([Call([Argument([Declare(u, Pos(9, 24), Bare(Pos(9, 20)))])])])] + (rest)), Ctx(4, [], []), Tree(tr.scopes, tr.events + [Declared(4, x, Pos(6, 23), Initialized, [])] + [OutAssigned(4, [], [])], 0));
    Walk3(x, y, z, u, v, w, Tree(tr.scopes, tr.events + [Declared(4, x, Pos(6, 23), Initialized, [])] + [OutAssigned(4, [], [])], 0));
    assert WalkStmt(Exprs([Call([Argument([Declare(y, Pos(7, 23), Bare(Pos(7, 19)))])])]), Ctx(4, [], []), Tree(tr.scopes, tr.events + [Declared(4, x, Pos(6, 23), Initialized, [])] + [OutAssigned(4, [], [])], 0)) == Tree(tr.scopes, tr.events + [Declared(4, x, Pos(6, 23), Initialized, [])] + [OutAssigned(4, [], [])] + [Declared(4, y, Pos(7, 23), Bare(Pos(7, 19)), [])] + [OutAssigned(4, [], [])], 0);
    WalkStmtsCons(Exprs([Call([Argument([Declare(z, Pos(8, 24), Initialized)])])]), [Exprs([Call([Argument([Declare(u, Pos(9, 24), Bare(Pos(9, 20)))])])])] + (rest), Ctx(4, [], []), Tree(tr.scopes, tr.events + [Declared(4, x, Pos(6, 23), Initialized, [])] + [OutAssigned(4, [], [])] + [Declared(4, y, Pos(7, 23), Bare(Pos(7, 19)), [])] + [OutAssigned(4, [], [])], 0));
    Walk4(x, y, z, u, v, w, Tree(tr.scopes, tr.events + [Declared(4, x, Pos(6, 23), Initialized, [])] + [OutAssigned(4, [], [])] + [Declared(4, y, Pos(7, 23), Bare(Pos(7, 19)), [])] + [OutAssigned(4, [], [])], 0));
    assert WalkStmt(Exprs([Call([Argument([Declare(z, Pos(8, 24), Initialized)])])]), Ctx(4, [], []), Tree(tr.scopes, tr.events + [Declared(4, x, Pos(6, 23), Initialized, [])] + [OutAssigned(4, [], [])] + [Declared(4, y, Pos(7, 23), Bare(Pos(7, 19)), [])] + [OutAssigned(4, [], [])], 0)) == Tree(tr.scopes, tr.events + [Declared(4, x, Pos(6, 23), Initialized, [])] + [OutAssigned(4, [], [])] + [Declared(4, y, Pos(7, 23), Bare(Pos(7, 19)), [])] + [OutAssigned(4, [], [])] + [Declared(4, z, Pos(8, 24), Initialized, [])] + [OutAssigned(4, [], [])], 0);
    WalkStmtsCons(Exprs([Call([Argument([Declare(u, Pos(9, 24), Bare(Pos(9, 20)))])])]), rest, Ctx(4, [], []), Tree(tr.scopes, tr.events + [Declared(4, x, Pos(6, 23), Initialized, [])] + [OutAssigned(4, [], [])] + [Declared(4, y, Pos(7, 23), Bare(Pos(7, 19)), [])] + [OutAssigned(4, [], [])] + [Declared(4, z, Pos(8, 24), Initialized, [])] + [OutAssigned(4, [], [])], 0));
    Walk5(x, y, z, u, v, w, Tree(tr.scopes, tr.events + [Declared(4, x, Pos(6, 23), Initialized, [])] + [OutAssigned(4, [], [])] + [Declared(4, y, Pos(7, 23), Bare(Pos(7, 19)), [])] + [OutAssigned(4, [], [])] + [Declared(4, z, Pos(8, 24), Initialized, [])] + [OutAssigned(4, [], [])], 0));
    assert WalkStmt(Exprs([Call([Argument([Declare(u, Pos(9, 24), Bare(Pos(9, 20)))])])]), Ctx(4, [], []), Tree(tr.scopes, tr.events + [Declared(4, x, Pos(6, 23), Initialized, [])] + [OutAssigned(4, [], [])] + [Declared(4, y, Pos(7, 23), Bare(Pos(7, 19)), [])] + [OutAssigned(4, [], [])] + [Declared(4, z, Pos(8, 24), Initialized, [])] + [OutAssigned(4, [], [])], 0)) == Tree(tr.scopes, tr.events + [Declared(4, x, Pos(6, 23), Initialized, [])] + [OutAssigned(4, [], [])] + [Declared(4, y, Pos(7, 23), Bare(Pos(7, 19)), [])] + [OutAssigned(4, [], [])] + [Declared(4, z, Pos(8, 24), Initialized, [])] + [OutAssigned(4, [], [])] + [Declared(4, u, Pos(9, 24), Bare(Pos(9, 20)), [])] + [OutAssigned(4, [], [])], 0);
  }

  lemma {:induction false} Walk7(x: string, y: string, z: string, u: string, v: string, w: string, tr: Tree)
    requires |tr.scopes| == 5 && tr.arms == 0
    ensures WalkStmt(Exprs([Call([Argument([Declare(v, Pos(10, 19), Bare(Pos(10, 15)))])])]), Ctx(4, [], []), tr) == Tree(tr.scopes, tr.events + [Declared(4, v, Pos(10, 19), Bare(Pos(10, 15)), [])] + [OutAssigned(4, [], [])], 0)
  {
    WalkExprsOne(Call([Argument([Declare(v, Pos(10, 19), Bare(Pos(10, 15)))])]), Ctx(4, [], []), tr);
    assert OutNames([]) == [];
    WalkArgsOne(Argument([Declare(v, Pos(10, 19), Bare(Pos(10, 15)))]), [], Ctx(4, [], []), tr);
    WalkExprsOne(Declare(v, Pos(10, 19), Bare(Pos(10, 15))), Ctx(4, [], []), tr);
    assert WalkExpr(Declare(v, Pos(10, 19), Bare(Pos(10, 15))), Ctx(4, [], []), tr) == Tree(tr.scopes, tr.events + [Declared(4, v, Pos(10, 19), Bare(Pos(10, 15)), [])], 0);
    assert WalkExprs([Declare(v, Pos(10, 19), Bare(Pos(10, 15)))], Ctx(4, [], []), tr) == Tree(tr.scopes, tr.events + [Declared(4, v, Pos(10, 19), Bare(Pos(10, 15)), [])], 0);
    OutNamesOfOne(Declare(v, Pos(10, 19), Bare(Pos(10, 15))));
    OutNamesSnoc([], Argument([Declare(v, Pos(10, 19), Bare(Pos(10, 15)))]));
    assert WalkArgs([Argument([Declare(v, Pos(10, 19), Bare(Pos(10, 15)))])], [], Ctx(4, [], []), tr) == Tree(tr.scopes, tr.events + [Declared(4, v, Pos(10, 19), Bare(Pos(10, 15)), [])], 0);
    assert OutNames([Argument([Declare(v, Pos(10, 19), Bare(Pos(10, 15)))])]) == [];
    assert WalkExpr(Call([Argument([Declare(v, Pos(10, 19), Bare(Pos(10, 15)))])]), Ctx(4, [], []), tr) == Tree(tr.scopes, tr.events + [Declared(4, v, Pos(10, 19), Bare(Pos(10, 15)), [])] + [OutAssigned(4, [], [])], 0);
    assert WalkExprs([Call([Argument([Declare(v, Pos(10, 19), Bare(Pos(10, 15)))])])], Ctx(4, [], []), tr) == Tree(tr.scopes, tr.events + [Declared(4, v, Pos(10, 19), Bare(Pos(10, 15)), [])] + [OutAssigned(4, [], [])], 0);
    assert WalkStmt(Exprs([Call([Argument([Declare(v, Pos(10, 19), Bare(Pos(10, 15)))])])]), Ctx(4, [], []), tr) == Tree(tr.scopes, tr.events + [Declared(4, v, Pos(10, 19), Bare(Pos(10, 15)), [])] + [OutAssigned(4, [], [])], 0);
  }

  lemma {:induction false} Walk8(x: string, y: string, z: string, u: string, v: string, w: string, tr: Tree)
    requires |tr.scopes| == 5 && tr.arms == 0
    ensures WalkStmt(Exprs([Call([Argument([Declare(w, Pos(11, 20), Bare(Pos(11, 16)))])])]), Ctx(4, [], []), tr) == Tree(tr.scopes, tr.events + [Declared(4, w, Pos(11, 20), Bare(Pos(11, 16)), [])] + [OutAssigned(4, [], [])], 0)
  {
    WalkExprsOne(Call([Argument([Declare(w, Pos(11, 20), Bare(Pos(11, 16)))])]), Ctx(4, [], []), tr);
    assert OutNames([]) == [];
    WalkArgsOne(Argument([Declare(w, Pos(11, 20), Bare(Pos(11, 16)))]), [], Ctx(4, [], []), tr);
    WalkExprsOne(Declare(w, Pos(11, 20), Bare(Pos(11, 16))), Ctx(4, [], []), tr);
    assert WalkExpr(Declare(w, Pos(11, 20), Bare(Pos(11, 16))), Ctx(4, [], []), tr) == Tree(tr.scopes, tr.events + [Declared(4, w, Pos(11, 20), Bare(Pos(11, 16)), [])], 0);
    assert WalkExprs([Declare(w, Pos(11, 20), Bare(Pos(11, 16)))], Ctx(4, [], []), tr) == Tree(tr.scopes, tr.events + [Declared(4, w, Pos(11, 20), Bare(Pos(11, 16)), [])], 0);
    OutNamesOfOne(Declare(w, Pos(11, 20), Bare(Pos(11, 16))));
    OutNamesSnoc([], Argument([Declare(w, Pos(11, 20), Bare(Pos(11, 16)))]));
    assert WalkArgs([Argument([Declare(w, Pos(11, 20), Bare(Pos(11, 16)))])], [], Ctx(4, [], []), tr) == Tree(tr.scopes, tr.events + [Declared(4, w, Pos(11, 20), Bare(Pos(11, 16)), [])], 0);
    assert OutNames([Argument([Declare(w, Pos(11, 20), Bare(Pos(11, 16)))])]) == [];
    assert WalkExpr(Call([Argument([Declare(w, Pos(11, 20), Bare(Pos(11, 16)))])]), Ctx(4, [], []), tr) == Tree(tr.scopes, tr.events + [Declared(4, w, Pos(11, 20), Bare(Pos(11, 16)), [])] + [OutAssigned(4, [], [])], 0);
    assert WalkExprs([Call([Argument([Declare(w, Pos(11, 20), Bare(Pos(11, 16)))])])], Ctx(4, [], []), tr) == Tree(tr.scopes, tr.events + [Declared(4, w, Pos(11, 20), Bare(Pos(11, 16)), [])] + [OutAssigned(4, [], [])], 0);
    assert WalkStmt(Exprs([Call([Argument([Declare(w, Pos(11, 20), Bare(Pos(11, 16)))])])]), Ctx(4, [], []), tr) == Tree(tr.scopes, tr.events + [Declared(4, w, Pos(11, 20), Bare(Pos(11, 16)), [])] + [OutAssigned(4, [], [])], 0);
  }

  lemma {:induction false} Stmts6(x: string, y: string, z: string, u: string, v: string, w: string, tr: Tree)
    requires |tr.scopes| == 5 && tr.arms == 0
    ensures WalkStmts([Exprs([Call([Argument([Declare(v, Pos(10, 19), Bare(Pos(10, 15)))])])])] + ([Exprs([Call([Argument([Declare(w, Pos(11, 20), Bare(Pos(11, 16)))])])])]), Ctx(4, [], []), tr) == Tree(tr.scopes, tr.events + [Declared(4, v, Pos(10, 19), Bare(Pos(10, 15)), [])] + [OutAssigned(4, [], [])] + [Declared(4, w, Pos(11, 20), Bare(Pos(11, 16)), [])] + [OutAssigned(4, [], [])], 0)
  {
    WalkStmtsCons(Exprs([Call([Argument([Declare(v, Pos(10, 19), Bare(Pos(10, 15)))])])]), [Exprs([Call([Argument([Declare(w, Pos(11, 20), Bare(Pos(11, 16)))])])])], Ctx(4, [], []), tr);
    Walk7(x, y, z, u, v, w, tr);
    assert WalkStmt(Exprs([Call([Argument([Declare(v, Pos(10, 19), Bare(Pos(10, 15)))])])]), Ctx(4, [], []), tr) == Tree(tr.scopes, tr.events + [Declared(4, v, Pos(10, 19), Bare(Pos(10, 15)), [])] + [OutAssigned(4, [], [])], 0);
    WalkStmtsOne(Exprs([Call([Argument([Declare(w, Pos(11, 20), Bare(Pos(11, 16)))])])]), Ctx(4, [], []), Tree(tr.scopes, tr.events + [Declared(4, v, Pos(10, 19), Bare(Pos(10, 15)), [])] + [OutAssigned(4, [], [])], 0));
    Walk8(x, y, z, u, v, w, Tree(tr.scopes, tr.events + [Declared(4, v, Pos(10, 19), Bare(Pos(10, 15)), [])] + [OutAssigned(4, [], [])], 0));
    assert WalkStmt(Exprs([Call([Argument([Declare(w, Pos(11, 20), Bare(Pos(11, 16)))])])]), Ctx(4, [], []), Tree(tr.scopes, tr.events + [Declared(4, v, Pos(10, 19), Bare(Pos(10, 15)), [])] + [OutAssigned(4, [], [])], 0)) == Tree(tr.scopes, tr.events + [Declared(4, v, Pos(10, 19), Bare(Pos(10, 15)), [])] + [OutAssigned(4, [], [])] + [Declared(4, w, Pos(11, 20), Bare(Pos(11, 16)), [])] + [OutAssigned(4, [], [])], 0);
  }

  lemma {:induction false} Join0(x: string, y: string, z: string, u: string, v: string, w: string, evs: seq<Event>)
    ensures evs + Chunk0(x, y, z, u, v, w) == evs + [Declared(4, x, Pos(6, 23), Initialized, [])] + [OutAssigned(4, [], [])] + [Declared(4, y, Pos(7, 23), Bare(Pos(7, 19)), [])] + [OutAssigned(4, [], [])] + [Declared(4, z, Pos(8, 24), Initialized, [])] + [OutAssigned(4, [], [])] + [Declared(4, u, Pos(9, 24), Bare(Pos(9, 20)), [])] + [OutAssigned(4, [], [])]
  {
  }

  lemma {:induction false} Join1(x: string, y: string, z: string, u: string, v: string, w: string, evs: seq<Event>)
    ensures evs + Chunk1(x, y, z, u, v, w) == evs + [Declared(4, v, Pos(10, 19), Bare(Pos(10, 15)), [])] + [OutAssigned(4, [], [])] + [Declared(4, w, Pos(11, 20), Bare(Pos(11, 16)), [])] + [OutAssigned(4, [], [])]
  {
  }

  /** The trace, event by event. */
  lemma {:induction false} Flat(x: string, y: string, z: string, u: string, v: string, w: string)
    ensures [] + [Declared(4, x, Pos(6, 23), Initialized, [])] + [OutAssigned(4, [], [])] + [Declared(4, y, Pos(7, 23), Bare(Pos(7, 19)), [])] + [OutAssigned(4, [], [])] + [Declared(4, z, Pos(8, 24), Initialized, [])] + [OutAssigned(4, [], [])] + [Declared(4, u, Pos(9, 24), Bare(Pos(9, 20)), [])] + [OutAssigned(4, [], [])] + [Declared(4, v, Pos(10, 19), Bare(Pos(10, 15)), [])] + [OutAssigned(4, [], [])] + [Declared(4, w, Pos(11, 20), Bare(Pos(11, 16)), [])] + [OutAssigned(4, [], [])] == Trace(x, y, z, u, v, w)
  {
    Join0(x, y, z, u, v, w, []);
    Join1(x, y, z, u, v, w, [] + Chunk0(x, y, z, u, v, w));
  }

  lemma {:induction false} Walked(x: string, y: string, z: string, u: string, v: string, w: string)
    ensures Build(Program(x, y, z, u, v, w)) == Tree(Layout(), Trace(x, y, z, u, v, w), 0)
  {
    MainBuild(Body(x, y, z, u, v, w));
    Stmts1(x, y, z, u, v, w, MainHead(), [Exprs([Call([Argument([Declare(v, Pos(10, 19), Bare(Pos(10, 15)))])])])] + ([Exprs([Call([Argument([Declare(w, Pos(11, 20), Bare(Pos(11, 16)))])])])]));
    Stmts6(x, y, z, u, v, w, Tree(MainHead().scopes, MainHead().events + [Declared(4, x, Pos(6, 23), Initialized, [])] + [OutAssigned(4, [], [])] + [Declared(4, y, Pos(7, 23), Bare(Pos(7, 19)), [])] + [OutAssigned(4, [], [])] + [Declared(4, z, Pos(8, 24), Initialized, [])] + [OutAssigned(4, [], [])] + [Declared(4, u, Pos(9, 24), Bare(Pos(9, 20)), [])] + [OutAssigned(4, [], [])], 0));
    LayoutFlat();
    Flat(x, y, z, u, v, w);
  }

  /** The locals events of chunk `ck` declare in scope `sc`, in order. */
  function NewIn(x: string, y: string, z: string, u: string, v: string, w: string, ck: nat, sc: nat): seq<Local> {
    if ck == 0 then
      if sc == 4 then [] + [Local(x, Pos(6, 23))] + [Local(y, Pos(7, 23))] + [Local(z, Pos(8, 24))] + [Local(u, Pos(9, 24))]
      else []
    else if ck == 1 then
      if sc == 4 then [] + [Local(v, Pos(10, 19))] + [Local(w, Pos(11, 20))]
      else []
    else []
  }

  /** The locals the first `ck` chunks declare in scope `sc`, in order. */
  function DeclaredBy(x: string, y: string, z: string, u: string, v: string, w: string, ck: nat, sc: nat): seq<Local>
    decreases ck
  {
    if ck == 0 then [] else DeclaredBy(x, y, z, u, v, w, ck - 1, sc) + NewIn(x, y, z, u, v, w, ck - 1, sc)
  }

  /** The locals declared once events 0 to 7 follow some events. */
  lemma {:induction false} Decls0(x: string, y: string, z: string, u: string, v: string, w: string, evs: seq<Event>, sc: nat)
    requires DeclsIn(evs, sc) == DeclaredBy(x, y, z, u, v, w, 0, sc)
    ensures DeclsIn(evs + Chunk0(x, y, z, u, v, w), sc) == DeclaredBy(x, y, z, u, v, w, 1, sc)
  {
    DeclsInAppend(evs, Chunk0(x, y, z, u, v, w), sc);
    assert DeclsIn([], sc) == [];
    if sc == 4 {
      DeclsInAdd([], Declared(4, x, Pos(6, 23), Initialized, []), 4);
      DeclsInSkip([] + [Declared(4, x, Pos(6, 23), Initialized, [])], OutAssigned(4, [], []), 4);
      DeclsInAdd([] + [Declared(4, x, Pos(6, 23), Initialized, [])] + [OutAssigned(4, [], [])], Declared(4, y, Pos(7, 23), Bare(Pos(7, 19)), []), 4);
      DeclsInSkip([] + [Declared(4, x, Pos(6, 23), Initialized, [])] + [OutAssigned(4, [], [])] + [Declared(4, y, Pos(7, 23), Bare(Pos(7, 19)), [])], OutAssigned(4, [], []), 4);
      DeclsInAdd([] + [Declared(4, x, Pos(6, 23), Initialized, [])] + [OutAssigned(4, [], [])] + [Declared(4, y, Pos(7, 23), Bare(Pos(7, 19)), [])] + [OutAssigned(4, [], [])], Declared(4, z, Pos(8, 24), Initialized, []), 4);
      DeclsInSkip([] + [Declared(4, x, Pos(6, 23), Initialized, [])] + [OutAssigned(4, [], [])] + [Declared(4, y, Pos(7, 23), Bare(Pos(7, 19)), [])] + [OutAssigned(4, [], [])] + [Declared(4, z, Pos(8, 24), Initialized, [])], OutAssigned(4, [], []), 4);
      DeclsInAdd([] + [Declared(4, x, Pos(6, 23), Initialized, [])] + [OutAssigned(4, [], [])] + [Declared(4, y, Pos(7, 23), Bare(Pos(7, 19)), [])] + [OutAssigned(4, [], [])] + [Declared(4, z, Pos(8, 24), Initialized, [])] + [OutAssigned(4, [], [])], Declared(4, u, Pos(9, 24), Bare(Pos(9, 20)), []), 4);
      DeclsInSkip([] + [Declared(4, x, Pos(6, 23), Initialized, [])] + [OutAssigned(4, [], [])] + [Declared(4, y, Pos(7, 23), Bare(Pos(7, 19)), [])] + [OutAssigned(4, [], [])] + [Declared(4, z, Pos(8, 24), Initialized, [])] + [OutAssigned(4, [], [])] + [Declared(4, u, Pos(9, 24), Bare(Pos(9, 20)), [])], OutAssigned(4, [], []), 4);
    } else {
      DeclsInSkip([], Declared(4, x, Pos(6, 23), Initialized, []), sc);
      DeclsInSkip([] + [Declared(4, x, Pos(6, 23), Initialized, [])], OutAssigned(4, [], []), sc);
      DeclsInSkip([] + [Declared(4, x, Pos(6, 23), Initialized, [])] + [OutAssigned(4, [], [])], Declared(4, y, Pos(7, 23), Bare(Pos(7, 19)), []), sc);
      DeclsInSkip([] + [Declared(4, x, Pos(6, 23), Initialized, [])] + [OutAssigned(4, [], [])] + [Declared(4, y, Pos(7, 23), Bare(Pos(7, 19)), [])], OutAssigned(4, [], []), sc);
      DeclsInSkip([] + [Declared(4, x, Pos(6, 23), Initialized, [])] + [OutAssigned(4, [], [])] + [Declared(4, y, Pos(7, 23), Bare(Pos(7, 19)), [])] + [OutAssigned(4, [], [])], Declared(4, z, Pos(8, 24), Initialized, []), sc);
      DeclsInSkip([] + [Declared(4, x, Pos(6, 23), Initialized, [])] + [OutAssigned(4, [], [])] + [Declared(4, y, Pos(7, 23), Bare(Pos(7, 19)), [])] + [OutAssigned(4, [], [])] + [Declared(4, z, Pos(8, 24), Initialized, [])], OutAssigned(4, [], []), sc);
      DeclsInSkip([] + [Declared(4, x, Pos(6, 23), Initialized, [])] + [OutAssigned(4, [], [])] + [Declared(4, y, Pos(7, 23), Bare(Pos(7, 19)), [])] + [OutAssigned(4, [], [])] + [Declared(4, z, Pos(8, 24), Initialized, [])] + [OutAssigned(4, [], [])], Declared(4, u, Pos(9, 24), Bare(Pos(9, 20)), []), sc);
      DeclsInSkip([] + [Declared(4, x, Pos(6, 23), Initialized, [])] + [OutAssigned(4, [], [])] + [Declared(4, y, Pos(7, 23), Bare(Pos(7, 19)), [])] + [OutAssigned(4, [], [])] + [Declared(4, z, Pos(8, 24), Initialized, [])] + [OutAssigned(4, [], [])] + [Declared(4, u, Pos(9, 24), Bare(Pos(9, 20)), [])], OutAssigned(4, [], []), sc);
      AppendNil(DeclsIn(evs, sc));
    }
  }

  /** The locals declared once events 8 to 11 follow some events. */
  lemma {:induction false} Decls1(x: string, y: string, z: string, u: string, v: string, w: string, evs: seq<Event>, sc: nat)
    requires DeclsIn(evs, sc) == DeclaredBy(x, y, z, u, v, w, 1, sc)
    ensures DeclsIn(evs + Chunk1(x, y, z, u, v, w), sc) == DeclaredBy(x, y, z, u, v, w, 2, sc)
  {
    DeclsInAppend(evs, Chunk1(x, y, z, u, v, w), sc);
    assert DeclsIn([], sc) == [];
    if sc == 4 {
      DeclsInAdd([], Declared(4, v, Pos(10, 19), Bare(Pos(10, 15)), []), 4);
      DeclsInSkip([] + [Declared(4, v, Pos(10, 19), Bare(Pos(10, 15)), [])], OutAssigned(4, [], []), 4);
      DeclsInAdd([] + [Declared(4, v, Pos(10, 19), Bare(Pos(10, 15)), [])] + [OutAssigned(4, [], [])], Declared(4, w, Pos(11, 20), Bare(Pos(11, 16)), []), 4);
      DeclsInSkip([] + [Declared(4, v, Pos(10, 19), Bare(Pos(10, 15)), [])] + [OutAssigned(4, [], [])] + [Declared(4, w, Pos(11, 20), Bare(Pos(11, 16)), [])], OutAssigned(4, [], []), 4);
    } else {
      DeclsInSkip([], Declared(4, v, Pos(10, 19), Bare(Pos(10, 15)), []), sc);
      DeclsInSkip([] + [Declared(4, v, Pos(10, 19), Bare(Pos(10, 15)), [])], OutAssigned(4, [], []), sc);
      DeclsInSkip([] + [Declared(4, v, Pos(10, 19), Bare(Pos(10, 15)), [])] + [OutAssigned(4, [], [])], Declared(4, w, Pos(11, 20), Bare(Pos(11, 16)), []), sc);
      DeclsInSkip([] + [Declared(4, v, Pos(10, 19), Bare(Pos(10, 15)), [])] + [OutAssigned(4, [], [])] + [Declared(4, w, Pos(11, 20), Bare(Pos(11, 16)), [])], OutAssigned(4, [], []), sc);
      AppendNil(DeclsIn(evs, sc));
    }
  }

  lemma {:induction false} DeclsStage0(x: string, y: string, z: string, u: string, v: string, w: string, evs: seq<Event>, sc: nat)
    requires DeclsIn(evs, sc) == DeclaredBy(x, y, z, u, v, w, 0, sc)
    ensures DeclsIn(evs + Chunk0(x, y, z, u, v, w) + Chunk1(x, y, z, u, v, w), sc) == DeclaredBy(x, y, z, u, v, w, 2, sc)
  {
    Decls0(x, y, z, u, v, w, evs, sc);
    Decls1(x, y, z, u, v, w, evs + Chunk0(x, y, z, u, v, w), sc);
  }

  /** The locals of every scope of a tree whose events are the test's, as the table gives them. */
  ghost predicate LocalsFit(x: string, y: string, z: string, u: string, v: string, w: string, tr: Tree) {
    forall sc: nat {:trigger DeclaredBy(x, y, z, u, v, w, 2, sc)} :: LocalsOf(tr, sc) == DeclaredBy(x, y, z, u, v, w, 2, sc)
  }

  /** The locals of every scope. */
  lemma {:induction false} LocalsAll(x: string, y: string, z: string, u: string, v: string, w: string, tr: Tree)
    requires tr.events == Trace(x, y, z, u, v, w)
    ensures LocalsFit(x, y, z, u, v, w, tr)
  {
    forall sc: nat
      ensures LocalsOf(tr, sc) == DeclaredBy(x, y, z, u, v, w, 2, sc)
    {
      assert DeclsIn([], sc) == [] == DeclaredBy(x, y, z, u, v, w, 0, sc);
      DeclsStage0(x, y, z, u, v, w, [], sc);
    }
  }

  /** The locals scope 0 declares, in order. */
  lemma {:induction false} Locals0(x: string, y: string, z: string, u: string, v: string, w: string)
    ensures DeclaredBy(x, y, z, u, v, w, 2, 0) == []
  {
    AppendNil([]);
    assert DeclaredBy(x, y, z, u, v, w, 1, 0) == [];
    assert DeclaredBy(x, y, z, u, v, w, 2, 0) == [];
  }

  /** The locals scope 3 declares, in order. */
  lemma {:induction false} Locals3(x: string, y: string, z: string, u: string, v: string, w: string)
    ensures DeclaredBy(x, y, z, u, v, w, 2, 3) == []
  {
    AppendNil([]);
    assert DeclaredBy(x, y, z, u, v, w, 1, 3) == [];
    assert DeclaredBy(x, y, z, u, v, w, 2, 3) == [];
  }

  /** The locals scope 4 declares, in order. */
  lemma {:induction false} Locals4(x: string, y: string, z: string, u: string, v: string, w: string)
    ensures DeclaredBy(x, y, z, u, v, w, 2, 4) == [Local(x, Pos(6, 23)), Local(y, Pos(7, 23)), Local(z, Pos(8, 24)), Local(u, Pos(9, 24)), Local(v, Pos(10, 19)), Local(w, Pos(11, 20))]
  {
    assert DeclaredBy(x, y, z, u, v, w, 1, 4) == [Local(x, Pos(6, 23)), Local(y, Pos(7, 23)), Local(z, Pos(8, 24)), Local(u, Pos(9, 24))];
    assert DeclaredBy(x, y, z, u, v, w, 2, 4) == [Local(x, Pos(6, 23)), Local(y, Pos(7, 23)), Local(z, Pos(8, 24)), Local(u, Pos(9, 24)), Local(v, Pos(10, 19)), Local(w, Pos(11, 20))];
  }

  /** The assignments known after event 7. */
  function Known0(x: string, y: string, z: string, u: string, v: string, w: string): seq<Fact> {
    []
      + [Fact(4, x, [])]
      + [Fact(4, z, [])]
  }

  /** Whether a local is assigned after the assignments of events 0 to 7. */
  lemma {:induction false} Assigned0(x: string, y: string, z: string, u: string, v: string, w: string, fs: seq<Fact>, sc: nat, nm: string, pth: seq<nat>)
    ensures Assigned(fs + [Fact(4, x, [])] + [Fact(4, z, [])], sc, nm, pth) == (
      Assigned(fs, sc, nm, pth) ||
      (4 == sc && x == nm && [] <= pth) ||
      (4 == sc && z == nm && [] <= pth))
  {
    AssignedSnoc(fs, Fact(4, x, []), sc, nm, pth);
    AssignedSnoc(fs + [Fact(4, x, [])], Fact(4, z, []), sc, nm, pth);
  }

  /** Event 0: its diagnostics and the assignments after it. */
  lemma {:induction false} Event0(x: string, y: string, z: string, u: string, v: string, w: string, tr: Tree, fs: seq<Fact>)
    requires |tr.scopes| == 5
    requires Parent(tr, 0) == None
    requires Parent(tr, 3) == Some(0)
    requires Parent(tr, 4) == Some(3)
    requires LocalsOf(tr, 4) == [Local(x, Pos(6, 23)), Local(y, Pos(7, 23)), Local(z, Pos(8, 24)), Local(u, Pos(9, 24)), Local(v, Pos(10, 19)), Local(w, Pos(11, 20))]
    requires LocalsOf(tr, 3) == []
    requires LocalsOf(tr, 0) == []
    requires x != y && x != z && x != u && x != v && x != w
    ensures EventDiags(tr, Declared(4, x, Pos(6, 23), Initialized, []), fs) == []
    ensures Step(tr, Declared(4, x, Pos(6, 23), Initialized, []), fs) == fs + [Fact(4, x, [])]
  {
    assert Lookup(tr, 0, x) == None;
    assert Lookup(tr, 3, x) == None;
  }

  /** Event 1: its diagnostics and the assignments after it. */
  lemma {:induction false} Event1(x: string, y: string, z: string, u: string, v: string, w: string, tr: Tree, fs: seq<Fact>)
    ensures EventDiags(tr, OutAssigned(4, [], []), fs) == []
    ensures Step(tr, OutAssigned(4, [], []), fs) == fs
  {
    assert OutFacts(4, [], []) == [];
    FactsNil(fs);
  }

  /** Event 2: its diagnostics and the assignments after it. */
  lemma {:induction false} Event2(x: string, y: string, z: string, u: string, v: string, w: string, tr: Tree, fs: seq<Fact>)
    requires |tr.scopes| == 5
    requires Parent(tr, 0) == None
    requires Parent(tr, 3) == Some(0)
    requires Parent(tr, 4) == Some(3)
    requires LocalsOf(tr, 4) == [Local(x, Pos(6, 23)), Local(y, Pos(7, 23)), Local(z, Pos(8, 24)), Local(u, Pos(9, 24)), Local(v, Pos(10, 19)), Local(w, Pos(11, 20))]
    requires LocalsOf(tr, 3) == []
    requires LocalsOf(tr, 0) == []
    requires x != y && y != z && y != u && y != v && y != w
    ensures EventDiags(tr, Declared(4, y, Pos(7, 23), Bare(Pos(7, 19)), []), fs) == [Diag(Unassigned, y, Pos(7, 19))]
    ensures Step(tr, Declared(4, y, Pos(7, 23), Bare(Pos(7, 19)), []), fs) == fs
  {
    assert Lookup(tr, 0, y) == None;
    assert Lookup(tr, 3, y) == None;
  }

  /** Event 3: its diagnostics and the assignments after it. */
  lemma {:induction false} Event3(x: string, y: string, z: string, u: string, v: string, w: string, tr: Tree, fs: seq<Fact>)
    ensures EventDiags(tr, OutAssigned(4, [], []), fs) == []
    ensures Step(tr, OutAssigned(4, [], []), fs) == fs
  {
    assert OutFacts(4, [], []) == [];
    FactsNil(fs);
  }

  /** Event 4: its diagnostics and the assignments after it. */
  lemma {:induction false} Event4(x: string, y: string, z: string, u: string, v: string, w: string, tr: Tree, fs: seq<Fact>)
    requires |tr.scopes| == 5
    requires Parent(tr, 0) == None
    requires Parent(tr, 3) == Some(0)
    requires Parent(tr, 4) == Some(3)
    requires LocalsOf(tr, 4) == [Local(x, Pos(6, 23)), Local(y, Pos(7, 23)), Local(z, Pos(8, 24)), Local(u, Pos(9, 24)), Local(v, Pos(10, 19)), Local(w, Pos(11, 20))]
    requires LocalsOf(tr, 3) == []
    requires LocalsOf(tr, 0) == []
    requires x != z && y != z && z != u && z != v && z != w
    ensures EventDiags(tr, Declared(4, z, Pos(8, 24), Initialized, []), fs) == []
    ensures Step(tr, Declared(4, z, Pos(8, 24), Initialized, []), fs) == fs + [Fact(4, z, [])]
  {
    assert Lookup(tr, 0, z) == None;
    assert Lookup(tr, 3, z) == None;
  }

  /** Event 5: its diagnostics and the assignments after it. */
  lemma {:induction false} Event5(x: string, y: string, z: string, u: string, v: string, w: string, tr: Tree, fs: seq<Fact>)
    ensures EventDiags(tr, OutAssigned(4, [], []), fs) == []
    ensures Step(tr, OutAssigned(4, [], []), fs) == fs
  {
    assert OutFacts(4, [], []) == [];
    FactsNil(fs);
  }

  /** Event 6: its diagnostics and the assignments after it. */
  lemma {:induction false} Event6(x: string, y: string, z: string, u: string, v: string, w: string, tr: Tree, fs: seq<Fact>)
    requires |tr.scopes| == 5
    requires Parent(tr, 0) == None
    requires Parent(tr, 3) == Some(0)
    requires Parent(tr, 4) == Some(3)
    requires LocalsOf(tr, 4) == [Local(x, Pos(6, 23)), Local(y, Pos(7, 23)), Local(z, Pos(8, 24)), Local(u, Pos(9, 24)), Local(v, Pos(10, 19)), Local(w, Pos(11, 20))]
    requires LocalsOf(tr, 3) == []
    requires LocalsOf(tr, 0) == []
    requires x != u && y != u && z != u && u != v && u != w
    ensures EventDiags(tr, Declared(4, u, Pos(9, 24), Bare(Pos(9, 20)), []), fs) == [Diag(Unassigned, u, Pos(9, 20))]
    ensures Step(tr, Declared(4, u, Pos(9, 24), Bare(Pos(9, 20)), []), fs) == fs
  {
    assert Lookup(tr, 0, u) == None;
    assert Lookup(tr, 3, u) == None;
  }

  /** Event 7: its diagnostics and the assignments after it. */
  lemma {:induction false} Event7(x: string, y: string, z: string, u: string, v: string, w: string, tr: Tree, fs: seq<Fact>)
    ensures EventDiags(tr, OutAssigned(4, [], []), fs) == []
    ensures Step(tr, OutAssigned(4, [], []), fs) == fs
  {
    assert OutFacts(4, [], []) == [];
    FactsNil(fs);
  }

  /** Event 8: its diagnostics and the assignments after it. */
  lemma {:induction false} Event8(x: string, y: string, z: string, u: string, v: string, w: string, tr: Tree, fs: seq<Fact>)
    requires |tr.scopes| == 5
    requires Parent(tr, 0) == None
    requires Parent(tr, 3) == Some(0)
    requires Parent(tr, 4) == Some(3)
    requires LocalsOf(tr, 4) == [Local(x, Pos(6, 23)), Local(y, Pos(7, 23)), Local(z, Pos(8, 24)), Local(u, Pos(9, 24)), Local(v, Pos(10, 19)), Local(w, Pos(11, 20))]
    requires LocalsOf(tr, 3) == []
    requires LocalsOf(tr, 0) == []
    requires x != v && y != v && z != v && u != v && v != w
    ensures EventDiags(tr, Declared(4, v, Pos(10, 19), Bare(Pos(10, 15)), []), fs) == [Diag(Unassigned, v, Pos(10, 15))]
    ensures Step(tr, Declared(4, v, Pos(10, 19), Bare(Pos(10, 15)), []), fs) == fs
  {
    assert Lookup(tr, 0, v) == None;
    assert Lookup(tr, 3, v) == None;
  }

  /** Event 9: its diagnostics and the assignments after it. */
  lemma {:induction false} Event9(x: string, y: string, z: string, u: string, v: string, w: string, tr: Tree, fs: seq<Fact>)
    ensures EventDiags(tr, OutAssigned(4, [], []), fs) == []
    ensures Step(tr, OutAssigned(4, [], []), fs) == fs
  {
    assert OutFacts(4, [], []) == [];
    FactsNil(fs);
  }

  /** Event 10: its diagnostics and the assignments after it. */
  lemma {:induction false} Event10(x: string, y: string, z: string, u: string, v: string, w: string, tr: Tree, fs: seq<Fact>)
    requires |tr.scopes| == 5
    requires Parent(tr, 0) == None
    requires Parent(tr, 3) == Some(0)
    requires Parent(tr, 4) == Some(3)
    requires LocalsOf(tr, 4) == [Local(x, Pos(6, 23)), Local(y, Pos(7, 23)), Local(z, Pos(8, 24)), Local(u, Pos(9, 24)), Local(v, Pos(10, 19)), Local(w, Pos(11, 20))]
    requires LocalsOf(tr, 3) == []
    requires LocalsOf(tr, 0) == []
    requires x != w && y != w && z != w && u != w && v != w
    ensures EventDiags(tr, Declared(4, w, Pos(11, 20), Bare(Pos(11, 16)), []), fs) == [Diag(Unassigned, w, Pos(11, 16))]
    ensures Step(tr, Declared(4, w, Pos(11, 20), Bare(Pos(11, 16)), []), fs) == fs
  {
    assert Lookup(tr, 0, w) == None;
    assert Lookup(tr, 3, w) == None;
  }

  /** Event 11: its diagnostics and the assignments after it. */
  lemma {:induction false} Event11(x: string, y: string, z: string, u: string, v: string, w: string, tr: Tree, fs: seq<Fact>)
    ensures EventDiags(tr, OutAssigned(4, [], []), fs) == []
    ensures Step(tr, OutAssigned(4, [], []), fs) == fs
  {
    assert OutFacts(4, [], []) == [];
    FactsNil(fs);
  }

  /** The parent and the locals of scope 0. */
  lemma {:induction false} Scope0(x: string, y: string, z: string, u: string, v: string, w: string, tr: Tree)
    requires ScopesAre(tr, Layout())
    requires LocalsFit(x, y, z, u, v, w, tr)
    ensures |tr.scopes| == 5
    ensures Parent(tr, 0) == None
    ensures LocalsOf(tr, 0) == []
  {
    assert tr.scopes[0] == Layout()[0];
    Locals0(x, y, z, u, v, w);
    assert LocalsOf(tr, 0) == DeclaredBy(x, y, z, u, v, w, 2, 0);
  }

  /** The parent and the locals of scope 3. */
  lemma {:induction false} Scope3(x: string, y: string, z: string, u: string, v: string, w: string, tr: Tree)
    requires ScopesAre(tr, Layout())
    requires LocalsFit(x, y, z, u, v, w, tr)
    ensures |tr.scopes| == 5
    ensures Parent(tr, 3) == Some(0)
    ensures LocalsOf(tr, 3) == []
  {
    assert tr.scopes[3] == Layout()[3];
    Locals3(x, y, z, u, v, w);
    assert LocalsOf(tr, 3) == DeclaredBy(x, y, z, u, v, w, 2, 3);
  }

  /** The parent and the locals of scope 4. */
  lemma {:induction false} Scope4(x: string, y: string, z: string, u: string, v: string, w: string, tr: Tree)
    requires ScopesAre(tr, Layout())
    requires LocalsFit(x, y, z, u, v, w, tr)
    ensures |tr.scopes| == 5
    ensures Parent(tr, 4) == Some(3)
    ensures LocalsOf(tr, 4) == [Local(x, Pos(6, 23)), Local(y, Pos(7, 23)), Local(z, Pos(8, 24)), Local(u, Pos(9, 24)), Local(v, Pos(10, 19)), Local(w, Pos(11, 20))]
  {
    assert tr.scopes[4] == Layout()[4];
    Locals4(x, y, z, u, v, w);
    assert LocalsOf(tr, 4) == DeclaredBy(x, y, z, u, v, w, 2, 4);
  }

  /** The analysis of events 0 to 7, after the events before them. */
  lemma {:induction false} Analysed0(x: string, y: string, z: string, u: string, v: string, w: string, tr: Tree, evs: seq<Event>, fs: seq<Fact>, rs: seq<Diag>)
    requires |tr.scopes| == 5
    requires Parent(tr, 0) == None
    requires Parent(tr, 3) == Some(0)
    requires Parent(tr, 4) == Some(3)
    requires LocalsOf(tr, 0) == []
    requires LocalsOf(tr, 3) == []
    requires LocalsOf(tr, 4) == [Local(x, Pos(6, 23)), Local(y, Pos(7, 23)), Local(z, Pos(8, 24)), Local(u, Pos(9, 24)), Local(v, Pos(10, 19)), Local(w, Pos(11, 20))]
    requires x != y && x != z && x != u && x != v && x != w && y != z && y != u && y != v && y != w && z != u && z != v && z != w && u != v && u != w
    requires Analyse(tr, evs, []) == rs
    requires Replay(tr, evs, []) == fs
    ensures Analyse(tr, evs + Chunk0(x, y, z, u, v, w), []) == rs + ([] + [] + [] + [Diag(Unassigned, y, Pos(7, 19))] + [] + [] + [] + [Diag(Unassigned, u, Pos(9, 20))] + [])
    ensures Replay(tr, evs + Chunk0(x, y, z, u, v, w), []) == fs + [Fact(4, x, [])] + [Fact(4, z, [])]
  {
    assert Analyse(tr, [], fs) == [] && Replay(tr, [], fs) == fs;
    Event0(x, y, z, u, v, w, tr, fs);
    AnalyseSnoc(tr, [], Declared(4, x, Pos(6, 23), Initialized, []), fs);
    assert Analyse(tr, [] + [Declared(4, x, Pos(6, 23), Initialized, [])], fs) == [] + [];
    assert Replay(tr, [] + [Declared(4, x, Pos(6, 23), Initialized, [])], fs) == fs + [Fact(4, x, [])];
    Event1(x, y, z, u, v, w, tr, fs + [Fact(4, x, [])]);
    AnalyseSnoc(tr, [] + [Declared(4, x, Pos(6, 23), Initialized, [])], OutAssigned(4, [], []), fs);
    assert Analyse(tr, [] + [Declared(4, x, Pos(6, 23), Initialized, [])] + [OutAssigned(4, [], [])], fs) == [] + [] + [];
    assert Replay(tr, [] + [Declared(4, x, Pos(6, 23), Initialized, [])] + [OutAssigned(4, [], [])], fs) == fs + [Fact(4, x, [])];
    Event2(x, y, z, u, v, w, tr, fs + [Fact(4, x, [])]);
    AnalyseSnoc(tr, [] + [Declared(4, x, Pos(6, 23), Initialized, [])] + [OutAssigned(4, [], [])], Declared(4, y, Pos(7, 23), Bare(Pos(7, 19)), []), fs);
    assert Analyse(tr, [] + [Declared(4, x, Pos(6, 23), Initialized, [])] + [OutAssigned(4, [], [])] + [Declared(4, y, Pos(7, 23), Bare(Pos(7, 19)), [])], fs) == [] + [] + [] + [Diag(Unassigned, y, Pos(7, 19))];
    assert Replay(tr, [] + [Declared(4, x, Pos(6, 23), Initialized, [])] + [OutAssigned(4, [], [])] + [Declared(4, y, Pos(7, 23), Bare(Pos(7, 19)), [])], fs) == fs + [Fact(4, x, [])];
    Event3(x, y, z, u, v, w, tr, fs + [Fact(4, x, [])]);
    AnalyseSnoc(tr, [] + [Declared(4, x, Pos(6, 23), Initialized, [])] + [OutAssigned(4, [], [])] + [Declared(4, y, Pos(7, 23), Bare(Pos(7, 19)), [])], OutAssigned(4, [], []), fs);
    assert Analyse(tr, [] + [Declared(4, x, Pos(6, 23), Initialized, [])] + [OutAssigned(4, [], [])] + [Declared(4, y, Pos(7, 23), Bare(Pos(7, 19)), [])] + [OutAssigned(4, [], [])], fs) == [] + [] + [] + [Diag(Unassigned, y, Pos(7, 19))] + [];
    assert Replay(tr, [] + [Declared(4, x, Pos(6, 23), Initialized, [])] + [OutAssigned(4, [], [])] + [Declared(4, y, Pos(7, 23), Bare(Pos(7, 19)), [])] + [OutAssigned(4, [], [])], fs) == fs + [Fact(4, x, [])];
    Event4(x, y, z, u, v, w, tr, fs + [Fact(4, x, [])]);
    AnalyseSnoc(tr, [] + [Declared(4, x, Pos(6, 23), Initialized, [])] + [OutAssigned(4, [], [])] + [Declared(4, y, Pos(7, 23), Bare(Pos(7, 19)), [])] + [OutAssigned(4, [], [])], Declared(4, z, Pos(8, 24), Initialized, []), fs);
    assert Analyse(tr, [] + [Declared(4, x, Pos(6, 23), Initialized, [])] + [OutAssigned(4, [], [])] + [Declared(4, y, Pos(7, 23), Bare(Pos(7, 19)), [])] + [OutAssigned(4, [], [])] + [Declared(4, z, Pos(8, 24), Initialized, [])], fs) == [] + [] + [] + [Diag(Unassigned, y, Pos(7, 19))] + [] + [];
    assert Replay(tr, [] + [Declared(4, x, Pos(6, 23), Initialized, [])] + [OutAssigned(4, [], [])] + [Declared(4, y, Pos(7, 23), Bare(Pos(7, 19)), [])] + [OutAssigned(4, [], [])] + [Declared(4, z, Pos(8, 24), Initialized, [])], fs) == fs + [Fact(4, x, [])] + [Fact(4, z, [])];
    Event5(x, y, z, u, v, w, tr, fs + [Fact(4, x, [])] + [Fact(4, z, [])]);
    AnalyseSnoc(tr, [] + [Declared(4, x, Pos(6, 23), Initialized, [])] + [OutAssigned(4, [], [])] + [Declared(4, y, Pos(7, 23), Bare(Pos(7, 19)), [])] + [OutAssigned(4, [], [])] + [Declared(4, z, Pos(8, 24), Initialized, [])], OutAssigned(4, [], []), fs);
    assert Analyse(tr, [] + [Declared(4, x, Pos(6, 23), Initialized, [])] + [OutAssigned(4, [], [])] + [Declared(4, y, Pos(7, 23), Bare(Pos(7, 19)), [])] + [OutAssigned(4, [], [])] + [Declared(4, z, Pos(8, 24), Initialized, [])] + [OutAssigned(4, [], [])], fs) == [] + [] + [] + [Diag(Unassigned, y, Pos(7, 19))] + [] + [] + [];
    assert Replay(tr, [] + [Declared(4, x, Pos(6, 23), Initialized, [])] + [OutAssigned(4, [], [])] + [Declared(4, y, Pos(7, 23), Bare(Pos(7, 19)), [])] + [OutAssigned(4, [], [])] + [Declared(4, z, Pos(8, 24), Initialized, [])] + [OutAssigned(4, [], [])], fs) == fs + [Fact(4, x, [])] + [Fact(4, z, [])];
    Event6(x, y, z, u, v, w, tr, fs + [Fact(4, x, [])] + [Fact(4, z, [])]);
    AnalyseSnoc(tr, [] + [Declared(4, x, Pos(6, 23), Initialized, [])] + [OutAssigned(4, [], [])] + [Declared(4, y, Pos(7, 23), Bare(Pos(7, 19)), [])] + [OutAssigned(4, [], [])] + [Declared(4, z, Pos(8, 24), Initialized, [])] + [OutAssigned(4, [], [])], Declared(4, u, Pos(9, 24), Bare(Pos(9, 20)), []), fs);
    assert Analyse(tr, [] + [Declared(4, x, Pos(6, 23), Initialized, [])] + [OutAssigned(4, [], [])] + [Declared(4, y, Pos(7, 23), Bare(Pos(7, 19)), [])] + [OutAssigned(4, [], [])] + [Declared(4, z, Pos(8, 24), Initialized, [])] + [OutAssigned(4, [], [])] + [Declared(4, u, Pos(9, 24), Bare(Pos(9, 20)), [])], fs) == [] + [] + [] + [Diag(Unassigned, y, Pos(7, 19))] + [] + [] + [] + [Diag(Unassigned, u, Pos(9, 20))];
    assert Replay(tr, [] + [Declared(4, x, Pos(6, 23), Initialized, [])] + [OutAssigned(4, [], [])] + [Declared(4, y, Pos(7, 23), Bare(Pos(7, 19)), [])] + [OutAssigned(4, [], [])] + [Declared(4, z, Pos(8, 24), Initialized, [])] + [OutAssigned(4, [], [])] + [Declared(4, u, Pos(9, 24), Bare(Pos(9, 20)), [])], fs) == fs + [Fact(4, x, [])] + [Fact(4, z, [])];
    Event7(x, y, z, u, v, w, tr, fs + [Fact(4, x, [])] + [Fact(4, z, [])]);
    AnalyseSnoc(tr, [] + [Declared(4, x, Pos(6, 23), Initialized, [])] + [OutAssigned(4, [], [])] + [Declared(4, y, Pos(7, 23), Bare(Pos(7, 19)), [])] + [OutAssigned(4, [], [])] + [Declared(4, z, Pos(8, 24), Initialized, [])] + [OutAssigned(4, [], [])] + [Declared(4, u, Pos(9, 24), Bare(Pos(9, 20)), [])], OutAssigned(4, [], []), fs);
    AnalyseSplit(tr, evs, Chunk0(x, y, z, u, v, w), []);
  }

  /** The analysis of events 8 to 11, after the events before them. */
  lemma {:induction false} Analysed1(x: string, y: string, z: string, u: string, v: string, w: string, tr: Tree, evs: seq<Event>, fs: seq<Fact>, rs: seq<Diag>)
    requires |tr.scopes| == 5
    requires Parent(tr, 0) == None
    requires Parent(tr, 3) == Some(0)
    requires Parent(tr, 4) == Some(3)
    requires LocalsOf(tr, 0) == []
    requires LocalsOf(tr, 3) == []
    requires LocalsOf(tr, 4) == [Local(x, Pos(6, 23)), Local(y, Pos(7, 23)), Local(z, Pos(8, 24)), Local(u, Pos(9, 24)), Local(v, Pos(10, 19)), Local(w, Pos(11, 20))]
    requires x != v && x != w && y != v && y != w && z != v && z != w && u != v && u != w && v != w
    requires Analyse(tr, evs, []) == rs
    requires Replay(tr, evs, []) == fs
    ensures Analyse(tr, evs + Chunk1(x, y, z, u, v, w), []) == rs + ([] + [Diag(Unassigned, v, Pos(10, 15))] + [] + [Diag(Unassigned, w, Pos(11, 16))] + [])
    ensures Replay(tr, evs + Chunk1(x, y, z, u, v, w), []) == fs
  {
    assert Analyse(tr, [], fs) == [] && Replay(tr, [], fs) == fs;
    Event8(x, y, z, u, v, w, tr, fs);
    AnalyseSnoc(tr, [], Declared(4, v, Pos(10, 19), Bare(Pos(10, 15)), []), fs);
    assert Analyse(tr, [] + [Declared(4, v, Pos(10, 19), Bare(Pos(10, 15)), [])], fs) == [] + [Diag(Unassigned, v, Pos(10, 15))];
    assert Replay(tr, [] + [Declared(4, v, Pos(10, 19), Bare(Pos(10, 15)), [])], fs) == fs;
    Event9(x, y, z, u, v, w, tr, fs);
    AnalyseSnoc(tr, [] + [Declared(4, v, Pos(10, 19), Bare(Pos(10, 15)), [])], OutAssigned(4, [], []), fs);
    assert Analyse(tr, [] + [Declared(4, v, Pos(10, 19), Bare(Pos(10, 15)), [])] + [OutAssigned(4, [], [])], fs) == [] + [Diag(Unassigned, v, Pos(10, 15))] + [];
    assert Replay(tr, [] + [Declared(4, v, Pos(10, 19), Bare(Pos(10, 15)), [])] + [OutAssigned(4, [], [])], fs) == fs;
    Event10(x, y, z, u, v, w, tr, fs);
    AnalyseSnoc(tr, [] + [Declared(4, v, Pos(10, 19), Bare(Pos(10, 15)), [])] + [OutAssigned(4, [], [])], Declared(4, w, Pos(11, 20), Bare(Pos(11, 16)), []), fs);
    assert Analyse(tr, [] + [Declared(4, v, Pos(10, 19), Bare(Pos(10, 15)), [])] + [OutAssigned(4, [], [])] + [Declared(4, w, Pos(11, 20), Bare(Pos(11, 16)), [])], fs) == [] + [Diag(Unassigned, v, Pos(10, 15))] + [] + [Diag(Unassigned, w, Pos(11, 16))];
    assert Replay(tr, [] + [Declared(4, v, Pos(10, 19), Bare(Pos(10, 15)), [])] + [OutAssigned(4, [], [])] + [Declared(4, w, Pos(11, 20), Bare(Pos(11, 16)), [])], fs) == fs;
    Event11(x, y, z, u, v, w, tr, fs);
    AnalyseSnoc(tr, [] + [Declared(4, v, Pos(10, 19), Bare(Pos(10, 15)), [])] + [OutAssigned(4, [], [])] + [Declared(4, w, Pos(11, 20), Bare(Pos(11, 16)), [])], OutAssigned(4, [], []), fs);
    AnalyseSplit(tr, evs, Chunk1(x, y, z, u, v, w), []);
  }

  lemma {:induction false} Glue0(x: string, y: string, z: string, u: string, v: string, w: string, rs: seq<Diag>)
    requires rs == []
    ensures rs + ([] + [] + [] + [Diag(Unassigned, y, Pos(7, 19))] + [] + [] + [] + [Diag(Unassigned, u, Pos(9, 20))] + []) == [Diag(Unassigned, y, Pos(7, 19)), Diag(Unassigned, u, Pos(9, 20))]
  {
  }

  lemma {:induction false} Glue1(x: string, y: string, z: string, u: string, v: string, w: string, rs: seq<Diag>)
    requires rs == [Diag(Unassigned, y, Pos(7, 19)), Diag(Unassigned, u, Pos(9, 20))]
    ensures rs + ([] + [Diag(Unassigned, v, Pos(10, 15))] + [] + [Diag(Unassigned, w, Pos(11, 16))] + []) == [Diag(Unassigned, y, Pos(7, 19)), Diag(Unassigned, u, Pos(9, 20)), Diag(Unassigned, v, Pos(10, 15)), Diag(Unassigned, w, Pos(11, 16))]
  {
  }

  /** The analysis of events 0 to 11, after the events before them. */
  lemma {:induction false} Stage0(x: string, y: string, z: string, u: string, v: string, w: string, tr: Tree, evs: seq<Event>)
    requires ScopesAre(tr, Layout())
    requires LocalsFit(x, y, z, u, v, w, tr)
    requires x != y && x != z && x != u && x != v && x != w && y != z && y != u && y != v && y != w && z != u && z != v && z != w && u != v && u != w && v != w
    requires Analyse(tr, evs, []) == []
    requires Replay(tr, evs, []) == []
    ensures Analyse(tr, evs + Chunk0(x, y, z, u, v, w) + Chunk1(x, y, z, u, v, w), []) == [Diag(Unassigned, y, Pos(7, 19)), Diag(Unassigned, u, Pos(9, 20)), Diag(Unassigned, v, Pos(10, 15)), Diag(Unassigned, w, Pos(11, 16))]
    ensures Replay(tr, evs + Chunk0(x, y, z, u, v, w) + Chunk1(x, y, z, u, v, w), []) == Known0(x, y, z, u, v, w)
  {
    Scope0(x, y, z, u, v, w, tr);
    Scope3(x, y, z, u, v, w, tr);
    Scope4(x, y, z, u, v, w, tr);
    Analysed0(x, y, z, u, v, w, tr, evs, [], []);
    Glue0(x, y, z, u, v, w, []);
    Analysed1(x, y, z, u, v, w, tr, evs + Chunk0(x, y, z, u, v, w), Known0(x, y, z, u, v, w), [Diag(Unassigned, y, Pos(7, 19)), Diag(Unassigned, u, Pos(9, 20))]);
    Glue1(x, y, z, u, v, w, [Diag(Unassigned, y, Pos(7, 19)), Diag(Unassigned, u, Pos(9, 20))]);
  }

  /** The analysis of a tree with the test's scopes and events. */
  lemma {:induction false} Result(x: string, y: string, z: string, u: string, v: string, w: string, tr: Tree)
    requires ScopesAre(tr, Layout()) && LocalsFit(x, y, z, u, v, w, tr) && tr.events == Trace(x, y, z, u, v, w)
    requires x != y && x != z && x != u && x != v && x != w && y != z && y != u && y != v && y != w && z != u && z != v && z != w && u != v && u != w && v != w
    ensures Analyse(tr, tr.events, []) == [Diag(Unassigned, y, Pos(7, 19)), Diag(Unassigned, u, Pos(9, 20)), Diag(Unassigned, v, Pos(10, 15)), Diag(Unassigned, w, Pos(11, 16))]
  {
    assert Analyse(tr, [], []) == [] && Replay(tr, [], []) == [];
    Stage0(x, y, z, u, v, w, tr, []);
  }

  /** The diagnostics the test expects, in the order the analysis reports them. */
  lemma {:induction false} Outcome(x: string, y: string, z: string, u: string, v: string, w: string)
    requires x != y && x != z && x != u && x != v && x != w && y != z && y != u && y != v && y != w && z != u && z != v && z != w && u != v && u != w && v != w
    ensures Check(Program(x, y, z, u, v, w)) == [Diag(Unassigned, y, Pos(7, 19)), Diag(Unassigned, u, Pos(9, 20)), Diag(Unassigned, v, Pos(10, 15)), Diag(Unassigned, w, Pos(11, 16))]
  {
    Walked(x, y, z, u, v, w);
    LocalsAll(x, y, z, u, v, w, Build(Program(x, y, z, u, v, w)));
    Result(x, y, z, u, v, w, Build(Program(x, y, z, u, v, w)));
  }
}

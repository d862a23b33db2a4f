/**
 * The test Simple_02 (DeclarationExpressionsTests.cs, lines 65 to 117).
 *
 * Its program, with its local names left as parameters, is walked into a scope tree and
 * analysed; Outcome states the exact list of diagnostics Check reports, for any names that
 * differ where the outcome depends on it.
 */
module ScenSimple02 {
  import opened Syntax
  import opened Scopes
  import opened Binding
  import opened Reporting
  import opened Frames
  import opened Units
  import opened Traces

  /** The statements of the test's method, its names left as parameters. */
  function Body(i: string, j: string, k: string, l: string, m: string): seq<Stmt> {
    [Exprs([Use(i, Pos(6, 9), true)])] + ([Exprs([Call([Argument([Declare(i, Pos(7, 38), Initialized)])])])] + ([Exprs([Call([Argument([Declare(j, Pos(9, 38), Initialized)])])])] + ([Exprs([Call([Argument([Declare(j, Pos(10, 38), Initialized)])])])] + ([Exprs([Call([Argument([Declare(k, Pos(12, 38), Initialized)])])])] + ([Exprs([Declare(k, Pos(13, 13), Initialized)])] + ([Exprs([Declare(l, Pos(15, 13), Initialized)])] + ([Exprs([Call([Argument([Declare(l, Pos(16, 38), Initialized)])])])] + ([Exprs([Declare(m, Pos(18, 13), Initialized)])] + ([Block([Exprs([Call([Argument([Declare(m, Pos(20, 42), Initialized)])])])])] + ([Exprs([Call([Argument([Use(m, Pos(23, 34), false)])])])]))))))))))
  }

  /** The program of the test: one method holding those statements. */
  function Program(i: string, j: string, k: string, l: string, m: string): seq<Fragment> {
    MainUnit(Body(i, j, k, l, m))
  }

  /** Scopes 0 to 5, in the order the walk opens them. */
  function Layout0(): seq<Scope> {
    [Scope(Unit, None),
     Scope(InstanceInitializers, Some(0)),
     Scope(StaticInitializers, Some(0)),
     Scope(MethodBody, Some(0)),
     Scope(BlockBody, Some(3)),
     Scope(BlockBody, Some(4))]
  }

  /** Its scopes, in the order the walk opens them. */
  function Layout(): seq<Scope> {
    Layout0()
  }

  lemma {:induction false} LayoutJoin0()
    ensures [Scope(Unit, None), Scope(InstanceInitializers, Some(0)), Scope(StaticInitializers, Some(0)), Scope(MethodBody, Some(0)), Scope(BlockBody, Some(3))] + [Scope(BlockBody, Some(4))] == Layout0()
  {
  }

  /** The layout, scope by scope. */
  lemma {:induction false} LayoutFlat()
    ensures [Scope(Unit, None), Scope(InstanceInitializers, Some(0)), Scope(StaticInitializers, Some(0)), Scope(MethodBody, Some(0)), Scope(BlockBody, Some(3))] + [Scope(BlockBody, Some(4))] == Layout()
  {
    LayoutJoin0();
  }

  /** Events 0 to 7 of the test, in evaluation order. */
  function Chunk0(i: string, j: string, k: string, l: string, m: string): seq<Event> {
    []
      + [Referenced(4, i, Pos(6, 9), true, false, [])]
      + [Declared(4, i, Pos(7, 38), Initialized, [])]
      + [OutAssigned(4, [], [])]
      + [Declared(4, j, Pos(9, 38), Initialized, [])]
      + [OutAssigned(4, [], [])]
      + [Declared(4, j, Pos(10, 38), Initialized, [])]
      + [OutAssigned(4, [], [])]
      + [Declared(4, k, Pos(12, 38), Initialized, [])]
  }

  /** Events 8 to 15 of the test, in evaluation order. */
  function Chunk1(i: string, j: string, k: string, l: string, m: string): seq<Event> {
    []
      + [OutAssigned(4, [], [])]
      + [Declared(4, k, Pos(13, 13), Initialized, [])]
      + [Declared(4, l, Pos(15, 13), Initialized, [])]
      + [Declared(4, l, Pos(16, 38), Initialized, [])]
      + [OutAssigned(4, [], [])]
      + [Declared(4, m, Pos(18, 13), Initialized, [])]
      + [Declared(5, m, Pos(20, 42), Initialized, [])]
      + [OutAssigned(5, [], [])]
  }

  /** Events 16 to 17 of the test, in evaluation order. */
  function Chunk2(i: string, j: string, k: string, l: string, m: string): seq<Event> {
    []
      + [Referenced(4, m, Pos(23, 34), false, false, [])]
      + [OutAssigned(4, [], [])]
  }

  /** The events of the test, in evaluation order. */
  function Trace(i: string, j: string, k: string, l: string, m: string): seq<Event> {
    []
      + Chunk0(i, j, k, l, m)
      + Chunk1(i, j, k, l, m)
      + Chunk2(i, j, k, l, m)
  }

  lemma {:induction false} Walk2(i: string, j: string, k: string, l: string, m: string, tr: Tree)
    requires |tr.scopes| == 5 && tr.arms == 0
    ensures WalkStmt(Exprs([Use(i, Pos(6, 9), true)]), Ctx(4, [], []), tr) == Tree(tr.scopes, tr.events + [Referenced(4, i, Pos(6, 9), true, false, [])], 0)
  {
    WalkExprsOne(Use(i, Pos(6, 9), true), Ctx(4, [], []), tr);
    assert WalkExpr(Use(i, Pos(6, 9), true), Ctx(4, [], []), tr) == Tree(tr.scopes, tr.events + [Referenced(4, i, Pos(6, 9), true, false, [])], 0);
    assert WalkExprs([Use(i, Pos(6, 9), true)], Ctx(4, [], []), tr) == Tree(tr.scopes, tr.events + [Referenced(4, i, Pos(6, 9), true, false, [])], 0);
    assert WalkStmt(Exprs([Use(i, Pos(6, 9), true)]), Ctx(4, [], []), tr) == Tree(tr.scopes, tr.events + [Referenced(4, i, Pos(6, 9), true, false, [])], 0);
  }

  lemma {:induction false} Walk3(i: string, j: string, k: string, l: string, m: string, tr: Tree)
    requires |tr.scopes| == 5 && tr.arms == 0
    ensures WalkStmt(Exprs([Call([Argument([Declare(i, Pos(7, 38), Initialized)])])]), Ctx(4, [], []), tr) == Tree(tr.scopes, tr.events + [Declared(4, i, Pos(7, 38), Initialized, [])] + [OutAssigned(4, [], [])], 0)
  {
    WalkExprsOne(Call([Argument([Declare(i, Pos(7, 38), Initialized)])]), Ctx(4, [], []), tr);
    assert OutNames([]) == [];
    WalkArgsOne(Argument([Declare(i, Pos(7, 38), Initialized)]), [], Ctx(4, [], []), tr);
    WalkExprsOne(Declare(i, Pos(7, 38), Initialized), Ctx(4, [], []), tr);
    assert WalkExpr(Declare(i, Pos(7, 38), Initialized), Ctx(4, [], []), tr) == Tree(tr.scopes, tr.events + [Declared(4, i, Pos(7, 38), Initialized, [])], 0);
    assert WalkExprs([Declare(i, Pos(7, 38), Initialized)], Ctx(4, [], []), tr) == Tree(tr.scopes, tr.events + [Declared(4, i, Pos(7, 38), Initialized, [])], 0);
    OutNamesOfOne(Declare(i, Pos(7, 38), Initialized));
    OutNamesSnoc([], Argument([Declare(i, Pos(7, 38), Initialized)]));
    assert WalkArgs([Argument([Declare(i, Pos(7, 38), Initialized)])], [], Ctx(4, [], []), tr) == Tree(tr.scopes, tr.events + [Declared(4, i, Pos(7, 38), Initialized, [])], 0);
    assert OutNames([Argument([Declare(i, Pos(7, 38), Initialized)])]) == [];
    assert WalkExpr(Call([Argument([Declare(i, Pos(7, 38), Initialized)])]), Ctx(4, [], []), tr) == Tree(tr.scopes, tr.events + [Declared(4, i, Pos(7, 38), Initialized, [])] + [OutAssigned(4, [], [])], 0);
    assert WalkExprs([Call([Argument([Declare(i, Pos(7, 38), Initialized)])])], Ctx(4, [], []), tr) == Tree(tr.scopes, tr.events + [Declared(4, i, Pos(7, 38), Initialized, [])] + [OutAssigned(4, [], [])], 0);
    assert WalkStmt(Exprs([Call([Argument([Declare(i, Pos(7, 38), Initialized)])])]), Ctx(4, [], []), tr) == Tree(tr.scopes, tr.events + [Declared(4, i, Pos(7, 38), Initialized, [])] + [OutAssigned(4, [], [])], 0);
  }

  lemma {:induction false} Walk4(i: string, j: string, k: string, l: string, m: string, tr: Tree)
    requires |tr.scopes| == 5 && tr.arms == 0
    ensures WalkStmt(Exprs([Call([Argument([Declare(j, Pos(9, 38), Initialized)])])]), Ctx(4, [], []), tr) == Tree(tr.scopes, tr.events + [Declared(4, j, Pos(9, 38), Initialized, [])] + [OutAssigned(4, [], [])], 0)
  {
    WalkExprsOne(Call([Argument([Declare(j, Pos(9, 38), Initialized)])]), Ctx(4, [], []), tr);
    assert OutNames([]) == [];
    WalkArgsOne(Argument([Declare(j, Pos(9, 38), Initialized)]), [], Ctx(4, [], []), tr);
    WalkExprsOne(Declare(j, Pos(9, 38), Initialized), Ctx(4, [], []), tr);
    assert WalkExpr(Declare(j, Pos(9, 38), Initialized), Ctx(4, [], []), tr) == Tree(tr.scopes, tr.events + [Declared(4, j, Pos(9, 38), Initialized, [])], 0);
    assert WalkExprs([Declare(j, Pos(9, 38), Initialized)], Ctx(4, [], []), tr) == Tree(tr.scopes, tr.events + [Declared(4, j, Pos(9, 38), Initialized, [])], 0);
    OutNamesOfOne(Declare(j, Pos(9, 38), Initialized));
    OutNamesSnoc([], Argument([Declare(j, Pos(9, 38), Initialized)]));
    assert WalkArgs([Argument([Declare(j, Pos(9, 38), Initialized)])], [], Ctx(4, [], []), tr) == Tree(tr.scopes, tr.events + [Declared(4, j, Pos(9, 38), Initialized, [])], 0);
    assert OutNames([Argument([Declare(j, Pos(9, 38), Initialized)])]) == [];
    assert WalkExpr(Call([Argument([Declare(j, Pos(9, 38), Initialized)])]), Ctx(4, [], []), tr) == Tree(tr.scopes, tr.events + [Declared(4, j, Pos(9, 38), Initialized, [])] + [OutAssigned(4, [], [])], 0);
    assert WalkExprs([Call([Argument([Declare(j, Pos(9, 38), Initialized)])])], Ctx(4, [], []), tr) == Tree(tr.scopes, tr.events + [Declared(4, j, Pos(9, 38), Initialized, [])] + [OutAssigned(4, [], [])], 0);
    assert WalkStmt(Exprs([Call([Argument([Declare(j, Pos(9, 38), Initialized)])])]), Ctx(4, [], []), tr) == Tree(tr.scopes, tr.events + [Declared(4, j, Pos(9, 38), Initialized, [])] + [OutAssigned(4, [], [])], 0);
  }

  lemma {:induction false} Walk5(i: string, j: string, k: string, l: string, m: string, tr: Tree)
    requires |tr.scopes| == 5 && tr.arms == 0
    ensures WalkStmt(Exprs([Call([Argument([Declare(j, Pos(10, 38), Initialized)])])]), Ctx(4, [], []), tr) == Tree(tr.scopes, tr.events + [Declared(4, j, Pos(10, 38), Initialized, [])] + [OutAssigned(4, [], [])], 0)
  {
    WalkExprsOne(Call([Argument([Declare(j, Pos(10, 38), Initialized)])]), Ctx(4, [], []), tr);
    assert OutNames([]) == [];
    WalkArgsOne(Argument([Declare(j, Pos(10, 38), Initialized)]), [], Ctx(4, [], []), tr);
    WalkExprsOne(Declare(j, Pos(10, 38), Initialized), Ctx(4, [], []), tr);
    assert WalkExpr(Declare(j, Pos(10, 38), Initialized), Ctx(4, [], []), tr) == Tree(tr.scopes, tr.events + [Declared(4, j, Pos(10, 38), Initialized, [])], 0);
    assert WalkExprs([Declare(j, Pos(10, 38), Initialized)], Ctx(4, [], []), tr) == Tree(tr.scopes, tr.events + [Declared(4, j, Pos(10, 38), Initialized, [])], 0);
    OutNamesOfOne(Declare(j, Pos(10, 38), Initialized));
    OutNamesSnoc([], Argument([Declare(j, Pos(10, 38), Initialized)]));
    assert WalkArgs([Argument([Declare(j, Pos(10, 38), Initialized)])], [], Ctx(4, [], []), tr) == Tree(tr.scopes, tr.events + [Declared(4, j, Pos(10, 38), Initialized, [])], 0);
    assert OutNames([Argument([Declare(j, Pos(10, 38), Initialized)])]) == [];
    assert WalkExpr(Call([Argument([Declare(j, Pos(10, 38), Initialized)])]), Ctx(4, [], []), tr) == Tree(tr.scopes, tr.events + [Declared(4, j, Pos(10, 38), Initialized, [])] + [OutAssigned(4, [], [])], 0);
    assert WalkExprs([Call([Argument([Declare(j, Pos(10, 38), Initialized)])])], Ctx(4, [], []), tr) == Tree(tr.scopes, tr.events + [Declared(4, j, Pos(10, 38), Initialized, [])] + [OutAssigned(4, [], [])], 0);
    assert WalkStmt(Exprs([Call([Argument([Declare(j, Pos(10, 38), Initialized)])])]), Ctx(4, [], []), tr) == Tree(tr.scopes, tr.events + [Declared(4, j, Pos(10, 38), Initialized, [])] + [OutAssigned(4, [], [])], 0);
  }

  lemma {:induction false} Stmts1(i: string, j: string, k: string, l: string, m: string, tr: Tree, rest: seq<Stmt>)
    requires |tr.scopes| == 5 && tr.arms == 0
    ensures WalkStmts([Exprs([Use(i, Pos(6, 9), true)])] + ([Exprs([Call([Argument([Declare(i, Pos(7, 38), Initialized)])])])] + ([Exprs([Call([Argument([Declare(j, Pos(9, 38), Initialized)])])])] + ([Exprs([Call([Argument([Declare(j, Pos(10, 38), Initialized)])])])] + (rest)))), Ctx(4, [], []), tr) == WalkStmts(rest, Ctx(4, [], []), Tree(tr.scopes, tr.events + [Referenced(4, i, Pos(6, 9), true, false, [])] + [Declared(4, i, Pos(7, 38), Initialized, [])] + [OutAssigned(4, [], [])] + [Declared(4, j, Pos(9, 38), Initialized, [])] + [OutAssigned(4, [], [])] + [Declared(4, j, Pos(10, 38), Initialized, [])] + [OutAssigned(4, [], [])], 0))
  {
    WalkStmtsCons(Exprs([Use(i, Pos(6, 9), true)]), [Exprs([Call([Argument([Declare(i, Pos(7, 38), Initialized)])])])] + ([Exprs([Call([Argument([Declare(j, Pos(9, 38), Initialized)])])])] + ([Exprs([Call([Argument([Declare(j, Pos(10, 38), Initialized)])])])] + (rest))), Ctx(4, [], []), tr);
    Walk2(i, j, k, l, m, tr);
    assert WalkStmt(Exprs([Use(i, Pos(6, 9), true)]), Ctx(4, [], []), tr) == Tree(tr.scopes, tr.events + [Referenced(4, i, Pos(6, 9), true, false, [])], 0);
    WalkStmtsCons(Exprs([Call([Argument([Declare(i, Pos(7, 38), Initialized)])])]), [Exprs([Call([Argument([Declare(j, Pos(9, 38), Initialized)])])])] + ([Exprs([Call([Argument([Declare(j, Pos(10, 38), Initialized)])])])] + (rest)), Ctx(4, [], []), Tree(tr.scopes, tr.events + [Referenced(4, i, Pos(6, 9), true, false, [])], 0));
    Walk3(i, j, k, l, m, Tree(tr.scopes, tr.events + [Referenced(4, i, Pos(6, 9), true, false, [])], 0));
    assert WalkStmt(Exprs([Call([Argument([Declare(i, Pos(7, 38), Initialized)])])]), Ctx(4, [], []), Tree(tr.scopes, tr.events + [Referenced(4, i, Pos(6, 9), true, false, [])], 0)) == Tree(tr.scopes, tr.events + [Referenced(4, i, Pos(6, 9), true, false, [])] + [Declared(4, i, Pos(7, 38), Initialized, [])] + [OutAssigned(4, [], [])], 0);
    WalkStmtsCons(Exprs([Call([Argument([Declare(j, Pos(9, 38), Initialized)])])]), [Exprs([Call([Argument([Declare(j, Pos(10, 38), Initialized)])])])] + (rest), Ctx(4, [], []), Tree(tr.scopes, tr.events + [Referenced(4, i, Pos(6, 9), true, false, [])] + [Declared(4, i, Pos(7, 38), Initialized, [])] + [OutAssigned(4, [], [])], 0));
    Walk4(i, j, k, l, m, Tree(tr.scopes, tr.events + [Referenced(4, i, Pos(6, 9), true, false, [])] + [Declared(4, i, Pos(7, 38), Initialized, [])] + [OutAssigned(4, [], [])], 0));
    assert WalkStmt(Exprs([Call([Argument([Declare(j, Pos(9, 38), Initialized)])])]), Ctx(4, [], []), Tree(tr.scopes, tr.events + [Referenced(4, i, Pos(6, 9), true, false, [])] + [Declared(4, i, Pos(7, 38), Initialized, [])] + [OutAssigned(4, [], [])], 0)) == Tree(tr.scopes, tr.events + [Referenced(4, i, Pos(6, 9), true, false, [])] + [Declared(4, i, Pos(7, 38), Initialized, [])] + [OutAssigned(4, [], [])] + [Declared(4, j, Pos(9, 38), Initialized, [])] + [OutAssigned(4, [], [])], 0);
    WalkStmtsCons(Exprs([Call([Argument([Declare(j, Pos(10, 38), Initialized)])])]), rest, Ctx(4, [], []), Tree(tr.scopes, tr.events + [Referenced(4, i, Pos(6, 9), true, false, [])] + [Declared(4, i, Pos(7, 38), Initialized, [])] + [OutAssigned(4, [], [])] + [Declared(4, j, Pos(9, 38), Initialized, [])] + [OutAssigned(4, [], [])], 0));
    Walk5(i, j, k, l, m, Tree(tr.scopes, tr.events + [Referenced(4, i, Pos(6, 9), true, false, [])] + [Declared(4, i, Pos(7, 38), Initialized, [])] + [OutAssigned(4, [], [])] + [Declared(4, j, Pos(9, 38), Initialized, [])] + [OutAssigned(4, [], [])], 0));
    assert WalkStmt(Exprs([Call([Argument([Declare(j, Pos(10, 38), Initialized)])])]), Ctx(4, [], []), Tree(tr.scopes, tr.events + [Referenced(4, i, Pos(6, 9), true, false, [])] + [Declared(4, i, Pos(7, 38), Initialized, [])] + [OutAssigned(4, [], [])] + [Declared(4, j, Pos(9, 38), Initialized, [])] + [OutAssigned(4, [], [])], 0)) == Tree(tr.scopes, tr.events + [Referenced(4, i, Pos(6, 9), true, false, [])] + [Declared(4, i, Pos(7, 38), Initialized, [])] + [OutAssigned(4, [], [])] + [Declared(4, j, Pos(9, 38), Initialized, [])] + [OutAssigned(4, [], [])] + [Declared(4, j, Pos(10, 38), Initialized, [])] + [OutAssigned(4, [], [])], 0);
  }

  lemma {:induction false} Walk7(i: string, j: string, k: string, l: string, m: string, tr: Tree)
    requires |tr.scopes| == 5 && tr.arms == 0
    ensures WalkStmt(Exprs([Call([Argument([Declare(k, Pos(12, 38), Initialized)])])]), Ctx(4, [], []), tr) == Tree(tr.scopes, tr.events + [Declared(4, k, Pos(12, 38), Initialized, [])] + [OutAssigned(4, [], [])], 0)
  {
    WalkExprsOne(Call([Argument([Declare(k, Pos(12, 38), Initialized)])]), Ctx(4, [], []), tr);
    assert OutNames([]) == [];
    WalkArgsOne(Argument([Declare(k, Pos(12, 38), Initialized)]), [], Ctx(4, [], []), tr);
    WalkExprsOne(Declare(k, Pos(12, 38), Initialized), Ctx(4, [], []), tr);
    assert WalkExpr(Declare(k, Pos(12, 38), Initialized), Ctx(4, [], []), tr) == Tree(tr.scopes, tr.events + [Declared(4, k, Pos(12, 38), Initialized, [])], 0);
    assert WalkExprs([Declare(k, Pos(12, 38), Initialized)], Ctx(4, [], []), tr) == Tree(tr.scopes, tr.events + [Declared(4, k, Pos(12, 38), Initialized, [])], 0);
    OutNamesOfOne(Declare(k, Pos(12, 38), Initialized));
    OutNamesSnoc([], Argument([Declare(k, Pos(12, 38), Initialized)]));
    assert WalkArgs([Argument([Declare(k, Pos(12, 38), Initialized)])], [], Ctx(4, [], []), tr) == Tree(tr.scopes, tr.events + [Declared(4, k, Pos(12, 38), Initialized, [])], 0);
    assert OutNames([Argument([Declare(k, Pos(12, 38), Initialized)])]) == [];
    assert WalkExpr(Call([Argument([Declare(k, Pos(12, 38), Initialized)])]), Ctx(4, [], []), tr) == Tree(tr.scopes, tr.events + [Declared(4, k, Pos(12, 38), Initialized, [])] + [OutAssigned(4, [], [])], 0);
    assert WalkExprs([Call([Argument([Declare(k, Pos(12, 38), Initialized)])])], Ctx(4, [], []), tr) == Tree(tr.scopes, tr.events + [Declared(4, k, Pos(12, 38), Initialized, [])] + [OutAssigned(4, [], [])], 0);
    assert WalkStmt(Exprs([Call([Argument([Declare(k, Pos(12, 38), Initialized)])])]), Ctx(4, [], []), tr) == Tree(tr.scopes, tr.events + [Declared(4, k, Pos(12, 38), Initialized, [])] + [OutAssigned(4, [], [])], 0);
  }

  lemma {:induction false} Walk8(i: string, j: string, k: string, l: string, m: string, tr: Tree)
    requires |tr.scopes| == 5 && tr.arms == 0
    ensures WalkStmt(Exprs([Declare(k, Pos(13, 13), Initialized)]), Ctx(4, [], []), tr) == Tree(tr.scopes, tr.events + [Declared(4, k, Pos(13, 13), Initialized, [])], 0)
  {
    WalkExprsOne(Declare(k, Pos(13, 13), Initialized), Ctx(4, [], []), tr);
    assert WalkExpr(Declare(k, Pos(13, 13), Initialized), Ctx(4, [], []), tr) == Tree(tr.scopes, tr.events + [Declared(4, k, Pos(13, 13), Initialized, [])], 0);
    assert WalkExprs([Declare(k, Pos(13, 13), Initialized)], Ctx(4, [], []), tr) == Tree(tr.scopes, tr.events + [Declared(4, k, Pos(13, 13), Initialized, [])], 0);
    assert WalkStmt(Exprs([Declare(k, Pos(13, 13), Initialized)]), Ctx(4, [], []), tr) == Tree(tr.scopes, tr.events + [Declared(4, k, Pos(13, 13), Initialized, [])], 0);
  }

  lemma {:induction false} Walk9(i: string, j: string, k: string, l: string, m: string, tr: Tree)
    requires |tr.scopes| == 5 && tr.arms == 0
    ensures WalkStmt(Exprs([Declare(l, Pos(15, 13), Initialized)]), Ctx(4, [], []), tr) == Tree(tr.scopes, tr.events + [Declared(4, l, Pos(15, 13), Initialized, [])], 0)
  {
    WalkExprsOne(Declare(l, Pos(15, 13), Initialized), Ctx(4, [], []), tr);
    assert WalkExpr(Declare(l, Pos(15, 13), Initialized), Ctx(4, [], []), tr) == Tree(tr.scopes, tr.events + [Declared(4, l, Pos(15, 13), Initialized, [])], 0);
    assert WalkExprs([Declare(l, Pos(15, 13), Initialized)], Ctx(4, [], []), tr) == Tree(tr.scopes, tr.events + [Declared(4, l, Pos(15, 13), Initialized, [])], 0);
    assert WalkStmt(Exprs([Declare(l, Pos(15, 13), Initialized)]), Ctx(4, [], []), tr) == Tree(tr.scopes, tr.events + [Declared(4, l, Pos(15, 13), Initialized, [])], 0);
  }

  lemma {:induction false} Walk10(i: string, j: string, k: string, l: string, m: string, tr: Tree)
    requires |tr.scopes| == 5 && tr.arms == 0
    ensures WalkStmt(Exprs([Call([Argument([Declare(l, Pos(16, 38), Initialized)])])]), Ctx(4, [], []), tr) == Tree(tr.scopes, tr.events + [Declared(4, l, Pos(16, 38), Initialized, [])] + [OutAssigned(4, [], [])], 0)
  {
    WalkExprsOne(Call([Argument([Declare(l, Pos(16, 38), Initialized)])]), Ctx(4, [], []), tr);
    assert OutNames([]) == [];
    WalkArgsOne(Argument([Declare(l, Pos(16, 38), Initialized)]), [], Ctx(4, [], []), tr);
    WalkExprsOne(Declare(l, Pos(16, 38), Initialized), Ctx(4, [], []), tr);
    assert WalkExpr(Declare(l, Pos(16, 38), Initialized), Ctx(4, [], []), tr) == Tree(tr.scopes, tr.events + [Declared(4, l, Pos(16, 38), Initialized, [])], 0);
    assert WalkExprs([Declare(l, Pos(16, 38), Initialized)], Ctx(4, [], []), tr) == Tree(tr.scopes, tr.events + [Declared(4, l, Pos(16, 38), Initialized, [])], 0);
    OutNamesOfOne(Declare(l, Pos(16, 38), Initialized));
    OutNamesSnoc([], Argument([Declare(l, Pos(16, 38), Initialized)]));
    assert WalkArgs([Argument([Declare(l, Pos(16, 38), Initialized)])], [], Ctx(4, [], []), tr) == Tree(tr.scopes, tr.events + [Declared(4, l, Pos(16, 38), Initialized, [])], 0);
    assert OutNames([Argument([Declare(l, Pos(16, 38), Initialized)])]) == [];
    assert WalkExpr(Call([Argument([Declare(l, Pos(16, 38), Initialized)])]), Ctx(4, [], []), tr) == Tree(tr.scopes, tr.events + [Declared(4, l, Pos(16, 38), Initialized, [])] + [OutAssigned(4, [], [])], 0);
    assert WalkExprs([Call([Argument([Declare(l, Pos(16, 38), Initialized)])])], Ctx(4, [], []), tr) == Tree(tr.scopes, tr.events + [Declared(4, l, Pos(16, 38), Initialized, [])] + [OutAssigned(4, [], [])], 0);
    assert WalkStmt(Exprs([Call([Argument([Declare(l, Pos(16, 38), Initialized)])])]), Ctx(4, [], []), tr) == Tree(tr.scopes, tr.events + [Declared(4, l, Pos(16, 38), Initialized, [])] + [OutAssigned(4, [], [])], 0);
  }

  lemma {:induction false} Stmts6(i: string, j: string, k: string, l: string, m: string, tr: Tree, rest: seq<Stmt>)
    requires |tr.scopes| == 5 && tr.arms == 0
    ensures WalkStmts([Exprs([Call([Argument([Declare(k, Pos(12, 38), Initialized)])])])] + ([Exprs([Declare(k, Pos(13, 13), Initialized)])] + ([Exprs([Declare(l, Pos(15, 13), Initialized)])] + ([Exprs([Call([Argument([Declare(l, Pos(16, 38), Initialized)])])])] + (rest)))), Ctx(4, [], []), tr) == WalkStmts(rest, Ctx(4, [], []), Tree(tr.scopes, tr.events + [Declared(4, k, Pos(12, 38), Initialized, [])] + [OutAssigned(4, [], [])] + [Declared(4, k, Pos(13, 13), Initialized, [])] + [Declared(4, l, Pos(15, 13), Initialized, [])] + [Declared(4, l, Pos(16, 38), Initialized, [])] + [OutAssigned(4, [], [])], 0))
  {
    WalkStmtsCons(Exprs([Call([Argument([Declare(k, Pos(12, 38), Initialized)])])]), [Exprs([Declare(k, Pos(13, 13), Initialized)])] + ([Exprs([Declare(l, Pos(15, 13), Initialized)])] + ([Exprs([Call([Argument([Declare(l, Pos(16, 38), Initialized)])])])] + (rest))), Ctx(4, [], []), tr);
    Walk7(i, j, k, l, m, tr);
    assert WalkStmt(Exprs([Call([Argument([Declare(k, Pos(12, 38), Initialized)])])]), Ctx(4, [], []), tr) == Tree(tr.scopes, tr.events + [Declared(4, k, Pos(12, 38), Initialized, [])] + [OutAssigned(4, [], [])], 0);
    WalkStmtsCons(Exprs([Declare(k, Pos(13, 13), Initialized)]), [Exprs([Declare(l, Pos(15, 13), Initialized)])] + ([Exprs([Call([Argument([Declare(l, Pos(16, 38), Initialized)])])])] + (rest)), Ctx(4, [], []), Tree(tr.scopes, tr.events + [Declared(4, k, Pos(12, 38), Initialized, [])] + [OutAssigned(4, [], [])], 0));
    Walk8(i, j, k, l, m, Tree(tr.scopes, tr.events + [Declared(4, k, Pos(12, 38), Initialized, [])] + [OutAssigned(4, [], [])], 0));
    assert WalkStmt(Exprs([Declare(k, Pos(13, 13), Initialized)]), Ctx(4, [], []), Tree(tr.scopes, tr.events + [Declared(4, k, Pos(12, 38), Initialized, [])] + [OutAssigned(4, [], [])], 0)) == Tree(tr.scopes, tr.events + [Declared(4, k, Pos(12, 38), Initialized, [])] + [OutAssigned(4, [], [])] + [Declared(4, k, Pos(13, 13), Initialized, [])], 0);
    WalkStmtsCons(Exprs([Declare(l, Pos(15, 13), Initialized)]), [Exprs([Call([Argument([Declare(l, Pos(16, 38), Initialized)])])])] + (rest), Ctx(4, [], []), Tree(tr.scopes, tr.events + [Declared(4, k, Pos(12, 38), Initialized, [])] + [OutAssigned(4, [], [])] + [Declared(4, k, Pos(13, 13), Initialized, [])], 0));
    Walk9(i, j, k, l, m, Tree(tr.scopes, tr.events + [Declared(4, k, Pos(12, 38), Initialized, [])] + [OutAssigned(4, [], [])] + [Declared(4, k, Pos(13, 13), Initialized, [])], 0));
    assert WalkStmt(Exprs([Declare(l, Pos(15, 13), Initialized)]), Ctx(4, [], []), Tree(tr.scopes, tr.events + [Declared(4, k, Pos(12, 38), Initialized, [])] + [OutAssigned(4, [], [])] + [Declared(4, k, Pos(13, 13), Initialized, [])], 0)) == Tree(tr.scopes, tr.events + [Declared(4, k, Pos(12, 38), Initialized, [])] + [OutAssigned(4, [], [])] + [Declared(4, k, Pos(13, 13), Initialized, [])] + [Declared(4, l, Pos(15, 13), Initialized, [])], 0);
    WalkStmtsCons(Exprs([Call([Argument([Declare(l, Pos(16, 38), Initialized)])])]), rest, Ctx(4, [], []), Tree(tr.scopes, tr.events + [Declared(4, k, Pos(12, 38), Initialized, [])] + [OutAssigned(4, [], [])] + [Declared(4, k, Pos(13, 13), Initialized, [])] + [Declared(4, l, Pos(15, 13), Initialized, [])], 0));
    Walk10(i, j, k, l, m, Tree(tr.scopes, tr.events + [Declared(4, k, Pos(12, 38), Initialized, [])] + [OutAssigned(4, [], [])] + [Declared(4, k, Pos(13, 13), Initialized, [])] + [Declared(4, l, Pos(15, 13), Initialized, [])], 0));
    assert WalkStmt(Exprs([Call([Argument([Declare(l, Pos(16, 38), Initialized)])])]), Ctx(4, [], []), Tree(tr.scopes, tr.events + [Declared(4, k, Pos(12, 38), Initialized, [])] + [OutAssigned(4, [], [])] + [Declared(4, k, Pos(13, 13), Initialized, [])] + [Declared(4, l, Pos(15, 13), Initialized, [])], 0)) == Tree(tr.scopes, tr.events + [Declared(4, k, Pos(12, 38), Initialized, [])] + [OutAssigned(4, [], [])] + [Declared(4, k, Pos(13, 13), Initialized, [])] + [Declared(4, l, Pos(15, 13), Initialized, [])] + [Declared(4, l, Pos(16, 38), Initialized, [])] + [OutAssigned(4, [], [])], 0);
  }

  lemma {:induction false} Walk12(i: string, j: string, k: string, l: string, m: string, tr: Tree)
    requires |tr.scopes| == 5 && tr.arms == 0
    ensures WalkStmt(Exprs([Declare(m, Pos(18, 13), Initialized)]), Ctx(4, [], []), tr) == Tree(tr.scopes, tr.events + [Declared(4, m, Pos(18, 13), Initialized, [])], 0)
  {
    WalkExprsOne(Declare(m, Pos(18, 13), Initialized), Ctx(4, [], []), tr);
    assert WalkExpr(Declare(m, Pos(18, 13), Initialized), Ctx(4, [], []), tr) == Tree(tr.scopes, tr.events + [Declared(4, m, Pos(18, 13), Initialized, [])], 0);
    assert WalkExprs([Declare(m, Pos(18, 13), Initialized)], Ctx(4, [], []), tr) == Tree(tr.scopes, tr.events + [Declared(4, m, Pos(18, 13), Initialized, [])], 0);
    assert WalkStmt(Exprs([Declare(m, Pos(18, 13), Initialized)]), Ctx(4, [], []), tr) == Tree(tr.scopes, tr.events + [Declared(4, m, Pos(18, 13), Initialized, [])], 0);
  }

  lemma {:induction false} Walk14(i: string, j: string, k: string, l: string, m: string, tr: Tree)
    requires |tr.scopes| == 6 && tr.arms == 0
    ensures WalkStmt(Exprs([Call([Argument([Declare(m, Pos(20, 42), Initialized)])])]), Ctx(5, [], []), tr) == Tree(tr.scopes, tr.events + [Declared(5, m, Pos(20, 42), Initialized, [])] + [OutAssigned(5, [], [])], 0)
  {
    WalkExprsOne(Call([Argument([Declare(m, Pos(20, 42), Initialized)])]), Ctx(5, [], []), tr);
    assert OutNames([]) == [];
    WalkArgsOne(Argument([Declare(m, Pos(20, 42), Initialized)]), [], Ctx(5, [], []), tr);
    WalkExprsOne(Declare(m, Pos(20, 42), Initialized), Ctx(5, [], []), tr);
    assert WalkExpr(Declare(m, Pos(20, 42), Initialized), Ctx(5, [], []), tr) == Tree(tr.scopes, tr.events + [Declared(5, m, Pos(20, 42), Initialized, [])], 0);
    assert WalkExprs([Declare(m, Pos(20, 42), Initialized)], Ctx(5, [], []), tr) == Tree(tr.scopes, tr.events + [Declared(5, m, Pos(20, 42), Initialized, [])], 0);
    OutNamesOfOne(Declare(m, Pos(20, 42), Initialized));
    OutNamesSnoc([], Argument([Declare(m, Pos(20, 42), Initialized)]));
    assert WalkArgs([Argument([Declare(m, Pos(20, 42), Initialized)])], [], Ctx(5, [], []), tr) == Tree(tr.scopes, tr.events + [Declared(5, m, Pos(20, 42), Initialized, [])], 0);
    assert OutNames([Argument([Declare(m, Pos(20, 42), Initialized)])]) == [];
    assert WalkExpr(Call([Argument([Declare(m, Pos(20, 42), Initialized)])]), Ctx(5, [], []), tr) == Tree(tr.scopes, tr.events + [Declared(5, m, Pos(20, 42), Initialized, [])] + [OutAssigned(5, [], [])], 0);
    assert WalkExprs([Call([Argument([Declare(m, Pos(20, 42), Initialized)])])], Ctx(5, [], []), tr) == Tree(tr.scopes, tr.events + [Declared(5, m, Pos(20, 42), Initialized, [])] + [OutAssigned(5, [], [])], 0);
    assert WalkStmt(Exprs([Call([Argument([Declare(m, Pos(20, 42), Initialized)])])]), Ctx(5, [], []), tr) == Tree(tr.scopes, tr.events + [Declared(5, m, Pos(20, 42), Initialized, [])] + [OutAssigned(5, [], [])], 0);
  }

  lemma {:induction false} Walk13(i: string, j: string, k: string, l: string, m: string, tr: Tree)
    requires |tr.scopes| == 5 && tr.arms == 0
    ensures WalkStmt(Block([Exprs([Call([Argument([Declare(m, Pos(20, 42), Initialized)])])])]), Ctx(4, [], []), tr) == Tree(tr.scopes + [Scope(BlockBody, Some(4))], tr.events + [Declared(5, m, Pos(20, 42), Initialized, [])] + [OutAssigned(5, [], [])], 0)
  {
    WalkStmtsOne(Exprs([Call([Argument([Declare(m, Pos(20, 42), Initialized)])])]), Ctx(5, [], []), Tree(tr.scopes + [Scope(BlockBody, Some(4))], tr.events, 0));
    Walk14(i, j, k, l, m, Tree(tr.scopes + [Scope(BlockBody, Some(4))], tr.events, 0));
    assert WalkStmt(Exprs([Call([Argument([Declare(m, Pos(20, 42), Initialized)])])]), Ctx(5, [], []), Tree(tr.scopes + [Scope(BlockBody, Some(4))], tr.events, 0)) == Tree(tr.scopes + [Scope(BlockBody, Some(4))], tr.events + [Declared(5, m, Pos(20, 42), Initialized, [])] + [OutAssigned(5, [], [])], 0);
    assert WalkStmt(Block([Exprs([Call([Argument([Declare(m, Pos(20, 42), Initialized)])])])]), Ctx(4, [], []), tr) == Tree(tr.scopes + [Scope(BlockBody, Some(4))], tr.events + [Declared(5, m, Pos(20, 42), Initialized, [])] + [OutAssigned(5, [], [])], 0);
  }

  lemma {:induction false} Walk15(i: string, j: string, k: string, l: string, m: string, tr: Tree)
    requires |tr.scopes| == 6 && tr.arms == 0
    ensures WalkStmt(Exprs([Call([Argument([Use(m, Pos(23, 34), false)])])]), Ctx(4, [], []), tr) == Tree(tr.scopes, tr.events + [Referenced(4, m, Pos(23, 34), false, false, [])] + [OutAssigned(4, [], [])], 0)
  {
    WalkExprsOne(Call([Argument([Use(m, Pos(23, 34), false)])]), Ctx(4, [], []), tr);
    assert OutNames([]) == [];
    WalkArgsOne(Argument([Use(m, Pos(23, 34), false)]), [], Ctx(4, [], []), tr);
    WalkExprsOne(Use(m, Pos(23, 34), false), Ctx(4, [], []), tr);
    assert WalkExpr(Use(m, Pos(23, 34), false), Ctx(4, [], []), tr) == Tree(tr.scopes, tr.events + [Referenced(4, m, Pos(23, 34), false, false, [])], 0);
    assert WalkExprs([Use(m, Pos(23, 34), false)], Ctx(4, [], []), tr) == Tree(tr.scopes, tr.events + [Referenced(4, m, Pos(23, 34), false, false, [])], 0);
    OutNamesOfOne(Use(m, Pos(23, 34), false));
    OutNamesSnoc([], Argument([Use(m, Pos(23, 34), false)]));
    assert WalkArgs([Argument([Use(m, Pos(23, 34), false)])], [], Ctx(4, [], []), tr) == Tree(tr.scopes, tr.events + [Referenced(4, m, Pos(23, 34), false, false, [])], 0);
    assert OutNames([Argument([Use(m, Pos(23, 34), false)])]) == [];
    assert WalkExpr(Call([Argument([Use(m, Pos(23, 34), false)])]), Ctx(4, [], []), tr) == Tree(tr.scopes, tr.events + [Referenced(4, m, Pos(23, 34), false, false, [])] + [OutAssigned(4, [], [])], 0);
    assert WalkExprs([Call([Argument([Use(m, Pos(23, 34), false)])])], Ctx(4, [], []), tr) == Tree(tr.scopes, tr.events + [Referenced(4, m, Pos(23, 34), false, false, [])] + [OutAssigned(4, [], [])], 0);
    assert WalkStmt(Exprs([Call([Argument([Use(m, Pos(23, 34), false)])])]), Ctx(4, [], []), tr) == Tree(tr.scopes, tr.events + [Referenced(4, m, Pos(23, 34), false, false, [])] + [OutAssigned(4, [], [])], 0);
  }

  lemma {:induction false} Stmts11(i: string, j: string, k: string, l: string, m: string, tr: Tree)
    requires |tr.scopes| == 5 && tr.arms == 0
    ensures WalkStmts([Exprs([Declare(m, Pos(18, 13), Initialized)])] + ([Block([Exprs([Call([Argument([Declare(m, Pos(20, 42), Initialized)])])])])] + ([Exprs([Call([Argument([Use(m, Pos(23, 34), false)])])])])), Ctx(4, [], []), tr) == Tree(tr.scopes + [Scope(BlockBody, Some(4))], tr.events + [Declared(4, m, Pos(18, 13), Initialized, [])] + [Declared(5, m, Pos(20, 42), Initialized, [])] + [OutAssigned(5, [], [])] + [Referenced(4, m, Pos(23, 34), false, false, [])] + [OutAssigned(4, [], [])], 0)
  {
    WalkStmtsCons(Exprs([Declare(m, Pos(18, 13), Initialized)]), [Block([Exprs([Call([Argument([Declare(m, Pos(20, 42), Initialized)])])])])] + ([Exprs([Call([Argument([Use(m, Pos(23, 34), false)])])])]), Ctx(4, [], []), tr);
    Walk12(i, j, k, l, m, tr);
    assert WalkStmt(Exprs([Declare(m, Pos(18, 13), Initialized)]), Ctx(4, [], []), tr) == Tree(tr.scopes, tr.events + [Declared(4, m, Pos(18, 13), Initialized, [])], 0);
    WalkStmtsCons(Block([Exprs([Call([Argument([Declare(m, Pos(20, 42), Initialized)])])])]), [Exprs([Call([Argument([Use(m, Pos(23, 34), false)])])])], Ctx(4, [], []), Tree(tr.scopes, tr.events + [Declared(4, m, Pos(18, 13), Initialized, [])], 0));
    Walk13(i, j, k, l, m, Tree(tr.scopes, tr.events + [Declared(4, m, Pos(18, 13), Initialized, [])], 0));
    assert WalkStmt(Block([Exprs([Call([Argument([Declare(m, Pos(20, 42), Initialized)])])])]), Ctx(4, [], []), Tree(tr.scopes, tr.events + [Declared(4, m, Pos(18, 13), Initialized, [])], 0)) == Tree(tr.scopes + [Scope(BlockBody, Some(4))], tr.events + [Declared(4, m, Pos(18, 13), Initialized, [])] + [Declared(5, m, Pos(20, 42), Initialized, [])] + [OutAssigned(5, [], [])], 0);
    WalkStmtsOne(Exprs([Call([Argument([Use(m, Pos(23, 34), false)])])]), Ctx(4, [], []), Tree(tr.scopes + [Scope(BlockBody, Some(4))], tr.events + [Declared(4, m, Pos(18, 13), Initialized, [])] + [Declared(5, m, Pos(20, 42), Initialized, [])] + [OutAssigned(5, [], [])], 0));
    Walk15(i, j, k, l, m, Tree(tr.scopes + [Scope(BlockBody, Some(4))], tr.events + [Declared(4, m, Pos(18, 13), Initialized, [])] + [Declared(5, m, Pos(20, 42), Initialized, [])] + [OutAssigned(5, [], [])], 0));
    assert WalkStmt(Exprs([Call([Argument([Use(m, Pos(23, 34), false)])])]), Ctx(4, [], []), Tree(tr.scopes + [Scope(BlockBody, Some(4))], tr.events + [Declared(4, m, Pos(18, 13), Initialized, [])] + [Declared(5, m, Pos(20, 42), Initialized, [])] + [OutAssigned(5, [], [])], 0)) == Tree(tr.scopes + [Scope(BlockBody, Some(4))], tr.events + [Declared(4, m, Pos(18, 13), Initialized, [])] + [Declared(5, m, Pos(20, 42), Initialized, [])] + [OutAssigned(5, [], [])] + [Referenced(4, m, Pos(23, 34), false, false, [])] + [OutAssigned(4, [], [])], 0);
  }

  lemma {:induction false} Join0(i: string, j: string, k: string, l: string, m: string, evs: seq<Event>)
    ensures evs + Chunk0(i, j, k, l, m) == evs + [Referenced(4, i, Pos(6, 9), true, false, [])] + [Declared(4, i, Pos(7, 38), Initialized, [])] + [OutAssigned(4, [], [])] + [Declared(4, j, Pos(9, 38), Initialized, [])] + [OutAssigned(4, [], [])] + [Declared(4, j, Pos(10, 38), Initialized, [])] + [OutAssigned(4, [], [])] + [Declared(4, k, Pos(12, 38), Initialized, [])]
  {
  }

  lemma {:induction false} Join1(i: string, j: string, k: string, l: string, m: string, evs: seq<Event>)
    ensures evs + Chunk1(i, j, k, l, m) == evs + [OutAssigned(4, [], [])] + [Declared(4, k, Pos(13, 13), Initialized, [])] + [Declared(4, l, Pos(15, 13), Initialized, [])] + [Declared(4, l, Pos(16, 38), Initialized, [])] + [OutAssigned(4, [], [])] + [Declared(4, m, Pos(18, 13), Initialized, [])] + [Declared(5, m, Pos(20, 42), Initialized, [])] + [OutAssigned(5, [], [])]
  {
  }

  lemma {:induction false} Join2(i: string, j: string, k: string, l: string, m: string, evs: seq<Event>)
    ensures evs + Chunk2(i, j, k, l, m) == evs + [Referenced(4, m, Pos(23, 34), false, false, [])] + [OutAssigned(4, [], [])]
  {
  }

  /** The trace, event by event. */
  lemma {:induction false} Flat(i: string, j: string, k: string, l: string, m: string)
    ensures [] + [Referenced(4, i, Pos(6, 9), true, false, [])] + [Declared(4, i, Pos(7, 38), Initialized, [])] + [OutAssigned(4, [], [])] + [Declared(4, j, Pos(9, 38), Initialized, [])] + [OutAssigned(4, [], [])] + [Declared(4, j, Pos(10, 38), Initialized, [])] + [OutAssigned(4, [], [])] + [Declared(4, k, Pos(12, 38), Initialized, [])] + [OutAssigned(4, [], [])] + [Declared(4, k, Pos(13, 13), Initialized, [])] + [Declared(4, l, Pos(15, 13), Initialized, [])] + [Declared(4, l, Pos(16, 38), Initialized, [])] + [OutAssigned(4, [], [])] + [Declared(4, m, Pos(18, 13), Initialized, [])] + [Declared(5, m, Pos(20, 42), Initialized, [])] + [OutAssigned(5, [], [])] + [Referenced(4, m, Pos(23, 34), false, false, [])] + [OutAssigned(4, [], [])] == Trace(i, j, k, l, m)
  {
    Join0(i, j, k, l, m, []);
    Join1(i, j, k, l, m, [] + Chunk0(i, j, k, l, m));
    Join2(i, j, k, l, m, [] + Chunk0(i, j, k, l, m) + Chunk1(i, j, k, l, m));
  }

  lemma {:induction false} Walked(i: string, j: string, k: string, l: string, m: string)
    ensures Build(Program(i, j, k, l, m)) == Tree(Layout(), Trace(i, j, k, l, m), 0)
  {
    MainBuild(Body(i, j, k, l, m));
    Stmts1(i, j, k, l, m, MainHead(), [Exprs([Call([Argument([Declare(k, Pos(12, 38), Initialized)])])])] + ([Exprs([Declare(k, Pos(13, 13), Initialized)])] + ([Exprs([Declare(l, Pos(15, 13), Initialized)])] + ([Exprs([Call([Argument([Declare(l, Pos(16, 38), Initialized)])])])] + ([Exprs([Declare(m, Pos(18, 13), Initialized)])] + ([Block([Exprs([Call([Argument([Declare(m, Pos(20, 42), Initialized)])])])])] + ([Exprs([Call([Argument([Use(m, Pos(23, 34), false)])])])])))))));
    Stmts6(i, j, k, l, m, Tree(MainHead().scopes, MainHead().events + [Referenced(4, i, Pos(6, 9), true, false, [])] + [Declared(4, i, Pos(7, 38), Initialized, [])] + [OutAssigned(4, [], [])] + [Declared(4, j, Pos(9, 38), Initialized, [])] + [OutAssigned(4, [], [])] + [Declared(4, j, Pos(10, 38), Initialized, [])] + [OutAssigned(4, [], [])], 0), [Exprs([Declare(m, Pos(18, 13), Initialized)])] + ([Block([Exprs([Call([Argument([Declare(m, Pos(20, 42), Initialized)])])])])] + ([Exprs([Call([Argument([Use(m, Pos(23, 34), false)])])])])));
    Stmts11(i, j, k, l, m, Tree(MainHead().scopes, MainHead().events + [Referenced(4, i, Pos(6, 9), true, false, [])] + [Declared(4, i, Pos(7, 38), Initialized, [])] + [OutAssigned(4, [], [])] + [Declared(4, j, Pos(9, 38), Initialized, [])] + [OutAssigned(4, [], [])] + [Declared(4, j, Pos(10, 38), Initialized, [])] + [OutAssigned(4, [], [])] + [Declared(4, k, Pos(12, 38), Initialized, [])] + [OutAssigned(4, [], [])] + [Declared(4, k, Pos(13, 13), Initialized, [])] + [Declared(4, l, Pos(15, 13), Initialized, [])] + [Declared(4, l, Pos(16, 38), Initialized, [])] + [OutAssigned(4, [], [])], 0));
    LayoutFlat();
    Flat(i, j, k, l, m);
  }

  /** The locals events of chunk `ck` declare in scope `sc`, in order. */
  function NewIn(i: string, j: string, k: string, l: string, m: string, ck: nat, sc: nat): seq<Local> {
    if ck == 0 then
      if sc == 4 then [] + [Local(i, Pos(7, 38))] + [Local(j, Pos(9, 38))] + [Local(j, Pos(10, 38))] + [Local(k, Pos(12, 38))]
      else []
    else if ck == 1 then
      if sc == 4 then [] + [Local(k, Pos(13, 13))] + [Local(l, Pos(15, 13))] + [Local(l, Pos(16, 38))] + [Local(m, Pos(18, 13))]
      else if sc == 5 then [] + [Local(m, Pos(20, 42))]
      else []
    else []
  }

  /** The locals the first `ck` chunks declare in scope `sc`, in order. */
  function DeclaredBy(i: string, j: string, k: string, l: string, m: string, ck: nat, sc: nat): seq<Local>
    decreases ck
  {
    if ck == 0 then [] else DeclaredBy(i, j, k, l, m, ck - 1, sc) + NewIn(i, j, k, l, m, ck - 1, sc)
  }

  /** The locals declared once events 0 to 7 follow some events. */
  lemma {:induction false} Decls0(i: string, j: string, k: string, l: string, m: string, evs: seq<Event>, sc: nat)
    requires DeclsIn(evs, sc) == DeclaredBy(i, j, k, l, m, 0, sc)
    ensures DeclsIn(evs + Chunk0(i, j, k, l, m), sc) == DeclaredBy(i, j, k, l, m, 1, sc)
  {
    DeclsInAppend(evs, Chunk0(i, j, k, l, m), sc);
    assert DeclsIn([], sc) == [];
    if sc == 4 {
      DeclsInSkip([], Referenced(4, i, Pos(6, 9), true, false, []), 4);
      DeclsInAdd([] + [Referenced(4, i, Pos(6, 9), true, false, [])], Declared(4, i, Pos(7, 38), Initialized, []), 4);
      DeclsInSkip([] + [Referenced(4, i, Pos(6, 9), true, false, [])] + [Declared(4, i, Pos(7, 38), Initialized, [])], OutAssigned(4, [], []), 4);
      DeclsInAdd([] + [Referenced(4, i, Pos(6, 9), true, false, [])] + [Declared(4, i, Pos(7, 38), Initialized, [])] + [OutAssigned(4, [], [])], Declared(4, j, Pos(9, 38), Initialized, []), 4);
      DeclsInSkip([] + [Referenced(4, i, Pos(6, 9), true, false, [])] + [Declared(4, i, Pos(7, 38), Initialized, [])] + [OutAssigned(4, [], [])] + [Declared(4, j, Pos(9, 38), Initialized, [])], OutAssigned(4, [], []), 4);
      DeclsInAdd([] + [Referenced(4, i, Pos(6, 9), true, false, [])] + [Declared(4, i, Pos(7, 38), Initialized, [])] + [OutAssigned(4, [], [])] + [Declared(4, j, Pos(9, 38), Initialized, [])] + [OutAssigned(4, [], [])], Declared(4, j, Pos(10, 38), Initialized, []), 4);
      DeclsInSkip([] + [Referenced(4, i, Pos(6, 9), true, false, [])] + [Declared(4, i, Pos(7, 38), Initialized, [])] + [OutAssigned(4, [], [])] + [Declared(4, j, Pos(9, 38), Initialized, [])] + [OutAssigned(4, [], [])] + [Declared(4, j, Pos(10, 38), Initialized, [])], OutAssigned(4, [], []), 4);
      DeclsInAdd([] + [Referenced(4, i, Pos(6, 9), true, false, [])] + [Declared(4, i, Pos(7, 38), Initialized, [])] + [OutAssigned(4, [], [])] + [Declared(4, j, Pos(9, 38), Initialized, [])] + [OutAssigned(4, [], [])] + [Declared(4, j, Pos(10, 38), Initialized, [])] + [OutAssigned(4, [], [])], Declared(4, k, Pos(12, 38), Initialized, []), 4);
    } else {
      DeclsInSkip([], Referenced(4, i, Pos(6, 9), true, false, []), sc);
      DeclsInSkip([] + [Referenced(4, i, Pos(6, 9), true, false, [])], Declared(4, i, Pos(7, 38), Initialized, []), sc);
      DeclsInSkip([] + [Referenced(4, i, Pos(6, 9), true, false, [])] + [Declared(4, i, Pos(7, 38), Initialized, [])], OutAssigned(4, [], []), sc);
      DeclsInSkip([] + [Referenced(4, i, Pos(6, 9), true, false, [])] + [Declared(4, i, Pos(7, 38), Initialized, [])] + [OutAssigned(4, [], [])], Declared(4, j, Pos(9, 38), Initialized, []), sc);
      DeclsInSkip([] + [Referenced(4, i, Pos(6, 9), true, false, [])] + [Declared(4, i, Pos(7, 38), Initialized, [])] + [OutAssigned(4, [], [])] + [Declared(4, j, Pos(9, 38), Initialized, [])], OutAssigned(4, [], []), sc);
      DeclsInSkip([] + [Referenced(4, i, Pos(6, 9), true, false, [])] + [Declared(4, i, Pos(7, 38), Initialized, [])] + [OutAssigned(4, [], [])] + [Declared(4, j, Pos(9, 38), Initialized, [])] + [OutAssigned(4, [], [])], Declared(4, j, Pos(10, 38), Initialized, []), sc);
      DeclsInSkip([] + [Referenced(4, i, Pos(6, 9), true, false, [])] + [Declared(4, i, Pos(7, 38), Initialized, [])] + [OutAssigned(4, [], [])] + [Declared(4, j, Pos(9, 38), Initialized, [])] + [OutAssigned(4, [], [])] + [Declared(4, j, Pos(10, 38), Initialized, [])], OutAssigned(4, [], []), sc);
      DeclsInSkip([] + [Referenced(4, i, Pos(6, 9), true, false, [])] + [Declared(4, i, Pos(7, 38), Initialized, [])] + [OutAssigned(4, [], [])] + [Declared(4, j, Pos(9, 38), Initialized, [])] + [OutAssigned(4, [], [])] + [Declared(4, j, Pos(10, 38), Initialized, [])] + [OutAssigned(4, [], [])], Declared(4, k, Pos(12, 38), Initialized, []), sc);
      AppendNil(DeclsIn(evs, sc));
    }
  }

  /** The locals declared once events 8 to 15 follow some events. */
  lemma {:induction false} Decls1(i: string, j: string, k: string, l: string, m: string, evs: seq<Event>, sc: nat)
    requires DeclsIn(evs, sc) == DeclaredBy(i, j, k, l, m, 1, sc)
    ensures DeclsIn(evs + Chunk1(i, j, k, l, m), sc) == DeclaredBy(i, j, k, l, m, 2, sc)
  {
    DeclsInAppend(evs, Chunk1(i, j, k, l, m), sc);
    assert DeclsIn([], sc) == [];
    if sc == 4 {
      DeclsInSkip([], OutAssigned(4, [], []), 4);
      DeclsInAdd([] + [OutAssigned(4, [], [])], Declared(4, k, Pos(13, 13), Initialized, []), 4);
      DeclsInAdd([] + [OutAssigned(4, [], [])] + [Declared(4, k, Pos(13, 13), Initialized, [])], Declared(4, l, Pos(15, 13), Initialized, []), 4);
      DeclsInAdd([] + [OutAssigned(4, [], [])] + [Declared(4, k, Pos(13, 13), Initialized, [])] + [Declared(4, l, Pos(15, 13), Initialized, [])], Declared(4, l, Pos(16, 38), Initialized, []), 4);
      DeclsInSkip([] + [OutAssigned(4, [], [])] + [Declared(4, k, Pos(13, 13), Initialized, [])] + [Declared(4, l, Pos(15, 13), Initialized, [])] + [Declared(4, l, Pos(16, 38), Initialized, [])], OutAssigned(4, [], []), 4);
      DeclsInAdd([] + [OutAssigned(4, [], [])] + [Declared(4, k, Pos(13, 13), Initialized, [])] + [Declared(4, l, Pos(15, 13), Initialized, [])] + [Declared(4, l, Pos(16, 38), Initialized, [])] + [OutAssigned(4, [], [])], Declared(4, m, Pos(18, 13), Initialized, []), 4);
      DeclsInSkip([] + [OutAssigned(4, [], [])] + [Declared(4, k, Pos(13, 13), Initialized, [])] + [Declared(4, l, Pos(15, 13), Initialized, [])] + [Declared(4, l, Pos(16, 38), Initialized, [])] + [OutAssigned(4, [], [])] + [Declared(4, m, Pos(18, 13), Initialized, [])], Declared(5, m, Pos(20, 42), Initialized, []), 4);
      DeclsInSkip([] + [OutAssigned(4, [], [])] + [Declared(4, k, Pos(13, 13), Initialized, [])] + [Declared(4, l, Pos(15, 13), Initialized, [])] + [Declared(4, l, Pos(16, 38), Initialized, [])] + [OutAssigned(4, [], [])] + [Declared(4, m, Pos(18, 13), Initialized, [])] + [Declared(5, m, Pos(20, 42), Initialized, [])], OutAssigned(5, [], []), 4);
    } else if sc == 5 {
      DeclsInSkip([], OutAssigned(4, [], []), 5);
      DeclsInSkip([] + [OutAssigned(4, [], [])], Declared(4, k, Pos(13, 13), Initialized, []), 5);
      DeclsInSkip([] + [OutAssigned(4, [], [])] + [Declared(4, k, Pos(13, 13), Initialized, [])], Declared(4, l, Pos(15, 13), Initialized, []), 5);
      DeclsInSkip([] + [OutAssigned(4, [], [])] + [Declared(4, k, Pos(13, 13), Initialized, [])] + [Declared(4, l, Pos(15, 13), Initialized, [])], Declared(4, l, Pos(16, 38), Initialized, []), 5);
      DeclsInSkip([] + [OutAssigned(4, [], [])] + [Declared(4, k, Pos(13, 13), Initialized, [])] + [Declared(4, l, Pos(15, 13), Initialized, [])] + [Declared(4, l, Pos(16, 38), Initialized, [])], OutAssigned(4, [], []), 5);
      DeclsInSkip([] + [OutAssigned(4, [], [])] + [Declared(4, k, Pos(13, 13), Initialized, [])] + [Declared(4, l, Pos(15, 13), Initialized, [])] + [Declared(4, l, Pos(16, 38), Initialized, [])] + [OutAssigned(4, [], [])], Declared(4, m, Pos(18, 13), Initialized, []), 5);
      DeclsInAdd([] + [OutAssigned(4, [], [])] + [Declared(4, k, Pos(13, 13), Initialized, [])] + [Declared(4, l, Pos(15, 13), Initialized, [])] + [Declared(4, l, Pos(16, 38), Initialized, [])] + [OutAssigned(4, [], [])] + [Declared(4, m, Pos(18, 13), Initialized, [])], Declared(5, m, Pos(20, 42), Initialized, []), 5);
      DeclsInSkip([] + [OutAssigned(4, [], [])] + [Declared(4, k, Pos(13, 13), Initialized, [])] + [Declared(4, l, Pos(15, 13), Initialized, [])] + [Declared(4, l, Pos(16, 38), Initialized, [])] + [OutAssigned(4, [], [])] + [Declared(4, m, Pos(18, 13), Initialized, [])] + [Declared(5, m, Pos(20, 42), Initialized, [])], OutAssigned(5, [], []), 5);
    } else {
      DeclsInSkip([], OutAssigned(4, [], []), sc);
      DeclsInSkip([] + [OutAssigned(4, [], [])], Declared(4, k, Pos(13, 13), Initialized, []), sc);
      DeclsInSkip([] + [OutAssigned(4, [], [])] + [Declared(4, k, Pos(13, 13), Initialized, [])], Declared(4, l, Pos(15, 13), Initialized, []), sc);
      DeclsInSkip([] + [OutAssigned(4, [], [])] + [Declared(4, k, Pos(13, 13), Initialized, [])] + [Declared(4, l, Pos(15, 13), Initialized, [])], Declared(4, l, Pos(16, 38), Initialized, []), sc);
      DeclsInSkip([] + [OutAssigned(4, [], [])] + [Declared(4, k, Pos(13, 13), Initialized, [])] + [Declared(4, l, Pos(15, 13), Initialized, [])] + [Declared(4, l, Pos(16, 38), Initialized, [])], OutAssigned(4, [], []), sc);
      DeclsInSkip([] + [OutAssigned(4, [], [])] + [Declared(4, k, Pos(13, 13), Initialized, [])] + [Declared(4, l, Pos(15, 13), Initialized, [])] + [Declared(4, l, Pos(16, 38), Initialized, [])] + [OutAssigned(4, [], [])], Declared(4, m, Pos(18, 13), Initialized, []), sc);
      DeclsInSkip([] + [OutAssigned(4, [], [])] + [Declared(4, k, Pos(13, 13), Initialized, [])] + [Declared(4, l, Pos(15, 13), Initialized, [])] + [Declared(4, l, Pos(16, 38), Initialized, [])] + [OutAssigned(4, [], [])] + [Declared(4, m, Pos(18, 13), Initialized, [])], Declared(5, m, Pos(20, 42), Initialized, []), sc);
      DeclsInSkip([] + [OutAssigned(4, [], [])] + [Declared(4, k, Pos(13, 13), Initialized, [])] + [Declared(4, l, Pos(15, 13), Initialized, [])] + [Declared(4, l, Pos(16, 38), Initialized, [])] + [OutAssigned(4, [], [])] + [Declared(4, m, Pos(18, 13), Initialized, [])] + [Declared(5, m, Pos(20, 42), Initialized, [])], OutAssigned(5, [], []), sc);
      AppendNil(DeclsIn(evs, sc));
    }
  }

  /** The locals declared once events 16 to 17 follow some events. */
  lemma {:induction false} Decls2(i: string, j: string, k: string, l: string, m: string, evs: seq<Event>, sc: nat)
    requires DeclsIn(evs, sc) == DeclaredBy(i, j, k, l, m, 2, sc)
    ensures DeclsIn(evs + Chunk2(i, j, k, l, m), sc) == DeclaredBy(i, j, k, l, m, 3, sc)
  {
    DeclsInAppend(evs, Chunk2(i, j, k, l, m), sc);
    assert DeclsIn([], sc) == [];
    DeclsInSkip([], Referenced(4, m, Pos(23, 34), false, false, []), sc);
    DeclsInSkip([] + [Referenced(4, m, Pos(23, 34), false, false, [])], OutAssigned(4, [], []), sc);
    AppendNil(DeclsIn(evs, sc));
  }

  lemma {:induction false} DeclsStage0(i: string, j: string, k: string, l: string, m: string, evs: seq<Event>, sc: nat)
    requires DeclsIn(evs, sc) == DeclaredBy(i, j, k, l, m, 0, sc)
    ensures DeclsIn(evs + Chunk0(i, j, k, l, m) + Chunk1(i, j, k, l, m) + Chunk2(i, j, k, l, m), sc) == DeclaredBy(i, j, k, l, m, 3, sc)
  {
    Decls0(i, j, k, l, m, evs, sc);
    Decls1(i, j, k, l, m, evs + Chunk0(i, j, k, l, m), sc);
    Decls2(i, j, k, l, m, evs + Chunk0(i, j, k, l, m) + Chunk1(i, j, k, l, m), sc);
  }

  /** The locals of every scope of a tree whose events are the test's, as the table gives them. */
  ghost predicate LocalsFit(i: string, j: string, k: string, l: string, m: string, tr: Tree) {
    forall sc: nat {:trigger DeclaredBy(i, j, k, l, m, 3, sc)} :: LocalsOf(tr, sc) == DeclaredBy(i, j, k, l, m, 3, sc)
  }

  /** The locals of every scope. */
  lemma {:induction false} LocalsAll(i: string, j: string, k: string, l: string, m: string, tr: Tree)
    requires tr.events == Trace(i, j, k, l, m)
    ensures LocalsFit(i, j, k, l, m, tr)
  {
    forall sc: nat
      ensures LocalsOf(tr, sc) == DeclaredBy(i, j, k, l, m, 3, sc)
    {
      assert DeclsIn([], sc) == [] == DeclaredBy(i, j, k, l, m, 0, sc);
      DeclsStage0(i, j, k, l, m, [], sc);
    }
  }

  /** The locals scope 0 declares, in order. */
  lemma {:induction false} Locals0(i: string, j: string, k: string, l: string, m: string)
    ensures DeclaredBy(i, j, k, l, m, 3, 0) == []
  {
    AppendNil([]);
    assert DeclaredBy(i, j, k, l, m, 1, 0) == [];
    assert DeclaredBy(i, j, k, l, m, 2, 0) == [];
    assert DeclaredBy(i, j, k, l, m, 3, 0) == [];
  }

  /** The locals scope 3 declares, in order. */
  lemma {:induction false} Locals3(i: string, j: string, k: string, l: string, m: string)
    ensures DeclaredBy(i, j, k, l, m, 3, 3) == []
  {
    AppendNil([]);
    assert DeclaredBy(i, j, k, l, m, 1, 3) == [];
    assert DeclaredBy(i, j, k, l, m, 2, 3) == [];
    assert DeclaredBy(i, j, k, l, m, 3, 3) == [];
  }

  /** The locals scope 4 declares, in order. */
  lemma {:induction false} Locals4(i: string, j: string, k: string, l: string, m: string)
    ensures DeclaredBy(i, j, k, l, m, 3, 4) == [Local(i, Pos(7, 38)), Local(j, Pos(9, 38)), Local(j, Pos(10, 38)), Local(k, Pos(12, 38)), Local(k, Pos(13, 13)), Local(l, Pos(15, 13)), Local(l, Pos(16, 38)), Local(m, Pos(18, 13))]
  {
    assert DeclaredBy(i, j, k, l, m, 1, 4) == [Local(i, Pos(7, 38)), Local(j, Pos(9, 38)), Local(j, Pos(10, 38)), Local(k, Pos(12, 38))];
    assert DeclaredBy(i, j, k, l, m, 2, 4) == [Local(i, Pos(7, 38)), Local(j, Pos(9, 38)), Local(j, Pos(10, 38)), Local(k, Pos(12, 38)), Local(k, Pos(13, 13)), Local(l, Pos(15, 13)), Local(l, Pos(16, 38)), Local(m, Pos(18, 13))];
    AppendNil([Local(i, Pos(7, 38)), Local(j, Pos(9, 38)), Local(j, Pos(10, 38)), Local(k, Pos(12, 38)), Local(k, Pos(13, 13)), Local(l, Pos(15, 13)), Local(l, Pos(16, 38)), Local(m, Pos(18, 13))]);
    assert DeclaredBy(i, j, k, l, m, 3, 4) == [Local(i, Pos(7, 38)), Local(j, Pos(9, 38)), Local(j, Pos(10, 38)), Local(k, Pos(12, 38)), Local(k, Pos(13, 13)), Local(l, Pos(15, 13)), Local(l, Pos(16, 38)), Local(m, Pos(18, 13))];
  }

  /** The locals scope 5 declares, in order. */
  lemma {:induction false} Locals5(i: string, j: string, k: string, l: string, m: string)
    ensures DeclaredBy(i, j, k, l, m, 3, 5) == [Local(m, Pos(20, 42))]
  {
    AppendNil([]);
    assert DeclaredBy(i, j, k, l, m, 1, 5) == [];
    assert DeclaredBy(i, j, k, l, m, 2, 5) == [Local(m, Pos(20, 42))];
    AppendNil([Local(m, Pos(20, 42))]);
    assert DeclaredBy(i, j, k, l, m, 3, 5) == [Local(m, Pos(20, 42))];
  }

  /** The assignments known after event 7. */
  function Known0(i: string, j: string, k: string, l: string, m: string): seq<Fact> {
    []
      + [Fact(4, i, [])]
      + [Fact(4, j, [])]
      + [Fact(4, j, [])]
      + [Fact(4, k, [])]
  }

  /** Whether a local is assigned after the assignments of events 0 to 7. */
  lemma {:induction false} Assigned0(i: string, j: string, k: string, l: string, m: string, fs: seq<Fact>, sc: nat, nm: string, pth: seq<nat>)
    ensures Assigned(fs + [Fact(4, i, [])] + [Fact(4, j, [])] + [Fact(4, j, [])] + [Fact(4, k, [])], sc, nm, pth) == (
      Assigned(fs, sc, nm, pth) ||
      (4 == sc && i == nm && [] <= pth) ||
      (4 == sc && j == nm && [] <= pth) ||
      (4 == sc && j == nm && [] <= pth) ||
      (4 == sc && k == nm && [] <= pth))
  {
    AssignedSnoc(fs, Fact(4, i, []), sc, nm, pth);
    AssignedSnoc(fs + [Fact(4, i, [])], Fact(4, j, []), sc, nm, pth);
    AssignedSnoc(fs + [Fact(4, i, [])] + [Fact(4, j, [])], Fact(4, j, []), sc, nm, pth);
    AssignedSnoc(fs + [Fact(4, i, [])] + [Fact(4, j, [])] + [Fact(4, j, [])], Fact(4, k, []), sc, nm, pth);
  }

  /** The assignments known after event 15. */
  function Known1(i: string, j: string, k: string, l: string, m: string): seq<Fact> {
    Known0(i, j, k, l, m)
      + [Fact(4, k, [])]
      + [Fact(4, l, [])]
      + [Fact(4, l, [])]
      + [Fact(4, m, [])]
      + [Fact(5, m, [])]
  }

  /** Whether a local is assigned after the assignments of events 8 to 15. */
  lemma {:induction false} Assigned1(i: string, j: string, k: string, l: string, m: string, fs: seq<Fact>, sc: nat, nm: string, pth: seq<nat>)
    ensures Assigned(fs + [Fact(4, k, [])] + [Fact(4, l, [])] + [Fact(4, l, [])] + [Fact(4, m, [])] + [Fact(5, m, [])], sc, nm, pth) == (
      Assigned(fs, sc, nm, pth) ||
      (4 == sc && k == nm && [] <= pth) ||
      (4 == sc && l == nm && [] <= pth) ||
      (4 == sc && l == nm && [] <= pth) ||
      (4 == sc && m == nm && [] <= pth) ||
      (5 == sc && m == nm && [] <= pth))
  {
    AssignedSnoc(fs, Fact(4, k, []), sc, nm, pth);
    AssignedSnoc(fs + [Fact(4, k, [])], Fact(4, l, []), sc, nm, pth);
    AssignedSnoc(fs + [Fact(4, k, [])] + [Fact(4, l, [])], Fact(4, l, []), sc, nm, pth);
    AssignedSnoc(fs + [Fact(4, k, [])] + [Fact(4, l, [])] + [Fact(4, l, [])], Fact(4, m, []), sc, nm, pth);
    AssignedSnoc(fs + [Fact(4, k, [])] + [Fact(4, l, [])] + [Fact(4, l, [])] + [Fact(4, m, [])], Fact(5, m, []), sc, nm, pth);
  }

  /** Event 0: its diagnostics and the assignments after it. */
  lemma {:induction false} Event0(i: string, j: string, k: string, l: string, m: string, tr: Tree, fs: seq<Fact>)
    requires |tr.scopes| == 6
    requires Parent(tr, 4) == Some(3)
    requires LocalsOf(tr, 4) == [Local(i, Pos(7, 38)), Local(j, Pos(9, 38)), Local(j, Pos(10, 38)), Local(k, Pos(12, 38)), Local(k, Pos(13, 13)), Local(l, Pos(15, 13)), Local(l, Pos(16, 38)), Local(m, Pos(18, 13))]
    requires i != j && i != k && i != l && i != m
    ensures EventDiags(tr, Referenced(4, i, Pos(6, 9), true, false, []), fs) == [Diag(UsedBeforeDeclared, i, Pos(6, 9))]
    ensures Step(tr, Referenced(4, i, Pos(6, 9), true, false, []), fs) == fs
  {
    assert Local(i, Pos(7, 38)) in LocalsOf(tr, 4);
    assert Lookup(tr, 4, i) == Some(4);
  }

  /** Event 1: its diagnostics and the assignments after it. */
  lemma {:induction false} Event1(i: string, j: string, k: string, l: string, m: string, tr: Tree, fs: seq<Fact>)
    requires |tr.scopes| == 6
    requires Parent(tr, 0) == None
    requires Parent(tr, 3) == Some(0)
    requires Parent(tr, 4) == Some(3)
    requires LocalsOf(tr, 4) == [Local(i, Pos(7, 38)), Local(j, Pos(9, 38)), Local(j, Pos(10, 38)), Local(k, Pos(12, 38)), Local(k, Pos(13, 13)), Local(l, Pos(15, 13)), Local(l, Pos(16, 38)), Local(m, Pos(18, 13))]
    requires LocalsOf(tr, 3) == []
    requires LocalsOf(tr, 0) == []
    requires i != j && i != k && i != l && i != m
    ensures EventDiags(tr, Declared(4, i, Pos(7, 38), Initialized, []), fs) == []
    ensures Step(tr, Declared(4, i, Pos(7, 38), Initialized, []), fs) == fs + [Fact(4, i, [])]
  {
    assert Lookup(tr, 0, i) == None;
    assert Lookup(tr, 3, i) == None;
  }

  /** Event 2: its diagnostics and the assignments after it. */
  lemma {:induction false} Event2(i: string, j: string, k: string, l: string, m: string, tr: Tree, fs: seq<Fact>)
    ensures EventDiags(tr, OutAssigned(4, [], []), fs) == []
    ensures Step(tr, OutAssigned(4, [], []), fs) == fs
  {
    assert OutFacts(4, [], []) == [];
    FactsNil(fs);
  }

  /** Event 3: its diagnostics and the assignments after it. */
  lemma {:induction false} Event3(i: string, j: string, k: string, l: string, m: string, tr: Tree, fs: seq<Fact>)
    requires |tr.scopes| == 6
    requires Parent(tr, 0) == None
    requires Parent(tr, 3) == Some(0)
    requires Parent(tr, 4) == Some(3)
    requires LocalsOf(tr, 4) == [Local(i, Pos(7, 38)), Local(j, Pos(9, 38)), Local(j, Pos(10, 38)), Local(k, Pos(12, 38)), Local(k, Pos(13, 13)), Local(l, Pos(15, 13)), Local(l, Pos(16, 38)), Local(m, Pos(18, 13))]
    requires LocalsOf(tr, 3) == []
    requires LocalsOf(tr, 0) == []
    requires i != j && j != k && j != l && j != m
    ensures EventDiags(tr, Declared(4, j, Pos(9, 38), Initialized, []), fs) == []
    ensures Step(tr, Declared(4, j, Pos(9, 38), Initialized, []), fs) == fs + [Fact(4, j, [])]
  {
    assert Lookup(tr, 0, j) == None;
    assert Lookup(tr, 3, j) == None;
  }

  /** Event 4: its diagnostics and the assignments after it. */
  lemma {:induction false} Event4(i: string, j: string, k: string, l: string, m: string, tr: Tree, fs: seq<Fact>)
    ensures EventDiags(tr, OutAssigned(4, [], []), fs) == []
    ensures Step(tr, OutAssigned(4, [], []), fs) == fs
  {
    assert OutFacts(4, [], []) == [];
    FactsNil(fs);
  }

  /** Event 5: its diagnostics and the assignments after it. */
  lemma {:induction false} Event5(i: string, j: string, k: string, l: string, m: string, tr: Tree, fs: seq<Fact>)
    requires |tr.scopes| == 6
    requires Parent(tr, 4) == Some(3)
    requires LocalsOf(tr, 4) == [Local(i, Pos(7, 38)), Local(j, Pos(9, 38)), Local(j, Pos(10, 38)), Local(k, Pos(12, 38)), Local(k, Pos(13, 13)), Local(l, Pos(15, 13)), Local(l, Pos(16, 38)), Local(m, Pos(18, 13))]
    requires i != j && j != k && j != l && j != m
    ensures EventDiags(tr, Declared(4, j, Pos(10, 38), Initialized, []), fs) == [Diag(Duplicate, j, Pos(10, 38))]
    ensures Step(tr, Declared(4, j, Pos(10, 38), Initialized, []), fs) == fs + [Fact(4, j, [])]
  {
    assert Local(j, Pos(9, 38)) in LocalsOf(tr, 4);
  }

  /** Event 6: its diagnostics and the assignments after it. */
  lemma {:induction false} Event6(i: string, j: string, k: string, l: string, m: string, tr: Tree, fs: seq<Fact>)
    ensures EventDiags(tr, OutAssigned(4, [], []), fs) == []
    ensures Step(tr, OutAssigned(4, [], []), fs) == fs
  {
    assert OutFacts(4, [], []) == [];
    FactsNil(fs);
  }

  /** Event 7: its diagnostics and the assignments after it. */
  lemma {:induction false} Event7(i: string, j: string, k: string, l: string, m: string, tr: Tree, fs: seq<Fact>)
    requires |tr.scopes| == 6
    requires Parent(tr, 0) == None
    requires Parent(tr, 3) == Some(0)
    requires Parent(tr, 4) == Some(3)
    requires LocalsOf(tr, 4) == [Local(i, Pos(7, 38)), Local(j, Pos(9, 38)), Local(j, Pos(10, 38)), Local(k, Pos(12, 38)), Local(k, Pos(13, 13)), Local(l, Pos(15, 13)), Local(l, Pos(16, 38)), Local(m, Pos(18, 13))]
    requires LocalsOf(tr, 3) == []
    requires LocalsOf(tr, 0) == []
    requires i != k && j != k && k != l && k != m
    ensures EventDiags(tr, Declared(4, k, Pos(12, 38), Initialized, []), fs) == []
    ensures Step(tr, Declared(4, k, Pos(12, 38), Initialized, []), fs) == fs + [Fact(4, k, [])]
  {
    assert Lookup(tr, 0, k) == None;
    assert Lookup(tr, 3, k) == None;
  }

  /** Event 8: its diagnostics and the assignments after it. */
  lemma {:induction false} Event8(i: string, j: string, k: string, l: string, m: string, tr: Tree, fs: seq<Fact>)
    ensures EventDiags(tr, OutAssigned(4, [], []), fs) == []
    ensures Step(tr, OutAssigned(4, [], []), fs) == fs
  {
    assert OutFacts(4, [], []) == [];
    FactsNil(fs);
  }

  /** Event 9: its diagnostics and the assignments after it. */
  lemma {:induction false} Event9(i: string, j: string, k: string, l: string, m: string, tr: Tree, fs: seq<Fact>)
    requires |tr.scopes| == 6
    requires Parent(tr, 4) == Some(3)
    requires LocalsOf(tr, 4) == [Local(i, Pos(7, 38)), Local(j, Pos(9, 38)), Local(j, Pos(10, 38)), Local(k, Pos(12, 38)), Local(k, Pos(13, 13)), Local(l, Pos(15, 13)), Local(l, Pos(16, 38)), Local(m, Pos(18, 13))]
    requires i != k && j != k && k != l && k != m
    ensures EventDiags(tr, Declared(4, k, Pos(13, 13), Initialized, []), fs) == [Diag(Duplicate, k, Pos(13, 13))]
    ensures Step(tr, Declared(4, k, Pos(13, 13), Initialized, []), fs) == fs + [Fact(4, k, [])]
  {
    assert Local(k, Pos(12, 38)) in LocalsOf(tr, 4);
  }

  /** Event 10: its diagnostics and the assignments after it. */
  lemma {:induction false} Event10(i: string, j: string, k: string, l: string, m: string, tr: Tree, fs: seq<Fact>)
    requires |tr.scopes| == 6
    requires Parent(tr, 0) == None
    requires Parent(tr, 3) == Some(0)
    requires Parent(tr, 4) == Some(3)
    requires LocalsOf(tr, 4) == [Local(i, Pos(7, 38)), Local(j, Pos(9, 38)), Local(j, Pos(10, 38)), Local(k, Pos(12, 38)), Local(k, Pos(13, 13)), Local(l, Pos(15, 13)), Local(l, Pos(16, 38)), Local(m, Pos(18, 13))]
    requires LocalsOf(tr, 3) == []
    requires LocalsOf(tr, 0) == []
    requires i != l && j != l && k != l && l != m
    ensures EventDiags(tr, Declared(4, l, Pos(15, 13), Initialized, []), fs) == []
    ensures Step(tr, Declared(4, l, Pos(15, 13), Initialized, []), fs) == fs + [Fact(4, l, [])]
  {
    assert Lookup(tr, 0, l) == None;
    assert Lookup(tr, 3, l) == None;
  }

  /** Event 11: its diagnostics and the assignments after it. */
  lemma {:induction false} Event11(i: string, j: string, k: string, l: string, m: string, tr: Tree, fs: seq<Fact>)
    requires |tr.scopes| == 6
    requires Parent(tr, 4) == Some(3)
    requires LocalsOf(tr, 4) == [Local(i, Pos(7, 38)), Local(j, Pos(9, 38)), Local(j, Pos(10, 38)), Local(k, Pos(12, 38)), Local(k, Pos(13, 13)), Local(l, Pos(15, 13)), Local(l, Pos(16, 38)), Local(m, Pos(18, 13))]
    requires i != l && j != l && k != l && l != m
    ensures EventDiags(tr, Declared(4, l, Pos(16, 38), Initialized, []), fs) == [Diag(Duplicate, l, Pos(16, 38))]
    ensures Step(tr, Declared(4, l, Pos(16, 38), Initialized, []), fs) == fs + [Fact(4, l, [])]
  {
    assert Local(l, Pos(15, 13)) in LocalsOf(tr, 4);
  }

  /** Event 12: its diagnostics and the assignments after it. */
  lemma {:induction false} Event12(i: string, j: string, k: string, l: string, m: string, tr: Tree, fs: seq<Fact>)
    ensures EventDiags(tr, OutAssigned(4, [], []), fs) == []
    ensures Step(tr, OutAssigned(4, [], []), fs) == fs
  {
    assert OutFacts(4, [], []) == [];
    FactsNil(fs);
  }

  /** Event 13: its diagnostics and the assignments after it. */
  lemma {:induction false} Event13(i: string, j: string, k: string, l: string, m: string, tr: Tree, fs: seq<Fact>)
    requires |tr.scopes| == 6
    requires Parent(tr, 0) == None
    requires Parent(tr, 3) == Some(0)
    requires Parent(tr, 4) == Some(3)
    requires LocalsOf(tr, 4) == [Local(i, Pos(7, 38)), Local(j, Pos(9, 38)), Local(j, Pos(10, 38)), Local(k, Pos(12, 38)), Local(k, Pos(13, 13)), Local(l, Pos(15, 13)), Local(l, Pos(16, 38)), Local(m, Pos(18, 13))]
    requires LocalsOf(tr, 3) == []
    requires LocalsOf(tr, 0) == []
    requires i != m && j != m && k != m && l != m
    ensures EventDiags(tr, Declared(4, m, Pos(18, 13), Initialized, []), fs) == []
    ensures Step(tr, Declared(4, m, Pos(18, 13), Initialized, []), fs) == fs + [Fact(4, m, [])]
  {
    assert Lookup(tr, 0, m) == None;
    assert Lookup(tr, 3, m) == None;
  }

  /** Event 14: its diagnostics and the assignments after it. */
  lemma {:induction false} Event14(i: string, j: string, k: string, l: string, m: string, tr: Tree, fs: seq<Fact>)
    requires |tr.scopes| == 6
    requires Parent(tr, 4) == Some(3)
    requires Parent(tr, 5) == Some(4)
    requires LocalsOf(tr, 5) == [Local(m, Pos(20, 42))]
    requires LocalsOf(tr, 4) == [Local(i, Pos(7, 38)), Local(j, Pos(9, 38)), Local(j, Pos(10, 38)), Local(k, Pos(12, 38)), Local(k, Pos(13, 13)), Local(l, Pos(15, 13)), Local(l, Pos(16, 38)), Local(m, Pos(18, 13))]
    requires i != m && j != m && k != m && l != m
    ensures EventDiags(tr, Declared(5, m, Pos(20, 42), Initialized, []), fs) == [Diag(Shadow, m, Pos(20, 42))]
    ensures Step(tr, Declared(5, m, Pos(20, 42), Initialized, []), fs) == fs + [Fact(5, m, [])]
  {
    assert Local(m, Pos(18, 13)) in LocalsOf(tr, 4);
    assert Lookup(tr, 4, m) == Some(4);
  }

  /** Event 15: its diagnostics and the assignments after it. */
  lemma {:induction false} Event15(i: string, j: string, k: string, l: string, m: string, tr: Tree, fs: seq<Fact>)
    ensures EventDiags(tr, OutAssigned(5, [], []), fs) == []
    ensures Step(tr, OutAssigned(5, [], []), fs) == fs
  {
    assert OutFacts(5, [], []) == [];
    FactsNil(fs);
  }

  /** Event 16: its diagnostics and the assignments after it. */
  lemma {:induction false} Event16(i: string, j: string, k: string, l: string, m: string, tr: Tree, fs: seq<Fact>)
    requires |tr.scopes| == 6
    requires Parent(tr, 4) == Some(3)
    requires LocalsOf(tr, 4) == [Local(i, Pos(7, 38)), Local(j, Pos(9, 38)), Local(j, Pos(10, 38)), Local(k, Pos(12, 38)), Local(k, Pos(13, 13)), Local(l, Pos(15, 13)), Local(l, Pos(16, 38)), Local(m, Pos(18, 13))]
    requires i != m && j != m && k != m && l != m
    requires Assigned(fs, 4, m, [])
    ensures EventDiags(tr, Referenced(4, m, Pos(23, 34), false, false, []), fs) == []
    ensures Step(tr, Referenced(4, m, Pos(23, 34), false, false, []), fs) == fs
  {
    assert Local(m, Pos(18, 13)) in LocalsOf(tr, 4);
    assert Lookup(tr, 4, m) == Some(4);
  }

  /** Event 17: its diagnostics and the assignments after it. */
  lemma {:induction false} Event17(i: string, j: string, k: string, l: string, m: string, tr: Tree, fs: seq<Fact>)
    ensures EventDiags(tr, OutAssigned(4, [], []), fs) == []
    ensures Step(tr, OutAssigned(4, [], []), fs) == fs
  {
    assert OutFacts(4, [], []) == [];
    FactsNil(fs);
  }

  /** What a read of m in scope 4 finds assigned before event 16. */
  lemma {:induction false} Read0(i: string, j: string, k: string, l: string, m: string)
    ensures Assigned(Known1(i, j, k, l, m), 4, m, [])
  {
    Assigned0(i, j, k, l, m, [], 4, m, []);
    Assigned1(i, j, k, l, m, Known0(i, j, k, l, m), 4, m, []);
    assert !Assigned([], 4, m, []);
  }

  /** The parent and the locals of scope 0. */
  lemma {:induction false} Scope0(i: string, j: string, k: string, l: string, m: string, tr: Tree)
    requires ScopesAre(tr, Layout())
    requires LocalsFit(i, j, k, l, m, tr)
    ensures |tr.scopes| == 6
    ensures Parent(tr, 0) == None
    ensures LocalsOf(tr, 0) == []
  {
    assert tr.scopes[0] == Layout()[0];
    Locals0(i, j, k, l, m);
    assert LocalsOf(tr, 0) == DeclaredBy(i, j, k, l, m, 3, 0);
  }

  /** The parent and the locals of scope 3. */
  lemma {:induction false} Scope3(i: string, j: string, k: string, l: string, m: string, tr: Tree)
    requires ScopesAre(tr, Layout())
    requires LocalsFit(i, j, k, l, m, tr)
    ensures |tr.scopes| == 6
    ensures Parent(tr, 3) == Some(0)
    ensures LocalsOf(tr, 3) == []
  {
    assert tr.scopes[3] == Layout()[3];
    Locals3(i, j, k, l, m);
    assert LocalsOf(tr, 3) == DeclaredBy(i, j, k, l, m, 3, 3);
  }

  /** The parent and the locals of scope 4. */
  lemma {:induction false} Scope4(i: string, j: string, k: string, l: string, m: string, tr: Tree)
    requires ScopesAre(tr, Layout())
    requires LocalsFit(i, j, k, l, m, tr)
    ensures |tr.scopes| == 6
    ensures Parent(tr, 4) == Some(3)
    ensures LocalsOf(tr, 4) == [Local(i, Pos(7, 38)), Local(j, Pos(9, 38)), Local(j, Pos(10, 38)), Local(k, Pos(12, 38)), Local(k, Pos(13, 13)), Local(l, Pos(15, 13)), Local(l, Pos(16, 38)), Local(m, Pos(18, 13))]
  {
    assert tr.scopes[4] == Layout()[4];
    Locals4(i, j, k, l, m);
    assert LocalsOf(tr, 4) == DeclaredBy(i, j, k, l, m, 3, 4);
  }

  /** The parent and the locals of scope 5. */
  lemma {:induction false} Scope5(i: string, j: string, k: string, l: string, m: string, tr: Tree)
    requires ScopesAre(tr, Layout())
    requires LocalsFit(i, j, k, l, m, tr)
    ensures |tr.scopes| == 6
    ensures Parent(tr, 5) == Some(4)
    ensures LocalsOf(tr, 5) == [Local(m, Pos(20, 42))]
  {
    assert tr.scopes[5] == Layout()[5];
    Locals5(i, j, k, l, m);
    assert LocalsOf(tr, 5) == DeclaredBy(i, j, k, l, m, 3, 5);
  }

  /** The analysis of events 0 to 7, after the events before them. */
  lemma {:induction false} Analysed0(i: string, j: string, k: string, l: string, m: string, tr: Tree, evs: seq<Event>, fs: seq<Fact>, rs: seq<Diag>)
    requires |tr.scopes| == 6
    requires Parent(tr, 0) == None
    requires Parent(tr, 3) == Some(0)
    requires Parent(tr, 4) == Some(3)
    requires LocalsOf(tr, 0) == []
    requires LocalsOf(tr, 3) == []
    requires LocalsOf(tr, 4) == [Local(i, Pos(7, 38)), Local(j, Pos(9, 38)), Local(j, Pos(10, 38)), Local(k, Pos(12, 38)), Local(k, Pos(13, 13)), Local(l, Pos(15, 13)), Local(l, Pos(16, 38)), Local(m, Pos(18, 13))]
    requires i != j && i != k && i != l && i != m && j != k && j != l && j != m && k != l && k != m
    requires Analyse(tr, evs, []) == rs
    requires Replay(tr, evs, []) == fs
    ensures Analyse(tr, evs + Chunk0(i, j, k, l, m), []) == rs + ([] + [Diag(UsedBeforeDeclared, i, Pos(6, 9))] + [] + [] + [] + [] + [Diag(Duplicate, j, Pos(10, 38))] + [] + [])
    ensures Replay(tr, evs + Chunk0(i, j, k, l, m), []) == fs + [Fact(4, i, [])] + [Fact(4, j, [])] + [Fact(4, j, [])] + [Fact(4, k, [])]
  {
    assert Analyse(tr, [], fs) == [] && Replay(tr, [], fs) == fs;
    Event0(i, j, k, l, m, tr, fs);
    AnalyseSnoc(tr, [], Referenced(4, i, Pos(6, 9), true, false, []), fs);
    assert Analyse(tr, [] + [Referenced(4, i, Pos(6, 9), true, false, [])], fs) == [] + [Diag(UsedBeforeDeclared, i, Pos(6, 9))];
    assert Replay(tr, [] + [Referenced(4, i, Pos(6, 9), true, false, [])], fs) == fs;
    Event1(i, j, k, l, m, tr, fs);
    AnalyseSnoc(tr, [] + [Referenced(4, i, Pos(6, 9), true, false, [])], Declared(4, i, Pos(7, 38), Initialized, []), fs);
    assert Analyse(tr, [] + [Referenced(4, i, Pos(6, 9), true, false, [])] + [Declared(4, i, Pos(7, 38), Initialized, [])], fs) == [] + [Diag(UsedBeforeDeclared, i, Pos(6, 9))] + [];
    assert Replay(tr, [] + [Referenced(4, i, Pos(6, 9), true, false, [])] + [Declared(4, i, Pos(7, 38), Initialized, [])], fs) == fs + [Fact(4, i, [])];
    Event2(i, j, k, l, m, tr, fs + [Fact(4, i, [])]);
    AnalyseSnoc(tr, [] + [Referenced(4, i, Pos(6, 9), true, false, [])] + [Declared(4, i, Pos(7, 38), Initialized, [])], OutAssigned(4, [], []), fs);
    assert Analyse(tr, [] + [Referenced(4, i, Pos(6, 9), true, false, [])] + [Declared(4, i, Pos(7, 38), Initialized, [])] + [OutAssigned(4, [], [])], fs) == [] + [Diag(UsedBeforeDeclared, i, Pos(6, 9))] + [] + [];
    assert Replay(tr, [] + [Referenced(4, i, Pos(6, 9), true, false, [])] + [Declared(4, i, Pos(7, 38), Initialized, [])] + [OutAssigned(4, [], [])], fs) == fs + [Fact(4, i, [])];
    Event3(i, j, k, l, m, tr, fs + [Fact(4, i, [])]);
    AnalyseSnoc(tr, [] + [Referenced(4, i, Pos(6, 9), true, false, [])] + [Declared(4, i, Pos(7, 38), Initialized, [])] + [OutAssigned(4, [], [])], Declared(4, j, Pos(9, 38), Initialized, []), fs);
    assert Analyse(tr, [] + [Referenced(4, i, Pos(6, 9), true, false, [])] + [Declared(4, i, Pos(7, 38), Initialized, [])] + [OutAssigned(4, [], [])] + [Declared(4, j, Pos(9, 38), Initialized, [])], fs) == [] + [Diag(UsedBeforeDeclared, i, Pos(6, 9))] + [] + [] + [];
    assert Replay(tr, [] + [Referenced(4, i, Pos(6, 9), true, false, [])] + [Declared(4, i, Pos(7, 38), Initialized, [])] + [OutAssigned(4, [], [])] + [Declared(4, j, Pos(9, 38), Initialized, [])], fs) == fs + [Fact(4, i, [])] + [Fact(4, j, [])];
    Event4(i, j, k, l, m, tr, fs + [Fact(4, i, [])] + [Fact(4, j, [])]);
    AnalyseSnoc(tr, [] + [Referenced(4, i, Pos(6, 9), true, false, [])] + [Declared(4, i, Pos(7, 38), Initialized, [])] + [OutAssigned(4, [], [])] + [Declared(4, j, Pos(9, 38), Initialized, [])], OutAssigned(4, [], []), fs);
    assert Analyse(tr, [] + [Referenced(4, i, Pos(6, 9), true, false, [])] + [Declared(4, i, Pos(7, 38), Initialized, [])] + [OutAssigned(4, [], [])] + [Declared(4, j, Pos(9, 38), Initialized, [])] + [OutAssigned(4, [], [])], fs) == [] + [Diag(UsedBeforeDeclared, i, Pos(6, 9))] + [] + [] + [] + [];
    assert Replay(tr, [] + [Referenced(4, i, Pos(6, 9), true, false, [])] + [Declared(4, i, Pos(7, 38), Initialized, [])] + [OutAssigned(4, [], [])] + [Declared(4, j, Pos(9, 38), Initialized, [])] + [OutAssigned(4, [], [])], fs) == fs + [Fact(4, i, [])] + [Fact(4, j, [])];
    Event5(i, j, k, l, m, tr, fs + [Fact(4, i, [])] + [Fact(4, j, [])]);
    AnalyseSnoc(tr, [] + [Referenced(4, i, Pos(6, 9), true, false, [])] + [Declared(4, i, Pos(7, 38), Initialized, [])] + [OutAssigned(4, [], [])] + [Declared(4, j, Pos(9, 38), Initialized, [])] + [OutAssigned(4, [], [])], Declared(4, j, Pos(10, 38), Initialized, []), fs);
    assert Analyse(tr, [] + [Referenced(4, i, Pos(6, 9), true, false, [])] + [Declared(4, i, Pos(7, 38), Initialized, [])] + [OutAssigned(4, [], [])] + [Declared(4, j, Pos(9, 38), Initialized, [])] + [OutAssigned(4, [], [])] + [Declared(4, j, Pos(10, 38), Initialized, [])], fs) == [] + [Diag(UsedBeforeDeclared, i, Pos(6, 9))] + [] + [] + [] + [] + [Diag(Duplicate, j, Pos(10, 38))];
    assert Replay(tr, [] + [Referenced(4, i, Pos(6, 9), true, false, [])] + [Declared(4, i, Pos(7, 38), Initialized, [])] + [OutAssigned(4, [], [])] + [Declared(4, j, Pos(9, 38), Initialized, [])] + [OutAssigned(4, [], [])] + [Declared(4, j, Pos(10, 38), Initialized, [])], fs) == fs + [Fact(4, i, [])] + [Fact(4, j, [])] + [Fact(4, j, [])];
    Event6(i, j, k, l, m, tr, fs + [Fact(4, i, [])] + [Fact(4, j, [])] + [Fact(4, j, [])]);
    AnalyseSnoc(tr, [] + [Referenced(4, i, Pos(6, 9), true, false, [])] + [Declared(4, i, Pos(7, 38), Initialized, [])] + [OutAssigned(4, [], [])] + [Declared(4, j, Pos(9, 38), Initialized, [])] + [OutAssigned(4, [], [])] + [Declared(4, j, Pos(10, 38), Initialized, [])], OutAssigned(4, [], []), fs);
    assert Analyse(tr, [] + [Referenced(4, i, Pos(6, 9), true, false, [])] + [Declared(4, i, Pos(7, 38), Initialized, [])] + [OutAssigned(4, [], [])] + [Declared(4, j, Pos(9, 38), Initialized, [])] + [OutAssigned(4, [], [])] + [Declared(4, j, Pos(10, 38), Initialized, [])] + [OutAssigned(4, [], [])], fs) == [] + [Diag(UsedBeforeDeclared, i, Pos(6, 9))] + [] + [] + [] + [] + [Diag(Duplicate, j, Pos(10, 38))] + [];
    assert Replay(tr, [] + [Referenced(4, i, Pos(6, 9), true, false, [])] + [Declared(4, i, Pos(7, 38), Initialized, [])] + [OutAssigned(4, [], [])] + [Declared(4, j, Pos(9, 38), Initialized, [])] + [OutAssigned(4, [], [])] + [Declared(4, j, Pos(10, 38), Initialized, [])] + [OutAssigned(4, [], [])], fs) == fs + [Fact(4, i, [])] + [Fact(4, j, [])] + [Fact(4, j, [])];
    Event7(i, j, k, l, m, tr, fs + [Fact(4, i, [])] + [Fact(4, j, [])] + [Fact(4, j, [])]);
    AnalyseSnoc(tr, [] + [Referenced(4, i, Pos(6, 9), true, false, [])] + [Declared(4, i, Pos(7, 38), Initialized, [])] + [OutAssigned(4, [], [])] + [Declared(4, j, Pos(9, 38), Initialized, [])] + [OutAssigned(4, [], [])] + [Declared(4, j, Pos(10, 38), Initialized, [])] + [OutAssigned(4, [], [])], Declared(4, k, Pos(12, 38), Initialized, []), fs);
    AnalyseSplit(tr, evs, Chunk0(i, j, k, l, m), []);
  }

  /** The analysis of events 8 to 15, after the events before them. */
  lemma {:induction false} Analysed1(i: string, j: string, k: string, l: string, m: string, tr: Tree, evs: seq<Event>, fs: seq<Fact>, rs: seq<Diag>)
    requires |tr.scopes| == 6
    requires Parent(tr, 0) == None
    requires Parent(tr, 3) == Some(0)
    requires Parent(tr, 4) == Some(3)
    requires Parent(tr, 5) == Some(4)
    requires LocalsOf(tr, 0) == []
    requires LocalsOf(tr, 3) == []
    requires LocalsOf(tr, 4) == [Local(i, Pos(7, 38)), Local(j, Pos(9, 38)), Local(j, Pos(10, 38)), Local(k, Pos(12, 38)), Local(k, Pos(13, 13)), Local(l, Pos(15, 13)), Local(l, Pos(16, 38)), Local(m, Pos(18, 13))]
    requires LocalsOf(tr, 5) == [Local(m, Pos(20, 42))]
    requires i != k && i != l && i != m && j != k && j != l && j != m && k != l && k != m && l != m
    requires Analyse(tr, evs, []) == rs
    requires Replay(tr, evs, []) == fs
    ensures Analyse(tr, evs + Chunk1(i, j, k, l, m), []) == rs + ([] + [] + [Diag(Duplicate, k, Pos(13, 13))] + [] + [Diag(Duplicate, l, Pos(16, 38))] + [] + [] + [Diag(Shadow, m, Pos(20, 42))] + [])
    ensures Replay(tr, evs + Chunk1(i, j, k, l, m), []) == fs + [Fact(4, k, [])] + [Fact(4, l, [])] + [Fact(4, l, [])] + [Fact(4, m, [])] + [Fact(5, m, [])]
  {
    assert Analyse(tr, [], fs) == [] && Replay(tr, [], fs) == fs;
    Event8(i, j, k, l, m, tr, fs);
    AnalyseSnoc(tr, [], OutAssigned(4, [], []), fs);
    assert Analyse(tr, [] + [OutAssigned(4, [], [])], fs) == [] + [];
    assert Replay(tr, [] + [OutAssigned(4, [], [])], fs) == fs;
    Event9(i, j, k, l, m, tr, fs);
    AnalyseSnoc(tr, [] + [OutAssigned(4, [], [])], Declared(4, k, Pos(13, 13), Initialized, []), fs);
    assert Analyse(tr, [] + [OutAssigned(4, [], [])] + [Declared(4, k, Pos(13, 13), Initialized, [])], fs) == [] + [] + [Diag(Duplicate, k, Pos(13, 13))];
    assert Replay(tr, [] + [OutAssigned(4, [], [])] + [Declared(4, k, Pos(13, 13), Initialized, [])], fs) == fs + [Fact(4, k, [])];
    Event10(i, j, k, l, m, tr, fs + [Fact(4, k, [])]);
    AnalyseSnoc(tr, [] + [OutAssigned(4, [], [])] + [Declared(4, k, Pos(13, 13), Initialized, [])], Declared(4, l, Pos(15, 13), Initialized, []), fs);
    assert Analyse(tr, [] + [OutAssigned(4, [], [])] + [Declared(4, k, Pos(13, 13), Initialized, [])] + [Declared(4, l, Pos(15, 13), Initialized, [])], fs) == [] + [] + [Diag(Duplicate, k, Pos(13, 13))] + [];
    assert Replay(tr, [] + [OutAssigned(4, [], [])] + [Declared(4, k, Pos(13, 13), Initialized, [])] + [Declared(4, l, Pos(15, 13), Initialized, [])], fs) == fs + [Fact(4, k, [])] + [Fact(4, l, [])];
    Event11(i, j, k, l, m, tr, fs + [Fact(4, k, [])] + [Fact(4, l, [])]);
    AnalyseSnoc(tr, [] + [OutAssigned(4, [], [])] + [Declared(4, k, Pos(13, 13), Initialized, [])] + [Declared(4, l, Pos(15, 13), Initialized, [])], Declared(4, l, Pos(16, 38), Initialized, []), fs);
    assert Analyse(tr, [] + [OutAssigned(4, [], [])] + [Declared(4, k, Pos(13, 13), Initialized, [])] + [Declared(4, l, Pos(15, 13), Initialized, [])] + [Declared(4, l, Pos(16, 38), Initialized, [])], fs) == [] + [] + [Diag(Duplicate, k, Pos(13, 13))] + [] + [Diag(Duplicate, l, Pos(16, 38))];
    assert Replay(tr, [] + [OutAssigned(4, [], [])] + [Declared(4, k, Pos(13, 13), Initialized, [])] + [Declared(4, l, Pos(15, 13), Initialized, [])] + [Declared(4, l, Pos(16, 38), Initialized, [])], fs) == fs + [Fact(4, k, [])] + [Fact(4, l, [])] + [Fact(4, l, [])];
    Event12(i, j, k, l, m, tr, fs + [Fact(4, k, [])] + [Fact(4, l, [])] + [Fact(4, l, [])]);
    AnalyseSnoc(tr, [] + [OutAssigned(4, [], [])] + [Declared(4, k, Pos(13, 13), Initialized, [])] + [Declared(4, l, Pos(15, 13), Initialized, [])] + [Declared(4, l, Pos(16, 38), Initialized, [])], OutAssigned(4, [], []), fs);
    assert Analyse(tr, [] + [OutAssigned(4, [], [])] + [Declared(4, k, Pos(13, 13), Initialized, [])] + [Declared(4, l, Pos(15, 13), Initialized, [])] + [Declared(4, l, Pos(16, 38), Initialized, [])] + [OutAssigned(4, [], [])], fs) == [] + [] + [Diag(Duplicate, k, Pos(13, 13))] + [] + [Diag(Duplicate, l, Pos(16, 38))] + [];
    assert Replay(tr, [] + [OutAssigned(4, [], [])] + [Declared(4, k, Pos(13, 13), Initialized, [])] + [Declared(4, l, Pos(15, 13), Initialized, [])] + [Declared(4, l, Pos(16, 38), Initialized, [])] + [OutAssigned(4, [], [])], fs) == fs + [Fact(4, k, [])] + [Fact(4, l, [])] + [Fact(4, l, [])];
    Event13(i, j, k, l, m, tr, fs + [Fact(4, k, [])] + [Fact(4, l, [])] + [Fact(4, l, [])]);
    AnalyseSnoc(tr, [] + [OutAssigned(4, [], [])] + [Declared(4, k, Pos(13, 13), Initialized, [])] + [Declared(4, l, Pos(15, 13), Initialized, [])] + [Declared(4, l, Pos(16, 38), Initialized, [])] + [OutAssigned(4, [], [])], Declared(4, m, Pos(18, 13), Initialized, []), fs);
    assert Analyse(tr, [] + [OutAssigned(4, [], [])] + [Declared(4, k, Pos(13, 13), Initialized, [])] + [Declared(4, l, Pos(15, 13), Initialized, [])] + [Declared(4, l, Pos(16, 38), Initialized, [])] + [OutAssigned(4, [], [])] + [Declared(4, m, Pos(18, 13), Initialized, [])], fs) == [] + [] + [Diag(Duplicate, k, Pos(13, 13))] + [] + [Diag(Duplicate, l, Pos(16, 38))] + [] + [];
    assert Replay(tr, [] + [OutAssigned(4, [], [])] + [Declared(4, k, Pos(13, 13), Initialized, [])] + [Declared(4, l, Pos(15, 13), Initialized, [])] + [Declared(4, l, Pos(16, 38), Initialized, [])] + [OutAssigned(4, [], [])] + [Declared(4, m, Pos(18, 13), Initialized, [])], fs) == fs + [Fact(4, k, [])] + [Fact(4, l, [])] + [Fact(4, l, [])] + [Fact(4, m, [])];
    Event14(i, j, k, l, m, tr, fs + [Fact(4, k, [])] + [Fact(4, l, [])] + [Fact(4, l, [])] + [Fact(4, m, [])]);
    AnalyseSnoc(tr, [] + [OutAssigned(4, [], [])] + [Declared(4, k, Pos(13, 13), Initialized, [])] + [Declared(4, l, Pos(15, 13), Initialized, [])] + [Declared(4, l, Pos(16, 38), Initialized, [])] + [OutAssigned(4, [], [])] + [Declared(4, m, Pos(18, 13), Initialized, [])], Declared(5, m, Pos(20, 42), Initialized, []), fs);
    assert Analyse(tr, [] + [OutAssigned(4, [], [])] + [Declared(4, k, Pos(13, 13), Initialized, [])] + [Declared(4, l, Pos(15, 13), Initialized, [])] + [Declared(4, l, Pos(16, 38), Initialized, [])] + [OutAssigned(4, [], [])] + [Declared(4, m, Pos(18, 13), Initialized, [])] + [Declared(5, m, Pos(20, 42), Initialized, [])], fs) == [] + [] + [Diag(Duplicate, k, Pos(13, 13))] + [] + [Diag(Duplicate, l, Pos(16, 38))] + [] + [] + [Diag(Shadow, m, Pos(20, 42))];
    assert Replay(tr, [] + [OutAssigned(4, [], [])] + [Declared(4, k, Pos(13, 13), Initialized, [])] + [Declared(4, l, Pos(15, 13), Initialized, [])] + [Declared(4, l, Pos(16, 38), Initialized, [])] + [OutAssigned(4, [], [])] + [Declared(4, m, Pos(18, 13), Initialized, [])] + [Declared(5, m, Pos(20, 42), Initialized, [])], fs) == fs + [Fact(4, k, [])] + [Fact(4, l, [])] + [Fact(4, l, [])] + [Fact(4, m, [])] + [Fact(5, m, [])];
    Event15(i, j, k, l, m, tr, fs + [Fact(4, k, [])] + [Fact(4, l, [])] + [Fact(4, l, [])] + [Fact(4, m, [])] + [Fact(5, m, [])]);
    AnalyseSnoc(tr, [] + [OutAssigned(4, [], [])] + [Declared(4, k, Pos(13, 13), Initialized, [])] + [Declared(4, l, Pos(15, 13), Initialized, [])] + [Declared(4, l, Pos(16, 38), Initialized, [])] + [OutAssigned(4, [], [])] + [Declared(4, m, Pos(18, 13), Initialized, [])] + [Declared(5, m, Pos(20, 42), Initialized, [])], OutAssigned(5, [], []), fs);
    AnalyseSplit(tr, evs, Chunk1(i, j, k, l, m), []);
  }

  /** The analysis of events 16 to 17, after the events before them. */
  lemma {:induction false} Analysed2(i: string, j: string, k: string, l: string, m: string, tr: Tree, evs: seq<Event>, fs: seq<Fact>, rs: seq<Diag>)
    requires |tr.scopes| == 6
    requires Parent(tr, 4) == Some(3)
    requires LocalsOf(tr, 4) == [Local(i, Pos(7, 38)), Local(j, Pos(9, 38)), Local(j, Pos(10, 38)), Local(k, Pos(12, 38)), Local(k, Pos(13, 13)), Local(l, Pos(15, 13)), Local(l, Pos(16, 38)), Local(m, Pos(18, 13))]
    requires i != m && j != m && k != m && l != m
    requires Analyse(tr, evs, []) == rs
    requires Replay(tr, evs, []) == fs
    requires Assigned(fs, 4, m, [])
    ensures Analyse(tr, evs + Chunk2(i, j, k, l, m), []) == rs + ([] + [] + [])
    ensures Replay(tr, evs + Chunk2(i, j, k, l, m), []) == fs
  {
    assert Analyse(tr, [], fs) == [] && Replay(tr, [], fs) == fs;
    Event16(i, j, k, l, m, tr, fs);
    AnalyseSnoc(tr, [], Referenced(4, m, Pos(23, 34), false, false, []), fs);
    assert Analyse(tr, [] + [Referenced(4, m, Pos(23, 34), false, false, [])], fs) == [] + [];
    assert Replay(tr, [] + [Referenced(4, m, Pos(23, 34), false, false, [])], fs) == fs;
    Event17(i, j, k, l, m, tr, fs);
    AnalyseSnoc(tr, [] + [Referenced(4, m, Pos(23, 34), false, false, [])], OutAssigned(4, [], []), fs);
    AnalyseSplit(tr, evs, Chunk2(i, j, k, l, m), []);
  }

  lemma {:induction false} Glue0(i: string, j: string, k: string, l: string, m: string, rs: seq<Diag>)
    requires rs == []
    ensures rs + ([] + [Diag(UsedBeforeDeclared, i, Pos(6, 9))] + [] + [] + [] + [] + [Diag(Duplicate, j, Pos(10, 38))] + [] + []) == [Diag(UsedBeforeDeclared, i, Pos(6, 9)), Diag(Duplicate, j, Pos(10, 38))]
  {
  }

  lemma {:induction false} Glue1(i: string, j: string, k: string, l: string, m: string, rs: seq<Diag>)
    requires rs == [Diag(UsedBeforeDeclared, i, Pos(6, 9)), Diag(Duplicate, j, Pos(10, 38))]
    ensures rs + ([] + [] + [Diag(Duplicate, k, Pos(13, 13))] + [] + [Diag(Duplicate, l, Pos(16, 38))] + [] + [] + [Diag(Shadow, m, Pos(20, 42))] + []) == [Diag(UsedBeforeDeclared, i, Pos(6, 9)), Diag(Duplicate, j, Pos(10, 38)), Diag(Duplicate, k, Pos(13, 13)), Diag(Duplicate, l, Pos(16, 38)), Diag(Shadow, m, Pos(20, 42))]
  {
  }

  lemma {:induction false} Glue2(i: string, j: string, k: string, l: string, m: string, rs: seq<Diag>)
    requires rs == [Diag(UsedBeforeDeclared, i, Pos(6, 9)), Diag(Duplicate, j, Pos(10, 38)), Diag(Duplicate, k, Pos(13, 13)), Diag(Duplicate, l, Pos(16, 38)), Diag(Shadow, m, Pos(20, 42))]
    ensures rs + ([] + [] + []) == [Diag(UsedBeforeDeclared, i, Pos(6, 9)), Diag(Duplicate, j, Pos(10, 38)), Diag(Duplicate, k, Pos(13, 13)), Diag(Duplicate, l, Pos(16, 38)), Diag(Shadow, m, Pos(20, 42))]
  {
  }

  /** The analysis of events 0 to 17, after the events before them. */
  lemma {:induction false} Stage0(i: string, j: string, k: string, l: string, m: string, tr: Tree, evs: seq<Event>)
    requires ScopesAre(tr, Layout())
    requires LocalsFit(i, j, k, l, m, tr)
    requires i != j && i != k && i != l && i != m && j != k && j != l && j != m && k != l && k != m && l != m
    requires Analyse(tr, evs, []) == []
    requires Replay(tr, evs, []) == []
    ensures Analyse(tr, evs + Chunk0(i, j, k, l, m) + Chunk1(i, j, k, l, m) + Chunk2(i, j, k, l, m), []) == [Diag(UsedBeforeDeclared, i, Pos(6, 9)), Diag(Duplicate, j, Pos(10, 38)), Diag(Duplicate, k, Pos(13, 13)), Diag(Duplicate, l, Pos(16, 38)), Diag(Shadow, m, Pos(20, 42))]
    ensures Replay(tr, evs + Chunk0(i, j, k, l, m) + Chunk1(i, j, k, l, m) + Chunk2(i, j, k, l, m), []) == Known1(i, j, k, l, m)
  {
    Scope0(i, j, k, l, m, tr);
    Scope3(i, j, k, l, m, tr);
    Scope4(i, j, k, l, m, tr);
    Analysed0(i, j, k, l, m, tr, evs, [], []);
    Glue0(i, j, k, l, m, []);
    Scope5(i, j, k, l, m, tr);
    Analysed1(i, j, k, l, m, tr, evs + Chunk0(i, j, k, l, m), Known0(i, j, k, l, m), [Diag(UsedBeforeDeclared, i, Pos(6, 9)), Diag(Duplicate, j, Pos(10, 38))]);
    Glue1(i, j, k, l, m, [Diag(UsedBeforeDeclared, i, Pos(6, 9)), Diag(Duplicate, j, Pos(10, 38))]);
    Read0(i, j, k, l, m);
    Analysed2(i, j, k, l, m, tr, evs + Chunk0(i, j, k, l, m) + Chunk1(i, j, k, l, m), Known1(i, j, k, l, m), [Diag(UsedBeforeDeclared, i, Pos(6, 9)), Diag(Duplicate, j, Pos(10, 38)), Diag(Duplicate, k, Pos(13, 13)), Diag(Duplicate, l, Pos(16, 38)), Diag(Shadow, m, Pos(20, 42))]);
    Glue2(i, j, k, l, m, [Diag(UsedBeforeDeclared, i, Pos(6, 9)), Diag(Duplicate, j, Pos(10, 38)), Diag(Duplicate, k, Pos(13, 13)), Diag(Duplicate, l, Pos(16, 38)), Diag(Shadow, m, Pos(20, 42))]);
  }

  /** The analysis of a tree with the test's scopes and events. */
  lemma {:induction false} Result(i: string, j: string, k: string, l: string, m: string, tr: Tree)
    requires ScopesAre(tr, Layout()) && LocalsFit(i, j, k, l, m, tr) && tr.events == Trace(i, j, k, l, m)
    requires i != j && i != k && i != l && i != m && j != k && j != l && j != m && k != l && k != m && l != m
    ensures Analyse(tr, tr.events, []) == [Diag(UsedBeforeDeclared, i, Pos(6, 9)), Diag(Duplicate, j, Pos(10, 38)), Diag(Duplicate, k, Pos(13, 13)), Diag(Duplicate, l, Pos(16, 38)), Diag(Shadow, m, Pos(20, 42))]
  {
    assert Analyse(tr, [], []) == [] && Replay(tr, [], []) == [];
    Stage0(i, j, k, l, m, tr, []);
  }

  /** The diagnostics the test expects, in the order the analysis reports them. */
  lemma {:induction false} Outcome(i: string, j: string, k: string, l: string, m: string)
    requires i != j && i != k && i != l && i != m && j != k && j != l && j != m && k != l && k != m && l != m
    ensures Check(Program(i, j, k, l, m)) == [Diag(UsedBeforeDeclared, i, Pos(6, 9)), Diag(Duplicate, j, Pos(10, 38)), Diag(Duplicate, k, Pos(13, 13)), Diag(Duplicate, l, Pos(16, 38)), Diag(Shadow, m, Pos(20, 42))]
  {
    Walked(i, j, k, l, m);
    LocalsAll(i, j, k, l, m, Build(Program(i, j, k, l, m)));
    Result(i, j, k, l, m, Build(Program(i, j, k, l, m)));
  }
}

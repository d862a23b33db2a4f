/**
 * The test CatchFilter_04 (DeclarationExpressionsTests.cs, lines 3874 to 3990).
 *
 * Its program, with its local names left as parameters, is walked into a scope tree and
 * analysed; Outcome states the exact list of diagnostics Check reports, for any names that
 * differ where the outcome depends on it.
 */
module ScenCatchFilter04 {
  import opened Syntax
  import opened Scopes
  import opened Binding
  import opened Reporting
  import opened Frames
  import opened Units
  import opened Traces

  /** The statements of the test's method, its names left as parameters. */
  function Body(a1: string, e: string, a2: string, b1: string, b2: string, c1: string, c2: string, c3: string, d1: string): seq<Stmt> {
    [Exprs([Declare(a1, Pos(6, 13), Initialized)])] + ([Exprs([Call([Argument([Use(a1, Pos(7, 34), false)])])])] + ([Try([Exprs([])], [Catch(Some(Param(e, Pos(12, 46))), [Declare(a1, Pos(12, 58), Initialized)], [Exprs([Call([Argument([Use(e, Pos(14, 38), false)])])])])], None)] + ([Exprs([Declare(a2, Pos(17, 13), Initialized)])] + ([Exprs([Call([Argument([Use(a2, Pos(18, 34), false)])])])] + ([Try([Exprs([])], [Catch(None, [], [Exprs([Call([Argument([Declare(a2, Pos(25, 42), Initialized)])])])])], None)] + ([Try([Exprs([])], [Catch(Some(Param(b1, Pos(32, 46))), [Declare(b1, Pos(32, 59), Initialized)], [])], None)] + ([Try([Exprs([])], [Catch(Some(Param(b2, Pos(40, 46))), [], [Exprs([Call([Argument([Declare(b2, Pos(42, 42), Initialized)])])])])], None)] + ([Try([Exprs([])], [Catch(None, [Declare(c1, Pos(49, 57), Initialized)] + ([Declare(c1, Pos(49, 78), Initialized)]), [])], None)] + ([Try([Exprs([])], [Catch(None, [Declare(c2, Pos(57, 56), Initialized)], [Exprs([Call([Argument([Declare(c2, Pos(59, 42), Initialized)])])])])], None)] + ([Try([Exprs([])], [Catch(None, [Declare(c3, Pos(66, 56), Initialized)], [Exprs([Declare(c3, Pos(68, 17), Initialized)])] + ([Exprs([Call([Argument([Use(c3, Pos(69, 38), false)])])])]))], None)] + ([Try([Exprs([])], [Catch(None, [], [Exprs([Call([Argument([Declare(d1, Pos(78, 44), Initialized)] + ([Declare(d1, Pos(78, 65), Initialized)]))])])])], None)])))))))))))
  }

  /** The program of the test: one method holding those statements. */
  function Program(a1: string, e: string, a2: string, b1: string, b2: string, c1: string, c2: string, c3: string, d1: string): seq<Fragment> {
    MainUnit(Body(a1, e, a2, b1, b2, c1, c2, c3, d1))
  }

  /** Scopes 0 to 7, in the order the walk opens them. */
  function Layout0(): seq<Scope> {
    [Scope(Unit, None),
     Scope(InstanceInitializers, Some(0)),
     Scope(StaticInitializers, Some(0)),
     Scope(MethodBody, Some(0)),
     Scope(BlockBody, Some(3)),
     Scope(BlockBody, Some(4)),
     Scope(CatchClause, Some(4)),
     Scope(BlockBody, Some(6))]
  }

  /** Scopes 8 to 15, in the order the walk opens them. */
  function Layout1(): seq<Scope> {
    [Scope(BlockBody, Some(4)),
     Scope(CatchClause, Some(4)),
     Scope(BlockBody, Some(9)),
     Scope(BlockBody, Some(4)),
     Scope(CatchClause, Some(4)),
     Scope(BlockBody, Some(12)),
     Scope(BlockBody, Some(4)),
     Scope(CatchClause, Some(4))]
  }

  /** Scopes 16 to 23, in the order the walk opens them. */
  function Layout2(): seq<Scope> {
    [Scope(BlockBody, Some(15)),
     Scope(BlockBody, Some(4)),
     Scope(CatchClause, Some(4)),
     Scope(BlockBody, Some(18)),
     Scope(BlockBody, Some(4)),
     Scope(CatchClause, Some(4)),
     Scope(BlockBody, Some(21)),
     Scope(BlockBody, Some(4))]
  }

  /** Scopes 24 to 28, in the order the walk opens them. */
  function Layout3(): seq<Scope> {
    [Scope(CatchClause, Some(4)),
     Scope(BlockBody, Some(24)),
     Scope(BlockBody, Some(4)),
     Scope(CatchClause, Some(4)),
     Scope(BlockBody, Some(27))]
  }

  /** Its scopes, in the order the walk opens them. */
  function Layout(): seq<Scope> {
    Layout0() + Layout1() + Layout2() + Layout3()
  }

  lemma {:induction false} LayoutJoin0()
    ensures [Scope(Unit, None), Scope(InstanceInitializers, Some(0)), Scope(StaticInitializers, Some(0)), Scope(MethodBody, Some(0)), Scope(BlockBody, Some(3))] + [Scope(BlockBody, Some(4))] + [Scope(CatchClause, Some(4))] + [Scope(BlockBody, Some(6))] == Layout0()
  {
  }

  lemma {:induction false} LayoutJoin1(pre: seq<Scope>)
    ensures pre + Layout1() == pre + [Scope(BlockBody, Some(4))] + [Scope(CatchClause, Some(4))] + [Scope(BlockBody, Some(9))] + [Scope(BlockBody, Some(4))] + [Scope(CatchClause, Some(4))] + [Scope(BlockBody, Some(12))] + [Scope(BlockBody, Some(4))] + [Scope(CatchClause, Some(4))]
  {
  }

  lemma {:induction false} LayoutJoin2(pre: seq<Scope>)
    ensures pre + Layout2() == pre + [Scope(BlockBody, Some(15))] + [Scope(BlockBody, Some(4))] + [Scope(CatchClause, Some(4))] + [Scope(BlockBody, Some(18))] + [Scope(BlockBody, Some(4))] + [Scope(CatchClause, Some(4))] + [Scope(BlockBody, Some(21))] + [Scope(BlockBody, Some(4))]
  {
  }

  lemma {:induction false} LayoutJoin3(pre: seq<Scope>)
    ensures pre + Layout3() == pre + [Scope(CatchClause, Some(4))] + [Scope(BlockBody, Some(24))] + [Scope(BlockBody, Some(4))] + [Scope(CatchClause, Some(4))] + [Scope(BlockBody, Some(27))]
  {
  }

  /** The layout, scope by scope. */
  lemma {:induction false} LayoutFlat()
    ensures [Scope(Unit, None), Scope(InstanceInitializers, Some(0)), Scope(StaticInitializers, Some(0)), Scope(MethodBody, Some(0)), Scope(BlockBody, Some(3))] + [Scope(BlockBody, Some(4))] + [Scope(CatchClause, Some(4))] + [Scope(BlockBody, Some(6))] + [Scope(BlockBody, Some(4))] + [Scope(CatchClause, Some(4))] + [Scope(BlockBody, Some(9))] + [Scope(BlockBody, Some(4))] + [Scope(CatchClause, Some(4))] + [Scope(BlockBody, Some(12))] + [Scope(BlockBody, Some(4))] + [Scope(CatchClause, Some(4))] + [Scope(BlockBody, Some(15))] + [Scope(BlockBody, Some(4))] + [Scope(CatchClause, Some(4))] + [Scope(BlockBody, Some(18))] + [Scope(BlockBody, Some(4))] + [Scope(CatchClause, Some(4))] + [Scope(BlockBody, Some(21))] + [Scope(BlockBody, Some(4))] + [Scope(CatchClause, Some(4))] + [Scope(BlockBody, Some(24))] + [Scope(BlockBody, Some(4))] + [Scope(CatchClause, Some(4))] + [Scope(BlockBody, Some(27))] == Layout()
  {
    LayoutJoin0();
    LayoutJoin1(Layout0());
    LayoutJoin2(Layout0() + Layout1());
    LayoutJoin3(Layout0() + Layout1() + Layout2());
  }

  /** Events 0 to 7 of the test, in evaluation order. */
  function Chunk0(a1: string, e: string, a2: string, b1: string, b2: string, c1: string, c2: string, c3: string, d1: string): seq<Event> {
    []
      + [Declared(4, a1, Pos(6, 13), Initialized, [])]
      + [Referenced(4, a1, Pos(7, 34), false, false, [])]
      + [OutAssigned(4, [], [])]
      + [Declared(6, e, Pos(12, 46), Initialized, [1])]
      + [Declared(6, a1, Pos(12, 58), Initialized, [1])]
      + [Referenced(7, e, Pos(14, 38), false, false, [1])]
      + [OutAssigned(7, [], [1])]
      + [Declared(4, a2, Pos(17, 13), Initialized, [])]
  }

  /** Events 8 to 15 of the test, in evaluation order. */
  function Chunk1(a1: string, e: string, a2: string, b1: string, b2: string, c1: string, c2: string, c3: string, d1: string): seq<Event> {
    []
      + [Referenced(4, a2, Pos(18, 34), false, false, [])]
      + [OutAssigned(4, [], [])]
      + [Declared(10, a2, Pos(25, 42), Initialized, [3])]
      + [OutAssigned(10, [], [3])]
      + [Declared(12, b1, Pos(32, 46), Initialized, [5])]
      + [Declared(12, b1, Pos(32, 59), Initialized, [5])]
      + [Declared(15, b2, Pos(40, 46), Initialized, [7])]
      + [Declared(16, b2, Pos(42, 42), Initialized, [7])]
  }

  /** Events 16 to 23 of the test, in evaluation order. */
  function Chunk2(a1: string, e: string, a2: string, b1: string, b2: string, c1: string, c2: string, c3: string, d1: string): seq<Event> {
    []
      + [OutAssigned(16, [], [7])]
      + [Declared(18, c1, Pos(49, 57), Initialized, [9])]
      + [Declared(18, c1, Pos(49, 78), Initialized, [9])]
      + [Declared(21, c2, Pos(57, 56), Initialized, [11])]
      + [Declared(22, c2, Pos(59, 42), Initialized, [11])]
      + [OutAssigned(22, [], [11])]
      + [Declared(24, c3, Pos(66, 56), Initialized, [13])]
      + [Declared(25, c3, Pos(68, 17), Initialized, [13])]
  }

  /** Events 24 to 28 of the test, in evaluation order. */
  function Chunk3(a1: string, e: string, a2: string, b1: string, b2: string, c1: string, c2: string, c3: string, d1: string): seq<Event> {
    []
      + [Referenced(25, c3, Pos(69, 38), false, false, [13])]
      + [OutAssigned(25, [], [13])]
      + [Declared(28, d1, Pos(78, 44), Initialized, [15])]
      + [Declared(28, d1, Pos(78, 65), Initialized, [15])]
      + [OutAssigned(28, [], [15])]
  }

  /** The events of the test, in evaluation order. */
  function Trace(a1: string, e: string, a2: string, b1: string, b2: string, c1: string, c2: string, c3: string, d1: string): seq<Event> {
    []
      + Chunk0(a1, e, a2, b1, b2, c1, c2, c3, d1)
      + Chunk1(a1, e, a2, b1, b2, c1, c2, c3, d1)
      + Chunk2(a1, e, a2, b1, b2, c1, c2, c3, d1)
      + Chunk3(a1, e, a2, b1, b2, c1, c2, c3, d1)
  }

  lemma {:induction false} Walk2(a1: string, e: string, a2: string, b1: string, b2: string, c1: string, c2: string, c3: string, d1: string, tr: Tree)
    requires |tr.scopes| == 5 && tr.arms == 0
    ensures WalkStmt(Exprs([Declare(a1, Pos(6, 13), Initialized)]), Ctx(4, [], []), tr) == Tree(tr.scopes, tr.events + [Declared(4, a1, Pos(6, 13), Initialized, [])], 0)
  {
    WalkExprsOne(Declare(a1, Pos(6, 13), Initialized), Ctx(4, [], []), tr);
    assert WalkExpr(Declare(a1, Pos(6, 13), Initialized), Ctx(4, [], []), tr) == Tree(tr.scopes, tr.events + [Declared(4, a1, Pos(6, 13), Initialized, [])], 0);
    assert WalkExprs([Declare(a1, Pos(6, 13), Initialized)], Ctx(4, [], []), tr) == Tree(tr.scopes, tr.events + [Declared(4, a1, Pos(6, 13), Initialized, [])], 0);
    assert WalkStmt(Exprs([Declare(a1, Pos(6, 13), Initialized)]), Ctx(4, [], []), tr) == Tree(tr.scopes, tr.events + [Declared(4, a1, Pos(6, 13), Initialized, [])], 0);
  }

  lemma {:induction false} Walk3(a1: string, e: string, a2: string, b1: string, b2: string, c1: string, c2: string, c3: string, d1: string, tr: Tree)
    requires |tr.scopes| == 5 && tr.arms == 0
    ensures WalkStmt(Exprs([Call([Argument([Use(a1, Pos(7, 34), false)])])]), Ctx(4, [], []), tr) == Tree(tr.scopes, tr.events + [Referenced(4, a1, Pos(7, 34), false, false, [])] + [OutAssigned(4, [], [])], 0)
  {
    WalkExprsOne(Call([Argument([Use(a1, Pos(7, 34), false)])]), Ctx(4, [], []), tr);
    assert OutNames([]) == [];
    WalkArgsOne(Argument([Use(a1, Pos(7, 34), false)]), [], Ctx(4, [], []), tr);
    WalkExprsOne(Use(a1, Pos(7, 34), false), Ctx(4, [], []), tr);
    assert WalkExpr(Use(a1, Pos(7, 34), false), Ctx(4, [], []), tr) == Tree(tr.scopes, tr.events + [Referenced(4, a1, Pos(7, 34), false, false, [])], 0);
    assert WalkExprs([Use(a1, Pos(7, 34), false)], Ctx(4, [], []), tr) == Tree(tr.scopes, tr.events + [Referenced(4, a1, Pos(7, 34), false, false, [])], 0);
    OutNamesOfOne(Use(a1, Pos(7, 34), false));
    OutNamesSnoc([], Argument([Use(a1, Pos(7, 34), false)]));
    assert WalkArgs([Argument([Use(a1, Pos(7, 34), false)])], [], Ctx(4, [], []), tr) == Tree(tr.scopes, tr.events + [Referenced(4, a1, Pos(7, 34), false, false, [])], 0);
    assert OutNames([Argument([Use(a1, Pos(7, 34), false)])]) == [];
    assert WalkExpr(Call([Argument([Use(a1, Pos(7, 34), false)])]), Ctx(4, [], []), tr) == Tree(tr.scopes, tr.events + [Referenced(4, a1, Pos(7, 34), false, false, [])] + [OutAssigned(4, [], [])], 0);
    assert WalkExprs([Call([Argument([Use(a1, Pos(7, 34), false)])])], Ctx(4, [], []), tr) == Tree(tr.scopes, tr.events + [Referenced(4, a1, Pos(7, 34), false, false, [])] + [OutAssigned(4, [], [])], 0);
    assert WalkStmt(Exprs([Call([Argument([Use(a1, Pos(7, 34), false)])])]), Ctx(4, [], []), tr) == Tree(tr.scopes, tr.events + [Referenced(4, a1, Pos(7, 34), false, false, [])] + [OutAssigned(4, [], [])], 0);
  }

  lemma {:induction false} Walk5(a1: string, e: string, a2: string, b1: string, b2: string, c1: string, c2: string, c3: string, d1: string, tr: Tree)
    requires |tr.scopes| == 6 && tr.arms == 1
    ensures WalkStmt(Exprs([]), Ctx(5, [0], []), tr) == Tree(tr.scopes, tr.events, 1)
  {
    assert WalkStmt(Exprs([]), Ctx(5, [0], []), tr) == tr;
  }

  lemma {:induction false} Walk6(a1: string, e: string, a2: string, b1: string, b2: string, c1: string, c2: string, c3: string, d1: string, tr: Tree)
    requires |tr.scopes| == 8 && tr.arms == 2
    ensures WalkStmt(Exprs([Call([Argument([Use(e, Pos(14, 38), false)])])]), Ctx(7, [1], []), tr) == Tree(tr.scopes, tr.events + [Referenced(7, e, Pos(14, 38), false, false, [1])] + [OutAssigned(7, [], [1])], 2)
  {
    WalkExprsOne(Call([Argument([Use(e, Pos(14, 38), false)])]), Ctx(7, [1], []), tr);
    assert OutNames([]) == [];
    WalkArgsOne(Argument([Use(e, Pos(14, 38), false)]), [], Ctx(7, [1], []), tr);
    WalkExprsOne(Use(e, Pos(14, 38), false), Ctx(7, [1], []), tr);
    assert WalkExpr(Use(e, Pos(14, 38), false), Ctx(7, [1], []), tr) == Tree(tr.scopes, tr.events + [Referenced(7, e, Pos(14, 38), false, false, [1])], 2);
    assert WalkExprs([Use(e, Pos(14, 38), false)], Ctx(7, [1], []), tr) == Tree(tr.scopes, tr.events + [Referenced(7, e, Pos(14, 38), false, false, [1])], 2);
    OutNamesOfOne(Use(e, Pos(14, 38), false));
    OutNamesSnoc([], Argument([Use(e, Pos(14, 38), false)]));
    assert WalkArgs([Argument([Use(e, Pos(14, 38), false)])], [], Ctx(7, [1], []), tr) == Tree(tr.scopes, tr.events + [Referenced(7, e, Pos(14, 38), false, false, [1])], 2);
    assert OutNames([Argument([Use(e, Pos(14, 38), false)])]) == [];
    assert WalkExpr(Call([Argument([Use(e, Pos(14, 38), false)])]), Ctx(7, [1], []), tr) == Tree(tr.scopes, tr.events + [Referenced(7, e, Pos(14, 38), false, false, [1])] + [OutAssigned(7, [], [1])], 2);
    assert WalkExprs([Call([Argument([Use(e, Pos(14, 38), false)])])], Ctx(7, [1], []), tr) == Tree(tr.scopes, tr.events + [Referenced(7, e, Pos(14, 38), false, false, [1])] + [OutAssigned(7, [], [1])], 2);
    assert WalkStmt(Exprs([Call([Argument([Use(e, Pos(14, 38), false)])])]), Ctx(7, [1], []), tr) == Tree(tr.scopes, tr.events + [Referenced(7, e, Pos(14, 38), false, false, [1])] + [OutAssigned(7, [], [1])], 2);
  }

  lemma {:induction false} Walk4(a1: string, e: string, a2: string, b1: string, b2: string, c1: string, c2: string, c3: string, d1: string, tr: Tree)
    requires |tr.scopes| == 5 && tr.arms == 0
    ensures WalkStmt(Try([Exprs([])], [Catch(Some(Param(e, Pos(12, 46))), [Declare(a1, Pos(12, 58), Initialized)], [Exprs([Call([Argument([Use(e, Pos(14, 38), false)])])])])], None), Ctx(4, [], []), tr) == Tree(tr.scopes + [Scope(BlockBody, Some(4))] + [Scope(CatchClause, Some(4))] + [Scope(BlockBody, Some(6))], tr.events + [Declared(6, e, Pos(12, 46), Initialized, [1])] + [Declared(6, a1, Pos(12, 58), Initialized, [1])] + [Referenced(7, e, Pos(14, 38), false, false, [1])] + [OutAssigned(7, [], [1])], 2)
  {
    assert [] + [0] == [0];
    WalkStmtsOne(Exprs([]), Ctx(5, [0], []), Tree(tr.scopes + [Scope(BlockBody, Some(4))], tr.events, 1));
    Walk5(a1, e, a2, b1, b2, c1, c2, c3, d1, Tree(tr.scopes + [Scope(BlockBody, Some(4))], tr.events, 1));
    assert WalkStmt(Exprs([]), Ctx(5, [0], []), Tree(tr.scopes + [Scope(BlockBody, Some(4))], tr.events, 1)) == Tree(tr.scopes + [Scope(BlockBody, Some(4))], tr.events, 1);
    WalkCatchesOne(Catch(Some(Param(e, Pos(12, 46))), [Declare(a1, Pos(12, 58), Initialized)], [Exprs([Call([Argument([Use(e, Pos(14, 38), false)])])])]), Ctx(4, [], []), Tree(tr.scopes + [Scope(BlockBody, Some(4))], tr.events, 1));
    assert [] + [1] == [1];
    WalkExprsOne(Declare(a1, Pos(12, 58), Initialized), Ctx(6, [1], []), Tree(tr.scopes + [Scope(BlockBody, Some(4))] + [Scope(CatchClause, Some(4))], tr.events + [Declared(6, e, Pos(12, 46), Initialized, [1])], 2));
    assert WalkExpr(Declare(a1, Pos(12, 58), Initialized), Ctx(6, [1], []), Tree(tr.scopes + [Scope(BlockBody, Some(4))] + [Scope(CatchClause, Some(4))], tr.events + [Declared(6, e, Pos(12, 46), Initialized, [1])], 2)) == Tree(tr.scopes + [Scope(BlockBody, Some(4))] + [Scope(CatchClause, Some(4))], tr.events + [Declared(6, e, Pos(12, 46), Initialized, [1])] + [Declared(6, a1, Pos(12, 58), Initialized, [1])], 2);
    assert WalkExprs([Declare(a1, Pos(12, 58), Initialized)], Ctx(6, [1], []), Tree(tr.scopes + [Scope(BlockBody, Some(4))] + [Scope(CatchClause, Some(4))], tr.events + [Declared(6, e, Pos(12, 46), Initialized, [1])], 2)) == Tree(tr.scopes + [Scope(BlockBody, Some(4))] + [Scope(CatchClause, Some(4))], tr.events + [Declared(6, e, Pos(12, 46), Initialized, [1])] + [Declared(6, a1, Pos(12, 58), Initialized, [1])], 2);
    WalkStmtsOne(Exprs([Call([Argument([Use(e, Pos(14, 38), false)])])]), Ctx(7, [1], []), Tree(tr.scopes + [Scope(BlockBody, Some(4))] + [Scope(CatchClause, Some(4))] + [Scope(BlockBody, Some(6))], tr.events + [Declared(6, e, Pos(12, 46), Initialized, [1])] + [Declared(6, a1, Pos(12, 58), Initialized, [1])], 2));
    Walk6(a1, e, a2, b1, b2, c1, c2, c3, d1, Tree(tr.scopes + [Scope(BlockBody, Some(4))] + [Scope(CatchClause, Some(4))] + [Scope(BlockBody, Some(6))], tr.events + [Declared(6, e, Pos(12, 46), Initialized, [1])] + [Declared(6, a1, Pos(12, 58), Initialized, [1])], 2));
    assert WalkStmt(Exprs([Call([Argument([Use(e, Pos(14, 38), false)])])]), Ctx(7, [1], []), Tree(tr.scopes + [Scope(BlockBody, Some(4))] + [Scope(CatchClause, Some(4))] + [Scope(BlockBody, Some(6))], tr.events + [Declared(6, e, Pos(12, 46), Initialized, [1])] + [Declared(6, a1, Pos(12, 58), Initialized, [1])], 2)) == Tree(tr.scopes + [Scope(BlockBody, Some(4))] + [Scope(CatchClause, Some(4))] + [Scope(BlockBody, Some(6))], tr.events + [Declared(6, e, Pos(12, 46), Initialized, [1])] + [Declared(6, a1, Pos(12, 58), Initialized, [1])] + [Referenced(7, e, Pos(14, 38), false, false, [1])] + [OutAssigned(7, [], [1])], 2);
    assert WalkCatch(Catch(Some(Param(e, Pos(12, 46))), [Declare(a1, Pos(12, 58), Initialized)], [Exprs([Call([Argument([Use(e, Pos(14, 38), false)])])])]), Ctx(4, [], []), Tree(tr.scopes + [Scope(BlockBody, Some(4))], tr.events, 1)) == Tree(tr.scopes + [Scope(BlockBody, Some(4))] + [Scope(CatchClause, Some(4))] + [Scope(BlockBody, Some(6))], tr.events + [Declared(6, e, Pos(12, 46), Initialized, [1])] + [Declared(6, a1, Pos(12, 58), Initialized, [1])] + [Referenced(7, e, Pos(14, 38), false, false, [1])] + [OutAssigned(7, [], [1])], 2);
    assert WalkCatches([Catch(Some(Param(e, Pos(12, 46))), [Declare(a1, Pos(12, 58), Initialized)], [Exprs([Call([Argument([Use(e, Pos(14, 38), false)])])])])], Ctx(4, [], []), Tree(tr.scopes + [Scope(BlockBody, Some(4))], tr.events, 1)) == Tree(tr.scopes + [Scope(BlockBody, Some(4))] + [Scope(CatchClause, Some(4))] + [Scope(BlockBody, Some(6))], tr.events + [Declared(6, e, Pos(12, 46), Initialized, [1])] + [Declared(6, a1, Pos(12, 58), Initialized, [1])] + [Referenced(7, e, Pos(14, 38), false, false, [1])] + [OutAssigned(7, [], [1])], 2);
    assert WalkStmt(Try([Exprs([])], [Catch(Some(Param(e, Pos(12, 46))), [Declare(a1, Pos(12, 58), Initialized)], [Exprs([Call([Argument([Use(e, Pos(14, 38), false)])])])])], None), Ctx(4, [], []), tr) == Tree(tr.scopes + [Scope(BlockBody, Some(4))] + [Scope(CatchClause, Some(4))] + [Scope(BlockBody, Some(6))], tr.events + [Declared(6, e, Pos(12, 46), Initialized, [1])] + [Declared(6, a1, Pos(12, 58), Initialized, [1])] + [Referenced(7, e, Pos(14, 38), false, false, [1])] + [OutAssigned(7, [], [1])], 2);
  }

  lemma {:induction false} Walk7(a1: string, e: string, a2: string, b1: string, b2: string, c1: string, c2: string, c3: string, d1: string, tr: Tree)
    requires |tr.scopes| == 8 && tr.arms == 2
    ensures WalkStmt(Exprs([Declare(a2, Pos(17, 13), Initialized)]), Ctx(4, [], []), tr) == Tree(tr.scopes, tr.events + [Declared(4, a2, Pos(17, 13), Initialized, [])], 2)
  {
    WalkExprsOne(Declare(a2, Pos(17, 13), Initialized), Ctx(4, [], []), tr);
    assert WalkExpr(Declare(a2, Pos(17, 13), Initialized), Ctx(4, [], []), tr) == Tree(tr.scopes, tr.events + [Declared(4, a2, Pos(17, 13), Initialized, [])], 2);
    assert WalkExprs([Declare(a2, Pos(17, 13), Initialized)], Ctx(4, [], []), tr) == Tree(tr.scopes, tr.events + [Declared(4, a2, Pos(17, 13), Initialized, [])], 2);
    assert WalkStmt(Exprs([Declare(a2, Pos(17, 13), Initialized)]), Ctx(4, [], []), tr) == Tree(tr.scopes, tr.events + [Declared(4, a2, Pos(17, 13), Initialized, [])], 2);
  }

  lemma {:induction false} Stmts1(a1: string, e: string, a2: string, b1: string, b2: string, c1: string, c2: string, c3: string, d1: string, tr: Tree, rest: seq<Stmt>)
    requires |tr.scopes| == 5 && tr.arms == 0
    ensures WalkStmts([Exprs([Declare(a1, Pos(6, 13), Initialized)])] + ([Exprs([Call([Argument([Use(a1, Pos(7, 34), false)])])])] + ([Try([Exprs([])], [Catch(Some(Param(e, Pos(12, 46))), [Declare(a1, Pos(12, 58), Initialized)], [Exprs([Call([Argument([Use(e, Pos(14, 38), false)])])])])], None)] + ([Exprs([Declare(a2, Pos(17, 13), Initialized)])] + (rest)))), Ctx(4, [], []), tr) == WalkStmts(rest, Ctx(4, [], []), Tree(tr.scopes + [Scope(BlockBody, Some(4))] + [Scope(CatchClause, Some(4))] + [Scope(BlockBody, Some(6))], tr.events + [Declared(4, a1, Pos(6, 13), Initialized, [])] + [Referenced(4, a1, Pos(7, 34), false, false, [])] + [OutAssigned(4, [], [])] + [Declared(6, e, Pos(12, 46), Initialized, [1])] + [Declared(6, a1, Pos(12, 58), Initialized, [1])] + [Referenced(7, e, Pos(14, 38), false, false, [1])] + [OutAssigned(7, [], [1])] + [Declared(4, a2, Pos(17, 13), Initialized, [])], 2))
  {
    WalkStmtsCons(Exprs([Declare(a1, Pos(6, 13), Initialized)]), [Exprs([Call([Argument([Use(a1, Pos(7, 34), false)])])])] + ([Try([Exprs([])], [Catch(Some(Param(e, Pos(12, 46))), [Declare(a1, Pos(12, 58), Initialized)], [Exprs([Call([Argument([Use(e, Pos(14, 38), false)])])])])], None)] + ([Exprs([Declare(a2, Pos(17, 13), Initialized)])] + (rest))), Ctx(4, [], []), tr);
    Walk2(a1, e, a2, b1, b2, c1, c2, c3, d1, tr);
    assert WalkStmt(Exprs([Declare(a1, Pos(6, 13), Initialized)]), Ctx(4, [], []), tr) == Tree(tr.scopes, tr.events + [Declared(4, a1, Pos(6, 13), Initialized, [])], 0);
    WalkStmtsCons(Exprs([Call([Argument([Use(a1, Pos(7, 34), false)])])]), [Try([Exprs([])], [Catch(Some(Param(e, Pos(12, 46))), [Declare(a1, Pos(12, 58), Initialized)], [Exprs([Call([Argument([Use(e, Pos(14, 38), false)])])])])], None)] + ([Exprs([Declare(a2, Pos(17, 13), Initialized)])] + (rest)), Ctx(4, [], []), Tree(tr.scopes, tr.events + [Declared(4, a1, Pos(6, 13), Initialized, [])], 0));
    Walk3(a1, e, a2, b1, b2, c1, c2, c3, d1, Tree(tr.scopes, tr.events + [Declared(4, a1, Pos(6, 13), Initialized, [])], 0));
    assert WalkStmt(Exprs([Call([Argument([Use(a1, Pos(7, 34), false)])])]), Ctx(4, [], []), Tree(tr.scopes, tr.events + [Declared(4, a1, Pos(6, 13), Initialized, [])], 0)) == Tree(tr.scopes, tr.events + [Declared(4, a1, Pos(6, 13), Initialized, [])] + [Referenced(4, a1, Pos(7, 34), false, false, [])] + [OutAssigned(4, [], [])], 0);
    WalkStmtsCons(Try([Exprs([])], [Catch(Some(Param(e, Pos(12, 46))), [Declare(a1, Pos(12, 58), Initialized)], [Exprs([Call([Argument([Use(e, Pos(14, 38), false)])])])])], None), [Exprs([Declare(a2, Pos(17, 13), Initialized)])] + (rest), Ctx(4, [], []), Tree(tr.scopes, tr.events + [Declared(4, a1, Pos(6, 13), Initialized, [])] + [Referenced(4, a1, Pos(7, 34), false, false, [])] + [OutAssigned(4, [], [])], 0));
    Walk4(a1, e, a2, b1, b2, c1, c2, c3, d1, Tree(tr.scopes, tr.events + [Declared(4, a1, Pos(6, 13), Initialized, [])] + [Referenced(4, a1, Pos(7, 34), false, false, [])] + [OutAssigned(4, [], [])], 0));
    assert WalkStmt(Try([Exprs([])], [Catch(Some(Param(e, Pos(12, 46))), [Declare(a1, Pos(12, 58), Initialized)], [Exprs([Call([Argument([Use(e, Pos(14, 38), false)])])])])], None), Ctx(4, [], []), Tree(tr.scopes, tr.events + [Declared(4, a1, Pos(6, 13), Initialized, [])] + [Referenced(4, a1, Pos(7, 34), false, false, [])] + [OutAssigned(4, [], [])], 0)) == Tree(tr.scopes + [Scope(BlockBody, Some(4))] + [Scope(CatchClause, Some(4))] + [Scope(BlockBody, Some(6))], tr.events + [Declared(4, a1, Pos(6, 13), Initialized, [])] + [Referenced(4, a1, Pos(7, 34), false, false, [])] + [OutAssigned(4, [], [])] + [Declared(6, e, Pos(12, 46), Initialized, [1])] + [Declared(6, a1, Pos(12, 58), Initialized, [1])] + [Referenced(7, e, Pos(14, 38), false, false, [1])] + [OutAssigned(7, [], [1])], 2);
    WalkStmtsCons(Exprs([Declare(a2, Pos(17, 13), Initialized)]), rest, Ctx(4, [], []), Tree(tr.scopes + [Scope(BlockBody, Some(4))] + [Scope(CatchClause, Some(4))] + [Scope(BlockBody, Some(6))], tr.events + [Declared(4, a1, Pos(6, 13), Initialized, [])] + [Referenced(4, a1, Pos(7, 34), false, false, [])] + [OutAssigned(4, [], [])] + [Declared(6, e, Pos(12, 46), Initialized, [1])] + [Declared(6, a1, Pos(12, 58), Initialized, [1])] + [Referenced(7, e, Pos(14, 38), false, false, [1])] + [OutAssigned(7, [], [1])], 2));
    Walk7(a1, e, a2, b1, b2, c1, c2, c3, d1, Tree(tr.scopes + [Scope(BlockBody, Some(4))] + [Scope(CatchClause, Some(4))] + [Scope(BlockBody, Some(6))], tr.events + [Declared(4, a1, Pos(6, 13), Initialized, [])] + [Referenced(4, a1, Pos(7, 34), false, false, [])] + [OutAssigned(4, [], [])] + [Declared(6, e, Pos(12, 46), Initialized, [1])] + [Declared(6, a1, Pos(12, 58), Initialized, [1])] + [Referenced(7, e, Pos(14, 38), false, false, [1])] + [OutAssigned(7, [], [1])], 2));
    assert WalkStmt(Exprs([Declare(a2, Pos(17, 13), Initialized)]), Ctx(4, [], []), Tree(tr.scopes + [Scope(BlockBody, Some(4))] + [Scope(CatchClause, Some(4))] + [Scope(BlockBody, Some(6))], tr.events + [Declared(4, a1, Pos(6, 13), Initialized, [])] + [Referenced(4, a1, Pos(7, 34), false, false, [])] + [OutAssigned(4, [], [])] + [Declared(6, e, Pos(12, 46), Initialized, [1])] + [Declared(6, a1, Pos(12, 58), Initialized, [1])] + [Referenced(7, e, Pos(14, 38), false, false, [1])] + [OutAssigned(7, [], [1])], 2)) == Tree(tr.scopes + [Scope(BlockBody, Some(4))] + [Scope(CatchClause, Some(4))] + [Scope(BlockBody, Some(6))], tr.events + [Declared(4, a1, Pos(6, 13), Initialized, [])] + [Referenced(4, a1, Pos(7, 34), false, false, [])] + [OutAssigned(4, [], [])] + [Declared(6, e, Pos(12, 46), Initialized, [1])] + [Declared(6, a1, Pos(12, 58), Initialized, [1])] + [Referenced(7, e, Pos(14, 38), false, false, [1])] + [OutAssigned(7, [], [1])] + [Declared(4, a2, Pos(17, 13), Initialized, [])], 2);
  }

  lemma {:induction false} Walk9(a1: string, e: string, a2: string, b1: string, b2: string, c1: string, c2: string, c3: string, d1: string, tr: Tree)
    requires |tr.scopes| == 8 && tr.arms == 2
    ensures WalkStmt(Exprs([Call([Argument([Use(a2, Pos(18, 34), false)])])]), Ctx(4, [], []), tr) == Tree(tr.scopes, tr.events + [Referenced(4, a2, Pos(18, 34), false, false, [])] + [OutAssigned(4, [], [])], 2)
  {
    WalkExprsOne(Call([Argument([Use(a2, Pos(18, 34), false)])]), Ctx(4, [], []), tr);
    assert OutNames([]) == [];
    WalkArgsOne(Argument([Use(a2, Pos(18, 34), false)]), [], Ctx(4, [], []), tr);
    WalkExprsOne(Use(a2, Pos(18, 34), false), Ctx(4, [], []), tr);
    assert WalkExpr(Use(a2, Pos(18, 34), false), Ctx(4, [], []), tr) == Tree(tr.scopes, tr.events + [Referenced(4, a2, Pos(18, 34), false, false, [])], 2);
    assert WalkExprs([Use(a2, Pos(18, 34), false)], Ctx(4, [], []), tr) == Tree(tr.scopes, tr.events + [Referenced(4, a2, Pos(18, 34), false, false, [])], 2);
    OutNamesOfOne(Use(a2, Pos(18, 34), false));
    OutNamesSnoc([], Argument([Use(a2, Pos(18, 34), false)]));
    assert WalkArgs([Argument([Use(a2, Pos(18, 34), false)])], [], Ctx(4, [], []), tr) == Tree(tr.scopes, tr.events + [Referenced(4, a2, Pos(18, 34), false, false, [])], 2);
    assert OutNames([Argument([Use(a2, Pos(18, 34), false)])]) == [];
    assert WalkExpr(Call([Argument([Use(a2, Pos(18, 34), false)])]), Ctx(4, [], []), tr) == Tree(tr.scopes, tr.events + [Referenced(4, a2, Pos(18, 34), false, false, [])] + [OutAssigned(4, [], [])], 2);
    assert WalkExprs([Call([Argument([Use(a2, Pos(18, 34), false)])])], Ctx(4, [], []), tr) == Tree(tr.scopes, tr.events + [Referenced(4, a2, Pos(18, 34), false, false, [])] + [OutAssigned(4, [], [])], 2);
    assert WalkStmt(Exprs([Call([Argument([Use(a2, Pos(18, 34), false)])])]), Ctx(4, [], []), tr) == Tree(tr.scopes, tr.events + [Referenced(4, a2, Pos(18, 34), false, false, [])] + [OutAssigned(4, [], [])], 2);
  }

  lemma {:induction false} Walk11(a1: string, e: string, a2: string, b1: string, b2: string, c1: string, c2: string, c3: string, d1: string, tr: Tree)
    requires |tr.scopes| == 9 && tr.arms == 3
    ensures WalkStmt(Exprs([]), Ctx(8, [2], []), tr) == Tree(tr.scopes, tr.events, 3)
  {
    assert WalkStmt(Exprs([]), Ctx(8, [2], []), tr) == tr;
  }

  lemma {:induction false} Walk12(a1: string, e: string, a2: string, b1: string, b2: string, c1: string, c2: string, c3: string, d1: string, tr: Tree)
    requires |tr.scopes| == 11 && tr.arms == 4
    ensures WalkStmt(Exprs([Call([Argument([Declare(a2, Pos(25, 42), Initialized)])])]), Ctx(10, [3], []), tr) == Tree(tr.scopes, tr.events + [Declared(10, a2, Pos(25, 42), Initialized, [3])] + [OutAssigned(10, [], [3])], 4)
  {
    WalkExprsOne(Call([Argument([Declare(a2, Pos(25, 42), Initialized)])]), Ctx(10, [3], []), tr);
    assert OutNames([]) == [];
    WalkArgsOne(Argument([Declare(a2, Pos(25, 42), Initialized)]), [], Ctx(10, [3], []), tr);
    WalkExprsOne(Declare(a2, Pos(25, 42), Initialized), Ctx(10, [3], []), tr);
    assert WalkExpr(Declare(a2, Pos(25, 42), Initialized), Ctx(10, [3], []), tr) == Tree(tr.scopes, tr.events + [Declared(10, a2, Pos(25, 42), Initialized, [3])], 4);
    assert WalkExprs([Declare(a2, Pos(25, 42), Initialized)], Ctx(10, [3], []), tr) == Tree(tr.scopes, tr.events + [Declared(10, a2, Pos(25, 42), Initialized, [3])], 4);
    OutNamesOfOne(Declare(a2, Pos(25, 42), Initialized));
    OutNamesSnoc([], Argument([Declare(a2, Pos(25, 42), Initialized)]));
    assert WalkArgs([Argument([Declare(a2, Pos(25, 42), Initialized)])], [], Ctx(10, [3], []), tr) == Tree(tr.scopes, tr.events + [Declared(10, a2, Pos(25, 42), Initialized, [3])], 4);
    assert OutNames([Argument([Declare(a2, Pos(25, 42), Initialized)])]) == [];
    assert WalkExpr(Call([Argument([Declare(a2, Pos(25, 42), Initialized)])]), Ctx(10, [3], []), tr) == Tree(tr.scopes, tr.events + [Declared(10, a2, Pos(25, 42), Initialized, [3])] + [OutAssigned(10, [], [3])], 4);
    assert WalkExprs([Call([Argument([Declare(a2, Pos(25, 42), Initialized)])])], Ctx(10, [3], []), tr) == Tree(tr.scopes, tr.events + [Declared(10, a2, Pos(25, 42), Initialized, [3])] + [OutAssigned(10, [], [3])], 4);
    assert WalkStmt(Exprs([Call([Argument([Declare(a2, Pos(25, 42), Initialized)])])]), Ctx(10, [3], []), tr) == Tree(tr.scopes, tr.events + [Declared(10, a2, Pos(25, 42), Initialized, [3])] + [OutAssigned(10, [], [3])], 4);
  }

  lemma {:induction false} Walk10(a1: string, e: string, a2: string, b1: string, b2: string, c1: string, c2: string, c3: string, d1: string, tr: Tree)
    requires |tr.scopes| == 8 && tr.arms == 2
    ensures WalkStmt(Try([Exprs([])], [Catch(None, [], [Exprs([Call([Argument([Declare(a2, Pos(25, 42), Initialized)])])])])], None), Ctx(4, [], []), tr) == Tree(tr.scopes + [Scope(BlockBody, Some(4))] + [Scope(CatchClause, Some(4))] + [Scope(BlockBody, Some(9))], tr.events + [Declared(10, a2, Pos(25, 42), Initialized, [3])] + [OutAssigned(10, [], [3])], 4)
  {
    assert [] + [2] == [2];
    WalkStmtsOne(Exprs([]), Ctx(8, [2], []), Tree(tr.scopes + [Scope(BlockBody, Some(4))], tr.events, 3));
    Walk11(a1, e, a2, b1, b2, c1, c2, c3, d1, Tree(tr.scopes + [Scope(BlockBody, Some(4))], tr.events, 3));
    assert WalkStmt(Exprs([]), Ctx(8, [2], []), Tree(tr.scopes + [Scope(BlockBody, Some(4))], tr.events, 3)) == Tree(tr.scopes + [Scope(BlockBody, Some(4))], tr.events, 3);
    WalkCatchesOne(Catch(None, [], [Exprs([Call([Argument([Declare(a2, Pos(25, 42), Initialized)])])])]), Ctx(4, [], []), Tree(tr.scopes + [Scope(BlockBody, Some(4))], tr.events, 3));
    assert [] + [3] == [3];
    WalkStmtsOne(Exprs([Call([Argument([Declare(a2, Pos(25, 42), Initialized)])])]), Ctx(10, [3], []), Tree(tr.scopes + [Scope(BlockBody, Some(4))] + [Scope(CatchClause, Some(4))] + [Scope(BlockBody, Some(9))], tr.events, 4));
    Walk12(a1, e, a2, b1, b2, c1, c2, c3, d1, Tree(tr.scopes + [Scope(BlockBody, Some(4))] + [Scope(CatchClause, Some(4))] + [Scope(BlockBody, Some(9))], tr.events, 4));
    assert WalkStmt(Exprs([Call([Argument([Declare(a2, Pos(25, 42), Initialized)])])]), Ctx(10, [3], []), Tree(tr.scopes + [Scope(BlockBody, Some(4))] + [Scope(CatchClause, Some(4))] + [Scope(BlockBody, Some(9))], tr.events, 4)) == Tree(tr.scopes + [Scope(BlockBody, Some(4))] + [Scope(CatchClause, Some(4))] + [Scope(BlockBody, Some(9))], tr.events + [Declared(10, a2, Pos(25, 42), Initialized, [3])] + [OutAssigned(10, [], [3])], 4);
    assert WalkCatch(Catch(None, [], [Exprs([Call([Argument([Declare(a2, Pos(25, 42), Initialized)])])])]), Ctx(4, [], []), Tree(tr.scopes + [Scope(BlockBody, Some(4))], tr.events, 3)) == Tree(tr.scopes + [Scope(BlockBody, Some(4))] + [Scope(CatchClause, Some(4))] + [Scope(BlockBody, Some(9))], tr.events + [Declared(10, a2, Pos(25, 42), Initialized, [3])] + [OutAssigned(10, [], [3])], 4);
    assert WalkCatches([Catch(None, [], [Exprs([Call([Argument([Declare(a2, Pos(25, 42), Initialized)])])])])], Ctx(4, [], []), Tree(tr.scopes + [Scope(BlockBody, Some(4))], tr.events, 3)) == Tree(tr.scopes + [Scope(BlockBody, Some(4))] + [Scope(CatchClause, Some(4))] + [Scope(BlockBody, Some(9))], tr.events + [Declared(10, a2, Pos(25, 42), Initialized, [3])] + [OutAssigned(10, [], [3])], 4);
    assert WalkStmt(Try([Exprs([])], [Catch(None, [], [Exprs([Call([Argument([Declare(a2, Pos(25, 42), Initialized)])])])])], None), Ctx(4, [], []), tr) == Tree(tr.scopes + [Scope(BlockBody, Some(4))] + [Scope(CatchClause, Some(4))] + [Scope(BlockBody, Some(9))], tr.events + [Declared(10, a2, Pos(25, 42), Initialized, [3])] + [OutAssigned(10, [], [3])], 4);
  }

  lemma {:induction false} Walk14(a1: string, e: string, a2: string, b1: string, b2: string, c1: string, c2: string, c3: string, d1: string, tr: Tree)
    requires |tr.scopes| == 12 && tr.arms == 5
    ensures WalkStmt(Exprs([]), Ctx(11, [4], []), tr) == Tree(tr.scopes, tr.events, 5)
  {
    assert WalkStmt(Exprs([]), Ctx(11, [4], []), tr) == tr;
  }

  lemma {:induction false} Walk13(a1: string, e: string, a2: string, b1: string, b2: string, c1: string, c2: string, c3: string, d1: string, tr: Tree)
    requires |tr.scopes| == 11 && tr.arms == 4
    ensures WalkStmt(Try([Exprs([])], [Catch(Some(Param(b1, Pos(32, 46))), [Declare(b1, Pos(32, 59), Initialized)], [])], None), Ctx(4, [], []), tr) == Tree(tr.scopes + [Scope(BlockBody, Some(4))] + [Scope(CatchClause, Some(4))] + [Scope(BlockBody, Some(12))], tr.events + [Declared(12, b1, Pos(32, 46), Initialized, [5])] + [Declared(12, b1, Pos(32, 59), Initialized, [5])], 6)
  {
    assert [] + [4] == [4];
    WalkStmtsOne(Exprs([]), Ctx(11, [4], []), Tree(tr.scopes + [Scope(BlockBody, Some(4))], tr.events, 5));
    Walk14(a1, e, a2, b1, b2, c1, c2, c3, d1, Tree(tr.scopes + [Scope(BlockBody, Some(4))], tr.events, 5));
    assert WalkStmt(Exprs([]), Ctx(11, [4], []), Tree(tr.scopes + [Scope(BlockBody, Some(4))], tr.events, 5)) == Tree(tr.scopes + [Scope(BlockBody, Some(4))], tr.events, 5);
    WalkCatchesOne(Catch(Some(Param(b1, Pos(32, 46))), [Declare(b1, Pos(32, 59), Initialized)], []), Ctx(4, [], []), Tree(tr.scopes + [Scope(BlockBody, Some(4))], tr.events, 5));
    assert [] + [5] == [5];
    WalkExprsOne(Declare(b1, Pos(32, 59), Initialized), Ctx(12, [5], []), Tree(tr.scopes + [Scope(BlockBody, Some(4))] + [Scope(CatchClause, Some(4))], tr.events + [Declared(12, b1, Pos(32, 46), Initialized, [5])], 6));
    assert WalkExpr(Declare(b1, Pos(32, 59), Initialized), Ctx(12, [5], []), Tree(tr.scopes + [Scope(BlockBody, Some(4))] + [Scope(CatchClause, Some(4))], tr.events + [Declared(12, b1, Pos(32, 46), Initialized, [5])], 6)) == Tree(tr.scopes + [Scope(BlockBody, Some(4))] + [Scope(CatchClause, Some(4))], tr.events + [Declared(12, b1, Pos(32, 46), Initialized, [5])] + [Declared(12, b1, Pos(32, 59), Initialized, [5])], 6);
    assert WalkExprs([Declare(b1, Pos(32, 59), Initialized)], Ctx(12, [5], []), Tree(tr.scopes + [Scope(BlockBody, Some(4))] + [Scope(CatchClause, Some(4))], tr.events + [Declared(12, b1, Pos(32, 46), Initialized, [5])], 6)) == Tree(tr.scopes + [Scope(BlockBody, Some(4))] + [Scope(CatchClause, Some(4))], tr.events + [Declared(12, b1, Pos(32, 46), Initialized, [5])] + [Declared(12, b1, Pos(32, 59), Initialized, [5])], 6);
    assert WalkCatch(Catch(Some(Param(b1, Pos(32, 46))), [Declare(b1, Pos(32, 59), Initialized)], []), Ctx(4, [], []), Tree(tr.scopes + [Scope(BlockBody, Some(4))], tr.events, 5)) == Tree(tr.scopes + [Scope(BlockBody, Some(4))] + [Scope(CatchClause, Some(4))] + [Scope(BlockBody, Some(12))], tr.events + [Declared(12, b1, Pos(32, 46), Initialized, [5])] + [Declared(12, b1, Pos(32, 59), Initialized, [5])], 6);
    assert WalkCatches([Catch(Some(Param(b1, Pos(32, 46))), [Declare(b1, Pos(32, 59), Initialized)], [])], Ctx(4, [], []), Tree(tr.scopes + [Scope(BlockBody, Some(4))], tr.events, 5)) == Tree(tr.scopes + [Scope(BlockBody, Some(4))] + [Scope(CatchClause, Some(4))] + [Scope(BlockBody, Some(12))], tr.events + [Declared(12, b1, Pos(32, 46), Initialized, [5])] + [Declared(12, b1, Pos(32, 59), Initialized, [5])], 6);
    assert WalkStmt(Try([Exprs([])], [Catch(Some(Param(b1, Pos(32, 46))), [Declare(b1, Pos(32, 59), Initialized)], [])], None), Ctx(4, [], []), tr) == Tree(tr.scopes + [Scope(BlockBody, Some(4))] + [Scope(CatchClause, Some(4))] + [Scope(BlockBody, Some(12))], tr.events + [Declared(12, b1, Pos(32, 46), Initialized, [5])] + [Declared(12, b1, Pos(32, 59), Initialized, [5])], 6);
  }

  lemma {:induction false} Walk16(a1: string, e: string, a2: string, b1: string, b2: string, c1: string, c2: string, c3: string, d1: string, tr: Tree)
    requires |tr.scopes| == 15 && tr.arms == 7
    ensures WalkStmt(Exprs([]), Ctx(14, [6], []), tr) == Tree(tr.scopes, tr.events, 7)
  {
    assert WalkStmt(Exprs([]), Ctx(14, [6], []), tr) == tr;
  }

  lemma {:induction false} Walk17(a1: string, e: string, a2: string, b1: string, b2: string, c1: string, c2: string, c3: string, d1: string, tr: Tree)
    requires |tr.scopes| == 17 && tr.arms == 8
    ensures WalkStmt(Exprs([Call([Argument([Declare(b2, Pos(42, 42), Initialized)])])]), Ctx(16, [7], []), tr) == Tree(tr.scopes, tr.events + [Declared(16, b2, Pos(42, 42), Initialized, [7])] + [OutAssigned(16, [], [7])], 8)
  {
    WalkExprsOne(Call([Argument([Declare(b2, Pos(42, 42), Initialized)])]), Ctx(16, [7], []), tr);
    assert OutNames([]) == [];
    WalkArgsOne(Argument([Declare(b2, Pos(42, 42), Initialized)]), [], Ctx(16, [7], []), tr);
    WalkExprsOne(Declare(b2, Pos(42, 42), Initialized), Ctx(16, [7], []), tr);
    assert WalkExpr(Declare(b2, Pos(42, 42), Initialized), Ctx(16, [7], []), tr) == Tree(tr.scopes, tr.events + [Declared(16, b2, Pos(42, 42), Initialized, [7])], 8);
    assert WalkExprs([Declare(b2, Pos(42, 42), Initialized)], Ctx(16, [7], []), tr) == Tree(tr.scopes, tr.events + [Declared(16, b2, Pos(42, 42), Initialized, [7])], 8);
    OutNamesOfOne(Declare(b2, Pos(42, 42), Initialized));
    OutNamesSnoc([], Argument([Declare(b2, Pos(42, 42), Initialized)]));
    assert WalkArgs([Argument([Declare(b2, Pos(42, 42), Initialized)])], [], Ctx(16, [7], []), tr) == Tree(tr.scopes, tr.events + [Declared(16, b2, Pos(42, 42), Initialized, [7])], 8);
    assert OutNames([Argument([Declare(b2, Pos(42, 42), Initialized)])]) == [];
    assert WalkExpr(Call([Argument([Declare(b2, Pos(42, 42), Initialized)])]), Ctx(16, [7], []), tr) == Tree(tr.scopes, tr.events + [Declared(16, b2, Pos(42, 42), Initialized, [7])] + [OutAssigned(16, [], [7])], 8);
    assert WalkExprs([Call([Argument([Declare(b2, Pos(42, 42), Initialized)])])], Ctx(16, [7], []), tr) == Tree(tr.scopes, tr.events + [Declared(16, b2, Pos(42, 42), Initialized, [7])] + [OutAssigned(16, [], [7])], 8);
    assert WalkStmt(Exprs([Call([Argument([Declare(b2, Pos(42, 42), Initialized)])])]), Ctx(16, [7], []), tr) == Tree(tr.scopes, tr.events + [Declared(16, b2, Pos(42, 42), Initialized, [7])] + [OutAssigned(16, [], [7])], 8);
  }

  lemma {:induction false} Walk15(a1: string, e: string, a2: string, b1: string, b2: string, c1: string, c2: string, c3: string, d1: string, tr: Tree)
    requires |tr.scopes| == 14 && tr.arms == 6
    ensures WalkStmt(Try([Exprs([])], [Catch(Some(Param(b2, Pos(40, 46))), [], [Exprs([Call([Argument([Declare(b2, Pos(42, 42), Initialized)])])])])], None), Ctx(4, [], []), tr) == Tree(tr.scopes + [Scope(BlockBody, Some(4))] + [Scope(CatchClause, Some(4))] + [Scope(BlockBody, Some(15))], tr.events + [Declared(15, b2, Pos(40, 46), Initialized, [7])] + [Declared(16, b2, Pos(42, 42), Initialized, [7])] + [OutAssigned(16, [], [7])], 8)
  {
    assert [] + [6] == [6];
    WalkStmtsOne(Exprs([]), Ctx(14, [6], []), Tree(tr.scopes + [Scope(BlockBody, Some(4))], tr.events, 7));
    Walk16(a1, e, a2, b1, b2, c1, c2, c3, d1, Tree(tr.scopes + [Scope(BlockBody, Some(4))], tr.events, 7));
    assert WalkStmt(Exprs([]), Ctx(14, [6], []), Tree(tr.scopes + [Scope(BlockBody, Some(4))], tr.events, 7)) == Tree(tr.scopes + [Scope(BlockBody, Some(4))], tr.events, 7);
    WalkCatchesOne(Catch(Some(Param(b2, Pos(40, 46))), [], [Exprs([Call([Argument([Declare(b2, Pos(42, 42), Initialized)])])])]), Ctx(4, [], []), Tree(tr.scopes + [Scope(BlockBody, Some(4))], tr.events, 7));
    assert [] + [7] == [7];
    WalkStmtsOne(Exprs([Call([Argument([Declare(b2, Pos(42, 42), Initialized)])])]), Ctx(16, [7], []), Tree(tr.scopes + [Scope(BlockBody, Some(4))] + [Scope(CatchClause, Some(4))] + [Scope(BlockBody, Some(15))], tr.events + [Declared(15, b2, Pos(40, 46), Initialized, [7])], 8));
    Walk17(a1, e, a2, b1, b2, c1, c2, c3, d1, Tree(tr.scopes + [Scope(BlockBody, Some(4))] + [Scope(CatchClause, Some(4))] + [Scope(BlockBody, Some(15))], tr.events + [Declared(15, b2, Pos(40, 46), Initialized, [7])], 8));
    assert WalkStmt(Exprs([Call([Argument([Declare(b2, Pos(42, 42), Initialized)])])]), Ctx(16, [7], []), Tree(tr.scopes + [Scope(BlockBody, Some(4))] + [Scope(CatchClause, Some(4))] + [Scope(BlockBody, Some(15))], tr.events + [Declared(15, b2, Pos(40, 46), Initialized, [7])], 8)) == Tree(tr.scopes + [Scope(BlockBody, Some(4))] + [Scope(CatchClause, Some(4))] + [Scope(BlockBody, Some(15))], tr.events + [Declared(15, b2, Pos(40, 46), Initialized, [7])] + [Declared(16, b2, Pos(42, 42), Initialized, [7])] + [OutAssigned(16, [], [7])], 8);
    assert WalkCatch(Catch(Some(Param(b2, Pos(40, 46))), [], [Exprs([Call([Argument([Declare(b2, Pos(42, 42), Initialized)])])])]), Ctx(4, [], []), Tree(tr.scopes + [Scope(BlockBody, Some(4))], tr.events, 7)) == Tree(tr.scopes + [Scope(BlockBody, Some(4))] + [Scope(CatchClause, Some(4))] + [Scope(BlockBody, Some(15))], tr.events + [Declared(15, b2, Pos(40, 46), Initialized, [7])] + [Declared(16, b2, Pos(42, 42), Initialized, [7])] + [OutAssigned(16, [], [7])], 8);
    assert WalkCatches([Catch(Some(Param(b2, Pos(40, 46))), [], [Exprs([Call([Argument([Declare(b2, Pos(42, 42), Initialized)])])])])], Ctx(4, [], []), Tree(tr.scopes + [Scope(BlockBody, Some(4))], tr.events, 7)) == Tree(tr.scopes + [Scope(BlockBody, Some(4))] + [Scope(CatchClause, Some(4))] + [Scope(BlockBody, Some(15))], tr.events + [Declared(15, b2, Pos(40, 46), Initialized, [7])] + [Declared(16, b2, Pos(42, 42), Initialized, [7])] + [OutAssigned(16, [], [7])], 8);
    assert WalkStmt(Try([Exprs([])], [Catch(Some(Param(b2, Pos(40, 46))), [], [Exprs([Call([Argument([Declare(b2, Pos(42, 42), Initialized)])])])])], None), Ctx(4, [], []), tr) == Tree(tr.scopes + [Scope(BlockBody, Some(4))] + [Scope(CatchClause, Some(4))] + [Scope(BlockBody, Some(15))], tr.events + [Declared(15, b2, Pos(40, 46), Initialized, [7])] + [Declared(16, b2, Pos(42, 42), Initialized, [7])] + [OutAssigned(16, [], [7])], 8);
  }

  lemma {:induction false} Stmts8(a1: string, e: string, a2: string, b1: string, b2: string, c1: string, c2: string, c3: string, d1: string, tr: Tree, rest: seq<Stmt>)
    requires |tr.scopes| == 8 && tr.arms == 2
    ensures WalkStmts([Exprs([Call([Argument([Use(a2, Pos(18, 34), false)])])])] + ([Try([Exprs([])], [Catch(None, [], [Exprs([Call([Argument([Declare(a2, Pos(25, 42), Initialized)])])])])], None)] + ([Try([Exprs([])], [Catch(Some(Param(b1, Pos(32, 46))), [Declare(b1, Pos(32, 59), Initialized)], [])], None)] + ([Try([Exprs([])], [Catch(Some(Param(b2, Pos(40, 46))), [], [Exprs([Call([Argument([Declare(b2, Pos(42, 42), Initialized)])])])])], None)] + (rest)))), Ctx(4, [], []), tr) == WalkStmts(rest, Ctx(4, [], []), Tree(tr.scopes + [Scope(BlockBody, Some(4))] + [Scope(CatchClause, Some(4))] + [Scope(BlockBody, Some(9))] + [Scope(BlockBody, Some(4))] + [Scope(CatchClause, Some(4))] + [Scope(BlockBody, Some(12))] + [Scope(BlockBody, Some(4))] + [Scope(CatchClause, Some(4))] + [Scope(BlockBody, Some(15))], tr.events + [Referenced(4, a2, Pos(18, 34), false, false, [])] + [OutAssigned(4, [], [])] + [Declared(10, a2, Pos(25, 42), Initialized, [3])] + [OutAssigned(10, [], [3])] + [Declared(12, b1, Pos(32, 46), Initialized, [5])] + [Declared(12, b1, Pos(32, 59), Initialized, [5])] + [Declared(15, b2, Pos(40, 46), Initialized, [7])] + [Declared(16, b2, Pos(42, 42), Initialized, [7])] + [OutAssigned(16, [], [7])], 8))
  {
    WalkStmtsCons(Exprs([Call([Argument([Use(a2, Pos(18, 34), false)])])]), [Try([Exprs([])], [Catch(None, [], [Exprs([Call([Argument([Declare(a2, Pos(25, 42), Initialized)])])])])], None)] + ([Try([Exprs([])], [Catch(Some(Param(b1, Pos(32, 46))), [Declare(b1, Pos(32, 59), Initialized)], [])], None)] + ([Try([Exprs([])], [Catch(Some(Param(b2, Pos(40, 46))), [], [Exprs([Call([Argument([Declare(b2, Pos(42, 42), Initialized)])])])])], None)] + (rest))), Ctx(4, [], []), tr);
    Walk9(a1, e, a2, b1, b2, c1, c2, c3, d1, tr);
    assert WalkStmt(Exprs([Call([Argument([Use(a2, Pos(18, 34), false)])])]), Ctx(4, [], []), tr) == Tree(tr.scopes, tr.events + [Referenced(4, a2, Pos(18, 34), false, false, [])] + [OutAssigned(4, [], [])], 2);
    WalkStmtsCons(Try([Exprs([])], [Catch(None, [], [Exprs([Call([Argument([Declare(a2, Pos(25, 42), Initialized)])])])])], None), [Try([Exprs([])], [Catch(Some(Param(b1, Pos(32, 46))), [Declare(b1, Pos(32, 59), Initialized)], [])], None)] + ([Try([Exprs([])], [Catch(Some(Param(b2, Pos(40, 46))), [], [Exprs([Call([Argument([Declare(b2, Pos(42, 42), Initialized)])])])])], None)] + (rest)), Ctx(4, [], []), Tree(tr.scopes, tr.events + [Referenced(4, a2, Pos(18, 34), false, false, [])] + [OutAssigned(4, [], [])], 2));
    Walk10(a1, e, a2, b1, b2, c1, c2, c3, d1, Tree(tr.scopes, tr.events + [Referenced(4, a2, Pos(18, 34), false, false, [])] + [OutAssigned(4, [], [])], 2));
    assert WalkStmt(Try([Exprs([])], [Catch(None, [], [Exprs([Call([Argument([Declare(a2, Pos(25, 42), Initialized)])])])])], None), Ctx(4, [], []), Tree(tr.scopes, tr.events + [Referenced(4, a2, Pos(18, 34), false, false, [])] + [OutAssigned(4, [], [])], 2)) == Tree(tr.scopes + [Scope(BlockBody, Some(4))] + [Scope(CatchClause, Some(4))] + [Scope(BlockBody, Some(9))], tr.events + [Referenced(4, a2, Pos(18, 34), false, false, [])] + [OutAssigned(4, [], [])] + [Declared(10, a2, Pos(25, 42), Initialized, [3])] + [OutAssigned(10, [], [3])], 4);
    WalkStmtsCons(Try([Exprs([])], [Catch(Some(Param(b1, Pos(32, 46))), [Declare(b1, Pos(32, 59), Initialized)], [])], None), [Try([Exprs([])], [Catch(Some(Param(b2, Pos(40, 46))), [], [Exprs([Call([Argument([Declare(b2, Pos(42, 42), Initialized)])])])])], None)] + (rest), Ctx(4, [], []), Tree(tr.scopes + [Scope(BlockBody, Some(4))] + [Scope(CatchClause, Some(4))] + [Scope(BlockBody, Some(9))], tr.events + [Referenced(4, a2, Pos(18, 34), false, false, [])] + [OutAssigned(4, [], [])] + [Declared(10, a2, Pos(25, 42), Initialized, [3])] + [OutAssigned(10, [], [3])], 4));
    Walk13(a1, e, a2, b1, b2, c1, c2, c3, d1, Tree(tr.scopes + [Scope(BlockBody, Some(4))] + [Scope(CatchClause, Some(4))] + [Scope(BlockBody, Some(9))], tr.events + [Referenced(4, a2, Pos(18, 34), false, false, [])] + [OutAssigned(4, [], [])] + [Declared(10, a2, Pos(25, 42), Initialized, [3])] + [OutAssigned(10, [], [3])], 4));
    assert WalkStmt(Try([Exprs([])], [Catch(Some(Param(b1, Pos(32, 46))), [Declare(b1, Pos(32, 59), Initialized)], [])], None), Ctx(4, [], []), Tree(tr.scopes + [Scope(BlockBody, Some(4))] + [Scope(CatchClause, Some(4))] + [Scope(BlockBody, Some(9))], tr.events + [Referenced(4, a2, Pos(18, 34), false, false, [])] + [OutAssigned(4, [], [])] + [Declared(10, a2, Pos(25, 42), Initialized, [3])] + [OutAssigned(10, [], [3])], 4)) == Tree(tr.scopes + [Scope(BlockBody, Some(4))] + [Scope(CatchClause, Some(4))] + [Scope(BlockBody, Some(9))] + [Scope(BlockBody, Some(4))] + [Scope(CatchClause, Some(4))] + [Scope(BlockBody, Some(12))], tr.events + [Referenced(4, a2, Pos(18, 34), false, false, [])] + [OutAssigned(4, [], [])] + [Declared(10, a2, Pos(25, 42), Initialized, [3])] + [OutAssigned(10, [], [3])] + [Declared(12, b1, Pos(32, 46), Initialized, [5])] + [Declared(12, b1, Pos(32, 59), Initialized, [5])], 6);
    WalkStmtsCons(Try([Exprs([])], [Catch(Some(Param(b2, Pos(40, 46))), [], [Exprs([Call([Argument([Declare(b2, Pos(42, 42), Initialized)])])])])], None), rest, Ctx(4, [], []), Tree(tr.scopes + [Scope(BlockBody, Some(4))] + [Scope(CatchClause, Some(4))] + [Scope(BlockBody, Some(9))] + [Scope(BlockBody, Some(4))] + [Scope(CatchClause, Some(4))] + [Scope(BlockBody, Some(12))], tr.events + [Referenced(4, a2, Pos(18, 34), false, false, [])] + [OutAssigned(4, [], [])] + [Declared(10, a2, Pos(25, 42), Initialized, [3])] + [OutAssigned(10, [], [3])] + [Declared(12, b1, Pos(32, 46), Initialized, [5])] + [Declared(12, b1, Pos(32, 59), Initialized, [5])], 6));
    Walk15(a1, e, a2, b1, b2, c1, c2, c3, d1, Tree(tr.scopes + [Scope(BlockBody, Some(4))] + [Scope(CatchClause, Some(4))] + [Scope(BlockBody, Some(9))] + [Scope(BlockBody, Some(4))] + [Scope(CatchClause, Some(4))] + [Scope(BlockBody, Some(12))], tr.events + [Referenced(4, a2, Pos(18, 34), false, false, [])] + [OutAssigned(4, [], [])] + [Declared(10, a2, Pos(25, 42), Initialized, [3])] + [OutAssigned(10, [], [3])] + [Declared(12, b1, Pos(32, 46), Initialized, [5])] + [Declared(12, b1, Pos(32, 59), Initialized, [5])], 6));
    assert WalkStmt(Try([Exprs([])], [Catch(Some(Param(b2, Pos(40, 46))), [], [Exprs([Call([Argument([Declare(b2, Pos(42, 42), Initialized)])])])])], None), Ctx(4, [], []), Tree(tr.scopes + [Scope(BlockBody, Some(4))] + [Scope(CatchClause, Some(4))] + [Scope(BlockBody, Some(9))] + [Scope(BlockBody, Some(4))] + [Scope(CatchClause, Some(4))] + [Scope(BlockBody, Some(12))], tr.events + [Referenced(4, a2, Pos(18, 34), false, false, [])] + [OutAssigned(4, [], [])] + [Declared(10, a2, Pos(25, 42), Initialized, [3])] + [OutAssigned(10, [], [3])] + [Declared(12, b1, Pos(32, 46), Initialized, [5])] + [Declared(12, b1, Pos(32, 59), Initialized, [5])], 6)) == Tree(tr.scopes + [Scope(BlockBody, Some(4))] + [Scope(CatchClause, Some(4))] + [Scope(BlockBody, Some(9))] + [Scope(BlockBody, Some(4))] + [Scope(CatchClause, Some(4))] + [Scope(BlockBody, Some(12))] + [Scope(BlockBody, Some(4))] + [Scope(CatchClause, Some(4))] + [Scope(BlockBody, Some(15))], tr.events + [Referenced(4, a2, Pos(18, 34), false, false, [])] + [OutAssigned(4, [], [])] + [Declared(10, a2, Pos(25, 42), Initialized, [3])] + [OutAssigned(10, [], [3])] + [Declared(12, b1, Pos(32, 46), Initialized, [5])] + [Declared(12, b1, Pos(32, 59), Initialized, [5])] + [Declared(15, b2, Pos(40, 46), Initialized, [7])] + [Declared(16, b2, Pos(42, 42), Initialized, [7])] + [OutAssigned(16, [], [7])], 8);
  }

  lemma {:induction false} Walk20(a1: string, e: string, a2: string, b1: string, b2: string, c1: string, c2: string, c3: string, d1: string, tr: Tree)
    requires |tr.scopes| == 18 && tr.arms == 9
    ensures WalkStmt(Exprs([]), Ctx(17, [8], []), tr) == Tree(tr.scopes, tr.events, 9)
  {
    assert WalkStmt(Exprs([]), Ctx(17, [8], []), tr) == tr;
  }

  lemma {:induction false} Walk19(a1: string, e: string, a2: string, b1: string, b2: string, c1: string, c2: string, c3: string, d1: string, tr: Tree)
    requires |tr.scopes| == 17 && tr.arms == 8
    ensures WalkStmt(Try([Exprs([])], [Catch(None, [Declare(c1, Pos(49, 57), Initialized)] + ([Declare(c1, Pos(49, 78), Initialized)]), [])], None), Ctx(4, [], []), tr) == Tree(tr.scopes + [Scope(BlockBody, Some(4))] + [Scope(CatchClause, Some(4))] + [Scope(BlockBody, Some(18))], tr.events + [Declared(18, c1, Pos(49, 57), Initialized, [9])] + [Declared(18, c1, Pos(49, 78), Initialized, [9])], 10)
  {
    assert [] + [8] == [8];
    WalkStmtsOne(Exprs([]), Ctx(17, [8], []), Tree(tr.scopes + [Scope(BlockBody, Some(4))], tr.events, 9));
    Walk20(a1, e, a2, b1, b2, c1, c2, c3, d1, Tree(tr.scopes + [Scope(BlockBody, Some(4))], tr.events, 9));
    assert WalkStmt(Exprs([]), Ctx(17, [8], []), Tree(tr.scopes + [Scope(BlockBody, Some(4))], tr.events, 9)) == Tree(tr.scopes + [Scope(BlockBody, Some(4))], tr.events, 9);
    WalkCatchesOne(Catch(None, [Declare(c1, Pos(49, 57), Initialized)] + ([Declare(c1, Pos(49, 78), Initialized)]), []), Ctx(4, [], []), Tree(tr.scopes + [Scope(BlockBody, Some(4))], tr.events, 9));
    assert [] + [9] == [9];
    WalkExprsCons(Declare(c1, Pos(49, 57), Initialized), [Declare(c1, Pos(49, 78), Initialized)], Ctx(18, [9], []), Tree(tr.scopes + [Scope(BlockBody, Some(4))] + [Scope(CatchClause, Some(4))], tr.events, 10));
    assert WalkExpr(Declare(c1, Pos(49, 57), Initialized), Ctx(18, [9], []), Tree(tr.scopes + [Scope(BlockBody, Some(4))] + [Scope(CatchClause, Some(4))], tr.events, 10)) == Tree(tr.scopes + [Scope(BlockBody, Some(4))] + [Scope(CatchClause, Some(4))], tr.events + [Declared(18, c1, Pos(49, 57), Initialized, [9])], 10);
    WalkExprsOne(Declare(c1, Pos(49, 78), Initialized), Ctx(18, [9], []), Tree(tr.scopes + [Scope(BlockBody, Some(4))] + [Scope(CatchClause, Some(4))], tr.events + [Declared(18, c1, Pos(49, 57), Initialized, [9])], 10));
    assert WalkExpr(Declare(c1, Pos(49, 78), Initialized), Ctx(18, [9], []), Tree(tr.scopes + [Scope(BlockBody, Some(4))] + [Scope(CatchClause, Some(4))], tr.events + [Declared(18, c1, Pos(49, 57), Initialized, [9])], 10)) == Tree(tr.scopes + [Scope(BlockBody, Some(4))] + [Scope(CatchClause, Some(4))], tr.events + [Declared(18, c1, Pos(49, 57), Initialized, [9])] + [Declared(18, c1, Pos(49, 78), Initialized, [9])], 10);
    assert WalkExprs([Declare(c1, Pos(49, 57), Initialized)] + ([Declare(c1, Pos(49, 78), Initialized)]), Ctx(18, [9], []), Tree(tr.scopes + [Scope(BlockBody, Some(4))] + [Scope(CatchClause, Some(4))], tr.events, 10)) == Tree(tr.scopes + [Scope(BlockBody, Some(4))] + [Scope(CatchClause, Some(4))], tr.events + [Declared(18, c1, Pos(49, 57), Initialized, [9])] + [Declared(18, c1, Pos(49, 78), Initialized, [9])], 10);
    assert WalkCatch(Catch(None, [Declare(c1, Pos(49, 57), Initialized)] + ([Declare(c1, Pos(49, 78), Initialized)]), []), Ctx(4, [], []), Tree(tr.scopes + [Scope(BlockBody, Some(4))], tr.events, 9)) == Tree(tr.scopes + [Scope(BlockBody, Some(4))] + [Scope(CatchClause, Some(4))] + [Scope(BlockBody, Some(18))], tr.events + [Declared(18, c1, Pos(49, 57), Initialized, [9])] + [Declared(18, c1, Pos(49, 78), Initialized, [9])], 10);
    assert WalkCatches([Catch(None, [Declare(c1, Pos(49, 57), Initialized)] + ([Declare(c1, Pos(49, 78), Initialized)]), [])], Ctx(4, [], []), Tree(tr.scopes + [Scope(BlockBody, Some(4))], tr.events, 9)) == Tree(tr.scopes + [Scope(BlockBody, Some(4))] + [Scope(CatchClause, Some(4))] + [Scope(BlockBody, Some(18))], tr.events + [Declared(18, c1, Pos(49, 57), Initialized, [9])] + [Declared(18, c1, Pos(49, 78), Initialized, [9])], 10);
    assert WalkStmt(Try([Exprs([])], [Catch(None, [Declare(c1, Pos(49, 57), Initialized)] + ([Declare(c1, Pos(49, 78), Initialized)]), [])], None), Ctx(4, [], []), tr) == Tree(tr.scopes + [Scope(BlockBody, Some(4))] + [Scope(CatchClause, Some(4))] + [Scope(BlockBody, Some(18))], tr.events + [Declared(18, c1, Pos(49, 57), Initialized, [9])] + [Declared(18, c1, Pos(49, 78), Initialized, [9])], 10);
  }

  lemma {:induction false} Walk22(a1: string, e: string, a2: string, b1: string, b2: string, c1: string, c2: string, c3: string, d1: string, tr: Tree)
    requires |tr.scopes| == 21 && tr.arms == 11
    ensures WalkStmt(Exprs([]), Ctx(20, [10], []), tr) == Tree(tr.scopes, tr.events, 11)
  {
    assert WalkStmt(Exprs([]), Ctx(20, [10], []), tr) == tr;
  }

  lemma {:induction false} Walk23(a1: string, e: string, a2: string, b1: string, b2: string, c1: string, c2: string, c3: string, d1: string, tr: Tree)
    requires |tr.scopes| == 23 && tr.arms == 12
    ensures WalkStmt(Exprs([Call([Argument([Declare(c2, Pos(59, 42), Initialized)])])]), Ctx(22, [11], []), tr) == Tree(tr.scopes, tr.events + [Declared(22, c2, Pos(59, 42), Initialized, [11])] + [OutAssigned(22, [], [11])], 12)
  {
    WalkExprsOne(Call([Argument([Declare(c2, Pos(59, 42), Initialized)])]), Ctx(22, [11], []), tr);
    assert OutNames([]) == [];
    WalkArgsOne(Argument([Declare(c2, Pos(59, 42), Initialized)]), [], Ctx(22, [11], []), tr);
    WalkExprsOne(Declare(c2, Pos(59, 42), Initialized), Ctx(22, [11], []), tr);
    assert WalkExpr(Declare(c2, Pos(59, 42), Initialized), Ctx(22, [11], []), tr) == Tree(tr.scopes, tr.events + [Declared(22, c2, Pos(59, 42), Initialized, [11])], 12);
    assert WalkExprs([Declare(c2, Pos(59, 42), Initialized)], Ctx(22, [11], []), tr) == Tree(tr.scopes, tr.events + [Declared(22, c2, Pos(59, 42), Initialized, [11])], 12);
    OutNamesOfOne(Declare(c2, Pos(59, 42), Initialized));
    OutNamesSnoc([], Argument([Declare(c2, Pos(59, 42), Initialized)]));
    assert WalkArgs([Argument([Declare(c2, Pos(59, 42), Initialized)])], [], Ctx(22, [11], []), tr) == Tree(tr.scopes, tr.events + [Declared(22, c2, Pos(59, 42), Initialized, [11])], 12);
    assert OutNames([Argument([Declare(c2, Pos(59, 42), Initialized)])]) == [];
    assert WalkExpr(Call([Argument([Declare(c2, Pos(59, 42), Initialized)])]), Ctx(22, [11], []), tr) == Tree(tr.scopes, tr.events + [Declared(22, c2, Pos(59, 42), Initialized, [11])] + [OutAssigned(22, [], [11])], 12);
    assert WalkExprs([Call([Argument([Declare(c2, Pos(59, 42), Initialized)])])], Ctx(22, [11], []), tr) == Tree(tr.scopes, tr.events + [Declared(22, c2, Pos(59, 42), Initialized, [11])] + [OutAssigned(22, [], [11])], 12);
    assert WalkStmt(Exprs([Call([Argument([Declare(c2, Pos(59, 42), Initialized)])])]), Ctx(22, [11], []), tr) == Tree(tr.scopes, tr.events + [Declared(22, c2, Pos(59, 42), Initialized, [11])] + [OutAssigned(22, [], [11])], 12);
  }

  lemma {:induction false} Walk21(a1: string, e: string, a2: string, b1: string, b2: string, c1: string, c2: string, c3: string, d1: string, tr: Tree)
    requires |tr.scopes| == 20 && tr.arms == 10
    ensures WalkStmt(Try([Exprs([])], [Catch(None, [Declare(c2, Pos(57, 56), Initialized)], [Exprs([Call([Argument([Declare(c2, Pos(59, 42), Initialized)])])])])], None), Ctx(4, [], []), tr) == Tree(tr.scopes + [Scope(BlockBody, Some(4))] + [Scope(CatchClause, Some(4))] + [Scope(BlockBody, Some(21))], tr.events + [Declared(21, c2, Pos(57, 56), Initialized, [11])] + [Declared(22, c2, Pos(59, 42), Initialized, [11])] + [OutAssigned(22, [], [11])], 12)
  {
    assert [] + [10] == [10];
    WalkStmtsOne(Exprs([]), Ctx(20, [10], []), Tree(tr.scopes + [Scope(BlockBody, Some(4))], tr.events, 11));
    Walk22(a1, e, a2, b1, b2, c1, c2, c3, d1, Tree(tr.scopes + [Scope(BlockBody, Some(4))], tr.events, 11));
    assert WalkStmt(Exprs([]), Ctx(20, [10], []), Tree(tr.scopes + [Scope(BlockBody, Some(4))], tr.events, 11)) == Tree(tr.scopes + [Scope(BlockBody, Some(4))], tr.events, 11);
    WalkCatchesOne(Catch(None, [Declare(c2, Pos(57, 56), Initialized)], [Exprs([Call([Argument([Declare(c2, Pos(59, 42), Initialized)])])])]), Ctx(4, [], []), Tree(tr.scopes + [Scope(BlockBody, Some(4))], tr.events, 11));
    assert [] + [11] == [11];
    WalkExprsOne(Declare(c2, Pos(57, 56), Initialized), Ctx(21, [11], []), Tree(tr.scopes + [Scope(BlockBody, Some(4))] + [Scope(CatchClause, Some(4))], tr.events, 12));
    assert WalkExpr(Declare(c2, Pos(57, 56), Initialized), Ctx(21, [11], []), Tree(tr.scopes + [Scope(BlockBody, Some(4))] + [Scope(CatchClause, Some(4))], tr.events, 12)) == Tree(tr.scopes + [Scope(BlockBody, Some(4))] + [Scope(CatchClause, Some(4))], tr.events + [Declared(21, c2, Pos(57, 56), Initialized, [11])], 12);
    assert WalkExprs([Declare(c2, Pos(57, 56), Initialized)], Ctx(21, [11], []), Tree(tr.scopes + [Scope(BlockBody, Some(4))] + [Scope(CatchClause, Some(4))], tr.events, 12)) == Tree(tr.scopes + [Scope(BlockBody, Some(4))] + [Scope(CatchClause, Some(4))], tr.events + [Declared(21, c2, Pos(57, 56), Initialized, [11])], 12);
    WalkStmtsOne(Exprs([Call([Argument([Declare(c2, Pos(59, 42), Initialized)])])]), Ctx(22, [11], []), Tree(tr.scopes + [Scope(BlockBody, Some(4))] + [Scope(CatchClause, Some(4))] + [Scope(BlockBody, Some(21))], tr.events + [Declared(21, c2, Pos(57, 56), Initialized, [11])], 12));
    Walk23(a1, e, a2, b1, b2, c1, c2, c3, d1, Tree(tr.scopes + [Scope(BlockBody, Some(4))] + [Scope(CatchClause, Some(4))] + [Scope(BlockBody, Some(21))], tr.events + [Declared(21, c2, Pos(57, 56), Initialized, [11])], 12));
    assert WalkStmt(Exprs([Call([Argument([Declare(c2, Pos(59, 42), Initialized)])])]), Ctx(22, [11], []), Tree(tr.scopes + [Scope(BlockBody, Some(4))] + [Scope(CatchClause, Some(4))] + [Scope(BlockBody, Some(21))], tr.events + [Declared(21, c2, Pos(57, 56), Initialized, [11])], 12)) == Tree(tr.scopes + [Scope(BlockBody, Some(4))] + [Scope(CatchClause, Some(4))] + [Scope(BlockBody, Some(21))], tr.events + [Declared(21, c2, Pos(57, 56), Initialized, [11])] + [Declared(22, c2, Pos(59, 42), Initialized, [11])] + [OutAssigned(22, [], [11])], 12);
    assert WalkCatch(Catch(None, [Declare(c2, Pos(57, 56), Initialized)], [Exprs([Call([Argument([Declare(c2, Pos(59, 42), Initialized)])])])]), Ctx(4, [], []), Tree(tr.scopes + [Scope(BlockBody, Some(4))], tr.events, 11)) == Tree(tr.scopes + [Scope(BlockBody, Some(4))] + [Scope(CatchClause, Some(4))] + [Scope(BlockBody, Some(21))], tr.events + [Declared(21, c2, Pos(57, 56), Initialized, [11])] + [Declared(22, c2, Pos(59, 42), Initialized, [11])] + [OutAssigned(22, [], [11])], 12);
    assert WalkCatches([Catch(None, [Declare(c2, Pos(57, 56), Initialized)], [Exprs([Call([Argument([Declare(c2, Pos(59, 42), Initialized)])])])])], Ctx(4, [], []), Tree(tr.scopes + [Scope(BlockBody, Some(4))], tr.events, 11)) == Tree(tr.scopes + [Scope(BlockBody, Some(4))] + [Scope(CatchClause, Some(4))] + [Scope(BlockBody, Some(21))], tr.events + [Declared(21, c2, Pos(57, 56), Initialized, [11])] + [Declared(22, c2, Pos(59, 42), Initialized, [11])] + [OutAssigned(22, [], [11])], 12);
    assert WalkStmt(Try([Exprs([])], [Catch(None, [Declare(c2, Pos(57, 56), Initialized)], [Exprs([Call([Argument([Declare(c2, Pos(59, 42), Initialized)])])])])], None), Ctx(4, [], []), tr) == Tree(tr.scopes + [Scope(BlockBody, Some(4))] + [Scope(CatchClause, Some(4))] + [Scope(BlockBody, Some(21))], tr.events + [Declared(21, c2, Pos(57, 56), Initialized, [11])] + [Declared(22, c2, Pos(59, 42), Initialized, [11])] + [OutAssigned(22, [], [11])], 12);
  }

  lemma {:induction false} Walk25(a1: string, e: string, a2: string, b1: string, b2: string, c1: string, c2: string, c3: string, d1: string, tr: Tree)
    requires |tr.scopes| == 24 && tr.arms == 13
    ensures WalkStmt(Exprs([]), Ctx(23, [12], []), tr) == Tree(tr.scopes, tr.events, 13)
  {
    assert WalkStmt(Exprs([]), Ctx(23, [12], []), tr) == tr;
  }

  lemma {:induction false} Walk26(a1: string, e: string, a2: string, b1: string, b2: string, c1: string, c2: string, c3: string, d1: string, tr: Tree)
    requires |tr.scopes| == 26 && tr.arms == 14
    ensures WalkStmt(Exprs([Declare(c3, Pos(68, 17), Initialized)]), Ctx(25, [13], []), tr) == Tree(tr.scopes, tr.events + [Declared(25, c3, Pos(68, 17), Initialized, [13])], 14)
  {
    WalkExprsOne(Declare(c3, Pos(68, 17), Initialized), Ctx(25, [13], []), tr);
    assert WalkExpr(Declare(c3, Pos(68, 17), Initialized), Ctx(25, [13], []), tr) == Tree(tr.scopes, tr.events + [Declared(25, c3, Pos(68, 17), Initialized, [13])], 14);
    assert WalkExprs([Declare(c3, Pos(68, 17), Initialized)], Ctx(25, [13], []), tr) == Tree(tr.scopes, tr.events + [Declared(25, c3, Pos(68, 17), Initialized, [13])], 14);
    assert WalkStmt(Exprs([Declare(c3, Pos(68, 17), Initialized)]), Ctx(25, [13], []), tr) == Tree(tr.scopes, tr.events + [Declared(25, c3, Pos(68, 17), Initialized, [13])], 14);
  }

  lemma {:induction false} Walk27(a1: string, e: string, a2: string, b1: string, b2: string, c1: string, c2: string, c3: string, d1: string, tr: Tree)
    requires |tr.scopes| == 26 && tr.arms == 14
    ensures WalkStmt(Exprs([Call([Argument([Use(c3, Pos(69, 38), false)])])]), Ctx(25, [13], []), tr) == Tree(tr.scopes, tr.events + [Referenced(25, c3, Pos(69, 38), false, false, [13])] + [OutAssigned(25, [], [13])], 14)
  {
    WalkExprsOne(Call([Argument([Use(c3, Pos(69, 38), false)])]), Ctx(25, [13], []), tr);
    assert OutNames([]) == [];
    WalkArgsOne(Argument([Use(c3, Pos(69, 38), false)]), [], Ctx(25, [13], []), tr);
    WalkExprsOne(Use(c3, Pos(69, 38), false), Ctx(25, [13], []), tr);
    assert WalkExpr(Use(c3, Pos(69, 38), false), Ctx(25, [13], []), tr) == Tree(tr.scopes, tr.events + [Referenced(25, c3, Pos(69, 38), false, false, [13])], 14);
    assert WalkExprs([Use(c3, Pos(69, 38), false)], Ctx(25, [13], []), tr) == Tree(tr.scopes, tr.events + [Referenced(25, c3, Pos(69, 38), false, false, [13])], 14);
    OutNamesOfOne(Use(c3, Pos(69, 38), false));
    OutNamesSnoc([], Argument([Use(c3, Pos(69, 38), false)]));
    assert WalkArgs([Argument([Use(c3, Pos(69, 38), false)])], [], Ctx(25, [13], []), tr) == Tree(tr.scopes, tr.events + [Referenced(25, c3, Pos(69, 38), false, false, [13])], 14);
    assert OutNames([Argument([Use(c3, Pos(69, 38), false)])]) == [];
    assert WalkExpr(Call([Argument([Use(c3, Pos(69, 38), false)])]), Ctx(25, [13], []), tr) == Tree(tr.scopes, tr.events + [Referenced(25, c3, Pos(69, 38), false, false, [13])] + [OutAssigned(25, [], [13])], 14);
    assert WalkExprs([Call([Argument([Use(c3, Pos(69, 38), false)])])], Ctx(25, [13], []), tr) == Tree(tr.scopes, tr.events + [Referenced(25, c3, Pos(69, 38), false, false, [13])] + [OutAssigned(25, [], [13])], 14);
    assert WalkStmt(Exprs([Call([Argument([Use(c3, Pos(69, 38), false)])])]), Ctx(25, [13], []), tr) == Tree(tr.scopes, tr.events + [Referenced(25, c3, Pos(69, 38), false, false, [13])] + [OutAssigned(25, [], [13])], 14);
  }

  lemma {:induction false} Walk24(a1: string, e: string, a2: string, b1: string, b2: string, c1: string, c2: string, c3: string, d1: string, tr: Tree)
    requires |tr.scopes| == 23 && tr.arms == 12
    ensures WalkStmt(Try([Exprs([])], [Catch(None, [Declare(c3, Pos(66, 56), Initialized)], [Exprs([Declare(c3, Pos(68, 17), Initialized)])] + ([Exprs([Call([Argument([Use(c3, Pos(69, 38), false)])])])]))], None), Ctx(4, [], []), tr) == Tree(tr.scopes + [Scope(BlockBody, Some(4))] + [Scope(CatchClause, Some(4))] + [Scope(BlockBody, Some(24))], tr.events + [Declared(24, c3, Pos(66, 56), Initialized, [13])] + [Declared(25, c3, Pos(68, 17), Initialized, [13])] + [Referenced(25, c3, Pos(69, 38), false, false, [13])] + [OutAssigned(25, [], [13])], 14)
  {
    assert [] + [12] == [12];
    WalkStmtsOne(Exprs([]), Ctx(23, [12], []), Tree(tr.scopes + [Scope(BlockBody, Some(4))], tr.events, 13));
    Walk25(a1, e, a2, b1, b2, c1, c2, c3, d1, Tree(tr.scopes + [Scope(BlockBody, Some(4))], tr.events, 13));
    assert WalkStmt(Exprs([]), Ctx(23, [12], []), Tree(tr.scopes + [Scope(BlockBody, Some(4))], tr.events, 13)) == Tree(tr.scopes + [Scope(BlockBody, Some(4))], tr.events, 13);
    WalkCatchesOne(Catch(None, [Declare(c3, Pos(66, 56), Initialized)], [Exprs([Declare(c3, Pos(68, 17), Initialized)])] + ([Exprs([Call([Argument([Use(c3, Pos(69, 38), false)])])])])), Ctx(4, [], []), Tree(tr.scopes + [Scope(BlockBody, Some(4))], tr.events, 13));
    assert [] + [13] == [13];
    WalkExprsOne(Declare(c3, Pos(66, 56), Initialized), Ctx(24, [13], []), Tree(tr.scopes + [Scope(BlockBody, Some(4))] + [Scope(CatchClause, Some(4))], tr.events, 14));
    assert WalkExpr(Declare(c3, Pos(66, 56), Initialized), Ctx(24, [13], []), Tree(tr.scopes + [Scope(BlockBody, Some(4))] + [Scope(CatchClause, Some(4))], tr.events, 14)) == Tree(tr.scopes + [Scope(BlockBody, Some(4))] + [Scope(CatchClause, Some(4))], tr.events + [Declared(24, c3, Pos(66, 56), Initialized, [13])], 14);
    assert WalkExprs([Declare(c3, Pos(66, 56), Initialized)], Ctx(24, [13], []), Tree(tr.scopes + [Scope(BlockBody, Some(4))] + [Scope(CatchClause, Some(4))], tr.events, 14)) == Tree(tr.scopes + [Scope(BlockBody, Some(4))] + [Scope(CatchClause, Some(4))], tr.events + [Declared(24, c3, Pos(66, 56), Initialized, [13])], 14);
    WalkStmtsCons(Exprs([Declare(c3, Pos(68, 17), Initialized)]), [Exprs([Call([Argument([Use(c3, Pos(69, 38), false)])])])], Ctx(25, [13], []), Tree(tr.scopes + [Scope(BlockBody, Some(4))] + [Scope(CatchClause, Some(4))] + [Scope(BlockBody, Some(24))], tr.events + [Declared(24, c3, Pos(66, 56), Initialized, [13])], 14));
    Walk26(a1, e, a2, b1, b2, c1, c2, c3, d1, Tree(tr.scopes + [Scope(BlockBody, Some(4))] + [Scope(CatchClause, Some(4))] + [Scope(BlockBody, Some(24))], tr.events + [Declared(24, c3, Pos(66, 56), Initialized, [13])], 14));
    assert WalkStmt(Exprs([Declare(c3, Pos(68, 17), Initialized)]), Ctx(25, [13], []), Tree(tr.scopes + [Scope(BlockBody, Some(4))] + [Scope(CatchClause, Some(4))] + [Scope(BlockBody, Some(24))], tr.events + [Declared(24, c3, Pos(66, 56), Initialized, [13])], 14)) == Tree(tr.scopes + [Scope(BlockBody, Some(4))] + [Scope(CatchClause, Some(4))] + [Scope(BlockBody, Some(24))], tr.events + [Declared(24, c3, Pos(66, 56), Initialized, [13])] + [Declared(25, c3, Pos(68, 17), Initialized, [13])], 14);
    WalkStmtsOne(Exprs([Call([Argument([Use(c3, Pos(69, 38), false)])])]), Ctx(25, [13], []), Tree(tr.scopes + [Scope(BlockBody, Some(4))] + [Scope(CatchClause, Some(4))] + [Scope(BlockBody, Some(24))], tr.events + [Declared(24, c3, Pos(66, 56), Initialized, [13])] + [Declared(25, c3, Pos(68, 17), Initialized, [13])], 14));
    Walk27(a1, e, a2, b1, b2, c1, c2, c3, d1, Tree(tr.scopes + [Scope(BlockBody, Some(4))] + [Scope(CatchClause, Some(4))] + [Scope(BlockBody, Some(24))], tr.events + [Declared(24, c3, Pos(66, 56), Initialized, [13])] + [Declared(25, c3, Pos(68, 17), Initialized, [13])], 14));
    assert WalkStmt(Exprs([Call([Argument([Use(c3, Pos(69, 38), false)])])]), Ctx(25, [13], []), Tree(tr.scopes + [Scope(BlockBody, Some(4))] + [Scope(CatchClause, Some(4))] + [Scope(BlockBody, Some(24))], tr.events + [Declared(24, c3, Pos(66, 56), Initialized, [13])] + [Declared(25, c3, Pos(68, 17), Initialized, [13])], 14)) == Tree(tr.scopes + [Scope(BlockBody, Some(4))] + [Scope(CatchClause, Some(4))] + [Scope(BlockBody, Some(24))], tr.events + [Declared(24, c3, Pos(66, 56), Initialized, [13])] + [Declared(25, c3, Pos(68, 17), Initialized, [13])] + [Referenced(25, c3, Pos(69, 38), false, false, [13])] + [OutAssigned(25, [], [13])], 14);
    assert WalkCatch(Catch(None, [Declare(c3, Pos(66, 56), Initialized)], [Exprs([Declare(c3, Pos(68, 17), Initialized)])] + ([Exprs([Call([Argument([Use(c3, Pos(69, 38), false)])])])])), Ctx(4, [], []), Tree(tr.scopes + [Scope(BlockBody, Some(4))], tr.events, 13)) == Tree(tr.scopes + [Scope(BlockBody, Some(4))] + [Scope(CatchClause, Some(4))] + [Scope(BlockBody, Some(24))], tr.events + [Declared(24, c3, Pos(66, 56), Initialized, [13])] + [Declared(25, c3, Pos(68, 17), Initialized, [13])] + [Referenced(25, c3, Pos(69, 38), false, false, [13])] + [OutAssigned(25, [], [13])], 14);
    assert WalkCatches([Catch(None, [Declare(c3, Pos(66, 56), Initialized)], [Exprs([Declare(c3, Pos(68, 17), Initialized)])] + ([Exprs([Call([Argument([Use(c3, Pos(69, 38), false)])])])]))], Ctx(4, [], []), Tree(tr.scopes + [Scope(BlockBody, Some(4))], tr.events, 13)) == Tree(tr.scopes + [Scope(BlockBody, Some(4))] + [Scope(CatchClause, Some(4))] + [Scope(BlockBody, Some(24))], tr.events + [Declared(24, c3, Pos(66, 56), Initialized, [13])] + [Declared(25, c3, Pos(68, 17), Initialized, [13])] + [Referenced(25, c3, Pos(69, 38), false, false, [13])] + [OutAssigned(25, [], [13])], 14);
    assert WalkStmt(Try([Exprs([])], [Catch(None, [Declare(c3, Pos(66, 56), Initialized)], [Exprs([Declare(c3, Pos(68, 17), Initialized)])] + ([Exprs([Call([Argument([Use(c3, Pos(69, 38), false)])])])]))], None), Ctx(4, [], []), tr) == Tree(tr.scopes + [Scope(BlockBody, Some(4))] + [Scope(CatchClause, Some(4))] + [Scope(BlockBody, Some(24))], tr.events + [Declared(24, c3, Pos(66, 56), Initialized, [13])] + [Declared(25, c3, Pos(68, 17), Initialized, [13])] + [Referenced(25, c3, Pos(69, 38), false, false, [13])] + [OutAssigned(25, [], [13])], 14);
  }

  lemma {:induction false} Walk29(a1: string, e: string, a2: string, b1: string, b2: string, c1: string, c2: string, c3: string, d1: string, tr: Tree)
    requires |tr.scopes| == 27 && tr.arms == 15
    ensures WalkStmt(Exprs([]), Ctx(26, [14], []), tr) == Tree(tr.scopes, tr.events, 15)
  {
    assert WalkStmt(Exprs([]), Ctx(26, [14], []), tr) == tr;
  }

  lemma {:induction false} Walk30(a1: string, e: string, a2: string, b1: string, b2: string, c1: string, c2: string, c3: string, d1: string, tr: Tree)
    requires |tr.scopes| == 29 && tr.arms == 16
    ensures WalkStmt(Exprs([Call([Argument([Declare(d1, Pos(78, 44), Initialized)] + ([Declare(d1, Pos(78, 65), Initialized)]))])]), Ctx(28, [15], []), tr) == Tree(tr.scopes, tr.events + [Declared(28, d1, Pos(78, 44), Initialized, [15])] + [Declared(28, d1, Pos(78, 65), Initialized, [15])] + [OutAssigned(28, [], [15])], 16)
  {
    WalkExprsOne(Call([Argument([Declare(d1, Pos(78, 44), Initialized)] + ([Declare(d1, Pos(78, 65), Initialized)]))]), Ctx(28, [15], []), tr);
    assert OutNames([]) == [];
    WalkArgsOne(Argument([Declare(d1, Pos(78, 44), Initialized)] + ([Declare(d1, Pos(78, 65), Initialized)])), [], Ctx(28, [15], []), tr);
    WalkExprsCons(Declare(d1, Pos(78, 44), Initialized), [Declare(d1, Pos(78, 65), Initialized)], Ctx(28, [15], []), tr);
    assert WalkExpr(Declare(d1, Pos(78, 44), Initialized), Ctx(28, [15], []), tr) == Tree(tr.scopes, tr.events + [Declared(28, d1, Pos(78, 44), Initialized, [15])], 16);
    WalkExprsOne(Declare(d1, Pos(78, 65), Initialized), Ctx(28, [15], []), Tree(tr.scopes, tr.events + [Declared(28, d1, Pos(78, 44), Initialized, [15])], 16));
    assert WalkExpr(Declare(d1, Pos(78, 65), Initialized), Ctx(28, [15], []), Tree(tr.scopes, tr.events + [Declared(28, d1, Pos(78, 44), Initialized, [15])], 16)) == Tree(tr.scopes, tr.events + [Declared(28, d1, Pos(78, 44), Initialized, [15])] + [Declared(28, d1, Pos(78, 65), Initialized, [15])], 16);
    assert WalkExprs([Declare(d1, Pos(78, 44), Initialized)] + ([Declare(d1, Pos(78, 65), Initialized)]), Ctx(28, [15], []), tr) == Tree(tr.scopes, tr.events + [Declared(28, d1, Pos(78, 44), Initialized, [15])] + [Declared(28, d1, Pos(78, 65), Initialized, [15])], 16);
    OutNamesOfCons(Declare(d1, Pos(78, 44), Initialized), [Declare(d1, Pos(78, 65), Initialized)]);
    OutNamesOfOne(Declare(d1, Pos(78, 65), Initialized));
    OutNamesSnoc([], Argument([Declare(d1, Pos(78, 44), Initialized)] + ([Declare(d1, Pos(78, 65), Initialized)])));
    assert WalkArgs([Argument([Declare(d1, Pos(78, 44), Initialized)] + ([Declare(d1, Pos(78, 65), Initialized)]))], [], Ctx(28, [15], []), tr) == Tree(tr.scopes, tr.events + [Declared(28, d1, Pos(78, 44), Initialized, [15])] + [Declared(28, d1, Pos(78, 65), Initialized, [15])], 16);
    assert OutNames([Argument([Declare(d1, Pos(78, 44), Initialized)] + ([Declare(d1, Pos(78, 65), Initialized)]))]) == [];
    assert WalkExpr(Call([Argument([Declare(d1, Pos(78, 44), Initialized)] + ([Declare(d1, Pos(78, 65), Initialized)]))]), Ctx(28, [15], []), tr) == Tree(tr.scopes, tr.events + [Declared(28, d1, Pos(78, 44), Initialized, [15])] + [Declared(28, d1, Pos(78, 65), Initialized, [15])] + [OutAssigned(28, [], [15])], 16);
    assert WalkExprs([Call([Argument([Declare(d1, Pos(78, 44), Initialized)] + ([Declare(d1, Pos(78, 65), Initialized)]))])], Ctx(28, [15], []), tr) == Tree(tr.scopes, tr.events + [Declared(28, d1, Pos(78, 44), Initialized, [15])] + [Declared(28, d1, Pos(78, 65), Initialized, [15])] + [OutAssigned(28, [], [15])], 16);
    assert WalkStmt(Exprs([Call([Argument([Declare(d1, Pos(78, 44), Initialized)] + ([Declare(d1, Pos(78, 65), Initialized)]))])]), Ctx(28, [15], []), tr) == Tree(tr.scopes, tr.events + [Declared(28, d1, Pos(78, 44), Initialized, [15])] + [Declared(28, d1, Pos(78, 65), Initialized, [15])] + [OutAssigned(28, [], [15])], 16);
  }

  lemma {:induction false} Walk28(a1: string, e: string, a2: string, b1: string, b2: string, c1: string, c2: string, c3: string, d1: string, tr: Tree)
    requires |tr.scopes| == 26 && tr.arms == 14
    ensures WalkStmt(Try([Exprs([])], [Catch(None, [], [Exprs([Call([Argument([Declare(d1, Pos(78, 44), Initialized)] + ([Declare(d1, Pos(78, 65), Initialized)]))])])])], None), Ctx(4, [], []), tr) == Tree(tr.scopes + [Scope(BlockBody, Some(4))] + [Scope(CatchClause, Some(4))] + [Scope(BlockBody, Some(27))], tr.events + [Declared(28, d1, Pos(78, 44), Initialized, [15])] + [Declared(28, d1, Pos(78, 65), Initialized, [15])] + [OutAssigned(28, [], [15])], 16)
  {
    assert [] + [14] == [14];
    WalkStmtsOne(Exprs([]), Ctx(26, [14], []), Tree(tr.scopes + [Scope(BlockBody, Some(4))], tr.events, 15));
    Walk29(a1, e, a2, b1, b2, c1, c2, c3, d1, Tree(tr.scopes + [Scope(BlockBody, Some(4))], tr.events, 15));
    assert WalkStmt(Exprs([]), Ctx(26, [14], []), Tree(tr.scopes + [Scope(BlockBody, Some(4))], tr.events, 15)) == Tree(tr.scopes + [Scope(BlockBody, Some(4))], tr.events, 15);
    WalkCatchesOne(Catch(None, [], [Exprs([Call([Argument([Declare(d1, Pos(78, 44), Initialized)] + ([Declare(d1, Pos(78, 65), Initialized)]))])])]), Ctx(4, [], []), Tree(tr.scopes + [Scope(BlockBody, Some(4))], tr.events, 15));
    assert [] + [15] == [15];
    WalkStmtsOne(Exprs([Call([Argument([Declare(d1, Pos(78, 44), Initialized)] + ([Declare(d1, Pos(78, 65), Initialized)]))])]), Ctx(28, [15], []), Tree(tr.scopes + [Scope(BlockBody, Some(4))] + [Scope(CatchClause, Some(4))] + [Scope(BlockBody, Some(27))], tr.events, 16));
    Walk30(a1, e, a2, b1, b2, c1, c2, c3, d1, Tree(tr.scopes + [Scope(BlockBody, Some(4))] + [Scope(CatchClause, Some(4))] + [Scope(BlockBody, Some(27))], tr.events, 16));
    assert WalkStmt(Exprs([Call([Argument([Declare(d1, Pos(78, 44), Initialized)] + ([Declare(d1, Pos(78, 65), Initialized)]))])]), Ctx(28, [15], []), Tree(tr.scopes + [Scope(BlockBody, Some(4))] + [Scope(CatchClause, Some(4))] + [Scope(BlockBody, Some(27))], tr.events, 16)) == Tree(tr.scopes + [Scope(BlockBody, Some(4))] + [Scope(CatchClause, Some(4))] + [Scope(BlockBody, Some(27))], tr.events + [Declared(28, d1, Pos(78, 44), Initialized, [15])] + [Declared(28, d1, Pos(78, 65), Initialized, [15])] + [OutAssigned(28, [], [15])], 16);
    assert WalkCatch(Catch(None, [], [Exprs([Call([Argument([Declare(d1, Pos(78, 44), Initialized)] + ([Declare(d1, Pos(78, 65), Initialized)]))])])]), Ctx(4, [], []), Tree(tr.scopes + [Scope(BlockBody, Some(4))], tr.events, 15)) == Tree(tr.scopes + [Scope(BlockBody, Some(4))] + [Scope(CatchClause, Some(4))] + [Scope(BlockBody, Some(27))], tr.events + [Declared(28, d1, Pos(78, 44), Initialized, [15])] + [Declared(28, d1, Pos(78, 65), Initialized, [15])] + [OutAssigned(28, [], [15])], 16);
    assert WalkCatches([Catch(None, [], [Exprs([Call([Argument([Declare(d1, Pos(78, 44), Initialized)] + ([Declare(d1, Pos(78, 65), Initialized)]))])])])], Ctx(4, [], []), Tree(tr.scopes + [Scope(BlockBody, Some(4))], tr.events, 15)) == Tree(tr.scopes + [Scope(BlockBody, Some(4))] + [Scope(CatchClause, Some(4))] + [Scope(BlockBody, Some(27))], tr.events + [Declared(28, d1, Pos(78, 44), Initialized, [15])] + [Declared(28, d1, Pos(78, 65), Initialized, [15])] + [OutAssigned(28, [], [15])], 16);
    assert WalkStmt(Try([Exprs([])], [Catch(None, [], [Exprs([Call([Argument([Declare(d1, Pos(78, 44), Initialized)] + ([Declare(d1, Pos(78, 65), Initialized)]))])])])], None), Ctx(4, [], []), tr) == Tree(tr.scopes + [Scope(BlockBody, Some(4))] + [Scope(CatchClause, Some(4))] + [Scope(BlockBody, Some(27))], tr.events + [Declared(28, d1, Pos(78, 44), Initialized, [15])] + [Declared(28, d1, Pos(78, 65), Initialized, [15])] + [OutAssigned(28, [], [15])], 16);
  }

  lemma {:induction false} Stmts18(a1: string, e: string, a2: string, b1: string, b2: string, c1: string, c2: string, c3: string, d1: string, tr: Tree)
    requires |tr.scopes| == 17 && tr.arms == 8
    ensures WalkStmts([Try([Exprs([])], [Catch(None, [Declare(c1, Pos(49, 57), Initialized)] + ([Declare(c1, Pos(49, 78), Initialized)]), [])], None)] + ([Try([Exprs([])], [Catch(None, [Declare(c2, Pos(57, 56), Initialized)], [Exprs([Call([Argument([Declare(c2, Pos(59, 42), Initialized)])])])])], None)] + ([Try([Exprs([])], [Catch(None, [Declare(c3, Pos(66, 56), Initialized)], [Exprs([Declare(c3, Pos(68, 17), Initialized)])] + ([Exprs([Call([Argument([Use(c3, Pos(69, 38), false)])])])]))], None)] + ([Try([Exprs([])], [Catch(None, [], [Exprs([Call([Argument([Declare(d1, Pos(78, 44), Initialized)] + ([Declare(d1, Pos(78, 65), Initialized)]))])])])], None)]))), Ctx(4, [], []), tr) == Tree(tr.scopes + [Scope(BlockBody, Some(4))] + [Scope(CatchClause, Some(4))] + [Scope(BlockBody, Some(18))] + [Scope(BlockBody, Some(4))] + [Scope(CatchClause, Some(4))] + [Scope(BlockBody, Some(21))] + [Scope(BlockBody, Some(4))] + [Scope(CatchClause, Some(4))] + [Scope(BlockBody, Some(24))] + [Scope(BlockBody, Some(4))] + [Scope(CatchClause, Some(4))] + [Scope(BlockBody, Some(27))], tr.events + [Declared(18, c1, Pos(49, 57), Initialized, [9])] + [Declared(18, c1, Pos(49, 78), Initialized, [9])] + [Declared(21, c2, Pos(57, 56), Initialized, [11])] + [Declared(22, c2, Pos(59, 42), Initialized, [11])] + [OutAssigned(22, [], [11])] + [Declared(24, c3, Pos(66, 56), Initialized, [13])] + [Declared(25, c3, Pos(68, 17), Initialized, [13])] + [Referenced(25, c3, Pos(69, 38), false, false, [13])] + [OutAssigned(25, [], [13])] + [Declared(28, d1, Pos(78, 44), Initialized, [15])] + [Declared(28, d1, Pos(78, 65), Initialized, [15])] + [OutAssigned(28, [], [15])], 16)
  {
    WalkStmtsCons(Try([Exprs([])], [Catch(None, [Declare(c1, Pos(49, 57), Initialized)] + ([Declare(c1, Pos(49, 78), Initialized)]), [])], None), [Try([Exprs([])], [Catch(None, [Declare(c2, Pos(57, 56), Initialized)], [Exprs([Call([Argument([Declare(c2, Pos(59, 42), Initialized)])])])])], None)] + ([Try([Exprs([])], [Catch(None, [Declare(c3, Pos(66, 56), Initialized)], [Exprs([Declare(c3, Pos(68, 17), Initialized)])] + ([Exprs([Call([Argument([Use(c3, Pos(69, 38), false)])])])]))], None)] + ([Try([Exprs([])], [Catch(None, [], [Exprs([Call([Argument([Declare(d1, Pos(78, 44), Initialized)] + ([Declare(d1, Pos(78, 65), Initialized)]))])])])], None)])), Ctx(4, [], []), tr);
    Walk19(a1, e, a2, b1, b2, c1, c2, c3, d1, tr);
    assert WalkStmt(Try([Exprs([])], [Catch(None, [Declare(c1, Pos(49, 57), Initialized)] + ([Declare(c1, Pos(49, 78), Initialized)]), [])], None), Ctx(4, [], []), tr) == Tree(tr.scopes + [Scope(BlockBody, Some(4))] + [Scope(CatchClause, Some(4))] + [Scope(BlockBody, Some(18))], tr.events + [Declared(18, c1, Pos(49, 57), Initialized, [9])] + [Declared(18, c1, Pos(49, 78), Initialized, [9])], 10);
    WalkStmtsCons(Try([Exprs([])], [Catch(None, [Declare(c2, Pos(57, 56), Initialized)], [Exprs([Call([Argument([Declare(c2, Pos(59, 42), Initialized)])])])])], None), [Try([Exprs([])], [Catch(None, [Declare(c3, Pos(66, 56), Initialized)], [Exprs([Declare(c3, Pos(68, 17), Initialized)])] + ([Exprs([Call([Argument([Use(c3, Pos(69, 38), false)])])])]))], None)] + ([Try([Exprs([])], [Catch(None, [], [Exprs([Call([Argument([Declare(d1, Pos(78, 44), Initialized)] + ([Declare(d1, Pos(78, 65), Initialized)]))])])])], None)]), Ctx(4, [], []), Tree(tr.scopes + [Scope(BlockBody, Some(4))] + [Scope(CatchClause, Some(4))] + [Scope(BlockBody, Some(18))], tr.events + [Declared(18, c1, Pos(49, 57), Initialized, [9])] + [Declared(18, c1, Pos(49, 78), Initialized, [9])], 10));
    Walk21(a1, e, a2, b1, b2, c1, c2, c3, d1, Tree(tr.scopes + [Scope(BlockBody, Some(4))] + [Scope(CatchClause, Some(4))] + [Scope(BlockBody, Some(18))], tr.events + [Declared(18, c1, Pos(49, 57), Initialized, [9])] + [Declared(18, c1, Pos(49, 78), Initialized, [9])], 10));
    assert WalkStmt(Try([Exprs([])], [Catch(None, [Declare(c2, Pos(57, 56), Initialized)], [Exprs([Call([Argument([Declare(c2, Pos(59, 42), Initialized)])])])])], None), Ctx(4, [], []), Tree(tr.scopes + [Scope(BlockBody, Some(4))] + [Scope(CatchClause, Some(4))] + [Scope(BlockBody, Some(18))], tr.events + [Declared(18, c1, Pos(49, 57), Initialized, [9])] + [Declared(18, c1, Pos(49, 78), Initialized, [9])], 10)) == Tree(tr.scopes + [Scope(BlockBody, Some(4))] + [Scope(CatchClause, Some(4))] + [Scope(BlockBody, Some(18))] + [Scope(BlockBody, Some(4))] + [Scope(CatchClause, Some(4))] + [Scope(BlockBody, Some(21))], tr.events + [Declared(18, c1, Pos(49, 57), Initialized, [9])] + [Declared(18, c1, Pos(49, 78), Initialized, [9])] + [Declared(21, c2, Pos(57, 56), Initialized, [11])] + [Declared(22, c2, Pos(59, 42), Initialized, [11])] + [OutAssigned(22, [], [11])], 12);
    WalkStmtsCons(Try([Exprs([])], [Catch(None, [Declare(c3, Pos(66, 56), Initialized)], [Exprs([Declare(c3, Pos(68, 17), Initialized)])] + ([Exprs([Call([Argument([Use(c3, Pos(69, 38), false)])])])]))], None), [Try([Exprs([])], [Catch(None, [], [Exprs([Call([Argument([Declare(d1, Pos(78, 44), Initialized)] + ([Declare(d1, Pos(78, 65), Initialized)]))])])])], None)], Ctx(4, [], []), Tree(tr.scopes + [Scope(BlockBody, Some(4))] + [Scope(CatchClause, Some(4))] + [Scope(BlockBody, Some(18))] + [Scope(BlockBody, Some(4))] + [Scope(CatchClause, Some(4))] + [Scope(BlockBody, Some(21))], tr.events + [Declared(18, c1, Pos(49, 57), Initialized, [9])] + [Declared(18, c1, Pos(49, 78), Initialized, [9])] + [Declared(21, c2, Pos(57, 56), Initialized, [11])] + [Declared(22, c2, Pos(59, 42), Initialized, [11])] + [OutAssigned(22, [], [11])], 12));
    Walk24(a1, e, a2, b1, b2, c1, c2, c3, d1, Tree(tr.scopes + [Scope(BlockBody, Some(4))] + [Scope(CatchClause, Some(4))] + [Scope(BlockBody, Some(18))] + [Scope(BlockBody, Some(4))] + [Scope(CatchClause, Some(4))] + [Scope(BlockBody, Some(21))], tr.events + [Declared(18, c1, Pos(49, 57), Initialized, [9])] + [Declared(18, c1, Pos(49, 78), Initialized, [9])] + [Declared(21, c2, Pos(57, 56), Initialized, [11])] + [Declared(22, c2, Pos(59, 42), Initialized, [11])] + [OutAssigned(22, [], [11])], 12));
    assert WalkStmt(Try([Exprs([])], [Catch(None, [Declare(c3, Pos(66, 56), Initialized)], [Exprs([Declare(c3, Pos(68, 17), Initialized)])] + ([Exprs([Call([Argument([Use(c3, Pos(69, 38), false)])])])]))], None), Ctx(4, [], []), Tree(tr.scopes + [Scope(BlockBody, Some(4))] + [Scope(CatchClause, Some(4))] + [Scope(BlockBody, Some(18))] + [Scope(BlockBody, Some(4))] + [Scope(CatchClause, Some(4))] + [Scope(BlockBody, Some(21))], tr.events + [Declared(18, c1, Pos(49, 57), Initialized, [9])] + [Declared(18, c1, Pos(49, 78), Initialized, [9])] + [Declared(21, c2, Pos(57, 56), Initialized, [11])] + [Declared(22, c2, Pos(59, 42), Initialized, [11])] + [OutAssigned(22, [], [11])], 12)) == Tree(tr.scopes + [Scope(BlockBody, Some(4))] + [Scope(CatchClause, Some(4))] + [Scope(BlockBody, Some(18))] + [Scope(BlockBody, Some(4))] + [Scope(CatchClause, Some(4))] + [Scope(BlockBody, Some(21))] + [Scope(BlockBody, Some(4))] + [Scope(CatchClause, Some(4))] + [Scope(BlockBody, Some(24))], tr.events + [Declared(18, c1, Pos(49, 57), Initialized, [9])] + [Declared(18, c1, Pos(49, 78), Initialized, [9])] + [Declared(21, c2, Pos(57, 56), Initialized, [11])] + [Declared(22, c2, Pos(59, 42), Initialized, [11])] + [OutAssigned(22, [], [11])] + [Declared(24, c3, Pos(66, 56), Initialized, [13])] + [Declared(25, c3, Pos(68, 17), Initialized, [13])] + [Referenced(25, c3, Pos(69, 38), false, false, [13])] + [OutAssigned(25, [], [13])], 14);
    WalkStmtsOne(Try([Exprs([])], [Catch(None, [], [Exprs([Call([Argument([Declare(d1, Pos(78, 44), Initialized)] + ([Declare(d1, Pos(78, 65), Initialized)]))])])])], None), Ctx(4, [], []), Tree(tr.scopes + [Scope(BlockBody, Some(4))] + [Scope(CatchClause, Some(4))] + [Scope(BlockBody, Some(18))] + [Scope(BlockBody, Some(4))] + [Scope(CatchClause, Some(4))] + [Scope(BlockBody, Some(21))] + [Scope(BlockBody, Some(4))] + [Scope(CatchClause, Some(4))] + [Scope(BlockBody, Some(24))], tr.events + [Declared(18, c1, Pos(49, 57), Initialized, [9])] + [Declared(18, c1, Pos(49, 78), Initialized, [9])] + [Declared(21, c2, Pos(57, 56), Initialized, [11])] + [Declared(22, c2, Pos(59, 42), Initialized, [11])] + [OutAssigned(22, [], [11])] + [Declared(24, c3, Pos(66, 56), Initialized, [13])] + [Declared(25, c3, Pos(68, 17), Initialized, [13])] + [Referenced(25, c3, Pos(69, 38), false, false, [13])] + [OutAssigned(25, [], [13])], 14));
    Walk28(a1, e, a2, b1, b2, c1, c2, c3, d1, Tree(tr.scopes + [Scope(BlockBody, Some(4))] + [Scope(CatchClause, Some(4))] + [Scope(BlockBody, Some(18))] + [Scope(BlockBody, Some(4))] + [Scope(CatchClause, Some(4))] + [Scope(BlockBody, Some(21))] + [Scope(BlockBody, Some(4))] + [Scope(CatchClause, Some(4))] + [Scope(BlockBody, Some(24))], tr.events + [Declared(18, c1, Pos(49, 57), Initialized, [9])] + [Declared(18, c1, Pos(49, 78), Initialized, [9])] + [Declared(21, c2, Pos(57, 56), Initialized, [11])] + [Declared(22, c2, Pos(59, 42), Initialized, [11])] + [OutAssigned(22, [], [11])] + [Declared(24, c3, Pos(66, 56), Initialized, [13])] + [Declared(25, c3, Pos(68, 17), Initialized, [13])] + [Referenced(25, c3, Pos(69, 38), false, false, [13])] + [OutAssigned(25, [], [13])], 14));
    assert WalkStmt(Try([Exprs([])], [Catch(None, [], [Exprs([Call([Argument([Declare(d1, Pos(78, 44), Initialized)] + ([Declare(d1, Pos(78, 65), Initialized)]))])])])], None), Ctx(4, [], []), Tree(tr.scopes + [Scope(BlockBody, Some(4))] + [Scope(CatchClause, Some(4))] + [Scope(BlockBody, Some(18))] + [Scope(BlockBody, Some(4))] + [Scope(CatchClause, Some(4))] + [Scope(BlockBody, Some(21))] + [Scope(BlockBody, Some(4))] + [Scope(CatchClause, Some(4))] + [Scope(BlockBody, Some(24))], tr.events + [Declared(18, c1, Pos(49, 57), Initialized, [9])] + [Declared(18, c1, Pos(49, 78), Initialized, [9])] + [Declared(21, c2, Pos(57, 56), Initialized, [11])] + [Declared(22, c2, Pos(59, 42), Initialized, [11])] + [OutAssigned(22, [], [11])] + [Declared(24, c3, Pos(66, 56), Initialized, [13])] + [Declared(25, c3, Pos(68, 17), Initialized, [13])] + [Referenced(25, c3, Pos(69, 38), false, false, [13])] + [OutAssigned(25, [], [13])], 14)) == Tree(tr.scopes + [Scope(BlockBody, Some(4))] + [Scope(CatchClause, Some(4))] + [Scope(BlockBody, Some(18))] + [Scope(BlockBody, Some(4))] + [Scope(CatchClause, Some(4))] + [Scope(BlockBody, Some(21))] + [Scope(BlockBody, Some(4))] + [Scope(CatchClause, Some(4))] + [Scope(BlockBody, Some(24))] + [Scope(BlockBody, Some(4))] + [Scope(CatchClause, Some(4))] + [Scope(BlockBody, Some(27))], tr.events + [Declared(18, c1, Pos(49, 57), Initialized, [9])] + [Declared(18, c1, Pos(49, 78), Initialized, [9])] + [Declared(21, c2, Pos(57, 56), Initialized, [11])] + [Declared(22, c2, Pos(59, 42), Initialized, [11])] + [OutAssigned(22, [], [11])] + [Declared(24, c3, Pos(66, 56), Initialized, [13])] + [Declared(25, c3, Pos(68, 17), Initialized, [13])] + [Referenced(25, c3, Pos(69, 38), false, false, [13])] + [OutAssigned(25, [], [13])] + [Declared(28, d1, Pos(78, 44), Initialized, [15])] + [Declared(28, d1, Pos(78, 65), Initialized, [15])] + [OutAssigned(28, [], [15])], 16);
  }

  lemma {:induction false} Join0(a1: string, e: string, a2: string, b1: string, b2: string, c1: string, c2: string, c3: string, d1: string, evs: seq<Event>)
    ensures evs + Chunk0(a1, e, a2, b1, b2, c1, c2, c3, d1) == evs + [Declared(4, a1, Pos(6, 13), Initialized, [])] + [Referenced(4, a1, Pos(7, 34), false, false, [])] + [OutAssigned(4, [], [])] + [Declared(6, e, Pos(12, 46), Initialized, [1])] + [Declared(6, a1, Pos(12, 58), Initialized, [1])] + [Referenced(7, e, Pos(14, 38), false, false, [1])] + [OutAssigned(7, [], [1])] + [Declared(4, a2, Pos(17, 13), Initialized, [])]
  {
  }

  lemma {:induction false} Join1(a1: string, e: string, a2: string, b1: string, b2: string, c1: string, c2: string, c3: string, d1: string, evs: seq<Event>)
    ensures evs + Chunk1(a1, e, a2, b1, b2, c1, c2, c3, d1) == evs + [Referenced(4, a2, Pos(18, 34), false, false, [])] + [OutAssigned(4, [], [])] + [Declared(10, a2, Pos(25, 42), Initialized, [3])] + [OutAssigned(10, [], [3])] + [Declared(12, b1, Pos(32, 46), Initialized, [5])] + [Declared(12, b1, Pos(32, 59), Initialized, [5])] + [Declared(15, b2, Pos(40, 46), Initialized, [7])] + [Declared(16, b2, Pos(42, 42), Initialized, [7])]
  {
  }

  lemma {:induction false} Join2(a1: string, e: string, a2: string, b1: string, b2: string, c1: string, c2: string, c3: string, d1: string, evs: seq<Event>)
    ensures evs + Chunk2(a1, e, a2, b1, b2, c1, c2, c3, d1) == evs + [OutAssigned(16, [], [7])] + [Declared(18, c1, Pos(49, 57), Initialized, [9])] + [Declared(18, c1, Pos(49, 78), Initialized, [9])] + [Declared(21, c2, Pos(57, 56), Initialized, [11])] + [Declared(22, c2, Pos(59, 42), Initialized, [11])] + [OutAssigned(22, [], [11])] + [Declared(24, c3, Pos(66, 56), Initialized, [13])] + [Declared(25, c3, Pos(68, 17), Initialized, [13])]
  {
  }

  lemma {:induction false} Join3(a1: string, e: string, a2: string, b1: string, b2: string, c1: string, c2: string, c3: string, d1: string, evs: seq<Event>)
    ensures evs + Chunk3(a1, e, a2, b1, b2, c1, c2, c3, d1) == evs + [Referenced(25, c3, Pos(69, 38), false, false, [13])] + [OutAssigned(25, [], [13])] + [Declared(28, d1, Pos(78, 44), Initialized, [15])] + [Declared(28, d1, Pos(78, 65), Initialized, [15])] + [OutAssigned(28, [], [15])]
  {
  }

  /** The trace, event by event. */
  lemma {:induction false} Flat(a1: string, e: string, a2: string, b1: string, b2: string, c1: string, c2: string, c3: string, d1: string)
    ensures [] + [Declared(4, a1, Pos(6, 13), Initialized, [])] + [Referenced(4, a1, Pos(7, 34), false, false, [])] + [OutAssigned(4, [], [])] + [Declared(6, e, Pos(12, 46), Initialized, [1])] + [Declared(6, a1, Pos(12, 58), Initialized, [1])] + [Referenced(7, e, Pos(14, 38), false, false, [1])] + [OutAssigned(7, [], [1])] + [Declared(4, a2, Pos(17, 13), Initialized, [])] + [Referenced(4, a2, Pos(18, 34), false, false, [])] + [OutAssigned(4, [], [])] + [Declared(10, a2, Pos(25, 42), Initialized, [3])] + [OutAssigned(10, [], [3])] + [Declared(12, b1, Pos(32, 46), Initialized, [5])] + [Declared(12, b1, Pos(32, 59), Initialized, [5])] + [Declared(15, b2, Pos(40, 46), Initialized, [7])] + [Declared(16, b2, Pos(42, 42), Initialized, [7])] + [OutAssigned(16, [], [7])] + [Declared(18, c1, Pos(49, 57), Initialized, [9])] + [Declared(18, c1, Pos(49, 78), Initialized, [9])] + [Declared(21, c2, Pos(57, 56), Initialized, [11])] + [Declared(22, c2, Pos(59, 42), Initialized, [11])] + [OutAssigned(22, [], [11])] + [Declared(24, c3, Pos(66, 56), Initialized, [13])] + [Declared(25, c3, Pos(68, 17), Initialized, [13])] + [Referenced(25, c3, Pos(69, 38), false, false, [13])] + [OutAssigned(25, [], [13])] + [Declared(28, d1, Pos(78, 44), Initialized, [15])] + [Declared(28, d1, Pos(78, 65), Initialized, [15])] + [OutAssigned(28, [], [15])] == Trace(a1, e, a2, b1, b2, c1, c2, c3, d1)
  {
    Join0(a1, e, a2, b1, b2, c1, c2, c3, d1, []);
    Join1(a1, e, a2, b1, b2, c1, c2, c3, d1, [] + Chunk0(a1, e, a2, b1, b2, c1, c2, c3, d1));
    Join2(a1, e, a2, b1, b2, c1, c2, c3, d1, [] + Chunk0(a1, e, a2, b1, b2, c1, c2, c3, d1) + Chunk1(a1, e, a2, b1, b2, c1, c2, c3, d1));
    Join3(a1, e, a2, b1, b2, c1, c2, c3, d1, [] + Chunk0(a1, e, a2, b1, b2, c1, c2, c3, d1) + Chunk1(a1, e, a2, b1, b2, c1, c2, c3, d1) + Chunk2(a1, e, a2, b1, b2, c1, c2, c3, d1));
  }

  lemma {:induction false} Walked(a1: string, e: string, a2: string, b1: string, b2: string, c1: string, c2: string, c3: string, d1: string)
    ensures Build(Program(a1, e, a2, b1, b2, c1, c2, c3, d1)) == Tree(Layout(), Trace(a1, e, a2, b1, b2, c1, c2, c3, d1), 16)
  {
    MainBuild(Body(a1, e, a2, b1, b2, c1, c2, c3, d1));
    Stmts1(a1, e, a2, b1, b2, c1, c2, c3, d1, MainHead(), [Exprs([Call([Argument([Use(a2, Pos(18, 34), false)])])])] + ([Try([Exprs([])], [Catch(None, [], [Exprs([Call([Argument([Declare(a2, Pos(25, 42), Initialized)])])])])], None)] + ([Try([Exprs([])], [Catch(Some(Param(b1, Pos(32, 46))), [Declare(b1, Pos(32, 59), Initialized)], [])], None)] + ([Try([Exprs([])], [Catch(Some(Param(b2, Pos(40, 46))), [], [Exprs([Call([Argument([Declare(b2, Pos(42, 42), Initialized)])])])])], None)] + ([Try([Exprs([])], [Catch(None, [Declare(c1, Pos(49, 57), Initialized)] + ([Declare(c1, Pos(49, 78), Initialized)]), [])], None)] + ([Try([Exprs([])], [Catch(None, [Declare(c2, Pos(57, 56), Initialized)], [Exprs([Call([Argument([Declare(c2, Pos(59, 42), Initialized)])])])])], None)] + ([Try([Exprs([])], [Catch(None, [Declare(c3, Pos(66, 56), Initialized)], [Exprs([Declare(c3, Pos(68, 17), Initialized)])] + ([Exprs([Call([Argument([Use(c3, Pos(69, 38), false)])])])]))], None)] + ([Try([Exprs([])], [Catch(None, [], [Exprs([Call([Argument([Declare(d1, Pos(78, 44), Initialized)] + ([Declare(d1, Pos(78, 65), Initialized)]))])])])], None)]))))))));
    Stmts8(a1, e, a2, b1, b2, c1, c2, c3, d1, Tree(MainHead().scopes + [Scope(BlockBody, Some(4))] + [Scope(CatchClause, Some(4))] + [Scope(BlockBody, Some(6))], MainHead().events + [Declared(4, a1, Pos(6, 13), Initialized, [])] + [Referenced(4, a1, Pos(7, 34), false, false, [])] + [OutAssigned(4, [], [])] + [Declared(6, e, Pos(12, 46), Initialized, [1])] + [Declared(6, a1, Pos(12, 58), Initialized, [1])] + [Referenced(7, e, Pos(14, 38), false, false, [1])] + [OutAssigned(7, [], [1])] + [Declared(4, a2, Pos(17, 13), Initialized, [])], 2), [Try([Exprs([])], [Catch(None, [Declare(c1, Pos(49, 57), Initialized)] + ([Declare(c1, Pos(49, 78), Initialized)]), [])], None)] + ([Try([Exprs([])], [Catch(None, [Declare(c2, Pos(57, 56), Initialized)], [Exprs([Call([Argument([Declare(c2, Pos(59, 42), Initialized)])])])])], None)] + ([Try([Exprs([])], [Catch(None, [Declare(c3, Pos(66, 56), Initialized)], [Exprs([Declare(c3, Pos(68, 17), Initialized)])] + ([Exprs([Call([Argument([Use(c3, Pos(69, 38), false)])])])]))], None)] + ([Try([Exprs([])], [Catch(None, [], [Exprs([Call([Argument([Declare(d1, Pos(78, 44), Initialized)] + ([Declare(d1, Pos(78, 65), Initialized)]))])])])], None)]))));
    Stmts18(a1, e, a2, b1, b2, c1, c2, c3, d1, Tree(MainHead().scopes + [Scope(BlockBody, Some(4))] + [Scope(CatchClause, Some(4))] + [Scope(BlockBody, Some(6))] + [Scope(BlockBody, Some(4))] + [Scope(CatchClause, Some(4))] + [Scope(BlockBody, Some(9))] + [Scope(BlockBody, Some(4))] + [Scope(CatchClause, Some(4))] + [Scope(BlockBody, Some(12))] + [Scope(BlockBody, Some(4))] + [Scope(CatchClause, Some(4))] + [Scope(BlockBody, Some(15))], MainHead().events + [Declared(4, a1, Pos(6, 13), Initialized, [])] + [Referenced(4, a1, Pos(7, 34), false, false, [])] + [OutAssigned(4, [], [])] + [Declared(6, e, Pos(12, 46), Initialized, [1])] + [Declared(6, a1, Pos(12, 58), Initialized, [1])] + [Referenced(7, e, Pos(14, 38), false, false, [1])] + [OutAssigned(7, [], [1])] + [Declared(4, a2, Pos(17, 13), Initialized, [])] + [Referenced(4, a2, Pos(18, 34), false, false, [])] + [OutAssigned(4, [], [])] + [Declared(10, a2, Pos(25, 42), Initialized, [3])] + [OutAssigned(10, [], [3])] + [Declared(12, b1, Pos(32, 46), Initialized, [5])] + [Declared(12, b1, Pos(32, 59), Initialized, [5])] + [Declared(15, b2, Pos(40, 46), Initialized, [7])] + [Declared(16, b2, Pos(42, 42), Initialized, [7])] + [OutAssigned(16, [], [7])], 8));
    LayoutFlat();
    Flat(a1, e, a2, b1, b2, c1, c2, c3, d1);
  }

  /** The locals events of chunk `ck` declare in scope `sc`, in order. */
  function NewIn(a1: string, e: string, a2: string, b1: string, b2: string, c1: string, c2: string, c3: string, d1: string, ck: nat, sc: nat): seq<Local> {
    if ck == 0 then
      if sc == 4 then [] + [Local(a1, Pos(6, 13))] + [Local(a2, Pos(17, 13))]
      else if sc == 6 then [] + [Local(e, Pos(12, 46))] + [Local(a1, Pos(12, 58))]
      else []
    else if ck == 1 then
      if sc == 10 then [] + [Local(a2, Pos(25, 42))]
      else if sc == 12 then [] + [Local(b1, Pos(32, 46))] + [Local(b1, Pos(32, 59))]
      else if sc == 15 then [] + [Local(b2, Pos(40, 46))]
      else if sc == 16 then [] + [Local(b2, Pos(42, 42))]
      else []
    else if ck == 2 then
      if sc == 18 then [] + [Local(c1, Pos(49, 57))] + [Local(c1, Pos(49, 78))]
      else if sc == 21 then [] + [Local(c2, Pos(57, 56))]
      else if sc == 22 then [] + [Local(c2, Pos(59, 42))]
      else if sc == 24 then [] + [Local(c3, Pos(66, 56))]
      else if sc == 25 then [] + [Local(c3, Pos(68, 17))]
      else []
    else if ck == 3 then
      if sc == 28 then [] + [Local(d1, Pos(78, 44))] + [Local(d1, Pos(78, 65))]
      else []
    else []
  }

  /** The locals the first `ck` chunks declare in scope `sc`, in order. */
  function DeclaredBy(a1: string, e: string, a2: string, b1: string, b2: string, c1: string, c2: string, c3: string, d1: string, ck: nat, sc: nat): seq<Local>
    decreases ck
  {
    if ck == 0 then [] else DeclaredBy(a1, e, a2, b1, b2, c1, c2, c3, d1, ck - 1, sc) + NewIn(a1, e, a2, b1, b2, c1, c2, c3, d1, ck - 1, sc)
  }

  /** The locals declared once events 0 to 7 follow some events. */
  lemma {:induction false} Decls0(a1: string, e: string, a2: string, b1: string, b2: string, c1: string, c2: string, c3: string, d1: string, evs: seq<Event>, sc: nat)
    requires DeclsIn(evs, sc) == DeclaredBy(a1, e, a2, b1, b2, c1, c2, c3, d1, 0, sc)
    ensures DeclsIn(evs + Chunk0(a1, e, a2, b1, b2, c1, c2, c3, d1), sc) == DeclaredBy(a1, e, a2, b1, b2, c1, c2, c3, d1, 1, sc)
  {
    DeclsInAppend(evs, Chunk0(a1, e, a2, b1, b2, c1, c2, c3, d1), sc);
    assert DeclsIn([], sc) == [];
    if sc == 4 {
      DeclsInAdd([], Declared(4, a1, Pos(6, 13), Initialized, []), 4);
      DeclsInSkip([] + [Declared(4, a1, Pos(6, 13), Initialized, [])], Referenced(4, a1, Pos(7, 34), false, false, []), 4);
      DeclsInSkip([] + [Declared(4, a1, Pos(6, 13), Initialized, [])] + [Referenced(4, a1, Pos(7, 34), false, false, [])], OutAssigned(4, [], []), 4);
      DeclsInSkip([] + [Declared(4, a1, Pos(6, 13), Initialized, [])] + [Referenced(4, a1, Pos(7, 34), false, false, [])] + [OutAssigned(4, [], [])], Declared(6, e, Pos(12, 46), Initialized, [1]), 4);
      DeclsInSkip([] + [Declared(4, a1, Pos(6, 13), Initialized, [])] + [Referenced(4, a1, Pos(7, 34), false, false, [])] + [OutAssigned(4, [], [])] + [Declared(6, e, Pos(12, 46), Initialized, [1])], Declared(6, a1, Pos(12, 58), Initialized, [1]), 4);
      DeclsInSkip([] + [Declared(4, a1, Pos(6, 13), Initialized, [])] + [Referenced(4, a1, Pos(7, 34), false, false, [])] + [OutAssigned(4, [], [])] + [Declared(6, e, Pos(12, 46), Initialized, [1])] + [Declared(6, a1, Pos(12, 58), Initialized, [1])], Referenced(7, e, Pos(14, 38), false, false, [1]), 4);
      DeclsInSkip([] + [Declared(4, a1, Pos(6, 13), Initialized, [])] + [Referenced(4, a1, Pos(7, 34), false, false, [])] + [OutAssigned(4, [], [])] + [Declared(6, e, Pos(12, 46), Initialized, [1])] + [Declared(6, a1, Pos(12, 58), Initialized, [1])] + [Referenced(7, e, Pos(14, 38), false, false, [1])], OutAssigned(7, [], [1]), 4);
      DeclsInAdd([] + [Declared(4, a1, Pos(6, 13), Initialized, [])] + [Referenced(4, a1, Pos(7, 34), false, false, [])] + [OutAssigned(4, [], [])] + [Declared(6, e, Pos(12, 46), Initialized, [1])] + [Declared(6, a1, Pos(12, 58), Initialized, [1])] + [Referenced(7, e, Pos(14, 38), false, false, [1])] + [OutAssigned(7, [], [1])], Declared(4, a2, Pos(17, 13), Initialized, []), 4);
    } else if sc == 6 {
      DeclsInSkip([], Declared(4, a1, Pos(6, 13), Initialized, []), 6);
      DeclsInSkip([] + [Declared(4, a1, Pos(6, 13), Initialized, [])], Referenced(4, a1, Pos(7, 34), false, false, []), 6);
      DeclsInSkip([] + [Declared(4, a1, Pos(6, 13), Initialized, [])] + [Referenced(4, a1, Pos(7, 34), false, false, [])], OutAssigned(4, [], []), 6);
      DeclsInAdd([] + [Declared(4, a1, Pos(6, 13), Initialized, [])] + [Referenced(4, a1, Pos(7, 34), false, false, [])] + [OutAssigned(4, [], [])], Declared(6, e, Pos(12, 46), Initialized, [1]), 6);
      DeclsInAdd([] + [Declared(4, a1, Pos(6, 13), Initialized, [])] + [Referenced(4, a1, Pos(7, 34), false, false, [])] + [OutAssigned(4, [], [])] + [Declared(6, e, Pos(12, 46), Initialized, [1])], Declared(6, a1, Pos(12, 58), Initialized, [1]), 6);
      DeclsInSkip([] + [Declared(4, a1, Pos(6, 13), Initialized, [])] + [Referenced(4, a1, Pos(7, 34), false, false, [])] + [OutAssigned(4, [], [])] + [Declared(6, e, Pos(12, 46), Initialized, [1])] + [Declared(6, a1, Pos(12, 58), Initialized, [1])], Referenced(7, e, Pos(14, 38), false, false, [1]), 6);
      DeclsInSkip([] + [Declared(4, a1, Pos(6, 13), Initialized, [])] + [Referenced(4, a1, Pos(7, 34), false, false, [])] + [OutAssigned(4, [], [])] + [Declared(6, e, Pos(12, 46), Initialized, [1])] + [Declared(6, a1, Pos(12, 58), Initialized, [1])] + [Referenced(7, e, Pos(14, 38), false, false, [1])], OutAssigned(7, [], [1]), 6);
      DeclsInSkip([] + [Declared(4, a1, Pos(6, 13), Initialized, [])] + [Referenced(4, a1, Pos(7, 34), false, false, [])] + [OutAssigned(4, [], [])] + [Declared(6, e, Pos(12, 46), Initialized, [1])] + [Declared(6, a1, Pos(12, 58), Initialized, [1])] + [Referenced(7, e, Pos(14, 38), false, false, [1])] + [OutAssigned(7, [], [1])], Declared(4, a2, Pos(17, 13), Initialized, []), 6);
    } else {
      DeclsInSkip([], Declared(4, a1, Pos(6, 13), Initialized, []), sc);
      DeclsInSkip([] + [Declared(4, a1, Pos(6, 13), Initialized, [])], Referenced(4, a1, Pos(7, 34), false, false, []), sc);
      DeclsInSkip([] + [Declared(4, a1, Pos(6, 13), Initialized, [])] + [Referenced(4, a1, Pos(7, 34), false, false, [])], OutAssigned(4, [], []), sc);
      DeclsInSkip([] + [Declared(4, a1, Pos(6, 13), Initialized, [])] + [Referenced(4, a1, Pos(7, 34), false, false, [])] + [OutAssigned(4, [], [])], Declared(6, e, Pos(12, 46), Initialized, [1]), sc);
      DeclsInSkip([] + [Declared(4, a1, Pos(6, 13), Initialized, [])] + [Referenced(4, a1, Pos(7, 34), false, false, [])] + [OutAssigned(4, [], [])] + [Declared(6, e, Pos(12, 46), Initialized, [1])], Declared(6, a1, Pos(12, 58), Initialized, [1]), sc);
      DeclsInSkip([] + [Declared(4, a1, Pos(6, 13), Initialized, [])] + [Referenced(4, a1, Pos(7, 34), false, false, [])] + [OutAssigned(4, [], [])] + [Declared(6, e, Pos(12, 46), Initialized, [1])] + [Declared(6, a1, Pos(12, 58), Initialized, [1])], Referenced(7, e, Pos(14, 38), false, false, [1]), sc);
      DeclsInSkip([] + [Declared(4, a1, Pos(6, 13), Initialized, [])] + [Referenced(4, a1, Pos(7, 34), false, false, [])] + [OutAssigned(4, [], [])] + [Declared(6, e, Pos(12, 46), Initialized, [1])] + [Declared(6, a1, Pos(12, 58), Initialized, [1])] + [Referenced(7, e, Pos(14, 38), false, false, [1])], OutAssigned(7, [], [1]), sc);
      DeclsInSkip([] + [Declared(4, a1, Pos(6, 13), Initialized, [])] + [Referenced(4, a1, Pos(7, 34), false, false, [])] + [OutAssigned(4, [], [])] + [Declared(6, e, Pos(12, 46), Initialized, [1])] + [Declared(6, a1, Pos(12, 58), Initialized, [1])] + [Referenced(7, e, Pos(14, 38), false, false, [1])] + [OutAssigned(7, [], [1])], Declared(4, a2, Pos(17, 13), Initialized, []), sc);
      AppendNil(DeclsIn(evs, sc));
    }
  }

  /** The locals declared once events 8 to 15 follow some events. */
  lemma {:induction false} Decls1(a1: string, e: string, a2: string, b1: string, b2: string, c1: string, c2: string, c3: string, d1: string, evs: seq<Event>, sc: nat)
    requires DeclsIn(evs, sc) == DeclaredBy(a1, e, a2, b1, b2, c1, c2, c3, d1, 1, sc)
    ensures DeclsIn(evs + Chunk1(a1, e, a2, b1, b2, c1, c2, c3, d1), sc) == DeclaredBy(a1, e, a2, b1, b2, c1, c2, c3, d1, 2, sc)
  {
    DeclsInAppend(evs, Chunk1(a1, e, a2, b1, b2, c1, c2, c3, d1), sc);
    assert DeclsIn([], sc) == [];
    if sc == 10 {
      DeclsInSkip([], Referenced(4, a2, Pos(18, 34), false, false, []), 10);
      DeclsInSkip([] + [Referenced(4, a2, Pos(18, 34), false, false, [])], OutAssigned(4, [], []), 10);
      DeclsInAdd([] + [Referenced(4, a2, Pos(18, 34), false, false, [])] + [OutAssigned(4, [], [])], Declared(10, a2, Pos(25, 42), Initialized, [3]), 10);
      DeclsInSkip([] + [Referenced(4, a2, Pos(18, 34), false, false, [])] + [OutAssigned(4, [], [])] + [Declared(10, a2, Pos(25, 42), Initialized, [3])], OutAssigned(10, [], [3]), 10);
      DeclsInSkip([] + [Referenced(4, a2, Pos(18, 34), false, false, [])] + [OutAssigned(4, [], [])] + [Declared(10, a2, Pos(25, 42), Initialized, [3])] + [OutAssigned(10, [], [3])], Declared(12, b1, Pos(32, 46), Initialized, [5]), 10);
      DeclsInSkip([] + [Referenced(4, a2, Pos(18, 34), false, false, [])] + [OutAssigned(4, [], [])] + [Declared(10, a2, Pos(25, 42), Initialized, [3])] + [OutAssigned(10, [], [3])] + [Declared(12, b1, Pos(32, 46), Initialized, [5])], Declared(12, b1, Pos(32, 59), Initialized, [5]), 10);
      DeclsInSkip([] + [Referenced(4, a2, Pos(18, 34), false, false, [])] + [OutAssigned(4, [], [])] + [Declared(10, a2, Pos(25, 42), Initialized, [3])] + [OutAssigned(10, [], [3])] + [Declared(12, b1, Pos(32, 46), Initialized, [5])] + [Declared(12, b1, Pos(32, 59), Initialized, [5])], Declared(15, b2, Pos(40, 46), Initialized, [7]), 10);
      DeclsInSkip([] + [Referenced(4, a2, Pos(18, 34), false, false, [])] + [OutAssigned(4, [], [])] + [Declared(10, a2, Pos(25, 42), Initialized, [3])] + [OutAssigned(10, [], [3])] + [Declared(12, b1, Pos(32, 46), Initialized, [5])] + [Declared(12, b1, Pos(32, 59), Initialized, [5])] + [Declared(15, b2, Pos(40, 46), Initialized, [7])], Declared(16, b2, Pos(42, 42), Initialized, [7]), 10);
    } else if sc == 12 {
      DeclsInSkip([], Referenced(4, a2, Pos(18, 34), false, false, []), 12);
      DeclsInSkip([] + [Referenced(4, a2, Pos(18, 34), false, false, [])], OutAssigned(4, [], []), 12);
      DeclsInSkip([] + [Referenced(4, a2, Pos(18, 34), false, false, [])] + [OutAssigned(4, [], [])], Declared(10, a2, Pos(25, 42), Initialized, [3]), 12);
      DeclsInSkip([] + [Referenced(4, a2, Pos(18, 34), false, false, [])] + [OutAssigned(4, [], [])] + [Declared(10, a2, Pos(25, 42), Initialized, [3])], OutAssigned(10, [], [3]), 12);
      DeclsInAdd([] + [Referenced(4, a2, Pos(18, 34), false, false, [])] + [OutAssigned(4, [], [])] + [Declared(10, a2, Pos(25, 42), Initialized, [3])] + [OutAssigned(10, [], [3])], Declared(12, b1, Pos(32, 46), Initialized, [5]), 12);
      DeclsInAdd([] + [Referenced(4, a2, Pos(18, 34), false, false, [])] + [OutAssigned(4, [], [])] + [Declared(10, a2, Pos(25, 42), Initialized, [3])] + [OutAssigned(10, [], [3])] + [Declared(12, b1, Pos(32, 46), Initialized, [5])], Declared(12, b1, Pos(32, 59), Initialized, [5]), 12);
      DeclsInSkip([] + [Referenced(4, a2, Pos(18, 34), false, false, [])] + [OutAssigned(4, [], [])] + [Declared(10, a2, Pos(25, 42), Initialized, [3])] + [OutAssigned(10, [], [3])] + [Declared(12, b1, Pos(32, 46), Initialized, [5])] + [Declared(12, b1, Pos(32, 59), Initialized, [5])], Declared(15, b2, Pos(40, 46), Initialized, [7]), 12);
      DeclsInSkip([] + [Referenced(4, a2, Pos(18, 34), false, false, [])] + [OutAssigned(4, [], [])] + [Declared(10, a2, Pos(25, 42), Initialized, [3])] + [OutAssigned(10, [], [3])] + [Declared(12, b1, Pos(32, 46), Initialized, [5])] + [Declared(12, b1, Pos(32, 59), Initialized, [5])] + [Declared(15, b2, Pos(40, 46), Initialized, [7])], Declared(16, b2, Pos(42, 42), Initialized, [7]), 12);
    } else if sc == 15 {
      DeclsInSkip([], Referenced(4, a2, Pos(18, 34), false, false, []), 15);
      DeclsInSkip([] + [Referenced(4, a2, Pos(18, 34), false, false, [])], OutAssigned(4, [], []), 15);
      DeclsInSkip([] + [Referenced(4, a2, Pos(18, 34), false, false, [])] + [OutAssigned(4, [], [])], Declared(10, a2, Pos(25, 42), Initialized, [3]), 15);
      DeclsInSkip([] + [Referenced(4, a2, Pos(18, 34), false, false, [])] + [OutAssigned(4, [], [])] + [Declared(10, a2, Pos(25, 42), Initialized, [3])], OutAssigned(10, [], [3]), 15);
      DeclsInSkip([] + [Referenced(4, a2, Pos(18, 34), false, false, [])] + [OutAssigned(4, [], [])] + [Declared(10, a2, Pos(25, 42), Initialized, [3])] + [OutAssigned(10, [], [3])], Declared(12, b1, Pos(32, 46), Initialized, [5]), 15);
      DeclsInSkip([] + [Referenced(4, a2, Pos(18, 34), false, false, [])] + [OutAssigned(4, [], [])] + [Declared(10, a2, Pos(25, 42), Initialized, [3])] + [OutAssigned(10, [], [3])] + [Declared(12, b1, Pos(32, 46), Initialized, [5])], Declared(12, b1, Pos(32, 59), Initialized, [5]), 15);
      DeclsInAdd([] + [Referenced(4, a2, Pos(18, 34), false, false, [])] + [OutAssigned(4, [], [])] + [Declared(10, a2, Pos(25, 42), Initialized, [3])] + [OutAssigned(10, [], [3])] + [Declared(12, b1, Pos(32, 46), Initialized, [5])] + [Declared(12, b1, Pos(32, 59), Initialized, [5])], Declared(15, b2, Pos(40, 46), Initialized, [7]), 15);
      DeclsInSkip([] + [Referenced(4, a2, Pos(18, 34), false, false, [])] + [OutAssigned(4, [], [])] + [Declared(10, a2, Pos(25, 42), Initialized, [3])] + [OutAssigned(10, [], [3])] + [Declared(12, b1, Pos(32, 46), Initialized, [5])] + [Declared(12, b1, Pos(32, 59), Initialized, [5])] + [Declared(15, b2, Pos(40, 46), Initialized, [7])], Declared(16, b2, Pos(42, 42), Initialized, [7]), 15);
    } else if sc == 16 {
      DeclsInSkip([], Referenced(4, a2, Pos(18, 34), false, false, []), 16);
      DeclsInSkip([] + [Referenced(4, a2, Pos(18, 34), false, false, [])], OutAssigned(4, [], []), 16);
      DeclsInSkip([] + [Referenced(4, a2, Pos(18, 34), false, false, [])] + [OutAssigned(4, [], [])], Declared(10, a2, Pos(25, 42), Initialized, [3]), 16);
      DeclsInSkip([] + [Referenced(4, a2, Pos(18, 34), false, false, [])] + [OutAssigned(4, [], [])] + [Declared(10, a2, Pos(25, 42), Initialized, [3])], OutAssigned(10, [], [3]), 16);
      DeclsInSkip([] + [Referenced(4, a2, Pos(18, 34), false, false, [])] + [OutAssigned(4, [], [])] + [Declared(10, a2, Pos(25, 42), Initialized, [3])] + [OutAssigned(10, [], [3])], Declared(12, b1, Pos(32, 46), Initialized, [5]), 16);
      DeclsInSkip([] + [Referenced(4, a2, Pos(18, 34), false, false, [])] + [OutAssigned(4, [], [])] + [Declared(10, a2, Pos(25, 42), Initialized, [3])] + [OutAssigned(10, [], [3])] + [Declared(12, b1, Pos(32, 46), Initialized, [5])], Declared(12, b1, Pos(32, 59), Initialized, [5]), 16);
      DeclsInSkip([] + [Referenced(4, a2, Pos(18, 34), false, false, [])] + [OutAssigned(4, [], [])] + [Declared(10, a2, Pos(25, 42), Initialized, [3])] + [OutAssigned(10, [], [3])] + [Declared(12, b1, Pos(32, 46), Initialized, [5])] + [Declared(12, b1, Pos(32, 59), Initialized, [5])], Declared(15, b2, Pos(40, 46), Initialized, [7]), 16);
      DeclsInAdd([] + [Referenced(4, a2, Pos(18, 34), false, false, [])] + [OutAssigned(4, [], [])] + [Declared(10, a2, Pos(25, 42), Initialized, [3])] + [OutAssigned(10, [], [3])] + [Declared(12, b1, Pos(32, 46), Initialized, [5])] + [Declared(12, b1, Pos(32, 59), Initialized, [5])] + [Declared(15, b2, Pos(40, 46), Initialized, [7])], Declared(16, b2, Pos(42, 42), Initialized, [7]), 16);
    } else {
      DeclsInSkip([], Referenced(4, a2, Pos(18, 34), false, false, []), sc);
      DeclsInSkip([] + [Referenced(4, a2, Pos(18, 34), false, false, [])], OutAssigned(4, [], []), sc);
      DeclsInSkip([] + [Referenced(4, a2, Pos(18, 34), false, false, [])] + [OutAssigned(4, [], [])], Declared(10, a2, Pos(25, 42), Initialized, [3]), sc);
      DeclsInSkip([] + [Referenced(4, a2, Pos(18, 34), false, false, [])] + [OutAssigned(4, [], [])] + [Declared(10, a2, Pos(25, 42), Initialized, [3])], OutAssigned(10, [], [3]), sc);
      DeclsInSkip([] + [Referenced(4, a2, Pos(18, 34), false, false, [])] + [OutAssigned(4, [], [])] + [Declared(10, a2, Pos(25, 42), Initialized, [3])] + [OutAssigned(10, [], [3])], Declared(12, b1, Pos(32, 46), Initialized, [5]), sc);
      DeclsInSkip([] + [Referenced(4, a2, Pos(18, 34), false, false, [])] + [OutAssigned(4, [], [])] + [Declared(10, a2, Pos(25, 42), Initialized, [3])] + [OutAssigned(10, [], [3])] + [Declared(12, b1, Pos(32, 46), Initialized, [5])], Declared(12, b1, Pos(32, 59), Initialized, [5]), sc);
      DeclsInSkip([] + [Referenced(4, a2, Pos(18, 34), false, false, [])] + [OutAssigned(4, [], [])] + [Declared(10, a2, Pos(25, 42), Initialized, [3])] + [OutAssigned(10, [], [3])] + [Declared(12, b1, Pos(32, 46), Initialized, [5])] + [Declared(12, b1, Pos(32, 59), Initialized, [5])], Declared(15, b2, Pos(40, 46), Initialized, [7]), sc);
      DeclsInSkip([] + [Referenced(4, a2, Pos(18, 34), false, false, [])] + [OutAssigned(4, [], [])] + [Declared(10, a2, Pos(25, 42), Initialized, [3])] + [OutAssigned(10, [], [3])] + [Declared(12, b1, Pos(32, 46), Initialized, [5])] + [Declared(12, b1, Pos(32, 59), Initialized, [5])] + [Declared(15, b2, Pos(40, 46), Initialized, [7])], Declared(16, b2, Pos(42, 42), Initialized, [7]), sc);
      AppendNil(DeclsIn(evs, sc));
    }
  }

  /** The locals declared once events 16 to 23 follow some events. */
  lemma {:induction false} Decls2(a1: string, e: string, a2: string, b1: string, b2: string, c1: string, c2: string, c3: string, d1: string, evs: seq<Event>, sc: nat)
    requires DeclsIn(evs, sc) == DeclaredBy(a1, e, a2, b1, b2, c1, c2, c3, d1, 2, sc)
    ensures DeclsIn(evs + Chunk2(a1, e, a2, b1, b2, c1, c2, c3, d1), sc) == DeclaredBy(a1, e, a2, b1, b2, c1, c2, c3, d1, 3, sc)
  {
    DeclsInAppend(evs, Chunk2(a1, e, a2, b1, b2, c1, c2, c3, d1), sc);
    assert DeclsIn([], sc) == [];
    if sc == 18 {
      DeclsInSkip([], OutAssigned(16, [], [7]), 18);
      DeclsInAdd([] + [OutAssigned(16, [], [7])], Declared(18, c1, Pos(49, 57), Initialized, [9]), 18);
      DeclsInAdd([] + [OutAssigned(16, [], [7])] + [Declared(18, c1, Pos(49, 57), Initialized, [9])], Declared(18, c1, Pos(49, 78), Initialized, [9]), 18);
      DeclsInSkip([] + [OutAssigned(16, [], [7])] + [Declared(18, c1, Pos(49, 57), Initialized, [9])] + [Declared(18, c1, Pos(49, 78), Initialized, [9])], Declared(21, c2, Pos(57, 56), Initialized, [11]), 18);
      DeclsInSkip([] + [OutAssigned(16, [], [7])] + [Declared(18, c1, Pos(49, 57), Initialized, [9])] + [Declared(18, c1, Pos(49, 78), Initialized, [9])] + [Declared(21, c2, Pos(57, 56), Initialized, [11])], Declared(22, c2, Pos(59, 42), Initialized, [11]), 18);
      DeclsInSkip([] + [OutAssigned(16, [], [7])] + [Declared(18, c1, Pos(49, 57), Initialized, [9])] + [Declared(18, c1, Pos(49, 78), Initialized, [9])] + [Declared(21, c2, Pos(57, 56), Initialized, [11])] + [Declared(22, c2, Pos(59, 42), Initialized, [11])], OutAssigned(22, [], [11]), 18);
      DeclsInSkip([] + [OutAssigned(16, [], [7])] + [Declared(18, c1, Pos(49, 57), Initialized, [9])] + [Declared(18, c1, Pos(49, 78), Initialized, [9])] + [Declared(21, c2, Pos(57, 56), Initialized, [11])] + [Declared(22, c2, Pos(59, 42), Initialized, [11])] + [OutAssigned(22, [], [11])], Declared(24, c3, Pos(66, 56), Initialized, [13]), 18);
      DeclsInSkip([] + [OutAssigned(16, [], [7])] + [Declared(18, c1, Pos(49, 57), Initialized, [9])] + [Declared(18, c1, Pos(49, 78), Initialized, [9])] + [Declared(21, c2, Pos(57, 56), Initialized, [11])] + [Declared(22, c2, Pos(59, 42), Initialized, [11])] + [OutAssigned(22, [], [11])] + [Declared(24, c3, Pos(66, 56), Initialized, [13])], Declared(25, c3, Pos(68, 17), Initialized, [13]), 18);
    } else if sc == 21 {
      DeclsInSkip([], OutAssigned(16, [], [7]), 21);
      DeclsInSkip([] + [OutAssigned(16, [], [7])], Declared(18, c1, Pos(49, 57), Initialized, [9]), 21);
      DeclsInSkip([] + [OutAssigned(16, [], [7])] + [Declared(18, c1, Pos(49, 57), Initialized, [9])], Declared(18, c1, Pos(49, 78), Initialized, [9]), 21);
      DeclsInAdd([] + [OutAssigned(16, [], [7])] + [Declared(18, c1, Pos(49, 57), Initialized, [9])] + [Declared(18, c1, Pos(49, 78), Initialized, [9])], Declared(21, c2, Pos(57, 56), Initialized, [11]), 21);
      DeclsInSkip([] + [OutAssigned(16, [], [7])] + [Declared(18, c1, Pos(49, 57), Initialized, [9])] + [Declared(18, c1, Pos(49, 78), Initialized, [9])] + [Declared(21, c2, Pos(57, 56), Initialized, [11])], Declared(22, c2, Pos(59, 42), Initialized, [11]), 21);
      DeclsInSkip([] + [OutAssigned(16, [], [7])] + [Declared(18, c1, Pos(49, 57), Initialized, [9])] + [Declared(18, c1, Pos(49, 78), Initialized, [9])] + [Declared(21, c2, Pos(57, 56), Initialized, [11])] + [Declared(22, c2, Pos(59, 42), Initialized, [11])], OutAssigned(22, [], [11]), 21);
      DeclsInSkip([] + [OutAssigned(16, [], [7])] + [Declared(18, c1, Pos(49, 57), Initialized, [9])] + [Declared(18, c1, Pos(49, 78), Initialized, [9])] + [Declared(21, c2, Pos(57, 56), Initialized, [11])] + [Declared(22, c2, Pos(59, 42), Initialized, [11])] + [OutAssigned(22, [], [11])], Declared(24, c3, Pos(66, 56), Initialized, [13]), 21);
      DeclsInSkip([] + [OutAssigned(16, [], [7])] + [Declared(18, c1, Pos(49, 57), Initialized, [9])] + [Declared(18, c1, Pos(49, 78), Initialized, [9])] + [Declared(21, c2, Pos(57, 56), Initialized, [11])] + [Declared(22, c2, Pos(59, 42), Initialized, [11])] + [OutAssigned(22, [], [11])] + [Declared(24, c3, Pos(66, 56), Initialized, [13])], Declared(25, c3, Pos(68, 17), Initialized, [13]), 21);
    } else if sc == 22 {
      DeclsInSkip([], OutAssigned(16, [], [7]), 22);
      DeclsInSkip([] + [OutAssigned(16, [], [7])], Declared(18, c1, Pos(49, 57), Initialized, [9]), 22);
      DeclsInSkip([] + [OutAssigned(16, [], [7])] + [Declared(18, c1, Pos(49, 57), Initialized, [9])], Declared(18, c1, Pos(49, 78), Initialized, [9]), 22);
      DeclsInSkip([] + [OutAssigned(16, [], [7])] + [Declared(18, c1, Pos(49, 57), Initialized, [9])] + [Declared(18, c1, Pos(49, 78), Initialized, [9])], Declared(21, c2, Pos(57, 56), Initialized, [11]), 22);
      DeclsInAdd([] + [OutAssigned(16, [], [7])] + [Declared(18, c1, Pos(49, 57), Initialized, [9])] + [Declared(18, c1, Pos(49, 78), Initialized, [9])] + [Declared(21, c2, Pos(57, 56), Initialized, [11])], Declared(22, c2, Pos(59, 42), Initialized, [11]), 22);
      DeclsInSkip([] + [OutAssigned(16, [], [7])] + [Declared(18, c1, Pos(49, 57), Initialized, [9])] + [Declared(18, c1, Pos(49, 78), Initialized, [9])] + [Declared(21, c2, Pos(57, 56), Initialized, [11])] + [Declared(22, c2, Pos(59, 42), Initialized, [11])], OutAssigned(22, [], [11]), 22);
      DeclsInSkip([] + [OutAssigned(16, [], [7])] + [Declared(18, c1, Pos(49, 57), Initialized, [9])] + [Declared(18, c1, Pos(49, 78), Initialized, [9])] + [Declared(21, c2, Pos(57, 56), Initialized, [11])] + [Declared(22, c2, Pos(59, 42), Initialized, [11])] + [OutAssigned(22, [], [11])], Declared(24, c3, Pos(66, 56), Initialized, [13]), 22);
      DeclsInSkip([] + [OutAssigned(16, [], [7])] + [Declared(18, c1, Pos(49, 57), Initialized, [9])] + [Declared(18, c1, Pos(49, 78), Initialized, [9])] + [Declared(21, c2, Pos(57, 56), Initialized, [11])] + [Declared(22, c2, Pos(59, 42), Initialized, [11])] + [OutAssigned(22, [], [11])] + [Declared(24, c3, Pos(66, 56), Initialized, [13])], Declared(25, c3, Pos(68, 17), Initialized, [13]), 22);
    } else if sc == 24 {
      DeclsInSkip([], OutAssigned(16, [], [7]), 24);
      DeclsInSkip([] + [OutAssigned(16, [], [7])], Declared(18, c1, Pos(49, 57), Initialized, [9]), 24);
      DeclsInSkip([] + [OutAssigned(16, [], [7])] + [Declared(18, c1, Pos(49, 57), Initialized, [9])], Declared(18, c1, Pos(49, 78), Initialized, [9]), 24);
      DeclsInSkip([] + [OutAssigned(16, [], [7])] + [Declared(18, c1, Pos(49, 57), Initialized, [9])] + [Declared(18, c1, Pos(49, 78), Initialized, [9])], Declared(21, c2, Pos(57, 56), Initialized, [11]), 24);
      DeclsInSkip([] + [OutAssigned(16, [], [7])] + [Declared(18, c1, Pos(49, 57), Initialized, [9])] + [Declared(18, c1, Pos(49, 78), Initialized, [9])] + [Declared(21, c2, Pos(57, 56), Initialized, [11])], Declared(22, c2, Pos(59, 42), Initialized, [11]), 24);
      DeclsInSkip([] + [OutAssigned(16, [], [7])] + [Declared(18, c1, Pos(49, 57), Initialized, [9])] + [Declared(18, c1, Pos(49, 78), Initialized, [9])] + [Declared(21, c2, Pos(57, 56), Initialized, [11])] + [Declared(22, c2, Pos(59, 42), Initialized, [11])], OutAssigned(22, [], [11]), 24);
      DeclsInAdd([] + [OutAssigned(16, [], [7])] + [Declared(18, c1, Pos(49, 57), Initialized, [9])] + [Declared(18, c1, Pos(49, 78), Initialized, [9])] + [Declared(21, c2, Pos(57, 56), Initialized, [11])] + [Declared(22, c2, Pos(59, 42), Initialized, [11])] + [OutAssigned(22, [], [11])], Declared(24, c3, Pos(66, 56), Initialized, [13]), 24);
      DeclsInSkip([] + [OutAssigned(16, [], [7])] + [Declared(18, c1, Pos(49, 57), Initialized, [9])] + [Declared(18, c1, Pos(49, 78), Initialized, [9])] + [Declared(21, c2, Pos(57, 56), Initialized, [11])] + [Declared(22, c2, Pos(59, 42), Initialized, [11])] + [OutAssigned(22, [], [11])] + [Declared(24, c3, Pos(66, 56), Initialized, [13])], Declared(25, c3, Pos(68, 17), Initialized, [13]), 24);
    } else if sc == 25 {
      DeclsInSkip([], OutAssigned(16, [], [7]), 25);
      DeclsInSkip([] + [OutAssigned(16, [], [7])], Declared(18, c1, Pos(49, 57), Initialized, [9]), 25);
      DeclsInSkip([] + [OutAssigned(16, [], [7])] + [Declared(18, c1, Pos(49, 57), Initialized, [9])], Declared(18, c1, Pos(49, 78), Initialized, [9]), 25);
      DeclsInSkip([] + [OutAssigned(16, [], [7])] + [Declared(18, c1, Pos(49, 57), Initialized, [9])] + [Declared(18, c1, Pos(49, 78), Initialized, [9])], Declared(21, c2, Pos(57, 56), Initialized, [11]), 25);
      DeclsInSkip([] + [OutAssigned(16, [], [7])] + [Declared(18, c1, Pos(49, 57), Initialized, [9])] + [Declared(18, c1, Pos(49, 78), Initialized, [9])] + [Declared(21, c2, Pos(57, 56), Initialized, [11])], Declared(22, c2, Pos(59, 42), Initialized, [11]), 25);
      DeclsInSkip([] + [OutAssigned(16, [], [7])] + [Declared(18, c1, Pos(49, 57), Initialized, [9])] + [Declared(18, c1, Pos(49, 78), Initialized, [9])] + [Declared(21, c2, Pos(57, 56), Initialized, [11])] + [Declared(22, c2, Pos(59, 42), Initialized, [11])], OutAssigned(22, [], [11]), 25);
      DeclsInSkip([] + [OutAssigned(16, [], [7])] + [Declared(18, c1, Pos(49, 57), Initialized, [9])] + [Declared(18, c1, Pos(49, 78), Initialized, [9])] + [Declared(21, c2, Pos(57, 56), Initialized, [11])] + [Declared(22, c2, Pos(59, 42), Initialized, [11])] + [OutAssigned(22, [], [11])], Declared(24, c3, Pos(66, 56), Initialized, [13]), 25);
      DeclsInAdd([] + [OutAssigned(16, [], [7])] + [Declared(18, c1, Pos(49, 57), Initialized, [9])] + [Declared(18, c1, Pos(49, 78), Initialized, [9])] + [Declared(21, c2, Pos(57, 56), Initialized, [11])] + [Declared(22, c2, Pos(59, 42), Initialized, [11])] + [OutAssigned(22, [], [11])] + [Declared(24, c3, Pos(66, 56), Initialized, [13])], Declared(25, c3, Pos(68, 17), Initialized, [13]), 25);
    } else {
      DeclsInSkip([], OutAssigned(16, [], [7]), sc);
      DeclsInSkip([] + [OutAssigned(16, [], [7])], Declared(18, c1, Pos(49, 57), Initialized, [9]), sc);
      DeclsInSkip([] + [OutAssigned(16, [], [7])] + [Declared(18, c1, Pos(49, 57), Initialized, [9])], Declared(18, c1, Pos(49, 78), Initialized, [9]), sc);
      DeclsInSkip([] + [OutAssigned(16, [], [7])] + [Declared(18, c1, Pos(49, 57), Initialized, [9])] + [Declared(18, c1, Pos(49, 78), Initialized, [9])], Declared(21, c2, Pos(57, 56), Initialized, [11]), sc);
      DeclsInSkip([] + [OutAssigned(16, [], [7])] + [Declared(18, c1, Pos(49, 57), Initialized, [9])] + [Declared(18, c1, Pos(49, 78), Initialized, [9])] + [Declared(21, c2, Pos(57, 56), Initialized, [11])], Declared(22, c2, Pos(59, 42), Initialized, [11]), sc);
      DeclsInSkip([] + [OutAssigned(16, [], [7])] + [Declared(18, c1, Pos(49, 57), Initialized, [9])] + [Declared(18, c1, Pos(49, 78), Initialized, [9])] + [Declared(21, c2, Pos(57, 56), Initialized, [11])] + [Declared(22, c2, Pos(59, 42), Initialized, [11])], OutAssigned(22, [], [11]), sc);
      DeclsInSkip([] + [OutAssigned(16, [], [7])] + [Declared(18, c1, Pos(49, 57), Initialized, [9])] + [Declared(18, c1, Pos(49, 78), Initialized, [9])] + [Declared(21, c2, Pos(57, 56), Initialized, [11])] + [Declared(22, c2, Pos(59, 42), Initialized, [11])] + [OutAssigned(22, [], [11])], Declared(24, c3, Pos(66, 56), Initialized, [13]), sc);
      DeclsInSkip([] + [OutAssigned(16, [], [7])] + [Declared(18, c1, Pos(49, 57), Initialized, [9])] + [Declared(18, c1, Pos(49, 78), Initialized, [9])] + [Declared(21, c2, Pos(57, 56), Initialized, [11])] + [Declared(22, c2, Pos(59, 42), Initialized, [11])] + [OutAssigned(22, [], [11])] + [Declared(24, c3, Pos(66, 56), Initialized, [13])], Declared(25, c3, Pos(68, 17), Initialized, [13]), sc);
      AppendNil(DeclsIn(evs, sc));
    }
  }

  /** The locals declared once events 24 to 28 follow some events. */
  lemma {:induction false} Decls3(a1: string, e: string, a2: string, b1: string, b2: string, c1: string, c2: string, c3: string, d1: string, evs: seq<Event>, sc: nat)
    requires DeclsIn(evs, sc) == DeclaredBy(a1, e, a2, b1, b2, c1, c2, c3, d1, 3, sc)
    ensures DeclsIn(evs + Chunk3(a1, e, a2, b1, b2, c1, c2, c3, d1), sc) == DeclaredBy(a1, e, a2, b1, b2, c1, c2, c3, d1, 4, sc)
  {
    DeclsInAppend(evs, Chunk3(a1, e, a2, b1, b2, c1, c2, c3, d1), sc);
    assert DeclsIn([], sc) == [];
    if sc == 28 {
      DeclsInSkip([], Referenced(25, c3, Pos(69, 38), false, false, [13]), 28);
      DeclsInSkip([] + [Referenced(25, c3, Pos(69, 38), false, false, [13])], OutAssigned(25, [], [13]), 28);
      DeclsInAdd([] + [Referenced(25, c3, Pos(69, 38), false, false, [13])] + [OutAssigned(25, [], [13])], Declared(28, d1, Pos(78, 44), Initialized, [15]), 28);
      DeclsInAdd([] + [Referenced(25, c3, Pos(69, 38), false, false, [13])] + [OutAssigned(25, [], [13])] + [Declared(28, d1, Pos(78, 44), Initialized, [15])], Declared(28, d1, Pos(78, 65), Initialized, [15]), 28);
      DeclsInSkip([] + [Referenced(25, c3, Pos(69, 38), false, false, [13])] + [OutAssigned(25, [], [13])] + [Declared(28, d1, Pos(78, 44), Initialized, [15])] + [Declared(28, d1, Pos(78, 65), Initialized, [15])], OutAssigned(28, [], [15]), 28);
    } else {
      DeclsInSkip([], Referenced(25, c3, Pos(69, 38), false, false, [13]), sc);
      DeclsInSkip([] + [Referenced(25, c3, Pos(69, 38), false, false, [13])], OutAssigned(25, [], [13]), sc);
      DeclsInSkip([] + [Referenced(25, c3, Pos(69, 38), false, false, [13])] + [OutAssigned(25, [], [13])], Declared(28, d1, Pos(78, 44), Initialized, [15]), sc);
      DeclsInSkip([] + [Referenced(25, c3, Pos(69, 38), false, false, [13])] + [OutAssigned(25, [], [13])] + [Declared(28, d1, Pos(78, 44), Initialized, [15])], Declared(28, d1, Pos(78, 65), Initialized, [15]), sc);
      DeclsInSkip([] + [Referenced(25, c3, Pos(69, 38), false, false, [13])] + [OutAssigned(25, [], [13])] + [Declared(28, d1, Pos(78, 44), Initialized, [15])] + [Declared(28, d1, Pos(78, 65), Initialized, [15])], OutAssigned(28, [], [15]), sc);
      AppendNil(DeclsIn(evs, sc));
    }
  }

  lemma {:induction false} DeclsStage0(a1: string, e: string, a2: string, b1: string, b2: string, c1: string, c2: string, c3: string, d1: string, evs: seq<Event>, sc: nat)
    requires DeclsIn(evs, sc) == DeclaredBy(a1, e, a2, b1, b2, c1, c2, c3, d1, 0, sc)
    ensures DeclsIn(evs + Chunk0(a1, e, a2, b1, b2, c1, c2, c3, d1) + Chunk1(a1, e, a2, b1, b2, c1, c2, c3, d1) + Chunk2(a1, e, a2, b1, b2, c1, c2, c3, d1) + Chunk3(a1, e, a2, b1, b2, c1, c2, c3, d1), sc) == DeclaredBy(a1, e, a2, b1, b2, c1, c2, c3, d1, 4, sc)
  {
    Decls0(a1, e, a2, b1, b2, c1, c2, c3, d1, evs, sc);
    Decls1(a1, e, a2, b1, b2, c1, c2, c3, d1, evs + Chunk0(a1, e, a2, b1, b2, c1, c2, c3, d1), sc);
    Decls2(a1, e, a2, b1, b2, c1, c2, c3, d1, evs + Chunk0(a1, e, a2, b1, b2, c1, c2, c3, d1) + Chunk1(a1, e, a2, b1, b2, c1, c2, c3, d1), sc);
    Decls3(a1, e, a2, b1, b2, c1, c2, c3, d1, evs + Chunk0(a1, e, a2, b1, b2, c1, c2, c3, d1) + Chunk1(a1, e, a2, b1, b2, c1, c2, c3, d1) + Chunk2(a1, e, a2, b1, b2, c1, c2, c3, d1), sc);
  }

  /** The locals of every scope of a tree whose events are the test's, as the table gives them. */
  ghost predicate LocalsFit(a1: string, e: string, a2: string, b1: string, b2: string, c1: string, c2: string, c3: string, d1: string, tr: Tree) {
    forall sc: nat {:trigger DeclaredBy(a1, e, a2, b1, b2, c1, c2, c3, d1, 4, sc)} :: LocalsOf(tr, sc) == DeclaredBy(a1, e, a2, b1, b2, c1, c2, c3, d1, 4, sc)
  }

  /** The locals of every scope. */
  lemma {:induction false} LocalsAll(a1: string, e: string, a2: string, b1: string, b2: string, c1: string, c2: string, c3: string, d1: string, tr: Tree)
    requires tr.events == Trace(a1, e, a2, b1, b2, c1, c2, c3, d1)
    ensures LocalsFit(a1, e, a2, b1, b2, c1, c2, c3, d1, tr)
  {
    forall sc: nat
      ensures LocalsOf(tr, sc) == DeclaredBy(a1, e, a2, b1, b2, c1, c2, c3, d1, 4, sc)
    {
      assert DeclsIn([], sc) == [] == DeclaredBy(a1, e, a2, b1, b2, c1, c2, c3, d1, 0, sc);
      DeclsStage0(a1, e, a2, b1, b2, c1, c2, c3, d1, [], sc);
    }
  }

  /** The locals scope 0 declares, in order. */
  lemma {:induction false} Locals0(a1: string, e: string, a2: string, b1: string, b2: string, c1: string, c2: string, c3: string, d1: string)
    ensures DeclaredBy(a1, e, a2, b1, b2, c1, c2, c3, d1, 4, 0) == []
  {
    AppendNil([]);
    assert DeclaredBy(a1, e, a2, b1, b2, c1, c2, c3, d1, 1, 0) == [];
    assert DeclaredBy(a1, e, a2, b1, b2, c1, c2, c3, d1, 2, 0) == [];
    assert DeclaredBy(a1, e, a2, b1, b2, c1, c2, c3, d1, 3, 0) == [];
    assert DeclaredBy(a1, e, a2, b1, b2, c1, c2, c3, d1, 4, 0) == [];
  }

  /** The locals scope 3 declares, in order. */
  lemma {:induction false} Locals3(a1: string, e: string, a2: string, b1: string, b2: string, c1: string, c2: string, c3: string, d1: string)
    ensures DeclaredBy(a1, e, a2, b1, b2, c1, c2, c3, d1, 4, 3) == []
  {
    AppendNil([]);
    assert DeclaredBy(a1, e, a2, b1, b2, c1, c2, c3, d1, 1, 3) == [];
    assert DeclaredBy(a1, e, a2, b1, b2, c1, c2, c3, d1, 2, 3) == [];
    assert DeclaredBy(a1, e, a2, b1, b2, c1, c2, c3, d1, 3, 3) == [];
    assert DeclaredBy(a1, e, a2, b1, b2, c1, c2, c3, d1, 4, 3) == [];
  }

  /** The locals scope 4 declares, in order. */
  lemma {:induction false} Locals4(a1: string, e: string, a2: string, b1: string, b2: string, c1: string, c2: string, c3: string, d1: string)
    ensures DeclaredBy(a1, e, a2, b1, b2, c1, c2, c3, d1, 4, 4) == [Local(a1, Pos(6, 13)), Local(a2, Pos(17, 13))]
  {
    assert DeclaredBy(a1, e, a2, b1, b2, c1, c2, c3, d1, 1, 4) == [Local(a1, Pos(6, 13)), Local(a2, Pos(17, 13))];
    AppendNil([Local(a1, Pos(6, 13)), Local(a2, Pos(17, 13))]);
    assert DeclaredBy(a1, e, a2, b1, b2, c1, c2, c3, d1, 2, 4) == [Local(a1, Pos(6, 13)), Local(a2, Pos(17, 13))];
    assert DeclaredBy(a1, e, a2, b1, b2, c1, c2, c3, d1, 3, 4) == [Local(a1, Pos(6, 13)), Local(a2, Pos(17, 13))];
    assert DeclaredBy(a1, e, a2, b1, b2, c1, c2, c3, d1, 4, 4) == [Local(a1, Pos(6, 13)), Local(a2, Pos(17, 13))];
  }

  /** The locals scope 6 declares, in order. */
  lemma {:induction false} Locals6(a1: string, e: string, a2: string, b1: string, b2: string, c1: string, c2: string, c3: string, d1: string)
    ensures DeclaredBy(a1, e, a2, b1, b2, c1, c2, c3, d1, 4, 6) == [Local(e, Pos(12, 46)), Local(a1, Pos(12, 58))]
  {
    assert DeclaredBy(a1, e, a2, b1, b2, c1, c2, c3, d1, 1, 6) == [Local(e, Pos(12, 46)), Local(a1, Pos(12, 58))];
    AppendNil([Local(e, Pos(12, 46)), Local(a1, Pos(12, 58))]);
    assert DeclaredBy(a1, e, a2, b1, b2, c1, c2, c3, d1, 2, 6) == [Local(e, Pos(12, 46)), Local(a1, Pos(12, 58))];
    assert DeclaredBy(a1, e, a2, b1, b2, c1, c2, c3, d1, 3, 6) == [Local(e, Pos(12, 46)), Local(a1, Pos(12, 58))];
    assert DeclaredBy(a1, e, a2, b1, b2, c1, c2, c3, d1, 4, 6) == [Local(e, Pos(12, 46)), Local(a1, Pos(12, 58))];
  }

  /** The locals scope 7 declares, in order. */
  lemma {:induction false} Locals7(a1: string, e: string, a2: string, b1: string, b2: string, c1: string, c2: string, c3: string, d1: string)
    ensures DeclaredBy(a1, e, a2, b1, b2, c1, c2, c3, d1, 4, 7) == []
  {
    AppendNil([]);
    assert DeclaredBy(a1, e, a2, b1, b2, c1, c2, c3, d1, 1, 7) == [];
    assert DeclaredBy(a1, e, a2, b1, b2, c1, c2, c3, d1, 2, 7) == [];
    assert DeclaredBy(a1, e, a2, b1, b2, c1, c2, c3, d1, 3, 7) == [];
    assert DeclaredBy(a1, e, a2, b1, b2, c1, c2, c3, d1, 4, 7) == [];
  }

  /** The locals scope 9 declares, in order. */
  lemma {:induction false} Locals9(a1: string, e: string, a2: string, b1: string, b2: string, c1: string, c2: string, c3: string, d1: string)
    ensures DeclaredBy(a1, e, a2, b1, b2, c1, c2, c3, d1, 4, 9) == []
  {
    AppendNil([]);
    assert DeclaredBy(a1, e, a2, b1, b2, c1, c2, c3, d1, 1, 9) == [];
    assert DeclaredBy(a1, e, a2, b1, b2, c1, c2, c3, d1, 2, 9) == [];
    assert DeclaredBy(a1, e, a2, b1, b2, c1, c2, c3, d1, 3, 9) == [];
    assert DeclaredBy(a1, e, a2, b1, b2, c1, c2, c3, d1, 4, 9) == [];
  }

  /** The locals scope 10 declares, in order. */
  lemma {:induction false} Locals10(a1: string, e: string, a2: string, b1: string, b2: string, c1: string, c2: string, c3: string, d1: string)
    ensures DeclaredBy(a1, e, a2, b1, b2, c1, c2, c3, d1, 4, 10) == [Local(a2, Pos(25, 42))]
  {
    AppendNil([]);
    assert DeclaredBy(a1, e, a2, b1, b2, c1, c2, c3, d1, 1, 10) == [];
    assert DeclaredBy(a1, e, a2, b1, b2, c1, c2, c3, d1, 2, 10) == [Local(a2, Pos(25, 42))];
    AppendNil([Local(a2, Pos(25, 42))]);
    assert DeclaredBy(a1, e, a2, b1, b2, c1, c2, c3, d1, 3, 10) == [Local(a2, Pos(25, 42))];
    assert DeclaredBy(a1, e, a2, b1, b2, c1, c2, c3, d1, 4, 10) == [Local(a2, Pos(25, 42))];
  }

  /** The locals scope 12 declares, in order. */
  lemma {:induction false} Locals12(a1: string, e: string, a2: string, b1: string, b2: string, c1: string, c2: string, c3: string, d1: string)
    ensures DeclaredBy(a1, e, a2, b1, b2, c1, c2, c3, d1, 4, 12) == [Local(b1, Pos(32, 46)), Local(b1, Pos(32, 59))]
  {
    AppendNil([]);
    assert DeclaredBy(a1, e, a2, b1, b2, c1, c2, c3, d1, 1, 12) == [];
    assert DeclaredBy(a1, e, a2, b1, b2, c1, c2, c3, d1, 2, 12) == [Local(b1, Pos(32, 46)), Local(b1, Pos(32, 59))];
    AppendNil([Local(b1, Pos(32, 46)), Local(b1, Pos(32, 59))]);
    assert DeclaredBy(a1, e, a2, b1, b2, c1, c2, c3, d1, 3, 12) == [Local(b1, Pos(32, 46)), Local(b1, Pos(32, 59))];
    assert DeclaredBy(a1, e, a2, b1, b2, c1, c2, c3, d1, 4, 12) == [Local(b1, Pos(32, 46)), Local(b1, Pos(32, 59))];
  }

  /** The locals scope 15 declares, in order. */
  lemma {:induction false} Locals15(a1: string, e: string, a2: string, b1: string, b2: string, c1: string, c2: string, c3: string, d1: string)
    ensures DeclaredBy(a1, e, a2, b1, b2, c1, c2, c3, d1, 4, 15) == [Local(b2, Pos(40, 46))]
  {
    AppendNil([]);
    assert DeclaredBy(a1, e, a2, b1, b2, c1, c2, c3, d1, 1, 15) == [];
    assert DeclaredBy(a1, e, a2, b1, b2, c1, c2, c3, d1, 2, 15) == [Local(b2, Pos(40, 46))];
    AppendNil([Local(b2, Pos(40, 46))]);
    assert DeclaredBy(a1, e, a2, b1, b2, c1, c2, c3, d1, 3, 15) == [Local(b2, Pos(40, 46))];
    assert DeclaredBy(a1, e, a2, b1, b2, c1, c2, c3, d1, 4, 15) == [Local(b2, Pos(40, 46))];
  }

  /** The locals scope 16 declares, in order. */
  lemma {:induction false} Locals16(a1: string, e: string, a2: string, b1: string, b2: string, c1: string, c2: string, c3: string, d1: string)
    ensures DeclaredBy(a1, e, a2, b1, b2, c1, c2, c3, d1, 4, 16) == [Local(b2, Pos(42, 42))]
  {
    AppendNil([]);
    assert DeclaredBy(a1, e, a2, b1, b2, c1, c2, c3, d1, 1, 16) == [];
    assert DeclaredBy(a1, e, a2, b1, b2, c1, c2, c3, d1, 2, 16) == [Local(b2, Pos(42, 42))];
    AppendNil([Local(b2, Pos(42, 42))]);
    assert DeclaredBy(a1, e, a2, b1, b2, c1, c2, c3, d1, 3, 16) == [Local(b2, Pos(42, 42))];
    assert DeclaredBy(a1, e, a2, b1, b2, c1, c2, c3, d1, 4, 16) == [Local(b2, Pos(42, 42))];
  }

  /** The locals scope 18 declares, in order. */
  lemma {:induction false} Locals18(a1: string, e: string, a2: string, b1: string, b2: string, c1: string, c2: string, c3: string, d1: string)
    ensures DeclaredBy(a1, e, a2, b1, b2, c1, c2, c3, d1, 4, 18) == [Local(c1, Pos(49, 57)), Local(c1, Pos(49, 78))]
  {
    AppendNil([]);
    assert DeclaredBy(a1, e, a2, b1, b2, c1, c2, c3, d1, 1, 18) == [];
    assert DeclaredBy(a1, e, a2, b1, b2, c1, c2, c3, d1, 2, 18) == [];
    assert DeclaredBy(a1, e, a2, b1, b2, c1, c2, c3, d1, 3, 18) == [Local(c1, Pos(49, 57)), Local(c1, Pos(49, 78))];
    AppendNil([Local(c1, Pos(49, 57)), Local(c1, Pos(49, 78))]);
    assert DeclaredBy(a1, e, a2, b1, b2, c1, c2, c3, d1, 4, 18) == [Local(c1, Pos(49, 57)), Local(c1, Pos(49, 78))];
  }

  /** The locals scope 21 declares, in order. */
  lemma {:induction false} Locals21(a1: string, e: string, a2: string, b1: string, b2: string, c1: string, c2: string, c3: string, d1: string)
    ensures DeclaredBy(a1, e, a2, b1, b2, c1, c2, c3, d1, 4, 21) == [Local(c2, Pos(57, 56))]
  {
    AppendNil([]);
    assert DeclaredBy(a1, e, a2, b1, b2, c1, c2, c3, d1, 1, 21) == [];
    assert DeclaredBy(a1, e, a2, b1, b2, c1, c2, c3, d1, 2, 21) == [];
    assert DeclaredBy(a1, e, a2, b1, b2, c1, c2, c3, d1, 3, 21) == [Local(c2, Pos(57, 56))];
    AppendNil([Local(c2, Pos(57, 56))]);
    assert DeclaredBy(a1, e, a2, b1, b2, c1, c2, c3, d1, 4, 21) == [Local(c2, Pos(57, 56))];
  }

  /** The locals scope 22 declares, in order. */
  lemma {:induction false} Locals22(a1: string, e: string, a2: string, b1: string, b2: string, c1: string, c2: string, c3: string, d1: string)
    ensures DeclaredBy(a1, e, a2, b1, b2, c1, c2, c3, d1, 4, 22) == [Local(c2, Pos(59, 42))]
  {
    AppendNil([]);
    assert DeclaredBy(a1, e, a2, b1, b2, c1, c2, c3, d1, 1, 22) == [];
    assert DeclaredBy(a1, e, a2, b1, b2, c1, c2, c3, d1, 2, 22) == [];
    assert DeclaredBy(a1, e, a2, b1, b2, c1, c2, c3, d1, 3, 22) == [Local(c2, Pos(59, 42))];
    AppendNil([Local(c2, Pos(59, 42))]);
    assert DeclaredBy(a1, e, a2, b1, b2, c1, c2, c3, d1, 4, 22) == [Local(c2, Pos(59, 42))];
  }

  /** The locals scope 24 declares, in order. */
  lemma {:induction false} Locals24(a1: string, e: string, a2: string, b1: string, b2: string, c1: string, c2: string, c3: string, d1: string)
    ensures DeclaredBy(a1, e, a2, b1, b2, c1, c2, c3, d1, 4, 24) == [Local(c3, Pos(66, 56))]
  {
    AppendNil([]);
    assert DeclaredBy(a1, e, a2, b1, b2, c1, c2, c3, d1, 1, 24) == [];
    assert DeclaredBy(a1, e, a2, b1, b2, c1, c2, c3, d1, 2, 24) == [];
    assert DeclaredBy(a1, e, a2, b1, b2, c1, c2, c3, d1, 3, 24) == [Local(c3, Pos(66, 56))];
    AppendNil([Local(c3, Pos(66, 56))]);
    assert DeclaredBy(a1, e, a2, b1, b2, c1, c2, c3, d1, 4, 24) == [Local(c3, Pos(66, 56))];
  }

  /** The locals scope 25 declares, in order. */
  lemma {:induction false} Locals25(a1: string, e: string, a2: string, b1: string, b2: string, c1: string, c2: string, c3: string, d1: string)
    ensures DeclaredBy(a1, e, a2, b1, b2, c1, c2, c3, d1, 4, 25) == [Local(c3, Pos(68, 17))]
  {
    AppendNil([]);
    assert DeclaredBy(a1, e, a2, b1, b2, c1, c2, c3, d1, 1, 25) == [];
    assert DeclaredBy(a1, e, a2, b1, b2, c1, c2, c3, d1, 2, 25) == [];
    assert DeclaredBy(a1, e, a2, b1, b2, c1, c2, c3, d1, 3, 25) == [Local(c3, Pos(68, 17))];
    AppendNil([Local(c3, Pos(68, 17))]);
    assert DeclaredBy(a1, e, a2, b1, b2, c1, c2, c3, d1, 4, 25) == [Local(c3, Pos(68, 17))];
  }

  /** The locals scope 27 declares, in order. */
  lemma {:induction false} Locals27(a1: string, e: string, a2: string, b1: string, b2: string, c1: string, c2: string, c3: string, d1: string)
    ensures DeclaredBy(a1, e, a2, b1, b2, c1, c2, c3, d1, 4, 27) == []
  {
    AppendNil([]);
    assert DeclaredBy(a1, e, a2, b1, b2, c1, c2, c3, d1, 1, 27) == [];
    assert DeclaredBy(a1, e, a2, b1, b2, c1, c2, c3, d1, 2, 27) == [];
    assert DeclaredBy(a1, e, a2, b1, b2, c1, c2, c3, d1, 3, 27) == [];
    assert DeclaredBy(a1, e, a2, b1, b2, c1, c2, c3, d1, 4, 27) == [];
  }

  /** The locals scope 28 declares, in order. */
  lemma {:induction false} Locals28(a1: string, e: string, a2: string, b1: string, b2: string, c1: string, c2: string, c3: string, d1: string)
    ensures DeclaredBy(a1, e, a2, b1, b2, c1, c2, c3, d1, 4, 28) == [Local(d1, Pos(78, 44)), Local(d1, Pos(78, 65))]
  {
    AppendNil([]);
    assert DeclaredBy(a1, e, a2, b1, b2, c1, c2, c3, d1, 1, 28) == [];
    assert DeclaredBy(a1, e, a2, b1, b2, c1, c2, c3, d1, 2, 28) == [];
    assert DeclaredBy(a1, e, a2, b1, b2, c1, c2, c3, d1, 3, 28) == [];
    assert DeclaredBy(a1, e, a2, b1, b2, c1, c2, c3, d1, 4, 28) == [Local(d1, Pos(78, 44)), Local(d1, Pos(78, 65))];
  }

  /** The assignments known after event 7. */
  function Known0(a1: string, e: string, a2: string, b1: string, b2: string, c1: string, c2: string, c3: string, d1: string): seq<Fact> {
    []
      + [Fact(4, a1, [])]
      + [Fact(6, e, [1])]
      + [Fact(6, a1, [1])]
      + [Fact(4, a2, [])]
  }

  /** Whether a local is assigned after the assignments of events 0 to 7. */
  lemma {:induction false} Assigned0(a1: string, e: string, a2: string, b1: string, b2: string, c1: string, c2: string, c3: string, d1: string, fs: seq<Fact>, sc: nat, nm: string, pth: seq<nat>)
    ensures Assigned(fs + [Fact(4, a1, [])] + [Fact(6, e, [1])] + [Fact(6, a1, [1])] + [Fact(4, a2, [])], sc, nm, pth) == (
      Assigned(fs, sc, nm, pth) ||
      (4 == sc && a1 == nm && [] <= pth) ||
      (6 == sc && e == nm && [1] <= pth) ||
      (6 == sc && a1 == nm && [1] <= pth) ||
      (4 == sc && a2 == nm && [] <= pth))
  {
    AssignedSnoc(fs, Fact(4, a1, []), sc, nm, pth);
    AssignedSnoc(fs + [Fact(4, a1, [])], Fact(6, e, [1]), sc, nm, pth);
    AssignedSnoc(fs + [Fact(4, a1, [])] + [Fact(6, e, [1])], Fact(6, a1, [1]), sc, nm, pth);
    AssignedSnoc(fs + [Fact(4, a1, [])] + [Fact(6, e, [1])] + [Fact(6, a1, [1])], Fact(4, a2, []), sc, nm, pth);
  }

  /** The assignments known after event 15. */
  function Known1(a1: string, e: string, a2: string, b1: string, b2: string, c1: string, c2: string, c3: string, d1: string): seq<Fact> {
    Known0(a1, e, a2, b1, b2, c1, c2, c3, d1)
      + [Fact(10, a2, [3])]
      + [Fact(12, b1, [5])]
      + [Fact(12, b1, [5])]
      + [Fact(15, b2, [7])]
      + [Fact(16, b2, [7])]
  }

  /** Whether a local is assigned after the assignments of events 8 to 15. */
  lemma {:induction false} Assigned1(a1: string, e: string, a2: string, b1: string, b2: string, c1: string, c2: string, c3: string, d1: string, fs: seq<Fact>, sc: nat, nm: string, pth: seq<nat>)
    ensures Assigned(fs + [Fact(10, a2, [3])] + [Fact(12, b1, [5])] + [Fact(12, b1, [5])] + [Fact(15, b2, [7])] + [Fact(16, b2, [7])], sc, nm, pth) == (
      Assigned(fs, sc, nm, pth) ||
      (10 == sc && a2 == nm && [3] <= pth) ||
      (12 == sc && b1 == nm && [5] <= pth) ||
      (12 == sc && b1 == nm && [5] <= pth) ||
      (15 == sc && b2 == nm && [7] <= pth) ||
      (16 == sc && b2 == nm && [7] <= pth))
  {
    AssignedSnoc(fs, Fact(10, a2, [3]), sc, nm, pth);
    AssignedSnoc(fs + [Fact(10, a2, [3])], Fact(12, b1, [5]), sc, nm, pth);
    AssignedSnoc(fs + [Fact(10, a2, [3])] + [Fact(12, b1, [5])], Fact(12, b1, [5]), sc, nm, pth);
    AssignedSnoc(fs + [Fact(10, a2, [3])] + [Fact(12, b1, [5])] + [Fact(12, b1, [5])], Fact(15, b2, [7]), sc, nm, pth);
    AssignedSnoc(fs + [Fact(10, a2, [3])] + [Fact(12, b1, [5])] + [Fact(12, b1, [5])] + [Fact(15, b2, [7])], Fact(16, b2, [7]), sc, nm, pth);
  }

  /** The assignments known after event 23. */
  function Known2(a1: string, e: string, a2: string, b1: string, b2: string, c1: string, c2: string, c3: string, d1: string): seq<Fact> {
    Known1(a1, e, a2, b1, b2, c1, c2, c3, d1)
      + [Fact(18, c1, [9])]
      + [Fact(18, c1, [9])]
      + [Fact(21, c2, [11])]
      + [Fact(22, c2, [11])]
      + [Fact(24, c3, [13])]
      + [Fact(25, c3, [13])]
  }

  /** Whether a local is assigned after the assignments of events 16 to 23. */
  lemma {:induction false} Assigned2(a1: string, e: string, a2: string, b1: string, b2: string, c1: string, c2: string, c3: string, d1: string, fs: seq<Fact>, sc: nat, nm: string, pth: seq<nat>)
    ensures Assigned(fs + [Fact(18, c1, [9])] + [Fact(18, c1, [9])] + [Fact(21, c2, [11])] + [Fact(22, c2, [11])] + [Fact(24, c3, [13])] + [Fact(25, c3, [13])], sc, nm, pth) == (
      Assigned(fs, sc, nm, pth) ||
      (18 == sc && c1 == nm && [9] <= pth) ||
      (18 == sc && c1 == nm && [9] <= pth) ||
      (21 == sc && c2 == nm && [11] <= pth) ||
      (22 == sc && c2 == nm && [11] <= pth) ||
      (24 == sc && c3 == nm && [13] <= pth) ||
      (25 == sc && c3 == nm && [13] <= pth))
  {
    AssignedSnoc(fs, Fact(18, c1, [9]), sc, nm, pth);
    AssignedSnoc(fs + [Fact(18, c1, [9])], Fact(18, c1, [9]), sc, nm, pth);
    AssignedSnoc(fs + [Fact(18, c1, [9])] + [Fact(18, c1, [9])], Fact(21, c2, [11]), sc, nm, pth);
    AssignedSnoc(fs + [Fact(18, c1, [9])] + [Fact(18, c1, [9])] + [Fact(21, c2, [11])], Fact(22, c2, [11]), sc, nm, pth);
    AssignedSnoc(fs + [Fact(18, c1, [9])] + [Fact(18, c1, [9])] + [Fact(21, c2, [11])] + [Fact(22, c2, [11])], Fact(24, c3, [13]), sc, nm, pth);
    AssignedSnoc(fs + [Fact(18, c1, [9])] + [Fact(18, c1, [9])] + [Fact(21, c2, [11])] + [Fact(22, c2, [11])] + [Fact(24, c3, [13])], Fact(25, c3, [13]), sc, nm, pth);
  }

  /** The assignments known after event 28. */
  function Known3(a1: string, e: string, a2: string, b1: string, b2: string, c1: string, c2: string, c3: string, d1: string): seq<Fact> {
    Known2(a1, e, a2, b1, b2, c1, c2, c3, d1)
      + [Fact(28, d1, [15])]
      + [Fact(28, d1, [15])]
  }

  /** Whether a local is assigned after the assignments of events 24 to 28. */
  lemma {:induction false} Assigned3(a1: string, e: string, a2: string, b1: string, b2: string, c1: string, c2: string, c3: string, d1: string, fs: seq<Fact>, sc: nat, nm: string, pth: seq<nat>)
    ensures Assigned(fs + [Fact(28, d1, [15])] + [Fact(28, d1, [15])], sc, nm, pth) == (
      Assigned(fs, sc, nm, pth) ||
      (28 == sc && d1 == nm && [15] <= pth) ||
      (28 == sc && d1 == nm && [15] <= pth))
  {
    AssignedSnoc(fs, Fact(28, d1, [15]), sc, nm, pth);
    AssignedSnoc(fs + [Fact(28, d1, [15])], Fact(28, d1, [15]), sc, nm, pth);
  }

  /** Event 0: its diagnostics and the assignments after it. */
  lemma {:induction false} Event0(a1: string, e: string, a2: string, b1: string, b2: string, c1: string, c2: string, c3: string, d1: string, tr: Tree, fs: seq<Fact>)
    requires |tr.scopes| == 29
    requires Parent(tr, 0) == None
    requires Parent(tr, 3) == Some(0)
    requires Parent(tr, 4) == Some(3)
    requires LocalsOf(tr, 4) == [Local(a1, Pos(6, 13)), Local(a2, Pos(17, 13))]
    requires LocalsOf(tr, 3) == []
    requires LocalsOf(tr, 0) == []
    requires a1 != a2
    ensures EventDiags(tr, Declared(4, a1, Pos(6, 13), Initialized, []), fs) == []
    ensures Step(tr, Declared(4, a1, Pos(6, 13), Initialized, []), fs) == fs + [Fact(4, a1, [])]
  {
    assert Lookup(tr, 0, a1) == None;
    assert Lookup(tr, 3, a1) == None;
  }

  /** Event 1: its diagnostics and the assignments after it. */
  lemma {:induction false} Event1(a1: string, e: string, a2: string, b1: string, b2: string, c1: string, c2: string, c3: string, d1: string, tr: Tree, fs: seq<Fact>)
    requires |tr.scopes| == 29
    requires Parent(tr, 4) == Some(3)
    requires LocalsOf(tr, 4) == [Local(a1, Pos(6, 13)), Local(a2, Pos(17, 13))]
    requires a1 != a2
    requires Assigned(fs, 4, a1, [])
    ensures EventDiags(tr, Referenced(4, a1, Pos(7, 34), false, false, []), fs) == []
    ensures Step(tr, Referenced(4, a1, Pos(7, 34), false, false, []), fs) == fs
  {
    assert Local(a1, Pos(6, 13)) in LocalsOf(tr, 4);
    assert Lookup(tr, 4, a1) == Some(4);
  }

  /** Event 2: its diagnostics and the assignments after it. */
  lemma {:induction false} Event2(a1: string, e: string, a2: string, b1: string, b2: string, c1: string, c2: string, c3: string, d1: string, tr: Tree, fs: seq<Fact>)
    ensures EventDiags(tr, OutAssigned(4, [], []), fs) == []
    ensures Step(tr, OutAssigned(4, [], []), fs) == fs
  {
    assert OutFacts(4, [], []) == [];
    FactsNil(fs);
  }

  /** Event 3: its diagnostics and the assignments after it. */
  lemma {:induction false} Event3(a1: string, e: string, a2: string, b1: string, b2: string, c1: string, c2: string, c3: string, d1: string, tr: Tree, fs: seq<Fact>)
    requires |tr.scopes| == 29
    requires Parent(tr, 0) == None
    requires Parent(tr, 3) == Some(0)
    requires Parent(tr, 4) == Some(3)
    requires Parent(tr, 6) == Some(4)
    requires LocalsOf(tr, 6) == [Local(e, Pos(12, 46)), Local(a1, Pos(12, 58))]
    requires LocalsOf(tr, 4) == [Local(a1, Pos(6, 13)), Local(a2, Pos(17, 13))]
    requires LocalsOf(tr, 3) == []
    requires LocalsOf(tr, 0) == []
    requires a1 != e && e != a2
    ensures EventDiags(tr, Declared(6, e, Pos(12, 46), Initialized, [1]), fs) == []
    ensures Step(tr, Declared(6, e, Pos(12, 46), Initialized, [1]), fs) == fs + [Fact(6, e, [1])]
  {
    assert Lookup(tr, 0, e) == None;
    assert Lookup(tr, 3, e) == None;
    assert Lookup(tr, 4, e) == None;
  }

  /** Event 4: its diagnostics and the assignments after it. */
  lemma {:induction false} Event4(a1: string, e: string, a2: string, b1: string, b2: string, c1: string, c2: string, c3: string, d1: string, tr: Tree, fs: seq<Fact>)
    requires |tr.scopes| == 29
    requires Parent(tr, 4) == Some(3)
    requires Parent(tr, 6) == Some(4)
    requires LocalsOf(tr, 6) == [Local(e, Pos(12, 46)), Local(a1, Pos(12, 58))]
    requires LocalsOf(tr, 4) == [Local(a1, Pos(6, 13)), Local(a2, Pos(17, 13))]
    requires a1 != e && a1 != a2
    ensures EventDiags(tr, Declared(6, a1, Pos(12, 58), Initialized, [1]), fs) == [Diag(Shadow, a1, Pos(12, 58))]
    ensures Step(tr, Declared(6, a1, Pos(12, 58), Initialized, [1]), fs) == fs + [Fact(6, a1, [1])]
  {
    assert Local(a1, Pos(6, 13)) in LocalsOf(tr, 4);
    assert Lookup(tr, 4, a1) == Some(4);
  }

  /** Event 5: its diagnostics and the assignments after it. */
  lemma {:induction false} Event5(a1: string, e: string, a2: string, b1: string, b2: string, c1: string, c2: string, c3: string, d1: string, tr: Tree, fs: seq<Fact>)
    requires |tr.scopes| == 29
    requires Parent(tr, 6) == Some(4)
    requires Parent(tr, 7) == Some(6)
    requires LocalsOf(tr, 7) == []
    requires LocalsOf(tr, 6) == [Local(e, Pos(12, 46)), Local(a1, Pos(12, 58))]
    requires a1 != e
    requires Assigned(fs, 6, e, [1])
    ensures EventDiags(tr, Referenced(7, e, Pos(14, 38), false, false, [1]), fs) == []
    ensures Step(tr, Referenced(7, e, Pos(14, 38), false, false, [1]), fs) == fs
  {
    assert Local(e, Pos(12, 46)) in LocalsOf(tr, 6);
    assert Lookup(tr, 6, e) == Some(6);
    assert Lookup(tr, 7, e) == Some(6);
  }

  /** Event 6: its diagnostics and the assignments after it. */
  lemma {:induction false} Event6(a1: string, e: string, a2: string, b1: string, b2: string, c1: string, c2: string, c3: string, d1: string, tr: Tree, fs: seq<Fact>)
    ensures EventDiags(tr, OutAssigned(7, [], [1]), fs) == []
    ensures Step(tr, OutAssigned(7, [], [1]), fs) == fs
  {
    assert OutFacts(7, [], [1]) == [];
    FactsNil(fs);
  }

  /** Event 7: its diagnostics and the assignments after it. */
  lemma {:induction false} Event7(a1: string, e: string, a2: string, b1: string, b2: string, c1: string, c2: string, c3: string, d1: string, tr: Tree, fs: seq<Fact>)
    requires |tr.scopes| == 29
    requires Parent(tr, 0) == None
    requires Parent(tr, 3) == Some(0)
    requires Parent(tr, 4) == Some(3)
    requires LocalsOf(tr, 4) == [Local(a1, Pos(6, 13)), Local(a2, Pos(17, 13))]
    requires LocalsOf(tr, 3) == []
    requires LocalsOf(tr, 0) == []
    requires a1 != a2
    ensures EventDiags(tr, Declared(4, a2, Pos(17, 13), Initialized, []), fs) == []
    ensures Step(tr, Declared(4, a2, Pos(17, 13), Initialized, []), fs) == fs + [Fact(4, a2, [])]
  {
    assert Lookup(tr, 0, a2) == None;
    assert Lookup(tr, 3, a2) == None;
  }

  /** Event 8: its diagnostics and the assignments after it. */
  lemma {:induction false} Event8(a1: string, e: string, a2: string, b1: string, b2: string, c1: string, c2: string, c3: string, d1: string, tr: Tree, fs: seq<Fact>)
    requires |tr.scopes| == 29
    requires Parent(tr, 4) == Some(3)
    requires LocalsOf(tr, 4) == [Local(a1, Pos(6, 13)), Local(a2, Pos(17, 13))]
    requires a1 != a2
    requires Assigned(fs, 4, a2, [])
    ensures EventDiags(tr, Referenced(4, a2, Pos(18, 34), false, false, []), fs) == []
    ensures Step(tr, Referenced(4, a2, Pos(18, 34), false, false, []), fs) == fs
  {
    assert Local(a2, Pos(17, 13)) in LocalsOf(tr, 4);
    assert Lookup(tr, 4, a2) == Some(4);
  }

  /** Event 9: its diagnostics and the assignments after it. */
  lemma {:induction false} Event9(a1: string, e: string, a2: string, b1: string, b2: string, c1: string, c2: string, c3: string, d1: string, tr: Tree, fs: seq<Fact>)
    ensures EventDiags(tr, OutAssigned(4, [], []), fs) == []
    ensures Step(tr, OutAssigned(4, [], []), fs) == fs
  {
    assert OutFacts(4, [], []) == [];
    FactsNil(fs);
  }

  /** Event 10: its diagnostics and the assignments after it. */
  lemma {:induction false} Event10(a1: string, e: string, a2: string, b1: string, b2: string, c1: string, c2: string, c3: string, d1: string, tr: Tree, fs: seq<Fact>)
    requires |tr.scopes| == 29
    requires Parent(tr, 4) == Some(3)
    requires Parent(tr, 9) == Some(4)
    requires Parent(tr, 10) == Some(9)
    requires LocalsOf(tr, 10) == [Local(a2, Pos(25, 42))]
    requires LocalsOf(tr, 9) == []
    requires LocalsOf(tr, 4) == [Local(a1, Pos(6, 13)), Local(a2, Pos(17, 13))]
    requires a1 != a2
    ensures EventDiags(tr, Declared(10, a2, Pos(25, 42), Initialized, [3]), fs) == [Diag(Shadow, a2, Pos(25, 42))]
    ensures Step(tr, Declared(10, a2, Pos(25, 42), Initialized, [3]), fs) == fs + [Fact(10, a2, [3])]
  {
    assert Local(a2, Pos(17, 13)) in LocalsOf(tr, 4);
    assert Lookup(tr, 4, a2) == Some(4);
    assert Lookup(tr, 9, a2) == Some(4);
  }

  /** Event 11: its diagnostics and the assignments after it. */
  lemma {:induction false} Event11(a1: string, e: string, a2: string, b1: string, b2: string, c1: string, c2: string, c3: string, d1: string, tr: Tree, fs: seq<Fact>)
    ensures EventDiags(tr, OutAssigned(10, [], [3]), fs) == []
    ensures Step(tr, OutAssigned(10, [], [3]), fs) == fs
  {
    assert OutFacts(10, [], [3]) == [];
    FactsNil(fs);
  }

  /** Event 12: its diagnostics and the assignments after it. */
  lemma {:induction false} Event12(a1: string, e: string, a2: string, b1: string, b2: string, c1: string, c2: string, c3: string, d1: string, tr: Tree, fs: seq<Fact>)
    requires |tr.scopes| == 29
    requires Parent(tr, 0) == None
    requires Parent(tr, 3) == Some(0)
    requires Parent(tr, 4) == Some(3)
    requires Parent(tr, 12) == Some(4)
    requires LocalsOf(tr, 12) == [Local(b1, Pos(32, 46)), Local(b1, Pos(32, 59))]
    requires LocalsOf(tr, 4) == [Local(a1, Pos(6, 13)), Local(a2, Pos(17, 13))]
    requires LocalsOf(tr, 3) == []
    requires LocalsOf(tr, 0) == []
    requires a1 != b1 && a2 != b1
    ensures EventDiags(tr, Declared(12, b1, Pos(32, 46), Initialized, [5]), fs) == []
    ensures Step(tr, Declared(12, b1, Pos(32, 46), Initialized, [5]), fs) == fs + [Fact(12, b1, [5])]
  {
    assert Lookup(tr, 0, b1) == None;
    assert Lookup(tr, 3, b1) == None;
    assert Lookup(tr, 4, b1) == None;
  }

  /** Event 13: its diagnostics and the assignments after it. */
  lemma {:induction false} Event13(a1: string, e: string, a2: string, b1: string, b2: string, c1: string, c2: string, c3: string, d1: string, tr: Tree, fs: seq<Fact>)
    requires |tr.scopes| == 29
    requires Parent(tr, 12) == Some(4)
    requires LocalsOf(tr, 12) == [Local(b1, Pos(32, 46)), Local(b1, Pos(32, 59))]
    ensures EventDiags(tr, Declared(12, b1, Pos(32, 59), Initialized, [5]), fs) == [Diag(Duplicate, b1, Pos(32, 59))]
    ensures Step(tr, Declared(12, b1, Pos(32, 59), Initialized, [5]), fs) == fs + [Fact(12, b1, [5])]
  {
    assert Local(b1, Pos(32, 46)) in LocalsOf(tr, 12);
  }

  /** Event 14: its diagnostics and the assignments after it. */
  lemma {:induction false} Event14(a1: string, e: string, a2: string, b1: string, b2: string, c1: string, c2: string, c3: string, d1: string, tr: Tree, fs: seq<Fact>)
    requires |tr.scopes| == 29
    requires Parent(tr, 0) == None
    requires Parent(tr, 3) == Some(0)
    requires Parent(tr, 4) == Some(3)
    requires Parent(tr, 15) == Some(4)
    requires LocalsOf(tr, 15) == [Local(b2, Pos(40, 46))]
    requires LocalsOf(tr, 4) == [Local(a1, Pos(6, 13)), Local(a2, Pos(17, 13))]
    requires LocalsOf(tr, 3) == []
    requires LocalsOf(tr, 0) == []
    requires a1 != b2 && a2 != b2
    ensures EventDiags(tr, Declared(15, b2, Pos(40, 46), Initialized, [7]), fs) == []
    ensures Step(tr, Declared(15, b2, Pos(40, 46), Initialized, [7]), fs) == fs + [Fact(15, b2, [7])]
  {
    assert Lookup(tr, 0, b2) == None;
    assert Lookup(tr, 3, b2) == None;
    assert Lookup(tr, 4, b2) == None;
  }

  /** Event 15: its diagnostics and the assignments after it. */
  lemma {:induction false} Event15(a1: string, e: string, a2: string, b1: string, b2: string, c1: string, c2: string, c3: string, d1: string, tr: Tree, fs: seq<Fact>)
    requires |tr.scopes| == 29
    requires Parent(tr, 15) == Some(4)
    requires Parent(tr, 16) == Some(15)
    requires LocalsOf(tr, 16) == [Local(b2, Pos(42, 42))]
    requires LocalsOf(tr, 15) == [Local(b2, Pos(40, 46))]
    ensures EventDiags(tr, Declared(16, b2, Pos(42, 42), Initialized, [7]), fs) == [Diag(Shadow, b2, Pos(42, 42))]
    ensures Step(tr, Declared(16, b2, Pos(42, 42), Initialized, [7]), fs) == fs + [Fact(16, b2, [7])]
  {
    assert Local(b2, Pos(40, 46)) in LocalsOf(tr, 15);
    assert Lookup(tr, 15, b2) == Some(15);
  }

  /** Event 16: its diagnostics and the assignments after it. */
  lemma {:induction false} Event16(a1: string, e: string, a2: string, b1: string, b2: string, c1: string, c2: string, c3: string, d1: string, tr: Tree, fs: seq<Fact>)
    ensures EventDiags(tr, OutAssigned(16, [], [7]), fs) == []
    ensures Step(tr, OutAssigned(16, [], [7]), fs) == fs
  {
    assert OutFacts(16, [], [7]) == [];
    FactsNil(fs);
  }

  /** Event 17: its diagnostics and the assignments after it. */
  lemma {:induction false} Event17(a1: string, e: string, a2: string, b1: string, b2: string, c1: string, c2: string, c3: string, d1: string, tr: Tree, fs: seq<Fact>)
    requires |tr.scopes| == 29
    requires Parent(tr, 0) == None
    requires Parent(tr, 3) == Some(0)
    requires Parent(tr, 4) == Some(3)
    requires Parent(tr, 18) == Some(4)
    requires LocalsOf(tr, 18) == [Local(c1, Pos(49, 57)), Local(c1, Pos(49, 78))]
    requires LocalsOf(tr, 4) == [Local(a1, Pos(6, 13)), Local(a2, Pos(17, 13))]
    requires LocalsOf(tr, 3) == []
    requires LocalsOf(tr, 0) == []
    requires a1 != c1 && a2 != c1
    ensures EventDiags(tr, Declared(18, c1, Pos(49, 57), Initialized, [9]), fs) == []
    ensures Step(tr, Declared(18, c1, Pos(49, 57), Initialized, [9]), fs) == fs + [Fact(18, c1, [9])]
  {
    assert Lookup(tr, 0, c1) == None;
    assert Lookup(tr, 3, c1) == None;
    assert Lookup(tr, 4, c1) == None;
  }

  /** Event 18: its diagnostics and the assignments after it. */
  lemma {:induction false} Event18(a1: string, e: string, a2: string, b1: string, b2: string, c1: string, c2: string, c3: string, d1: string, tr: Tree, fs: seq<Fact>)
    requires |tr.scopes| == 29
    requires Parent(tr, 18) == Some(4)
    requires LocalsOf(tr, 18) == [Local(c1, Pos(49, 57)), Local(c1, Pos(49, 78))]
    ensures EventDiags(tr, Declared(18, c1, Pos(49, 78), Initialized, [9]), fs) == [Diag(Duplicate, c1, Pos(49, 78))]
    ensures Step(tr, Declared(18, c1, Pos(49, 78), Initialized, [9]), fs) == fs + [Fact(18, c1, [9])]
  {
    assert Local(c1, Pos(49, 57)) in LocalsOf(tr, 18);
  }

  /** Event 19: its diagnostics and the assignments after it. */
  lemma {:induction false} Event19(a1: string, e: string, a2: string, b1: string, b2: string, c1: string, c2: string, c3: string, d1: string, tr: Tree, fs: seq<Fact>)
    requires |tr.scopes| == 29
    requires Parent(tr, 0) == None
    requires Parent(tr, 3) == Some(0)
    requires Parent(tr, 4) == Some(3)
    requires Parent(tr, 21) == Some(4)
    requires LocalsOf(tr, 21) == [Local(c2, Pos(57, 56))]
    requires LocalsOf(tr, 4) == [Local(a1, Pos(6, 13)), Local(a2, Pos(17, 13))]
    requires LocalsOf(tr, 3) == []
    requires LocalsOf(tr, 0) == []
    requires a1 != c2 && a2 != c2
    ensures EventDiags(tr, Declared(21, c2, Pos(57, 56), Initialized, [11]), fs) == []
    ensures Step(tr, Declared(21, c2, Pos(57, 56), Initialized, [11]), fs) == fs + [Fact(21, c2, [11])]
  {
    assert Lookup(tr, 0, c2) == None;
    assert Lookup(tr, 3, c2) == None;
    assert Lookup(tr, 4, c2) == None;
  }

  /** Event 20: its diagnostics and the assignments after it. */
  lemma {:induction false} Event20(a1: string, e: string, a2: string, b1: string, b2: string, c1: string, c2: string, c3: string, d1: string, tr: Tree, fs: seq<Fact>)
    requires |tr.scopes| == 29
    requires Parent(tr, 21) == Some(4)
    requires Parent(tr, 22) == Some(21)
    requires LocalsOf(tr, 22) == [Local(c2, Pos(59, 42))]
    requires LocalsOf(tr, 21) == [Local(c2, Pos(57, 56))]
    ensures EventDiags(tr, Declared(22, c2, Pos(59, 42), Initialized, [11]), fs) == [Diag(Shadow, c2, Pos(59, 42))]
    ensures Step(tr, Declared(22, c2, Pos(59, 42), Initialized, [11]), fs) == fs + [Fact(22, c2, [11])]
  {
    assert Local(c2, Pos(57, 56)) in LocalsOf(tr, 21);
    assert Lookup(tr, 21, c2) == Some(21);
  }

  /** Event 21: its diagnostics and the assignments after it. */
  lemma {:induction false} Event21(a1: string, e: string, a2: string, b1: string, b2: string, c1: string, c2: string, c3: string, d1: string, tr: Tree, fs: seq<Fact>)
    ensures EventDiags(tr, OutAssigned(22, [], [11]), fs) == []
    ensures Step(tr, OutAssigned(22, [], [11]), fs) == fs
  {
    assert OutFacts(22, [], [11]) == [];
    FactsNil(fs);
  }

  /** Event 22: its diagnostics and the assignments after it. */
  lemma {:induction false} Event22(a1: string, e: string, a2: string, b1: string, b2: string, c1: string, c2: string, c3: string, d1: string, tr: Tree, fs: seq<Fact>)
    requires |tr.scopes| == 29
    requires Parent(tr, 0) == None
    requires Parent(tr, 3) == Some(0)
    requires Parent(tr, 4) == Some(3)
    requires Parent(tr, 24) == Some(4)
    requires LocalsOf(tr, 24) == [Local(c3, Pos(66, 56))]
    requires LocalsOf(tr, 4) == [Local(a1, Pos(6, 13)), Local(a2, Pos(17, 13))]
    requires LocalsOf(tr, 3) == []
    requires LocalsOf(tr, 0) == []
    requires a1 != c3 && a2 != c3
    ensures EventDiags(tr, Declared(24, c3, Pos(66, 56), Initialized, [13]), fs) == []
    ensures Step(tr, Declared(24, c3, Pos(66, 56), Initialized, [13]), fs) == fs + [Fact(24, c3, [13])]
  {
    assert Lookup(tr, 0, c3) == None;
    assert Lookup(tr, 3, c3) == None;
    assert Lookup(tr, 4, c3) == None;
  }

  /** Event 23: its diagnostics and the assignments after it. */
  lemma {:induction false} Event23(a1: string, e: string, a2: string, b1: string, b2: string, c1: string, c2: string, c3: string, d1: string, tr: Tree, fs: seq<Fact>)
    requires |tr.scopes| == 29
    requires Parent(tr, 24) == Some(4)
    requires Parent(tr, 25) == Some(24)
    requires LocalsOf(tr, 25) == [Local(c3, Pos(68, 17))]
    requires LocalsOf(tr, 24) == [Local(c3, Pos(66, 56))]
    ensures EventDiags(tr, Declared(25, c3, Pos(68, 17), Initialized, [13]), fs) == [Diag(Shadow, c3, Pos(68, 17))]
    ensures Step(tr, Declared(25, c3, Pos(68, 17), Initialized, [13]), fs) == fs + [Fact(25, c3, [13])]
  {
    assert Local(c3, Pos(66, 56)) in LocalsOf(tr, 24);
    assert Lookup(tr, 24, c3) == Some(24);
  }

  /** Event 24: its diagnostics and the assignments after it. */
  lemma {:induction false} Event24(a1: string, e: string, a2: string, b1: string, b2: string, c1: string, c2: string, c3: string, d1: string, tr: Tree, fs: seq<Fact>)
    requires |tr.scopes| == 29
    requires Parent(tr, 25) == Some(24)
    requires LocalsOf(tr, 25) == [Local(c3, Pos(68, 17))]
    requires Assigned(fs, 25, c3, [13])
    ensures EventDiags(tr, Referenced(25, c3, Pos(69, 38), false, false, [13]), fs) == []
    ensures Step(tr, Referenced(25, c3, Pos(69, 38), false, false, [13]), fs) == fs
  {
    assert Local(c3, Pos(68, 17)) in LocalsOf(tr, 25);
    assert Lookup(tr, 25, c3) == Some(25);
  }

  /** Event 25: its diagnostics and the assignments after it. */
  lemma {:induction false} Event25(a1: string, e: string, a2: string, b1: string, b2: string, c1: string, c2: string, c3: string, d1: string, tr: Tree, fs: seq<Fact>)
    ensures EventDiags(tr, OutAssigned(25, [], [13]), fs) == []
    ensures Step(tr, OutAssigned(25, [], [13]), fs) == fs
  {
    assert OutFacts(25, [], [13]) == [];
    FactsNil(fs);
  }

  /** Event 26: its diagnostics and the assignments after it. */
  lemma {:induction false} Event26(a1: string, e: string, a2: string, b1: string, b2: string, c1: string, c2: string, c3: string, d1: string, tr: Tree, fs: seq<Fact>)
    requires |tr.scopes| == 29
    requires Parent(tr, 0) == None
    requires Parent(tr, 3) == Some(0)
    requires Parent(tr, 4) == Some(3)
    requires Parent(tr, 27) == Some(4)
    requires Parent(tr, 28) == Some(27)
    requires LocalsOf(tr, 28) == [Local(d1, Pos(78, 44)), Local(d1, Pos(78, 65))]
    requires LocalsOf(tr, 27) == []
    requires LocalsOf(tr, 4) == [Local(a1, Pos(6, 13)), Local(a2, Pos(17, 13))]
    requires LocalsOf(tr, 3) == []
    requires LocalsOf(tr, 0) == []
    requires a1 != d1 && a2 != d1
    ensures EventDiags(tr, Declared(28, d1, Pos(78, 44), Initialized, [15]), fs) == []
    ensures Step(tr, Declared(28, d1, Pos(78, 44), Initialized, [15]), fs) == fs + [Fact(28, d1, [15])]
  {
    assert Lookup(tr, 0, d1) == None;
    assert Lookup(tr, 3, d1) == None;
    assert Lookup(tr, 4, d1) == None;
    assert Lookup(tr, 27, d1) == None;
  }

  /** Event 27: its diagnostics and the assignments after it. */
  lemma {:induction false} Event27(a1: string, e: string, a2: string, b1: string, b2: string, c1: string, c2: string, c3: string, d1: string, tr: Tree, fs: seq<Fact>)
    requires |tr.scopes| == 29
    requires Parent(tr, 28) == Some(27)
    requires LocalsOf(tr, 28) == [Local(d1, Pos(78, 44)), Local(d1, Pos(78, 65))]
    ensures EventDiags(tr, Declared(28, d1, Pos(78, 65), Initialized, [15]), fs) == [Diag(Duplicate, d1, Pos(78, 65))]
    ensures Step(tr, Declared(28, d1, Pos(78, 65), Initialized, [15]), fs) == fs + [Fact(28, d1, [15])]
  {
    assert Local(d1, Pos(78, 44)) in LocalsOf(tr, 28);
  }

  /** Event 28: its diagnostics and the assignments after it. */
  lemma {:induction false} Event28(a1: string, e: string, a2: string, b1: string, b2: string, c1: string, c2: string, c3: string, d1: string, tr: Tree, fs: seq<Fact>)
    ensures EventDiags(tr, OutAssigned(28, [], [15]), fs) == []
    ensures Step(tr, OutAssigned(28, [], [15]), fs) == fs
  {
    assert OutFacts(28, [], [15]) == [];
    FactsNil(fs);
  }

  /** What a read of a2 in scope 4 finds assigned before event 8. */
  lemma {:induction false} Read0(a1: string, e: string, a2: string, b1: string, b2: string, c1: string, c2: string, c3: string, d1: string)
    ensures Assigned(Known0(a1, e, a2, b1, b2, c1, c2, c3, d1), 4, a2, [])
  {
    Assigned0(a1, e, a2, b1, b2, c1, c2, c3, d1, [], 4, a2, []);
    assert !Assigned([], 4, a2, []);
  }

  /** What a read of c3 in scope 25 finds assigned before event 24. */
  lemma {:induction false} Read1(a1: string, e: string, a2: string, b1: string, b2: string, c1: string, c2: string, c3: string, d1: string)
    ensures Assigned(Known2(a1, e, a2, b1, b2, c1, c2, c3, d1), 25, c3, [13])
  {
    Assigned0(a1, e, a2, b1, b2, c1, c2, c3, d1, [], 25, c3, [13]);
    Assigned1(a1, e, a2, b1, b2, c1, c2, c3, d1, Known0(a1, e, a2, b1, b2, c1, c2, c3, d1), 25, c3, [13]);
    Assigned2(a1, e, a2, b1, b2, c1, c2, c3, d1, Known1(a1, e, a2, b1, b2, c1, c2, c3, d1), 25, c3, [13]);
    assert !Assigned([], 25, c3, [13]);
  }

  /** The parent and the locals of scope 0. */
  lemma {:induction false} Scope0(a1: string, e: string, a2: string, b1: string, b2: string, c1: string, c2: string, c3: string, d1: string, tr: Tree)
    requires ScopesAre(tr, Layout())
    requires LocalsFit(a1, e, a2, b1, b2, c1, c2, c3, d1, tr)
    ensures |tr.scopes| == 29
    ensures Parent(tr, 0) == None
    ensures LocalsOf(tr, 0) == []
  {
    assert tr.scopes[0] == Layout()[0];
    Locals0(a1, e, a2, b1, b2, c1, c2, c3, d1);
    assert LocalsOf(tr, 0) == DeclaredBy(a1, e, a2, b1, b2, c1, c2, c3, d1, 4, 0);
  }

  /** The parent and the locals of scope 3. */
  lemma {:induction false} Scope3(a1: string, e: string, a2: string, b1: string, b2: string, c1: string, c2: string, c3: string, d1: string, tr: Tree)
    requires ScopesAre(tr, Layout())
    requires LocalsFit(a1, e, a2, b1, b2, c1, c2, c3, d1, tr)
    ensures |tr.scopes| == 29
    ensures Parent(tr, 3) == Some(0)
    ensures LocalsOf(tr, 3) == []
  {
    assert tr.scopes[3] == Layout()[3];
    Locals3(a1, e, a2, b1, b2, c1, c2, c3, d1);
    assert LocalsOf(tr, 3) == DeclaredBy(a1, e, a2, b1, b2, c1, c2, c3, d1, 4, 3);
  }

  /** The parent and the locals of scope 4. */
  lemma {:induction false} Scope4(a1: string, e: string, a2: string, b1: string, b2: string, c1: string, c2: string, c3: string, d1: string, tr: Tree)
    requires ScopesAre(tr, Layout())
    requires LocalsFit(a1, e, a2, b1, b2, c1, c2, c3, d1, tr)
    ensures |tr.scopes| == 29
    ensures Parent(tr, 4) == Some(3)
    ensures LocalsOf(tr, 4) == [Local(a1, Pos(6, 13)), Local(a2, Pos(17, 13))]
  {
    assert tr.scopes[4] == Layout()[4];
    Locals4(a1, e, a2, b1, b2, c1, c2, c3, d1);
    assert LocalsOf(tr, 4) == DeclaredBy(a1, e, a2, b1, b2, c1, c2, c3, d1, 4, 4);
  }

  /** The parent and the locals of scope 6. */
  lemma {:induction false} Scope6(a1: string, e: string, a2: string, b1: string, b2: string, c1: string, c2: string, c3: string, d1: string, tr: Tree)
    requires ScopesAre(tr, Layout())
    requires LocalsFit(a1, e, a2, b1, b2, c1, c2, c3, d1, tr)
    ensures |tr.scopes| == 29
    ensures Parent(tr, 6) == Some(4)
    ensures LocalsOf(tr, 6) == [Local(e, Pos(12, 46)), Local(a1, Pos(12, 58))]
  {
    assert tr.scopes[6] == Layout()[6];
    Locals6(a1, e, a2, b1, b2, c1, c2, c3, d1);
    assert LocalsOf(tr, 6) == DeclaredBy(a1, e, a2, b1, b2, c1, c2, c3, d1, 4, 6);
  }

  /** The parent and the locals of scope 7. */
  lemma {:induction false} Scope7(a1: string, e: string, a2: string, b1: string, b2: string, c1: string, c2: string, c3: string, d1: string, tr: Tree)
    requires ScopesAre(tr, Layout())
    requires LocalsFit(a1, e, a2, b1, b2, c1, c2, c3, d1, tr)
    ensures |tr.scopes| == 29
    ensures Parent(tr, 7) == Some(6)
    ensures LocalsOf(tr, 7) == []
  {
    assert tr.scopes[7] == Layout()[7];
    Locals7(a1, e, a2, b1, b2, c1, c2, c3, d1);
    assert LocalsOf(tr, 7) == DeclaredBy(a1, e, a2, b1, b2, c1, c2, c3, d1, 4, 7);
  }

  /** The parent and the locals of scope 9. */
  lemma {:induction false} Scope9(a1: string, e: string, a2: string, b1: string, b2: string, c1: string, c2: string, c3: string, d1: string, tr: Tree)
    requires ScopesAre(tr, Layout())
    requires LocalsFit(a1, e, a2, b1, b2, c1, c2, c3, d1, tr)
    ensures |tr.scopes| == 29
    ensures Parent(tr, 9) == Some(4)
    ensures LocalsOf(tr, 9) == []
  {
    assert tr.scopes[9] == Layout()[9];
    Locals9(a1, e, a2, b1, b2, c1, c2, c3, d1);
    assert LocalsOf(tr, 9) == DeclaredBy(a1, e, a2, b1, b2, c1, c2, c3, d1, 4, 9);
  }

  /** The parent and the locals of scope 10. */
  lemma {:induction false} Scope10(a1: string, e: string, a2: string, b1: string, b2: string, c1: string, c2: string, c3: string, d1: string, tr: Tree)
    requires ScopesAre(tr, Layout())
    requires LocalsFit(a1, e, a2, b1, b2, c1, c2, c3, d1, tr)
    ensures |tr.scopes| == 29
    ensures Parent(tr, 10) == Some(9)
    ensures LocalsOf(tr, 10) == [Local(a2, Pos(25, 42))]
  {
    assert tr.scopes[10] == Layout()[10];
    Locals10(a1, e, a2, b1, b2, c1, c2, c3, d1);
    assert LocalsOf(tr, 10) == DeclaredBy(a1, e, a2, b1, b2, c1, c2, c3, d1, 4, 10);
  }

  /** The parent and the locals of scope 12. */
  lemma {:induction false} Scope12(a1: string, e: string, a2: string, b1: string, b2: string, c1: string, c2: string, c3: string, d1: string, tr: Tree)
    requires ScopesAre(tr, Layout())
    requires LocalsFit(a1, e, a2, b1, b2, c1, c2, c3, d1, tr)
    ensures |tr.scopes| == 29
    ensures Parent(tr, 12) == Some(4)
    ensures LocalsOf(tr, 12) == [Local(b1, Pos(32, 46)), Local(b1, Pos(32, 59))]
  {
    assert tr.scopes[12] == Layout()[12];
    Locals12(a1, e, a2, b1, b2, c1, c2, c3, d1);
    assert LocalsOf(tr, 12) == DeclaredBy(a1, e, a2, b1, b2, c1, c2, c3, d1, 4, 12);
  }

  /** The parent and the locals of scope 15. */
  lemma {:induction false} Scope15(a1: string, e: string, a2: string, b1: string, b2: string, c1: string, c2: string, c3: string, d1: string, tr: Tree)
    requires ScopesAre(tr, Layout())
    requires LocalsFit(a1, e, a2, b1, b2, c1, c2, c3, d1, tr)
    ensures |tr.scopes| == 29
    ensures Parent(tr, 15) == Some(4)
    ensures LocalsOf(tr, 15) == [Local(b2, Pos(40, 46))]
  {
    assert tr.scopes[15] == Layout()[15];
    Locals15(a1, e, a2, b1, b2, c1, c2, c3, d1);
    assert LocalsOf(tr, 15) == DeclaredBy(a1, e, a2, b1, b2, c1, c2, c3, d1, 4, 15);
  }

  /** The parent and the locals of scope 16. */
  lemma {:induction false} Scope16(a1: string, e: string, a2: string, b1: string, b2: string, c1: string, c2: string, c3: string, d1: string, tr: Tree)
    requires ScopesAre(tr, Layout())
    requires LocalsFit(a1, e, a2, b1, b2, c1, c2, c3, d1, tr)
    ensures |tr.scopes| == 29
    ensures Parent(tr, 16) == Some(15)
    ensures LocalsOf(tr, 16) == [Local(b2, Pos(42, 42))]
  {
    assert tr.scopes[16] == Layout()[16];
    Locals16(a1, e, a2, b1, b2, c1, c2, c3, d1);
    assert LocalsOf(tr, 16) == DeclaredBy(a1, e, a2, b1, b2, c1, c2, c3, d1, 4, 16);
  }

  /** The parent and the locals of scope 18. */
  lemma {:induction false} Scope18(a1: string, e: string, a2: string, b1: string, b2: string, c1: string, c2: string, c3: string, d1: string, tr: Tree)
    requires ScopesAre(tr, Layout())
    requires LocalsFit(a1, e, a2, b1, b2, c1, c2, c3, d1, tr)
    ensures |tr.scopes| == 29
    ensures Parent(tr, 18) == Some(4)
    ensures LocalsOf(tr, 18) == [Local(c1, Pos(49, 57)), Local(c1, Pos(49, 78))]
  {
    assert tr.scopes[18] == Layout()[18];
    Locals18(a1, e, a2, b1, b2, c1, c2, c3, d1);
    assert LocalsOf(tr, 18) == DeclaredBy(a1, e, a2, b1, b2, c1, c2, c3, d1, 4, 18);
  }

  /** The parent and the locals of scope 21. */
  lemma {:induction false} Scope21(a1: string, e: string, a2: string, b1: string, b2: string, c1: string, c2: string, c3: string, d1: string, tr: Tree)
    requires ScopesAre(tr, Layout())
    requires LocalsFit(a1, e, a2, b1, b2, c1, c2, c3, d1, tr)
    ensures |tr.scopes| == 29
    ensures Parent(tr, 21) == Some(4)
    ensures LocalsOf(tr, 21) == [Local(c2, Pos(57, 56))]
  {
    assert tr.scopes[21] == Layout()[21];
    Locals21(a1, e, a2, b1, b2, c1, c2, c3, d1);
    assert LocalsOf(tr, 21) == DeclaredBy(a1, e, a2, b1, b2, c1, c2, c3, d1, 4, 21);
  }

  /** The parent and the locals of scope 22. */
  lemma {:induction false} Scope22(a1: string, e: string, a2: string, b1: string, b2: string, c1: string, c2: string, c3: string, d1: string, tr: Tree)
    requires ScopesAre(tr, Layout())
    requires LocalsFit(a1, e, a2, b1, b2, c1, c2, c3, d1, tr)
    ensures |tr.scopes| == 29
    ensures Parent(tr, 22) == Some(21)
    ensures LocalsOf(tr, 22) == [Local(c2, Pos(59, 42))]
  {
    assert tr.scopes[22] == Layout()[22];
    Locals22(a1, e, a2, b1, b2, c1, c2, c3, d1);
    assert LocalsOf(tr, 22) == DeclaredBy(a1, e, a2, b1, b2, c1, c2, c3, d1, 4, 22);
  }

  /** The parent and the locals of scope 24. */
  lemma {:induction false} Scope24(a1: string, e: string, a2: string, b1: string, b2: string, c1: string, c2: string, c3: string, d1: string, tr: Tree)
    requires ScopesAre(tr, Layout())
    requires LocalsFit(a1, e, a2, b1, b2, c1, c2, c3, d1, tr)
    ensures |tr.scopes| == 29
    ensures Parent(tr, 24) == Some(4)
    ensures LocalsOf(tr, 24) == [Local(c3, Pos(66, 56))]
  {
    assert tr.scopes[24] == Layout()[24];
    Locals24(a1, e, a2, b1, b2, c1, c2, c3, d1);
    assert LocalsOf(tr, 24) == DeclaredBy(a1, e, a2, b1, b2, c1, c2, c3, d1, 4, 24);
  }

  /** The parent and the locals of scope 25. */
  lemma {:induction false} Scope25(a1: string, e: string, a2: string, b1: string, b2: string, c1: string, c2: string, c3: string, d1: string, tr: Tree)
    requires ScopesAre(tr, Layout())
    requires LocalsFit(a1, e, a2, b1, b2, c1, c2, c3, d1, tr)
    ensures |tr.scopes| == 29
    ensures Parent(tr, 25) == Some(24)
    ensures LocalsOf(tr, 25) == [Local(c3, Pos(68, 17))]
  {
    assert tr.scopes[25] == Layout()[25];
    Locals25(a1, e, a2, b1, b2, c1, c2, c3, d1);
    assert LocalsOf(tr, 25) == DeclaredBy(a1, e, a2, b1, b2, c1, c2, c3, d1, 4, 25);
  }

  /** The parent and the locals of scope 27. */
  lemma {:induction false} Scope27(a1: string, e: string, a2: string, b1: string, b2: string, c1: string, c2: string, c3: string, d1: string, tr: Tree)
    requires ScopesAre(tr, Layout())
    requires LocalsFit(a1, e, a2, b1, b2, c1, c2, c3, d1, tr)
    ensures |tr.scopes| == 29
    ensures Parent(tr, 27) == Some(4)
    ensures LocalsOf(tr, 27) == []
  {
    assert tr.scopes[27] == Layout()[27];
    Locals27(a1, e, a2, b1, b2, c1, c2, c3, d1);
    assert LocalsOf(tr, 27) == DeclaredBy(a1, e, a2, b1, b2, c1, c2, c3, d1, 4, 27);
  }

  /** The parent and the locals of scope 28. */
  lemma {:induction false} Scope28(a1: string, e: string, a2: string, b1: string, b2: string, c1: string, c2: string, c3: string, d1: string, tr: Tree)
    requires ScopesAre(tr, Layout())
    requires LocalsFit(a1, e, a2, b1, b2, c1, c2, c3, d1, tr)
    ensures |tr.scopes| == 29
    ensures Parent(tr, 28) == Some(27)
    ensures LocalsOf(tr, 28) == [Local(d1, Pos(78, 44)), Local(d1, Pos(78, 65))]
  {
    assert tr.scopes[28] == Layout()[28];
    Locals28(a1, e, a2, b1, b2, c1, c2, c3, d1);
    assert LocalsOf(tr, 28) == DeclaredBy(a1, e, a2, b1, b2, c1, c2, c3, d1, 4, 28);
  }

  /** The analysis of events 0 to 7, after the events before them. */
  lemma {:induction false} Analysed0(a1: string, e: string, a2: string, b1: string, b2: string, c1: string, c2: string, c3: string, d1: string, tr: Tree, evs: seq<Event>, fs: seq<Fact>, rs: seq<Diag>)
    requires |tr.scopes| == 29
    requires Parent(tr, 0) == None
    requires Parent(tr, 3) == Some(0)
    requires Parent(tr, 4) == Some(3)
    requires Parent(tr, 6) == Some(4)
    requires Parent(tr, 7) == Some(6)
    requires LocalsOf(tr, 0) == []
    requires LocalsOf(tr, 3) == []
    requires LocalsOf(tr, 4) == [Local(a1, Pos(6, 13)), Local(a2, Pos(17, 13))]
    requires LocalsOf(tr, 6) == [Local(e, Pos(12, 46)), Local(a1, Pos(12, 58))]
    requires LocalsOf(tr, 7) == []
    requires a1 != e && a1 != a2 && e != a2
    requires Analyse(tr, evs, []) == rs
    requires Replay(tr, evs, []) == fs
    requires !Assigned(fs, 4, a1, [])
    requires !Assigned(fs, 6, e, [1])
    ensures Analyse(tr, evs + Chunk0(a1, e, a2, b1, b2, c1, c2, c3, d1), []) == rs + ([] + [] + [] + [] + [] + [Diag(Shadow, a1, Pos(12, 58))] + [] + [] + [])
    ensures Replay(tr, evs + Chunk0(a1, e, a2, b1, b2, c1, c2, c3, d1), []) == fs + [Fact(4, a1, [])] + [Fact(6, e, [1])] + [Fact(6, a1, [1])] + [Fact(4, a2, [])]
  {
    assert Analyse(tr, [], fs) == [] && Replay(tr, [], fs) == fs;
    Event0(a1, e, a2, b1, b2, c1, c2, c3, d1, tr, fs);
    AnalyseSnoc(tr, [], Declared(4, a1, Pos(6, 13), Initialized, []), fs);
    assert Analyse(tr, [] + [Declared(4, a1, Pos(6, 13), Initialized, [])], fs) == [] + [];
    assert Replay(tr, [] + [Declared(4, a1, Pos(6, 13), Initialized, [])], fs) == fs + [Fact(4, a1, [])];
    AssignedSnoc(fs, Fact(4, a1, []), 4, a1, []);
    Event1(a1, e, a2, b1, b2, c1, c2, c3, d1, tr, fs + [Fact(4, a1, [])]);
    AnalyseSnoc(tr, [] + [Declared(4, a1, Pos(6, 13), Initialized, [])], Referenced(4, a1, Pos(7, 34), false, false, []), fs);
    assert Analyse(tr, [] + [Declared(4, a1, Pos(6, 13), Initialized, [])] + [Referenced(4, a1, Pos(7, 34), false, false, [])], fs) == [] + [] + [];
    assert Replay(tr, [] + [Declared(4, a1, Pos(6, 13), Initialized, [])] + [Referenced(4, a1, Pos(7, 34), false, false, [])], fs) == fs + [Fact(4, a1, [])];
    Event2(a1, e, a2, b1, b2, c1, c2, c3, d1, tr, fs + [Fact(4, a1, [])]);
    AnalyseSnoc(tr, [] + [Declared(4, a1, Pos(6, 13), Initialized, [])] + [Referenced(4, a1, Pos(7, 34), false, false, [])], OutAssigned(4, [], []), fs);
    assert Analyse(tr, [] + [Declared(4, a1, Pos(6, 13), Initialized, [])] + [Referenced(4, a1, Pos(7, 34), false, false, [])] + [OutAssigned(4, [], [])], fs) == [] + [] + [] + [];
    assert Replay(tr, [] + [Declared(4, a1, Pos(6, 13), Initialized, [])] + [Referenced(4, a1, Pos(7, 34), false, false, [])] + [OutAssigned(4, [], [])], fs) == fs + [Fact(4, a1, [])];
    Event3(a1, e, a2, b1, b2, c1, c2, c3, d1, tr, fs + [Fact(4, a1, [])]);
    AnalyseSnoc(tr, [] + [Declared(4, a1, Pos(6, 13), Initialized, [])] + [Referenced(4, a1, Pos(7, 34), false, false, [])] + [OutAssigned(4, [], [])], Declared(6, e, Pos(12, 46), Initialized, [1]), fs);
    assert Analyse(tr, [] + [Declared(4, a1, Pos(6, 13), Initialized, [])] + [Referenced(4, a1, Pos(7, 34), false, false, [])] + [OutAssigned(4, [], [])] + [Declared(6, e, Pos(12, 46), Initialized, [1])], fs) == [] + [] + [] + [] + [];
    assert Replay(tr, [] + [Declared(4, a1, Pos(6, 13), Initialized, [])] + [Referenced(4, a1, Pos(7, 34), false, false, [])] + [OutAssigned(4, [], [])] + [Declared(6, e, Pos(12, 46), Initialized, [1])], fs) == fs + [Fact(4, a1, [])] + [Fact(6, e, [1])];
    Event4(a1, e, a2, b1, b2, c1, c2, c3, d1, tr, fs + [Fact(4, a1, [])] + [Fact(6, e, [1])]);
    AnalyseSnoc(tr, [] + [Declared(4, a1, Pos(6, 13), Initialized, [])] + [Referenced(4, a1, Pos(7, 34), false, false, [])] + [OutAssigned(4, [], [])] + [Declared(6, e, Pos(12, 46), Initialized, [1])], Declared(6, a1, Pos(12, 58), Initialized, [1]), fs);
    assert Analyse(tr, [] + [Declared(4, a1, Pos(6, 13), Initialized, [])] + [Referenced(4, a1, Pos(7, 34), false, false, [])] + [OutAssigned(4, [], [])] + [Declared(6, e, Pos(12, 46), Initialized, [1])] + [Declared(6, a1, Pos(12, 58), Initialized, [1])], fs) == [] + [] + [] + [] + [] + [Diag(Shadow, a1, Pos(12, 58))];
    assert Replay(tr, [] + [Declared(4, a1, Pos(6, 13), Initialized, [])] + [Referenced(4, a1, Pos(7, 34), false, false, [])] + [OutAssigned(4, [], [])] + [Declared(6, e, Pos(12, 46), Initialized, [1])] + [Declared(6, a1, Pos(12, 58), Initialized, [1])], fs) == fs + [Fact(4, a1, [])] + [Fact(6, e, [1])] + [Fact(6, a1, [1])];
    AssignedSnoc(fs, Fact(4, a1, []), 6, e, [1]);
    AssignedSnoc(fs + [Fact(4, a1, [])], Fact(6, e, [1]), 6, e, [1]);
    AssignedSnoc(fs + [Fact(4, a1, [])] + [Fact(6, e, [1])], Fact(6, a1, [1]), 6, e, [1]);
    Event5(a1, e, a2, b1, b2, c1, c2, c3, d1, tr, fs + [Fact(4, a1, [])] + [Fact(6, e, [1])] + [Fact(6, a1, [1])]);
    AnalyseSnoc(tr, [] + [Declared(4, a1, Pos(6, 13), Initialized, [])] + [Referenced(4, a1, Pos(7, 34), false, false, [])] + [OutAssigned(4, [], [])] + [Declared(6, e, Pos(12, 46), Initialized, [1])] + [Declared(6, a1, Pos(12, 58), Initialized, [1])], Referenced(7, e, Pos(14, 38), false, false, [1]), fs);
    assert Analyse(tr, [] + [Declared(4, a1, Pos(6, 13), Initialized, [])] + [Referenced(4, a1, Pos(7, 34), false, false, [])] + [OutAssigned(4, [], [])] + [Declared(6, e, Pos(12, 46), Initialized, [1])] + [Declared(6, a1, Pos(12, 58), Initialized, [1])] + [Referenced(7, e, Pos(14, 38), false, false, [1])], fs) == [] + [] + [] + [] + [] + [Diag(Shadow, a1, Pos(12, 58))] + [];
    assert Replay(tr, [] + [Declared(4, a1, Pos(6, 13), Initialized, [])] + [Referenced(4, a1, Pos(7, 34), false, false, [])] + [OutAssigned(4, [], [])] + [Declared(6, e, Pos(12, 46), Initialized, [1])] + [Declared(6, a1, Pos(12, 58), Initialized, [1])] + [Referenced(7, e, Pos(14, 38), false, false, [1])], fs) == fs + [Fact(4, a1, [])] + [Fact(6, e, [1])] + [Fact(6, a1, [1])];
    Event6(a1, e, a2, b1, b2, c1, c2, c3, d1, tr, fs + [Fact(4, a1, [])] + [Fact(6, e, [1])] + [Fact(6, a1, [1])]);
    AnalyseSnoc(tr, [] + [Declared(4, a1, Pos(6, 13), Initialized, [])] + [Referenced(4, a1, Pos(7, 34), false, false, [])] + [OutAssigned(4, [], [])] + [Declared(6, e, Pos(12, 46), Initialized, [1])] + [Declared(6, a1, Pos(12, 58), Initialized, [1])] + [Referenced(7, e, Pos(14, 38), false, false, [1])], OutAssigned(7, [], [1]), fs);
    assert Analyse(tr, [] + [Declared(4, a1, Pos(6, 13), Initialized, [])] + [Referenced(4, a1, Pos(7, 34), false, false, [])] + [OutAssigned(4, [], [])] + [Declared(6, e, Pos(12, 46), Initialized, [1])] + [Declared(6, a1, Pos(12, 58), Initialized, [1])] + [Referenced(7, e, Pos(14, 38), false, false, [1])] + [OutAssigned(7, [], [1])], fs) == [] + [] + [] + [] + [] + [Diag(Shadow, a1, Pos(12, 58))] + [] + [];
    assert Replay(tr, [] + [Declared(4, a1, Pos(6, 13), Initialized, [])] + [Referenced(4, a1, Pos(7, 34), false, false, [])] + [OutAssigned(4, [], [])] + [Declared(6, e, Pos(12, 46), Initialized, [1])] + [Declared(6, a1, Pos(12, 58), Initialized, [1])] + [Referenced(7, e, Pos(14, 38), false, false, [1])] + [OutAssigned(7, [], [1])], fs) == fs + [Fact(4, a1, [])] + [Fact(6, e, [1])] + [Fact(6, a1, [1])];
    Event7(a1, e, a2, b1, b2, c1, c2, c3, d1, tr, fs + [Fact(4, a1, [])] + [Fact(6, e, [1])] + [Fact(6, a1, [1])]);
    AnalyseSnoc(tr, [] + [Declared(4, a1, Pos(6, 13), Initialized, [])] + [Referenced(4, a1, Pos(7, 34), false, false, [])] + [OutAssigned(4, [], [])] + [Declared(6, e, Pos(12, 46), Initialized, [1])] + [Declared(6, a1, Pos(12, 58), Initialized, [1])] + [Referenced(7, e, Pos(14, 38), false, false, [1])] + [OutAssigned(7, [], [1])], Declared(4, a2, Pos(17, 13), Initialized, []), fs);
    AnalyseSplit(tr, evs, Chunk0(a1, e, a2, b1, b2, c1, c2, c3, d1), []);
  }

  /** The analysis of events 8 to 15, after the events before them. */
  lemma {:induction false} Analysed1(a1: string, e: string, a2: string, b1: string, b2: string, c1: string, c2: string, c3: string, d1: string, tr: Tree, evs: seq<Event>, fs: seq<Fact>, rs: seq<Diag>)
    requires |tr.scopes| == 29
    requires Parent(tr, 0) == None
    requires Parent(tr, 3) == Some(0)
    requires Parent(tr, 4) == Some(3)
    requires Parent(tr, 9) == Some(4)
    requires Parent(tr, 10) == Some(9)
    requires Parent(tr, 12) == Some(4)
    requires Parent(tr, 15) == Some(4)
    requires Parent(tr, 16) == Some(15)
    requires LocalsOf(tr, 0) == []
    requires LocalsOf(tr, 3) == []
    requires LocalsOf(tr, 4) == [Local(a1, Pos(6, 13)), Local(a2, Pos(17, 13))]
    requires LocalsOf(tr, 9) == []
    requires LocalsOf(tr, 10) == [Local(a2, Pos(25, 42))]
    requires LocalsOf(tr, 12) == [Local(b1, Pos(32, 46)), Local(b1, Pos(32, 59))]
    requires LocalsOf(tr, 15) == [Local(b2, Pos(40, 46))]
    requires LocalsOf(tr, 16) == [Local(b2, Pos(42, 42))]
    requires a1 != a2 && a1 != b1 && a1 != b2 && a2 != b1 && a2 != b2
    requires Analyse(tr, evs, []) == rs
    requires Replay(tr, evs, []) == fs
    requires Assigned(fs, 4, a2, [])
    ensures Analyse(tr, evs + Chunk1(a1, e, a2, b1, b2, c1, c2, c3, d1), []) == rs + ([] + [] + [] + [Diag(Shadow, a2, Pos(25, 42))] + [] + [] + [Diag(Duplicate, b1, Pos(32, 59))] + [] + [Diag(Shadow, b2, Pos(42, 42))])
    ensures Replay(tr, evs + Chunk1(a1, e, a2, b1, b2, c1, c2, c3, d1), []) == fs + [Fact(10, a2, [3])] + [Fact(12, b1, [5])] + [Fact(12, b1, [5])] + [Fact(15, b2, [7])] + [Fact(16, b2, [7])]
  {
    assert Analyse(tr, [], fs) == [] && Replay(tr, [], fs) == fs;
    Event8(a1, e, a2, b1, b2, c1, c2, c3, d1, tr, fs);
    AnalyseSnoc(tr, [], Referenced(4, a2, Pos(18, 34), false, false, []), fs);
    assert Analyse(tr, [] + [Referenced(4, a2, Pos(18, 34), false, false, [])], fs) == [] + [];
    assert Replay(tr, [] + [Referenced(4, a2, Pos(18, 34), false, false, [])], fs) == fs;
    Event9(a1, e, a2, b1, b2, c1, c2, c3, d1, tr, fs);
    AnalyseSnoc(tr, [] + [Referenced(4, a2, Pos(18, 34), false, false, [])], OutAssigned(4, [], []), fs);
    assert Analyse(tr, [] + [Referenced(4, a2, Pos(18, 34), false, false, [])] + [OutAssigned(4, [], [])], fs) == [] + [] + [];
    assert Replay(tr, [] + [Referenced(4, a2, Pos(18, 34), false, false, [])] + [OutAssigned(4, [], [])], fs) == fs;
    Event10(a1, e, a2, b1, b2, c1, c2, c3, d1, tr, fs);
    AnalyseSnoc(tr, [] + [Referenced(4, a2, Pos(18, 34), false, false, [])] + [OutAssigned(4, [], [])], Declared(10, a2, Pos(25, 42), Initialized, [3]), fs);
    assert Analyse(tr, [] + [Referenced(4, a2, Pos(18, 34), false, false, [])] + [OutAssigned(4, [], [])] + [Declared(10, a2, Pos(25, 42), Initialized, [3])], fs) == [] + [] + [] + [Diag(Shadow, a2, Pos(25, 42))];
    assert Replay(tr, [] + [Referenced(4, a2, Pos(18, 34), false, false, [])] + [OutAssigned(4, [], [])] + [Declared(10, a2, Pos(25, 42), Initialized, [3])], fs) == fs + [Fact(10, a2, [3])];
    Event11(a1, e, a2, b1, b2, c1, c2, c3, d1, tr, fs + [Fact(10, a2, [3])]);
    AnalyseSnoc(tr, [] + [Referenced(4, a2, Pos(18, 34), false, false, [])] + [OutAssigned(4, [], [])] + [Declared(10, a2, Pos(25, 42), Initialized, [3])], OutAssigned(10, [], [3]), fs);
    assert Analyse(tr, [] + [Referenced(4, a2, Pos(18, 34), false, false, [])] + [OutAssigned(4, [], [])] + [Declared(10, a2, Pos(25, 42), Initialized, [3])] + [OutAssigned(10, [], [3])], fs) == [] + [] + [] + [Diag(Shadow, a2, Pos(25, 42))] + [];
    assert Replay(tr, [] + [Referenced(4, a2, Pos(18, 34), false, false, [])] + [OutAssigned(4, [], [])] + [Declared(10, a2, Pos(25, 42), Initialized, [3])] + [OutAssigned(10, [], [3])], fs) == fs + [Fact(10, a2, [3])];
    Event12(a1, e, a2, b1, b2, c1, c2, c3, d1, tr, fs + [Fact(10, a2, [3])]);
    AnalyseSnoc(tr, [] + [Referenced(4, a2, Pos(18, 34), false, false, [])] + [OutAssigned(4, [], [])] + [Declared(10, a2, Pos(25, 42), Initialized, [3])] + [OutAssigned(10, [], [3])], Declared(12, b1, Pos(32, 46), Initialized, [5]), fs);
    assert Analyse(tr, [] + [Referenced(4, a2, Pos(18, 34), false, false, [])] + [OutAssigned(4, [], [])] + [Declared(10, a2, Pos(25, 42), Initialized, [3])] + [OutAssigned(10, [], [3])] + [Declared(12, b1, Pos(32, 46), Initialized, [5])], fs) == [] + [] + [] + [Diag(Shadow, a2, Pos(25, 42))] + [] + [];
    assert Replay(tr, [] + [Referenced(4, a2, Pos(18, 34), false, false, [])] + [OutAssigned(4, [], [])] + [Declared(10, a2, Pos(25, 42), Initialized, [3])] + [OutAssigned(10, [], [3])] + [Declared(12, b1, Pos(32, 46), Initialized, [5])], fs) == fs + [Fact(10, a2, [3])] + [Fact(12, b1, [5])];
    Event13(a1, e, a2, b1, b2, c1, c2, c3, d1, tr, fs + [Fact(10, a2, [3])] + [Fact(12, b1, [5])]);
    AnalyseSnoc(tr, [] + [Referenced(4, a2, Pos(18, 34), false, false, [])] + [OutAssigned(4, [], [])] + [Declared(10, a2, Pos(25, 42), Initialized, [3])] + [OutAssigned(10, [], [3])] + [Declared(12, b1, Pos(32, 46), Initialized, [5])], Declared(12, b1, Pos(32, 59), Initialized, [5]), fs);
    assert Analyse(tr, [] + [Referenced(4, a2, Pos(18, 34), false, false, [])] + [OutAssigned(4, [], [])] + [Declared(10, a2, Pos(25, 42), Initialized, [3])] + [OutAssigned(10, [], [3])] + [Declared(12, b1, Pos(32, 46), Initialized, [5])] + [Declared(12, b1, Pos(32, 59), Initialized, [5])], fs) == [] + [] + [] + [Diag(Shadow, a2, Pos(25, 42))] + [] + [] + [Diag(Duplicate, b1, Pos(32, 59))];
    assert Replay(tr, [] + [Referenced(4, a2, Pos(18, 34), false, false, [])] + [OutAssigned(4, [], [])] + [Declared(10, a2, Pos(25, 42), Initialized, [3])] + [OutAssigned(10, [], [3])] + [Declared(12, b1, Pos(32, 46), Initialized, [5])] + [Declared(12, b1, Pos(32, 59), Initialized, [5])], fs) == fs + [Fact(10, a2, [3])] + [Fact(12, b1, [5])] + [Fact(12, b1, [5])];
    Event14(a1, e, a2, b1, b2, c1, c2, c3, d1, tr, fs + [Fact(10, a2, [3])] + [Fact(12, b1, [5])] + [Fact(12, b1, [5])]);
    AnalyseSnoc(tr, [] + [Referenced(4, a2, Pos(18, 34), false, false, [])] + [OutAssigned(4, [], [])] + [Declared(10, a2, Pos(25, 42), Initialized, [3])] + [OutAssigned(10, [], [3])] + [Declared(12, b1, Pos(32, 46), Initialized, [5])] + [Declared(12, b1, Pos(32, 59), Initialized, [5])], Declared(15, b2, Pos(40, 46), Initialized, [7]), fs);
    assert Analyse(tr, [] + [Referenced(4, a2, Pos(18, 34), false, false, [])] + [OutAssigned(4, [], [])] + [Declared(10, a2, Pos(25, 42), Initialized, [3])] + [OutAssigned(10, [], [3])] + [Declared(12, b1, Pos(32, 46), Initialized, [5])] + [Declared(12, b1, Pos(32, 59), Initialized, [5])] + [Declared(15, b2, Pos(40, 46), Initialized, [7])], fs) == [] + [] + [] + [Diag(Shadow, a2, Pos(25, 42))] + [] + [] + [Diag(Duplicate, b1, Pos(32, 59))] + [];
    assert Replay(tr, [] + [Referenced(4, a2, Pos(18, 34), false, false, [])] + [OutAssigned(4, [], [])] + [Declared(10, a2, Pos(25, 42), Initialized, [3])] + [OutAssigned(10, [], [3])] + [Declared(12, b1, Pos(32, 46), Initialized, [5])] + [Declared(12, b1, Pos(32, 59), Initialized, [5])] + [Declared(15, b2, Pos(40, 46), Initialized, [7])], fs) == fs + [Fact(10, a2, [3])] + [Fact(12, b1, [5])] + [Fact(12, b1, [5])] + [Fact(15, b2, [7])];
    Event15(a1, e, a2, b1, b2, c1, c2, c3, d1, tr, fs + [Fact(10, a2, [3])] + [Fact(12, b1, [5])] + [Fact(12, b1, [5])] + [Fact(15, b2, [7])]);
    AnalyseSnoc(tr, [] + [Referenced(4, a2, Pos(18, 34), false, false, [])] + [OutAssigned(4, [], [])] + [Declared(10, a2, Pos(25, 42), Initialized, [3])] + [OutAssigned(10, [], [3])] + [Declared(12, b1, Pos(32, 46), Initialized, [5])] + [Declared(12, b1, Pos(32, 59), Initialized, [5])] + [Declared(15, b2, Pos(40, 46), Initialized, [7])], Declared(16, b2, Pos(42, 42), Initialized, [7]), fs);
    AnalyseSplit(tr, evs, Chunk1(a1, e, a2, b1, b2, c1, c2, c3, d1), []);
  }

  /** The analysis of events 16 to 23, after the events before them. */
  lemma {:induction false} Analysed2(a1: string, e: string, a2: string, b1: string, b2: string, c1: string, c2: string, c3: string, d1: string, tr: Tree, evs: seq<Event>, fs: seq<Fact>, rs: seq<Diag>)
    requires |tr.scopes| == 29
    requires Parent(tr, 0) == None
    requires Parent(tr, 3) == Some(0)
    requires Parent(tr, 4) == Some(3)
    requires Parent(tr, 18) == Some(4)
    requires Parent(tr, 21) == Some(4)
    requires Parent(tr, 22) == Some(21)
    requires Parent(tr, 24) == Some(4)
    requires Parent(tr, 25) == Some(24)
    requires LocalsOf(tr, 0) == []
    requires LocalsOf(tr, 3) == []
    requires LocalsOf(tr, 4) == [Local(a1, Pos(6, 13)), Local(a2, Pos(17, 13))]
    requires LocalsOf(tr, 18) == [Local(c1, Pos(49, 57)), Local(c1, Pos(49, 78))]
    requires LocalsOf(tr, 21) == [Local(c2, Pos(57, 56))]
    requires LocalsOf(tr, 22) == [Local(c2, Pos(59, 42))]
    requires LocalsOf(tr, 24) == [Local(c3, Pos(66, 56))]
    requires LocalsOf(tr, 25) == [Local(c3, Pos(68, 17))]
    requires a1 != c1 && a1 != c2 && a1 != c3 && a2 != c1 && a2 != c2 && a2 != c3
    requires Analyse(tr, evs, []) == rs
    requires Replay(tr, evs, []) == fs
    ensures Analyse(tr, evs + Chunk2(a1, e, a2, b1, b2, c1, c2, c3, d1), []) == rs + ([] + [] + [] + [Diag(Duplicate, c1, Pos(49, 78))] + [] + [Diag(Shadow, c2, Pos(59, 42))] + [] + [] + [Diag(Shadow, c3, Pos(68, 17))])
    ensures Replay(tr, evs + Chunk2(a1, e, a2, b1, b2, c1, c2, c3, d1), []) == fs + [Fact(18, c1, [9])] + [Fact(18, c1, [9])] + [Fact(21, c2, [11])] + [Fact(22, c2, [11])] + [Fact(24, c3, [13])] + [Fact(25, c3, [13])]
  {
    assert Analyse(tr, [], fs) == [] && Replay(tr, [], fs) == fs;
    Event16(a1, e, a2, b1, b2, c1, c2, c3, d1, tr, fs);
    AnalyseSnoc(tr, [], OutAssigned(16, [], [7]), fs);
    assert Analyse(tr, [] + [OutAssigned(16, [], [7])], fs) == [] + [];
    assert Replay(tr, [] + [OutAssigned(16, [], [7])], fs) == fs;
    Event17(a1, e, a2, b1, b2, c1, c2, c3, d1, tr, fs);
    AnalyseSnoc(tr, [] + [OutAssigned(16, [], [7])], Declared(18, c1, Pos(49, 57), Initialized, [9]), fs);
    assert Analyse(tr, [] + [OutAssigned(16, [], [7])] + [Declared(18, c1, Pos(49, 57), Initialized, [9])], fs) == [] + [] + [];
    assert Replay(tr, [] + [OutAssigned(16, [], [7])] + [Declared(18, c1, Pos(49, 57), Initialized, [9])], fs) == fs + [Fact(18, c1, [9])];
    Event18(a1, e, a2, b1, b2, c1, c2, c3, d1, tr, fs + [Fact(18, c1, [9])]);
    AnalyseSnoc(tr, [] + [OutAssigned(16, [], [7])] + [Declared(18, c1, Pos(49, 57), Initialized, [9])], Declared(18, c1, Pos(49, 78), Initialized, [9]), fs);
    assert Analyse(tr, [] + [OutAssigned(16, [], [7])] + [Declared(18, c1, Pos(49, 57), Initialized, [9])] + [Declared(18, c1, Pos(49, 78), Initialized, [9])], fs) == [] + [] + [] + [Diag(Duplicate, c1, Pos(49, 78))];
    assert Replay(tr, [] + [OutAssigned(16, [], [7])] + [Declared(18, c1, Pos(49, 57), Initialized, [9])] + [Declared(18, c1, Pos(49, 78), Initialized, [9])], fs) == fs + [Fact(18, c1, [9])] + [Fact(18, c1, [9])];
    Event19(a1, e, a2, b1, b2, c1, c2, c3, d1, tr, fs + [Fact(18, c1, [9])] + [Fact(18, c1, [9])]);
    AnalyseSnoc(tr, [] + [OutAssigned(16, [], [7])] + [Declared(18, c1, Pos(49, 57), Initialized, [9])] + [Declared(18, c1, Pos(49, 78), Initialized, [9])], Declared(21, c2, Pos(57, 56), Initialized, [11]), fs);
    assert Analyse(tr, [] + [OutAssigned(16, [], [7])] + [Declared(18, c1, Pos(49, 57), Initialized, [9])] + [Declared(18, c1, Pos(49, 78), Initialized, [9])] + [Declared(21, c2, Pos(57, 56), Initialized, [11])], fs) == [] + [] + [] + [Diag(Duplicate, c1, Pos(49, 78))] + [];
    assert Replay(tr, [] + [OutAssigned(16, [], [7])] + [Declared(18, c1, Pos(49, 57), Initialized, [9])] + [Declared(18, c1, Pos(49, 78), Initialized, [9])] + [Declared(21, c2, Pos(57, 56), Initialized, [11])], fs) == fs + [Fact(18, c1, [9])] + [Fact(18, c1, [9])] + [Fact(21, c2, [11])];
    Event20(a1, e, a2, b1, b2, c1, c2, c3, d1, tr, fs + [Fact(18, c1, [9])] + [Fact(18, c1, [9])] + [Fact(21, c2, [11])]);
    AnalyseSnoc(tr, [] + [OutAssigned(16, [], [7])] + [Declared(18, c1, Pos(49, 57), Initialized, [9])] + [Declared(18, c1, Pos(49, 78), Initialized, [9])] + [Declared(21, c2, Pos(57, 56), Initialized, [11])], Declared(22, c2, Pos(59, 42), Initialized, [11]), fs);
    assert Analyse(tr, [] + [OutAssigned(16, [], [7])] + [Declared(18, c1, Pos(49, 57), Initialized, [9])] + [Declared(18, c1, Pos(49, 78), Initialized, [9])] + [Declared(21, c2, Pos(57, 56), Initialized, [11])] + [Declared(22, c2, Pos(59, 42), Initialized, [11])], fs) == [] + [] + [] + [Diag(Duplicate, c1, Pos(49, 78))] + [] + [Diag(Shadow, c2, Pos(59, 42))];
    assert Replay(tr, [] + [OutAssigned(16, [], [7])] + [Declared(18, c1, Pos(49, 57), Initialized, [9])] + [Declared(18, c1, Pos(49, 78), Initialized, [9])] + [Declared(21, c2, Pos(57, 56), Initialized, [11])] + [Declared(22, c2, Pos(59, 42), Initialized, [11])], fs) == fs + [Fact(18, c1, [9])] + [Fact(18, c1, [9])] + [Fact(21, c2, [11])] + [Fact(22, c2, [11])];
    Event21(a1, e, a2, b1, b2, c1, c2, c3, d1, tr, fs + [Fact(18, c1, [9])] + [Fact(18, c1, [9])] + [Fact(21, c2, [11])] + [Fact(22, c2, [11])]);
    AnalyseSnoc(tr, [] + [OutAssigned(16, [], [7])] + [Declared(18, c1, Pos(49, 57), Initialized, [9])] + [Declared(18, c1, Pos(49, 78), Initialized, [9])] + [Declared(21, c2, Pos(57, 56), Initialized, [11])] + [Declared(22, c2, Pos(59, 42), Initialized, [11])], OutAssigned(22, [], [11]), fs);
    assert Analyse(tr, [] + [OutAssigned(16, [], [7])] + [Declared(18, c1, Pos(49, 57), Initialized, [9])] + [Declared(18, c1, Pos(49, 78), Initialized, [9])] + [Declared(21, c2, Pos(57, 56), Initialized, [11])] + [Declared(22, c2, Pos(59, 42), Initialized, [11])] + [OutAssigned(22, [], [11])], fs) == [] + [] + [] + [Diag(Duplicate, c1, Pos(49, 78))] + [] + [Diag(Shadow, c2, Pos(59, 42))] + [];
    assert Replay(tr, [] + [OutAssigned(16, [], [7])] + [Declared(18, c1, Pos(49, 57), Initialized, [9])] + [Declared(18, c1, Pos(49, 78), Initialized, [9])] + [Declared(21, c2, Pos(57, 56), Initialized, [11])] + [Declared(22, c2, Pos(59, 42), Initialized, [11])] + [OutAssigned(22, [], [11])], fs) == fs + [Fact(18, c1, [9])] + [Fact(18, c1, [9])] + [Fact(21, c2, [11])] + [Fact(22, c2, [11])];
    Event22(a1, e, a2, b1, b2, c1, c2, c3, d1, tr, fs + [Fact(18, c1, [9])] + [Fact(18, c1, [9])] + [Fact(21, c2, [11])] + [Fact(22, c2, [11])]);
    AnalyseSnoc(tr, [] + [OutAssigned(16, [], [7])] + [Declared(18, c1, Pos(49, 57), Initialized, [9])] + [Declared(18, c1, Pos(49, 78), Initialized, [9])] + [Declared(21, c2, Pos(57, 56), Initialized, [11])] + [Declared(22, c2, Pos(59, 42), Initialized, [11])] + [OutAssigned(22, [], [11])], Declared(24, c3, Pos(66, 56), Initialized, [13]), fs);
    assert Analyse(tr, [] + [OutAssigned(16, [], [7])] + [Declared(18, c1, Pos(49, 57), Initialized, [9])] + [Declared(18, c1, Pos(49, 78), Initialized, [9])] + [Declared(21, c2, Pos(57, 56), Initialized, [11])] + [Declared(22, c2, Pos(59, 42), Initialized, [11])] + [OutAssigned(22, [], [11])] + [Declared(24, c3, Pos(66, 56), Initialized, [13])], fs) == [] + [] + [] + [Diag(Duplicate, c1, Pos(49, 78))] + [] + [Diag(Shadow, c2, Pos(59, 42))] + [] + [];
    assert Replay(tr, [] + [OutAssigned(16, [], [7])] + [Declared(18, c1, Pos(49, 57), Initialized, [9])] + [Declared(18, c1, Pos(49, 78), Initialized, [9])] + [Declared(21, c2, Pos(57, 56), Initialized, [11])] + [Declared(22, c2, Pos(59, 42), Initialized, [11])] + [OutAssigned(22, [], [11])] + [Declared(24, c3, Pos(66, 56), Initialized, [13])], fs) == fs + [Fact(18, c1, [9])] + [Fact(18, c1, [9])] + [Fact(21, c2, [11])] + [Fact(22, c2, [11])] + [Fact(24, c3, [13])];
    Event23(a1, e, a2, b1, b2, c1, c2, c3, d1, tr, fs + [Fact(18, c1, [9])] + [Fact(18, c1, [9])] + [Fact(21, c2, [11])] + [Fact(22, c2, [11])] + [Fact(24, c3, [13])]);
    AnalyseSnoc(tr, [] + [OutAssigned(16, [], [7])] + [Declared(18, c1, Pos(49, 57), Initialized, [9])] + [Declared(18, c1, Pos(49, 78), Initialized, [9])] + [Declared(21, c2, Pos(57, 56), Initialized, [11])] + [Declared(22, c2, Pos(59, 42), Initialized, [11])] + [OutAssigned(22, [], [11])] + [Declared(24, c3, Pos(66, 56), Initialized, [13])], Declared(25, c3, Pos(68, 17), Initialized, [13]), fs);
    AnalyseSplit(tr, evs, Chunk2(a1, e, a2, b1, b2, c1, c2, c3, d1), []);
  }

  /** The analysis of events 24 to 28, after the events before them. */
  lemma {:induction false} Analysed3(a1: string, e: string, a2: string, b1: string, b2: string, c1: string, c2: string, c3: string, d1: string, tr: Tree, evs: seq<Event>, fs: seq<Fact>, rs: seq<Diag>)
    requires |tr.scopes| == 29
    requires Parent(tr, 0) == None
    requires Parent(tr, 3) == Some(0)
    requires Parent(tr, 4) == Some(3)
    requires Parent(tr, 25) == Some(24)
    requires Parent(tr, 27) == Some(4)
    requires Parent(tr, 28) == Some(27)
    requires LocalsOf(tr, 0) == []
    requires LocalsOf(tr, 3) == []
    requires LocalsOf(tr, 4) == [Local(a1, Pos(6, 13)), Local(a2, Pos(17, 13))]
    requires LocalsOf(tr, 25) == [Local(c3, Pos(68, 17))]
    requires LocalsOf(tr, 27) == []
    requires LocalsOf(tr, 28) == [Local(d1, Pos(78, 44)), Local(d1, Pos(78, 65))]
    requires a1 != d1 && a2 != d1
    requires Analyse(tr, evs, []) == rs
    requires Replay(tr, evs, []) == fs
    requires Assigned(fs, 25, c3, [13])
    ensures Analyse(tr, evs + Chunk3(a1, e, a2, b1, b2, c1, c2, c3, d1), []) == rs + ([] + [] + [] + [] + [Diag(Duplicate, d1, Pos(78, 65))] + [])
    ensures Replay(tr, evs + Chunk3(a1, e, a2, b1, b2, c1, c2, c3, d1), []) == fs + [Fact(28, d1, [15])] + [Fact(28, d1, [15])]
  {
    assert Analyse(tr, [], fs) == [] && Replay(tr, [], fs) == fs;
    Event24(a1, e, a2, b1, b2, c1, c2, c3, d1, tr, fs);
    AnalyseSnoc(tr, [], Referenced(25, c3, Pos(69, 38), false, false, [13]), fs);
    assert Analyse(tr, [] + [Referenced(25, c3, Pos(69, 38), false, false, [13])], fs) == [] + [];
    assert Replay(tr, [] + [Referenced(25, c3, Pos(69, 38), false, false, [13])], fs) == fs;
    Event25(a1, e, a2, b1, b2, c1, c2, c3, d1, tr, fs);
    AnalyseSnoc(tr, [] + [Referenced(25, c3, Pos(69, 38), false, false, [13])], OutAssigned(25, [], [13]), fs);
    assert Analyse(tr, [] + [Referenced(25, c3, Pos(69, 38), false, false, [13])] + [OutAssigned(25, [], [13])], fs) == [] + [] + [];
    assert Replay(tr, [] + [Referenced(25, c3, Pos(69, 38), false, false, [13])] + [OutAssigned(25, [], [13])], fs) == fs;
    Event26(a1, e, a2, b1, b2, c1, c2, c3, d1, tr, fs);
    AnalyseSnoc(tr, [] + [Referenced(25, c3, Pos(69, 38), false, false, [13])] + [OutAssigned(25, [], [13])], Declared(28, d1, Pos(78, 44), Initialized, [15]), fs);
    assert Analyse(tr, [] + [Referenced(25, c3, Pos(69, 38), false, false, [13])] + [OutAssigned(25, [], [13])] + [Declared(28, d1, Pos(78, 44), Initialized, [15])], fs) == [] + [] + [] + [];
    assert Replay(tr, [] + [Referenced(25, c3, Pos(69, 38), false, false, [13])] + [OutAssigned(25, [], [13])] + [Declared(28, d1, Pos(78, 44), Initialized, [15])], fs) == fs + [Fact(28, d1, [15])];
    Event27(a1, e, a2, b1, b2, c1, c2, c3, d1, tr, fs + [Fact(28, d1, [15])]);
    AnalyseSnoc(tr, [] + [Referenced(25, c3, Pos(69, 38), false, false, [13])] + [OutAssigned(25, [], [13])] + [Declared(28, d1, Pos(78, 44), Initialized, [15])], Declared(28, d1, Pos(78, 65), Initialized, [15]), fs);
    assert Analyse(tr, [] + [Referenced(25, c3, Pos(69, 38), false, false, [13])] + [OutAssigned(25, [], [13])] + [Declared(28, d1, Pos(78, 44), Initialized, [15])] + [Declared(28, d1, Pos(78, 65), Initialized, [15])], fs) == [] + [] + [] + [] + [Diag(Duplicate, d1, Pos(78, 65))];
    assert Replay(tr, [] + [Referenced(25, c3, Pos(69, 38), false, false, [13])] + [OutAssigned(25, [], [13])] + [Declared(28, d1, Pos(78, 44), Initialized, [15])] + [Declared(28, d1, Pos(78, 65), Initialized, [15])], fs) == fs + [Fact(28, d1, [15])] + [Fact(28, d1, [15])];
    Event28(a1, e, a2, b1, b2, c1, c2, c3, d1, tr, fs + [Fact(28, d1, [15])] + [Fact(28, d1, [15])]);
    AnalyseSnoc(tr, [] + [Referenced(25, c3, Pos(69, 38), false, false, [13])] + [OutAssigned(25, [], [13])] + [Declared(28, d1, Pos(78, 44), Initialized, [15])] + [Declared(28, d1, Pos(78, 65), Initialized, [15])], OutAssigned(28, [], [15]), fs);
    AnalyseSplit(tr, evs, Chunk3(a1, e, a2, b1, b2, c1, c2, c3, d1), []);
  }

  lemma {:induction false} Glue0(a1: string, e: string, a2: string, b1: string, b2: string, c1: string, c2: string, c3: string, d1: string, rs: seq<Diag>)
    requires rs == []
    ensures rs + ([] + [] + [] + [] + [] + [Diag(Shadow, a1, Pos(12, 58))] + [] + [] + []) == [Diag(Shadow, a1, Pos(12, 58))]
  {
  }

  lemma {:induction false} Glue1(a1: string, e: string, a2: string, b1: string, b2: string, c1: string, c2: string, c3: string, d1: string, rs: seq<Diag>)
    requires rs == [Diag(Shadow, a1, Pos(12, 58))]
    ensures rs + ([] + [] + [] + [Diag(Shadow, a2, Pos(25, 42))] + [] + [] + [Diag(Duplicate, b1, Pos(32, 59))] + [] + [Diag(Shadow, b2, Pos(42, 42))]) == [Diag(Shadow, a1, Pos(12, 58)), Diag(Shadow, a2, Pos(25, 42)), Diag(Duplicate, b1, Pos(32, 59)), Diag(Shadow, b2, Pos(42, 42))]
  {
  }

  lemma {:induction false} Glue2(a1: string, e: string, a2: string, b1: string, b2: string, c1: string, c2: string, c3: string, d1: string, rs: seq<Diag>)
    requires rs == [Diag(Shadow, a1, Pos(12, 58)), Diag(Shadow, a2, Pos(25, 42)), Diag(Duplicate, b1, Pos(32, 59)), Diag(Shadow, b2, Pos(42, 42))]
    ensures rs + ([] + [] + [] + [Diag(Duplicate, c1, Pos(49, 78))] + [] + [Diag(Shadow, c2, Pos(59, 42))] + [] + [] + [Diag(Shadow, c3, Pos(68, 17))]) == [Diag(Shadow, a1, Pos(12, 58)), Diag(Shadow, a2, Pos(25, 42)), Diag(Duplicate, b1, Pos(32, 59)), Diag(Shadow, b2, Pos(42, 42)), Diag(Duplicate, c1, Pos(49, 78)), Diag(Shadow, c2, Pos(59, 42)), Diag(Shadow, c3, Pos(68, 17))]
  {
  }

  lemma {:induction false} Glue3(a1: string, e: string, a2: string, b1: string, b2: string, c1: string, c2: string, c3: string, d1: string, rs: seq<Diag>)
    requires rs == [Diag(Shadow, a1, Pos(12, 58)), Diag(Shadow, a2, Pos(25, 42)), Diag(Duplicate, b1, Pos(32, 59)), Diag(Shadow, b2, Pos(42, 42)), Diag(Duplicate, c1, Pos(49, 78)), Diag(Shadow, c2, Pos(59, 42)), Diag(Shadow, c3, Pos(68, 17))]
    ensures rs + ([] + [] + [] + [] + [Diag(Duplicate, d1, Pos(78, 65))] + []) == [Diag(Shadow, a1, Pos(12, 58)), Diag(Shadow, a2, Pos(25, 42)), Diag(Duplicate, b1, Pos(32, 59)), Diag(Shadow, b2, Pos(42, 42)), Diag(Duplicate, c1, Pos(49, 78)), Diag(Shadow, c2, Pos(59, 42)), Diag(Shadow, c3, Pos(68, 17)), Diag(Duplicate, d1, Pos(78, 65))]
  {
  }

  /** The analysis of events 0 to 28, after the events before them. */
  lemma {:induction false} Stage0(a1: string, e: string, a2: string, b1: string, b2: string, c1: string, c2: string, c3: string, d1: string, tr: Tree, evs: seq<Event>)
    requires ScopesAre(tr, Layout())
    requires LocalsFit(a1, e, a2, b1, b2, c1, c2, c3, d1, tr)
    requires a1 != e && a1 != a2 && a1 != b1 && a1 != b2 && a1 != c1 && a1 != c2 && a1 != c3 && a1 != d1 && e != a2 && a2 != b1 && a2 != b2 && a2 != c1 && a2 != c2 && a2 != c3 && a2 != d1
    requires Analyse(tr, evs, []) == []
    requires Replay(tr, evs, []) == []
    ensures Analyse(tr, evs + Chunk0(a1, e, a2, b1, b2, c1, c2, c3, d1) + Chunk1(a1, e, a2, b1, b2, c1, c2, c3, d1) + Chunk2(a1, e, a2, b1, b2, c1, c2, c3, d1) + Chunk3(a1, e, a2, b1, b2, c1, c2, c3, d1), []) == [Diag(Shadow, a1, Pos(12, 58)), Diag(Shadow, a2, Pos(25, 42)), Diag(Duplicate, b1, Pos(32, 59)), Diag(Shadow, b2, Pos(42, 42)), Diag(Duplicate, c1, Pos(49, 78)), Diag(Shadow, c2, Pos(59, 42)), Diag(Shadow, c3, Pos(68, 17)), Diag(Duplicate, d1, Pos(78, 65))]
    ensures Replay(tr, evs + Chunk0(a1, e, a2, b1, b2, c1, c2, c3, d1) + Chunk1(a1, e, a2, b1, b2, c1, c2, c3, d1) + Chunk2(a1, e, a2, b1, b2, c1, c2, c3, d1) + Chunk3(a1, e, a2, b1, b2, c1, c2, c3, d1), []) == Known3(a1, e, a2, b1, b2, c1, c2, c3, d1)
  {
    assert !Assigned([], 4, a1, []);
    assert !Assigned([], 6, e, [1]);
    Scope0(a1, e, a2, b1, b2, c1, c2, c3, d1, tr);
    Scope3(a1, e, a2, b1, b2, c1, c2, c3, d1, tr);
    Scope4(a1, e, a2, b1, b2, c1, c2, c3, d1, tr);
    Scope6(a1, e, a2, b1, b2, c1, c2, c3, d1, tr);
    Scope7(a1, e, a2, b1, b2, c1, c2, c3, d1, tr);
    Analysed0(a1, e, a2, b1, b2, c1, c2, c3, d1, tr, evs, [], []);
    Glue0(a1, e, a2, b1, b2, c1, c2, c3, d1, []);
    Read0(a1, e, a2, b1, b2, c1, c2, c3, d1);
    Scope9(a1, e, a2, b1, b2, c1, c2, c3, d1, tr);
    Scope10(a1, e, a2, b1, b2, c1, c2, c3, d1, tr);
    Scope12(a1, e, a2, b1, b2, c1, c2, c3, d1, tr);
    Scope15(a1, e, a2, b1, b2, c1, c2, c3, d1, tr);
    Scope16(a1, e, a2, b1, b2, c1, c2, c3, d1, tr);
    Analysed1(a1, e, a2, b1, b2, c1, c2, c3, d1, tr, evs + Chunk0(a1, e, a2, b1, b2, c1, c2, c3, d1), Known0(a1, e, a2, b1, b2, c1, c2, c3, d1), [Diag(Shadow, a1, Pos(12, 58))]);
    Glue1(a1, e, a2, b1, b2, c1, c2, c3, d1, [Diag(Shadow, a1, Pos(12, 58))]);
    Scope18(a1, e, a2, b1, b2, c1, c2, c3, d1, tr);
    Scope21(a1, e, a2, b1, b2, c1, c2, c3, d1, tr);
    Scope22(a1, e, a2, b1, b2, c1, c2, c3, d1, tr);
    Scope24(a1, e, a2, b1, b2, c1, c2, c3, d1, tr);
    Scope25(a1, e, a2, b1, b2, c1, c2, c3, d1, tr);
    Analysed2(a1, e, a2, b1, b2, c1, c2, c3, d1, tr, evs + Chunk0(a1, e, a2, b1, b2, c1, c2, c3, d1) + Chunk1(a1, e, a2, b1, b2, c1, c2, c3, d1), Known1(a1, e, a2, b1, b2, c1, c2, c3, d1), [Diag(Shadow, a1, Pos(12, 58)), Diag(Shadow, a2, Pos(25, 42)), Diag(Duplicate, b1, Pos(32, 59)), Diag(Shadow, b2, Pos(42, 42))]);
    Glue2(a1, e, a2, b1, b2, c1, c2, c3, d1, [Diag(Shadow, a1, Pos(12, 58)), Diag(Shadow, a2, Pos(25, 42)), Diag(Duplicate, b1, Pos(32, 59)), Diag(Shadow, b2, Pos(42, 42))]);
    Read1(a1, e, a2, b1, b2, c1, c2, c3, d1);
    Scope27(a1, e, a2, b1, b2, c1, c2, c3, d1, tr);
    Scope28(a1, e, a2, b1, b2, c1, c2, c3, d1, tr);
    Analysed3(a1, e, a2, b1, b2, c1, c2, c3, d1, tr, evs + Chunk0(a1, e, a2, b1, b2, c1, c2, c3, d1) + Chunk1(a1, e, a2, b1, b2, c1, c2, c3, d1) + Chunk2(a1, e, a2, b1, b2, c1, c2, c3, d1), Known2(a1, e, a2, b1, b2, c1, c2, c3, d1), [Diag(Shadow, a1, Pos(12, 58)), Diag(Shadow, a2, Pos(25, 42)), Diag(Duplicate, b1, Pos(32, 59)), Diag(Shadow, b2, Pos(42, 42)), Diag(Duplicate, c1, Pos(49, 78)), Diag(Shadow, c2, Pos(59, 42)), Diag(Shadow, c3, Pos(68, 17))]);
    Glue3(a1, e, a2, b1, b2, c1, c2, c3, d1, [Diag(Shadow, a1, Pos(12, 58)), Diag(Shadow, a2, Pos(25, 42)), Diag(Duplicate, b1, Pos(32, 59)), Diag(Shadow, b2, Pos(42, 42)), Diag(Duplicate, c1, Pos(49, 78)), Diag(Shadow, c2, Pos(59, 42)), Diag(Shadow, c3, Pos(68, 17))]);
  }

  /** The analysis of a tree with the test's scopes and events. */
  lemma {:induction false} Result(a1: string, e: string, a2: string, b1: string, b2: string, c1: string, c2: string, c3: string, d1: string, tr: Tree)
    requires ScopesAre(tr, Layout()) && LocalsFit(a1, e, a2, b1, b2, c1, c2, c3, d1, tr) && tr.events == Trace(a1, e, a2, b1, b2, c1, c2, c3, d1)
    requires a1 != e && a1 != a2 && a1 != b1 && a1 != b2 && a1 != c1 && a1 != c2 && a1 != c3 && a1 != d1 && e != a2 && a2 != b1 && a2 != b2 && a2 != c1 && a2 != c2 && a2 != c3 && a2 != d1
    ensures Analyse(tr, tr.events, []) == [Diag(Shadow, a1, Pos(12, 58)), Diag(Shadow, a2, Pos(25, 42)), Diag(Duplicate, b1, Pos(32, 59)), Diag(Shadow, b2, Pos(42, 42)), Diag(Duplicate, c1, Pos(49, 78)), Diag(Shadow, c2, Pos(59, 42)), Diag(Shadow, c3, Pos(68, 17)), Diag(Duplicate, d1, Pos(78, 65))]
  {
    assert Analyse(tr, [], []) == [] && Replay(tr, [], []) == [];
    Stage0(a1, e, a2, b1, b2, c1, c2, c3, d1, tr, []);
  }

  /** The diagnostics the test expects, in the order the analysis reports them. */
  lemma {:induction false} Outcome(a1: string, e: string, a2: string, b1: string, b2: string, c1: string, c2: string, c3: string, d1: string)
    requires a1 != e && a1 != a2 && a1 != b1 && a1 != b2 && a1 != c1 && a1 != c2 && a1 != c3 && a1 != d1 && e != a2 && a2 != b1 && a2 != b2 && a2 != c1 && a2 != c2 && a2 != c3 && a2 != d1
    ensures Check(Program(a1, e, a2, b1, b2, c1, c2, c3, d1)) == [Diag(Shadow, a1, Pos(12, 58)), Diag(Shadow, a2, Pos(25, 42)), Diag(Duplicate, b1, Pos(32, 59)), Diag(Shadow, b2, Pos(42, 42)), Diag(Duplicate, c1, Pos(49, 78)), Diag(Shadow, c2, Pos(59, 42)), Diag(Shadow, c3, Pos(68, 17)), Diag(Duplicate, d1, Pos(78, 65))]
  {
    Walked(a1, e, a2, b1, b2, c1, c2, c3, d1);
    LocalsAll(a1, e, a2, b1, b2, c1, c2, c3, d1, Build(Program(a1, e, a2, b1, b2, c1, c2, c3, d1)));
    Result(a1, e, a2, b1, b2, c1, c2, c3, d1, Build(Program(a1, e, a2, b1, b2, c1, c2, c3, d1)));
  }
}

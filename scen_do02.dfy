/**
 * The test Do_02 (DeclarationExpressionsTests.cs, lines 1717 to 1844).
 *
 * Its program, with its local names left as parameters, is walked into a scope tree and
 * analysed; Outcome states the exact list of diagnostics Check reports, for any names that
 * differ where the outcome depends on it.
 */
module ScenDo02 {
  import opened Syntax
  import opened Scopes
  import opened Binding
  import opened Reporting
  import opened Frames
  import opened Units
  import opened Traces

  /** The statements of the test's method, its names left as parameters. */
  function Body(k: string, j: string, n: string, q: string, r: string, s: string, a1: string, a2: string, a3: string, c1: string, c2: string, c3: string, c4: string, d1: string): seq<Stmt> {
    [Do(Exprs([Call([Argument([Declare(k, Pos(7, 43), Initialized)] + ([Use(k, Pos(7, 52), false)]))])]), [Declare(j, Pos(8, 21), Initialized)] + ([Use(j, Pos(8, 31), false)]))] + ([Exprs([Use(j, Pos(10, 9), true)])] + ([Exprs([Use(k, Pos(11, 9), true)])] + ([Do(Exprs([Call([Argument([Use(n, Pos(14, 38), false)])])]), [Declare(n, Pos(15, 21), Initialized)])] + ([Do(Block([Exprs([Call([Argument([Use(q, Pos(19, 38), false)])])])]), [Declare(q, Pos(21, 21), Initialized)])] + ([Do(Block([Exprs([Call([Argument([Declare(r, Pos(25, 42), Initialized)])])])]), [Use(r, Pos(27, 16), false)])] + ([Do(Exprs([Call([Argument([Declare(s, Pos(30, 42), Initialized)])])]), [Use(s, Pos(31, 15), false)])] + ([Exprs([Declare(a1, Pos(33, 13), Initialized)])] + ([Exprs([Call([Argument([Use(a1, Pos(34, 34), false)])])])] + ([Do(Exprs([Call([])]), [Declare(a1, Pos(37, 21), Initialized)])] + ([Exprs([Declare(a2, Pos(39, 13), Initialized)])] + ([Exprs([Call([Argument([Use(a2, Pos(40, 34), false)])])])] + ([Do(Exprs([Call([Argument([Declare(a2, Pos(42, 42), Initialized)])])]), [Use(a2, Pos(43, 16), false)])] + ([Exprs([Declare(a3, Pos(45, 13), Initialized)])] + ([Exprs([Call([Argument([Use(a3, Pos(46, 34), false)])])])] + ([Do(Block([Exprs([Call([Argument([Declare(a3, Pos(49, 42), Initialized)])])])]), [Use(a2, Pos(51, 16), false)])] + ([Do(Exprs([Call([])]), [Declare(c1, Pos(55, 22), Initialized)] + ([Declare(c1, Pos(55, 42), Initialized)]))] + ([Do(Exprs([Call([Argument([Declare(c2, Pos(58, 42), Initialized)])])]), [Declare(c2, Pos(59, 21), Initialized)])] + ([Do(Block([Exprs([Call([Argument([Declare(c3, Pos(63, 42), Initialized)])])])]), [Declare(c3, Pos(65, 21), Initialized)])] + ([Do(Block([Exprs([Declare(c4, Pos(69, 17), Initialized)])] + ([Exprs([Call([Argument([Use(c4, Pos(70, 38), false)])])])])), [Declare(c4, Pos(72, 21), Initialized)])] + ([Do(Exprs([Call([Argument([Declare(d1, Pos(75, 43), Initialized)] + ([Declare(d1, Pos(75, 58), Initialized)]))])]), [Use(a2, Pos(76, 16), false)])]))))))))))))))))))))
  }

  /** The program of the test: one method holding those statements. */
  function Program(k: string, j: string, n: string, q: string, r: string, s: string, a1: string, a2: string, a3: string, c1: string, c2: string, c3: string, c4: string, d1: string): seq<Fragment> {
    MainUnit(Body(k, j, n, q, r, s, a1, a2, a3, c1, c2, c3, c4, d1))
  }

  /** Scopes 0 to 7, in the order the walk opens them. */
  function Layout0(): seq<Scope> {
    [Scope(Unit, None),
     Scope(InstanceInitializers, Some(0)),
     Scope(StaticInitializers, Some(0)),
     Scope(MethodBody, Some(0)),
     Scope(BlockBody, Some(3)),
     Scope(LoopCondition, Some(4)),
     Scope(EmbeddedBody, Some(5)),
     Scope(LoopCondition, Some(4))]
  }

  /** Scopes 8 to 15, in the order the walk opens them. */
  function Layout1(): seq<Scope> {
    [Scope(EmbeddedBody, Some(7)),
     Scope(LoopCondition, Some(4)),
     Scope(BlockBody, Some(9)),
     Scope(LoopCondition, Some(4)),
     Scope(BlockBody, Some(11)),
     Scope(LoopCondition, Some(4)),
     Scope(EmbeddedBody, Some(13)),
     Scope(LoopCondition, Some(4))]
  }

  /** Scopes 16 to 23, in the order the walk opens them. */
  function Layout2(): seq<Scope> {
    [Scope(EmbeddedBody, Some(15)),
     Scope(LoopCondition, Some(4)),
     Scope(EmbeddedBody, Some(17)),
     Scope(LoopCondition, Some(4)),
     Scope(BlockBody, Some(19)),
     Scope(LoopCondition, Some(4)),
     Scope(EmbeddedBody, Some(21)),
     Scope(LoopCondition, Some(4))]
  }

  /** Scopes 24 to 30, in the order the walk opens them. */
  function Layout3(): seq<Scope> {
    [Scope(EmbeddedBody, Some(23)),
     Scope(LoopCondition, Some(4)),
     Scope(BlockBody, Some(25)),
     Scope(LoopCondition, Some(4)),
     Scope(BlockBody, Some(27)),
     Scope(LoopCondition, Some(4)),
     Scope(EmbeddedBody, Some(29))]
  }

  /** Its scopes, in the order the walk opens them. */
  function Layout(): seq<Scope> {
    Layout0() + Layout1() + Layout2() + Layout3()
  }

  lemma {:induction false} LayoutJoin0()
    ensures [Scope(Unit, None), Scope(InstanceInitializers, Some(0)), Scope(StaticInitializers, Some(0)), Scope(MethodBody, Some(0)), Scope(BlockBody, Some(3))] + [Scope(LoopCondition, Some(4))] + [Scope(EmbeddedBody, Some(5))] + [Scope(LoopCondition, Some(4))] == Layout0()
  {
  }

  lemma {:induction false} LayoutJoin1(pre: seq<Scope>)
    ensures pre + Layout1() == pre + [Scope(EmbeddedBody, Some(7))] + [Scope(LoopCondition, Some(4))] + [Scope(BlockBody, Some(9))] + [Scope(LoopCondition, Some(4))] + [Scope(BlockBody, Some(11))] + [Scope(LoopCondition, Some(4))] + [Scope(EmbeddedBody, Some(13))] + [Scope(LoopCondition, Some(4))]
  {
  }

  lemma {:induction false} LayoutJoin2(pre: seq<Scope>)
    ensures pre + Layout2() == pre + [Scope(EmbeddedBody, Some(15))] + [Scope(LoopCondition, Some(4))] + [Scope(EmbeddedBody, Some(17))] + [Scope(LoopCondition, Some(4))] + [Scope(BlockBody, Some(19))] + [Scope(LoopCondition, Some(4))] + [Scope(EmbeddedBody, Some(21))] + [Scope(LoopCondition, Some(4))]
  {
  }

  lemma {:induction false} LayoutJoin3(pre: seq<Scope>)
    ensures pre + Layout3() == pre + [Scope(EmbeddedBody, Some(23))] + [Scope(LoopCondition, Some(4))] + [Scope(BlockBody, Some(25))] + [Scope(LoopCondition, Some(4))] + [Scope(BlockBody, Some(27))] + [Scope(LoopCondition, Some(4))] + [Scope(EmbeddedBody, Some(29))]
  {
  }

  /** The layout, scope by scope. */
  lemma {:induction false} LayoutFlat()
    ensures [Scope(Unit, None), Scope(InstanceInitializers, Some(0)), Scope(StaticInitializers, Some(0)), Scope(MethodBody, Some(0)), Scope(BlockBody, Some(3))] + [Scope(LoopCondition, Some(4))] + [Scope(EmbeddedBody, Some(5))] + [Scope(LoopCondition, Some(4))] + [Scope(EmbeddedBody, Some(7))] + [Scope(LoopCondition, Some(4))] + [Scope(BlockBody, Some(9))] + [Scope(LoopCondition, Some(4))] + [Scope(BlockBody, Some(11))] + [Scope(LoopCondition, Some(4))] + [Scope(EmbeddedBody, Some(13))] + [Scope(LoopCondition, Some(4))] + [Scope(EmbeddedBody, Some(15))] + [Scope(LoopCondition, Some(4))] + [Scope(EmbeddedBody, Some(17))] + [Scope(LoopCondition, Some(4))] + [Scope(BlockBody, Some(19))] + [Scope(LoopCondition, Some(4))] + [Scope(EmbeddedBody, Some(21))] + [Scope(LoopCondition, Some(4))] + [Scope(EmbeddedBody, Some(23))] + [Scope(LoopCondition, Some(4))] + [Scope(BlockBody, Some(25))] + [Scope(LoopCondition, Some(4))] + [Scope(BlockBody, Some(27))] + [Scope(LoopCondition, Some(4))] + [Scope(EmbeddedBody, Some(29))] == Layout()
  {
    LayoutJoin0();
    LayoutJoin1(Layout0());
    LayoutJoin2(Layout0() + Layout1());
    LayoutJoin3(Layout0() + Layout1() + Layout2());
  }

  /** Events 0 to 7 of the test, in evaluation order. */
  function Chunk0(k: string, j: string, n: string, q: string, r: string, s: string, a1: string, a2: string, a3: string, c1: string, c2: string, c3: string, c4: string, d1: string): seq<Event> {
    []
      + [Declared(6, k, Pos(7, 43), Initialized, [])]
      + [Referenced(6, k, Pos(7, 52), false, false, [])]
      + [OutAssigned(6, [], [])]
      + [Declared(5, j, Pos(8, 21), Initialized, [])]
      + [Referenced(5, j, Pos(8, 31), false, false, [])]
      + [Referenced(4, j, Pos(10, 9), true, false, [])]
      + [Referenced(4, k, Pos(11, 9), true, false, [])]
      + [Referenced(8, n, Pos(14, 38), false, false, [])]
  }

  /** Events 8 to 15 of the test, in evaluation order. */
  function Chunk1(k: string, j: string, n: string, q: string, r: string, s: string, a1: string, a2: string, a3: string, c1: string, c2: string, c3: string, c4: string, d1: string): seq<Event> {
    []
      + [OutAssigned(8, [], [])]
      + [Declared(7, n, Pos(15, 21), Initialized, [])]
      + [Referenced(10, q, Pos(19, 38), false, false, [])]
      + [OutAssigned(10, [], [])]
      + [Declared(9, q, Pos(21, 21), Initialized, [])]
      + [Declared(12, r, Pos(25, 42), Initialized, [])]
      + [OutAssigned(12, [], [])]
      + [Referenced(11, r, Pos(27, 16), false, false, [])]
  }

  /** Events 16 to 23 of the test, in evaluation order. */
  function Chunk2(k: string, j: string, n: string, q: string, r: string, s: string, a1: string, a2: string, a3: string, c1: string, c2: string, c3: string, c4: string, d1: string): seq<Event> {
    []
      + [Declared(14, s, Pos(30, 42), Initialized, [])]
      + [OutAssigned(14, [], [])]
      + [Referenced(13, s, Pos(31, 15), false, false, [])]
      + [Declared(4, a1, Pos(33, 13), Initialized, [])]
      + [Referenced(4, a1, Pos(34, 34), false, false, [])]
      + [OutAssigned(4, [], [])]
      + [OutAssigned(16, [], [])]
      + [Declared(15, a1, Pos(37, 21), Initialized, [])]
  }

  /** Events 24 to 31 of the test, in evaluation order. */
  function Chunk3(k: string, j: string, n: string, q: string, r: string, s: string, a1: string, a2: string, a3: string, c1: string, c2: string, c3: string, c4: string, d1: string): seq<Event> {
    []
      + [Declared(4, a2, Pos(39, 13), Initialized, [])]
      + [Referenced(4, a2, Pos(40, 34), false, false, [])]
      + [OutAssigned(4, [], [])]
      + [Declared(18, a2, Pos(42, 42), Initialized, [])]
      + [OutAssigned(18, [], [])]
      + [Referenced(17, a2, Pos(43, 16), false, false, [])]
      + [Declared(4, a3, Pos(45, 13), Initialized, [])]
      + [Referenced(4, a3, Pos(46, 34), false, false, [])]
  }

  /** Events 32 to 39 of the test, in evaluation order. */
  function Chunk4(k: string, j: string, n: string, q: string, r: string, s: string, a1: string, a2: string, a3: string, c1: string, c2: string, c3: string, c4: string, d1: string): seq<Event> {
    []
      + [OutAssigned(4, [], [])]
      + [Declared(20, a3, Pos(49, 42), Initialized, [])]
      + [OutAssigned(20, [], [])]
      + [Referenced(19, a2, Pos(51, 16), false, false, [])]
      + [OutAssigned(22, [], [])]
      + [Declared(21, c1, Pos(55, 22), Initialized, [])]
      + [Declared(21, c1, Pos(55, 42), Initialized, [])]
      + [Declared(24, c2, Pos(58, 42), Initialized, [])]
  }

  /** Events 40 to 47 of the test, in evaluation order. */
  function Chunk5(k: string, j: string, n: string, q: string, r: string, s: string, a1: string, a2: string, a3: string, c1: string, c2: string, c3: string, c4: string, d1: string): seq<Event> {
    []
      + [OutAssigned(24, [], [])]
      + [Declared(23, c2, Pos(59, 21), Initialized, [])]
      + [Declared(26, c3, Pos(63, 42), Initialized, [])]
      + [OutAssigned(26, [], [])]
      + [Declared(25, c3, Pos(65, 21), Initialized, [])]
      + [Declared(28, c4, Pos(69, 17), Initialized, [])]
      + [Referenced(28, c4, Pos(70, 38), false, false, [])]
      + [OutAssigned(28, [], [])]
  }

  /** Events 48 to 52 of the test, in evaluation order. */
  function Chunk6(k: string, j: string, n: string, q: string, r: string, s: string, a1: string, a2: string, a3: string, c1: string, c2: string, c3: string, c4: string, d1: string): seq<Event> {
    []
      + [Declared(27, c4, Pos(72, 21), Initialized, [])]
      + [Declared(30, d1, Pos(75, 43), Initialized, [])]
      + [Declared(30, d1, Pos(75, 58), Initialized, [])]
      + [OutAssigned(30, [], [])]
      + [Referenced(29, a2, Pos(76, 16), false, false, [])]
  }

  /** The events of the test, in evaluation order. */
  function Trace(k: string, j: string, n: string, q: string, r: string, s: string, a1: string, a2: string, a3: string, c1: string, c2: string, c3: string, c4: string, d1: string): seq<Event> {
    []
      + Chunk0(k, j, n, q, r, s, a1, a2, a3, c1, c2, c3, c4, d1)
      + Chunk1(k, j, n, q, r, s, a1, a2, a3, c1, c2, c3, c4, d1)
      + Chunk2(k, j, n, q, r, s, a1, a2, a3, c1, c2, c3, c4, d1)
      + Chunk3(k, j, n, q, r, s, a1, a2, a3, c1, c2, c3, c4, d1)
      + Chunk4(k, j, n, q, r, s, a1, a2, a3, c1, c2, c3, c4, d1)
      + Chunk5(k, j, n, q, r, s, a1, a2, a3, c1, c2, c3, c4, d1)
      + Chunk6(k, j, n, q, r, s, a1, a2, a3, c1, c2, c3, c4, d1)
  }

  lemma {:induction false} Walk2(k: string, j: string, n: string, q: string, r: string, s: string, a1: string, a2: string, a3: string, c1: string, c2: string, c3: string, c4: string, d1: string, tr: Tree)
    requires |tr.scopes| == 5 && tr.arms == 0
    ensures WalkStmt(Do(Exprs([Call([Argument([Declare(k, Pos(7, 43), Initialized)] + ([Use(k, Pos(7, 52), false)]))])]), [Declare(j, Pos(8, 21), Initialized)] + ([Use(j, Pos(8, 31), false)])), Ctx(4, [], []), tr) == Tree(tr.scopes + [Scope(LoopCondition, Some(4))] + [Scope(EmbeddedBody, Some(5))], tr.events + [Declared(6, k, Pos(7, 43), Initialized, [])] + [Referenced(6, k, Pos(7, 52), false, false, [])] + [OutAssigned(6, [], [])] + [Declared(5, j, Pos(8, 21), Initialized, [])] + [Referenced(5, j, Pos(8, 31), false, false, [])], 0)
  {
    WalkExprsOne(Call([Argument([Declare(k, Pos(7, 43), Initialized)] + ([Use(k, Pos(7, 52), false)]))]), Ctx(6, [], []), Tree(tr.scopes + [Scope(LoopCondition, Some(4))] + [Scope(EmbeddedBody, Some(5))], tr.events, 0));
    assert OutNames([]) == [];
    WalkArgsOne(Argument([Declare(k, Pos(7, 43), Initialized)] + ([Use(k, Pos(7, 52), false)])), [], Ctx(6, [], []), Tree(tr.scopes + [Scope(LoopCondition, Some(4))] + [Scope(EmbeddedBody, Some(5))], tr.events, 0));
    WalkExprsCons(Declare(k, Pos(7, 43), Initialized), [Use(k, Pos(7, 52), false)], Ctx(6, [], []), Tree(tr.scopes + [Scope(LoopCondition, Some(4))] + [Scope(EmbeddedBody, Some(5))], tr.events, 0));
    assert WalkExpr(Declare(k, Pos(7, 43), Initialized), Ctx(6, [], []), Tree(tr.scopes + [Scope(LoopCondition, Some(4))] + [Scope(EmbeddedBody, Some(5))], tr.events, 0)) == Tree(tr.scopes + [Scope(LoopCondition, Some(4))] + [Scope(EmbeddedBody, Some(5))], tr.events + [Declared(6, k, Pos(7, 43), Initialized, [])], 0);
    WalkExprsOne(Use(k, Pos(7, 52), false), Ctx(6, [], []), Tree(tr.scopes + [Scope(LoopCondition, Some(4))] + [Scope(EmbeddedBody, Some(5))], tr.events + [Declared(6, k, Pos(7, 43), Initialized, [])], 0));
    assert WalkExpr(Use(k, Pos(7, 52), false), Ctx(6, [], []), Tree(tr.scopes + [Scope(LoopCondition, Some(4))] + [Scope(EmbeddedBody, Some(5))], tr.events + [Declared(6, k, Pos(7, 43), Initialized, [])], 0)) == Tree(tr.scopes + [Scope(LoopCondition, Some(4))] + [Scope(EmbeddedBody, Some(5))], tr.events + [Declared(6, k, Pos(7, 43), Initialized, [])] + [Referenced(6, k, Pos(7, 52), false, false, [])], 0);
    assert WalkExprs([Declare(k, Pos(7, 43), Initialized)] + ([Use(k, Pos(7, 52), false)]), Ctx(6, [], []), Tree(tr.scopes + [Scope(LoopCondition, Some(4))] + [Scope(EmbeddedBody, Some(5))], tr.events, 0)) == Tree(tr.scopes + [Scope(LoopCondition, Some(4))] + [Scope(EmbeddedBody, Some(5))], tr.events + [Declared(6, k, Pos(7, 43), Initialized, [])] + [Referenced(6, k, Pos(7, 52), false, false, [])], 0);
    OutNamesOfCons(Declare(k, Pos(7, 43), Initialized), [Use(k, Pos(7, 52), false)]);
    OutNamesOfOne(Use(k, Pos(7, 52), false));
    OutNamesSnoc([], Argument([Declare(k, Pos(7, 43), Initialized)] + ([Use(k, Pos(7, 52), false)])));
    assert WalkArgs([Argument([Declare(k, Pos(7, 43), Initialized)] + ([Use(k, Pos(7, 52), false)]))], [], Ctx(6, [], []), Tree(tr.scopes + [Scope(LoopCondition, Some(4))] + [Scope(EmbeddedBody, Some(5))], tr.events, 0)) == Tree(tr.scopes + [Scope(LoopCondition, Some(4))] + [Scope(EmbeddedBody, Some(5))], tr.events + [Declared(6, k, Pos(7, 43), Initialized, [])] + [Referenced(6, k, Pos(7, 52), false, false, [])], 0);
    assert OutNames([Argument([Declare(k, Pos(7, 43), Initialized)] + ([Use(k, Pos(7, 52), false)]))]) == [];
    assert WalkExpr(Call([Argument([Declare(k, Pos(7, 43), Initialized)] + ([Use(k, Pos(7, 52), false)]))]), Ctx(6, [], []), Tree(tr.scopes + [Scope(LoopCondition, Some(4))] + [Scope(EmbeddedBody, Some(5))], tr.events, 0)) == Tree(tr.scopes + [Scope(LoopCondition, Some(4))] + [Scope(EmbeddedBody, Some(5))], tr.events + [Declared(6, k, Pos(7, 43), Initialized, [])] + [Referenced(6, k, Pos(7, 52), false, false, [])] + [OutAssigned(6, [], [])], 0);
    assert WalkExprs([Call([Argument([Declare(k, Pos(7, 43), Initialized)] + ([Use(k, Pos(7, 52), false)]))])], Ctx(6, [], []), Tree(tr.scopes + [Scope(LoopCondition, Some(4))] + [Scope(EmbeddedBody, Some(5))], tr.events, 0)) == Tree(tr.scopes + [Scope(LoopCondition, Some(4))] + [Scope(EmbeddedBody, Some(5))], tr.events + [Declared(6, k, Pos(7, 43), Initialized, [])] + [Referenced(6, k, Pos(7, 52), false, false, [])] + [OutAssigned(6, [], [])], 0);
    assert WalkStmt(Exprs([Call([Argument([Declare(k, Pos(7, 43), Initialized)] + ([Use(k, Pos(7, 52), false)]))])]), Ctx(6, [], []), Tree(tr.scopes + [Scope(LoopCondition, Some(4))] + [Scope(EmbeddedBody, Some(5))], tr.events, 0)) == Tree(tr.scopes + [Scope(LoopCondition, Some(4))] + [Scope(EmbeddedBody, Some(5))], tr.events + [Declared(6, k, Pos(7, 43), Initialized, [])] + [Referenced(6, k, Pos(7, 52), false, false, [])] + [OutAssigned(6, [], [])], 0);
    assert WalkEmbedded(Exprs([Call([Argument([Declare(k, Pos(7, 43), Initialized)] + ([Use(k, Pos(7, 52), false)]))])]), Ctx(5, [], []), Tree(tr.scopes + [Scope(LoopCondition, Some(4))], tr.events, 0)) == Tree(tr.scopes + [Scope(LoopCondition, Some(4))] + [Scope(EmbeddedBody, Some(5))], tr.events + [Declared(6, k, Pos(7, 43), Initialized, [])] + [Referenced(6, k, Pos(7, 52), false, false, [])] + [OutAssigned(6, [], [])], 0);
    WalkExprsCons(Declare(j, Pos(8, 21), Initialized), [Use(j, Pos(8, 31), false)], Ctx(5, [], []), Tree(tr.scopes + [Scope(LoopCondition, Some(4))] + [Scope(EmbeddedBody, Some(5))], tr.events + [Declared(6, k, Pos(7, 43), Initialized, [])] + [Referenced(6, k, Pos(7, 52), false, false, [])] + [OutAssigned(6, [], [])], 0));
    assert WalkExpr(Declare(j, Pos(8, 21), Initialized), Ctx(5, [], []), Tree(tr.scopes + [Scope(LoopCondition, Some(4))] + [Scope(EmbeddedBody, Some(5))], tr.events + [Declared(6, k, Pos(7, 43), Initialized, [])] + [Referenced(6, k, Pos(7, 52), false, false, [])] + [OutAssigned(6, [], [])], 0)) == Tree(tr.scopes + [Scope(LoopCondition, Some(4))] + [Scope(EmbeddedBody, Some(5))], tr.events + [Declared(6, k, Pos(7, 43), Initialized, [])] + [Referenced(6, k, Pos(7, 52), false, false, [])] + [OutAssigned(6, [], [])] + [Declared(5, j, Pos(8, 21), Initialized, [])], 0);
    WalkExprsOne(Use(j, Pos(8, 31), false), Ctx(5, [], []), Tree(tr.scopes + [Scope(LoopCondition, Some(4))] + [Scope(EmbeddedBody, Some(5))], tr.events + [Declared(6, k, Pos(7, 43), Initialized, [])] + [Referenced(6, k, Pos(7, 52), false, false, [])] + [OutAssigned(6, [], [])] + [Declared(5, j, Pos(8, 21), Initialized, [])], 0));
    assert WalkExpr(Use(j, Pos(8, 31), false), Ctx(5, [], []), Tree(tr.scopes + [Scope(LoopCondition, Some(4))] + [Scope(EmbeddedBody, Some(5))], tr.events + [Declared(6, k, Pos(7, 43), Initialized, [])] + [Referenced(6, k, Pos(7, 52), false, false, [])] + [OutAssigned(6, [], [])] + [Declared(5, j, Pos(8, 21), Initialized, [])], 0)) == Tree(tr.scopes + [Scope(LoopCondition, Some(4))] + [Scope(EmbeddedBody, Some(5))], tr.events + [Declared(6, k, Pos(7, 43), Initialized, [])] + [Referenced(6, k, Pos(7, 52), false, false, [])] + [OutAssigned(6, [], [])] + [Declared(5, j, Pos(8, 21), Initialized, [])] + [Referenced(5, j, Pos(8, 31), false, false, [])], 0);
    assert WalkExprs([Declare(j, Pos(8, 21), Initialized)] + ([Use(j, Pos(8, 31), false)]), Ctx(5, [], []), Tree(tr.scopes + [Scope(LoopCondition, Some(4))] + [Scope(EmbeddedBody, Some(5))], tr.events + [Declared(6, k, Pos(7, 43), Initialized, [])] + [Referenced(6, k, Pos(7, 52), false, false, [])] + [OutAssigned(6, [], [])], 0)) == Tree(tr.scopes + [Scope(LoopCondition, Some(4))] + [Scope(EmbeddedBody, Some(5))], tr.events + [Declared(6, k, Pos(7, 43), Initialized, [])] + [Referenced(6, k, Pos(7, 52), false, false, [])] + [OutAssigned(6, [], [])] + [Declared(5, j, Pos(8, 21), Initialized, [])] + [Referenced(5, j, Pos(8, 31), false, false, [])], 0);
    assert WalkStmt(Do(Exprs([Call([Argument([Declare(k, Pos(7, 43), Initialized)] + ([Use(k, Pos(7, 52), false)]))])]), [Declare(j, Pos(8, 21), Initialized)] + ([Use(j, Pos(8, 31), false)])), Ctx(4, [], []), tr) == Tree(tr.scopes + [Scope(LoopCondition, Some(4))] + [Scope(EmbeddedBody, Some(5))], tr.events + [Declared(6, k, Pos(7, 43), Initialized, [])] + [Referenced(6, k, Pos(7, 52), false, false, [])] + [OutAssigned(6, [], [])] + [Declared(5, j, Pos(8, 21), Initialized, [])] + [Referenced(5, j, Pos(8, 31), false, false, [])], 0);
  }

  lemma {:induction false} Walk3(k: string, j: string, n: string, q: string, r: string, s: string, a1: string, a2: string, a3: string, c1: string, c2: string, c3: string, c4: string, d1: string, tr: Tree)
    requires |tr.scopes| == 7 && tr.arms == 0
    ensures WalkStmt(Exprs([Use(j, Pos(10, 9), true)]), Ctx(4, [], []), tr) == Tree(tr.scopes, tr.events + [Referenced(4, j, Pos(10, 9), true, false, [])], 0)
  {
    WalkExprsOne(Use(j, Pos(10, 9), true), Ctx(4, [], []), tr);
    assert WalkExpr(Use(j, Pos(10, 9), true), Ctx(4, [], []), tr) == Tree(tr.scopes, tr.events + [Referenced(4, j, Pos(10, 9), true, false, [])], 0);
    assert WalkExprs([Use(j, Pos(10, 9), true)], Ctx(4, [], []), tr) == Tree(tr.scopes, tr.events + [Referenced(4, j, Pos(10, 9), true, false, [])], 0);
    assert WalkStmt(Exprs([Use(j, Pos(10, 9), true)]), Ctx(4, [], []), tr) == Tree(tr.scopes, tr.events + [Referenced(4, j, Pos(10, 9), true, false, [])], 0);
  }

  lemma {:induction false} Walk4(k: string, j: string, n: string, q: string, r: string, s: string, a1: string, a2: string, a3: string, c1: string, c2: string, c3: string, c4: string, d1: string, tr: Tree)
    requires |tr.scopes| == 7 && tr.arms == 0
    ensures WalkStmt(Exprs([Use(k, Pos(11, 9), true)]), Ctx(4, [], []), tr) == Tree(tr.scopes, tr.events + [Referenced(4, k, Pos(11, 9), true, false, [])], 0)
  {
    WalkExprsOne(Use(k, Pos(11, 9), true), Ctx(4, [], []), tr);
    assert WalkExpr(Use(k, Pos(11, 9), true), Ctx(4, [], []), tr) == Tree(tr.scopes, tr.events + [Referenced(4, k, Pos(11, 9), true, false, [])], 0);
    assert WalkExprs([Use(k, Pos(11, 9), true)], Ctx(4, [], []), tr) == Tree(tr.scopes, tr.events + [Referenced(4, k, Pos(11, 9), true, false, [])], 0);
    assert WalkStmt(Exprs([Use(k, Pos(11, 9), true)]), Ctx(4, [], []), tr) == Tree(tr.scopes, tr.events + [Referenced(4, k, Pos(11, 9), true, false, [])], 0);
  }

  lemma {:induction false} Walk5(k: string, j: string, n: string, q: string, r: string, s: string, a1: string, a2: string, a3: string, c1: string, c2: string, c3: string, c4: string, d1: string, tr: Tree)
    requires |tr.scopes| == 7 && tr.arms == 0
    ensures WalkStmt(Do(Exprs([Call([Argument([Use(n, Pos(14, 38), false)])])]), [Declare(n, Pos(15, 21), Initialized)]), Ctx(4, [], []), tr) == Tree(tr.scopes + [Scope(LoopCondition, Some(4))] + [Scope(EmbeddedBody, Some(7))], tr.events + [Referenced(8, n, Pos(14, 38), false, false, [])] + [OutAssigned(8, [], [])] + [Declared(7, n, Pos(15, 21), Initialized, [])], 0)
  {
    WalkExprsOne(Call([Argument([Use(n, Pos(14, 38), false)])]), Ctx(8, [], []), Tree(tr.scopes + [Scope(LoopCondition, Some(4))] + [Scope(EmbeddedBody, Some(7))], tr.events, 0));
    assert OutNames([]) == [];
    WalkArgsOne(Argument([Use(n, Pos(14, 38), false)]), [], Ctx(8, [], []), Tree(tr.scopes + [Scope(LoopCondition, Some(4))] + [Scope(EmbeddedBody, Some(7))], tr.events, 0));
    WalkExprsOne(Use(n, Pos(14, 38), false), Ctx(8, [], []), Tree(tr.scopes + [Scope(LoopCondition, Some(4))] + [Scope(EmbeddedBody, Some(7))], tr.events, 0));
    assert WalkExpr(Use(n, Pos(14, 38), false), Ctx(8, [], []), Tree(tr.scopes + [Scope(LoopCondition, Some(4))] + [Scope(EmbeddedBody, Some(7))], tr.events, 0)) == Tree(tr.scopes + [Scope(LoopCondition, Some(4))] + [Scope(EmbeddedBody, Some(7))], tr.events + [Referenced(8, n, Pos(14, 38), false, false, [])], 0);
    assert WalkExprs([Use(n, Pos(14, 38), false)], Ctx(8, [], []), Tree(tr.scopes + [Scope(LoopCondition, Some(4))] + [Scope(EmbeddedBody, Some(7))], tr.events, 0)) == Tree(tr.scopes + [Scope(LoopCondition, Some(4))] + [Scope(EmbeddedBody, Some(7))], tr.events + [Referenced(8, n, Pos(14, 38), false, false, [])], 0);
    OutNamesOfOne(Use(n, Pos(14, 38), false));
    OutNamesSnoc([], Argument([Use(n, Pos(14, 38), false)]));
    assert WalkArgs([Argument([Use(n, Pos(14, 38), false)])], [], Ctx(8, [], []), Tree(tr.scopes + [Scope(LoopCondition, Some(4))] + [Scope(EmbeddedBody, Some(7))], tr.events, 0)) == Tree(tr.scopes + [Scope(LoopCondition, Some(4))] + [Scope(EmbeddedBody, Some(7))], tr.events + [Referenced(8, n, Pos(14, 38), false, false, [])], 0);
    assert OutNames([Argument([Use(n, Pos(14, 38), false)])]) == [];
    assert WalkExpr(Call([Argument([Use(n, Pos(14, 38), false)])]), Ctx(8, [], []), Tree(tr.scopes + [Scope(LoopCondition, Some(4))] + [Scope(EmbeddedBody, Some(7))], tr.events, 0)) == Tree(tr.scopes + [Scope(LoopCondition, Some(4))] + [Scope(EmbeddedBody, Some(7))], tr.events + [Referenced(8, n, Pos(14, 38), false, false, [])] + [OutAssigned(8, [], [])], 0);
    assert WalkExprs([Call([Argument([Use(n, Pos(14, 38), false)])])], Ctx(8, [], []), Tree(tr.scopes + [Scope(LoopCondition, Some(4))] + [Scope(EmbeddedBody, Some(7))], tr.events, 0)) == Tree(tr.scopes + [Scope(LoopCondition, Some(4))] + [Scope(EmbeddedBody, Some(7))], tr.events + [Referenced(8, n, Pos(14, 38), false, false, [])] + [OutAssigned(8, [], [])], 0);
    assert WalkStmt(Exprs([Call([Argument([Use(n, Pos(14, 38), false)])])]), Ctx(8, [], []), Tree(tr.scopes + [Scope(LoopCondition, Some(4))] + [Scope(EmbeddedBody, Some(7))], tr.events, 0)) == Tree(tr.scopes + [Scope(LoopCondition, Some(4))] + [Scope(EmbeddedBody, Some(7))], tr.events + [Referenced(8, n, Pos(14, 38), false, false, [])] + [OutAssigned(8, [], [])], 0);
    assert WalkEmbedded(Exprs([Call([Argument([Use(n, Pos(14, 38), false)])])]), Ctx(7, [], []), Tree(tr.scopes + [Scope(LoopCondition, Some(4))], tr.events, 0)) == Tree(tr.scopes + [Scope(LoopCondition, Some(4))] + [Scope(EmbeddedBody, Some(7))], tr.events + [Referenced(8, n, Pos(14, 38), false, false, [])] + [OutAssigned(8, [], [])], 0);
    WalkExprsOne(Declare(n, Pos(15, 21), Initialized), Ctx(7, [], []), Tree(tr.scopes + [Scope(LoopCondition, Some(4))] + [Scope(EmbeddedBody, Some(7))], tr.events + [Referenced(8, n, Pos(14, 38), false, false, [])] + [OutAssigned(8, [], [])], 0));
    assert WalkExpr(Declare(n, Pos(15, 21), Initialized), Ctx(7, [], []), Tree(tr.scopes + [Scope(LoopCondition, Some(4))] + [Scope(EmbeddedBody, Some(7))], tr.events + [Referenced(8, n, Pos(14, 38), false, false, [])] + [OutAssigned(8, [], [])], 0)) == Tree(tr.scopes + [Scope(LoopCondition, Some(4))] + [Scope(EmbeddedBody, Some(7))], tr.events + [Referenced(8, n, Pos(14, 38), false, false, [])] + [OutAssigned(8, [], [])] + [Declared(7, n, Pos(15, 21), Initialized, [])], 0);
    assert WalkExprs([Declare(n, Pos(15, 21), Initialized)], Ctx(7, [], []), Tree(tr.scopes + [Scope(LoopCondition, Some(4))] + [Scope(EmbeddedBody, Some(7))], tr.events + [Referenced(8, n, Pos(14, 38), false, false, [])] + [OutAssigned(8, [], [])], 0)) == Tree(tr.scopes + [Scope(LoopCondition, Some(4))] + [Scope(EmbeddedBody, Some(7))], tr.events + [Referenced(8, n, Pos(14, 38), false, false, [])] + [OutAssigned(8, [], [])] + [Declared(7, n, Pos(15, 21), Initialized, [])], 0);
    assert WalkStmt(Do(Exprs([Call([Argument([Use(n, Pos(14, 38), false)])])]), [Declare(n, Pos(15, 21), Initialized)]), Ctx(4, [], []), tr) == Tree(tr.scopes + [Scope(LoopCondition, Some(4))] + [Scope(EmbeddedBody, Some(7))], tr.events + [Referenced(8, n, Pos(14, 38), false, false, [])] + [OutAssigned(8, [], [])] + [Declared(7, n, Pos(15, 21), Initialized, [])], 0);
  }

  lemma {:induction false} Stmts1(k: string, j: string, n: string, q: string, r: string, s: string, a1: string, a2: string, a3: string, c1: string, c2: string, c3: string, c4: string, d1: string, tr: Tree, rest: seq<Stmt>)
    requires |tr.scopes| == 5 && tr.arms == 0
    ensures WalkStmts([Do(Exprs([Call([Argument([Declare(k, Pos(7, 43), Initialized)] + ([Use(k, Pos(7, 52), false)]))])]), [Declare(j, Pos(8, 21), Initialized)] + ([Use(j, Pos(8, 31), false)]))] + ([Exprs([Use(j, Pos(10, 9), true)])] + ([Exprs([Use(k, Pos(11, 9), true)])] + ([Do(Exprs([Call([Argument([Use(n, Pos(14, 38), false)])])]), [Declare(n, Pos(15, 21), Initialized)])] + (rest)))), Ctx(4, [], []), tr) == WalkStmts(rest, Ctx(4, [], []), Tree(tr.scopes + [Scope(LoopCondition, Some(4))] + [Scope(EmbeddedBody, Some(5))] + [Scope(LoopCondition, Some(4))] + [Scope(EmbeddedBody, Some(7))], tr.events + [Declared(6, k, Pos(7, 43), Initialized, [])] + [Referenced(6, k, Pos(7, 52), false, false, [])] + [OutAssigned(6, [], [])] + [Declared(5, j, Pos(8, 21), Initialized, [])] + [Referenced(5, j, Pos(8, 31), false, false, [])] + [Referenced(4, j, Pos(10, 9), true, false, [])] + [Referenced(4, k, Pos(11, 9), true, false, [])] + [Referenced(8, n, Pos(14, 38), false, false, [])] + [OutAssigned(8, [], [])] + [Declared(7, n, Pos(15, 21), Initialized, [])], 0))
  {
    WalkStmtsCons(Do(Exprs([Call([Argument([Declare(k, Pos(7, 43), Initialized)] + ([Use(k, Pos(7, 52), false)]))])]), [Declare(j, Pos(8, 21), Initialized)] + ([Use(j, Pos(8, 31), false)])), [Exprs([Use(j, Pos(10, 9), true)])] + ([Exprs([Use(k, Pos(11, 9), true)])] + ([Do(Exprs([Call([Argument([Use(n, Pos(14, 38), false)])])]), [Declare(n, Pos(15, 21), Initialized)])] + (rest))), Ctx(4, [], []), tr);
    Walk2(k, j, n, q, r, s, a1, a2, a3, c1, c2, c3, c4, d1, tr);
    assert WalkStmt(Do(Exprs([Call([Argument([Declare(k, Pos(7, 43), Initialized)] + ([Use(k, Pos(7, 52), false)]))])]), [Declare(j, Pos(8, 21), Initialized)] + ([Use(j, Pos(8, 31), false)])), Ctx(4, [], []), tr) == Tree(tr.scopes + [Scope(LoopCondition, Some(4))] + [Scope(EmbeddedBody, Some(5))], tr.events + [Declared(6, k, Pos(7, 43), Initialized, [])] + [Referenced(6, k, Pos(7, 52), false, false, [])] + [OutAssigned(6, [], [])] + [Declared(5, j, Pos(8, 21), Initialized, [])] + [Referenced(5, j, Pos(8, 31), false, false, [])], 0);
    WalkStmtsCons(Exprs([Use(j, Pos(10, 9), true)]), [Exprs([Use(k, Pos(11, 9), true)])] + ([Do(Exprs([Call([Argument([Use(n, Pos(14, 38), false)])])]), [Declare(n, Pos(15, 21), Initialized)])] + (rest)), Ctx(4, [], []), Tree(tr.scopes + [Scope(LoopCondition, Some(4))] + [Scope(EmbeddedBody, Some(5))], tr.events + [Declared(6, k, Pos(7, 43), Initialized, [])] + [Referenced(6, k, Pos(7, 52), false, false, [])] + [OutAssigned(6, [], [])] + [Declared(5, j, Pos(8, 21), Initialized, [])] + [Referenced(5, j, Pos(8, 31), false, false, [])], 0));
    Walk3(k, j, n, q, r, s, a1, a2, a3, c1, c2, c3, c4, d1, Tree(tr.scopes + [Scope(LoopCondition, Some(4))] + [Scope(EmbeddedBody, Some(5))], tr.events + [Declared(6, k, Pos(7, 43), Initialized, [])] + [Referenced(6, k, Pos(7, 52), false, false, [])] + [OutAssigned(6, [], [])] + [Declared(5, j, Pos(8, 21), Initialized, [])] + [Referenced(5, j, Pos(8, 31), false, false, [])], 0));
    assert WalkStmt(Exprs([Use(j, Pos(10, 9), true)]), Ctx(4, [], []), Tree(tr.scopes + [Scope(LoopCondition, Some(4))] + [Scope(EmbeddedBody, Some(5))], tr.events + [Declared(6, k, Pos(7, 43), Initialized, [])] + [Referenced(6, k, Pos(7, 52), false, false, [])] + [OutAssigned(6, [], [])] + [Declared(5, j, Pos(8, 21), Initialized, [])] + [Referenced(5, j, Pos(8, 31), false, false, [])], 0)) == Tree(tr.scopes + [Scope(LoopCondition, Some(4))] + [Scope(EmbeddedBody, Some(5))], tr.events + [Declared(6, k, Pos(7, 43), Initialized, [])] + [Referenced(6, k, Pos(7, 52), false, false, [])] + [OutAssigned(6, [], [])] + [Declared(5, j, Pos(8, 21), Initialized, [])] + [Referenced(5, j, Pos(8, 31), false, false, [])] + [Referenced(4, j, Pos(10, 9), true, false, [])], 0);
    WalkStmtsCons(Exprs([Use(k, Pos(11, 9), true)]), [Do(Exprs([Call([Argument([Use(n, Pos(14, 38), false)])])]), [Declare(n, Pos(15, 21), Initialized)])] + (rest), Ctx(4, [], []), Tree(tr.scopes + [Scope(LoopCondition, Some(4))] + [Scope(EmbeddedBody, Some(5))], tr.events + [Declared(6, k, Pos(7, 43), Initialized, [])] + [Referenced(6, k, Pos(7, 52), false, false, [])] + [OutAssigned(6, [], [])] + [Declared(5, j, Pos(8, 21), Initialized, [])] + [Referenced(5, j, Pos(8, 31), false, false, [])] + [Referenced(4, j, Pos(10, 9), true, false, [])], 0));
    Walk4(k, j, n, q, r, s, a1, a2, a3, c1, c2, c3, c4, d1, Tree(tr.scopes + [Scope(LoopCondition, Some(4))] + [Scope(EmbeddedBody, Some(5))], tr.events + [Declared(6, k, Pos(7, 43), Initialized, [])] + [Referenced(6, k, Pos(7, 52), false, false, [])] + [OutAssigned(6, [], [])] + [Declared(5, j, Pos(8, 21), Initialized, [])] + [Referenced(5, j, Pos(8, 31), false, false, [])] + [Referenced(4, j, Pos(10, 9), true, false, [])], 0));
    assert WalkStmt(Exprs([Use(k, Pos(11, 9), true)]), Ctx(4, [], []), Tree(tr.scopes + [Scope(LoopCondition, Some(4))] + [Scope(EmbeddedBody, Some(5))], tr.events + [Declared(6, k, Pos(7, 43), Initialized, [])] + [Referenced(6, k, Pos(7, 52), false, false, [])] + [OutAssigned(6, [], [])] + [Declared(5, j, Pos(8, 21), Initialized, [])] + [Referenced(5, j, Pos(8, 31), false, false, [])] + [Referenced(4, j, Pos(10, 9), true, false, [])], 0)) == Tree(tr.scopes + [Scope(LoopCondition, Some(4))] + [Scope(EmbeddedBody, Some(5))], tr.events + [Declared(6, k, Pos(7, 43), Initialized, [])] + [Referenced(6, k, Pos(7, 52), false, false, [])] + [OutAssigned(6, [], [])] + [Declared(5, j, Pos(8, 21), Initialized, [])] + [Referenced(5, j, Pos(8, 31), false, false, [])] + [Referenced(4, j, Pos(10, 9), true, false, [])] + [Referenced(4, k, Pos(11, 9), true, false, [])], 0);
    WalkStmtsCons(Do(Exprs([Call([Argument([Use(n, Pos(14, 38), false)])])]), [Declare(n, Pos(15, 21), Initialized)]), rest, Ctx(4, [], []), Tree(tr.scopes + [Scope(LoopCondition, Some(4))] + [Scope(EmbeddedBody, Some(5))], tr.events + [Declared(6, k, Pos(7, 43), Initialized, [])] + [Referenced(6, k, Pos(7, 52), false, false, [])] + [OutAssigned(6, [], [])] + [Declared(5, j, Pos(8, 21), Initialized, [])] + [Referenced(5, j, Pos(8, 31), false, false, [])] + [Referenced(4, j, Pos(10, 9), true, false, [])] + [Referenced(4, k, Pos(11, 9), true, false, [])], 0));
    Walk5(k, j, n, q, r, s, a1, a2, a3, c1, c2, c3, c4, d1, Tree(tr.scopes + [Scope(LoopCondition, Some(4))] + [Scope(EmbeddedBody, Some(5))], tr.events + [Declared(6, k, Pos(7, 43), Initialized, [])] + [Referenced(6, k, Pos(7, 52), false, false, [])] + [OutAssigned(6, [], [])] + [Declared(5, j, Pos(8, 21), Initialized, [])] + [Referenced(5, j, Pos(8, 31), false, false, [])] + [Referenced(4, j, Pos(10, 9), true, false, [])] + [Referenced(4, k, Pos(11, 9), true, false, [])], 0));
    assert WalkStmt(Do(Exprs([Call([Argument([Use(n, Pos(14, 38), false)])])]), [Declare(n, Pos(15, 21), Initialized)]), Ctx(4, [], []), Tree(tr.scopes + [Scope(LoopCondition, Some(4))] + [Scope(EmbeddedBody, Some(5))], tr.events + [Declared(6, k, Pos(7, 43), Initialized, [])] + [Referenced(6, k, Pos(7, 52), false, false, [])] + [OutAssigned(6, [], [])] + [Declared(5, j, Pos(8, 21), Initialized, [])] + [Referenced(5, j, Pos(8, 31), false, false, [])] + [Referenced(4, j, Pos(10, 9), true, false, [])] + [Referenced(4, k, Pos(11, 9), true, false, [])], 0)) == Tree(tr.scopes + [Scope(LoopCondition, Some(4))] + [Scope(EmbeddedBody, Some(5))] + [Scope(LoopCondition, Some(4))] + [Scope(EmbeddedBody, Some(7))], tr.events + [Declared(6, k, Pos(7, 43), Initialized, [])] + [Referenced(6, k, Pos(7, 52), false, false, [])] + [OutAssigned(6, [], [])] + [Declared(5, j, Pos(8, 21), Initialized, [])] + [Referenced(5, j, Pos(8, 31), false, false, [])] + [Referenced(4, j, Pos(10, 9), true, false, [])] + [Referenced(4, k, Pos(11, 9), true, false, [])] + [Referenced(8, n, Pos(14, 38), false, false, [])] + [OutAssigned(8, [], [])] + [Declared(7, n, Pos(15, 21), Initialized, [])], 0);
  }

  lemma {:induction false} Walk8(k: string, j: string, n: string, q: string, r: string, s: string, a1: string, a2: string, a3: string, c1: string, c2: string, c3: string, c4: string, d1: string, tr: Tree)
    requires |tr.scopes| == 11 && tr.arms == 0
    ensures WalkStmt(Exprs([Call([Argument([Use(q, Pos(19, 38), false)])])]), Ctx(10, [], []), tr) == Tree(tr.scopes, tr.events + [Referenced(10, q, Pos(19, 38), false, false, [])] + [OutAssigned(10, [], [])], 0)
  {
    WalkExprsOne(Call([Argument([Use(q, Pos(19, 38), false)])]), Ctx(10, [], []), tr);
    assert OutNames([]) == [];
    WalkArgsOne(Argument([Use(q, Pos(19, 38), false)]), [], Ctx(10, [], []), tr);
    WalkExprsOne(Use(q, Pos(19, 38), false), Ctx(10, [], []), tr);
    assert WalkExpr(Use(q, Pos(19, 38), false), Ctx(10, [], []), tr) == Tree(tr.scopes, tr.events + [Referenced(10, q, Pos(19, 38), false, false, [])], 0);
    assert WalkExprs([Use(q, Pos(19, 38), false)], Ctx(10, [], []), tr) == Tree(tr.scopes, tr.events + [Referenced(10, q, Pos(19, 38), false, false, [])], 0);
    OutNamesOfOne(Use(q, Pos(19, 38), false));
    OutNamesSnoc([], Argument([Use(q, Pos(19, 38), false)]));
    assert WalkArgs([Argument([Use(q, Pos(19, 38), false)])], [], Ctx(10, [], []), tr) == Tree(tr.scopes, tr.events + [Referenced(10, q, Pos(19, 38), false, false, [])], 0);
    assert OutNames([Argument([Use(q, Pos(19, 38), false)])]) == [];
    assert WalkExpr(Call([Argument([Use(q, Pos(19, 38), false)])]), Ctx(10, [], []), tr) == Tree(tr.scopes, tr.events + [Referenced(10, q, Pos(19, 38), false, false, [])] + [OutAssigned(10, [], [])], 0);
    assert WalkExprs([Call([Argument([Use(q, Pos(19, 38), false)])])], Ctx(10, [], []), tr) == Tree(tr.scopes, tr.events + [Referenced(10, q, Pos(19, 38), false, false, [])] + [OutAssigned(10, [], [])], 0);
    assert WalkStmt(Exprs([Call([Argument([Use(q, Pos(19, 38), false)])])]), Ctx(10, [], []), tr) == Tree(tr.scopes, tr.events + [Referenced(10, q, Pos(19, 38), false, false, [])] + [OutAssigned(10, [], [])], 0);
  }

  lemma {:induction false} Walk7(k: string, j: string, n: string, q: string, r: string, s: string, a1: string, a2: string, a3: string, c1: string, c2: string, c3: string, c4: string, d1: string, tr: Tree)
    requires |tr.scopes| == 9 && tr.arms == 0
    ensures WalkStmt(Do(Block([Exprs([Call([Argument([Use(q, Pos(19, 38), false)])])])]), [Declare(q, Pos(21, 21), Initialized)]), Ctx(4, [], []), tr) == Tree(tr.scopes + [Scope(LoopCondition, Some(4))] + [Scope(BlockBody, Some(9))], tr.events + [Referenced(10, q, Pos(19, 38), false, false, [])] + [OutAssigned(10, [], [])] + [Declared(9, q, Pos(21, 21), Initialized, [])], 0)
  {
    WalkStmtsOne(Exprs([Call([Argument([Use(q, Pos(19, 38), false)])])]), Ctx(10, [], []), Tree(tr.scopes + [Scope(LoopCondition, Some(4))] + [Scope(BlockBody, Some(9))], tr.events, 0));
    Walk8(k, j, n, q, r, s, a1, a2, a3, c1, c2, c3, c4, d1, Tree(tr.scopes + [Scope(LoopCondition, Some(4))] + [Scope(BlockBody, Some(9))], tr.events, 0));
    assert WalkStmt(Exprs([Call([Argument([Use(q, Pos(19, 38), false)])])]), Ctx(10, [], []), Tree(tr.scopes + [Scope(LoopCondition, Some(4))] + [Scope(BlockBody, Some(9))], tr.events, 0)) == Tree(tr.scopes + [Scope(LoopCondition, Some(4))] + [Scope(BlockBody, Some(9))], tr.events + [Referenced(10, q, Pos(19, 38), false, false, [])] + [OutAssigned(10, [], [])], 0);
    assert WalkEmbedded(Block([Exprs([Call([Argument([Use(q, Pos(19, 38), false)])])])]), Ctx(9, [], []), Tree(tr.scopes + [Scope(LoopCondition, Some(4))], tr.events, 0)) == Tree(tr.scopes + [Scope(LoopCondition, Some(4))] + [Scope(BlockBody, Some(9))], tr.events + [Referenced(10, q, Pos(19, 38), false, false, [])] + [OutAssigned(10, [], [])], 0);
    WalkExprsOne(Declare(q, Pos(21, 21), Initialized), Ctx(9, [], []), Tree(tr.scopes + [Scope(LoopCondition, Some(4))] + [Scope(BlockBody, Some(9))], tr.events + [Referenced(10, q, Pos(19, 38), false, false, [])] + [OutAssigned(10, [], [])], 0));
    assert WalkExpr(Declare(q, Pos(21, 21), Initialized), Ctx(9, [], []), Tree(tr.scopes + [Scope(LoopCondition, Some(4))] + [Scope(BlockBody, Some(9))], tr.events + [Referenced(10, q, Pos(19, 38), false, false, [])] + [OutAssigned(10, [], [])], 0)) == Tree(tr.scopes + [Scope(LoopCondition, Some(4))] + [Scope(BlockBody, Some(9))], tr.events + [Referenced(10, q, Pos(19, 38), false, false, [])] + [OutAssigned(10, [], [])] + [Declared(9, q, Pos(21, 21), Initialized, [])], 0);
    assert WalkExprs([Declare(q, Pos(21, 21), Initialized)], Ctx(9, [], []), Tree(tr.scopes + [Scope(LoopCondition, Some(4))] + [Scope(BlockBody, Some(9))], tr.events + [Referenced(10, q, Pos(19, 38), false, false, [])] + [OutAssigned(10, [], [])], 0)) == Tree(tr.scopes + [Scope(LoopCondition, Some(4))] + [Scope(BlockBody, Some(9))], tr.events + [Referenced(10, q, Pos(19, 38), false, false, [])] + [OutAssigned(10, [], [])] + [Declared(9, q, Pos(21, 21), Initialized, [])], 0);
    assert WalkStmt(Do(Block([Exprs([Call([Argument([Use(q, Pos(19, 38), false)])])])]), [Declare(q, Pos(21, 21), Initialized)]), Ctx(4, [], []), tr) == Tree(tr.scopes + [Scope(LoopCondition, Some(4))] + [Scope(BlockBody, Some(9))], tr.events + [Referenced(10, q, Pos(19, 38), false, false, [])] + [OutAssigned(10, [], [])] + [Declared(9, q, Pos(21, 21), Initialized, [])], 0);
  }

  lemma {:induction false} Walk10(k: string, j: string, n: string, q: string, r: string, s: string, a1: string, a2: string, a3: string, c1: string, c2: string, c3: string, c4: string, d1: string, tr: Tree)
    requires |tr.scopes| == 13 && tr.arms == 0
    ensures WalkStmt(Exprs([Call([Argument([Declare(r, Pos(25, 42), Initialized)])])]), Ctx(12, [], []), tr) == Tree(tr.scopes, tr.events + [Declared(12, r, Pos(25, 42), Initialized, [])] + [OutAssigned(12, [], [])], 0)
  {
    WalkExprsOne(Call([Argument([Declare(r, Pos(25, 42), Initialized)])]), Ctx(12, [], []), tr);
    assert OutNames([]) == [];
    WalkArgsOne(Argument([Declare(r, Pos(25, 42), Initialized)]), [], Ctx(12, [], []), tr);
    WalkExprsOne(Declare(r, Pos(25, 42), Initialized), Ctx(12, [], []), tr);
    assert WalkExpr(Declare(r, Pos(25, 42), Initialized), Ctx(12, [], []), tr) == Tree(tr.scopes, tr.events + [Declared(12, r, Pos(25, 42), Initialized, [])], 0);
    assert WalkExprs([Declare(r, Pos(25, 42), Initialized)], Ctx(12, [], []), tr) == Tree(tr.scopes, tr.events + [Declared(12, r, Pos(25, 42), Initialized, [])], 0);
    OutNamesOfOne(Declare(r, Pos(25, 42), Initialized));
    OutNamesSnoc([], Argument([Declare(r, Pos(25, 42), Initialized)]));
    assert WalkArgs([Argument([Declare(r, Pos(25, 42), Initialized)])], [], Ctx(12, [], []), tr) == Tree(tr.scopes, tr.events + [Declared(12, r, Pos(25, 42), Initialized, [])], 0);
    assert OutNames([Argument([Declare(r, Pos(25, 42), Initialized)])]) == [];
    assert WalkExpr(Call([Argument([Declare(r, Pos(25, 42), Initialized)])]), Ctx(12, [], []), tr) == Tree(tr.scopes, tr.events + [Declared(12, r, Pos(25, 42), Initialized, [])] + [OutAssigned(12, [], [])], 0);
    assert WalkExprs([Call([Argument([Declare(r, Pos(25, 42), Initialized)])])], Ctx(12, [], []), tr) == Tree(tr.scopes, tr.events + [Declared(12, r, Pos(25, 42), Initialized, [])] + [OutAssigned(12, [], [])], 0);
    assert WalkStmt(Exprs([Call([Argument([Declare(r, Pos(25, 42), Initialized)])])]), Ctx(12, [], []), tr) == Tree(tr.scopes, tr.events + [Declared(12, r, Pos(25, 42), Initialized, [])] + [OutAssigned(12, [], [])], 0);
  }

  lemma {:induction false} Walk9(k: string, j: string, n: string, q: string, r: string, s: string, a1: string, a2: string, a3: string, c1: string, c2: string, c3: string, c4: string, d1: string, tr: Tree)
    requires |tr.scopes| == 11 && tr.arms == 0
    ensures WalkStmt(Do(Block([Exprs([Call([Argument([Declare(r, Pos(25, 42), Initialized)])])])]), [Use(r, Pos(27, 16), false)]), Ctx(4, [], []), tr) == Tree(tr.scopes + [Scope(LoopCondition, Some(4))] + [Scope(BlockBody, Some(11))], tr.events + [Declared(12, r, Pos(25, 42), Initialized, [])] + [OutAssigned(12, [], [])] + [Referenced(11, r, Pos(27, 16), false, false, [])], 0)
  {
    WalkStmtsOne(Exprs([Call([Argument([Declare(r, Pos(25, 42), Initialized)])])]), Ctx(12, [], []), Tree(tr.scopes + [Scope(LoopCondition, Some(4))] + [Scope(BlockBody, Some(11))], tr.events, 0));
    Walk10(k, j, n, q, r, s, a1, a2, a3, c1, c2, c3, c4, d1, Tree(tr.scopes + [Scope(LoopCondition, Some(4))] + [Scope(BlockBody, Some(11))], tr.events, 0));
    assert WalkStmt(Exprs([Call([Argument([Declare(r, Pos(25, 42), Initialized)])])]), Ctx(12, [], []), Tree(tr.scopes + [Scope(LoopCondition, Some(4))] + [Scope(BlockBody, Some(11))], tr.events, 0)) == Tree(tr.scopes + [Scope(LoopCondition, Some(4))] + [Scope(BlockBody, Some(11))], tr.events + [Declared(12, r, Pos(25, 42), Initialized, [])] + [OutAssigned(12, [], [])], 0);
    assert WalkEmbedded(Block([Exprs([Call([Argument([Declare(r, Pos(25, 42), Initialized)])])])]), Ctx(11, [], []), Tree(tr.scopes + [Scope(LoopCondition, Some(4))], tr.events, 0)) == Tree(tr.scopes + [Scope(LoopCondition, Some(4))] + [Scope(BlockBody, Some(11))], tr.events + [Declared(12, r, Pos(25, 42), Initialized, [])] + [OutAssigned(12, [], [])], 0);
    WalkExprsOne(Use(r, Pos(27, 16), false), Ctx(11, [], []), Tree(tr.scopes + [Scope(LoopCondition, Some(4))] + [Scope(BlockBody, Some(11))], tr.events + [Declared(12, r, Pos(25, 42), Initialized, [])] + [OutAssigned(12, [], [])], 0));
    assert WalkExpr(Use(r, Pos(27, 16), false), Ctx(11, [], []), Tree(tr.scopes + [Scope(LoopCondition, Some(4))] + [Scope(BlockBody, Some(11))], tr.events + [Declared(12, r, Pos(25, 42), Initialized, [])] + [OutAssigned(12, [], [])], 0)) == Tree(tr.scopes + [Scope(LoopCondition, Some(4))] + [Scope(BlockBody, Some(11))], tr.events + [Declared(12, r, Pos(25, 42), Initialized, [])] + [OutAssigned(12, [], [])] + [Referenced(11, r, Pos(27, 16), false, false, [])], 0);
    assert WalkExprs([Use(r, Pos(27, 16), false)], Ctx(11, [], []), Tree(tr.scopes + [Scope(LoopCondition, Some(4))] + [Scope(BlockBody, Some(11))], tr.events + [Declared(12, r, Pos(25, 42), Initialized, [])] + [OutAssigned(12, [], [])], 0)) == Tree(tr.scopes + [Scope(LoopCondition, Some(4))] + [Scope(BlockBody, Some(11))], tr.events + [Declared(12, r, Pos(25, 42), Initialized, [])] + [OutAssigned(12, [], [])] + [Referenced(11, r, Pos(27, 16), false, false, [])], 0);
    assert WalkStmt(Do(Block([Exprs([Call([Argument([Declare(r, Pos(25, 42), Initialized)])])])]), [Use(r, Pos(27, 16), false)]), Ctx(4, [], []), tr) == Tree(tr.scopes + [Scope(LoopCondition, Some(4))] + [Scope(BlockBody, Some(11))], tr.events + [Declared(12, r, Pos(25, 42), Initialized, [])] + [OutAssigned(12, [], [])] + [Referenced(11, r, Pos(27, 16), false, false, [])], 0);
  }

  lemma {:induction false} Walk11(k: string, j: string, n: string, q: string, r: string, s: string, a1: string, a2: string, a3: string, c1: string, c2: string, c3: string, c4: string, d1: string, tr: Tree)
    requires |tr.scopes| == 13 && tr.arms == 0
    ensures WalkStmt(Do(Exprs([Call([Argument([Declare(s, Pos(30, 42), Initialized)])])]), [Use(s, Pos(31, 15), false)]), Ctx(4, [], []), tr) == Tree(tr.scopes + [Scope(LoopCondition, Some(4))] + [Scope(EmbeddedBody, Some(13))], tr.events + [Declared(14, s, Pos(30, 42), Initialized, [])] + [OutAssigned(14, [], [])] + [Referenced(13, s, Pos(31, 15), false, false, [])], 0)
  {
    WalkExprsOne(Call([Argument([Declare(s, Pos(30, 42), Initialized)])]), Ctx(14, [], []), Tree(tr.scopes + [Scope(LoopCondition, Some(4))] + [Scope(EmbeddedBody, Some(13))], tr.events, 0));
    assert OutNames([]) == [];
    WalkArgsOne(Argument([Declare(s, Pos(30, 42), Initialized)]), [], Ctx(14, [], []), Tree(tr.scopes + [Scope(LoopCondition, Some(4))] + [Scope(EmbeddedBody, Some(13))], tr.events, 0));
    WalkExprsOne(Declare(s, Pos(30, 42), Initialized), Ctx(14, [], []), Tree(tr.scopes + [Scope(LoopCondition, Some(4))] + [Scope(EmbeddedBody, Some(13))], tr.events, 0));
    assert WalkExpr(Declare(s, Pos(30, 42), Initialized), Ctx(14, [], []), Tree(tr.scopes + [Scope(LoopCondition, Some(4))] + [Scope(EmbeddedBody, Some(13))], tr.events, 0)) == Tree(tr.scopes + [Scope(LoopCondition, Some(4))] + [Scope(EmbeddedBody, Some(13))], tr.events + [Declared(14, s, Pos(30, 42), Initialized, [])], 0);
    assert WalkExprs([Declare(s, Pos(30, 42), Initialized)], Ctx(14, [], []), Tree(tr.scopes + [Scope(LoopCondition, Some(4))] + [Scope(EmbeddedBody, Some(13))], tr.events, 0)) == Tree(tr.scopes + [Scope(LoopCondition, Some(4))] + [Scope(EmbeddedBody, Some(13))], tr.events + [Declared(14, s, Pos(30, 42), Initialized, [])], 0);
    OutNamesOfOne(Declare(s, Pos(30, 42), Initialized));
    OutNamesSnoc([], Argument([Declare(s, Pos(30, 42), Initialized)]));
    assert WalkArgs([Argument([Declare(s, Pos(30, 42), Initialized)])], [], Ctx(14, [], []), Tree(tr.scopes + [Scope(LoopCondition, Some(4))] + [Scope(EmbeddedBody, Some(13))], tr.events, 0)) == Tree(tr.scopes + [Scope(LoopCondition, Some(4))] + [Scope(EmbeddedBody, Some(13))], tr.events + [Declared(14, s, Pos(30, 42), Initialized, [])], 0);
    assert OutNames([Argument([Declare(s, Pos(30, 42), Initialized)])]) == [];
    assert WalkExpr(Call([Argument([Declare(s, Pos(30, 42), Initialized)])]), Ctx(14, [], []), Tree(tr.scopes + [Scope(LoopCondition, Some(4))] + [Scope(EmbeddedBody, Some(13))], tr.events, 0)) == Tree(tr.scopes + [Scope(LoopCondition, Some(4))] + [Scope(EmbeddedBody, Some(13))], tr.events + [Declared(14, s, Pos(30, 42), Initialized, [])] + [OutAssigned(14, [], [])], 0);
    assert WalkExprs([Call([Argument([Declare(s, Pos(30, 42), Initialized)])])], Ctx(14, [], []), Tree(tr.scopes + [Scope(LoopCondition, Some(4))] + [Scope(EmbeddedBody, Some(13))], tr.events, 0)) == Tree(tr.scopes + [Scope(LoopCondition, Some(4))] + [Scope(EmbeddedBody, Some(13))], tr.events + [Declared(14, s, Pos(30, 42), Initialized, [])] + [OutAssigned(14, [], [])], 0);
    assert WalkStmt(Exprs([Call([Argument([Declare(s, Pos(30, 42), Initialized)])])]), Ctx(14, [], []), Tree(tr.scopes + [Scope(LoopCondition, Some(4))] + [Scope(EmbeddedBody, Some(13))], tr.events, 0)) == Tree(tr.scopes + [Scope(LoopCondition, Some(4))] + [Scope(EmbeddedBody, Some(13))], tr.events + [Declared(14, s, Pos(30, 42), Initialized, [])] + [OutAssigned(14, [], [])], 0);
    assert WalkEmbedded(Exprs([Call([Argument([Declare(s, Pos(30, 42), Initialized)])])]), Ctx(13, [], []), Tree(tr.scopes + [Scope(LoopCondition, Some(4))], tr.events, 0)) == Tree(tr.scopes + [Scope(LoopCondition, Some(4))] + [Scope(EmbeddedBody, Some(13))], tr.events + [Declared(14, s, Pos(30, 42), Initialized, [])] + [OutAssigned(14, [], [])], 0);
    WalkExprsOne(Use(s, Pos(31, 15), false), Ctx(13, [], []), Tree(tr.scopes + [Scope(LoopCondition, Some(4))] + [Scope(EmbeddedBody, Some(13))], tr.events + [Declared(14, s, Pos(30, 42), Initialized, [])] + [OutAssigned(14, [], [])], 0));
    assert WalkExpr(Use(s, Pos(31, 15), false), Ctx(13, [], []), Tree(tr.scopes + [Scope(LoopCondition, Some(4))] + [Scope(EmbeddedBody, Some(13))], tr.events + [Declared(14, s, Pos(30, 42), Initialized, [])] + [OutAssigned(14, [], [])], 0)) == Tree(tr.scopes + [Scope(LoopCondition, Some(4))] + [Scope(EmbeddedBody, Some(13))], tr.events + [Declared(14, s, Pos(30, 42), Initialized, [])] + [OutAssigned(14, [], [])] + [Referenced(13, s, Pos(31, 15), false, false, [])], 0);
    assert WalkExprs([Use(s, Pos(31, 15), false)], Ctx(13, [], []), Tree(tr.scopes + [Scope(LoopCondition, Some(4))] + [Scope(EmbeddedBody, Some(13))], tr.events + [Declared(14, s, Pos(30, 42), Initialized, [])] + [OutAssigned(14, [], [])], 0)) == Tree(tr.scopes + [Scope(LoopCondition, Some(4))] + [Scope(EmbeddedBody, Some(13))], tr.events + [Declared(14, s, Pos(30, 42), Initialized, [])] + [OutAssigned(14, [], [])] + [Referenced(13, s, Pos(31, 15), false, false, [])], 0);
    assert WalkStmt(Do(Exprs([Call([Argument([Declare(s, Pos(30, 42), Initialized)])])]), [Use(s, Pos(31, 15), false)]), Ctx(4, [], []), tr) == Tree(tr.scopes + [Scope(LoopCondition, Some(4))] + [Scope(EmbeddedBody, Some(13))], tr.events + [Declared(14, s, Pos(30, 42), Initialized, [])] + [OutAssigned(14, [], [])] + [Referenced(13, s, Pos(31, 15), false, false, [])], 0);
  }

  lemma {:induction false} Walk12(k: string, j: string, n: string, q: string, r: string, s: string, a1: string, a2: string, a3: string, c1: string, c2: string, c3: string, c4: string, d1: string, tr: Tree)
    requires |tr.scopes| == 15 && tr.arms == 0
    ensures WalkStmt(Exprs([Declare(a1, Pos(33, 13), Initialized)]), Ctx(4, [], []), tr) == Tree(tr.scopes, tr.events + [Declared(4, a1, Pos(33, 13), Initialized, [])], 0)
  {
    WalkExprsOne(Declare(a1, Pos(33, 13), Initialized), Ctx(4, [], []), tr);
    assert WalkExpr(Declare(a1, Pos(33, 13), Initialized), Ctx(4, [], []), tr) == Tree(tr.scopes, tr.events + [Declared(4, a1, Pos(33, 13), Initialized, [])], 0);
    assert WalkExprs([Declare(a1, Pos(33, 13), Initialized)], Ctx(4, [], []), tr) == Tree(tr.scopes, tr.events + [Declared(4, a1, Pos(33, 13), Initialized, [])], 0);
    assert WalkStmt(Exprs([Declare(a1, Pos(33, 13), Initialized)]), Ctx(4, [], []), tr) == Tree(tr.scopes, tr.events + [Declared(4, a1, Pos(33, 13), Initialized, [])], 0);
  }

  lemma {:induction false} Stmts6(k: string, j: string, n: string, q: string, r: string, s: string, a1: string, a2: string, a3: string, c1: string, c2: string, c3: string, c4: string, d1: string, tr: Tree, rest: seq<Stmt>)
    requires |tr.scopes| == 9 && tr.arms == 0
    ensures WalkStmts([Do(Block([Exprs([Call([Argument([Use(q, Pos(19, 38), false)])])])]), [Declare(q, Pos(21, 21), Initialized)])] + ([Do(Block([Exprs([Call([Argument([Declare(r, Pos(25, 42), Initialized)])])])]), [Use(r, Pos(27, 16), false)])] + ([Do(Exprs([Call([Argument([Declare(s, Pos(30, 42), Initialized)])])]), [Use(s, Pos(31, 15), false)])] + ([Exprs([Declare(a1, Pos(33, 13), Initialized)])] + (rest)))), Ctx(4, [], []), tr) == WalkStmts(rest, Ctx(4, [], []), Tree(tr.scopes + [Scope(LoopCondition, Some(4))] + [Scope(BlockBody, Some(9))] + [Scope(LoopCondition, Some(4))] + [Scope(BlockBody, Some(11))] + [Scope(LoopCondition, Some(4))] + [Scope(EmbeddedBody, Some(13))], tr.events + [Referenced(10, q, Pos(19, 38), false, false, [])] + [OutAssigned(10, [], [])] + [Declared(9, q, Pos(21, 21), Initialized, [])] + [Declared(12, r, Pos(25, 42), Initialized, [])] + [OutAssigned(12, [], [])] + [Referenced(11, r, Pos(27, 16), false, false, [])] + [Declared(14, s, Pos(30, 42), Initialized, [])] + [OutAssigned(14, [], [])] + [Referenced(13, s, Pos(31, 15), false, false, [])] + [Declared(4, a1, Pos(33, 13), Initialized, [])], 0))
  {
    WalkStmtsCons(Do(Block([Exprs([Call([Argument([Use(q, Pos(19, 38), false)])])])]), [Declare(q, Pos(21, 21), Initialized)]), [Do(Block([Exprs([Call([Argument([Declare(r, Pos(25, 42), Initialized)])])])]), [Use(r, Pos(27, 16), false)])] + ([Do(Exprs([Call([Argument([Declare(s, Pos(30, 42), Initialized)])])]), [Use(s, Pos(31, 15), false)])] + ([Exprs([Declare(a1, Pos(33, 13), Initialized)])] + (rest))), Ctx(4, [], []), tr);
    Walk7(k, j, n, q, r, s, a1, a2, a3, c1, c2, c3, c4, d1, tr);
    assert WalkStmt(Do(Block([Exprs([Call([Argument([Use(q, Pos(19, 38), false)])])])]), [Declare(q, Pos(21, 21), Initialized)]), Ctx(4, [], []), tr) == Tree(tr.scopes + [Scope(LoopCondition, Some(4))] + [Scope(BlockBody, Some(9))], tr.events + [Referenced(10, q, Pos(19, 38), false, false, [])] + [OutAssigned(10, [], [])] + [Declared(9, q, Pos(21, 21), Initialized, [])], 0);
    WalkStmtsCons(Do(Block([Exprs([Call([Argument([Declare(r, Pos(25, 42), Initialized)])])])]), [Use(r, Pos(27, 16), false)]), [Do(Exprs([Call([Argument([Declare(s, Pos(30, 42), Initialized)])])]), [Use(s, Pos(31, 15), false)])] + ([Exprs([Declare(a1, Pos(33, 13), Initialized)])] + (rest)), Ctx(4, [], []), Tree(tr.scopes + [Scope(LoopCondition, Some(4))] + [Scope(BlockBody, Some(9))], tr.events + [Referenced(10, q, Pos(19, 38), false, false, [])] + [OutAssigned(10, [], [])] + [Declared(9, q, Pos(21, 21), Initialized, [])], 0));
    Walk9(k, j, n, q, r, s, a1, a2, a3, c1, c2, c3, c4, d1, Tree(tr.scopes + [Scope(LoopCondition, Some(4))] + [Scope(BlockBody, Some(9))], tr.events + [Referenced(10, q, Pos(19, 38), false, false, [])] + [OutAssigned(10, [], [])] + [Declared(9, q, Pos(21, 21), Initialized, [])], 0));
    assert WalkStmt(Do(Block([Exprs([Call([Argument([Declare(r, Pos(25, 42), Initialized)])])])]), [Use(r, Pos(27, 16), false)]), Ctx(4, [], []), Tree(tr.scopes + [Scope(LoopCondition, Some(4))] + [Scope(BlockBody, Some(9))], tr.events + [Referenced(10, q, Pos(19, 38), false, false, [])] + [OutAssigned(10, [], [])] + [Declared(9, q, Pos(21, 21), Initialized, [])], 0)) == Tree(tr.scopes + [Scope(LoopCondition, Some(4))] + [Scope(BlockBody, Some(9))] + [Scope(LoopCondition, Some(4))] + [Scope(BlockBody, Some(11))], tr.events + [Referenced(10, q, Pos(19, 38), false, false, [])] + [OutAssigned(10, [], [])] + [Declared(9, q, Pos(21, 21), Initialized, [])] + [Declared(12, r, Pos(25, 42), Initialized, [])] + [OutAssigned(12, [], [])] + [Referenced(11, r, Pos(27, 16), false, false, [])], 0);
    WalkStmtsCons(Do(Exprs([Call([Argument([Declare(s, Pos(30, 42), Initialized)])])]), [Use(s, Pos(31, 15), false)]), [Exprs([Declare(a1, Pos(33, 13), Initialized)])] + (rest), Ctx(4, [], []), Tree(tr.scopes + [Scope(LoopCondition, Some(4))] + [Scope(BlockBody, Some(9))] + [Scope(LoopCondition, Some(4))] + [Scope(BlockBody, Some(11))], tr.events + [Referenced(10, q, Pos(19, 38), false, false, [])] + [OutAssigned(10, [], [])] + [Declared(9, q, Pos(21, 21), Initialized, [])] + [Declared(12, r, Pos(25, 42), Initialized, [])] + [OutAssigned(12, [], [])] + [Referenced(11, r, Pos(27, 16), false, false, [])], 0));
    Walk11(k, j, n, q, r, s, a1, a2, a3, c1, c2, c3, c4, d1, Tree(tr.scopes + [Scope(LoopCondition, Some(4))] + [Scope(BlockBody, Some(9))] + [Scope(LoopCondition, Some(4))] + [Scope(BlockBody, Some(11))], tr.events + [Referenced(10, q, Pos(19, 38), false, false, [])] + [OutAssigned(10, [], [])] + [Declared(9, q, Pos(21, 21), Initialized, [])] + [Declared(12, r, Pos(25, 42), Initialized, [])] + [OutAssigned(12, [], [])] + [Referenced(11, r, Pos(27, 16), false, false, [])], 0));
    assert WalkStmt(Do(Exprs([Call([Argument([Declare(s, Pos(30, 42), Initialized)])])]), [Use(s, Pos(31, 15), false)]), Ctx(4, [], []), Tree(tr.scopes + [Scope(LoopCondition, Some(4))] + [Scope(BlockBody, Some(9))] + [Scope(LoopCondition, Some(4))] + [Scope(BlockBody, Some(11))], tr.events + [Referenced(10, q, Pos(19, 38), false, false, [])] + [OutAssigned(10, [], [])] + [Declared(9, q, Pos(21, 21), Initialized, [])] + [Declared(12, r, Pos(25, 42), Initialized, [])] + [OutAssigned(12, [], [])] + [Referenced(11, r, Pos(27, 16), false, false, [])], 0)) == Tree(tr.scopes + [Scope(LoopCondition, Some(4))] + [Scope(BlockBody, Some(9))] + [Scope(LoopCondition, Some(4))] + [Scope(BlockBody, Some(11))] + [Scope(LoopCondition, Some(4))] + [Scope(EmbeddedBody, Some(13))], tr.events + [Referenced(10, q, Pos(19, 38), false, false, [])] + [OutAssigned(10, [], [])] + [Declared(9, q, Pos(21, 21), Initialized, [])] + [Declared(12, r, Pos(25, 42), Initialized, [])] + [OutAssigned(12, [], [])] + [Referenced(11, r, Pos(27, 16), false, false, [])] + [Declared(14, s, Pos(30, 42), Initialized, [])] + [OutAssigned(14, [], [])] + [Referenced(13, s, Pos(31, 15), false, false, [])], 0);
    WalkStmtsCons(Exprs([Declare(a1, Pos(33, 13), Initialized)]), rest, Ctx(4, [], []), Tree(tr.scopes + [Scope(LoopCondition, Some(4))] + [Scope(BlockBody, Some(9))] + [Scope(LoopCondition, Some(4))] + [Scope(BlockBody, Some(11))] + [Scope(LoopCondition, Some(4))] + [Scope(EmbeddedBody, Some(13))], tr.events + [Referenced(10, q, Pos(19, 38), false, false, [])] + [OutAssigned(10, [], [])] + [Declared(9, q, Pos(21, 21), Initialized, [])] + [Declared(12, r, Pos(25, 42), Initialized, [])] + [OutAssigned(12, [], [])] + [Referenced(11, r, Pos(27, 16), false, false, [])] + [Declared(14, s, Pos(30, 42), Initialized, [])] + [OutAssigned(14, [], [])] + [Referenced(13, s, Pos(31, 15), false, false, [])], 0));
    Walk12(k, j, n, q, r, s, a1, a2, a3, c1, c2, c3, c4, d1, Tree(tr.scopes + [Scope(LoopCondition, Some(4))] + [Scope(BlockBody, Some(9))] + [Scope(LoopCondition, Some(4))] + [Scope(BlockBody, Some(11))] + [Scope(LoopCondition, Some(4))] + [Scope(EmbeddedBody, Some(13))], tr.events + [Referenced(10, q, Pos(19, 38), false, false, [])] + [OutAssigned(10, [], [])] + [Declared(9, q, Pos(21, 21), Initialized, [])] + [Declared(12, r, Pos(25, 42), Initialized, [])] + [OutAssigned(12, [], [])] + [Referenced(11, r, Pos(27, 16), false, false, [])] + [Declared(14, s, Pos(30, 42), Initialized, [])] + [OutAssigned(14, [], [])] + [Referenced(13, s, Pos(31, 15), false, false, [])], 0));
    assert WalkStmt(Exprs([Declare(a1, Pos(33, 13), Initialized)]), Ctx(4, [], []), Tree(tr.scopes + [Scope(LoopCondition, Some(4))] + [Scope(BlockBody, Some(9))] + [Scope(LoopCondition, Some(4))] + [Scope(BlockBody, Some(11))] + [Scope(LoopCondition, Some(4))] + [Scope(EmbeddedBody, Some(13))], tr.events + [Referenced(10, q, Pos(19, 38), false, false, [])] + [OutAssigned(10, [], [])] + [Declared(9, q, Pos(21, 21), Initialized, [])] + [Declared(12, r, Pos(25, 42), Initialized, [])] + [OutAssigned(12, [], [])] + [Referenced(11, r, Pos(27, 16), false, false, [])] + [Declared(14, s, Pos(30, 42), Initialized, [])] + [OutAssigned(14, [], [])] + [Referenced(13, s, Pos(31, 15), false, false, [])], 0)) == Tree(tr.scopes + [Scope(LoopCondition, Some(4))] + [Scope(BlockBody, Some(9))] + [Scope(LoopCondition, Some(4))] + [Scope(BlockBody, Some(11))] + [Scope(LoopCondition, Some(4))] + [Scope(EmbeddedBody, Some(13))], tr.events + [Referenced(10, q, Pos(19, 38), false, false, [])] + [OutAssigned(10, [], [])] + [Declared(9, q, Pos(21, 21), Initialized, [])] + [Declared(12, r, Pos(25, 42), Initialized, [])] + [OutAssigned(12, [], [])] + [Referenced(11, r, Pos(27, 16), false, false, [])] + [Declared(14, s, Pos(30, 42), Initialized, [])] + [OutAssigned(14, [], [])] + [Referenced(13, s, Pos(31, 15), false, false, [])] + [Declared(4, a1, Pos(33, 13), Initialized, [])], 0);
  }

  lemma {:induction false} Walk14(k: string, j: string, n: string, q: string, r: string, s: string, a1: string, a2: string, a3: string, c1: string, c2: string, c3: string, c4: string, d1: string, tr: Tree)
    requires |tr.scopes| == 15 && tr.arms == 0
    ensures WalkStmt(Exprs([Call([Argument([Use(a1, Pos(34, 34), false)])])]), Ctx(4, [], []), tr) == Tree(tr.scopes, tr.events + [Referenced(4, a1, Pos(34, 34), false, false, [])] + [OutAssigned(4, [], [])], 0)
  {
    WalkExprsOne(Call([Argument([Use(a1, Pos(34, 34), false)])]), Ctx(4, [], []), tr);
    assert OutNames([]) == [];
    WalkArgsOne(Argument([Use(a1, Pos(34, 34), false)]), [], Ctx(4, [], []), tr);
    WalkExprsOne(Use(a1, Pos(34, 34), false), Ctx(4, [], []), tr);
    assert WalkExpr(Use(a1, Pos(34, 34), false), Ctx(4, [], []), tr) == Tree(tr.scopes, tr.events + [Referenced(4, a1, Pos(34, 34), false, false, [])], 0);
    assert WalkExprs([Use(a1, Pos(34, 34), false)], Ctx(4, [], []), tr) == Tree(tr.scopes, tr.events + [Referenced(4, a1, Pos(34, 34), false, false, [])], 0);
    OutNamesOfOne(Use(a1, Pos(34, 34), false));
    OutNamesSnoc([], Argument([Use(a1, Pos(34, 34), false)]));
    assert WalkArgs([Argument([Use(a1, Pos(34, 34), false)])], [], Ctx(4, [], []), tr) == Tree(tr.scopes, tr.events + [Referenced(4, a1, Pos(34, 34), false, false, [])], 0);
    assert OutNames([Argument([Use(a1, Pos(34, 34), false)])]) == [];
    assert WalkExpr(Call([Argument([Use(a1, Pos(34, 34), false)])]), Ctx(4, [], []), tr) == Tree(tr.scopes, tr.events + [Referenced(4, a1, Pos(34, 34), false, false, [])] + [OutAssigned(4, [], [])], 0);
    assert WalkExprs([Call([Argument([Use(a1, Pos(34, 34), false)])])], Ctx(4, [], []), tr) == Tree(tr.scopes, tr.events + [Referenced(4, a1, Pos(34, 34), false, false, [])] + [OutAssigned(4, [], [])], 0);
    assert WalkStmt(Exprs([Call([Argument([Use(a1, Pos(34, 34), false)])])]), Ctx(4, [], []), tr) == Tree(tr.scopes, tr.events + [Referenced(4, a1, Pos(34, 34), false, false, [])] + [OutAssigned(4, [], [])], 0);
  }

  lemma {:induction false} Walk15(k: string, j: string, n: string, q: string, r: string, s: string, a1: string, a2: string, a3: string, c1: string, c2: string, c3: string, c4: string, d1: string, tr: Tree)
    requires |tr.scopes| == 15 && tr.arms == 0
    ensures WalkStmt(Do(Exprs([Call([])]), [Declare(a1, Pos(37, 21), Initialized)]), Ctx(4, [], []), tr) == Tree(tr.scopes + [Scope(LoopCondition, Some(4))] + [Scope(EmbeddedBody, Some(15))], tr.events + [OutAssigned(16, [], [])] + [Declared(15, a1, Pos(37, 21), Initialized, [])], 0)
  {
    WalkExprsOne(Call([]), Ctx(16, [], []), Tree(tr.scopes + [Scope(LoopCondition, Some(4))] + [Scope(EmbeddedBody, Some(15))], tr.events, 0));
    assert WalkExpr(Call([]), Ctx(16, [], []), Tree(tr.scopes + [Scope(LoopCondition, Some(4))] + [Scope(EmbeddedBody, Some(15))], tr.events, 0)) == Tree(tr.scopes + [Scope(LoopCondition, Some(4))] + [Scope(EmbeddedBody, Some(15))], tr.events + [OutAssigned(16, [], [])], 0);
    assert WalkExprs([Call([])], Ctx(16, [], []), Tree(tr.scopes + [Scope(LoopCondition, Some(4))] + [Scope(EmbeddedBody, Some(15))], tr.events, 0)) == Tree(tr.scopes + [Scope(LoopCondition, Some(4))] + [Scope(EmbeddedBody, Some(15))], tr.events + [OutAssigned(16, [], [])], 0);
    assert WalkStmt(Exprs([Call([])]), Ctx(16, [], []), Tree(tr.scopes + [Scope(LoopCondition, Some(4))] + [Scope(EmbeddedBody, Some(15))], tr.events, 0)) == Tree(tr.scopes + [Scope(LoopCondition, Some(4))] + [Scope(EmbeddedBody, Some(15))], tr.events + [OutAssigned(16, [], [])], 0);
    assert WalkEmbedded(Exprs([Call([])]), Ctx(15, [], []), Tree(tr.scopes + [Scope(LoopCondition, Some(4))], tr.events, 0)) == Tree(tr.scopes + [Scope(LoopCondition, Some(4))] + [Scope(EmbeddedBody, Some(15))], tr.events + [OutAssigned(16, [], [])], 0);
    WalkExprsOne(Declare(a1, Pos(37, 21), Initialized), Ctx(15, [], []), Tree(tr.scopes + [Scope(LoopCondition, Some(4))] + [Scope(EmbeddedBody, Some(15))], tr.events + [OutAssigned(16, [], [])], 0));
    assert WalkExpr(Declare(a1, Pos(37, 21), Initialized), Ctx(15, [], []), Tree(tr.scopes + [Scope(LoopCondition, Some(4))] + [Scope(EmbeddedBody, Some(15))], tr.events + [OutAssigned(16, [], [])], 0)) == Tree(tr.scopes + [Scope(LoopCondition, Some(4))] + [Scope(EmbeddedBody, Some(15))], tr.events + [OutAssigned(16, [], [])] + [Declared(15, a1, Pos(37, 21), Initialized, [])], 0);
    assert WalkExprs([Declare(a1, Pos(37, 21), Initialized)], Ctx(15, [], []), Tree(tr.scopes + [Scope(LoopCondition, Some(4))] + [Scope(EmbeddedBody, Some(15))], tr.events + [OutAssigned(16, [], [])], 0)) == Tree(tr.scopes + [Scope(LoopCondition, Some(4))] + [Scope(EmbeddedBody, Some(15))], tr.events + [OutAssigned(16, [], [])] + [Declared(15, a1, Pos(37, 21), Initialized, [])], 0);
    assert WalkStmt(Do(Exprs([Call([])]), [Declare(a1, Pos(37, 21), Initialized)]), Ctx(4, [], []), tr) == Tree(tr.scopes + [Scope(LoopCondition, Some(4))] + [Scope(EmbeddedBody, Some(15))], tr.events + [OutAssigned(16, [], [])] + [Declared(15, a1, Pos(37, 21), Initialized, [])], 0);
  }

  lemma {:induction false} Walk16(k: string, j: string, n: string, q: string, r: string, s: string, a1: string, a2: string, a3: string, c1: string, c2: string, c3: string, c4: string, d1: string, tr: Tree)
    requires |tr.scopes| == 17 && tr.arms == 0
    ensures WalkStmt(Exprs([Declare(a2, Pos(39, 13), Initialized)]), Ctx(4, [], []), tr) == Tree(tr.scopes, tr.events + [Declared(4, a2, Pos(39, 13), Initialized, [])], 0)
  {
    WalkExprsOne(Declare(a2, Pos(39, 13), Initialized), Ctx(4, [], []), tr);
    assert WalkExpr(Declare(a2, Pos(39, 13), Initialized), Ctx(4, [], []), tr) == Tree(tr.scopes, tr.events + [Declared(4, a2, Pos(39, 13), Initialized, [])], 0);
    assert WalkExprs([Declare(a2, Pos(39, 13), Initialized)], Ctx(4, [], []), tr) == Tree(tr.scopes, tr.events + [Declared(4, a2, Pos(39, 13), Initialized, [])], 0);
    assert WalkStmt(Exprs([Declare(a2, Pos(39, 13), Initialized)]), Ctx(4, [], []), tr) == Tree(tr.scopes, tr.events + [Declared(4, a2, Pos(39, 13), Initialized, [])], 0);
  }

  lemma {:induction false} Walk17(k: string, j: string, n: string, q: string, r: string, s: string, a1: string, a2: string, a3: string, c1: string, c2: string, c3: string, c4: string, d1: string, tr: Tree)
    requires |tr.scopes| == 17 && tr.arms == 0
    ensures WalkStmt(Exprs([Call([Argument([Use(a2, Pos(40, 34), false)])])]), Ctx(4, [], []), tr) == Tree(tr.scopes, tr.events + [Referenced(4, a2, Pos(40, 34), false, false, [])] + [OutAssigned(4, [], [])], 0)
  {
    WalkExprsOne(Call([Argument([Use(a2, Pos(40, 34), false)])]), Ctx(4, [], []), tr);
    assert OutNames([]) == [];
    WalkArgsOne(Argument([Use(a2, Pos(40, 34), false)]), [], Ctx(4, [], []), tr);
    WalkExprsOne(Use(a2, Pos(40, 34), false), Ctx(4, [], []), tr);
    assert WalkExpr(Use(a2, Pos(40, 34), false), Ctx(4, [], []), tr) == Tree(tr.scopes, tr.events + [Referenced(4, a2, Pos(40, 34), false, false, [])], 0);
    assert WalkExprs([Use(a2, Pos(40, 34), false)], Ctx(4, [], []), tr) == Tree(tr.scopes, tr.events + [Referenced(4, a2, Pos(40, 34), false, false, [])], 0);
    OutNamesOfOne(Use(a2, Pos(40, 34), false));
    OutNamesSnoc([], Argument([Use(a2, Pos(40, 34), false)]));
    assert WalkArgs([Argument([Use(a2, Pos(40, 34), false)])], [], Ctx(4, [], []), tr) == Tree(tr.scopes, tr.events + [Referenced(4, a2, Pos(40, 34), false, false, [])], 0);
    assert OutNames([Argument([Use(a2, Pos(40, 34), false)])]) == [];
    assert WalkExpr(Call([Argument([Use(a2, Pos(40, 34), false)])]), Ctx(4, [], []), tr) == Tree(tr.scopes, tr.events + [Referenced(4, a2, Pos(40, 34), false, false, [])] + [OutAssigned(4, [], [])], 0);
    assert WalkExprs([Call([Argument([Use(a2, Pos(40, 34), false)])])], Ctx(4, [], []), tr) == Tree(tr.scopes, tr.events + [Referenced(4, a2, Pos(40, 34), false, false, [])] + [OutAssigned(4, [], [])], 0);
    assert WalkStmt(Exprs([Call([Argument([Use(a2, Pos(40, 34), false)])])]), Ctx(4, [], []), tr) == Tree(tr.scopes, tr.events + [Referenced(4, a2, Pos(40, 34), false, false, [])] + [OutAssigned(4, [], [])], 0);
  }

  lemma {:induction false} Stmts13(k: string, j: string, n: string, q: string, r: string, s: string, a1: string, a2: string, a3: string, c1: string, c2: string, c3: string, c4: string, d1: string, tr: Tree, rest: seq<Stmt>)
    requires |tr.scopes| == 15 && tr.arms == 0
    ensures WalkStmts([Exprs([Call([Argument([Use(a1, Pos(34, 34), false)])])])] + ([Do(Exprs([Call([])]), [Declare(a1, Pos(37, 21), Initialized)])] + ([Exprs([Declare(a2, Pos(39, 13), Initialized)])] + ([Exprs([Call([Argument([Use(a2, Pos(40, 34), false)])])])] + (rest)))), Ctx(4, [], []), tr) == WalkStmts(rest, Ctx(4, [], []), Tree(tr.scopes + [Scope(LoopCondition, Some(4))] + [Scope(EmbeddedBody, Some(15))], tr.events + [Referenced(4, a1, Pos(34, 34), false, false, [])] + [OutAssigned(4, [], [])] + [OutAssigned(16, [], [])] + [Declared(15, a1, Pos(37, 21), Initialized, [])] + [Declared(4, a2, Pos(39, 13), Initialized, [])] + [Referenced(4, a2, Pos(40, 34), false, false, [])] + [OutAssigned(4, [], [])], 0))
  {
    WalkStmtsCons(Exprs([Call([Argument([Use(a1, Pos(34, 34), false)])])]), [Do(Exprs([Call([])]), [Declare(a1, Pos(37, 21), Initialized)])] + ([Exprs([Declare(a2, Pos(39, 13), Initialized)])] + ([Exprs([Call([Argument([Use(a2, Pos(40, 34), false)])])])] + (rest))), Ctx(4, [], []), tr);
    Walk14(k, j, n, q, r, s, a1, a2, a3, c1, c2, c3, c4, d1, tr);
    assert WalkStmt(Exprs([Call([Argument([Use(a1, Pos(34, 34), false)])])]), Ctx(4, [], []), tr) == Tree(tr.scopes, tr.events + [Referenced(4, a1, Pos(34, 34), false, false, [])] + [OutAssigned(4, [], [])], 0);
    WalkStmtsCons(Do(Exprs([Call([])]), [Declare(a1, Pos(37, 21), Initialized)]), [Exprs([Declare(a2, Pos(39, 13), Initialized)])] + ([Exprs([Call([Argument([Use(a2, Pos(40, 34), false)])])])] + (rest)), Ctx(4, [], []), Tree(tr.scopes, tr.events + [Referenced(4, a1, Pos(34, 34), false, false, [])] + [OutAssigned(4, [], [])], 0));
    Walk15(k, j, n, q, r, s, a1, a2, a3, c1, c2, c3, c4, d1, Tree(tr.scopes, tr.events + [Referenced(4, a1, Pos(34, 34), false, false, [])] + [OutAssigned(4, [], [])], 0));
    assert WalkStmt(Do(Exprs([Call([])]), [Declare(a1, Pos(37, 21), Initialized)]), Ctx(4, [], []), Tree(tr.scopes, tr.events + [Referenced(4, a1, Pos(34, 34), false, false, [])] + [OutAssigned(4, [], [])], 0)) == Tree(tr.scopes + [Scope(LoopCondition, Some(4))] + [Scope(EmbeddedBody, Some(15))], tr.events + [Referenced(4, a1, Pos(34, 34), false, false, [])] + [OutAssigned(4, [], [])] + [OutAssigned(16, [], [])] + [Declared(15, a1, Pos(37, 21), Initialized, [])], 0);
    WalkStmtsCons(Exprs([Declare(a2, Pos(39, 13), Initialized)]), [Exprs([Call([Argument([Use(a2, Pos(40, 34), false)])])])] + (rest), Ctx(4, [], []), Tree(tr.scopes + [Scope(LoopCondition, Some(4))] + [Scope(EmbeddedBody, Some(15))], tr.events + [Referenced(4, a1, Pos(34, 34), false, false, [])] + [OutAssigned(4, [], [])] + [OutAssigned(16, [], [])] + [Declared(15, a1, Pos(37, 21), Initialized, [])], 0));
    Walk16(k, j, n, q, r, s, a1, a2, a3, c1, c2, c3, c4, d1, Tree(tr.scopes + [Scope(LoopCondition, Some(4))] + [Scope(EmbeddedBody, Some(15))], tr.events + [Referenced(4, a1, Pos(34, 34), false, false, [])] + [OutAssigned(4, [], [])] + [OutAssigned(16, [], [])] + [Declared(15, a1, Pos(37, 21), Initialized, [])], 0));
    assert WalkStmt(Exprs([Declare(a2, Pos(39, 13), Initialized)]), Ctx(4, [], []), Tree(tr.scopes + [Scope(LoopCondition, Some(4))] + [Scope(EmbeddedBody, Some(15))], tr.events + [Referenced(4, a1, Pos(34, 34), false, false, [])] + [OutAssigned(4, [], [])] + [OutAssigned(16, [], [])] + [Declared(15, a1, Pos(37, 21), Initialized, [])], 0)) == Tree(tr.scopes + [Scope(LoopCondition, Some(4))] + [Scope(EmbeddedBody, Some(15))], tr.events + [Referenced(4, a1, Pos(34, 34), false, false, [])] + [OutAssigned(4, [], [])] + [OutAssigned(16, [], [])] + [Declared(15, a1, Pos(37, 21), Initialized, [])] + [Declared(4, a2, Pos(39, 13), Initialized, [])], 0);
    WalkStmtsCons(Exprs([Call([Argument([Use(a2, Pos(40, 34), false)])])]), rest, Ctx(4, [], []), Tree(tr.scopes + [Scope(LoopCondition, Some(4))] + [Scope(EmbeddedBody, Some(15))], tr.events + [Referenced(4, a1, Pos(34, 34), false, false, [])] + [OutAssigned(4, [], [])] + [OutAssigned(16, [], [])] + [Declared(15, a1, Pos(37, 21), Initialized, [])] + [Declared(4, a2, Pos(39, 13), Initialized, [])], 0));
    Walk17(k, j, n, q, r, s, a1, a2, a3, c1, c2, c3, c4, d1, Tree(tr.scopes + [Scope(LoopCondition, Some(4))] + [Scope(EmbeddedBody, Some(15))], tr.events + [Referenced(4, a1, Pos(34, 34), false, false, [])] + [OutAssigned(4, [], [])] + [OutAssigned(16, [], [])] + [Declared(15, a1, Pos(37, 21), Initialized, [])] + [Declared(4, a2, Pos(39, 13), Initialized, [])], 0));
    assert WalkStmt(Exprs([Call([Argument([Use(a2, Pos(40, 34), false)])])]), Ctx(4, [], []), Tree(tr.scopes + [Scope(LoopCondition, Some(4))] + [Scope(EmbeddedBody, Some(15))], tr.events + [Referenced(4, a1, Pos(34, 34), false, false, [])] + [OutAssigned(4, [], [])] + [OutAssigned(16, [], [])] + [Declared(15, a1, Pos(37, 21), Initialized, [])] + [Declared(4, a2, Pos(39, 13), Initialized, [])], 0)) == Tree(tr.scopes + [Scope(LoopCondition, Some(4))] + [Scope(EmbeddedBody, Some(15))], tr.events + [Referenced(4, a1, Pos(34, 34), false, false, [])] + [OutAssigned(4, [], [])] + [OutAssigned(16, [], [])] + [Declared(15, a1, Pos(37, 21), Initialized, [])] + [Declared(4, a2, Pos(39, 13), Initialized, [])] + [Referenced(4, a2, Pos(40, 34), false, false, [])] + [OutAssigned(4, [], [])], 0);
  }

  lemma {:induction false} Walk19(k: string, j: string, n: string, q: string, r: string, s: string, a1: string, a2: string, a3: string, c1: string, c2: string, c3: string, c4: string, d1: string, tr: Tree)
    requires |tr.scopes| == 17 && tr.arms == 0
    ensures WalkStmt(Do(Exprs([Call([Argument([Declare(a2, Pos(42, 42), Initialized)])])]), [Use(a2, Pos(43, 16), false)]), Ctx(4, [], []), tr) == Tree(tr.scopes + [Scope(LoopCondition, Some(4))] + [Scope(EmbeddedBody, Some(17))], tr.events + [Declared(18, a2, Pos(42, 42), Initialized, [])] + [OutAssigned(18, [], [])] + [Referenced(17, a2, Pos(43, 16), false, false, [])], 0)
  {
    WalkExprsOne(Call([Argument([Declare(a2, Pos(42, 42), Initialized)])]), Ctx(18, [], []), Tree(tr.scopes + [Scope(LoopCondition, Some(4))] + [Scope(EmbeddedBody, Some(17))], tr.events, 0));
    assert OutNames([]) == [];
    WalkArgsOne(Argument([Declare(a2, Pos(42, 42), Initialized)]), [], Ctx(18, [], []), Tree(tr.scopes + [Scope(LoopCondition, Some(4))] + [Scope(EmbeddedBody, Some(17))], tr.events, 0));
    WalkExprsOne(Declare(a2, Pos(42, 42), Initialized), Ctx(18, [], []), Tree(tr.scopes + [Scope(LoopCondition, Some(4))] + [Scope(EmbeddedBody, Some(17))], tr.events, 0));
    assert WalkExpr(Declare(a2, Pos(42, 42), Initialized), Ctx(18, [], []), Tree(tr.scopes + [Scope(LoopCondition, Some(4))] + [Scope(EmbeddedBody, Some(17))], tr.events, 0)) == Tree(tr.scopes + [Scope(LoopCondition, Some(4))] + [Scope(EmbeddedBody, Some(17))], tr.events + [Declared(18, a2, Pos(42, 42), Initialized, [])], 0);
    assert WalkExprs([Declare(a2, Pos(42, 42), Initialized)], Ctx(18, [], []), Tree(tr.scopes + [Scope(LoopCondition, Some(4))] + [Scope(EmbeddedBody, Some(17))], tr.events, 0)) == Tree(tr.scopes + [Scope(LoopCondition, Some(4))] + [Scope(EmbeddedBody, Some(17))], tr.events + [Declared(18, a2, Pos(42, 42), Initialized, [])], 0);
    OutNamesOfOne(Declare(a2, Pos(42, 42), Initialized));
    OutNamesSnoc([], Argument([Declare(a2, Pos(42, 42), Initialized)]));
    assert WalkArgs([Argument([Declare(a2, Pos(42, 42), Initialized)])], [], Ctx(18, [], []), Tree(tr.scopes + [Scope(LoopCondition, Some(4))] + [Scope(EmbeddedBody, Some(17))], tr.events, 0)) == Tree(tr.scopes + [Scope(LoopCondition, Some(4))] + [Scope(EmbeddedBody, Some(17))], tr.events + [Declared(18, a2, Pos(42, 42), Initialized, [])], 0);
    assert OutNames([Argument([Declare(a2, Pos(42, 42), Initialized)])]) == [];
    assert WalkExpr(Call([Argument([Declare(a2, Pos(42, 42), Initialized)])]), Ctx(18, [], []), Tree(tr.scopes + [Scope(LoopCondition, Some(4))] + [Scope(EmbeddedBody, Some(17))], tr.events, 0)) == Tree(tr.scopes + [Scope(LoopCondition, Some(4))] + [Scope(EmbeddedBody, Some(17))], tr.events + [Declared(18, a2, Pos(42, 42), Initialized, [])] + [OutAssigned(18, [], [])], 0);
    assert WalkExprs([Call([Argument([Declare(a2, Pos(42, 42), Initialized)])])], Ctx(18, [], []), Tree(tr.scopes + [Scope(LoopCondition, Some(4))] + [Scope(EmbeddedBody, Some(17))], tr.events, 0)) == Tree(tr.scopes + [Scope(LoopCondition, Some(4))] + [Scope(EmbeddedBody, Some(17))], tr.events + [Declared(18, a2, Pos(42, 42), Initialized, [])] + [OutAssigned(18, [], [])], 0);
    assert WalkStmt(Exprs([Call([Argument([Declare(a2, Pos(42, 42), Initialized)])])]), Ctx(18, [], []), Tree(tr.scopes + [Scope(LoopCondition, Some(4))] + [Scope(EmbeddedBody, Some(17))], tr.events, 0)) == Tree(tr.scopes + [Scope(LoopCondition, Some(4))] + [Scope(EmbeddedBody, Some(17))], tr.events + [Declared(18, a2, Pos(42, 42), Initialized, [])] + [OutAssigned(18, [], [])], 0);
    assert WalkEmbedded(Exprs([Call([Argument([Declare(a2, Pos(42, 42), Initialized)])])]), Ctx(17, [], []), Tree(tr.scopes + [Scope(LoopCondition, Some(4))], tr.events, 0)) == Tree(tr.scopes + [Scope(LoopCondition, Some(4))] + [Scope(EmbeddedBody, Some(17))], tr.events + [Declared(18, a2, Pos(42, 42), Initialized, [])] + [OutAssigned(18, [], [])], 0);
    WalkExprsOne(Use(a2, Pos(43, 16), false), Ctx(17, [], []), Tree(tr.scopes + [Scope(LoopCondition, Some(4))] + [Scope(EmbeddedBody, Some(17))], tr.events + [Declared(18, a2, Pos(42, 42), Initialized, [])] + [OutAssigned(18, [], [])], 0));
    assert WalkExpr(Use(a2, Pos(43, 16), false), Ctx(17, [], []), Tree(tr.scopes + [Scope(LoopCondition, Some(4))] + [Scope(EmbeddedBody, Some(17))], tr.events + [Declared(18, a2, Pos(42, 42), Initialized, [])] + [OutAssigned(18, [], [])], 0)) == Tree(tr.scopes + [Scope(LoopCondition, Some(4))] + [Scope(EmbeddedBody, Some(17))], tr.events + [Declared(18, a2, Pos(42, 42), Initialized, [])] + [OutAssigned(18, [], [])] + [Referenced(17, a2, Pos(43, 16), false, false, [])], 0);
    assert WalkExprs([Use(a2, Pos(43, 16), false)], Ctx(17, [], []), Tree(tr.scopes + [Scope(LoopCondition, Some(4))] + [Scope(EmbeddedBody, Some(17))], tr.events + [Declared(18, a2, Pos(42, 42), Initialized, [])] + [OutAssigned(18, [], [])], 0)) == Tree(tr.scopes + [Scope(LoopCondition, Some(4))] + [Scope(EmbeddedBody, Some(17))], tr.events + [Declared(18, a2, Pos(42, 42), Initialized, [])] + [OutAssigned(18, [], [])] + [Referenced(17, a2, Pos(43, 16), false, false, [])], 0);
    assert WalkStmt(Do(Exprs([Call([Argument([Declare(a2, Pos(42, 42), Initialized)])])]), [Use(a2, Pos(43, 16), false)]), Ctx(4, [], []), tr) == Tree(tr.scopes + [Scope(LoopCondition, Some(4))] + [Scope(EmbeddedBody, Some(17))], tr.events + [Declared(18, a2, Pos(42, 42), Initialized, [])] + [OutAssigned(18, [], [])] + [Referenced(17, a2, Pos(43, 16), false, false, [])], 0);
  }

  lemma {:induction false} Walk20(k: string, j: string, n: string, q: string, r: string, s: string, a1: string, a2: string, a3: string, c1: string, c2: string, c3: string, c4: string, d1: string, tr: Tree)
    requires |tr.scopes| == 19 && tr.arms == 0
    ensures WalkStmt(Exprs([Declare(a3, Pos(45, 13), Initialized)]), Ctx(4, [], []), tr) == Tree(tr.scopes, tr.events + [Declared(4, a3, Pos(45, 13), Initialized, [])], 0)
  {
    WalkExprsOne(Declare(a3, Pos(45, 13), Initialized), Ctx(4, [], []), tr);
    assert WalkExpr(Declare(a3, Pos(45, 13), Initialized), Ctx(4, [], []), tr) == Tree(tr.scopes, tr.events + [Declared(4, a3, Pos(45, 13), Initialized, [])], 0);
    assert WalkExprs([Declare(a3, Pos(45, 13), Initialized)], Ctx(4, [], []), tr) == Tree(tr.scopes, tr.events + [Declared(4, a3, Pos(45, 13), Initialized, [])], 0);
    assert WalkStmt(Exprs([Declare(a3, Pos(45, 13), Initialized)]), Ctx(4, [], []), tr) == Tree(tr.scopes, tr.events + [Declared(4, a3, Pos(45, 13), Initialized, [])], 0);
  }

  lemma {:induction false} Walk21(k: string, j: string, n: string, q: string, r: string, s: string, a1: string, a2: string, a3: string, c1: string, c2: string, c3: string, c4: string, d1: string, tr: Tree)
    requires |tr.scopes| == 19 && tr.arms == 0
    ensures WalkStmt(Exprs([Call([Argument([Use(a3, Pos(46, 34), false)])])]), Ctx(4, [], []), tr) == Tree(tr.scopes, tr.events + [Referenced(4, a3, Pos(46, 34), false, false, [])] + [OutAssigned(4, [], [])], 0)
  {
    WalkExprsOne(Call([Argument([Use(a3, Pos(46, 34), false)])]), Ctx(4, [], []), tr);
    assert OutNames([]) == [];
    WalkArgsOne(Argument([Use(a3, Pos(46, 34), false)]), [], Ctx(4, [], []), tr);
    WalkExprsOne(Use(a3, Pos(46, 34), false), Ctx(4, [], []), tr);
    assert WalkExpr(Use(a3, Pos(46, 34), false), Ctx(4, [], []), tr) == Tree(tr.scopes, tr.events + [Referenced(4, a3, Pos(46, 34), false, false, [])], 0);
    assert WalkExprs([Use(a3, Pos(46, 34), false)], Ctx(4, [], []), tr) == Tree(tr.scopes, tr.events + [Referenced(4, a3, Pos(46, 34), false, false, [])], 0);
    OutNamesOfOne(Use(a3, Pos(46, 34), false));
    OutNamesSnoc([], Argument([Use(a3, Pos(46, 34), false)]));
    assert WalkArgs([Argument([Use(a3, Pos(46, 34), false)])], [], Ctx(4, [], []), tr) == Tree(tr.scopes, tr.events + [Referenced(4, a3, Pos(46, 34), false, false, [])], 0);
    assert OutNames([Argument([Use(a3, Pos(46, 34), false)])]) == [];
    assert WalkExpr(Call([Argument([Use(a3, Pos(46, 34), false)])]), Ctx(4, [], []), tr) == Tree(tr.scopes, tr.events + [Referenced(4, a3, Pos(46, 34), false, false, [])] + [OutAssigned(4, [], [])], 0);
    assert WalkExprs([Call([Argument([Use(a3, Pos(46, 34), false)])])], Ctx(4, [], []), tr) == Tree(tr.scopes, tr.events + [Referenced(4, a3, Pos(46, 34), false, false, [])] + [OutAssigned(4, [], [])], 0);
    assert WalkStmt(Exprs([Call([Argument([Use(a3, Pos(46, 34), false)])])]), Ctx(4, [], []), tr) == Tree(tr.scopes, tr.events + [Referenced(4, a3, Pos(46, 34), false, false, [])] + [OutAssigned(4, [], [])], 0);
  }

  lemma {:induction false} Walk23(k: string, j: string, n: string, q: string, r: string, s: string, a1: string, a2: string, a3: string, c1: string, c2: string, c3: string, c4: string, d1: string, tr: Tree)
    requires |tr.scopes| == 21 && tr.arms == 0
    ensures WalkStmt(Exprs([Call([Argument([Declare(a3, Pos(49, 42), Initialized)])])]), Ctx(20, [], []), tr) == Tree(tr.scopes, tr.events + [Declared(20, a3, Pos(49, 42), Initialized, [])] + [OutAssigned(20, [], [])], 0)
  {
    WalkExprsOne(Call([Argument([Declare(a3, Pos(49, 42), Initialized)])]), Ctx(20, [], []), tr);
    assert OutNames([]) == [];
    WalkArgsOne(Argument([Declare(a3, Pos(49, 42), Initialized)]), [], Ctx(20, [], []), tr);
    WalkExprsOne(Declare(a3, Pos(49, 42), Initialized), Ctx(20, [], []), tr);
    assert WalkExpr(Declare(a3, Pos(49, 42), Initialized), Ctx(20, [], []), tr) == Tree(tr.scopes, tr.events + [Declared(20, a3, Pos(49, 42), Initialized, [])], 0);
    assert WalkExprs([Declare(a3, Pos(49, 42), Initialized)], Ctx(20, [], []), tr) == Tree(tr.scopes, tr.events + [Declared(20, a3, Pos(49, 42), Initialized, [])], 0);
    OutNamesOfOne(Declare(a3, Pos(49, 42), Initialized));
    OutNamesSnoc([], Argument([Declare(a3, Pos(49, 42), Initialized)]));
    assert WalkArgs([Argument([Declare(a3, Pos(49, 42), Initialized)])], [], Ctx(20, [], []), tr) == Tree(tr.scopes, tr.events + [Declared(20, a3, Pos(49, 42), Initialized, [])], 0);
    assert OutNames([Argument([Declare(a3, Pos(49, 42), Initialized)])]) == [];
    assert WalkExpr(Call([Argument([Declare(a3, Pos(49, 42), Initialized)])]), Ctx(20, [], []), tr) == Tree(tr.scopes, tr.events + [Declared(20, a3, Pos(49, 42), Initialized, [])] + [OutAssigned(20, [], [])], 0);
    assert WalkExprs([Call([Argument([Declare(a3, Pos(49, 42), Initialized)])])], Ctx(20, [], []), tr) == Tree(tr.scopes, tr.events + [Declared(20, a3, Pos(49, 42), Initialized, [])] + [OutAssigned(20, [], [])], 0);
    assert WalkStmt(Exprs([Call([Argument([Declare(a3, Pos(49, 42), Initialized)])])]), Ctx(20, [], []), tr) == Tree(tr.scopes, tr.events + [Declared(20, a3, Pos(49, 42), Initialized, [])] + [OutAssigned(20, [], [])], 0);
  }

  lemma {:induction false} Walk22(k: string, j: string, n: string, q: string, r: string, s: string, a1: string, a2: string, a3: string, c1: string, c2: string, c3: string, c4: string, d1: string, tr: Tree)
    requires |tr.scopes| == 19 && tr.arms == 0
    ensures WalkStmt(Do(Block([Exprs([Call([Argument([Declare(a3, Pos(49, 42), Initialized)])])])]), [Use(a2, Pos(51, 16), false)]), Ctx(4, [], []), tr) == Tree(tr.scopes + [Scope(LoopCondition, Some(4))] + [Scope(BlockBody, Some(19))], tr.events + [Declared(20, a3, Pos(49, 42), Initialized, [])] + [OutAssigned(20, [], [])] + [Referenced(19, a2, Pos(51, 16), false, false, [])], 0)
  {
    WalkStmtsOne(Exprs([Call([Argument([Declare(a3, Pos(49, 42), Initialized)])])]), Ctx(20, [], []), Tree(tr.scopes + [Scope(LoopCondition, Some(4))] + [Scope(BlockBody, Some(19))], tr.events, 0));
    Walk23(k, j, n, q, r, s, a1, a2, a3, c1, c2, c3, c4, d1, Tree(tr.scopes + [Scope(LoopCondition, Some(4))] + [Scope(BlockBody, Some(19))], tr.events, 0));
    assert WalkStmt(Exprs([Call([Argument([Declare(a3, Pos(49, 42), Initialized)])])]), Ctx(20, [], []), Tree(tr.scopes + [Scope(LoopCondition, Some(4))] + [Scope(BlockBody, Some(19))], tr.events, 0)) == Tree(tr.scopes + [Scope(LoopCondition, Some(4))] + [Scope(BlockBody, Some(19))], tr.events + [Declared(20, a3, Pos(49, 42), Initialized, [])] + [OutAssigned(20, [], [])], 0);
    assert WalkEmbedded(Block([Exprs([Call([Argument([Declare(a3, Pos(49, 42), Initialized)])])])]), Ctx(19, [], []), Tree(tr.scopes + [Scope(LoopCondition, Some(4))], tr.events, 0)) == Tree(tr.scopes + [Scope(LoopCondition, Some(4))] + [Scope(BlockBody, Some(19))], tr.events + [Declared(20, a3, Pos(49, 42), Initialized, [])] + [OutAssigned(20, [], [])], 0);
    WalkExprsOne(Use(a2, Pos(51, 16), false), Ctx(19, [], []), Tree(tr.scopes + [Scope(LoopCondition, Some(4))] + [Scope(BlockBody, Some(19))], tr.events + [Declared(20, a3, Pos(49, 42), Initialized, [])] + [OutAssigned(20, [], [])], 0));
    assert WalkExpr(Use(a2, Pos(51, 16), false), Ctx(19, [], []), Tree(tr.scopes + [Scope(LoopCondition, Some(4))] + [Scope(BlockBody, Some(19))], tr.events + [Declared(20, a3, Pos(49, 42), Initialized, [])] + [OutAssigned(20, [], [])], 0)) == Tree(tr.scopes + [Scope(LoopCondition, Some(4))] + [Scope(BlockBody, Some(19))], tr.events + [Declared(20, a3, Pos(49, 42), Initialized, [])] + [OutAssigned(20, [], [])] + [Referenced(19, a2, Pos(51, 16), false, false, [])], 0);
    assert WalkExprs([Use(a2, Pos(51, 16), false)], Ctx(19, [], []), Tree(tr.scopes + [Scope(LoopCondition, Some(4))] + [Scope(BlockBody, Some(19))], tr.events + [Declared(20, a3, Pos(49, 42), Initialized, [])] + [OutAssigned(20, [], [])], 0)) == Tree(tr.scopes + [Scope(LoopCondition, Some(4))] + [Scope(BlockBody, Some(19))], tr.events + [Declared(20, a3, Pos(49, 42), Initialized, [])] + [OutAssigned(20, [], [])] + [Referenced(19, a2, Pos(51, 16), false, false, [])], 0);
    assert WalkStmt(Do(Block([Exprs([Call([Argument([Declare(a3, Pos(49, 42), Initialized)])])])]), [Use(a2, Pos(51, 16), false)]), Ctx(4, [], []), tr) == Tree(tr.scopes + [Scope(LoopCondition, Some(4))] + [Scope(BlockBody, Some(19))], tr.events + [Declared(20, a3, Pos(49, 42), Initialized, [])] + [OutAssigned(20, [], [])] + [Referenced(19, a2, Pos(51, 16), false, false, [])], 0);
  }

  lemma {:induction false} Stmts18(k: string, j: string, n: string, q: string, r: string, s: string, a1: string, a2: string, a3: string, c1: string, c2: string, c3: string, c4: string, d1: string, tr: Tree, rest: seq<Stmt>)
    requires |tr.scopes| == 17 && tr.arms == 0
    ensures WalkStmts([Do(Exprs([Call([Argument([Declare(a2, Pos(42, 42), Initialized)])])]), [Use(a2, Pos(43, 16), false)])] + ([Exprs([Declare(a3, Pos(45, 13), Initialized)])] + ([Exprs([Call([Argument([Use(a3, Pos(46, 34), false)])])])] + ([Do(Block([Exprs([Call([Argument([Declare(a3, Pos(49, 42), Initialized)])])])]), [Use(a2, Pos(51, 16), false)])] + (rest)))), Ctx(4, [], []), tr) == WalkStmts(rest, Ctx(4, [], []), Tree(tr.scopes + [Scope(LoopCondition, Some(4))] + [Scope(EmbeddedBody, Some(17))] + [Scope(LoopCondition, Some(4))] + [Scope(BlockBody, Some(19))], tr.events + [Declared(18, a2, Pos(42, 42), Initialized, [])] + [OutAssigned(18, [], [])] + [Referenced(17, a2, Pos(43, 16), false, false, [])] + [Declared(4, a3, Pos(45, 13), Initialized, [])] + [Referenced(4, a3, Pos(46, 34), false, false, [])] + [OutAssigned(4, [], [])] + [Declared(20, a3, Pos(49, 42), Initialized, [])] + [OutAssigned(20, [], [])] + [Referenced(19, a2, Pos(51, 16), false, false, [])], 0))
  {
    WalkStmtsCons(Do(Exprs([Call([Argument([Declare(a2, Pos(42, 42), Initialized)])])]), [Use(a2, Pos(43, 16), false)]), [Exprs([Declare(a3, Pos(45, 13), Initialized)])] + ([Exprs([Call([Argument([Use(a3, Pos(46, 34), false)])])])] + ([Do(Block([Exprs([Call([Argument([Declare(a3, Pos(49, 42), Initialized)])])])]), [Use(a2, Pos(51, 16), false)])] + (rest))), Ctx(4, [], []), tr);
    Walk19(k, j, n, q, r, s, a1, a2, a3, c1, c2, c3, c4, d1, tr);
    assert WalkStmt(Do(Exprs([Call([Argument([Declare(a2, Pos(42, 42), Initialized)])])]), [Use(a2, Pos(43, 16), false)]), Ctx(4, [], []), tr) == Tree(tr.scopes + [Scope(LoopCondition, Some(4))] + [Scope(EmbeddedBody, Some(17))], tr.events + [Declared(18, a2, Pos(42, 42), Initialized, [])] + [OutAssigned(18, [], [])] + [Referenced(17, a2, Pos(43, 16), false, false, [])], 0);
    WalkStmtsCons(Exprs([Declare(a3, Pos(45, 13), Initialized)]), [Exprs([Call([Argument([Use(a3, Pos(46, 34), false)])])])] + ([Do(Block([Exprs([Call([Argument([Declare(a3, Pos(49, 42), Initialized)])])])]), [Use(a2, Pos(51, 16), false)])] + (rest)), Ctx(4, [], []), Tree(tr.scopes + [Scope(LoopCondition, Some(4))] + [Scope(EmbeddedBody, Some(17))], tr.events + [Declared(18, a2, Pos(42, 42), Initialized, [])] + [OutAssigned(18, [], [])] + [Referenced(17, a2, Pos(43, 16), false, false, [])], 0));
    Walk20(k, j, n, q, r, s, a1, a2, a3, c1, c2, c3, c4, d1, Tree(tr.scopes + [Scope(LoopCondition, Some(4))] + [Scope(EmbeddedBody, Some(17))], tr.events + [Declared(18, a2, Pos(42, 42), Initialized, [])] + [OutAssigned(18, [], [])] + [Referenced(17, a2, Pos(43, 16), false, false, [])], 0));
    assert WalkStmt(Exprs([Declare(a3, Pos(45, 13), Initialized)]), Ctx(4, [], []), Tree(tr.scopes + [Scope(LoopCondition, Some(4))] + [Scope(EmbeddedBody, Some(17))], tr.events + [Declared(18, a2, Pos(42, 42), Initialized, [])] + [OutAssigned(18, [], [])] + [Referenced(17, a2, Pos(43, 16), false, false, [])], 0)) == Tree(tr.scopes + [Scope(LoopCondition, Some(4))] + [Scope(EmbeddedBody, Some(17))], tr.events + [Declared(18, a2, Pos(42, 42), Initialized, [])] + [OutAssigned(18, [], [])] + [Referenced(17, a2, Pos(43, 16), false, false, [])] + [Declared(4, a3, Pos(45, 13), Initialized, [])], 0);
    WalkStmtsCons(Exprs([Call([Argument([Use(a3, Pos(46, 34), false)])])]), [Do(Block([Exprs([Call([Argument([Declare(a3, Pos(49, 42), Initialized)])])])]), [Use(a2, Pos(51, 16), false)])] + (rest), Ctx(4, [], []), Tree(tr.scopes + [Scope(LoopCondition, Some(4))] + [Scope(EmbeddedBody, Some(17))], tr.events + [Declared(18, a2, Pos(42, 42), Initialized, [])] + [OutAssigned(18, [], [])] + [Referenced(17, a2, Pos(43, 16), false, false, [])] + [Declared(4, a3, Pos(45, 13), Initialized, [])], 0));
    Walk21(k, j, n, q, r, s, a1, a2, a3, c1, c2, c3, c4, d1, Tree(tr.scopes + [Scope(LoopCondition, Some(4))] + [Scope(EmbeddedBody, Some(17))], tr.events + [Declared(18, a2, Pos(42, 42), Initialized, [])] + [OutAssigned(18, [], [])] + [Referenced(17, a2, Pos(43, 16), false, false, [])] + [Declared(4, a3, Pos(45, 13), Initialized, [])], 0));
    assert WalkStmt(Exprs([Call([Argument([Use(a3, Pos(46, 34), false)])])]), Ctx(4, [], []), Tree(tr.scopes + [Scope(LoopCondition, Some(4))] + [Scope(EmbeddedBody, Some(17))], tr.events + [Declared(18, a2, Pos(42, 42), Initialized, [])] + [OutAssigned(18, [], [])] + [Referenced(17, a2, Pos(43, 16), false, false, [])] + [Declared(4, a3, Pos(45, 13), Initialized, [])], 0)) == Tree(tr.scopes + [Scope(LoopCondition, Some(4))] + [Scope(EmbeddedBody, Some(17))], tr.events + [Declared(18, a2, Pos(42, 42), Initialized, [])] + [OutAssigned(18, [], [])] + [Referenced(17, a2, Pos(43, 16), false, false, [])] + [Declared(4, a3, Pos(45, 13), Initialized, [])] + [Referenced(4, a3, Pos(46, 34), false, false, [])] + [OutAssigned(4, [], [])], 0);
    WalkStmtsCons(Do(Block([Exprs([Call([Argument([Declare(a3, Pos(49, 42), Initialized)])])])]), [Use(a2, Pos(51, 16), false)]), rest, Ctx(4, [], []), Tree(tr.scopes + [Scope(LoopCondition, Some(4))] + [Scope(EmbeddedBody, Some(17))], tr.events + [Declared(18, a2, Pos(42, 42), Initialized, [])] + [OutAssigned(18, [], [])] + [Referenced(17, a2, Pos(43, 16), false, false, [])] + [Declared(4, a3, Pos(45, 13), Initialized, [])] + [Referenced(4, a3, Pos(46, 34), false, false, [])] + [OutAssigned(4, [], [])], 0));
    Walk22(k, j, n, q, r, s, a1, a2, a3, c1, c2, c3, c4, d1, Tree(tr.scopes + [Scope(LoopCondition, Some(4))] + [Scope(EmbeddedBody, Some(17))], tr.events + [Declared(18, a2, Pos(42, 42), Initialized, [])] + [OutAssigned(18, [], [])] + [Referenced(17, a2, Pos(43, 16), false, false, [])] + [Declared(4, a3, Pos(45, 13), Initialized, [])] + [Referenced(4, a3, Pos(46, 34), false, false, [])] + [OutAssigned(4, [], [])], 0));
    assert WalkStmt(Do(Block([Exprs([Call([Argument([Declare(a3, Pos(49, 42), Initialized)])])])]), [Use(a2, Pos(51, 16), false)]), Ctx(4, [], []), Tree(tr.scopes + [Scope(LoopCondition, Some(4))] + [Scope(EmbeddedBody, Some(17))], tr.events + [Declared(18, a2, Pos(42, 42), Initialized, [])] + [OutAssigned(18, [], [])] + [Referenced(17, a2, Pos(43, 16), false, false, [])] + [Declared(4, a3, Pos(45, 13), Initialized, [])] + [Referenced(4, a3, Pos(46, 34), false, false, [])] + [OutAssigned(4, [], [])], 0)) == Tree(tr.scopes + [Scope(LoopCondition, Some(4))] + [Scope(EmbeddedBody, Some(17))] + [Scope(LoopCondition, Some(4))] + [Scope(BlockBody, Some(19))], tr.events + [Declared(18, a2, Pos(42, 42), Initialized, [])] + [OutAssigned(18, [], [])] + [Referenced(17, a2, Pos(43, 16), false, false, [])] + [Declared(4, a3, Pos(45, 13), Initialized, [])] + [Referenced(4, a3, Pos(46, 34), false, false, [])] + [OutAssigned(4, [], [])] + [Declared(20, a3, Pos(49, 42), Initialized, [])] + [OutAssigned(20, [], [])] + [Referenced(19, a2, Pos(51, 16), false, false, [])], 0);
  }

  lemma {:induction false} Walk25(k: string, j: string, n: string, q: string, r: string, s: string, a1: string, a2: string, a3: string, c1: string, c2: string, c3: string, c4: string, d1: string, tr: Tree)
    requires |tr.scopes| == 21 && tr.arms == 0
    ensures WalkStmt(Do(Exprs([Call([])]), [Declare(c1, Pos(55, 22), Initialized)] + ([Declare(c1, Pos(55, 42), Initialized)])), Ctx(4, [], []), tr) == Tree(tr.scopes + [Scope(LoopCondition, Some(4))] + [Scope(EmbeddedBody, Some(21))], tr.events + [OutAssigned(22, [], [])] + [Declared(21, c1, Pos(55, 22), Initialized, [])] + [Declared(21, c1, Pos(55, 42), Initialized, [])], 0)
  {
    WalkExprsOne(Call([]), Ctx(22, [], []), Tree(tr.scopes + [Scope(LoopCondition, Some(4))] + [Scope(EmbeddedBody, Some(21))], tr.events, 0));
    assert WalkExpr(Call([]), Ctx(22, [], []), Tree(tr.scopes + [Scope(LoopCondition, Some(4))] + [Scope(EmbeddedBody, Some(21))], tr.events, 0)) == Tree(tr.scopes + [Scope(LoopCondition, Some(4))] + [Scope(EmbeddedBody, Some(21))], tr.events + [OutAssigned(22, [], [])], 0);
    assert WalkExprs([Call([])], Ctx(22, [], []), Tree(tr.scopes + [Scope(LoopCondition, Some(4))] + [Scope(EmbeddedBody, Some(21))], tr.events, 0)) == Tree(tr.scopes + [Scope(LoopCondition, Some(4))] + [Scope(EmbeddedBody, Some(21))], tr.events + [OutAssigned(22, [], [])], 0);
    assert WalkStmt(Exprs([Call([])]), Ctx(22, [], []), Tree(tr.scopes + [Scope(LoopCondition, Some(4))] + [Scope(EmbeddedBody, Some(21))], tr.events, 0)) == Tree(tr.scopes + [Scope(LoopCondition, Some(4))] + [Scope(EmbeddedBody, Some(21))], tr.events + [OutAssigned(22, [], [])], 0);
    assert WalkEmbedded(Exprs([Call([])]), Ctx(21, [], []), Tree(tr.scopes + [Scope(LoopCondition, Some(4))], tr.events, 0)) == Tree(tr.scopes + [Scope(LoopCondition, Some(4))] + [Scope(EmbeddedBody, Some(21))], tr.events + [OutAssigned(22, [], [])], 0);
    WalkExprsCons(Declare(c1, Pos(55, 22), Initialized), [Declare(c1, Pos(55, 42), Initialized)], Ctx(21, [], []), Tree(tr.scopes + [Scope(LoopCondition, Some(4))] + [Scope(EmbeddedBody, Some(21))], tr.events + [OutAssigned(22, [], [])], 0));
    assert WalkExpr(Declare(c1, Pos(55, 22), Initialized), Ctx(21, [], []), Tree(tr.scopes + [Scope(LoopCondition, Some(4))] + [Scope(EmbeddedBody, Some(21))], tr.events + [OutAssigned(22, [], [])], 0)) == Tree(tr.scopes + [Scope(LoopCondition, Some(4))] + [Scope(EmbeddedBody, Some(21))], tr.events + [OutAssigned(22, [], [])] + [Declared(21, c1, Pos(55, 22), Initialized, [])], 0);
    WalkExprsOne(Declare(c1, Pos(55, 42), Initialized), Ctx(21, [], []), Tree(tr.scopes + [Scope(LoopCondition, Some(4))] + [Scope(EmbeddedBody, Some(21))], tr.events + [OutAssigned(22, [], [])] + [Declared(21, c1, Pos(55, 22), Initialized, [])], 0));
    assert WalkExpr(Declare(c1, Pos(55, 42), Initialized), Ctx(21, [], []), Tree(tr.scopes + [Scope(LoopCondition, Some(4))] + [Scope(EmbeddedBody, Some(21))], tr.events + [OutAssigned(22, [], [])] + [Declared(21, c1, Pos(55, 22), Initialized, [])], 0)) == Tree(tr.scopes + [Scope(LoopCondition, Some(4))] + [Scope(EmbeddedBody, Some(21))], tr.events + [OutAssigned(22, [], [])] + [Declared(21, c1, Pos(55, 22), Initialized, [])] + [Declared(21, c1, Pos(55, 42), Initialized, [])], 0);
    assert WalkExprs([Declare(c1, Pos(55, 22), Initialized)] + ([Declare(c1, Pos(55, 42), Initialized)]), Ctx(21, [], []), Tree(tr.scopes + [Scope(LoopCondition, Some(4))] + [Scope(EmbeddedBody, Some(21))], tr.events + [OutAssigned(22, [], [])], 0)) == Tree(tr.scopes + [Scope(LoopCondition, Some(4))] + [Scope(EmbeddedBody, Some(21))], tr.events + [OutAssigned(22, [], [])] + [Declared(21, c1, Pos(55, 22), Initialized, [])] + [Declared(21, c1, Pos(55, 42), Initialized, [])], 0);
    assert WalkStmt(Do(Exprs([Call([])]), [Declare(c1, Pos(55, 22), Initialized)] + ([Declare(c1, Pos(55, 42), Initialized)])), Ctx(4, [], []), tr) == Tree(tr.scopes + [Scope(LoopCondition, Some(4))] + [Scope(EmbeddedBody, Some(21))], tr.events + [OutAssigned(22, [], [])] + [Declared(21, c1, Pos(55, 22), Initialized, [])] + [Declared(21, c1, Pos(55, 42), Initialized, [])], 0);
  }

  lemma {:induction false} Walk26(k: string, j: string, n: string, q: string, r: string, s: string, a1: string, a2: string, a3: string, c1: string, c2: string, c3: string, c4: string, d1: string, tr: Tree)
    requires |tr.scopes| == 23 && tr.arms == 0
    ensures WalkStmt(Do(Exprs([Call([Argument([Declare(c2, Pos(58, 42), Initialized)])])]), [Declare(c2, Pos(59, 21), Initialized)]), Ctx(4, [], []), tr) == Tree(tr.scopes + [Scope(LoopCondition, Some(4))] + [Scope(EmbeddedBody, Some(23))], tr.events + [Declared(24, c2, Pos(58, 42), Initialized, [])] + [OutAssigned(24, [], [])] + [Declared(23, c2, Pos(59, 21), Initialized, [])], 0)
  {
    WalkExprsOne(Call([Argument([Declare(c2, Pos(58, 42), Initialized)])]), Ctx(24, [], []), Tree(tr.scopes + [Scope(LoopCondition, Some(4))] + [Scope(EmbeddedBody, Some(23))], tr.events, 0));
    assert OutNames([]) == [];
    WalkArgsOne(Argument([Declare(c2, Pos(58, 42), Initialized)]), [], Ctx(24, [], []), Tree(tr.scopes + [Scope(LoopCondition, Some(4))] + [Scope(EmbeddedBody, Some(23))], tr.events, 0));
    WalkExprsOne(Declare(c2, Pos(58, 42), Initialized), Ctx(24, [], []), Tree(tr.scopes + [Scope(LoopCondition, Some(4))] + [Scope(EmbeddedBody, Some(23))], tr.events, 0));
    assert WalkExpr(Declare(c2, Pos(58, 42), Initialized), Ctx(24, [], []), Tree(tr.scopes + [Scope(LoopCondition, Some(4))] + [Scope(EmbeddedBody, Some(23))], tr.events, 0)) == Tree(tr.scopes + [Scope(LoopCondition, Some(4))] + [Scope(EmbeddedBody, Some(23))], tr.events + [Declared(24, c2, Pos(58, 42), Initialized, [])], 0);
    assert WalkExprs([Declare(c2, Pos(58, 42), Initialized)], Ctx(24, [], []), Tree(tr.scopes + [Scope(LoopCondition, Some(4))] + [Scope(EmbeddedBody, Some(23))], tr.events, 0)) == Tree(tr.scopes + [Scope(LoopCondition, Some(4))] + [Scope(EmbeddedBody, Some(23))], tr.events + [Declared(24, c2, Pos(58, 42), Initialized, [])], 0);
    OutNamesOfOne(Declare(c2, Pos(58, 42), Initialized));
    OutNamesSnoc([], Argument([Declare(c2, Pos(58, 42), Initialized)]));
    assert WalkArgs([Argument([Declare(c2, Pos(58, 42), Initialized)])], [], Ctx(24, [], []), Tree(tr.scopes + [Scope(LoopCondition, Some(4))] + [Scope(EmbeddedBody, Some(23))], tr.events, 0)) == Tree(tr.scopes + [Scope(LoopCondition, Some(4))] + [Scope(EmbeddedBody, Some(23))], tr.events + [Declared(24, c2, Pos(58, 42), Initialized, [])], 0);
    assert OutNames([Argument([Declare(c2, Pos(58, 42), Initialized)])]) == [];
    assert WalkExpr(Call([Argument([Declare(c2, Pos(58, 42), Initialized)])]), Ctx(24, [], []), Tree(tr.scopes + [Scope(LoopCondition, Some(4))] + [Scope(EmbeddedBody, Some(23))], tr.events, 0)) == Tree(tr.scopes + [Scope(LoopCondition, Some(4))] + [Scope(EmbeddedBody, Some(23))], tr.events + [Declared(24, c2, Pos(58, 42), Initialized, [])] + [OutAssigned(24, [], [])], 0);
    assert WalkExprs([Call([Argument([Declare(c2, Pos(58, 42), Initialized)])])], Ctx(24, [], []), Tree(tr.scopes + [Scope(LoopCondition, Some(4))] + [Scope(EmbeddedBody, Some(23))], tr.events, 0)) == Tree(tr.scopes + [Scope(LoopCondition, Some(4))] + [Scope(EmbeddedBody, Some(23))], tr.events + [Declared(24, c2, Pos(58, 42), Initialized, [])] + [OutAssigned(24, [], [])], 0);
    assert WalkStmt(Exprs([Call([Argument([Declare(c2, Pos(58, 42), Initialized)])])]), Ctx(24, [], []), Tree(tr.scopes + [Scope(LoopCondition, Some(4))] + [Scope(EmbeddedBody, Some(23))], tr.events, 0)) == Tree(tr.scopes + [Scope(LoopCondition, Some(4))] + [Scope(EmbeddedBody, Some(23))], tr.events + [Declared(24, c2, Pos(58, 42), Initialized, [])] + [OutAssigned(24, [], [])], 0);
    assert WalkEmbedded(Exprs([Call([Argument([Declare(c2, Pos(58, 42), Initialized)])])]), Ctx(23, [], []), Tree(tr.scopes + [Scope(LoopCondition, Some(4))], tr.events, 0)) == Tree(tr.scopes + [Scope(LoopCondition, Some(4))] + [Scope(EmbeddedBody, Some(23))], tr.events + [Declared(24, c2, Pos(58, 42), Initialized, [])] + [OutAssigned(24, [], [])], 0);
    WalkExprsOne(Declare(c2, Pos(59, 21), Initialized), Ctx(23, [], []), Tree(tr.scopes + [Scope(LoopCondition, Some(4))] + [Scope(EmbeddedBody, Some(23))], tr.events + [Declared(24, c2, Pos(58, 42), Initialized, [])] + [OutAssigned(24, [], [])], 0));
    assert WalkExpr(Declare(c2, Pos(59, 21), Initialized), Ctx(23, [], []), Tree(tr.scopes + [Scope(LoopCondition, Some(4))] + [Scope(EmbeddedBody, Some(23))], tr.events + [Declared(24, c2, Pos(58, 42), Initialized, [])] + [OutAssigned(24, [], [])], 0)) == Tree(tr.scopes + [Scope(LoopCondition, Some(4))] + [Scope(EmbeddedBody, Some(23))], tr.events + [Declared(24, c2, Pos(58, 42), Initialized, [])] + [OutAssigned(24, [], [])] + [Declared(23, c2, Pos(59, 21), Initialized, [])], 0);
    assert WalkExprs([Declare(c2, Pos(59, 21), Initialized)], Ctx(23, [], []), Tree(tr.scopes + [Scope(LoopCondition, Some(4))] + [Scope(EmbeddedBody, Some(23))], tr.events + [Declared(24, c2, Pos(58, 42), Initialized, [])] + [OutAssigned(24, [], [])], 0)) == Tree(tr.scopes + [Scope(LoopCondition, Some(4))] + [Scope(EmbeddedBody, Some(23))], tr.events + [Declared(24, c2, Pos(58, 42), Initialized, [])] + [OutAssigned(24, [], [])] + [Declared(23, c2, Pos(59, 21), Initialized, [])], 0);
    assert WalkStmt(Do(Exprs([Call([Argument([Declare(c2, Pos(58, 42), Initialized)])])]), [Declare(c2, Pos(59, 21), Initialized)]), Ctx(4, [], []), tr) == Tree(tr.scopes + [Scope(LoopCondition, Some(4))] + [Scope(EmbeddedBody, Some(23))], tr.events + [Declared(24, c2, Pos(58, 42), Initialized, [])] + [OutAssigned(24, [], [])] + [Declared(23, c2, Pos(59, 21), Initialized, [])], 0);
  }

  lemma {:induction false} Walk28(k: string, j: string, n: string, q: string, r: string, s: string, a1: string, a2: string, a3: string, c1: string, c2: string, c3: string, c4: string, d1: string, tr: Tree)
    requires |tr.scopes| == 27 && tr.arms == 0
    ensures WalkStmt(Exprs([Call([Argument([Declare(c3, Pos(63, 42), Initialized)])])]), Ctx(26, [], []), tr) == Tree(tr.scopes, tr.events + [Declared(26, c3, Pos(63, 42), Initialized, [])] + [OutAssigned(26, [], [])], 0)
  {
    WalkExprsOne(Call([Argument([Declare(c3, Pos(63, 42), Initialized)])]), Ctx(26, [], []), tr);
    assert OutNames([]) == [];
    WalkArgsOne(Argument([Declare(c3, Pos(63, 42), Initialized)]), [], Ctx(26, [], []), tr);
    WalkExprsOne(Declare(c3, Pos(63, 42), Initialized), Ctx(26, [], []), tr);
    assert WalkExpr(Declare(c3, Pos(63, 42), Initialized), Ctx(26, [], []), tr) == Tree(tr.scopes, tr.events + [Declared(26, c3, Pos(63, 42), Initialized, [])], 0);
    assert WalkExprs([Declare(c3, Pos(63, 42), Initialized)], Ctx(26, [], []), tr) == Tree(tr.scopes, tr.events + [Declared(26, c3, Pos(63, 42), Initialized, [])], 0);
    OutNamesOfOne(Declare(c3, Pos(63, 42), Initialized));
    OutNamesSnoc([], Argument([Declare(c3, Pos(63, 42), Initialized)]));
    assert WalkArgs([Argument([Declare(c3, Pos(63, 42), Initialized)])], [], Ctx(26, [], []), tr) == Tree(tr.scopes, tr.events + [Declared(26, c3, Pos(63, 42), Initialized, [])], 0);
    assert OutNames([Argument([Declare(c3, Pos(63, 42), Initialized)])]) == [];
    assert WalkExpr(Call([Argument([Declare(c3, Pos(63, 42), Initialized)])]), Ctx(26, [], []), tr) == Tree(tr.scopes, tr.events + [Declared(26, c3, Pos(63, 42), Initialized, [])] + [OutAssigned(26, [], [])], 0);
    assert WalkExprs([Call([Argument([Declare(c3, Pos(63, 42), Initialized)])])], Ctx(26, [], []), tr) == Tree(tr.scopes, tr.events + [Declared(26, c3, Pos(63, 42), Initialized, [])] + [OutAssigned(26, [], [])], 0);
    assert WalkStmt(Exprs([Call([Argument([Declare(c3, Pos(63, 42), Initialized)])])]), Ctx(26, [], []), tr) == Tree(tr.scopes, tr.events + [Declared(26, c3, Pos(63, 42), Initialized, [])] + [OutAssigned(26, [], [])], 0);
  }

  lemma {:induction false} Walk27(k: string, j: string, n: string, q: string, r: string, s: string, a1: string, a2: string, a3: string, c1: string, c2: string, c3: string, c4: string, d1: string, tr: Tree)
    requires |tr.scopes| == 25 && tr.arms == 0
    ensures WalkStmt(Do(Block([Exprs([Call([Argument([Declare(c3, Pos(63, 42), Initialized)])])])]), [Declare(c3, Pos(65, 21), Initialized)]), Ctx(4, [], []), tr) == Tree(tr.scopes + [Scope(LoopCondition, Some(4))] + [Scope(BlockBody, Some(25))], tr.events + [Declared(26, c3, Pos(63, 42), Initialized, [])] + [OutAssigned(26, [], [])] + [Declared(25, c3, Pos(65, 21), Initialized, [])], 0)
  {
    WalkStmtsOne(Exprs([Call([Argument([Declare(c3, Pos(63, 42), Initialized)])])]), Ctx(26, [], []), Tree(tr.scopes + [Scope(LoopCondition, Some(4))] + [Scope(BlockBody, Some(25))], tr.events, 0));
    Walk28(k, j, n, q, r, s, a1, a2, a3, c1, c2, c3, c4, d1, Tree(tr.scopes + [Scope(LoopCondition, Some(4))] + [Scope(BlockBody, Some(25))], tr.events, 0));
    assert WalkStmt(Exprs([Call([Argument([Declare(c3, Pos(63, 42), Initialized)])])]), Ctx(26, [], []), Tree(tr.scopes + [Scope(LoopCondition, Some(4))] + [Scope(BlockBody, Some(25))], tr.events, 0)) == Tree(tr.scopes + [Scope(LoopCondition, Some(4))] + [Scope(BlockBody, Some(25))], tr.events + [Declared(26, c3, Pos(63, 42), Initialized, [])] + [OutAssigned(26, [], [])], 0);
    assert WalkEmbedded(Block([Exprs([Call([Argument([Declare(c3, Pos(63, 42), Initialized)])])])]), Ctx(25, [], []), Tree(tr.scopes + [Scope(LoopCondition, Some(4))], tr.events, 0)) == Tree(tr.scopes + [Scope(LoopCondition, Some(4))] + [Scope(BlockBody, Some(25))], tr.events + [Declared(26, c3, Pos(63, 42), Initialized, [])] + [OutAssigned(26, [], [])], 0);
    WalkExprsOne(Declare(c3, Pos(65, 21), Initialized), Ctx(25, [], []), Tree(tr.scopes + [Scope(LoopCondition, Some(4))] + [Scope(BlockBody, Some(25))], tr.events + [Declared(26, c3, Pos(63, 42), Initialized, [])] + [OutAssigned(26, [], [])], 0));
    assert WalkExpr(Declare(c3, Pos(65, 21), Initialized), Ctx(25, [], []), Tree(tr.scopes + [Scope(LoopCondition, Some(4))] + [Scope(BlockBody, Some(25))], tr.events + [Declared(26, c3, Pos(63, 42), Initialized, [])] + [OutAssigned(26, [], [])], 0)) == Tree(tr.scopes + [Scope(LoopCondition, Some(4))] + [Scope(BlockBody, Some(25))], tr.events + [Declared(26, c3, Pos(63, 42), Initialized, [])] + [OutAssigned(26, [], [])] + [Declared(25, c3, Pos(65, 21), Initialized, [])], 0);
    assert WalkExprs([Declare(c3, Pos(65, 21), Initialized)], Ctx(25, [], []), Tree(tr.scopes + [Scope(LoopCondition, Some(4))] + [Scope(BlockBody, Some(25))], tr.events + [Declared(26, c3, Pos(63, 42), Initialized, [])] + [OutAssigned(26, [], [])], 0)) == Tree(tr.scopes + [Scope(LoopCondition, Some(4))] + [Scope(BlockBody, Some(25))], tr.events + [Declared(26, c3, Pos(63, 42), Initialized, [])] + [OutAssigned(26, [], [])] + [Declared(25, c3, Pos(65, 21), Initialized, [])], 0);
    assert WalkStmt(Do(Block([Exprs([Call([Argument([Declare(c3, Pos(63, 42), Initialized)])])])]), [Declare(c3, Pos(65, 21), Initialized)]), Ctx(4, [], []), tr) == Tree(tr.scopes + [Scope(LoopCondition, Some(4))] + [Scope(BlockBody, Some(25))], tr.events + [Declared(26, c3, Pos(63, 42), Initialized, [])] + [OutAssigned(26, [], [])] + [Declared(25, c3, Pos(65, 21), Initialized, [])], 0);
  }

  lemma {:induction false} Walk30(k: string, j: string, n: string, q: string, r: string, s: string, a1: string, a2: string, a3: string, c1: string, c2: string, c3: string, c4: string, d1: string, tr: Tree)
    requires |tr.scopes| == 29 && tr.arms == 0
    ensures WalkStmt(Exprs([Declare(c4, Pos(69, 17), Initialized)]), Ctx(28, [], []), tr) == Tree(tr.scopes, tr.events + [Declared(28, c4, Pos(69, 17), Initialized, [])], 0)
  {
    WalkExprsOne(Declare(c4, Pos(69, 17), Initialized), Ctx(28, [], []), tr);
    assert WalkExpr(Declare(c4, Pos(69, 17), Initialized), Ctx(28, [], []), tr) == Tree(tr.scopes, tr.events + [Declared(28, c4, Pos(69, 17), Initialized, [])], 0);
    assert WalkExprs([Declare(c4, Pos(69, 17), Initialized)], Ctx(28, [], []), tr) == Tree(tr.scopes, tr.events + [Declared(28, c4, Pos(69, 17), Initialized, [])], 0);
    assert WalkStmt(Exprs([Declare(c4, Pos(69, 17), Initialized)]), Ctx(28, [], []), tr) == Tree(tr.scopes, tr.events + [Declared(28, c4, Pos(69, 17), Initialized, [])], 0);
  }

  lemma {:induction false} Walk31(k: string, j: string, n: string, q: string, r: string, s: string, a1: string, a2: string, a3: string, c1: string, c2: string, c3: string, c4: string, d1: string, tr: Tree)
    requires |tr.scopes| == 29 && tr.arms == 0
    ensures WalkStmt(Exprs([Call([Argument([Use(c4, Pos(70, 38), false)])])]), Ctx(28, [], []), tr) == Tree(tr.scopes, tr.events + [Referenced(28, c4, Pos(70, 38), false, false, [])] + [OutAssigned(28, [], [])], 0)
  {
    WalkExprsOne(Call([Argument([Use(c4, Pos(70, 38), false)])]), Ctx(28, [], []), tr);
    assert OutNames([]) == [];
    WalkArgsOne(Argument([Use(c4, Pos(70, 38), false)]), [], Ctx(28, [], []), tr);
    WalkExprsOne(Use(c4, Pos(70, 38), false), Ctx(28, [], []), tr);
    assert WalkExpr(Use(c4, Pos(70, 38), false), Ctx(28, [], []), tr) == Tree(tr.scopes, tr.events + [Referenced(28, c4, Pos(70, 38), false, false, [])], 0);
    assert WalkExprs([Use(c4, Pos(70, 38), false)], Ctx(28, [], []), tr) == Tree(tr.scopes, tr.events + [Referenced(28, c4, Pos(70, 38), false, false, [])], 0);
    OutNamesOfOne(Use(c4, Pos(70, 38), false));
    OutNamesSnoc([], Argument([Use(c4, Pos(70, 38), false)]));
    assert WalkArgs([Argument([Use(c4, Pos(70, 38), false)])], [], Ctx(28, [], []), tr) == Tree(tr.scopes, tr.events + [Referenced(28, c4, Pos(70, 38), false, false, [])], 0);
    assert OutNames([Argument([Use(c4, Pos(70, 38), false)])]) == [];
    assert WalkExpr(Call([Argument([Use(c4, Pos(70, 38), false)])]), Ctx(28, [], []), tr) == Tree(tr.scopes, tr.events + [Referenced(28, c4, Pos(70, 38), false, false, [])] + [OutAssigned(28, [], [])], 0);
    assert WalkExprs([Call([Argument([Use(c4, Pos(70, 38), false)])])], Ctx(28, [], []), tr) == Tree(tr.scopes, tr.events + [Referenced(28, c4, Pos(70, 38), false, false, [])] + [OutAssigned(28, [], [])], 0);
    assert WalkStmt(Exprs([Call([Argument([Use(c4, Pos(70, 38), false)])])]), Ctx(28, [], []), tr) == Tree(tr.scopes, tr.events + [Referenced(28, c4, Pos(70, 38), false, false, [])] + [OutAssigned(28, [], [])], 0);
  }

  lemma {:induction false} Walk29(k: string, j: string, n: string, q: string, r: string, s: string, a1: string, a2: string, a3: string, c1: string, c2: string, c3: string, c4: string, d1: string, tr: Tree)
    requires |tr.scopes| == 27 && tr.arms == 0
    ensures WalkStmt(Do(Block([Exprs([Declare(c4, Pos(69, 17), Initialized)])] + ([Exprs([Call([Argument([Use(c4, Pos(70, 38), false)])])])])), [Declare(c4, Pos(72, 21), Initialized)]), Ctx(4, [], []), tr) == Tree(tr.scopes + [Scope(LoopCondition, Some(4))] + [Scope(BlockBody, Some(27))], tr.events + [Declared(28, c4, Pos(69, 17), Initialized, [])] + [Referenced(28, c4, Pos(70, 38), false, false, [])] + [OutAssigned(28, [], [])] + [Declared(27, c4, Pos(72, 21), Initialized, [])], 0)
  {
    WalkStmtsCons(Exprs([Declare(c4, Pos(69, 17), Initialized)]), [Exprs([Call([Argument([Use(c4, Pos(70, 38), false)])])])], Ctx(28, [], []), Tree(tr.scopes + [Scope(LoopCondition, Some(4))] + [Scope(BlockBody, Some(27))], tr.events, 0));
    Walk30(k, j, n, q, r, s, a1, a2, a3, c1, c2, c3, c4, d1, Tree(tr.scopes + [Scope(LoopCondition, Some(4))] + [Scope(BlockBody, Some(27))], tr.events, 0));
    assert WalkStmt(Exprs([Declare(c4, Pos(69, 17), Initialized)]), Ctx(28, [], []), Tree(tr.scopes + [Scope(LoopCondition, Some(4))] + [Scope(BlockBody, Some(27))], tr.events, 0)) == Tree(tr.scopes + [Scope(LoopCondition, Some(4))] + [Scope(BlockBody, Some(27))], tr.events + [Declared(28, c4, Pos(69, 17), Initialized, [])], 0);
    WalkStmtsOne(Exprs([Call([Argument([Use(c4, Pos(70, 38), false)])])]), Ctx(28, [], []), Tree(tr.scopes + [Scope(LoopCondition, Some(4))] + [Scope(BlockBody, Some(27))], tr.events + [Declared(28, c4, Pos(69, 17), Initialized, [])], 0));
    Walk31(k, j, n, q, r, s, a1, a2, a3, c1, c2, c3, c4, d1, Tree(tr.scopes + [Scope(LoopCondition, Some(4))] + [Scope(BlockBody, Some(27))], tr.events + [Declared(28, c4, Pos(69, 17), Initialized, [])], 0));
    assert WalkStmt(Exprs([Call([Argument([Use(c4, Pos(70, 38), false)])])]), Ctx(28, [], []), Tree(tr.scopes + [Scope(LoopCondition, Some(4))] + [Scope(BlockBody, Some(27))], tr.events + [Declared(28, c4, Pos(69, 17), Initialized, [])], 0)) == Tree(tr.scopes + [Scope(LoopCondition, Some(4))] + [Scope(BlockBody, Some(27))], tr.events + [Declared(28, c4, Pos(69, 17), Initialized, [])] + [Referenced(28, c4, Pos(70, 38), false, false, [])] + [OutAssigned(28, [], [])], 0);
    assert WalkEmbedded(Block([Exprs([Declare(c4, Pos(69, 17), Initialized)])] + ([Exprs([Call([Argument([Use(c4, Pos(70, 38), false)])])])])), Ctx(27, [], []), Tree(tr.scopes + [Scope(LoopCondition, Some(4))], tr.events, 0)) == Tree(tr.scopes + [Scope(LoopCondition, Some(4))] + [Scope(BlockBody, Some(27))], tr.events + [Declared(28, c4, Pos(69, 17), Initialized, [])] + [Referenced(28, c4, Pos(70, 38), false, false, [])] + [OutAssigned(28, [], [])], 0);
    WalkExprsOne(Declare(c4, Pos(72, 21), Initialized), Ctx(27, [], []), Tree(tr.scopes + [Scope(LoopCondition, Some(4))] + [Scope(BlockBody, Some(27))], tr.events + [Declared(28, c4, Pos(69, 17), Initialized, [])] + [Referenced(28, c4, Pos(70, 38), false, false, [])] + [OutAssigned(28, [], [])], 0));
    assert WalkExpr(Declare(c4, Pos(72, 21), Initialized), Ctx(27, [], []), Tree(tr.scopes + [Scope(LoopCondition, Some(4))] + [Scope(BlockBody, Some(27))], tr.events + [Declared(28, c4, Pos(69, 17), Initialized, [])] + [Referenced(28, c4, Pos(70, 38), false, false, [])] + [OutAssigned(28, [], [])], 0)) == Tree(tr.scopes + [Scope(LoopCondition, Some(4))] + [Scope(BlockBody, Some(27))], tr.events + [Declared(28, c4, Pos(69, 17), Initialized, [])] + [Referenced(28, c4, Pos(70, 38), false, false, [])] + [OutAssigned(28, [], [])] + [Declared(27, c4, Pos(72, 21), Initialized, [])], 0);
    assert WalkExprs([Declare(c4, Pos(72, 21), Initialized)], Ctx(27, [], []), Tree(tr.scopes + [Scope(LoopCondition, Some(4))] + [Scope(BlockBody, Some(27))], tr.events + [Declared(28, c4, Pos(69, 17), Initialized, [])] + [Referenced(28, c4, Pos(70, 38), false, false, [])] + [OutAssigned(28, [], [])], 0)) == Tree(tr.scopes + [Scope(LoopCondition, Some(4))] + [Scope(BlockBody, Some(27))], tr.events + [Declared(28, c4, Pos(69, 17), Initialized, [])] + [Referenced(28, c4, Pos(70, 38), false, false, [])] + [OutAssigned(28, [], [])] + [Declared(27, c4, Pos(72, 21), Initialized, [])], 0);
    assert WalkStmt(Do(Block([Exprs([Declare(c4, Pos(69, 17), Initialized)])] + ([Exprs([Call([Argument([Use(c4, Pos(70, 38), false)])])])])), [Declare(c4, Pos(72, 21), Initialized)]), Ctx(4, [], []), tr) == Tree(tr.scopes + [Scope(LoopCondition, Some(4))] + [Scope(BlockBody, Some(27))], tr.events + [Declared(28, c4, Pos(69, 17), Initialized, [])] + [Referenced(28, c4, Pos(70, 38), false, false, [])] + [OutAssigned(28, [], [])] + [Declared(27, c4, Pos(72, 21), Initialized, [])], 0);
  }

  lemma {:induction false} Stmts24(k: string, j: string, n: string, q: string, r: string, s: string, a1: string, a2: string, a3: string, c1: string, c2: string, c3: string, c4: string, d1: string, tr: Tree, rest: seq<Stmt>)
    requires |tr.scopes| == 21 && tr.arms == 0
    ensures WalkStmts([Do(Exprs([Call([])]), [Declare(c1, Pos(55, 22), Initialized)] + ([Declare(c1, Pos(55, 42), Initialized)]))] + ([Do(Exprs([Call([Argument([Declare(c2, Pos(58, 42), Initialized)])])]), [Declare(c2, Pos(59, 21), Initialized)])] + ([Do(Block([Exprs([Call([Argument([Declare(c3, Pos(63, 42), Initialized)])])])]), [Declare(c3, Pos(65, 21), Initialized)])] + ([Do(Block([Exprs([Declare(c4, Pos(69, 17), Initialized)])] + ([Exprs([Call([Argument([Use(c4, Pos(70, 38), false)])])])])), [Declare(c4, Pos(72, 21), Initialized)])] + (rest)))), Ctx(4, [], []), tr) == WalkStmts(rest, Ctx(4, [], []), Tree(tr.scopes + [Scope(LoopCondition, Some(4))] + [Scope(EmbeddedBody, Some(21))] + [Scope(LoopCondition, Some(4))] + [Scope(EmbeddedBody, Some(23))] + [Scope(LoopCondition, Some(4))] + [Scope(BlockBody, Some(25))] + [Scope(LoopCondition, Some(4))] + [Scope(BlockBody, Some(27))], tr.events + [OutAssigned(22, [], [])] + [Declared(21, c1, Pos(55, 22), Initialized, [])] + [Declared(21, c1, Pos(55, 42), Initialized, [])] + [Declared(24, c2, Pos(58, 42), Initialized, [])] + [OutAssigned(24, [], [])] + [Declared(23, c2, Pos(59, 21), Initialized, [])] + [Declared(26, c3, Pos(63, 42), Initialized, [])] + [OutAssigned(26, [], [])] + [Declared(25, c3, Pos(65, 21), Initialized, [])] + [Declared(28, c4, Pos(69, 17), Initialized, [])] + [Referenced(28, c4, Pos(70, 38), false, false, [])] + [OutAssigned(28, [], [])] + [Declared(27, c4, Pos(72, 21), Initialized, [])], 0))
  {
    WalkStmtsCons(Do(Exprs([Call([])]), [Declare(c1, Pos(55, 22), Initialized)] + ([Declare(c1, Pos(55, 42), Initialized)])), [Do(Exprs([Call([Argument([Declare(c2, Pos(58, 42), Initialized)])])]), [Declare(c2, Pos(59, 21), Initialized)])] + ([Do(Block([Exprs([Call([Argument([Declare(c3, Pos(63, 42), Initialized)])])])]), [Declare(c3, Pos(65, 21), Initialized)])] + ([Do(Block([Exprs([Declare(c4, Pos(69, 17), Initialized)])] + ([Exprs([Call([Argument([Use(c4, Pos(70, 38), false)])])])])), [Declare(c4, Pos(72, 21), Initialized)])] + (rest))), Ctx(4, [], []), tr);
    Walk25(k, j, n, q, r, s, a1, a2, a3, c1, c2, c3, c4, d1, tr);
    assert WalkStmt(Do(Exprs([Call([])]), [Declare(c1, Pos(55, 22), Initialized)] + ([Declare(c1, Pos(55, 42), Initialized)])), Ctx(4, [], []), tr) == Tree(tr.scopes + [Scope(LoopCondition, Some(4))] + [Scope(EmbeddedBody, Some(21))], tr.events + [OutAssigned(22, [], [])] + [Declared(21, c1, Pos(55, 22), Initialized, [])] + [Declared(21, c1, Pos(55, 42), Initialized, [])], 0);
    WalkStmtsCons(Do(Exprs([Call([Argument([Declare(c2, Pos(58, 42), Initialized)])])]), [Declare(c2, Pos(59, 21), Initialized)]), [Do(Block([Exprs([Call([Argument([Declare(c3, Pos(63, 42), Initialized)])])])]), [Declare(c3, Pos(65, 21), Initialized)])] + ([Do(Block([Exprs([Declare(c4, Pos(69, 17), Initialized)])] + ([Exprs([Call([Argument([Use(c4, Pos(70, 38), false)])])])])), [Declare(c4, Pos(72, 21), Initialized)])] + (rest)), Ctx(4, [], []), Tree(tr.scopes + [Scope(LoopCondition, Some(4))] + [Scope(EmbeddedBody, Some(21))], tr.events + [OutAssigned(22, [], [])] + [Declared(21, c1, Pos(55, 22), Initialized, [])] + [Declared(21, c1, Pos(55, 42), Initialized, [])], 0));
    Walk26(k, j, n, q, r, s, a1, a2, a3, c1, c2, c3, c4, d1, Tree(tr.scopes + [Scope(LoopCondition, Some(4))] + [Scope(EmbeddedBody, Some(21))], tr.events + [OutAssigned(22, [], [])] + [Declared(21, c1, Pos(55, 22), Initialized, [])] + [Declared(21, c1, Pos(55, 42), Initialized, [])], 0));
    assert WalkStmt(Do(Exprs([Call([Argument([Declare(c2, Pos(58, 42), Initialized)])])]), [Declare(c2, Pos(59, 21), Initialized)]), Ctx(4, [], []), Tree(tr.scopes + [Scope(LoopCondition, Some(4))] + [Scope(EmbeddedBody, Some(21))], tr.events + [OutAssigned(22, [], [])] + [Declared(21, c1, Pos(55, 22), Initialized, [])] + [Declared(21, c1, Pos(55, 42), Initialized, [])], 0)) == Tree(tr.scopes + [Scope(LoopCondition, Some(4))] + [Scope(EmbeddedBody, Some(21))] + [Scope(LoopCondition, Some(4))] + [Scope(EmbeddedBody, Some(23))], tr.events + [OutAssigned(22, [], [])] + [Declared(21, c1, Pos(55, 22), Initialized, [])] + [Declared(21, c1, Pos(55, 42), Initialized, [])] + [Declared(24, c2, Pos(58, 42), Initialized, [])] + [OutAssigned(24, [], [])] + [Declared(23, c2, Pos(59, 21), Initialized, [])], 0);
    WalkStmtsCons(Do(Block([Exprs([Call([Argument([Declare(c3, Pos(63, 42), Initialized)])])])]), [Declare(c3, Pos(65, 21), Initialized)]), [Do(Block([Exprs([Declare(c4, Pos(69, 17), Initialized)])] + ([Exprs([Call([Argument([Use(c4, Pos(70, 38), false)])])])])), [Declare(c4, Pos(72, 21), Initialized)])] + (rest), Ctx(4, [], []), Tree(tr.scopes + [Scope(LoopCondition, Some(4))] + [Scope(EmbeddedBody, Some(21))] + [Scope(LoopCondition, Some(4))] + [Scope(EmbeddedBody, Some(23))], tr.events + [OutAssigned(22, [], [])] + [Declared(21, c1, Pos(55, 22), Initialized, [])] + [Declared(21, c1, Pos(55, 42), Initialized, [])] + [Declared(24, c2, Pos(58, 42), Initialized, [])] + [OutAssigned(24, [], [])] + [Declared(23, c2, Pos(59, 21), Initialized, [])], 0));
    Walk27(k, j, n, q, r, s, a1, a2, a3, c1, c2, c3, c4, d1, Tree(tr.scopes + [Scope(LoopCondition, Some(4))] + [Scope(EmbeddedBody, Some(21))] + [Scope(LoopCondition, Some(4))] + [Scope(EmbeddedBody, Some(23))], tr.events + [OutAssigned(22, [], [])] + [Declared(21, c1, Pos(55, 22), Initialized, [])] + [Declared(21, c1, Pos(55, 42), Initialized, [])] + [Declared(24, c2, Pos(58, 42), Initialized, [])] + [OutAssigned(24, [], [])] + [Declared(23, c2, Pos(59, 21), Initialized, [])], 0));
    assert WalkStmt(Do(Block([Exprs([Call([Argument([Declare(c3, Pos(63, 42), Initialized)])])])]), [Declare(c3, Pos(65, 21), Initialized)]), Ctx(4, [], []), Tree(tr.scopes + [Scope(LoopCondition, Some(4))] + [Scope(EmbeddedBody, Some(21))] + [Scope(LoopCondition, Some(4))] + [Scope(EmbeddedBody, Some(23))], tr.events + [OutAssigned(22, [], [])] + [Declared(21, c1, Pos(55, 22), Initialized, [])] + [Declared(21, c1, Pos(55, 42), Initialized, [])] + [Declared(24, c2, Pos(58, 42), Initialized, [])] + [OutAssigned(24, [], [])] + [Declared(23, c2, Pos(59, 21), Initialized, [])], 0)) == Tree(tr.scopes + [Scope(LoopCondition, Some(4))] + [Scope(EmbeddedBody, Some(21))] + [Scope(LoopCondition, Some(4))] + [Scope(EmbeddedBody, Some(23))] + [Scope(LoopCondition, Some(4))] + [Scope(BlockBody, Some(25))], tr.events + [OutAssigned(22, [], [])] + [Declared(21, c1, Pos(55, 22), Initialized, [])] + [Declared(21, c1, Pos(55, 42), Initialized, [])] + [Declared(24, c2, Pos(58, 42), Initialized, [])] + [OutAssigned(24, [], [])] + [Declared(23, c2, Pos(59, 21), Initialized, [])] + [Declared(26, c3, Pos(63, 42), Initialized, [])] + [OutAssigned(26, [], [])] + [Declared(25, c3, Pos(65, 21), Initialized, [])], 0);
    WalkStmtsCons(Do(Block([Exprs([Declare(c4, Pos(69, 17), Initialized)])] + ([Exprs([Call([Argument([Use(c4, Pos(70, 38), false)])])])])), [Declare(c4, Pos(72, 21), Initialized)]), rest, Ctx(4, [], []), Tree(tr.scopes + [Scope(LoopCondition, Some(4))] + [Scope(EmbeddedBody, Some(21))] + [Scope(LoopCondition, Some(4))] + [Scope(EmbeddedBody, Some(23))] + [Scope(LoopCondition, Some(4))] + [Scope(BlockBody, Some(25))], tr.events + [OutAssigned(22, [], [])] + [Declared(21, c1, Pos(55, 22), Initialized, [])] + [Declared(21, c1, Pos(55, 42), Initialized, [])] + [Declared(24, c2, Pos(58, 42), Initialized, [])] + [OutAssigned(24, [], [])] + [Declared(23, c2, Pos(59, 21), Initialized, [])] + [Declared(26, c3, Pos(63, 42), Initialized, [])] + [OutAssigned(26, [], [])] + [Declared(25, c3, Pos(65, 21), Initialized, [])], 0));
    Walk29(k, j, n, q, r, s, a1, a2, a3, c1, c2, c3, c4, d1, Tree(tr.scopes + [Scope(LoopCondition, Some(4))] + [Scope(EmbeddedBody, Some(21))] + [Scope(LoopCondition, Some(4))] + [Scope(EmbeddedBody, Some(23))] + [Scope(LoopCondition, Some(4))] + [Scope(BlockBody, Some(25))], tr.events + [OutAssigned(22, [], [])] + [Declared(21, c1, Pos(55, 22), Initialized, [])] + [Declared(21, c1, Pos(55, 42), Initialized, [])] + [Declared(24, c2, Pos(58, 42), Initialized, [])] + [OutAssigned(24, [], [])] + [Declared(23, c2, Pos(59, 21), Initialized, [])] + [Declared(26, c3, Pos(63, 42), Initialized, [])] + [OutAssigned(26, [], [])] + [Declared(25, c3, Pos(65, 21), Initialized, [])], 0));
    assert WalkStmt(Do(Block([Exprs([Declare(c4, Pos(69, 17), Initialized)])] + ([Exprs([Call([Argument([Use(c4, Pos(70, 38), false)])])])])), [Declare(c4, Pos(72, 21), Initialized)]), Ctx(4, [], []), Tree(tr.scopes + [Scope(LoopCondition, Some(4))] + [Scope(EmbeddedBody, Some(21))] + [Scope(LoopCondition, Some(4))] + [Scope(EmbeddedBody, Some(23))] + [Scope(LoopCondition, Some(4))] + [Scope(BlockBody, Some(25))], tr.events + [OutAssigned(22, [], [])] + [Declared(21, c1, Pos(55, 22), Initialized, [])] + [Declared(21, c1, Pos(55, 42), Initialized, [])] + [Declared(24, c2, Pos(58, 42), Initialized, [])] + [OutAssigned(24, [], [])] + [Declared(23, c2, Pos(59, 21), Initialized, [])] + [Declared(26, c3, Pos(63, 42), Initialized, [])] + [OutAssigned(26, [], [])] + [Declared(25, c3, Pos(65, 21), Initialized, [])], 0)) == Tree(tr.scopes + [Scope(LoopCondition, Some(4))] + [Scope(EmbeddedBody, Some(21))] + [Scope(LoopCondition, Some(4))] + [Scope(EmbeddedBody, Some(23))] + [Scope(LoopCondition, Some(4))] + [Scope(BlockBody, Some(25))] + [Scope(LoopCondition, Some(4))] + [Scope(BlockBody, Some(27))], tr.events + [OutAssigned(22, [], [])] + [Declared(21, c1, Pos(55, 22), Initialized, [])] + [Declared(21, c1, Pos(55, 42), Initialized, [])] + [Declared(24, c2, Pos(58, 42), Initialized, [])] + [OutAssigned(24, [], [])] + [Declared(23, c2, Pos(59, 21), Initialized, [])] + [Declared(26, c3, Pos(63, 42), Initialized, [])] + [OutAssigned(26, [], [])] + [Declared(25, c3, Pos(65, 21), Initialized, [])] + [Declared(28, c4, Pos(69, 17), Initialized, [])] + [Referenced(28, c4, Pos(70, 38), false, false, [])] + [OutAssigned(28, [], [])] + [Declared(27, c4, Pos(72, 21), Initialized, [])], 0);
  }

  lemma {:induction false} Walk33(k: string, j: string, n: string, q: string, r: string, s: string, a1: string, a2: string, a3: string, c1: string, c2: string, c3: string, c4: string, d1: string, tr: Tree)
    requires |tr.scopes| == 29 && tr.arms == 0
    ensures WalkStmt(Do(Exprs([Call([Argument([Declare(d1, Pos(75, 43), Initialized)] + ([Declare(d1, Pos(75, 58), Initialized)]))])]), [Use(a2, Pos(76, 16), false)]), Ctx(4, [], []), tr) == Tree(tr.scopes + [Scope(LoopCondition, Some(4))] + [Scope(EmbeddedBody, Some(29))], tr.events + [Declared(30, d1, Pos(75, 43), Initialized, [])] + [Declared(30, d1, Pos(75, 58), Initialized, [])] + [OutAssigned(30, [], [])] + [Referenced(29, a2, Pos(76, 16), false, false, [])], 0)
  {
    WalkExprsOne(Call([Argument([Declare(d1, Pos(75, 43), Initialized)] + ([Declare(d1, Pos(75, 58), Initialized)]))]), Ctx(30, [], []), Tree(tr.scopes + [Scope(LoopCondition, Some(4))] + [Scope(EmbeddedBody, Some(29))], tr.events, 0));
    assert OutNames([]) == [];
    WalkArgsOne(Argument([Declare(d1, Pos(75, 43), Initialized)] + ([Declare(d1, Pos(75, 58), Initialized)])), [], Ctx(30, [], []), Tree(tr.scopes + [Scope(LoopCondition, Some(4))] + [Scope(EmbeddedBody, Some(29))], tr.events, 0));
    WalkExprsCons(Declare(d1, Pos(75, 43), Initialized), [Declare(d1, Pos(75, 58), Initialized)], Ctx(30, [], []), Tree(tr.scopes + [Scope(LoopCondition, Some(4))] + [Scope(EmbeddedBody, Some(29))], tr.events, 0));
    assert WalkExpr(Declare(d1, Pos(75, 43), Initialized), Ctx(30, [], []), Tree(tr.scopes + [Scope(LoopCondition, Some(4))] + [Scope(EmbeddedBody, Some(29))], tr.events, 0)) == Tree(tr.scopes + [Scope(LoopCondition, Some(4))] + [Scope(EmbeddedBody, Some(29))], tr.events + [Declared(30, d1, Pos(75, 43), Initialized, [])], 0);
    WalkExprsOne(Declare(d1, Pos(75, 58), Initialized), Ctx(30, [], []), Tree(tr.scopes + [Scope(LoopCondition, Some(4))] + [Scope(EmbeddedBody, Some(29))], tr.events + [Declared(30, d1, Pos(75, 43), Initialized, [])], 0));
    assert WalkExpr(Declare(d1, Pos(75, 58), Initialized), Ctx(30, [], []), Tree(tr.scopes + [Scope(LoopCondition, Some(4))] + [Scope(EmbeddedBody, Some(29))], tr.events + [Declared(30, d1, Pos(75, 43), Initialized, [])], 0)) == Tree(tr.scopes + [Scope(LoopCondition, Some(4))] + [Scope(EmbeddedBody, Some(29))], tr.events + [Declared(30, d1, Pos(75, 43), Initialized, [])] + [Declared(30, d1, Pos(75, 58), Initialized, [])], 0);
    assert WalkExprs([Declare(d1, Pos(75, 43), Initialized)] + ([Declare(d1, Pos(75, 58), Initialized)]), Ctx(30, [], []), Tree(tr.scopes + [Scope(LoopCondition, Some(4))] + [Scope(EmbeddedBody, Some(29))], tr.events, 0)) == Tree(tr.scopes + [Scope(LoopCondition, Some(4))] + [Scope(EmbeddedBody, Some(29))], tr.events + [Declared(30, d1, Pos(75, 43), Initialized, [])] + [Declared(30, d1, Pos(75, 58), Initialized, [])], 0);
    OutNamesOfCons(Declare(d1, Pos(75, 43), Initialized), [Declare(d1, Pos(75, 58), Initialized)]);
    OutNamesOfOne(Declare(d1, Pos(75, 58), Initialized));
    OutNamesSnoc([], Argument([Declare(d1, Pos(75, 43), Initialized)] + ([Declare(d1, Pos(75, 58), Initialized)])));
    assert WalkArgs([Argument([Declare(d1, Pos(75, 43), Initialized)] + ([Declare(d1, Pos(75, 58), Initialized)]))], [], Ctx(30, [], []), Tree(tr.scopes + [Scope(LoopCondition, Some(4))] + [Scope(EmbeddedBody, Some(29))], tr.events, 0)) == Tree(tr.scopes + [Scope(LoopCondition, Some(4))] + [Scope(EmbeddedBody, Some(29))], tr.events + [Declared(30, d1, Pos(75, 43), Initialized, [])] + [Declared(30, d1, Pos(75, 58), Initialized, [])], 0);
    assert OutNames([Argument([Declare(d1, Pos(75, 43), Initialized)] + ([Declare(d1, Pos(75, 58), Initialized)]))]) == [];
    assert WalkExpr(Call([Argument([Declare(d1, Pos(75, 43), Initialized)] + ([Declare(d1, Pos(75, 58), Initialized)]))]), Ctx(30, [], []), Tree(tr.scopes + [Scope(LoopCondition, Some(4))] + [Scope(EmbeddedBody, Some(29))], tr.events, 0)) == Tree(tr.scopes + [Scope(LoopCondition, Some(4))] + [Scope(EmbeddedBody, Some(29))], tr.events + [Declared(30, d1, Pos(75, 43), Initialized, [])] + [Declared(30, d1, Pos(75, 58), Initialized, [])] + [OutAssigned(30, [], [])], 0);
    assert WalkExprs([Call([Argument([Declare(d1, Pos(75, 43), Initialized)] + ([Declare(d1, Pos(75, 58), Initialized)]))])], Ctx(30, [], []), Tree(tr.scopes + [Scope(LoopCondition, Some(4))] + [Scope(EmbeddedBody, Some(29))], tr.events, 0)) == Tree(tr.scopes + [Scope(LoopCondition, Some(4))] + [Scope(EmbeddedBody, Some(29))], tr.events + [Declared(30, d1, Pos(75, 43), Initialized, [])] + [Declared(30, d1, Pos(75, 58), Initialized, [])] + [OutAssigned(30, [], [])], 0);
    assert WalkStmt(Exprs([Call([Argument([Declare(d1, Pos(75, 43), Initialized)] + ([Declare(d1, Pos(75, 58), Initialized)]))])]), Ctx(30, [], []), Tree(tr.scopes + [Scope(LoopCondition, Some(4))] + [Scope(EmbeddedBody, Some(29))], tr.events, 0)) == Tree(tr.scopes + [Scope(LoopCondition, Some(4))] + [Scope(EmbeddedBody, Some(29))], tr.events + [Declared(30, d1, Pos(75, 43), Initialized, [])] + [Declared(30, d1, Pos(75, 58), Initialized, [])] + [OutAssigned(30, [], [])], 0);
    assert WalkEmbedded(Exprs([Call([Argument([Declare(d1, Pos(75, 43), Initialized)] + ([Declare(d1, Pos(75, 58), Initialized)]))])]), Ctx(29, [], []), Tree(tr.scopes + [Scope(LoopCondition, Some(4))], tr.events, 0)) == Tree(tr.scopes + [Scope(LoopCondition, Some(4))] + [Scope(EmbeddedBody, Some(29))], tr.events + [Declared(30, d1, Pos(75, 43), Initialized, [])] + [Declared(30, d1, Pos(75, 58), Initialized, [])] + [OutAssigned(30, [], [])], 0);
    WalkExprsOne(Use(a2, Pos(76, 16), false), Ctx(29, [], []), Tree(tr.scopes + [Scope(LoopCondition, Some(4))] + [Scope(EmbeddedBody, Some(29))], tr.events + [Declared(30, d1, Pos(75, 43), Initialized, [])] + [Declared(30, d1, Pos(75, 58), Initialized, [])] + [OutAssigned(30, [], [])], 0));
    assert WalkExpr(Use(a2, Pos(76, 16), false), Ctx(29, [], []), Tree(tr.scopes + [Scope(LoopCondition, Some(4))] + [Scope(EmbeddedBody, Some(29))], tr.events + [Declared(30, d1, Pos(75, 43), Initialized, [])] + [Declared(30, d1, Pos(75, 58), Initialized, [])] + [OutAssigned(30, [], [])], 0)) == Tree(tr.scopes + [Scope(LoopCondition, Some(4))] + [Scope(EmbeddedBody, Some(29))], tr.events + [Declared(30, d1, Pos(75, 43), Initialized, [])] + [Declared(30, d1, Pos(75, 58), Initialized, [])] + [OutAssigned(30, [], [])] + [Referenced(29, a2, Pos(76, 16), false, false, [])], 0);
    assert WalkExprs([Use(a2, Pos(76, 16), false)], Ctx(29, [], []), Tree(tr.scopes + [Scope(LoopCondition, Some(4))] + [Scope(EmbeddedBody, Some(29))], tr.events + [Declared(30, d1, Pos(75, 43), Initialized, [])] + [Declared(30, d1, Pos(75, 58), Initialized, [])] + [OutAssigned(30, [], [])], 0)) == Tree(tr.scopes + [Scope(LoopCondition, Some(4))] + [Scope(EmbeddedBody, Some(29))], tr.events + [Declared(30, d1, Pos(75, 43), Initialized, [])] + [Declared(30, d1, Pos(75, 58), Initialized, [])] + [OutAssigned(30, [], [])] + [Referenced(29, a2, Pos(76, 16), false, false, [])], 0);
    assert WalkStmt(Do(Exprs([Call([Argument([Declare(d1, Pos(75, 43), Initialized)] + ([Declare(d1, Pos(75, 58), Initialized)]))])]), [Use(a2, Pos(76, 16), false)]), Ctx(4, [], []), tr) == Tree(tr.scopes + [Scope(LoopCondition, Some(4))] + [Scope(EmbeddedBody, Some(29))], tr.events + [Declared(30, d1, Pos(75, 43), Initialized, [])] + [Declared(30, d1, Pos(75, 58), Initialized, [])] + [OutAssigned(30, [], [])] + [Referenced(29, a2, Pos(76, 16), false, false, [])], 0);
  }

  lemma {:induction false} Stmts32(k: string, j: string, n: string, q: string, r: string, s: string, a1: string, a2: string, a3: string, c1: string, c2: string, c3: string, c4: string, d1: string, tr: Tree)
    requires |tr.scopes| == 29 && tr.arms == 0
    ensures WalkStmts([Do(Exprs([Call([Argument([Declare(d1, Pos(75, 43), Initialized)] + ([Declare(d1, Pos(75, 58), Initialized)]))])]), [Use(a2, Pos(76, 16), false)])], Ctx(4, [], []), tr) == Tree(tr.scopes + [Scope(LoopCondition, Some(4))] + [Scope(EmbeddedBody, Some(29))], tr.events + [Declared(30, d1, Pos(75, 43), Initialized, [])] + [Declared(30, d1, Pos(75, 58), Initialized, [])] + [OutAssigned(30, [], [])] + [Referenced(29, a2, Pos(76, 16), false, false, [])], 0)
  {
    WalkStmtsOne(Do(Exprs([Call([Argument([Declare(d1, Pos(75, 43), Initialized)] + ([Declare(d1, Pos(75, 58), Initialized)]))])]), [Use(a2, Pos(76, 16), false)]), Ctx(4, [], []), tr);
    Walk33(k, j, n, q, r, s, a1, a2, a3, c1, c2, c3, c4, d1, tr);
    assert WalkStmt(Do(Exprs([Call([Argument([Declare(d1, Pos(75, 43), Initialized)] + ([Declare(d1, Pos(75, 58), Initialized)]))])]), [Use(a2, Pos(76, 16), false)]), Ctx(4, [], []), tr) == Tree(tr.scopes + [Scope(LoopCondition, Some(4))] + [Scope(EmbeddedBody, Some(29))], tr.events + [Declared(30, d1, Pos(75, 43), Initialized, [])] + [Declared(30, d1, Pos(75, 58), Initialized, [])] + [OutAssigned(30, [], [])] + [Referenced(29, a2, Pos(76, 16), false, false, [])], 0);
  }

  lemma {:induction false} Join0(k: string, j: string, n: string, q: string, r: string, s: string, a1: string, a2: string, a3: string, c1: string, c2: string, c3: string, c4: string, d1: string, evs: seq<Event>)
    ensures evs + Chunk0(k, j, n, q, r, s, a1, a2, a3, c1, c2, c3, c4, d1) == evs + [Declared(6, k, Pos(7, 43), Initialized, [])] + [Referenced(6, k, Pos(7, 52), false, false, [])] + [OutAssigned(6, [], [])] + [Declared(5, j, Pos(8, 21), Initialized, [])] + [Referenced(5, j, Pos(8, 31), false, false, [])] + [Referenced(4, j, Pos(10, 9), true, false, [])] + [Referenced(4, k, Pos(11, 9), true, false, [])] + [Referenced(8, n, Pos(14, 38), false, false, [])]
  {
  }

  lemma {:induction false} Join1(k: string, j: string, n: string, q: string, r: string, s: string, a1: string, a2: string, a3: string, c1: string, c2: string, c3: string, c4: string, d1: string, evs: seq<Event>)
    ensures evs + Chunk1(k, j, n, q, r, s, a1, a2, a3, c1, c2, c3, c4, d1) == evs + [OutAssigned(8, [], [])] + [Declared(7, n, Pos(15, 21), Initialized, [])] + [Referenced(10, q, Pos(19, 38), false, false, [])] + [OutAssigned(10, [], [])] + [Declared(9, q, Pos(21, 21), Initialized, [])] + [Declared(12, r, Pos(25, 42), Initialized, [])] + [OutAssigned(12, [], [])] + [Referenced(11, r, Pos(27, 16), false, false, [])]
  {
  }

  lemma {:induction false} Join2(k: string, j: string, n: string, q: string, r: string, s: string, a1: string, a2: string, a3: string, c1: string, c2: string, c3: string, c4: string, d1: string, evs: seq<Event>)
    ensures evs + Chunk2(k, j, n, q, r, s, a1, a2, a3, c1, c2, c3, c4, d1) == evs + [Declared(14, s, Pos(30, 42), Initialized, [])] + [OutAssigned(14, [], [])] + [Referenced(13, s, Pos(31, 15), false, false, [])] + [Declared(4, a1, Pos(33, 13), Initialized, [])] + [Referenced(4, a1, Pos(34, 34), false, false, [])] + [OutAssigned(4, [], [])] + [OutAssigned(16, [], [])] + [Declared(15, a1, Pos(37, 21), Initialized, [])]
  {
  }

  lemma {:induction false} Join3(k: string, j: string, n: string, q: string, r: string, s: string, a1: string, a2: string, a3: string, c1: string, c2: string, c3: string, c4: string, d1: string, evs: seq<Event>)
    ensures evs + Chunk3(k, j, n, q, r, s, a1, a2, a3, c1, c2, c3, c4, d1) == evs + [Declared(4, a2, Pos(39, 13), Initialized, [])] + [Referenced(4, a2, Pos(40, 34), false, false, [])] + [OutAssigned(4, [], [])] + [Declared(18, a2, Pos(42, 42), Initialized, [])] + [OutAssigned(18, [], [])] + [Referenced(17, a2, Pos(43, 16), false, false, [])] + [Declared(4, a3, Pos(45, 13), Initialized, [])] + [Referenced(4, a3, Pos(46, 34), false, false, [])]
  {
  }

  lemma {:induction false} Join4(k: string, j: string, n: string, q: string, r: string, s: string, a1: string, a2: string, a3: string, c1: string, c2: string, c3: string, c4: string, d1: string, evs: seq<Event>)
    ensures evs + Chunk4(k, j, n, q, r, s, a1, a2, a3, c1, c2, c3, c4, d1) == evs + [OutAssigned(4, [], [])] + [Declared(20, a3, Pos(49, 42), Initialized, [])] + [OutAssigned(20, [], [])] + [Referenced(19, a2, Pos(51, 16), false, false, [])] + [OutAssigned(22, [], [])] + [Declared(21, c1, Pos(55, 22), Initialized, [])] + [Declared(21, c1, Pos(55, 42), Initialized, [])] + [Declared(24, c2, Pos(58, 42), Initialized, [])]
  {
  }

  lemma {:induction false} Join5(k: string, j: string, n: string, q: string, r: string, s: string, a1: string, a2: string, a3: string, c1: string, c2: string, c3: string, c4: string, d1: string, evs: seq<Event>)
    ensures evs + Chunk5(k, j, n, q, r, s, a1, a2, a3, c1, c2, c3, c4, d1) == evs + [OutAssigned(24, [], [])] + [Declared(23, c2, Pos(59, 21), Initialized, [])] + [Declared(26, c3, Pos(63, 42), Initialized, [])] + [OutAssigned(26, [], [])] + [Declared(25, c3, Pos(65, 21), Initialized, [])] + [Declared(28, c4, Pos(69, 17), Initialized, [])] + [Referenced(28, c4, Pos(70, 38), false, false, [])] + [OutAssigned(28, [], [])]
  {
  }

  lemma {:induction false} Join6(k: string, j: string, n: string, q: string, r: string, s: string, a1: string, a2: string, a3: string, c1: string, c2: string, c3: string, c4: string, d1: string, evs: seq<Event>)
    ensures evs + Chunk6(k, j, n, q, r, s, a1, a2, a3, c1, c2, c3, c4, d1) == evs + [Declared(27, c4, Pos(72, 21), Initialized, [])] + [Declared(30, d1, Pos(75, 43), Initialized, [])] + [Declared(30, d1, Pos(75, 58), Initialized, [])] + [OutAssigned(30, [], [])] + [Referenced(29, a2, Pos(76, 16), false, false, [])]
  {
  }

  /** The trace, event by event. */
  lemma {:induction false} Flat(k: string, j: string, n: string, q: string, r: string, s: string, a1: string, a2: string, a3: string, c1: string, c2: string, c3: string, c4: string, d1: string)
    ensures [] + [Declared(6, k, Pos(7, 43), Initialized, [])] + [Referenced(6, k, Pos(7, 52), false, false, [])] + [OutAssigned(6, [], [])] + [Declared(5, j, Pos(8, 21), Initialized, [])] + [Referenced(5, j, Pos(8, 31), false, false, [])] + [Referenced(4, j, Pos(10, 9), true, false, [])] + [Referenced(4, k, Pos(11, 9), true, false, [])] + [Referenced(8, n, Pos(14, 38), false, false, [])] + [OutAssigned(8, [], [])] + [Declared(7, n, Pos(15, 21), Initialized, [])] + [Referenced(10, q, Pos(19, 38), false, false, [])] + [OutAssigned(10, [], [])] + [Declared(9, q, Pos(21, 21), Initialized, [])] + [Declared(12, r, Pos(25, 42), Initialized, [])] + [OutAssigned(12, [], [])] + [Referenced(11, r, Pos(27, 16), false, false, [])] + [Declared(14, s, Pos(30, 42), Initialized, [])] + [OutAssigned(14, [], [])] + [Referenced(13, s, Pos(31, 15), false, false, [])] + [Declared(4, a1, Pos(33, 13), Initialized, [])] + [Referenced(4, a1, Pos(34, 34), false, false, [])] + [OutAssigned(4, [], [])] + [OutAssigned(16, [], [])] + [Declared(15, a1, Pos(37, 21), Initialized, [])] + [Declared(4, a2, Pos(39, 13), Initialized, [])] + [Referenced(4, a2, Pos(40, 34), false, false, [])] + [OutAssigned(4, [], [])] + [Declared(18, a2, Pos(42, 42), Initialized, [])] + [OutAssigned(18, [], [])] + [Referenced(17, a2, Pos(43, 16), false, false, [])] + [Declared(4, a3, Pos(45, 13), Initialized, [])] + [Referenced(4, a3, Pos(46, 34), false, false, [])] + [OutAssigned(4, [], [])] + [Declared(20, a3, Pos(49, 42), Initialized, [])] + [OutAssigned(20, [], [])] + [Referenced(19, a2, Pos(51, 16), false, false, [])] + [OutAssigned(22, [], [])] + [Declared(21, c1, Pos(55, 22), Initialized, [])] + [Declared(21, c1, Pos(55, 42), Initialized, [])] + [Declared(24, c2, Pos(58, 42), Initialized, [])] + [OutAssigned(24, [], [])] + [Declared(23, c2, Pos(59, 21), Initialized, [])] + [Declared(26, c3, Pos(63, 42), Initialized, [])] + [OutAssigned(26, [], [])] + [Declared(25, c3, Pos(65, 21), Initialized, [])] + [Declared(28, c4, Pos(69, 17), Initialized, [])] + [Referenced(28, c4, Pos(70, 38), false, false, [])] + [OutAssigned(28, [], [])] + [Declared(27, c4, Pos(72, 21), Initialized, [])] + [Declared(30, d1, Pos(75, 43), Initialized, [])] + [Declared(30, d1, Pos(75, 58), Initialized, [])] + [OutAssigned(30, [], [])] + [Referenced(29, a2, Pos(76, 16), false, false, [])] == Trace(k, j, n, q, r, s, a1, a2, a3, c1, c2, c3, c4, d1)
  {
    Join0(k, j, n, q, r, s, a1, a2, a3, c1, c2, c3, c4, d1, []);
    Join1(k, j, n, q, r, s, a1, a2, a3, c1, c2, c3, c4, d1, [] + Chunk0(k, j, n, q, r, s, a1, a2, a3, c1, c2, c3, c4, d1));
    Join2(k, j, n, q, r, s, a1, a2, a3, c1, c2, c3, c4, d1, [] + Chunk0(k, j, n, q, r, s, a1, a2, a3, c1, c2, c3, c4, d1) + Chunk1(k, j, n, q, r, s, a1, a2, a3, c1, c2, c3, c4, d1));
    Join3(k, j, n, q, r, s, a1, a2, a3, c1, c2, c3, c4, d1, [] + Chunk0(k, j, n, q, r, s, a1, a2, a3, c1, c2, c3, c4, d1) + Chunk1(k, j, n, q, r, s, a1, a2, a3, c1, c2, c3, c4, d1) + Chunk2(k, j, n, q, r, s, a1, a2, a3, c1, c2, c3, c4, d1));
    Join4(k, j, n, q, r, s, a1, a2, a3, c1, c2, c3, c4, d1, [] + Chunk0(k, j, n, q, r, s, a1, a2, a3, c1, c2, c3, c4, d1) + Chunk1(k, j, n, q, r, s, a1, a2, a3, c1, c2, c3, c4, d1) + Chunk2(k, j, n, q, r, s, a1, a2, a3, c1, c2, c3, c4, d1) + Chunk3(k, j, n, q, r, s, a1, a2, a3, c1, c2, c3, c4, d1));
    Join5(k, j, n, q, r, s, a1, a2, a3, c1, c2, c3, c4, d1, [] + Chunk0(k, j, n, q, r, s, a1, a2, a3, c1, c2, c3, c4, d1) + Chunk1(k, j, n, q, r, s, a1, a2, a3, c1, c2, c3, c4, d1) + Chunk2(k, j, n, q, r, s, a1, a2, a3, c1, c2, c3, c4, d1) + Chunk3(k, j, n, q, r, s, a1, a2, a3, c1, c2, c3, c4, d1) + Chunk4(k, j, n, q, r, s, a1, a2, a3, c1, c2, c3, c4, d1));
    Join6(k, j, n, q, r, s, a1, a2, a3, c1, c2, c3, c4, d1, [] + Chunk0(k, j, n, q, r, s, a1, a2, a3, c1, c2, c3, c4, d1) + Chunk1(k, j, n, q, r, s, a1, a2, a3, c1, c2, c3, c4, d1) + Chunk2(k, j, n, q, r, s, a1, a2, a3, c1, c2, c3, c4, d1) + Chunk3(k, j, n, q, r, s, a1, a2, a3, c1, c2, c3, c4, d1) + Chunk4(k, j, n, q, r, s, a1, a2, a3, c1, c2, c3, c4, d1) + Chunk5(k, j, n, q, r, s, a1, a2, a3, c1, c2, c3, c4, d1));
  }

  lemma {:induction false} Walked(k: string, j: string, n: string, q: string, r: string, s: string, a1: string, a2: string, a3: string, c1: string, c2: string, c3: string, c4: string, d1: string)
    ensures Build(Program(k, j, n, q, r, s, a1, a2, a3, c1, c2, c3, c4, d1)) == Tree(Layout(), Trace(k, j, n, q, r, s, a1, a2, a3, c1, c2, c3, c4, d1), 0)
  {
    MainBuild(Body(k, j, n, q, r, s, a1, a2, a3, c1, c2, c3, c4, d1));
    Stmts1(k, j, n, q, r, s, a1, a2, a3, c1, c2, c3, c4, d1, MainHead(), [Do(Block([Exprs([Call([Argument([Use(q, Pos(19, 38), false)])])])]), [Declare(q, Pos(21, 21), Initialized)])] + ([Do(Block([Exprs([Call([Argument([Declare(r, Pos(25, 42), Initialized)])])])]), [Use(r, Pos(27, 16), false)])] + ([Do(Exprs([Call([Argument([Declare(s, Pos(30, 42), Initialized)])])]), [Use(s, Pos(31, 15), false)])] + ([Exprs([Declare(a1, Pos(33, 13), Initialized)])] + ([Exprs([Call([Argument([Use(a1, Pos(34, 34), false)])])])] + ([Do(Exprs([Call([])]), [Declare(a1, Pos(37, 21), Initialized)])] + ([Exprs([Declare(a2, Pos(39, 13), Initialized)])] + ([Exprs([Call([Argument([Use(a2, Pos(40, 34), false)])])])] + ([Do(Exprs([Call([Argument([Declare(a2, Pos(42, 42), Initialized)])])]), [Use(a2, Pos(43, 16), false)])] + ([Exprs([Declare(a3, Pos(45, 13), Initialized)])] + ([Exprs([Call([Argument([Use(a3, Pos(46, 34), false)])])])] + ([Do(Block([Exprs([Call([Argument([Declare(a3, Pos(49, 42), Initialized)])])])]), [Use(a2, Pos(51, 16), false)])] + ([Do(Exprs([Call([])]), [Declare(c1, Pos(55, 22), Initialized)] + ([Declare(c1, Pos(55, 42), Initialized)]))] + ([Do(Exprs([Call([Argument([Declare(c2, Pos(58, 42), Initialized)])])]), [Declare(c2, Pos(59, 21), Initialized)])] + ([Do(Block([Exprs([Call([Argument([Declare(c3, Pos(63, 42), Initialized)])])])]), [Declare(c3, Pos(65, 21), Initialized)])] + ([Do(Block([Exprs([Declare(c4, Pos(69, 17), Initialized)])] + ([Exprs([Call([Argument([Use(c4, Pos(70, 38), false)])])])])), [Declare(c4, Pos(72, 21), Initialized)])] + ([Do(Exprs([Call([Argument([Declare(d1, Pos(75, 43), Initialized)] + ([Declare(d1, Pos(75, 58), Initialized)]))])]), [Use(a2, Pos(76, 16), false)])])))))))))))))))));
    Stmts6(k, j, n, q, r, s, a1, a2, a3, c1, c2, c3, c4, d1, Tree(MainHead().scopes + [Scope(LoopCondition, Some(4))] + [Scope(EmbeddedBody, Some(5))] + [Scope(LoopCondition, Some(4))] + [Scope(EmbeddedBody, Some(7))], MainHead().events + [Declared(6, k, Pos(7, 43), Initialized, [])] + [Referenced(6, k, Pos(7, 52), false, false, [])] + [OutAssigned(6, [], [])] + [Declared(5, j, Pos(8, 21), Initialized, [])] + [Referenced(5, j, Pos(8, 31), false, false, [])] + [Referenced(4, j, Pos(10, 9), true, false, [])] + [Referenced(4, k, Pos(11, 9), true, false, [])] + [Referenced(8, n, Pos(14, 38), false, false, [])] + [OutAssigned(8, [], [])] + [Declared(7, n, Pos(15, 21), Initialized, [])], 0), [Exprs([Call([Argument([Use(a1, Pos(34, 34), false)])])])] + ([Do(Exprs([Call([])]), [Declare(a1, Pos(37, 21), Initialized)])] + ([Exprs([Declare(a2, Pos(39, 13), Initialized)])] + ([Exprs([Call([Argument([Use(a2, Pos(40, 34), false)])])])] + ([Do(Exprs([Call([Argument([Declare(a2, Pos(42, 42), Initialized)])])]), [Use(a2, Pos(43, 16), false)])] + ([Exprs([Declare(a3, Pos(45, 13), Initialized)])] + ([Exprs([Call([Argument([Use(a3, Pos(46, 34), false)])])])] + ([Do(Block([Exprs([Call([Argument([Declare(a3, Pos(49, 42), Initialized)])])])]), [Use(a2, Pos(51, 16), false)])] + ([Do(Exprs([Call([])]), [Declare(c1, Pos(55, 22), Initialized)] + ([Declare(c1, Pos(55, 42), Initialized)]))] + ([Do(Exprs([Call([Argument([Declare(c2, Pos(58, 42), Initialized)])])]), [Declare(c2, Pos(59, 21), Initialized)])] + ([Do(Block([Exprs([Call([Argument([Declare(c3, Pos(63, 42), Initialized)])])])]), [Declare(c3, Pos(65, 21), Initialized)])] + ([Do(Block([Exprs([Declare(c4, Pos(69, 17), Initialized)])] + ([Exprs([Call([Argument([Use(c4, Pos(70, 38), false)])])])])), [Declare(c4, Pos(72, 21), Initialized)])] + ([Do(Exprs([Call([Argument([Declare(d1, Pos(75, 43), Initialized)] + ([Declare(d1, Pos(75, 58), Initialized)]))])]), [Use(a2, Pos(76, 16), false)])])))))))))))));
    Stmts13(k, j, n, q, r, s, a1, a2, a3, c1, c2, c3, c4, d1, Tree(MainHead().scopes + [Scope(LoopCondition, Some(4))] + [Scope(EmbeddedBody, Some(5))] + [Scope(LoopCondition, Some(4))] + [Scope(EmbeddedBody, Some(7))] + [Scope(LoopCondition, Some(4))] + [Scope(BlockBody, Some(9))] + [Scope(LoopCondition, Some(4))] + [Scope(BlockBody, Some(11))] + [Scope(LoopCondition, Some(4))] + [Scope(EmbeddedBody, Some(13))], MainHead().events + [Declared(6, k, Pos(7, 43), Initialized, [])] + [Referenced(6, k, Pos(7, 52), false, false, [])] + [OutAssigned(6, [], [])] + [Declared(5, j, Pos(8, 21), Initialized, [])] + [Referenced(5, j, Pos(8, 31), false, false, [])] + [Referenced(4, j, Pos(10, 9), true, false, [])] + [Referenced(4, k, Pos(11, 9), true, false, [])] + [Referenced(8, n, Pos(14, 38), false, false, [])] + [OutAssigned(8, [], [])] + [Declared(7, n, Pos(15, 21), Initialized, [])] + [Referenced(10, q, Pos(19, 38), false, false, [])] + [OutAssigned(10, [], [])] + [Declared(9, q, Pos(21, 21), Initialized, [])] + [Declared(12, r, Pos(25, 42), Initialized, [])] + [OutAssigned(12, [], [])] + [Referenced(11, r, Pos(27, 16), false, false, [])] + [Declared(14, s, Pos(30, 42), Initialized, [])] + [OutAssigned(14, [], [])] + [Referenced(13, s, Pos(31, 15), false, false, [])] + [Declared(4, a1, Pos(33, 13), Initialized, [])], 0), [Do(Exprs([Call([Argument([Declare(a2, Pos(42, 42), Initialized)])])]), [Use(a2, Pos(43, 16), false)])] + ([Exprs([Declare(a3, Pos(45, 13), Initialized)])] + ([Exprs([Call([Argument([Use(a3, Pos(46, 34), false)])])])] + ([Do(Block([Exprs([Call([Argument([Declare(a3, Pos(49, 42), Initialized)])])])]), [Use(a2, Pos(51, 16), false)])] + ([Do(Exprs([Call([])]), [Declare(c1, Pos(55, 22), Initialized)] + ([Declare(c1, Pos(55, 42), Initialized)]))] + ([Do(Exprs([Call([Argument([Declare(c2, Pos(58, 42), Initialized)])])]), [Declare(c2, Pos(59, 21), Initialized)])] + ([Do(Block([Exprs([Call([Argument([Declare(c3, Pos(63, 42), Initialized)])])])]), [Declare(c3, Pos(65, 21), Initialized)])] + ([Do(Block([Exprs([Declare(c4, Pos(69, 17), Initialized)])] + ([Exprs([Call([Argument([Use(c4, Pos(70, 38), false)])])])])), [Declare(c4, Pos(72, 21), Initialized)])] + ([Do(Exprs([Call([Argument([Declare(d1, Pos(75, 43), Initialized)] + ([Declare(d1, Pos(75, 58), Initialized)]))])]), [Use(a2, Pos(76, 16), false)])])))))))));
    Stmts18(k, j, n, q, r, s, a1, a2, a3, c1, c2, c3, c4, d1, Tree(MainHead().scopes + [Scope(LoopCondition, Some(4))] + [Scope(EmbeddedBody, Some(5))] + [Scope(LoopCondition, Some(4))] + [Scope(EmbeddedBody, Some(7))] + [Scope(LoopCondition, Some(4))] + [Scope(BlockBody, Some(9))] + [Scope(LoopCondition, Some(4))] + [Scope(BlockBody, Some(11))] + [Scope(LoopCondition, Some(4))] + [Scope(EmbeddedBody, Some(13))] + [Scope(LoopCondition, Some(4))] + [Scope(EmbeddedBody, Some(15))], MainHead().events + [Declared(6, k, Pos(7, 43), Initialized, [])] + [Referenced(6, k, Pos(7, 52), false, false, [])] + [OutAssigned(6, [], [])] + [Declared(5, j, Pos(8, 21), Initialized, [])] + [Referenced(5, j, Pos(8, 31), false, false, [])] + [Referenced(4, j, Pos(10, 9), true, false, [])] + [Referenced(4, k, Pos(11, 9), true, false, [])] + [Referenced(8, n, Pos(14, 38), false, false, [])] + [OutAssigned(8, [], [])] + [Declared(7, n, Pos(15, 21), Initialized, [])] + [Referenced(10, q, Pos(19, 38), false, false, [])] + [OutAssigned(10, [], [])] + [Declared(9, q, Pos(21, 21), Initialized, [])] + [Declared(12, r, Pos(25, 42), Initialized, [])] + [OutAssigned(12, [], [])] + [Referenced(11, r, Pos(27, 16), false, false, [])] + [Declared(14, s, Pos(30, 42), Initialized, [])] + [OutAssigned(14, [], [])] + [Referenced(13, s, Pos(31, 15), false, false, [])] + [Declared(4, a1, Pos(33, 13), Initialized, [])] + [Referenced(4, a1, Pos(34, 34), false, false, [])] + [OutAssigned(4, [], [])] + [OutAssigned(16, [], [])] + [Declared(15, a1, Pos(37, 21), Initialized, [])] + [Declared(4, a2, Pos(39, 13), Initialized, [])] + [Referenced(4, a2, Pos(40, 34), false, false, [])] + [OutAssigned(4, [], [])], 0), [Do(Exprs([Call([])]), [Declare(c1, Pos(55, 22), Initialized)] + ([Declare(c1, Pos(55, 42), Initialized)]))] + ([Do(Exprs([Call([Argument([Declare(c2, Pos(58, 42), Initialized)])])]), [Declare(c2, Pos(59, 21), Initialized)])] + ([Do(Block([Exprs([Call([Argument([Declare(c3, Pos(63, 42), Initialized)])])])]), [Declare(c3, Pos(65, 21), Initialized)])] + ([Do(Block([Exprs([Declare(c4, Pos(69, 17), Initialized)])] + ([Exprs([Call([Argument([Use(c4, Pos(70, 38), false)])])])])), [Declare(c4, Pos(72, 21), Initialized)])] + ([Do(Exprs([Call([Argument([Declare(d1, Pos(75, 43), Initialized)] + ([Declare(d1, Pos(75, 58), Initialized)]))])]), [Use(a2, Pos(76, 16), false)])])))));
    Stmts24(k, j, n, q, r, s, a1, a2, a3, c1, c2, c3, c4, d1, Tree(MainHead().scopes + [Scope(LoopCondition, Some(4))] + [Scope(EmbeddedBody, Some(5))] + [Scope(LoopCondition, Some(4))] + [Scope(EmbeddedBody, Some(7))] + [Scope(LoopCondition, Some(4))] + [Scope(BlockBody, Some(9))] + [Scope(LoopCondition, Some(4))] + [Scope(BlockBody, Some(11))] + [Scope(LoopCondition, Some(4))] + [Scope(EmbeddedBody, Some(13))] + [Scope(LoopCondition, Some(4))] + [Scope(EmbeddedBody, Some(15))] + [Scope(LoopCondition, Some(4))] + [Scope(EmbeddedBody, Some(17))] + [Scope(LoopCondition, Some(4))] + [Scope(BlockBody, Some(19))], MainHead().events + [Declared(6, k, Pos(7, 43), Initialized, [])] + [Referenced(6, k, Pos(7, 52), false, false, [])] + [OutAssigned(6, [], [])] + [Declared(5, j, Pos(8, 21), Initialized, [])] + [Referenced(5, j, Pos(8, 31), false, false, [])] + [Referenced(4, j, Pos(10, 9), true, false, [])] + [Referenced(4, k, Pos(11, 9), true, false, [])] + [Referenced(8, n, Pos(14, 38), false, false, [])] + [OutAssigned(8, [], [])] + [Declared(7, n, Pos(15, 21), Initialized, [])] + [Referenced(10, q, Pos(19, 38), false, false, [])] + [OutAssigned(10, [], [])] + [Declared(9, q, Pos(21, 21), Initialized, [])] + [Declared(12, r, Pos(25, 42), Initialized, [])] + [OutAssigned(12, [], [])] + [Referenced(11, r, Pos(27, 16), false, false, [])] + [Declared(14, s, Pos(30, 42), Initialized, [])] + [OutAssigned(14, [], [])] + [Referenced(13, s, Pos(31, 15), false, false, [])] + [Declared(4, a1, Pos(33, 13), Initialized, [])] + [Referenced(4, a1, Pos(34, 34), false, false, [])] + [OutAssigned(4, [], [])] + [OutAssigned(16, [], [])] + [Declared(15, a1, Pos(37, 21), Initialized, [])] + [Declared(4, a2, Pos(39, 13), Initialized, [])] + [Referenced(4, a2, Pos(40, 34), false, false, [])] + [OutAssigned(4, [], [])] + [Declared(18, a2, Pos(42, 42), Initialized, [])] + [OutAssigned(18, [], [])] + [Referenced(17, a2, Pos(43, 16), false, false, [])] + [Declared(4, a3, Pos(45, 13), Initialized, [])] + [Referenced(4, a3, Pos(46, 34), false, false, [])] + [OutAssigned(4, [], [])] + [Declared(20, a3, Pos(49, 42), Initialized, [])] + [OutAssigned(20, [], [])] + [Referenced(19, a2, Pos(51, 16), false, false, [])], 0), [Do(Exprs([Call([Argument([Declare(d1, Pos(75, 43), Initialized)] + ([Declare(d1, Pos(75, 58), Initialized)]))])]), [Use(a2, Pos(76, 16), false)])]);
    Stmts32(k, j, n, q, r, s, a1, a2, a3, c1, c2, c3, c4, d1, Tree(MainHead().scopes + [Scope(LoopCondition, Some(4))] + [Scope(EmbeddedBody, Some(5))] + [Scope(LoopCondition, Some(4))] + [Scope(EmbeddedBody, Some(7))] + [Scope(LoopCondition, Some(4))] + [Scope(BlockBody, Some(9))] + [Scope(LoopCondition, Some(4))] + [Scope(BlockBody, Some(11))] + [Scope(LoopCondition, Some(4))] + [Scope(EmbeddedBody, Some(13))] + [Scope(LoopCondition, Some(4))] + [Scope(EmbeddedBody, Some(15))] + [Scope(LoopCondition, Some(4))] + [Scope(EmbeddedBody, Some(17))] + [Scope(LoopCondition, Some(4))] + [Scope(BlockBody, Some(19))] + [Scope(LoopCondition, Some(4))] + [Scope(EmbeddedBody, Some(21))] + [Scope(LoopCondition, Some(4))] + [Scope(EmbeddedBody, Some(23))] + [Scope(LoopCondition, Some(4))] + [Scope(BlockBody, Some(25))] + [Scope(LoopCondition, Some(4))] + [Scope(BlockBody, Some(27))], MainHead().events + [Declared(6, k, Pos(7, 43), Initialized, [])] + [Referenced(6, k, Pos(7, 52), false, false, [])] + [OutAssigned(6, [], [])] + [Declared(5, j, Pos(8, 21), Initialized, [])] + [Referenced(5, j, Pos(8, 31), false, false, [])] + [Referenced(4, j, Pos(10, 9), true, false, [])] + [Referenced(4, k, Pos(11, 9), true, false, [])] + [Referenced(8, n, Pos(14, 38), false, false, [])] + [OutAssigned(8, [], [])] + [Declared(7, n, Pos(15, 21), Initialized, [])] + [Referenced(10, q, Pos(19, 38), false, false, [])] + [OutAssigned(10, [], [])] + [Declared(9, q, Pos(21, 21), Initialized, [])] + [Declared(12, r, Pos(25, 42), Initialized, [])] + [OutAssigned(12, [], [])] + [Referenced(11, r, Pos(27, 16), false, false, [])] + [Declared(14, s, Pos(30, 42), Initialized, [])] + [OutAssigned(14, [], [])] + [Referenced(13, s, Pos(31, 15), false, false, [])] + [Declared(4, a1, Pos(33, 13), Initialized, [])] + [Referenced(4, a1, Pos(34, 34), false, false, [])] + [OutAssigned(4, [], [])] + [OutAssigned(16, [], [])] + [Declared(15, a1, Pos(37, 21), Initialized, [])] + [Declared(4, a2, Pos(39, 13), Initialized, [])] + [Referenced(4, a2, Pos(40, 34), false, false, [])] + [OutAssigned(4, [], [])] + [Declared(18, a2, Pos(42, 42), Initialized, [])] + [OutAssigned(18, [], [])] + [Referenced(17, a2, Pos(43, 16), false, false, [])] + [Declared(4, a3, Pos(45, 13), Initialized, [])] + [Referenced(4, a3, Pos(46, 34), false, false, [])] + [OutAssigned(4, [], [])] + [Declared(20, a3, Pos(49, 42), Initialized, [])] + [OutAssigned(20, [], [])] + [Referenced(19, a2, Pos(51, 16), false, false, [])] + [OutAssigned(22, [], [])] + [Declared(21, c1, Pos(55, 22), Initialized, [])] + [Declared(21, c1, Pos(55, 42), Initialized, [])] + [Declared(24, c2, Pos(58, 42), Initialized, [])] + [OutAssigned(24, [], [])] + [Declared(23, c2, Pos(59, 21), Initialized, [])] + [Declared(26, c3, Pos(63, 42), Initialized, [])] + [OutAssigned(26, [], [])] + [Declared(25, c3, Pos(65, 21), Initialized, [])] + [Declared(28, c4, Pos(69, 17), Initialized, [])] + [Referenced(28, c4, Pos(70, 38), false, false, [])] + [OutAssigned(28, [], [])] + [Declared(27, c4, Pos(72, 21), Initialized, [])], 0));
    LayoutFlat();
    Flat(k, j, n, q, r, s, a1, a2, a3, c1, c2, c3, c4, d1);
  }

  /** The locals events of chunk `ck` declare in scope `sc`, in order. */
  function NewIn(k: string, j: string, n: string, q: string, r: string, s: string, a1: string, a2: string, a3: string, c1: string, c2: string, c3: string, c4: string, d1: string, ck: nat, sc: nat): seq<Local> {
    if ck == 0 then
      if sc == 6 then [] + [Local(k, Pos(7, 43))]
      else if sc == 5 then [] + [Local(j, Pos(8, 21))]
      else []
    else if ck == 1 then
      if sc == 7 then [] + [Local(n, Pos(15, 21))]
      else if sc == 9 then [] + [Local(q, Pos(21, 21))]
      else if sc == 12 then [] + [Local(r, Pos(25, 42))]
      else []
    else if ck == 2 then
      if sc == 14 then [] + [Local(s, Pos(30, 42))]
      else if sc == 4 then [] + [Local(a1, Pos(33, 13))]
      else if sc == 15 then [] + [Local(a1, Pos(37, 21))]
      else []
    else if ck == 3 then
      if sc == 4 then [] + [Local(a2, Pos(39, 13))] + [Local(a3, Pos(45, 13))]
      else if sc == 18 then [] + [Local(a2, Pos(42, 42))]
      else []
    else if ck == 4 then
      if sc == 20 then [] + [Local(a3, Pos(49, 42))]
      else if sc == 21 then [] + [Local(c1, Pos(55, 22))] + [Local(c1, Pos(55, 42))]
      else if sc == 24 then [] + [Local(c2, Pos(58, 42))]
      else []
    else if ck == 5 then
      if sc == 23 then [] + [Local(c2, Pos(59, 21))]
      else if sc == 26 then [] + [Local(c3, Pos(63, 42))]
      else if sc == 25 then [] + [Local(c3, Pos(65, 21))]
      else if sc == 28 then [] + [Local(c4, Pos(69, 17))]
      else []
    else if ck == 6 then
      if sc == 27 then [] + [Local(c4, Pos(72, 21))]
      else if sc == 30 then [] + [Local(d1, Pos(75, 43))] + [Local(d1, Pos(75, 58))]
      else []
    else []
  }

  /** The locals the first `ck` chunks declare in scope `sc`, in order. */
  function DeclaredBy(k: string, j: string, n: string, q: string, r: string, s: string, a1: string, a2: string, a3: string, c1: string, c2: string, c3: string, c4: string, d1: string, ck: nat, sc: nat): seq<Local>
    decreases ck
  {
    if ck == 0 then [] else DeclaredBy(k, j, n, q, r, s, a1, a2, a3, c1, c2, c3, c4, d1, ck - 1, sc) + NewIn(k, j, n, q, r, s, a1, a2, a3, c1, c2, c3, c4, d1, ck - 1, sc)
  }

  /** The locals declared once events 0 to 7 follow some events. */
  lemma {:induction false} Decls0(k: string, j: string, n: string, q: string, r: string, s: string, a1: string, a2: string, a3: string, c1: string, c2: string, c3: string, c4: string, d1: string, evs: seq<Event>, sc: nat)
    requires DeclsIn(evs, sc) == DeclaredBy(k, j, n, q, r, s, a1, a2, a3, c1, c2, c3, c4, d1, 0, sc)
    ensures DeclsIn(evs + Chunk0(k, j, n, q, r, s, a1, a2, a3, c1, c2, c3, c4, d1), sc) == DeclaredBy(k, j, n, q, r, s, a1, a2, a3, c1, c2, c3, c4, d1, 1, sc)
  {
    DeclsInAppend(evs, Chunk0(k, j, n, q, r, s, a1, a2, a3, c1, c2, c3, c4, d1), sc);
    assert DeclsIn([], sc) == [];
    if sc == 6 {
      DeclsInAdd([], Declared(6, k, Pos(7, 43), Initialized, []), 6);
      DeclsInSkip([] + [Declared(6, k, Pos(7, 43), Initialized, [])], Referenced(6, k, Pos(7, 52), false, false, []), 6);
      DeclsInSkip([] + [Declared(6, k, Pos(7, 43), Initialized, [])] + [Referenced(6, k, Pos(7, 52), false, false, [])], OutAssigned(6, [], []), 6);
      DeclsInSkip([] + [Declared(6, k, Pos(7, 43), Initialized, [])] + [Referenced(6, k, Pos(7, 52), false, false, [])] + [OutAssigned(6, [], [])], Declared(5, j, Pos(8, 21), Initialized, []), 6);
      DeclsInSkip([] + [Declared(6, k, Pos(7, 43), Initialized, [])] + [Referenced(6, k, Pos(7, 52), false, false, [])] + [OutAssigned(6, [], [])] + [Declared(5, j, Pos(8, 21), Initialized, [])], Referenced(5, j, Pos(8, 31), false, false, []), 6);
      DeclsInSkip([] + [Declared(6, k, Pos(7, 43), Initialized, [])] + [Referenced(6, k, Pos(7, 52), false, false, [])] + [OutAssigned(6, [], [])] + [Declared(5, j, Pos(8, 21), Initialized, [])] + [Referenced(5, j, Pos(8, 31), false, false, [])], Referenced(4, j, Pos(10, 9), true, false, []), 6);
      DeclsInSkip([] + [Declared(6, k, Pos(7, 43), Initialized, [])] + [Referenced(6, k, Pos(7, 52), false, false, [])] + [OutAssigned(6, [], [])] + [Declared(5, j, Pos(8, 21), Initialized, [])] + [Referenced(5, j, Pos(8, 31), false, false, [])] + [Referenced(4, j, Pos(10, 9), true, false, [])], Referenced(4, k, Pos(11, 9), true, false, []), 6);
      DeclsInSkip([] + [Declared(6, k, Pos(7, 43), Initialized, [])] + [Referenced(6, k, Pos(7, 52), false, false, [])] + [OutAssigned(6, [], [])] + [Declared(5, j, Pos(8, 21), Initialized, [])] + [Referenced(5, j, Pos(8, 31), false, false, [])] + [Referenced(4, j, Pos(10, 9), true, false, [])] + [Referenced(4, k, Pos(11, 9), true, false, [])], Referenced(8, n, Pos(14, 38), false, false, []), 6);
    } else if sc == 5 {
      DeclsInSkip([], Declared(6, k, Pos(7, 43), Initialized, []), 5);
      DeclsInSkip([] + [Declared(6, k, Pos(7, 43), Initialized, [])], Referenced(6, k, Pos(7, 52), false, false, []), 5);
      DeclsInSkip([] + [Declared(6, k, Pos(7, 43), Initialized, [])] + [Referenced(6, k, Pos(7, 52), false, false, [])], OutAssigned(6, [], []), 5);
      DeclsInAdd([] + [Declared(6, k, Pos(7, 43), Initialized, [])] + [Referenced(6, k, Pos(7, 52), false, false, [])] + [OutAssigned(6, [], [])], Declared(5, j, Pos(8, 21), Initialized, []), 5);
      DeclsInSkip([] + [Declared(6, k, Pos(7, 43), Initialized, [])] + [Referenced(6, k, Pos(7, 52), false, false, [])] + [OutAssigned(6, [], [])] + [Declared(5, j, Pos(8, 21), Initialized, [])], Referenced(5, j, Pos(8, 31), false, false, []), 5);
      DeclsInSkip([] + [Declared(6, k, Pos(7, 43), Initialized, [])] + [Referenced(6, k, Pos(7, 52), false, false, [])] + [OutAssigned(6, [], [])] + [Declared(5, j, Pos(8, 21), Initialized, [])] + [Referenced(5, j, Pos(8, 31), false, false, [])], Referenced(4, j, Pos(10, 9), true, false, []), 5);
      DeclsInSkip([] + [Declared(6, k, Pos(7, 43), Initialized, [])] + [Referenced(6, k, Pos(7, 52), false, false, [])] + [OutAssigned(6, [], [])] + [Declared(5, j, Pos(8, 21), Initialized, [])] + [Referenced(5, j, Pos(8, 31), false, false, [])] + [Referenced(4, j, Pos(10, 9), true, false, [])], Referenced(4, k, Pos(11, 9), true, false, []), 5);
      DeclsInSkip([] + [Declared(6, k, Pos(7, 43), Initialized, [])] + [Referenced(6, k, Pos(7, 52), false, false, [])] + [OutAssigned(6, [], [])] + [Declared(5, j, Pos(8, 21), Initialized, [])] + [Referenced(5, j, Pos(8, 31), false, false, [])] + [Referenced(4, j, Pos(10, 9), true, false, [])] + [Referenced(4, k, Pos(11, 9), true, false, [])], Referenced(8, n, Pos(14, 38), false, false, []), 5);
    } else {
      DeclsInSkip([], Declared(6, k, Pos(7, 43), Initialized, []), sc);
      DeclsInSkip([] + [Declared(6, k, Pos(7, 43), Initialized, [])], Referenced(6, k, Pos(7, 52), false, false, []), sc);
      DeclsInSkip([] + [Declared(6, k, Pos(7, 43), Initialized, [])] + [Referenced(6, k, Pos(7, 52), false, false, [])], OutAssigned(6, [], []), sc);
      DeclsInSkip([] + [Declared(6, k, Pos(7, 43), Initialized, [])] + [Referenced(6, k, Pos(7, 52), false, false, [])] + [OutAssigned(6, [], [])], Declared(5, j, Pos(8, 21), Initialized, []), sc);
      DeclsInSkip([] + [Declared(6, k, Pos(7, 43), Initialized, [])] + [Referenced(6, k, Pos(7, 52), false, false, [])] + [OutAssigned(6, [], [])] + [Declared(5, j, Pos(8, 21), Initialized, [])], Referenced(5, j, Pos(8, 31), false, false, []), sc);
      DeclsInSkip([] + [Declared(6, k, Pos(7, 43), Initialized, [])] + [Referenced(6, k, Pos(7, 52), false, false, [])] + [OutAssigned(6, [], [])] + [Declared(5, j, Pos(8, 21), Initialized, [])] + [Referenced(5, j, Pos(8, 31), false, false, [])], Referenced(4, j, Pos(10, 9), true, false, []), sc);
      DeclsInSkip([] + [Declared(6, k, Pos(7, 43), Initialized, [])] + [Referenced(6, k, Pos(7, 52), false, false, [])] + [OutAssigned(6, [], [])] + [Declared(5, j, Pos(8, 21), Initialized, [])] + [Referenced(5, j, Pos(8, 31), false, false, [])] + [Referenced(4, j, Pos(10, 9), true, false, [])], Referenced(4, k, Pos(11, 9), true, false, []), sc);
      DeclsInSkip([] + [Declared(6, k, Pos(7, 43), Initialized, [])] + [Referenced(6, k, Pos(7, 52), false, false, [])] + [OutAssigned(6, [], [])] + [Declared(5, j, Pos(8, 21), Initialized, [])] + [Referenced(5, j, Pos(8, 31), false, false, [])] + [Referenced(4, j, Pos(10, 9), true, false, [])] + [Referenced(4, k, Pos(11, 9), true, false, [])], Referenced(8, n, Pos(14, 38), false, false, []), sc);
      AppendNil(DeclsIn(evs, sc));
    }
  }

  /** The locals declared once events 8 to 15 follow some events. */
  lemma {:induction false} Decls1(k: string, j: string, n: string, q: string, r: string, s: string, a1: string, a2: string, a3: string, c1: string, c2: string, c3: string, c4: string, d1: string, evs: seq<Event>, sc: nat)
    requires DeclsIn(evs, sc) == DeclaredBy(k, j, n, q, r, s, a1, a2, a3, c1, c2, c3, c4, d1, 1, sc)
    ensures DeclsIn(evs + Chunk1(k, j, n, q, r, s, a1, a2, a3, c1, c2, c3, c4, d1), sc) == DeclaredBy(k, j, n, q, r, s, a1, a2, a3, c1, c2, c3, c4, d1, 2, sc)
  {
    DeclsInAppend(evs, Chunk1(k, j, n, q, r, s, a1, a2, a3, c1, c2, c3, c4, d1), sc);
    assert DeclsIn([], sc) == [];
    if sc == 7 {
      DeclsInSkip([], OutAssigned(8, [], []), 7);
      DeclsInAdd([] + [OutAssigned(8, [], [])], Declared(7, n, Pos(15, 21), Initialized, []), 7);
      DeclsInSkip([] + [OutAssigned(8, [], [])] + [Declared(7, n, Pos(15, 21), Initialized, [])], Referenced(10, q, Pos(19, 38), false, false, []), 7);
      DeclsInSkip([] + [OutAssigned(8, [], [])] + [Declared(7, n, Pos(15, 21), Initialized, [])] + [Referenced(10, q, Pos(19, 38), false, false, [])], OutAssigned(10, [], []), 7);
      DeclsInSkip([] + [OutAssigned(8, [], [])] + [Declared(7, n, Pos(15, 21), Initialized, [])] + [Referenced(10, q, Pos(19, 38), false, false, [])] + [OutAssigned(10, [], [])], Declared(9, q, Pos(21, 21), Initialized, []), 7);
      DeclsInSkip([] + [OutAssigned(8, [], [])] + [Declared(7, n, Pos(15, 21), Initialized, [])] + [Referenced(10, q, Pos(19, 38), false, false, [])] + [OutAssigned(10, [], [])] + [Declared(9, q, Pos(21, 21), Initialized, [])], Declared(12, r, Pos(25, 42), Initialized, []), 7);
      DeclsInSkip([] + [OutAssigned(8, [], [])] + [Declared(7, n, Pos(15, 21), Initialized, [])] + [Referenced(10, q, Pos(19, 38), false, false, [])] + [OutAssigned(10, [], [])] + [Declared(9, q, Pos(21, 21), Initialized, [])] + [Declared(12, r, Pos(25, 42), Initialized, [])], OutAssigned(12, [], []), 7);
      DeclsInSkip([] + [OutAssigned(8, [], [])] + [Declared(7, n, Pos(15, 21), Initialized, [])] + [Referenced(10, q, Pos(19, 38), false, false, [])] + [OutAssigned(10, [], [])] + [Declared(9, q, Pos(21, 21), Initialized, [])] + [Declared(12, r, Pos(25, 42), Initialized, [])] + [OutAssigned(12, [], [])], Referenced(11, r, Pos(27, 16), false, false, []), 7);
    } else if sc == 9 {
      DeclsInSkip([], OutAssigned(8, [], []), 9);
      DeclsInSkip([] + [OutAssigned(8, [], [])], Declared(7, n, Pos(15, 21), Initialized, []), 9);
      DeclsInSkip([] + [OutAssigned(8, [], [])] + [Declared(7, n, Pos(15, 21), Initialized, [])], Referenced(10, q, Pos(19, 38), false, false, []), 9);
      DeclsInSkip([] + [OutAssigned(8, [], [])] + [Declared(7, n, Pos(15, 21), Initialized, [])] + [Referenced(10, q, Pos(19, 38), false, false, [])], OutAssigned(10, [], []), 9);
      DeclsInAdd([] + [OutAssigned(8, [], [])] + [Declared(7, n, Pos(15, 21), Initialized, [])] + [Referenced(10, q, Pos(19, 38), false, false, [])] + [OutAssigned(10, [], [])], Declared(9, q, Pos(21, 21), Initialized, []), 9);
      DeclsInSkip([] + [OutAssigned(8, [], [])] + [Declared(7, n, Pos(15, 21), Initialized, [])] + [Referenced(10, q, Pos(19, 38), false, false, [])] + [OutAssigned(10, [], [])] + [Declared(9, q, Pos(21, 21), Initialized, [])], Declared(12, r, Pos(25, 42), Initialized, []), 9);
      DeclsInSkip([] + [OutAssigned(8, [], [])] + [Declared(7, n, Pos(15, 21), Initialized, [])] + [Referenced(10, q, Pos(19, 38), false, false, [])] + [OutAssigned(10, [], [])] + [Declared(9, q, Pos(21, 21), Initialized, [])] + [Declared(12, r, Pos(25, 42), Initialized, [])], OutAssigned(12, [], []), 9);
      DeclsInSkip([] + [OutAssigned(8, [], [])] + [Declared(7, n, Pos(15, 21), Initialized, [])] + [Referenced(10, q, Pos(19, 38), false, false, [])] + [OutAssigned(10, [], [])] + [Declared(9, q, Pos(21, 21), Initialized, [])] + [Declared(12, r, Pos(25, 42), Initialized, [])] + [OutAssigned(12, [], [])], Referenced(11, r, Pos(27, 16), false, false, []), 9);
    } else if sc == 12 {
      DeclsInSkip([], OutAssigned(8, [], []), 12);
      DeclsInSkip([] + [OutAssigned(8, [], [])], Declared(7, n, Pos(15, 21), Initialized, []), 12);
      DeclsInSkip([] + [OutAssigned(8, [], [])] + [Declared(7, n, Pos(15, 21), Initialized, [])], Referenced(10, q, Pos(19, 38), false, false, []), 12);
      DeclsInSkip([] + [OutAssigned(8, [], [])] + [Declared(7, n, Pos(15, 21), Initialized, [])] + [Referenced(10, q, Pos(19, 38), false, false, [])], OutAssigned(10, [], []), 12);
      DeclsInSkip([] + [OutAssigned(8, [], [])] + [Declared(7, n, Pos(15, 21), Initialized, [])] + [Referenced(10, q, Pos(19, 38), false, false, [])] + [OutAssigned(10, [], [])], Declared(9, q, Pos(21, 21), Initialized, []), 12);
      DeclsInAdd([] + [OutAssigned(8, [], [])] + [Declared(7, n, Pos(15, 21), Initialized, [])] + [Referenced(10, q, Pos(19, 38), false, false, [])] + [OutAssigned(10, [], [])] + [Declared(9, q, Pos(21, 21), Initialized, [])], Declared(12, r, Pos(25, 42), Initialized, []), 12);
      DeclsInSkip([] + [OutAssigned(8, [], [])] + [Declared(7, n, Pos(15, 21), Initialized, [])] + [Referenced(10, q, Pos(19, 38), false, false, [])] + [OutAssigned(10, [], [])] + [Declared(9, q, Pos(21, 21), Initialized, [])] + [Declared(12, r, Pos(25, 42), Initialized, [])], OutAssigned(12, [], []), 12);
      DeclsInSkip([] + [OutAssigned(8, [], [])] + [Declared(7, n, Pos(15, 21), Initialized, [])] + [Referenced(10, q, Pos(19, 38), false, false, [])] + [OutAssigned(10, [], [])] + [Declared(9, q, Pos(21, 21), Initialized, [])] + [Declared(12, r, Pos(25, 42), Initialized, [])] + [OutAssigned(12, [], [])], Referenced(11, r, Pos(27, 16), false, false, []), 12);
    } else {
      DeclsInSkip([], OutAssigned(8, [], []), sc);
      DeclsInSkip([] + [OutAssigned(8, [], [])], Declared(7, n, Pos(15, 21), Initialized, []), sc);
      DeclsInSkip([] + [OutAssigned(8, [], [])] + [Declared(7, n, Pos(15, 21), Initialized, [])], Referenced(10, q, Pos(19, 38), false, false, []), sc);
      DeclsInSkip([] + [OutAssigned(8, [], [])] + [Declared(7, n, Pos(15, 21), Initialized, [])] + [Referenced(10, q, Pos(19, 38), false, false, [])], OutAssigned(10, [], []), sc);
      DeclsInSkip([] + [OutAssigned(8, [], [])] + [Declared(7, n, Pos(15, 21), Initialized, [])] + [Referenced(10, q, Pos(19, 38), false, false, [])] + [OutAssigned(10, [], [])], Declared(9, q, Pos(21, 21), Initialized, []), sc);
      DeclsInSkip([] + [OutAssigned(8, [], [])] + [Declared(7, n, Pos(15, 21), Initialized, [])] + [Referenced(10, q, Pos(19, 38), false, false, [])] + [OutAssigned(10, [], [])] + [Declared(9, q, Pos(21, 21), Initialized, [])], Declared(12, r, Pos(25, 42), Initialized, []), sc);
      DeclsInSkip([] + [OutAssigned(8, [], [])] + [Declared(7, n, Pos(15, 21), Initialized, [])] + [Referenced(10, q, Pos(19, 38), false, false, [])] + [OutAssigned(10, [], [])] + [Declared(9, q, Pos(21, 21), Initialized, [])] + [Declared(12, r, Pos(25, 42), Initialized, [])], OutAssigned(12, [], []), sc);
      DeclsInSkip([] + [OutAssigned(8, [], [])] + [Declared(7, n, Pos(15, 21), Initialized, [])] + [Referenced(10, q, Pos(19, 38), false, false, [])] + [OutAssigned(10, [], [])] + [Declared(9, q, Pos(21, 21), Initialized, [])] + [Declared(12, r, Pos(25, 42), Initialized, [])] + [OutAssigned(12, [], [])], Referenced(11, r, Pos(27, 16), false, false, []), sc);
      AppendNil(DeclsIn(evs, sc));
    }
  }

  /** The locals declared once events 16 to 23 follow some events. */
  lemma {:induction false} Decls2(k: string, j: string, n: string, q: string, r: string, s: string, a1: string, a2: string, a3: string, c1: string, c2: string, c3: string, c4: string, d1: string, evs: seq<Event>, sc: nat)
    requires DeclsIn(evs, sc) == DeclaredBy(k, j, n, q, r, s, a1, a2, a3, c1, c2, c3, c4, d1, 2, sc)
    ensures DeclsIn(evs + Chunk2(k, j, n, q, r, s, a1, a2, a3, c1, c2, c3, c4, d1), sc) == DeclaredBy(k, j, n, q, r, s, a1, a2, a3, c1, c2, c3, c4, d1, 3, sc)
  {
    DeclsInAppend(evs, Chunk2(k, j, n, q, r, s, a1, a2, a3, c1, c2, c3, c4, d1), sc);
    assert DeclsIn([], sc) == [];
    if sc == 14 {
      DeclsInAdd([], Declared(14, s, Pos(30, 42), Initialized, []), 14);
      DeclsInSkip([] + [Declared(14, s, Pos(30, 42), Initialized, [])], OutAssigned(14, [], []), 14);
      DeclsInSkip([] + [Declared(14, s, Pos(30, 42), Initialized, [])] + [OutAssigned(14, [], [])], Referenced(13, s, Pos(31, 15), false, false, []), 14);
      DeclsInSkip([] + [Declared(14, s, Pos(30, 42), Initialized, [])] + [OutAssigned(14, [], [])] + [Referenced(13, s, Pos(31, 15), false, false, [])], Declared(4, a1, Pos(33, 13), Initialized, []), 14);
      DeclsInSkip([] + [Declared(14, s, Pos(30, 42), Initialized, [])] + [OutAssigned(14, [], [])] + [Referenced(13, s, Pos(31, 15), false, false, [])] + [Declared(4, a1, Pos(33, 13), Initialized, [])], Referenced(4, a1, Pos(34, 34), false, false, []), 14);
      DeclsInSkip([] + [Declared(14, s, Pos(30, 42), Initialized, [])] + [OutAssigned(14, [], [])] + [Referenced(13, s, Pos(31, 15), false, false, [])] + [Declared(4, a1, Pos(33, 13), Initialized, [])] + [Referenced(4, a1, Pos(34, 34), false, false, [])], OutAssigned(4, [], []), 14);
      DeclsInSkip([] + [Declared(14, s, Pos(30, 42), Initialized, [])] + [OutAssigned(14, [], [])] + [Referenced(13, s, Pos(31, 15), false, false, [])] + [Declared(4, a1, Pos(33, 13), Initialized, [])] + [Referenced(4, a1, Pos(34, 34), false, false, [])] + [OutAssigned(4, [], [])], OutAssigned(16, [], []), 14);
      DeclsInSkip([] + [Declared(14, s, Pos(30, 42), Initialized, [])] + [OutAssigned(14, [], [])] + [Referenced(13, s, Pos(31, 15), false, false, [])] + [Declared(4, a1, Pos(33, 13), Initialized, [])] + [Referenced(4, a1, Pos(34, 34), false, false, [])] + [OutAssigned(4, [], [])] + [OutAssigned(16, [], [])], Declared(15, a1, Pos(37, 21), Initialized, []), 14);
    } else if sc == 4 {
      DeclsInSkip([], Declared(14, s, Pos(30, 42), Initialized, []), 4);
      DeclsInSkip([] + [Declared(14, s, Pos(30, 42), Initialized, [])], OutAssigned(14, [], []), 4);
      DeclsInSkip([] + [Declared(14, s, Pos(30, 42), Initialized, [])] + [OutAssigned(14, [], [])], Referenced(13, s, Pos(31, 15), false, false, []), 4);
      DeclsInAdd([] + [Declared(14, s, Pos(30, 42), Initialized, [])] + [OutAssigned(14, [], [])] + [Referenced(13, s, Pos(31, 15), false, false, [])], Declared(4, a1, Pos(33, 13), Initialized, []), 4);
      DeclsInSkip([] + [Declared(14, s, Pos(30, 42), Initialized, [])] + [OutAssigned(14, [], [])] + [Referenced(13, s, Pos(31, 15), false, false, [])] + [Declared(4, a1, Pos(33, 13), Initialized, [])], Referenced(4, a1, Pos(34, 34), false, false, []), 4);
      DeclsInSkip([] + [Declared(14, s, Pos(30, 42), Initialized, [])] + [OutAssigned(14, [], [])] + [Referenced(13, s, Pos(31, 15), false, false, [])] + [Declared(4, a1, Pos(33, 13), Initialized, [])] + [Referenced(4, a1, Pos(34, 34), false, false, [])], OutAssigned(4, [], []), 4);
      DeclsInSkip([] + [Declared(14, s, Pos(30, 42), Initialized, [])] + [OutAssigned(14, [], [])] + [Referenced(13, s, Pos(31, 15), false, false, [])] + [Declared(4, a1, Pos(33, 13), Initialized, [])] + [Referenced(4, a1, Pos(34, 34), false, false, [])] + [OutAssigned(4, [], [])], OutAssigned(16, [], []), 4);
      DeclsInSkip([] + [Declared(14, s, Pos(30, 42), Initialized, [])] + [OutAssigned(14, [], [])] + [Referenced(13, s, Pos(31, 15), false, false, [])] + [Declared(4, a1, Pos(33, 13), Initialized, [])] + [Referenced(4, a1, Pos(34, 34), false, false, [])] + [OutAssigned(4, [], [])] + [OutAssigned(16, [], [])], Declared(15, a1, Pos(37, 21), Initialized, []), 4);
    } else if sc == 15 {
      DeclsInSkip([], Declared(14, s, Pos(30, 42), Initialized, []), 15);
      DeclsInSkip([] + [Declared(14, s, Pos(30, 42), Initialized, [])], OutAssigned(14, [], []), 15);
      DeclsInSkip([] + [Declared(14, s, Pos(30, 42), Initialized, [])] + [OutAssigned(14, [], [])], Referenced(13, s, Pos(31, 15), false, false, []), 15);
      DeclsInSkip([] + [Declared(14, s, Pos(30, 42), Initialized, [])] + [OutAssigned(14, [], [])] + [Referenced(13, s, Pos(31, 15), false, false, [])], Declared(4, a1, Pos(33, 13), Initialized, []), 15);
      DeclsInSkip([] + [Declared(14, s, Pos(30, 42), Initialized, [])] + [OutAssigned(14, [], [])] + [Referenced(13, s, Pos(31, 15), false, false, [])] + [Declared(4, a1, Pos(33, 13), Initialized, [])], Referenced(4, a1, Pos(34, 34), false, false, []), 15);
      DeclsInSkip([] + [Declared(14, s, Pos(30, 42), Initialized, [])] + [OutAssigned(14, [], [])] + [Referenced(13, s, Pos(31, 15), false, false, [])] + [Declared(4, a1, Pos(33, 13), Initialized, [])] + [Referenced(4, a1, Pos(34, 34), false, false, [])], OutAssigned(4, [], []), 15);
      DeclsInSkip([] + [Declared(14, s, Pos(30, 42), Initialized, [])] + [OutAssigned(14, [], [])] + [Referenced(13, s, Pos(31, 15), false, false, [])] + [Declared(4, a1, Pos(33, 13), Initialized, [])] + [Referenced(4, a1, Pos(34, 34), false, false, [])] + [OutAssigned(4, [], [])], OutAssigned(16, [], []), 15);
      DeclsInAdd([] + [Declared(14, s, Pos(30, 42), Initialized, [])] + [OutAssigned(14, [], [])] + [Referenced(13, s, Pos(31, 15), false, false, [])] + [Declared(4, a1, Pos(33, 13), Initialized, [])] + [Referenced(4, a1, Pos(34, 34), false, false, [])] + [OutAssigned(4, [], [])] + [OutAssigned(16, [], [])], Declared(15, a1, Pos(37, 21), Initialized, []), 15);
    } else {
      DeclsInSkip([], Declared(14, s, Pos(30, 42), Initialized, []), sc);
      DeclsInSkip([] + [Declared(14, s, Pos(30, 42), Initialized, [])], OutAssigned(14, [], []), sc);
      DeclsInSkip([] + [Declared(14, s, Pos(30, 42), Initialized, [])] + [OutAssigned(14, [], [])], Referenced(13, s, Pos(31, 15), false, false, []), sc);
      DeclsInSkip([] + [Declared(14, s, Pos(30, 42), Initialized, [])] + [OutAssigned(14, [], [])] + [Referenced(13, s, Pos(31, 15), false, false, [])], Declared(4, a1, Pos(33, 13), Initialized, []), sc);
      DeclsInSkip([] + [Declared(14, s, Pos(30, 42), Initialized, [])] + [OutAssigned(14, [], [])] + [Referenced(13, s, Pos(31, 15), false, false, [])] + [Declared(4, a1, Pos(33, 13), Initialized, [])], Referenced(4, a1, Pos(34, 34), false, false, []), sc);
      DeclsInSkip([] + [Declared(14, s, Pos(30, 42), Initialized, [])] + [OutAssigned(14, [], [])] + [Referenced(13, s, Pos(31, 15), false, false, [])] + [Declared(4, a1, Pos(33, 13), Initialized, [])] + [Referenced(4, a1, Pos(34, 34), false, false, [])], OutAssigned(4, [], []), sc);
      DeclsInSkip([] + [Declared(14, s, Pos(30, 42), Initialized, [])] + [OutAssigned(14, [], [])] + [Referenced(13, s, Pos(31, 15), false, false, [])] + [Declared(4, a1, Pos(33, 13), Initialized, [])] + [Referenced(4, a1, Pos(34, 34), false, false, [])] + [OutAssigned(4, [], [])], OutAssigned(16, [], []), sc);
      DeclsInSkip([] + [Declared(14, s, Pos(30, 42), Initialized, [])] + [OutAssigned(14, [], [])] + [Referenced(13, s, Pos(31, 15), false, false, [])] + [Declared(4, a1, Pos(33, 13), Initialized, [])] + [Referenced(4, a1, Pos(34, 34), false, false, [])] + [OutAssigned(4, [], [])] + [OutAssigned(16, [], [])], Declared(15, a1, Pos(37, 21), Initialized, []), sc);
      AppendNil(DeclsIn(evs, sc));
    }
  }

  /** The locals declared once events 24 to 31 follow some events. */
  lemma {:induction false} Decls3(k: string, j: string, n: string, q: string, r: string, s: string, a1: string, a2: string, a3: string, c1: string, c2: string, c3: string, c4: string, d1: string, evs: seq<Event>, sc: nat)
    requires DeclsIn(evs, sc) == DeclaredBy(k, j, n, q, r, s, a1, a2, a3, c1, c2, c3, c4, d1, 3, sc)
    ensures DeclsIn(evs + Chunk3(k, j, n, q, r, s, a1, a2, a3, c1, c2, c3, c4, d1), sc) == DeclaredBy(k, j, n, q, r, s, a1, a2, a3, c1, c2, c3, c4, d1, 4, sc)
  {
    DeclsInAppend(evs, Chunk3(k, j, n, q, r, s, a1, a2, a3, c1, c2, c3, c4, d1), sc);
    assert DeclsIn([], sc) == [];
    if sc == 4 {
      DeclsInAdd([], Declared(4, a2, Pos(39, 13), Initialized, []), 4);
      DeclsInSkip([] + [Declared(4, a2, Pos(39, 13), Initialized, [])], Referenced(4, a2, Pos(40, 34), false, false, []), 4);
      DeclsInSkip([] + [Declared(4, a2, Pos(39, 13), Initialized, [])] + [Referenced(4, a2, Pos(40, 34), false, false, [])], OutAssigned(4, [], []), 4);
      DeclsInSkip([] + [Declared(4, a2, Pos(39, 13), Initialized, [])] + [Referenced(4, a2, Pos(40, 34), false, false, [])] + [OutAssigned(4, [], [])], Declared(18, a2, Pos(42, 42), Initialized, []), 4);
      DeclsInSkip([] + [Declared(4, a2, Pos(39, 13), Initialized, [])] + [Referenced(4, a2, Pos(40, 34), false, false, [])] + [OutAssigned(4, [], [])] + [Declared(18, a2, Pos(42, 42), Initialized, [])], OutAssigned(18, [], []), 4);
      DeclsInSkip([] + [Declared(4, a2, Pos(39, 13), Initialized, [])] + [Referenced(4, a2, Pos(40, 34), false, false, [])] + [OutAssigned(4, [], [])] + [Declared(18, a2, Pos(42, 42), Initialized, [])] + [OutAssigned(18, [], [])], Referenced(17, a2, Pos(43, 16), false, false, []), 4);
      DeclsInAdd([] + [Declared(4, a2, Pos(39, 13), Initialized, [])] + [Referenced(4, a2, Pos(40, 34), false, false, [])] + [OutAssigned(4, [], [])] + [Declared(18, a2, Pos(42, 42), Initialized, [])] + [OutAssigned(18, [], [])] + [Referenced(17, a2, Pos(43, 16), false, false, [])], Declared(4, a3, Pos(45, 13), Initialized, []), 4);
      DeclsInSkip([] + [Declared(4, a2, Pos(39, 13), Initialized, [])] + [Referenced(4, a2, Pos(40, 34), false, false, [])] + [OutAssigned(4, [], [])] + [Declared(18, a2, Pos(42, 42), Initialized, [])] + [OutAssigned(18, [], [])] + [Referenced(17, a2, Pos(43, 16), false, false, [])] + [Declared(4, a3, Pos(45, 13), Initialized, [])], Referenced(4, a3, Pos(46, 34), false, false, []), 4);
    } else if sc == 18 {
      DeclsInSkip([], Declared(4, a2, Pos(39, 13), Initialized, []), 18);
      DeclsInSkip([] + [Declared(4, a2, Pos(39, 13), Initialized, [])], Referenced(4, a2, Pos(40, 34), false, false, []), 18);
      DeclsInSkip([] + [Declared(4, a2, Pos(39, 13), Initialized, [])] + [Referenced(4, a2, Pos(40, 34), false, false, [])], OutAssigned(4, [], []), 18);
      DeclsInAdd([] + [Declared(4, a2, Pos(39, 13), Initialized, [])] + [Referenced(4, a2, Pos(40, 34), false, false, [])] + [OutAssigned(4, [], [])], Declared(18, a2, Pos(42, 42), Initialized, []), 18);
      DeclsInSkip([] + [Declared(4, a2, Pos(39, 13), Initialized, [])] + [Referenced(4, a2, Pos(40, 34), false, false, [])] + [OutAssigned(4, [], [])] + [Declared(18, a2, Pos(42, 42), Initialized, [])], OutAssigned(18, [], []), 18);
      DeclsInSkip([] + [Declared(4, a2, Pos(39, 13), Initialized, [])] + [Referenced(4, a2, Pos(40, 34), false, false, [])] + [OutAssigned(4, [], [])] + [Declared(18, a2, Pos(42, 42), Initialized, [])] + [OutAssigned(18, [], [])], Referenced(17, a2, Pos(43, 16), false, false, []), 18);
      DeclsInSkip([] + [Declared(4, a2, Pos(39, 13), Initialized, [])] + [Referenced(4, a2, Pos(40, 34), false, false, [])] + [OutAssigned(4, [], [])] + [Declared(18, a2, Pos(42, 42), Initialized, [])] + [OutAssigned(18, [], [])] + [Referenced(17, a2, Pos(43, 16), false, false, [])], Declared(4, a3, Pos(45, 13), Initialized, []), 18);
      DeclsInSkip([] + [Declared(4, a2, Pos(39, 13), Initialized, [])] + [Referenced(4, a2, Pos(40, 34), false, false, [])] + [OutAssigned(4, [], [])] + [Declared(18, a2, Pos(42, 42), Initialized, [])] + [OutAssigned(18, [], [])] + [Referenced(17, a2, Pos(43, 16), false, false, [])] + [Declared(4, a3, Pos(45, 13), Initialized, [])], Referenced(4, a3, Pos(46, 34), false, false, []), 18);
    } else {
      DeclsInSkip([], Declared(4, a2, Pos(39, 13), Initialized, []), sc);
      DeclsInSkip([] + [Declared(4, a2, Pos(39, 13), Initialized, [])], Referenced(4, a2, Pos(40, 34), false, false, []), sc);
      DeclsInSkip([] + [Declared(4, a2, Pos(39, 13), Initialized, [])] + [Referenced(4, a2, Pos(40, 34), false, false, [])], OutAssigned(4, [], []), sc);
      DeclsInSkip([] + [Declared(4, a2, Pos(39, 13), Initialized, [])] + [Referenced(4, a2, Pos(40, 34), false, false, [])] + [OutAssigned(4, [], [])], Declared(18, a2, Pos(42, 42), Initialized, []), sc);
      DeclsInSkip([] + [Declared(4, a2, Pos(39, 13), Initialized, [])] + [Referenced(4, a2, Pos(40, 34), false, false, [])] + [OutAssigned(4, [], [])] + [Declared(18, a2, Pos(42, 42), Initialized, [])], OutAssigned(18, [], []), sc);
      DeclsInSkip([] + [Declared(4, a2, Pos(39, 13), Initialized, [])] + [Referenced(4, a2, Pos(40, 34), false, false, [])] + [OutAssigned(4, [], [])] + [Declared(18, a2, Pos(42, 42), Initialized, [])] + [OutAssigned(18, [], [])], Referenced(17, a2, Pos(43, 16), false, false, []), sc);
      DeclsInSkip([] + [Declared(4, a2, Pos(39, 13), Initialized, [])] + [Referenced(4, a2, Pos(40, 34), false, false, [])] + [OutAssigned(4, [], [])] + [Declared(18, a2, Pos(42, 42), Initialized, [])] + [OutAssigned(18, [], [])] + [Referenced(17, a2, Pos(43, 16), false, false, [])], Declared(4, a3, Pos(45, 13), Initialized, []), sc);
      DeclsInSkip([] + [Declared(4, a2, Pos(39, 13), Initialized, [])] + [Referenced(4, a2, Pos(40, 34), false, false, [])] + [OutAssigned(4, [], [])] + [Declared(18, a2, Pos(42, 42), Initialized, [])] + [OutAssigned(18, [], [])] + [Referenced(17, a2, Pos(43, 16), false, false, [])] + [Declared(4, a3, Pos(45, 13), Initialized, [])], Referenced(4, a3, Pos(46, 34), false, false, []), sc);
      AppendNil(DeclsIn(evs, sc));
    }
  }

  /** The locals declared once events 32 to 39 follow some events. */
  lemma {:induction false} Decls4(k: string, j: string, n: string, q: string, r: string, s: string, a1: string, a2: string, a3: string, c1: string, c2: string, c3: string, c4: string, d1: string, evs: seq<Event>, sc: nat)
    requires DeclsIn(evs, sc) == DeclaredBy(k, j, n, q, r, s, a1, a2, a3, c1, c2, c3, c4, d1, 4, sc)
    ensures DeclsIn(evs + Chunk4(k, j, n, q, r, s, a1, a2, a3, c1, c2, c3, c4, d1), sc) == DeclaredBy(k, j, n, q, r, s, a1, a2, a3, c1, c2, c3, c4, d1, 5, sc)
  {
    DeclsInAppend(evs, Chunk4(k, j, n, q, r, s, a1, a2, a3, c1, c2, c3, c4, d1), sc);
    assert DeclsIn([], sc) == [];
    if sc == 20 {
      DeclsInSkip([], OutAssigned(4, [], []), 20);
      DeclsInAdd([] + [OutAssigned(4, [], [])], Declared(20, a3, Pos(49, 42), Initialized, []), 20);
      DeclsInSkip([] + [OutAssigned(4, [], [])] + [Declared(20, a3, Pos(49, 42), Initialized, [])], OutAssigned(20, [], []), 20);
      DeclsInSkip([] + [OutAssigned(4, [], [])] + [Declared(20, a3, Pos(49, 42), Initialized, [])] + [OutAssigned(20, [], [])], Referenced(19, a2, Pos(51, 16), false, false, []), 20);
      DeclsInSkip([] + [OutAssigned(4, [], [])] + [Declared(20, a3, Pos(49, 42), Initialized, [])] + [OutAssigned(20, [], [])] + [Referenced(19, a2, Pos(51, 16), false, false, [])], OutAssigned(22, [], []), 20);
      DeclsInSkip([] + [OutAssigned(4, [], [])] + [Declared(20, a3, Pos(49, 42), Initialized, [])] + [OutAssigned(20, [], [])] + [Referenced(19, a2, Pos(51, 16), false, false, [])] + [OutAssigned(22, [], [])], Declared(21, c1, Pos(55, 22), Initialized, []), 20);
      DeclsInSkip([] + [OutAssigned(4, [], [])] + [Declared(20, a3, Pos(49, 42), Initialized, [])] + [OutAssigned(20, [], [])] + [Referenced(19, a2, Pos(51, 16), false, false, [])] + [OutAssigned(22, [], [])] + [Declared(21, c1, Pos(55, 22), Initialized, [])], Declared(21, c1, Pos(55, 42), Initialized, []), 20);
      DeclsInSkip([] + [OutAssigned(4, [], [])] + [Declared(20, a3, Pos(49, 42), Initialized, [])] + [OutAssigned(20, [], [])] + [Referenced(19, a2, Pos(51, 16), false, false, [])] + [OutAssigned(22, [], [])] + [Declared(21, c1, Pos(55, 22), Initialized, [])] + [Declared(21, c1, Pos(55, 42), Initialized, [])], Declared(24, c2, Pos(58, 42), Initialized, []), 20);
    } else if sc == 21 {
      DeclsInSkip([], OutAssigned(4, [], []), 21);
      DeclsInSkip([] + [OutAssigned(4, [], [])], Declared(20, a3, Pos(49, 42), Initialized, []), 21);
      DeclsInSkip([] + [OutAssigned(4, [], [])] + [Declared(20, a3, Pos(49, 42), Initialized, [])], OutAssigned(20, [], []), 21);
      DeclsInSkip([] + [OutAssigned(4, [], [])] + [Declared(20, a3, Pos(49, 42), Initialized, [])] + [OutAssigned(20, [], [])], Referenced(19, a2, Pos(51, 16), false, false, []), 21);
      DeclsInSkip([] + [OutAssigned(4, [], [])] + [Declared(20, a3, Pos(49, 42), Initialized, [])] + [OutAssigned(20, [], [])] + [Referenced(19, a2, Pos(51, 16), false, false, [])], OutAssigned(22, [], []), 21);
      DeclsInAdd([] + [OutAssigned(4, [], [])] + [Declared(20, a3, Pos(49, 42), Initialized, [])] + [OutAssigned(20, [], [])] + [Referenced(19, a2, Pos(51, 16), false, false, [])] + [OutAssigned(22, [], [])], Declared(21, c1, Pos(55, 22), Initialized, []), 21);
      DeclsInAdd([] + [OutAssigned(4, [], [])] + [Declared(20, a3, Pos(49, 42), Initialized, [])] + [OutAssigned(20, [], [])] + [Referenced(19, a2, Pos(51, 16), false, false, [])] + [OutAssigned(22, [], [])] + [Declared(21, c1, Pos(55, 22), Initialized, [])], Declared(21, c1, Pos(55, 42), Initialized, []), 21);
      DeclsInSkip([] + [OutAssigned(4, [], [])] + [Declared(20, a3, Pos(49, 42), Initialized, [])] + [OutAssigned(20, [], [])] + [Referenced(19, a2, Pos(51, 16), false, false, [])] + [OutAssigned(22, [], [])] + [Declared(21, c1, Pos(55, 22), Initialized, [])] + [Declared(21, c1, Pos(55, 42), Initialized, [])], Declared(24, c2, Pos(58, 42), Initialized, []), 21);
    } else if sc == 24 {
      DeclsInSkip([], OutAssigned(4, [], []), 24);
      DeclsInSkip([] + [OutAssigned(4, [], [])], Declared(20, a3, Pos(49, 42), Initialized, []), 24);
      DeclsInSkip([] + [OutAssigned(4, [], [])] + [Declared(20, a3, Pos(49, 42), Initialized, [])], OutAssigned(20, [], []), 24);
      DeclsInSkip([] + [OutAssigned(4, [], [])] + [Declared(20, a3, Pos(49, 42), Initialized, [])] + [OutAssigned(20, [], [])], Referenced(19, a2, Pos(51, 16), false, false, []), 24);
      DeclsInSkip([] + [OutAssigned(4, [], [])] + [Declared(20, a3, Pos(49, 42), Initialized, [])] + [OutAssigned(20, [], [])] + [Referenced(19, a2, Pos(51, 16), false, false, [])], OutAssigned(22, [], []), 24);
      DeclsInSkip([] + [OutAssigned(4, [], [])] + [Declared(20, a3, Pos(49, 42), Initialized, [])] + [OutAssigned(20, [], [])] + [Referenced(19, a2, Pos(51, 16), false, false, [])] + [OutAssigned(22, [], [])], Declared(21, c1, Pos(55, 22), Initialized, []), 24);
      DeclsInSkip([] + [OutAssigned(4, [], [])] + [Declared(20, a3, Pos(49, 42), Initialized, [])] + [OutAssigned(20, [], [])] + [Referenced(19, a2, Pos(51, 16), false, false, [])] + [OutAssigned(22, [], [])] + [Declared(21, c1, Pos(55, 22), Initialized, [])], Declared(21, c1, Pos(55, 42), Initialized, []), 24);
      DeclsInAdd([] + [OutAssigned(4, [], [])] + [Declared(20, a3, Pos(49, 42), Initialized, [])] + [OutAssigned(20, [], [])] + [Referenced(19, a2, Pos(51, 16), false, false, [])] + [OutAssigned(22, [], [])] + [Declared(21, c1, Pos(55, 22), Initialized, [])] + [Declared(21, c1, Pos(55, 42), Initialized, [])], Declared(24, c2, Pos(58, 42), Initialized, []), 24);
    } else {
      DeclsInSkip([], OutAssigned(4, [], []), sc);
      DeclsInSkip([] + [OutAssigned(4, [], [])], Declared(20, a3, Pos(49, 42), Initialized, []), sc);
      DeclsInSkip([] + [OutAssigned(4, [], [])] + [Declared(20, a3, Pos(49, 42), Initialized, [])], OutAssigned(20, [], []), sc);
      DeclsInSkip([] + [OutAssigned(4, [], [])] + [Declared(20, a3, Pos(49, 42), Initialized, [])] + [OutAssigned(20, [], [])], Referenced(19, a2, Pos(51, 16), false, false, []), sc);
      DeclsInSkip([] + [OutAssigned(4, [], [])] + [Declared(20, a3, Pos(49, 42), Initialized, [])] + [OutAssigned(20, [], [])] + [Referenced(19, a2, Pos(51, 16), false, false, [])], OutAssigned(22, [], []), sc);
      DeclsInSkip([] + [OutAssigned(4, [], [])] + [Declared(20, a3, Pos(49, 42), Initialized, [])] + [OutAssigned(20, [], [])] + [Referenced(19, a2, Pos(51, 16), false, false, [])] + [OutAssigned(22, [], [])], Declared(21, c1, Pos(55, 22), Initialized, []), sc);
      DeclsInSkip([] + [OutAssigned(4, [], [])] + [Declared(20, a3, Pos(49, 42), Initialized, [])] + [OutAssigned(20, [], [])] + [Referenced(19, a2, Pos(51, 16), false, false, [])] + [OutAssigned(22, [], [])] + [Declared(21, c1, Pos(55, 22), Initialized, [])], Declared(21, c1, Pos(55, 42), Initialized, []), sc);
      DeclsInSkip([] + [OutAssigned(4, [], [])] + [Declared(20, a3, Pos(49, 42), Initialized, [])] + [OutAssigned(20, [], [])] + [Referenced(19, a2, Pos(51, 16), false, false, [])] + [OutAssigned(22, [], [])] + [Declared(21, c1, Pos(55, 22), Initialized, [])] + [Declared(21, c1, Pos(55, 42), Initialized, [])], Declared(24, c2, Pos(58, 42), Initialized, []), sc);
      AppendNil(DeclsIn(evs, sc));
    }
  }

  /** The locals declared once events 40 to 47 follow some events. */
  lemma {:induction false} Decls5(k: string, j: string, n: string, q: string, r: string, s: string, a1: string, a2: string, a3: string, c1: string, c2: string, c3: string, c4: string, d1: string, evs: seq<Event>, sc: nat)
    requires DeclsIn(evs, sc) == DeclaredBy(k, j, n, q, r, s, a1, a2, a3, c1, c2, c3, c4, d1, 5, sc)
    ensures DeclsIn(evs + Chunk5(k, j, n, q, r, s, a1, a2, a3, c1, c2, c3, c4, d1), sc) == DeclaredBy(k, j, n, q, r, s, a1, a2, a3, c1, c2, c3, c4, d1, 6, sc)
  {
    DeclsInAppend(evs, Chunk5(k, j, n, q, r, s, a1, a2, a3, c1, c2, c3, c4, d1), sc);
    assert DeclsIn([], sc) == [];
    if sc == 23 {
      DeclsInSkip([], OutAssigned(24, [], []), 23);
      DeclsInAdd([] + [OutAssigned(24, [], [])], Declared(23, c2, Pos(59, 21), Initialized, []), 23);
      DeclsInSkip([] + [OutAssigned(24, [], [])] + [Declared(23, c2, Pos(59, 21), Initialized, [])], Declared(26, c3, Pos(63, 42), Initialized, []), 23);
      DeclsInSkip([] + [OutAssigned(24, [], [])] + [Declared(23, c2, Pos(59, 21), Initialized, [])] + [Declared(26, c3, Pos(63, 42), Initialized, [])], OutAssigned(26, [], []), 23);
      DeclsInSkip([] + [OutAssigned(24, [], [])] + [Declared(23, c2, Pos(59, 21), Initialized, [])] + [Declared(26, c3, Pos(63, 42), Initialized, [])] + [OutAssigned(26, [], [])], Declared(25, c3, Pos(65, 21), Initialized, []), 23);
      DeclsInSkip([] + [OutAssigned(24, [], [])] + [Declared(23, c2, Pos(59, 21), Initialized, [])] + [Declared(26, c3, Pos(63, 42), Initialized, [])] + [OutAssigned(26, [], [])] + [Declared(25, c3, Pos(65, 21), Initialized, [])], Declared(28, c4, Pos(69, 17), Initialized, []), 23);
      DeclsInSkip([] + [OutAssigned(24, [], [])] + [Declared(23, c2, Pos(59, 21), Initialized, [])] + [Declared(26, c3, Pos(63, 42), Initialized, [])] + [OutAssigned(26, [], [])] + [Declared(25, c3, Pos(65, 21), Initialized, [])] + [Declared(28, c4, Pos(69, 17), Initialized, [])], Referenced(28, c4, Pos(70, 38), false, false, []), 23);
      DeclsInSkip([] + [OutAssigned(24, [], [])] + [Declared(23, c2, Pos(59, 21), Initialized, [])] + [Declared(26, c3, Pos(63, 42), Initialized, [])] + [OutAssigned(26, [], [])] + [Declared(25, c3, Pos(65, 21), Initialized, [])] + [Declared(28, c4, Pos(69, 17), Initialized, [])] + [Referenced(28, c4, Pos(70, 38), false, false, [])], OutAssigned(28, [], []), 23);
    } else if sc == 26 {
      DeclsInSkip([], OutAssigned(24, [], []), 26);
      DeclsInSkip([] + [OutAssigned(24, [], [])], Declared(23, c2, Pos(59, 21), Initialized, []), 26);
      DeclsInAdd([] + [OutAssigned(24, [], [])] + [Declared(23, c2, Pos(59, 21), Initialized, [])], Declared(26, c3, Pos(63, 42), Initialized, []), 26);
      DeclsInSkip([] + [OutAssigned(24, [], [])] + [Declared(23, c2, Pos(59, 21), Initialized, [])] + [Declared(26, c3, Pos(63, 42), Initialized, [])], OutAssigned(26, [], []), 26);
      DeclsInSkip([] + [OutAssigned(24, [], [])] + [Declared(23, c2, Pos(59, 21), Initialized, [])] + [Declared(26, c3, Pos(63, 42), Initialized, [])] + [OutAssigned(26, [], [])], Declared(25, c3, Pos(65, 21), Initialized, []), 26);
      DeclsInSkip([] + [OutAssigned(24, [], [])] + [Declared(23, c2, Pos(59, 21), Initialized, [])] + [Declared(26, c3, Pos(63, 42), Initialized, [])] + [OutAssigned(26, [], [])] + [Declared(25, c3, Pos(65, 21), Initialized, [])], Declared(28, c4, Pos(69, 17), Initialized, []), 26);
      DeclsInSkip([] + [OutAssigned(24, [], [])] + [Declared(23, c2, Pos(59, 21), Initialized, [])] + [Declared(26, c3, Pos(63, 42), Initialized, [])] + [OutAssigned(26, [], [])] + [Declared(25, c3, Pos(65, 21), Initialized, [])] + [Declared(28, c4, Pos(69, 17), Initialized, [])], Referenced(28, c4, Pos(70, 38), false, false, []), 26);
      DeclsInSkip([] + [OutAssigned(24, [], [])] + [Declared(23, c2, Pos(59, 21), Initialized, [])] + [Declared(26, c3, Pos(63, 42), Initialized, [])] + [OutAssigned(26, [], [])] + [Declared(25, c3, Pos(65, 21), Initialized, [])] + [Declared(28, c4, Pos(69, 17), Initialized, [])] + [Referenced(28, c4, Pos(70, 38), false, false, [])], OutAssigned(28, [], []), 26);
    } else if sc == 25 {
      DeclsInSkip([], OutAssigned(24, [], []), 25);
      DeclsInSkip([] + [OutAssigned(24, [], [])], Declared(23, c2, Pos(59, 21), Initialized, []), 25);
      DeclsInSkip([] + [OutAssigned(24, [], [])] + [Declared(23, c2, Pos(59, 21), Initialized, [])], Declared(26, c3, Pos(63, 42), Initialized, []), 25);
      DeclsInSkip([] + [OutAssigned(24, [], [])] + [Declared(23, c2, Pos(59, 21), Initialized, [])] + [Declared(26, c3, Pos(63, 42), Initialized, [])], OutAssigned(26, [], []), 25);
      DeclsInAdd([] + [OutAssigned(24, [], [])] + [Declared(23, c2, Pos(59, 21), Initialized, [])] + [Declared(26, c3, Pos(63, 42), Initialized, [])] + [OutAssigned(26, [], [])], Declared(25, c3, Pos(65, 21), Initialized, []), 25);
      DeclsInSkip([] + [OutAssigned(24, [], [])] + [Declared(23, c2, Pos(59, 21), Initialized, [])] + [Declared(26, c3, Pos(63, 42), Initialized, [])] + [OutAssigned(26, [], [])] + [Declared(25, c3, Pos(65, 21), Initialized, [])], Declared(28, c4, Pos(69, 17), Initialized, []), 25);
      DeclsInSkip([] + [OutAssigned(24, [], [])] + [Declared(23, c2, Pos(59, 21), Initialized, [])] + [Declared(26, c3, Pos(63, 42), Initialized, [])] + [OutAssigned(26, [], [])] + [Declared(25, c3, Pos(65, 21), Initialized, [])] + [Declared(28, c4, Pos(69, 17), Initialized, [])], Referenced(28, c4, Pos(70, 38), false, false, []), 25);
      DeclsInSkip([] + [OutAssigned(24, [], [])] + [Declared(23, c2, Pos(59, 21), Initialized, [])] + [Declared(26, c3, Pos(63, 42), Initialized, [])] + [OutAssigned(26, [], [])] + [Declared(25, c3, Pos(65, 21), Initialized, [])] + [Declared(28, c4, Pos(69, 17), Initialized, [])] + [Referenced(28, c4, Pos(70, 38), false, false, [])], OutAssigned(28, [], []), 25);
    } else if sc == 28 {
      DeclsInSkip([], OutAssigned(24, [], []), 28);
      DeclsInSkip([] + [OutAssigned(24, [], [])], Declared(23, c2, Pos(59, 21), Initialized, []), 28);
      DeclsInSkip([] + [OutAssigned(24, [], [])] + [Declared(23, c2, Pos(59, 21), Initialized, [])], Declared(26, c3, Pos(63, 42), Initialized, []), 28);
      DeclsInSkip([] + [OutAssigned(24, [], [])] + [Declared(23, c2, Pos(59, 21), Initialized, [])] + [Declared(26, c3, Pos(63, 42), Initialized, [])], OutAssigned(26, [], []), 28);
      DeclsInSkip([] + [OutAssigned(24, [], [])] + [Declared(23, c2, Pos(59, 21), Initialized, [])] + [Declared(26, c3, Pos(63, 42), Initialized, [])] + [OutAssigned(26, [], [])], Declared(25, c3, Pos(65, 21), Initialized, []), 28);
      DeclsInAdd([] + [OutAssigned(24, [], [])] + [Declared(23, c2, Pos(59, 21), Initialized, [])] + [Declared(26, c3, Pos(63, 42), Initialized, [])] + [OutAssigned(26, [], [])] + [Declared(25, c3, Pos(65, 21), Initialized, [])], Declared(28, c4, Pos(69, 17), Initialized, []), 28);
      DeclsInSkip([] + [OutAssigned(24, [], [])] + [Declared(23, c2, Pos(59, 21), Initialized, [])] + [Declared(26, c3, Pos(63, 42), Initialized, [])] + [OutAssigned(26, [], [])] + [Declared(25, c3, Pos(65, 21), Initialized, [])] + [Declared(28, c4, Pos(69, 17), Initialized, [])], Referenced(28, c4, Pos(70, 38), false, false, []), 28);
      DeclsInSkip([] + [OutAssigned(24, [], [])] + [Declared(23, c2, Pos(59, 21), Initialized, [])] + [Declared(26, c3, Pos(63, 42), Initialized, [])] + [OutAssigned(26, [], [])] + [Declared(25, c3, Pos(65, 21), Initialized, [])] + [Declared(28, c4, Pos(69, 17), Initialized, [])] + [Referenced(28, c4, Pos(70, 38), false, false, [])], OutAssigned(28, [], []), 28);
    } else {
      DeclsInSkip([], OutAssigned(24, [], []), sc);
      DeclsInSkip([] + [OutAssigned(24, [], [])], Declared(23, c2, Pos(59, 21), Initialized, []), sc);
      DeclsInSkip([] + [OutAssigned(24, [], [])] + [Declared(23, c2, Pos(59, 21), Initialized, [])], Declared(26, c3, Pos(63, 42), Initialized, []), sc);
      DeclsInSkip([] + [OutAssigned(24, [], [])] + [Declared(23, c2, Pos(59, 21), Initialized, [])] + [Declared(26, c3, Pos(63, 42), Initialized, [])], OutAssigned(26, [], []), sc);
      DeclsInSkip([] + [OutAssigned(24, [], [])] + [Declared(23, c2, Pos(59, 21), Initialized, [])] + [Declared(26, c3, Pos(63, 42), Initialized, [])] + [OutAssigned(26, [], [])], Declared(25, c3, Pos(65, 21), Initialized, []), sc);
      DeclsInSkip([] + [OutAssigned(24, [], [])] + [Declared(23, c2, Pos(59, 21), Initialized, [])] + [Declared(26, c3, Pos(63, 42), Initialized, [])] + [OutAssigned(26, [], [])] + [Declared(25, c3, Pos(65, 21), Initialized, [])], Declared(28, c4, Pos(69, 17), Initialized, []), sc);
      DeclsInSkip([] + [OutAssigned(24, [], [])] + [Declared(23, c2, Pos(59, 21), Initialized, [])] + [Declared(26, c3, Pos(63, 42), Initialized, [])] + [OutAssigned(26, [], [])] + [Declared(25, c3, Pos(65, 21), Initialized, [])] + [Declared(28, c4, Pos(69, 17), Initialized, [])], Referenced(28, c4, Pos(70, 38), false, false, []), sc);
      DeclsInSkip([] + [OutAssigned(24, [], [])] + [Declared(23, c2, Pos(59, 21), Initialized, [])] + [Declared(26, c3, Pos(63, 42), Initialized, [])] + [OutAssigned(26, [], [])] + [Declared(25, c3, Pos(65, 21), Initialized, [])] + [Declared(28, c4, Pos(69, 17), Initialized, [])] + [Referenced(28, c4, Pos(70, 38), false, false, [])], OutAssigned(28, [], []), sc);
      AppendNil(DeclsIn(evs, sc));
    }
  }

  /** The locals declared once events 48 to 52 follow some events. */
  lemma {:induction false} Decls6(k: string, j: string, n: string, q: string, r: string, s: string, a1: string, a2: string, a3: string, c1: string, c2: string, c3: string, c4: string, d1: string, evs: seq<Event>, sc: nat)
    requires DeclsIn(evs, sc) == DeclaredBy(k, j, n, q, r, s, a1, a2, a3, c1, c2, c3, c4, d1, 6, sc)
    ensures DeclsIn(evs + Chunk6(k, j, n, q, r, s, a1, a2, a3, c1, c2, c3, c4, d1), sc) == DeclaredBy(k, j, n, q, r, s, a1, a2, a3, c1, c2, c3, c4, d1, 7, sc)
  {
    DeclsInAppend(evs, Chunk6(k, j, n, q, r, s, a1, a2, a3, c1, c2, c3, c4, d1), sc);
    assert DeclsIn([], sc) == [];
    if sc == 27 {
      DeclsInAdd([], Declared(27, c4, Pos(72, 21), Initialized, []), 27);
      DeclsInSkip([] + [Declared(27, c4, Pos(72, 21), Initialized, [])], Declared(30, d1, Pos(75, 43), Initialized, []), 27);
      DeclsInSkip([] + [Declared(27, c4, Pos(72, 21), Initialized, [])] + [Declared(30, d1, Pos(75, 43), Initialized, [])], Declared(30, d1, Pos(75, 58), Initialized, []), 27);
      DeclsInSkip([] + [Declared(27, c4, Pos(72, 21), Initialized, [])] + [Declared(30, d1, Pos(75, 43), Initialized, [])] + [Declared(30, d1, Pos(75, 58), Initialized, [])], OutAssigned(30, [], []), 27);
      DeclsInSkip([] + [Declared(27, c4, Pos(72, 21), Initialized, [])] + [Declared(30, d1, Pos(75, 43), Initialized, [])] + [Declared(30, d1, Pos(75, 58), Initialized, [])] + [OutAssigned(30, [], [])], Referenced(29, a2, Pos(76, 16), false, false, []), 27);
    } else if sc == 30 {
      DeclsInSkip([], Declared(27, c4, Pos(72, 21), Initialized, []), 30);
      DeclsInAdd([] + [Declared(27, c4, Pos(72, 21), Initialized, [])], Declared(30, d1, Pos(75, 43), Initialized, []), 30);
      DeclsInAdd([] + [Declared(27, c4, Pos(72, 21), Initialized, [])] + [Declared(30, d1, Pos(75, 43), Initialized, [])], Declared(30, d1, Pos(75, 58), Initialized, []), 30);
      DeclsInSkip([] + [Declared(27, c4, Pos(72, 21), Initialized, [])] + [Declared(30, d1, Pos(75, 43), Initialized, [])] + [Declared(30, d1, Pos(75, 58), Initialized, [])], OutAssigned(30, [], []), 30);
      DeclsInSkip([] + [Declared(27, c4, Pos(72, 21), Initialized, [])] + [Declared(30, d1, Pos(75, 43), Initialized, [])] + [Declared(30, d1, Pos(75, 58), Initialized, [])] + [OutAssigned(30, [], [])], Referenced(29, a2, Pos(76, 16), false, false, []), 30);
    } else {
      DeclsInSkip([], Declared(27, c4, Pos(72, 21), Initialized, []), sc);
      DeclsInSkip([] + [Declared(27, c4, Pos(72, 21), Initialized, [])], Declared(30, d1, Pos(75, 43), Initialized, []), sc);
      DeclsInSkip([] + [Declared(27, c4, Pos(72, 21), Initialized, [])] + [Declared(30, d1, Pos(75, 43), Initialized, [])], Declared(30, d1, Pos(75, 58), Initialized, []), sc);
      DeclsInSkip([] + [Declared(27, c4, Pos(72, 21), Initialized, [])] + [Declared(30, d1, Pos(75, 43), Initialized, [])] + [Declared(30, d1, Pos(75, 58), Initialized, [])], OutAssigned(30, [], []), sc);
      DeclsInSkip([] + [Declared(27, c4, Pos(72, 21), Initialized, [])] + [Declared(30, d1, Pos(75, 43), Initialized, [])] + [Declared(30, d1, Pos(75, 58), Initialized, [])] + [OutAssigned(30, [], [])], Referenced(29, a2, Pos(76, 16), false, false, []), sc);
      AppendNil(DeclsIn(evs, sc));
    }
  }

  lemma {:induction false} DeclsStage0(k: string, j: string, n: string, q: string, r: string, s: string, a1: string, a2: string, a3: string, c1: string, c2: string, c3: string, c4: string, d1: string, evs: seq<Event>, sc: nat)
    requires DeclsIn(evs, sc) == DeclaredBy(k, j, n, q, r, s, a1, a2, a3, c1, c2, c3, c4, d1, 0, sc)
    ensures DeclsIn(evs + Chunk0(k, j, n, q, r, s, a1, a2, a3, c1, c2, c3, c4, d1) + Chunk1(k, j, n, q, r, s, a1, a2, a3, c1, c2, c3, c4, d1) + Chunk2(k, j, n, q, r, s, a1, a2, a3, c1, c2, c3, c4, d1) + Chunk3(k, j, n, q, r, s, a1, a2, a3, c1, c2, c3, c4, d1) + Chunk4(k, j, n, q, r, s, a1, a2, a3, c1, c2, c3, c4, d1) + Chunk5(k, j, n, q, r, s, a1, a2, a3, c1, c2, c3, c4, d1), sc) == DeclaredBy(k, j, n, q, r, s, a1, a2, a3, c1, c2, c3, c4, d1, 6, sc)
  {
    Decls0(k, j, n, q, r, s, a1, a2, a3, c1, c2, c3, c4, d1, evs, sc);
    Decls1(k, j, n, q, r, s, a1, a2, a3, c1, c2, c3, c4, d1, evs + Chunk0(k, j, n, q, r, s, a1, a2, a3, c1, c2, c3, c4, d1), sc);
    Decls2(k, j, n, q, r, s, a1, a2, a3, c1, c2, c3, c4, d1, evs + Chunk0(k, j, n, q, r, s, a1, a2, a3, c1, c2, c3, c4, d1) + Chunk1(k, j, n, q, r, s, a1, a2, a3, c1, c2, c3, c4, d1), sc);
    Decls3(k, j, n, q, r, s, a1, a2, a3, c1, c2, c3, c4, d1, evs + Chunk0(k, j, n, q, r, s, a1, a2, a3, c1, c2, c3, c4, d1) + Chunk1(k, j, n, q, r, s, a1, a2, a3, c1, c2, c3, c4, d1) + Chunk2(k, j, n, q, r, s, a1, a2, a3, c1, c2, c3, c4, d1), sc);
    Decls4(k, j, n, q, r, s, a1, a2, a3, c1, c2, c3, c4, d1, evs + Chunk0(k, j, n, q, r, s, a1, a2, a3, c1, c2, c3, c4, d1) + Chunk1(k, j, n, q, r, s, a1, a2, a3, c1, c2, c3, c4, d1) + Chunk2(k, j, n, q, r, s, a1, a2, a3, c1, c2, c3, c4, d1) + Chunk3(k, j, n, q, r, s, a1, a2, a3, c1, c2, c3, c4, d1), sc);
    Decls5(k, j, n, q, r, s, a1, a2, a3, c1, c2, c3, c4, d1, evs + Chunk0(k, j, n, q, r, s, a1, a2, a3, c1, c2, c3, c4, d1) + Chunk1(k, j, n, q, r, s, a1, a2, a3, c1, c2, c3, c4, d1) + Chunk2(k, j, n, q, r, s, a1, a2, a3, c1, c2, c3, c4, d1) + Chunk3(k, j, n, q, r, s, a1, a2, a3, c1, c2, c3, c4, d1) + Chunk4(k, j, n, q, r, s, a1, a2, a3, c1, c2, c3, c4, d1), sc);
  }

  lemma {:induction false} DeclsStage1(k: string, j: string, n: string, q: string, r: string, s: string, a1: string, a2: string, a3: string, c1: string, c2: string, c3: string, c4: string, d1: string, evs: seq<Event>, sc: nat)
    requires DeclsIn(evs, sc) == DeclaredBy(k, j, n, q, r, s, a1, a2, a3, c1, c2, c3, c4, d1, 6, sc)
    ensures DeclsIn(evs + Chunk6(k, j, n, q, r, s, a1, a2, a3, c1, c2, c3, c4, d1), sc) == DeclaredBy(k, j, n, q, r, s, a1, a2, a3, c1, c2, c3, c4, d1, 7, sc)
  {
    Decls6(k, j, n, q, r, s, a1, a2, a3, c1, c2, c3, c4, d1, evs, sc);
  }

  /** The locals of every scope of a tree whose events are the test's, as the table gives them. */
  ghost predicate LocalsFit(k: string, j: string, n: string, q: string, r: string, s: string, a1: string, a2: string, a3: string, c1: string, c2: string, c3: string, c4: string, d1: string, tr: Tree) {
    forall sc: nat {:trigger DeclaredBy(k, j, n, q, r, s, a1, a2, a3, c1, c2, c3, c4, d1, 7, sc)} :: LocalsOf(tr, sc) == DeclaredBy(k, j, n, q, r, s, a1, a2, a3, c1, c2, c3, c4, d1, 7, sc)
  }

  /** The locals of every scope. */
  lemma {:induction false} LocalsAll(k: string, j: string, n: string, q: string, r: string, s: string, a1: string, a2: string, a3: string, c1: string, c2: string, c3: string, c4: string, d1: string, tr: Tree)
    requires tr.events == Trace(k, j, n, q, r, s, a1, a2, a3, c1, c2, c3, c4, d1)
    ensures LocalsFit(k, j, n, q, r, s, a1, a2, a3, c1, c2, c3, c4, d1, tr)
  {
    forall sc: nat
      ensures LocalsOf(tr, sc) == DeclaredBy(k, j, n, q, r, s, a1, a2, a3, c1, c2, c3, c4, d1, 7, sc)
    {
      assert DeclsIn([], sc) == [] == DeclaredBy(k, j, n, q, r, s, a1, a2, a3, c1, c2, c3, c4, d1, 0, sc);
      DeclsStage0(k, j, n, q, r, s, a1, a2, a3, c1, c2, c3, c4, d1, [], sc);
      DeclsStage1(k, j, n, q, r, s, a1, a2, a3, c1, c2, c3, c4, d1, [] + Chunk0(k, j, n, q, r, s, a1, a2, a3, c1, c2, c3, c4, d1) + Chunk1(k, j, n, q, r, s, a1, a2, a3, c1, c2, c3, c4, d1) + Chunk2(k, j, n, q, r, s, a1, a2, a3, c1, c2, c3, c4, d1) + Chunk3(k, j, n, q, r, s, a1, a2, a3, c1, c2, c3, c4, d1) + Chunk4(k, j, n, q, r, s, a1, a2, a3, c1, c2, c3, c4, d1) + Chunk5(k, j, n, q, r, s, a1, a2, a3, c1, c2, c3, c4, d1), sc);
    }
  }

  /** The locals scope 0 declares, in order. */
  lemma {:induction false} Locals0(k: string, j: string, n: string, q: string, r: string, s: string, a1: string, a2: string, a3: string, c1: string, c2: string, c3: string, c4: string, d1: string)
    ensures DeclaredBy(k, j, n, q, r, s, a1, a2, a3, c1, c2, c3, c4, d1, 7, 0) == []
  {
    AppendNil([]);
    assert DeclaredBy(k, j, n, q, r, s, a1, a2, a3, c1, c2, c3, c4, d1, 1, 0) == [];
    assert DeclaredBy(k, j, n, q, r, s, a1, a2, a3, c1, c2, c3, c4, d1, 2, 0) == [];
    assert DeclaredBy(k, j, n, q, r, s, a1, a2, a3, c1, c2, c3, c4, d1, 3, 0) == [];
    assert DeclaredBy(k, j, n, q, r, s, a1, a2, a3, c1, c2, c3, c4, d1, 4, 0) == [];
    assert DeclaredBy(k, j, n, q, r, s, a1, a2, a3, c1, c2, c3, c4, d1, 5, 0) == [];
    assert DeclaredBy(k, j, n, q, r, s, a1, a2, a3, c1, c2, c3, c4, d1, 6, 0) == [];
    assert DeclaredBy(k, j, n, q, r, s, a1, a2, a3, c1, c2, c3, c4, d1, 7, 0) == [];
  }

  /** The locals scope 3 declares, in order. */
  lemma {:induction false} Locals3(k: string, j: string, n: string, q: string, r: string, s: string, a1: string, a2: string, a3: string, c1: string, c2: string, c3: string, c4: string, d1: string)
    ensures DeclaredBy(k, j, n, q, r, s, a1, a2, a3, c1, c2, c3, c4, d1, 7, 3) == []
  {
    AppendNil([]);
    assert DeclaredBy(k, j, n, q, r, s, a1, a2, a3, c1, c2, c3, c4, d1, 1, 3) == [];
    assert DeclaredBy(k, j, n, q, r, s, a1, a2, a3, c1, c2, c3, c4, d1, 2, 3) == [];
    assert DeclaredBy(k, j, n, q, r, s, a1, a2, a3, c1, c2, c3, c4, d1, 3, 3) == [];
    assert DeclaredBy(k, j, n, q, r, s, a1, a2, a3, c1, c2, c3, c4, d1, 4, 3) == [];
    assert DeclaredBy(k, j, n, q, r, s, a1, a2, a3, c1, c2, c3, c4, d1, 5, 3) == [];
    assert DeclaredBy(k, j, n, q, r, s, a1, a2, a3, c1, c2, c3, c4, d1, 6, 3) == [];
    assert DeclaredBy(k, j, n, q, r, s, a1, a2, a3, c1, c2, c3, c4, d1, 7, 3) == [];
  }

  /** The locals scope 4 declares, in order. */
  lemma {:induction false} Locals4(k: string, j: string, n: string, q: string, r: string, s: string, a1: string, a2: string, a3: string, c1: string, c2: string, c3: string, c4: string, d1: string)
    ensures DeclaredBy(k, j, n, q, r, s, a1, a2, a3, c1, c2, c3, c4, d1, 7, 4) == [Local(a1, Pos(33, 13)), Local(a2, Pos(39, 13)), Local(a3, Pos(45, 13))]
  {
    AppendNil([]);
    assert DeclaredBy(k, j, n, q, r, s, a1, a2, a3, c1, c2, c3, c4, d1, 1, 4) == [];
    assert DeclaredBy(k, j, n, q, r, s, a1, a2, a3, c1, c2, c3, c4, d1, 2, 4) == [];
    assert DeclaredBy(k, j, n, q, r, s, a1, a2, a3, c1, c2, c3, c4, d1, 3, 4) == [Local(a1, Pos(33, 13))];
    assert DeclaredBy(k, j, n, q, r, s, a1, a2, a3, c1, c2, c3, c4, d1, 4, 4) == [Local(a1, Pos(33, 13)), Local(a2, Pos(39, 13)), Local(a3, Pos(45, 13))];
    AppendNil([Local(a1, Pos(33, 13)), Local(a2, Pos(39, 13)), Local(a3, Pos(45, 13))]);
    assert DeclaredBy(k, j, n, q, r, s, a1, a2, a3, c1, c2, c3, c4, d1, 5, 4) == [Local(a1, Pos(33, 13)), Local(a2, Pos(39, 13)), Local(a3, Pos(45, 13))];
    assert DeclaredBy(k, j, n, q, r, s, a1, a2, a3, c1, c2, c3, c4, d1, 6, 4) == [Local(a1, Pos(33, 13)), Local(a2, Pos(39, 13)), Local(a3, Pos(45, 13))];
    assert DeclaredBy(k, j, n, q, r, s, a1, a2, a3, c1, c2, c3, c4, d1, 7, 4) == [Local(a1, Pos(33, 13)), Local(a2, Pos(39, 13)), Local(a3, Pos(45, 13))];
  }

  /** The locals scope 5 declares, in order. */
  lemma {:induction false} Locals5(k: string, j: string, n: string, q: string, r: string, s: string, a1: string, a2: string, a3: string, c1: string, c2: string, c3: string, c4: string, d1: string)
    ensures DeclaredBy(k, j, n, q, r, s, a1, a2, a3, c1, c2, c3, c4, d1, 7, 5) == [Local(j, Pos(8, 21))]
  {
    assert DeclaredBy(k, j, n, q, r, s, a1, a2, a3, c1, c2, c3, c4, d1, 1, 5) == [Local(j, Pos(8, 21))];
    AppendNil([Local(j, Pos(8, 21))]);
    assert DeclaredBy(k, j, n, q, r, s, a1, a2, a3, c1, c2, c3, c4, d1, 2, 5) == [Local(j, Pos(8, 21))];
    assert DeclaredBy(k, j, n, q, r, s, a1, a2, a3, c1, c2, c3, c4, d1, 3, 5) == [Local(j, Pos(8, 21))];
    assert DeclaredBy(k, j, n, q, r, s, a1, a2, a3, c1, c2, c3, c4, d1, 4, 5) == [Local(j, Pos(8, 21))];
    assert DeclaredBy(k, j, n, q, r, s, a1, a2, a3, c1, c2, c3, c4, d1, 5, 5) == [Local(j, Pos(8, 21))];
    assert DeclaredBy(k, j, n, q, r, s, a1, a2, a3, c1, c2, c3, c4, d1, 6, 5) == [Local(j, Pos(8, 21))];
    assert DeclaredBy(k, j, n, q, r, s, a1, a2, a3, c1, c2, c3, c4, d1, 7, 5) == [Local(j, Pos(8, 21))];
  }

  /** The locals scope 6 declares, in order. */
  lemma {:induction false} Locals6(k: string, j: string, n: string, q: string, r: string, s: string, a1: string, a2: string, a3: string, c1: string, c2: string, c3: string, c4: string, d1: string)
    ensures DeclaredBy(k, j, n, q, r, s, a1, a2, a3, c1, c2, c3, c4, d1, 7, 6) == [Local(k, Pos(7, 43))]
  {
    assert DeclaredBy(k, j, n, q, r, s, a1, a2, a3, c1, c2, c3, c4, d1, 1, 6) == [Local(k, Pos(7, 43))];
    AppendNil([Local(k, Pos(7, 43))]);
    assert DeclaredBy(k, j, n, q, r, s, a1, a2, a3, c1, c2, c3, c4, d1, 2, 6) == [Local(k, Pos(7, 43))];
    assert DeclaredBy(k, j, n, q, r, s, a1, a2, a3, c1, c2, c3, c4, d1, 3, 6) == [Local(k, Pos(7, 43))];
    assert DeclaredBy(k, j, n, q, r, s, a1, a2, a3, c1, c2, c3, c4, d1, 4, 6) == [Local(k, Pos(7, 43))];
    assert DeclaredBy(k, j, n, q, r, s, a1, a2, a3, c1, c2, c3, c4, d1, 5, 6) == [Local(k, Pos(7, 43))];
    assert DeclaredBy(k, j, n, q, r, s, a1, a2, a3, c1, c2, c3, c4, d1, 6, 6) == [Local(k, Pos(7, 43))];
    assert DeclaredBy(k, j, n, q, r, s, a1, a2, a3, c1, c2, c3, c4, d1, 7, 6) == [Local(k, Pos(7, 43))];
  }

  /** The locals scope 7 declares, in order. */
  lemma {:induction false} Locals7(k: string, j: string, n: string, q: string, r: string, s: string, a1: string, a2: string, a3: string, c1: string, c2: string, c3: string, c4: string, d1: string)
    ensures DeclaredBy(k, j, n, q, r, s, a1, a2, a3, c1, c2, c3, c4, d1, 7, 7) == [Local(n, Pos(15, 21))]
  {
    AppendNil([]);
    assert DeclaredBy(k, j, n, q, r, s, a1, a2, a3, c1, c2, c3, c4, d1, 1, 7) == [];
    assert DeclaredBy(k, j, n, q, r, s, a1, a2, a3, c1, c2, c3, c4, d1, 2, 7) == [Local(n, Pos(15, 21))];
    AppendNil([Local(n, Pos(15, 21))]);
    assert DeclaredBy(k, j, n, q, r, s, a1, a2, a3, c1, c2, c3, c4, d1, 3, 7) == [Local(n, Pos(15, 21))];
    assert DeclaredBy(k, j, n, q, r, s, a1, a2, a3, c1, c2, c3, c4, d1, 4, 7) == [Local(n, Pos(15, 21))];
    assert DeclaredBy(k, j, n, q, r, s, a1, a2, a3, c1, c2, c3, c4, d1, 5, 7) == [Local(n, Pos(15, 21))];
    assert DeclaredBy(k, j, n, q, r, s, a1, a2, a3, c1, c2, c3, c4, d1, 6, 7) == [Local(n, Pos(15, 21))];
    assert DeclaredBy(k, j, n, q, r, s, a1, a2, a3, c1, c2, c3, c4, d1, 7, 7) == [Local(n, Pos(15, 21))];
  }

  /** The locals scope 8 declares, in order. */
  lemma {:induction false} Locals8(k: string, j: string, n: string, q: string, r: string, s: string, a1: string, a2: string, a3: string, c1: string, c2: string, c3: string, c4: string, d1: string)
    ensures DeclaredBy(k, j, n, q, r, s, a1, a2, a3, c1, c2, c3, c4, d1, 7, 8) == []
  {
    AppendNil([]);
    assert DeclaredBy(k, j, n, q, r, s, a1, a2, a3, c1, c2, c3, c4, d1, 1, 8) == [];
    assert DeclaredBy(k, j, n, q, r, s, a1, a2, a3, c1, c2, c3, c4, d1, 2, 8) == [];
    assert DeclaredBy(k, j, n, q, r, s, a1, a2, a3, c1, c2, c3, c4, d1, 3, 8) == [];
    assert DeclaredBy(k, j, n, q, r, s, a1, a2, a3, c1, c2, c3, c4, d1, 4, 8) == [];
    assert DeclaredBy(k, j, n, q, r, s, a1, a2, a3, c1, c2, c3, c4, d1, 5, 8) == [];
    assert DeclaredBy(k, j, n, q, r, s, a1, a2, a3, c1, c2, c3, c4, d1, 6, 8) == [];
    assert DeclaredBy(k, j, n, q, r, s, a1, a2, a3, c1, c2, c3, c4, d1, 7, 8) == [];
  }

  /** The locals scope 9 declares, in order. */
  lemma {:induction false} Locals9(k: string, j: string, n: string, q: string, r: string, s: string, a1: string, a2: string, a3: string, c1: string, c2: string, c3: string, c4: string, d1: string)
    ensures DeclaredBy(k, j, n, q, r, s, a1, a2, a3, c1, c2, c3, c4, d1, 7, 9) == [Local(q, Pos(21, 21))]
  {
    AppendNil([]);
    assert DeclaredBy(k, j, n, q, r, s, a1, a2, a3, c1, c2, c3, c4, d1, 1, 9) == [];
    assert DeclaredBy(k, j, n, q, r, s, a1, a2, a3, c1, c2, c3, c4, d1, 2, 9) == [Local(q, Pos(21, 21))];
    AppendNil([Local(q, Pos(21, 21))]);
    assert DeclaredBy(k, j, n, q, r, s, a1, a2, a3, c1, c2, c3, c4, d1, 3, 9) == [Local(q, Pos(21, 21))];
    assert DeclaredBy(k, j, n, q, r, s, a1, a2, a3, c1, c2, c3, c4, d1, 4, 9) == [Local(q, Pos(21, 21))];
    assert DeclaredBy(k, j, n, q, r, s, a1, a2, a3, c1, c2, c3, c4, d1, 5, 9) == [Local(q, Pos(21, 21))];
    assert DeclaredBy(k, j, n, q, r, s, a1, a2, a3, c1, c2, c3, c4, d1, 6, 9) == [Local(q, Pos(21, 21))];
    assert DeclaredBy(k, j, n, q, r, s, a1, a2, a3, c1, c2, c3, c4, d1, 7, 9) == [Local(q, Pos(21, 21))];
  }

  /** The locals scope 10 declares, in order. */
  lemma {:induction false} Locals10(k: string, j: string, n: string, q: string, r: string, s: string, a1: string, a2: string, a3: string, c1: string, c2: string, c3: string, c4: string, d1: string)
    ensures DeclaredBy(k, j, n, q, r, s, a1, a2, a3, c1, c2, c3, c4, d1, 7, 10) == []
  {
    AppendNil([]);
    assert DeclaredBy(k, j, n, q, r, s, a1, a2, a3, c1, c2, c3, c4, d1, 1, 10) == [];
    assert DeclaredBy(k, j, n, q, r, s, a1, a2, a3, c1, c2, c3, c4, d1, 2, 10) == [];
    assert DeclaredBy(k, j, n, q, r, s, a1, a2, a3, c1, c2, c3, c4, d1, 3, 10) == [];
    assert DeclaredBy(k, j, n, q, r, s, a1, a2, a3, c1, c2, c3, c4, d1, 4, 10) == [];
    assert DeclaredBy(k, j, n, q, r, s, a1, a2, a3, c1, c2, c3, c4, d1, 5, 10) == [];
    assert DeclaredBy(k, j, n, q, r, s, a1, a2, a3, c1, c2, c3, c4, d1, 6, 10) == [];
    assert DeclaredBy(k, j, n, q, r, s, a1, a2, a3, c1, c2, c3, c4, d1, 7, 10) == [];
  }

  /** The locals scope 11 declares, in order. */
  lemma {:induction false} Locals11(k: string, j: string, n: string, q: string, r: string, s: string, a1: string, a2: string, a3: string, c1: string, c2: string, c3: string, c4: string, d1: string)
    ensures DeclaredBy(k, j, n, q, r, s, a1, a2, a3, c1, c2, c3, c4, d1, 7, 11) == []
  {
    AppendNil([]);
    assert DeclaredBy(k, j, n, q, r, s, a1, a2, a3, c1, c2, c3, c4, d1, 1, 11) == [];
    assert DeclaredBy(k, j, n, q, r, s, a1, a2, a3, c1, c2, c3, c4, d1, 2, 11) == [];
    assert DeclaredBy(k, j, n, q, r, s, a1, a2, a3, c1, c2, c3, c4, d1, 3, 11) == [];
    assert DeclaredBy(k, j, n, q, r, s, a1, a2, a3, c1, c2, c3, c4, d1, 4, 11) == [];
    assert DeclaredBy(k, j, n, q, r, s, a1, a2, a3, c1, c2, c3, c4, d1, 5, 11) == [];
    assert DeclaredBy(k, j, n, q, r, s, a1, a2, a3, c1, c2, c3, c4, d1, 6, 11) == [];
    assert DeclaredBy(k, j, n, q, r, s, a1, a2, a3, c1, c2, c3, c4, d1, 7, 11) == [];
  }

  /** The locals scope 12 declares, in order. */
  lemma {:induction false} Locals12(k: string, j: string, n: string, q: string, r: string, s: string, a1: string, a2: string, a3: string, c1: string, c2: string, c3: string, c4: string, d1: string)
    ensures DeclaredBy(k, j, n, q, r, s, a1, a2, a3, c1, c2, c3, c4, d1, 7, 12) == [Local(r, Pos(25, 42))]
  {
    AppendNil([]);
    assert DeclaredBy(k, j, n, q, r, s, a1, a2, a3, c1, c2, c3, c4, d1, 1, 12) == [];
    assert DeclaredBy(k, j, n, q, r, s, a1, a2, a3, c1, c2, c3, c4, d1, 2, 12) == [Local(r, Pos(25, 42))];
    AppendNil([Local(r, Pos(25, 42))]);
    assert DeclaredBy(k, j, n, q, r, s, a1, a2, a3, c1, c2, c3, c4, d1, 3, 12) == [Local(r, Pos(25, 42))];
    assert DeclaredBy(k, j, n, q, r, s, a1, a2, a3, c1, c2, c3, c4, d1, 4, 12) == [Local(r, Pos(25, 42))];
    assert DeclaredBy(k, j, n, q, r, s, a1, a2, a3, c1, c2, c3, c4, d1, 5, 12) == [Local(r, Pos(25, 42))];
    assert DeclaredBy(k, j, n, q, r, s, a1, a2, a3, c1, c2, c3, c4, d1, 6, 12) == [Local(r, Pos(25, 42))];
    assert DeclaredBy(k, j, n, q, r, s, a1, a2, a3, c1, c2, c3, c4, d1, 7, 12) == [Local(r, Pos(25, 42))];
  }

  /** The locals scope 13 declares, in order. */
  lemma {:induction false} Locals13(k: string, j: string, n: string, q: string, r: string, s: string, a1: string, a2: string, a3: string, c1: string, c2: string, c3: string, c4: string, d1: string)
    ensures DeclaredBy(k, j, n, q, r, s, a1, a2, a3, c1, c2, c3, c4, d1, 7, 13) == []
  {
    AppendNil([]);
    assert DeclaredBy(k, j, n, q, r, s, a1, a2, a3, c1, c2, c3, c4, d1, 1, 13) == [];
    assert DeclaredBy(k, j, n, q, r, s, a1, a2, a3, c1, c2, c3, c4, d1, 2, 13) == [];
    assert DeclaredBy(k, j, n, q, r, s, a1, a2, a3, c1, c2, c3, c4, d1, 3, 13) == [];
    assert DeclaredBy(k, j, n, q, r, s, a1, a2, a3, c1, c2, c3, c4, d1, 4, 13) == [];
    assert DeclaredBy(k, j, n, q, r, s, a1, a2, a3, c1, c2, c3, c4, d1, 5, 13) == [];
    assert DeclaredBy(k, j, n, q, r, s, a1, a2, a3, c1, c2, c3, c4, d1, 6, 13) == [];
    assert DeclaredBy(k, j, n, q, r, s, a1, a2, a3, c1, c2, c3, c4, d1, 7, 13) == [];
  }

  /** The locals scope 14 declares, in order. */
  lemma {:induction false} Locals14(k: string, j: string, n: string, q: string, r: string, s: string, a1: string, a2: string, a3: string, c1: string, c2: string, c3: string, c4: string, d1: string)
    ensures DeclaredBy(k, j, n, q, r, s, a1, a2, a3, c1, c2, c3, c4, d1, 7, 14) == [Local(s, Pos(30, 42))]
  {
    AppendNil([]);
    assert DeclaredBy(k, j, n, q, r, s, a1, a2, a3, c1, c2, c3, c4, d1, 1, 14) == [];
    assert DeclaredBy(k, j, n, q, r, s, a1, a2, a3, c1, c2, c3, c4, d1, 2, 14) == [];
    assert DeclaredBy(k, j, n, q, r, s, a1, a2, a3, c1, c2, c3, c4, d1, 3, 14) == [Local(s, Pos(30, 42))];
    AppendNil([Local(s, Pos(30, 42))]);
    assert DeclaredBy(k, j, n, q, r, s, a1, a2, a3, c1, c2, c3, c4, d1, 4, 14) == [Local(s, Pos(30, 42))];
    assert DeclaredBy(k, j, n, q, r, s, a1, a2, a3, c1, c2, c3, c4, d1, 5, 14) == [Local(s, Pos(30, 42))];
    assert DeclaredBy(k, j, n, q, r, s, a1, a2, a3, c1, c2, c3, c4, d1, 6, 14) == [Local(s, Pos(30, 42))];
    assert DeclaredBy(k, j, n, q, r, s, a1, a2, a3, c1, c2, c3, c4, d1, 7, 14) == [Local(s, Pos(30, 42))];
  }

  /** The locals scope 15 declares, in order. */
  lemma {:induction false} Locals15(k: string, j: string, n: string, q: string, r: string, s: string, a1: string, a2: string, a3: string, c1: string, c2: string, c3: string, c4: string, d1: string)
    ensures DeclaredBy(k, j, n, q, r, s, a1, a2, a3, c1, c2, c3, c4, d1, 7, 15) == [Local(a1, Pos(37, 21))]
  {
    AppendNil([]);
    assert DeclaredBy(k, j, n, q, r, s, a1, a2, a3, c1, c2, c3, c4, d1, 1, 15) == [];
    assert DeclaredBy(k, j, n, q, r, s, a1, a2, a3, c1, c2, c3, c4, d1, 2, 15) == [];
    assert DeclaredBy(k, j, n, q, r, s, a1, a2, a3, c1, c2, c3, c4, d1, 3, 15) == [Local(a1, Pos(37, 21))];
    AppendNil([Local(a1, Pos(37, 21))]);
    assert DeclaredBy(k, j, n, q, r, s, a1, a2, a3, c1, c2, c3, c4, d1, 4, 15) == [Local(a1, Pos(37, 21))];
    assert DeclaredBy(k, j, n, q, r, s, a1, a2, a3, c1, c2, c3, c4, d1, 5, 15) == [Local(a1, Pos(37, 21))];
    assert DeclaredBy(k, j, n, q, r, s, a1, a2, a3, c1, c2, c3, c4, d1, 6, 15) == [Local(a1, Pos(37, 21))];
    assert DeclaredBy(k, j, n, q, r, s, a1, a2, a3, c1, c2, c3, c4, d1, 7, 15) == [Local(a1, Pos(37, 21))];
  }

  /** The locals scope 17 declares, in order. */
  lemma {:induction false} Locals17(k: string, j: string, n: string, q: string, r: string, s: string, a1: string, a2: string, a3: string, c1: string, c2: string, c3: string, c4: string, d1: string)
    ensures DeclaredBy(k, j, n, q, r, s, a1, a2, a3, c1, c2, c3, c4, d1, 7, 17) == []
  {
    AppendNil([]);
    assert DeclaredBy(k, j, n, q, r, s, a1, a2, a3, c1, c2, c3, c4, d1, 1, 17) == [];
    assert DeclaredBy(k, j, n, q, r, s, a1, a2, a3, c1, c2, c3, c4, d1, 2, 17) == [];
    assert DeclaredBy(k, j, n, q, r, s, a1, a2, a3, c1, c2, c3, c4, d1, 3, 17) == [];
    assert DeclaredBy(k, j, n, q, r, s, a1, a2, a3, c1, c2, c3, c4, d1, 4, 17) == [];
    assert DeclaredBy(k, j, n, q, r, s, a1, a2, a3, c1, c2, c3, c4, d1, 5, 17) == [];
    assert DeclaredBy(k, j, n, q, r, s, a1, a2, a3, c1, c2, c3, c4, d1, 6, 17) == [];
    assert DeclaredBy(k, j, n, q, r, s, a1, a2, a3, c1, c2, c3, c4, d1, 7, 17) == [];
  }

  /** The locals scope 18 declares, in order. */
  lemma {:induction false} Locals18(k: string, j: string, n: string, q: string, r: string, s: string, a1: string, a2: string, a3: string, c1: string, c2: string, c3: string, c4: string, d1: string)
    ensures DeclaredBy(k, j, n, q, r, s, a1, a2, a3, c1, c2, c3, c4, d1, 7, 18) == [Local(a2, Pos(42, 42))]
  {
    AppendNil([]);
    assert DeclaredBy(k, j, n, q, r, s, a1, a2, a3, c1, c2, c3, c4, d1, 1, 18) == [];
    assert DeclaredBy(k, j, n, q, r, s, a1, a2, a3, c1, c2, c3, c4, d1, 2, 18) == [];
    assert DeclaredBy(k, j, n, q, r, s, a1, a2, a3, c1, c2, c3, c4, d1, 3, 18) == [];
    assert DeclaredBy(k, j, n, q, r, s, a1, a2, a3, c1, c2, c3, c4, d1, 4, 18) == [Local(a2, Pos(42, 42))];
    AppendNil([Local(a2, Pos(42, 42))]);
    assert DeclaredBy(k, j, n, q, r, s, a1, a2, a3, c1, c2, c3, c4, d1, 5, 18) == [Local(a2, Pos(42, 42))];
    assert DeclaredBy(k, j, n, q, r, s, a1, a2, a3, c1, c2, c3, c4, d1, 6, 18) == [Local(a2, Pos(42, 42))];
    assert DeclaredBy(k, j, n, q, r, s, a1, a2, a3, c1, c2, c3, c4, d1, 7, 18) == [Local(a2, Pos(42, 42))];
  }

  /** The locals scope 19 declares, in order. */
  lemma {:induction false} Locals19(k: string, j: string, n: string, q: string, r: string, s: string, a1: string, a2: string, a3: string, c1: string, c2: string, c3: string, c4: string, d1: string)
    ensures DeclaredBy(k, j, n, q, r, s, a1, a2, a3, c1, c2, c3, c4, d1, 7, 19) == []
  {
    AppendNil([]);
    assert DeclaredBy(k, j, n, q, r, s, a1, a2, a3, c1, c2, c3, c4, d1, 1, 19) == [];
    assert DeclaredBy(k, j, n, q, r, s, a1, a2, a3, c1, c2, c3, c4, d1, 2, 19) == [];
    assert DeclaredBy(k, j, n, q, r, s, a1, a2, a3, c1, c2, c3, c4, d1, 3, 19) == [];
    assert DeclaredBy(k, j, n, q, r, s, a1, a2, a3, c1, c2, c3, c4, d1, 4, 19) == [];
    assert DeclaredBy(k, j, n, q, r, s, a1, a2, a3, c1, c2, c3, c4, d1, 5, 19) == [];
    assert DeclaredBy(k, j, n, q, r, s, a1, a2, a3, c1, c2, c3, c4, d1, 6, 19) == [];
    assert DeclaredBy(k, j, n, q, r, s, a1, a2, a3, c1, c2, c3, c4, d1, 7, 19) == [];
  }

  /** The locals scope 20 declares, in order. */
  lemma {:induction false} Locals20(k: string, j: string, n: string, q: string, r: string, s: string, a1: string, a2: string, a3: string, c1: string, c2: string, c3: string, c4: string, d1: string)
    ensures DeclaredBy(k, j, n, q, r, s, a1, a2, a3, c1, c2, c3, c4, d1, 7, 20) == [Local(a3, Pos(49, 42))]
  {
    AppendNil([]);
    assert DeclaredBy(k, j, n, q, r, s, a1, a2, a3, c1, c2, c3, c4, d1, 1, 20) == [];
    assert DeclaredBy(k, j, n, q, r, s, a1, a2, a3, c1, c2, c3, c4, d1, 2, 20) == [];
    assert DeclaredBy(k, j, n, q, r, s, a1, a2, a3, c1, c2, c3, c4, d1, 3, 20) == [];
    assert DeclaredBy(k, j, n, q, r, s, a1, a2, a3, c1, c2, c3, c4, d1, 4, 20) == [];
    assert DeclaredBy(k, j, n, q, r, s, a1, a2, a3, c1, c2, c3, c4, d1, 5, 20) == [Local(a3, Pos(49, 42))];
    AppendNil([Local(a3, Pos(49, 42))]);
    assert DeclaredBy(k, j, n, q, r, s, a1, a2, a3, c1, c2, c3, c4, d1, 6, 20) == [Local(a3, Pos(49, 42))];
    assert DeclaredBy(k, j, n, q, r, s, a1, a2, a3, c1, c2, c3, c4, d1, 7, 20) == [Local(a3, Pos(49, 42))];
  }

  /** The locals scope 21 declares, in order. */
  lemma {:induction false} Locals21(k: string, j: string, n: string, q: string, r: string, s: string, a1: string, a2: string, a3: string, c1: string, c2: string, c3: string, c4: string, d1: string)
    ensures DeclaredBy(k, j, n, q, r, s, a1, a2, a3, c1, c2, c3, c4, d1, 7, 21) == [Local(c1, Pos(55, 22)), Local(c1, Pos(55, 42))]
  {
    AppendNil([]);
    assert DeclaredBy(k, j, n, q, r, s, a1, a2, a3, c1, c2, c3, c4, d1, 1, 21) == [];
    assert DeclaredBy(k, j, n, q, r, s, a1, a2, a3, c1, c2, c3, c4, d1, 2, 21) == [];
    assert DeclaredBy(k, j, n, q, r, s, a1, a2, a3, c1, c2, c3, c4, d1, 3, 21) == [];
    assert DeclaredBy(k, j, n, q, r, s, a1, a2, a3, c1, c2, c3, c4, d1, 4, 21) == [];
    assert DeclaredBy(k, j, n, q, r, s, a1, a2, a3, c1, c2, c3, c4, d1, 5, 21) == [Local(c1, Pos(55, 22)), Local(c1, Pos(55, 42))];
    AppendNil([Local(c1, Pos(55, 22)), Local(c1, Pos(55, 42))]);
    assert DeclaredBy(k, j, n, q, r, s, a1, a2, a3, c1, c2, c3, c4, d1, 6, 21) == [Local(c1, Pos(55, 22)), Local(c1, Pos(55, 42))];
    assert DeclaredBy(k, j, n, q, r, s, a1, a2, a3, c1, c2, c3, c4, d1, 7, 21) == [Local(c1, Pos(55, 22)), Local(c1, Pos(55, 42))];
  }

  /** The locals scope 23 declares, in order. */
  lemma {:induction false} Locals23(k: string, j: string, n: string, q: string, r: string, s: string, a1: string, a2: string, a3: string, c1: string, c2: string, c3: string, c4: string, d1: string)
    ensures DeclaredBy(k, j, n, q, r, s, a1, a2, a3, c1, c2, c3, c4, d1, 7, 23) == [Local(c2, Pos(59, 21))]
  {
    AppendNil([]);
    assert DeclaredBy(k, j, n, q, r, s, a1, a2, a3, c1, c2, c3, c4, d1, 1, 23) == [];
    assert DeclaredBy(k, j, n, q, r, s, a1, a2, a3, c1, c2, c3, c4, d1, 2, 23) == [];
    assert DeclaredBy(k, j, n, q, r, s, a1, a2, a3, c1, c2, c3, c4, d1, 3, 23) == [];
    assert DeclaredBy(k, j, n, q, r, s, a1, a2, a3, c1, c2, c3, c4, d1, 4, 23) == [];
    assert DeclaredBy(k, j, n, q, r, s, a1, a2, a3, c1, c2, c3, c4, d1, 5, 23) == [];
    assert DeclaredBy(k, j, n, q, r, s, a1, a2, a3, c1, c2, c3, c4, d1, 6, 23) == [Local(c2, Pos(59, 21))];
    AppendNil([Local(c2, Pos(59, 21))]);
    assert DeclaredBy(k, j, n, q, r, s, a1, a2, a3, c1, c2, c3, c4, d1, 7, 23) == [Local(c2, Pos(59, 21))];
  }

  /** The locals scope 24 declares, in order. */
  lemma {:induction false} Locals24(k: string, j: string, n: string, q: string, r: string, s: string, a1: string, a2: string, a3: string, c1: string, c2: string, c3: string, c4: string, d1: string)
    ensures DeclaredBy(k, j, n, q, r, s, a1, a2, a3, c1, c2, c3, c4, d1, 7, 24) == [Local(c2, Pos(58, 42))]
  {
    AppendNil([]);
    assert DeclaredBy(k, j, n, q, r, s, a1, a2, a3, c1, c2, c3, c4, d1, 1, 24) == [];
    assert DeclaredBy(k, j, n, q, r, s, a1, a2, a3, c1, c2, c3, c4, d1, 2, 24) == [];
    assert DeclaredBy(k, j, n, q, r, s, a1, a2, a3, c1, c2, c3, c4, d1, 3, 24) == [];
    assert DeclaredBy(k, j, n, q, r, s, a1, a2, a3, c1, c2, c3, c4, d1, 4, 24) == [];
    assert DeclaredBy(k, j, n, q, r, s, a1, a2, a3, c1, c2, c3, c4, d1, 5, 24) == [Local(c2, Pos(58, 42))];
    AppendNil([Local(c2, Pos(58, 42))]);
    assert DeclaredBy(k, j, n, q, r, s, a1, a2, a3, c1, c2, c3, c4, d1, 6, 24) == [Local(c2, Pos(58, 42))];
    assert DeclaredBy(k, j, n, q, r, s, a1, a2, a3, c1, c2, c3, c4, d1, 7, 24) == [Local(c2, Pos(58, 42))];
  }

  /** The locals scope 25 declares, in order. */
  lemma {:induction false} Locals25(k: string, j: string, n: string, q: string, r: string, s: string, a1: string, a2: string, a3: string, c1: string, c2: string, c3: string, c4: string, d1: string)
    ensures DeclaredBy(k, j, n, q, r, s, a1, a2, a3, c1, c2, c3, c4, d1, 7, 25) == [Local(c3, Pos(65, 21))]
  {
    AppendNil([]);
    assert DeclaredBy(k, j, n, q, r, s, a1, a2, a3, c1, c2, c3, c4, d1, 1, 25) == [];
    assert DeclaredBy(k, j, n, q, r, s, a1, a2, a3, c1, c2, c3, c4, d1, 2, 25) == [];
    assert DeclaredBy(k, j, n, q, r, s, a1, a2, a3, c1, c2, c3, c4, d1, 3, 25) == [];
    assert DeclaredBy(k, j, n, q, r, s, a1, a2, a3, c1, c2, c3, c4, d1, 4, 25) == [];
    assert DeclaredBy(k, j, n, q, r, s, a1, a2, a3, c1, c2, c3, c4, d1, 5, 25) == [];
    assert DeclaredBy(k, j, n, q, r, s, a1, a2, a3, c1, c2, c3, c4, d1, 6, 25) == [Local(c3, Pos(65, 21))];
    AppendNil([Local(c3, Pos(65, 21))]);
    assert DeclaredBy(k, j, n, q, r, s, a1, a2, a3, c1, c2, c3, c4, d1, 7, 25) == [Local(c3, Pos(65, 21))];
  }

  /** The locals scope 26 declares, in order. */
  lemma {:induction false} Locals26(k: string, j: string, n: string, q: string, r: string, s: string, a1: string, a2: string, a3: string, c1: string, c2: string, c3: string, c4: string, d1: string)
    ensures DeclaredBy(k, j, n, q, r, s, a1, a2, a3, c1, c2, c3, c4, d1, 7, 26) == [Local(c3, Pos(63, 42))]
  {
    AppendNil([]);
    assert DeclaredBy(k, j, n, q, r, s, a1, a2, a3, c1, c2, c3, c4, d1, 1, 26) == [];
    assert DeclaredBy(k, j, n, q, r, s, a1, a2, a3, c1, c2, c3, c4, d1, 2, 26) == [];
    assert DeclaredBy(k, j, n, q, r, s, a1, a2, a3, c1, c2, c3, c4, d1, 3, 26) == [];
    assert DeclaredBy(k, j, n, q, r, s, a1, a2, a3, c1, c2, c3, c4, d1, 4, 26) == [];
    assert DeclaredBy(k, j, n, q, r, s, a1, a2, a3, c1, c2, c3, c4, d1, 5, 26) == [];
    assert DeclaredBy(k, j, n, q, r, s, a1, a2, a3, c1, c2, c3, c4, d1, 6, 26) == [Local(c3, Pos(63, 42))];
    AppendNil([Local(c3, Pos(63, 42))]);
    assert DeclaredBy(k, j, n, q, r, s, a1, a2, a3, c1, c2, c3, c4, d1, 7, 26) == [Local(c3, Pos(63, 42))];
  }

  /** The locals scope 27 declares, in order. */
  lemma {:induction false} Locals27(k: string, j: string, n: string, q: string, r: string, s: string, a1: string, a2: string, a3: string, c1: string, c2: string, c3: string, c4: string, d1: string)
    ensures DeclaredBy(k, j, n, q, r, s, a1, a2, a3, c1, c2, c3, c4, d1, 7, 27) == [Local(c4, Pos(72, 21))]
  {
    AppendNil([]);
    assert DeclaredBy(k, j, n, q, r, s, a1, a2, a3, c1, c2, c3, c4, d1, 1, 27) == [];
    assert DeclaredBy(k, j, n, q, r, s, a1, a2, a3, c1, c2, c3, c4, d1, 2, 27) == [];
    assert DeclaredBy(k, j, n, q, r, s, a1, a2, a3, c1, c2, c3, c4, d1, 3, 27) == [];
    assert DeclaredBy(k, j, n, q, r, s, a1, a2, a3, c1, c2, c3, c4, d1, 4, 27) == [];
    assert DeclaredBy(k, j, n, q, r, s, a1, a2, a3, c1, c2, c3, c4, d1, 5, 27) == [];
    assert DeclaredBy(k, j, n, q, r, s, a1, a2, a3, c1, c2, c3, c4, d1, 6, 27) == [];
    assert DeclaredBy(k, j, n, q, r, s, a1, a2, a3, c1, c2, c3, c4, d1, 7, 27) == [Local(c4, Pos(72, 21))];
  }

  /** The locals scope 28 declares, in order. */
  lemma {:induction false} Locals28(k: string, j: string, n: string, q: string, r: string, s: string, a1: string, a2: string, a3: string, c1: string, c2: string, c3: string, c4: string, d1: string)
    ensures DeclaredBy(k, j, n, q, r, s, a1, a2, a3, c1, c2, c3, c4, d1, 7, 28) == [Local(c4, Pos(69, 17))]
  {
    AppendNil([]);
    assert DeclaredBy(k, j, n, q, r, s, a1, a2, a3, c1, c2, c3, c4, d1, 1, 28) == [];
    assert DeclaredBy(k, j, n, q, r, s, a1, a2, a3, c1, c2, c3, c4, d1, 2, 28) == [];
    assert DeclaredBy(k, j, n, q, r, s, a1, a2, a3, c1, c2, c3, c4, d1, 3, 28) == [];
    assert DeclaredBy(k, j, n, q, r, s, a1, a2, a3, c1, c2, c3, c4, d1, 4, 28) == [];
    assert DeclaredBy(k, j, n, q, r, s, a1, a2, a3, c1, c2, c3, c4, d1, 5, 28) == [];
    assert DeclaredBy(k, j, n, q, r, s, a1, a2, a3, c1, c2, c3, c4, d1, 6, 28) == [Local(c4, Pos(69, 17))];
    AppendNil([Local(c4, Pos(69, 17))]);
    assert DeclaredBy(k, j, n, q, r, s, a1, a2, a3, c1, c2, c3, c4, d1, 7, 28) == [Local(c4, Pos(69, 17))];
  }

  /** The locals scope 29 declares, in order. */
  lemma {:induction false} Locals29(k: string, j: string, n: string, q: string, r: string, s: string, a1: string, a2: string, a3: string, c1: string, c2: string, c3: string, c4: string, d1: string)
    ensures DeclaredBy(k, j, n, q, r, s, a1, a2, a3, c1, c2, c3, c4, d1, 7, 29) == []
  {
    AppendNil([]);
    assert DeclaredBy(k, j, n, q, r, s, a1, a2, a3, c1, c2, c3, c4, d1, 1, 29) == [];
    assert DeclaredBy(k, j, n, q, r, s, a1, a2, a3, c1, c2, c3, c4, d1, 2, 29) == [];
    assert DeclaredBy(k, j, n, q, r, s, a1, a2, a3, c1, c2, c3, c4, d1, 3, 29) == [];
    assert DeclaredBy(k, j, n, q, r, s, a1, a2, a3, c1, c2, c3, c4, d1, 4, 29) == [];
    assert DeclaredBy(k, j, n, q, r, s, a1, a2, a3, c1, c2, c3, c4, d1, 5, 29) == [];
    assert DeclaredBy(k, j, n, q, r, s, a1, a2, a3, c1, c2, c3, c4, d1, 6, 29) == [];
    assert DeclaredBy(k, j, n, q, r, s, a1, a2, a3, c1, c2, c3, c4, d1, 7, 29) == [];
  }

  /** The locals scope 30 declares, in order. */
  lemma {:induction false} Locals30(k: string, j: string, n: string, q: string, r: string, s: string, a1: string, a2: string, a3: string, c1: string, c2: string, c3: string, c4: string, d1: string)
    ensures DeclaredBy(k, j, n, q, r, s, a1, a2, a3, c1, c2, c3, c4, d1, 7, 30) == [Local(d1, Pos(75, 43)), Local(d1, Pos(75, 58))]
  {
    AppendNil([]);
    assert DeclaredBy(k, j, n, q, r, s, a1, a2, a3, c1, c2, c3, c4, d1, 1, 30) == [];
    assert DeclaredBy(k, j, n, q, r, s, a1, a2, a3, c1, c2, c3, c4, d1, 2, 30) == [];
    assert DeclaredBy(k, j, n, q, r, s, a1, a2, a3, c1, c2, c3, c4, d1, 3, 30) == [];
    assert DeclaredBy(k, j, n, q, r, s, a1, a2, a3, c1, c2, c3, c4, d1, 4, 30) == [];
    assert DeclaredBy(k, j, n, q, r, s, a1, a2, a3, c1, c2, c3, c4, d1, 5, 30) == [];
    assert DeclaredBy(k, j, n, q, r, s, a1, a2, a3, c1, c2, c3, c4, d1, 6, 30) == [];
    assert DeclaredBy(k, j, n, q, r, s, a1, a2, a3, c1, c2, c3, c4, d1, 7, 30) == [Local(d1, Pos(75, 43)), Local(d1, Pos(75, 58))];
  }

  /** The assignments known after event 7. */
  function Known0(k: string, j: string, n: string, q: string, r: string, s: string, a1: string, a2: string, a3: string, c1: string, c2: string, c3: string, c4: string, d1: string): seq<Fact> {
    []
      + [Fact(6, k, [])]
      + [Fact(5, j, [])]
  }

  /** Whether a local is assigned after the assignments of events 0 to 7. */
  lemma {:induction false} Assigned0(k: string, j: string, n: string, q: string, r: string, s: string, a1: string, a2: string, a3: string, c1: string, c2: string, c3: string, c4: string, d1: string, fs: seq<Fact>, sc: nat, nm: string, pth: seq<nat>)
    ensures Assigned(fs + [Fact(6, k, [])] + [Fact(5, j, [])], sc, nm, pth) == (
      Assigned(fs, sc, nm, pth) ||
      (6 == sc && k == nm && [] <= pth) ||
      (5 == sc && j == nm && [] <= pth))
  {
    AssignedSnoc(fs, Fact(6, k, []), sc, nm, pth);
    AssignedSnoc(fs + [Fact(6, k, [])], Fact(5, j, []), sc, nm, pth);
  }

  /** The assignments known after event 15. */
  function Known1(k: string, j: string, n: string, q: string, r: string, s: string, a1: string, a2: string, a3: string, c1: string, c2: string, c3: string, c4: string, d1: string): seq<Fact> {
    Known0(k, j, n, q, r, s, a1, a2, a3, c1, c2, c3, c4, d1)
      + [Fact(7, n, [])]
      + [Fact(9, q, [])]
      + [Fact(12, r, [])]
  }

  /** Whether a local is assigned after the assignments of events 8 to 15. */
  lemma {:induction false} Assigned1(k: string, j: string, n: string, q: string, r: string, s: string, a1: string, a2: string, a3: string, c1: string, c2: string, c3: string, c4: string, d1: string, fs: seq<Fact>, sc: nat, nm: string, pth: seq<nat>)
    ensures Assigned(fs + [Fact(7, n, [])] + [Fact(9, q, [])] + [Fact(12, r, [])], sc, nm, pth) == (
      Assigned(fs, sc, nm, pth) ||
      (7 == sc && n == nm && [] <= pth) ||
      (9 == sc && q == nm && [] <= pth) ||
      (12 == sc && r == nm && [] <= pth))
  {
    AssignedSnoc(fs, Fact(7, n, []), sc, nm, pth);
    AssignedSnoc(fs + [Fact(7, n, [])], Fact(9, q, []), sc, nm, pth);
    AssignedSnoc(fs + [Fact(7, n, [])] + [Fact(9, q, [])], Fact(12, r, []), sc, nm, pth);
  }

  /** The assignments known after event 23. */
  function Known2(k: string, j: string, n: string, q: string, r: string, s: string, a1: string, a2: string, a3: string, c1: string, c2: string, c3: string, c4: string, d1: string): seq<Fact> {
    Known1(k, j, n, q, r, s, a1, a2, a3, c1, c2, c3, c4, d1)
      + [Fact(14, s, [])]
      + [Fact(4, a1, [])]
      + [Fact(15, a1, [])]
  }

  /** Whether a local is assigned after the assignments of events 16 to 23. */
  lemma {:induction false} Assigned2(k: string, j: string, n: string, q: string, r: string, s: string, a1: string, a2: string, a3: string, c1: string, c2: string, c3: string, c4: string, d1: string, fs: seq<Fact>, sc: nat, nm: string, pth: seq<nat>)
    ensures Assigned(fs + [Fact(14, s, [])] + [Fact(4, a1, [])] + [Fact(15, a1, [])], sc, nm, pth) == (
      Assigned(fs, sc, nm, pth) ||
      (14 == sc && s == nm && [] <= pth) ||
      (4 == sc && a1 == nm && [] <= pth) ||
      (15 == sc && a1 == nm && [] <= pth))
  {
    AssignedSnoc(fs, Fact(14, s, []), sc, nm, pth);
    AssignedSnoc(fs + [Fact(14, s, [])], Fact(4, a1, []), sc, nm, pth);
    AssignedSnoc(fs + [Fact(14, s, [])] + [Fact(4, a1, [])], Fact(15, a1, []), sc, nm, pth);
  }

  /** The assignments known after event 31. */
  function Known3(k: string, j: string, n: string, q: string, r: string, s: string, a1: string, a2: string, a3: string, c1: string, c2: string, c3: string, c4: string, d1: string): seq<Fact> {
    Known2(k, j, n, q, r, s, a1, a2, a3, c1, c2, c3, c4, d1)
      + [Fact(4, a2, [])]
      + [Fact(18, a2, [])]
      + [Fact(4, a3, [])]
  }

  /** Whether a local is assigned after the assignments of events 24 to 31. */
  lemma {:induction false} Assigned3(k: string, j: string, n: string, q: string, r: string, s: string, a1: string, a2: string, a3: string, c1: string, c2: string, c3: string, c4: string, d1: string, fs: seq<Fact>, sc: nat, nm: string, pth: seq<nat>)
    ensures Assigned(fs + [Fact(4, a2, [])] + [Fact(18, a2, [])] + [Fact(4, a3, [])], sc, nm, pth) == (
      Assigned(fs, sc, nm, pth) ||
      (4 == sc && a2 == nm && [] <= pth) ||
      (18 == sc && a2 == nm && [] <= pth) ||
      (4 == sc && a3 == nm && [] <= pth))
  {
    AssignedSnoc(fs, Fact(4, a2, []), sc, nm, pth);
    AssignedSnoc(fs + [Fact(4, a2, [])], Fact(18, a2, []), sc, nm, pth);
    AssignedSnoc(fs + [Fact(4, a2, [])] + [Fact(18, a2, [])], Fact(4, a3, []), sc, nm, pth);
  }

  /** The assignments known after event 39. */
  function Known4(k: string, j: string, n: string, q: string, r: string, s: string, a1: string, a2: string, a3: string, c1: string, c2: string, c3: string, c4: string, d1: string): seq<Fact> {
    Known3(k, j, n, q, r, s, a1, a2, a3, c1, c2, c3, c4, d1)
      + [Fact(20, a3, [])]
      + [Fact(21, c1, [])]
      + [Fact(21, c1, [])]
      + [Fact(24, c2, [])]
  }

  /** Whether a local is assigned after the assignments of events 32 to 39. */
  lemma {:induction false} Assigned4(k: string, j: string, n: string, q: string, r: string, s: string, a1: string, a2: string, a3: string, c1: string, c2: string, c3: string, c4: string, d1: string, fs: seq<Fact>, sc: nat, nm: string, pth: seq<nat>)
    ensures Assigned(fs + [Fact(20, a3, [])] + [Fact(21, c1, [])] + [Fact(21, c1, [])] + [Fact(24, c2, [])], sc, nm, pth) == (
      Assigned(fs, sc, nm, pth) ||
      (20 == sc && a3 == nm && [] <= pth) ||
      (21 == sc && c1 == nm && [] <= pth) ||
      (21 == sc && c1 == nm && [] <= pth) ||
      (24 == sc && c2 == nm && [] <= pth))
  {
    AssignedSnoc(fs, Fact(20, a3, []), sc, nm, pth);
    AssignedSnoc(fs + [Fact(20, a3, [])], Fact(21, c1, []), sc, nm, pth);
    AssignedSnoc(fs + [Fact(20, a3, [])] + [Fact(21, c1, [])], Fact(21, c1, []), sc, nm, pth);
    AssignedSnoc(fs + [Fact(20, a3, [])] + [Fact(21, c1, [])] + [Fact(21, c1, [])], Fact(24, c2, []), sc, nm, pth);
  }

  /** The assignments known after event 47. */
  function Known5(k: string, j: string, n: string, q: string, r: string, s: string, a1: string, a2: string, a3: string, c1: string, c2: string, c3: string, c4: string, d1: string): seq<Fact> {
    Known4(k, j, n, q, r, s, a1, a2, a3, c1, c2, c3, c4, d1)
      + [Fact(23, c2, [])]
      + [Fact(26, c3, [])]
      + [Fact(25, c3, [])]
      + [Fact(28, c4, [])]
  }

  /** Whether a local is assigned after the assignments of events 40 to 47. */
  lemma {:induction false} Assigned5(k: string, j: string, n: string, q: string, r: string, s: string, a1: string, a2: string, a3: string, c1: string, c2: string, c3: string, c4: string, d1: string, fs: seq<Fact>, sc: nat, nm: string, pth: seq<nat>)
    ensures Assigned(fs + [Fact(23, c2, [])] + [Fact(26, c3, [])] + [Fact(25, c3, [])] + [Fact(28, c4, [])], sc, nm, pth) == (
      Assigned(fs, sc, nm, pth) ||
      (23 == sc && c2 == nm && [] <= pth) ||
      (26 == sc && c3 == nm && [] <= pth) ||
      (25 == sc && c3 == nm && [] <= pth) ||
      (28 == sc && c4 == nm && [] <= pth))
  {
    AssignedSnoc(fs, Fact(23, c2, []), sc, nm, pth);
    AssignedSnoc(fs + [Fact(23, c2, [])], Fact(26, c3, []), sc, nm, pth);
    AssignedSnoc(fs + [Fact(23, c2, [])] + [Fact(26, c3, [])], Fact(25, c3, []), sc, nm, pth);
    AssignedSnoc(fs + [Fact(23, c2, [])] + [Fact(26, c3, [])] + [Fact(25, c3, [])], Fact(28, c4, []), sc, nm, pth);
  }

  /** The assignments known after event 52. */
  function Known6(k: string, j: string, n: string, q: string, r: string, s: string, a1: string, a2: string, a3: string, c1: string, c2: string, c3: string, c4: string, d1: string): seq<Fact> {
    Known5(k, j, n, q, r, s, a1, a2, a3, c1, c2, c3, c4, d1)
      + [Fact(27, c4, [])]
      + [Fact(30, d1, [])]
      + [Fact(30, d1, [])]
  }

  /** Whether a local is assigned after the assignments of events 48 to 52. */
  lemma {:induction false} Assigned6(k: string, j: string, n: string, q: string, r: string, s: string, a1: string, a2: string, a3: string, c1: string, c2: string, c3: string, c4: string, d1: string, fs: seq<Fact>, sc: nat, nm: string, pth: seq<nat>)
    ensures Assigned(fs + [Fact(27, c4, [])] + [Fact(30, d1, [])] + [Fact(30, d1, [])], sc, nm, pth) == (
      Assigned(fs, sc, nm, pth) ||
      (27 == sc && c4 == nm && [] <= pth) ||
      (30 == sc && d1 == nm && [] <= pth) ||
      (30 == sc && d1 == nm && [] <= pth))
  {
    AssignedSnoc(fs, Fact(27, c4, []), sc, nm, pth);
    AssignedSnoc(fs + [Fact(27, c4, [])], Fact(30, d1, []), sc, nm, pth);
    AssignedSnoc(fs + [Fact(27, c4, [])] + [Fact(30, d1, [])], Fact(30, d1, []), sc, nm, pth);
  }

  /** Event 0: its diagnostics and the assignments after it. */
  lemma {:induction false} Event0(k: string, j: string, n: string, q: string, r: string, s: string, a1: string, a2: string, a3: string, c1: string, c2: string, c3: string, c4: string, d1: string, tr: Tree, fs: seq<Fact>)
    requires |tr.scopes| == 31
    requires Parent(tr, 0) == None
    requires Parent(tr, 3) == Some(0)
    requires Parent(tr, 4) == Some(3)
    requires Parent(tr, 5) == Some(4)
    requires Parent(tr, 6) == Some(5)
    requires LocalsOf(tr, 6) == [Local(k, Pos(7, 43))]
    requires LocalsOf(tr, 5) == [Local(j, Pos(8, 21))]
    requires LocalsOf(tr, 4) == [Local(a1, Pos(33, 13)), Local(a2, Pos(39, 13)), Local(a3, Pos(45, 13))]
    requires LocalsOf(tr, 3) == []
    requires LocalsOf(tr, 0) == []
    requires k != j && k != a1 && k != a2 && k != a3
    ensures EventDiags(tr, Declared(6, k, Pos(7, 43), Initialized, []), fs) == []
    ensures Step(tr, Declared(6, k, Pos(7, 43), Initialized, []), fs) == fs + [Fact(6, k, [])]
  {
    assert Lookup(tr, 0, k) == None;
    assert Lookup(tr, 3, k) == None;
    assert Lookup(tr, 4, k) == None;
    assert Lookup(tr, 5, k) == None;
  }

  /** Event 1: its diagnostics and the assignments after it. */
  lemma {:induction false} Event1(k: string, j: string, n: string, q: string, r: string, s: string, a1: string, a2: string, a3: string, c1: string, c2: string, c3: string, c4: string, d1: string, tr: Tree, fs: seq<Fact>)
    requires |tr.scopes| == 31
    requires Parent(tr, 6) == Some(5)
    requires LocalsOf(tr, 6) == [Local(k, Pos(7, 43))]
    requires Assigned(fs, 6, k, [])
    ensures EventDiags(tr, Referenced(6, k, Pos(7, 52), false, false, []), fs) == []
    ensures Step(tr, Referenced(6, k, Pos(7, 52), false, false, []), fs) == fs
  {
    assert Local(k, Pos(7, 43)) in LocalsOf(tr, 6);
    assert Lookup(tr, 6, k) == Some(6);
  }

  /** Event 2: its diagnostics and the assignments after it. */
  lemma {:induction false} Event2(k: string, j: string, n: string, q: string, r: string, s: string, a1: string, a2: string, a3: string, c1: string, c2: string, c3: string, c4: string, d1: string, tr: Tree, fs: seq<Fact>)
    ensures EventDiags(tr, OutAssigned(6, [], []), fs) == []
    ensures Step(tr, OutAssigned(6, [], []), fs) == fs
  {
    assert OutFacts(6, [], []) == [];
    FactsNil(fs);
  }

  /** Event 3: its diagnostics and the assignments after it. */
  lemma {:induction false} Event3(k: string, j: string, n: string, q: string, r: string, s: string, a1: string, a2: string, a3: string, c1: string, c2: string, c3: string, c4: string, d1: string, tr: Tree, fs: seq<Fact>)
    requires |tr.scopes| == 31
    requires Parent(tr, 0) == None
    requires Parent(tr, 3) == Some(0)
    requires Parent(tr, 4) == Some(3)
    requires Parent(tr, 5) == Some(4)
    requires LocalsOf(tr, 5) == [Local(j, Pos(8, 21))]
    requires LocalsOf(tr, 4) == [Local(a1, Pos(33, 13)), Local(a2, Pos(39, 13)), Local(a3, Pos(45, 13))]
    requires LocalsOf(tr, 3) == []
    requires LocalsOf(tr, 0) == []
    requires j != a1 && j != a2 && j != a3
    ensures EventDiags(tr, Declared(5, j, Pos(8, 21), Initialized, []), fs) == []
    ensures Step(tr, Declared(5, j, Pos(8, 21), Initialized, []), fs) == fs + [Fact(5, j, [])]
  {
    assert Lookup(tr, 0, j) == None;
    assert Lookup(tr, 3, j) == None;
    assert Lookup(tr, 4, j) == None;
  }

  /** Event 4: its diagnostics and the assignments after it. */
  lemma {:induction false} Event4(k: string, j: string, n: string, q: string, r: string, s: string, a1: string, a2: string, a3: string, c1: string, c2: string, c3: string, c4: string, d1: string, tr: Tree, fs: seq<Fact>)
    requires |tr.scopes| == 31
    requires Parent(tr, 5) == Some(4)
    requires LocalsOf(tr, 5) == [Local(j, Pos(8, 21))]
    requires Assigned(fs, 5, j, [])
    ensures EventDiags(tr, Referenced(5, j, Pos(8, 31), false, false, []), fs) == []
    ensures Step(tr, Referenced(5, j, Pos(8, 31), false, false, []), fs) == fs
  {
    assert Local(j, Pos(8, 21)) in LocalsOf(tr, 5);
    assert Lookup(tr, 5, j) == Some(5);
  }

  /** Event 5: its diagnostics and the assignments after it. */
  lemma {:induction false} Event5(k: string, j: string, n: string, q: string, r: string, s: string, a1: string, a2: string, a3: string, c1: string, c2: string, c3: string, c4: string, d1: string, tr: Tree, fs: seq<Fact>)
    requires |tr.scopes| == 31
    requires Parent(tr, 0) == None
    requires Parent(tr, 3) == Some(0)
    requires Parent(tr, 4) == Some(3)
    requires LocalsOf(tr, 4) == [Local(a1, Pos(33, 13)), Local(a2, Pos(39, 13)), Local(a3, Pos(45, 13))]
    requires LocalsOf(tr, 3) == []
    requires LocalsOf(tr, 0) == []
    requires j != a1 && j != a2 && j != a3
    ensures EventDiags(tr, Referenced(4, j, Pos(10, 9), true, false, []), fs) == [Diag(NotInContext, j, Pos(10, 9))]
    ensures Step(tr, Referenced(4, j, Pos(10, 9), true, false, []), fs) == fs
  {
    assert Lookup(tr, 0, j) == None;
    assert Lookup(tr, 3, j) == None;
    assert Lookup(tr, 4, j) == None;
  }

  /** Event 6: its diagnostics and the assignments after it. */
  lemma {:induction false} Event6(k: string, j: string, n: string, q: string, r: string, s: string, a1: string, a2: string, a3: string, c1: string, c2: string, c3: string, c4: string, d1: string, tr: Tree, fs: seq<Fact>)
    requires |tr.scopes| == 31
    requires Parent(tr, 0) == None
    requires Parent(tr, 3) == Some(0)
    requires Parent(tr, 4) == Some(3)
    requires LocalsOf(tr, 4) == [Local(a1, Pos(33, 13)), Local(a2, Pos(39, 13)), Local(a3, Pos(45, 13))]
    requires LocalsOf(tr, 3) == []
    requires LocalsOf(tr, 0) == []
    requires k != a1 && k != a2 && k != a3
    ensures EventDiags(tr, Referenced(4, k, Pos(11, 9), true, false, []), fs) == [Diag(NotInContext, k, Pos(11, 9))]
    ensures Step(tr, Referenced(4, k, Pos(11, 9), true, false, []), fs) == fs
  {
    assert Lookup(tr, 0, k) == None;
    assert Lookup(tr, 3, k) == None;
    assert Lookup(tr, 4, k) == None;
  }

  /** Event 7: its diagnostics and the assignments after it. */
  lemma {:induction false} Event7(k: string, j: string, n: string, q: string, r: string, s: string, a1: string, a2: string, a3: string, c1: string, c2: string, c3: string, c4: string, d1: string, tr: Tree, fs: seq<Fact>)
    requires |tr.scopes| == 31
    requires Parent(tr, 7) == Some(4)
    requires Parent(tr, 8) == Some(7)
    requires LocalsOf(tr, 8) == []
    requires LocalsOf(tr, 7) == [Local(n, Pos(15, 21))]
    ensures EventDiags(tr, Referenced(8, n, Pos(14, 38), false, false, []), fs) == [Diag(UsedBeforeDeclared, n, Pos(14, 38))]
    ensures Step(tr, Referenced(8, n, Pos(14, 38), false, false, []), fs) == fs
  {
    assert Local(n, Pos(15, 21)) in LocalsOf(tr, 7);
    assert Lookup(tr, 7, n) == Some(7);
    assert Lookup(tr, 8, n) == Some(7);
  }

  /** Event 8: its diagnostics and the assignments after it. */
  lemma {:induction false} Event8(k: string, j: string, n: string, q: string, r: string, s: string, a1: string, a2: string, a3: string, c1: string, c2: string, c3: string, c4: string, d1: string, tr: Tree, fs: seq<Fact>)
    ensures EventDiags(tr, OutAssigned(8, [], []), fs) == []
    ensures Step(tr, OutAssigned(8, [], []), fs) == fs
  {
    assert OutFacts(8, [], []) == [];
    FactsNil(fs);
  }

  /** Event 9: its diagnostics and the assignments after it. */
  lemma {:induction false} Event9(k: string, j: string, n: string, q: string, r: string, s: string, a1: string, a2: string, a3: string, c1: string, c2: string, c3: string, c4: string, d1: string, tr: Tree, fs: seq<Fact>)
    requires |tr.scopes| == 31
    requires Parent(tr, 0) == None
    requires Parent(tr, 3) == Some(0)
    requires Parent(tr, 4) == Some(3)
    requires Parent(tr, 7) == Some(4)
    requires LocalsOf(tr, 7) == [Local(n, Pos(15, 21))]
    requires LocalsOf(tr, 4) == [Local(a1, Pos(33, 13)), Local(a2, Pos(39, 13)), Local(a3, Pos(45, 13))]
    requires LocalsOf(tr, 3) == []
    requires LocalsOf(tr, 0) == []
    requires n != a1 && n != a2 && n != a3
    ensures EventDiags(tr, Declared(7, n, Pos(15, 21), Initialized, []), fs) == []
    ensures Step(tr, Declared(7, n, Pos(15, 21), Initialized, []), fs) == fs + [Fact(7, n, [])]
  {
    assert Lookup(tr, 0, n) == None;
    assert Lookup(tr, 3, n) == None;
    assert Lookup(tr, 4, n) == None;
  }

  /** Event 10: its diagnostics and the assignments after it. */
  lemma {:induction false} Event10(k: string, j: string, n: string, q: string, r: string, s: string, a1: string, a2: string, a3: string, c1: string, c2: string, c3: string, c4: string, d1: string, tr: Tree, fs: seq<Fact>)
    requires |tr.scopes| == 31
    requires Parent(tr, 9) == Some(4)
    requires Parent(tr, 10) == Some(9)
    requires LocalsOf(tr, 10) == []
    requires LocalsOf(tr, 9) == [Local(q, Pos(21, 21))]
    ensures EventDiags(tr, Referenced(10, q, Pos(19, 38), false, false, []), fs) == [Diag(UsedBeforeDeclared, q, Pos(19, 38))]
    ensures Step(tr, Referenced(10, q, Pos(19, 38), false, false, []), fs) == fs
  {
    assert Local(q, Pos(21, 21)) in LocalsOf(tr, 9);
    assert Lookup(tr, 9, q) == Some(9);
    assert Lookup(tr, 10, q) == Some(9);
  }

  /** Event 11: its diagnostics and the assignments after it. */
  lemma {:induction false} Event11(k: string, j: string, n: string, q: string, r: string, s: string, a1: string, a2: string, a3: string, c1: string, c2: string, c3: string, c4: string, d1: string, tr: Tree, fs: seq<Fact>)
    ensures EventDiags(tr, OutAssigned(10, [], []), fs) == []
    ensures Step(tr, OutAssigned(10, [], []), fs) == fs
  {
    assert OutFacts(10, [], []) == [];
    FactsNil(fs);
  }

  /** Event 12: its diagnostics and the assignments after it. */
  lemma {:induction false} Event12(k: string, j: string, n: string, q: string, r: string, s: string, a1: string, a2: string, a3: string, c1: string, c2: string, c3: string, c4: string, d1: string, tr: Tree, fs: seq<Fact>)
    requires |tr.scopes| == 31
    requires Parent(tr, 0) == None
    requires Parent(tr, 3) == Some(0)
    requires Parent(tr, 4) == Some(3)
    requires Parent(tr, 9) == Some(4)
    requires LocalsOf(tr, 9) == [Local(q, Pos(21, 21))]
    requires LocalsOf(tr, 4) == [Local(a1, Pos(33, 13)), Local(a2, Pos(39, 13)), Local(a3, Pos(45, 13))]
    requires LocalsOf(tr, 3) == []
    requires LocalsOf(tr, 0) == []
    requires q != a1 && q != a2 && q != a3
    ensures EventDiags(tr, Declared(9, q, Pos(21, 21), Initialized, []), fs) == []
    ensures Step(tr, Declared(9, q, Pos(21, 21), Initialized, []), fs) == fs + [Fact(9, q, [])]
  {
    assert Lookup(tr, 0, q) == None;
    assert Lookup(tr, 3, q) == None;
    assert Lookup(tr, 4, q) == None;
  }

  /** Event 13: its diagnostics and the assignments after it. */
  lemma {:induction false} Event13(k: string, j: string, n: string, q: string, r: string, s: string, a1: string, a2: string, a3: string, c1: string, c2: string, c3: string, c4: string, d1: string, tr: Tree, fs: seq<Fact>)
    requires |tr.scopes| == 31
    requires Parent(tr, 0) == None
    requires Parent(tr, 3) == Some(0)
    requires Parent(tr, 4) == Some(3)
    requires Parent(tr, 11) == Some(4)
    requires Parent(tr, 12) == Some(11)
    requires LocalsOf(tr, 12) == [Local(r, Pos(25, 42))]
    requires LocalsOf(tr, 11) == []
    requires LocalsOf(tr, 4) == [Local(a1, Pos(33, 13)), Local(a2, Pos(39, 13)), Local(a3, Pos(45, 13))]
    requires LocalsOf(tr, 3) == []
    requires LocalsOf(tr, 0) == []
    requires r != a1 && r != a2 && r != a3
    ensures EventDiags(tr, Declared(12, r, Pos(25, 42), Initialized, []), fs) == []
    ensures Step(tr, Declared(12, r, Pos(25, 42), Initialized, []), fs) == fs + [Fact(12, r, [])]
  {
    assert Lookup(tr, 0, r) == None;
    assert Lookup(tr, 3, r) == None;
    assert Lookup(tr, 4, r) == None;
    assert Lookup(tr, 11, r) == None;
  }

  /** Event 14: its diagnostics and the assignments after it. */
  lemma {:induction false} Event14(k: string, j: string, n: string, q: string, r: string, s: string, a1: string, a2: string, a3: string, c1: string, c2: string, c3: string, c4: string, d1: string, tr: Tree, fs: seq<Fact>)
    ensures EventDiags(tr, OutAssigned(12, [], []), fs) == []
    ensures Step(tr, OutAssigned(12, [], []), fs) == fs
  {
    assert OutFacts(12, [], []) == [];
    FactsNil(fs);
  }

  /** Event 15: its diagnostics and the assignments after it. */
  lemma {:induction false} Event15(k: string, j: string, n: string, q: string, r: string, s: string, a1: string, a2: string, a3: string, c1: string, c2: string, c3: string, c4: string, d1: string, tr: Tree, fs: seq<Fact>)
    requires |tr.scopes| == 31
    requires Parent(tr, 0) == None
    requires Parent(tr, 3) == Some(0)
    requires Parent(tr, 4) == Some(3)
    requires Parent(tr, 11) == Some(4)
    requires LocalsOf(tr, 11) == []
    requires LocalsOf(tr, 4) == [Local(a1, Pos(33, 13)), Local(a2, Pos(39, 13)), Local(a3, Pos(45, 13))]
    requires LocalsOf(tr, 3) == []
    requires LocalsOf(tr, 0) == []
    requires r != a1 && r != a2 && r != a3
    ensures EventDiags(tr, Referenced(11, r, Pos(27, 16), false, false, []), fs) == [Diag(NotInContext, r, Pos(27, 16))]
    ensures Step(tr, Referenced(11, r, Pos(27, 16), false, false, []), fs) == fs
  {
    assert Lookup(tr, 0, r) == None;
    assert Lookup(tr, 3, r) == None;
    assert Lookup(tr, 4, r) == None;
    assert Lookup(tr, 11, r) == None;
  }

  /** Event 16: its diagnostics and the assignments after it. */
  lemma {:induction false} Event16(k: string, j: string, n: string, q: string, r: string, s: string, a1: string, a2: string, a3: string, c1: string, c2: string, c3: string, c4: string, d1: string, tr: Tree, fs: seq<Fact>)
    requires |tr.scopes| == 31
    requires Parent(tr, 0) == None
    requires Parent(tr, 3) == Some(0)
    requires Parent(tr, 4) == Some(3)
    requires Parent(tr, 13) == Some(4)
    requires Parent(tr, 14) == Some(13)
    requires LocalsOf(tr, 14) == [Local(s, Pos(30, 42))]
    requires LocalsOf(tr, 13) == []
    requires LocalsOf(tr, 4) == [Local(a1, Pos(33, 13)), Local(a2, Pos(39, 13)), Local(a3, Pos(45, 13))]
    requires LocalsOf(tr, 3) == []
    requires LocalsOf(tr, 0) == []
    requires s != a1 && s != a2 && s != a3
    ensures EventDiags(tr, Declared(14, s, Pos(30, 42), Initialized, []), fs) == []
    ensures Step(tr, Declared(14, s, Pos(30, 42), Initialized, []), fs) == fs + [Fact(14, s, [])]
  {
    assert Lookup(tr, 0, s) == None;
    assert Lookup(tr, 3, s) == None;
    assert Lookup(tr, 4, s) == None;
    assert Lookup(tr, 13, s) == None;
  }

  /** Event 17: its diagnostics and the assignments after it. */
  lemma {:induction false} Event17(k: string, j: string, n: string, q: string, r: string, s: string, a1: string, a2: string, a3: string, c1: string, c2: string, c3: string, c4: string, d1: string, tr: Tree, fs: seq<Fact>)
    ensures EventDiags(tr, OutAssigned(14, [], []), fs) == []
    ensures Step(tr, OutAssigned(14, [], []), fs) == fs
  {
    assert OutFacts(14, [], []) == [];
    FactsNil(fs);
  }

  /** Event 18: its diagnostics and the assignments after it. */
  lemma {:induction false} Event18(k: string, j: string, n: string, q: string, r: string, s: string, a1: string, a2: string, a3: string, c1: string, c2: string, c3: string, c4: string, d1: string, tr: Tree, fs: seq<Fact>)
    requires |tr.scopes| == 31
    requires Parent(tr, 0) == None
    requires Parent(tr, 3) == Some(0)
    requires Parent(tr, 4) == Some(3)
    requires Parent(tr, 13) == Some(4)
    requires LocalsOf(tr, 13) == []
    requires LocalsOf(tr, 4) == [Local(a1, Pos(33, 13)), Local(a2, Pos(39, 13)), Local(a3, Pos(45, 13))]
    requires LocalsOf(tr, 3) == []
    requires LocalsOf(tr, 0) == []
    requires s != a1 && s != a2 && s != a3
    ensures EventDiags(tr, Referenced(13, s, Pos(31, 15), false, false, []), fs) == [Diag(NotInContext, s, Pos(31, 15))]
    ensures Step(tr, Referenced(13, s, Pos(31, 15), false, false, []), fs) == fs
  {
    assert Lookup(tr, 0, s) == None;
    assert Lookup(tr, 3, s) == None;
    assert Lookup(tr, 4, s) == None;
    assert Lookup(tr, 13, s) == None;
  }

  /** Event 19: its diagnostics and the assignments after it. */
  lemma {:induction false} Event19(k: string, j: string, n: string, q: string, r: string, s: string, a1: string, a2: string, a3: string, c1: string, c2: string, c3: string, c4: string, d1: string, tr: Tree, fs: seq<Fact>)
    requires |tr.scopes| == 31
    requires Parent(tr, 0) == None
    requires Parent(tr, 3) == Some(0)
    requires Parent(tr, 4) == Some(3)
    requires LocalsOf(tr, 4) == [Local(a1, Pos(33, 13)), Local(a2, Pos(39, 13)), Local(a3, Pos(45, 13))]
    requires LocalsOf(tr, 3) == []
    requires LocalsOf(tr, 0) == []
    requires a1 != a2 && a1 != a3
    ensures EventDiags(tr, Declared(4, a1, Pos(33, 13), Initialized, []), fs) == []
    ensures Step(tr, Declared(4, a1, Pos(33, 13), Initialized, []), fs) == fs + [Fact(4, a1, [])]
  {
    assert Lookup(tr, 0, a1) == None;
    assert Lookup(tr, 3, a1) == None;
  }

  /** Event 20: its diagnostics and the assignments after it. */
  lemma {:induction false} Event20(k: string, j: string, n: string, q: string, r: string, s: string, a1: string, a2: string, a3: string, c1: string, c2: string, c3: string, c4: string, d1: string, tr: Tree, fs: seq<Fact>)
    requires |tr.scopes| == 31
    requires Parent(tr, 4) == Some(3)
    requires LocalsOf(tr, 4) == [Local(a1, Pos(33, 13)), Local(a2, Pos(39, 13)), Local(a3, Pos(45, 13))]
    requires a1 != a2 && a1 != a3
    requires Assigned(fs, 4, a1, [])
    ensures EventDiags(tr, Referenced(4, a1, Pos(34, 34), false, false, []), fs) == []
    ensures Step(tr, Referenced(4, a1, Pos(34, 34), false, false, []), fs) == fs
  {
    assert Local(a1, Pos(33, 13)) in LocalsOf(tr, 4);
    assert Lookup(tr, 4, a1) == Some(4);
  }

  /** Event 21: its diagnostics and the assignments after it. */
  lemma {:induction false} Event21(k: string, j: string, n: string, q: string, r: string, s: string, a1: string, a2: string, a3: string, c1: string, c2: string, c3: string, c4: string, d1: string, tr: Tree, fs: seq<Fact>)
    ensures EventDiags(tr, OutAssigned(4, [], []), fs) == []
    ensures Step(tr, OutAssigned(4, [], []), fs) == fs
  {
    assert OutFacts(4, [], []) == [];
    FactsNil(fs);
  }

  /** Event 22: its diagnostics and the assignments after it. */
  lemma {:induction false} Event22(k: string, j: string, n: string, q: string, r: string, s: string, a1: string, a2: string, a3: string, c1: string, c2: string, c3: string, c4: string, d1: string, tr: Tree, fs: seq<Fact>)
    ensures EventDiags(tr, OutAssigned(16, [], []), fs) == []
    ensures Step(tr, OutAssigned(16, [], []), fs) == fs
  {
    assert OutFacts(16, [], []) == [];
    FactsNil(fs);
  }

  /** Event 23: its diagnostics and the assignments after it. */
  lemma {:induction false} Event23(k: string, j: string, n: string, q: string, r: string, s: string, a1: string, a2: string, a3: string, c1: string, c2: string, c3: string, c4: string, d1: string, tr: Tree, fs: seq<Fact>)
    requires |tr.scopes| == 31
    requires Parent(tr, 4) == Some(3)
    requires Parent(tr, 15) == Some(4)
    requires LocalsOf(tr, 15) == [Local(a1, Pos(37, 21))]
    requires LocalsOf(tr, 4) == [Local(a1, Pos(33, 13)), Local(a2, Pos(39, 13)), Local(a3, Pos(45, 13))]
    requires a1 != a2 && a1 != a3
    ensures EventDiags(tr, Declared(15, a1, Pos(37, 21), Initialized, []), fs) == [Diag(Shadow, a1, Pos(37, 21))]
    ensures Step(tr, Declared(15, a1, Pos(37, 21), Initialized, []), fs) == fs + [Fact(15, a1, [])]
  {
    assert Local(a1, Pos(33, 13)) in LocalsOf(tr, 4);
    assert Lookup(tr, 4, a1) == Some(4);
  }

  /** Event 24: its diagnostics and the assignments after it. */
  lemma {:induction false} Event24(k: string, j: string, n: string, q: string, r: string, s: string, a1: string, a2: string, a3: string, c1: string, c2: string, c3: string, c4: string, d1: string, tr: Tree, fs: seq<Fact>)
    requires |tr.scopes| == 31
    requires Parent(tr, 0) == None
    requires Parent(tr, 3) == Some(0)
    requires Parent(tr, 4) == Some(3)
    requires LocalsOf(tr, 4) == [Local(a1, Pos(33, 13)), Local(a2, Pos(39, 13)), Local(a3, Pos(45, 13))]
    requires LocalsOf(tr, 3) == []
    requires LocalsOf(tr, 0) == []
    requires a1 != a2 && a2 != a3
    ensures EventDiags(tr, Declared(4, a2, Pos(39, 13), Initialized, []), fs) == []
    ensures Step(tr, Declared(4, a2, Pos(39, 13), Initialized, []), fs) == fs + [Fact(4, a2, [])]
  {
    assert Lookup(tr, 0, a2) == None;
    assert Lookup(tr, 3, a2) == None;
  }

  /** Event 25: its diagnostics and the assignments after it. */
  lemma {:induction false} Event25(k: string, j: string, n: string, q: string, r: string, s: string, a1: string, a2: string, a3: string, c1: string, c2: string, c3: string, c4: string, d1: string, tr: Tree, fs: seq<Fact>)
    requires |tr.scopes| == 31
    requires Parent(tr, 4) == Some(3)
    requires LocalsOf(tr, 4) == [Local(a1, Pos(33, 13)), Local(a2, Pos(39, 13)), Local(a3, Pos(45, 13))]
    requires a1 != a2 && a2 != a3
    requires Assigned(fs, 4, a2, [])
    ensures EventDiags(tr, Referenced(4, a2, Pos(40, 34), false, false, []), fs) == []
    ensures Step(tr, Referenced(4, a2, Pos(40, 34), false, false, []), fs) == fs
  {
    assert Local(a2, Pos(39, 13)) in LocalsOf(tr, 4);
    assert Lookup(tr, 4, a2) == Some(4);
  }

  /** Event 26: its diagnostics and the assignments after it. */
  lemma {:induction false} Event26(k: string, j: string, n: string, q: string, r: string, s: string, a1: string, a2: string, a3: string, c1: string, c2: string, c3: string, c4: string, d1: string, tr: Tree, fs: seq<Fact>)
    ensures EventDiags(tr, OutAssigned(4, [], []), fs) == []
    ensures Step(tr, OutAssigned(4, [], []), fs) == fs
  {
    assert OutFacts(4, [], []) == [];
    FactsNil(fs);
  }

  /** Event 27: its diagnostics and the assignments after it. */
  lemma {:induction false} Event27(k: string, j: string, n: string, q: string, r: string, s: string, a1: string, a2: string, a3: string, c1: string, c2: string, c3: string, c4: string, d1: string, tr: Tree, fs: seq<Fact>)
    requires |tr.scopes| == 31
    requires Parent(tr, 4) == Some(3)
    requires Parent(tr, 17) == Some(4)
    requires Parent(tr, 18) == Some(17)
    requires LocalsOf(tr, 18) == [Local(a2, Pos(42, 42))]
    requires LocalsOf(tr, 17) == []
    requires LocalsOf(tr, 4) == [Local(a1, Pos(33, 13)), Local(a2, Pos(39, 13)), Local(a3, Pos(45, 13))]
    requires a1 != a2 && a2 != a3
    ensures EventDiags(tr, Declared(18, a2, Pos(42, 42), Initialized, []), fs) == [Diag(Shadow, a2, Pos(42, 42))]
    ensures Step(tr, Declared(18, a2, Pos(42, 42), Initialized, []), fs) == fs + [Fact(18, a2, [])]
  {
    assert Local(a2, Pos(39, 13)) in LocalsOf(tr, 4);
    assert Lookup(tr, 4, a2) == Some(4);
    assert Lookup(tr, 17, a2) == Some(4);
  }

  /** Event 28: its diagnostics and the assignments after it. */
  lemma {:induction false} Event28(k: string, j: string, n: string, q: string, r: string, s: string, a1: string, a2: string, a3: string, c1: string, c2: string, c3: string, c4: string, d1: string, tr: Tree, fs: seq<Fact>)
    ensures EventDiags(tr, OutAssigned(18, [], []), fs) == []
    ensures Step(tr, OutAssigned(18, [], []), fs) == fs
  {
    assert OutFacts(18, [], []) == [];
    FactsNil(fs);
  }

  /** Event 29: its diagnostics and the assignments after it. */
  lemma {:induction false} Event29(k: string, j: string, n: string, q: string, r: string, s: string, a1: string, a2: string, a3: string, c1: string, c2: string, c3: string, c4: string, d1: string, tr: Tree, fs: seq<Fact>)
    requires |tr.scopes| == 31
    requires Parent(tr, 4) == Some(3)
    requires Parent(tr, 17) == Some(4)
    requires LocalsOf(tr, 17) == []
    requires LocalsOf(tr, 4) == [Local(a1, Pos(33, 13)), Local(a2, Pos(39, 13)), Local(a3, Pos(45, 13))]
    requires a1 != a2 && a2 != a3
    requires Assigned(fs, 4, a2, [])
    ensures EventDiags(tr, Referenced(17, a2, Pos(43, 16), false, false, []), fs) == []
    ensures Step(tr, Referenced(17, a2, Pos(43, 16), false, false, []), fs) == fs
  {
    assert Local(a2, Pos(39, 13)) in LocalsOf(tr, 4);
    assert Lookup(tr, 4, a2) == Some(4);
    assert Lookup(tr, 17, a2) == Some(4);
  }

  /** Event 30: its diagnostics and the assignments after it. */
  lemma {:induction false} Event30(k: string, j: string, n: string, q: string, r: string, s: string, a1: string, a2: string, a3: string, c1: string, c2: string, c3: string, c4: string, d1: string, tr: Tree, fs: seq<Fact>)
    requires |tr.scopes| == 31
    requires Parent(tr, 0) == None
    requires Parent(tr, 3) == Some(0)
    requires Parent(tr, 4) == Some(3)
    requires LocalsOf(tr, 4) == [Local(a1, Pos(33, 13)), Local(a2, Pos(39, 13)), Local(a3, Pos(45, 13))]
    requires LocalsOf(tr, 3) == []
    requires LocalsOf(tr, 0) == []
    requires a1 != a3 && a2 != a3
    ensures EventDiags(tr, Declared(4, a3, Pos(45, 13), Initialized, []), fs) == []
    ensures Step(tr, Declared(4, a3, Pos(45, 13), Initialized, []), fs) == fs + [Fact(4, a3, [])]
  {
    assert Lookup(tr, 0, a3) == None;
    assert Lookup(tr, 3, a3) == None;
  }

  /** Event 31: its diagnostics and the assignments after it. */
  lemma {:induction false} Event31(k: string, j: string, n: string, q: string, r: string, s: string, a1: string, a2: string, a3: string, c1: string, c2: string, c3: string, c4: string, d1: string, tr: Tree, fs: seq<Fact>)
    requires |tr.scopes| == 31
    requires Parent(tr, 4) == Some(3)
    requires LocalsOf(tr, 4) == [Local(a1, Pos(33, 13)), Local(a2, Pos(39, 13)), Local(a3, Pos(45, 13))]
    requires a1 != a3 && a2 != a3
    requires Assigned(fs, 4, a3, [])
    ensures EventDiags(tr, Referenced(4, a3, Pos(46, 34), false, false, []), fs) == []
    ensures Step(tr, Referenced(4, a3, Pos(46, 34), false, false, []), fs) == fs
  {
    assert Local(a3, Pos(45, 13)) in LocalsOf(tr, 4);
    assert Lookup(tr, 4, a3) == Some(4);
  }

  /** Event 32: its diagnostics and the assignments after it. */
  lemma {:induction false} Event32(k: string, j: string, n: string, q: string, r: string, s: string, a1: string, a2: string, a3: string, c1: string, c2: string, c3: string, c4: string, d1: string, tr: Tree, fs: seq<Fact>)
    ensures EventDiags(tr, OutAssigned(4, [], []), fs) == []
    ensures Step(tr, OutAssigned(4, [], []), fs) == fs
  {
    assert OutFacts(4, [], []) == [];
    FactsNil(fs);
  }

  /** Event 33: its diagnostics and the assignments after it. */
  lemma {:induction false} Event33(k: string, j: string, n: string, q: string, r: string, s: string, a1: string, a2: string, a3: string, c1: string, c2: string, c3: string, c4: string, d1: string, tr: Tree, fs: seq<Fact>)
    requires |tr.scopes| == 31
    requires Parent(tr, 4) == Some(3)
    requires Parent(tr, 19) == Some(4)
    requires Parent(tr, 20) == Some(19)
    requires LocalsOf(tr, 20) == [Local(a3, Pos(49, 42))]
    requires LocalsOf(tr, 19) == []
    requires LocalsOf(tr, 4) == [Local(a1, Pos(33, 13)), Local(a2, Pos(39, 13)), Local(a3, Pos(45, 13))]
    requires a1 != a3 && a2 != a3
    ensures EventDiags(tr, Declared(20, a3, Pos(49, 42), Initialized, []), fs) == [Diag(Shadow, a3, Pos(49, 42))]
    ensures Step(tr, Declared(20, a3, Pos(49, 42), Initialized, []), fs) == fs + [Fact(20, a3, [])]
  {
    assert Local(a3, Pos(45, 13)) in LocalsOf(tr, 4);
    assert Lookup(tr, 4, a3) == Some(4);
    assert Lookup(tr, 19, a3) == Some(4);
  }

  /** Event 34: its diagnostics and the assignments after it. */
  lemma {:induction false} Event34(k: string, j: string, n: string, q: string, r: string, s: string, a1: string, a2: string, a3: string, c1: string, c2: string, c3: string, c4: string, d1: string, tr: Tree, fs: seq<Fact>)
    ensures EventDiags(tr, OutAssigned(20, [], []), fs) == []
    ensures Step(tr, OutAssigned(20, [], []), fs) == fs
  {
    assert OutFacts(20, [], []) == [];
    FactsNil(fs);
  }

  /** Event 35: its diagnostics and the assignments after it. */
  lemma {:induction false} Event35(k: string, j: string, n: string, q: string, r: string, s: string, a1: string, a2: string, a3: string, c1: string, c2: string, c3: string, c4: string, d1: string, tr: Tree, fs: seq<Fact>)
    requires |tr.scopes| == 31
    requires Parent(tr, 4) == Some(3)
    requires Parent(tr, 19) == Some(4)
    requires LocalsOf(tr, 19) == []
    requires LocalsOf(tr, 4) == [Local(a1, Pos(33, 13)), Local(a2, Pos(39, 13)), Local(a3, Pos(45, 13))]
    requires a1 != a2 && a2 != a3
    requires Assigned(fs, 4, a2, [])
    ensures EventDiags(tr, Referenced(19, a2, Pos(51, 16), false, false, []), fs) == []
    ensures Step(tr, Referenced(19, a2, Pos(51, 16), false, false, []), fs) == fs
  {
    assert Local(a2, Pos(39, 13)) in LocalsOf(tr, 4);
    assert Lookup(tr, 4, a2) == Some(4);
    assert Lookup(tr, 19, a2) == Some(4);
  }

  /** Event 36: its diagnostics and the assignments after it. */
  lemma {:induction false} Event36(k: string, j: string, n: string, q: string, r: string, s: string, a1: string, a2: string, a3: string, c1: string, c2: string, c3: string, c4: string, d1: string, tr: Tree, fs: seq<Fact>)
    ensures EventDiags(tr, OutAssigned(22, [], []), fs) == []
    ensures Step(tr, OutAssigned(22, [], []), fs) == fs
  {
    assert OutFacts(22, [], []) == [];
    FactsNil(fs);
  }

  /** Event 37: its diagnostics and the assignments after it. */
  lemma {:induction false} Event37(k: string, j: string, n: string, q: string, r: string, s: string, a1: string, a2: string, a3: string, c1: string, c2: string, c3: string, c4: string, d1: string, tr: Tree, fs: seq<Fact>)
    requires |tr.scopes| == 31
    requires Parent(tr, 0) == None
    requires Parent(tr, 3) == Some(0)
    requires Parent(tr, 4) == Some(3)
    requires Parent(tr, 21) == Some(4)
    requires LocalsOf(tr, 21) == [Local(c1, Pos(55, 22)), Local(c1, Pos(55, 42))]
    requires LocalsOf(tr, 4) == [Local(a1, Pos(33, 13)), Local(a2, Pos(39, 13)), Local(a3, Pos(45, 13))]
    requires LocalsOf(tr, 3) == []
    requires LocalsOf(tr, 0) == []
    requires a1 != c1 && a2 != c1 && a3 != c1
    ensures EventDiags(tr, Declared(21, c1, Pos(55, 22), Initialized, []), fs) == []
    ensures Step(tr, Declared(21, c1, Pos(55, 22), Initialized, []), fs) == fs + [Fact(21, c1, [])]
  {
    assert Lookup(tr, 0, c1) == None;
    assert Lookup(tr, 3, c1) == None;
    assert Lookup(tr, 4, c1) == None;
  }

  /** Event 38: its diagnostics and the assignments after it. */
  lemma {:induction false} Event38(k: string, j: string, n: string, q: string, r: string, s: string, a1: string, a2: string, a3: string, c1: string, c2: string, c3: string, c4: string, d1: string, tr: Tree, fs: seq<Fact>)
    requires |tr.scopes| == 31
    requires Parent(tr, 21) == Some(4)
    requires LocalsOf(tr, 21) == [Local(c1, Pos(55, 22)), Local(c1, Pos(55, 42))]
    ensures EventDiags(tr, Declared(21, c1, Pos(55, 42), Initialized, []), fs) == [Diag(Duplicate, c1, Pos(55, 42))]
    ensures Step(tr, Declared(21, c1, Pos(55, 42), Initialized, []), fs) == fs + [Fact(21, c1, [])]
  {
    assert Local(c1, Pos(55, 22)) in LocalsOf(tr, 21);
  }

  /** Event 39: its diagnostics and the assignments after it. */
  lemma {:induction false} Event39(k: string, j: string, n: string, q: string, r: string, s: string, a1: string, a2: string, a3: string, c1: string, c2: string, c3: string, c4: string, d1: string, tr: Tree, fs: seq<Fact>)
    requires |tr.scopes| == 31
    requires Parent(tr, 23) == Some(4)
    requires Parent(tr, 24) == Some(23)
    requires LocalsOf(tr, 24) == [Local(c2, Pos(58, 42))]
    requires LocalsOf(tr, 23) == [Local(c2, Pos(59, 21))]
    ensures EventDiags(tr, Declared(24, c2, Pos(58, 42), Initialized, []), fs) == [Diag(Shadow, c2, Pos(58, 42))]
    ensures Step(tr, Declared(24, c2, Pos(58, 42), Initialized, []), fs) == fs + [Fact(24, c2, [])]
  {
    assert Local(c2, Pos(59, 21)) in LocalsOf(tr, 23);
    assert Lookup(tr, 23, c2) == Some(23);
  }

  /** Event 40: its diagnostics and the assignments after it. */
  lemma {:induction false} Event40(k: string, j: string, n: string, q: string, r: string, s: string, a1: string, a2: string, a3: string, c1: string, c2: string, c3: string, c4: string, d1: string, tr: Tree, fs: seq<Fact>)
    ensures EventDiags(tr, OutAssigned(24, [], []), fs) == []
    ensures Step(tr, OutAssigned(24, [], []), fs) == fs
  {
    assert OutFacts(24, [], []) == [];
    FactsNil(fs);
  }

  /** Event 41: its diagnostics and the assignments after it. */
  lemma {:induction false} Event41(k: string, j: string, n: string, q: string, r: string, s: string, a1: string, a2: string, a3: string, c1: string, c2: string, c3: string, c4: string, d1: string, tr: Tree, fs: seq<Fact>)
    requires |tr.scopes| == 31
    requires Parent(tr, 0) == None
    requires Parent(tr, 3) == Some(0)
    requires Parent(tr, 4) == Some(3)
    requires Parent(tr, 23) == Some(4)
    requires LocalsOf(tr, 23) == [Local(c2, Pos(59, 21))]
    requires LocalsOf(tr, 4) == [Local(a1, Pos(33, 13)), Local(a2, Pos(39, 13)), Local(a3, Pos(45, 13))]
    requires LocalsOf(tr, 3) == []
    requires LocalsOf(tr, 0) == []
    requires a1 != c2 && a2 != c2 && a3 != c2
    ensures EventDiags(tr, Declared(23, c2, Pos(59, 21), Initialized, []), fs) == []
    ensures Step(tr, Declared(23, c2, Pos(59, 21), Initialized, []), fs) == fs + [Fact(23, c2, [])]
  {
    assert Lookup(tr, 0, c2) == None;
    assert Lookup(tr, 3, c2) == None;
    assert Lookup(tr, 4, c2) == None;
  }

  /** Event 42: its diagnostics and the assignments after it. */
  lemma {:induction false} Event42(k: string, j: string, n: string, q: string, r: string, s: string, a1: string, a2: string, a3: string, c1: string, c2: string, c3: string, c4: string, d1: string, tr: Tree, fs: seq<Fact>)
    requires |tr.scopes| == 31
    requires Parent(tr, 25) == Some(4)
    requires Parent(tr, 26) == Some(25)
    requires LocalsOf(tr, 26) == [Local(c3, Pos(63, 42))]
    requires LocalsOf(tr, 25) == [Local(c3, Pos(65, 21))]
    ensures EventDiags(tr, Declared(26, c3, Pos(63, 42), Initialized, []), fs) == [Diag(Shadow, c3, Pos(63, 42))]
    ensures Step(tr, Declared(26, c3, Pos(63, 42), Initialized, []), fs) == fs + [Fact(26, c3, [])]
  {
    assert Local(c3, Pos(65, 21)) in LocalsOf(tr, 25);
    assert Lookup(tr, 25, c3) == Some(25);
  }

  /** Event 43: its diagnostics and the assignments after it. */
  lemma {:induction false} Event43(k: string, j: string, n: string, q: string, r: string, s: string, a1: string, a2: string, a3: string, c1: string, c2: string, c3: string, c4: string, d1: string, tr: Tree, fs: seq<Fact>)
    ensures EventDiags(tr, OutAssigned(26, [], []), fs) == []
    ensures Step(tr, OutAssigned(26, [], []), fs) == fs
  {
    assert OutFacts(26, [], []) == [];
    FactsNil(fs);
  }

  /** Event 44: its diagnostics and the assignments after it. */
  lemma {:induction false} Event44(k: string, j: string, n: string, q: string, r: string, s: string, a1: string, a2: string, a3: string, c1: string, c2: string, c3: string, c4: string, d1: string, tr: Tree, fs: seq<Fact>)
    requires |tr.scopes| == 31
    requires Parent(tr, 0) == None
    requires Parent(tr, 3) == Some(0)
    requires Parent(tr, 4) == Some(3)
    requires Parent(tr, 25) == Some(4)
    requires LocalsOf(tr, 25) == [Local(c3, Pos(65, 21))]
    requires LocalsOf(tr, 4) == [Local(a1, Pos(33, 13)), Local(a2, Pos(39, 13)), Local(a3, Pos(45, 13))]
    requires LocalsOf(tr, 3) == []
    requires LocalsOf(tr, 0) == []
    requires a1 != c3 && a2 != c3 && a3 != c3
    ensures EventDiags(tr, Declared(25, c3, Pos(65, 21), Initialized, []), fs) == []
    ensures Step(tr, Declared(25, c3, Pos(65, 21), Initialized, []), fs) == fs + [Fact(25, c3, [])]
  {
    assert Lookup(tr, 0, c3) == None;
    assert Lookup(tr, 3, c3) == None;
    assert Lookup(tr, 4, c3) == None;
  }

  /** Event 45: its diagnostics and the assignments after it. */
  lemma {:induction false} Event45(k: string, j: string, n: string, q: string, r: string, s: string, a1: string, a2: string, a3: string, c1: string, c2: string, c3: string, c4: string, d1: string, tr: Tree, fs: seq<Fact>)
    requires |tr.scopes| == 31
    requires Parent(tr, 27) == Some(4)
    requires Parent(tr, 28) == Some(27)
    requires LocalsOf(tr, 28) == [Local(c4, Pos(69, 17))]
    requires LocalsOf(tr, 27) == [Local(c4, Pos(72, 21))]
    ensures EventDiags(tr, Declared(28, c4, Pos(69, 17), Initialized, []), fs) == [Diag(Shadow, c4, Pos(69, 17))]
    ensures Step(tr, Declared(28, c4, Pos(69, 17), Initialized, []), fs) == fs + [Fact(28, c4, [])]
  {
    assert Local(c4, Pos(72, 21)) in LocalsOf(tr, 27);
    assert Lookup(tr, 27, c4) == Some(27);
  }

  /** Event 46: its diagnostics and the assignments after it. */
  lemma {:induction false} Event46(k: string, j: string, n: string, q: string, r: string, s: string, a1: string, a2: string, a3: string, c1: string, c2: string, c3: string, c4: string, d1: string, tr: Tree, fs: seq<Fact>)
    requires |tr.scopes| == 31
    requires Parent(tr, 28) == Some(27)
    requires LocalsOf(tr, 28) == [Local(c4, Pos(69, 17))]
    requires Assigned(fs, 28, c4, [])
    ensures EventDiags(tr, Referenced(28, c4, Pos(70, 38), false, false, []), fs) == []
    ensures Step(tr, Referenced(28, c4, Pos(70, 38), false, false, []), fs) == fs
  {
    assert Local(c4, Pos(69, 17)) in LocalsOf(tr, 28);
    assert Lookup(tr, 28, c4) == Some(28);
  }

  /** Event 47: its diagnostics and the assignments after it. */
  lemma {:induction false} Event47(k: string, j: string, n: string, q: string, r: string, s: string, a1: string, a2: string, a3: string, c1: string, c2: string, c3: string, c4: string, d1: string, tr: Tree, fs: seq<Fact>)
    ensures EventDiags(tr, OutAssigned(28, [], []), fs) == []
    ensures Step(tr, OutAssigned(28, [], []), fs) == fs
  {
    assert OutFacts(28, [], []) == [];
    FactsNil(fs);
  }

  /** Event 48: its diagnostics and the assignments after it. */
  lemma {:induction false} Event48(k: string, j: string, n: string, q: string, r: string, s: string, a1: string, a2: string, a3: string, c1: string, c2: string, c3: string, c4: string, d1: string, tr: Tree, fs: seq<Fact>)
    requires |tr.scopes| == 31
    requires Parent(tr, 0) == None
    requires Parent(tr, 3) == Some(0)
    requires Parent(tr, 4) == Some(3)
    requires Parent(tr, 27) == Some(4)
    requires LocalsOf(tr, 27) == [Local(c4, Pos(72, 21))]
    requires LocalsOf(tr, 4) == [Local(a1, Pos(33, 13)), Local(a2, Pos(39, 13)), Local(a3, Pos(45, 13))]
    requires LocalsOf(tr, 3) == []
    requires LocalsOf(tr, 0) == []
    requires a1 != c4 && a2 != c4 && a3 != c4
    ensures EventDiags(tr, Declared(27, c4, Pos(72, 21), Initialized, []), fs) == []
    ensures Step(tr, Declared(27, c4, Pos(72, 21), Initialized, []), fs) == fs + [Fact(27, c4, [])]
  {
    assert Lookup(tr, 0, c4) == None;
    assert Lookup(tr, 3, c4) == None;
    assert Lookup(tr, 4, c4) == None;
  }

  /** Event 49: its diagnostics and the assignments after it. */
  lemma {:induction false} Event49(k: string, j: string, n: string, q: string, r: string, s: string, a1: string, a2: string, a3: string, c1: string, c2: string, c3: string, c4: string, d1: string, tr: Tree, fs: seq<Fact>)
    requires |tr.scopes| == 31
    requires Parent(tr, 0) == None
    requires Parent(tr, 3) == Some(0)
    requires Parent(tr, 4) == Some(3)
    requires Parent(tr, 29) == Some(4)
    requires Parent(tr, 30) == Some(29)
    requires LocalsOf(tr, 30) == [Local(d1, Pos(75, 43)), Local(d1, Pos(75, 58))]
    requires LocalsOf(tr, 29) == []
    requires LocalsOf(tr, 4) == [Local(a1, Pos(33, 13)), Local(a2, Pos(39, 13)), Local(a3, Pos(45, 13))]
    requires LocalsOf(tr, 3) == []
    requires LocalsOf(tr, 0) == []
    requires a1 != d1 && a2 != d1 && a3 != d1
    ensures EventDiags(tr, Declared(30, d1, Pos(75, 43), Initialized, []), fs) == []
    ensures Step(tr, Declared(30, d1, Pos(75, 43), Initialized, []), fs) == fs + [Fact(30, d1, [])]
  {
    assert Lookup(tr, 0, d1) == None;
    assert Lookup(tr, 3, d1) == None;
    assert Lookup(tr, 4, d1) == None;
    assert Lookup(tr, 29, d1) == None;
  }

  /** Event 50: its diagnostics and the assignments after it. */
  lemma {:induction false} Event50(k: string, j: string, n: string, q: string, r: string, s: string, a1: string, a2: string, a3: string, c1: string, c2: string, c3: string, c4: string, d1: string, tr: Tree, fs: seq<Fact>)
    requires |tr.scopes| == 31
    requires Parent(tr, 30) == Some(29)
    requires LocalsOf(tr, 30) == [Local(d1, Pos(75, 43)), Local(d1, Pos(75, 58))]
    ensures EventDiags(tr, Declared(30, d1, Pos(75, 58), Initialized, []), fs) == [Diag(Duplicate, d1, Pos(75, 58))]
    ensures Step(tr, Declared(30, d1, Pos(75, 58), Initialized, []), fs) == fs + [Fact(30, d1, [])]
  {
    assert Local(d1, Pos(75, 43)) in LocalsOf(tr, 30);
  }

  /** Event 51: its diagnostics and the assignments after it. */
  lemma {:induction false} Event51(k: string, j: string, n: string, q: string, r: string, s: string, a1: string, a2: string, a3: string, c1: string, c2: string, c3: string, c4: string, d1: string, tr: Tree, fs: seq<Fact>)
    ensures EventDiags(tr, OutAssigned(30, [], []), fs) == []
    ensures Step(tr, OutAssigned(30, [], []), fs) == fs
  {
    assert OutFacts(30, [], []) == [];
    FactsNil(fs);
  }

  /** Event 52: its diagnostics and the assignments after it. */
  lemma {:induction false} Event52(k: string, j: string, n: string, q: string, r: string, s: string, a1: string, a2: string, a3: string, c1: string, c2: string, c3: string, c4: string, d1: string, tr: Tree, fs: seq<Fact>)
    requires |tr.scopes| == 31
    requires Parent(tr, 4) == Some(3)
    requires Parent(tr, 29) == Some(4)
    requires LocalsOf(tr, 29) == []
    requires LocalsOf(tr, 4) == [Local(a1, Pos(33, 13)), Local(a2, Pos(39, 13)), Local(a3, Pos(45, 13))]
    requires a1 != a2 && a2 != a3
    requires Assigned(fs, 4, a2, [])
    ensures EventDiags(tr, Referenced(29, a2, Pos(76, 16), false, false, []), fs) == []
    ensures Step(tr, Referenced(29, a2, Pos(76, 16), false, false, []), fs) == fs
  {
    assert Local(a2, Pos(39, 13)) in LocalsOf(tr, 4);
    assert Lookup(tr, 4, a2) == Some(4);
    assert Lookup(tr, 29, a2) == Some(4);
  }

  /** What a read of a1 in scope 4 finds assigned before event 16. */
  lemma {:induction false} Read0(k: string, j: string, n: string, q: string, r: string, s: string, a1: string, a2: string, a3: string, c1: string, c2: string, c3: string, c4: string, d1: string)
    ensures !Assigned(Known1(k, j, n, q, r, s, a1, a2, a3, c1, c2, c3, c4, d1), 4, a1, [])
  {
    Assigned0(k, j, n, q, r, s, a1, a2, a3, c1, c2, c3, c4, d1, [], 4, a1, []);
    Assigned1(k, j, n, q, r, s, a1, a2, a3, c1, c2, c3, c4, d1, Known0(k, j, n, q, r, s, a1, a2, a3, c1, c2, c3, c4, d1), 4, a1, []);
    assert !Assigned([], 4, a1, []);
  }

  /** What a read of a2 in scope 4 finds assigned before event 24. */
  lemma {:induction false} Read1(k: string, j: string, n: string, q: string, r: string, s: string, a1: string, a2: string, a3: string, c1: string, c2: string, c3: string, c4: string, d1: string)
    requires a1 != a2
    ensures !Assigned(Known2(k, j, n, q, r, s, a1, a2, a3, c1, c2, c3, c4, d1), 4, a2, [])
  {
    Assigned0(k, j, n, q, r, s, a1, a2, a3, c1, c2, c3, c4, d1, [], 4, a2, []);
    Assigned1(k, j, n, q, r, s, a1, a2, a3, c1, c2, c3, c4, d1, Known0(k, j, n, q, r, s, a1, a2, a3, c1, c2, c3, c4, d1), 4, a2, []);
    Assigned2(k, j, n, q, r, s, a1, a2, a3, c1, c2, c3, c4, d1, Known1(k, j, n, q, r, s, a1, a2, a3, c1, c2, c3, c4, d1), 4, a2, []);
    assert !Assigned([], 4, a2, []);
  }

  /** What a read of a3 in scope 4 finds assigned before event 24. */
  lemma {:induction false} Read2(k: string, j: string, n: string, q: string, r: string, s: string, a1: string, a2: string, a3: string, c1: string, c2: string, c3: string, c4: string, d1: string)
    requires a1 != a3
    ensures !Assigned(Known2(k, j, n, q, r, s, a1, a2, a3, c1, c2, c3, c4, d1), 4, a3, [])
  {
    Assigned0(k, j, n, q, r, s, a1, a2, a3, c1, c2, c3, c4, d1, [], 4, a3, []);
    Assigned1(k, j, n, q, r, s, a1, a2, a3, c1, c2, c3, c4, d1, Known0(k, j, n, q, r, s, a1, a2, a3, c1, c2, c3, c4, d1), 4, a3, []);
    Assigned2(k, j, n, q, r, s, a1, a2, a3, c1, c2, c3, c4, d1, Known1(k, j, n, q, r, s, a1, a2, a3, c1, c2, c3, c4, d1), 4, a3, []);
    assert !Assigned([], 4, a3, []);
  }

  /** What a read of a2 in scope 4 finds assigned before event 32. */
  lemma {:induction false} Read3(k: string, j: string, n: string, q: string, r: string, s: string, a1: string, a2: string, a3: string, c1: string, c2: string, c3: string, c4: string, d1: string)
    ensures Assigned(Known3(k, j, n, q, r, s, a1, a2, a3, c1, c2, c3, c4, d1), 4, a2, [])
  {
    Assigned0(k, j, n, q, r, s, a1, a2, a3, c1, c2, c3, c4, d1, [], 4, a2, []);
    Assigned1(k, j, n, q, r, s, a1, a2, a3, c1, c2, c3, c4, d1, Known0(k, j, n, q, r, s, a1, a2, a3, c1, c2, c3, c4, d1), 4, a2, []);
    Assigned2(k, j, n, q, r, s, a1, a2, a3, c1, c2, c3, c4, d1, Known1(k, j, n, q, r, s, a1, a2, a3, c1, c2, c3, c4, d1), 4, a2, []);
    Assigned3(k, j, n, q, r, s, a1, a2, a3, c1, c2, c3, c4, d1, Known2(k, j, n, q, r, s, a1, a2, a3, c1, c2, c3, c4, d1), 4, a2, []);
    assert !Assigned([], 4, a2, []);
  }

  /** What a read of c4 in scope 28 finds assigned before event 40. */
  lemma {:induction false} Read4(k: string, j: string, n: string, q: string, r: string, s: string, a1: string, a2: string, a3: string, c1: string, c2: string, c3: string, c4: string, d1: string)
    ensures !Assigned(Known4(k, j, n, q, r, s, a1, a2, a3, c1, c2, c3, c4, d1), 28, c4, [])
  {
    Assigned0(k, j, n, q, r, s, a1, a2, a3, c1, c2, c3, c4, d1, [], 28, c4, []);
    Assigned1(k, j, n, q, r, s, a1, a2, a3, c1, c2, c3, c4, d1, Known0(k, j, n, q, r, s, a1, a2, a3, c1, c2, c3, c4, d1), 28, c4, []);
    Assigned2(k, j, n, q, r, s, a1, a2, a3, c1, c2, c3, c4, d1, Known1(k, j, n, q, r, s, a1, a2, a3, c1, c2, c3, c4, d1), 28, c4, []);
    Assigned3(k, j, n, q, r, s, a1, a2, a3, c1, c2, c3, c4, d1, Known2(k, j, n, q, r, s, a1, a2, a3, c1, c2, c3, c4, d1), 28, c4, []);
    Assigned4(k, j, n, q, r, s, a1, a2, a3, c1, c2, c3, c4, d1, Known3(k, j, n, q, r, s, a1, a2, a3, c1, c2, c3, c4, d1), 28, c4, []);
    assert !Assigned([], 28, c4, []);
  }

  /** What a read of a2 in scope 4 finds assigned before event 48. */
  lemma {:induction false} Read5(k: string, j: string, n: string, q: string, r: string, s: string, a1: string, a2: string, a3: string, c1: string, c2: string, c3: string, c4: string, d1: string)
    ensures Assigned(Known5(k, j, n, q, r, s, a1, a2, a3, c1, c2, c3, c4, d1), 4, a2, [])
  {
    Assigned0(k, j, n, q, r, s, a1, a2, a3, c1, c2, c3, c4, d1, [], 4, a2, []);
    Assigned1(k, j, n, q, r, s, a1, a2, a3, c1, c2, c3, c4, d1, Known0(k, j, n, q, r, s, a1, a2, a3, c1, c2, c3, c4, d1), 4, a2, []);
    Assigned2(k, j, n, q, r, s, a1, a2, a3, c1, c2, c3, c4, d1, Known1(k, j, n, q, r, s, a1, a2, a3, c1, c2, c3, c4, d1), 4, a2, []);
    Assigned3(k, j, n, q, r, s, a1, a2, a3, c1, c2, c3, c4, d1, Known2(k, j, n, q, r, s, a1, a2, a3, c1, c2, c3, c4, d1), 4, a2, []);
    Assigned4(k, j, n, q, r, s, a1, a2, a3, c1, c2, c3, c4, d1, Known3(k, j, n, q, r, s, a1, a2, a3, c1, c2, c3, c4, d1), 4, a2, []);
    Assigned5(k, j, n, q, r, s, a1, a2, a3, c1, c2, c3, c4, d1, Known4(k, j, n, q, r, s, a1, a2, a3, c1, c2, c3, c4, d1), 4, a2, []);
    assert !Assigned([], 4, a2, []);
  }

  /** The parent and the locals of scope 0. */
  lemma {:induction false} Scope0(k: string, j: string, n: string, q: string, r: string, s: string, a1: string, a2: string, a3: string, c1: string, c2: string, c3: string, c4: string, d1: string, tr: Tree)
    requires ScopesAre(tr, Layout())
    requires LocalsFit(k, j, n, q, r, s, a1, a2, a3, c1, c2, c3, c4, d1, tr)
    ensures |tr.scopes| == 31
    ensures Parent(tr, 0) == None
    ensures LocalsOf(tr, 0) == []
  {
    assert tr.scopes[0] == Layout()[0];
    Locals0(k, j, n, q, r, s, a1, a2, a3, c1, c2, c3, c4, d1);
    assert LocalsOf(tr, 0) == DeclaredBy(k, j, n, q, r, s, a1, a2, a3, c1, c2, c3, c4, d1, 7, 0);
  }

  /** The parent and the locals of scope 3. */
  lemma {:induction false} Scope3(k: string, j: string, n: string, q: string, r: string, s: string, a1: string, a2: string, a3: string, c1: string, c2: string, c3: string, c4: string, d1: string, tr: Tree)
    requires ScopesAre(tr, Layout())
    requires LocalsFit(k, j, n, q, r, s, a1, a2, a3, c1, c2, c3, c4, d1, tr)
    ensures |tr.scopes| == 31
    ensures Parent(tr, 3) == Some(0)
    ensures LocalsOf(tr, 3) == []
  {
    assert tr.scopes[3] == Layout()[3];
    Locals3(k, j, n, q, r, s, a1, a2, a3, c1, c2, c3, c4, d1);
    assert LocalsOf(tr, 3) == DeclaredBy(k, j, n, q, r, s, a1, a2, a3, c1, c2, c3, c4, d1, 7, 3);
  }

  /** The parent and the locals of scope 4. */
  lemma {:induction false} Scope4(k: string, j: string, n: string, q: string, r: string, s: string, a1: string, a2: string, a3: string, c1: string, c2: string, c3: string, c4: string, d1: string, tr: Tree)
    requires ScopesAre(tr, Layout())
    requires LocalsFit(k, j, n, q, r, s, a1, a2, a3, c1, c2, c3, c4, d1, tr)
    ensures |tr.scopes| == 31
    ensures Parent(tr, 4) == Some(3)
    ensures LocalsOf(tr, 4) == [Local(a1, Pos(33, 13)), Local(a2, Pos(39, 13)), Local(a3, Pos(45, 13))]
  {
    assert tr.scopes[4] == Layout()[4];
    Locals4(k, j, n, q, r, s, a1, a2, a3, c1, c2, c3, c4, d1);
    assert LocalsOf(tr, 4) == DeclaredBy(k, j, n, q, r, s, a1, a2, a3, c1, c2, c3, c4, d1, 7, 4);
  }

  /** The parent and the locals of scope 5. */
  lemma {:induction false} Scope5(k: string, j: string, n: string, q: string, r: string, s: string, a1: string, a2: string, a3: string, c1: string, c2: string, c3: string, c4: string, d1: string, tr: Tree)
    requires ScopesAre(tr, Layout())
    requires LocalsFit(k, j, n, q, r, s, a1, a2, a3, c1, c2, c3, c4, d1, tr)
    ensures |tr.scopes| == 31
    ensures Parent(tr, 5) == Some(4)
    ensures LocalsOf(tr, 5) == [Local(j, Pos(8, 21))]
  {
    assert tr.scopes[5] == Layout()[5];
    Locals5(k, j, n, q, r, s, a1, a2, a3, c1, c2, c3, c4, d1);
    assert LocalsOf(tr, 5) == DeclaredBy(k, j, n, q, r, s, a1, a2, a3, c1, c2, c3, c4, d1, 7, 5);
  }

  /** The parent and the locals of scope 6. */
  lemma {:induction false} Scope6(k: string, j: string, n: string, q: string, r: string, s: string, a1: string, a2: string, a3: string, c1: string, c2: string, c3: string, c4: string, d1: string, tr: Tree)
    requires ScopesAre(tr, Layout())
    requires LocalsFit(k, j, n, q, r, s, a1, a2, a3, c1, c2, c3, c4, d1, tr)
    ensures |tr.scopes| == 31
    ensures Parent(tr, 6) == Some(5)
    ensures LocalsOf(tr, 6) == [Local(k, Pos(7, 43))]
  {
    assert tr.scopes[6] == Layout()[6];
    Locals6(k, j, n, q, r, s, a1, a2, a3, c1, c2, c3, c4, d1);
    assert LocalsOf(tr, 6) == DeclaredBy(k, j, n, q, r, s, a1, a2, a3, c1, c2, c3, c4, d1, 7, 6);
  }

  /** The parent and the locals of scope 7. */
  lemma {:induction false} Scope7(k: string, j: string, n: string, q: string, r: string, s: string, a1: string, a2: string, a3: string, c1: string, c2: string, c3: string, c4: string, d1: string, tr: Tree)
    requires ScopesAre(tr, Layout())
    requires LocalsFit(k, j, n, q, r, s, a1, a2, a3, c1, c2, c3, c4, d1, tr)
    ensures |tr.scopes| == 31
    ensures Parent(tr, 7) == Some(4)
    ensures LocalsOf(tr, 7) == [Local(n, Pos(15, 21))]
  {
    assert tr.scopes[7] == Layout()[7];
    Locals7(k, j, n, q, r, s, a1, a2, a3, c1, c2, c3, c4, d1);
    assert LocalsOf(tr, 7) == DeclaredBy(k, j, n, q, r, s, a1, a2, a3, c1, c2, c3, c4, d1, 7, 7);
  }

  /** The parent and the locals of scope 8. */
  lemma {:induction false} Scope8(k: string, j: string, n: string, q: string, r: string, s: string, a1: string, a2: string, a3: string, c1: string, c2: string, c3: string, c4: string, d1: string, tr: Tree)
    requires ScopesAre(tr, Layout())
    requires LocalsFit(k, j, n, q, r, s, a1, a2, a3, c1, c2, c3, c4, d1, tr)
    ensures |tr.scopes| == 31
    ensures Parent(tr, 8) == Some(7)
    ensures LocalsOf(tr, 8) == []
  {
    assert tr.scopes[8] == Layout()[8];
    Locals8(k, j, n, q, r, s, a1, a2, a3, c1, c2, c3, c4, d1);
    assert LocalsOf(tr, 8) == DeclaredBy(k, j, n, q, r, s, a1, a2, a3, c1, c2, c3, c4, d1, 7, 8);
  }

  /** The parent and the locals of scope 9. */
  lemma {:induction false} Scope9(k: string, j: string, n: string, q: string, r: string, s: string, a1: string, a2: string, a3: string, c1: string, c2: string, c3: string, c4: string, d1: string, tr: Tree)
    requires ScopesAre(tr, Layout())
    requires LocalsFit(k, j, n, q, r, s, a1, a2, a3, c1, c2, c3, c4, d1, tr)
    ensures |tr.scopes| == 31
    ensures Parent(tr, 9) == Some(4)
    ensures LocalsOf(tr, 9) == [Local(q, Pos(21, 21))]
  {
    assert tr.scopes[9] == Layout()[9];
    Locals9(k, j, n, q, r, s, a1, a2, a3, c1, c2, c3, c4, d1);
    assert LocalsOf(tr, 9) == DeclaredBy(k, j, n, q, r, s, a1, a2, a3, c1, c2, c3, c4, d1, 7, 9);
  }

  /** The parent and the locals of scope 10. */
  lemma {:induction false} Scope10(k: string, j: string, n: string, q: string, r: string, s: string, a1: string, a2: string, a3: string, c1: string, c2: string, c3: string, c4: string, d1: string, tr: Tree)
    requires ScopesAre(tr, Layout())
    requires LocalsFit(k, j, n, q, r, s, a1, a2, a3, c1, c2, c3, c4, d1, tr)
    ensures |tr.scopes| == 31
    ensures Parent(tr, 10) == Some(9)
    ensures LocalsOf(tr, 10) == []
  {
    assert tr.scopes[10] == Layout()[10];
    Locals10(k, j, n, q, r, s, a1, a2, a3, c1, c2, c3, c4, d1);
    assert LocalsOf(tr, 10) == DeclaredBy(k, j, n, q, r, s, a1, a2, a3, c1, c2, c3, c4, d1, 7, 10);
  }

  /** The parent and the locals of scope 11. */
  lemma {:induction false} Scope11(k: string, j: string, n: string, q: string, r: string, s: string, a1: string, a2: string, a3: string, c1: string, c2: string, c3: string, c4: string, d1: string, tr: Tree)
    requires ScopesAre(tr, Layout())
    requires LocalsFit(k, j, n, q, r, s, a1, a2, a3, c1, c2, c3, c4, d1, tr)
    ensures |tr.scopes| == 31
    ensures Parent(tr, 11) == Some(4)
    ensures LocalsOf(tr, 11) == []
  {
    assert tr.scopes[11] == Layout()[11];
    Locals11(k, j, n, q, r, s, a1, a2, a3, c1, c2, c3, c4, d1);
    assert LocalsOf(tr, 11) == DeclaredBy(k, j, n, q, r, s, a1, a2, a3, c1, c2, c3, c4, d1, 7, 11);
  }

  /** The parent and the locals of scope 12. */
  lemma {:induction false} Scope12(k: string, j: string, n: string, q: string, r: string, s: string, a1: string, a2: string, a3: string, c1: string, c2: string, c3: string, c4: string, d1: string, tr: Tree)
    requires ScopesAre(tr, Layout())
    requires LocalsFit(k, j, n, q, r, s, a1, a2, a3, c1, c2, c3, c4, d1, tr)
    ensures |tr.scopes| == 31
    ensures Parent(tr, 12) == Some(11)
    ensures LocalsOf(tr, 12) == [Local(r, Pos(25, 42))]
  {
    assert tr.scopes[12] == Layout()[12];
    Locals12(k, j, n, q, r, s, a1, a2, a3, c1, c2, c3, c4, d1);
    assert LocalsOf(tr, 12) == DeclaredBy(k, j, n, q, r, s, a1, a2, a3, c1, c2, c3, c4, d1, 7, 12);
  }

  /** The parent and the locals of scope 13. */
  lemma {:induction false} Scope13(k: string, j: string, n: string, q: string, r: string, s: string, a1: string, a2: string, a3: string, c1: string, c2: string, c3: string, c4: string, d1: string, tr: Tree)
    requires ScopesAre(tr, Layout())
    requires LocalsFit(k, j, n, q, r, s, a1, a2, a3, c1, c2, c3, c4, d1, tr)
    ensures |tr.scopes| == 31
    ensures Parent(tr, 13) == Some(4)
    ensures LocalsOf(tr, 13) == []
  {
    assert tr.scopes[13] == Layout()[13];
    Locals13(k, j, n, q, r, s, a1, a2, a3, c1, c2, c3, c4, d1);
    assert LocalsOf(tr, 13) == DeclaredBy(k, j, n, q, r, s, a1, a2, a3, c1, c2, c3, c4, d1, 7, 13);
  }

  /** The parent and the locals of scope 14. */
  lemma {:induction false} Scope14(k: string, j: string, n: string, q: string, r: string, s: string, a1: string, a2: string, a3: string, c1: string, c2: string, c3: string, c4: string, d1: string, tr: Tree)
    requires ScopesAre(tr, Layout())
    requires LocalsFit(k, j, n, q, r, s, a1, a2, a3, c1, c2, c3, c4, d1, tr)
    ensures |tr.scopes| == 31
    ensures Parent(tr, 14) == Some(13)
    ensures LocalsOf(tr, 14) == [Local(s, Pos(30, 42))]
  {
    assert tr.scopes[14] == Layout()[14];
    Locals14(k, j, n, q, r, s, a1, a2, a3, c1, c2, c3, c4, d1);
    assert LocalsOf(tr, 14) == DeclaredBy(k, j, n, q, r, s, a1, a2, a3, c1, c2, c3, c4, d1, 7, 14);
  }

  /** The parent and the locals of scope 15. */
  lemma {:induction false} Scope15(k: string, j: string, n: string, q: string, r: string, s: string, a1: string, a2: string, a3: string, c1: string, c2: string, c3: string, c4: string, d1: string, tr: Tree)
    requires ScopesAre(tr, Layout())
    requires LocalsFit(k, j, n, q, r, s, a1, a2, a3, c1, c2, c3, c4, d1, tr)
    ensures |tr.scopes| == 31
    ensures Parent(tr, 15) == Some(4)
    ensures LocalsOf(tr, 15) == [Local(a1, Pos(37, 21))]
  {
    assert tr.scopes[15] == Layout()[15];
    Locals15(k, j, n, q, r, s, a1, a2, a3, c1, c2, c3, c4, d1);
    assert LocalsOf(tr, 15) == DeclaredBy(k, j, n, q, r, s, a1, a2, a3, c1, c2, c3, c4, d1, 7, 15);
  }

  /** The parent and the locals of scope 17. */
  lemma {:induction false} Scope17(k: string, j: string, n: string, q: string, r: string, s: string, a1: string, a2: string, a3: string, c1: string, c2: string, c3: string, c4: string, d1: string, tr: Tree)
    requires ScopesAre(tr, Layout())
    requires LocalsFit(k, j, n, q, r, s, a1, a2, a3, c1, c2, c3, c4, d1, tr)
    ensures |tr.scopes| == 31
    ensures Parent(tr, 17) == Some(4)
    ensures LocalsOf(tr, 17) == []
  {
    assert tr.scopes[17] == Layout()[17];
    Locals17(k, j, n, q, r, s, a1, a2, a3, c1, c2, c3, c4, d1);
    assert LocalsOf(tr, 17) == DeclaredBy(k, j, n, q, r, s, a1, a2, a3, c1, c2, c3, c4, d1, 7, 17);
  }

  /** The parent and the locals of scope 18. */
  lemma {:induction false} Scope18(k: string, j: string, n: string, q: string, r: string, s: string, a1: string, a2: string, a3: string, c1: string, c2: string, c3: string, c4: string, d1: string, tr: Tree)
    requires ScopesAre(tr, Layout())
    requires LocalsFit(k, j, n, q, r, s, a1, a2, a3, c1, c2, c3, c4, d1, tr)
    ensures |tr.scopes| == 31
    ensures Parent(tr, 18) == Some(17)
    ensures LocalsOf(tr, 18) == [Local(a2, Pos(42, 42))]
  {
    assert tr.scopes[18] == Layout()[18];
    Locals18(k, j, n, q, r, s, a1, a2, a3, c1, c2, c3, c4, d1);
    assert LocalsOf(tr, 18) == DeclaredBy(k, j, n, q, r, s, a1, a2, a3, c1, c2, c3, c4, d1, 7, 18);
  }

  /** The parent and the locals of scope 19. */
  lemma {:induction false} Scope19(k: string, j: string, n: string, q: string, r: string, s: string, a1: string, a2: string, a3: string, c1: string, c2: string, c3: string, c4: string, d1: string, tr: Tree)
    requires ScopesAre(tr, Layout())
    requires LocalsFit(k, j, n, q, r, s, a1, a2, a3, c1, c2, c3, c4, d1, tr)
    ensures |tr.scopes| == 31
    ensures Parent(tr, 19) == Some(4)
    ensures LocalsOf(tr, 19) == []
  {
    assert tr.scopes[19] == Layout()[19];
    Locals19(k, j, n, q, r, s, a1, a2, a3, c1, c2, c3, c4, d1);
    assert LocalsOf(tr, 19) == DeclaredBy(k, j, n, q, r, s, a1, a2, a3, c1, c2, c3, c4, d1, 7, 19);
  }

  /** The parent and the locals of scope 20. */
  lemma {:induction false} Scope20(k: string, j: string, n: string, q: string, r: string, s: string, a1: string, a2: string, a3: string, c1: string, c2: string, c3: string, c4: string, d1: string, tr: Tree)
    requires ScopesAre(tr, Layout())
    requires LocalsFit(k, j, n, q, r, s, a1, a2, a3, c1, c2, c3, c4, d1, tr)
    ensures |tr.scopes| == 31
    ensures Parent(tr, 20) == Some(19)
    ensures LocalsOf(tr, 20) == [Local(a3, Pos(49, 42))]
  {
    assert tr.scopes[20] == Layout()[20];
    Locals20(k, j, n, q, r, s, a1, a2, a3, c1, c2, c3, c4, d1);
    assert LocalsOf(tr, 20) == DeclaredBy(k, j, n, q, r, s, a1, a2, a3, c1, c2, c3, c4, d1, 7, 20);
  }

  /** The parent and the locals of scope 21. */
  lemma {:induction false} Scope21(k: string, j: string, n: string, q: string, r: string, s: string, a1: string, a2: string, a3: string, c1: string, c2: string, c3: string, c4: string, d1: string, tr: Tree)
    requires ScopesAre(tr, Layout())
    requires LocalsFit(k, j, n, q, r, s, a1, a2, a3, c1, c2, c3, c4, d1, tr)
    ensures |tr.scopes| == 31
    ensures Parent(tr, 21) == Some(4)
    ensures LocalsOf(tr, 21) == [Local(c1, Pos(55, 22)), Local(c1, Pos(55, 42))]
  {
    assert tr.scopes[21] == Layout()[21];
    Locals21(k, j, n, q, r, s, a1, a2, a3, c1, c2, c3, c4, d1);
    assert LocalsOf(tr, 21) == DeclaredBy(k, j, n, q, r, s, a1, a2, a3, c1, c2, c3, c4, d1, 7, 21);
  }

  /** The parent and the locals of scope 23. */
  lemma {:induction false} Scope23(k: string, j: string, n: string, q: string, r: string, s: string, a1: string, a2: string, a3: string, c1: string, c2: string, c3: string, c4: string, d1: string, tr: Tree)
    requires ScopesAre(tr, Layout())
    requires LocalsFit(k, j, n, q, r, s, a1, a2, a3, c1, c2, c3, c4, d1, tr)
    ensures |tr.scopes| == 31
    ensures Parent(tr, 23) == Some(4)
    ensures LocalsOf(tr, 23) == [Local(c2, Pos(59, 21))]
  {
    assert tr.scopes[23] == Layout()[23];
    Locals23(k, j, n, q, r, s, a1, a2, a3, c1, c2, c3, c4, d1);
    assert LocalsOf(tr, 23) == DeclaredBy(k, j, n, q, r, s, a1, a2, a3, c1, c2, c3, c4, d1, 7, 23);
  }

  /** The parent and the locals of scope 24. */
  lemma {:induction false} Scope24(k: string, j: string, n: string, q: string, r: string, s: string, a1: string, a2: string, a3: string, c1: string, c2: string, c3: string, c4: string, d1: string, tr: Tree)
    requires ScopesAre(tr, Layout())
    requires LocalsFit(k, j, n, q, r, s, a1, a2, a3, c1, c2, c3, c4, d1, tr)
    ensures |tr.scopes| == 31
    ensures Parent(tr, 24) == Some(23)
    ensures LocalsOf(tr, 24) == [Local(c2, Pos(58, 42))]
  {
    assert tr.scopes[24] == Layout()[24];
    Locals24(k, j, n, q, r, s, a1, a2, a3, c1, c2, c3, c4, d1);
    assert LocalsOf(tr, 24) == DeclaredBy(k, j, n, q, r, s, a1, a2, a3, c1, c2, c3, c4, d1, 7, 24);
  }

  /** The parent and the locals of scope 25. */
  lemma {:induction false} Scope25(k: string, j: string, n: string, q: string, r: string, s: string, a1: string, a2: string, a3: string, c1: string, c2: string, c3: string, c4: string, d1: string, tr: Tree)
    requires ScopesAre(tr, Layout())
    requires LocalsFit(k, j, n, q, r, s, a1, a2, a3, c1, c2, c3, c4, d1, tr)
    ensures |tr.scopes| == 31
    ensures Parent(tr, 25) == Some(4)
    ensures LocalsOf(tr, 25) == [Local(c3, Pos(65, 21))]
  {
    assert tr.scopes[25] == Layout()[25];
    Locals25(k, j, n, q, r, s, a1, a2, a3, c1, c2, c3, c4, d1);
    assert LocalsOf(tr, 25) == DeclaredBy(k, j, n, q, r, s, a1, a2, a3, c1, c2, c3, c4, d1, 7, 25);
  }

  /** The parent and the locals of scope 26. */
  lemma {:induction false} Scope26(k: string, j: string, n: string, q: string, r: string, s: string, a1: string, a2: string, a3: string, c1: string, c2: string, c3: string, c4: string, d1: string, tr: Tree)
    requires ScopesAre(tr, Layout())
    requires LocalsFit(k, j, n, q, r, s, a1, a2, a3, c1, c2, c3, c4, d1, tr)
    ensures |tr.scopes| == 31
    ensures Parent(tr, 26) == Some(25)
    ensures LocalsOf(tr, 26) == [Local(c3, Pos(63, 42))]
  {
    assert tr.scopes[26] == Layout()[26];
    Locals26(k, j, n, q, r, s, a1, a2, a3, c1, c2, c3, c4, d1);
    assert LocalsOf(tr, 26) == DeclaredBy(k, j, n, q, r, s, a1, a2, a3, c1, c2, c3, c4, d1, 7, 26);
  }

  /** The parent and the locals of scope 27. */
  lemma {:induction false} Scope27(k: string, j: string, n: string, q: string, r: string, s: string, a1: string, a2: string, a3: string, c1: string, c2: string, c3: string, c4: string, d1: string, tr: Tree)
    requires ScopesAre(tr, Layout())
    requires LocalsFit(k, j, n, q, r, s, a1, a2, a3, c1, c2, c3, c4, d1, tr)
    ensures |tr.scopes| == 31
    ensures Parent(tr, 27) == Some(4)
    ensures LocalsOf(tr, 27) == [Local(c4, Pos(72, 21))]
  {
    assert tr.scopes[27] == Layout()[27];
    Locals27(k, j, n, q, r, s, a1, a2, a3, c1, c2, c3, c4, d1);
    assert LocalsOf(tr, 27) == DeclaredBy(k, j, n, q, r, s, a1, a2, a3, c1, c2, c3, c4, d1, 7, 27);
  }

  /** The parent and the locals of scope 28. */
  lemma {:induction false} Scope28(k: string, j: string, n: string, q: string, r: string, s: string, a1: string, a2: string, a3: string, c1: string, c2: string, c3: string, c4: string, d1: string, tr: Tree)
    requires ScopesAre(tr, Layout())
    requires LocalsFit(k, j, n, q, r, s, a1, a2, a3, c1, c2, c3, c4, d1, tr)
    ensures |tr.scopes| == 31
    ensures Parent(tr, 28) == Some(27)
    ensures LocalsOf(tr, 28) == [Local(c4, Pos(69, 17))]
  {
    assert tr.scopes[28] == Layout()[28];
    Locals28(k, j, n, q, r, s, a1, a2, a3, c1, c2, c3, c4, d1);
    assert LocalsOf(tr, 28) == DeclaredBy(k, j, n, q, r, s, a1, a2, a3, c1, c2, c3, c4, d1, 7, 28);
  }

  /** The parent and the locals of scope 29. */
  lemma {:induction false} Scope29(k: string, j: string, n: string, q: string, r: string, s: string, a1: string, a2: string, a3: string, c1: string, c2: string, c3: string, c4: string, d1: string, tr: Tree)
    requires ScopesAre(tr, Layout())
    requires LocalsFit(k, j, n, q, r, s, a1, a2, a3, c1, c2, c3, c4, d1, tr)
    ensures |tr.scopes| == 31
    ensures Parent(tr, 29) == Some(4)
    ensures LocalsOf(tr, 29) == []
  {
    assert tr.scopes[29] == Layout()[29];
    Locals29(k, j, n, q, r, s, a1, a2, a3, c1, c2, c3, c4, d1);
    assert LocalsOf(tr, 29) == DeclaredBy(k, j, n, q, r, s, a1, a2, a3, c1, c2, c3, c4, d1, 7, 29);
  }

  /** The parent and the locals of scope 30. */
  lemma {:induction false} Scope30(k: string, j: string, n: string, q: string, r: string, s: string, a1: string, a2: string, a3: string, c1: string, c2: string, c3: string, c4: string, d1: string, tr: Tree)
    requires ScopesAre(tr, Layout())
    requires LocalsFit(k, j, n, q, r, s, a1, a2, a3, c1, c2, c3, c4, d1, tr)
    ensures |tr.scopes| == 31
    ensures Parent(tr, 30) == Some(29)
    ensures LocalsOf(tr, 30) == [Local(d1, Pos(75, 43)), Local(d1, Pos(75, 58))]
  {
    assert tr.scopes[30] == Layout()[30];
    Locals30(k, j, n, q, r, s, a1, a2, a3, c1, c2, c3, c4, d1);
    assert LocalsOf(tr, 30) == DeclaredBy(k, j, n, q, r, s, a1, a2, a3, c1, c2, c3, c4, d1, 7, 30);
  }

  /** The analysis of events 0 to 7, after the events before them. */
  lemma {:induction false} Analysed0(k: string, j: string, n: string, q: string, r: string, s: string, a1: string, a2: string, a3: string, c1: string, c2: string, c3: string, c4: string, d1: string, tr: Tree, evs: seq<Event>, fs: seq<Fact>, rs: seq<Diag>)
    requires |tr.scopes| == 31
    requires Parent(tr, 0) == None
    requires Parent(tr, 3) == Some(0)
    requires Parent(tr, 4) == Some(3)
    requires Parent(tr, 5) == Some(4)
    requires Parent(tr, 6) == Some(5)
    requires Parent(tr, 7) == Some(4)
    requires Parent(tr, 8) == Some(7)
    requires LocalsOf(tr, 0) == []
    requires LocalsOf(tr, 3) == []
    requires LocalsOf(tr, 4) == [Local(a1, Pos(33, 13)), Local(a2, Pos(39, 13)), Local(a3, Pos(45, 13))]
    requires LocalsOf(tr, 5) == [Local(j, Pos(8, 21))]
    requires LocalsOf(tr, 6) == [Local(k, Pos(7, 43))]
    requires LocalsOf(tr, 7) == [Local(n, Pos(15, 21))]
    requires LocalsOf(tr, 8) == []
    requires k != j && k != a1 && k != a2 && k != a3 && j != a1 && j != a2 && j != a3
    requires Analyse(tr, evs, []) == rs
    requires Replay(tr, evs, []) == fs
    requires !Assigned(fs, 6, k, [])
    requires !Assigned(fs, 5, j, [])
    ensures Analyse(tr, evs + Chunk0(k, j, n, q, r, s, a1, a2, a3, c1, c2, c3, c4, d1), []) == rs + ([] + [] + [] + [] + [] + [] + [Diag(NotInContext, j, Pos(10, 9))] + [Diag(NotInContext, k, Pos(11, 9))] + [Diag(UsedBeforeDeclared, n, Pos(14, 38))])
    ensures Replay(tr, evs + Chunk0(k, j, n, q, r, s, a1, a2, a3, c1, c2, c3, c4, d1), []) == fs + [Fact(6, k, [])] + [Fact(5, j, [])]
  {
    assert Analyse(tr, [], fs) == [] && Replay(tr, [], fs) == fs;
    Event0(k, j, n, q, r, s, a1, a2, a3, c1, c2, c3, c4, d1, tr, fs);
    AnalyseSnoc(tr, [], Declared(6, k, Pos(7, 43), Initialized, []), fs);
    assert Analyse(tr, [] + [Declared(6, k, Pos(7, 43), Initialized, [])], fs) == [] + [];
    assert Replay(tr, [] + [Declared(6, k, Pos(7, 43), Initialized, [])], fs) == fs + [Fact(6, k, [])];
    AssignedSnoc(fs, Fact(6, k, []), 6, k, []);
    Event1(k, j, n, q, r, s, a1, a2, a3, c1, c2, c3, c4, d1, tr, fs + [Fact(6, k, [])]);
    AnalyseSnoc(tr, [] + [Declared(6, k, Pos(7, 43), Initialized, [])], Referenced(6, k, Pos(7, 52), false, false, []), fs);
    assert Analyse(tr, [] + [Declared(6, k, Pos(7, 43), Initialized, [])] + [Referenced(6, k, Pos(7, 52), false, false, [])], fs) == [] + [] + [];
    assert Replay(tr, [] + [Declared(6, k, Pos(7, 43), Initialized, [])] + [Referenced(6, k, Pos(7, 52), false, false, [])], fs) == fs + [Fact(6, k, [])];
    Event2(k, j, n, q, r, s, a1, a2, a3, c1, c2, c3, c4, d1, tr, fs + [Fact(6, k, [])]);
    AnalyseSnoc(tr, [] + [Declared(6, k, Pos(7, 43), Initialized, [])] + [Referenced(6, k, Pos(7, 52), false, false, [])], OutAssigned(6, [], []), fs);
    assert Analyse(tr, [] + [Declared(6, k, Pos(7, 43), Initialized, [])] + [Referenced(6, k, Pos(7, 52), false, false, [])] + [OutAssigned(6, [], [])], fs) == [] + [] + [] + [];
    assert Replay(tr, [] + [Declared(6, k, Pos(7, 43), Initialized, [])] + [Referenced(6, k, Pos(7, 52), false, false, [])] + [OutAssigned(6, [], [])], fs) == fs + [Fact(6, k, [])];
    Event3(k, j, n, q, r, s, a1, a2, a3, c1, c2, c3, c4, d1, tr, fs + [Fact(6, k, [])]);
    AnalyseSnoc(tr, [] + [Declared(6, k, Pos(7, 43), Initialized, [])] + [Referenced(6, k, Pos(7, 52), false, false, [])] + [OutAssigned(6, [], [])], Declared(5, j, Pos(8, 21), Initialized, []), fs);
    assert Analyse(tr, [] + [Declared(6, k, Pos(7, 43), Initialized, [])] + [Referenced(6, k, Pos(7, 52), false, false, [])] + [OutAssigned(6, [], [])] + [Declared(5, j, Pos(8, 21), Initialized, [])], fs) == [] + [] + [] + [] + [];
    assert Replay(tr, [] + [Declared(6, k, Pos(7, 43), Initialized, [])] + [Referenced(6, k, Pos(7, 52), false, false, [])] + [OutAssigned(6, [], [])] + [Declared(5, j, Pos(8, 21), Initialized, [])], fs) == fs + [Fact(6, k, [])] + [Fact(5, j, [])];
    AssignedSnoc(fs, Fact(6, k, []), 5, j, []);
    AssignedSnoc(fs + [Fact(6, k, [])], Fact(5, j, []), 5, j, []);
    Event4(k, j, n, q, r, s, a1, a2, a3, c1, c2, c3, c4, d1, tr, fs + [Fact(6, k, [])] + [Fact(5, j, [])]);
    AnalyseSnoc(tr, [] + [Declared(6, k, Pos(7, 43), Initialized, [])] + [Referenced(6, k, Pos(7, 52), false, false, [])] + [OutAssigned(6, [], [])] + [Declared(5, j, Pos(8, 21), Initialized, [])], Referenced(5, j, Pos(8, 31), false, false, []), fs);
    assert Analyse(tr, [] + [Declared(6, k, Pos(7, 43), Initialized, [])] + [Referenced(6, k, Pos(7, 52), false, false, [])] + [OutAssigned(6, [], [])] + [Declared(5, j, Pos(8, 21), Initialized, [])] + [Referenced(5, j, Pos(8, 31), false, false, [])], fs) == [] + [] + [] + [] + [] + [];
    assert Replay(tr, [] + [Declared(6, k, Pos(7, 43), Initialized, [])] + [Referenced(6, k, Pos(7, 52), false, false, [])] + [OutAssigned(6, [], [])] + [Declared(5, j, Pos(8, 21), Initialized, [])] + [Referenced(5, j, Pos(8, 31), false, false, [])], fs) == fs + [Fact(6, k, [])] + [Fact(5, j, [])];
    Event5(k, j, n, q, r, s, a1, a2, a3, c1, c2, c3, c4, d1, tr, fs + [Fact(6, k, [])] + [Fact(5, j, [])]);
    AnalyseSnoc(tr, [] + [Declared(6, k, Pos(7, 43), Initialized, [])] + [Referenced(6, k, Pos(7, 52), false, false, [])] + [OutAssigned(6, [], [])] + [Declared(5, j, Pos(8, 21), Initialized, [])] + [Referenced(5, j, Pos(8, 31), false, false, [])], Referenced(4, j, Pos(10, 9), true, false, []), fs);
    assert Analyse(tr, [] + [Declared(6, k, Pos(7, 43), Initialized, [])] + [Referenced(6, k, Pos(7, 52), false, false, [])] + [OutAssigned(6, [], [])] + [Declared(5, j, Pos(8, 21), Initialized, [])] + [Referenced(5, j, Pos(8, 31), false, false, [])] + [Referenced(4, j, Pos(10, 9), true, false, [])], fs) == [] + [] + [] + [] + [] + [] + [Diag(NotInContext, j, Pos(10, 9))];
    assert Replay(tr, [] + [Declared(6, k, Pos(7, 43), Initialized, [])] + [Referenced(6, k, Pos(7, 52), false, false, [])] + [OutAssigned(6, [], [])] + [Declared(5, j, Pos(8, 21), Initialized, [])] + [Referenced(5, j, Pos(8, 31), false, false, [])] + [Referenced(4, j, Pos(10, 9), true, false, [])], fs) == fs + [Fact(6, k, [])] + [Fact(5, j, [])];
    Event6(k, j, n, q, r, s, a1, a2, a3, c1, c2, c3, c4, d1, tr, fs + [Fact(6, k, [])] + [Fact(5, j, [])]);
    AnalyseSnoc(tr, [] + [Declared(6, k, Pos(7, 43), Initialized, [])] + [Referenced(6, k, Pos(7, 52), false, false, [])] + [OutAssigned(6, [], [])] + [Declared(5, j, Pos(8, 21), Initialized, [])] + [Referenced(5, j, Pos(8, 31), false, false, [])] + [Referenced(4, j, Pos(10, 9), true, false, [])], Referenced(4, k, Pos(11, 9), true, false, []), fs);
    assert Analyse(tr, [] + [Declared(6, k, Pos(7, 43), Initialized, [])] + [Referenced(6, k, Pos(7, 52), false, false, [])] + [OutAssigned(6, [], [])] + [Declared(5, j, Pos(8, 21), Initialized, [])] + [Referenced(5, j, Pos(8, 31), false, false, [])] + [Referenced(4, j, Pos(10, 9), true, false, [])] + [Referenced(4, k, Pos(11, 9), true, false, [])], fs) == [] + [] + [] + [] + [] + [] + [Diag(NotInContext, j, Pos(10, 9))] + [Diag(NotInContext, k, Pos(11, 9))];
    assert Replay(tr, [] + [Declared(6, k, Pos(7, 43), Initialized, [])] + [Referenced(6, k, Pos(7, 52), false, false, [])] + [OutAssigned(6, [], [])] + [Declared(5, j, Pos(8, 21), Initialized, [])] + [Referenced(5, j, Pos(8, 31), false, false, [])] + [Referenced(4, j, Pos(10, 9), true, false, [])] + [Referenced(4, k, Pos(11, 9), true, false, [])], fs) == fs + [Fact(6, k, [])] + [Fact(5, j, [])];
    Event7(k, j, n, q, r, s, a1, a2, a3, c1, c2, c3, c4, d1, tr, fs + [Fact(6, k, [])] + [Fact(5, j, [])]);
    AnalyseSnoc(tr, [] + [Declared(6, k, Pos(7, 43), Initialized, [])] + [Referenced(6, k, Pos(7, 52), false, false, [])] + [OutAssigned(6, [], [])] + [Declared(5, j, Pos(8, 21), Initialized, [])] + [Referenced(5, j, Pos(8, 31), false, false, [])] + [Referenced(4, j, Pos(10, 9), true, false, [])] + [Referenced(4, k, Pos(11, 9), true, false, [])], Referenced(8, n, Pos(14, 38), false, false, []), fs);
    AnalyseSplit(tr, evs, Chunk0(k, j, n, q, r, s, a1, a2, a3, c1, c2, c3, c4, d1), []);
  }

  /** The analysis of events 8 to 15, after the events before them. */
  lemma {:induction false} Analysed1(k: string, j: string, n: string, q: string, r: string, s: string, a1: string, a2: string, a3: string, c1: string, c2: string, c3: string, c4: string, d1: string, tr: Tree, evs: seq<Event>, fs: seq<Fact>, rs: seq<Diag>)
    requires |tr.scopes| == 31
    requires Parent(tr, 0) == None
    requires Parent(tr, 3) == Some(0)
    requires Parent(tr, 4) == Some(3)
    requires Parent(tr, 7) == Some(4)
    requires Parent(tr, 9) == Some(4)
    requires Parent(tr, 10) == Some(9)
    requires Parent(tr, 11) == Some(4)
    requires Parent(tr, 12) == Some(11)
    requires LocalsOf(tr, 0) == []
    requires LocalsOf(tr, 3) == []
    requires LocalsOf(tr, 4) == [Local(a1, Pos(33, 13)), Local(a2, Pos(39, 13)), Local(a3, Pos(45, 13))]
    requires LocalsOf(tr, 7) == [Local(n, Pos(15, 21))]
    requires LocalsOf(tr, 9) == [Local(q, Pos(21, 21))]
    requires LocalsOf(tr, 10) == []
    requires LocalsOf(tr, 11) == []
    requires LocalsOf(tr, 12) == [Local(r, Pos(25, 42))]
    requires n != a1 && n != a2 && n != a3 && q != a1 && q != a2 && q != a3 && r != a1 && r != a2 && r != a3
    requires Analyse(tr, evs, []) == rs
    requires Replay(tr, evs, []) == fs
    ensures Analyse(tr, evs + Chunk1(k, j, n, q, r, s, a1, a2, a3, c1, c2, c3, c4, d1), []) == rs + ([] + [] + [] + [Diag(UsedBeforeDeclared, q, Pos(19, 38))] + [] + [] + [] + [] + [Diag(NotInContext, r, Pos(27, 16))])
    ensures Replay(tr, evs + Chunk1(k, j, n, q, r, s, a1, a2, a3, c1, c2, c3, c4, d1), []) == fs + [Fact(7, n, [])] + [Fact(9, q, [])] + [Fact(12, r, [])]
  {
    assert Analyse(tr, [], fs) == [] && Replay(tr, [], fs) == fs;
    Event8(k, j, n, q, r, s, a1, a2, a3, c1, c2, c3, c4, d1, tr, fs);
    AnalyseSnoc(tr, [], OutAssigned(8, [], []), fs);
    assert Analyse(tr, [] + [OutAssigned(8, [], [])], fs) == [] + [];
    assert Replay(tr, [] + [OutAssigned(8, [], [])], fs) == fs;
    Event9(k, j, n, q, r, s, a1, a2, a3, c1, c2, c3, c4, d1, tr, fs);
    AnalyseSnoc(tr, [] + [OutAssigned(8, [], [])], Declared(7, n, Pos(15, 21), Initialized, []), fs);
    assert Analyse(tr, [] + [OutAssigned(8, [], [])] + [Declared(7, n, Pos(15, 21), Initialized, [])], fs) == [] + [] + [];
    assert Replay(tr, [] + [OutAssigned(8, [], [])] + [Declared(7, n, Pos(15, 21), Initialized, [])], fs) == fs + [Fact(7, n, [])];
    Event10(k, j, n, q, r, s, a1, a2, a3, c1, c2, c3, c4, d1, tr, fs + [Fact(7, n, [])]);
    AnalyseSnoc(tr, [] + [OutAssigned(8, [], [])] + [Declared(7, n, Pos(15, 21), Initialized, [])], Referenced(10, q, Pos(19, 38), false, false, []), fs);
    assert Analyse(tr, [] + [OutAssigned(8, [], [])] + [Declared(7, n, Pos(15, 21), Initialized, [])] + [Referenced(10, q, Pos(19, 38), false, false, [])], fs) == [] + [] + [] + [Diag(UsedBeforeDeclared, q, Pos(19, 38))];
    assert Replay(tr, [] + [OutAssigned(8, [], [])] + [Declared(7, n, Pos(15, 21), Initialized, [])] + [Referenced(10, q, Pos(19, 38), false, false, [])], fs) == fs + [Fact(7, n, [])];
    Event11(k, j, n, q, r, s, a1, a2, a3, c1, c2, c3, c4, d1, tr, fs + [Fact(7, n, [])]);
    AnalyseSnoc(tr, [] + [OutAssigned(8, [], [])] + [Declared(7, n, Pos(15, 21), Initialized, [])] + [Referenced(10, q, Pos(19, 38), false, false, [])], OutAssigned(10, [], []), fs);
    assert Analyse(tr, [] + [OutAssigned(8, [], [])] + [Declared(7, n, Pos(15, 21), Initialized, [])] + [Referenced(10, q, Pos(19, 38), false, false, [])] + [OutAssigned(10, [], [])], fs) == [] + [] + [] + [Diag(UsedBeforeDeclared, q, Pos(19, 38))] + [];
    assert Replay(tr, [] + [OutAssigned(8, [], [])] + [Declared(7, n, Pos(15, 21), Initialized, [])] + [Referenced(10, q, Pos(19, 38), false, false, [])] + [OutAssigned(10, [], [])], fs) == fs + [Fact(7, n, [])];
    Event12(k, j, n, q, r, s, a1, a2, a3, c1, c2, c3, c4, d1, tr, fs + [Fact(7, n, [])]);
    AnalyseSnoc(tr, [] + [OutAssigned(8, [], [])] + [Declared(7, n, Pos(15, 21), Initialized, [])] + [Referenced(10, q, Pos(19, 38), false, false, [])] + [OutAssigned(10, [], [])], Declared(9, q, Pos(21, 21), Initialized, []), fs);
    assert Analyse(tr, [] + [OutAssigned(8, [], [])] + [Declared(7, n, Pos(15, 21), Initialized, [])] + [Referenced(10, q, Pos(19, 38), false, false, [])] + [OutAssigned(10, [], [])] + [Declared(9, q, Pos(21, 21), Initialized, [])], fs) == [] + [] + [] + [Diag(UsedBeforeDeclared, q, Pos(19, 38))] + [] + [];
    assert Replay(tr, [] + [OutAssigned(8, [], [])] + [Declared(7, n, Pos(15, 21), Initialized, [])] + [Referenced(10, q, Pos(19, 38), false, false, [])] + [OutAssigned(10, [], [])] + [Declared(9, q, Pos(21, 21), Initialized, [])], fs) == fs + [Fact(7, n, [])] + [Fact(9, q, [])];
    Event13(k, j, n, q, r, s, a1, a2, a3, c1, c2, c3, c4, d1, tr, fs + [Fact(7, n, [])] + [Fact(9, q, [])]);
    AnalyseSnoc(tr, [] + [OutAssigned(8, [], [])] + [Declared(7, n, Pos(15, 21), Initialized, [])] + [Referenced(10, q, Pos(19, 38), false, false, [])] + [OutAssigned(10, [], [])] + [Declared(9, q, Pos(21, 21), Initialized, [])], Declared(12, r, Pos(25, 42), Initialized, []), fs);
    assert Analyse(tr, [] + [OutAssigned(8, [], [])] + [Declared(7, n, Pos(15, 21), Initialized, [])] + [Referenced(10, q, Pos(19, 38), false, false, [])] + [OutAssigned(10, [], [])] + [Declared(9, q, Pos(21, 21), Initialized, [])] + [Declared(12, r, Pos(25, 42), Initialized, [])], fs) == [] + [] + [] + [Diag(UsedBeforeDeclared, q, Pos(19, 38))] + [] + [] + [];
    assert Replay(tr, [] + [OutAssigned(8, [], [])] + [Declared(7, n, Pos(15, 21), Initialized, [])] + [Referenced(10, q, Pos(19, 38), false, false, [])] + [OutAssigned(10, [], [])] + [Declared(9, q, Pos(21, 21), Initialized, [])] + [Declared(12, r, Pos(25, 42), Initialized, [])], fs) == fs + [Fact(7, n, [])] + [Fact(9, q, [])] + [Fact(12, r, [])];
    Event14(k, j, n, q, r, s, a1, a2, a3, c1, c2, c3, c4, d1, tr, fs + [Fact(7, n, [])] + [Fact(9, q, [])] + [Fact(12, r, [])]);
    AnalyseSnoc(tr, [] + [OutAssigned(8, [], [])] + [Declared(7, n, Pos(15, 21), Initialized, [])] + [Referenced(10, q, Pos(19, 38), false, false, [])] + [OutAssigned(10, [], [])] + [Declared(9, q, Pos(21, 21), Initialized, [])] + [Declared(12, r, Pos(25, 42), Initialized, [])], OutAssigned(12, [], []), fs);
    assert Analyse(tr, [] + [OutAssigned(8, [], [])] + [Declared(7, n, Pos(15, 21), Initialized, [])] + [Referenced(10, q, Pos(19, 38), false, false, [])] + [OutAssigned(10, [], [])] + [Declared(9, q, Pos(21, 21), Initialized, [])] + [Declared(12, r, Pos(25, 42), Initialized, [])] + [OutAssigned(12, [], [])], fs) == [] + [] + [] + [Diag(UsedBeforeDeclared, q, Pos(19, 38))] + [] + [] + [] + [];
    assert Replay(tr, [] + [OutAssigned(8, [], [])] + [Declared(7, n, Pos(15, 21), Initialized, [])] + [Referenced(10, q, Pos(19, 38), false, false, [])] + [OutAssigned(10, [], [])] + [Declared(9, q, Pos(21, 21), Initialized, [])] + [Declared(12, r, Pos(25, 42), Initialized, [])] + [OutAssigned(12, [], [])], fs) == fs + [Fact(7, n, [])] + [Fact(9, q, [])] + [Fact(12, r, [])];
    Event15(k, j, n, q, r, s, a1, a2, a3, c1, c2, c3, c4, d1, tr, fs + [Fact(7, n, [])] + [Fact(9, q, [])] + [Fact(12, r, [])]);
    AnalyseSnoc(tr, [] + [OutAssigned(8, [], [])] + [Declared(7, n, Pos(15, 21), Initialized, [])] + [Referenced(10, q, Pos(19, 38), false, false, [])] + [OutAssigned(10, [], [])] + [Declared(9, q, Pos(21, 21), Initialized, [])] + [Declared(12, r, Pos(25, 42), Initialized, [])] + [OutAssigned(12, [], [])], Referenced(11, r, Pos(27, 16), false, false, []), fs);
    AnalyseSplit(tr, evs, Chunk1(k, j, n, q, r, s, a1, a2, a3, c1, c2, c3, c4, d1), []);
  }

  /** The analysis of events 16 to 23, after the events before them. */
  lemma {:induction false} Analysed2(k: string, j: string, n: string, q: string, r: string, s: string, a1: string, a2: string, a3: string, c1: string, c2: string, c3: string, c4: string, d1: string, tr: Tree, evs: seq<Event>, fs: seq<Fact>, rs: seq<Diag>)
    requires |tr.scopes| == 31
    requires Parent(tr, 0) == None
    requires Parent(tr, 3) == Some(0)
    requires Parent(tr, 4) == Some(3)
    requires Parent(tr, 13) == Some(4)
    requires Parent(tr, 14) == Some(13)
    requires Parent(tr, 15) == Some(4)
    requires LocalsOf(tr, 0) == []
    requires LocalsOf(tr, 3) == []
    requires LocalsOf(tr, 4) == [Local(a1, Pos(33, 13)), Local(a2, Pos(39, 13)), Local(a3, Pos(45, 13))]
    requires LocalsOf(tr, 13) == []
    requires LocalsOf(tr, 14) == [Local(s, Pos(30, 42))]
    requires LocalsOf(tr, 15) == [Local(a1, Pos(37, 21))]
    requires s != a1 && s != a2 && s != a3 && a1 != a2 && a1 != a3
    requires Analyse(tr, evs, []) == rs
    requires Replay(tr, evs, []) == fs
    requires !Assigned(fs, 4, a1, [])
    ensures Analyse(tr, evs + Chunk2(k, j, n, q, r, s, a1, a2, a3, c1, c2, c3, c4, d1), []) == rs + ([] + [] + [] + [Diag(NotInContext, s, Pos(31, 15))] + [] + [] + [] + [] + [Diag(Shadow, a1, Pos(37, 21))])
    ensures Replay(tr, evs + Chunk2(k, j, n, q, r, s, a1, a2, a3, c1, c2, c3, c4, d1), []) == fs + [Fact(14, s, [])] + [Fact(4, a1, [])] + [Fact(15, a1, [])]
  {
    assert Analyse(tr, [], fs) == [] && Replay(tr, [], fs) == fs;
    Event16(k, j, n, q, r, s, a1, a2, a3, c1, c2, c3, c4, d1, tr, fs);
    AnalyseSnoc(tr, [], Declared(14, s, Pos(30, 42), Initialized, []), fs);
    assert Analyse(tr, [] + [Declared(14, s, Pos(30, 42), Initialized, [])], fs) == [] + [];
    assert Replay(tr, [] + [Declared(14, s, Pos(30, 42), Initialized, [])], fs) == fs + [Fact(14, s, [])];
    Event17(k, j, n, q, r, s, a1, a2, a3, c1, c2, c3, c4, d1, tr, fs + [Fact(14, s, [])]);
    AnalyseSnoc(tr, [] + [Declared(14, s, Pos(30, 42), Initialized, [])], OutAssigned(14, [], []), fs);
    assert Analyse(tr, [] + [Declared(14, s, Pos(30, 42), Initialized, [])] + [OutAssigned(14, [], [])], fs) == [] + [] + [];
    assert Replay(tr, [] + [Declared(14, s, Pos(30, 42), Initialized, [])] + [OutAssigned(14, [], [])], fs) == fs + [Fact(14, s, [])];
    Event18(k, j, n, q, r, s, a1, a2, a3, c1, c2, c3, c4, d1, tr, fs + [Fact(14, s, [])]);
    AnalyseSnoc(tr, [] + [Declared(14, s, Pos(30, 42), Initialized, [])] + [OutAssigned(14, [], [])], Referenced(13, s, Pos(31, 15), false, false, []), fs);
    assert Analyse(tr, [] + [Declared(14, s, Pos(30, 42), Initialized, [])] + [OutAssigned(14, [], [])] + [Referenced(13, s, Pos(31, 15), false, false, [])], fs) == [] + [] + [] + [Diag(NotInContext, s, Pos(31, 15))];
    assert Replay(tr, [] + [Declared(14, s, Pos(30, 42), Initialized, [])] + [OutAssigned(14, [], [])] + [Referenced(13, s, Pos(31, 15), false, false, [])], fs) == fs + [Fact(14, s, [])];
    Event19(k, j, n, q, r, s, a1, a2, a3, c1, c2, c3, c4, d1, tr, fs + [Fact(14, s, [])]);
    AnalyseSnoc(tr, [] + [Declared(14, s, Pos(30, 42), Initialized, [])] + [OutAssigned(14, [], [])] + [Referenced(13, s, Pos(31, 15), false, false, [])], Declared(4, a1, Pos(33, 13), Initialized, []), fs);
    assert Analyse(tr, [] + [Declared(14, s, Pos(30, 42), Initialized, [])] + [OutAssigned(14, [], [])] + [Referenced(13, s, Pos(31, 15), false, false, [])] + [Declared(4, a1, Pos(33, 13), Initialized, [])], fs) == [] + [] + [] + [Diag(NotInContext, s, Pos(31, 15))] + [];
    assert Replay(tr, [] + [Declared(14, s, Pos(30, 42), Initialized, [])] + [OutAssigned(14, [], [])] + [Referenced(13, s, Pos(31, 15), false, false, [])] + [Declared(4, a1, Pos(33, 13), Initialized, [])], fs) == fs + [Fact(14, s, [])] + [Fact(4, a1, [])];
    AssignedSnoc(fs, Fact(14, s, []), 4, a1, []);
    AssignedSnoc(fs + [Fact(14, s, [])], Fact(4, a1, []), 4, a1, []);
    Event20(k, j, n, q, r, s, a1, a2, a3, c1, c2, c3, c4, d1, tr, fs + [Fact(14, s, [])] + [Fact(4, a1, [])]);
    AnalyseSnoc(tr, [] + [Declared(14, s, Pos(30, 42), Initialized, [])] + [OutAssigned(14, [], [])] + [Referenced(13, s, Pos(31, 15), false, false, [])] + [Declared(4, a1, Pos(33, 13), Initialized, [])], Referenced(4, a1, Pos(34, 34), false, false, []), fs);
    assert Analyse(tr, [] + [Declared(14, s, Pos(30, 42), Initialized, [])] + [OutAssigned(14, [], [])] + [Referenced(13, s, Pos(31, 15), false, false, [])] + [Declared(4, a1, Pos(33, 13), Initialized, [])] + [Referenced(4, a1, Pos(34, 34), false, false, [])], fs) == [] + [] + [] + [Diag(NotInContext, s, Pos(31, 15))] + [] + [];
    assert Replay(tr, [] + [Declared(14, s, Pos(30, 42), Initialized, [])] + [OutAssigned(14, [], [])] + [Referenced(13, s, Pos(31, 15), false, false, [])] + [Declared(4, a1, Pos(33, 13), Initialized, [])] + [Referenced(4, a1, Pos(34, 34), false, false, [])], fs) == fs + [Fact(14, s, [])] + [Fact(4, a1, [])];
    Event21(k, j, n, q, r, s, a1, a2, a3, c1, c2, c3, c4, d1, tr, fs + [Fact(14, s, [])] + [Fact(4, a1, [])]);
    AnalyseSnoc(tr, [] + [Declared(14, s, Pos(30, 42), Initialized, [])] + [OutAssigned(14, [], [])] + [Referenced(13, s, Pos(31, 15), false, false, [])] + [Declared(4, a1, Pos(33, 13), Initialized, [])] + [Referenced(4, a1, Pos(34, 34), false, false, [])], OutAssigned(4, [], []), fs);
    assert Analyse(tr, [] + [Declared(14, s, Pos(30, 42), Initialized, [])] + [OutAssigned(14, [], [])] + [Referenced(13, s, Pos(31, 15), false, false, [])] + [Declared(4, a1, Pos(33, 13), Initialized, [])] + [Referenced(4, a1, Pos(34, 34), false, false, [])] + [OutAssigned(4, [], [])], fs) == [] + [] + [] + [Diag(NotInContext, s, Pos(31, 15))] + [] + [] + [];
    assert Replay(tr, [] + [Declared(14, s, Pos(30, 42), Initialized, [])] + [OutAssigned(14, [], [])] + [Referenced(13, s, Pos(31, 15), false, false, [])] + [Declared(4, a1, Pos(33, 13), Initialized, [])] + [Referenced(4, a1, Pos(34, 34), false, false, [])] + [OutAssigned(4, [], [])], fs) == fs + [Fact(14, s, [])] + [Fact(4, a1, [])];
    Event22(k, j, n, q, r, s, a1, a2, a3, c1, c2, c3, c4, d1, tr, fs + [Fact(14, s, [])] + [Fact(4, a1, [])]);
    AnalyseSnoc(tr, [] + [Declared(14, s, Pos(30, 42), Initialized, [])] + [OutAssigned(14, [], [])] + [Referenced(13, s, Pos(31, 15), false, false, [])] + [Declared(4, a1, Pos(33, 13), Initialized, [])] + [Referenced(4, a1, Pos(34, 34), false, false, [])] + [OutAssigned(4, [], [])], OutAssigned(16, [], []), fs);
    assert Analyse(tr, [] + [Declared(14, s, Pos(30, 42), Initialized, [])] + [OutAssigned(14, [], [])] + [Referenced(13, s, Pos(31, 15), false, false, [])] + [Declared(4, a1, Pos(33, 13), Initialized, [])] + [Referenced(4, a1, Pos(34, 34), false, false, [])] + [OutAssigned(4, [], [])] + [OutAssigned(16, [], [])], fs) == [] + [] + [] + [Diag(NotInContext, s, Pos(31, 15))] + [] + [] + [] + [];
    assert Replay(tr, [] + [Declared(14, s, Pos(30, 42), Initialized, [])] + [OutAssigned(14, [], [])] + [Referenced(13, s, Pos(31, 15), false, false, [])] + [Declared(4, a1, Pos(33, 13), Initialized, [])] + [Referenced(4, a1, Pos(34, 34), false, false, [])] + [OutAssigned(4, [], [])] + [OutAssigned(16, [], [])], fs) == fs + [Fact(14, s, [])] + [Fact(4, a1, [])];
    Event23(k, j, n, q, r, s, a1, a2, a3, c1, c2, c3, c4, d1, tr, fs + [Fact(14, s, [])] + [Fact(4, a1, [])]);
    AnalyseSnoc(tr, [] + [Declared(14, s, Pos(30, 42), Initialized, [])] + [OutAssigned(14, [], [])] + [Referenced(13, s, Pos(31, 15), false, false, [])] + [Declared(4, a1, Pos(33, 13), Initialized, [])] + [Referenced(4, a1, Pos(34, 34), false, false, [])] + [OutAssigned(4, [], [])] + [OutAssigned(16, [], [])], Declared(15, a1, Pos(37, 21), Initialized, []), fs);
    AnalyseSplit(tr, evs, Chunk2(k, j, n, q, r, s, a1, a2, a3, c1, c2, c3, c4, d1), []);
  }

  /** The analysis of events 24 to 31, after the events before them. */
  lemma {:induction false} Analysed3(k: string, j: string, n: string, q: string, r: string, s: string, a1: string, a2: string, a3: string, c1: string, c2: string, c3: string, c4: string, d1: string, tr: Tree, evs: seq<Event>, fs: seq<Fact>, rs: seq<Diag>)
    requires |tr.scopes| == 31
    requires Parent(tr, 0) == None
    requires Parent(tr, 3) == Some(0)
    requires Parent(tr, 4) == Some(3)
    requires Parent(tr, 17) == Some(4)
    requires Parent(tr, 18) == Some(17)
    requires LocalsOf(tr, 0) == []
    requires LocalsOf(tr, 3) == []
    requires LocalsOf(tr, 4) == [Local(a1, Pos(33, 13)), Local(a2, Pos(39, 13)), Local(a3, Pos(45, 13))]
    requires LocalsOf(tr, 17) == []
    requires LocalsOf(tr, 18) == [Local(a2, Pos(42, 42))]
    requires a1 != a2 && a1 != a3 && a2 != a3
    requires Analyse(tr, evs, []) == rs
    requires Replay(tr, evs, []) == fs
    requires !Assigned(fs, 4, a2, [])
    requires !Assigned(fs, 4, a3, [])
    ensures Analyse(tr, evs + Chunk3(k, j, n, q, r, s, a1, a2, a3, c1, c2, c3, c4, d1), []) == rs + ([] + [] + [] + [] + [Diag(Shadow, a2, Pos(42, 42))] + [] + [] + [] + [])
    ensures Replay(tr, evs + Chunk3(k, j, n, q, r, s, a1, a2, a3, c1, c2, c3, c4, d1), []) == fs + [Fact(4, a2, [])] + [Fact(18, a2, [])] + [Fact(4, a3, [])]
  {
    assert Analyse(tr, [], fs) == [] && Replay(tr, [], fs) == fs;
    Event24(k, j, n, q, r, s, a1, a2, a3, c1, c2, c3, c4, d1, tr, fs);
    AnalyseSnoc(tr, [], Declared(4, a2, Pos(39, 13), Initialized, []), fs);
    assert Analyse(tr, [] + [Declared(4, a2, Pos(39, 13), Initialized, [])], fs) == [] + [];
    assert Replay(tr, [] + [Declared(4, a2, Pos(39, 13), Initialized, [])], fs) == fs + [Fact(4, a2, [])];
    AssignedSnoc(fs, Fact(4, a2, []), 4, a2, []);
    Event25(k, j, n, q, r, s, a1, a2, a3, c1, c2, c3, c4, d1, tr, fs + [Fact(4, a2, [])]);
    AnalyseSnoc(tr, [] + [Declared(4, a2, Pos(39, 13), Initialized, [])], Referenced(4, a2, Pos(40, 34), false, false, []), fs);
    assert Analyse(tr, [] + [Declared(4, a2, Pos(39, 13), Initialized, [])] + [Referenced(4, a2, Pos(40, 34), false, false, [])], fs) == [] + [] + [];
    assert Replay(tr, [] + [Declared(4, a2, Pos(39, 13), Initialized, [])] + [Referenced(4, a2, Pos(40, 34), false, false, [])], fs) == fs + [Fact(4, a2, [])];
    Event26(k, j, n, q, r, s, a1, a2, a3, c1, c2, c3, c4, d1, tr, fs + [Fact(4, a2, [])]);
    AnalyseSnoc(tr, [] + [Declared(4, a2, Pos(39, 13), Initialized, [])] + [Referenced(4, a2, Pos(40, 34), false, false, [])], OutAssigned(4, [], []), fs);
    assert Analyse(tr, [] + [Declared(4, a2, Pos(39, 13), Initialized, [])] + [Referenced(4, a2, Pos(40, 34), false, false, [])] + [OutAssigned(4, [], [])], fs) == [] + [] + [] + [];
    assert Replay(tr, [] + [Declared(4, a2, Pos(39, 13), Initialized, [])] + [Referenced(4, a2, Pos(40, 34), false, false, [])] + [OutAssigned(4, [], [])], fs) == fs + [Fact(4, a2, [])];
    Event27(k, j, n, q, r, s, a1, a2, a3, c1, c2, c3, c4, d1, tr, fs + [Fact(4, a2, [])]);
    AnalyseSnoc(tr, [] + [Declared(4, a2, Pos(39, 13), Initialized, [])] + [Referenced(4, a2, Pos(40, 34), false, false, [])] + [OutAssigned(4, [], [])], Declared(18, a2, Pos(42, 42), Initialized, []), fs);
    assert Analyse(tr, [] + [Declared(4, a2, Pos(39, 13), Initialized, [])] + [Referenced(4, a2, Pos(40, 34), false, false, [])] + [OutAssigned(4, [], [])] + [Declared(18, a2, Pos(42, 42), Initialized, [])], fs) == [] + [] + [] + [] + [Diag(Shadow, a2, Pos(42, 42))];
    assert Replay(tr, [] + [Declared(4, a2, Pos(39, 13), Initialized, [])] + [Referenced(4, a2, Pos(40, 34), false, false, [])] + [OutAssigned(4, [], [])] + [Declared(18, a2, Pos(42, 42), Initialized, [])], fs) == fs + [Fact(4, a2, [])] + [Fact(18, a2, [])];
    Event28(k, j, n, q, r, s, a1, a2, a3, c1, c2, c3, c4, d1, tr, fs + [Fact(4, a2, [])] + [Fact(18, a2, [])]);
    AnalyseSnoc(tr, [] + [Declared(4, a2, Pos(39, 13), Initialized, [])] + [Referenced(4, a2, Pos(40, 34), false, false, [])] + [OutAssigned(4, [], [])] + [Declared(18, a2, Pos(42, 42), Initialized, [])], OutAssigned(18, [], []), fs);
    assert Analyse(tr, [] + [Declared(4, a2, Pos(39, 13), Initialized, [])] + [Referenced(4, a2, Pos(40, 34), false, false, [])] + [OutAssigned(4, [], [])] + [Declared(18, a2, Pos(42, 42), Initialized, [])] + [OutAssigned(18, [], [])], fs) == [] + [] + [] + [] + [Diag(Shadow, a2, Pos(42, 42))] + [];
    assert Replay(tr, [] + [Declared(4, a2, Pos(39, 13), Initialized, [])] + [Referenced(4, a2, Pos(40, 34), false, false, [])] + [OutAssigned(4, [], [])] + [Declared(18, a2, Pos(42, 42), Initialized, [])] + [OutAssigned(18, [], [])], fs) == fs + [Fact(4, a2, [])] + [Fact(18, a2, [])];
    AssignedSnoc(fs, Fact(4, a2, []), 4, a2, []);
    AssignedSnoc(fs + [Fact(4, a2, [])], Fact(18, a2, []), 4, a2, []);
    Event29(k, j, n, q, r, s, a1, a2, a3, c1, c2, c3, c4, d1, tr, fs + [Fact(4, a2, [])] + [Fact(18, a2, [])]);
    AnalyseSnoc(tr, [] + [Declared(4, a2, Pos(39, 13), Initialized, [])] + [Referenced(4, a2, Pos(40, 34), false, false, [])] + [OutAssigned(4, [], [])] + [Declared(18, a2, Pos(42, 42), Initialized, [])] + [OutAssigned(18, [], [])], Referenced(17, a2, Pos(43, 16), false, false, []), fs);
    assert Analyse(tr, [] + [Declared(4, a2, Pos(39, 13), Initialized, [])] + [Referenced(4, a2, Pos(40, 34), false, false, [])] + [OutAssigned(4, [], [])] + [Declared(18, a2, Pos(42, 42), Initialized, [])] + [OutAssigned(18, [], [])] + [Referenced(17, a2, Pos(43, 16), false, false, [])], fs) == [] + [] + [] + [] + [Diag(Shadow, a2, Pos(42, 42))] + [] + [];
    assert Replay(tr, [] + [Declared(4, a2, Pos(39, 13), Initialized, [])] + [Referenced(4, a2, Pos(40, 34), false, false, [])] + [OutAssigned(4, [], [])] + [Declared(18, a2, Pos(42, 42), Initialized, [])] + [OutAssigned(18, [], [])] + [Referenced(17, a2, Pos(43, 16), false, false, [])], fs) == fs + [Fact(4, a2, [])] + [Fact(18, a2, [])];
    Event30(k, j, n, q, r, s, a1, a2, a3, c1, c2, c3, c4, d1, tr, fs + [Fact(4, a2, [])] + [Fact(18, a2, [])]);
    AnalyseSnoc(tr, [] + [Declared(4, a2, Pos(39, 13), Initialized, [])] + [Referenced(4, a2, Pos(40, 34), false, false, [])] + [OutAssigned(4, [], [])] + [Declared(18, a2, Pos(42, 42), Initialized, [])] + [OutAssigned(18, [], [])] + [Referenced(17, a2, Pos(43, 16), false, false, [])], Declared(4, a3, Pos(45, 13), Initialized, []), fs);
    assert Analyse(tr, [] + [Declared(4, a2, Pos(39, 13), Initialized, [])] + [Referenced(4, a2, Pos(40, 34), false, false, [])] + [OutAssigned(4, [], [])] + [Declared(18, a2, Pos(42, 42), Initialized, [])] + [OutAssigned(18, [], [])] + [Referenced(17, a2, Pos(43, 16), false, false, [])] + [Declared(4, a3, Pos(45, 13), Initialized, [])], fs) == [] + [] + [] + [] + [Diag(Shadow, a2, Pos(42, 42))] + [] + [] + [];
    assert Replay(tr, [] + [Declared(4, a2, Pos(39, 13), Initialized, [])] + [Referenced(4, a2, Pos(40, 34), false, false, [])] + [OutAssigned(4, [], [])] + [Declared(18, a2, Pos(42, 42), Initialized, [])] + [OutAssigned(18, [], [])] + [Referenced(17, a2, Pos(43, 16), false, false, [])] + [Declared(4, a3, Pos(45, 13), Initialized, [])], fs) == fs + [Fact(4, a2, [])] + [Fact(18, a2, [])] + [Fact(4, a3, [])];
    AssignedSnoc(fs, Fact(4, a2, []), 4, a3, []);
    AssignedSnoc(fs + [Fact(4, a2, [])], Fact(18, a2, []), 4, a3, []);
    AssignedSnoc(fs + [Fact(4, a2, [])] + [Fact(18, a2, [])], Fact(4, a3, []), 4, a3, []);
    Event31(k, j, n, q, r, s, a1, a2, a3, c1, c2, c3, c4, d1, tr, fs + [Fact(4, a2, [])] + [Fact(18, a2, [])] + [Fact(4, a3, [])]);
    AnalyseSnoc(tr, [] + [Declared(4, a2, Pos(39, 13), Initialized, [])] + [Referenced(4, a2, Pos(40, 34), false, false, [])] + [OutAssigned(4, [], [])] + [Declared(18, a2, Pos(42, 42), Initialized, [])] + [OutAssigned(18, [], [])] + [Referenced(17, a2, Pos(43, 16), false, false, [])] + [Declared(4, a3, Pos(45, 13), Initialized, [])], Referenced(4, a3, Pos(46, 34), false, false, []), fs);
    AnalyseSplit(tr, evs, Chunk3(k, j, n, q, r, s, a1, a2, a3, c1, c2, c3, c4, d1), []);
  }

  /** The analysis of events 32 to 39, after the events before them. */
  lemma {:induction false} Analysed4(k: string, j: string, n: string, q: string, r: string, s: string, a1: string, a2: string, a3: string, c1: string, c2: string, c3: string, c4: string, d1: string, tr: Tree, evs: seq<Event>, fs: seq<Fact>, rs: seq<Diag>)
    requires |tr.scopes| == 31
    requires Parent(tr, 0) == None
    requires Parent(tr, 3) == Some(0)
    requires Parent(tr, 4) == Some(3)
    requires Parent(tr, 19) == Some(4)
    requires Parent(tr, 20) == Some(19)
    requires Parent(tr, 21) == Some(4)
    requires Parent(tr, 23) == Some(4)
    requires Parent(tr, 24) == Some(23)
    requires LocalsOf(tr, 0) == []
    requires LocalsOf(tr, 3) == []
    requires LocalsOf(tr, 4) == [Local(a1, Pos(33, 13)), Local(a2, Pos(39, 13)), Local(a3, Pos(45, 13))]
    requires LocalsOf(tr, 19) == []
    requires LocalsOf(tr, 20) == [Local(a3, Pos(49, 42))]
    requires LocalsOf(tr, 21) == [Local(c1, Pos(55, 22)), Local(c1, Pos(55, 42))]
    requires LocalsOf(tr, 23) == [Local(c2, Pos(59, 21))]
    requires LocalsOf(tr, 24) == [Local(c2, Pos(58, 42))]
    requires a1 != a2 && a1 != a3 && a1 != c1 && a2 != a3 && a2 != c1 && a3 != c1
    requires Analyse(tr, evs, []) == rs
    requires Replay(tr, evs, []) == fs
    requires Assigned(fs, 4, a2, [])
    ensures Analyse(tr, evs + Chunk4(k, j, n, q, r, s, a1, a2, a3, c1, c2, c3, c4, d1), []) == rs + ([] + [] + [Diag(Shadow, a3, Pos(49, 42))] + [] + [] + [] + [] + [Diag(Duplicate, c1, Pos(55, 42))] + [Diag(Shadow, c2, Pos(58, 42))])
    ensures Replay(tr, evs + Chunk4(k, j, n, q, r, s, a1, a2, a3, c1, c2, c3, c4, d1), []) == fs + [Fact(20, a3, [])] + [Fact(21, c1, [])] + [Fact(21, c1, [])] + [Fact(24, c2, [])]
  {
    assert Analyse(tr, [], fs) == [] && Replay(tr, [], fs) == fs;
    Event32(k, j, n, q, r, s, a1, a2, a3, c1, c2, c3, c4, d1, tr, fs);
    AnalyseSnoc(tr, [], OutAssigned(4, [], []), fs);
    assert Analyse(tr, [] + [OutAssigned(4, [], [])], fs) == [] + [];
    assert Replay(tr, [] + [OutAssigned(4, [], [])], fs) == fs;
    Event33(k, j, n, q, r, s, a1, a2, a3, c1, c2, c3, c4, d1, tr, fs);
    AnalyseSnoc(tr, [] + [OutAssigned(4, [], [])], Declared(20, a3, Pos(49, 42), Initialized, []), fs);
    assert Analyse(tr, [] + [OutAssigned(4, [], [])] + [Declared(20, a3, Pos(49, 42), Initialized, [])], fs) == [] + [] + [Diag(Shadow, a3, Pos(49, 42))];
    assert Replay(tr, [] + [OutAssigned(4, [], [])] + [Declared(20, a3, Pos(49, 42), Initialized, [])], fs) == fs + [Fact(20, a3, [])];
    Event34(k, j, n, q, r, s, a1, a2, a3, c1, c2, c3, c4, d1, tr, fs + [Fact(20, a3, [])]);
    AnalyseSnoc(tr, [] + [OutAssigned(4, [], [])] + [Declared(20, a3, Pos(49, 42), Initialized, [])], OutAssigned(20, [], []), fs);
    assert Analyse(tr, [] + [OutAssigned(4, [], [])] + [Declared(20, a3, Pos(49, 42), Initialized, [])] + [OutAssigned(20, [], [])], fs) == [] + [] + [Diag(Shadow, a3, Pos(49, 42))] + [];
    assert Replay(tr, [] + [OutAssigned(4, [], [])] + [Declared(20, a3, Pos(49, 42), Initialized, [])] + [OutAssigned(20, [], [])], fs) == fs + [Fact(20, a3, [])];
    AssignedSnoc(fs, Fact(20, a3, []), 4, a2, []);
    Event35(k, j, n, q, r, s, a1, a2, a3, c1, c2, c3, c4, d1, tr, fs + [Fact(20, a3, [])]);
    AnalyseSnoc(tr, [] + [OutAssigned(4, [], [])] + [Declared(20, a3, Pos(49, 42), Initialized, [])] + [OutAssigned(20, [], [])], Referenced(19, a2, Pos(51, 16), false, false, []), fs);
    assert Analyse(tr, [] + [OutAssigned(4, [], [])] + [Declared(20, a3, Pos(49, 42), Initialized, [])] + [OutAssigned(20, [], [])] + [Referenced(19, a2, Pos(51, 16), false, false, [])], fs) == [] + [] + [Diag(Shadow, a3, Pos(49, 42))] + [] + [];
    assert Replay(tr, [] + [OutAssigned(4, [], [])] + [Declared(20, a3, Pos(49, 42), Initialized, [])] + [OutAssigned(20, [], [])] + [Referenced(19, a2, Pos(51, 16), false, false, [])], fs) == fs + [Fact(20, a3, [])];
    Event36(k, j, n, q, r, s, a1, a2, a3, c1, c2, c3, c4, d1, tr, fs + [Fact(20, a3, [])]);
    AnalyseSnoc(tr, [] + [OutAssigned(4, [], [])] + [Declared(20, a3, Pos(49, 42), Initialized, [])] + [OutAssigned(20, [], [])] + [Referenced(19, a2, Pos(51, 16), false, false, [])], OutAssigned(22, [], []), fs);
    assert Analyse(tr, [] + [OutAssigned(4, [], [])] + [Declared(20, a3, Pos(49, 42), Initialized, [])] + [OutAssigned(20, [], [])] + [Referenced(19, a2, Pos(51, 16), false, false, [])] + [OutAssigned(22, [], [])], fs) == [] + [] + [Diag(Shadow, a3, Pos(49, 42))] + [] + [] + [];
    assert Replay(tr, [] + [OutAssigned(4, [], [])] + [Declared(20, a3, Pos(49, 42), Initialized, [])] + [OutAssigned(20, [], [])] + [Referenced(19, a2, Pos(51, 16), false, false, [])] + [OutAssigned(22, [], [])], fs) == fs + [Fact(20, a3, [])];
    Event37(k, j, n, q, r, s, a1, a2, a3, c1, c2, c3, c4, d1, tr, fs + [Fact(20, a3, [])]);
    AnalyseSnoc(tr, [] + [OutAssigned(4, [], [])] + [Declared(20, a3, Pos(49, 42), Initialized, [])] + [OutAssigned(20, [], [])] + [Referenced(19, a2, Pos(51, 16), false, false, [])] + [OutAssigned(22, [], [])], Declared(21, c1, Pos(55, 22), Initialized, []), fs);
    assert Analyse(tr, [] + [OutAssigned(4, [], [])] + [Declared(20, a3, Pos(49, 42), Initialized, [])] + [OutAssigned(20, [], [])] + [Referenced(19, a2, Pos(51, 16), false, false, [])] + [OutAssigned(22, [], [])] + [Declared(21, c1, Pos(55, 22), Initialized, [])], fs) == [] + [] + [Diag(Shadow, a3, Pos(49, 42))] + [] + [] + [] + [];
    assert Replay(tr, [] + [OutAssigned(4, [], [])] + [Declared(20, a3, Pos(49, 42), Initialized, [])] + [OutAssigned(20, [], [])] + [Referenced(19, a2, Pos(51, 16), false, false, [])] + [OutAssigned(22, [], [])] + [Declared(21, c1, Pos(55, 22), Initialized, [])], fs) == fs + [Fact(20, a3, [])] + [Fact(21, c1, [])];
    Event38(k, j, n, q, r, s, a1, a2, a3, c1, c2, c3, c4, d1, tr, fs + [Fact(20, a3, [])] + [Fact(21, c1, [])]);
    AnalyseSnoc(tr, [] + [OutAssigned(4, [], [])] + [Declared(20, a3, Pos(49, 42), Initialized, [])] + [OutAssigned(20, [], [])] + [Referenced(19, a2, Pos(51, 16), false, false, [])] + [OutAssigned(22, [], [])] + [Declared(21, c1, Pos(55, 22), Initialized, [])], Declared(21, c1, Pos(55, 42), Initialized, []), fs);
    assert Analyse(tr, [] + [OutAssigned(4, [], [])] + [Declared(20, a3, Pos(49, 42), Initialized, [])] + [OutAssigned(20, [], [])] + [Referenced(19, a2, Pos(51, 16), false, false, [])] + [OutAssigned(22, [], [])] + [Declared(21, c1, Pos(55, 22), Initialized, [])] + [Declared(21, c1, Pos(55, 42), Initialized, [])], fs) == [] + [] + [Diag(Shadow, a3, Pos(49, 42))] + [] + [] + [] + [] + [Diag(Duplicate, c1, Pos(55, 42))];
    assert Replay(tr, [] + [OutAssigned(4, [], [])] + [Declared(20, a3, Pos(49, 42), Initialized, [])] + [OutAssigned(20, [], [])] + [Referenced(19, a2, Pos(51, 16), false, false, [])] + [OutAssigned(22, [], [])] + [Declared(21, c1, Pos(55, 22), Initialized, [])] + [Declared(21, c1, Pos(55, 42), Initialized, [])], fs) == fs + [Fact(20, a3, [])] + [Fact(21, c1, [])] + [Fact(21, c1, [])];
    Event39(k, j, n, q, r, s, a1, a2, a3, c1, c2, c3, c4, d1, tr, fs + [Fact(20, a3, [])] + [Fact(21, c1, [])] + [Fact(21, c1, [])]);
    AnalyseSnoc(tr, [] + [OutAssigned(4, [], [])] + [Declared(20, a3, Pos(49, 42), Initialized, [])] + [OutAssigned(20, [], [])] + [Referenced(19, a2, Pos(51, 16), false, false, [])] + [OutAssigned(22, [], [])] + [Declared(21, c1, Pos(55, 22), Initialized, [])] + [Declared(21, c1, Pos(55, 42), Initialized, [])], Declared(24, c2, Pos(58, 42), Initialized, []), fs);
    AnalyseSplit(tr, evs, Chunk4(k, j, n, q, r, s, a1, a2, a3, c1, c2, c3, c4, d1), []);
  }

  /** The analysis of events 40 to 47, after the events before them. */
  lemma {:induction false} Analysed5(k: string, j: string, n: string, q: string, r: string, s: string, a1: string, a2: string, a3: string, c1: string, c2: string, c3: string, c4: string, d1: string, tr: Tree, evs: seq<Event>, fs: seq<Fact>, rs: seq<Diag>)
    requires |tr.scopes| == 31
    requires Parent(tr, 0) == None
    requires Parent(tr, 3) == Some(0)
    requires Parent(tr, 4) == Some(3)
    requires Parent(tr, 23) == Some(4)
    requires Parent(tr, 25) == Some(4)
    requires Parent(tr, 26) == Some(25)
    requires Parent(tr, 27) == Some(4)
    requires Parent(tr, 28) == Some(27)
    requires LocalsOf(tr, 0) == []
    requires LocalsOf(tr, 3) == []
    requires LocalsOf(tr, 4) == [Local(a1, Pos(33, 13)), Local(a2, Pos(39, 13)), Local(a3, Pos(45, 13))]
    requires LocalsOf(tr, 23) == [Local(c2, Pos(59, 21))]
    requires LocalsOf(tr, 25) == [Local(c3, Pos(65, 21))]
    requires LocalsOf(tr, 26) == [Local(c3, Pos(63, 42))]
    requires LocalsOf(tr, 27) == [Local(c4, Pos(72, 21))]
    requires LocalsOf(tr, 28) == [Local(c4, Pos(69, 17))]
    requires a1 != c2 && a1 != c3 && a2 != c2 && a2 != c3 && a3 != c2 && a3 != c3
    requires Analyse(tr, evs, []) == rs
    requires Replay(tr, evs, []) == fs
    requires !Assigned(fs, 28, c4, [])
    ensures Analyse(tr, evs + Chunk5(k, j, n, q, r, s, a1, a2, a3, c1, c2, c3, c4, d1), []) == rs + ([] + [] + [] + [Diag(Shadow, c3, Pos(63, 42))] + [] + [] + [Diag(Shadow, c4, Pos(69, 17))] + [] + [])
    ensures Replay(tr, evs + Chunk5(k, j, n, q, r, s, a1, a2, a3, c1, c2, c3, c4, d1), []) == fs + [Fact(23, c2, [])] + [Fact(26, c3, [])] + [Fact(25, c3, [])] + [Fact(28, c4, [])]
  {
    assert Analyse(tr, [], fs) == [] && Replay(tr, [], fs) == fs;
    Event40(k, j, n, q, r, s, a1, a2, a3, c1, c2, c3, c4, d1, tr, fs);
    AnalyseSnoc(tr, [], OutAssigned(24, [], []), fs);
    assert Analyse(tr, [] + [OutAssigned(24, [], [])], fs) == [] + [];
    assert Replay(tr, [] + [OutAssigned(24, [], [])], fs) == fs;
    Event41(k, j, n, q, r, s, a1, a2, a3, c1, c2, c3, c4, d1, tr, fs);
    AnalyseSnoc(tr, [] + [OutAssigned(24, [], [])], Declared(23, c2, Pos(59, 21), Initialized, []), fs);
    assert Analyse(tr, [] + [OutAssigned(24, [], [])] + [Declared(23, c2, Pos(59, 21), Initialized, [])], fs) == [] + [] + [];
    assert Replay(tr, [] + [OutAssigned(24, [], [])] + [Declared(23, c2, Pos(59, 21), Initialized, [])], fs) == fs + [Fact(23, c2, [])];
    Event42(k, j, n, q, r, s, a1, a2, a3, c1, c2, c3, c4, d1, tr, fs + [Fact(23, c2, [])]);
    AnalyseSnoc(tr, [] + [OutAssigned(24, [], [])] + [Declared(23, c2, Pos(59, 21), Initialized, [])], Declared(26, c3, Pos(63, 42), Initialized, []), fs);
    assert Analyse(tr, [] + [OutAssigned(24, [], [])] + [Declared(23, c2, Pos(59, 21), Initialized, [])] + [Declared(26, c3, Pos(63, 42), Initialized, [])], fs) == [] + [] + [] + [Diag(Shadow, c3, Pos(63, 42))];
    assert Replay(tr, [] + [OutAssigned(24, [], [])] + [Declared(23, c2, Pos(59, 21), Initialized, [])] + [Declared(26, c3, Pos(63, 42), Initialized, [])], fs) == fs + [Fact(23, c2, [])] + [Fact(26, c3, [])];
    Event43(k, j, n, q, r, s, a1, a2, a3, c1, c2, c3, c4, d1, tr, fs + [Fact(23, c2, [])] + [Fact(26, c3, [])]);
    AnalyseSnoc(tr, [] + [OutAssigned(24, [], [])] + [Declared(23, c2, Pos(59, 21), Initialized, [])] + [Declared(26, c3, Pos(63, 42), Initialized, [])], OutAssigned(26, [], []), fs);
    assert Analyse(tr, [] + [OutAssigned(24, [], [])] + [Declared(23, c2, Pos(59, 21), Initialized, [])] + [Declared(26, c3, Pos(63, 42), Initialized, [])] + [OutAssigned(26, [], [])], fs) == [] + [] + [] + [Diag(Shadow, c3, Pos(63, 42))] + [];
    assert Replay(tr, [] + [OutAssigned(24, [], [])] + [Declared(23, c2, Pos(59, 21), Initialized, [])] + [Declared(26, c3, Pos(63, 42), Initialized, [])] + [OutAssigned(26, [], [])], fs) == fs + [Fact(23, c2, [])] + [Fact(26, c3, [])];
    Event44(k, j, n, q, r, s, a1, a2, a3, c1, c2, c3, c4, d1, tr, fs + [Fact(23, c2, [])] + [Fact(26, c3, [])]);
    AnalyseSnoc(tr, [] + [OutAssigned(24, [], [])] + [Declared(23, c2, Pos(59, 21), Initialized, [])] + [Declared(26, c3, Pos(63, 42), Initialized, [])] + [OutAssigned(26, [], [])], Declared(25, c3, Pos(65, 21), Initialized, []), fs);
    assert Analyse(tr, [] + [OutAssigned(24, [], [])] + [Declared(23, c2, Pos(59, 21), Initialized, [])] + [Declared(26, c3, Pos(63, 42), Initialized, [])] + [OutAssigned(26, [], [])] + [Declared(25, c3, Pos(65, 21), Initialized, [])], fs) == [] + [] + [] + [Diag(Shadow, c3, Pos(63, 42))] + [] + [];
    assert Replay(tr, [] + [OutAssigned(24, [], [])] + [Declared(23, c2, Pos(59, 21), Initialized, [])] + [Declared(26, c3, Pos(63, 42), Initialized, [])] + [OutAssigned(26, [], [])] + [Declared(25, c3, Pos(65, 21), Initialized, [])], fs) == fs + [Fact(23, c2, [])] + [Fact(26, c3, [])] + [Fact(25, c3, [])];
    Event45(k, j, n, q, r, s, a1, a2, a3, c1, c2, c3, c4, d1, tr, fs + [Fact(23, c2, [])] + [Fact(26, c3, [])] + [Fact(25, c3, [])]);
    AnalyseSnoc(tr, [] + [OutAssigned(24, [], [])] + [Declared(23, c2, Pos(59, 21), Initialized, [])] + [Declared(26, c3, Pos(63, 42), Initialized, [])] + [OutAssigned(26, [], [])] + [Declared(25, c3, Pos(65, 21), Initialized, [])], Declared(28, c4, Pos(69, 17), Initialized, []), fs);
    assert Analyse(tr, [] + [OutAssigned(24, [], [])] + [Declared(23, c2, Pos(59, 21), Initialized, [])] + [Declared(26, c3, Pos(63, 42), Initialized, [])] + [OutAssigned(26, [], [])] + [Declared(25, c3, Pos(65, 21), Initialized, [])] + [Declared(28, c4, Pos(69, 17), Initialized, [])], fs) == [] + [] + [] + [Diag(Shadow, c3, Pos(63, 42))] + [] + [] + [Diag(Shadow, c4, Pos(69, 17))];
    assert Replay(tr, [] + [OutAssigned(24, [], [])] + [Declared(23, c2, Pos(59, 21), Initialized, [])] + [Declared(26, c3, Pos(63, 42), Initialized, [])] + [OutAssigned(26, [], [])] + [Declared(25, c3, Pos(65, 21), Initialized, [])] + [Declared(28, c4, Pos(69, 17), Initialized, [])], fs) == fs + [Fact(23, c2, [])] + [Fact(26, c3, [])] + [Fact(25, c3, [])] + [Fact(28, c4, [])];
    AssignedSnoc(fs, Fact(23, c2, []), 28, c4, []);
    AssignedSnoc(fs + [Fact(23, c2, [])], Fact(26, c3, []), 28, c4, []);
    AssignedSnoc(fs + [Fact(23, c2, [])] + [Fact(26, c3, [])], Fact(25, c3, []), 28, c4, []);
    AssignedSnoc(fs + [Fact(23, c2, [])] + [Fact(26, c3, [])] + [Fact(25, c3, [])], Fact(28, c4, []), 28, c4, []);
    Event46(k, j, n, q, r, s, a1, a2, a3, c1, c2, c3, c4, d1, tr, fs + [Fact(23, c2, [])] + [Fact(26, c3, [])] + [Fact(25, c3, [])] + [Fact(28, c4, [])]);
    AnalyseSnoc(tr, [] + [OutAssigned(24, [], [])] + [Declared(23, c2, Pos(59, 21), Initialized, [])] + [Declared(26, c3, Pos(63, 42), Initialized, [])] + [OutAssigned(26, [], [])] + [Declared(25, c3, Pos(65, 21), Initialized, [])] + [Declared(28, c4, Pos(69, 17), Initialized, [])], Referenced(28, c4, Pos(70, 38), false, false, []), fs);
    assert Analyse(tr, [] + [OutAssigned(24, [], [])] + [Declared(23, c2, Pos(59, 21), Initialized, [])] + [Declared(26, c3, Pos(63, 42), Initialized, [])] + [OutAssigned(26, [], [])] + [Declared(25, c3, Pos(65, 21), Initialized, [])] + [Declared(28, c4, Pos(69, 17), Initialized, [])] + [Referenced(28, c4, Pos(70, 38), false, false, [])], fs) == [] + [] + [] + [Diag(Shadow, c3, Pos(63, 42))] + [] + [] + [Diag(Shadow, c4, Pos(69, 17))] + [];
    assert Replay(tr, [] + [OutAssigned(24, [], [])] + [Declared(23, c2, Pos(59, 21), Initialized, [])] + [Declared(26, c3, Pos(63, 42), Initialized, [])] + [OutAssigned(26, [], [])] + [Declared(25, c3, Pos(65, 21), Initialized, [])] + [Declared(28, c4, Pos(69, 17), Initialized, [])] + [Referenced(28, c4, Pos(70, 38), false, false, [])], fs) == fs + [Fact(23, c2, [])] + [Fact(26, c3, [])] + [Fact(25, c3, [])] + [Fact(28, c4, [])];
    Event47(k, j, n, q, r, s, a1, a2, a3, c1, c2, c3, c4, d1, tr, fs + [Fact(23, c2, [])] + [Fact(26, c3, [])] + [Fact(25, c3, [])] + [Fact(28, c4, [])]);
    AnalyseSnoc(tr, [] + [OutAssigned(24, [], [])] + [Declared(23, c2, Pos(59, 21), Initialized, [])] + [Declared(26, c3, Pos(63, 42), Initialized, [])] + [OutAssigned(26, [], [])] + [Declared(25, c3, Pos(65, 21), Initialized, [])] + [Declared(28, c4, Pos(69, 17), Initialized, [])] + [Referenced(28, c4, Pos(70, 38), false, false, [])], OutAssigned(28, [], []), fs);
    AnalyseSplit(tr, evs, Chunk5(k, j, n, q, r, s, a1, a2, a3, c1, c2, c3, c4, d1), []);
  }

  /** The analysis of events 48 to 52, after the events before them. */
  lemma {:induction false} Analysed6(k: string, j: string, n: string, q: string, r: string, s: string, a1: string, a2: string, a3: string, c1: string, c2: string, c3: string, c4: string, d1: string, tr: Tree, evs: seq<Event>, fs: seq<Fact>, rs: seq<Diag>)
    requires |tr.scopes| == 31
    requires Parent(tr, 0) == None
    requires Parent(tr, 3) == Some(0)
    requires Parent(tr, 4) == Some(3)
    requires Parent(tr, 27) == Some(4)
    requires Parent(tr, 29) == Some(4)
    requires Parent(tr, 30) == Some(29)
    requires LocalsOf(tr, 0) == []
    requires LocalsOf(tr, 3) == []
    requires LocalsOf(tr, 4) == [Local(a1, Pos(33, 13)), Local(a2, Pos(39, 13)), Local(a3, Pos(45, 13))]
    requires LocalsOf(tr, 27) == [Local(c4, Pos(72, 21))]
    requires LocalsOf(tr, 29) == []
    requires LocalsOf(tr, 30) == [Local(d1, Pos(75, 43)), Local(d1, Pos(75, 58))]
    requires a1 != a2 && a1 != c4 && a1 != d1 && a2 != a3 && a2 != c4 && a2 != d1 && a3 != c4 && a3 != d1
    requires Analyse(tr, evs, []) == rs
    requires Replay(tr, evs, []) == fs
    requires Assigned(fs, 4, a2, [])
    ensures Analyse(tr, evs + Chunk6(k, j, n, q, r, s, a1, a2, a3, c1, c2, c3, c4, d1), []) == rs + ([] + [] + [] + [Diag(Duplicate, d1, Pos(75, 58))] + [] + [])
    ensures Replay(tr, evs + Chunk6(k, j, n, q, r, s, a1, a2, a3, c1, c2, c3, c4, d1), []) == fs + [Fact(27, c4, [])] + [Fact(30, d1, [])] + [Fact(30, d1, [])]
  {
    assert Analyse(tr, [], fs) == [] && Replay(tr, [], fs) == fs;
    Event48(k, j, n, q, r, s, a1, a2, a3, c1, c2, c3, c4, d1, tr, fs);
    AnalyseSnoc(tr, [], Declared(27, c4, Pos(72, 21), Initialized, []), fs);
    assert Analyse(tr, [] + [Declared(27, c4, Pos(72, 21), Initialized, [])], fs) == [] + [];
    assert Replay(tr, [] + [Declared(27, c4, Pos(72, 21), Initialized, [])], fs) == fs + [Fact(27, c4, [])];
    Event49(k, j, n, q, r, s, a1, a2, a3, c1, c2, c3, c4, d1, tr, fs + [Fact(27, c4, [])]);
    AnalyseSnoc(tr, [] + [Declared(27, c4, Pos(72, 21), Initialized, [])], Declared(30, d1, Pos(75, 43), Initialized, []), fs);
    assert Analyse(tr, [] + [Declared(27, c4, Pos(72, 21), Initialized, [])] + [Declared(30, d1, Pos(75, 43), Initialized, [])], fs) == [] + [] + [];
    assert Replay(tr, [] + [Declared(27, c4, Pos(72, 21), Initialized, [])] + [Declared(30, d1, Pos(75, 43), Initialized, [])], fs) == fs + [Fact(27, c4, [])] + [Fact(30, d1, [])];
    Event50(k, j, n, q, r, s, a1, a2, a3, c1, c2, c3, c4, d1, tr, fs + [Fact(27, c4, [])] + [Fact(30, d1, [])]);
    AnalyseSnoc(tr, [] + [Declared(27, c4, Pos(72, 21), Initialized, [])] + [Declared(30, d1, Pos(75, 43), Initialized, [])], Declared(30, d1, Pos(75, 58), Initialized, []), fs);
    assert Analyse(tr, [] + [Declared(27, c4, Pos(72, 21), Initialized, [])] + [Declared(30, d1, Pos(75, 43), Initialized, [])] + [Declared(30, d1, Pos(75, 58), Initialized, [])], fs) == [] + [] + [] + [Diag(Duplicate, d1, Pos(75, 58))];
    assert Replay(tr, [] + [Declared(27, c4, Pos(72, 21), Initialized, [])] + [Declared(30, d1, Pos(75, 43), Initialized, [])] + [Declared(30, d1, Pos(75, 58), Initialized, [])], fs) == fs + [Fact(27, c4, [])] + [Fact(30, d1, [])] + [Fact(30, d1, [])];
    Event51(k, j, n, q, r, s, a1, a2, a3, c1, c2, c3, c4, d1, tr, fs + [Fact(27, c4, [])] + [Fact(30, d1, [])] + [Fact(30, d1, [])]);
    AnalyseSnoc(tr, [] + [Declared(27, c4, Pos(72, 21), Initialized, [])] + [Declared(30, d1, Pos(75, 43), Initialized, [])] + [Declared(30, d1, Pos(75, 58), Initialized, [])], OutAssigned(30, [], []), fs);
    assert Analyse(tr, [] + [Declared(27, c4, Pos(72, 21), Initialized, [])] + [Declared(30, d1, Pos(75, 43), Initialized, [])] + [Declared(30, d1, Pos(75, 58), Initialized, [])] + [OutAssigned(30, [], [])], fs) == [] + [] + [] + [Diag(Duplicate, d1, Pos(75, 58))] + [];
    assert Replay(tr, [] + [Declared(27, c4, Pos(72, 21), Initialized, [])] + [Declared(30, d1, Pos(75, 43), Initialized, [])] + [Declared(30, d1, Pos(75, 58), Initialized, [])] + [OutAssigned(30, [], [])], fs) == fs + [Fact(27, c4, [])] + [Fact(30, d1, [])] + [Fact(30, d1, [])];
    AssignedSnoc(fs, Fact(27, c4, []), 4, a2, []);
    AssignedSnoc(fs + [Fact(27, c4, [])], Fact(30, d1, []), 4, a2, []);
    AssignedSnoc(fs + [Fact(27, c4, [])] + [Fact(30, d1, [])], Fact(30, d1, []), 4, a2, []);
    Event52(k, j, n, q, r, s, a1, a2, a3, c1, c2, c3, c4, d1, tr, fs + [Fact(27, c4, [])] + [Fact(30, d1, [])] + [Fact(30, d1, [])]);
    AnalyseSnoc(tr, [] + [Declared(27, c4, Pos(72, 21), Initialized, [])] + [Declared(30, d1, Pos(75, 43), Initialized, [])] + [Declared(30, d1, Pos(75, 58), Initialized, [])] + [OutAssigned(30, [], [])], Referenced(29, a2, Pos(76, 16), false, false, []), fs);
    AnalyseSplit(tr, evs, Chunk6(k, j, n, q, r, s, a1, a2, a3, c1, c2, c3, c4, d1), []);
  }

  lemma {:induction false} Glue0(k: string, j: string, n: string, q: string, r: string, s: string, a1: string, a2: string, a3: string, c1: string, c2: string, c3: string, c4: string, d1: string, rs: seq<Diag>)
    requires rs == []
    ensures rs + ([] + [] + [] + [] + [] + [] + [Diag(NotInContext, j, Pos(10, 9))] + [Diag(NotInContext, k, Pos(11, 9))] + [Diag(UsedBeforeDeclared, n, Pos(14, 38))]) == [Diag(NotInContext, j, Pos(10, 9)), Diag(NotInContext, k, Pos(11, 9)), Diag(UsedBeforeDeclared, n, Pos(14, 38))]
  {
  }

  lemma {:induction false} Glue1(k: string, j: string, n: string, q: string, r: string, s: string, a1: string, a2: string, a3: string, c1: string, c2: string, c3: string, c4: string, d1: string, rs: seq<Diag>)
    requires rs == [Diag(NotInContext, j, Pos(10, 9)), Diag(NotInContext, k, Pos(11, 9)), Diag(UsedBeforeDeclared, n, Pos(14, 38))]
    ensures rs + ([] + [] + [] + [Diag(UsedBeforeDeclared, q, Pos(19, 38))] + [] + [] + [] + [] + [Diag(NotInContext, r, Pos(27, 16))]) == [Diag(NotInContext, j, Pos(10, 9)), Diag(NotInContext, k, Pos(11, 9)), Diag(UsedBeforeDeclared, n, Pos(14, 38)), Diag(UsedBeforeDeclared, q, Pos(19, 38)), Diag(NotInContext, r, Pos(27, 16))]
  {
  }

  lemma {:induction false} Glue2(k: string, j: string, n: string, q: string, r: string, s: string, a1: string, a2: string, a3: string, c1: string, c2: string, c3: string, c4: string, d1: string, rs: seq<Diag>)
    requires rs == [Diag(NotInContext, j, Pos(10, 9)), Diag(NotInContext, k, Pos(11, 9)), Diag(UsedBeforeDeclared, n, Pos(14, 38)), Diag(UsedBeforeDeclared, q, Pos(19, 38)), Diag(NotInContext, r, Pos(27, 16))]
    ensures rs + ([] + [] + [] + [Diag(NotInContext, s, Pos(31, 15))] + [] + [] + [] + [] + [Diag(Shadow, a1, Pos(37, 21))]) == [Diag(NotInContext, j, Pos(10, 9)), Diag(NotInContext, k, Pos(11, 9)), Diag(UsedBeforeDeclared, n, Pos(14, 38)), Diag(UsedBeforeDeclared, q, Pos(19, 38)), Diag(NotInContext, r, Pos(27, 16)), Diag(NotInContext, s, Pos(31, 15)), Diag(Shadow, a1, Pos(37, 21))]
  {
  }

  lemma {:induction false} Glue3(k: string, j: string, n: string, q: string, r: string, s: string, a1: string, a2: string, a3: string, c1: string, c2: string, c3: string, c4: string, d1: string, rs: seq<Diag>)
    requires rs == [Diag(NotInContext, j, Pos(10, 9)), Diag(NotInContext, k, Pos(11, 9)), Diag(UsedBeforeDeclared, n, Pos(14, 38)), Diag(UsedBeforeDeclared, q, Pos(19, 38)), Diag(NotInContext, r, Pos(27, 16)), Diag(NotInContext, s, Pos(31, 15)), Diag(Shadow, a1, Pos(37, 21))]
    ensures rs + ([] + [] + [] + [] + [Diag(Shadow, a2, Pos(42, 42))] + [] + [] + [] + []) == [Diag(NotInContext, j, Pos(10, 9)), Diag(NotInContext, k, Pos(11, 9)), Diag(UsedBeforeDeclared, n, Pos(14, 38)), Diag(UsedBeforeDeclared, q, Pos(19, 38)), Diag(NotInContext, r, Pos(27, 16)), Diag(NotInContext, s, Pos(31, 15)), Diag(Shadow, a1, Pos(37, 21)), Diag(Shadow, a2, Pos(42, 42))]
  {
  }

  lemma {:induction false} Glue4(k: string, j: string, n: string, q: string, r: string, s: string, a1: string, a2: string, a3: string, c1: string, c2: string, c3: string, c4: string, d1: string, rs: seq<Diag>)
    requires rs == [Diag(NotInContext, j, Pos(10, 9)), Diag(NotInContext, k, Pos(11, 9)), Diag(UsedBeforeDeclared, n, Pos(14, 38)), Diag(UsedBeforeDeclared, q, Pos(19, 38)), Diag(NotInContext, r, Pos(27, 16)), Diag(NotInContext, s, Pos(31, 15)), Diag(Shadow, a1, Pos(37, 21)), Diag(Shadow, a2, Pos(42, 42))]
    ensures rs + ([] + [] + [Diag(Shadow, a3, Pos(49, 42))] + [] + [] + [] + [] + [Diag(Duplicate, c1, Pos(55, 42))] + [Diag(Shadow, c2, Pos(58, 42))]) == [Diag(NotInContext, j, Pos(10, 9)), Diag(NotInContext, k, Pos(11, 9)), Diag(UsedBeforeDeclared, n, Pos(14, 38)), Diag(UsedBeforeDeclared, q, Pos(19, 38)), Diag(NotInContext, r, Pos(27, 16)), Diag(NotInContext, s, Pos(31, 15)), Diag(Shadow, a1, Pos(37, 21)), Diag(Shadow, a2, Pos(42, 42)), Diag(Shadow, a3, Pos(49, 42)), Diag(Duplicate, c1, Pos(55, 42)), Diag(Shadow, c2, Pos(58, 42))]
  {
  }

  lemma {:induction false} Glue5(k: string, j: string, n: string, q: string, r: string, s: string, a1: string, a2: string, a3: string, c1: string, c2: string, c3: string, c4: string, d1: string, rs: seq<Diag>)
    requires rs == [Diag(NotInContext, j, Pos(10, 9)), Diag(NotInContext, k, Pos(11, 9)), Diag(UsedBeforeDeclared, n, Pos(14, 38)), Diag(UsedBeforeDeclared, q, Pos(19, 38)), Diag(NotInContext, r, Pos(27, 16)), Diag(NotInContext, s, Pos(31, 15)), Diag(Shadow, a1, Pos(37, 21)), Diag(Shadow, a2, Pos(42, 42)), Diag(Shadow, a3, Pos(49, 42)), Diag(Duplicate, c1, Pos(55, 42)), Diag(Shadow, c2, Pos(58, 42))]
    ensures rs + ([] + [] + [] + [Diag(Shadow, c3, Pos(63, 42))] + [] + [] + [Diag(Shadow, c4, Pos(69, 17))] + [] + []) == [Diag(NotInContext, j, Pos(10, 9)), Diag(NotInContext, k, Pos(11, 9)), Diag(UsedBeforeDeclared, n, Pos(14, 38)), Diag(UsedBeforeDeclared, q, Pos(19, 38)), Diag(NotInContext, r, Pos(27, 16)), Diag(NotInContext, s, Pos(31, 15)), Diag(Shadow, a1, Pos(37, 21)), Diag(Shadow, a2, Pos(42, 42)), Diag(Shadow, a3, Pos(49, 42)), Diag(Duplicate, c1, Pos(55, 42)), Diag(Shadow, c2, Pos(58, 42)), Diag(Shadow, c3, Pos(63, 42)), Diag(Shadow, c4, Pos(69, 17))]
  {
  }

  /** The analysis of events 0 to 47, after the events before them. */
  lemma {:induction false} Stage0(k: string, j: string, n: string, q: string, r: string, s: string, a1: string, a2: string, a3: string, c1: string, c2: string, c3: string, c4: string, d1: string, tr: Tree, evs: seq<Event>)
    requires ScopesAre(tr, Layout())
    requires LocalsFit(k, j, n, q, r, s, a1, a2, a3, c1, c2, c3, c4, d1, tr)
    requires k != j && k != a1 && k != a2 && k != a3 && j != a1 && j != a2 && j != a3 && n != a1 && n != a2 && n != a3 && q != a1 && q != a2 && q != a3 && r != a1 && r != a2 && r != a3 && s != a1 && s != a2 && s != a3 && a1 != a2 && a1 != a3 && a1 != c1 && a1 != c2 && a1 != c3 && a2 != a3 && a2 != c1 && a2 != c2 && a2 != c3 && a3 != c1 && a3 != c2 && a3 != c3
    requires Analyse(tr, evs, []) == []
    requires Replay(tr, evs, []) == []
    ensures Analyse(tr, evs + Chunk0(k, j, n, q, r, s, a1, a2, a3, c1, c2, c3, c4, d1) + Chunk1(k, j, n, q, r, s, a1, a2, a3, c1, c2, c3, c4, d1) + Chunk2(k, j, n, q, r, s, a1, a2, a3, c1, c2, c3, c4, d1) + Chunk3(k, j, n, q, r, s, a1, a2, a3, c1, c2, c3, c4, d1) + Chunk4(k, j, n, q, r, s, a1, a2, a3, c1, c2, c3, c4, d1) + Chunk5(k, j, n, q, r, s, a1, a2, a3, c1, c2, c3, c4, d1), []) == [Diag(NotInContext, j, Pos(10, 9)), Diag(NotInContext, k, Pos(11, 9)), Diag(UsedBeforeDeclared, n, Pos(14, 38)), Diag(UsedBeforeDeclared, q, Pos(19, 38)), Diag(NotInContext, r, Pos(27, 16)), Diag(NotInContext, s, Pos(31, 15)), Diag(Shadow, a1, Pos(37, 21)), Diag(Shadow, a2, Pos(42, 42)), Diag(Shadow, a3, Pos(49, 42)), Diag(Duplicate, c1, Pos(55, 42)), Diag(Shadow, c2, Pos(58, 42)), Diag(Shadow, c3, Pos(63, 42)), Diag(Shadow, c4, Pos(69, 17))]
    ensures Replay(tr, evs + Chunk0(k, j, n, q, r, s, a1, a2, a3, c1, c2, c3, c4, d1) + Chunk1(k, j, n, q, r, s, a1, a2, a3, c1, c2, c3, c4, d1) + Chunk2(k, j, n, q, r, s, a1, a2, a3, c1, c2, c3, c4, d1) + Chunk3(k, j, n, q, r, s, a1, a2, a3, c1, c2, c3, c4, d1) + Chunk4(k, j, n, q, r, s, a1, a2, a3, c1, c2, c3, c4, d1) + Chunk5(k, j, n, q, r, s, a1, a2, a3, c1, c2, c3, c4, d1), []) == Known5(k, j, n, q, r, s, a1, a2, a3, c1, c2, c3, c4, d1)
  {
    assert !Assigned([], 6, k, []);
    assert !Assigned([], 5, j, []);
    Scope0(k, j, n, q, r, s, a1, a2, a3, c1, c2, c3, c4, d1, tr);
    Scope3(k, j, n, q, r, s, a1, a2, a3, c1, c2, c3, c4, d1, tr);
    Scope4(k, j, n, q, r, s, a1, a2, a3, c1, c2, c3, c4, d1, tr);
    Scope5(k, j, n, q, r, s, a1, a2, a3, c1, c2, c3, c4, d1, tr);
    Scope6(k, j, n, q, r, s, a1, a2, a3, c1, c2, c3, c4, d1, tr);
    Scope7(k, j, n, q, r, s, a1, a2, a3, c1, c2, c3, c4, d1, tr);
    Scope8(k, j, n, q, r, s, a1, a2, a3, c1, c2, c3, c4, d1, tr);
    Analysed0(k, j, n, q, r, s, a1, a2, a3, c1, c2, c3, c4, d1, tr, evs, [], []);
    Glue0(k, j, n, q, r, s, a1, a2, a3, c1, c2, c3, c4, d1, []);
    Scope9(k, j, n, q, r, s, a1, a2, a3, c1, c2, c3, c4, d1, tr);
    Scope10(k, j, n, q, r, s, a1, a2, a3, c1, c2, c3, c4, d1, tr);
    Scope11(k, j, n, q, r, s, a1, a2, a3, c1, c2, c3, c4, d1, tr);
    Scope12(k, j, n, q, r, s, a1, a2, a3, c1, c2, c3, c4, d1, tr);
    Analysed1(k, j, n, q, r, s, a1, a2, a3, c1, c2, c3, c4, d1, tr, evs + Chunk0(k, j, n, q, r, s, a1, a2, a3, c1, c2, c3, c4, d1), Known0(k, j, n, q, r, s, a1, a2, a3, c1, c2, c3, c4, d1), [Diag(NotInContext, j, Pos(10, 9)), Diag(NotInContext, k, Pos(11, 9)), Diag(UsedBeforeDeclared, n, Pos(14, 38))]);
    Glue1(k, j, n, q, r, s, a1, a2, a3, c1, c2, c3, c4, d1, [Diag(NotInContext, j, Pos(10, 9)), Diag(NotInContext, k, Pos(11, 9)), Diag(UsedBeforeDeclared, n, Pos(14, 38))]);
    Read0(k, j, n, q, r, s, a1, a2, a3, c1, c2, c3, c4, d1);
    Scope13(k, j, n, q, r, s, a1, a2, a3, c1, c2, c3, c4, d1, tr);
    Scope14(k, j, n, q, r, s, a1, a2, a3, c1, c2, c3, c4, d1, tr);
    Scope15(k, j, n, q, r, s, a1, a2, a3, c1, c2, c3, c4, d1, tr);
    Analysed2(k, j, n, q, r, s, a1, a2, a3, c1, c2, c3, c4, d1, tr, evs + Chunk0(k, j, n, q, r, s, a1, a2, a3, c1, c2, c3, c4, d1) + Chunk1(k, j, n, q, r, s, a1, a2, a3, c1, c2, c3, c4, d1), Known1(k, j, n, q, r, s, a1, a2, a3, c1, c2, c3, c4, d1), [Diag(NotInContext, j, Pos(10, 9)), Diag(NotInContext, k, Pos(11, 9)), Diag(UsedBeforeDeclared, n, Pos(14, 38)), Diag(UsedBeforeDeclared, q, Pos(19, 38)), Diag(NotInContext, r, Pos(27, 16))]);
    Glue2(k, j, n, q, r, s, a1, a2, a3, c1, c2, c3, c4, d1, [Diag(NotInContext, j, Pos(10, 9)), Diag(NotInContext, k, Pos(11, 9)), Diag(UsedBeforeDeclared, n, Pos(14, 38)), Diag(UsedBeforeDeclared, q, Pos(19, 38)), Diag(NotInContext, r, Pos(27, 16))]);
    Read1(k, j, n, q, r, s, a1, a2, a3, c1, c2, c3, c4, d1);
    Read2(k, j, n, q, r, s, a1, a2, a3, c1, c2, c3, c4, d1);
    Scope17(k, j, n, q, r, s, a1, a2, a3, c1, c2, c3, c4, d1, tr);
    Scope18(k, j, n, q, r, s, a1, a2, a3, c1, c2, c3, c4, d1, tr);
    Analysed3(k, j, n, q, r, s, a1, a2, a3, c1, c2, c3, c4, d1, tr, evs + Chunk0(k, j, n, q, r, s, a1, a2, a3, c1, c2, c3, c4, d1) + Chunk1(k, j, n, q, r, s, a1, a2, a3, c1, c2, c3, c4, d1) + Chunk2(k, j, n, q, r, s, a1, a2, a3, c1, c2, c3, c4, d1), Known2(k, j, n, q, r, s, a1, a2, a3, c1, c2, c3, c4, d1), [Diag(NotInContext, j, Pos(10, 9)), Diag(NotInContext, k, Pos(11, 9)), Diag(UsedBeforeDeclared, n, Pos(14, 38)), Diag(UsedBeforeDeclared, q, Pos(19, 38)), Diag(NotInContext, r, Pos(27, 16)), Diag(NotInContext, s, Pos(31, 15)), Diag(Shadow, a1, Pos(37, 21))]);
    Glue3(k, j, n, q, r, s, a1, a2, a3, c1, c2, c3, c4, d1, [Diag(NotInContext, j, Pos(10, 9)), Diag(NotInContext, k, Pos(11, 9)), Diag(UsedBeforeDeclared, n, Pos(14, 38)), Diag(UsedBeforeDeclared, q, Pos(19, 38)), Diag(NotInContext, r, Pos(27, 16)), Diag(NotInContext, s, Pos(31, 15)), Diag(Shadow, a1, Pos(37, 21))]);
    Read3(k, j, n, q, r, s, a1, a2, a3, c1, c2, c3, c4, d1);
    Scope19(k, j, n, q, r, s, a1, a2, a3, c1, c2, c3, c4, d1, tr);
    Scope20(k, j, n, q, r, s, a1, a2, a3, c1, c2, c3, c4, d1, tr);
    Scope21(k, j, n, q, r, s, a1, a2, a3, c1, c2, c3, c4, d1, tr);
    Scope23(k, j, n, q, r, s, a1, a2, a3, c1, c2, c3, c4, d1, tr);
    Scope24(k, j, n, q, r, s, a1, a2, a3, c1, c2, c3, c4, d1, tr);
    Analysed4(k, j, n, q, r, s, a1, a2, a3, c1, c2, c3, c4, d1, tr, evs + Chunk0(k, j, n, q, r, s, a1, a2, a3, c1, c2, c3, c4, d1) + Chunk1(k, j, n, q, r, s, a1, a2, a3, c1, c2, c3, c4, d1) + Chunk2(k, j, n, q, r, s, a1, a2, a3, c1, c2, c3, c4, d1) + Chunk3(k, j, n, q, r, s, a1, a2, a3, c1, c2, c3, c4, d1), Known3(k, j, n, q, r, s, a1, a2, a3, c1, c2, c3, c4, d1), [Diag(NotInContext, j, Pos(10, 9)), Diag(NotInContext, k, Pos(11, 9)), Diag(UsedBeforeDeclared, n, Pos(14, 38)), Diag(UsedBeforeDeclared, q, Pos(19, 38)), Diag(NotInContext, r, Pos(27, 16)), Diag(NotInContext, s, Pos(31, 15)), Diag(Shadow, a1, Pos(37, 21)), Diag(Shadow, a2, Pos(42, 42))]);
    Glue4(k, j, n, q, r, s, a1, a2, a3, c1, c2, c3, c4, d1, [Diag(NotInContext, j, Pos(10, 9)), Diag(NotInContext, k, Pos(11, 9)), Diag(UsedBeforeDeclared, n, Pos(14, 38)), Diag(UsedBeforeDeclared, q, Pos(19, 38)), Diag(NotInContext, r, Pos(27, 16)), Diag(NotInContext, s, Pos(31, 15)), Diag(Shadow, a1, Pos(37, 21)), Diag(Shadow, a2, Pos(42, 42))]);
    Read4(k, j, n, q, r, s, a1, a2, a3, c1, c2, c3, c4, d1);
    Scope25(k, j, n, q, r, s, a1, a2, a3, c1, c2, c3, c4, d1, tr);
    Scope26(k, j, n, q, r, s, a1, a2, a3, c1, c2, c3, c4, d1, tr);
    Scope27(k, j, n, q, r, s, a1, a2, a3, c1, c2, c3, c4, d1, tr);
    Scope28(k, j, n, q, r, s, a1, a2, a3, c1, c2, c3, c4, d1, tr);
    Analysed5(k, j, n, q, r, s, a1, a2, a3, c1, c2, c3, c4, d1, tr, evs + Chunk0(k, j, n, q, r, s, a1, a2, a3, c1, c2, c3, c4, d1) + Chunk1(k, j, n, q, r, s, a1, a2, a3, c1, c2, c3, c4, d1) + Chunk2(k, j, n, q, r, s, a1, a2, a3, c1, c2, c3, c4, d1) + Chunk3(k, j, n, q, r, s, a1, a2, a3, c1, c2, c3, c4, d1) + Chunk4(k, j, n, q, r, s, a1, a2, a3, c1, c2, c3, c4, d1), Known4(k, j, n, q, r, s, a1, a2, a3, c1, c2, c3, c4, d1), [Diag(NotInContext, j, Pos(10, 9)), Diag(NotInContext, k, Pos(11, 9)), Diag(UsedBeforeDeclared, n, Pos(14, 38)), Diag(UsedBeforeDeclared, q, Pos(19, 38)), Diag(NotInContext, r, Pos(27, 16)), Diag(NotInContext, s, Pos(31, 15)), Diag(Shadow, a1, Pos(37, 21)), Diag(Shadow, a2, Pos(42, 42)), Diag(Shadow, a3, Pos(49, 42)), Diag(Duplicate, c1, Pos(55, 42)), Diag(Shadow, c2, Pos(58, 42))]);
    Glue5(k, j, n, q, r, s, a1, a2, a3, c1, c2, c3, c4, d1, [Diag(NotInContext, j, Pos(10, 9)), Diag(NotInContext, k, Pos(11, 9)), Diag(UsedBeforeDeclared, n, Pos(14, 38)), Diag(UsedBeforeDeclared, q, Pos(19, 38)), Diag(NotInContext, r, Pos(27, 16)), Diag(NotInContext, s, Pos(31, 15)), Diag(Shadow, a1, Pos(37, 21)), Diag(Shadow, a2, Pos(42, 42)), Diag(Shadow, a3, Pos(49, 42)), Diag(Duplicate, c1, Pos(55, 42)), Diag(Shadow, c2, Pos(58, 42))]);
  }

  lemma {:induction false} Glue6(k: string, j: string, n: string, q: string, r: string, s: string, a1: string, a2: string, a3: string, c1: string, c2: string, c3: string, c4: string, d1: string, rs: seq<Diag>)
    requires rs == [Diag(NotInContext, j, Pos(10, 9)), Diag(NotInContext, k, Pos(11, 9)), Diag(UsedBeforeDeclared, n, Pos(14, 38)), Diag(UsedBeforeDeclared, q, Pos(19, 38)), Diag(NotInContext, r, Pos(27, 16)), Diag(NotInContext, s, Pos(31, 15)), Diag(Shadow, a1, Pos(37, 21)), Diag(Shadow, a2, Pos(42, 42)), Diag(Shadow, a3, Pos(49, 42)), Diag(Duplicate, c1, Pos(55, 42)), Diag(Shadow, c2, Pos(58, 42)), Diag(Shadow, c3, Pos(63, 42)), Diag(Shadow, c4, Pos(69, 17))]
    ensures rs + ([] + [] + [] + [Diag(Duplicate, d1, Pos(75, 58))] + [] + []) == [Diag(NotInContext, j, Pos(10, 9)), Diag(NotInContext, k, Pos(11, 9)), Diag(UsedBeforeDeclared, n, Pos(14, 38)), Diag(UsedBeforeDeclared, q, Pos(19, 38)), Diag(NotInContext, r, Pos(27, 16)), Diag(NotInContext, s, Pos(31, 15)), Diag(Shadow, a1, Pos(37, 21)), Diag(Shadow, a2, Pos(42, 42)), Diag(Shadow, a3, Pos(49, 42)), Diag(Duplicate, c1, Pos(55, 42)), Diag(Shadow, c2, Pos(58, 42)), Diag(Shadow, c3, Pos(63, 42)), Diag(Shadow, c4, Pos(69, 17)), Diag(Duplicate, d1, Pos(75, 58))]
  {
  }

  /** The analysis of events 48 to 52, after the events before them. */
  lemma {:induction false} Stage1(k: string, j: string, n: string, q: string, r: string, s: string, a1: string, a2: string, a3: string, c1: string, c2: string, c3: string, c4: string, d1: string, tr: Tree, evs: seq<Event>)
    requires ScopesAre(tr, Layout())
    requires LocalsFit(k, j, n, q, r, s, a1, a2, a3, c1, c2, c3, c4, d1, tr)
    requires a1 != a2 && a1 != c4 && a1 != d1 && a2 != a3 && a2 != c4 && a2 != d1 && a3 != c4 && a3 != d1
    requires Analyse(tr, evs, []) == [Diag(NotInContext, j, Pos(10, 9)), Diag(NotInContext, k, Pos(11, 9)), Diag(UsedBeforeDeclared, n, Pos(14, 38)), Diag(UsedBeforeDeclared, q, Pos(19, 38)), Diag(NotInContext, r, Pos(27, 16)), Diag(NotInContext, s, Pos(31, 15)), Diag(Shadow, a1, Pos(37, 21)), Diag(Shadow, a2, Pos(42, 42)), Diag(Shadow, a3, Pos(49, 42)), Diag(Duplicate, c1, Pos(55, 42)), Diag(Shadow, c2, Pos(58, 42)), Diag(Shadow, c3, Pos(63, 42)), Diag(Shadow, c4, Pos(69, 17))]
    requires Replay(tr, evs, []) == Known5(k, j, n, q, r, s, a1, a2, a3, c1, c2, c3, c4, d1)
    ensures Analyse(tr, evs + Chunk6(k, j, n, q, r, s, a1, a2, a3, c1, c2, c3, c4, d1), []) == [Diag(NotInContext, j, Pos(10, 9)), Diag(NotInContext, k, Pos(11, 9)), Diag(UsedBeforeDeclared, n, Pos(14, 38)), Diag(UsedBeforeDeclared, q, Pos(19, 38)), Diag(NotInContext, r, Pos(27, 16)), Diag(NotInContext, s, Pos(31, 15)), Diag(Shadow, a1, Pos(37, 21)), Diag(Shadow, a2, Pos(42, 42)), Diag(Shadow, a3, Pos(49, 42)), Diag(Duplicate, c1, Pos(55, 42)), Diag(Shadow, c2, Pos(58, 42)), Diag(Shadow, c3, Pos(63, 42)), Diag(Shadow, c4, Pos(69, 17)), Diag(Duplicate, d1, Pos(75, 58))]
    ensures Replay(tr, evs + Chunk6(k, j, n, q, r, s, a1, a2, a3, c1, c2, c3, c4, d1), []) == Known6(k, j, n, q, r, s, a1, a2, a3, c1, c2, c3, c4, d1)
  {
    Read5(k, j, n, q, r, s, a1, a2, a3, c1, c2, c3, c4, d1);
    Scope0(k, j, n, q, r, s, a1, a2, a3, c1, c2, c3, c4, d1, tr);
    Scope3(k, j, n, q, r, s, a1, a2, a3, c1, c2, c3, c4, d1, tr);
    Scope4(k, j, n, q, r, s, a1, a2, a3, c1, c2, c3, c4, d1, tr);
    Scope27(k, j, n, q, r, s, a1, a2, a3, c1, c2, c3, c4, d1, tr);
    Scope29(k, j, n, q, r, s, a1, a2, a3, c1, c2, c3, c4, d1, tr);
    Scope30(k, j, n, q, r, s, a1, a2, a3, c1, c2, c3, c4, d1, tr);
    Analysed6(k, j, n, q, r, s, a1, a2, a3, c1, c2, c3, c4, d1, tr, evs, Known5(k, j, n, q, r, s, a1, a2, a3, c1, c2, c3, c4, d1), [Diag(NotInContext, j, Pos(10, 9)), Diag(NotInContext, k, Pos(11, 9)), Diag(UsedBeforeDeclared, n, Pos(14, 38)), Diag(UsedBeforeDeclared, q, Pos(19, 38)), Diag(NotInContext, r, Pos(27, 16)), Diag(NotInContext, s, Pos(31, 15)), Diag(Shadow, a1, Pos(37, 21)), Diag(Shadow, a2, Pos(42, 42)), Diag(Shadow, a3, Pos(49, 42)), Diag(Duplicate, c1, Pos(55, 42)), Diag(Shadow, c2, Pos(58, 42)), Diag(Shadow, c3, Pos(63, 42)), Diag(Shadow, c4, Pos(69, 17))]);
    Glue6(k, j, n, q, r, s, a1, a2, a3, c1, c2, c3, c4, d1, [Diag(NotInContext, j, Pos(10, 9)), Diag(NotInContext, k, Pos(11, 9)), Diag(UsedBeforeDeclared, n, Pos(14, 38)), Diag(UsedBeforeDeclared, q, Pos(19, 38)), Diag(NotInContext, r, Pos(27, 16)), Diag(NotInContext, s, Pos(31, 15)), Diag(Shadow, a1, Pos(37, 21)), Diag(Shadow, a2, Pos(42, 42)), Diag(Shadow, a3, Pos(49, 42)), Diag(Duplicate, c1, Pos(55, 42)), Diag(Shadow, c2, Pos(58, 42)), Diag(Shadow, c3, Pos(63, 42)), Diag(Shadow, c4, Pos(69, 17))]);
  }

  /** The analysis of a tree with the test's scopes and events. */
  lemma {:induction false} Result(k: string, j: string, n: string, q: string, r: string, s: string, a1: string, a2: string, a3: string, c1: string, c2: string, c3: string, c4: string, d1: string, tr: Tree)
    requires ScopesAre(tr, Layout()) && LocalsFit(k, j, n, q, r, s, a1, a2, a3, c1, c2, c3, c4, d1, tr) && tr.events == Trace(k, j, n, q, r, s, a1, a2, a3, c1, c2, c3, c4, d1)
    requires k != j && k != a1 && k != a2 && k != a3 && j != a1 && j != a2 && j != a3 && n != a1 && n != a2 && n != a3 && q != a1 && q != a2 && q != a3 && r != a1 && r != a2 && r != a3 && s != a1 && s != a2 && s != a3 && a1 != a2 && a1 != a3 && a1 != c1 && a1 != c2 && a1 != c3 && a1 != c4 && a1 != d1 && a2 != a3 && a2 != c1 && a2 != c2 && a2 != c3 && a2 != c4 && a2 != d1 && a3 != c1 && a3 != c2 && a3 != c3 && a3 != c4 && a3 != d1
    ensures Analyse(tr, tr.events, []) == [Diag(NotInContext, j, Pos(10, 9)), Diag(NotInContext, k, Pos(11, 9)), Diag(UsedBeforeDeclared, n, Pos(14, 38)), Diag(UsedBeforeDeclared, q, Pos(19, 38)), Diag(NotInContext, r, Pos(27, 16)), Diag(NotInContext, s, Pos(31, 15)), Diag(Shadow, a1, Pos(37, 21)), Diag(Shadow, a2, Pos(42, 42)), Diag(Shadow, a3, Pos(49, 42)), Diag(Duplicate, c1, Pos(55, 42)), Diag(Shadow, c2, Pos(58, 42)), Diag(Shadow, c3, Pos(63, 42)), Diag(Shadow, c4, Pos(69, 17)), Diag(Duplicate, d1, Pos(75, 58))]
  {
    assert Analyse(tr, [], []) == [] && Replay(tr, [], []) == [];
    Stage0(k, j, n, q, r, s, a1, a2, a3, c1, c2, c3, c4, d1, tr, []);
    Stage1(k, j, n, q, r, s, a1, a2, a3, c1, c2, c3, c4, d1, tr, [] + Chunk0(k, j, n, q, r, s, a1, a2, a3, c1, c2, c3, c4, d1) + Chunk1(k, j, n, q, r, s, a1, a2, a3, c1, c2, c3, c4, d1) + Chunk2(k, j, n, q, r, s, a1, a2, a3, c1, c2, c3, c4, d1) + Chunk3(k, j, n, q, r, s, a1, a2, a3, c1, c2, c3, c4, d1) + Chunk4(k, j, n, q, r, s, a1, a2, a3, c1, c2, c3, c4, d1) + Chunk5(k, j, n, q, r, s, a1, a2, a3, c1, c2, c3, c4, d1));
  }

  /** The diagnostics the test expects, in the order the analysis reports them. */
  lemma {:induction false} Outcome(k: string, j: string, n: string, q: string, r: string, s: string, a1: string, a2: string, a3: string, c1: string, c2: string, c3: string, c4: string, d1: string)
    requires k != j && k != a1 && k != a2 && k != a3 && j != a1 && j != a2 && j != a3 && n != a1 && n != a2 && n != a3 && q != a1 && q != a2 && q != a3 && r != a1 && r != a2 && r != a3 && s != a1 && s != a2 && s != a3 && a1 != a2 && a1 != a3 && a1 != c1 && a1 != c2 && a1 != c3 && a1 != c4 && a1 != d1 && a2 != a3 && a2 != c1 && a2 != c2 && a2 != c3 && a2 != c4 && a2 != d1 && a3 != c1 && a3 != c2 && a3 != c3 && a3 != c4 && a3 != d1
    ensures Check(Program(k, j, n, q, r, s, a1, a2, a3, c1, c2, c3, c4, d1)) == [Diag(NotInContext, j, Pos(10, 9)), Diag(NotInContext, k, Pos(11, 9)), Diag(UsedBeforeDeclared, n, Pos(14, 38)), Diag(UsedBeforeDeclared, q, Pos(19, 38)), Diag(NotInContext, r, Pos(27, 16)), Diag(NotInContext, s, Pos(31, 15)), Diag(Shadow, a1, Pos(37, 21)), Diag(Shadow, a2, Pos(42, 42)), Diag(Shadow, a3, Pos(49, 42)), Diag(Duplicate, c1, Pos(55, 42)), Diag(Shadow, c2, Pos(58, 42)), Diag(Shadow, c3, Pos(63, 42)), Diag(Shadow, c4, Pos(69, 17)), Diag(Duplicate, d1, Pos(75, 58))]
  {
    Walked(k, j, n, q, r, s, a1, a2, a3, c1, c2, c3, c4, d1);
    LocalsAll(k, j, n, q, r, s, a1, a2, a3, c1, c2, c3, c4, d1, Build(Program(k, j, n, q, r, s, a1, a2, a3, c1, c2, c3, c4, d1)));
    Result(k, j, n, q, r, s, a1, a2, a3, c1, c2, c3, c4, d1, Build(Program(k, j, n, q, r, s, a1, a2, a3, c1, c2, c3, c4, d1)));
  }
}

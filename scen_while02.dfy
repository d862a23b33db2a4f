/**
 * The test While_02 (DeclarationExpressionsTests.cs, lines 1481 to 1581).
 *
 * Its program, with its local names left as parameters, is walked into a scope tree and
 * analysed; Outcome states the exact list of diagnostics Check reports, for any names that
 * differ where the outcome depends on it.
 */
module ScenWhile02 {
  import opened Syntax
  import opened Scopes
  import opened Binding
  import opened Reporting
  import opened Frames
  import opened Units
  import opened Traces

  /** The statements of the test's method, its names left as parameters. */
  function Body(j: string, k: string, n: string, q: string, a1: string, a2: string, a3: string, c1: string, c2: string, c3: string, c4: string, d1: string): seq<Stmt> {
    [While([Declare(j, Pos(6, 21), Initialized)] + ([Use(j, Pos(6, 31), false)]), Exprs([Call([Argument([Use(j, Pos(7, 38), false)] + ([Declare(k, Pos(7, 47), Initialized)] + ([Use(k, Pos(7, 56), false)])))])]))] + ([Exprs([Use(j, Pos(9, 9), true)])] + ([Exprs([Use(k, Pos(10, 9), true)])] + ([While([Use(n, Pos(12, 16), false)], Exprs([Call([Argument([Declare(n, Pos(13, 42), Initialized)])])]))] + ([While([Use(q, Pos(15, 20), false)], Block([Exprs([Call([Argument([Declare(q, Pos(17, 42), Initialized)])])])]))] + ([Exprs([Declare(a1, Pos(20, 13), Initialized)])] + ([Exprs([Call([Argument([Use(a1, Pos(21, 34), false)])])])] + ([While([Declare(a1, Pos(22, 21), Initialized)], Exprs([]))] + ([Exprs([Declare(a2, Pos(25, 13), Initialized)])] + ([Exprs([Call([Argument([Use(a2, Pos(26, 34), false)])])])] + ([While([Use(a2, Pos(27, 16), false)], Exprs([Call([Argument([Declare(a2, Pos(28, 42), Initialized)])])]))] + ([Exprs([Declare(a3, Pos(30, 13), Initialized)])] + ([Exprs([Call([Argument([Use(a3, Pos(31, 34), false)])])])] + ([While([Use(a2, Pos(32, 16), false)], Block([Exprs([Call([Argument([Declare(a3, Pos(34, 42), Initialized)])])])]))] + ([While([Declare(c1, Pos(37, 22), Initialized)] + ([Declare(c1, Pos(37, 42), Initialized)]), Exprs([]))] + ([While([Declare(c2, Pos(40, 21), Initialized)], Exprs([Call([Argument([Declare(c2, Pos(41, 42), Initialized)])])]))] + ([While([Declare(c3, Pos(43, 21), Initialized)], Block([Exprs([Call([Argument([Declare(c3, Pos(45, 42), Initialized)])])])]))] + ([While([Declare(c4, Pos(48, 21), Initialized)], Block([Exprs([Declare(c4, Pos(50, 17), Initialized)])] + ([Exprs([Call([Argument([Use(c4, Pos(51, 38), false)])])])])))] + ([While([Use(a2, Pos(54, 16), false)], Exprs([Call([Argument([Declare(d1, Pos(55, 43), Initialized)] + ([Declare(d1, Pos(55, 58), Initialized)]))])]))]))))))))))))))))))
  }

  /** The program of the test: one method holding those statements. */
  function Program(j: string, k: string, n: string, q: string, a1: string, a2: string, a3: string, c1: string, c2: string, c3: string, c4: string, d1: string): seq<Fragment> {
    MainUnit(Body(j, k, n, q, a1, a2, a3, c1, c2, c3, c4, d1))
  }

  /** Scopes 0 to 7, in the order the walk opens them. */
  function Layout0(): seq<Scope> {
    [Scope(Unit, None),
     Scope(InstanceInitializers, Some(0)),
     Scope(StaticInitializers, Some(0)),
     Scope(MethodBody, Some(0)),
     Scope(BlockBody, Some(3)),
     Scope(LoopCondition, Some(4)),
     Scope(EmbeddedBody, Some(5)),
     Scope(LoopCondition, Some(4))]
  }

  /** Scopes 8 to 15, in the order the walk opens them. */
  function Layout1(): seq<Scope> {
    [Scope(EmbeddedBody, Some(7)),
     Scope(LoopCondition, Some(4)),
     Scope(BlockBody, Some(9)),
     Scope(LoopCondition, Some(4)),
     Scope(EmbeddedBody, Some(11)),
     Scope(LoopCondition, Some(4)),
     Scope(EmbeddedBody, Some(13)),
     Scope(LoopCondition, Some(4))]
  }

  /** Scopes 16 to 23, in the order the walk opens them. */
  function Layout2(): seq<Scope> {
    [Scope(BlockBody, Some(15)),
     Scope(LoopCondition, Some(4)),
     Scope(EmbeddedBody, Some(17)),
     Scope(LoopCondition, Some(4)),
     Scope(EmbeddedBody, Some(19)),
     Scope(LoopCondition, Some(4)),
     Scope(BlockBody, Some(21)),
     Scope(LoopCondition, Some(4))]
  }

  /** Scopes 24 to 26, in the order the walk opens them. */
  function Layout3(): seq<Scope> {
    [Scope(BlockBody, Some(23)),
     Scope(LoopCondition, Some(4)),
     Scope(EmbeddedBody, Some(25))]
  }

  /** Its scopes, in the order the walk opens them. */
  function Layout(): seq<Scope> {
    Layout0() + Layout1() + Layout2() + Layout3()
  }

  lemma {:induction false} LayoutJoin0()
    ensures [Scope(Unit, None), Scope(InstanceInitializers, Some(0)), Scope(StaticInitializers, Some(0)), Scope(MethodBody, Some(0)), Scope(BlockBody, Some(3))] + [Scope(LoopCondition, Some(4))] + [Scope(EmbeddedBody, Some(5))] + [Scope(LoopCondition, Some(4))] == Layout0()
  {
  }

  lemma {:induction false} LayoutJoin1(pre: seq<Scope>)
    ensures pre + Layout1() == pre + [Scope(EmbeddedBody, Some(7))] + [Scope(LoopCondition, Some(4))] + [Scope(BlockBody, Some(9))] + [Scope(LoopCondition, Some(4))] + [Scope(EmbeddedBody, Some(11))] + [Scope(LoopCondition, Some(4))] + [Scope(EmbeddedBody, Some(13))] + [Scope(LoopCondition, Some(4))]
  {
  }

  lemma {:induction false} LayoutJoin2(pre: seq<Scope>)
    ensures pre + Layout2() == pre + [Scope(BlockBody, Some(15))] + [Scope(LoopCondition, Some(4))] + [Scope(EmbeddedBody, Some(17))] + [Scope(LoopCondition, Some(4))] + [Scope(EmbeddedBody, Some(19))] + [Scope(LoopCondition, Some(4))] + [Scope(BlockBody, Some(21))] + [Scope(LoopCondition, Some(4))]
  {
  }

  lemma {:induction false} LayoutJoin3(pre: seq<Scope>)
    ensures pre + Layout3() == pre + [Scope(BlockBody, Some(23))] + [Scope(LoopCondition, Some(4))] + [Scope(EmbeddedBody, Some(25))]
  {
  }

  /** The layout, scope by scope. */
  lemma {:induction false} LayoutFlat()
    ensures [Scope(Unit, None), Scope(InstanceInitializers, Some(0)), Scope(StaticInitializers, Some(0)), Scope(MethodBody, Some(0)), Scope(BlockBody, Some(3))] + [Scope(LoopCondition, Some(4))] + [Scope(EmbeddedBody, Some(5))] + [Scope(LoopCondition, Some(4))] + [Scope(EmbeddedBody, Some(7))] + [Scope(LoopCondition, Some(4))] + [Scope(BlockBody, Some(9))] + [Scope(LoopCondition, Some(4))] + [Scope(EmbeddedBody, Some(11))] + [Scope(LoopCondition, Some(4))] + [Scope(EmbeddedBody, Some(13))] + [Scope(LoopCondition, Some(4))] + [Scope(BlockBody, Some(15))] + [Scope(LoopCondition, Some(4))] + [Scope(EmbeddedBody, Some(17))] + [Scope(LoopCondition, Some(4))] + [Scope(EmbeddedBody, Some(19))] + [Scope(LoopCondition, Some(4))] + [Scope(BlockBody, Some(21))] + [Scope(LoopCondition, Some(4))] + [Scope(BlockBody, Some(23))] + [Scope(LoopCondition, Some(4))] + [Scope(EmbeddedBody, Some(25))] == Layout()
  {
    LayoutJoin0();
    LayoutJoin1(Layout0());
    LayoutJoin2(Layout0() + Layout1());
    LayoutJoin3(Layout0() + Layout1() + Layout2());
  }

  /** Events 0 to 7 of the test, in evaluation order. */
  function Chunk0(j: string, k: string, n: string, q: string, a1: string, a2: string, a3: string, c1: string, c2: string, c3: string, c4: string, d1: string): seq<Event> {
    []
      + [Declared(5, j, Pos(6, 21), Initialized, [])]
      + [Referenced(5, j, Pos(6, 31), false, false, [])]
      + [Referenced(6, j, Pos(7, 38), false, false, [0])]
      + [Declared(6, k, Pos(7, 47), Initialized, [0])]
      + [Referenced(6, k, Pos(7, 56), false, false, [0])]
      + [OutAssigned(6, [], [0])]
      + [Referenced(4, j, Pos(9, 9), true, false, [])]
      + [Referenced(4, k, Pos(10, 9), true, false, [])]
  }

  /** Events 8 to 15 of the test, in evaluation order. */
  function Chunk1(j: string, k: string, n: string, q: string, a1: string, a2: string, a3: string, c1: string, c2: string, c3: string, c4: string, d1: string): seq<Event> {
    []
      + [Referenced(7, n, Pos(12, 16), false, false, [])]
      + [Declared(8, n, Pos(13, 42), Initialized, [1])]
      + [OutAssigned(8, [], [1])]
      + [Referenced(9, q, Pos(15, 20), false, false, [])]
      + [Declared(10, q, Pos(17, 42), Initialized, [2])]
      + [OutAssigned(10, [], [2])]
      + [Declared(4, a1, Pos(20, 13), Initialized, [])]
      + [Referenced(4, a1, Pos(21, 34), false, false, [])]
  }

  /** Events 16 to 23 of the test, in evaluation order. */
  function Chunk2(j: string, k: string, n: string, q: string, a1: string, a2: string, a3: string, c1: string, c2: string, c3: string, c4: string, d1: string): seq<Event> {
    []
      + [OutAssigned(4, [], [])]
      + [Declared(11, a1, Pos(22, 21), Initialized, [])]
      + [Declared(4, a2, Pos(25, 13), Initialized, [])]
      + [Referenced(4, a2, Pos(26, 34), false, false, [])]
      + [OutAssigned(4, [], [])]
      + [Referenced(13, a2, Pos(27, 16), false, false, [])]
      + [Declared(14, a2, Pos(28, 42), Initialized, [4])]
      + [OutAssigned(14, [], [4])]
  }

  /** Events 24 to 31 of the test, in evaluation order. */
  function Chunk3(j: string, k: string, n: string, q: string, a1: string, a2: string, a3: string, c1: string, c2: string, c3: string, c4: string, d1: string): seq<Event> {
    []
      + [Declared(4, a3, Pos(30, 13), Initialized, [])]
      + [Referenced(4, a3, Pos(31, 34), false, false, [])]
      + [OutAssigned(4, [], [])]
      + [Referenced(15, a2, Pos(32, 16), false, false, [])]
      + [Declared(16, a3, Pos(34, 42), Initialized, [5])]
      + [OutAssigned(16, [], [5])]
      + [Declared(17, c1, Pos(37, 22), Initialized, [])]
      + [Declared(17, c1, Pos(37, 42), Initialized, [])]
  }

  /** Events 32 to 39 of the test, in evaluation order. */
  function Chunk4(j: string, k: string, n: string, q: string, a1: string, a2: string, a3: string, c1: string, c2: string, c3: string, c4: string, d1: string): seq<Event> {
    []
      + [Declared(19, c2, Pos(40, 21), Initialized, [])]
      + [Declared(20, c2, Pos(41, 42), Initialized, [7])]
      + [OutAssigned(20, [], [7])]
      + [Declared(21, c3, Pos(43, 21), Initialized, [])]
      + [Declared(22, c3, Pos(45, 42), Initialized, [8])]
      + [OutAssigned(22, [], [8])]
      + [Declared(23, c4, Pos(48, 21), Initialized, [])]
      + [Declared(24, c4, Pos(50, 17), Initialized, [9])]
  }

  /** Events 40 to 45 of the test, in evaluation order. */
  function Chunk5(j: string, k: string, n: string, q: string, a1: string, a2: string, a3: string, c1: string, c2: string, c3: string, c4: string, d1: string): seq<Event> {
    []
      + [Referenced(24, c4, Pos(51, 38), false, false, [9])]
      + [OutAssigned(24, [], [9])]
      + [Referenced(25, a2, Pos(54, 16), false, false, [])]
      + [Declared(26, d1, Pos(55, 43), Initialized, [10])]
      + [Declared(26, d1, Pos(55, 58), Initialized, [10])]
      + [OutAssigned(26, [], [10])]
  }

  /** The events of the test, in evaluation order. */
  function Trace(j: string, k: string, n: string, q: string, a1: string, a2: string, a3: string, c1: string, c2: string, c3: string, c4: string, d1: string): seq<Event> {
    []
      + Chunk0(j, k, n, q, a1, a2, a3, c1, c2, c3, c4, d1)
      + Chunk1(j, k, n, q, a1, a2, a3, c1, c2, c3, c4, d1)
      + Chunk2(j, k, n, q, a1, a2, a3, c1, c2, c3, c4, d1)
      + Chunk3(j, k, n, q, a1, a2, a3, c1, c2, c3, c4, d1)
      + Chunk4(j, k, n, q, a1, a2, a3, c1, c2, c3, c4, d1)
      + Chunk5(j, k, n, q, a1, a2, a3, c1, c2, c3, c4, d1)
  }

  lemma {:induction false} Walk2Body(j: string, k: string, tr: Tree)
    requires |tr.scopes| == 5 && tr.arms == 0
    ensures WalkStmt(Exprs([Call([Argument([Use(j, Pos(7, 38), false)] + ([Declare(k, Pos(7, 47), Initialized)] + ([Use(k, Pos(7, 56), false)])))])]), Ctx(6, [0], []), Tree(tr.scopes + [Scope(LoopCondition, Some(4))] + [Scope(EmbeddedBody, Some(5))], tr.events + [Declared(5, j, Pos(6, 21), Initialized, [])] + [Referenced(5, j, Pos(6, 31), false, false, [])], 1)) == Tree(tr.scopes + [Scope(LoopCondition, Some(4))] + [Scope(EmbeddedBody, Some(5))], tr.events + [Declared(5, j, Pos(6, 21), Initialized, [])] + [Referenced(5, j, Pos(6, 31), false, false, [])] + [Referenced(6, j, Pos(7, 38), false, false, [0])] + [Declared(6, k, Pos(7, 47), Initialized, [0])] + [Referenced(6, k, Pos(7, 56), false, false, [0])] + [OutAssigned(6, [], [0])], 1)
  {
    WalkExprsOne(Call([Argument([Use(j, Pos(7, 38), false)] + ([Declare(k, Pos(7, 47), Initialized)] + ([Use(k, Pos(7, 56), false)])))]), Ctx(6, [0], []), Tree(tr.scopes + [Scope(LoopCondition, Some(4))] + [Scope(EmbeddedBody, Some(5))], tr.events + [Declared(5, j, Pos(6, 21), Initialized, [])] + [Referenced(5, j, Pos(6, 31), false, false, [])], 1));
    assert OutNames([]) == [];
    WalkArgsOne(Argument([Use(j, Pos(7, 38), false)] + ([Declare(k, Pos(7, 47), Initialized)] + ([Use(k, Pos(7, 56), false)]))), [], Ctx(6, [0], []), Tree(tr.scopes + [Scope(LoopCondition, Some(4))] + [Scope(EmbeddedBody, Some(5))], tr.events + [Declared(5, j, Pos(6, 21), Initialized, [])] + [Referenced(5, j, Pos(6, 31), false, false, [])], 1));
    WalkExprsCons(Use(j, Pos(7, 38), false), [Declare(k, Pos(7, 47), Initialized)] + ([Use(k, Pos(7, 56), false)]), Ctx(6, [0], []), Tree(tr.scopes + [Scope(LoopCondition, Some(4))] + [Scope(EmbeddedBody, Some(5))], tr.events + [Declared(5, j, Pos(6, 21), Initialized, [])] + [Referenced(5, j, Pos(6, 31), false, false, [])], 1));
    assert WalkExpr(Use(j, Pos(7, 38), false), Ctx(6, [0], []), Tree(tr.scopes + [Scope(LoopCondition, Some(4))] + [Scope(EmbeddedBody, Some(5))], tr.events + [Declared(5, j, Pos(6, 21), Initialized, [])] + [Referenced(5, j, Pos(6, 31), false, false, [])], 1)) == Tree(tr.scopes + [Scope(LoopCondition, Some(4))] + [Scope(EmbeddedBody, Some(5))], tr.events + [Declared(5, j, Pos(6, 21), Initialized, [])] + [Referenced(5, j, Pos(6, 31), false, false, [])] + [Referenced(6, j, Pos(7, 38), false, false, [0])], 1);
    WalkExprsCons(Declare(k, Pos(7, 47), Initialized), [Use(k, Pos(7, 56), false)], Ctx(6, [0], []), Tree(tr.scopes + [Scope(LoopCondition, Some(4))] + [Scope(EmbeddedBody, Some(5))], tr.events + [Declared(5, j, Pos(6, 21), Initialized, [])] + [Referenced(5, j, Pos(6, 31), false, false, [])] + [Referenced(6, j, Pos(7, 38), false, false, [0])], 1));
    assert WalkExpr(Declare(k, Pos(7, 47), Initialized), Ctx(6, [0], []), Tree(tr.scopes + [Scope(LoopCondition, Some(4))] + [Scope(EmbeddedBody, Some(5))], tr.events + [Declared(5, j, Pos(6, 21), Initialized, [])] + [Referenced(5, j, Pos(6, 31), false, false, [])] + [Referenced(6, j, Pos(7, 38), false, false, [0])], 1)) == Tree(tr.scopes + [Scope(LoopCondition, Some(4))] + [Scope(EmbeddedBody, Some(5))], tr.events + [Declared(5, j, Pos(6, 21), Initialized, [])] + [Referenced(5, j, Pos(6, 31), false, false, [])] + [Referenced(6, j, Pos(7, 38), false, false, [0])] + [Declared(6, k, Pos(7, 47), Initialized, [0])], 1);
    WalkExprsOne(Use(k, Pos(7, 56), false), Ctx(6, [0], []), Tree(tr.scopes + [Scope(LoopCondition, Some(4))] + [Scope(EmbeddedBody, Some(5))], tr.events + [Declared(5, j, Pos(6, 21), Initialized, [])] + [Referenced(5, j, Pos(6, 31), false, false, [])] + [Referenced(6, j, Pos(7, 38), false, false, [0])] + [Declared(6, k, Pos(7, 47), Initialized, [0])], 1));
    assert WalkExpr(Use(k, Pos(7, 56), false), Ctx(6, [0], []), Tree(tr.scopes + [Scope(LoopCondition, Some(4))] + [Scope(EmbeddedBody, Some(5))], tr.events + [Declared(5, j, Pos(6, 21), Initialized, [])] + [Referenced(5, j, Pos(6, 31), false, false, [])] + [Referenced(6, j, Pos(7, 38), false, false, [0])] + [Declared(6, k, Pos(7, 47), Initialized, [0])], 1)) == Tree(tr.scopes + [Scope(LoopCondition, Some(4))] + [Scope(EmbeddedBody, Some(5))], tr.events + [Declared(5, j, Pos(6, 21), Initialized, [])] + [Referenced(5, j, Pos(6, 31), false, false, [])] + [Referenced(6, j, Pos(7, 38), false, false, [0])] + [Declared(6, k, Pos(7, 47), Initialized, [0])] + [Referenced(6, k, Pos(7, 56), false, false, [0])], 1);
    assert WalkExprs([Use(j, Pos(7, 38), false)] + ([Declare(k, Pos(7, 47), Initialized)] + ([Use(k, Pos(7, 56), false)])), Ctx(6, [0], []), Tree(tr.scopes + [Scope(LoopCondition, Some(4))] + [Scope(EmbeddedBody, Some(5))], tr.events + [Declared(5, j, Pos(6, 21), Initialized, [])] + [Referenced(5, j, Pos(6, 31), false, false, [])], 1)) == Tree(tr.scopes + [Scope(LoopCondition, Some(4))] + [Scope(EmbeddedBody, Some(5))], tr.events + [Declared(5, j, Pos(6, 21), Initialized, [])] + [Referenced(5, j, Pos(6, 31), false, false, [])] + [Referenced(6, j, Pos(7, 38), false, false, [0])] + [Declared(6, k, Pos(7, 47), Initialized, [0])] + [Referenced(6, k, Pos(7, 56), false, false, [0])], 1);
    OutNamesOfCons(Use(j, Pos(7, 38), false), [Declare(k, Pos(7, 47), Initialized)] + ([Use(k, Pos(7, 56), false)]));
    OutNamesOfCons(Declare(k, Pos(7, 47), Initialized), [Use(k, Pos(7, 56), false)]);
    OutNamesOfOne(Use(k, Pos(7, 56), false));
    OutNamesSnoc([], Argument([Use(j, Pos(7, 38), false)] + ([Declare(k, Pos(7, 47), Initialized)] + ([Use(k, Pos(7, 56), false)]))));
    assert WalkArgs([Argument([Use(j, Pos(7, 38), false)] + ([Declare(k, Pos(7, 47), Initialized)] + ([Use(k, Pos(7, 56), false)])))], [], Ctx(6, [0], []), Tree(tr.scopes + [Scope(LoopCondition, Some(4))] + [Scope(EmbeddedBody, Some(5))], tr.events + [Declared(5, j, Pos(6, 21), Initialized, [])] + [Referenced(5, j, Pos(6, 31), false, false, [])], 1)) == Tree(tr.scopes + [Scope(LoopCondition, Some(4))] + [Scope(EmbeddedBody, Some(5))], tr.events + [Declared(5, j, Pos(6, 21), Initialized, [])] + [Referenced(5, j, Pos(6, 31), false, false, [])] + [Referenced(6, j, Pos(7, 38), false, false, [0])] + [Declared(6, k, Pos(7, 47), Initialized, [0])] + [Referenced(6, k, Pos(7, 56), false, false, [0])], 1);
    assert OutNames([Argument([Use(j, Pos(7, 38), false)] + ([Declare(k, Pos(7, 47), Initialized)] + ([Use(k, Pos(7, 56), false)])))]) == [];
    assert WalkExpr(Call([Argument([Use(j, Pos(7, 38), false)] + ([Declare(k, Pos(7, 47), Initialized)] + ([Use(k, Pos(7, 56), false)])))]), Ctx(6, [0], []), Tree(tr.scopes + [Scope(LoopCondition, Some(4))] + [Scope(EmbeddedBody, Some(5))], tr.events + [Declared(5, j, Pos(6, 21), Initialized, [])] + [Referenced(5, j, Pos(6, 31), false, false, [])], 1)) == Tree(tr.scopes + [Scope(LoopCondition, Some(4))] + [Scope(EmbeddedBody, Some(5))], tr.events + [Declared(5, j, Pos(6, 21), Initialized, [])] + [Referenced(5, j, Pos(6, 31), false, false, [])] + [Referenced(6, j, Pos(7, 38), false, false, [0])] + [Declared(6, k, Pos(7, 47), Initialized, [0])] + [Referenced(6, k, Pos(7, 56), false, false, [0])] + [OutAssigned(6, [], [0])], 1);
    assert WalkExprs([Call([Argument([Use(j, Pos(7, 38), false)] + ([Declare(k, Pos(7, 47), Initialized)] + ([Use(k, Pos(7, 56), false)])))])], Ctx(6, [0], []), Tree(tr.scopes + [Scope(LoopCondition, Some(4))] + [Scope(EmbeddedBody, Some(5))], tr.events + [Declared(5, j, Pos(6, 21), Initialized, [])] + [Referenced(5, j, Pos(6, 31), false, false, [])], 1)) == Tree(tr.scopes + [Scope(LoopCondition, Some(4))] + [Scope(EmbeddedBody, Some(5))], tr.events + [Declared(5, j, Pos(6, 21), Initialized, [])] + [Referenced(5, j, Pos(6, 31), false, false, [])] + [Referenced(6, j, Pos(7, 38), false, false, [0])] + [Declared(6, k, Pos(7, 47), Initialized, [0])] + [Referenced(6, k, Pos(7, 56), false, false, [0])] + [OutAssigned(6, [], [0])], 1);
  }

  lemma {:induction false} Walk2(j: string, k: string, n: string, q: string, a1: string, a2: string, a3: string, c1: string, c2: string, c3: string, c4: string, d1: string, tr: Tree)
    requires |tr.scopes| == 5 && tr.arms == 0
    ensures WalkStmt(While([Declare(j, Pos(6, 21), Initialized)] + ([Use(j, Pos(6, 31), false)]), Exprs([Call([Argument([Use(j, Pos(7, 38), false)] + ([Declare(k, Pos(7, 47), Initialized)] + ([Use(k, Pos(7, 56), false)])))])])), Ctx(4, [], []), tr) == Tree(tr.scopes + [Scope(LoopCondition, Some(4))] + [Scope(EmbeddedBody, Some(5))], tr.events + [Declared(5, j, Pos(6, 21), Initialized, [])] + [Referenced(5, j, Pos(6, 31), false, false, [])] + [Referenced(6, j, Pos(7, 38), false, false, [0])] + [Declared(6, k, Pos(7, 47), Initialized, [0])] + [Referenced(6, k, Pos(7, 56), false, false, [0])] + [OutAssigned(6, [], [0])], 1)
  {
    WalkExprsCons(Declare(j, Pos(6, 21), Initialized), [Use(j, Pos(6, 31), false)], Ctx(5, [], []), Tree(tr.scopes + [Scope(LoopCondition, Some(4))], tr.events, 0));
    assert WalkExpr(Declare(j, Pos(6, 21), Initialized), Ctx(5, [], []), Tree(tr.scopes + [Scope(LoopCondition, Some(4))], tr.events, 0)) == Tree(tr.scopes + [Scope(LoopCondition, Some(4))], tr.events + [Declared(5, j, Pos(6, 21), Initialized, [])], 0);
    WalkExprsOne(Use(j, Pos(6, 31), false), Ctx(5, [], []), Tree(tr.scopes + [Scope(LoopCondition, Some(4))], tr.events + [Declared(5, j, Pos(6, 21), Initialized, [])], 0));
    assert WalkExpr(Use(j, Pos(6, 31), false), Ctx(5, [], []), Tree(tr.scopes + [Scope(LoopCondition, Some(4))], tr.events + [Declared(5, j, Pos(6, 21), Initialized, [])], 0)) == Tree(tr.scopes + [Scope(LoopCondition, Some(4))], tr.events + [Declared(5, j, Pos(6, 21), Initialized, [])] + [Referenced(5, j, Pos(6, 31), false, false, [])], 0);
    assert WalkExprs([Declare(j, Pos(6, 21), Initialized)] + ([Use(j, Pos(6, 31), false)]), Ctx(5, [], []), Tree(tr.scopes + [Scope(LoopCondition, Some(4))], tr.events, 0)) == Tree(tr.scopes + [Scope(LoopCondition, Some(4))], tr.events + [Declared(5, j, Pos(6, 21), Initialized, [])] + [Referenced(5, j, Pos(6, 31), false, false, [])], 0);
    assert [] + [0] == [0];
    Walk2Body(j, k, tr);
    assert WalkEmbedded(Exprs([Call([Argument([Use(j, Pos(7, 38), false)] + ([Declare(k, Pos(7, 47), Initialized)] + ([Use(k, Pos(7, 56), false)])))])]), Ctx(5, [0], []), Tree(tr.scopes + [Scope(LoopCondition, Some(4))], tr.events + [Declared(5, j, Pos(6, 21), Initialized, [])] + [Referenced(5, j, Pos(6, 31), false, false, [])], 1)) == Tree(tr.scopes + [Scope(LoopCondition, Some(4))] + [Scope(EmbeddedBody, Some(5))], tr.events + [Declared(5, j, Pos(6, 21), Initialized, [])] + [Referenced(5, j, Pos(6, 31), false, false, [])] + [Referenced(6, j, Pos(7, 38), false, false, [0])] + [Declared(6, k, Pos(7, 47), Initialized, [0])] + [Referenced(6, k, Pos(7, 56), false, false, [0])] + [OutAssigned(6, [], [0])], 1);
    assert WalkStmt(While([Declare(j, Pos(6, 21), Initialized)] + ([Use(j, Pos(6, 31), false)]), Exprs([Call([Argument([Use(j, Pos(7, 38), false)] + ([Declare(k, Pos(7, 47), Initialized)] + ([Use(k, Pos(7, 56), false)])))])])), Ctx(4, [], []), tr) == Tree(tr.scopes + [Scope(LoopCondition, Some(4))] + [Scope(EmbeddedBody, Some(5))], tr.events + [Declared(5, j, Pos(6, 21), Initialized, [])] + [Referenced(5, j, Pos(6, 31), false, false, [])] + [Referenced(6, j, Pos(7, 38), false, false, [0])] + [Declared(6, k, Pos(7, 47), Initialized, [0])] + [Referenced(6, k, Pos(7, 56), false, false, [0])] + [OutAssigned(6, [], [0])], 1);
  }

  lemma {:induction false} Walk3(j: string, k: string, n: string, q: string, a1: string, a2: string, a3: string, c1: string, c2: string, c3: string, c4: string, d1: string, tr: Tree)
    requires |tr.scopes| == 7 && tr.arms == 1
    ensures WalkStmt(Exprs([Use(j, Pos(9, 9), true)]), Ctx(4, [], []), tr) == Tree(tr.scopes, tr.events + [Referenced(4, j, Pos(9, 9), true, false, [])], 1)
  {
    WalkExprsOne(Use(j, Pos(9, 9), true), Ctx(4, [], []), tr);
    assert WalkExpr(Use(j, Pos(9, 9), true), Ctx(4, [], []), tr) == Tree(tr.scopes, tr.events + [Referenced(4, j, Pos(9, 9), true, false, [])], 1);
    assert WalkExprs([Use(j, Pos(9, 9), true)], Ctx(4, [], []), tr) == Tree(tr.scopes, tr.events + [Referenced(4, j, Pos(9, 9), true, false, [])], 1);
    assert WalkStmt(Exprs([Use(j, Pos(9, 9), true)]), Ctx(4, [], []), tr) == Tree(tr.scopes, tr.events + [Referenced(4, j, Pos(9, 9), true, false, [])], 1);
  }

  lemma {:induction false} Walk4(j: string, k: string, n: string, q: string, a1: string, a2: string, a3: string, c1: string, c2: string, c3: string, c4: string, d1: string, tr: Tree)
    requires |tr.scopes| == 7 && tr.arms == 1
    ensures WalkStmt(Exprs([Use(k, Pos(10, 9), true)]), Ctx(4, [], []), tr) == Tree(tr.scopes, tr.events + [Referenced(4, k, Pos(10, 9), true, false, [])], 1)
  {
    WalkExprsOne(Use(k, Pos(10, 9), true), Ctx(4, [], []), tr);
    assert WalkExpr(Use(k, Pos(10, 9), true), Ctx(4, [], []), tr) == Tree(tr.scopes, tr.events + [Referenced(4, k, Pos(10, 9), true, false, [])], 1);
    assert WalkExprs([Use(k, Pos(10, 9), true)], Ctx(4, [], []), tr) == Tree(tr.scopes, tr.events + [Referenced(4, k, Pos(10, 9), true, false, [])], 1);
    assert WalkStmt(Exprs([Use(k, Pos(10, 9), true)]), Ctx(4, [], []), tr) == Tree(tr.scopes, tr.events + [Referenced(4, k, Pos(10, 9), true, false, [])], 1);
  }

  lemma {:induction false} Walk5(j: string, k: string, n: string, q: string, a1: string, a2: string, a3: string, c1: string, c2: string, c3: string, c4: string, d1: string, tr: Tree)
    requires |tr.scopes| == 7 && tr.arms == 1
    ensures WalkStmt(While([Use(n, Pos(12, 16), false)], Exprs([Call([Argument([Declare(n, Pos(13, 42), Initialized)])])])), Ctx(4, [], []), tr) == Tree(tr.scopes + [Scope(LoopCondition, Some(4))] + [Scope(EmbeddedBody, Some(7))], tr.events + [Referenced(7, n, Pos(12, 16), false, false, [])] + [Declared(8, n, Pos(13, 42), Initialized, [1])] + [OutAssigned(8, [], [1])], 2)
  {
    WalkExprsOne(Use(n, Pos(12, 16), false), Ctx(7, [], []), Tree(tr.scopes + [Scope(LoopCondition, Some(4))], tr.events, 1));
    assert WalkExpr(Use(n, Pos(12, 16), false), Ctx(7, [], []), Tree(tr.scopes + [Scope(LoopCondition, Some(4))], tr.events, 1)) == Tree(tr.scopes + [Scope(LoopCondition, Some(4))], tr.events + [Referenced(7, n, Pos(12, 16), false, false, [])], 1);
    assert WalkExprs([Use(n, Pos(12, 16), false)], Ctx(7, [], []), Tree(tr.scopes + [Scope(LoopCondition, Some(4))], tr.events, 1)) == Tree(tr.scopes + [Scope(LoopCondition, Some(4))], tr.events + [Referenced(7, n, Pos(12, 16), false, false, [])], 1);
    assert [] + [1] == [1];
    WalkExprsOne(Call([Argument([Declare(n, Pos(13, 42), Initialized)])]), Ctx(8, [1], []), Tree(tr.scopes + [Scope(LoopCondition, Some(4))] + [Scope(EmbeddedBody, Some(7))], tr.events + [Referenced(7, n, Pos(12, 16), false, false, [])], 2));
    assert OutNames([]) == [];
    WalkArgsOne(Argument([Declare(n, Pos(13, 42), Initialized)]), [], Ctx(8, [1], []), Tree(tr.scopes + [Scope(LoopCondition, Some(4))] + [Scope(EmbeddedBody, Some(7))], tr.events + [Referenced(7, n, Pos(12, 16), false, false, [])], 2));
    WalkExprsOne(Declare(n, Pos(13, 42), Initialized), Ctx(8, [1], []), Tree(tr.scopes + [Scope(LoopCondition, Some(4))] + [Scope(EmbeddedBody, Some(7))], tr.events + [Referenced(7, n, Pos(12, 16), false, false, [])], 2));
    assert WalkExpr(Declare(n, Pos(13, 42), Initialized), Ctx(8, [1], []), Tree(tr.scopes + [Scope(LoopCondition, Some(4))] + [Scope(EmbeddedBody, Some(7))], tr.events + [Referenced(7, n, Pos(12, 16), false, false, [])], 2)) == Tree(tr.scopes + [Scope(LoopCondition, Some(4))] + [Scope(EmbeddedBody, Some(7))], tr.events + [Referenced(7, n, Pos(12, 16), false, false, [])] + [Declared(8, n, Pos(13, 42), Initialized, [1])], 2);
    assert WalkExprs([Declare(n, Pos(13, 42), Initialized)], Ctx(8, [1], []), Tree(tr.scopes + [Scope(LoopCondition, Some(4))] + [Scope(EmbeddedBody, Some(7))], tr.events + [Referenced(7, n, Pos(12, 16), false, false, [])], 2)) == Tree(tr.scopes + [Scope(LoopCondition, Some(4))] + [Scope(EmbeddedBody, Some(7))], tr.events + [Referenced(7, n, Pos(12, 16), false, false, [])] + [Declared(8, n, Pos(13, 42), Initialized, [1])], 2);
    OutNamesOfOne(Declare(n, Pos(13, 42), Initialized));
    OutNamesSnoc([], Argument([Declare(n, Pos(13, 42), Initialized)]));
    assert WalkArgs([Argument([Declare(n, Pos(13, 42), Initialized)])], [], Ctx(8, [1], []), Tree(tr.scopes + [Scope(LoopCondition, Some(4))] + [Scope(EmbeddedBody, Some(7))], tr.events + [Referenced(7, n, Pos(12, 16), false, false, [])], 2)) == Tree(tr.scopes + [Scope(LoopCondition, Some(4))] + [Scope(EmbeddedBody, Some(7))], tr.events + [Referenced(7, n, Pos(12, 16), false, false, [])] + [Declared(8, n, Pos(13, 42), Initialized, [1])], 2);
    assert OutNames([Argument([Declare(n, Pos(13, 42), Initialized)])]) == [];
    assert WalkExpr(Call([Argument([Declare(n, Pos(13, 42), Initialized)])]), Ctx(8, [1], []), Tree(tr.scopes + [Scope(LoopCondition, Some(4))] + [Scope(EmbeddedBody, Some(7))], tr.events + [Referenced(7, n, Pos(12, 16), false, false, [])], 2)) == Tree(tr.scopes + [Scope(LoopCondition, Some(4))] + [Scope(EmbeddedBody, Some(7))], tr.events + [Referenced(7, n, Pos(12, 16), false, false, [])] + [Declared(8, n, Pos(13, 42), Initialized, [1])] + [OutAssigned(8, [], [1])], 2);
    assert WalkExprs([Call([Argument([Declare(n, Pos(13, 42), Initialized)])])], Ctx(8, [1], []), Tree(tr.scopes + [Scope(LoopCondition, Some(4))] + [Scope(EmbeddedBody, Some(7))], tr.events + [Referenced(7, n, Pos(12, 16), false, false, [])], 2)) == Tree(tr.scopes + [Scope(LoopCondition, Some(4))] + [Scope(EmbeddedBody, Some(7))], tr.events + [Referenced(7, n, Pos(12, 16), false, false, [])] + [Declared(8, n, Pos(13, 42), Initialized, [1])] + [OutAssigned(8, [], [1])], 2);
    assert WalkStmt(Exprs([Call([Argument([Declare(n, Pos(13, 42), Initialized)])])]), Ctx(8, [1], []), Tree(tr.scopes + [Scope(LoopCondition, Some(4))] + [Scope(EmbeddedBody, Some(7))], tr.events + [Referenced(7, n, Pos(12, 16), false, false, [])], 2)) == Tree(tr.scopes + [Scope(LoopCondition, Some(4))] + [Scope(EmbeddedBody, Some(7))], tr.events + [Referenced(7, n, Pos(12, 16), false, false, [])] + [Declared(8, n, Pos(13, 42), Initialized, [1])] + [OutAssigned(8, [], [1])], 2);
    assert WalkEmbedded(Exprs([Call([Argument([Declare(n, Pos(13, 42), Initialized)])])]), Ctx(7, [1], []), Tree(tr.scopes + [Scope(LoopCondition, Some(4))], tr.events + [Referenced(7, n, Pos(12, 16), false, false, [])], 2)) == Tree(tr.scopes + [Scope(LoopCondition, Some(4))] + [Scope(EmbeddedBody, Some(7))], tr.events + [Referenced(7, n, Pos(12, 16), false, false, [])] + [Declared(8, n, Pos(13, 42), Initialized, [1])] + [OutAssigned(8, [], [1])], 2);
    assert WalkStmt(While([Use(n, Pos(12, 16), false)], Exprs([Call([Argument([Declare(n, Pos(13, 42), Initialized)])])])), Ctx(4, [], []), tr) == Tree(tr.scopes + [Scope(LoopCondition, Some(4))] + [Scope(EmbeddedBody, Some(7))], tr.events + [Referenced(7, n, Pos(12, 16), false, false, [])] + [Declared(8, n, Pos(13, 42), Initialized, [1])] + [OutAssigned(8, [], [1])], 2);
  }

  lemma {:induction false} Stmts1(j: string, k: string, n: string, q: string, a1: string, a2: string, a3: string, c1: string, c2: string, c3: string, c4: string, d1: string, tr: Tree, rest: seq<Stmt>)
    requires |tr.scopes| == 5 && tr.arms == 0
    ensures WalkStmts([While([Declare(j, Pos(6, 21), Initialized)] + ([Use(j, Pos(6, 31), false)]), Exprs([Call([Argument([Use(j, Pos(7, 38), false)] + ([Declare(k, Pos(7, 47), Initialized)] + ([Use(k, Pos(7, 56), false)])))])]))] + ([Exprs([Use(j, Pos(9, 9), true)])] + ([Exprs([Use(k, Pos(10, 9), true)])] + ([While([Use(n, Pos(12, 16), false)], Exprs([Call([Argument([Declare(n, Pos(13, 42), Initialized)])])]))] + (rest)))), Ctx(4, [], []), tr) == WalkStmts(rest, Ctx(4, [], []), Tree(tr.scopes + [Scope(LoopCondition, Some(4))] + [Scope(EmbeddedBody, Some(5))] + [Scope(LoopCondition, Some(4))] + [Scope(EmbeddedBody, Some(7))], tr.events + [Declared(5, j, Pos(6, 21), Initialized, [])] + [Referenced(5, j, Pos(6, 31), false, false, [])] + [Referenced(6, j, Pos(7, 38), false, false, [0])] + [Declared(6, k, Pos(7, 47), Initialized, [0])] + [Referenced(6, k, Pos(7, 56), false, false, [0])] + [OutAssigned(6, [], [0])] + [Referenced(4, j, Pos(9, 9), true, false, [])] + [Referenced(4, k, Pos(10, 9), true, false, [])] + [Referenced(7, n, Pos(12, 16), false, false, [])] + [Declared(8, n, Pos(13, 42), Initialized, [1])] + [OutAssigned(8, [], [1])], 2))
  {
    WalkStmtsCons(While([Declare(j, Pos(6, 21), Initialized)] + ([Use(j, Pos(6, 31), false)]), Exprs([Call([Argument([Use(j, Pos(7, 38), false)] + ([Declare(k, Pos(7, 47), Initialized)] + ([Use(k, Pos(7, 56), false)])))])])), [Exprs([Use(j, Pos(9, 9), true)])] + ([Exprs([Use(k, Pos(10, 9), true)])] + ([While([Use(n, Pos(12, 16), false)], Exprs([Call([Argument([Declare(n, Pos(13, 42), Initialized)])])]))] + (rest))), Ctx(4, [], []), tr);
    Walk2(j, k, n, q, a1, a2, a3, c1, c2, c3, c4, d1, tr);
    assert WalkStmt(While([Declare(j, Pos(6, 21), Initialized)] + ([Use(j, Pos(6, 31), false)]), Exprs([Call([Argument([Use(j, Pos(7, 38), false)] + ([Declare(k, Pos(7, 47), Initialized)] + ([Use(k, Pos(7, 56), false)])))])])), Ctx(4, [], []), tr) == Tree(tr.scopes + [Scope(LoopCondition, Some(4))] + [Scope(EmbeddedBody, Some(5))], tr.events + [Declared(5, j, Pos(6, 21), Initialized, [])] + [Referenced(5, j, Pos(6, 31), false, false, [])] + [Referenced(6, j, Pos(7, 38), false, false, [0])] + [Declared(6, k, Pos(7, 47), Initialized, [0])] + [Referenced(6, k, Pos(7, 56), false, false, [0])] + [OutAssigned(6, [], [0])], 1);
    WalkStmtsCons(Exprs([Use(j, Pos(9, 9), true)]), [Exprs([Use(k, Pos(10, 9), true)])] + ([While([Use(n, Pos(12, 16), false)], Exprs([Call([Argument([Declare(n, Pos(13, 42), Initialized)])])]))] + (rest)), Ctx(4, [], []), Tree(tr.scopes + [Scope(LoopCondition, Some(4))] + [Scope(EmbeddedBody, Some(5))], tr.events + [Declared(5, j, Pos(6, 21), Initialized, [])] + [Referenced(5, j, Pos(6, 31), false, false, [])] + [Referenced(6, j, Pos(7, 38), false, false, [0])] + [Declared(6, k, Pos(7, 47), Initialized, [0])] + [Referenced(6, k, Pos(7, 56), false, false, [0])] + [OutAssigned(6, [], [0])], 1));
    Walk3(j, k, n, q, a1, a2, a3, c1, c2, c3, c4, d1, Tree(tr.scopes + [Scope(LoopCondition, Some(4))] + [Scope(EmbeddedBody, Some(5))], tr.events + [Declared(5, j, Pos(6, 21), Initialized, [])] + [Referenced(5, j, Pos(6, 31), false, false, [])] + [Referenced(6, j, Pos(7, 38), false, false, [0])] + [Declared(6, k, Pos(7, 47), Initialized, [0])] + [Referenced(6, k, Pos(7, 56), false, false, [0])] + [OutAssigned(6, [], [0])], 1));
    assert WalkStmt(Exprs([Use(j, Pos(9, 9), true)]), Ctx(4, [], []), Tree(tr.scopes + [Scope(LoopCondition, Some(4))] + [Scope(EmbeddedBody, Some(5))], tr.events + [Declared(5, j, Pos(6, 21), Initialized, [])] + [Referenced(5, j, Pos(6, 31), false, false, [])] + [Referenced(6, j, Pos(7, 38), false, false, [0])] + [Declared(6, k, Pos(7, 47), Initialized, [0])] + [Referenced(6, k, Pos(7, 56), false, false, [0])] + [OutAssigned(6, [], [0])], 1)) == Tree(tr.scopes + [Scope(LoopCondition, Some(4))] + [Scope(EmbeddedBody, Some(5))], tr.events + [Declared(5, j, Pos(6, 21), Initialized, [])] + [Referenced(5, j, Pos(6, 31), false, false, [])] + [Referenced(6, j, Pos(7, 38), false, false, [0])] + [Declared(6, k, Pos(7, 47), Initialized, [0])] + [Referenced(6, k, Pos(7, 56), false, false, [0])] + [OutAssigned(6, [], [0])] + [Referenced(4, j, Pos(9, 9), true, false, [])], 1);
    WalkStmtsCons(Exprs([Use(k, Pos(10, 9), true)]), [While([Use(n, Pos(12, 16), false)], Exprs([Call([Argument([Declare(n, Pos(13, 42), Initialized)])])]))] + (rest), Ctx(4, [], []), Tree(tr.scopes + [Scope(LoopCondition, Some(4))] + [Scope(EmbeddedBody, Some(5))], tr.events + [Declared(5, j, Pos(6, 21), Initialized, [])] + [Referenced(5, j, Pos(6, 31), false, false, [])] + [Referenced(6, j, Pos(7, 38), false, false, [0])] + [Declared(6, k, Pos(7, 47), Initialized, [0])] + [Referenced(6, k, Pos(7, 56), false, false, [0])] + [OutAssigned(6, [], [0])] + [Referenced(4, j, Pos(9, 9), true, false, [])], 1));
    Walk4(j, k, n, q, a1, a2, a3, c1, c2, c3, c4, d1, Tree(tr.scopes + [Scope(LoopCondition, Some(4))] + [Scope(EmbeddedBody, Some(5))], tr.events + [Declared(5, j, Pos(6, 21), Initialized, [])] + [Referenced(5, j, Pos(6, 31), false, false, [])] + [Referenced(6, j, Pos(7, 38), false, false, [0])] + [Declared(6, k, Pos(7, 47), Initialized, [0])] + [Referenced(6, k, Pos(7, 56), false, false, [0])] + [OutAssigned(6, [], [0])] + [Referenced(4, j, Pos(9, 9), true, false, [])], 1));
    assert WalkStmt(Exprs([Use(k, Pos(10, 9), true)]), Ctx(4, [], []), Tree(tr.scopes + [Scope(LoopCondition, Some(4))] + [Scope(EmbeddedBody, Some(5))], tr.events + [Declared(5, j, Pos(6, 21), Initialized, [])] + [Referenced(5, j, Pos(6, 31), false, false, [])] + [Referenced(6, j, Pos(7, 38), false, false, [0])] + [Declared(6, k, Pos(7, 47), Initialized, [0])] + [Referenced(6, k, Pos(7, 56), false, false, [0])] + [OutAssigned(6, [], [0])] + [Referenced(4, j, Pos(9, 9), true, false, [])], 1)) == Tree(tr.scopes + [Scope(LoopCondition, Some(4))] + [Scope(EmbeddedBody, Some(5))], tr.events + [Declared(5, j, Pos(6, 21), Initialized, [])] + [Referenced(5, j, Pos(6, 31), false, false, [])] + [Referenced(6, j, Pos(7, 38), false, false, [0])] + [Declared(6, k, Pos(7, 47), Initialized, [0])] + [Referenced(6, k, Pos(7, 56), false, false, [0])] + [OutAssigned(6, [], [0])] + [Referenced(4, j, Pos(9, 9), true, false, [])] + [Referenced(4, k, Pos(10, 9), true, false, [])], 1);
    WalkStmtsCons(While([Use(n, Pos(12, 16), false)], Exprs([Call([Argument([Declare(n, Pos(13, 42), Initialized)])])])), rest, Ctx(4, [], []), Tree(tr.scopes + [Scope(LoopCondition, Some(4))] + [Scope(EmbeddedBody, Some(5))], tr.events + [Declared(5, j, Pos(6, 21), Initialized, [])] + [Referenced(5, j, Pos(6, 31), false, false, [])] + [Referenced(6, j, Pos(7, 38), false, false, [0])] + [Declared(6, k, Pos(7, 47), Initialized, [0])] + [Referenced(6, k, Pos(7, 56), false, false, [0])] + [OutAssigned(6, [], [0])] + [Referenced(4, j, Pos(9, 9), true, false, [])] + [Referenced(4, k, Pos(10, 9), true, false, [])], 1));
    Walk5(j, k, n, q, a1, a2, a3, c1, c2, c3, c4, d1, Tree(tr.scopes + [Scope(LoopCondition, Some(4))] + [Scope(EmbeddedBody, Some(5))], tr.events + [Declared(5, j, Pos(6, 21), Initialized, [])] + [Referenced(5, j, Pos(6, 31), false, false, [])] + [Referenced(6, j, Pos(7, 38), false, false, [0])] + [Declared(6, k, Pos(7, 47), Initialized, [0])] + [Referenced(6, k, Pos(7, 56), false, false, [0])] + [OutAssigned(6, [], [0])] + [Referenced(4, j, Pos(9, 9), true, false, [])] + [Referenced(4, k, Pos(10, 9), true, false, [])], 1));
    assert WalkStmt(While([Use(n, Pos(12, 16), false)], Exprs([Call([Argument([Declare(n, Pos(13, 42), Initialized)])])])), Ctx(4, [], []), Tree(tr.scopes + [Scope(LoopCondition, Some(4))] + [Scope(EmbeddedBody, Some(5))], tr.events + [Declared(5, j, Pos(6, 21), Initialized, [])] + [Referenced(5, j, Pos(6, 31), false, false, [])] + [Referenced(6, j, Pos(7, 38), false, false, [0])] + [Declared(6, k, Pos(7, 47), Initialized, [0])] + [Referenced(6, k, Pos(7, 56), false, false, [0])] + [OutAssigned(6, [], [0])] + [Referenced(4, j, Pos(9, 9), true, false, [])] + [Referenced(4, k, Pos(10, 9), true, false, [])], 1)) == Tree(tr.scopes + [Scope(LoopCondition, Some(4))] + [Scope(EmbeddedBody, Some(5))] + [Scope(LoopCondition, Some(4))] + [Scope(EmbeddedBody, Some(7))], tr.events + [Declared(5, j, Pos(6, 21), Initialized, [])] + [Referenced(5, j, Pos(6, 31), false, false, [])] + [Referenced(6, j, Pos(7, 38), false, false, [0])] + [Declared(6, k, Pos(7, 47), Initialized, [0])] + [Referenced(6, k, Pos(7, 56), false, false, [0])] + [OutAssigned(6, [], [0])] + [Referenced(4, j, Pos(9, 9), true, false, [])] + [Referenced(4, k, Pos(10, 9), true, false, [])] + [Referenced(7, n, Pos(12, 16), false, false, [])] + [Declared(8, n, Pos(13, 42), Initialized, [1])] + [OutAssigned(8, [], [1])], 2);
  }

  lemma {:induction false} Walk8(j: string, k: string, n: string, q: string, a1: string, a2: string, a3: string, c1: string, c2: string, c3: string, c4: string, d1: string, tr: Tree)
    requires |tr.scopes| == 11 && tr.arms == 3
    ensures WalkStmt(Exprs([Call([Argument([Declare(q, Pos(17, 42), Initialized)])])]), Ctx(10, [2], []), tr) == Tree(tr.scopes, tr.events + [Declared(10, q, Pos(17, 42), Initialized, [2])] + [OutAssigned(10, [], [2])], 3)
  {
    WalkExprsOne(Call([Argument([Declare(q, Pos(17, 42), Initialized)])]), Ctx(10, [2], []), tr);
    assert OutNames([]) == [];
    WalkArgsOne(Argument([Declare(q, Pos(17, 42), Initialized)]), [], Ctx(10, [2], []), tr);
    WalkExprsOne(Declare(q, Pos(17, 42), Initialized), Ctx(10, [2], []), tr);
    assert WalkExpr(Declare(q, Pos(17, 42), Initialized), Ctx(10, [2], []), tr) == Tree(tr.scopes, tr.events + [Declared(10, q, Pos(17, 42), Initialized, [2])], 3);
    assert WalkExprs([Declare(q, Pos(17, 42), Initialized)], Ctx(10, [2], []), tr) == Tree(tr.scopes, tr.events + [Declared(10, q, Pos(17, 42), Initialized, [2])], 3);
    OutNamesOfOne(Declare(q, Pos(17, 42), Initialized));
    OutNamesSnoc([], Argument([Declare(q, Pos(17, 42), Initialized)]));
    assert WalkArgs([Argument([Declare(q, Pos(17, 42), Initialized)])], [], Ctx(10, [2], []), tr) == Tree(tr.scopes, tr.events + [Declared(10, q, Pos(17, 42), Initialized, [2])], 3);
    assert OutNames([Argument([Declare(q, Pos(17, 42), Initialized)])]) == [];
    assert WalkExpr(Call([Argument([Declare(q, Pos(17, 42), Initialized)])]), Ctx(10, [2], []), tr) == Tree(tr.scopes, tr.events + [Declared(10, q, Pos(17, 42), Initialized, [2])] + [OutAssigned(10, [], [2])], 3);
    assert WalkExprs([Call([Argument([Declare(q, Pos(17, 42), Initialized)])])], Ctx(10, [2], []), tr) == Tree(tr.scopes, tr.events + [Declared(10, q, Pos(17, 42), Initialized, [2])] + [OutAssigned(10, [], [2])], 3);
    assert WalkStmt(Exprs([Call([Argument([Declare(q, Pos(17, 42), Initialized)])])]), Ctx(10, [2], []), tr) == Tree(tr.scopes, tr.events + [Declared(10, q, Pos(17, 42), Initialized, [2])] + [OutAssigned(10, [], [2])], 3);
  }

  lemma {:induction false} Walk7(j: string, k: string, n: string, q: string, a1: string, a2: string, a3: string, c1: string, c2: string, c3: string, c4: string, d1: string, tr: Tree)
    requires |tr.scopes| == 9 && tr.arms == 2
    ensures WalkStmt(While([Use(q, Pos(15, 20), false)], Block([Exprs([Call([Argument([Declare(q, Pos(17, 42), Initialized)])])])])), Ctx(4, [], []), tr) == Tree(tr.scopes + [Scope(LoopCondition, Some(4))] + [Scope(BlockBody, Some(9))], tr.events + [Referenced(9, q, Pos(15, 20), false, false, [])] + [Declared(10, q, Pos(17, 42), Initialized, [2])] + [OutAssigned(10, [], [2])], 3)
  {
    WalkExprsOne(Use(q, Pos(15, 20), false), Ctx(9, [], []), Tree(tr.scopes + [Scope(LoopCondition, Some(4))], tr.events, 2));
    assert WalkExpr(Use(q, Pos(15, 20), false), Ctx(9, [], []), Tree(tr.scopes + [Scope(LoopCondition, Some(4))], tr.events, 2)) == Tree(tr.scopes + [Scope(LoopCondition, Some(4))], tr.events + [Referenced(9, q, Pos(15, 20), false, false, [])], 2);
    assert WalkExprs([Use(q, Pos(15, 20), false)], Ctx(9, [], []), Tree(tr.scopes + [Scope(LoopCondition, Some(4))], tr.events, 2)) == Tree(tr.scopes + [Scope(LoopCondition, Some(4))], tr.events + [Referenced(9, q, Pos(15, 20), false, false, [])], 2);
    assert [] + [2] == [2];
    WalkStmtsOne(Exprs([Call([Argument([Declare(q, Pos(17, 42), Initialized)])])]), Ctx(10, [2], []), Tree(tr.scopes + [Scope(LoopCondition, Some(4))] + [Scope(BlockBody, Some(9))], tr.events + [Referenced(9, q, Pos(15, 20), false, false, [])], 3));
    Walk8(j, k, n, q, a1, a2, a3, c1, c2, c3, c4, d1, Tree(tr.scopes + [Scope(LoopCondition, Some(4))] + [Scope(BlockBody, Some(9))], tr.events + [Referenced(9, q, Pos(15, 20), false, false, [])], 3));
    assert WalkStmt(Exprs([Call([Argument([Declare(q, Pos(17, 42), Initialized)])])]), Ctx(10, [2], []), Tree(tr.scopes + [Scope(LoopCondition, Some(4))] + [Scope(BlockBody, Some(9))], tr.events + [Referenced(9, q, Pos(15, 20), false, false, [])], 3)) == Tree(tr.scopes + [Scope(LoopCondition, Some(4))] + [Scope(BlockBody, Some(9))], tr.events + [Referenced(9, q, Pos(15, 20), false, false, [])] + [Declared(10, q, Pos(17, 42), Initialized, [2])] + [OutAssigned(10, [], [2])], 3);
    assert WalkEmbedded(Block([Exprs([Call([Argument([Declare(q, Pos(17, 42), Initialized)])])])]), Ctx(9, [2], []), Tree(tr.scopes + [Scope(LoopCondition, Some(4))], tr.events + [Referenced(9, q, Pos(15, 20), false, false, [])], 3)) == Tree(tr.scopes + [Scope(LoopCondition, Some(4))] + [Scope(BlockBody, Some(9))], tr.events + [Referenced(9, q, Pos(15, 20), false, false, [])] + [Declared(10, q, Pos(17, 42), Initialized, [2])] + [OutAssigned(10, [], [2])], 3);
    assert WalkStmt(While([Use(q, Pos(15, 20), false)], Block([Exprs([Call([Argument([Declare(q, Pos(17, 42), Initialized)])])])])), Ctx(4, [], []), tr) == Tree(tr.scopes + [Scope(LoopCondition, Some(4))] + [Scope(BlockBody, Some(9))], tr.events + [Referenced(9, q, Pos(15, 20), false, false, [])] + [Declared(10, q, Pos(17, 42), Initialized, [2])] + [OutAssigned(10, [], [2])], 3);
  }

  lemma {:induction false} Walk9(j: string, k: string, n: string, q: string, a1: string, a2: string, a3: string, c1: string, c2: string, c3: string, c4: string, d1: string, tr: Tree)
    requires |tr.scopes| == 11 && tr.arms == 3
    ensures WalkStmt(Exprs([Declare(a1, Pos(20, 13), Initialized)]), Ctx(4, [], []), tr) == Tree(tr.scopes, tr.events + [Declared(4, a1, Pos(20, 13), Initialized, [])], 3)
  {
    WalkExprsOne(Declare(a1, Pos(20, 13), Initialized), Ctx(4, [], []), tr);
    assert WalkExpr(Declare(a1, Pos(20, 13), Initialized), Ctx(4, [], []), tr) == Tree(tr.scopes, tr.events + [Declared(4, a1, Pos(20, 13), Initialized, [])], 3);
    assert WalkExprs([Declare(a1, Pos(20, 13), Initialized)], Ctx(4, [], []), tr) == Tree(tr.scopes, tr.events + [Declared(4, a1, Pos(20, 13), Initialized, [])], 3);
    assert WalkStmt(Exprs([Declare(a1, Pos(20, 13), Initialized)]), Ctx(4, [], []), tr) == Tree(tr.scopes, tr.events + [Declared(4, a1, Pos(20, 13), Initialized, [])], 3);
  }

  lemma {:induction false} Walk10(j: string, k: string, n: string, q: string, a1: string, a2: string, a3: string, c1: string, c2: string, c3: string, c4: string, d1: string, tr: Tree)
    requires |tr.scopes| == 11 && tr.arms == 3
    ensures WalkStmt(Exprs([Call([Argument([Use(a1, Pos(21, 34), false)])])]), Ctx(4, [], []), tr) == Tree(tr.scopes, tr.events + [Referenced(4, a1, Pos(21, 34), false, false, [])] + [OutAssigned(4, [], [])], 3)
  {
    WalkExprsOne(Call([Argument([Use(a1, Pos(21, 34), false)])]), Ctx(4, [], []), tr);
    assert OutNames([]) == [];
    WalkArgsOne(Argument([Use(a1, Pos(21, 34), false)]), [], Ctx(4, [], []), tr);
    WalkExprsOne(Use(a1, Pos(21, 34), false), Ctx(4, [], []), tr);
    assert WalkExpr(Use(a1, Pos(21, 34), false), Ctx(4, [], []), tr) == Tree(tr.scopes, tr.events + [Referenced(4, a1, Pos(21, 34), false, false, [])], 3);
    assert WalkExprs([Use(a1, Pos(21, 34), false)], Ctx(4, [], []), tr) == Tree(tr.scopes, tr.events + [Referenced(4, a1, Pos(21, 34), false, false, [])], 3);
    OutNamesOfOne(Use(a1, Pos(21, 34), false));
    OutNamesSnoc([], Argument([Use(a1, Pos(21, 34), false)]));
    assert WalkArgs([Argument([Use(a1, Pos(21, 34), false)])], [], Ctx(4, [], []), tr) == Tree(tr.scopes, tr.events + [Referenced(4, a1, Pos(21, 34), false, false, [])], 3);
    assert OutNames([Argument([Use(a1, Pos(21, 34), false)])]) == [];
    assert WalkExpr(Call([Argument([Use(a1, Pos(21, 34), false)])]), Ctx(4, [], []), tr) == Tree(tr.scopes, tr.events + [Referenced(4, a1, Pos(21, 34), false, false, [])] + [OutAssigned(4, [], [])], 3);
    assert WalkExprs([Call([Argument([Use(a1, Pos(21, 34), false)])])], Ctx(4, [], []), tr) == Tree(tr.scopes, tr.events + [Referenced(4, a1, Pos(21, 34), false, false, [])] + [OutAssigned(4, [], [])], 3);
    assert WalkStmt(Exprs([Call([Argument([Use(a1, Pos(21, 34), false)])])]), Ctx(4, [], []), tr) == Tree(tr.scopes, tr.events + [Referenced(4, a1, Pos(21, 34), false, false, [])] + [OutAssigned(4, [], [])], 3);
  }

  lemma {:induction false} Walk11(j: string, k: string, n: string, q: string, a1: string, a2: string, a3: string, c1: string, c2: string, c3: string, c4: string, d1: string, tr: Tree)
    requires |tr.scopes| == 11 && tr.arms == 3
    ensures WalkStmt(While([Declare(a1, Pos(22, 21), Initialized)], Exprs([])), Ctx(4, [], []), tr) == Tree(tr.scopes + [Scope(LoopCondition, Some(4))] + [Scope(EmbeddedBody, Some(11))], tr.events + [Declared(11, a1, Pos(22, 21), Initialized, [])], 4)
  {
    WalkExprsOne(Declare(a1, Pos(22, 21), Initialized), Ctx(11, [], []), Tree(tr.scopes + [Scope(LoopCondition, Some(4))], tr.events, 3));
    assert WalkExpr(Declare(a1, Pos(22, 21), Initialized), Ctx(11, [], []), Tree(tr.scopes + [Scope(LoopCondition, Some(4))], tr.events, 3)) == Tree(tr.scopes + [Scope(LoopCondition, Some(4))], tr.events + [Declared(11, a1, Pos(22, 21), Initialized, [])], 3);
    assert WalkExprs([Declare(a1, Pos(22, 21), Initialized)], Ctx(11, [], []), Tree(tr.scopes + [Scope(LoopCondition, Some(4))], tr.events, 3)) == Tree(tr.scopes + [Scope(LoopCondition, Some(4))], tr.events + [Declared(11, a1, Pos(22, 21), Initialized, [])], 3);
    assert [] + [3] == [3];
    assert WalkStmt(Exprs([]), Ctx(12, [3], []), Tree(tr.scopes + [Scope(LoopCondition, Some(4))] + [Scope(EmbeddedBody, Some(11))], tr.events + [Declared(11, a1, Pos(22, 21), Initialized, [])], 4)) == Tree(tr.scopes + [Scope(LoopCondition, Some(4))] + [Scope(EmbeddedBody, Some(11))], tr.events + [Declared(11, a1, Pos(22, 21), Initialized, [])], 4);
    assert WalkEmbedded(Exprs([]), Ctx(11, [3], []), Tree(tr.scopes + [Scope(LoopCondition, Some(4))], tr.events + [Declared(11, a1, Pos(22, 21), Initialized, [])], 4)) == Tree(tr.scopes + [Scope(LoopCondition, Some(4))] + [Scope(EmbeddedBody, Some(11))], tr.events + [Declared(11, a1, Pos(22, 21), Initialized, [])], 4);
    assert WalkStmt(While([Declare(a1, Pos(22, 21), Initialized)], Exprs([])), Ctx(4, [], []), tr) == Tree(tr.scopes + [Scope(LoopCondition, Some(4))] + [Scope(EmbeddedBody, Some(11))], tr.events + [Declared(11, a1, Pos(22, 21), Initialized, [])], 4);
  }

  lemma {:induction false} Stmts6(j: string, k: string, n: string, q: string, a1: string, a2: string, a3: string, c1: string, c2: string, c3: string, c4: string, d1: string, tr: Tree, rest: seq<Stmt>)
    requires |tr.scopes| == 9 && tr.arms == 2
    ensures WalkStmts([While([Use(q, Pos(15, 20), false)], Block([Exprs([Call([Argument([Declare(q, Pos(17, 42), Initialized)])])])]))] + ([Exprs([Declare(a1, Pos(20, 13), Initialized)])] + ([Exprs([Call([Argument([Use(a1, Pos(21, 34), false)])])])] + ([While([Declare(a1, Pos(22, 21), Initialized)], Exprs([]))] + (rest)))), Ctx(4, [], []), tr) == WalkStmts(rest, Ctx(4, [], []), Tree(tr.scopes + [Scope(LoopCondition, Some(4))] + [Scope(BlockBody, Some(9))] + [Scope(LoopCondition, Some(4))] + [Scope(EmbeddedBody, Some(11))], tr.events + [Referenced(9, q, Pos(15, 20), false, false, [])] + [Declared(10, q, Pos(17, 42), Initialized, [2])] + [OutAssigned(10, [], [2])] + [Declared(4, a1, Pos(20, 13), Initialized, [])] + [Referenced(4, a1, Pos(21, 34), false, false, [])] + [OutAssigned(4, [], [])] + [Declared(11, a1, Pos(22, 21), Initialized, [])], 4))
  {
    WalkStmtsCons(While([Use(q, Pos(15, 20), false)], Block([Exprs([Call([Argument([Declare(q, Pos(17, 42), Initialized)])])])])), [Exprs([Declare(a1, Pos(20, 13), Initialized)])] + ([Exprs([Call([Argument([Use(a1, Pos(21, 34), false)])])])] + ([While([Declare(a1, Pos(22, 21), Initialized)], Exprs([]))] + (rest))), Ctx(4, [], []), tr);
    Walk7(j, k, n, q, a1, a2, a3, c1, c2, c3, c4, d1, tr);
    assert WalkStmt(While([Use(q, Pos(15, 20), false)], Block([Exprs([Call([Argument([Declare(q, Pos(17, 42), Initialized)])])])])), Ctx(4, [], []), tr) == Tree(tr.scopes + [Scope(LoopCondition, Some(4))] + [Scope(BlockBody, Some(9))], tr.events + [Referenced(9, q, Pos(15, 20), false, false, [])] + [Declared(10, q, Pos(17, 42), Initialized, [2])] + [OutAssigned(10, [], [2])], 3);
    WalkStmtsCons(Exprs([Declare(a1, Pos(20, 13), Initialized)]), [Exprs([Call([Argument([Use(a1, Pos(21, 34), false)])])])] + ([While([Declare(a1, Pos(22, 21), Initialized)], Exprs([]))] + (rest)), Ctx(4, [], []), Tree(tr.scopes + [Scope(LoopCondition, Some(4))] + [Scope(BlockBody, Some(9))], tr.events + [Referenced(9, q, Pos(15, 20), false, false, [])] + [Declared(10, q, Pos(17, 42), Initialized, [2])] + [OutAssigned(10, [], [2])], 3));
    Walk9(j, k, n, q, a1, a2, a3, c1, c2, c3, c4, d1, Tree(tr.scopes + [Scope(LoopCondition, Some(4))] + [Scope(BlockBody, Some(9))], tr.events + [Referenced(9, q, Pos(15, 20), false, false, [])] + [Declared(10, q, Pos(17, 42), Initialized, [2])] + [OutAssigned(10, [], [2])], 3));
    assert WalkStmt(Exprs([Declare(a1, Pos(20, 13), Initialized)]), Ctx(4, [], []), Tree(tr.scopes + [Scope(LoopCondition, Some(4))] + [Scope(BlockBody, Some(9))], tr.events + [Referenced(9, q, Pos(15, 20), false, false, [])] + [Declared(10, q, Pos(17, 42), Initialized, [2])] + [OutAssigned(10, [], [2])], 3)) == Tree(tr.scopes + [Scope(LoopCondition, Some(4))] + [Scope(BlockBody, Some(9))], tr.events + [Referenced(9, q, Pos(15, 20), false, false, [])] + [Declared(10, q, Pos(17, 42), Initialized, [2])] + [OutAssigned(10, [], [2])] + [Declared(4, a1, Pos(20, 13), Initialized, [])], 3);
    WalkStmtsCons(Exprs([Call([Argument([Use(a1, Pos(21, 34), false)])])]), [While([Declare(a1, Pos(22, 21), Initialized)], Exprs([]))] + (rest), Ctx(4, [], []), Tree(tr.scopes + [Scope(LoopCondition, Some(4))] + [Scope(BlockBody, Some(9))], tr.events + [Referenced(9, q, Pos(15, 20), false, false, [])] + [Declared(10, q, Pos(17, 42), Initialized, [2])] + [OutAssigned(10, [], [2])] + [Declared(4, a1, Pos(20, 13), Initialized, [])], 3));
    Walk10(j, k, n, q, a1, a2, a3, c1, c2, c3, c4, d1, Tree(tr.scopes + [Scope(LoopCondition, Some(4))] + [Scope(BlockBody, Some(9))], tr.events + [Referenced(9, q, Pos(15, 20), false, false, [])] + [Declared(10, q, Pos(17, 42), Initialized, [2])] + [OutAssigned(10, [], [2])] + [Declared(4, a1, Pos(20, 13), Initialized, [])], 3));
    assert WalkStmt(Exprs([Call([Argument([Use(a1, Pos(21, 34), false)])])]), Ctx(4, [], []), Tree(tr.scopes + [Scope(LoopCondition, Some(4))] + [Scope(BlockBody, Some(9))], tr.events + [Referenced(9, q, Pos(15, 20), false, false, [])] + [Declared(10, q, Pos(17, 42), Initialized, [2])] + [OutAssigned(10, [], [2])] + [Declared(4, a1, Pos(20, 13), Initialized, [])], 3)) == Tree(tr.scopes + [Scope(LoopCondition, Some(4))] + [Scope(BlockBody, Some(9))], tr.events + [Referenced(9, q, Pos(15, 20), false, false, [])] + [Declared(10, q, Pos(17, 42), Initialized, [2])] + [OutAssigned(10, [], [2])] + [Declared(4, a1, Pos(20, 13), Initialized, [])] + [Referenced(4, a1, Pos(21, 34), false, false, [])] + [OutAssigned(4, [], [])], 3);
    WalkStmtsCons(While([Declare(a1, Pos(22, 21), Initialized)], Exprs([])), rest, Ctx(4, [], []), Tree(tr.scopes + [Scope(LoopCondition, Some(4))] + [Scope(BlockBody, Some(9))], tr.events + [Referenced(9, q, Pos(15, 20), false, false, [])] + [Declared(10, q, Pos(17, 42), Initialized, [2])] + [OutAssigned(10, [], [2])] + [Declared(4, a1, Pos(20, 13), Initialized, [])] + [Referenced(4, a1, Pos(21, 34), false, false, [])] + [OutAssigned(4, [], [])], 3));
    Walk11(j, k, n, q, a1, a2, a3, c1, c2, c3, c4, d1, Tree(tr.scopes + [Scope(LoopCondition, Some(4))] + [Scope(BlockBody, Some(9))], tr.events + [Referenced(9, q, Pos(15, 20), false, false, [])] + [Declared(10, q, Pos(17, 42), Initialized, [2])] + [OutAssigned(10, [], [2])] + [Declared(4, a1, Pos(20, 13), Initialized, [])] + [Referenced(4, a1, Pos(21, 34), false, false, [])] + [OutAssigned(4, [], [])], 3));
    assert WalkStmt(While([Declare(a1, Pos(22, 21), Initialized)], Exprs([])), Ctx(4, [], []), Tree(tr.scopes + [Scope(LoopCondition, Some(4))] + [Scope(BlockBody, Some(9))], tr.events + [Referenced(9, q, Pos(15, 20), false, false, [])] + [Declared(10, q, Pos(17, 42), Initialized, [2])] + [OutAssigned(10, [], [2])] + [Declared(4, a1, Pos(20, 13), Initialized, [])] + [Referenced(4, a1, Pos(21, 34), false, false, [])] + [OutAssigned(4, [], [])], 3)) == Tree(tr.scopes + [Scope(LoopCondition, Some(4))] + [Scope(BlockBody, Some(9))] + [Scope(LoopCondition, Some(4))] + [Scope(EmbeddedBody, Some(11))], tr.events + [Referenced(9, q, Pos(15, 20), false, false, [])] + [Declared(10, q, Pos(17, 42), Initialized, [2])] + [OutAssigned(10, [], [2])] + [Declared(4, a1, Pos(20, 13), Initialized, [])] + [Referenced(4, a1, Pos(21, 34), false, false, [])] + [OutAssigned(4, [], [])] + [Declared(11, a1, Pos(22, 21), Initialized, [])], 4);
  }

  lemma {:induction false} Walk13(j: string, k: string, n: string, q: string, a1: string, a2: string, a3: string, c1: string, c2: string, c3: string, c4: string, d1: string, tr: Tree)
    requires |tr.scopes| == 13 && tr.arms == 4
    ensures WalkStmt(Exprs([Declare(a2, Pos(25, 13), Initialized)]), Ctx(4, [], []), tr) == Tree(tr.scopes, tr.events + [Declared(4, a2, Pos(25, 13), Initialized, [])], 4)
  {
    WalkExprsOne(Declare(a2, Pos(25, 13), Initialized), Ctx(4, [], []), tr);
    assert WalkExpr(Declare(a2, Pos(25, 13), Initialized), Ctx(4, [], []), tr) == Tree(tr.scopes, tr.events + [Declared(4, a2, Pos(25, 13), Initialized, [])], 4);
    assert WalkExprs([Declare(a2, Pos(25, 13), Initialized)], Ctx(4, [], []), tr) == Tree(tr.scopes, tr.events + [Declared(4, a2, Pos(25, 13), Initialized, [])], 4);
    assert WalkStmt(Exprs([Declare(a2, Pos(25, 13), Initialized)]), Ctx(4, [], []), tr) == Tree(tr.scopes, tr.events + [Declared(4, a2, Pos(25, 13), Initialized, [])], 4);
  }

  lemma {:induction false} Walk14(j: string, k: string, n: string, q: string, a1: string, a2: string, a3: string, c1: string, c2: string, c3: string, c4: string, d1: string, tr: Tree)
    requires |tr.scopes| == 13 && tr.arms == 4
    ensures WalkStmt(Exprs([Call([Argument([Use(a2, Pos(26, 34), false)])])]), Ctx(4, [], []), tr) == Tree(tr.scopes, tr.events + [Referenced(4, a2, Pos(26, 34), false, false, [])] + [OutAssigned(4, [], [])], 4)
  {
    WalkExprsOne(Call([Argument([Use(a2, Pos(26, 34), false)])]), Ctx(4, [], []), tr);
    assert OutNames([]) == [];
    WalkArgsOne(Argument([Use(a2, Pos(26, 34), false)]), [], Ctx(4, [], []), tr);
    WalkExprsOne(Use(a2, Pos(26, 34), false), Ctx(4, [], []), tr);
    assert WalkExpr(Use(a2, Pos(26, 34), false), Ctx(4, [], []), tr) == Tree(tr.scopes, tr.events + [Referenced(4, a2, Pos(26, 34), false, false, [])], 4);
    assert WalkExprs([Use(a2, Pos(26, 34), false)], Ctx(4, [], []), tr) == Tree(tr.scopes, tr.events + [Referenced(4, a2, Pos(26, 34), false, false, [])], 4);
    OutNamesOfOne(Use(a2, Pos(26, 34), false));
    OutNamesSnoc([], Argument([Use(a2, Pos(26, 34), false)]));
    assert WalkArgs([Argument([Use(a2, Pos(26, 34), false)])], [], Ctx(4, [], []), tr) == Tree(tr.scopes, tr.events + [Referenced(4, a2, Pos(26, 34), false, false, [])], 4);
    assert OutNames([Argument([Use(a2, Pos(26, 34), false)])]) == [];
    assert WalkExpr(Call([Argument([Use(a2, Pos(26, 34), false)])]), Ctx(4, [], []), tr) == Tree(tr.scopes, tr.events + [Referenced(4, a2, Pos(26, 34), false, false, [])] + [OutAssigned(4, [], [])], 4);
    assert WalkExprs([Call([Argument([Use(a2, Pos(26, 34), false)])])], Ctx(4, [], []), tr) == Tree(tr.scopes, tr.events + [Referenced(4, a2, Pos(26, 34), false, false, [])] + [OutAssigned(4, [], [])], 4);
    assert WalkStmt(Exprs([Call([Argument([Use(a2, Pos(26, 34), false)])])]), Ctx(4, [], []), tr) == Tree(tr.scopes, tr.events + [Referenced(4, a2, Pos(26, 34), false, false, [])] + [OutAssigned(4, [], [])], 4);
  }

  lemma {:induction false} Walk15(j: string, k: string, n: string, q: string, a1: string, a2: string, a3: string, c1: string, c2: string, c3: string, c4: string, d1: string, tr: Tree)
    requires |tr.scopes| == 13 && tr.arms == 4
    ensures WalkStmt(While([Use(a2, Pos(27, 16), false)], Exprs([Call([Argument([Declare(a2, Pos(28, 42), Initialized)])])])), Ctx(4, [], []), tr) == Tree(tr.scopes + [Scope(LoopCondition, Some(4))] + [Scope(EmbeddedBody, Some(13))], tr.events + [Referenced(13, a2, Pos(27, 16), false, false, [])] + [Declared(14, a2, Pos(28, 42), Initialized, [4])] + [OutAssigned(14, [], [4])], 5)
  {
    WalkExprsOne(Use(a2, Pos(27, 16), false), Ctx(13, [], []), Tree(tr.scopes + [Scope(LoopCondition, Some(4))], tr.events, 4));
    assert WalkExpr(Use(a2, Pos(27, 16), false), Ctx(13, [], []), Tree(tr.scopes + [Scope(LoopCondition, Some(4))], tr.events, 4)) == Tree(tr.scopes + [Scope(LoopCondition, Some(4))], tr.events + [Referenced(13, a2, Pos(27, 16), false, false, [])], 4);
    assert WalkExprs([Use(a2, Pos(27, 16), false)], Ctx(13, [], []), Tree(tr.scopes + [Scope(LoopCondition, Some(4))], tr.events, 4)) == Tree(tr.scopes + [Scope(LoopCondition, Some(4))], tr.events + [Referenced(13, a2, Pos(27, 16), false, false, [])], 4);
    assert [] + [4] == [4];
    WalkExprsOne(Call([Argument([Declare(a2, Pos(28, 42), Initialized)])]), Ctx(14, [4], []), Tree(tr.scopes + [Scope(LoopCondition, Some(4))] + [Scope(EmbeddedBody, Some(13))], tr.events + [Referenced(13, a2, Pos(27, 16), false, false, [])], 5));
    assert OutNames([]) == [];
    WalkArgsOne(Argument([Declare(a2, Pos(28, 42), Initialized)]), [], Ctx(14, [4], []), Tree(tr.scopes + [Scope(LoopCondition, Some(4))] + [Scope(EmbeddedBody, Some(13))], tr.events + [Referenced(13, a2, Pos(27, 16), false, false, [])], 5));
    WalkExprsOne(Declare(a2, Pos(28, 42), Initialized), Ctx(14, [4], []), Tree(tr.scopes + [Scope(LoopCondition, Some(4))] + [Scope(EmbeddedBody, Some(13))], tr.events + [Referenced(13, a2, Pos(27, 16), false, false, [])], 5));
    assert WalkExpr(Declare(a2, Pos(28, 42), Initialized), Ctx(14, [4], []), Tree(tr.scopes + [Scope(LoopCondition, Some(4))] + [Scope(EmbeddedBody, Some(13))], tr.events + [Referenced(13, a2, Pos(27, 16), false, false, [])], 5)) == Tree(tr.scopes + [Scope(LoopCondition, Some(4))] + [Scope(EmbeddedBody, Some(13))], tr.events + [Referenced(13, a2, Pos(27, 16), false, false, [])] + [Declared(14, a2, Pos(28, 42), Initialized, [4])], 5);
    assert WalkExprs([Declare(a2, Pos(28, 42), Initialized)], Ctx(14, [4], []), Tree(tr.scopes + [Scope(LoopCondition, Some(4))] + [Scope(EmbeddedBody, Some(13))], tr.events + [Referenced(13, a2, Pos(27, 16), false, false, [])], 5)) == Tree(tr.scopes + [Scope(LoopCondition, Some(4))] + [Scope(EmbeddedBody, Some(13))], tr.events + [Referenced(13, a2, Pos(27, 16), false, false, [])] + [Declared(14, a2, Pos(28, 42), Initialized, [4])], 5);
    OutNamesOfOne(Declare(a2, Pos(28, 42), Initialized));
    OutNamesSnoc([], Argument([Declare(a2, Pos(28, 42), Initialized)]));
    assert WalkArgs([Argument([Declare(a2, Pos(28, 42), Initialized)])], [], Ctx(14, [4], []), Tree(tr.scopes + [Scope(LoopCondition, Some(4))] + [Scope(EmbeddedBody, Some(13))], tr.events + [Referenced(13, a2, Pos(27, 16), false, false, [])], 5)) == Tree(tr.scopes + [Scope(LoopCondition, Some(4))] + [Scope(EmbeddedBody, Some(13))], tr.events + [Referenced(13, a2, Pos(27, 16), false, false, [])] + [Declared(14, a2, Pos(28, 42), Initialized, [4])], 5);
    assert OutNames([Argument([Declare(a2, Pos(28, 42), Initialized)])]) == [];
    assert WalkExpr(Call([Argument([Declare(a2, Pos(28, 42), Initialized)])]), Ctx(14, [4], []), Tree(tr.scopes + [Scope(LoopCondition, Some(4))] + [Scope(EmbeddedBody, Some(13))], tr.events + [Referenced(13, a2, Pos(27, 16), false, false, [])], 5)) == Tree(tr.scopes + [Scope(LoopCondition, Some(4))] + [Scope(EmbeddedBody, Some(13))], tr.events + [Referenced(13, a2, Pos(27, 16), false, false, [])] + [Declared(14, a2, Pos(28, 42), Initialized, [4])] + [OutAssigned(14, [], [4])], 5);
    assert WalkExprs([Call([Argument([Declare(a2, Pos(28, 42), Initialized)])])], Ctx(14, [4], []), Tree(tr.scopes + [Scope(LoopCondition, Some(4))] + [Scope(EmbeddedBody, Some(13))], tr.events + [Referenced(13, a2, Pos(27, 16), false, false, [])], 5)) == Tree(tr.scopes + [Scope(LoopCondition, Some(4))] + [Scope(EmbeddedBody, Some(13))], tr.events + [Referenced(13, a2, Pos(27, 16), false, false, [])] + [Declared(14, a2, Pos(28, 42), Initialized, [4])] + [OutAssigned(14, [], [4])], 5);
    assert WalkStmt(Exprs([Call([Argument([Declare(a2, Pos(28, 42), Initialized)])])]), Ctx(14, [4], []), Tree(tr.scopes + [Scope(LoopCondition, Some(4))] + [Scope(EmbeddedBody, Some(13))], tr.events + [Referenced(13, a2, Pos(27, 16), false, false, [])], 5)) == Tree(tr.scopes + [Scope(LoopCondition, Some(4))] + [Scope(EmbeddedBody, Some(13))], tr.events + [Referenced(13, a2, Pos(27, 16), false, false, [])] + [Declared(14, a2, Pos(28, 42), Initialized, [4])] + [OutAssigned(14, [], [4])], 5);
    assert WalkEmbedded(Exprs([Call([Argument([Declare(a2, Pos(28, 42), Initialized)])])]), Ctx(13, [4], []), Tree(tr.scopes + [Scope(LoopCondition, Some(4))], tr.events + [Referenced(13, a2, Pos(27, 16), false, false, [])], 5)) == Tree(tr.scopes + [Scope(LoopCondition, Some(4))] + [Scope(EmbeddedBody, Some(13))], tr.events + [Referenced(13, a2, Pos(27, 16), false, false, [])] + [Declared(14, a2, Pos(28, 42), Initialized, [4])] + [OutAssigned(14, [], [4])], 5);
    assert WalkStmt(While([Use(a2, Pos(27, 16), false)], Exprs([Call([Argument([Declare(a2, Pos(28, 42), Initialized)])])])), Ctx(4, [], []), tr) == Tree(tr.scopes + [Scope(LoopCondition, Some(4))] + [Scope(EmbeddedBody, Some(13))], tr.events + [Referenced(13, a2, Pos(27, 16), false, false, [])] + [Declared(14, a2, Pos(28, 42), Initialized, [4])] + [OutAssigned(14, [], [4])], 5);
  }

  lemma {:induction false} Walk16(j: string, k: string, n: string, q: string, a1: string, a2: string, a3: string, c1: string, c2: string, c3: string, c4: string, d1: string, tr: Tree)
    requires |tr.scopes| == 15 && tr.arms == 5
    ensures WalkStmt(Exprs([Declare(a3, Pos(30, 13), Initialized)]), Ctx(4, [], []), tr) == Tree(tr.scopes, tr.events + [Declared(4, a3, Pos(30, 13), Initialized, [])], 5)
  {
    WalkExprsOne(Declare(a3, Pos(30, 13), Initialized), Ctx(4, [], []), tr);
    assert WalkExpr(Declare(a3, Pos(30, 13), Initialized), Ctx(4, [], []), tr) == Tree(tr.scopes, tr.events + [Declared(4, a3, Pos(30, 13), Initialized, [])], 5);
    assert WalkExprs([Declare(a3, Pos(30, 13), Initialized)], Ctx(4, [], []), tr) == Tree(tr.scopes, tr.events + [Declared(4, a3, Pos(30, 13), Initialized, [])], 5);
    assert WalkStmt(Exprs([Declare(a3, Pos(30, 13), Initialized)]), Ctx(4, [], []), tr) == Tree(tr.scopes, tr.events + [Declared(4, a3, Pos(30, 13), Initialized, [])], 5);
  }

  lemma {:induction false} Stmts12(j: string, k: string, n: string, q: string, a1: string, a2: string, a3: string, c1: string, c2: string, c3: string, c4: string, d1: string, tr: Tree, rest: seq<Stmt>)
    requires |tr.scopes| == 13 && tr.arms == 4
    ensures WalkStmts([Exprs([Declare(a2, Pos(25, 13), Initialized)])] + ([Exprs([Call([Argument([Use(a2, Pos(26, 34), false)])])])] + ([While([Use(a2, Pos(27, 16), false)], Exprs([Call([Argument([Declare(a2, Pos(28, 42), Initialized)])])]))] + ([Exprs([Declare(a3, Pos(30, 13), Initialized)])] + (rest)))), Ctx(4, [], []), tr) == WalkStmts(rest, Ctx(4, [], []), Tree(tr.scopes + [Scope(LoopCondition, Some(4))] + [Scope(EmbeddedBody, Some(13))], tr.events + [Declared(4, a2, Pos(25, 13), Initialized, [])] + [Referenced(4, a2, Pos(26, 34), false, false, [])] + [OutAssigned(4, [], [])] + [Referenced(13, a2, Pos(27, 16), false, false, [])] + [Declared(14, a2, Pos(28, 42), Initialized, [4])] + [OutAssigned(14, [], [4])] + [Declared(4, a3, Pos(30, 13), Initialized, [])], 5))
  {
    WalkStmtsCons(Exprs([Declare(a2, Pos(25, 13), Initialized)]), [Exprs([Call([Argument([Use(a2, Pos(26, 34), false)])])])] + ([While([Use(a2, Pos(27, 16), false)], Exprs([Call([Argument([Declare(a2, Pos(28, 42), Initialized)])])]))] + ([Exprs([Declare(a3, Pos(30, 13), Initialized)])] + (rest))), Ctx(4, [], []), tr);
    Walk13(j, k, n, q, a1, a2, a3, c1, c2, c3, c4, d1, tr);
    assert WalkStmt(Exprs([Declare(a2, Pos(25, 13), Initialized)]), Ctx(4, [], []), tr) == Tree(tr.scopes, tr.events + [Declared(4, a2, Pos(25, 13), Initialized, [])], 4);
    WalkStmtsCons(Exprs([Call([Argument([Use(a2, Pos(26, 34), false)])])]), [While([Use(a2, Pos(27, 16), false)], Exprs([Call([Argument([Declare(a2, Pos(28, 42), Initialized)])])]))] + ([Exprs([Declare(a3, Pos(30, 13), Initialized)])] + (rest)), Ctx(4, [], []), Tree(tr.scopes, tr.events + [Declared(4, a2, Pos(25, 13), Initialized, [])], 4));
    Walk14(j, k, n, q, a1, a2, a3, c1, c2, c3, c4, d1, Tree(tr.scopes, tr.events + [Declared(4, a2, Pos(25, 13), Initialized, [])], 4));
    assert WalkStmt(Exprs([Call([Argument([Use(a2, Pos(26, 34), false)])])]), Ctx(4, [], []), Tree(tr.scopes, tr.events + [Declared(4, a2, Pos(25, 13), Initialized, [])], 4)) == Tree(tr.scopes, tr.events + [Declared(4, a2, Pos(25, 13), Initialized, [])] + [Referenced(4, a2, Pos(26, 34), false, false, [])] + [OutAssigned(4, [], [])], 4);
    WalkStmtsCons(While([Use(a2, Pos(27, 16), false)], Exprs([Call([Argument([Declare(a2, Pos(28, 42), Initialized)])])])), [Exprs([Declare(a3, Pos(30, 13), Initialized)])] + (rest), Ctx(4, [], []), Tree(tr.scopes, tr.events + [Declared(4, a2, Pos(25, 13), Initialized, [])] + [Referenced(4, a2, Pos(26, 34), false, false, [])] + [OutAssigned(4, [], [])], 4));
    Walk15(j, k, n, q, a1, a2, a3, c1, c2, c3, c4, d1, Tree(tr.scopes, tr.events + [Declared(4, a2, Pos(25, 13), Initialized, [])] + [Referenced(4, a2, Pos(26, 34), false, false, [])] + [OutAssigned(4, [], [])], 4));
    assert WalkStmt(While([Use(a2, Pos(27, 16), false)], Exprs([Call([Argument([Declare(a2, Pos(28, 42), Initialized)])])])), Ctx(4, [], []), Tree(tr.scopes, tr.events + [Declared(4, a2, Pos(25, 13), Initialized, [])] + [Referenced(4, a2, Pos(26, 34), false, false, [])] + [OutAssigned(4, [], [])], 4)) == Tree(tr.scopes + [Scope(LoopCondition, Some(4))] + [Scope(EmbeddedBody, Some(13))], tr.events + [Declared(4, a2, Pos(25, 13), Initialized, [])] + [Referenced(4, a2, Pos(26, 34), false, false, [])] + [OutAssigned(4, [], [])] + [Referenced(13, a2, Pos(27, 16), false, false, [])] + [Declared(14, a2, Pos(28, 42), Initialized, [4])] + [OutAssigned(14, [], [4])], 5);
    WalkStmtsCons(Exprs([Declare(a3, Pos(30, 13), Initialized)]), rest, Ctx(4, [], []), Tree(tr.scopes + [Scope(LoopCondition, Some(4))] + [Scope(EmbeddedBody, Some(13))], tr.events + [Declared(4, a2, Pos(25, 13), Initialized, [])] + [Referenced(4, a2, Pos(26, 34), false, false, [])] + [OutAssigned(4, [], [])] + [Referenced(13, a2, Pos(27, 16), false, false, [])] + [Declared(14, a2, Pos(28, 42), Initialized, [4])] + [OutAssigned(14, [], [4])], 5));
    Walk16(j, k, n, q, a1, a2, a3, c1, c2, c3, c4, d1, Tree(tr.scopes + [Scope(LoopCondition, Some(4))] + [Scope(EmbeddedBody, Some(13))], tr.events + [Declared(4, a2, Pos(25, 13), Initialized, [])] + [Referenced(4, a2, Pos(26, 34), false, false, [])] + [OutAssigned(4, [], [])] + [Referenced(13, a2, Pos(27, 16), false, false, [])] + [Declared(14, a2, Pos(28, 42), Initialized, [4])] + [OutAssigned(14, [], [4])], 5));
    assert WalkStmt(Exprs([Declare(a3, Pos(30, 13), Initialized)]), Ctx(4, [], []), Tree(tr.scopes + [Scope(LoopCondition, Some(4))] + [Scope(EmbeddedBody, Some(13))], tr.events + [Declared(4, a2, Pos(25, 13), Initialized, [])] + [Referenced(4, a2, Pos(26, 34), false, false, [])] + [OutAssigned(4, [], [])] + [Referenced(13, a2, Pos(27, 16), false, false, [])] + [Declared(14, a2, Pos(28, 42), Initialized, [4])] + [OutAssigned(14, [], [4])], 5)) == Tree(tr.scopes + [Scope(LoopCondition, Some(4))] + [Scope(EmbeddedBody, Some(13))], tr.events + [Declared(4, a2, Pos(25, 13), Initialized, [])] + [Referenced(4, a2, Pos(26, 34), false, false, [])] + [OutAssigned(4, [], [])] + [Referenced(13, a2, Pos(27, 16), false, false, [])] + [Declared(14, a2, Pos(28, 42), Initialized, [4])] + [OutAssigned(14, [], [4])] + [Declared(4, a3, Pos(30, 13), Initialized, [])], 5);
  }

  lemma {:induction false} Walk18(j: string, k: string, n: string, q: string, a1: string, a2: string, a3: string, c1: string, c2: string, c3: string, c4: string, d1: string, tr: Tree)
    requires |tr.scopes| == 15 && tr.arms == 5
    ensures WalkStmt(Exprs([Call([Argument([Use(a3, Pos(31, 34), false)])])]), Ctx(4, [], []), tr) == Tree(tr.scopes, tr.events + [Referenced(4, a3, Pos(31, 34), false, false, [])] + [OutAssigned(4, [], [])], 5)
  {
    WalkExprsOne(Call([Argument([Use(a3, Pos(31, 34), false)])]), Ctx(4, [], []), tr);
    assert OutNames([]) == [];
    WalkArgsOne(Argument([Use(a3, Pos(31, 34), false)]), [], Ctx(4, [], []), tr);
    WalkExprsOne(Use(a3, Pos(31, 34), false), Ctx(4, [], []), tr);
    assert WalkExpr(Use(a3, Pos(31, 34), false), Ctx(4, [], []), tr) == Tree(tr.scopes, tr.events + [Referenced(4, a3, Pos(31, 34), false, false, [])], 5);
    assert WalkExprs([Use(a3, Pos(31, 34), false)], Ctx(4, [], []), tr) == Tree(tr.scopes, tr.events + [Referenced(4, a3, Pos(31, 34), false, false, [])], 5);
    OutNamesOfOne(Use(a3, Pos(31, 34), false));
    OutNamesSnoc([], Argument([Use(a3, Pos(31, 34), false)]));
    assert WalkArgs([Argument([Use(a3, Pos(31, 34), false)])], [], Ctx(4, [], []), tr) == Tree(tr.scopes, tr.events + [Referenced(4, a3, Pos(31, 34), false, false, [])], 5);
    assert OutNames([Argument([Use(a3, Pos(31, 34), false)])]) == [];
    assert WalkExpr(Call([Argument([Use(a3, Pos(31, 34), false)])]), Ctx(4, [], []), tr) == Tree(tr.scopes, tr.events + [Referenced(4, a3, Pos(31, 34), false, false, [])] + [OutAssigned(4, [], [])], 5);
    assert WalkExprs([Call([Argument([Use(a3, Pos(31, 34), false)])])], Ctx(4, [], []), tr) == Tree(tr.scopes, tr.events + [Referenced(4, a3, Pos(31, 34), false, false, [])] + [OutAssigned(4, [], [])], 5);
    assert WalkStmt(Exprs([Call([Argument([Use(a3, Pos(31, 34), false)])])]), Ctx(4, [], []), tr) == Tree(tr.scopes, tr.events + [Referenced(4, a3, Pos(31, 34), false, false, [])] + [OutAssigned(4, [], [])], 5);
  }

  lemma {:induction false} Walk20(j: string, k: string, n: string, q: string, a1: string, a2: string, a3: string, c1: string, c2: string, c3: string, c4: string, d1: string, tr: Tree)
    requires |tr.scopes| == 17 && tr.arms == 6
    ensures WalkStmt(Exprs([Call([Argument([Declare(a3, Pos(34, 42), Initialized)])])]), Ctx(16, [5], []), tr) == Tree(tr.scopes, tr.events + [Declared(16, a3, Pos(34, 42), Initialized, [5])] + [OutAssigned(16, [], [5])], 6)
  {
    WalkExprsOne(Call([Argument([Declare(a3, Pos(34, 42), Initialized)])]), Ctx(16, [5], []), tr);
    assert OutNames([]) == [];
    WalkArgsOne(Argument([Declare(a3, Pos(34, 42), Initialized)]), [], Ctx(16, [5], []), tr);
    WalkExprsOne(Declare(a3, Pos(34, 42), Initialized), Ctx(16, [5], []), tr);
    assert WalkExpr(Declare(a3, Pos(34, 42), Initialized), Ctx(16, [5], []), tr) == Tree(tr.scopes, tr.events + [Declared(16, a3, Pos(34, 42), Initialized, [5])], 6);
    assert WalkExprs([Declare(a3, Pos(34, 42), Initialized)], Ctx(16, [5], []), tr) == Tree(tr.scopes, tr.events + [Declared(16, a3, Pos(34, 42), Initialized, [5])], 6);
    OutNamesOfOne(Declare(a3, Pos(34, 42), Initialized));
    OutNamesSnoc([], Argument([Declare(a3, Pos(34, 42), Initialized)]));
    assert WalkArgs([Argument([Declare(a3, Pos(34, 42), Initialized)])], [], Ctx(16, [5], []), tr) == Tree(tr.scopes, tr.events + [Declared(16, a3, Pos(34, 42), Initialized, [5])], 6);
    assert OutNames([Argument([Declare(a3, Pos(34, 42), Initialized)])]) == [];
    assert WalkExpr(Call([Argument([Declare(a3, Pos(34, 42), Initialized)])]), Ctx(16, [5], []), tr) == Tree(tr.scopes, tr.events + [Declared(16, a3, Pos(34, 42), Initialized, [5])] + [OutAssigned(16, [], [5])], 6);
    assert WalkExprs([Call([Argument([Declare(a3, Pos(34, 42), Initialized)])])], Ctx(16, [5], []), tr) == Tree(tr.scopes, tr.events + [Declared(16, a3, Pos(34, 42), Initialized, [5])] + [OutAssigned(16, [], [5])], 6);
    assert WalkStmt(Exprs([Call([Argument([Declare(a3, Pos(34, 42), Initialized)])])]), Ctx(16, [5], []), tr) == Tree(tr.scopes, tr.events + [Declared(16, a3, Pos(34, 42), Initialized, [5])] + [OutAssigned(16, [], [5])], 6);
  }

  lemma {:induction false} Walk19(j: string, k: string, n: string, q: string, a1: string, a2: string, a3: string, c1: string, c2: string, c3: string, c4: string, d1: string, tr: Tree)
    requires |tr.scopes| == 15 && tr.arms == 5
    ensures WalkStmt(While([Use(a2, Pos(32, 16), false)], Block([Exprs([Call([Argument([Declare(a3, Pos(34, 42), Initialized)])])])])), Ctx(4, [], []), tr) == Tree(tr.scopes + [Scope(LoopCondition, Some(4))] + [Scope(BlockBody, Some(15))], tr.events + [Referenced(15, a2, Pos(32, 16), false, false, [])] + [Declared(16, a3, Pos(34, 42), Initialized, [5])] + [OutAssigned(16, [], [5])], 6)
  {
    WalkExprsOne(Use(a2, Pos(32, 16), false), Ctx(15, [], []), Tree(tr.scopes + [Scope(LoopCondition, Some(4))], tr.events, 5));
    assert WalkExpr(Use(a2, Pos(32, 16), false), Ctx(15, [], []), Tree(tr.scopes + [Scope(LoopCondition, Some(4))], tr.events, 5)) == Tree(tr.scopes + [Scope(LoopCondition, Some(4))], tr.events + [Referenced(15, a2, Pos(32, 16), false, false, [])], 5);
    assert WalkExprs([Use(a2, Pos(32, 16), false)], Ctx(15, [], []), Tree(tr.scopes + [Scope(LoopCondition, Some(4))], tr.events, 5)) == Tree(tr.scopes + [Scope(LoopCondition, Some(4))], tr.events + [Referenced(15, a2, Pos(32, 16), false, false, [])], 5);
    assert [] + [5] == [5];
    WalkStmtsOne(Exprs([Call([Argument([Declare(a3, Pos(34, 42), Initialized)])])]), Ctx(16, [5], []), Tree(tr.scopes + [Scope(LoopCondition, Some(4))] + [Scope(BlockBody, Some(15))], tr.events + [Referenced(15, a2, Pos(32, 16), false, false, [])], 6));
    Walk20(j, k, n, q, a1, a2, a3, c1, c2, c3, c4, d1, Tree(tr.scopes + [Scope(LoopCondition, Some(4))] + [Scope(BlockBody, Some(15))], tr.events + [Referenced(15, a2, Pos(32, 16), false, false, [])], 6));
    assert WalkStmt(Exprs([Call([Argument([Declare(a3, Pos(34, 42), Initialized)])])]), Ctx(16, [5], []), Tree(tr.scopes + [Scope(LoopCondition, Some(4))] + [Scope(BlockBody, Some(15))], tr.events + [Referenced(15, a2, Pos(32, 16), false, false, [])], 6)) == Tree(tr.scopes + [Scope(LoopCondition, Some(4))] + [Scope(BlockBody, Some(15))], tr.events + [Referenced(15, a2, Pos(32, 16), false, false, [])] + [Declared(16, a3, Pos(34, 42), Initialized, [5])] + [OutAssigned(16, [], [5])], 6);
    assert WalkEmbedded(Block([Exprs([Call([Argument([Declare(a3, Pos(34, 42), Initialized)])])])]), Ctx(15, [5], []), Tree(tr.scopes + [Scope(LoopCondition, Some(4))], tr.events + [Referenced(15, a2, Pos(32, 16), false, false, [])], 6)) == Tree(tr.scopes + [Scope(LoopCondition, Some(4))] + [Scope(BlockBody, Some(15))], tr.events + [Referenced(15, a2, Pos(32, 16), false, false, [])] + [Declared(16, a3, Pos(34, 42), Initialized, [5])] + [OutAssigned(16, [], [5])], 6);
    assert WalkStmt(While([Use(a2, Pos(32, 16), false)], Block([Exprs([Call([Argument([Declare(a3, Pos(34, 42), Initialized)])])])])), Ctx(4, [], []), tr) == Tree(tr.scopes + [Scope(LoopCondition, Some(4))] + [Scope(BlockBody, Some(15))], tr.events + [Referenced(15, a2, Pos(32, 16), false, false, [])] + [Declared(16, a3, Pos(34, 42), Initialized, [5])] + [OutAssigned(16, [], [5])], 6);
  }

  lemma {:induction false} Walk21(j: string, k: string, n: string, q: string, a1: string, a2: string, a3: string, c1: string, c2: string, c3: string, c4: string, d1: string, tr: Tree)
    requires |tr.scopes| == 17 && tr.arms == 6
    ensures WalkStmt(While([Declare(c1, Pos(37, 22), Initialized)] + ([Declare(c1, Pos(37, 42), Initialized)]), Exprs([])), Ctx(4, [], []), tr) == Tree(tr.scopes + [Scope(LoopCondition, Some(4))] + [Scope(EmbeddedBody, Some(17))], tr.events + [Declared(17, c1, Pos(37, 22), Initialized, [])] + [Declared(17, c1, Pos(37, 42), Initialized, [])], 7)
  {
    WalkExprsCons(Declare(c1, Pos(37, 22), Initialized), [Declare(c1, Pos(37, 42), Initialized)], Ctx(17, [], []), Tree(tr.scopes + [Scope(LoopCondition, Some(4))], tr.events, 6));
    assert WalkExpr(Declare(c1, Pos(37, 22), Initialized), Ctx(17, [], []), Tree(tr.scopes + [Scope(LoopCondition, Some(4))], tr.events, 6)) == Tree(tr.scopes + [Scope(LoopCondition, Some(4))], tr.events + [Declared(17, c1, Pos(37, 22), Initialized, [])], 6);
    WalkExprsOne(Declare(c1, Pos(37, 42), Initialized), Ctx(17, [], []), Tree(tr.scopes + [Scope(LoopCondition, Some(4))], tr.events + [Declared(17, c1, Pos(37, 22), Initialized, [])], 6));
    assert WalkExpr(Declare(c1, Pos(37, 42), Initialized), Ctx(17, [], []), Tree(tr.scopes + [Scope(LoopCondition, Some(4))], tr.events + [Declared(17, c1, Pos(37, 22), Initialized, [])], 6)) == Tree(tr.scopes + [Scope(LoopCondition, Some(4))], tr.events + [Declared(17, c1, Pos(37, 22), Initialized, [])] + [Declared(17, c1, Pos(37, 42), Initialized, [])], 6);
    assert WalkExprs([Declare(c1, Pos(37, 22), Initialized)] + ([Declare(c1, Pos(37, 42), Initialized)]), Ctx(17, [], []), Tree(tr.scopes + [Scope(LoopCondition, Some(4))], tr.events, 6)) == Tree(tr.scopes + [Scope(LoopCondition, Some(4))], tr.events + [Declared(17, c1, Pos(37, 22), Initialized, [])] + [Declared(17, c1, Pos(37, 42), Initialized, [])], 6);
    assert [] + [6] == [6];
    assert WalkStmt(Exprs([]), Ctx(18, [6], []), Tree(tr.scopes + [Scope(LoopCondition, Some(4))] + [Scope(EmbeddedBody, Some(17))], tr.events + [Declared(17, c1, Pos(37, 22), Initialized, [])] + [Declared(17, c1, Pos(37, 42), Initialized, [])], 7)) == Tree(tr.scopes + [Scope(LoopCondition, Some(4))] + [Scope(EmbeddedBody, Some(17))], tr.events + [Declared(17, c1, Pos(37, 22), Initialized, [])] + [Declared(17, c1, Pos(37, 42), Initialized, [])], 7);
    assert WalkEmbedded(Exprs([]), Ctx(17, [6], []), Tree(tr.scopes + [Scope(LoopCondition, Some(4))], tr.events + [Declared(17, c1, Pos(37, 22), Initialized, [])] + [Declared(17, c1, Pos(37, 42), Initialized, [])], 7)) == Tree(tr.scopes + [Scope(LoopCondition, Some(4))] + [Scope(EmbeddedBody, Some(17))], tr.events + [Declared(17, c1, Pos(37, 22), Initialized, [])] + [Declared(17, c1, Pos(37, 42), Initialized, [])], 7);
    assert WalkStmt(While([Declare(c1, Pos(37, 22), Initialized)] + ([Declare(c1, Pos(37, 42), Initialized)]), Exprs([])), Ctx(4, [], []), tr) == Tree(tr.scopes + [Scope(LoopCondition, Some(4))] + [Scope(EmbeddedBody, Some(17))], tr.events + [Declared(17, c1, Pos(37, 22), Initialized, [])] + [Declared(17, c1, Pos(37, 42), Initialized, [])], 7);
  }

  lemma {:induction false} Walk22(j: string, k: string, n: string, q: string, a1: string, a2: string, a3: string, c1: string, c2: string, c3: string, c4: string, d1: string, tr: Tree)
    requires |tr.scopes| == 19 && tr.arms == 7
    ensures WalkStmt(While([Declare(c2, Pos(40, 21), Initialized)], Exprs([Call([Argument([Declare(c2, Pos(41, 42), Initialized)])])])), Ctx(4, [], []), tr) == Tree(tr.scopes + [Scope(LoopCondition, Some(4))] + [Scope(EmbeddedBody, Some(19))], tr.events + [Declared(19, c2, Pos(40, 21), Initialized, [])] + [Declared(20, c2, Pos(41, 42), Initialized, [7])] + [OutAssigned(20, [], [7])], 8)
  {
    WalkExprsOne(Declare(c2, Pos(40, 21), Initialized), Ctx(19, [], []), Tree(tr.scopes + [Scope(LoopCondition, Some(4))], tr.events, 7));
    assert WalkExpr(Declare(c2, Pos(40, 21), Initialized), Ctx(19, [], []), Tree(tr.scopes + [Scope(LoopCondition, Some(4))], tr.events, 7)) == Tree(tr.scopes + [Scope(LoopCondition, Some(4))], tr.events + [Declared(19, c2, Pos(40, 21), Initialized, [])], 7);
    assert WalkExprs([Declare(c2, Pos(40, 21), Initialized)], Ctx(19, [], []), Tree(tr.scopes + [Scope(LoopCondition, Some(4))], tr.events, 7)) == Tree(tr.scopes + [Scope(LoopCondition, Some(4))], tr.events + [Declared(19, c2, Pos(40, 21), Initialized, [])], 7);
    assert [] + [7] == [7];
    WalkExprsOne(Call([Argument([Declare(c2, Pos(41, 42), Initialized)])]), Ctx(20, [7], []), Tree(tr.scopes + [Scope(LoopCondition, Some(4))] + [Scope(EmbeddedBody, Some(19))], tr.events + [Declared(19, c2, Pos(40, 21), Initialized, [])], 8));
    assert OutNames([]) == [];
    WalkArgsOne(Argument([Declare(c2, Pos(41, 42), Initialized)]), [], Ctx(20, [7], []), Tree(tr.scopes + [Scope(LoopCondition, Some(4))] + [Scope(EmbeddedBody, Some(19))], tr.events + [Declared(19, c2, Pos(40, 21), Initialized, [])], 8));
    WalkExprsOne(Declare(c2, Pos(41, 42), Initialized), Ctx(20, [7], []), Tree(tr.scopes + [Scope(LoopCondition, Some(4))] + [Scope(EmbeddedBody, Some(19))], tr.events + [Declared(19, c2, Pos(40, 21), Initialized, [])], 8));
    assert WalkExpr(Declare(c2, Pos(41, 42), Initialized), Ctx(20, [7], []), Tree(tr.scopes + [Scope(LoopCondition, Some(4))] + [Scope(EmbeddedBody, Some(19))], tr.events + [Declared(19, c2, Pos(40, 21), Initialized, [])], 8)) == Tree(tr.scopes + [Scope(LoopCondition, Some(4))] + [Scope(EmbeddedBody, Some(19))], tr.events + [Declared(19, c2, Pos(40, 21), Initialized, [])] + [Declared(20, c2, Pos(41, 42), Initialized, [7])], 8);
    assert WalkExprs([Declare(c2, Pos(41, 42), Initialized)], Ctx(20, [7], []), Tree(tr.scopes + [Scope(LoopCondition, Some(4))] + [Scope(EmbeddedBody, Some(19))], tr.events + [Declared(19, c2, Pos(40, 21), Initialized, [])], 8)) == Tree(tr.scopes + [Scope(LoopCondition, Some(4))] + [Scope(EmbeddedBody, Some(19))], tr.events + [Declared(19, c2, Pos(40, 21), Initialized, [])] + [Declared(20, c2, Pos(41, 42), Initialized, [7])], 8);
    OutNamesOfOne(Declare(c2, Pos(41, 42), Initialized));
    OutNamesSnoc([], Argument([Declare(c2, Pos(41, 42), Initialized)]));
    assert WalkArgs([Argument([Declare(c2, Pos(41, 42), Initialized)])], [], Ctx(20, [7], []), Tree(tr.scopes + [Scope(LoopCondition, Some(4))] + [Scope(EmbeddedBody, Some(19))], tr.events + [Declared(19, c2, Pos(40, 21), Initialized, [])], 8)) == Tree(tr.scopes + [Scope(LoopCondition, Some(4))] + [Scope(EmbeddedBody, Some(19))], tr.events + [Declared(19, c2, Pos(40, 21), Initialized, [])] + [Declared(20, c2, Pos(41, 42), Initialized, [7])], 8);
    assert OutNames([Argument([Declare(c2, Pos(41, 42), Initialized)])]) == [];
    assert WalkExpr(Call([Argument([Declare(c2, Pos(41, 42), Initialized)])]), Ctx(20, [7], []), Tree(tr.scopes + [Scope(LoopCondition, Some(4))] + [Scope(EmbeddedBody, Some(19))], tr.events + [Declared(19, c2, Pos(40, 21), Initialized, [])], 8)) == Tree(tr.scopes + [Scope(LoopCondition, Some(4))] + [Scope(EmbeddedBody, Some(19))], tr.events + [Declared(19, c2, Pos(40, 21), Initialized, [])] + [Declared(20, c2, Pos(41, 42), Initialized, [7])] + [OutAssigned(20, [], [7])], 8);
    assert WalkExprs([Call([Argument([Declare(c2, Pos(41, 42), Initialized)])])], Ctx(20, [7], []), Tree(tr.scopes + [Scope(LoopCondition, Some(4))] + [Scope(EmbeddedBody, Some(19))], tr.events + [Declared(19, c2, Pos(40, 21), Initialized, [])], 8)) == Tree(tr.scopes + [Scope(LoopCondition, Some(4))] + [Scope(EmbeddedBody, Some(19))], tr.events + [Declared(19, c2, Pos(40, 21), Initialized, [])] + [Declared(20, c2, Pos(41, 42), Initialized, [7])] + [OutAssigned(20, [], [7])], 8);
    assert WalkStmt(Exprs([Call([Argument([Declare(c2, Pos(41, 42), Initialized)])])]), Ctx(20, [7], []), Tree(tr.scopes + [Scope(LoopCondition, Some(4))] + [Scope(EmbeddedBody, Some(19))], tr.events + [Declared(19, c2, Pos(40, 21), Initialized, [])], 8)) == Tree(tr.scopes + [Scope(LoopCondition, Some(4))] + [Scope(EmbeddedBody, Some(19))], tr.events + [Declared(19, c2, Pos(40, 21), Initialized, [])] + [Declared(20, c2, Pos(41, 42), Initialized, [7])] + [OutAssigned(20, [], [7])], 8);
    assert WalkEmbedded(Exprs([Call([Argument([Declare(c2, Pos(41, 42), Initialized)])])]), Ctx(19, [7], []), Tree(tr.scopes + [Scope(LoopCondition, Some(4))], tr.events + [Declared(19, c2, Pos(40, 21), Initialized, [])], 8)) == Tree(tr.scopes + [Scope(LoopCondition, Some(4))] + [Scope(EmbeddedBody, Some(19))], tr.events + [Declared(19, c2, Pos(40, 21), Initialized, [])] + [Declared(20, c2, Pos(41, 42), Initialized, [7])] + [OutAssigned(20, [], [7])], 8);
    assert WalkStmt(While([Declare(c2, Pos(40, 21), Initialized)], Exprs([Call([Argument([Declare(c2, Pos(41, 42), Initialized)])])])), Ctx(4, [], []), tr) == Tree(tr.scopes + [Scope(LoopCondition, Some(4))] + [Scope(EmbeddedBody, Some(19))], tr.events + [Declared(19, c2, Pos(40, 21), Initialized, [])] + [Declared(20, c2, Pos(41, 42), Initialized, [7])] + [OutAssigned(20, [], [7])], 8);
  }

  lemma {:induction false} Stmts17(j: string, k: string, n: string, q: string, a1: string, a2: string, a3: string, c1: string, c2: string, c3: string, c4: string, d1: string, tr: Tree, rest: seq<Stmt>)
    requires |tr.scopes| == 15 && tr.arms == 5
    ensures WalkStmts([Exprs([Call([Argument([Use(a3, Pos(31, 34), false)])])])] + ([While([Use(a2, Pos(32, 16), false)], Block([Exprs([Call([Argument([Declare(a3, Pos(34, 42), Initialized)])])])]))] + ([While([Declare(c1, Pos(37, 22), Initialized)] + ([Declare(c1, Pos(37, 42), Initialized)]), Exprs([]))] + ([While([Declare(c2, Pos(40, 21), Initialized)], Exprs([Call([Argument([Declare(c2, Pos(41, 42), Initialized)])])]))] + (rest)))), Ctx(4, [], []), tr) == WalkStmts(rest, Ctx(4, [], []), Tree(tr.scopes + [Scope(LoopCondition, Some(4))] + [Scope(BlockBody, Some(15))] + [Scope(LoopCondition, Some(4))] + [Scope(EmbeddedBody, Some(17))] + [Scope(LoopCondition, Some(4))] + [Scope(EmbeddedBody, Some(19))], tr.events + [Referenced(4, a3, Pos(31, 34), false, false, [])] + [OutAssigned(4, [], [])] + [Referenced(15, a2, Pos(32, 16), false, false, [])] + [Declared(16, a3, Pos(34, 42), Initialized, [5])] + [OutAssigned(16, [], [5])] + [Declared(17, c1, Pos(37, 22), Initialized, [])] + [Declared(17, c1, Pos(37, 42), Initialized, [])] + [Declared(19, c2, Pos(40, 21), Initialized, [])] + [Declared(20, c2, Pos(41, 42), Initialized, [7])] + [OutAssigned(20, [], [7])], 8))
  {
    WalkStmtsCons(Exprs([Call([Argument([Use(a3, Pos(31, 34), false)])])]), [While([Use(a2, Pos(32, 16), false)], Block([Exprs([Call([Argument([Declare(a3, Pos(34, 42), Initialized)])])])]))] + ([While([Declare(c1, Pos(37, 22), Initialized)] + ([Declare(c1, Pos(37, 42), Initialized)]), Exprs([]))] + ([While([Declare(c2, Pos(40, 21), Initialized)], Exprs([Call([Argument([Declare(c2, Pos(41, 42), Initialized)])])]))] + (rest))), Ctx(4, [], []), tr);
    Walk18(j, k, n, q, a1, a2, a3, c1, c2, c3, c4, d1, tr);
    assert WalkStmt(Exprs([Call([Argument([Use(a3, Pos(31, 34), false)])])]), Ctx(4, [], []), tr) == Tree(tr.scopes, tr.events + [Referenced(4, a3, Pos(31, 34), false, false, [])] + [OutAssigned(4, [], [])], 5);
    WalkStmtsCons(While([Use(a2, Pos(32, 16), false)], Block([Exprs([Call([Argument([Declare(a3, Pos(34, 42), Initialized)])])])])), [While([Declare(c1, Pos(37, 22), Initialized)] + ([Declare(c1, Pos(37, 42), Initialized)]), Exprs([]))] + ([While([Declare(c2, Pos(40, 21), Initialized)], Exprs([Call([Argument([Declare(c2, Pos(41, 42), Initialized)])])]))] + (rest)), Ctx(4, [], []), Tree(tr.scopes, tr.events + [Referenced(4, a3, Pos(31, 34), false, false, [])] + [OutAssigned(4, [], [])], 5));
    Walk19(j, k, n, q, a1, a2, a3, c1, c2, c3, c4, d1, Tree(tr.scopes, tr.events + [Referenced(4, a3, Pos(31, 34), false, false, [])] + [OutAssigned(4, [], [])], 5));
    assert WalkStmt(While([Use(a2, Pos(32, 16), false)], Block([Exprs([Call([Argument([Declare(a3, Pos(34, 42), Initialized)])])])])), Ctx(4, [], []), Tree(tr.scopes, tr.events + [Referenced(4, a3, Pos(31, 34), false, false, [])] + [OutAssigned(4, [], [])], 5)) == Tree(tr.scopes + [Scope(LoopCondition, Some(4))] + [Scope(BlockBody, Some(15))], tr.events + [Referenced(4, a3, Pos(31, 34), false, false, [])] + [OutAssigned(4, [], [])] + [Referenced(15, a2, Pos(32, 16), false, false, [])] + [Declared(16, a3, Pos(34, 42), Initialized, [5])] + [OutAssigned(16, [], [5])], 6);
    WalkStmtsCons(While([Declare(c1, Pos(37, 22), Initialized)] + ([Declare(c1, Pos(37, 42), Initialized)]), Exprs([])), [While([Declare(c2, Pos(40, 21), Initialized)], Exprs([Call([Argument([Declare(c2, Pos(41, 42), Initialized)])])]))] + (rest), Ctx(4, [], []), Tree(tr.scopes + [Scope(LoopCondition, Some(4))] + [Scope(BlockBody, Some(15))], tr.events + [Referenced(4, a3, Pos(31, 34), false, false, [])] + [OutAssigned(4, [], [])] + [Referenced(15, a2, Pos(32, 16), false, false, [])] + [Declared(16, a3, Pos(34, 42), Initialized, [5])] + [OutAssigned(16, [], [5])], 6));
    Walk21(j, k, n, q, a1, a2, a3, c1, c2, c3, c4, d1, Tree(tr.scopes + [Scope(LoopCondition, Some(4))] + [Scope(BlockBody, Some(15))], tr.events + [Referenced(4, a3, Pos(31, 34), false, false, [])] + [OutAssigned(4, [], [])] + [Referenced(15, a2, Pos(32, 16), false, false, [])] + [Declared(16, a3, Pos(34, 42), Initialized, [5])] + [OutAssigned(16, [], [5])], 6));
    assert WalkStmt(While([Declare(c1, Pos(37, 22), Initialized)] + ([Declare(c1, Pos(37, 42), Initialized)]), Exprs([])), Ctx(4, [], []), Tree(tr.scopes + [Scope(LoopCondition, Some(4))] + [Scope(BlockBody, Some(15))], tr.events + [Referenced(4, a3, Pos(31, 34), false, false, [])] + [OutAssigned(4, [], [])] + [Referenced(15, a2, Pos(32, 16), false, false, [])] + [Declared(16, a3, Pos(34, 42), Initialized, [5])] + [OutAssigned(16, [], [5])], 6)) == Tree(tr.scopes + [Scope(LoopCondition, Some(4))] + [Scope(BlockBody, Some(15))] + [Scope(LoopCondition, Some(4))] + [Scope(EmbeddedBody, Some(17))], tr.events + [Referenced(4, a3, Pos(31, 34), false, false, [])] + [OutAssigned(4, [], [])] + [Referenced(15, a2, Pos(32, 16), false, false, [])] + [Declared(16, a3, Pos(34, 42), Initialized, [5])] + [OutAssigned(16, [], [5])] + [Declared(17, c1, Pos(37, 22), Initialized, [])] + [Declared(17, c1, Pos(37, 42), Initialized, [])], 7);
    WalkStmtsCons(While([Declare(c2, Pos(40, 21), Initialized)], Exprs([Call([Argument([Declare(c2, Pos(41, 42), Initialized)])])])), rest, Ctx(4, [], []), Tree(tr.scopes + [Scope(LoopCondition, Some(4))] + [Scope(BlockBody, Some(15))] + [Scope(LoopCondition, Some(4))] + [Scope(EmbeddedBody, Some(17))], tr.events + [Referenced(4, a3, Pos(31, 34), false, false, [])] + [OutAssigned(4, [], [])] + [Referenced(15, a2, Pos(32, 16), false, false, [])] + [Declared(16, a3, Pos(34, 42), Initialized, [5])] + [OutAssigned(16, [], [5])] + [Declared(17, c1, Pos(37, 22), Initialized, [])] + [Declared(17, c1, Pos(37, 42), Initialized, [])], 7));
    Walk22(j, k, n, q, a1, a2, a3, c1, c2, c3, c4, d1, Tree(tr.scopes + [Scope(LoopCondition, Some(4))] + [Scope(BlockBody, Some(15))] + [Scope(LoopCondition, Some(4))] + [Scope(EmbeddedBody, Some(17))], tr.events + [Referenced(4, a3, Pos(31, 34), false, false, [])] + [OutAssigned(4, [], [])] + [Referenced(15, a2, Pos(32, 16), false, false, [])] + [Declared(16, a3, Pos(34, 42), Initialized, [5])] + [OutAssigned(16, [], [5])] + [Declared(17, c1, Pos(37, 22), Initialized, [])] + [Declared(17, c1, Pos(37, 42), Initialized, [])], 7));
    assert WalkStmt(While([Declare(c2, Pos(40, 21), Initialized)], Exprs([Call([Argument([Declare(c2, Pos(41, 42), Initialized)])])])), Ctx(4, [], []), Tree(tr.scopes + [Scope(LoopCondition, Some(4))] + [Scope(BlockBody, Some(15))] + [Scope(LoopCondition, Some(4))] + [Scope(EmbeddedBody, Some(17))], tr.events + [Referenced(4, a3, Pos(31, 34), false, false, [])] + [OutAssigned(4, [], [])] + [Referenced(15, a2, Pos(32, 16), false, false, [])] + [Declared(16, a3, Pos(34, 42), Initialized, [5])] + [OutAssigned(16, [], [5])] + [Declared(17, c1, Pos(37, 22), Initialized, [])] + [Declared(17, c1, Pos(37, 42), Initialized, [])], 7)) == Tree(tr.scopes + [Scope(LoopCondition, Some(4))] + [Scope(BlockBody, Some(15))] + [Scope(LoopCondition, Some(4))] + [Scope(EmbeddedBody, Some(17))] + [Scope(LoopCondition, Some(4))] + [Scope(EmbeddedBody, Some(19))], tr.events + [Referenced(4, a3, Pos(31, 34), false, false, [])] + [OutAssigned(4, [], [])] + [Referenced(15, a2, Pos(32, 16), false, false, [])] + [Declared(16, a3, Pos(34, 42), Initialized, [5])] + [OutAssigned(16, [], [5])] + [Declared(17, c1, Pos(37, 22), Initialized, [])] + [Declared(17, c1, Pos(37, 42), Initialized, [])] + [Declared(19, c2, Pos(40, 21), Initialized, [])] + [Declared(20, c2, Pos(41, 42), Initialized, [7])] + [OutAssigned(20, [], [7])], 8);
  }

  lemma {:induction false} Walk25(j: string, k: string, n: string, q: string, a1: string, a2: string, a3: string, c1: string, c2: string, c3: string, c4: string, d1: string, tr: Tree)
    requires |tr.scopes| == 23 && tr.arms == 9
    ensures WalkStmt(Exprs([Call([Argument([Declare(c3, Pos(45, 42), Initialized)])])]), Ctx(22, [8], []), tr) == Tree(tr.scopes, tr.events + [Declared(22, c3, Pos(45, 42), Initialized, [8])] + [OutAssigned(22, [], [8])], 9)
  {
    WalkExprsOne(Call([Argument([Declare(c3, Pos(45, 42), Initialized)])]), Ctx(22, [8], []), tr);
    assert OutNames([]) == [];
    WalkArgsOne(Argument([Declare(c3, Pos(45, 42), Initialized)]), [], Ctx(22, [8], []), tr);
    WalkExprsOne(Declare(c3, Pos(45, 42), Initialized), Ctx(22, [8], []), tr);
    assert WalkExpr(Declare(c3, Pos(45, 42), Initialized), Ctx(22, [8], []), tr) == Tree(tr.scopes, tr.events + [Declared(22, c3, Pos(45, 42), Initialized, [8])], 9);
    assert WalkExprs([Declare(c3, Pos(45, 42), Initialized)], Ctx(22, [8], []), tr) == Tree(tr.scopes, tr.events + [Declared(22, c3, Pos(45, 42), Initialized, [8])], 9);
    OutNamesOfOne(Declare(c3, Pos(45, 42), Initialized));
    OutNamesSnoc([], Argument([Declare(c3, Pos(45, 42), Initialized)]));
    assert WalkArgs([Argument([Declare(c3, Pos(45, 42), Initialized)])], [], Ctx(22, [8], []), tr) == Tree(tr.scopes, tr.events + [Declared(22, c3, Pos(45, 42), Initialized, [8])], 9);
    assert OutNames([Argument([Declare(c3, Pos(45, 42), Initialized)])]) == [];
    assert WalkExpr(Call([Argument([Declare(c3, Pos(45, 42), Initialized)])]), Ctx(22, [8], []), tr) == Tree(tr.scopes, tr.events + [Declared(22, c3, Pos(45, 42), Initialized, [8])] + [OutAssigned(22, [], [8])], 9);
    assert WalkExprs([Call([Argument([Declare(c3, Pos(45, 42), Initialized)])])], Ctx(22, [8], []), tr) == Tree(tr.scopes, tr.events + [Declared(22, c3, Pos(45, 42), Initialized, [8])] + [OutAssigned(22, [], [8])], 9);
    assert WalkStmt(Exprs([Call([Argument([Declare(c3, Pos(45, 42), Initialized)])])]), Ctx(22, [8], []), tr) == Tree(tr.scopes, tr.events + [Declared(22, c3, Pos(45, 42), Initialized, [8])] + [OutAssigned(22, [], [8])], 9);
  }

  lemma {:induction false} Walk24(j: string, k: string, n: string, q: string, a1: string, a2: string, a3: string, c1: string, c2: string, c3: string, c4: string, d1: string, tr: Tree)
    requires |tr.scopes| == 21 && tr.arms == 8
    ensures WalkStmt(While([Declare(c3, Pos(43, 21), Initialized)], Block([Exprs([Call([Argument([Declare(c3, Pos(45, 42), Initialized)])])])])), Ctx(4, [], []), tr) == Tree(tr.scopes + [Scope(LoopCondition, Some(4))] + [Scope(BlockBody, Some(21))], tr.events + [Declared(21, c3, Pos(43, 21), Initialized, [])] + [Declared(22, c3, Pos(45, 42), Initialized, [8])] + [OutAssigned(22, [], [8])], 9)
  {
    WalkExprsOne(Declare(c3, Pos(43, 21), Initialized), Ctx(21, [], []), Tree(tr.scopes + [Scope(LoopCondition, Some(4))], tr.events, 8));
    assert WalkExpr(Declare(c3, Pos(43, 21), Initialized), Ctx(21, [], []), Tree(tr.scopes + [Scope(LoopCondition, Some(4))], tr.events, 8)) == Tree(tr.scopes + [Scope(LoopCondition, Some(4))], tr.events + [Declared(21, c3, Pos(43, 21), Initialized, [])], 8);
    assert WalkExprs([Declare(c3, Pos(43, 21), Initialized)], Ctx(21, [], []), Tree(tr.scopes + [Scope(LoopCondition, Some(4))], tr.events, 8)) == Tree(tr.scopes + [Scope(LoopCondition, Some(4))], tr.events + [Declared(21, c3, Pos(43, 21), Initialized, [])], 8);
    assert [] + [8] == [8];
    WalkStmtsOne(Exprs([Call([Argument([Declare(c3, Pos(45, 42), Initialized)])])]), Ctx(22, [8], []), Tree(tr.scopes + [Scope(LoopCondition, Some(4))] + [Scope(BlockBody, Some(21))], tr.events + [Declared(21, c3, Pos(43, 21), Initialized, [])], 9));
    Walk25(j, k, n, q, a1, a2, a3, c1, c2, c3, c4, d1, Tree(tr.scopes + [Scope(LoopCondition, Some(4))] + [Scope(BlockBody, Some(21))], tr.events + [Declared(21, c3, Pos(43, 21), Initialized, [])], 9));
    assert WalkStmt(Exprs([Call([Argument([Declare(c3, Pos(45, 42), Initialized)])])]), Ctx(22, [8], []), Tree(tr.scopes + [Scope(LoopCondition, Some(4))] + [Scope(BlockBody, Some(21))], tr.events + [Declared(21, c3, Pos(43, 21), Initialized, [])], 9)) == Tree(tr.scopes + [Scope(LoopCondition, Some(4))] + [Scope(BlockBody, Some(21))], tr.events + [Declared(21, c3, Pos(43, 21), Initialized, [])] + [Declared(22, c3, Pos(45, 42), Initialized, [8])] + [OutAssigned(22, [], [8])], 9);
    assert WalkEmbedded(Block([Exprs([Call([Argument([Declare(c3, Pos(45, 42), Initialized)])])])]), Ctx(21, [8], []), Tree(tr.scopes + [Scope(LoopCondition, Some(4))], tr.events + [Declared(21, c3, Pos(43, 21), Initialized, [])], 9)) == Tree(tr.scopes + [Scope(LoopCondition, Some(4))] + [Scope(BlockBody, Some(21))], tr.events + [Declared(21, c3, Pos(43, 21), Initialized, [])] + [Declared(22, c3, Pos(45, 42), Initialized, [8])] + [OutAssigned(22, [], [8])], 9);
    assert WalkStmt(While([Declare(c3, Pos(43, 21), Initialized)], Block([Exprs([Call([Argument([Declare(c3, Pos(45, 42), Initialized)])])])])), Ctx(4, [], []), tr) == Tree(tr.scopes + [Scope(LoopCondition, Some(4))] + [Scope(BlockBody, Some(21))], tr.events + [Declared(21, c3, Pos(43, 21), Initialized, [])] + [Declared(22, c3, Pos(45, 42), Initialized, [8])] + [OutAssigned(22, [], [8])], 9);
  }

  lemma {:induction false} Walk27(j: string, k: string, n: string, q: string, a1: string, a2: string, a3: string, c1: string, c2: string, c3: string, c4: string, d1: string, tr: Tree)
    requires |tr.scopes| == 25 && tr.arms == 10
    ensures WalkStmt(Exprs([Declare(c4, Pos(50, 17), Initialized)]), Ctx(24, [9], []), tr) == Tree(tr.scopes, tr.events + [Declared(24, c4, Pos(50, 17), Initialized, [9])], 10)
  {
    WalkExprsOne(Declare(c4, Pos(50, 17), Initialized), Ctx(24, [9], []), tr);
    assert WalkExpr(Declare(c4, Pos(50, 17), Initialized), Ctx(24, [9], []), tr) == Tree(tr.scopes, tr.events + [Declared(24, c4, Pos(50, 17), Initialized, [9])], 10);
    assert WalkExprs([Declare(c4, Pos(50, 17), Initialized)], Ctx(24, [9], []), tr) == Tree(tr.scopes, tr.events + [Declared(24, c4, Pos(50, 17), Initialized, [9])], 10);
    assert WalkStmt(Exprs([Declare(c4, Pos(50, 17), Initialized)]), Ctx(24, [9], []), tr) == Tree(tr.scopes, tr.events + [Declared(24, c4, Pos(50, 17), Initialized, [9])], 10);
  }

  lemma {:induction false} Walk28(j: string, k: string, n: string, q: string, a1: string, a2: string, a3: string, c1: string, c2: string, c3: string, c4: string, d1: string, tr: Tree)
    requires |tr.scopes| == 25 && tr.arms == 10
    ensures WalkStmt(Exprs([Call([Argument([Use(c4, Pos(51, 38), false)])])]), Ctx(24, [9], []), tr) == Tree(tr.scopes, tr.events + [Referenced(24, c4, Pos(51, 38), false, false, [9])] + [OutAssigned(24, [], [9])], 10)
  {
    WalkExprsOne(Call([Argument([Use(c4, Pos(51, 38), false)])]), Ctx(24, [9], []), tr);
    assert OutNames([]) == [];
    WalkArgsOne(Argument([Use(c4, Pos(51, 38), false)]), [], Ctx(24, [9], []), tr);
    WalkExprsOne(Use(c4, Pos(51, 38), false), Ctx(24, [9], []), tr);
    assert WalkExpr(Use(c4, Pos(51, 38), false), Ctx(24, [9], []), tr) == Tree(tr.scopes, tr.events + [Referenced(24, c4, Pos(51, 38), false, false, [9])], 10);
    assert WalkExprs([Use(c4, Pos(51, 38), false)], Ctx(24, [9], []), tr) == Tree(tr.scopes, tr.events + [Referenced(24, c4, Pos(51, 38), false, false, [9])], 10);
    OutNamesOfOne(Use(c4, Pos(51, 38), false));
    OutNamesSnoc([], Argument([Use(c4, Pos(51, 38), false)]));
    assert WalkArgs([Argument([Use(c4, Pos(51, 38), false)])], [], Ctx(24, [9], []), tr) == Tree(tr.scopes, tr.events + [Referenced(24, c4, Pos(51, 38), false, false, [9])], 10);
    assert OutNames([Argument([Use(c4, Pos(51, 38), false)])]) == [];
    assert WalkExpr(Call([Argument([Use(c4, Pos(51, 38), false)])]), Ctx(24, [9], []), tr) == Tree(tr.scopes, tr.events + [Referenced(24, c4, Pos(51, 38), false, false, [9])] + [OutAssigned(24, [], [9])], 10);
    assert WalkExprs([Call([Argument([Use(c4, Pos(51, 38), false)])])], Ctx(24, [9], []), tr) == Tree(tr.scopes, tr.events + [Referenced(24, c4, Pos(51, 38), false, false, [9])] + [OutAssigned(24, [], [9])], 10);
    assert WalkStmt(Exprs([Call([Argument([Use(c4, Pos(51, 38), false)])])]), Ctx(24, [9], []), tr) == Tree(tr.scopes, tr.events + [Referenced(24, c4, Pos(51, 38), false, false, [9])] + [OutAssigned(24, [], [9])], 10);
  }

  lemma {:induction false} Walk26(j: string, k: string, n: string, q: string, a1: string, a2: string, a3: string, c1: string, c2: string, c3: string, c4: string, d1: string, tr: Tree)
    requires |tr.scopes| == 23 && tr.arms == 9
    ensures WalkStmt(While([Declare(c4, Pos(48, 21), Initialized)], Block([Exprs([Declare(c4, Pos(50, 17), Initialized)])] + ([Exprs([Call([Argument([Use(c4, Pos(51, 38), false)])])])]))), Ctx(4, [], []), tr) == Tree(tr.scopes + [Scope(LoopCondition, Some(4))] + [Scope(BlockBody, Some(23))], tr.events + [Declared(23, c4, Pos(48, 21), Initialized, [])] + [Declared(24, c4, Pos(50, 17), Initialized, [9])] + [Referenced(24, c4, Pos(51, 38), false, false, [9])] + [OutAssigned(24, [], [9])], 10)
  {
    WalkExprsOne(Declare(c4, Pos(48, 21), Initialized), Ctx(23, [], []), Tree(tr.scopes + [Scope(LoopCondition, Some(4))], tr.events, 9));
    assert WalkExpr(Declare(c4, Pos(48, 21), Initialized), Ctx(23, [], []), Tree(tr.scopes + [Scope(LoopCondition, Some(4))], tr.events, 9)) == Tree(tr.scopes + [Scope(LoopCondition, Some(4))], tr.events + [Declared(23, c4, Pos(48, 21), Initialized, [])], 9);
    assert WalkExprs([Declare(c4, Pos(48, 21), Initialized)], Ctx(23, [], []), Tree(tr.scopes + [Scope(LoopCondition, Some(4))], tr.events, 9)) == Tree(tr.scopes + [Scope(LoopCondition, Some(4))], tr.events + [Declared(23, c4, Pos(48, 21), Initialized, [])], 9);
    assert [] + [9] == [9];
    WalkStmtsCons(Exprs([Declare(c4, Pos(50, 17), Initialized)]), [Exprs([Call([Argument([Use(c4, Pos(51, 38), false)])])])], Ctx(24, [9], []), Tree(tr.scopes + [Scope(LoopCondition, Some(4))] + [Scope(BlockBody, Some(23))], tr.events + [Declared(23, c4, Pos(48, 21), Initialized, [])], 10));
    Walk27(j, k, n, q, a1, a2, a3, c1, c2, c3, c4, d1, Tree(tr.scopes + [Scope(LoopCondition, Some(4))] + [Scope(BlockBody, Some(23))], tr.events + [Declared(23, c4, Pos(48, 21), Initialized, [])], 10));
    assert WalkStmt(Exprs([Declare(c4, Pos(50, 17), Initialized)]), Ctx(24, [9], []), Tree(tr.scopes + [Scope(LoopCondition, Some(4))] + [Scope(BlockBody, Some(23))], tr.events + [Declared(23, c4, Pos(48, 21), Initialized, [])], 10)) == Tree(tr.scopes + [Scope(LoopCondition, Some(4))] + [Scope(BlockBody, Some(23))], tr.events + [Declared(23, c4, Pos(48, 21), Initialized, [])] + [Declared(24, c4, Pos(50, 17), Initialized, [9])], 10);
    WalkStmtsOne(Exprs([Call([Argument([Use(c4, Pos(51, 38), false)])])]), Ctx(24, [9], []), Tree(tr.scopes + [Scope(LoopCondition, Some(4))] + [Scope(BlockBody, Some(23))], tr.events + [Declared(23, c4, Pos(48, 21), Initialized, [])] + [Declared(24, c4, Pos(50, 17), Initialized, [9])], 10));
    Walk28(j, k, n, q, a1, a2, a3, c1, c2, c3, c4, d1, Tree(tr.scopes + [Scope(LoopCondition, Some(4))] + [Scope(BlockBody, Some(23))], tr.events + [Declared(23, c4, Pos(48, 21), Initialized, [])] + [Declared(24, c4, Pos(50, 17), Initialized, [9])], 10));
    assert WalkStmt(Exprs([Call([Argument([Use(c4, Pos(51, 38), false)])])]), Ctx(24, [9], []), Tree(tr.scopes + [Scope(LoopCondition, Some(4))] + [Scope(BlockBody, Some(23))], tr.events + [Declared(23, c4, Pos(48, 21), Initialized, [])] + [Declared(24, c4, Pos(50, 17), Initialized, [9])], 10)) == Tree(tr.scopes + [Scope(LoopCondition, Some(4))] + [Scope(BlockBody, Some(23))], tr.events + [Declared(23, c4, Pos(48, 21), Initialized, [])] + [Declared(24, c4, Pos(50, 17), Initialized, [9])] + [Referenced(24, c4, Pos(51, 38), false, false, [9])] + [OutAssigned(24, [], [9])], 10);
    assert WalkEmbedded(Block([Exprs([Declare(c4, Pos(50, 17), Initialized)])] + ([Exprs([Call([Argument([Use(c4, Pos(51, 38), false)])])])])), Ctx(23, [9], []), Tree(tr.scopes + [Scope(LoopCondition, Some(4))], tr.events + [Declared(23, c4, Pos(48, 21), Initialized, [])], 10)) == Tree(tr.scopes + [Scope(LoopCondition, Some(4))] + [Scope(BlockBody, Some(23))], tr.events + [Declared(23, c4, Pos(48, 21), Initialized, [])] + [Declared(24, c4, Pos(50, 17), Initialized, [9])] + [Referenced(24, c4, Pos(51, 38), false, false, [9])] + [OutAssigned(24, [], [9])], 10);
    assert WalkStmt(While([Declare(c4, Pos(48, 21), Initialized)], Block([Exprs([Declare(c4, Pos(50, 17), Initialized)])] + ([Exprs([Call([Argument([Use(c4, Pos(51, 38), false)])])])]))), Ctx(4, [], []), tr) == Tree(tr.scopes + [Scope(LoopCondition, Some(4))] + [Scope(BlockBody, Some(23))], tr.events + [Declared(23, c4, Pos(48, 21), Initialized, [])] + [Declared(24, c4, Pos(50, 17), Initialized, [9])] + [Referenced(24, c4, Pos(51, 38), false, false, [9])] + [OutAssigned(24, [], [9])], 10);
  }

  lemma {:induction false} Walk29(j: string, k: string, n: string, q: string, a1: string, a2: string, a3: string, c1: string, c2: string, c3: string, c4: string, d1: string, tr: Tree)
    requires |tr.scopes| == 25 && tr.arms == 10
    ensures WalkStmt(While([Use(a2, Pos(54, 16), false)], Exprs([Call([Argument([Declare(d1, Pos(55, 43), Initialized)] + ([Declare(d1, Pos(55, 58), Initialized)]))])])), Ctx(4, [], []), tr) == Tree(tr.scopes + [Scope(LoopCondition, Some(4))] + [Scope(EmbeddedBody, Some(25))], tr.events + [Referenced(25, a2, Pos(54, 16), false, false, [])] + [Declared(26, d1, Pos(55, 43), Initialized, [10])] + [Declared(26, d1, Pos(55, 58), Initialized, [10])] + [OutAssigned(26, [], [10])], 11)
  {
    WalkExprsOne(Use(a2, Pos(54, 16), false), Ctx(25, [], []), Tree(tr.scopes + [Scope(LoopCondition, Some(4))], tr.events, 10));
    assert WalkExpr(Use(a2, Pos(54, 16), false), Ctx(25, [], []), Tree(tr.scopes + [Scope(LoopCondition, Some(4))], tr.events, 10)) == Tree(tr.scopes + [Scope(LoopCondition, Some(4))], tr.events + [Referenced(25, a2, Pos(54, 16), false, false, [])], 10);
    assert WalkExprs([Use(a2, Pos(54, 16), false)], Ctx(25, [], []), Tree(tr.scopes + [Scope(LoopCondition, Some(4))], tr.events, 10)) == Tree(tr.scopes + [Scope(LoopCondition, Some(4))], tr.events + [Referenced(25, a2, Pos(54, 16), false, false, [])], 10);
    assert [] + [10] == [10];
    WalkExprsOne(Call([Argument([Declare(d1, Pos(55, 43), Initialized)] + ([Declare(d1, Pos(55, 58), Initialized)]))]), Ctx(26, [10], []), Tree(tr.scopes + [Scope(LoopCondition, Some(4))] + [Scope(EmbeddedBody, Some(25))], tr.events + [Referenced(25, a2, Pos(54, 16), false, false, [])], 11));
    assert OutNames([]) == [];
    WalkArgsOne(Argument([Declare(d1, Pos(55, 43), Initialized)] + ([Declare(d1, Pos(55, 58), Initialized)])), [], Ctx(26, [10], []), Tree(tr.scopes + [Scope(LoopCondition, Some(4))] + [Scope(EmbeddedBody, Some(25))], tr.events + [Referenced(25, a2, Pos(54, 16), false, false, [])], 11));
    WalkExprsCons(Declare(d1, Pos(55, 43), Initialized), [Declare(d1, Pos(55, 58), Initialized)], Ctx(26, [10], []), Tree(tr.scopes + [Scope(LoopCondition, Some(4))] + [Scope(EmbeddedBody, Some(25))], tr.events + [Referenced(25, a2, Pos(54, 16), false, false, [])], 11));
    assert WalkExpr(Declare(d1, Pos(55, 43), Initialized), Ctx(26, [10], []), Tree(tr.scopes + [Scope(LoopCondition, Some(4))] + [Scope(EmbeddedBody, Some(25))], tr.events + [Referenced(25, a2, Pos(54, 16), false, false, [])], 11)) == Tree(tr.scopes + [Scope(LoopCondition, Some(4))] + [Scope(EmbeddedBody, Some(25))], tr.events + [Referenced(25, a2, Pos(54, 16), false, false, [])] + [Declared(26, d1, Pos(55, 43), Initialized, [10])], 11);
    WalkExprsOne(Declare(d1, Pos(55, 58), Initialized), Ctx(26, [10], []), Tree(tr.scopes + [Scope(LoopCondition, Some(4))] + [Scope(EmbeddedBody, Some(25))], tr.events + [Referenced(25, a2, Pos(54, 16), false, false, [])] + [Declared(26, d1, Pos(55, 43), Initialized, [10])], 11));
    assert WalkExpr(Declare(d1, Pos(55, 58), Initialized), Ctx(26, [10], []), Tree(tr.scopes + [Scope(LoopCondition, Some(4))] + [Scope(EmbeddedBody, Some(25))], tr.events + [Referenced(25, a2, Pos(54, 16), false, false, [])] + [Declared(26, d1, Pos(55, 43), Initialized, [10])], 11)) == Tree(tr.scopes + [Scope(LoopCondition, Some(4))] + [Scope(EmbeddedBody, Some(25))], tr.events + [Referenced(25, a2, Pos(54, 16), false, false, [])] + [Declared(26, d1, Pos(55, 43), Initialized, [10])] + [Declared(26, d1, Pos(55, 58), Initialized, [10])], 11);
    assert WalkExprs([Declare(d1, Pos(55, 43), Initialized)] + ([Declare(d1, Pos(55, 58), Initialized)]), Ctx(26, [10], []), Tree(tr.scopes + [Scope(LoopCondition, Some(4))] + [Scope(EmbeddedBody, Some(25))], tr.events + [Referenced(25, a2, Pos(54, 16), false, false, [])], 11)) == Tree(tr.scopes + [Scope(LoopCondition, Some(4))] + [Scope(EmbeddedBody, Some(25))], tr.events + [Referenced(25, a2, Pos(54, 16), false, false, [])] + [Declared(26, d1, Pos(55, 43), Initialized, [10])] + [Declared(26, d1, Pos(55, 58), Initialized, [10])], 11);
    OutNamesOfCons(Declare(d1, Pos(55, 43), Initialized), [Declare(d1, Pos(55, 58), Initialized)]);
    OutNamesOfOne(Declare(d1, Pos(55, 58), Initialized));
    OutNamesSnoc([], Argument([Declare(d1, Pos(55, 43), Initialized)] + ([Declare(d1, Pos(55, 58), Initialized)])));
    assert WalkArgs([Argument([Declare(d1, Pos(55, 43), Initialized)] + ([Declare(d1, Pos(55, 58), Initialized)]))], [], Ctx(26, [10], []), Tree(tr.scopes + [Scope(LoopCondition, Some(4))] + [Scope(EmbeddedBody, Some(25))], tr.events + [Referenced(25, a2, Pos(54, 16), false, false, [])], 11)) == Tree(tr.scopes + [Scope(LoopCondition, Some(4))] + [Scope(EmbeddedBody, Some(25))], tr.events + [Referenced(25, a2, Pos(54, 16), false, false, [])] + [Declared(26, d1, Pos(55, 43), Initialized, [10])] + [Declared(26, d1, Pos(55, 58), Initialized, [10])], 11);
    assert OutNames([Argument([Declare(d1, Pos(55, 43), Initialized)] + ([Declare(d1, Pos(55, 58), Initialized)]))]) == [];
    assert WalkExpr(Call([Argument([Declare(d1, Pos(55, 43), Initialized)] + ([Declare(d1, Pos(55, 58), Initialized)]))]), Ctx(26, [10], []), Tree(tr.scopes + [Scope(LoopCondition, Some(4))] + [Scope(EmbeddedBody, Some(25))], tr.events + [Referenced(25, a2, Pos(54, 16), false, false, [])], 11)) == Tree(tr.scopes + [Scope(LoopCondition, Some(4))] + [Scope(EmbeddedBody, Some(25))], tr.events + [Referenced(25, a2, Pos(54, 16), false, false, [])] + [Declared(26, d1, Pos(55, 43), Initialized, [10])] + [Declared(26, d1, Pos(55, 58), Initialized, [10])] + [OutAssigned(26, [], [10])], 11);
    assert WalkExprs([Call([Argument([Declare(d1, Pos(55, 43), Initialized)] + ([Declare(d1, Pos(55, 58), Initialized)]))])], Ctx(26, [10], []), Tree(tr.scopes + [Scope(LoopCondition, Some(4))] + [Scope(EmbeddedBody, Some(25))], tr.events + [Referenced(25, a2, Pos(54, 16), false, false, [])], 11)) == Tree(tr.scopes + [Scope(LoopCondition, Some(4))] + [Scope(EmbeddedBody, Some(25))], tr.events + [Referenced(25, a2, Pos(54, 16), false, false, [])] + [Declared(26, d1, Pos(55, 43), Initialized, [10])] + [Declared(26, d1, Pos(55, 58), Initialized, [10])] + [OutAssigned(26, [], [10])], 11);
    assert WalkStmt(Exprs([Call([Argument([Declare(d1, Pos(55, 43), Initialized)] + ([Declare(d1, Pos(55, 58), Initialized)]))])]), Ctx(26, [10], []), Tree(tr.scopes + [Scope(LoopCondition, Some(4))] + [Scope(EmbeddedBody, Some(25))], tr.events + [Referenced(25, a2, Pos(54, 16), false, false, [])], 11)) == Tree(tr.scopes + [Scope(LoopCondition, Some(4))] + [Scope(EmbeddedBody, Some(25))], tr.events + [Referenced(25, a2, Pos(54, 16), false, false, [])] + [Declared(26, d1, Pos(55, 43), Initialized, [10])] + [Declared(26, d1, Pos(55, 58), Initialized, [10])] + [OutAssigned(26, [], [10])], 11);
    assert WalkEmbedded(Exprs([Call([Argument([Declare(d1, Pos(55, 43), Initialized)] + ([Declare(d1, Pos(55, 58), Initialized)]))])]), Ctx(25, [10], []), Tree(tr.scopes + [Scope(LoopCondition, Some(4))], tr.events + [Referenced(25, a2, Pos(54, 16), false, false, [])], 11)) == Tree(tr.scopes + [Scope(LoopCondition, Some(4))] + [Scope(EmbeddedBody, Some(25))], tr.events + [Referenced(25, a2, Pos(54, 16), false, false, [])] + [Declared(26, d1, Pos(55, 43), Initialized, [10])] + [Declared(26, d1, Pos(55, 58), Initialized, [10])] + [OutAssigned(26, [], [10])], 11);
    assert WalkStmt(While([Use(a2, Pos(54, 16), false)], Exprs([Call([Argument([Declare(d1, Pos(55, 43), Initialized)] + ([Declare(d1, Pos(55, 58), Initialized)]))])])), Ctx(4, [], []), tr) == Tree(tr.scopes + [Scope(LoopCondition, Some(4))] + [Scope(EmbeddedBody, Some(25))], tr.events + [Referenced(25, a2, Pos(54, 16), false, false, [])] + [Declared(26, d1, Pos(55, 43), Initialized, [10])] + [Declared(26, d1, Pos(55, 58), Initialized, [10])] + [OutAssigned(26, [], [10])], 11);
  }

  lemma {:induction false} Stmts23(j: string, k: string, n: string, q: string, a1: string, a2: string, a3: string, c1: string, c2: string, c3: string, c4: string, d1: string, tr: Tree)
    requires |tr.scopes| == 21 && tr.arms == 8
    ensures WalkStmts([While([Declare(c3, Pos(43, 21), Initialized)], Block([Exprs([Call([Argument([Declare(c3, Pos(45, 42), Initialized)])])])]))] + ([While([Declare(c4, Pos(48, 21), Initialized)], Block([Exprs([Declare(c4, Pos(50, 17), Initialized)])] + ([Exprs([Call([Argument([Use(c4, Pos(51, 38), false)])])])])))] + ([While([Use(a2, Pos(54, 16), false)], Exprs([Call([Argument([Declare(d1, Pos(55, 43), Initialized)] + ([Declare(d1, Pos(55, 58), Initialized)]))])]))])), Ctx(4, [], []), tr) == Tree(tr.scopes + [Scope(LoopCondition, Some(4))] + [Scope(BlockBody, Some(21))] + [Scope(LoopCondition, Some(4))] + [Scope(BlockBody, Some(23))] + [Scope(LoopCondition, Some(4))] + [Scope(EmbeddedBody, Some(25))], tr.events + [Declared(21, c3, Pos(43, 21), Initialized, [])] + [Declared(22, c3, Pos(45, 42), Initialized, [8])] + [OutAssigned(22, [], [8])] + [Declared(23, c4, Pos(48, 21), Initialized, [])] + [Declared(24, c4, Pos(50, 17), Initialized, [9])] + [Referenced(24, c4, Pos(51, 38), false, false, [9])] + [OutAssigned(24, [], [9])] + [Referenced(25, a2, Pos(54, 16), false, false, [])] + [Declared(26, d1, Pos(55, 43), Initialized, [10])] + [Declared(26, d1, Pos(55, 58), Initialized, [10])] + [OutAssigned(26, [], [10])], 11)
  {
    WalkStmtsCons(While([Declare(c3, Pos(43, 21), Initialized)], Block([Exprs([Call([Argument([Declare(c3, Pos(45, 42), Initialized)])])])])), [While([Declare(c4, Pos(48, 21), Initialized)], Block([Exprs([Declare(c4, Pos(50, 17), Initialized)])] + ([Exprs([Call([Argument([Use(c4, Pos(51, 38), false)])])])])))] + ([While([Use(a2, Pos(54, 16), false)], Exprs([Call([Argument([Declare(d1, Pos(55, 43), Initialized)] + ([Declare(d1, Pos(55, 58), Initialized)]))])]))]), Ctx(4, [], []), tr);
    Walk24(j, k, n, q, a1, a2, a3, c1, c2, c3, c4, d1, tr);
    assert WalkStmt(While([Declare(c3, Pos(43, 21), Initialized)], Block([Exprs([Call([Argument([Declare(c3, Pos(45, 42), Initialized)])])])])), Ctx(4, [], []), tr) == Tree(tr.scopes + [Scope(LoopCondition, Some(4))] + [Scope(BlockBody, Some(21))], tr.events + [Declared(21, c3, Pos(43, 21), Initialized, [])] + [Declared(22, c3, Pos(45, 42), Initialized, [8])] + [OutAssigned(22, [], [8])], 9);
    WalkStmtsCons(While([Declare(c4, Pos(48, 21), Initialized)], Block([Exprs([Declare(c4, Pos(50, 17), Initialized)])] + ([Exprs([Call([Argument([Use(c4, Pos(51, 38), false)])])])]))), [While([Use(a2, Pos(54, 16), false)], Exprs([Call([Argument([Declare(d1, Pos(55, 43), Initialized)] + ([Declare(d1, Pos(55, 58), Initialized)]))])]))], Ctx(4, [], []), Tree(tr.scopes + [Scope(LoopCondition, Some(4))] + [Scope(BlockBody, Some(21))], tr.events + [Declared(21, c3, Pos(43, 21), Initialized, [])] + [Declared(22, c3, Pos(45, 42), Initialized, [8])] + [OutAssigned(22, [], [8])], 9));
    Walk26(j, k, n, q, a1, a2, a3, c1, c2, c3, c4, d1, Tree(tr.scopes + [Scope(LoopCondition, Some(4))] + [Scope(BlockBody, Some(21))], tr.events + [Declared(21, c3, Pos(43, 21), Initialized, [])] + [Declared(22, c3, Pos(45, 42), Initialized, [8])] + [OutAssigned(22, [], [8])], 9));
    assert WalkStmt(While([Declare(c4, Pos(48, 21), Initialized)], Block([Exprs([Declare(c4, Pos(50, 17), Initialized)])] + ([Exprs([Call([Argument([Use(c4, Pos(51, 38), false)])])])]))), Ctx(4, [], []), Tree(tr.scopes + [Scope(LoopCondition, Some(4))] + [Scope(BlockBody, Some(21))], tr.events + [Declared(21, c3, Pos(43, 21), Initialized, [])] + [Declared(22, c3, Pos(45, 42), Initialized, [8])] + [OutAssigned(22, [], [8])], 9)) == Tree(tr.scopes + [Scope(LoopCondition, Some(4))] + [Scope(BlockBody, Some(21))] + [Scope(LoopCondition, Some(4))] + [Scope(BlockBody, Some(23))], tr.events + [Declared(21, c3, Pos(43, 21), Initialized, [])] + [Declared(22, c3, Pos(45, 42), Initialized, [8])] + [OutAssigned(22, [], [8])] + [Declared(23, c4, Pos(48, 21), Initialized, [])] + [Declared(24, c4, Pos(50, 17), Initialized, [9])] + [Referenced(24, c4, Pos(51, 38), false, false, [9])] + [OutAssigned(24, [], [9])], 10);
    WalkStmtsOne(While([Use(a2, Pos(54, 16), false)], Exprs([Call([Argument([Declare(d1, Pos(55, 43), Initialized)] + ([Declare(d1, Pos(55, 58), Initialized)]))])])), Ctx(4, [], []), Tree(tr.scopes + [Scope(LoopCondition, Some(4))] + [Scope(BlockBody, Some(21))] + [Scope(LoopCondition, Some(4))] + [Scope(BlockBody, Some(23))], tr.events + [Declared(21, c3, Pos(43, 21), Initialized, [])] + [Declared(22, c3, Pos(45, 42), Initialized, [8])] + [OutAssigned(22, [], [8])] + [Declared(23, c4, Pos(48, 21), Initialized, [])] + [Declared(24, c4, Pos(50, 17), Initialized, [9])] + [Referenced(24, c4, Pos(51, 38), false, false, [9])] + [OutAssigned(24, [], [9])], 10));
    Walk29(j, k, n, q, a1, a2, a3, c1, c2, c3, c4, d1, Tree(tr.scopes + [Scope(LoopCondition, Some(4))] + [Scope(BlockBody, Some(21))] + [Scope(LoopCondition, Some(4))] + [Scope(BlockBody, Some(23))], tr.events + [Declared(21, c3, Pos(43, 21), Initialized, [])] + [Declared(22, c3, Pos(45, 42), Initialized, [8])] + [OutAssigned(22, [], [8])] + [Declared(23, c4, Pos(48, 21), Initialized, [])] + [Declared(24, c4, Pos(50, 17), Initialized, [9])] + [Referenced(24, c4, Pos(51, 38), false, false, [9])] + [OutAssigned(24, [], [9])], 10));
    assert WalkStmt(While([Use(a2, Pos(54, 16), false)], Exprs([Call([Argument([Declare(d1, Pos(55, 43), Initialized)] + ([Declare(d1, Pos(55, 58), Initialized)]))])])), Ctx(4, [], []), Tree(tr.scopes + [Scope(LoopCondition, Some(4))] + [Scope(BlockBody, Some(21))] + [Scope(LoopCondition, Some(4))] + [Scope(BlockBody, Some(23))], tr.events + [Declared(21, c3, Pos(43, 21), Initialized, [])] + [Declared(22, c3, Pos(45, 42), Initialized, [8])] + [OutAssigned(22, [], [8])] + [Declared(23, c4, Pos(48, 21), Initialized, [])] + [Declared(24, c4, Pos(50, 17), Initialized, [9])] + [Referenced(24, c4, Pos(51, 38), false, false, [9])] + [OutAssigned(24, [], [9])], 10)) == Tree(tr.scopes + [Scope(LoopCondition, Some(4))] + [Scope(BlockBody, Some(21))] + [Scope(LoopCondition, Some(4))] + [Scope(BlockBody, Some(23))] + [Scope(LoopCondition, Some(4))] + [Scope(EmbeddedBody, Some(25))], tr.events + [Declared(21, c3, Pos(43, 21), Initialized, [])] + [Declared(22, c3, Pos(45, 42), Initialized, [8])] + [OutAssigned(22, [], [8])] + [Declared(23, c4, Pos(48, 21), Initialized, [])] + [Declared(24, c4, Pos(50, 17), Initialized, [9])] + [Referenced(24, c4, Pos(51, 38), false, false, [9])] + [OutAssigned(24, [], [9])] + [Referenced(25, a2, Pos(54, 16), false, false, [])] + [Declared(26, d1, Pos(55, 43), Initialized, [10])] + [Declared(26, d1, Pos(55, 58), Initialized, [10])] + [OutAssigned(26, [], [10])], 11);
  }

  lemma {:induction false} Join0(j: string, k: string, n: string, q: string, a1: string, a2: string, a3: string, c1: string, c2: string, c3: string, c4: string, d1: string, evs: seq<Event>)
    ensures evs + Chunk0(j, k, n, q, a1, a2, a3, c1, c2, c3, c4, d1) == evs + [Declared(5, j, Pos(6, 21), Initialized, [])] + [Referenced(5, j, Pos(6, 31), false, false, [])] + [Referenced(6, j, Pos(7, 38), false, false, [0])] + [Declared(6, k, Pos(7, 47), Initialized, [0])] + [Referenced(6, k, Pos(7, 56), false, false, [0])] + [OutAssigned(6, [], [0])] + [Referenced(4, j, Pos(9, 9), true, false, [])] + [Referenced(4, k, Pos(10, 9), true, false, [])]
  {
  }

  lemma {:induction false} Join1(j: string, k: string, n: string, q: string, a1: string, a2: string, a3: string, c1: string, c2: string, c3: string, c4: string, d1: string, evs: seq<Event>)
    ensures evs + Chunk1(j, k, n, q, a1, a2, a3, c1, c2, c3, c4, d1) == evs + [Referenced(7, n, Pos(12, 16), false, false, [])] + [Declared(8, n, Pos(13, 42), Initialized, [1])] + [OutAssigned(8, [], [1])] + [Referenced(9, q, Pos(15, 20), false, false, [])] + [Declared(10, q, Pos(17, 42), Initialized, [2])] + [OutAssigned(10, [], [2])] + [Declared(4, a1, Pos(20, 13), Initialized, [])] + [Referenced(4, a1, Pos(21, 34), false, false, [])]
  {
  }

  lemma {:induction false} Join2(j: string, k: string, n: string, q: string, a1: string, a2: string, a3: string, c1: string, c2: string, c3: string, c4: string, d1: string, evs: seq<Event>)
    ensures evs + Chunk2(j, k, n, q, a1, a2, a3, c1, c2, c3, c4, d1) == evs + [OutAssigned(4, [], [])] + [Declared(11, a1, Pos(22, 21), Initialized, [])] + [Declared(4, a2, Pos(25, 13), Initialized, [])] + [Referenced(4, a2, Pos(26, 34), false, false, [])] + [OutAssigned(4, [], [])] + [Referenced(13, a2, Pos(27, 16), false, false, [])] + [Declared(14, a2, Pos(28, 42), Initialized, [4])] + [OutAssigned(14, [], [4])]
  {
  }

  lemma {:induction false} Join3(j: string, k: string, n: string, q: string, a1: string, a2: string, a3: string, c1: string, c2: string, c3: string, c4: string, d1: string, evs: seq<Event>)
    ensures evs + Chunk3(j, k, n, q, a1, a2, a3, c1, c2, c3, c4, d1) == evs + [Declared(4, a3, Pos(30, 13), Initialized, [])] + [Referenced(4, a3, Pos(31, 34), false, false, [])] + [OutAssigned(4, [], [])] + [Referenced(15, a2, Pos(32, 16), false, false, [])] + [Declared(16, a3, Pos(34, 42), Initialized, [5])] + [OutAssigned(16, [], [5])] + [Declared(17, c1, Pos(37, 22), Initialized, [])] + [Declared(17, c1, Pos(37, 42), Initialized, [])]
  {
  }

  lemma {:induction false} Join4(j: string, k: string, n: string, q: string, a1: string, a2: string, a3: string, c1: string, c2: string, c3: string, c4: string, d1: string, evs: seq<Event>)
    ensures evs + Chunk4(j, k, n, q, a1, a2, a3, c1, c2, c3, c4, d1) == evs + [Declared(19, c2, Pos(40, 21), Initialized, [])] + [Declared(20, c2, Pos(41, 42), Initialized, [7])] + [OutAssigned(20, [], [7])] + [Declared(21, c3, Pos(43, 21), Initialized, [])] + [Declared(22, c3, Pos(45, 42), Initialized, [8])] + [OutAssigned(22, [], [8])] + [Declared(23, c4, Pos(48, 21), Initialized, [])] + [Declared(24, c4, Pos(50, 17), Initialized, [9])]
  {
  }

  lemma {:induction false} Join5(j: string, k: string, n: string, q: string, a1: string, a2: string, a3: string, c1: string, c2: string, c3: string, c4: string, d1: string, evs: seq<Event>)
    ensures evs + Chunk5(j, k, n, q, a1, a2, a3, c1, c2, c3, c4, d1) == evs + [Referenced(24, c4, Pos(51, 38), false, false, [9])] + [OutAssigned(24, [], [9])] + [Referenced(25, a2, Pos(54, 16), false, false, [])] + [Declared(26, d1, Pos(55, 43), Initialized, [10])] + [Declared(26, d1, Pos(55, 58), Initialized, [10])] + [OutAssigned(26, [], [10])]
  {
  }

  /** The trace, event by event. */
  lemma {:induction false} Flat(j: string, k: string, n: string, q: string, a1: string, a2: string, a3: string, c1: string, c2: string, c3: string, c4: string, d1: string)
    ensures [] + [Declared(5, j, Pos(6, 21), Initialized, [])] + [Referenced(5, j, Pos(6, 31), false, false, [])] + [Referenced(6, j, Pos(7, 38), false, false, [0])] + [Declared(6, k, Pos(7, 47), Initialized, [0])] + [Referenced(6, k, Pos(7, 56), false, false, [0])] + [OutAssigned(6, [], [0])] + [Referenced(4, j, Pos(9, 9), true, false, [])] + [Referenced(4, k, Pos(10, 9), true, false, [])] + [Referenced(7, n, Pos(12, 16), false, false, [])] + [Declared(8, n, Pos(13, 42), Initialized, [1])] + [OutAssigned(8, [], [1])] + [Referenced(9, q, Pos(15, 20), false, false, [])] + [Declared(10, q, Pos(17, 42), Initialized, [2])] + [OutAssigned(10, [], [2])] + [Declared(4, a1, Pos(20, 13), Initialized, [])] + [Referenced(4, a1, Pos(21, 34), false, false, [])] + [OutAssigned(4, [], [])] + [Declared(11, a1, Pos(22, 21), Initialized, [])] + [Declared(4, a2, Pos(25, 13), Initialized, [])] + [Referenced(4, a2, Pos(26, 34), false, false, [])] + [OutAssigned(4, [], [])] + [Referenced(13, a2, Pos(27, 16), false, false, [])] + [Declared(14, a2, Pos(28, 42), Initialized, [4])] + [OutAssigned(14, [], [4])] + [Declared(4, a3, Pos(30, 13), Initialized, [])] + [Referenced(4, a3, Pos(31, 34), false, false, [])] + [OutAssigned(4, [], [])] + [Referenced(15, a2, Pos(32, 16), false, false, [])] + [Declared(16, a3, Pos(34, 42), Initialized, [5])] + [OutAssigned(16, [], [5])] + [Declared(17, c1, Pos(37, 22), Initialized, [])] + [Declared(17, c1, Pos(37, 42), Initialized, [])] + [Declared(19, c2, Pos(40, 21), Initialized, [])] + [Declared(20, c2, Pos(41, 42), Initialized, [7])] + [OutAssigned(20, [], [7])] + [Declared(21, c3, Pos(43, 21), Initialized, [])] + [Declared(22, c3, Pos(45, 42), Initialized, [8])] + [OutAssigned(22, [], [8])] + [Declared(23, c4, Pos(48, 21), Initialized, [])] + [Declared(24, c4, Pos(50, 17), Initialized, [9])] + [Referenced(24, c4, Pos(51, 38), false, false, [9])] + [OutAssigned(24, [], [9])] + [Referenced(25, a2, Pos(54, 16), false, false, [])] + [Declared(26, d1, Pos(55, 43), Initialized, [10])] + [Declared(26, d1, Pos(55, 58), Initialized, [10])] + [OutAssigned(26, [], [10])] == Trace(j, k, n, q, a1, a2, a3, c1, c2, c3, c4, d1)
  {
    Join0(j, k, n, q, a1, a2, a3, c1, c2, c3, c4, d1, []);
    Join1(j, k, n, q, a1, a2, a3, c1, c2, c3, c4, d1, [] + Chunk0(j, k, n, q, a1, a2, a3, c1, c2, c3, c4, d1));
    Join2(j, k, n, q, a1, a2, a3, c1, c2, c3, c4, d1, [] + Chunk0(j, k, n, q, a1, a2, a3, c1, c2, c3, c4, d1) + Chunk1(j, k, n, q, a1, a2, a3, c1, c2, c3, c4, d1));
    Join3(j, k, n, q, a1, a2, a3, c1, c2, c3, c4, d1, [] + Chunk0(j, k, n, q, a1, a2, a3, c1, c2, c3, c4, d1) + Chunk1(j, k, n, q, a1, a2, a3, c1, c2, c3, c4, d1) + Chunk2(j, k, n, q, a1, a2, a3, c1, c2, c3, c4, d1));
    Join4(j, k, n, q, a1, a2, a3, c1, c2, c3, c4, d1, [] + Chunk0(j, k, n, q, a1, a2, a3, c1, c2, c3, c4, d1) + Chunk1(j, k, n, q, a1, a2, a3, c1, c2, c3, c4, d1) + Chunk2(j, k, n, q, a1, a2, a3, c1, c2, c3, c4, d1) + Chunk3(j, k, n, q, a1, a2, a3, c1, c2, c3, c4, d1));
    Join5(j, k, n, q, a1, a2, a3, c1, c2, c3, c4, d1, [] + Chunk0(j, k, n, q, a1, a2, a3, c1, c2, c3, c4, d1) + Chunk1(j, k, n, q, a1, a2, a3, c1, c2, c3, c4, d1) + Chunk2(j, k, n, q, a1, a2, a3, c1, c2, c3, c4, d1) + Chunk3(j, k, n, q, a1, a2, a3, c1, c2, c3, c4, d1) + Chunk4(j, k, n, q, a1, a2, a3, c1, c2, c3, c4, d1));
  }

  lemma {:induction false} Walked(j: string, k: string, n: string, q: string, a1: string, a2: string, a3: string, c1: string, c2: string, c3: string, c4: string, d1: string)
    ensures Build(Program(j, k, n, q, a1, a2, a3, c1, c2, c3, c4, d1)) == Tree(Layout(), Trace(j, k, n, q, a1, a2, a3, c1, c2, c3, c4, d1), 11)
  {
    MainBuild(Body(j, k, n, q, a1, a2, a3, c1, c2, c3, c4, d1));
    Stmts1(j, k, n, q, a1, a2, a3, c1, c2, c3, c4, d1, MainHead(), [While([Use(q, Pos(15, 20), false)], Block([Exprs([Call([Argument([Declare(q, Pos(17, 42), Initialized)])])])]))] + ([Exprs([Declare(a1, Pos(20, 13), Initialized)])] + ([Exprs([Call([Argument([Use(a1, Pos(21, 34), false)])])])] + ([While([Declare(a1, Pos(22, 21), Initialized)], Exprs([]))] + ([Exprs([Declare(a2, Pos(25, 13), Initialized)])] + ([Exprs([Call([Argument([Use(a2, Pos(26, 34), false)])])])] + ([While([Use(a2, Pos(27, 16), false)], Exprs([Call([Argument([Declare(a2, Pos(28, 42), Initialized)])])]))] + ([Exprs([Declare(a3, Pos(30, 13), Initialized)])] + ([Exprs([Call([Argument([Use(a3, Pos(31, 34), false)])])])] + ([While([Use(a2, Pos(32, 16), false)], Block([Exprs([Call([Argument([Declare(a3, Pos(34, 42), Initialized)])])])]))] + ([While([Declare(c1, Pos(37, 22), Initialized)] + ([Declare(c1, Pos(37, 42), Initialized)]), Exprs([]))] + ([While([Declare(c2, Pos(40, 21), Initialized)], Exprs([Call([Argument([Declare(c2, Pos(41, 42), Initialized)])])]))] + ([While([Declare(c3, Pos(43, 21), Initialized)], Block([Exprs([Call([Argument([Declare(c3, Pos(45, 42), Initialized)])])])]))] + ([While([Declare(c4, Pos(48, 21), Initialized)], Block([Exprs([Declare(c4, Pos(50, 17), Initialized)])] + ([Exprs([Call([Argument([Use(c4, Pos(51, 38), false)])])])])))] + ([While([Use(a2, Pos(54, 16), false)], Exprs([Call([Argument([Declare(d1, Pos(55, 43), Initialized)] + ([Declare(d1, Pos(55, 58), Initialized)]))])]))])))))))))))))));
    Stmts6(j, k, n, q, a1, a2, a3, c1, c2, c3, c4, d1, Tree(MainHead().scopes + [Scope(LoopCondition, Some(4))] + [Scope(EmbeddedBody, Some(5))] + [Scope(LoopCondition, Some(4))] + [Scope(EmbeddedBody, Some(7))], MainHead().events + [Declared(5, j, Pos(6, 21), Initialized, [])] + [Referenced(5, j, Pos(6, 31), false, false, [])] + [Referenced(6, j, Pos(7, 38), false, false, [0])] + [Declared(6, k, Pos(7, 47), Initialized, [0])] + [Referenced(6, k, Pos(7, 56), false, false, [0])] + [OutAssigned(6, [], [0])] + [Referenced(4, j, Pos(9, 9), true, false, [])] + [Referenced(4, k, Pos(10, 9), true, false, [])] + [Referenced(7, n, Pos(12, 16), false, false, [])] + [Declared(8, n, Pos(13, 42), Initialized, [1])] + [OutAssigned(8, [], [1])], 2), [Exprs([Declare(a2, Pos(25, 13), Initialized)])] + ([Exprs([Call([Argument([Use(a2, Pos(26, 34), false)])])])] + ([While([Use(a2, Pos(27, 16), false)], Exprs([Call([Argument([Declare(a2, Pos(28, 42), Initialized)])])]))] + ([Exprs([Declare(a3, Pos(30, 13), Initialized)])] + ([Exprs([Call([Argument([Use(a3, Pos(31, 34), false)])])])] + ([While([Use(a2, Pos(32, 16), false)], Block([Exprs([Call([Argument([Declare(a3, Pos(34, 42), Initialized)])])])]))] + ([While([Declare(c1, Pos(37, 22), Initialized)] + ([Declare(c1, Pos(37, 42), Initialized)]), Exprs([]))] + ([While([Declare(c2, Pos(40, 21), Initialized)], Exprs([Call([Argument([Declare(c2, Pos(41, 42), Initialized)])])]))] + ([While([Declare(c3, Pos(43, 21), Initialized)], Block([Exprs([Call([Argument([Declare(c3, Pos(45, 42), Initialized)])])])]))] + ([While([Declare(c4, Pos(48, 21), Initialized)], Block([Exprs([Declare(c4, Pos(50, 17), Initialized)])] + ([Exprs([Call([Argument([Use(c4, Pos(51, 38), false)])])])])))] + ([While([Use(a2, Pos(54, 16), false)], Exprs([Call([Argument([Declare(d1, Pos(55, 43), Initialized)] + ([Declare(d1, Pos(55, 58), Initialized)]))])]))])))))))))));
    Stmts12(j, k, n, q, a1, a2, a3, c1, c2, c3, c4, d1, Tree(MainHead().scopes + [Scope(LoopCondition, Some(4))] + [Scope(EmbeddedBody, Some(5))] + [Scope(LoopCondition, Some(4))] + [Scope(EmbeddedBody, Some(7))] + [Scope(LoopCondition, Some(4))] + [Scope(BlockBody, Some(9))] + [Scope(LoopCondition, Some(4))] + [Scope(EmbeddedBody, Some(11))], MainHead().events + [Declared(5, j, Pos(6, 21), Initialized, [])] + [Referenced(5, j, Pos(6, 31), false, false, [])] + [Referenced(6, j, Pos(7, 38), false, false, [0])] + [Declared(6, k, Pos(7, 47), Initialized, [0])] + [Referenced(6, k, Pos(7, 56), false, false, [0])] + [OutAssigned(6, [], [0])] + [Referenced(4, j, Pos(9, 9), true, false, [])] + [Referenced(4, k, Pos(10, 9), true, false, [])] + [Referenced(7, n, Pos(12, 16), false, false, [])] + [Declared(8, n, Pos(13, 42), Initialized, [1])] + [OutAssigned(8, [], [1])] + [Referenced(9, q, Pos(15, 20), false, false, [])] + [Declared(10, q, Pos(17, 42), Initialized, [2])] + [OutAssigned(10, [], [2])] + [Declared(4, a1, Pos(20, 13), Initialized, [])] + [Referenced(4, a1, Pos(21, 34), false, false, [])] + [OutAssigned(4, [], [])] + [Declared(11, a1, Pos(22, 21), Initialized, [])], 4), [Exprs([Call([Argument([Use(a3, Pos(31, 34), false)])])])] + ([While([Use(a2, Pos(32, 16), false)], Block([Exprs([Call([Argument([Declare(a3, Pos(34, 42), Initialized)])])])]))] + ([While([Declare(c1, Pos(37, 22), Initialized)] + ([Declare(c1, Pos(37, 42), Initialized)]), Exprs([]))] + ([While([Declare(c2, Pos(40, 21), Initialized)], Exprs([Call([Argument([Declare(c2, Pos(41, 42), Initialized)])])]))] + ([While([Declare(c3, Pos(43, 21), Initialized)], Block([Exprs([Call([Argument([Declare(c3, Pos(45, 42), Initialized)])])])]))] + ([While([Declare(c4, Pos(48, 21), Initialized)], Block([Exprs([Declare(c4, Pos(50, 17), Initialized)])] + ([Exprs([Call([Argument([Use(c4, Pos(51, 38), false)])])])])))] + ([While([Use(a2, Pos(54, 16), false)], Exprs([Call([Argument([Declare(d1, Pos(55, 43), Initialized)] + ([Declare(d1, Pos(55, 58), Initialized)]))])]))])))))));
    Stmts17(j, k, n, q, a1, a2, a3, c1, c2, c3, c4, d1, Tree(MainHead().scopes + [Scope(LoopCondition, Some(4))] + [Scope(EmbeddedBody, Some(5))] + [Scope(LoopCondition, Some(4))] + [Scope(EmbeddedBody, Some(7))] + [Scope(LoopCondition, Some(4))] + [Scope(BlockBody, Some(9))] + [Scope(LoopCondition, Some(4))] + [Scope(EmbeddedBody, Some(11))] + [Scope(LoopCondition, Some(4))] + [Scope(EmbeddedBody, Some(13))], MainHead().events + [Declared(5, j, Pos(6, 21), Initialized, [])] + [Referenced(5, j, Pos(6, 31), false, false, [])] + [Referenced(6, j, Pos(7, 38), false, false, [0])] + [Declared(6, k, Pos(7, 47), Initialized, [0])] + [Referenced(6, k, Pos(7, 56), false, false, [0])] + [OutAssigned(6, [], [0])] + [Referenced(4, j, Pos(9, 9), true, false, [])] + [Referenced(4, k, Pos(10, 9), true, false, [])] + [Referenced(7, n, Pos(12, 16), false, false, [])] + [Declared(8, n, Pos(13, 42), Initialized, [1])] + [OutAssigned(8, [], [1])] + [Referenced(9, q, Pos(15, 20), false, false, [])] + [Declared(10, q, Pos(17, 42), Initialized, [2])] + [OutAssigned(10, [], [2])] + [Declared(4, a1, Pos(20, 13), Initialized, [])] + [Referenced(4, a1, Pos(21, 34), false, false, [])] + [OutAssigned(4, [], [])] + [Declared(11, a1, Pos(22, 21), Initialized, [])] + [Declared(4, a2, Pos(25, 13), Initialized, [])] + [Referenced(4, a2, Pos(26, 34), false, false, [])] + [OutAssigned(4, [], [])] + [Referenced(13, a2, Pos(27, 16), false, false, [])] + [Declared(14, a2, Pos(28, 42), Initialized, [4])] + [OutAssigned(14, [], [4])] + [Declared(4, a3, Pos(30, 13), Initialized, [])], 5), [While([Declare(c3, Pos(43, 21), Initialized)], Block([Exprs([Call([Argument([Declare(c3, Pos(45, 42), Initialized)])])])]))] + ([While([Declare(c4, Pos(48, 21), Initialized)], Block([Exprs([Declare(c4, Pos(50, 17), Initialized)])] + ([Exprs([Call([Argument([Use(c4, Pos(51, 38), false)])])])])))] + ([While([Use(a2, Pos(54, 16), false)], Exprs([Call([Argument([Declare(d1, Pos(55, 43), Initialized)] + ([Declare(d1, Pos(55, 58), Initialized)]))])]))])));
    Stmts23(j, k, n, q, a1, a2, a3, c1, c2, c3, c4, d1, Tree(MainHead().scopes + [Scope(LoopCondition, Some(4))] + [Scope(EmbeddedBody, Some(5))] + [Scope(LoopCondition, Some(4))] + [Scope(EmbeddedBody, Some(7))] + [Scope(LoopCondition, Some(4))] + [Scope(BlockBody, Some(9))] + [Scope(LoopCondition, Some(4))] + [Scope(EmbeddedBody, Some(11))] + [Scope(LoopCondition, Some(4))] + [Scope(EmbeddedBody, Some(13))] + [Scope(LoopCondition, Some(4))] + [Scope(BlockBody, Some(15))] + [Scope(LoopCondition, Some(4))] + [Scope(EmbeddedBody, Some(17))] + [Scope(LoopCondition, Some(4))] + [Scope(EmbeddedBody, Some(19))], MainHead().events + [Declared(5, j, Pos(6, 21), Initialized, [])] + [Referenced(5, j, Pos(6, 31), false, false, [])] + [Referenced(6, j, Pos(7, 38), false, false, [0])] + [Declared(6, k, Pos(7, 47), Initialized, [0])] + [Referenced(6, k, Pos(7, 56), false, false, [0])] + [OutAssigned(6, [], [0])] + [Referenced(4, j, Pos(9, 9), true, false, [])] + [Referenced(4, k, Pos(10, 9), true, false, [])] + [Referenced(7, n, Pos(12, 16), false, false, [])] + [Declared(8, n, Pos(13, 42), Initialized, [1])] + [OutAssigned(8, [], [1])] + [Referenced(9, q, Pos(15, 20), false, false, [])] + [Declared(10, q, Pos(17, 42), Initialized, [2])] + [OutAssigned(10, [], [2])] + [Declared(4, a1, Pos(20, 13), Initialized, [])] + [Referenced(4, a1, Pos(21, 34), false, false, [])] + [OutAssigned(4, [], [])] + [Declared(11, a1, Pos(22, 21), Initialized, [])] + [Declared(4, a2, Pos(25, 13), Initialized, [])] + [Referenced(4, a2, Pos(26, 34), false, false, [])] + [OutAssigned(4, [], [])] + [Referenced(13, a2, Pos(27, 16), false, false, [])] + [Declared(14, a2, Pos(28, 42), Initialized, [4])] + [OutAssigned(14, [], [4])] + [Declared(4, a3, Pos(30, 13), Initialized, [])] + [Referenced(4, a3, Pos(31, 34), false, false, [])] + [OutAssigned(4, [], [])] + [Referenced(15, a2, Pos(32, 16), false, false, [])] + [Declared(16, a3, Pos(34, 42), Initialized, [5])] + [OutAssigned(16, [], [5])] + [Declared(17, c1, Pos(37, 22), Initialized, [])] + [Declared(17, c1, Pos(37, 42), Initialized, [])] + [Declared(19, c2, Pos(40, 21), Initialized, [])] + [Declared(20, c2, Pos(41, 42), Initialized, [7])] + [OutAssigned(20, [], [7])], 8));
    LayoutFlat();
    Flat(j, k, n, q, a1, a2, a3, c1, c2, c3, c4, d1);
  }

  /** The locals events of chunk `ck` declare in scope `sc`, in order. */
  function NewIn(j: string, k: string, n: string, q: string, a1: string, a2: string, a3: string, c1: string, c2: string, c3: string, c4: string, d1: string, ck: nat, sc: nat): seq<Local> {
    if ck == 0 then
      if sc == 5 then [] + [Local(j, Pos(6, 21))]
      else if sc == 6 then [] + [Local(k, Pos(7, 47))]
      else []
    else if ck == 1 then
      if sc == 8 then [] + [Local(n, Pos(13, 42))]
      else if sc == 10 then [] + [Local(q, Pos(17, 42))]
      else if sc == 4 then [] + [Local(a1, Pos(20, 13))]
      else []
    else if ck == 2 then
      if sc == 11 then [] + [Local(a1, Pos(22, 21))]
      else if sc == 4 then [] + [Local(a2, Pos(25, 13))]
      else if sc == 14 then [] + [Local(a2, Pos(28, 42))]
      else []
    else if ck == 3 then
      if sc == 4 then [] + [Local(a3, Pos(30, 13))]
      else if sc == 16 then [] + [Local(a3, Pos(34, 42))]
      else if sc == 17 then [] + [Local(c1, Pos(37, 22))] + [Local(c1, Pos(37, 42))]
      else []
    else if ck == 4 then
      if sc == 19 then [] + [Local(c2, Pos(40, 21))]
      else if sc == 20 then [] + [Local(c2, Pos(41, 42))]
      else if sc == 21 then [] + [Local(c3, Pos(43, 21))]
      else if sc == 22 then [] + [Local(c3, Pos(45, 42))]
      else if sc == 23 then [] + [Local(c4, Pos(48, 21))]
      else if sc == 24 then [] + [Local(c4, Pos(50, 17))]
      else []
    else if ck == 5 then
      if sc == 26 then [] + [Local(d1, Pos(55, 43))] + [Local(d1, Pos(55, 58))]
      else []
    else []
  }

  /** The locals the first `ck` chunks declare in scope `sc`, in order. */
  function DeclaredBy(j: string, k: string, n: string, q: string, a1: string, a2: string, a3: string, c1: string, c2: string, c3: string, c4: string, d1: string, ck: nat, sc: nat): seq<Local>
    decreases ck
  {
    if ck == 0 then [] else DeclaredBy(j, k, n, q, a1, a2, a3, c1, c2, c3, c4, d1, ck - 1, sc) + NewIn(j, k, n, q, a1, a2, a3, c1, c2, c3, c4, d1, ck - 1, sc)
  }

  /** The locals declared once events 0 to 7 follow some events. */
  lemma {:induction false} Decls0(j: string, k: string, n: string, q: string, a1: string, a2: string, a3: string, c1: string, c2: string, c3: string, c4: string, d1: string, evs: seq<Event>, sc: nat)
    requires DeclsIn(evs, sc) == DeclaredBy(j, k, n, q, a1, a2, a3, c1, c2, c3, c4, d1, 0, sc)
    ensures DeclsIn(evs + Chunk0(j, k, n, q, a1, a2, a3, c1, c2, c3, c4, d1), sc) == DeclaredBy(j, k, n, q, a1, a2, a3, c1, c2, c3, c4, d1, 1, sc)
  {
    DeclsInAppend(evs, Chunk0(j, k, n, q, a1, a2, a3, c1, c2, c3, c4, d1), sc);
    assert DeclsIn([], sc) == [];
    if sc == 5 {
      DeclsInAdd([], Declared(5, j, Pos(6, 21), Initialized, []), 5);
      DeclsInSkip([] + [Declared(5, j, Pos(6, 21), Initialized, [])], Referenced(5, j, Pos(6, 31), false, false, []), 5);
      DeclsInSkip([] + [Declared(5, j, Pos(6, 21), Initialized, [])] + [Referenced(5, j, Pos(6, 31), false, false, [])], Referenced(6, j, Pos(7, 38), false, false, [0]), 5);
      DeclsInSkip([] + [Declared(5, j, Pos(6, 21), Initialized, [])] + [Referenced(5, j, Pos(6, 31), false, false, [])] + [Referenced(6, j, Pos(7, 38), false, false, [0])], Declared(6, k, Pos(7, 47), Initialized, [0]), 5);
      DeclsInSkip([] + [Declared(5, j, Pos(6, 21), Initialized, [])] + [Referenced(5, j, Pos(6, 31), false, false, [])] + [Referenced(6, j, Pos(7, 38), false, false, [0])] + [Declared(6, k, Pos(7, 47), Initialized, [0])], Referenced(6, k, Pos(7, 56), false, false, [0]), 5);
      DeclsInSkip([] + [Declared(5, j, Pos(6, 21), Initialized, [])] + [Referenced(5, j, Pos(6, 31), false, false, [])] + [Referenced(6, j, Pos(7, 38), false, false, [0])] + [Declared(6, k, Pos(7, 47), Initialized, [0])] + [Referenced(6, k, Pos(7, 56), false, false, [0])], OutAssigned(6, [], [0]), 5);
      DeclsInSkip([] + [Declared(5, j, Pos(6, 21), Initialized, [])] + [Referenced(5, j, Pos(6, 31), false, false, [])] + [Referenced(6, j, Pos(7, 38), false, false, [0])] + [Declared(6, k, Pos(7, 47), Initialized, [0])] + [Referenced(6, k, Pos(7, 56), false, false, [0])] + [OutAssigned(6, [], [0])], Referenced(4, j, Pos(9, 9), true, false, []), 5);
      DeclsInSkip([] + [Declared(5, j, Pos(6, 21), Initialized, [])] + [Referenced(5, j, Pos(6, 31), false, false, [])] + [Referenced(6, j, Pos(7, 38), false, false, [0])] + [Declared(6, k, Pos(7, 47), Initialized, [0])] + [Referenced(6, k, Pos(7, 56), false, false, [0])] + [OutAssigned(6, [], [0])] + [Referenced(4, j, Pos(9, 9), true, false, [])], Referenced(4, k, Pos(10, 9), true, false, []), 5);
    } else if sc == 6 {
      DeclsInSkip([], Declared(5, j, Pos(6, 21), Initialized, []), 6);
      DeclsInSkip([] + [Declared(5, j, Pos(6, 21), Initialized, [])], Referenced(5, j, Pos(6, 31), false, false, []), 6);
      DeclsInSkip([] + [Declared(5, j, Pos(6, 21), Initialized, [])] + [Referenced(5, j, Pos(6, 31), false, false, [])], Referenced(6, j, Pos(7, 38), false, false, [0]), 6);
      DeclsInAdd([] + [Declared(5, j, Pos(6, 21), Initialized, [])] + [Referenced(5, j, Pos(6, 31), false, false, [])] + [Referenced(6, j, Pos(7, 38), false, false, [0])], Declared(6, k, Pos(7, 47), Initialized, [0]), 6);
      DeclsInSkip([] + [Declared(5, j, Pos(6, 21), Initialized, [])] + [Referenced(5, j, Pos(6, 31), false, false, [])] + [Referenced(6, j, Pos(7, 38), false, false, [0])] + [Declared(6, k, Pos(7, 47), Initialized, [0])], Referenced(6, k, Pos(7, 56), false, false, [0]), 6);
      DeclsInSkip([] + [Declared(5, j, Pos(6, 21), Initialized, [])] + [Referenced(5, j, Pos(6, 31), false, false, [])] + [Referenced(6, j, Pos(7, 38), false, false, [0])] + [Declared(6, k, Pos(7, 47), Initialized, [0])] + [Referenced(6, k, Pos(7, 56), false, false, [0])], OutAssigned(6, [], [0]), 6);
      DeclsInSkip([] + [Declared(5, j, Pos(6, 21), Initialized, [])] + [Referenced(5, j, Pos(6, 31), false, false, [])] + [Referenced(6, j, Pos(7, 38), false, false, [0])] + [Declared(6, k, Pos(7, 47), Initialized, [0])] + [Referenced(6, k, Pos(7, 56), false, false, [0])] + [OutAssigned(6, [], [0])], Referenced(4, j, Pos(9, 9), true, false, []), 6);
      DeclsInSkip([] + [Declared(5, j, Pos(6, 21), Initialized, [])] + [Referenced(5, j, Pos(6, 31), false, false, [])] + [Referenced(6, j, Pos(7, 38), false, false, [0])] + [Declared(6, k, Pos(7, 47), Initialized, [0])] + [Referenced(6, k, Pos(7, 56), false, false, [0])] + [OutAssigned(6, [], [0])] + [Referenced(4, j, Pos(9, 9), true, false, [])], Referenced(4, k, Pos(10, 9), true, false, []), 6);
    } else {
      DeclsInSkip([], Declared(5, j, Pos(6, 21), Initialized, []), sc);
      DeclsInSkip([] + [Declared(5, j, Pos(6, 21), Initialized, [])], Referenced(5, j, Pos(6, 31), false, false, []), sc);
      DeclsInSkip([] + [Declared(5, j, Pos(6, 21), Initialized, [])] + [Referenced(5, j, Pos(6, 31), false, false, [])], Referenced(6, j, Pos(7, 38), false, false, [0]), sc);
      DeclsInSkip([] + [Declared(5, j, Pos(6, 21), Initialized, [])] + [Referenced(5, j, Pos(6, 31), false, false, [])] + [Referenced(6, j, Pos(7, 38), false, false, [0])], Declared(6, k, Pos(7, 47), Initialized, [0]), sc);
      DeclsInSkip([] + [Declared(5, j, Pos(6, 21), Initialized, [])] + [Referenced(5, j, Pos(6, 31), false, false, [])] + [Referenced(6, j, Pos(7, 38), false, false, [0])] + [Declared(6, k, Pos(7, 47), Initialized, [0])], Referenced(6, k, Pos(7, 56), false, false, [0]), sc);
      DeclsInSkip([] + [Declared(5, j, Pos(6, 21), Initialized, [])] + [Referenced(5, j, Pos(6, 31), false, false, [])] + [Referenced(6, j, Pos(7, 38), false, false, [0])] + [Declared(6, k, Pos(7, 47), Initialized, [0])] + [Referenced(6, k, Pos(7, 56), false, false, [0])], OutAssigned(6, [], [0]), sc);
      DeclsInSkip([] + [Declared(5, j, Pos(6, 21), Initialized, [])] + [Referenced(5, j, Pos(6, 31), false, false, [])] + [Referenced(6, j, Pos(7, 38), false, false, [0])] + [Declared(6, k, Pos(7, 47), Initialized, [0])] + [Referenced(6, k, Pos(7, 56), false, false, [0])] + [OutAssigned(6, [], [0])], Referenced(4, j, Pos(9, 9), true, false, []), sc);
      DeclsInSkip([] + [Declared(5, j, Pos(6, 21), Initialized, [])] + [Referenced(5, j, Pos(6, 31), false, false, [])] + [Referenced(6, j, Pos(7, 38), false, false, [0])] + [Declared(6, k, Pos(7, 47), Initialized, [0])] + [Referenced(6, k, Pos(7, 56), false, false, [0])] + [OutAssigned(6, [], [0])] + [Referenced(4, j, Pos(9, 9), true, false, [])], Referenced(4, k, Pos(10, 9), true, false, []), sc);
      AppendNil(DeclsIn(evs, sc));
    }
  }

  /** The locals declared once events 8 to 15 follow some events. */
  lemma {:induction false} Decls1(j: string, k: string, n: string, q: string, a1: string, a2: string, a3: string, c1: string, c2: string, c3: string, c4: string, d1: string, evs: seq<Event>, sc: nat)
    requires DeclsIn(evs, sc) == DeclaredBy(j, k, n, q, a1, a2, a3, c1, c2, c3, c4, d1, 1, sc)
    ensures DeclsIn(evs + Chunk1(j, k, n, q, a1, a2, a3, c1, c2, c3, c4, d1), sc) == DeclaredBy(j, k, n, q, a1, a2, a3, c1, c2, c3, c4, d1, 2, sc)
  {
    DeclsInAppend(evs, Chunk1(j, k, n, q, a1, a2, a3, c1, c2, c3, c4, d1), sc);
    assert DeclsIn([], sc) == [];
    if sc == 8 {
      DeclsInSkip([], Referenced(7, n, Pos(12, 16), false, false, []), 8);
      DeclsInAdd([] + [Referenced(7, n, Pos(12, 16), false, false, [])], Declared(8, n, Pos(13, 42), Initialized, [1]), 8);
      DeclsInSkip([] + [Referenced(7, n, Pos(12, 16), false, false, [])] + [Declared(8, n, Pos(13, 42), Initialized, [1])], OutAssigned(8, [], [1]), 8);
      DeclsInSkip([] + [Referenced(7, n, Pos(12, 16), false, false, [])] + [Declared(8, n, Pos(13, 42), Initialized, [1])] + [OutAssigned(8, [], [1])], Referenced(9, q, Pos(15, 20), false, false, []), 8);
      DeclsInSkip([] + [Referenced(7, n, Pos(12, 16), false, false, [])] + [Declared(8, n, Pos(13, 42), Initialized, [1])] + [OutAssigned(8, [], [1])] + [Referenced(9, q, Pos(15, 20), false, false, [])], Declared(10, q, Pos(17, 42), Initialized, [2]), 8);
      DeclsInSkip([] + [Referenced(7, n, Pos(12, 16), false, false, [])] + [Declared(8, n, Pos(13, 42), Initialized, [1])] + [OutAssigned(8, [], [1])] + [Referenced(9, q, Pos(15, 20), false, false, [])] + [Declared(10, q, Pos(17, 42), Initialized, [2])], OutAssigned(10, [], [2]), 8);
      DeclsInSkip([] + [Referenced(7, n, Pos(12, 16), false, false, [])] + [Declared(8, n, Pos(13, 42), Initialized, [1])] + [OutAssigned(8, [], [1])] + [Referenced(9, q, Pos(15, 20), false, false, [])] + [Declared(10, q, Pos(17, 42), Initialized, [2])] + [OutAssigned(10, [], [2])], Declared(4, a1, Pos(20, 13), Initialized, []), 8);
      DeclsInSkip([] + [Referenced(7, n, Pos(12, 16), false, false, [])] + [Declared(8, n, Pos(13, 42), Initialized, [1])] + [OutAssigned(8, [], [1])] + [Referenced(9, q, Pos(15, 20), false, false, [])] + [Declared(10, q, Pos(17, 42), Initialized, [2])] + [OutAssigned(10, [], [2])] + [Declared(4, a1, Pos(20, 13), Initialized, [])], Referenced(4, a1, Pos(21, 34), false, false, []), 8);
    } else if sc == 10 {
      DeclsInSkip([], Referenced(7, n, Pos(12, 16), false, false, []), 10);
      DeclsInSkip([] + [Referenced(7, n, Pos(12, 16), false, false, [])], Declared(8, n, Pos(13, 42), Initialized, [1]), 10);
      DeclsInSkip([] + [Referenced(7, n, Pos(12, 16), false, false, [])] + [Declared(8, n, Pos(13, 42), Initialized, [1])], OutAssigned(8, [], [1]), 10);
      DeclsInSkip([] + [Referenced(7, n, Pos(12, 16), false, false, [])] + [Declared(8, n, Pos(13, 42), Initialized, [1])] + [OutAssigned(8, [], [1])], Referenced(9, q, Pos(15, 20), false, false, []), 10);
      DeclsInAdd([] + [Referenced(7, n, Pos(12, 16), false, false, [])] + [Declared(8, n, Pos(13, 42), Initialized, [1])] + [OutAssigned(8, [], [1])] + [Referenced(9, q, Pos(15, 20), false, false, [])], Declared(10, q, Pos(17, 42), Initialized, [2]), 10);
      DeclsInSkip([] + [Referenced(7, n, Pos(12, 16), false, false, [])] + [Declared(8, n, Pos(13, 42), Initialized, [1])] + [OutAssigned(8, [], [1])] + [Referenced(9, q, Pos(15, 20), false, false, [])] + [Declared(10, q, Pos(17, 42), Initialized, [2])], OutAssigned(10, [], [2]), 10);
      DeclsInSkip([] + [Referenced(7, n, Pos(12, 16), false, false, [])] + [Declared(8, n, Pos(13, 42), Initialized, [1])] + [OutAssigned(8, [], [1])] + [Referenced(9, q, Pos(15, 20), false, false, [])] + [Declared(10, q, Pos(17, 42), Initialized, [2])] + [OutAssigned(10, [], [2])], Declared(4, a1, Pos(20, 13), Initialized, []), 10);
      DeclsInSkip([] + [Referenced(7, n, Pos(12, 16), false, false, [])] + [Declared(8, n, Pos(13, 42), Initialized, [1])] + [OutAssigned(8, [], [1])] + [Referenced(9, q, Pos(15, 20), false, false, [])] + [Declared(10, q, Pos(17, 42), Initialized, [2])] + [OutAssigned(10, [], [2])] + [Declared(4, a1, Pos(20, 13), Initialized, [])], Referenced(4, a1, Pos(21, 34), false, false, []), 10);
    } else if sc == 4 {
      DeclsInSkip([], Referenced(7, n, Pos(12, 16), false, false, []), 4);
      DeclsInSkip([] + [Referenced(7, n, Pos(12, 16), false, false, [])], Declared(8, n, Pos(13, 42), Initialized, [1]), 4);
      DeclsInSkip([] + [Referenced(7, n, Pos(12, 16), false, false, [])] + [Declared(8, n, Pos(13, 42), Initialized, [1])], OutAssigned(8, [], [1]), 4);
      DeclsInSkip([] + [Referenced(7, n, Pos(12, 16), false, false, [])] + [Declared(8, n, Pos(13, 42), Initialized, [1])] + [OutAssigned(8, [], [1])], Referenced(9, q, Pos(15, 20), false, false, []), 4);
      DeclsInSkip([] + [Referenced(7, n, Pos(12, 16), false, false, [])] + [Declared(8, n, Pos(13, 42), Initialized, [1])] + [OutAssigned(8, [], [1])] + [Referenced(9, q, Pos(15, 20), false, false, [])], Declared(10, q, Pos(17, 42), Initialized, [2]), 4);
      DeclsInSkip([] + [Referenced(7, n, Pos(12, 16), false, false, [])] + [Declared(8, n, Pos(13, 42), Initialized, [1])] + [OutAssigned(8, [], [1])] + [Referenced(9, q, Pos(15, 20), false, false, [])] + [Declared(10, q, Pos(17, 42), Initialized, [2])], OutAssigned(10, [], [2]), 4);
      DeclsInAdd([] + [Referenced(7, n, Pos(12, 16), false, false, [])] + [Declared(8, n, Pos(13, 42), Initialized, [1])] + [OutAssigned(8, [], [1])] + [Referenced(9, q, Pos(15, 20), false, false, [])] + [Declared(10, q, Pos(17, 42), Initialized, [2])] + [OutAssigned(10, [], [2])], Declared(4, a1, Pos(20, 13), Initialized, []), 4);
      DeclsInSkip([] + [Referenced(7, n, Pos(12, 16), false, false, [])] + [Declared(8, n, Pos(13, 42), Initialized, [1])] + [OutAssigned(8, [], [1])] + [Referenced(9, q, Pos(15, 20), false, false, [])] + [Declared(10, q, Pos(17, 42), Initialized, [2])] + [OutAssigned(10, [], [2])] + [Declared(4, a1, Pos(20, 13), Initialized, [])], Referenced(4, a1, Pos(21, 34), false, false, []), 4);
    } else {
      DeclsInSkip([], Referenced(7, n, Pos(12, 16), false, false, []), sc);
      DeclsInSkip([] + [Referenced(7, n, Pos(12, 16), false, false, [])], Declared(8, n, Pos(13, 42), Initialized, [1]), sc);
      DeclsInSkip([] + [Referenced(7, n, Pos(12, 16), false, false, [])] + [Declared(8, n, Pos(13, 42), Initialized, [1])], OutAssigned(8, [], [1]), sc);
      DeclsInSkip([] + [Referenced(7, n, Pos(12, 16), false, false, [])] + [Declared(8, n, Pos(13, 42), Initialized, [1])] + [OutAssigned(8, [], [1])], Referenced(9, q, Pos(15, 20), false, false, []), sc);
      DeclsInSkip([] + [Referenced(7, n, Pos(12, 16), false, false, [])] + [Declared(8, n, Pos(13, 42), Initialized, [1])] + [OutAssigned(8, [], [1])] + [Referenced(9, q, Pos(15, 20), false, false, [])], Declared(10, q, Pos(17, 42), Initialized, [2]), sc);
      DeclsInSkip([] + [Referenced(7, n, Pos(12, 16), false, false, [])] + [Declared(8, n, Pos(13, 42), Initialized, [1])] + [OutAssigned(8, [], [1])] + [Referenced(9, q, Pos(15, 20), false, false, [])] + [Declared(10, q, Pos(17, 42), Initialized, [2])], OutAssigned(10, [], [2]), sc);
      DeclsInSkip([] + [Referenced(7, n, Pos(12, 16), false, false, [])] + [Declared(8, n, Pos(13, 42), Initialized, [1])] + [OutAssigned(8, [], [1])] + [Referenced(9, q, Pos(15, 20), false, false, [])] + [Declared(10, q, Pos(17, 42), Initialized, [2])] + [OutAssigned(10, [], [2])], Declared(4, a1, Pos(20, 13), Initialized, []), sc);
      DeclsInSkip([] + [Referenced(7, n, Pos(12, 16), false, false, [])] + [Declared(8, n, Pos(13, 42), Initialized, [1])] + [OutAssigned(8, [], [1])] + [Referenced(9, q, Pos(15, 20), false, false, [])] + [Declared(10, q, Pos(17, 42), Initialized, [2])] + [OutAssigned(10, [], [2])] + [Declared(4, a1, Pos(20, 13), Initialized, [])], Referenced(4, a1, Pos(21, 34), false, false, []), sc);
      AppendNil(DeclsIn(evs, sc));
    }
  }

  /** The locals declared once events 16 to 23 follow some events. */
  lemma {:induction false} Decls2(j: string, k: string, n: string, q: string, a1: string, a2: string, a3: string, c1: string, c2: string, c3: string, c4: string, d1: string, evs: seq<Event>, sc: nat)
    requires DeclsIn(evs, sc) == DeclaredBy(j, k, n, q, a1, a2, a3, c1, c2, c3, c4, d1, 2, sc)
    ensures DeclsIn(evs + Chunk2(j, k, n, q, a1, a2, a3, c1, c2, c3, c4, d1), sc) == DeclaredBy(j, k, n, q, a1, a2, a3, c1, c2, c3, c4, d1, 3, sc)
  {
    DeclsInAppend(evs, Chunk2(j, k, n, q, a1, a2, a3, c1, c2, c3, c4, d1), sc);
    assert DeclsIn([], sc) == [];
    if sc == 11 {
      DeclsInSkip([], OutAssigned(4, [], []), 11);
      DeclsInAdd([] + [OutAssigned(4, [], [])], Declared(11, a1, Pos(22, 21), Initialized, []), 11);
      DeclsInSkip([] + [OutAssigned(4, [], [])] + [Declared(11, a1, Pos(22, 21), Initialized, [])], Declared(4, a2, Pos(25, 13), Initialized, []), 11);
      DeclsInSkip([] + [OutAssigned(4, [], [])] + [Declared(11, a1, Pos(22, 21), Initialized, [])] + [Declared(4, a2, Pos(25, 13), Initialized, [])], Referenced(4, a2, Pos(26, 34), false, false, []), 11);
      DeclsInSkip([] + [OutAssigned(4, [], [])] + [Declared(11, a1, Pos(22, 21), Initialized, [])] + [Declared(4, a2, Pos(25, 13), Initialized, [])] + [Referenced(4, a2, Pos(26, 34), false, false, [])], OutAssigned(4, [], []), 11);
      DeclsInSkip([] + [OutAssigned(4, [], [])] + [Declared(11, a1, Pos(22, 21), Initialized, [])] + [Declared(4, a2, Pos(25, 13), Initialized, [])] + [Referenced(4, a2, Pos(26, 34), false, false, [])] + [OutAssigned(4, [], [])], Referenced(13, a2, Pos(27, 16), false, false, []), 11);
      DeclsInSkip([] + [OutAssigned(4, [], [])] + [Declared(11, a1, Pos(22, 21), Initialized, [])] + [Declared(4, a2, Pos(25, 13), Initialized, [])] + [Referenced(4, a2, Pos(26, 34), false, false, [])] + [OutAssigned(4, [], [])] + [Referenced(13, a2, Pos(27, 16), false, false, [])], Declared(14, a2, Pos(28, 42), Initialized, [4]), 11);
      DeclsInSkip([] + [OutAssigned(4, [], [])] + [Declared(11, a1, Pos(22, 21), Initialized, [])] + [Declared(4, a2, Pos(25, 13), Initialized, [])] + [Referenced(4, a2, Pos(26, 34), false, false, [])] + [OutAssigned(4, [], [])] + [Referenced(13, a2, Pos(27, 16), false, false, [])] + [Declared(14, a2, Pos(28, 42), Initialized, [4])], OutAssigned(14, [], [4]), 11);
    } else if sc == 4 {
      DeclsInSkip([], OutAssigned(4, [], []), 4);
      DeclsInSkip([] + [OutAssigned(4, [], [])], Declared(11, a1, Pos(22, 21), Initialized, []), 4);
      DeclsInAdd([] + [OutAssigned(4, [], [])] + [Declared(11, a1, Pos(22, 21), Initialized, [])], Declared(4, a2, Pos(25, 13), Initialized, []), 4);
      DeclsInSkip([] + [OutAssigned(4, [], [])] + [Declared(11, a1, Pos(22, 21), Initialized, [])] + [Declared(4, a2, Pos(25, 13), Initialized, [])], Referenced(4, a2, Pos(26, 34), false, false, []), 4);
      DeclsInSkip([] + [OutAssigned(4, [], [])] + [Declared(11, a1, Pos(22, 21), Initialized, [])] + [Declared(4, a2, Pos(25, 13), Initialized, [])] + [Referenced(4, a2, Pos(26, 34), false, false, [])], OutAssigned(4, [], []), 4);
      DeclsInSkip([] + [OutAssigned(4, [], [])] + [Declared(11, a1, Pos(22, 21), Initialized, [])] + [Declared(4, a2, Pos(25, 13), Initialized, [])] + [Referenced(4, a2, Pos(26, 34), false, false, [])] + [OutAssigned(4, [], [])], Referenced(13, a2, Pos(27, 16), false, false, []), 4);
      DeclsInSkip([] + [OutAssigned(4, [], [])] + [Declared(11, a1, Pos(22, 21), Initialized, [])] + [Declared(4, a2, Pos(25, 13), Initialized, [])] + [Referenced(4, a2, Pos(26, 34), false, false, [])] + [OutAssigned(4, [], [])] + [Referenced(13, a2, Pos(27, 16), false, false, [])], Declared(14, a2, Pos(28, 42), Initialized, [4]), 4);
      DeclsInSkip([] + [OutAssigned(4, [], [])] + [Declared(11, a1, Pos(22, 21), Initialized, [])] + [Declared(4, a2, Pos(25, 13), Initialized, [])] + [Referenced(4, a2, Pos(26, 34), false, false, [])] + [OutAssigned(4, [], [])] + [Referenced(13, a2, Pos(27, 16), false, false, [])] + [Declared(14, a2, Pos(28, 42), Initialized, [4])], OutAssigned(14, [], [4]), 4);
    } else if sc == 14 {
      DeclsInSkip([], OutAssigned(4, [], []), 14);
      DeclsInSkip([] + [OutAssigned(4, [], [])], Declared(11, a1, Pos(22, 21), Initialized, []), 14);
      DeclsInSkip([] + [OutAssigned(4, [], [])] + [Declared(11, a1, Pos(22, 21), Initialized, [])], Declared(4, a2, Pos(25, 13), Initialized, []), 14);
      DeclsInSkip([] + [OutAssigned(4, [], [])] + [Declared(11, a1, Pos(22, 21), Initialized, [])] + [Declared(4, a2, Pos(25, 13), Initialized, [])], Referenced(4, a2, Pos(26, 34), false, false, []), 14);
      DeclsInSkip([] + [OutAssigned(4, [], [])] + [Declared(11, a1, Pos(22, 21), Initialized, [])] + [Declared(4, a2, Pos(25, 13), Initialized, [])] + [Referenced(4, a2, Pos(26, 34), false, false, [])], OutAssigned(4, [], []), 14);
      DeclsInSkip([] + [OutAssigned(4, [], [])] + [Declared(11, a1, Pos(22, 21), Initialized, [])] + [Declared(4, a2, Pos(25, 13), Initialized, [])] + [Referenced(4, a2, Pos(26, 34), false, false, [])] + [OutAssigned(4, [], [])], Referenced(13, a2, Pos(27, 16), false, false, []), 14);
      DeclsInAdd([] + [OutAssigned(4, [], [])] + [Declared(11, a1, Pos(22, 21), Initialized, [])] + [Declared(4, a2, Pos(25, 13), Initialized, [])] + [Referenced(4, a2, Pos(26, 34), false, false, [])] + [OutAssigned(4, [], [])] + [Referenced(13, a2, Pos(27, 16), false, false, [])], Declared(14, a2, Pos(28, 42), Initialized, [4]), 14);
      DeclsInSkip([] + [OutAssigned(4, [], [])] + [Declared(11, a1, Pos(22, 21), Initialized, [])] + [Declared(4, a2, Pos(25, 13), Initialized, [])] + [Referenced(4, a2, Pos(26, 34), false, false, [])] + [OutAssigned(4, [], [])] + [Referenced(13, a2, Pos(27, 16), false, false, [])] + [Declared(14, a2, Pos(28, 42), Initialized, [4])], OutAssigned(14, [], [4]), 14);
    } else {
      DeclsInSkip([], OutAssigned(4, [], []), sc);
      DeclsInSkip([] + [OutAssigned(4, [], [])], Declared(11, a1, Pos(22, 21), Initialized, []), sc);
      DeclsInSkip([] + [OutAssigned(4, [], [])] + [Declared(11, a1, Pos(22, 21), Initialized, [])], Declared(4, a2, Pos(25, 13), Initialized, []), sc);
      DeclsInSkip([] + [OutAssigned(4, [], [])] + [Declared(11, a1, Pos(22, 21), Initialized, [])] + [Declared(4, a2, Pos(25, 13), Initialized, [])], Referenced(4, a2, Pos(26, 34), false, false, []), sc);
      DeclsInSkip([] + [OutAssigned(4, [], [])] + [Declared(11, a1, Pos(22, 21), Initialized, [])] + [Declared(4, a2, Pos(25, 13), Initialized, [])] + [Referenced(4, a2, Pos(26, 34), false, false, [])], OutAssigned(4, [], []), sc);
      DeclsInSkip([] + [OutAssigned(4, [], [])] + [Declared(11, a1, Pos(22, 21), Initialized, [])] + [Declared(4, a2, Pos(25, 13), Initialized, [])] + [Referenced(4, a2, Pos(26, 34), false, false, [])] + [OutAssigned(4, [], [])], Referenced(13, a2, Pos(27, 16), false, false, []), sc);
      DeclsInSkip([] + [OutAssigned(4, [], [])] + [Declared(11, a1, Pos(22, 21), Initialized, [])] + [Declared(4, a2, Pos(25, 13), Initialized, [])] + [Referenced(4, a2, Pos(26, 34), false, false, [])] + [OutAssigned(4, [], [])] + [Referenced(13, a2, Pos(27, 16), false, false, [])], Declared(14, a2, Pos(28, 42), Initialized, [4]), sc);
      DeclsInSkip([] + [OutAssigned(4, [], [])] + [Declared(11, a1, Pos(22, 21), Initialized, [])] + [Declared(4, a2, Pos(25, 13), Initialized, [])] + [Referenced(4, a2, Pos(26, 34), false, false, [])] + [OutAssigned(4, [], [])] + [Referenced(13, a2, Pos(27, 16), false, false, [])] + [Declared(14, a2, Pos(28, 42), Initialized, [4])], OutAssigned(14, [], [4]), sc);
      AppendNil(DeclsIn(evs, sc));
    }
  }

  /** The locals declared once events 24 to 31 follow some events. */
  lemma {:induction false} Decls3(j: string, k: string, n: string, q: string, a1: string, a2: string, a3: string, c1: string, c2: string, c3: string, c4: string, d1: string, evs: seq<Event>, sc: nat)
    requires DeclsIn(evs, sc) == DeclaredBy(j, k, n, q, a1, a2, a3, c1, c2, c3, c4, d1, 3, sc)
    ensures DeclsIn(evs + Chunk3(j, k, n, q, a1, a2, a3, c1, c2, c3, c4, d1), sc) == DeclaredBy(j, k, n, q, a1, a2, a3, c1, c2, c3, c4, d1, 4, sc)
  {
    DeclsInAppend(evs, Chunk3(j, k, n, q, a1, a2, a3, c1, c2, c3, c4, d1), sc);
    assert DeclsIn([], sc) == [];
    if sc == 4 {
      DeclsInAdd([], Declared(4, a3, Pos(30, 13), Initialized, []), 4);
      DeclsInSkip([] + [Declared(4, a3, Pos(30, 13), Initialized, [])], Referenced(4, a3, Pos(31, 34), false, false, []), 4);
      DeclsInSkip([] + [Declared(4, a3, Pos(30, 13), Initialized, [])] + [Referenced(4, a3, Pos(31, 34), false, false, [])], OutAssigned(4, [], []), 4);
      DeclsInSkip([] + [Declared(4, a3, Pos(30, 13), Initialized, [])] + [Referenced(4, a3, Pos(31, 34), false, false, [])] + [OutAssigned(4, [], [])], Referenced(15, a2, Pos(32, 16), false, false, []), 4);
      DeclsInSkip([] + [Declared(4, a3, Pos(30, 13), Initialized, [])] + [Referenced(4, a3, Pos(31, 34), false, false, [])] + [OutAssigned(4, [], [])] + [Referenced(15, a2, Pos(32, 16), false, false, [])], Declared(16, a3, Pos(34, 42), Initialized, [5]), 4);
      DeclsInSkip([] + [Declared(4, a3, Pos(30, 13), Initialized, [])] + [Referenced(4, a3, Pos(31, 34), false, false, [])] + [OutAssigned(4, [], [])] + [Referenced(15, a2, Pos(32, 16), false, false, [])] + [Declared(16, a3, Pos(34, 42), Initialized, [5])], OutAssigned(16, [], [5]), 4);
      DeclsInSkip([] + [Declared(4, a3, Pos(30, 13), Initialized, [])] + [Referenced(4, a3, Pos(31, 34), false, false, [])] + [OutAssigned(4, [], [])] + [Referenced(15, a2, Pos(32, 16), false, false, [])] + [Declared(16, a3, Pos(34, 42), Initialized, [5])] + [OutAssigned(16, [], [5])], Declared(17, c1, Pos(37, 22), Initialized, []), 4);
      DeclsInSkip([] + [Declared(4, a3, Pos(30, 13), Initialized, [])] + [Referenced(4, a3, Pos(31, 34), false, false, [])] + [OutAssigned(4, [], [])] + [Referenced(15, a2, Pos(32, 16), false, false, [])] + [Declared(16, a3, Pos(34, 42), Initialized, [5])] + [OutAssigned(16, [], [5])] + [Declared(17, c1, Pos(37, 22), Initialized, [])], Declared(17, c1, Pos(37, 42), Initialized, []), 4);
    } else if sc == 16 {
      DeclsInSkip([], Declared(4, a3, Pos(30, 13), Initialized, []), 16);
      DeclsInSkip([] + [Declared(4, a3, Pos(30, 13), Initialized, [])], Referenced(4, a3, Pos(31, 34), false, false, []), 16);
      DeclsInSkip([] + [Declared(4, a3, Pos(30, 13), Initialized, [])] + [Referenced(4, a3, Pos(31, 34), false, false, [])], OutAssigned(4, [], []), 16);
      DeclsInSkip([] + [Declared(4, a3, Pos(30, 13), Initialized, [])] + [Referenced(4, a3, Pos(31, 34), false, false, [])] + [OutAssigned(4, [], [])], Referenced(15, a2, Pos(32, 16), false, false, []), 16);
      DeclsInAdd([] + [Declared(4, a3, Pos(30, 13), Initialized, [])] + [Referenced(4, a3, Pos(31, 34), false, false, [])] + [OutAssigned(4, [], [])] + [Referenced(15, a2, Pos(32, 16), false, false, [])], Declared(16, a3, Pos(34, 42), Initialized, [5]), 16);
      DeclsInSkip([] + [Declared(4, a3, Pos(30, 13), Initialized, [])] + [Referenced(4, a3, Pos(31, 34), false, false, [])] + [OutAssigned(4, [], [])] + [Referenced(15, a2, Pos(32, 16), false, false, [])] + [Declared(16, a3, Pos(34, 42), Initialized, [5])], OutAssigned(16, [], [5]), 16);
      DeclsInSkip([] + [Declared(4, a3, Pos(30, 13), Initialized, [])] + [Referenced(4, a3, Pos(31, 34), false, false, [])] + [OutAssigned(4, [], [])] + [Referenced(15, a2, Pos(32, 16), false, false, [])] + [Declared(16, a3, Pos(34, 42), Initialized, [5])] + [OutAssigned(16, [], [5])], Declared(17, c1, Pos(37, 22), Initialized, []), 16);
      DeclsInSkip([] + [Declared(4, a3, Pos(30, 13), Initialized, [])] + [Referenced(4, a3, Pos(31, 34), false, false, [])] + [OutAssigned(4, [], [])] + [Referenced(15, a2, Pos(32, 16), false, false, [])] + [Declared(16, a3, Pos(34, 42), Initialized, [5])] + [OutAssigned(16, [], [5])] + [Declared(17, c1, Pos(37, 22), Initialized, [])], Declared(17, c1, Pos(37, 42), Initialized, []), 16);
    } else if sc == 17 {
      DeclsInSkip([], Declared(4, a3, Pos(30, 13), Initialized, []), 17);
      DeclsInSkip([] + [Declared(4, a3, Pos(30, 13), Initialized, [])], Referenced(4, a3, Pos(31, 34), false, false, []), 17);
      DeclsInSkip([] + [Declared(4, a3, Pos(30, 13), Initialized, [])] + [Referenced(4, a3, Pos(31, 34), false, false, [])], OutAssigned(4, [], []), 17);
      DeclsInSkip([] + [Declared(4, a3, Pos(30, 13), Initialized, [])] + [Referenced(4, a3, Pos(31, 34), false, false, [])] + [OutAssigned(4, [], [])], Referenced(15, a2, Pos(32, 16), false, false, []), 17);
      DeclsInSkip([] + [Declared(4, a3, Pos(30, 13), Initialized, [])] + [Referenced(4, a3, Pos(31, 34), false, false, [])] + [OutAssigned(4, [], [])] + [Referenced(15, a2, Pos(32, 16), false, false, [])], Declared(16, a3, Pos(34, 42), Initialized, [5]), 17);
      DeclsInSkip([] + [Declared(4, a3, Pos(30, 13), Initialized, [])] + [Referenced(4, a3, Pos(31, 34), false, false, [])] + [OutAssigned(4, [], [])] + [Referenced(15, a2, Pos(32, 16), false, false, [])] + [Declared(16, a3, Pos(34, 42), Initialized, [5])], OutAssigned(16, [], [5]), 17);
      DeclsInAdd([] + [Declared(4, a3, Pos(30, 13), Initialized, [])] + [Referenced(4, a3, Pos(31, 34), false, false, [])] + [OutAssigned(4, [], [])] + [Referenced(15, a2, Pos(32, 16), false, false, [])] + [Declared(16, a3, Pos(34, 42), Initialized, [5])] + [OutAssigned(16, [], [5])], Declared(17, c1, Pos(37, 22), Initialized, []), 17);
      DeclsInAdd([] + [Declared(4, a3, Pos(30, 13), Initialized, [])] + [Referenced(4, a3, Pos(31, 34), false, false, [])] + [OutAssigned(4, [], [])] + [Referenced(15, a2, Pos(32, 16), false, false, [])] + [Declared(16, a3, Pos(34, 42), Initialized, [5])] + [OutAssigned(16, [], [5])] + [Declared(17, c1, Pos(37, 22), Initialized, [])], Declared(17, c1, Pos(37, 42), Initialized, []), 17);
    } else {
      DeclsInSkip([], Declared(4, a3, Pos(30, 13), Initialized, []), sc);
      DeclsInSkip([] + [Declared(4, a3, Pos(30, 13), Initialized, [])], Referenced(4, a3, Pos(31, 34), false, false, []), sc);
      DeclsInSkip([] + [Declared(4, a3, Pos(30, 13), Initialized, [])] + [Referenced(4, a3, Pos(31, 34), false, false, [])], OutAssigned(4, [], []), sc);
      DeclsInSkip([] + [Declared(4, a3, Pos(30, 13), Initialized, [])] + [Referenced(4, a3, Pos(31, 34), false, false, [])] + [OutAssigned(4, [], [])], Referenced(15, a2, Pos(32, 16), false, false, []), sc);
      DeclsInSkip([] + [Declared(4, a3, Pos(30, 13), Initialized, [])] + [Referenced(4, a3, Pos(31, 34), false, false, [])] + [OutAssigned(4, [], [])] + [Referenced(15, a2, Pos(32, 16), false, false, [])], Declared(16, a3, Pos(34, 42), Initialized, [5]), sc);
      DeclsInSkip([] + [Declared(4, a3, Pos(30, 13), Initialized, [])] + [Referenced(4, a3, Pos(31, 34), false, false, [])] + [OutAssigned(4, [], [])] + [Referenced(15, a2, Pos(32, 16), false, false, [])] + [Declared(16, a3, Pos(34, 42), Initialized, [5])], OutAssigned(16, [], [5]), sc);
      DeclsInSkip([] + [Declared(4, a3, Pos(30, 13), Initialized, [])] + [Referenced(4, a3, Pos(31, 34), false, false, [])] + [OutAssigned(4, [], [])] + [Referenced(15, a2, Pos(32, 16), false, false, [])] + [Declared(16, a3, Pos(34, 42), Initialized, [5])] + [OutAssigned(16, [], [5])], Declared(17, c1, Pos(37, 22), Initialized, []), sc);
      DeclsInSkip([] + [Declared(4, a3, Pos(30, 13), Initialized, [])] + [Referenced(4, a3, Pos(31, 34), false, false, [])] + [OutAssigned(4, [], [])] + [Referenced(15, a2, Pos(32, 16), false, false, [])] + [Declared(16, a3, Pos(34, 42), Initialized, [5])] + [OutAssigned(16, [], [5])] + [Declared(17, c1, Pos(37, 22), Initialized, [])], Declared(17, c1, Pos(37, 42), Initialized, []), sc);
      AppendNil(DeclsIn(evs, sc));
    }
  }

  /** The locals declared once events 32 to 39 follow some events. */
  lemma {:induction false} Decls4(j: string, k: string, n: string, q: string, a1: string, a2: string, a3: string, c1: string, c2: string, c3: string, c4: string, d1: string, evs: seq<Event>, sc: nat)
    requires DeclsIn(evs, sc) == DeclaredBy(j, k, n, q, a1, a2, a3, c1, c2, c3, c4, d1, 4, sc)
    ensures DeclsIn(evs + Chunk4(j, k, n, q, a1, a2, a3, c1, c2, c3, c4, d1), sc) == DeclaredBy(j, k, n, q, a1, a2, a3, c1, c2, c3, c4, d1, 5, sc)
  {
    DeclsInAppend(evs, Chunk4(j, k, n, q, a1, a2, a3, c1, c2, c3, c4, d1), sc);
    assert DeclsIn([], sc) == [];
    if sc == 19 {
      DeclsInAdd([], Declared(19, c2, Pos(40, 21), Initialized, []), 19);
      DeclsInSkip([] + [Declared(19, c2, Pos(40, 21), Initialized, [])], Declared(20, c2, Pos(41, 42), Initialized, [7]), 19);
      DeclsInSkip([] + [Declared(19, c2, Pos(40, 21), Initialized, [])] + [Declared(20, c2, Pos(41, 42), Initialized, [7])], OutAssigned(20, [], [7]), 19);
      DeclsInSkip([] + [Declared(19, c2, Pos(40, 21), Initialized, [])] + [Declared(20, c2, Pos(41, 42), Initialized, [7])] + [OutAssigned(20, [], [7])], Declared(21, c3, Pos(43, 21), Initialized, []), 19);
      DeclsInSkip([] + [Declared(19, c2, Pos(40, 21), Initialized, [])] + [Declared(20, c2, Pos(41, 42), Initialized, [7])] + [OutAssigned(20, [], [7])] + [Declared(21, c3, Pos(43, 21), Initialized, [])], Declared(22, c3, Pos(45, 42), Initialized, [8]), 19);
      DeclsInSkip([] + [Declared(19, c2, Pos(40, 21), Initialized, [])] + [Declared(20, c2, Pos(41, 42), Initialized, [7])] + [OutAssigned(20, [], [7])] + [Declared(21, c3, Pos(43, 21), Initialized, [])] + [Declared(22, c3, Pos(45, 42), Initialized, [8])], OutAssigned(22, [], [8]), 19);
      DeclsInSkip([] + [Declared(19, c2, Pos(40, 21), Initialized, [])] + [Declared(20, c2, Pos(41, 42), Initialized, [7])] + [OutAssigned(20, [], [7])] + [Declared(21, c3, Pos(43, 21), Initialized, [])] + [Declared(22, c3, Pos(45, 42), Initialized, [8])] + [OutAssigned(22, [], [8])], Declared(23, c4, Pos(48, 21), Initialized, []), 19);
      DeclsInSkip([] + [Declared(19, c2, Pos(40, 21), Initialized, [])] + [Declared(20, c2, Pos(41, 42), Initialized, [7])] + [OutAssigned(20, [], [7])] + [Declared(21, c3, Pos(43, 21), Initialized, [])] + [Declared(22, c3, Pos(45, 42), Initialized, [8])] + [OutAssigned(22, [], [8])] + [Declared(23, c4, Pos(48, 21), Initialized, [])], Declared(24, c4, Pos(50, 17), Initialized, [9]), 19);
    } else if sc == 20 {
      DeclsInSkip([], Declared(19, c2, Pos(40, 21), Initialized, []), 20);
      DeclsInAdd([] + [Declared(19, c2, Pos(40, 21), Initialized, [])], Declared(20, c2, Pos(41, 42), Initialized, [7]), 20);
      DeclsInSkip([] + [Declared(19, c2, Pos(40, 21), Initialized, [])] + [Declared(20, c2, Pos(41, 42), Initialized, [7])], OutAssigned(20, [], [7]), 20);
      DeclsInSkip([] + [Declared(19, c2, Pos(40, 21), Initialized, [])] + [Declared(20, c2, Pos(41, 42), Initialized, [7])] + [OutAssigned(20, [], [7])], Declared(21, c3, Pos(43, 21), Initialized, []), 20);
      DeclsInSkip([] + [Declared(19, c2, Pos(40, 21), Initialized, [])] + [Declared(20, c2, Pos(41, 42), Initialized, [7])] + [OutAssigned(20, [], [7])] + [Declared(21, c3, Pos(43, 21), Initialized, [])], Declared(22, c3, Pos(45, 42), Initialized, [8]), 20);
      DeclsInSkip([] + [Declared(19, c2, Pos(40, 21), Initialized, [])] + [Declared(20, c2, Pos(41, 42), Initialized, [7])] + [OutAssigned(20, [], [7])] + [Declared(21, c3, Pos(43, 21), Initialized, [])] + [Declared(22, c3, Pos(45, 42), Initialized, [8])], OutAssigned(22, [], [8]), 20);
      DeclsInSkip([] + [Declared(19, c2, Pos(40, 21), Initialized, [])] + [Declared(20, c2, Pos(41, 42), Initialized, [7])] + [OutAssigned(20, [], [7])] + [Declared(21, c3, Pos(43, 21), Initialized, [])] + [Declared(22, c3, Pos(45, 42), Initialized, [8])] + [OutAssigned(22, [], [8])], Declared(23, c4, Pos(48, 21), Initialized, []), 20);
      DeclsInSkip([] + [Declared(19, c2, Pos(40, 21), Initialized, [])] + [Declared(20, c2, Pos(41, 42), Initialized, [7])] + [OutAssigned(20, [], [7])] + [Declared(21, c3, Pos(43, 21), Initialized, [])] + [Declared(22, c3, Pos(45, 42), Initialized, [8])] + [OutAssigned(22, [], [8])] + [Declared(23, c4, Pos(48, 21), Initialized, [])], Declared(24, c4, Pos(50, 17), Initialized, [9]), 20);
    } else if sc == 21 {
      DeclsInSkip([], Declared(19, c2, Pos(40, 21), Initialized, []), 21);
      DeclsInSkip([] + [Declared(19, c2, Pos(40, 21), Initialized, [])], Declared(20, c2, Pos(41, 42), Initialized, [7]), 21);
      DeclsInSkip([] + [Declared(19, c2, Pos(40, 21), Initialized, [])] + [Declared(20, c2, Pos(41, 42), Initialized, [7])], OutAssigned(20, [], [7]), 21);
      DeclsInAdd([] + [Declared(19, c2, Pos(40, 21), Initialized, [])] + [Declared(20, c2, Pos(41, 42), Initialized, [7])] + [OutAssigned(20, [], [7])], Declared(21, c3, Pos(43, 21), Initialized, []), 21);
      DeclsInSkip([] + [Declared(19, c2, Pos(40, 21), Initialized, [])] + [Declared(20, c2, Pos(41, 42), Initialized, [7])] + [OutAssigned(20, [], [7])] + [Declared(21, c3, Pos(43, 21), Initialized, [])], Declared(22, c3, Pos(45, 42), Initialized, [8]), 21);
      DeclsInSkip([] + [Declared(19, c2, Pos(40, 21), Initialized, [])] + [Declared(20, c2, Pos(41, 42), Initialized, [7])] + [OutAssigned(20, [], [7])] + [Declared(21, c3, Pos(43, 21), Initialized, [])] + [Declared(22, c3, Pos(45, 42), Initialized, [8])], OutAssigned(22, [], [8]), 21);
      DeclsInSkip([] + [Declared(19, c2, Pos(40, 21), Initialized, [])] + [Declared(20, c2, Pos(41, 42), Initialized, [7])] + [OutAssigned(20, [], [7])] + [Declared(21, c3, Pos(43, 21), Initialized, [])] + [Declared(22, c3, Pos(45, 42), Initialized, [8])] + [OutAssigned(22, [], [8])], Declared(23, c4, Pos(48, 21), Initialized, []), 21);
      DeclsInSkip([] + [Declared(19, c2, Pos(40, 21), Initialized, [])] + [Declared(20, c2, Pos(41, 42), Initialized, [7])] + [OutAssigned(20, [], [7])] + [Declared(21, c3, Pos(43, 21), Initialized, [])] + [Declared(22, c3, Pos(45, 42), Initialized, [8])] + [OutAssigned(22, [], [8])] + [Declared(23, c4, Pos(48, 21), Initialized, [])], Declared(24, c4, Pos(50, 17), Initialized, [9]), 21);
    } else if sc == 22 {
      DeclsInSkip([], Declared(19, c2, Pos(40, 21), Initialized, []), 22);
      DeclsInSkip([] + [Declared(19, c2, Pos(40, 21), Initialized, [])], Declared(20, c2, Pos(41, 42), Initialized, [7]), 22);
      DeclsInSkip([] + [Declared(19, c2, Pos(40, 21), Initialized, [])] + [Declared(20, c2, Pos(41, 42), Initialized, [7])], OutAssigned(20, [], [7]), 22);
      DeclsInSkip([] + [Declared(19, c2, Pos(40, 21), Initialized, [])] + [Declared(20, c2, Pos(41, 42), Initialized, [7])] + [OutAssigned(20, [], [7])], Declared(21, c3, Pos(43, 21), Initialized, []), 22);
      DeclsInAdd([] + [Declared(19, c2, Pos(40, 21), Initialized, [])] + [Declared(20, c2, Pos(41, 42), Initialized, [7])] + [OutAssigned(20, [], [7])] + [Declared(21, c3, Pos(43, 21), Initialized, [])], Declared(22, c3, Pos(45, 42), Initialized, [8]), 22);
      DeclsInSkip([] + [Declared(19, c2, Pos(40, 21), Initialized, [])] + [Declared(20, c2, Pos(41, 42), Initialized, [7])] + [OutAssigned(20, [], [7])] + [Declared(21, c3, Pos(43, 21), Initialized, [])] + [Declared(22, c3, Pos(45, 42), Initialized, [8])], OutAssigned(22, [], [8]), 22);
      DeclsInSkip([] + [Declared(19, c2, Pos(40, 21), Initialized, [])] + [Declared(20, c2, Pos(41, 42), Initialized, [7])] + [OutAssigned(20, [], [7])] + [Declared(21, c3, Pos(43, 21), Initialized, [])] + [Declared(22, c3, Pos(45, 42), Initialized, [8])] + [OutAssigned(22, [], [8])], Declared(23, c4, Pos(48, 21), Initialized, []), 22);
      DeclsInSkip([] + [Declared(19, c2, Pos(40, 21), Initialized, [])] + [Declared(20, c2, Pos(41, 42), Initialized, [7])] + [OutAssigned(20, [], [7])] + [Declared(21, c3, Pos(43, 21), Initialized, [])] + [Declared(22, c3, Pos(45, 42), Initialized, [8])] + [OutAssigned(22, [], [8])] + [Declared(23, c4, Pos(48, 21), Initialized, [])], Declared(24, c4, Pos(50, 17), Initialized, [9]), 22);
    } else if sc == 23 {
      DeclsInSkip([], Declared(19, c2, Pos(40, 21), Initialized, []), 23);
      DeclsInSkip([] + [Declared(19, c2, Pos(40, 21), Initialized, [])], Declared(20, c2, Pos(41, 42), Initialized, [7]), 23);
      DeclsInSkip([] + [Declared(19, c2, Pos(40, 21), Initialized, [])] + [Declared(20, c2, Pos(41, 42), Initialized, [7])], OutAssigned(20, [], [7]), 23);
      DeclsInSkip([] + [Declared(19, c2, Pos(40, 21), Initialized, [])] + [Declared(20, c2, Pos(41, 42), Initialized, [7])] + [OutAssigned(20, [], [7])], Declared(21, c3, Pos(43, 21), Initialized, []), 23);
      DeclsInSkip([] + [Declared(19, c2, Pos(40, 21), Initialized, [])] + [Declared(20, c2, Pos(41, 42), Initialized, [7])] + [OutAssigned(20, [], [7])] + [Declared(21, c3, Pos(43, 21), Initialized, [])], Declared(22, c3, Pos(45, 42), Initialized, [8]), 23);
      DeclsInSkip([] + [Declared(19, c2, Pos(40, 21), Initialized, [])] + [Declared(20, c2, Pos(41, 42), Initialized, [7])] + [OutAssigned(20, [], [7])] + [Declared(21, c3, Pos(43, 21), Initialized, [])] + [Declared(22, c3, Pos(45, 42), Initialized, [8])], OutAssigned(22, [], [8]), 23);
      DeclsInAdd([] + [Declared(19, c2, Pos(40, 21), Initialized, [])] + [Declared(20, c2, Pos(41, 42), Initialized, [7])] + [OutAssigned(20, [], [7])] + [Declared(21, c3, Pos(43, 21), Initialized, [])] + [Declared(22, c3, Pos(45, 42), Initialized, [8])] + [OutAssigned(22, [], [8])], Declared(23, c4, Pos(48, 21), Initialized, []), 23);
      DeclsInSkip([] + [Declared(19, c2, Pos(40, 21), Initialized, [])] + [Declared(20, c2, Pos(41, 42), Initialized, [7])] + [OutAssigned(20, [], [7])] + [Declared(21, c3, Pos(43, 21), Initialized, [])] + [Declared(22, c3, Pos(45, 42), Initialized, [8])] + [OutAssigned(22, [], [8])] + [Declared(23, c4, Pos(48, 21), Initialized, [])], Declared(24, c4, Pos(50, 17), Initialized, [9]), 23);
    } else if sc == 24 {
      DeclsInSkip([], Declared(19, c2, Pos(40, 21), Initialized, []), 24);
      DeclsInSkip([] + [Declared(19, c2, Pos(40, 21), Initialized, [])], Declared(20, c2, Pos(41, 42), Initialized, [7]), 24);
      DeclsInSkip([] + [Declared(19, c2, Pos(40, 21), Initialized, [])] + [Declared(20, c2, Pos(41, 42), Initialized, [7])], OutAssigned(20, [], [7]), 24);
      DeclsInSkip([] + [Declared(19, c2, Pos(40, 21), Initialized, [])] + [Declared(20, c2, Pos(41, 42), Initialized, [7])] + [OutAssigned(20, [], [7])], Declared(21, c3, Pos(43, 21), Initialized, []), 24);
      DeclsInSkip([] + [Declared(19, c2, Pos(40, 21), Initialized, [])] + [Declared(20, c2, Pos(41, 42), Initialized, [7])] + [OutAssigned(20, [], [7])] + [Declared(21, c3, Pos(43, 21), Initialized, [])], Declared(22, c3, Pos(45, 42), Initialized, [8]), 24);
      DeclsInSkip([] + [Declared(19, c2, Pos(40, 21), Initialized, [])] + [Declared(20, c2, Pos(41, 42), Initialized, [7])] + [OutAssigned(20, [], [7])] + [Declared(21, c3, Pos(43, 21), Initialized, [])] + [Declared(22, c3, Pos(45, 42), Initialized, [8])], OutAssigned(22, [], [8]), 24);
      DeclsInSkip([] + [Declared(19, c2, Pos(40, 21), Initialized, [])] + [Declared(20, c2, Pos(41, 42), Initialized, [7])] + [OutAssigned(20, [], [7])] + [Declared(21, c3, Pos(43, 21), Initialized, [])] + [Declared(22, c3, Pos(45, 42), Initialized, [8])] + [OutAssigned(22, [], [8])], Declared(23, c4, Pos(48, 21), Initialized, []), 24);
      DeclsInAdd([] + [Declared(19, c2, Pos(40, 21), Initialized, [])] + [Declared(20, c2, Pos(41, 42), Initialized, [7])] + [OutAssigned(20, [], [7])] + [Declared(21, c3, Pos(43, 21), Initialized, [])] + [Declared(22, c3, Pos(45, 42), Initialized, [8])] + [OutAssigned(22, [], [8])] + [Declared(23, c4, Pos(48, 21), Initialized, [])], Declared(24, c4, Pos(50, 17), Initialized, [9]), 24);
    } else {
      DeclsInSkip([], Declared(19, c2, Pos(40, 21), Initialized, []), sc);
      DeclsInSkip([] + [Declared(19, c2, Pos(40, 21), Initialized, [])], Declared(20, c2, Pos(41, 42), Initialized, [7]), sc);
      DeclsInSkip([] + [Declared(19, c2, Pos(40, 21), Initialized, [])] + [Declared(20, c2, Pos(41, 42), Initialized, [7])], OutAssigned(20, [], [7]), sc);
      DeclsInSkip([] + [Declared(19, c2, Pos(40, 21), Initialized, [])] + [Declared(20, c2, Pos(41, 42), Initialized, [7])] + [OutAssigned(20, [], [7])], Declared(21, c3, Pos(43, 21), Initialized, []), sc);
      DeclsInSkip([] + [Declared(19, c2, Pos(40, 21), Initialized, [])] + [Declared(20, c2, Pos(41, 42), Initialized, [7])] + [OutAssigned(20, [], [7])] + [Declared(21, c3, Pos(43, 21), Initialized, [])], Declared(22, c3, Pos(45, 42), Initialized, [8]), sc);
      DeclsInSkip([] + [Declared(19, c2, Pos(40, 21), Initialized, [])] + [Declared(20, c2, Pos(41, 42), Initialized, [7])] + [OutAssigned(20, [], [7])] + [Declared(21, c3, Pos(43, 21), Initialized, [])] + [Declared(22, c3, Pos(45, 42), Initialized, [8])], OutAssigned(22, [], [8]), sc);
      DeclsInSkip([] + [Declared(19, c2, Pos(40, 21), Initialized, [])] + [Declared(20, c2, Pos(41, 42), Initialized, [7])] + [OutAssigned(20, [], [7])] + [Declared(21, c3, Pos(43, 21), Initialized, [])] + [Declared(22, c3, Pos(45, 42), Initialized, [8])] + [OutAssigned(22, [], [8])], Declared(23, c4, Pos(48, 21), Initialized, []), sc);
      DeclsInSkip([] + [Declared(19, c2, Pos(40, 21), Initialized, [])] + [Declared(20, c2, Pos(41, 42), Initialized, [7])] + [OutAssigned(20, [], [7])] + [Declared(21, c3, Pos(43, 21), Initialized, [])] + [Declared(22, c3, Pos(45, 42), Initialized, [8])] + [OutAssigned(22, [], [8])] + [Declared(23, c4, Pos(48, 21), Initialized, [])], Declared(24, c4, Pos(50, 17), Initialized, [9]), sc);
      AppendNil(DeclsIn(evs, sc));
    }
  }

  /** The locals declared once events 40 to 45 follow some events. */
  lemma {:induction false} Decls5(j: string, k: string, n: string, q: string, a1: string, a2: string, a3: string, c1: string, c2: string, c3: string, c4: string, d1: string, evs: seq<Event>, sc: nat)
    requires DeclsIn(evs, sc) == DeclaredBy(j, k, n, q, a1, a2, a3, c1, c2, c3, c4, d1, 5, sc)
    ensures DeclsIn(evs + Chunk5(j, k, n, q, a1, a2, a3, c1, c2, c3, c4, d1), sc) == DeclaredBy(j, k, n, q, a1, a2, a3, c1, c2, c3, c4, d1, 6, sc)
  {
    DeclsInAppend(evs, Chunk5(j, k, n, q, a1, a2, a3, c1, c2, c3, c4, d1), sc);
    assert DeclsIn([], sc) == [];
    if sc == 26 {
      DeclsInSkip([], Referenced(24, c4, Pos(51, 38), false, false, [9]), 26);
      DeclsInSkip([] + [Referenced(24, c4, Pos(51, 38), false, false, [9])], OutAssigned(24, [], [9]), 26);
      DeclsInSkip([] + [Referenced(24, c4, Pos(51, 38), false, false, [9])] + [OutAssigned(24, [], [9])], Referenced(25, a2, Pos(54, 16), false, false, []), 26);
      DeclsInAdd([] + [Referenced(24, c4, Pos(51, 38), false, false, [9])] + [OutAssigned(24, [], [9])] + [Referenced(25, a2, Pos(54, 16), false, false, [])], Declared(26, d1, Pos(55, 43), Initialized, [10]), 26);
      DeclsInAdd([] + [Referenced(24, c4, Pos(51, 38), false, false, [9])] + [OutAssigned(24, [], [9])] + [Referenced(25, a2, Pos(54, 16), false, false, [])] + [Declared(26, d1, Pos(55, 43), Initialized, [10])], Declared(26, d1, Pos(55, 58), Initialized, [10]), 26);
      DeclsInSkip([] + [Referenced(24, c4, Pos(51, 38), false, false, [9])] + [OutAssigned(24, [], [9])] + [Referenced(25, a2, Pos(54, 16), false, false, [])] + [Declared(26, d1, Pos(55, 43), Initialized, [10])] + [Declared(26, d1, Pos(55, 58), Initialized, [10])], OutAssigned(26, [], [10]), 26);
    } else {
      DeclsInSkip([], Referenced(24, c4, Pos(51, 38), false, false, [9]), sc);
      DeclsInSkip([] + [Referenced(24, c4, Pos(51, 38), false, false, [9])], OutAssigned(24, [], [9]), sc);
      DeclsInSkip([] + [Referenced(24, c4, Pos(51, 38), false, false, [9])] + [OutAssigned(24, [], [9])], Referenced(25, a2, Pos(54, 16), false, false, []), sc);
      DeclsInSkip([] + [Referenced(24, c4, Pos(51, 38), false, false, [9])] + [OutAssigned(24, [], [9])] + [Referenced(25, a2, Pos(54, 16), false, false, [])], Declared(26, d1, Pos(55, 43), Initialized, [10]), sc);
      DeclsInSkip([] + [Referenced(24, c4, Pos(51, 38), false, false, [9])] + [OutAssigned(24, [], [9])] + [Referenced(25, a2, Pos(54, 16), false, false, [])] + [Declared(26, d1, Pos(55, 43), Initialized, [10])], Declared(26, d1, Pos(55, 58), Initialized, [10]), sc);
      DeclsInSkip([] + [Referenced(24, c4, Pos(51, 38), false, false, [9])] + [OutAssigned(24, [], [9])] + [Referenced(25, a2, Pos(54, 16), false, false, [])] + [Declared(26, d1, Pos(55, 43), Initialized, [10])] + [Declared(26, d1, Pos(55, 58), Initialized, [10])], OutAssigned(26, [], [10]), sc);
      AppendNil(DeclsIn(evs, sc));
    }
  }

  lemma {:induction false} DeclsStage0(j: string, k: string, n: string, q: string, a1: string, a2: string, a3: string, c1: string, c2: string, c3: string, c4: string, d1: string, evs: seq<Event>, sc: nat)
    requires DeclsIn(evs, sc) == DeclaredBy(j, k, n, q, a1, a2, a3, c1, c2, c3, c4, d1, 0, sc)
    ensures DeclsIn(evs + Chunk0(j, k, n, q, a1, a2, a3, c1, c2, c3, c4, d1) + Chunk1(j, k, n, q, a1, a2, a3, c1, c2, c3, c4, d1) + Chunk2(j, k, n, q, a1, a2, a3, c1, c2, c3, c4, d1) + Chunk3(j, k, n, q, a1, a2, a3, c1, c2, c3, c4, d1) + Chunk4(j, k, n, q, a1, a2, a3, c1, c2, c3, c4, d1) + Chunk5(j, k, n, q, a1, a2, a3, c1, c2, c3, c4, d1), sc) == DeclaredBy(j, k, n, q, a1, a2, a3, c1, c2, c3, c4, d1, 6, sc)
  {
    Decls0(j, k, n, q, a1, a2, a3, c1, c2, c3, c4, d1, evs, sc);
    Decls1(j, k, n, q, a1, a2, a3, c1, c2, c3, c4, d1, evs + Chunk0(j, k, n, q, a1, a2, a3, c1, c2, c3, c4, d1), sc);
    Decls2(j, k, n, q, a1, a2, a3, c1, c2, c3, c4, d1, evs + Chunk0(j, k, n, q, a1, a2, a3, c1, c2, c3, c4, d1) + Chunk1(j, k, n, q, a1, a2, a3, c1, c2, c3, c4, d1), sc);
    Decls3(j, k, n, q, a1, a2, a3, c1, c2, c3, c4, d1, evs + Chunk0(j, k, n, q, a1, a2, a3, c1, c2, c3, c4, d1) + Chunk1(j, k, n, q, a1, a2, a3, c1, c2, c3, c4, d1) + Chunk2(j, k, n, q, a1, a2, a3, c1, c2, c3, c4, d1), sc);
    Decls4(j, k, n, q, a1, a2, a3, c1, c2, c3, c4, d1, evs + Chunk0(j, k, n, q, a1, a2, a3, c1, c2, c3, c4, d1) + Chunk1(j, k, n, q, a1, a2, a3, c1, c2, c3, c4, d1) + Chunk2(j, k, n, q, a1, a2, a3, c1, c2, c3, c4, d1) + Chunk3(j, k, n, q, a1, a2, a3, c1, c2, c3, c4, d1), sc);
    Decls5(j, k, n, q, a1, a2, a3, c1, c2, c3, c4, d1, evs + Chunk0(j, k, n, q, a1, a2, a3, c1, c2, c3, c4, d1) + Chunk1(j, k, n, q, a1, a2, a3, c1, c2, c3, c4, d1) + Chunk2(j, k, n, q, a1, a2, a3, c1, c2, c3, c4, d1) + Chunk3(j, k, n, q, a1, a2, a3, c1, c2, c3, c4, d1) + Chunk4(j, k, n, q, a1, a2, a3, c1, c2, c3, c4, d1), sc);
  }

  /** The locals of every scope of a tree whose events are the test's, as the table gives them. */
  ghost predicate LocalsFit(j: string, k: string, n: string, q: string, a1: string, a2: string, a3: string, c1: string, c2: string, c3: string, c4: string, d1: string, tr: Tree) {
    forall sc: nat {:trigger DeclaredBy(j, k, n, q, a1, a2, a3, c1, c2, c3, c4, d1, 6, sc)} :: LocalsOf(tr, sc) == DeclaredBy(j, k, n, q, a1, a2, a3, c1, c2, c3, c4, d1, 6, sc)
  }

  /** The locals of every scope. */
  lemma {:induction false} LocalsAll(j: string, k: string, n: string, q: string, a1: string, a2: string, a3: string, c1: string, c2: string, c3: string, c4: string, d1: string, tr: Tree)
    requires tr.events == Trace(j, k, n, q, a1, a2, a3, c1, c2, c3, c4, d1)
    ensures LocalsFit(j, k, n, q, a1, a2, a3, c1, c2, c3, c4, d1, tr)
  {
    forall sc: nat
      ensures LocalsOf(tr, sc) == DeclaredBy(j, k, n, q, a1, a2, a3, c1, c2, c3, c4, d1, 6, sc)
    {
      assert DeclsIn([], sc) == [] == DeclaredBy(j, k, n, q, a1, a2, a3, c1, c2, c3, c4, d1, 0, sc);
      DeclsStage0(j, k, n, q, a1, a2, a3, c1, c2, c3, c4, d1, [], sc);
    }
  }

  /** The locals scope 0 declares, in order. */
  lemma {:induction false} Locals0(j: string, k: string, n: string, q: string, a1: string, a2: string, a3: string, c1: string, c2: string, c3: string, c4: string, d1: string)
    ensures DeclaredBy(j, k, n, q, a1, a2, a3, c1, c2, c3, c4, d1, 6, 0) == []
  {
    AppendNil([]);
    assert DeclaredBy(j, k, n, q, a1, a2, a3, c1, c2, c3, c4, d1, 1, 0) == [];
    assert DeclaredBy(j, k, n, q, a1, a2, a3, c1, c2, c3, c4, d1, 2, 0) == [];
    assert DeclaredBy(j, k, n, q, a1, a2, a3, c1, c2, c3, c4, d1, 3, 0) == [];
    assert DeclaredBy(j, k, n, q, a1, a2, a3, c1, c2, c3, c4, d1, 4, 0) == [];
    assert DeclaredBy(j, k, n, q, a1, a2, a3, c1, c2, c3, c4, d1, 5, 0) == [];
    assert DeclaredBy(j, k, n, q, a1, a2, a3, c1, c2, c3, c4, d1, 6, 0) == [];
  }

  /** The locals scope 3 declares, in order. */
  lemma {:induction false} Locals3(j: string, k: string, n: string, q: string, a1: string, a2: string, a3: string, c1: string, c2: string, c3: string, c4: string, d1: string)
    ensures DeclaredBy(j, k, n, q, a1, a2, a3, c1, c2, c3, c4, d1, 6, 3) == []
  {
    AppendNil([]);
    assert DeclaredBy(j, k, n, q, a1, a2, a3, c1, c2, c3, c4, d1, 1, 3) == [];
    assert DeclaredBy(j, k, n, q, a1, a2, a3, c1, c2, c3, c4, d1, 2, 3) == [];
    assert DeclaredBy(j, k, n, q, a1, a2, a3, c1, c2, c3, c4, d1, 3, 3) == [];
    assert DeclaredBy(j, k, n, q, a1, a2, a3, c1, c2, c3, c4, d1, 4, 3) == [];
    assert DeclaredBy(j, k, n, q, a1, a2, a3, c1, c2, c3, c4, d1, 5, 3) == [];
    assert DeclaredBy(j, k, n, q, a1, a2, a3, c1, c2, c3, c4, d1, 6, 3) == [];
  }

  /** The locals scope 4 declares, in order. */
  lemma {:induction false} Locals4(j: string, k: string, n: string, q: string, a1: string, a2: string, a3: string, c1: string, c2: string, c3: string, c4: string, d1: string)
    ensures DeclaredBy(j, k, n, q, a1, a2, a3, c1, c2, c3, c4, d1, 6, 4) == [Local(a1, Pos(20, 13)), Local(a2, Pos(25, 13)), Local(a3, Pos(30, 13))]
  {
    AppendNil([]);
    assert DeclaredBy(j, k, n, q, a1, a2, a3, c1, c2, c3, c4, d1, 1, 4) == [];
    assert DeclaredBy(j, k, n, q, a1, a2, a3, c1, c2, c3, c4, d1, 2, 4) == [Local(a1, Pos(20, 13))];
    assert DeclaredBy(j, k, n, q, a1, a2, a3, c1, c2, c3, c4, d1, 3, 4) == [Local(a1, Pos(20, 13)), Local(a2, Pos(25, 13))];
    assert DeclaredBy(j, k, n, q, a1, a2, a3, c1, c2, c3, c4, d1, 4, 4) == [Local(a1, Pos(20, 13)), Local(a2, Pos(25, 13)), Local(a3, Pos(30, 13))];
    AppendNil([Local(a1, Pos(20, 13)), Local(a2, Pos(25, 13)), Local(a3, Pos(30, 13))]);
    assert DeclaredBy(j, k, n, q, a1, a2, a3, c1, c2, c3, c4, d1, 5, 4) == [Local(a1, Pos(20, 13)), Local(a2, Pos(25, 13)), Local(a3, Pos(30, 13))];
    assert DeclaredBy(j, k, n, q, a1, a2, a3, c1, c2, c3, c4, d1, 6, 4) == [Local(a1, Pos(20, 13)), Local(a2, Pos(25, 13)), Local(a3, Pos(30, 13))];
  }

  /** The locals scope 5 declares, in order. */
  lemma {:induction false} Locals5(j: string, k: string, n: string, q: string, a1: string, a2: string, a3: string, c1: string, c2: string, c3: string, c4: string, d1: string)
    ensures DeclaredBy(j, k, n, q, a1, a2, a3, c1, c2, c3, c4, d1, 6, 5) == [Local(j, Pos(6, 21))]
  {
    assert DeclaredBy(j, k, n, q, a1, a2, a3, c1, c2, c3, c4, d1, 1, 5) == [Local(j, Pos(6, 21))];
    AppendNil([Local(j, Pos(6, 21))]);
    assert DeclaredBy(j, k, n, q, a1, a2, a3, c1, c2, c3, c4, d1, 2, 5) == [Local(j, Pos(6, 21))];
    assert DeclaredBy(j, k, n, q, a1, a2, a3, c1, c2, c3, c4, d1, 3, 5) == [Local(j, Pos(6, 21))];
    assert DeclaredBy(j, k, n, q, a1, a2, a3, c1, c2, c3, c4, d1, 4, 5) == [Local(j, Pos(6, 21))];
    assert DeclaredBy(j, k, n, q, a1, a2, a3, c1, c2, c3, c4, d1, 5, 5) == [Local(j, Pos(6, 21))];
    assert DeclaredBy(j, k, n, q, a1, a2, a3, c1, c2, c3, c4, d1, 6, 5) == [Local(j, Pos(6, 21))];
  }

  /** The locals scope 6 declares, in order. */
  lemma {:induction false} Locals6(j: string, k: string, n: string, q: string, a1: string, a2: string, a3: string, c1: string, c2: string, c3: string, c4: string, d1: string)
    ensures DeclaredBy(j, k, n, q, a1, a2, a3, c1, c2, c3, c4, d1, 6, 6) == [Local(k, Pos(7, 47))]
  {
    assert DeclaredBy(j, k, n, q, a1, a2, a3, c1, c2, c3, c4, d1, 1, 6) == [Local(k, Pos(7, 47))];
    AppendNil([Local(k, Pos(7, 47))]);
    assert DeclaredBy(j, k, n, q, a1, a2, a3, c1, c2, c3, c4, d1, 2, 6) == [Local(k, Pos(7, 47))];
    assert DeclaredBy(j, k, n, q, a1, a2, a3, c1, c2, c3, c4, d1, 3, 6) == [Local(k, Pos(7, 47))];
    assert DeclaredBy(j, k, n, q, a1, a2, a3, c1, c2, c3, c4, d1, 4, 6) == [Local(k, Pos(7, 47))];
    assert DeclaredBy(j, k, n, q, a1, a2, a3, c1, c2, c3, c4, d1, 5, 6) == [Local(k, Pos(7, 47))];
    assert DeclaredBy(j, k, n, q, a1, a2, a3, c1, c2, c3, c4, d1, 6, 6) == [Local(k, Pos(7, 47))];
  }

  /** The locals scope 7 declares, in order. */
  lemma {:induction false} Locals7(j: string, k: string, n: string, q: string, a1: string, a2: string, a3: string, c1: string, c2: string, c3: string, c4: string, d1: string)
    ensures DeclaredBy(j, k, n, q, a1, a2, a3, c1, c2, c3, c4, d1, 6, 7) == []
  {
    AppendNil([]);
    assert DeclaredBy(j, k, n, q, a1, a2, a3, c1, c2, c3, c4, d1, 1, 7) == [];
    assert DeclaredBy(j, k, n, q, a1, a2, a3, c1, c2, c3, c4, d1, 2, 7) == [];
    assert DeclaredBy(j, k, n, q, a1, a2, a3, c1, c2, c3, c4, d1, 3, 7) == [];
    assert DeclaredBy(j, k, n, q, a1, a2, a3, c1, c2, c3, c4, d1, 4, 7) == [];
    assert DeclaredBy(j, k, n, q, a1, a2, a3, c1, c2, c3, c4, d1, 5, 7) == [];
    assert DeclaredBy(j, k, n, q, a1, a2, a3, c1, c2, c3, c4, d1, 6, 7) == [];
  }

  /** The locals scope 8 declares, in order. */
  lemma {:induction false} Locals8(j: string, k: string, n: string, q: string, a1: string, a2: string, a3: string, c1: string, c2: string, c3: string, c4: string, d1: string)
    ensures DeclaredBy(j, k, n, q, a1, a2, a3, c1, c2, c3, c4, d1, 6, 8) == [Local(n, Pos(13, 42))]
  {
    AppendNil([]);
    assert DeclaredBy(j, k, n, q, a1, a2, a3, c1, c2, c3, c4, d1, 1, 8) == [];
    assert DeclaredBy(j, k, n, q, a1, a2, a3, c1, c2, c3, c4, d1, 2, 8) == [Local(n, Pos(13, 42))];
    AppendNil([Local(n, Pos(13, 42))]);
    assert DeclaredBy(j, k, n, q, a1, a2, a3, c1, c2, c3, c4, d1, 3, 8) == [Local(n, Pos(13, 42))];
    assert DeclaredBy(j, k, n, q, a1, a2, a3, c1, c2, c3, c4, d1, 4, 8) == [Local(n, Pos(13, 42))];
    assert DeclaredBy(j, k, n, q, a1, a2, a3, c1, c2, c3, c4, d1, 5, 8) == [Local(n, Pos(13, 42))];
    assert DeclaredBy(j, k, n, q, a1, a2, a3, c1, c2, c3, c4, d1, 6, 8) == [Local(n, Pos(13, 42))];
  }

  /** The locals scope 9 declares, in order. */
  lemma {:induction false} Locals9(j: string, k: string, n: string, q: string, a1: string, a2: string, a3: string, c1: string, c2: string, c3: string, c4: string, d1: string)
    ensures DeclaredBy(j, k, n, q, a1, a2, a3, c1, c2, c3, c4, d1, 6, 9) == []
  {
    AppendNil([]);
    assert DeclaredBy(j, k, n, q, a1, a2, a3, c1, c2, c3, c4, d1, 1, 9) == [];
    assert DeclaredBy(j, k, n, q, a1, a2, a3, c1, c2, c3, c4, d1, 2, 9) == [];
    assert DeclaredBy(j, k, n, q, a1, a2, a3, c1, c2, c3, c4, d1, 3, 9) == [];
    assert DeclaredBy(j, k, n, q, a1, a2, a3, c1, c2, c3, c4, d1, 4, 9) == [];
    assert DeclaredBy(j, k, n, q, a1, a2, a3, c1, c2, c3, c4, d1, 5, 9) == [];
    assert DeclaredBy(j, k, n, q, a1, a2, a3, c1, c2, c3, c4, d1, 6, 9) == [];
  }

  /** The locals scope 10 declares, in order. */
  lemma {:induction false} Locals10(j: string, k: string, n: string, q: string, a1: string, a2: string, a3: string, c1: string, c2: string, c3: string, c4: string, d1: string)
    ensures DeclaredBy(j, k, n, q, a1, a2, a3, c1, c2, c3, c4, d1, 6, 10) == [Local(q, Pos(17, 42))]
  {
    AppendNil([]);
    assert DeclaredBy(j, k, n, q, a1, a2, a3, c1, c2, c3, c4, d1, 1, 10) == [];
    assert DeclaredBy(j, k, n, q, a1, a2, a3, c1, c2, c3, c4, d1, 2, 10) == [Local(q, Pos(17, 42))];
    AppendNil([Local(q, Pos(17, 42))]);
    assert DeclaredBy(j, k, n, q, a1, a2, a3, c1, c2, c3, c4, d1, 3, 10) == [Local(q, Pos(17, 42))];
    assert DeclaredBy(j, k, n, q, a1, a2, a3, c1, c2, c3, c4, d1, 4, 10) == [Local(q, Pos(17, 42))];
    assert DeclaredBy(j, k, n, q, a1, a2, a3, c1, c2, c3, c4, d1, 5, 10) == [Local(q, Pos(17, 42))];
    assert DeclaredBy(j, k, n, q, a1, a2, a3, c1, c2, c3, c4, d1, 6, 10) == [Local(q, Pos(17, 42))];
  }

  /** The locals scope 11 declares, in order. */
  lemma {:induction false} Locals11(j: string, k: string, n: string, q: string, a1: string, a2: string, a3: string, c1: string, c2: string, c3: string, c4: string, d1: string)
    ensures DeclaredBy(j, k, n, q, a1, a2, a3, c1, c2, c3, c4, d1, 6, 11) == [Local(a1, Pos(22, 21))]
  {
    AppendNil([]);
    assert DeclaredBy(j, k, n, q, a1, a2, a3, c1, c2, c3, c4, d1, 1, 11) == [];
    assert DeclaredBy(j, k, n, q, a1, a2, a3, c1, c2, c3, c4, d1, 2, 11) == [];
    assert DeclaredBy(j, k, n, q, a1, a2, a3, c1, c2, c3, c4, d1, 3, 11) == [Local(a1, Pos(22, 21))];
    AppendNil([Local(a1, Pos(22, 21))]);
    assert DeclaredBy(j, k, n, q, a1, a2, a3, c1, c2, c3, c4, d1, 4, 11) == [Local(a1, Pos(22, 21))];
    assert DeclaredBy(j, k, n, q, a1, a2, a3, c1, c2, c3, c4, d1, 5, 11) == [Local(a1, Pos(22, 21))];
    assert DeclaredBy(j, k, n, q, a1, a2, a3, c1, c2, c3, c4, d1, 6, 11) == [Local(a1, Pos(22, 21))];
  }

  /** The locals scope 13 declares, in order. */
  lemma {:induction false} Locals13(j: string, k: string, n: string, q: string, a1: string, a2: string, a3: string, c1: string, c2: string, c3: string, c4: string, d1: string)
    ensures DeclaredBy(j, k, n, q, a1, a2, a3, c1, c2, c3, c4, d1, 6, 13) == []
  {
    AppendNil([]);
    assert DeclaredBy(j, k, n, q, a1, a2, a3, c1, c2, c3, c4, d1, 1, 13) == [];
    assert DeclaredBy(j, k, n, q, a1, a2, a3, c1, c2, c3, c4, d1, 2, 13) == [];
    assert DeclaredBy(j, k, n, q, a1, a2, a3, c1, c2, c3, c4, d1, 3, 13) == [];
    assert DeclaredBy(j, k, n, q, a1, a2, a3, c1, c2, c3, c4, d1, 4, 13) == [];
    assert DeclaredBy(j, k, n, q, a1, a2, a3, c1, c2, c3, c4, d1, 5, 13) == [];
    assert DeclaredBy(j, k, n, q, a1, a2, a3, c1, c2, c3, c4, d1, 6, 13) == [];
  }

  /** The locals scope 14 declares, in order. */
  lemma {:induction false} Locals14(j: string, k: string, n: string, q: string, a1: string, a2: string, a3: string, c1: string, c2: string, c3: string, c4: string, d1: string)
    ensures DeclaredBy(j, k, n, q, a1, a2, a3, c1, c2, c3, c4, d1, 6, 14) == [Local(a2, Pos(28, 42))]
  {
    AppendNil([]);
    assert DeclaredBy(j, k, n, q, a1, a2, a3, c1, c2, c3, c4, d1, 1, 14) == [];
    assert DeclaredBy(j, k, n, q, a1, a2, a3, c1, c2, c3, c4, d1, 2, 14) == [];
    assert DeclaredBy(j, k, n, q, a1, a2, a3, c1, c2, c3, c4, d1, 3, 14) == [Local(a2, Pos(28, 42))];
    AppendNil([Local(a2, Pos(28, 42))]);
    assert DeclaredBy(j, k, n, q, a1, a2, a3, c1, c2, c3, c4, d1, 4, 14) == [Local(a2, Pos(28, 42))];
    assert DeclaredBy(j, k, n, q, a1, a2, a3, c1, c2, c3, c4, d1, 5, 14) == [Local(a2, Pos(28, 42))];
    assert DeclaredBy(j, k, n, q, a1, a2, a3, c1, c2, c3, c4, d1, 6, 14) == [Local(a2, Pos(28, 42))];
  }

  /** The locals scope 15 declares, in order. */
  lemma {:induction false} Locals15(j: string, k: string, n: string, q: string, a1: string, a2: string, a3: string, c1: string, c2: string, c3: string, c4: string, d1: string)
    ensures DeclaredBy(j, k, n, q, a1, a2, a3, c1, c2, c3, c4, d1, 6, 15) == []
  {
    AppendNil([]);
    assert DeclaredBy(j, k, n, q, a1, a2, a3, c1, c2, c3, c4, d1, 1, 15) == [];
    assert DeclaredBy(j, k, n, q, a1, a2, a3, c1, c2, c3, c4, d1, 2, 15) == [];
    assert DeclaredBy(j, k, n, q, a1, a2, a3, c1, c2, c3, c4, d1, 3, 15) == [];
    assert DeclaredBy(j, k, n, q, a1, a2, a3, c1, c2, c3, c4, d1, 4, 15) == [];
    assert DeclaredBy(j, k, n, q, a1, a2, a3, c1, c2, c3, c4, d1, 5, 15) == [];
    assert DeclaredBy(j, k, n, q, a1, a2, a3, c1, c2, c3, c4, d1, 6, 15) == [];
  }

  /** The locals scope 16 declares, in order. */
  lemma {:induction false} Locals16(j: string, k: string, n: string, q: string, a1: string, a2: string, a3: string, c1: string, c2: string, c3: string, c4: string, d1: string)
    ensures DeclaredBy(j, k, n, q, a1, a2, a3, c1, c2, c3, c4, d1, 6, 16) == [Local(a3, Pos(34, 42))]
  {
    AppendNil([]);
    assert DeclaredBy(j, k, n, q, a1, a2, a3, c1, c2, c3, c4, d1, 1, 16) == [];
    assert DeclaredBy(j, k, n, q, a1, a2, a3, c1, c2, c3, c4, d1, 2, 16) == [];
    assert DeclaredBy(j, k, n, q, a1, a2, a3, c1, c2, c3, c4, d1, 3, 16) == [];
    assert DeclaredBy(j, k, n, q, a1, a2, a3, c1, c2, c3, c4, d1, 4, 16) == [Local(a3, Pos(34, 42))];
    AppendNil([Local(a3, Pos(34, 42))]);
    assert DeclaredBy(j, k, n, q, a1, a2, a3, c1, c2, c3, c4, d1, 5, 16) == [Local(a3, Pos(34, 42))];
    assert DeclaredBy(j, k, n, q, a1, a2, a3, c1, c2, c3, c4, d1, 6, 16) == [Local(a3, Pos(34, 42))];
  }

  /** The locals scope 17 declares, in order. */
  lemma {:induction false} Locals17(j: string, k: string, n: string, q: string, a1: string, a2: string, a3: string, c1: string, c2: string, c3: string, c4: string, d1: string)
    ensures DeclaredBy(j, k, n, q, a1, a2, a3, c1, c2, c3, c4, d1, 6, 17) == [Local(c1, Pos(37, 22)), Local(c1, Pos(37, 42))]
  {
    AppendNil([]);
    assert DeclaredBy(j, k, n, q, a1, a2, a3, c1, c2, c3, c4, d1, 1, 17) == [];
    assert DeclaredBy(j, k, n, q, a1, a2, a3, c1, c2, c3, c4, d1, 2, 17) == [];
    assert DeclaredBy(j, k, n, q, a1, a2, a3, c1, c2, c3, c4, d1, 3, 17) == [];
    assert DeclaredBy(j, k, n, q, a1, a2, a3, c1, c2, c3, c4, d1, 4, 17) == [Local(c1, Pos(37, 22)), Local(c1, Pos(37, 42))];
    AppendNil([Local(c1, Pos(37, 22)), Local(c1, Pos(37, 42))]);
    assert DeclaredBy(j, k, n, q, a1, a2, a3, c1, c2, c3, c4, d1, 5, 17) == [Local(c1, Pos(37, 22)), Local(c1, Pos(37, 42))];
    assert DeclaredBy(j, k, n, q, a1, a2, a3, c1, c2, c3, c4, d1, 6, 17) == [Local(c1, Pos(37, 22)), Local(c1, Pos(37, 42))];
  }

  /** The locals scope 19 declares, in order. */
  lemma {:induction false} Locals19(j: string, k: string, n: string, q: string, a1: string, a2: string, a3: string, c1: string, c2: string, c3: string, c4: string, d1: string)
    ensures DeclaredBy(j, k, n, q, a1, a2, a3, c1, c2, c3, c4, d1, 6, 19) == [Local(c2, Pos(40, 21))]
  {
    AppendNil([]);
    assert DeclaredBy(j, k, n, q, a1, a2, a3, c1, c2, c3, c4, d1, 1, 19) == [];
    assert DeclaredBy(j, k, n, q, a1, a2, a3, c1, c2, c3, c4, d1, 2, 19) == [];
    assert DeclaredBy(j, k, n, q, a1, a2, a3, c1, c2, c3, c4, d1, 3, 19) == [];
    assert DeclaredBy(j, k, n, q, a1, a2, a3, c1, c2, c3, c4, d1, 4, 19) == [];
    assert DeclaredBy(j, k, n, q, a1, a2, a3, c1, c2, c3, c4, d1, 5, 19) == [Local(c2, Pos(40, 21))];
    AppendNil([Local(c2, Pos(40, 21))]);
    assert DeclaredBy(j, k, n, q, a1, a2, a3, c1, c2, c3, c4, d1, 6, 19) == [Local(c2, Pos(40, 21))];
  }

  /** The locals scope 20 declares, in order. */
  lemma {:induction false} Locals20(j: string, k: string, n: string, q: string, a1: string, a2: string, a3: string, c1: string, c2: string, c3: string, c4: string, d1: string)
    ensures DeclaredBy(j, k, n, q, a1, a2, a3, c1, c2, c3, c4, d1, 6, 20) == [Local(c2, Pos(41, 42))]
  {
    AppendNil([]);
    assert DeclaredBy(j, k, n, q, a1, a2, a3, c1, c2, c3, c4, d1, 1, 20) == [];
    assert DeclaredBy(j, k, n, q, a1, a2, a3, c1, c2, c3, c4, d1, 2, 20) == [];
    assert DeclaredBy(j, k, n, q, a1, a2, a3, c1, c2, c3, c4, d1, 3, 20) == [];
    assert DeclaredBy(j, k, n, q, a1, a2, a3, c1, c2, c3, c4, d1, 4, 20) == [];
    assert DeclaredBy(j, k, n, q, a1, a2, a3, c1, c2, c3, c4, d1, 5, 20) == [Local(c2, Pos(41, 42))];
    AppendNil([Local(c2, Pos(41, 42))]);
    assert DeclaredBy(j, k, n, q, a1, a2, a3, c1, c2, c3, c4, d1, 6, 20) == [Local(c2, Pos(41, 42))];
  }

  /** The locals scope 21 declares, in order. */
  lemma {:induction false} Locals21(j: string, k: string, n: string, q: string, a1: string, a2: string, a3: string, c1: string, c2: string, c3: string, c4: string, d1: string)
    ensures DeclaredBy(j, k, n, q, a1, a2, a3, c1, c2, c3, c4, d1, 6, 21) == [Local(c3, Pos(43, 21))]
  {
    AppendNil([]);
    assert DeclaredBy(j, k, n, q, a1, a2, a3, c1, c2, c3, c4, d1, 1, 21) == [];
    assert DeclaredBy(j, k, n, q, a1, a2, a3, c1, c2, c3, c4, d1, 2, 21) == [];
    assert DeclaredBy(j, k, n, q, a1, a2, a3, c1, c2, c3, c4, d1, 3, 21) == [];
    assert DeclaredBy(j, k, n, q, a1, a2, a3, c1, c2, c3, c4, d1, 4, 21) == [];
    assert DeclaredBy(j, k, n, q, a1, a2, a3, c1, c2, c3, c4, d1, 5, 21) == [Local(c3, Pos(43, 21))];
    AppendNil([Local(c3, Pos(43, 21))]);
    assert DeclaredBy(j, k, n, q, a1, a2, a3, c1, c2, c3, c4, d1, 6, 21) == [Local(c3, Pos(43, 21))];
  }

  /** The locals scope 22 declares, in order. */
  lemma {:induction false} Locals22(j: string, k: string, n: string, q: string, a1: string, a2: string, a3: string, c1: string, c2: string, c3: string, c4: string, d1: string)
    ensures DeclaredBy(j, k, n, q, a1, a2, a3, c1, c2, c3, c4, d1, 6, 22) == [Local(c3, Pos(45, 42))]
  {
    AppendNil([]);
    assert DeclaredBy(j, k, n, q, a1, a2, a3, c1, c2, c3, c4, d1, 1, 22) == [];
    assert DeclaredBy(j, k, n, q, a1, a2, a3, c1, c2, c3, c4, d1, 2, 22) == [];
    assert DeclaredBy(j, k, n, q, a1, a2, a3, c1, c2, c3, c4, d1, 3, 22) == [];
    assert DeclaredBy(j, k, n, q, a1, a2, a3, c1, c2, c3, c4, d1, 4, 22) == [];
    assert DeclaredBy(j, k, n, q, a1, a2, a3, c1, c2, c3, c4, d1, 5, 22) == [Local(c3, Pos(45, 42))];
    AppendNil([Local(c3, Pos(45, 42))]);
    assert DeclaredBy(j, k, n, q, a1, a2, a3, c1, c2, c3, c4, d1, 6, 22) == [Local(c3, Pos(45, 42))];
  }

  /** The locals scope 23 declares, in order. */
  lemma {:induction false} Locals23(j: string, k: string, n: string, q: string, a1: string, a2: string, a3: string, c1: string, c2: string, c3: string, c4: string, d1: string)
    ensures DeclaredBy(j, k, n, q, a1, a2, a3, c1, c2, c3, c4, d1, 6, 23) == [Local(c4, Pos(48, 21))]
  {
    AppendNil([]);
    assert DeclaredBy(j, k, n, q, a1, a2, a3, c1, c2, c3, c4, d1, 1, 23) == [];
    assert DeclaredBy(j, k, n, q, a1, a2, a3, c1, c2, c3, c4, d1, 2, 23) == [];
    assert DeclaredBy(j, k, n, q, a1, a2, a3, c1, c2, c3, c4, d1, 3, 23) == [];
    assert DeclaredBy(j, k, n, q, a1, a2, a3, c1, c2, c3, c4, d1, 4, 23) == [];
    assert DeclaredBy(j, k, n, q, a1, a2, a3, c1, c2, c3, c4, d1, 5, 23) == [Local(c4, Pos(48, 21))];
    AppendNil([Local(c4, Pos(48, 21))]);
    assert DeclaredBy(j, k, n, q, a1, a2, a3, c1, c2, c3, c4, d1, 6, 23) == [Local(c4, Pos(48, 21))];
  }

  /** The locals scope 24 declares, in order. */
  lemma {:induction false} Locals24(j: string, k: string, n: string, q: string, a1: string, a2: string, a3: string, c1: string, c2: string, c3: string, c4: string, d1: string)
    ensures DeclaredBy(j, k, n, q, a1, a2, a3, c1, c2, c3, c4, d1, 6, 24) == [Local(c4, Pos(50, 17))]
  {
    AppendNil([]);
    assert DeclaredBy(j, k, n, q, a1, a2, a3, c1, c2, c3, c4, d1, 1, 24) == [];
    assert DeclaredBy(j, k, n, q, a1, a2, a3, c1, c2, c3, c4, d1, 2, 24) == [];
    assert DeclaredBy(j, k, n, q, a1, a2, a3, c1, c2, c3, c4, d1, 3, 24) == [];
    assert DeclaredBy(j, k, n, q, a1, a2, a3, c1, c2, c3, c4, d1, 4, 24) == [];
    assert DeclaredBy(j, k, n, q, a1, a2, a3, c1, c2, c3, c4, d1, 5, 24) == [Local(c4, Pos(50, 17))];
    AppendNil([Local(c4, Pos(50, 17))]);
    assert DeclaredBy(j, k, n, q, a1, a2, a3, c1, c2, c3, c4, d1, 6, 24) == [Local(c4, Pos(50, 17))];
  }

  /** The locals scope 25 declares, in order. */
  lemma {:induction false} Locals25(j: string, k: string, n: string, q: string, a1: string, a2: string, a3: string, c1: string, c2: string, c3: string, c4: string, d1: string)
    ensures DeclaredBy(j, k, n, q, a1, a2, a3, c1, c2, c3, c4, d1, 6, 25) == []
  {
    AppendNil([]);
    assert DeclaredBy(j, k, n, q, a1, a2, a3, c1, c2, c3, c4, d1, 1, 25) == [];
    assert DeclaredBy(j, k, n, q, a1, a2, a3, c1, c2, c3, c4, d1, 2, 25) == [];
    assert DeclaredBy(j, k, n, q, a1, a2, a3, c1, c2, c3, c4, d1, 3, 25) == [];
    assert DeclaredBy(j, k, n, q, a1, a2, a3, c1, c2, c3, c4, d1, 4, 25) == [];
    assert DeclaredBy(j, k, n, q, a1, a2, a3, c1, c2, c3, c4, d1, 5, 25) == [];
    assert DeclaredBy(j, k, n, q, a1, a2, a3, c1, c2, c3, c4, d1, 6, 25) == [];
  }

  /** The locals scope 26 declares, in order. */
  lemma {:induction false} Locals26(j: string, k: string, n: string, q: string, a1: string, a2: string, a3: string, c1: string, c2: string, c3: string, c4: string, d1: string)
    ensures DeclaredBy(j, k, n, q, a1, a2, a3, c1, c2, c3, c4, d1, 6, 26) == [Local(d1, Pos(55, 43)), Local(d1, Pos(55, 58))]
  {
    AppendNil([]);
    assert DeclaredBy(j, k, n, q, a1, a2, a3, c1, c2, c3, c4, d1, 1, 26) == [];
    assert DeclaredBy(j, k, n, q, a1, a2, a3, c1, c2, c3, c4, d1, 2, 26) == [];
    assert DeclaredBy(j, k, n, q, a1, a2, a3, c1, c2, c3, c4, d1, 3, 26) == [];
    assert DeclaredBy(j, k, n, q, a1, a2, a3, c1, c2, c3, c4, d1, 4, 26) == [];
    assert DeclaredBy(j, k, n, q, a1, a2, a3, c1, c2, c3, c4, d1, 5, 26) == [];
    assert DeclaredBy(j, k, n, q, a1, a2, a3, c1, c2, c3, c4, d1, 6, 26) == [Local(d1, Pos(55, 43)), Local(d1, Pos(55, 58))];
  }

  /** The assignments known after event 7. */
  function Known0(j: string, k: string, n: string, q: string, a1: string, a2: string, a3: string, c1: string, c2: string, c3: string, c4: string, d1: string): seq<Fact> {
    []
      + [Fact(5, j, [])]
      + [Fact(6, k, [0])]
  }

  /** Whether a local is assigned after the assignments of events 0 to 7. */
  lemma {:induction false} Assigned0(j: string, k: string, n: string, q: string, a1: string, a2: string, a3: string, c1: string, c2: string, c3: string, c4: string, d1: string, fs: seq<Fact>, sc: nat, nm: string, pth: seq<nat>)
    ensures Assigned(fs + [Fact(5, j, [])] + [Fact(6, k, [0])], sc, nm, pth) == (
      Assigned(fs, sc, nm, pth) ||
      (5 == sc && j == nm && [] <= pth) ||
      (6 == sc && k == nm && [0] <= pth))
  {
    AssignedSnoc(fs, Fact(5, j, []), sc, nm, pth);
    AssignedSnoc(fs + [Fact(5, j, [])], Fact(6, k, [0]), sc, nm, pth);
  }

  /** The assignments known after event 15. */
  function Known1(j: string, k: string, n: string, q: string, a1: string, a2: string, a3: string, c1: string, c2: string, c3: string, c4: string, d1: string): seq<Fact> {
    Known0(j, k, n, q, a1, a2, a3, c1, c2, c3, c4, d1)
      + [Fact(8, n, [1])]
      + [Fact(10, q, [2])]
      + [Fact(4, a1, [])]
  }

  /** Whether a local is assigned after the assignments of events 8 to 15. */
  lemma {:induction false} Assigned1(j: string, k: string, n: string, q: string, a1: string, a2: string, a3: string, c1: string, c2: string, c3: string, c4: string, d1: string, fs: seq<Fact>, sc: nat, nm: string, pth: seq<nat>)
    ensures Assigned(fs + [Fact(8, n, [1])] + [Fact(10, q, [2])] + [Fact(4, a1, [])], sc, nm, pth) == (
      Assigned(fs, sc, nm, pth) ||
      (8 == sc && n == nm && [1] <= pth) ||
      (10 == sc && q == nm && [2] <= pth) ||
      (4 == sc && a1 == nm && [] <= pth))
  {
    AssignedSnoc(fs, Fact(8, n, [1]), sc, nm, pth);
    AssignedSnoc(fs + [Fact(8, n, [1])], Fact(10, q, [2]), sc, nm, pth);
    AssignedSnoc(fs + [Fact(8, n, [1])] + [Fact(10, q, [2])], Fact(4, a1, []), sc, nm, pth);
  }

  /** The assignments known after event 23. */
  function Known2(j: string, k: string, n: string, q: string, a1: string, a2: string, a3: string, c1: string, c2: string, c3: string, c4: string, d1: string): seq<Fact> {
    Known1(j, k, n, q, a1, a2, a3, c1, c2, c3, c4, d1)
      + [Fact(11, a1, [])]
      + [Fact(4, a2, [])]
      + [Fact(14, a2, [4])]
  }

  /** Whether a local is assigned after the assignments of events 16 to 23. */
  lemma {:induction false} Assigned2(j: string, k: string, n: string, q: string, a1: string, a2: string, a3: string, c1: string, c2: string, c3: string, c4: string, d1: string, fs: seq<Fact>, sc: nat, nm: string, pth: seq<nat>)
    ensures Assigned(fs + [Fact(11, a1, [])] + [Fact(4, a2, [])] + [Fact(14, a2, [4])], sc, nm, pth) == (
      Assigned(fs, sc, nm, pth) ||
      (11 == sc && a1 == nm && [] <= pth) ||
      (4 == sc && a2 == nm && [] <= pth) ||
      (14 == sc && a2 == nm && [4] <= pth))
  {
    AssignedSnoc(fs, Fact(11, a1, []), sc, nm, pth);
    AssignedSnoc(fs + [Fact(11, a1, [])], Fact(4, a2, []), sc, nm, pth);
    AssignedSnoc(fs + [Fact(11, a1, [])] + [Fact(4, a2, [])], Fact(14, a2, [4]), sc, nm, pth);
  }

  /** The assignments known after event 31. */
  function Known3(j: string, k: string, n: string, q: string, a1: string, a2: string, a3: string, c1: string, c2: string, c3: string, c4: string, d1: string): seq<Fact> {
    Known2(j, k, n, q, a1, a2, a3, c1, c2, c3, c4, d1)
      + [Fact(4, a3, [])]
      + [Fact(16, a3, [5])]
      + [Fact(17, c1, [])]
      + [Fact(17, c1, [])]
  }

  /** Whether a local is assigned after the assignments of events 24 to 31. */
  lemma {:induction false} Assigned3(j: string, k: string, n: string, q: string, a1: string, a2: string, a3: string, c1: string, c2: string, c3: string, c4: string, d1: string, fs: seq<Fact>, sc: nat, nm: string, pth: seq<nat>)
    ensures Assigned(fs + [Fact(4, a3, [])] + [Fact(16, a3, [5])] + [Fact(17, c1, [])] + [Fact(17, c1, [])], sc, nm, pth) == (
      Assigned(fs, sc, nm, pth) ||
      (4 == sc && a3 == nm && [] <= pth) ||
      (16 == sc && a3 == nm && [5] <= pth) ||
      (17 == sc && c1 == nm && [] <= pth) ||
      (17 == sc && c1 == nm && [] <= pth))
  {
    AssignedSnoc(fs, Fact(4, a3, []), sc, nm, pth);
    AssignedSnoc(fs + [Fact(4, a3, [])], Fact(16, a3, [5]), sc, nm, pth);
    AssignedSnoc(fs + [Fact(4, a3, [])] + [Fact(16, a3, [5])], Fact(17, c1, []), sc, nm, pth);
    AssignedSnoc(fs + [Fact(4, a3, [])] + [Fact(16, a3, [5])] + [Fact(17, c1, [])], Fact(17, c1, []), sc, nm, pth);
  }

  /** The assignments known after event 39. */
  function Known4(j: string, k: string, n: string, q: string, a1: string, a2: string, a3: string, c1: string, c2: string, c3: string, c4: string, d1: string): seq<Fact> {
    Known3(j, k, n, q, a1, a2, a3, c1, c2, c3, c4, d1)
      + [Fact(19, c2, [])]
      + [Fact(20, c2, [7])]
      + [Fact(21, c3, [])]
      + [Fact(22, c3, [8])]
      + [Fact(23, c4, [])]
      + [Fact(24, c4, [9])]
  }

  /** Whether a local is assigned after the assignments of events 32 to 39. */
  lemma {:induction false} Assigned4(j: string, k: string, n: string, q: string, a1: string, a2: string, a3: string, c1: string, c2: string, c3: string, c4: string, d1: string, fs: seq<Fact>, sc: nat, nm: string, pth: seq<nat>)
    ensures Assigned(fs + [Fact(19, c2, [])] + [Fact(20, c2, [7])] + [Fact(21, c3, [])] + [Fact(22, c3, [8])] + [Fact(23, c4, [])] + [Fact(24, c4, [9])], sc, nm, pth) == (
      Assigned(fs, sc, nm, pth) ||
      (19 == sc && c2 == nm && [] <= pth) ||
      (20 == sc && c2 == nm && [7] <= pth) ||
      (21 == sc && c3 == nm && [] <= pth) ||
      (22 == sc && c3 == nm && [8] <= pth) ||
      (23 == sc && c4 == nm && [] <= pth) ||
      (24 == sc && c4 == nm && [9] <= pth))
  {
    AssignedSnoc(fs, Fact(19, c2, []), sc, nm, pth);
    AssignedSnoc(fs + [Fact(19, c2, [])], Fact(20, c2, [7]), sc, nm, pth);
    AssignedSnoc(fs + [Fact(19, c2, [])] + [Fact(20, c2, [7])], Fact(21, c3, []), sc, nm, pth);
    AssignedSnoc(fs + [Fact(19, c2, [])] + [Fact(20, c2, [7])] + [Fact(21, c3, [])], Fact(22, c3, [8]), sc, nm, pth);
    AssignedSnoc(fs + [Fact(19, c2, [])] + [Fact(20, c2, [7])] + [Fact(21, c3, [])] + [Fact(22, c3, [8])], Fact(23, c4, []), sc, nm, pth);
    AssignedSnoc(fs + [Fact(19, c2, [])] + [Fact(20, c2, [7])] + [Fact(21, c3, [])] + [Fact(22, c3, [8])] + [Fact(23, c4, [])], Fact(24, c4, [9]), sc, nm, pth);
  }

  /** The assignments known after event 45. */
  function Known5(j: string, k: string, n: string, q: string, a1: string, a2: string, a3: string, c1: string, c2: string, c3: string, c4: string, d1: string): seq<Fact> {
    Known4(j, k, n, q, a1, a2, a3, c1, c2, c3, c4, d1)
      + [Fact(26, d1, [10])]
      + [Fact(26, d1, [10])]
  }

  /** Whether a local is assigned after the assignments of events 40 to 45. */
  lemma {:induction false} Assigned5(j: string, k: string, n: string, q: string, a1: string, a2: string, a3: string, c1: string, c2: string, c3: string, c4: string, d1: string, fs: seq<Fact>, sc: nat, nm: string, pth: seq<nat>)
    ensures Assigned(fs + [Fact(26, d1, [10])] + [Fact(26, d1, [10])], sc, nm, pth) == (
      Assigned(fs, sc, nm, pth) ||
      (26 == sc && d1 == nm && [10] <= pth) ||
      (26 == sc && d1 == nm && [10] <= pth))
  {
    AssignedSnoc(fs, Fact(26, d1, [10]), sc, nm, pth);
    AssignedSnoc(fs + [Fact(26, d1, [10])], Fact(26, d1, [10]), sc, nm, pth);
  }

  /** Event 0: its diagnostics and the assignments after it. */
  lemma {:induction false} Event0(j: string, k: string, n: string, q: string, a1: string, a2: string, a3: string, c1: string, c2: string, c3: string, c4: string, d1: string, tr: Tree, fs: seq<Fact>)
    requires |tr.scopes| == 27
    requires Parent(tr, 0) == None
    requires Parent(tr, 3) == Some(0)
    requires Parent(tr, 4) == Some(3)
    requires Parent(tr, 5) == Some(4)
    requires LocalsOf(tr, 5) == [Local(j, Pos(6, 21))]
    requires LocalsOf(tr, 4) == [Local(a1, Pos(20, 13)), Local(a2, Pos(25, 13)), Local(a3, Pos(30, 13))]
    requires LocalsOf(tr, 3) == []
    requires LocalsOf(tr, 0) == []
    requires j != a1 && j != a2 && j != a3
    ensures EventDiags(tr, Declared(5, j, Pos(6, 21), Initialized, []), fs) == []
    ensures Step(tr, Declared(5, j, Pos(6, 21), Initialized, []), fs) == fs + [Fact(5, j, [])]
  {
    assert Lookup(tr, 0, j) == None;
    assert Lookup(tr, 3, j) == None;
    assert Lookup(tr, 4, j) == None;
  }

  /** Event 1: its diagnostics and the assignments after it. */
  lemma {:induction false} Event1(j: string, k: string, n: string, q: string, a1: string, a2: string, a3: string, c1: string, c2: string, c3: string, c4: string, d1: string, tr: Tree, fs: seq<Fact>)
    requires |tr.scopes| == 27
    requires Parent(tr, 5) == Some(4)
    requires LocalsOf(tr, 5) == [Local(j, Pos(6, 21))]
    requires Assigned(fs, 5, j, [])
    ensures EventDiags(tr, Referenced(5, j, Pos(6, 31), false, false, []), fs) == []
    ensures Step(tr, Referenced(5, j, Pos(6, 31), false, false, []), fs) == fs
  {
    assert Local(j, Pos(6, 21)) in LocalsOf(tr, 5);
    assert Lookup(tr, 5, j) == Some(5);
  }

  /** Event 2: its diagnostics and the assignments after it. */
  lemma {:induction false} Event2(j: string, k: string, n: string, q: string, a1: string, a2: string, a3: string, c1: string, c2: string, c3: string, c4: string, d1: string, tr: Tree, fs: seq<Fact>)
    requires |tr.scopes| == 27
    requires Parent(tr, 5) == Some(4)
    requires Parent(tr, 6) == Some(5)
    requires LocalsOf(tr, 6) == [Local(k, Pos(7, 47))]
    requires LocalsOf(tr, 5) == [Local(j, Pos(6, 21))]
    requires j != k
    requires Assigned(fs, 5, j, [0])
    ensures EventDiags(tr, Referenced(6, j, Pos(7, 38), false, false, [0]), fs) == []
    ensures Step(tr, Referenced(6, j, Pos(7, 38), false, false, [0]), fs) == fs
  {
    assert Local(j, Pos(6, 21)) in LocalsOf(tr, 5);
    assert Lookup(tr, 5, j) == Some(5);
    assert Lookup(tr, 6, j) == Some(5);
  }

  /** Event 3: its diagnostics and the assignments after it. */
  lemma {:induction false} Event3(j: string, k: string, n: string, q: string, a1: string, a2: string, a3: string, c1: string, c2: string, c3: string, c4: string, d1: string, tr: Tree, fs: seq<Fact>)
    requires |tr.scopes| == 27
    requires Parent(tr, 0) == None
    requires Parent(tr, 3) == Some(0)
    requires Parent(tr, 4) == Some(3)
    requires Parent(tr, 5) == Some(4)
    requires Parent(tr, 6) == Some(5)
    requires LocalsOf(tr, 6) == [Local(k, Pos(7, 47))]
    requires LocalsOf(tr, 5) == [Local(j, Pos(6, 21))]
    requires LocalsOf(tr, 4) == [Local(a1, Pos(20, 13)), Local(a2, Pos(25, 13)), Local(a3, Pos(30, 13))]
    requires LocalsOf(tr, 3) == []
    requires LocalsOf(tr, 0) == []
    requires j != k && k != a1 && k != a2 && k != a3
    ensures EventDiags(tr, Declared(6, k, Pos(7, 47), Initialized, [0]), fs) == []
    ensures Step(tr, Declared(6, k, Pos(7, 47), Initialized, [0]), fs) == fs + [Fact(6, k, [0])]
  {
    assert Lookup(tr, 0, k) == None;
    assert Lookup(tr, 3, k) == None;
    assert Lookup(tr, 4, k) == None;
    assert Lookup(tr, 5, k) == None;
  }

  /** Event 4: its diagnostics and the assignments after it. */
  lemma {:induction false} Event4(j: string, k: string, n: string, q: string, a1: string, a2: string, a3: string, c1: string, c2: string, c3: string, c4: string, d1: string, tr: Tree, fs: seq<Fact>)
    requires |tr.scopes| == 27
    requires Parent(tr, 6) == Some(5)
    requires LocalsOf(tr, 6) == [Local(k, Pos(7, 47))]
    requires Assigned(fs, 6, k, [0])
    ensures EventDiags(tr, Referenced(6, k, Pos(7, 56), false, false, [0]), fs) == []
    ensures Step(tr, Referenced(6, k, Pos(7, 56), false, false, [0]), fs) == fs
  {
    assert Local(k, Pos(7, 47)) in LocalsOf(tr, 6);
    assert Lookup(tr, 6, k) == Some(6);
  }

  /** Event 5: its diagnostics and the assignments after it. */
  lemma {:induction false} Event5(j: string, k: string, n: string, q: string, a1: string, a2: string, a3: string, c1: string, c2: string, c3: string, c4: string, d1: string, tr: Tree, fs: seq<Fact>)
    ensures EventDiags(tr, OutAssigned(6, [], [0]), fs) == []
    ensures Step(tr, OutAssigned(6, [], [0]), fs) == fs
  {
    assert OutFacts(6, [], [0]) == [];
    FactsNil(fs);
  }

  /** Event 6: its diagnostics and the assignments after it. */
  lemma {:induction false} Event6(j: string, k: string, n: string, q: string, a1: string, a2: string, a3: string, c1: string, c2: string, c3: string, c4: string, d1: string, tr: Tree, fs: seq<Fact>)
    requires |tr.scopes| == 27
    requires Parent(tr, 0) == None
    requires Parent(tr, 3) == Some(0)
    requires Parent(tr, 4) == Some(3)
    requires LocalsOf(tr, 4) == [Local(a1, Pos(20, 13)), Local(a2, Pos(25, 13)), Local(a3, Pos(30, 13))]
    requires LocalsOf(tr, 3) == []
    requires LocalsOf(tr, 0) == []
    requires j != a1 && j != a2 && j != a3
    ensures EventDiags(tr, Referenced(4, j, Pos(9, 9), true, false, []), fs) == [Diag(NotInContext, j, Pos(9, 9))]
    ensures Step(tr, Referenced(4, j, Pos(9, 9), true, false, []), fs) == fs
  {
    assert Lookup(tr, 0, j) == None;
    assert Lookup(tr, 3, j) == None;
    assert Lookup(tr, 4, j) == None;
  }

  /** Event 7: its diagnostics and the assignments after it. */
  lemma {:induction false} Event7(j: string, k: string, n: string, q: string, a1: string, a2: string, a3: string, c1: string, c2: string, c3: string, c4: string, d1: string, tr: Tree, fs: seq<Fact>)
    requires |tr.scopes| == 27
    requires Parent(tr, 0) == None
    requires Parent(tr, 3) == Some(0)
    requires Parent(tr, 4) == Some(3)
    requires LocalsOf(tr, 4) == [Local(a1, Pos(20, 13)), Local(a2, Pos(25, 13)), Local(a3, Pos(30, 13))]
    requires LocalsOf(tr, 3) == []
    requires LocalsOf(tr, 0) == []
    requires k != a1 && k != a2 && k != a3
    ensures EventDiags(tr, Referenced(4, k, Pos(10, 9), true, false, []), fs) == [Diag(NotInContext, k, Pos(10, 9))]
    ensures Step(tr, Referenced(4, k, Pos(10, 9), true, false, []), fs) == fs
  {
    assert Lookup(tr, 0, k) == None;
    assert Lookup(tr, 3, k) == None;
    assert Lookup(tr, 4, k) == None;
  }

  /** Event 8: its diagnostics and the assignments after it. */
  lemma {:induction false} Event8(j: string, k: string, n: string, q: string, a1: string, a2: string, a3: string, c1: string, c2: string, c3: string, c4: string, d1: string, tr: Tree, fs: seq<Fact>)
    requires |tr.scopes| == 27
    requires Parent(tr, 0) == None
    requires Parent(tr, 3) == Some(0)
    requires Parent(tr, 4) == Some(3)
    requires Parent(tr, 7) == Some(4)
    requires LocalsOf(tr, 7) == []
    requires LocalsOf(tr, 4) == [Local(a1, Pos(20, 13)), Local(a2, Pos(25, 13)), Local(a3, Pos(30, 13))]
    requires LocalsOf(tr, 3) == []
    requires LocalsOf(tr, 0) == []
    requires n != a1 && n != a2 && n != a3
    ensures EventDiags(tr, Referenced(7, n, Pos(12, 16), false, false, []), fs) == [Diag(NotInContext, n, Pos(12, 16))]
    ensures Step(tr, Referenced(7, n, Pos(12, 16), false, false, []), fs) == fs
  {
    assert Lookup(tr, 0, n) == None;
    assert Lookup(tr, 3, n) == None;
    assert Lookup(tr, 4, n) == None;
    assert Lookup(tr, 7, n) == None;
  }

  /** Event 9: its diagnostics and the assignments after it. */
  lemma {:induction false} Event9(j: string, k: string, n: string, q: string, a1: string, a2: string, a3: string, c1: string, c2: string, c3: string, c4: string, d1: string, tr: Tree, fs: seq<Fact>)
    requires |tr.scopes| == 27
    requires Parent(tr, 0) == None
    requires Parent(tr, 3) == Some(0)
    requires Parent(tr, 4) == Some(3)
    requires Parent(tr, 7) == Some(4)
    requires Parent(tr, 8) == Some(7)
    requires LocalsOf(tr, 8) == [Local(n, Pos(13, 42))]
    requires LocalsOf(tr, 7) == []
    requires LocalsOf(tr, 4) == [Local(a1, Pos(20, 13)), Local(a2, Pos(25, 13)), Local(a3, Pos(30, 13))]
    requires LocalsOf(tr, 3) == []
    requires LocalsOf(tr, 0) == []
    requires n != a1 && n != a2 && n != a3
    ensures EventDiags(tr, Declared(8, n, Pos(13, 42), Initialized, [1]), fs) == []
    ensures Step(tr, Declared(8, n, Pos(13, 42), Initialized, [1]), fs) == fs + [Fact(8, n, [1])]
  {
    assert Lookup(tr, 0, n) == None;
    assert Lookup(tr, 3, n) == None;
    assert Lookup(tr, 4, n) == None;
    assert Lookup(tr, 7, n) == None;
  }

  /** Event 10: its diagnostics and the assignments after it. */
  lemma {:induction false} Event10(j: string, k: string, n: string, q: string, a1: string, a2: string, a3: string, c1: string, c2: string, c3: string, c4: string, d1: string, tr: Tree, fs: seq<Fact>)
    ensures EventDiags(tr, OutAssigned(8, [], [1]), fs) == []
    ensures Step(tr, OutAssigned(8, [], [1]), fs) == fs
  {
    assert OutFacts(8, [], [1]) == [];
    FactsNil(fs);
  }

  /** Event 11: its diagnostics and the assignments after it. */
  lemma {:induction false} Event11(j: string, k: string, n: string, q: string, a1: string, a2: string, a3: string, c1: string, c2: string, c3: string, c4: string, d1: string, tr: Tree, fs: seq<Fact>)
    requires |tr.scopes| == 27
    requires Parent(tr, 0) == None
    requires Parent(tr, 3) == Some(0)
    requires Parent(tr, 4) == Some(3)
    requires Parent(tr, 9) == Some(4)
    requires LocalsOf(tr, 9) == []
    requires LocalsOf(tr, 4) == [Local(a1, Pos(20, 13)), Local(a2, Pos(25, 13)), Local(a3, Pos(30, 13))]
    requires LocalsOf(tr, 3) == []
    requires LocalsOf(tr, 0) == []
    requires q != a1 && q != a2 && q != a3
    ensures EventDiags(tr, Referenced(9, q, Pos(15, 20), false, false, []), fs) == [Diag(NotInContext, q, Pos(15, 20))]
    ensures Step(tr, Referenced(9, q, Pos(15, 20), false, false, []), fs) == fs
  {
    assert Lookup(tr, 0, q) == None;
    assert Lookup(tr, 3, q) == None;
    assert Lookup(tr, 4, q) == None;
    assert Lookup(tr, 9, q) == None;
  }

  /** Event 12: its diagnostics and the assignments after it. */
  lemma {:induction false} Event12(j: string, k: string, n: string, q: string, a1: string, a2: string, a3: string, c1: string, c2: string, c3: string, c4: string, d1: string, tr: Tree, fs: seq<Fact>)
    requires |tr.scopes| == 27
    requires Parent(tr, 0) == None
    requires Parent(tr, 3) == Some(0)
    requires Parent(tr, 4) == Some(3)
    requires Parent(tr, 9) == Some(4)
    requires Parent(tr, 10) == Some(9)
    requires LocalsOf(tr, 10) == [Local(q, Pos(17, 42))]
    requires LocalsOf(tr, 9) == []
    requires LocalsOf(tr, 4) == [Local(a1, Pos(20, 13)), Local(a2, Pos(25, 13)), Local(a3, Pos(30, 13))]
    requires LocalsOf(tr, 3) == []
    requires LocalsOf(tr, 0) == []
    requires q != a1 && q != a2 && q != a3
    ensures EventDiags(tr, Declared(10, q, Pos(17, 42), Initialized, [2]), fs) == []
    ensures Step(tr, Declared(10, q, Pos(17, 42), Initialized, [2]), fs) == fs + [Fact(10, q, [2])]
  {
    assert Lookup(tr, 0, q) == None;
    assert Lookup(tr, 3, q) == None;
    assert Lookup(tr, 4, q) == None;
    assert Lookup(tr, 9, q) == None;
  }

  /** Event 13: its diagnostics and the assignments after it. */
  lemma {:induction false} Event13(j: string, k: string, n: string, q: string, a1: string, a2: string, a3: string, c1: string, c2: string, c3: string, c4: string, d1: string, tr: Tree, fs: seq<Fact>)
    ensures EventDiags(tr, OutAssigned(10, [], [2]), fs) == []
    ensures Step(tr, OutAssigned(10, [], [2]), fs) == fs
  {
    assert OutFacts(10, [], [2]) == [];
    FactsNil(fs);
  }

  /** Event 14: its diagnostics and the assignments after it. */
  lemma {:induction false} Event14(j: string, k: string, n: string, q: string, a1: string, a2: string, a3: string, c1: string, c2: string, c3: string, c4: string, d1: string, tr: Tree, fs: seq<Fact>)
    requires |tr.scopes| == 27
    requires Parent(tr, 0) == None
    requires Parent(tr, 3) == Some(0)
    requires Parent(tr, 4) == Some(3)
    requires LocalsOf(tr, 4) == [Local(a1, Pos(20, 13)), Local(a2, Pos(25, 13)), Local(a3, Pos(30, 13))]
    requires LocalsOf(tr, 3) == []
    requires LocalsOf(tr, 0) == []
    requires a1 != a2 && a1 != a3
    ensures EventDiags(tr, Declared(4, a1, Pos(20, 13), Initialized, []), fs) == []
    ensures Step(tr, Declared(4, a1, Pos(20, 13), Initialized, []), fs) == fs + [Fact(4, a1, [])]
  {
    assert Lookup(tr, 0, a1) == None;
    assert Lookup(tr, 3, a1) == None;
  }

  /** Event 15: its diagnostics and the assignments after it. */
  lemma {:induction false} Event15(j: string, k: string, n: string, q: string, a1: string, a2: string, a3: string, c1: string, c2: string, c3: string, c4: string, d1: string, tr: Tree, fs: seq<Fact>)
    requires |tr.scopes| == 27
    requires Parent(tr, 4) == Some(3)
    requires LocalsOf(tr, 4) == [Local(a1, Pos(20, 13)), Local(a2, Pos(25, 13)), Local(a3, Pos(30, 13))]
    requires a1 != a2 && a1 != a3
    requires Assigned(fs, 4, a1, [])
    ensures EventDiags(tr, Referenced(4, a1, Pos(21, 34), false, false, []), fs) == []
    ensures Step(tr, Referenced(4, a1, Pos(21, 34), false, false, []), fs) == fs
  {
    assert Local(a1, Pos(20, 13)) in LocalsOf(tr, 4);
    assert Lookup(tr, 4, a1) == Some(4);
  }

  /** Event 16: its diagnostics and the assignments after it. */
  lemma {:induction false} Event16(j: string, k: string, n: string, q: string, a1: string, a2: string, a3: string, c1: string, c2: string, c3: string, c4: string, d1: string, tr: Tree, fs: seq<Fact>)
    ensures EventDiags(tr, OutAssigned(4, [], []), fs) == []
    ensures Step(tr, OutAssigned(4, [], []), fs) == fs
  {
    assert OutFacts(4, [], []) == [];
    FactsNil(fs);
  }

  /** Event 17: its diagnostics and the assignments after it. */
  lemma {:induction false} Event17(j: string, k: string, n: string, q: string, a1: string, a2: string, a3: string, c1: string, c2: string, c3: string, c4: string, d1: string, tr: Tree, fs: seq<Fact>)
    requires |tr.scopes| == 27
    requires Parent(tr, 4) == Some(3)
    requires Parent(tr, 11) == Some(4)
    requires LocalsOf(tr, 11) == [Local(a1, Pos(22, 21))]
    requires LocalsOf(tr, 4) == [Local(a1, Pos(20, 13)), Local(a2, Pos(25, 13)), Local(a3, Pos(30, 13))]
    requires a1 != a2 && a1 != a3
    ensures EventDiags(tr, Declared(11, a1, Pos(22, 21), Initialized, []), fs) == [Diag(Shadow, a1, Pos(22, 21))]
    ensures Step(tr, Declared(11, a1, Pos(22, 21), Initialized, []), fs) == fs + [Fact(11, a1, [])]
  {
    assert Local(a1, Pos(20, 13)) in LocalsOf(tr, 4);
    assert Lookup(tr, 4, a1) == Some(4);
  }

  /** Event 18: its diagnostics and the assignments after it. */
  lemma {:induction false} Event18(j: string, k: string, n: string, q: string, a1: string, a2: string, a3: string, c1: string, c2: string, c3: string, c4: string, d1: string, tr: Tree, fs: seq<Fact>)
    requires |tr.scopes| == 27
    requires Parent(tr, 0) == None
    requires Parent(tr, 3) == Some(0)
    requires Parent(tr, 4) == Some(3)
    requires LocalsOf(tr, 4) == [Local(a1, Pos(20, 13)), Local(a2, Pos(25, 13)), Local(a3, Pos(30, 13))]
    requires LocalsOf(tr, 3) == []
    requires LocalsOf(tr, 0) == []
    requires a1 != a2 && a2 != a3
    ensures EventDiags(tr, Declared(4, a2, Pos(25, 13), Initialized, []), fs) == []
    ensures Step(tr, Declared(4, a2, Pos(25, 13), Initialized, []), fs) == fs + [Fact(4, a2, [])]
  {
    assert Lookup(tr, 0, a2) == None;
    assert Lookup(tr, 3, a2) == None;
  }

  /** Event 19: its diagnostics and the assignments after it. */
  lemma {:induction false} Event19(j: string, k: string, n: string, q: string, a1: string, a2: string, a3: string, c1: string, c2: string, c3: string, c4: string, d1: string, tr: Tree, fs: seq<Fact>)
    requires |tr.scopes| == 27
    requires Parent(tr, 4) == Some(3)
    requires LocalsOf(tr, 4) == [Local(a1, Pos(20, 13)), Local(a2, Pos(25, 13)), Local(a3, Pos(30, 13))]
    requires a1 != a2 && a2 != a3
    requires Assigned(fs, 4, a2, [])
    ensures EventDiags(tr, Referenced(4, a2, Pos(26, 34), false, false, []), fs) == []
    ensures Step(tr, Referenced(4, a2, Pos(26, 34), false, false, []), fs) == fs
  {
    assert Local(a2, Pos(25, 13)) in LocalsOf(tr, 4);
    assert Lookup(tr, 4, a2) == Some(4);
  }

  /** Event 20: its diagnostics and the assignments after it. */
  lemma {:induction false} Event20(j: string, k: string, n: string, q: string, a1: string, a2: string, a3: string, c1: string, c2: string, c3: string, c4: string, d1: string, tr: Tree, fs: seq<Fact>)
    ensures EventDiags(tr, OutAssigned(4, [], []), fs) == []
    ensures Step(tr, OutAssigned(4, [], []), fs) == fs
  {
    assert OutFacts(4, [], []) == [];
    FactsNil(fs);
  }

  /** Event 21: its diagnostics and the assignments after it. */
  lemma {:induction false} Event21(j: string, k: string, n: string, q: string, a1: string, a2: string, a3: string, c1: string, c2: string, c3: string, c4: string, d1: string, tr: Tree, fs: seq<Fact>)
    requires |tr.scopes| == 27
    requires Parent(tr, 4) == Some(3)
    requires Parent(tr, 13) == Some(4)
    requires LocalsOf(tr, 13) == []
    requires LocalsOf(tr, 4) == [Local(a1, Pos(20, 13)), Local(a2, Pos(25, 13)), Local(a3, Pos(30, 13))]
    requires a1 != a2 && a2 != a3
    requires Assigned(fs, 4, a2, [])
    ensures EventDiags(tr, Referenced(13, a2, Pos(27, 16), false, false, []), fs) == []
    ensures Step(tr, Referenced(13, a2, Pos(27, 16), false, false, []), fs) == fs
  {
    assert Local(a2, Pos(25, 13)) in LocalsOf(tr, 4);
    assert Lookup(tr, 4, a2) == Some(4);
    assert Lookup(tr, 13, a2) == Some(4);
  }

  /** Event 22: its diagnostics and the assignments after it. */
  lemma {:induction false} Event22(j: string, k: string, n: string, q: string, a1: string, a2: string, a3: string, c1: string, c2: string, c3: string, c4: string, d1: string, tr: Tree, fs: seq<Fact>)
    requires |tr.scopes| == 27
    requires Parent(tr, 4) == Some(3)
    requires Parent(tr, 13) == Some(4)
    requires Parent(tr, 14) == Some(13)
    requires LocalsOf(tr, 14) == [Local(a2, Pos(28, 42))]
    requires LocalsOf(tr, 13) == []
    requires LocalsOf(tr, 4) == [Local(a1, Pos(20, 13)), Local(a2, Pos(25, 13)), Local(a3, Pos(30, 13))]
    requires a1 != a2 && a2 != a3
    ensures EventDiags(tr, Declared(14, a2, Pos(28, 42), Initialized, [4]), fs) == [Diag(Shadow, a2, Pos(28, 42))]
    ensures Step(tr, Declared(14, a2, Pos(28, 42), Initialized, [4]), fs) == fs + [Fact(14, a2, [4])]
  {
    assert Local(a2, Pos(25, 13)) in LocalsOf(tr, 4);
    assert Lookup(tr, 4, a2) == Some(4);
    assert Lookup(tr, 13, a2) == Some(4);
  }

  /** Event 23: its diagnostics and the assignments after it. */
  lemma {:induction false} Event23(j: string, k: string, n: string, q: string, a1: string, a2: string, a3: string, c1: string, c2: string, c3: string, c4: string, d1: string, tr: Tree, fs: seq<Fact>)
    ensures EventDiags(tr, OutAssigned(14, [], [4]), fs) == []
    ensures Step(tr, OutAssigned(14, [], [4]), fs) == fs
  {
    assert OutFacts(14, [], [4]) == [];
    FactsNil(fs);
  }

  /** Event 24: its diagnostics and the assignments after it. */
  lemma {:induction false} Event24(j: string, k: string, n: string, q: string, a1: string, a2: string, a3: string, c1: string, c2: string, c3: string, c4: string, d1: string, tr: Tree, fs: seq<Fact>)
    requires |tr.scopes| == 27
    requires Parent(tr, 0) == None
    requires Parent(tr, 3) == Some(0)
    requires Parent(tr, 4) == Some(3)
    requires LocalsOf(tr, 4) == [Local(a1, Pos(20, 13)), Local(a2, Pos(25, 13)), Local(a3, Pos(30, 13))]
    requires LocalsOf(tr, 3) == []
    requires LocalsOf(tr, 0) == []
    requires a1 != a3 && a2 != a3
    ensures EventDiags(tr, Declared(4, a3, Pos(30, 13), Initialized, []), fs) == []
    ensures Step(tr, Declared(4, a3, Pos(30, 13), Initialized, []), fs) == fs + [Fact(4, a3, [])]
  {
    assert Lookup(tr, 0, a3) == None;
    assert Lookup(tr, 3, a3) == None;
  }

  /** Event 25: its diagnostics and the assignments after it. */
  lemma {:induction false} Event25(j: string, k: string, n: string, q: string, a1: string, a2: string, a3: string, c1: string, c2: string, c3: string, c4: string, d1: string, tr: Tree, fs: seq<Fact>)
    requires |tr.scopes| == 27
    requires Parent(tr, 4) == Some(3)
    requires LocalsOf(tr, 4) == [Local(a1, Pos(20, 13)), Local(a2, Pos(25, 13)), Local(a3, Pos(30, 13))]
    requires a1 != a3 && a2 != a3
    requires Assigned(fs, 4, a3, [])
    ensures EventDiags(tr, Referenced(4, a3, Pos(31, 34), false, false, []), fs) == []
    ensures Step(tr, Referenced(4, a3, Pos(31, 34), false, false, []), fs) == fs
  {
    assert Local(a3, Pos(30, 13)) in LocalsOf(tr, 4);
    assert Lookup(tr, 4, a3) == Some(4);
  }

  /** Event 26: its diagnostics and the assignments after it. */
  lemma {:induction false} Event26(j: string, k: string, n: string, q: string, a1: string, a2: string, a3: string, c1: string, c2: string, c3: string, c4: string, d1: string, tr: Tree, fs: seq<Fact>)
    ensures EventDiags(tr, OutAssigned(4, [], []), fs) == []
    ensures Step(tr, OutAssigned(4, [], []), fs) == fs
  {
    assert OutFacts(4, [], []) == [];
    FactsNil(fs);
  }

  /** Event 27: its diagnostics and the assignments after it. */
  lemma {:induction false} Event27(j: string, k: string, n: string, q: string, a1: string, a2: string, a3: string, c1: string, c2: string, c3: string, c4: string, d1: string, tr: Tree, fs: seq<Fact>)
    requires |tr.scopes| == 27
    requires Parent(tr, 4) == Some(3)
    requires Parent(tr, 15) == Some(4)
    requires LocalsOf(tr, 15) == []
    requires LocalsOf(tr, 4) == [Local(a1, Pos(20, 13)), Local(a2, Pos(25, 13)), Local(a3, Pos(30, 13))]
    requires a1 != a2 && a2 != a3
    requires Assigned(fs, 4, a2, [])
    ensures EventDiags(tr, Referenced(15, a2, Pos(32, 16), false, false, []), fs) == []
    ensures Step(tr, Referenced(15, a2, Pos(32, 16), false, false, []), fs) == fs
  {
    assert Local(a2, Pos(25, 13)) in LocalsOf(tr, 4);
    assert Lookup(tr, 4, a2) == Some(4);
    assert Lookup(tr, 15, a2) == Some(4);
  }

  /** Event 28: its diagnostics and the assignments after it. */
  lemma {:induction false} Event28(j: string, k: string, n: string, q: string, a1: string, a2: string, a3: string, c1: string, c2: string, c3: string, c4: string, d1: string, tr: Tree, fs: seq<Fact>)
    requires |tr.scopes| == 27
    requires Parent(tr, 4) == Some(3)
    requires Parent(tr, 15) == Some(4)
    requires Parent(tr, 16) == Some(15)
    requires LocalsOf(tr, 16) == [Local(a3, Pos(34, 42))]
    requires LocalsOf(tr, 15) == []
    requires LocalsOf(tr, 4) == [Local(a1, Pos(20, 13)), Local(a2, Pos(25, 13)), Local(a3, Pos(30, 13))]
    requires a1 != a3 && a2 != a3
    ensures EventDiags(tr, Declared(16, a3, Pos(34, 42), Initialized, [5]), fs) == [Diag(Shadow, a3, Pos(34, 42))]
    ensures Step(tr, Declared(16, a3, Pos(34, 42), Initialized, [5]), fs) == fs + [Fact(16, a3, [5])]
  {
    assert Local(a3, Pos(30, 13)) in LocalsOf(tr, 4);
    assert Lookup(tr, 4, a3) == Some(4);
    assert Lookup(tr, 15, a3) == Some(4);
  }

  /** Event 29: its diagnostics and the assignments after it. */
  lemma {:induction false} Event29(j: string, k: string, n: string, q: string, a1: string, a2: string, a3: string, c1: string, c2: string, c3: string, c4: string, d1: string, tr: Tree, fs: seq<Fact>)
    ensures EventDiags(tr, OutAssigned(16, [], [5]), fs) == []
    ensures Step(tr, OutAssigned(16, [], [5]), fs) == fs
  {
    assert OutFacts(16, [], [5]) == [];
    FactsNil(fs);
  }

  /** Event 30: its diagnostics and the assignments after it. */
  lemma {:induction false} Event30(j: string, k: string, n: string, q: string, a1: string, a2: string, a3: string, c1: string, c2: string, c3: string, c4: string, d1: string, tr: Tree, fs: seq<Fact>)
    requires |tr.scopes| == 27
    requires Parent(tr, 0) == None
    requires Parent(tr, 3) == Some(0)
    requires Parent(tr, 4) == Some(3)
    requires Parent(tr, 17) == Some(4)
    requires LocalsOf(tr, 17) == [Local(c1, Pos(37, 22)), Local(c1, Pos(37, 42))]
    requires LocalsOf(tr, 4) == [Local(a1, Pos(20, 13)), Local(a2, Pos(25, 13)), Local(a3, Pos(30, 13))]
    requires LocalsOf(tr, 3) == []
    requires LocalsOf(tr, 0) == []
    requires a1 != c1 && a2 != c1 && a3 != c1
    ensures EventDiags(tr, Declared(17, c1, Pos(37, 22), Initialized, []), fs) == []
    ensures Step(tr, Declared(17, c1, Pos(37, 22), Initialized, []), fs) == fs + [Fact(17, c1, [])]
  {
    assert Lookup(tr, 0, c1) == None;
    assert Lookup(tr, 3, c1) == None;
    assert Lookup(tr, 4, c1) == None;
  }

  /** Event 31: its diagnostics and the assignments after it. */
  lemma {:induction false} Event31(j: string, k: string, n: string, q: string, a1: string, a2: string, a3: string, c1: string, c2: string, c3: string, c4: string, d1: string, tr: Tree, fs: seq<Fact>)
    requires |tr.scopes| == 27
    requires Parent(tr, 17) == Some(4)
    requires LocalsOf(tr, 17) == [Local(c1, Pos(37, 22)), Local(c1, Pos(37, 42))]
    ensures EventDiags(tr, Declared(17, c1, Pos(37, 42), Initialized, []), fs) == [Diag(Duplicate, c1, Pos(37, 42))]
    ensures Step(tr, Declared(17, c1, Pos(37, 42), Initialized, []), fs) == fs + [Fact(17, c1, [])]
  {
    assert Local(c1, Pos(37, 22)) in LocalsOf(tr, 17);
  }

  /** Event 32: its diagnostics and the assignments after it. */
  lemma {:induction false} Event32(j: string, k: string, n: string, q: string, a1: string, a2: string, a3: string, c1: string, c2: string, c3: string, c4: string, d1: string, tr: Tree, fs: seq<Fact>)
    requires |tr.scopes| == 27
    requires Parent(tr, 0) == None
    requires Parent(tr, 3) == Some(0)
    requires Parent(tr, 4) == Some(3)
    requires Parent(tr, 19) == Some(4)
    requires LocalsOf(tr, 19) == [Local(c2, Pos(40, 21))]
    requires LocalsOf(tr, 4) == [Local(a1, Pos(20, 13)), Local(a2, Pos(25, 13)), Local(a3, Pos(30, 13))]
    requires LocalsOf(tr, 3) == []
    requires LocalsOf(tr, 0) == []
    requires a1 != c2 && a2 != c2 && a3 != c2
    ensures EventDiags(tr, Declared(19, c2, Pos(40, 21), Initialized, []), fs) == []
    ensures Step(tr, Declared(19, c2, Pos(40, 21), Initialized, []), fs) == fs + [Fact(19, c2, [])]
  {
    assert Lookup(tr, 0, c2) == None;
    assert Lookup(tr, 3, c2) == None;
    assert Lookup(tr, 4, c2) == None;
  }

  /** Event 33: its diagnostics and the assignments after it. */
  lemma {:induction false} Event33(j: string, k: string, n: string, q: string, a1: string, a2: string, a3: string, c1: string, c2: string, c3: string, c4: string, d1: string, tr: Tree, fs: seq<Fact>)
    requires |tr.scopes| == 27
    requires Parent(tr, 19) == Some(4)
    requires Parent(tr, 20) == Some(19)
    requires LocalsOf(tr, 20) == [Local(c2, Pos(41, 42))]
    requires LocalsOf(tr, 19) == [Local(c2, Pos(40, 21))]
    ensures EventDiags(tr, Declared(20, c2, Pos(41, 42), Initialized, [7]), fs) == [Diag(Shadow, c2, Pos(41, 42))]
    ensures Step(tr, Declared(20, c2, Pos(41, 42), Initialized, [7]), fs) == fs + [Fact(20, c2, [7])]
  {
    assert Local(c2, Pos(40, 21)) in LocalsOf(tr, 19);
    assert Lookup(tr, 19, c2) == Some(19);
  }

  /** Event 34: its diagnostics and the assignments after it. */
  lemma {:induction false} Event34(j: string, k: string, n: string, q: string, a1: string, a2: string, a3: string, c1: string, c2: string, c3: string, c4: string, d1: string, tr: Tree, fs: seq<Fact>)
    ensures EventDiags(tr, OutAssigned(20, [], [7]), fs) == []
    ensures Step(tr, OutAssigned(20, [], [7]), fs) == fs
  {
    assert OutFacts(20, [], [7]) == [];
    FactsNil(fs);
  }

  /** Event 35: its diagnostics and the assignments after it. */
  lemma {:induction false} Event35(j: string, k: string, n: string, q: string, a1: string, a2: string, a3: string, c1: string, c2: string, c3: string, c4: string, d1: string, tr: Tree, fs: seq<Fact>)
    requires |tr.scopes| == 27
    requires Parent(tr, 0) == None
    requires Parent(tr, 3) == Some(0)
    requires Parent(tr, 4) == Some(3)
    requires Parent(tr, 21) == Some(4)
    requires LocalsOf(tr, 21) == [Local(c3, Pos(43, 21))]
    requires LocalsOf(tr, 4) == [Local(a1, Pos(20, 13)), Local(a2, Pos(25, 13)), Local(a3, Pos(30, 13))]
    requires LocalsOf(tr, 3) == []
    requires LocalsOf(tr, 0) == []
    requires a1 != c3 && a2 != c3 && a3 != c3
    ensures EventDiags(tr, Declared(21, c3, Pos(43, 21), Initialized, []), fs) == []
    ensures Step(tr, Declared(21, c3, Pos(43, 21), Initialized, []), fs) == fs + [Fact(21, c3, [])]
  {
    assert Lookup(tr, 0, c3) == None;
    assert Lookup(tr, 3, c3) == None;
    assert Lookup(tr, 4, c3) == None;
  }

  /** Event 36: its diagnostics and the assignments after it. */
  lemma {:induction false} Event36(j: string, k: string, n: string, q: string, a1: string, a2: string, a3: string, c1: string, c2: string, c3: string, c4: string, d1: string, tr: Tree, fs: seq<Fact>)
    requires |tr.scopes| == 27
    requires Parent(tr, 21) == Some(4)
    requires Parent(tr, 22) == Some(21)
    requires LocalsOf(tr, 22) == [Local(c3, Pos(45, 42))]
    requires LocalsOf(tr, 21) == [Local(c3, Pos(43, 21))]
    ensures EventDiags(tr, Declared(22, c3, Pos(45, 42), Initialized, [8]), fs) == [Diag(Shadow, c3, Pos(45, 42))]
    ensures Step(tr, Declared(22, c3, Pos(45, 42), Initialized, [8]), fs) == fs + [Fact(22, c3, [8])]
  {
    assert Local(c3, Pos(43, 21)) in LocalsOf(tr, 21);
    assert Lookup(tr, 21, c3) == Some(21);
  }

  /** Event 37: its diagnostics and the assignments after it. */
  lemma {:induction false} Event37(j: string, k: string, n: string, q: string, a1: string, a2: string, a3: string, c1: string, c2: string, c3: string, c4: string, d1: string, tr: Tree, fs: seq<Fact>)
    ensures EventDiags(tr, OutAssigned(22, [], [8]), fs) == []
    ensures Step(tr, OutAssigned(22, [], [8]), fs) == fs
  {
    assert OutFacts(22, [], [8]) == [];
    FactsNil(fs);
  }

  /** Event 38: its diagnostics and the assignments after it. */
  lemma {:induction false} Event38(j: string, k: string, n: string, q: string, a1: string, a2: string, a3: string, c1: string, c2: string, c3: string, c4: string, d1: string, tr: Tree, fs: seq<Fact>)
    requires |tr.scopes| == 27
    requires Parent(tr, 0) == None
    requires Parent(tr, 3) == Some(0)
    requires Parent(tr, 4) == Some(3)
    requires Parent(tr, 23) == Some(4)
    requires LocalsOf(tr, 23) == [Local(c4, Pos(48, 21))]
    requires LocalsOf(tr, 4) == [Local(a1, Pos(20, 13)), Local(a2, Pos(25, 13)), Local(a3, Pos(30, 13))]
    requires LocalsOf(tr, 3) == []
    requires LocalsOf(tr, 0) == []
    requires a1 != c4 && a2 != c4 && a3 != c4
    ensures EventDiags(tr, Declared(23, c4, Pos(48, 21), Initialized, []), fs) == []
    ensures Step(tr, Declared(23, c4, Pos(48, 21), Initialized, []), fs) == fs + [Fact(23, c4, [])]
  {
    assert Lookup(tr, 0, c4) == None;
    assert Lookup(tr, 3, c4) == None;
    assert Lookup(tr, 4, c4) == None;
  }

  /** Event 39: its diagnostics and the assignments after it. */
  lemma {:induction false} Event39(j: string, k: string, n: string, q: string, a1: string, a2: string, a3: string, c1: string, c2: string, c3: string, c4: string, d1: string, tr: Tree, fs: seq<Fact>)
    requires |tr.scopes| == 27
    requires Parent(tr, 23) == Some(4)
    requires Parent(tr, 24) == Some(23)
    requires LocalsOf(tr, 24) == [Local(c4, Pos(50, 17))]
    requires LocalsOf(tr, 23) == [Local(c4, Pos(48, 21))]
    ensures EventDiags(tr, Declared(24, c4, Pos(50, 17), Initialized, [9]), fs) == [Diag(Shadow, c4, Pos(50, 17))]
    ensures Step(tr, Declared(24, c4, Pos(50, 17), Initialized, [9]), fs) == fs + [Fact(24, c4, [9])]
  {
    assert Local(c4, Pos(48, 21)) in LocalsOf(tr, 23);
    assert Lookup(tr, 23, c4) == Some(23);
  }

  /** Event 40: its diagnostics and the assignments after it. */
  lemma {:induction false} Event40(j: string, k: string, n: string, q: string, a1: string, a2: string, a3: string, c1: string, c2: string, c3: string, c4: string, d1: string, tr: Tree, fs: seq<Fact>)
    requires |tr.scopes| == 27
    requires Parent(tr, 24) == Some(23)
    requires LocalsOf(tr, 24) == [Local(c4, Pos(50, 17))]
    requires Assigned(fs, 24, c4, [9])
    ensures EventDiags(tr, Referenced(24, c4, Pos(51, 38), false, false, [9]), fs) == []
    ensures Step(tr, Referenced(24, c4, Pos(51, 38), false, false, [9]), fs) == fs
  {
    assert Local(c4, Pos(50, 17)) in LocalsOf(tr, 24);
    assert Lookup(tr, 24, c4) == Some(24);
  }

  /** Event 41: its diagnostics and the assignments after it. */
  lemma {:induction false} Event41(j: string, k: string, n: string, q: string, a1: string, a2: string, a3: string, c1: string, c2: string, c3: string, c4: string, d1: string, tr: Tree, fs: seq<Fact>)
    ensures EventDiags(tr, OutAssigned(24, [], [9]), fs) == []
    ensures Step(tr, OutAssigned(24, [], [9]), fs) == fs
  {
    assert OutFacts(24, [], [9]) == [];
    FactsNil(fs);
  }

  /** Event 42: its diagnostics and the assignments after it. */
  lemma {:induction false} Event42(j: string, k: string, n: string, q: string, a1: string, a2: string, a3: string, c1: string, c2: string, c3: string, c4: string, d1: string, tr: Tree, fs: seq<Fact>)
    requires |tr.scopes| == 27
    requires Parent(tr, 4) == Some(3)
    requires Parent(tr, 25) == Some(4)
    requires LocalsOf(tr, 25) == []
    requires LocalsOf(tr, 4) == [Local(a1, Pos(20, 13)), Local(a2, Pos(25, 13)), Local(a3, Pos(30, 13))]
    requires a1 != a2 && a2 != a3
    requires Assigned(fs, 4, a2, [])
    ensures EventDiags(tr, Referenced(25, a2, Pos(54, 16), false, false, []), fs) == []
    ensures Step(tr, Referenced(25, a2, Pos(54, 16), false, false, []), fs) == fs
  {
    assert Local(a2, Pos(25, 13)) in LocalsOf(tr, 4);
    assert Lookup(tr, 4, a2) == Some(4);
    assert Lookup(tr, 25, a2) == Some(4);
  }

  /** Event 43: its diagnostics and the assignments after it. */
  lemma {:induction false} Event43(j: string, k: string, n: string, q: string, a1: string, a2: string, a3: string, c1: string, c2: string, c3: string, c4: string, d1: string, tr: Tree, fs: seq<Fact>)
    requires |tr.scopes| == 27
    requires Parent(tr, 0) == None
    requires Parent(tr, 3) == Some(0)
    requires Parent(tr, 4) == Some(3)
    requires Parent(tr, 25) == Some(4)
    requires Parent(tr, 26) == Some(25)
    requires LocalsOf(tr, 26) == [Local(d1, Pos(55, 43)), Local(d1, Pos(55, 58))]
    requires LocalsOf(tr, 25) == []
    requires LocalsOf(tr, 4) == [Local(a1, Pos(20, 13)), Local(a2, Pos(25, 13)), Local(a3, Pos(30, 13))]
    requires LocalsOf(tr, 3) == []
    requires LocalsOf(tr, 0) == []
    requires a1 != d1 && a2 != d1 && a3 != d1
    ensures EventDiags(tr, Declared(26, d1, Pos(55, 43), Initialized, [10]), fs) == []
    ensures Step(tr, Declared(26, d1, Pos(55, 43), Initialized, [10]), fs) == fs + [Fact(26, d1, [10])]
  {
    assert Lookup(tr, 0, d1) == None;
    assert Lookup(tr, 3, d1) == None;
    assert Lookup(tr, 4, d1) == None;
    assert Lookup(tr, 25, d1) == None;
  }

  /** Event 44: its diagnostics and the assignments after it. */
  lemma {:induction false} Event44(j: string, k: string, n: string, q: string, a1: string, a2: string, a3: string, c1: string, c2: string, c3: string, c4: string, d1: string, tr: Tree, fs: seq<Fact>)
    requires |tr.scopes| == 27
    requires Parent(tr, 26) == Some(25)
    requires LocalsOf(tr, 26) == [Local(d1, Pos(55, 43)), Local(d1, Pos(55, 58))]
    ensures EventDiags(tr, Declared(26, d1, Pos(55, 58), Initialized, [10]), fs) == [Diag(Duplicate, d1, Pos(55, 58))]
    ensures Step(tr, Declared(26, d1, Pos(55, 58), Initialized, [10]), fs) == fs + [Fact(26, d1, [10])]
  {
    assert Local(d1, Pos(55, 43)) in LocalsOf(tr, 26);
  }

  /** Event 45: its diagnostics and the assignments after it. */
  lemma {:induction false} Event45(j: string, k: string, n: string, q: string, a1: string, a2: string, a3: string, c1: string, c2: string, c3: string, c4: string, d1: string, tr: Tree, fs: seq<Fact>)
    ensures EventDiags(tr, OutAssigned(26, [], [10]), fs) == []
    ensures Step(tr, OutAssigned(26, [], [10]), fs) == fs
  {
    assert OutFacts(26, [], [10]) == [];
    FactsNil(fs);
  }

  /** What a read of a1 in scope 4 finds assigned before event 8. */
  lemma {:induction false} Read0(j: string, k: string, n: string, q: string, a1: string, a2: string, a3: string, c1: string, c2: string, c3: string, c4: string, d1: string)
    ensures !Assigned(Known0(j, k, n, q, a1, a2, a3, c1, c2, c3, c4, d1), 4, a1, [])
  {
    Assigned0(j, k, n, q, a1, a2, a3, c1, c2, c3, c4, d1, [], 4, a1, []);
    assert !Assigned([], 4, a1, []);
  }

  /** What a read of a2 in scope 4 finds assigned before event 16. */
  lemma {:induction false} Read1(j: string, k: string, n: string, q: string, a1: string, a2: string, a3: string, c1: string, c2: string, c3: string, c4: string, d1: string)
    requires a1 != a2
    ensures !Assigned(Known1(j, k, n, q, a1, a2, a3, c1, c2, c3, c4, d1), 4, a2, [])
  {
    Assigned0(j, k, n, q, a1, a2, a3, c1, c2, c3, c4, d1, [], 4, a2, []);
    Assigned1(j, k, n, q, a1, a2, a3, c1, c2, c3, c4, d1, Known0(j, k, n, q, a1, a2, a3, c1, c2, c3, c4, d1), 4, a2, []);
    assert !Assigned([], 4, a2, []);
  }

  /** What a read of a3 in scope 4 finds assigned before event 24. */
  lemma {:induction false} Read2(j: string, k: string, n: string, q: string, a1: string, a2: string, a3: string, c1: string, c2: string, c3: string, c4: string, d1: string)
    requires a1 != a3 && a2 != a3
    ensures !Assigned(Known2(j, k, n, q, a1, a2, a3, c1, c2, c3, c4, d1), 4, a3, [])
  {
    Assigned0(j, k, n, q, a1, a2, a3, c1, c2, c3, c4, d1, [], 4, a3, []);
    Assigned1(j, k, n, q, a1, a2, a3, c1, c2, c3, c4, d1, Known0(j, k, n, q, a1, a2, a3, c1, c2, c3, c4, d1), 4, a3, []);
    Assigned2(j, k, n, q, a1, a2, a3, c1, c2, c3, c4, d1, Known1(j, k, n, q, a1, a2, a3, c1, c2, c3, c4, d1), 4, a3, []);
    assert !Assigned([], 4, a3, []);
  }

  /** What a read of a2 in scope 4 finds assigned before event 24. */
  lemma {:induction false} Read3(j: string, k: string, n: string, q: string, a1: string, a2: string, a3: string, c1: string, c2: string, c3: string, c4: string, d1: string)
    ensures Assigned(Known2(j, k, n, q, a1, a2, a3, c1, c2, c3, c4, d1), 4, a2, [])
  {
    Assigned0(j, k, n, q, a1, a2, a3, c1, c2, c3, c4, d1, [], 4, a2, []);
    Assigned1(j, k, n, q, a1, a2, a3, c1, c2, c3, c4, d1, Known0(j, k, n, q, a1, a2, a3, c1, c2, c3, c4, d1), 4, a2, []);
    Assigned2(j, k, n, q, a1, a2, a3, c1, c2, c3, c4, d1, Known1(j, k, n, q, a1, a2, a3, c1, c2, c3, c4, d1), 4, a2, []);
    assert !Assigned([], 4, a2, []);
  }

  /** What a read of c4 in scope 24 finds assigned before event 40. */
  lemma {:induction false} Read4(j: string, k: string, n: string, q: string, a1: string, a2: string, a3: string, c1: string, c2: string, c3: string, c4: string, d1: string)
    ensures Assigned(Known4(j, k, n, q, a1, a2, a3, c1, c2, c3, c4, d1), 24, c4, [9])
  {
    Assigned0(j, k, n, q, a1, a2, a3, c1, c2, c3, c4, d1, [], 24, c4, [9]);
    Assigned1(j, k, n, q, a1, a2, a3, c1, c2, c3, c4, d1, Known0(j, k, n, q, a1, a2, a3, c1, c2, c3, c4, d1), 24, c4, [9]);
    Assigned2(j, k, n, q, a1, a2, a3, c1, c2, c3, c4, d1, Known1(j, k, n, q, a1, a2, a3, c1, c2, c3, c4, d1), 24, c4, [9]);
    Assigned3(j, k, n, q, a1, a2, a3, c1, c2, c3, c4, d1, Known2(j, k, n, q, a1, a2, a3, c1, c2, c3, c4, d1), 24, c4, [9]);
    Assigned4(j, k, n, q, a1, a2, a3, c1, c2, c3, c4, d1, Known3(j, k, n, q, a1, a2, a3, c1, c2, c3, c4, d1), 24, c4, [9]);
    assert !Assigned([], 24, c4, [9]);
  }

  /** What a read of a2 in scope 4 finds assigned before event 40. */
  lemma {:induction false} Read5(j: string, k: string, n: string, q: string, a1: string, a2: string, a3: string, c1: string, c2: string, c3: string, c4: string, d1: string)
    ensures Assigned(Known4(j, k, n, q, a1, a2, a3, c1, c2, c3, c4, d1), 4, a2, [])
  {
    Assigned0(j, k, n, q, a1, a2, a3, c1, c2, c3, c4, d1, [], 4, a2, []);
    Assigned1(j, k, n, q, a1, a2, a3, c1, c2, c3, c4, d1, Known0(j, k, n, q, a1, a2, a3, c1, c2, c3, c4, d1), 4, a2, []);
    Assigned2(j, k, n, q, a1, a2, a3, c1, c2, c3, c4, d1, Known1(j, k, n, q, a1, a2, a3, c1, c2, c3, c4, d1), 4, a2, []);
    Assigned3(j, k, n, q, a1, a2, a3, c1, c2, c3, c4, d1, Known2(j, k, n, q, a1, a2, a3, c1, c2, c3, c4, d1), 4, a2, []);
    Assigned4(j, k, n, q, a1, a2, a3, c1, c2, c3, c4, d1, Known3(j, k, n, q, a1, a2, a3, c1, c2, c3, c4, d1), 4, a2, []);
    assert !Assigned([], 4, a2, []);
  }

  /** The parent and the locals of scope 0. */
  lemma {:induction false} Scope0(j: string, k: string, n: string, q: string, a1: string, a2: string, a3: string, c1: string, c2: string, c3: string, c4: string, d1: string, tr: Tree)
    requires ScopesAre(tr, Layout())
    requires LocalsFit(j, k, n, q, a1, a2, a3, c1, c2, c3, c4, d1, tr)
    ensures |tr.scopes| == 27
    ensures Parent(tr, 0) == None
    ensures LocalsOf(tr, 0) == []
  {
    assert tr.scopes[0] == Layout()[0];
    Locals0(j, k, n, q, a1, a2, a3, c1, c2, c3, c4, d1);
    assert LocalsOf(tr, 0) == DeclaredBy(j, k, n, q, a1, a2, a3, c1, c2, c3, c4, d1, 6, 0);
  }

  /** The parent and the locals of scope 3. */
  lemma {:induction false} Scope3(j: string, k: string, n: string, q: string, a1: string, a2: string, a3: string, c1: string, c2: string, c3: string, c4: string, d1: string, tr: Tree)
    requires ScopesAre(tr, Layout())
    requires LocalsFit(j, k, n, q, a1, a2, a3, c1, c2, c3, c4, d1, tr)
    ensures |tr.scopes| == 27
    ensures Parent(tr, 3) == Some(0)
    ensures LocalsOf(tr, 3) == []
  {
    assert tr.scopes[3] == Layout()[3];
    Locals3(j, k, n, q, a1, a2, a3, c1, c2, c3, c4, d1);
    assert LocalsOf(tr, 3) == DeclaredBy(j, k, n, q, a1, a2, a3, c1, c2, c3, c4, d1, 6, 3);
  }

  /** The parent and the locals of scope 4. */
  lemma {:induction false} Scope4(j: string, k: string, n: string, q: string, a1: string, a2: string, a3: string, c1: string, c2: string, c3: string, c4: string, d1: string, tr: Tree)
    requires ScopesAre(tr, Layout())
    requires LocalsFit(j, k, n, q, a1, a2, a3, c1, c2, c3, c4, d1, tr)
    ensures |tr.scopes| == 27
    ensures Parent(tr, 4) == Some(3)
    ensures LocalsOf(tr, 4) == [Local(a1, Pos(20, 13)), Local(a2, Pos(25, 13)), Local(a3, Pos(30, 13))]
  {
    assert tr.scopes[4] == Layout()[4];
    Locals4(j, k, n, q, a1, a2, a3, c1, c2, c3, c4, d1);
    assert LocalsOf(tr, 4) == DeclaredBy(j, k, n, q, a1, a2, a3, c1, c2, c3, c4, d1, 6, 4);
  }

  /** The parent and the locals of scope 5. */
  lemma {:induction false} Scope5(j: string, k: string, n: string, q: string, a1: string, a2: string, a3: string, c1: string, c2: string, c3: string, c4: string, d1: string, tr: Tree)
    requires ScopesAre(tr, Layout())
    requires LocalsFit(j, k, n, q, a1, a2, a3, c1, c2, c3, c4, d1, tr)
    ensures |tr.scopes| == 27
    ensures Parent(tr, 5) == Some(4)
    ensures LocalsOf(tr, 5) == [Local(j, Pos(6, 21))]
  {
    assert tr.scopes[5] == Layout()[5];
    Locals5(j, k, n, q, a1, a2, a3, c1, c2, c3, c4, d1);
    assert LocalsOf(tr, 5) == DeclaredBy(j, k, n, q, a1, a2, a3, c1, c2, c3, c4, d1, 6, 5);
  }

  /** The parent and the locals of scope 6. */
  lemma {:induction false} Scope6(j: string, k: string, n: string, q: string, a1: string, a2: string, a3: string, c1: string, c2: string, c3: string, c4: string, d1: string, tr: Tree)
    requires ScopesAre(tr, Layout())
    requires LocalsFit(j, k, n, q, a1, a2, a3, c1, c2, c3, c4, d1, tr)
    ensures |tr.scopes| == 27
    ensures Parent(tr, 6) == Some(5)
    ensures LocalsOf(tr, 6) == [Local(k, Pos(7, 47))]
  {
    assert tr.scopes[6] == Layout()[6];
    Locals6(j, k, n, q, a1, a2, a3, c1, c2, c3, c4, d1);
    assert LocalsOf(tr, 6) == DeclaredBy(j, k, n, q, a1, a2, a3, c1, c2, c3, c4, d1, 6, 6);
  }

  /** The parent and the locals of scope 7. */
  lemma {:induction false} Scope7(j: string, k: string, n: string, q: string, a1: string, a2: string, a3: string, c1: string, c2: string, c3: string, c4: string, d1: string, tr: Tree)
    requires ScopesAre(tr, Layout())
    requires LocalsFit(j, k, n, q, a1, a2, a3, c1, c2, c3, c4, d1, tr)
    ensures |tr.scopes| == 27
    ensures Parent(tr, 7) == Some(4)
    ensures LocalsOf(tr, 7) == []
  {
    assert tr.scopes[7] == Layout()[7];
    Locals7(j, k, n, q, a1, a2, a3, c1, c2, c3, c4, d1);
    assert LocalsOf(tr, 7) == DeclaredBy(j, k, n, q, a1, a2, a3, c1, c2, c3, c4, d1, 6, 7);
  }

  /** The parent and the locals of scope 8. */
  lemma {:induction false} Scope8(j: string, k: string, n: string, q: string, a1: string, a2: string, a3: string, c1: string, c2: string, c3: string, c4: string, d1: string, tr: Tree)
    requires ScopesAre(tr, Layout())
    requires LocalsFit(j, k, n, q, a1, a2, a3, c1, c2, c3, c4, d1, tr)
    ensures |tr.scopes| == 27
    ensures Parent(tr, 8) == Some(7)
    ensures LocalsOf(tr, 8) == [Local(n, Pos(13, 42))]
  {
    assert tr.scopes[8] == Layout()[8];
    Locals8(j, k, n, q, a1, a2, a3, c1, c2, c3, c4, d1);
    assert LocalsOf(tr, 8) == DeclaredBy(j, k, n, q, a1, a2, a3, c1, c2, c3, c4, d1, 6, 8);
  }

  /** The parent and the locals of scope 9. */
  lemma {:induction false} Scope9(j: string, k: string, n: string, q: string, a1: string, a2: string, a3: string, c1: string, c2: string, c3: string, c4: string, d1: string, tr: Tree)
    requires ScopesAre(tr, Layout())
    requires LocalsFit(j, k, n, q, a1, a2, a3, c1, c2, c3, c4, d1, tr)
    ensures |tr.scopes| == 27
    ensures Parent(tr, 9) == Some(4)
    ensures LocalsOf(tr, 9) == []
  {
    assert tr.scopes[9] == Layout()[9];
    Locals9(j, k, n, q, a1, a2, a3, c1, c2, c3, c4, d1);
    assert LocalsOf(tr, 9) == DeclaredBy(j, k, n, q, a1, a2, a3, c1, c2, c3, c4, d1, 6, 9);
  }

  /** The parent and the locals of scope 10. */
  lemma {:induction false} Scope10(j: string, k: string, n: string, q: string, a1: string, a2: string, a3: string, c1: string, c2: string, c3: string, c4: string, d1: string, tr: Tree)
    requires ScopesAre(tr, Layout())
    requires LocalsFit(j, k, n, q, a1, a2, a3, c1, c2, c3, c4, d1, tr)
    ensures |tr.scopes| == 27
    ensures Parent(tr, 10) == Some(9)
    ensures LocalsOf(tr, 10) == [Local(q, Pos(17, 42))]
  {
    assert tr.scopes[10] == Layout()[10];
    Locals10(j, k, n, q, a1, a2, a3, c1, c2, c3, c4, d1);
    assert LocalsOf(tr, 10) == DeclaredBy(j, k, n, q, a1, a2, a3, c1, c2, c3, c4, d1, 6, 10);
  }

  /** The parent and the locals of scope 11. */
  lemma {:induction false} Scope11(j: string, k: string, n: string, q: string, a1: string, a2: string, a3: string, c1: string, c2: string, c3: string, c4: string, d1: string, tr: Tree)
    requires ScopesAre(tr, Layout())
    requires LocalsFit(j, k, n, q, a1, a2, a3, c1, c2, c3, c4, d1, tr)
    ensures |tr.scopes| == 27
    ensures Parent(tr, 11) == Some(4)
    ensures LocalsOf(tr, 11) == [Local(a1, Pos(22, 21))]
  {
    assert tr.scopes[11] == Layout()[11];
    Locals11(j, k, n, q, a1, a2, a3, c1, c2, c3, c4, d1);
    assert LocalsOf(tr, 11) == DeclaredBy(j, k, n, q, a1, a2, a3, c1, c2, c3, c4, d1, 6, 11);
  }

  /** The parent and the locals of scope 13. */
  lemma {:induction false} Scope13(j: string, k: string, n: string, q: string, a1: string, a2: string, a3: string, c1: string, c2: string, c3: string, c4: string, d1: string, tr: Tree)
    requires ScopesAre(tr, Layout())
    requires LocalsFit(j, k, n, q, a1, a2, a3, c1, c2, c3, c4, d1, tr)
    ensures |tr.scopes| == 27
    ensures Parent(tr, 13) == Some(4)
    ensures LocalsOf(tr, 13) == []
  {
    assert tr.scopes[13] == Layout()[13];
    Locals13(j, k, n, q, a1, a2, a3, c1, c2, c3, c4, d1);
    assert LocalsOf(tr, 13) == DeclaredBy(j, k, n, q, a1, a2, a3, c1, c2, c3, c4, d1, 6, 13);
  }

  /** The parent and the locals of scope 14. */
  lemma {:induction false} Scope14(j: string, k: string, n: string, q: string, a1: string, a2: string, a3: string, c1: string, c2: string, c3: string, c4: string, d1: string, tr: Tree)
    requires ScopesAre(tr, Layout())
    requires LocalsFit(j, k, n, q, a1, a2, a3, c1, c2, c3, c4, d1, tr)
    ensures |tr.scopes| == 27
    ensures Parent(tr, 14) == Some(13)
    ensures LocalsOf(tr, 14) == [Local(a2, Pos(28, 42))]
  {
    assert tr.scopes[14] == Layout()[14];
    Locals14(j, k, n, q, a1, a2, a3, c1, c2, c3, c4, d1);
    assert LocalsOf(tr, 14) == DeclaredBy(j, k, n, q, a1, a2, a3, c1, c2, c3, c4, d1, 6, 14);
  }

  /** The parent and the locals of scope 15. */
  lemma {:induction false} Scope15(j: string, k: string, n: string, q: string, a1: string, a2: string, a3: string, c1: string, c2: string, c3: string, c4: string, d1: string, tr: Tree)
    requires ScopesAre(tr, Layout())
    requires LocalsFit(j, k, n, q, a1, a2, a3, c1, c2, c3, c4, d1, tr)
    ensures |tr.scopes| == 27
    ensures Parent(tr, 15) == Some(4)
    ensures LocalsOf(tr, 15) == []
  {
    assert tr.scopes[15] == Layout()[15];
    Locals15(j, k, n, q, a1, a2, a3, c1, c2, c3, c4, d1);
    assert LocalsOf(tr, 15) == DeclaredBy(j, k, n, q, a1, a2, a3, c1, c2, c3, c4, d1, 6, 15);
  }

  /** The parent and the locals of scope 16. */
  lemma {:induction false} Scope16(j: string, k: string, n: string, q: string, a1: string, a2: string, a3: string, c1: string, c2: string, c3: string, c4: string, d1: string, tr: Tree)
    requires ScopesAre(tr, Layout())
    requires LocalsFit(j, k, n, q, a1, a2, a3, c1, c2, c3, c4, d1, tr)
    ensures |tr.scopes| == 27
    ensures Parent(tr, 16) == Some(15)
    ensures LocalsOf(tr, 16) == [Local(a3, Pos(34, 42))]
  {
    assert tr.scopes[16] == Layout()[16];
    Locals16(j, k, n, q, a1, a2, a3, c1, c2, c3, c4, d1);
    assert LocalsOf(tr, 16) == DeclaredBy(j, k, n, q, a1, a2, a3, c1, c2, c3, c4, d1, 6, 16);
  }

  /** The parent and the locals of scope 17. */
  lemma {:induction false} Scope17(j: string, k: string, n: string, q: string, a1: string, a2: string, a3: string, c1: string, c2: string, c3: string, c4: string, d1: string, tr: Tree)
    requires ScopesAre(tr, Layout())
    requires LocalsFit(j, k, n, q, a1, a2, a3, c1, c2, c3, c4, d1, tr)
    ensures |tr.scopes| == 27
    ensures Parent(tr, 17) == Some(4)
    ensures LocalsOf(tr, 17) == [Local(c1, Pos(37, 22)), Local(c1, Pos(37, 42))]
  {
    assert tr.scopes[17] == Layout()[17];
    Locals17(j, k, n, q, a1, a2, a3, c1, c2, c3, c4, d1);
    assert LocalsOf(tr, 17) == DeclaredBy(j, k, n, q, a1, a2, a3, c1, c2, c3, c4, d1, 6, 17);
  }

  /** The parent and the locals of scope 19. */
  lemma {:induction false} Scope19(j: string, k: string, n: string, q: string, a1: string, a2: string, a3: string, c1: string, c2: string, c3: string, c4: string, d1: string, tr: Tree)
    requires ScopesAre(tr, Layout())
    requires LocalsFit(j, k, n, q, a1, a2, a3, c1, c2, c3, c4, d1, tr)
    ensures |tr.scopes| == 27
    ensures Parent(tr, 19) == Some(4)
    ensures LocalsOf(tr, 19) == [Local(c2, Pos(40, 21))]
  {
    assert tr.scopes[19] == Layout()[19];
    Locals19(j, k, n, q, a1, a2, a3, c1, c2, c3, c4, d1);
    assert LocalsOf(tr, 19) == DeclaredBy(j, k, n, q, a1, a2, a3, c1, c2, c3, c4, d1, 6, 19);
  }

  /** The parent and the locals of scope 20. */
  lemma {:induction false} Scope20(j: string, k: string, n: string, q: string, a1: string, a2: string, a3: string, c1: string, c2: string, c3: string, c4: string, d1: string, tr: Tree)
    requires ScopesAre(tr, Layout())
    requires LocalsFit(j, k, n, q, a1, a2, a3, c1, c2, c3, c4, d1, tr)
    ensures |tr.scopes| == 27
    ensures Parent(tr, 20) == Some(19)
    ensures LocalsOf(tr, 20) == [Local(c2, Pos(41, 42))]
  {
    assert tr.scopes[20] == Layout()[20];
    Locals20(j, k, n, q, a1, a2, a3, c1, c2, c3, c4, d1);
    assert LocalsOf(tr, 20) == DeclaredBy(j, k, n, q, a1, a2, a3, c1, c2, c3, c4, d1, 6, 20);
  }

  /** The parent and the locals of scope 21. */
  lemma {:induction false} Scope21(j: string, k: string, n: string, q: string, a1: string, a2: string, a3: string, c1: string, c2: string, c3: string, c4: string, d1: string, tr: Tree)
    requires ScopesAre(tr, Layout())
    requires LocalsFit(j, k, n, q, a1, a2, a3, c1, c2, c3, c4, d1, tr)
    ensures |tr.scopes| == 27
    ensures Parent(tr, 21) == Some(4)
    ensures LocalsOf(tr, 21) == [Local(c3, Pos(43, 21))]
  {
    assert tr.scopes[21] == Layout()[21];
    Locals21(j, k, n, q, a1, a2, a3, c1, c2, c3, c4, d1);
    assert LocalsOf(tr, 21) == DeclaredBy(j, k, n, q, a1, a2, a3, c1, c2, c3, c4, d1, 6, 21);
  }

  /** The parent and the locals of scope 22. */
  lemma {:induction false} Scope22(j: string, k: string, n: string, q: string, a1: string, a2: string, a3: string, c1: string, c2: string, c3: string, c4: string, d1: string, tr: Tree)
    requires ScopesAre(tr, Layout())
    requires LocalsFit(j, k, n, q, a1, a2, a3, c1, c2, c3, c4, d1, tr)
    ensures |tr.scopes| == 27
    ensures Parent(tr, 22) == Some(21)
    ensures LocalsOf(tr, 22) == [Local(c3, Pos(45, 42))]
  {
    assert tr.scopes[22] == Layout()[22];
    Locals22(j, k, n, q, a1, a2, a3, c1, c2, c3, c4, d1);
    assert LocalsOf(tr, 22) == DeclaredBy(j, k, n, q, a1, a2, a3, c1, c2, c3, c4, d1, 6, 22);
  }

  /** The parent and the locals of scope 23. */
  lemma {:induction false} Scope23(j: string, k: string, n: string, q: string, a1: string, a2: string, a3: string, c1: string, c2: string, c3: string, c4: string, d1: string, tr: Tree)
    requires ScopesAre(tr, Layout())
    requires LocalsFit(j, k, n, q, a1, a2, a3, c1, c2, c3, c4, d1, tr)
    ensures |tr.scopes| == 27
    ensures Parent(tr, 23) == Some(4)
    ensures LocalsOf(tr, 23) == [Local(c4, Pos(48, 21))]
  {
    assert tr.scopes[23] == Layout()[23];
    Locals23(j, k, n, q, a1, a2, a3, c1, c2, c3, c4, d1);
    assert LocalsOf(tr, 23) == DeclaredBy(j, k, n, q, a1, a2, a3, c1, c2, c3, c4, d1, 6, 23);
  }

  /** The parent and the locals of scope 24. */
  lemma {:induction false} Scope24(j: string, k: string, n: string, q: string, a1: string, a2: string, a3: string, c1: string, c2: string, c3: string, c4: string, d1: string, tr: Tree)
    requires ScopesAre(tr, Layout())
    requires LocalsFit(j, k, n, q, a1, a2, a3, c1, c2, c3, c4, d1, tr)
    ensures |tr.scopes| == 27
    ensures Parent(tr, 24) == Some(23)
    ensures LocalsOf(tr, 24) == [Local(c4, Pos(50, 17))]
  {
    assert tr.scopes[24] == Layout()[24];
    Locals24(j, k, n, q, a1, a2, a3, c1, c2, c3, c4, d1);
    assert LocalsOf(tr, 24) == DeclaredBy(j, k, n, q, a1, a2, a3, c1, c2, c3, c4, d1, 6, 24);
  }

  /** The parent and the locals of scope 25. */
  lemma {:induction false} Scope25(j: string, k: string, n: string, q: string, a1: string, a2: string, a3: string, c1: string, c2: string, c3: string, c4: string, d1: string, tr: Tree)
    requires ScopesAre(tr, Layout())
    requires LocalsFit(j, k, n, q, a1, a2, a3, c1, c2, c3, c4, d1, tr)
    ensures |tr.scopes| == 27
    ensures Parent(tr, 25) == Some(4)
    ensures LocalsOf(tr, 25) == []
  {
    assert tr.scopes[25] == Layout()[25];
    Locals25(j, k, n, q, a1, a2, a3, c1, c2, c3, c4, d1);
    assert LocalsOf(tr, 25) == DeclaredBy(j, k, n, q, a1, a2, a3, c1, c2, c3, c4, d1, 6, 25);
  }

  /** The parent and the locals of scope 26. */
  lemma {:induction false} Scope26(j: string, k: string, n: string, q: string, a1: string, a2: string, a3: string, c1: string, c2: string, c3: string, c4: string, d1: string, tr: Tree)
    requires ScopesAre(tr, Layout())
    requires LocalsFit(j, k, n, q, a1, a2, a3, c1, c2, c3, c4, d1, tr)
    ensures |tr.scopes| == 27
    ensures Parent(tr, 26) == Some(25)
    ensures LocalsOf(tr, 26) == [Local(d1, Pos(55, 43)), Local(d1, Pos(55, 58))]
  {
    assert tr.scopes[26] == Layout()[26];
    Locals26(j, k, n, q, a1, a2, a3, c1, c2, c3, c4, d1);
    assert LocalsOf(tr, 26) == DeclaredBy(j, k, n, q, a1, a2, a3, c1, c2, c3, c4, d1, 6, 26);
  }

  /** The analysis of events 0 to 7, after the events before them. */
  lemma {:induction false} Analysed0(j: string, k: string, n: string, q: string, a1: string, a2: string, a3: string, c1: string, c2: string, c3: string, c4: string, d1: string, tr: Tree, evs: seq<Event>, fs: seq<Fact>, rs: seq<Diag>)
    requires |tr.scopes| == 27
    requires Parent(tr, 0) == None
    requires Parent(tr, 3) == Some(0)
    requires Parent(tr, 4) == Some(3)
    requires Parent(tr, 5) == Some(4)
    requires Parent(tr, 6) == Some(5)
    requires LocalsOf(tr, 0) == []
    requires LocalsOf(tr, 3) == []
    requires LocalsOf(tr, 4) == [Local(a1, Pos(20, 13)), Local(a2, Pos(25, 13)), Local(a3, Pos(30, 13))]
    requires LocalsOf(tr, 5) == [Local(j, Pos(6, 21))]
    requires LocalsOf(tr, 6) == [Local(k, Pos(7, 47))]
    requires j != k && j != a1 && j != a2 && j != a3 && k != a1 && k != a2 && k != a3
    requires Analyse(tr, evs, []) == rs
    requires Replay(tr, evs, []) == fs
    requires !Assigned(fs, 5, j, [])
    requires !Assigned(fs, 5, j, [0])
    requires !Assigned(fs, 6, k, [0])
    ensures Analyse(tr, evs + Chunk0(j, k, n, q, a1, a2, a3, c1, c2, c3, c4, d1), []) == rs + ([] + [] + [] + [] + [] + [] + [] + [Diag(NotInContext, j, Pos(9, 9))] + [Diag(NotInContext, k, Pos(10, 9))])
    ensures Replay(tr, evs + Chunk0(j, k, n, q, a1, a2, a3, c1, c2, c3, c4, d1), []) == fs + [Fact(5, j, [])] + [Fact(6, k, [0])]
  {
    assert Analyse(tr, [], fs) == [] && Replay(tr, [], fs) == fs;
    Event0(j, k, n, q, a1, a2, a3, c1, c2, c3, c4, d1, tr, fs);
    AnalyseSnoc(tr, [], Declared(5, j, Pos(6, 21), Initialized, []), fs);
    assert Analyse(tr, [] + [Declared(5, j, Pos(6, 21), Initialized, [])], fs) == [] + [];
    assert Replay(tr, [] + [Declared(5, j, Pos(6, 21), Initialized, [])], fs) == fs + [Fact(5, j, [])];
    AssignedSnoc(fs, Fact(5, j, []), 5, j, []);
    Event1(j, k, n, q, a1, a2, a3, c1, c2, c3, c4, d1, tr, fs + [Fact(5, j, [])]);
    AnalyseSnoc(tr, [] + [Declared(5, j, Pos(6, 21), Initialized, [])], Referenced(5, j, Pos(6, 31), false, false, []), fs);
    assert Analyse(tr, [] + [Declared(5, j, Pos(6, 21), Initialized, [])] + [Referenced(5, j, Pos(6, 31), false, false, [])], fs) == [] + [] + [];
    assert Replay(tr, [] + [Declared(5, j, Pos(6, 21), Initialized, [])] + [Referenced(5, j, Pos(6, 31), false, false, [])], fs) == fs + [Fact(5, j, [])];
    AssignedSnoc(fs, Fact(5, j, []), 5, j, [0]);
    Event2(j, k, n, q, a1, a2, a3, c1, c2, c3, c4, d1, tr, fs + [Fact(5, j, [])]);
    AnalyseSnoc(tr, [] + [Declared(5, j, Pos(6, 21), Initialized, [])] + [Referenced(5, j, Pos(6, 31), false, false, [])], Referenced(6, j, Pos(7, 38), false, false, [0]), fs);
    assert Analyse(tr, [] + [Declared(5, j, Pos(6, 21), Initialized, [])] + [Referenced(5, j, Pos(6, 31), false, false, [])] + [Referenced(6, j, Pos(7, 38), false, false, [0])], fs) == [] + [] + [] + [];
    assert Replay(tr, [] + [Declared(5, j, Pos(6, 21), Initialized, [])] + [Referenced(5, j, Pos(6, 31), false, false, [])] + [Referenced(6, j, Pos(7, 38), false, false, [0])], fs) == fs + [Fact(5, j, [])];
    Event3(j, k, n, q, a1, a2, a3, c1, c2, c3, c4, d1, tr, fs + [Fact(5, j, [])]);
    AnalyseSnoc(tr, [] + [Declared(5, j, Pos(6, 21), Initialized, [])] + [Referenced(5, j, Pos(6, 31), false, false, [])] + [Referenced(6, j, Pos(7, 38), false, false, [0])], Declared(6, k, Pos(7, 47), Initialized, [0]), fs);
    assert Analyse(tr, [] + [Declared(5, j, Pos(6, 21), Initialized, [])] + [Referenced(5, j, Pos(6, 31), false, false, [])] + [Referenced(6, j, Pos(7, 38), false, false, [0])] + [Declared(6, k, Pos(7, 47), Initialized, [0])], fs) == [] + [] + [] + [] + [];
    assert Replay(tr, [] + [Declared(5, j, Pos(6, 21), Initialized, [])] + [Referenced(5, j, Pos(6, 31), false, false, [])] + [Referenced(6, j, Pos(7, 38), false, false, [0])] + [Declared(6, k, Pos(7, 47), Initialized, [0])], fs) == fs + [Fact(5, j, [])] + [Fact(6, k, [0])];
    AssignedSnoc(fs, Fact(5, j, []), 6, k, [0]);
    AssignedSnoc(fs + [Fact(5, j, [])], Fact(6, k, [0]), 6, k, [0]);
    Event4(j, k, n, q, a1, a2, a3, c1, c2, c3, c4, d1, tr, fs + [Fact(5, j, [])] + [Fact(6, k, [0])]);
    AnalyseSnoc(tr, [] + [Declared(5, j, Pos(6, 21), Initialized, [])] + [Referenced(5, j, Pos(6, 31), false, false, [])] + [Referenced(6, j, Pos(7, 38), false, false, [0])] + [Declared(6, k, Pos(7, 47), Initialized, [0])], Referenced(6, k, Pos(7, 56), false, false, [0]), fs);
    assert Analyse(tr, [] + [Declared(5, j, Pos(6, 21), Initialized, [])] + [Referenced(5, j, Pos(6, 31), false, false, [])] + [Referenced(6, j, Pos(7, 38), false, false, [0])] + [Declared(6, k, Pos(7, 47), Initialized, [0])] + [Referenced(6, k, Pos(7, 56), false, false, [0])], fs) == [] + [] + [] + [] + [] + [];
    assert Replay(tr, [] + [Declared(5, j, Pos(6, 21), Initialized, [])] + [Referenced(5, j, Pos(6, 31), false, false, [])] + [Referenced(6, j, Pos(7, 38), false, false, [0])] + [Declared(6, k, Pos(7, 47), Initialized, [0])] + [Referenced(6, k, Pos(7, 56), false, false, [0])], fs) == fs + [Fact(5, j, [])] + [Fact(6, k, [0])];
    Event5(j, k, n, q, a1, a2, a3, c1, c2, c3, c4, d1, tr, fs + [Fact(5, j, [])] + [Fact(6, k, [0])]);
    AnalyseSnoc(tr, [] + [Declared(5, j, Pos(6, 21), Initialized, [])] + [Referenced(5, j, Pos(6, 31), false, false, [])] + [Referenced(6, j, Pos(7, 38), false, false, [0])] + [Declared(6, k, Pos(7, 47), Initialized, [0])] + [Referenced(6, k, Pos(7, 56), false, false, [0])], OutAssigned(6, [], [0]), fs);
    assert Analyse(tr, [] + [Declared(5, j, Pos(6, 21), Initialized, [])] + [Referenced(5, j, Pos(6, 31), false, false, [])] + [Referenced(6, j, Pos(7, 38), false, false, [0])] + [Declared(6, k, Pos(7, 47), Initialized, [0])] + [Referenced(6, k, Pos(7, 56), false, false, [0])] + [OutAssigned(6, [], [0])], fs) == [] + [] + [] + [] + [] + [] + [];
    assert Replay(tr, [] + [Declared(5, j, Pos(6, 21), Initialized, [])] + [Referenced(5, j, Pos(6, 31), false, false, [])] + [Referenced(6, j, Pos(7, 38), false, false, [0])] + [Declared(6, k, Pos(7, 47), Initialized, [0])] + [Referenced(6, k, Pos(7, 56), false, false, [0])] + [OutAssigned(6, [], [0])], fs) == fs + [Fact(5, j, [])] + [Fact(6, k, [0])];
    Event6(j, k, n, q, a1, a2, a3, c1, c2, c3, c4, d1, tr, fs + [Fact(5, j, [])] + [Fact(6, k, [0])]);
    AnalyseSnoc(tr, [] + [Declared(5, j, Pos(6, 21), Initialized, [])] + [Referenced(5, j, Pos(6, 31), false, false, [])] + [Referenced(6, j, Pos(7, 38), false, false, [0])] + [Declared(6, k, Pos(7, 47), Initialized, [0])] + [Referenced(6, k, Pos(7, 56), false, false, [0])] + [OutAssigned(6, [], [0])], Referenced(4, j, Pos(9, 9), true, false, []), fs);
    assert Analyse(tr, [] + [Declared(5, j, Pos(6, 21), Initialized, [])] + [Referenced(5, j, Pos(6, 31), false, false, [])] + [Referenced(6, j, Pos(7, 38), false, false, [0])] + [Declared(6, k, Pos(7, 47), Initialized, [0])] + [Referenced(6, k, Pos(7, 56), false, false, [0])] + [OutAssigned(6, [], [0])] + [Referenced(4, j, Pos(9, 9), true, false, [])], fs) == [] + [] + [] + [] + [] + [] + [] + [Diag(NotInContext, j, Pos(9, 9))];
    assert Replay(tr, [] + [Declared(5, j, Pos(6, 21), Initialized, [])] + [Referenced(5, j, Pos(6, 31), false, false, [])] + [Referenced(6, j, Pos(7, 38), false, false, [0])] + [Declared(6, k, Pos(7, 47), Initialized, [0])] + [Referenced(6, k, Pos(7, 56), false, false, [0])] + [OutAssigned(6, [], [0])] + [Referenced(4, j, Pos(9, 9), true, false, [])], fs) == fs + [Fact(5, j, [])] + [Fact(6, k, [0])];
    Event7(j, k, n, q, a1, a2, a3, c1, c2, c3, c4, d1, tr, fs + [Fact(5, j, [])] + [Fact(6, k, [0])]);
    AnalyseSnoc(tr, [] + [Declared(5, j, Pos(6, 21), Initialized, [])] + [Referenced(5, j, Pos(6, 31), false, false, [])] + [Referenced(6, j, Pos(7, 38), false, false, [0])] + [Declared(6, k, Pos(7, 47), Initialized, [0])] + [Referenced(6, k, Pos(7, 56), false, false, [0])] + [OutAssigned(6, [], [0])] + [Referenced(4, j, Pos(9, 9), true, false, [])], Referenced(4, k, Pos(10, 9), true, false, []), fs);
    AnalyseSplit(tr, evs, Chunk0(j, k, n, q, a1, a2, a3, c1, c2, c3, c4, d1), []);
  }

  /** The analysis of events 8 to 15, after the events before them. */
  lemma {:induction false} Analysed1(j: string, k: string, n: string, q: string, a1: string, a2: string, a3: string, c1: string, c2: string, c3: string, c4: string, d1: string, tr: Tree, evs: seq<Event>, fs: seq<Fact>, rs: seq<Diag>)
    requires |tr.scopes| == 27
    requires Parent(tr, 0) == None
    requires Parent(tr, 3) == Some(0)
    requires Parent(tr, 4) == Some(3)
    requires Parent(tr, 7) == Some(4)
    requires Parent(tr, 8) == Some(7)
    requires Parent(tr, 9) == Some(4)
    requires Parent(tr, 10) == Some(9)
    requires LocalsOf(tr, 0) == []
    requires LocalsOf(tr, 3) == []
    requires LocalsOf(tr, 4) == [Local(a1, Pos(20, 13)), Local(a2, Pos(25, 13)), Local(a3, Pos(30, 13))]
    requires LocalsOf(tr, 7) == []
    requires LocalsOf(tr, 8) == [Local(n, Pos(13, 42))]
    requires LocalsOf(tr, 9) == []
    requires LocalsOf(tr, 10) == [Local(q, Pos(17, 42))]
    requires n != a1 && n != a2 && n != a3 && q != a1 && q != a2 && q != a3 && a1 != a2 && a1 != a3
    requires Analyse(tr, evs, []) == rs
    requires Replay(tr, evs, []) == fs
    requires !Assigned(fs, 4, a1, [])
    ensures Analyse(tr, evs + Chunk1(j, k, n, q, a1, a2, a3, c1, c2, c3, c4, d1), []) == rs + ([] + [Diag(NotInContext, n, Pos(12, 16))] + [] + [] + [Diag(NotInContext, q, Pos(15, 20))] + [] + [] + [] + [])
    ensures Replay(tr, evs + Chunk1(j, k, n, q, a1, a2, a3, c1, c2, c3, c4, d1), []) == fs + [Fact(8, n, [1])] + [Fact(10, q, [2])] + [Fact(4, a1, [])]
  {
    assert Analyse(tr, [], fs) == [] && Replay(tr, [], fs) == fs;
    Event8(j, k, n, q, a1, a2, a3, c1, c2, c3, c4, d1, tr, fs);
    AnalyseSnoc(tr, [], Referenced(7, n, Pos(12, 16), false, false, []), fs);
    assert Analyse(tr, [] + [Referenced(7, n, Pos(12, 16), false, false, [])], fs) == [] + [Diag(NotInContext, n, Pos(12, 16))];
    assert Replay(tr, [] + [Referenced(7, n, Pos(12, 16), false, false, [])], fs) == fs;
    Event9(j, k, n, q, a1, a2, a3, c1, c2, c3, c4, d1, tr, fs);
    AnalyseSnoc(tr, [] + [Referenced(7, n, Pos(12, 16), false, false, [])], Declared(8, n, Pos(13, 42), Initialized, [1]), fs);
    assert Analyse(tr, [] + [Referenced(7, n, Pos(12, 16), false, false, [])] + [Declared(8, n, Pos(13, 42), Initialized, [1])], fs) == [] + [Diag(NotInContext, n, Pos(12, 16))] + [];
    assert Replay(tr, [] + [Referenced(7, n, Pos(12, 16), false, false, [])] + [Declared(8, n, Pos(13, 42), Initialized, [1])], fs) == fs + [Fact(8, n, [1])];
    Event10(j, k, n, q, a1, a2, a3, c1, c2, c3, c4, d1, tr, fs + [Fact(8, n, [1])]);
    AnalyseSnoc(tr, [] + [Referenced(7, n, Pos(12, 16), false, false, [])] + [Declared(8, n, Pos(13, 42), Initialized, [1])], OutAssigned(8, [], [1]), fs);
    assert Analyse(tr, [] + [Referenced(7, n, Pos(12, 16), false, false, [])] + [Declared(8, n, Pos(13, 42), Initialized, [1])] + [OutAssigned(8, [], [1])], fs) == [] + [Diag(NotInContext, n, Pos(12, 16))] + [] + [];
    assert Replay(tr, [] + [Referenced(7, n, Pos(12, 16), false, false, [])] + [Declared(8, n, Pos(13, 42), Initialized, [1])] + [OutAssigned(8, [], [1])], fs) == fs + [Fact(8, n, [1])];
    Event11(j, k, n, q, a1, a2, a3, c1, c2, c3, c4, d1, tr, fs + [Fact(8, n, [1])]);
    AnalyseSnoc(tr, [] + [Referenced(7, n, Pos(12, 16), false, false, [])] + [Declared(8, n, Pos(13, 42), Initialized, [1])] + [OutAssigned(8, [], [1])], Referenced(9, q, Pos(15, 20), false, false, []), fs);
    assert Analyse(tr, [] + [Referenced(7, n, Pos(12, 16), false, false, [])] + [Declared(8, n, Pos(13, 42), Initialized, [1])] + [OutAssigned(8, [], [1])] + [Referenced(9, q, Pos(15, 20), false, false, [])], fs) == [] + [Diag(NotInContext, n, Pos(12, 16))] + [] + [] + [Diag(NotInContext, q, Pos(15, 20))];
    assert Replay(tr, [] + [Referenced(7, n, Pos(12, 16), false, false, [])] + [Declared(8, n, Pos(13, 42), Initialized, [1])] + [OutAssigned(8, [], [1])] + [Referenced(9, q, Pos(15, 20), false, false, [])], fs) == fs + [Fact(8, n, [1])];
    Event12(j, k, n, q, a1, a2, a3, c1, c2, c3, c4, d1, tr, fs + [Fact(8, n, [1])]);
    AnalyseSnoc(tr, [] + [Referenced(7, n, Pos(12, 16), false, false, [])] + [Declared(8, n, Pos(13, 42), Initialized, [1])] + [OutAssigned(8, [], [1])] + [Referenced(9, q, Pos(15, 20), false, false, [])], Declared(10, q, Pos(17, 42), Initialized, [2]), fs);
    assert Analyse(tr, [] + [Referenced(7, n, Pos(12, 16), false, false, [])] + [Declared(8, n, Pos(13, 42), Initialized, [1])] + [OutAssigned(8, [], [1])] + [Referenced(9, q, Pos(15, 20), false, false, [])] + [Declared(10, q, Pos(17, 42), Initialized, [2])], fs) == [] + [Diag(NotInContext, n, Pos(12, 16))] + [] + [] + [Diag(NotInContext, q, Pos(15, 20))] + [];
    assert Replay(tr, [] + [Referenced(7, n, Pos(12, 16), false, false, [])] + [Declared(8, n, Pos(13, 42), Initialized, [1])] + [OutAssigned(8, [], [1])] + [Referenced(9, q, Pos(15, 20), false, false, [])] + [Declared(10, q, Pos(17, 42), Initialized, [2])], fs) == fs + [Fact(8, n, [1])] + [Fact(10, q, [2])];
    Event13(j, k, n, q, a1, a2, a3, c1, c2, c3, c4, d1, tr, fs + [Fact(8, n, [1])] + [Fact(10, q, [2])]);
    AnalyseSnoc(tr, [] + [Referenced(7, n, Pos(12, 16), false, false, [])] + [Declared(8, n, Pos(13, 42), Initialized, [1])] + [OutAssigned(8, [], [1])] + [Referenced(9, q, Pos(15, 20), false, false, [])] + [Declared(10, q, Pos(17, 42), Initialized, [2])], OutAssigned(10, [], [2]), fs);
    assert Analyse(tr, [] + [Referenced(7, n, Pos(12, 16), false, false, [])] + [Declared(8, n, Pos(13, 42), Initialized, [1])] + [OutAssigned(8, [], [1])] + [Referenced(9, q, Pos(15, 20), false, false, [])] + [Declared(10, q, Pos(17, 42), Initialized, [2])] + [OutAssigned(10, [], [2])], fs) == [] + [Diag(NotInContext, n, Pos(12, 16))] + [] + [] + [Diag(NotInContext, q, Pos(15, 20))] + [] + [];
    assert Replay(tr, [] + [Referenced(7, n, Pos(12, 16), false, false, [])] + [Declared(8, n, Pos(13, 42), Initialized, [1])] + [OutAssigned(8, [], [1])] + [Referenced(9, q, Pos(15, 20), false, false, [])] + [Declared(10, q, Pos(17, 42), Initialized, [2])] + [OutAssigned(10, [], [2])], fs) == fs + [Fact(8, n, [1])] + [Fact(10, q, [2])];
    Event14(j, k, n, q, a1, a2, a3, c1, c2, c3, c4, d1, tr, fs + [Fact(8, n, [1])] + [Fact(10, q, [2])]);
    AnalyseSnoc(tr, [] + [Referenced(7, n, Pos(12, 16), false, false, [])] + [Declared(8, n, Pos(13, 42), Initialized, [1])] + [OutAssigned(8, [], [1])] + [Referenced(9, q, Pos(15, 20), false, false, [])] + [Declared(10, q, Pos(17, 42), Initialized, [2])] + [OutAssigned(10, [], [2])], Declared(4, a1, Pos(20, 13), Initialized, []), fs);
    assert Analyse(tr, [] + [Referenced(7, n, Pos(12, 16), false, false, [])] + [Declared(8, n, Pos(13, 42), Initialized, [1])] + [OutAssigned(8, [], [1])] + [Referenced(9, q, Pos(15, 20), false, false, [])] + [Declared(10, q, Pos(17, 42), Initialized, [2])] + [OutAssigned(10, [], [2])] + [Declared(4, a1, Pos(20, 13), Initialized, [])], fs) == [] + [Diag(NotInContext, n, Pos(12, 16))] + [] + [] + [Diag(NotInContext, q, Pos(15, 20))] + [] + [] + [];
    assert Replay(tr, [] + [Referenced(7, n, Pos(12, 16), false, false, [])] + [Declared(8, n, Pos(13, 42), Initialized, [1])] + [OutAssigned(8, [], [1])] + [Referenced(9, q, Pos(15, 20), false, false, [])] + [Declared(10, q, Pos(17, 42), Initialized, [2])] + [OutAssigned(10, [], [2])] + [Declared(4, a1, Pos(20, 13), Initialized, [])], fs) == fs + [Fact(8, n, [1])] + [Fact(10, q, [2])] + [Fact(4, a1, [])];
    AssignedSnoc(fs, Fact(8, n, [1]), 4, a1, []);
    AssignedSnoc(fs + [Fact(8, n, [1])], Fact(10, q, [2]), 4, a1, []);
    AssignedSnoc(fs + [Fact(8, n, [1])] + [Fact(10, q, [2])], Fact(4, a1, []), 4, a1, []);
    Event15(j, k, n, q, a1, a2, a3, c1, c2, c3, c4, d1, tr, fs + [Fact(8, n, [1])] + [Fact(10, q, [2])] + [Fact(4, a1, [])]);
    AnalyseSnoc(tr, [] + [Referenced(7, n, Pos(12, 16), false, false, [])] + [Declared(8, n, Pos(13, 42), Initialized, [1])] + [OutAssigned(8, [], [1])] + [Referenced(9, q, Pos(15, 20), false, false, [])] + [Declared(10, q, Pos(17, 42), Initialized, [2])] + [OutAssigned(10, [], [2])] + [Declared(4, a1, Pos(20, 13), Initialized, [])], Referenced(4, a1, Pos(21, 34), false, false, []), fs);
    AnalyseSplit(tr, evs, Chunk1(j, k, n, q, a1, a2, a3, c1, c2, c3, c4, d1), []);
  }

  /** The analysis of events 16 to 23, after the events before them. */
  lemma {:induction false} Analysed2(j: string, k: string, n: string, q: string, a1: string, a2: string, a3: string, c1: string, c2: string, c3: string, c4: string, d1: string, tr: Tree, evs: seq<Event>, fs: seq<Fact>, rs: seq<Diag>)
    requires |tr.scopes| == 27
    requires Parent(tr, 0) == None
    requires Parent(tr, 3) == Some(0)
    requires Parent(tr, 4) == Some(3)
    requires Parent(tr, 11) == Some(4)
    requires Parent(tr, 13) == Some(4)
    requires Parent(tr, 14) == Some(13)
    requires LocalsOf(tr, 0) == []
    requires LocalsOf(tr, 3) == []
    requires LocalsOf(tr, 4) == [Local(a1, Pos(20, 13)), Local(a2, Pos(25, 13)), Local(a3, Pos(30, 13))]
    requires LocalsOf(tr, 11) == [Local(a1, Pos(22, 21))]
    requires LocalsOf(tr, 13) == []
    requires LocalsOf(tr, 14) == [Local(a2, Pos(28, 42))]
    requires a1 != a2 && a1 != a3 && a2 != a3
    requires Analyse(tr, evs, []) == rs
    requires Replay(tr, evs, []) == fs
    requires !Assigned(fs, 4, a2, [])
    ensures Analyse(tr, evs + Chunk2(j, k, n, q, a1, a2, a3, c1, c2, c3, c4, d1), []) == rs + ([] + [] + [Diag(Shadow, a1, Pos(22, 21))] + [] + [] + [] + [] + [Diag(Shadow, a2, Pos(28, 42))] + [])
    ensures Replay(tr, evs + Chunk2(j, k, n, q, a1, a2, a3, c1, c2, c3, c4, d1), []) == fs + [Fact(11, a1, [])] + [Fact(4, a2, [])] + [Fact(14, a2, [4])]
  {
    assert Analyse(tr, [], fs) == [] && Replay(tr, [], fs) == fs;
    Event16(j, k, n, q, a1, a2, a3, c1, c2, c3, c4, d1, tr, fs);
    AnalyseSnoc(tr, [], OutAssigned(4, [], []), fs);
    assert Analyse(tr, [] + [OutAssigned(4, [], [])], fs) == [] + [];
    assert Replay(tr, [] + [OutAssigned(4, [], [])], fs) == fs;
    Event17(j, k, n, q, a1, a2, a3, c1, c2, c3, c4, d1, tr, fs);
    AnalyseSnoc(tr, [] + [OutAssigned(4, [], [])], Declared(11, a1, Pos(22, 21), Initialized, []), fs);
    assert Analyse(tr, [] + [OutAssigned(4, [], [])] + [Declared(11, a1, Pos(22, 21), Initialized, [])], fs) == [] + [] + [Diag(Shadow, a1, Pos(22, 21))];
    assert Replay(tr, [] + [OutAssigned(4, [], [])] + [Declared(11, a1, Pos(22, 21), Initialized, [])], fs) == fs + [Fact(11, a1, [])];
    Event18(j, k, n, q, a1, a2, a3, c1, c2, c3, c4, d1, tr, fs + [Fact(11, a1, [])]);
    AnalyseSnoc(tr, [] + [OutAssigned(4, [], [])] + [Declared(11, a1, Pos(22, 21), Initialized, [])], Declared(4, a2, Pos(25, 13), Initialized, []), fs);
    assert Analyse(tr, [] + [OutAssigned(4, [], [])] + [Declared(11, a1, Pos(22, 21), Initialized, [])] + [Declared(4, a2, Pos(25, 13), Initialized, [])], fs) == [] + [] + [Diag(Shadow, a1, Pos(22, 21))] + [];
    assert Replay(tr, [] + [OutAssigned(4, [], [])] + [Declared(11, a1, Pos(22, 21), Initialized, [])] + [Declared(4, a2, Pos(25, 13), Initialized, [])], fs) == fs + [Fact(11, a1, [])] + [Fact(4, a2, [])];
    AssignedSnoc(fs, Fact(11, a1, []), 4, a2, []);
    AssignedSnoc(fs + [Fact(11, a1, [])], Fact(4, a2, []), 4, a2, []);
    Event19(j, k, n, q, a1, a2, a3, c1, c2, c3, c4, d1, tr, fs + [Fact(11, a1, [])] + [Fact(4, a2, [])]);
    AnalyseSnoc(tr, [] + [OutAssigned(4, [], [])] + [Declared(11, a1, Pos(22, 21), Initialized, [])] + [Declared(4, a2, Pos(25, 13), Initialized, [])], Referenced(4, a2, Pos(26, 34), false, false, []), fs);
    assert Analyse(tr, [] + [OutAssigned(4, [], [])] + [Declared(11, a1, Pos(22, 21), Initialized, [])] + [Declared(4, a2, Pos(25, 13), Initialized, [])] + [Referenced(4, a2, Pos(26, 34), false, false, [])], fs) == [] + [] + [Diag(Shadow, a1, Pos(22, 21))] + [] + [];
    assert Replay(tr, [] + [OutAssigned(4, [], [])] + [Declared(11, a1, Pos(22, 21), Initialized, [])] + [Declared(4, a2, Pos(25, 13), Initialized, [])] + [Referenced(4, a2, Pos(26, 34), false, false, [])], fs) == fs + [Fact(11, a1, [])] + [Fact(4, a2, [])];
    Event20(j, k, n, q, a1, a2, a3, c1, c2, c3, c4, d1, tr, fs + [Fact(11, a1, [])] + [Fact(4, a2, [])]);
    AnalyseSnoc(tr, [] + [OutAssigned(4, [], [])] + [Declared(11, a1, Pos(22, 21), Initialized, [])] + [Declared(4, a2, Pos(25, 13), Initialized, [])] + [Referenced(4, a2, Pos(26, 34), false, false, [])], OutAssigned(4, [], []), fs);
    assert Analyse(tr, [] + [OutAssigned(4, [], [])] + [Declared(11, a1, Pos(22, 21), Initialized, [])] + [Declared(4, a2, Pos(25, 13), Initialized, [])] + [Referenced(4, a2, Pos(26, 34), false, false, [])] + [OutAssigned(4, [], [])], fs) == [] + [] + [Diag(Shadow, a1, Pos(22, 21))] + [] + [] + [];
    assert Replay(tr, [] + [OutAssigned(4, [], [])] + [Declared(11, a1, Pos(22, 21), Initialized, [])] + [Declared(4, a2, Pos(25, 13), Initialized, [])] + [Referenced(4, a2, Pos(26, 34), false, false, [])] + [OutAssigned(4, [], [])], fs) == fs + [Fact(11, a1, [])] + [Fact(4, a2, [])];
    AssignedSnoc(fs, Fact(11, a1, []), 4, a2, []);
    AssignedSnoc(fs + [Fact(11, a1, [])], Fact(4, a2, []), 4, a2, []);
    Event21(j, k, n, q, a1, a2, a3, c1, c2, c3, c4, d1, tr, fs + [Fact(11, a1, [])] + [Fact(4, a2, [])]);
    AnalyseSnoc(tr, [] + [OutAssigned(4, [], [])] + [Declared(11, a1, Pos(22, 21), Initialized, [])] + [Declared(4, a2, Pos(25, 13), Initialized, [])] + [Referenced(4, a2, Pos(26, 34), false, false, [])] + [OutAssigned(4, [], [])], Referenced(13, a2, Pos(27, 16), false, false, []), fs);
    assert Analyse(tr, [] + [OutAssigned(4, [], [])] + [Declared(11, a1, Pos(22, 21), Initialized, [])] + [Declared(4, a2, Pos(25, 13), Initialized, [])] + [Referenced(4, a2, Pos(26, 34), false, false, [])] + [OutAssigned(4, [], [])] + [Referenced(13, a2, Pos(27, 16), false, false, [])], fs) == [] + [] + [Diag(Shadow, a1, Pos(22, 21))] + [] + [] + [] + [];
    assert Replay(tr, [] + [OutAssigned(4, [], [])] + [Declared(11, a1, Pos(22, 21), Initialized, [])] + [Declared(4, a2, Pos(25, 13), Initialized, [])] + [Referenced(4, a2, Pos(26, 34), false, false, [])] + [OutAssigned(4, [], [])] + [Referenced(13, a2, Pos(27, 16), false, false, [])], fs) == fs + [Fact(11, a1, [])] + [Fact(4, a2, [])];
    Event22(j, k, n, q, a1, a2, a3, c1, c2, c3, c4, d1, tr, fs + [Fact(11, a1, [])] + [Fact(4, a2, [])]);
    AnalyseSnoc(tr, [] + [OutAssigned(4, [], [])] + [Declared(11, a1, Pos(22, 21), Initialized, [])] + [Declared(4, a2, Pos(25, 13), Initialized, [])] + [Referenced(4, a2, Pos(26, 34), false, false, [])] + [OutAssigned(4, [], [])] + [Referenced(13, a2, Pos(27, 16), false, false, [])], Declared(14, a2, Pos(28, 42), Initialized, [4]), fs);
    assert Analyse(tr, [] + [OutAssigned(4, [], [])] + [Declared(11, a1, Pos(22, 21), Initialized, [])] + [Declared(4, a2, Pos(25, 13), Initialized, [])] + [Referenced(4, a2, Pos(26, 34), false, false, [])] + [OutAssigned(4, [], [])] + [Referenced(13, a2, Pos(27, 16), false, false, [])] + [Declared(14, a2, Pos(28, 42), Initialized, [4])], fs) == [] + [] + [Diag(Shadow, a1, Pos(22, 21))] + [] + [] + [] + [] + [Diag(Shadow, a2, Pos(28, 42))];
    assert Replay(tr, [] + [OutAssigned(4, [], [])] + [Declared(11, a1, Pos(22, 21), Initialized, [])] + [Declared(4, a2, Pos(25, 13), Initialized, [])] + [Referenced(4, a2, Pos(26, 34), false, false, [])] + [OutAssigned(4, [], [])] + [Referenced(13, a2, Pos(27, 16), false, false, [])] + [Declared(14, a2, Pos(28, 42), Initialized, [4])], fs) == fs + [Fact(11, a1, [])] + [Fact(4, a2, [])] + [Fact(14, a2, [4])];
    Event23(j, k, n, q, a1, a2, a3, c1, c2, c3, c4, d1, tr, fs + [Fact(11, a1, [])] + [Fact(4, a2, [])] + [Fact(14, a2, [4])]);
    AnalyseSnoc(tr, [] + [OutAssigned(4, [], [])] + [Declared(11, a1, Pos(22, 21), Initialized, [])] + [Declared(4, a2, Pos(25, 13), Initialized, [])] + [Referenced(4, a2, Pos(26, 34), false, false, [])] + [OutAssigned(4, [], [])] + [Referenced(13, a2, Pos(27, 16), false, false, [])] + [Declared(14, a2, Pos(28, 42), Initialized, [4])], OutAssigned(14, [], [4]), fs);
    AnalyseSplit(tr, evs, Chunk2(j, k, n, q, a1, a2, a3, c1, c2, c3, c4, d1), []);
  }

  /** The analysis of events 24 to 31, after the events before them. */
  lemma {:induction false} Analysed3(j: string, k: string, n: string, q: string, a1: string, a2: string, a3: string, c1: string, c2: string, c3: string, c4: string, d1: string, tr: Tree, evs: seq<Event>, fs: seq<Fact>, rs: seq<Diag>)
    requires |tr.scopes| == 27
    requires Parent(tr, 0) == None
    requires Parent(tr, 3) == Some(0)
    requires Parent(tr, 4) == Some(3)
    requires Parent(tr, 15) == Some(4)
    requires Parent(tr, 16) == Some(15)
    requires Parent(tr, 17) == Some(4)
    requires LocalsOf(tr, 0) == []
    requires LocalsOf(tr, 3) == []
    requires LocalsOf(tr, 4) == [Local(a1, Pos(20, 13)), Local(a2, Pos(25, 13)), Local(a3, Pos(30, 13))]
    requires LocalsOf(tr, 15) == []
    requires LocalsOf(tr, 16) == [Local(a3, Pos(34, 42))]
    requires LocalsOf(tr, 17) == [Local(c1, Pos(37, 22)), Local(c1, Pos(37, 42))]
    requires a1 != a2 && a1 != a3 && a1 != c1 && a2 != a3 && a2 != c1 && a3 != c1
    requires Analyse(tr, evs, []) == rs
    requires Replay(tr, evs, []) == fs
    requires !Assigned(fs, 4, a3, [])
    requires Assigned(fs, 4, a2, [])
    ensures Analyse(tr, evs + Chunk3(j, k, n, q, a1, a2, a3, c1, c2, c3, c4, d1), []) == rs + ([] + [] + [] + [] + [] + [Diag(Shadow, a3, Pos(34, 42))] + [] + [] + [Diag(Duplicate, c1, Pos(37, 42))])
    ensures Replay(tr, evs + Chunk3(j, k, n, q, a1, a2, a3, c1, c2, c3, c4, d1), []) == fs + [Fact(4, a3, [])] + [Fact(16, a3, [5])] + [Fact(17, c1, [])] + [Fact(17, c1, [])]
  {
    assert Analyse(tr, [], fs) == [] && Replay(tr, [], fs) == fs;
    Event24(j, k, n, q, a1, a2, a3, c1, c2, c3, c4, d1, tr, fs);
    AnalyseSnoc(tr, [], Declared(4, a3, Pos(30, 13), Initialized, []), fs);
    assert Analyse(tr, [] + [Declared(4, a3, Pos(30, 13), Initialized, [])], fs) == [] + [];
    assert Replay(tr, [] + [Declared(4, a3, Pos(30, 13), Initialized, [])], fs) == fs + [Fact(4, a3, [])];
    AssignedSnoc(fs, Fact(4, a3, []), 4, a3, []);
    Event25(j, k, n, q, a1, a2, a3, c1, c2, c3, c4, d1, tr, fs + [Fact(4, a3, [])]);
    AnalyseSnoc(tr, [] + [Declared(4, a3, Pos(30, 13), Initialized, [])], Referenced(4, a3, Pos(31, 34), false, false, []), fs);
    assert Analyse(tr, [] + [Declared(4, a3, Pos(30, 13), Initialized, [])] + [Referenced(4, a3, Pos(31, 34), false, false, [])], fs) == [] + [] + [];
    assert Replay(tr, [] + [Declared(4, a3, Pos(30, 13), Initialized, [])] + [Referenced(4, a3, Pos(31, 34), false, false, [])], fs) == fs + [Fact(4, a3, [])];
    Event26(j, k, n, q, a1, a2, a3, c1, c2, c3, c4, d1, tr, fs + [Fact(4, a3, [])]);
    AnalyseSnoc(tr, [] + [Declared(4, a3, Pos(30, 13), Initialized, [])] + [Referenced(4, a3, Pos(31, 34), false, false, [])], OutAssigned(4, [], []), fs);
    assert Analyse(tr, [] + [Declared(4, a3, Pos(30, 13), Initialized, [])] + [Referenced(4, a3, Pos(31, 34), false, false, [])] + [OutAssigned(4, [], [])], fs) == [] + [] + [] + [];
    assert Replay(tr, [] + [Declared(4, a3, Pos(30, 13), Initialized, [])] + [Referenced(4, a3, Pos(31, 34), false, false, [])] + [OutAssigned(4, [], [])], fs) == fs + [Fact(4, a3, [])];
    AssignedSnoc(fs, Fact(4, a3, []), 4, a2, []);
    Event27(j, k, n, q, a1, a2, a3, c1, c2, c3, c4, d1, tr, fs + [Fact(4, a3, [])]);
    AnalyseSnoc(tr, [] + [Declared(4, a3, Pos(30, 13), Initialized, [])] + [Referenced(4, a3, Pos(31, 34), false, false, [])] + [OutAssigned(4, [], [])], Referenced(15, a2, Pos(32, 16), false, false, []), fs);
    assert Analyse(tr, [] + [Declared(4, a3, Pos(30, 13), Initialized, [])] + [Referenced(4, a3, Pos(31, 34), false, false, [])] + [OutAssigned(4, [], [])] + [Referenced(15, a2, Pos(32, 16), false, false, [])], fs) == [] + [] + [] + [] + [];
    assert Replay(tr, [] + [Declared(4, a3, Pos(30, 13), Initialized, [])] + [Referenced(4, a3, Pos(31, 34), false, false, [])] + [OutAssigned(4, [], [])] + [Referenced(15, a2, Pos(32, 16), false, false, [])], fs) == fs + [Fact(4, a3, [])];
    Event28(j, k, n, q, a1, a2, a3, c1, c2, c3, c4, d1, tr, fs + [Fact(4, a3, [])]);
    AnalyseSnoc(tr, [] + [Declared(4, a3, Pos(30, 13), Initialized, [])] + [Referenced(4, a3, Pos(31, 34), false, false, [])] + [OutAssigned(4, [], [])] + [Referenced(15, a2, Pos(32, 16), false, false, [])], Declared(16, a3, Pos(34, 42), Initialized, [5]), fs);
    assert Analyse(tr, [] + [Declared(4, a3, Pos(30, 13), Initialized, [])] + [Referenced(4, a3, Pos(31, 34), false, false, [])] + [OutAssigned(4, [], [])] + [Referenced(15, a2, Pos(32, 16), false, false, [])] + [Declared(16, a3, Pos(34, 42), Initialized, [5])], fs) == [] + [] + [] + [] + [] + [Diag(Shadow, a3, Pos(34, 42))];
    assert Replay(tr, [] + [Declared(4, a3, Pos(30, 13), Initialized, [])] + [Referenced(4, a3, Pos(31, 34), false, false, [])] + [OutAssigned(4, [], [])] + [Referenced(15, a2, Pos(32, 16), false, false, [])] + [Declared(16, a3, Pos(34, 42), Initialized, [5])], fs) == fs + [Fact(4, a3, [])] + [Fact(16, a3, [5])];
    Event29(j, k, n, q, a1, a2, a3, c1, c2, c3, c4, d1, tr, fs + [Fact(4, a3, [])] + [Fact(16, a3, [5])]);
    AnalyseSnoc(tr, [] + [Declared(4, a3, Pos(30, 13), Initialized, [])] + [Referenced(4, a3, Pos(31, 34), false, false, [])] + [OutAssigned(4, [], [])] + [Referenced(15, a2, Pos(32, 16), false, false, [])] + [Declared(16, a3, Pos(34, 42), Initialized, [5])], OutAssigned(16, [], [5]), fs);
    assert Analyse(tr, [] + [Declared(4, a3, Pos(30, 13), Initialized, [])] + [Referenced(4, a3, Pos(31, 34), false, false, [])] + [OutAssigned(4, [], [])] + [Referenced(15, a2, Pos(32, 16), false, false, [])] + [Declared(16, a3, Pos(34, 42), Initialized, [5])] + [OutAssigned(16, [], [5])], fs) == [] + [] + [] + [] + [] + [Diag(Shadow, a3, Pos(34, 42))] + [];
    assert Replay(tr, [] + [Declared(4, a3, Pos(30, 13), Initialized, [])] + [Referenced(4, a3, Pos(31, 34), false, false, [])] + [OutAssigned(4, [], [])] + [Referenced(15, a2, Pos(32, 16), false, false, [])] + [Declared(16, a3, Pos(34, 42), Initialized, [5])] + [OutAssigned(16, [], [5])], fs) == fs + [Fact(4, a3, [])] + [Fact(16, a3, [5])];
    Event30(j, k, n, q, a1, a2, a3, c1, c2, c3, c4, d1, tr, fs + [Fact(4, a3, [])] + [Fact(16, a3, [5])]);
    AnalyseSnoc(tr, [] + [Declared(4, a3, Pos(30, 13), Initialized, [])] + [Referenced(4, a3, Pos(31, 34), false, false, [])] + [OutAssigned(4, [], [])] + [Referenced(15, a2, Pos(32, 16), false, false, [])] + [Declared(16, a3, Pos(34, 42), Initialized, [5])] + [OutAssigned(16, [], [5])], Declared(17, c1, Pos(37, 22), Initialized, []), fs);
    assert Analyse(tr, [] + [Declared(4, a3, Pos(30, 13), Initialized, [])] + [Referenced(4, a3, Pos(31, 34), false, false, [])] + [OutAssigned(4, [], [])] + [Referenced(15, a2, Pos(32, 16), false, false, [])] + [Declared(16, a3, Pos(34, 42), Initialized, [5])] + [OutAssigned(16, [], [5])] + [Declared(17, c1, Pos(37, 22), Initialized, [])], fs) == [] + [] + [] + [] + [] + [Diag(Shadow, a3, Pos(34, 42))] + [] + [];
    assert Replay(tr, [] + [Declared(4, a3, Pos(30, 13), Initialized, [])] + [Referenced(4, a3, Pos(31, 34), false, false, [])] + [OutAssigned(4, [], [])] + [Referenced(15, a2, Pos(32, 16), false, false, [])] + [Declared(16, a3, Pos(34, 42), Initialized, [5])] + [OutAssigned(16, [], [5])] + [Declared(17, c1, Pos(37, 22), Initialized, [])], fs) == fs + [Fact(4, a3, [])] + [Fact(16, a3, [5])] + [Fact(17, c1, [])];
    Event31(j, k, n, q, a1, a2, a3, c1, c2, c3, c4, d1, tr, fs + [Fact(4, a3, [])] + [Fact(16, a3, [5])] + [Fact(17, c1, [])]);
    AnalyseSnoc(tr, [] + [Declared(4, a3, Pos(30, 13), Initialized, [])] + [Referenced(4, a3, Pos(31, 34), false, false, [])] + [OutAssigned(4, [], [])] + [Referenced(15, a2, Pos(32, 16), false, false, [])] + [Declared(16, a3, Pos(34, 42), Initialized, [5])] + [OutAssigned(16, [], [5])] + [Declared(17, c1, Pos(37, 22), Initialized, [])], Declared(17, c1, Pos(37, 42), Initialized, []), fs);
    AnalyseSplit(tr, evs, Chunk3(j, k, n, q, a1, a2, a3, c1, c2, c3, c4, d1), []);
  }

  /** The analysis of events 32 to 39, after the events before them. */
  lemma {:induction false} Analysed4(j: string, k: string, n: string, q: string, a1: string, a2: string, a3: string, c1: string, c2: string, c3: string, c4: string, d1: string, tr: Tree, evs: seq<Event>, fs: seq<Fact>, rs: seq<Diag>)
    requires |tr.scopes| == 27
    requires Parent(tr, 0) == None
    requires Parent(tr, 3) == Some(0)
    requires Parent(tr, 4) == Some(3)
    requires Parent(tr, 19) == Some(4)
    requires Parent(tr, 20) == Some(19)
    requires Parent(tr, 21) == Some(4)
    requires Parent(tr, 22) == Some(21)
    requires Parent(tr, 23) == Some(4)
    requires Parent(tr, 24) == Some(23)
    requires LocalsOf(tr, 0) == []
    requires LocalsOf(tr, 3) == []
    requires LocalsOf(tr, 4) == [Local(a1, Pos(20, 13)), Local(a2, Pos(25, 13)), Local(a3, Pos(30, 13))]
    requires LocalsOf(tr, 19) == [Local(c2, Pos(40, 21))]
    requires LocalsOf(tr, 20) == [Local(c2, Pos(41, 42))]
    requires LocalsOf(tr, 21) == [Local(c3, Pos(43, 21))]
    requires LocalsOf(tr, 22) == [Local(c3, Pos(45, 42))]
    requires LocalsOf(tr, 23) == [Local(c4, Pos(48, 21))]
    requires LocalsOf(tr, 24) == [Local(c4, Pos(50, 17))]
    requires a1 != c2 && a1 != c3 && a1 != c4 && a2 != c2 && a2 != c3 && a2 != c4 && a3 != c2 && a3 != c3 && a3 != c4
    requires Analyse(tr, evs, []) == rs
    requires Replay(tr, evs, []) == fs
    ensures Analyse(tr, evs + Chunk4(j, k, n, q, a1, a2, a3, c1, c2, c3, c4, d1), []) == rs + ([] + [] + [Diag(Shadow, c2, Pos(41, 42))] + [] + [] + [Diag(Shadow, c3, Pos(45, 42))] + [] + [] + [Diag(Shadow, c4, Pos(50, 17))])
    ensures Replay(tr, evs + Chunk4(j, k, n, q, a1, a2, a3, c1, c2, c3, c4, d1), []) == fs + [Fact(19, c2, [])] + [Fact(20, c2, [7])] + [Fact(21, c3, [])] + [Fact(22, c3, [8])] + [Fact(23, c4, [])] + [Fact(24, c4, [9])]
  {
    assert Analyse(tr, [], fs) == [] && Replay(tr, [], fs) == fs;
    Event32(j, k, n, q, a1, a2, a3, c1, c2, c3, c4, d1, tr, fs);
    AnalyseSnoc(tr, [], Declared(19, c2, Pos(40, 21), Initialized, []), fs);
    assert Analyse(tr, [] + [Declared(19, c2, Pos(40, 21), Initialized, [])], fs) == [] + [];
    assert Replay(tr, [] + [Declared(19, c2, Pos(40, 21), Initialized, [])], fs) == fs + [Fact(19, c2, [])];
    Event33(j, k, n, q, a1, a2, a3, c1, c2, c3, c4, d1, tr, fs + [Fact(19, c2, [])]);
    AnalyseSnoc(tr, [] + [Declared(19, c2, Pos(40, 21), Initialized, [])], Declared(20, c2, Pos(41, 42), Initialized, [7]), fs);
    assert Analyse(tr, [] + [Declared(19, c2, Pos(40, 21), Initialized, [])] + [Declared(20, c2, Pos(41, 42), Initialized, [7])], fs) == [] + [] + [Diag(Shadow, c2, Pos(41, 42))];
    assert Replay(tr, [] + [Declared(19, c2, Pos(40, 21), Initialized, [])] + [Declared(20, c2, Pos(41, 42), Initialized, [7])], fs) == fs + [Fact(19, c2, [])] + [Fact(20, c2, [7])];
    Event34(j, k, n, q, a1, a2, a3, c1, c2, c3, c4, d1, tr, fs + [Fact(19, c2, [])] + [Fact(20, c2, [7])]);
    AnalyseSnoc(tr, [] + [Declared(19, c2, Pos(40, 21), Initialized, [])] + [Declared(20, c2, Pos(41, 42), Initialized, [7])], OutAssigned(20, [], [7]), fs);
    assert Analyse(tr, [] + [Declared(19, c2, Pos(40, 21), Initialized, [])] + [Declared(20, c2, Pos(41, 42), Initialized, [7])] + [OutAssigned(20, [], [7])], fs) == [] + [] + [Diag(Shadow, c2, Pos(41, 42))] + [];
    assert Replay(tr, [] + [Declared(19, c2, Pos(40, 21), Initialized, [])] + [Declared(20, c2, Pos(41, 42), Initialized, [7])] + [OutAssigned(20, [], [7])], fs) == fs + [Fact(19, c2, [])] + [Fact(20, c2, [7])];
    Event35(j, k, n, q, a1, a2, a3, c1, c2, c3, c4, d1, tr, fs + [Fact(19, c2, [])] + [Fact(20, c2, [7])]);
    AnalyseSnoc(tr, [] + [Declared(19, c2, Pos(40, 21), Initialized, [])] + [Declared(20, c2, Pos(41, 42), Initialized, [7])] + [OutAssigned(20, [], [7])], Declared(21, c3, Pos(43, 21), Initialized, []), fs);
    assert Analyse(tr, [] + [Declared(19, c2, Pos(40, 21), Initialized, [])] + [Declared(20, c2, Pos(41, 42), Initialized, [7])] + [OutAssigned(20, [], [7])] + [Declared(21, c3, Pos(43, 21), Initialized, [])], fs) == [] + [] + [Diag(Shadow, c2, Pos(41, 42))] + [] + [];
    assert Replay(tr, [] + [Declared(19, c2, Pos(40, 21), Initialized, [])] + [Declared(20, c2, Pos(41, 42), Initialized, [7])] + [OutAssigned(20, [], [7])] + [Declared(21, c3, Pos(43, 21), Initialized, [])], fs) == fs + [Fact(19, c2, [])] + [Fact(20, c2, [7])] + [Fact(21, c3, [])];
    Event36(j, k, n, q, a1, a2, a3, c1, c2, c3, c4, d1, tr, fs + [Fact(19, c2, [])] + [Fact(20, c2, [7])] + [Fact(21, c3, [])]);
    AnalyseSnoc(tr, [] + [Declared(19, c2, Pos(40, 21), Initialized, [])] + [Declared(20, c2, Pos(41, 42), Initialized, [7])] + [OutAssigned(20, [], [7])] + [Declared(21, c3, Pos(43, 21), Initialized, [])], Declared(22, c3, Pos(45, 42), Initialized, [8]), fs);
    assert Analyse(tr, [] + [Declared(19, c2, Pos(40, 21), Initialized, [])] + [Declared(20, c2, Pos(41, 42), Initialized, [7])] + [OutAssigned(20, [], [7])] + [Declared(21, c3, Pos(43, 21), Initialized, [])] + [Declared(22, c3, Pos(45, 42), Initialized, [8])], fs) == [] + [] + [Diag(Shadow, c2, Pos(41, 42))] + [] + [] + [Diag(Shadow, c3, Pos(45, 42))];
    assert Replay(tr, [] + [Declared(19, c2, Pos(40, 21), Initialized, [])] + [Declared(20, c2, Pos(41, 42), Initialized, [7])] + [OutAssigned(20, [], [7])] + [Declared(21, c3, Pos(43, 21), Initialized, [])] + [Declared(22, c3, Pos(45, 42), Initialized, [8])], fs) == fs + [Fact(19, c2, [])] + [Fact(20, c2, [7])] + [Fact(21, c3, [])] + [Fact(22, c3, [8])];
    Event37(j, k, n, q, a1, a2, a3, c1, c2, c3, c4, d1, tr, fs + [Fact(19, c2, [])] + [Fact(20, c2, [7])] + [Fact(21, c3, [])] + [Fact(22, c3, [8])]);
    AnalyseSnoc(tr, [] + [Declared(19, c2, Pos(40, 21), Initialized, [])] + [Declared(20, c2, Pos(41, 42), Initialized, [7])] + [OutAssigned(20, [], [7])] + [Declared(21, c3, Pos(43, 21), Initialized, [])] + [Declared(22, c3, Pos(45, 42), Initialized, [8])], OutAssigned(22, [], [8]), fs);
    assert Analyse(tr, [] + [Declared(19, c2, Pos(40, 21), Initialized, [])] + [Declared(20, c2, Pos(41, 42), Initialized, [7])] + [OutAssigned(20, [], [7])] + [Declared(21, c3, Pos(43, 21), Initialized, [])] + [Declared(22, c3, Pos(45, 42), Initialized, [8])] + [OutAssigned(22, [], [8])], fs) == [] + [] + [Diag(Shadow, c2, Pos(41, 42))] + [] + [] + [Diag(Shadow, c3, Pos(45, 42))] + [];
    assert Replay(tr, [] + [Declared(19, c2, Pos(40, 21), Initialized, [])] + [Declared(20, c2, Pos(41, 42), Initialized, [7])] + [OutAssigned(20, [], [7])] + [Declared(21, c3, Pos(43, 21), Initialized, [])] + [Declared(22, c3, Pos(45, 42), Initialized, [8])] + [OutAssigned(22, [], [8])], fs) == fs + [Fact(19, c2, [])] + [Fact(20, c2, [7])] + [Fact(21, c3, [])] + [Fact(22, c3, [8])];
    Event38(j, k, n, q, a1, a2, a3, c1, c2, c3, c4, d1, tr, fs + [Fact(19, c2, [])] + [Fact(20, c2, [7])] + [Fact(21, c3, [])] + [Fact(22, c3, [8])]);
    AnalyseSnoc(tr, [] + [Declared(19, c2, Pos(40, 21), Initialized, [])] + [Declared(20, c2, Pos(41, 42), Initialized, [7])] + [OutAssigned(20, [], [7])] + [Declared(21, c3, Pos(43, 21), Initialized, [])] + [Declared(22, c3, Pos(45, 42), Initialized, [8])] + [OutAssigned(22, [], [8])], Declared(23, c4, Pos(48, 21), Initialized, []), fs);
    assert Analyse(tr, [] + [Declared(19, c2, Pos(40, 21), Initialized, [])] + [Declared(20, c2, Pos(41, 42), Initialized, [7])] + [OutAssigned(20, [], [7])] + [Declared(21, c3, Pos(43, 21), Initialized, [])] + [Declared(22, c3, Pos(45, 42), Initialized, [8])] + [OutAssigned(22, [], [8])] + [Declared(23, c4, Pos(48, 21), Initialized, [])], fs) == [] + [] + [Diag(Shadow, c2, Pos(41, 42))] + [] + [] + [Diag(Shadow, c3, Pos(45, 42))] + [] + [];
    assert Replay(tr, [] + [Declared(19, c2, Pos(40, 21), Initialized, [])] + [Declared(20, c2, Pos(41, 42), Initialized, [7])] + [OutAssigned(20, [], [7])] + [Declared(21, c3, Pos(43, 21), Initialized, [])] + [Declared(22, c3, Pos(45, 42), Initialized, [8])] + [OutAssigned(22, [], [8])] + [Declared(23, c4, Pos(48, 21), Initialized, [])], fs) == fs + [Fact(19, c2, [])] + [Fact(20, c2, [7])] + [Fact(21, c3, [])] + [Fact(22, c3, [8])] + [Fact(23, c4, [])];
    Event39(j, k, n, q, a1, a2, a3, c1, c2, c3, c4, d1, tr, fs + [Fact(19, c2, [])] + [Fact(20, c2, [7])] + [Fact(21, c3, [])] + [Fact(22, c3, [8])] + [Fact(23, c4, [])]);
    AnalyseSnoc(tr, [] + [Declared(19, c2, Pos(40, 21), Initialized, [])] + [Declared(20, c2, Pos(41, 42), Initialized, [7])] + [OutAssigned(20, [], [7])] + [Declared(21, c3, Pos(43, 21), Initialized, [])] + [Declared(22, c3, Pos(45, 42), Initialized, [8])] + [OutAssigned(22, [], [8])] + [Declared(23, c4, Pos(48, 21), Initialized, [])], Declared(24, c4, Pos(50, 17), Initialized, [9]), fs);
    AnalyseSplit(tr, evs, Chunk4(j, k, n, q, a1, a2, a3, c1, c2, c3, c4, d1), []);
  }

  /** The analysis of events 40 to 45, after the events before them. */
  lemma {:induction false} Analysed5(j: string, k: string, n: string, q: string, a1: string, a2: string, a3: string, c1: string, c2: string, c3: string, c4: string, d1: string, tr: Tree, evs: seq<Event>, fs: seq<Fact>, rs: seq<Diag>)
    requires |tr.scopes| == 27
    requires Parent(tr, 0) == None
    requires Parent(tr, 3) == Some(0)
    requires Parent(tr, 4) == Some(3)
    requires Parent(tr, 24) == Some(23)
    requires Parent(tr, 25) == Some(4)
    requires Parent(tr, 26) == Some(25)
    requires LocalsOf(tr, 0) == []
    requires LocalsOf(tr, 3) == []
    requires LocalsOf(tr, 4) == [Local(a1, Pos(20, 13)), Local(a2, Pos(25, 13)), Local(a3, Pos(30, 13))]
    requires LocalsOf(tr, 24) == [Local(c4, Pos(50, 17))]
    requires LocalsOf(tr, 25) == []
    requires LocalsOf(tr, 26) == [Local(d1, Pos(55, 43)), Local(d1, Pos(55, 58))]
    requires a1 != a2 && a1 != d1 && a2 != a3 && a2 != d1 && a3 != d1
    requires Analyse(tr, evs, []) == rs
    requires Replay(tr, evs, []) == fs
    requires Assigned(fs, 24, c4, [9])
    requires Assigned(fs, 4, a2, [])
    ensures Analyse(tr, evs + Chunk5(j, k, n, q, a1, a2, a3, c1, c2, c3, c4, d1), []) == rs + ([] + [] + [] + [] + [] + [Diag(Duplicate, d1, Pos(55, 58))] + [])
    ensures Replay(tr, evs + Chunk5(j, k, n, q, a1, a2, a3, c1, c2, c3, c4, d1), []) == fs + [Fact(26, d1, [10])] + [Fact(26, d1, [10])]
  {
    assert Analyse(tr, [], fs) == [] && Replay(tr, [], fs) == fs;
    Event40(j, k, n, q, a1, a2, a3, c1, c2, c3, c4, d1, tr, fs);
    AnalyseSnoc(tr, [], Referenced(24, c4, Pos(51, 38), false, false, [9]), fs);
    assert Analyse(tr, [] + [Referenced(24, c4, Pos(51, 38), false, false, [9])], fs) == [] + [];
    assert Replay(tr, [] + [Referenced(24, c4, Pos(51, 38), false, false, [9])], fs) == fs;
    Event41(j, k, n, q, a1, a2, a3, c1, c2, c3, c4, d1, tr, fs);
    AnalyseSnoc(tr, [] + [Referenced(24, c4, Pos(51, 38), false, false, [9])], OutAssigned(24, [], [9]), fs);
    assert Analyse(tr, [] + [Referenced(24, c4, Pos(51, 38), false, false, [9])] + [OutAssigned(24, [], [9])], fs) == [] + [] + [];
    assert Replay(tr, [] + [Referenced(24, c4, Pos(51, 38), false, false, [9])] + [OutAssigned(24, [], [9])], fs) == fs;
    Event42(j, k, n, q, a1, a2, a3, c1, c2, c3, c4, d1, tr, fs);
    AnalyseSnoc(tr, [] + [Referenced(24, c4, Pos(51, 38), false, false, [9])] + [OutAssigned(24, [], [9])], Referenced(25, a2, Pos(54, 16), false, false, []), fs);
    assert Analyse(tr, [] + [Referenced(24, c4, Pos(51, 38), false, false, [9])] + [OutAssigned(24, [], [9])] + [Referenced(25, a2, Pos(54, 16), false, false, [])], fs) == [] + [] + [] + [];
    assert Replay(tr, [] + [Referenced(24, c4, Pos(51, 38), false, false, [9])] + [OutAssigned(24, [], [9])] + [Referenced(25, a2, Pos(54, 16), false, false, [])], fs) == fs;
    Event43(j, k, n, q, a1, a2, a3, c1, c2, c3, c4, d1, tr, fs);
    AnalyseSnoc(tr, [] + [Referenced(24, c4, Pos(51, 38), false, false, [9])] + [OutAssigned(24, [], [9])] + [Referenced(25, a2, Pos(54, 16), false, false, [])], Declared(26, d1, Pos(55, 43), Initialized, [10]), fs);
    assert Analyse(tr, [] + [Referenced(24, c4, Pos(51, 38), false, false, [9])] + [OutAssigned(24, [], [9])] + [Referenced(25, a2, Pos(54, 16), false, false, [])] + [Declared(26, d1, Pos(55, 43), Initialized, [10])], fs) == [] + [] + [] + [] + [];
    assert Replay(tr, [] + [Referenced(24, c4, Pos(51, 38), false, false, [9])] + [OutAssigned(24, [], [9])] + [Referenced(25, a2, Pos(54, 16), false, false, [])] + [Declared(26, d1, Pos(55, 43), Initialized, [10])], fs) == fs + [Fact(26, d1, [10])];
    Event44(j, k, n, q, a1, a2, a3, c1, c2, c3, c4, d1, tr, fs + [Fact(26, d1, [10])]);
    AnalyseSnoc(tr, [] + [Referenced(24, c4, Pos(51, 38), false, false, [9])] + [OutAssigned(24, [], [9])] + [Referenced(25, a2, Pos(54, 16), false, false, [])] + [Declared(26, d1, Pos(55, 43), Initialized, [10])], Declared(26, d1, Pos(55, 58), Initialized, [10]), fs);
    assert Analyse(tr, [] + [Referenced(24, c4, Pos(51, 38), false, false, [9])] + [OutAssigned(24, [], [9])] + [Referenced(25, a2, Pos(54, 16), false, false, [])] + [Declared(26, d1, Pos(55, 43), Initialized, [10])] + [Declared(26, d1, Pos(55, 58), Initialized, [10])], fs) == [] + [] + [] + [] + [] + [Diag(Duplicate, d1, Pos(55, 58))];
    assert Replay(tr, [] + [Referenced(24, c4, Pos(51, 38), false, false, [9])] + [OutAssigned(24, [], [9])] + [Referenced(25, a2, Pos(54, 16), false, false, [])] + [Declared(26, d1, Pos(55, 43), Initialized, [10])] + [Declared(26, d1, Pos(55, 58), Initialized, [10])], fs) == fs + [Fact(26, d1, [10])] + [Fact(26, d1, [10])];
    Event45(j, k, n, q, a1, a2, a3, c1, c2, c3, c4, d1, tr, fs + [Fact(26, d1, [10])] + [Fact(26, d1, [10])]);
    AnalyseSnoc(tr, [] + [Referenced(24, c4, Pos(51, 38), false, false, [9])] + [OutAssigned(24, [], [9])] + [Referenced(25, a2, Pos(54, 16), false, false, [])] + [Declared(26, d1, Pos(55, 43), Initialized, [10])] + [Declared(26, d1, Pos(55, 58), Initialized, [10])], OutAssigned(26, [], [10]), fs);
    AnalyseSplit(tr, evs, Chunk5(j, k, n, q, a1, a2, a3, c1, c2, c3, c4, d1), []);
  }

  lemma {:induction false} Glue0(j: string, k: string, n: string, q: string, a1: string, a2: string, a3: string, c1: string, c2: string, c3: string, c4: string, d1: string, rs: seq<Diag>)
    requires rs == []
    ensures rs + ([] + [] + [] + [] + [] + [] + [] + [Diag(NotInContext, j, Pos(9, 9))] + [Diag(NotInContext, k, Pos(10, 9))]) == [Diag(NotInContext, j, Pos(9, 9)), Diag(NotInContext, k, Pos(10, 9))]
  {
  }

  lemma {:induction false} Glue1(j: string, k: string, n: string, q: string, a1: string, a2: string, a3: string, c1: string, c2: string, c3: string, c4: string, d1: string, rs: seq<Diag>)
    requires rs == [Diag(NotInContext, j, Pos(9, 9)), Diag(NotInContext, k, Pos(10, 9))]
    ensures rs + ([] + [Diag(NotInContext, n, Pos(12, 16))] + [] + [] + [Diag(NotInContext, q, Pos(15, 20))] + [] + [] + [] + []) == [Diag(NotInContext, j, Pos(9, 9)), Diag(NotInContext, k, Pos(10, 9)), Diag(NotInContext, n, Pos(12, 16)), Diag(NotInContext, q, Pos(15, 20))]
  {
  }

  lemma {:induction false} Glue2(j: string, k: string, n: string, q: string, a1: string, a2: string, a3: string, c1: string, c2: string, c3: string, c4: string, d1: string, rs: seq<Diag>)
    requires rs == [Diag(NotInContext, j, Pos(9, 9)), Diag(NotInContext, k, Pos(10, 9)), Diag(NotInContext, n, Pos(12, 16)), Diag(NotInContext, q, Pos(15, 20))]
    ensures rs + ([] + [] + [Diag(Shadow, a1, Pos(22, 21))] + [] + [] + [] + [] + [Diag(Shadow, a2, Pos(28, 42))] + []) == [Diag(NotInContext, j, Pos(9, 9)), Diag(NotInContext, k, Pos(10, 9)), Diag(NotInContext, n, Pos(12, 16)), Diag(NotInContext, q, Pos(15, 20)), Diag(Shadow, a1, Pos(22, 21)), Diag(Shadow, a2, Pos(28, 42))]
  {
  }

  lemma {:induction false} Glue3(j: string, k: string, n: string, q: string, a1: string, a2: string, a3: string, c1: string, c2: string, c3: string, c4: string, d1: string, rs: seq<Diag>)
    requires rs == [Diag(NotInContext, j, Pos(9, 9)), Diag(NotInContext, k, Pos(10, 9)), Diag(NotInContext, n, Pos(12, 16)), Diag(NotInContext, q, Pos(15, 20)), Diag(Shadow, a1, Pos(22, 21)), Diag(Shadow, a2, Pos(28, 42))]
    ensures rs + ([] + [] + [] + [] + [] + [Diag(Shadow, a3, Pos(34, 42))] + [] + [] + [Diag(Duplicate, c1, Pos(37, 42))]) == [Diag(NotInContext, j, Pos(9, 9)), Diag(NotInContext, k, Pos(10, 9)), Diag(NotInContext, n, Pos(12, 16)), Diag(NotInContext, q, Pos(15, 20)), Diag(Shadow, a1, Pos(22, 21)), Diag(Shadow, a2, Pos(28, 42)), Diag(Shadow, a3, Pos(34, 42)), Diag(Duplicate, c1, Pos(37, 42))]
  {
  }

  lemma {:induction false} Glue4(j: string, k: string, n: string, q: string, a1: string, a2: string, a3: string, c1: string, c2: string, c3: string, c4: string, d1: string, rs: seq<Diag>)
    requires rs == [Diag(NotInContext, j, Pos(9, 9)), Diag(NotInContext, k, Pos(10, 9)), Diag(NotInContext, n, Pos(12, 16)), Diag(NotInContext, q, Pos(15, 20)), Diag(Shadow, a1, Pos(22, 21)), Diag(Shadow, a2, Pos(28, 42)), Diag(Shadow, a3, Pos(34, 42)), Diag(Duplicate, c1, Pos(37, 42))]
    ensures rs + ([] + [] + [Diag(Shadow, c2, Pos(41, 42))] + [] + [] + [Diag(Shadow, c3, Pos(45, 42))] + [] + [] + [Diag(Shadow, c4, Pos(50, 17))]) == [Diag(NotInContext, j, Pos(9, 9)), Diag(NotInContext, k, Pos(10, 9)), Diag(NotInContext, n, Pos(12, 16)), Diag(NotInContext, q, Pos(15, 20)), Diag(Shadow, a1, Pos(22, 21)), Diag(Shadow, a2, Pos(28, 42)), Diag(Shadow, a3, Pos(34, 42)), Diag(Duplicate, c1, Pos(37, 42)), Diag(Shadow, c2, Pos(41, 42)), Diag(Shadow, c3, Pos(45, 42)), Diag(Shadow, c4, Pos(50, 17))]
  {
  }

  lemma {:induction false} Glue5(j: string, k: string, n: string, q: string, a1: string, a2: string, a3: string, c1: string, c2: string, c3: string, c4: string, d1: string, rs: seq<Diag>)
    requires rs == [Diag(NotInContext, j, Pos(9, 9)), Diag(NotInContext, k, Pos(10, 9)), Diag(NotInContext, n, Pos(12, 16)), Diag(NotInContext, q, Pos(15, 20)), Diag(Shadow, a1, Pos(22, 21)), Diag(Shadow, a2, Pos(28, 42)), Diag(Shadow, a3, Pos(34, 42)), Diag(Duplicate, c1, Pos(37, 42)), Diag(Shadow, c2, Pos(41, 42)), Diag(Shadow, c3, Pos(45, 42)), Diag(Shadow, c4, Pos(50, 17))]
    ensures rs + ([] + [] + [] + [] + [] + [Diag(Duplicate, d1, Pos(55, 58))] + []) == [Diag(NotInContext, j, Pos(9, 9)), Diag(NotInContext, k, Pos(10, 9)), Diag(NotInContext, n, Pos(12, 16)), Diag(NotInContext, q, Pos(15, 20)), Diag(Shadow, a1, Pos(22, 21)), Diag(Shadow, a2, Pos(28, 42)), Diag(Shadow, a3, Pos(34, 42)), Diag(Duplicate, c1, Pos(37, 42)), Diag(Shadow, c2, Pos(41, 42)), Diag(Shadow, c3, Pos(45, 42)), Diag(Shadow, c4, Pos(50, 17)), Diag(Duplicate, d1, Pos(55, 58))]
  {
  }

  /** The analysis of events 0 to 45, after the events before them. */
  lemma {:induction false} Stage0(j: string, k: string, n: string, q: string, a1: string, a2: string, a3: string, c1: string, c2: string, c3: string, c4: string, d1: string, tr: Tree, evs: seq<Event>)
    requires ScopesAre(tr, Layout())
    requires LocalsFit(j, k, n, q, a1, a2, a3, c1, c2, c3, c4, d1, tr)
    requires j != k && j != a1 && j != a2 && j != a3 && k != a1 && k != a2 && k != a3 && n != a1 && n != a2 && n != a3 && q != a1 && q != a2 && q != a3 && a1 != a2 && a1 != a3 && a1 != c1 && a1 != c2 && a1 != c3 && a1 != c4 && a1 != d1 && a2 != a3 && a2 != c1 && a2 != c2 && a2 != c3 && a2 != c4 && a2 != d1 && a3 != c1 && a3 != c2 && a3 != c3 && a3 != c4 && a3 != d1
    requires Analyse(tr, evs, []) == []
    requires Replay(tr, evs, []) == []
    ensures Analyse(tr, evs + Chunk0(j, k, n, q, a1, a2, a3, c1, c2, c3, c4, d1) + Chunk1(j, k, n, q, a1, a2, a3, c1, c2, c3, c4, d1) + Chunk2(j, k, n, q, a1, a2, a3, c1, c2, c3, c4, d1) + Chunk3(j, k, n, q, a1, a2, a3, c1, c2, c3, c4, d1) + Chunk4(j, k, n, q, a1, a2, a3, c1, c2, c3, c4, d1) + Chunk5(j, k, n, q, a1, a2, a3, c1, c2, c3, c4, d1), []) == [Diag(NotInContext, j, Pos(9, 9)), Diag(NotInContext, k, Pos(10, 9)), Diag(NotInContext, n, Pos(12, 16)), Diag(NotInContext, q, Pos(15, 20)), Diag(Shadow, a1, Pos(22, 21)), Diag(Shadow, a2, Pos(28, 42)), Diag(Shadow, a3, Pos(34, 42)), Diag(Duplicate, c1, Pos(37, 42)), Diag(Shadow, c2, Pos(41, 42)), Diag(Shadow, c3, Pos(45, 42)), Diag(Shadow, c4, Pos(50, 17)), Diag(Duplicate, d1, Pos(55, 58))]
    ensures Replay(tr, evs + Chunk0(j, k, n, q, a1, a2, a3, c1, c2, c3, c4, d1) + Chunk1(j, k, n, q, a1, a2, a3, c1, c2, c3, c4, d1) + Chunk2(j, k, n, q, a1, a2, a3, c1, c2, c3, c4, d1) + Chunk3(j, k, n, q, a1, a2, a3, c1, c2, c3, c4, d1) + Chunk4(j, k, n, q, a1, a2, a3, c1, c2, c3, c4, d1) + Chunk5(j, k, n, q, a1, a2, a3, c1, c2, c3, c4, d1), []) == Known5(j, k, n, q, a1, a2, a3, c1, c2, c3, c4, d1)
  {
    assert !Assigned([], 5, j, []);
    assert !Assigned([], 5, j, [0]);
    assert !Assigned([], 6, k, [0]);
    Scope0(j, k, n, q, a1, a2, a3, c1, c2, c3, c4, d1, tr);
    Scope3(j, k, n, q, a1, a2, a3, c1, c2, c3, c4, d1, tr);
    Scope4(j, k, n, q, a1, a2, a3, c1, c2, c3, c4, d1, tr);
    Scope5(j, k, n, q, a1, a2, a3, c1, c2, c3, c4, d1, tr);
    Scope6(j, k, n, q, a1, a2, a3, c1, c2, c3, c4, d1, tr);
    Analysed0(j, k, n, q, a1, a2, a3, c1, c2, c3, c4, d1, tr, evs, [], []);
    Glue0(j, k, n, q, a1, a2, a3, c1, c2, c3, c4, d1, []);
    Read0(j, k, n, q, a1, a2, a3, c1, c2, c3, c4, d1);
    Scope7(j, k, n, q, a1, a2, a3, c1, c2, c3, c4, d1, tr);
    Scope8(j, k, n, q, a1, a2, a3, c1, c2, c3, c4, d1, tr);
    Scope9(j, k, n, q, a1, a2, a3, c1, c2, c3, c4, d1, tr);
    Scope10(j, k, n, q, a1, a2, a3, c1, c2, c3, c4, d1, tr);
    Analysed1(j, k, n, q, a1, a2, a3, c1, c2, c3, c4, d1, tr, evs + Chunk0(j, k, n, q, a1, a2, a3, c1, c2, c3, c4, d1), Known0(j, k, n, q, a1, a2, a3, c1, c2, c3, c4, d1), [Diag(NotInContext, j, Pos(9, 9)), Diag(NotInContext, k, Pos(10, 9))]);
    Glue1(j, k, n, q, a1, a2, a3, c1, c2, c3, c4, d1, [Diag(NotInContext, j, Pos(9, 9)), Diag(NotInContext, k, Pos(10, 9))]);
    Read1(j, k, n, q, a1, a2, a3, c1, c2, c3, c4, d1);
    Scope11(j, k, n, q, a1, a2, a3, c1, c2, c3, c4, d1, tr);
    Scope13(j, k, n, q, a1, a2, a3, c1, c2, c3, c4, d1, tr);
    Scope14(j, k, n, q, a1, a2, a3, c1, c2, c3, c4, d1, tr);
    Analysed2(j, k, n, q, a1, a2, a3, c1, c2, c3, c4, d1, tr, evs + Chunk0(j, k, n, q, a1, a2, a3, c1, c2, c3, c4, d1) + Chunk1(j, k, n, q, a1, a2, a3, c1, c2, c3, c4, d1), Known1(j, k, n, q, a1, a2, a3, c1, c2, c3, c4, d1), [Diag(NotInContext, j, Pos(9, 9)), Diag(NotInContext, k, Pos(10, 9)), Diag(NotInContext, n, Pos(12, 16)), Diag(NotInContext, q, Pos(15, 20))]);
    Glue2(j, k, n, q, a1, a2, a3, c1, c2, c3, c4, d1, [Diag(NotInContext, j, Pos(9, 9)), Diag(NotInContext, k, Pos(10, 9)), Diag(NotInContext, n, Pos(12, 16)), Diag(NotInContext, q, Pos(15, 20))]);
    Read2(j, k, n, q, a1, a2, a3, c1, c2, c3, c4, d1);
    Read3(j, k, n, q, a1, a2, a3, c1, c2, c3, c4, d1);
    Scope15(j, k, n, q, a1, a2, a3, c1, c2, c3, c4, d1, tr);
    Scope16(j, k, n, q, a1, a2, a3, c1, c2, c3, c4, d1, tr);
    Scope17(j, k, n, q, a1, a2, a3, c1, c2, c3, c4, d1, tr);
    Analysed3(j, k, n, q, a1, a2, a3, c1, c2, c3, c4, d1, tr, evs + Chunk0(j, k, n, q, a1, a2, a3, c1, c2, c3, c4, d1) + Chunk1(j, k, n, q, a1, a2, a3, c1, c2, c3, c4, d1) + Chunk2(j, k, n, q, a1, a2, a3, c1, c2, c3, c4, d1), Known2(j, k, n, q, a1, a2, a3, c1, c2, c3, c4, d1), [Diag(NotInContext, j, Pos(9, 9)), Diag(NotInContext, k, Pos(10, 9)), Diag(NotInContext, n, Pos(12, 16)), Diag(NotInContext, q, Pos(15, 20)), Diag(Shadow, a1, Pos(22, 21)), Diag(Shadow, a2, Pos(28, 42))]);
    Glue3(j, k, n, q, a1, a2, a3, c1, c2, c3, c4, d1, [Diag(NotInContext, j, Pos(9, 9)), Diag(NotInContext, k, Pos(10, 9)), Diag(NotInContext, n, Pos(12, 16)), Diag(NotInContext, q, Pos(15, 20)), Diag(Shadow, a1, Pos(22, 21)), Diag(Shadow, a2, Pos(28, 42))]);
    Scope19(j, k, n, q, a1, a2, a3, c1, c2, c3, c4, d1, tr);
    Scope20(j, k, n, q, a1, a2, a3, c1, c2, c3, c4, d1, tr);
    Scope21(j, k, n, q, a1, a2, a3, c1, c2, c3, c4, d1, tr);
    Scope22(j, k, n, q, a1, a2, a3, c1, c2, c3, c4, d1, tr);
    Scope23(j, k, n, q, a1, a2, a3, c1, c2, c3, c4, d1, tr);
    Scope24(j, k, n, q, a1, a2, a3, c1, c2, c3, c4, d1, tr);
    Analysed4(j, k, n, q, a1, a2, a3, c1, c2, c3, c4, d1, tr, evs + Chunk0(j, k, n, q, a1, a2, a3, c1, c2, c3, c4, d1) + Chunk1(j, k, n, q, a1, a2, a3, c1, c2, c3, c4, d1) + Chunk2(j, k, n, q, a1, a2, a3, c1, c2, c3, c4, d1) + Chunk3(j, k, n, q, a1, a2, a3, c1, c2, c3, c4, d1), Known3(j, k, n, q, a1, a2, a3, c1, c2, c3, c4, d1), [Diag(NotInContext, j, Pos(9, 9)), Diag(NotInContext, k, Pos(10, 9)), Diag(NotInContext, n, Pos(12, 16)), Diag(NotInContext, q, Pos(15, 20)), Diag(Shadow, a1, Pos(22, 21)), Diag(Shadow, a2, Pos(28, 42)), Diag(Shadow, a3, Pos(34, 42)), Diag(Duplicate, c1, Pos(37, 42))]);
    Glue4(j, k, n, q, a1, a2, a3, c1, c2, c3, c4, d1, [Diag(NotInContext, j, Pos(9, 9)), Diag(NotInContext, k, Pos(10, 9)), Diag(NotInContext, n, Pos(12, 16)), Diag(NotInContext, q, Pos(15, 20)), Diag(Shadow, a1, Pos(22, 21)), Diag(Shadow, a2, Pos(28, 42)), Diag(Shadow, a3, Pos(34, 42)), Diag(Duplicate, c1, Pos(37, 42))]);
    Read4(j, k, n, q, a1, a2, a3, c1, c2, c3, c4, d1);
    Read5(j, k, n, q, a1, a2, a3, c1, c2, c3, c4, d1);
    Scope25(j, k, n, q, a1, a2, a3, c1, c2, c3, c4, d1, tr);
    Scope26(j, k, n, q, a1, a2, a3, c1, c2, c3, c4, d1, tr);
    Analysed5(j, k, n, q, a1, a2, a3, c1, c2, c3, c4, d1, tr, evs + Chunk0(j, k, n, q, a1, a2, a3, c1, c2, c3, c4, d1) + Chunk1(j, k, n, q, a1, a2, a3, c1, c2, c3, c4, d1) + Chunk2(j, k, n, q, a1, a2, a3, c1, c2, c3, c4, d1) + Chunk3(j, k, n, q, a1, a2, a3, c1, c2, c3, c4, d1) + Chunk4(j, k, n, q, a1, a2, a3, c1, c2, c3, c4, d1), Known4(j, k, n, q, a1, a2, a3, c1, c2, c3, c4, d1), [Diag(NotInContext, j, Pos(9, 9)), Diag(NotInContext, k, Pos(10, 9)), Diag(NotInContext, n, Pos(12, 16)), Diag(NotInContext, q, Pos(15, 20)), Diag(Shadow, a1, Pos(22, 21)), Diag(Shadow, a2, Pos(28, 42)), Diag(Shadow, a3, Pos(34, 42)), Diag(Duplicate, c1, Pos(37, 42)), Diag(Shadow, c2, Pos(41, 42)), Diag(Shadow, c3, Pos(45, 42)), Diag(Shadow, c4, Pos(50, 17))]);
    Glue5(j, k, n, q, a1, a2, a3, c1, c2, c3, c4, d1, [Diag(NotInContext, j, Pos(9, 9)), Diag(NotInContext, k, Pos(10, 9)), Diag(NotInContext, n, Pos(12, 16)), Diag(NotInContext, q, Pos(15, 20)), Diag(Shadow, a1, Pos(22, 21)), Diag(Shadow, a2, Pos(28, 42)), Diag(Shadow, a3, Pos(34, 42)), Diag(Duplicate, c1, Pos(37, 42)), Diag(Shadow, c2, Pos(41, 42)), Diag(Shadow, c3, Pos(45, 42)), Diag(Shadow, c4, Pos(50, 17))]);
  }

  /** The analysis of a tree with the test's scopes and events. */
  lemma {:induction false} Result(j: string, k: string, n: string, q: string, a1: string, a2: string, a3: string, c1: string, c2: string, c3: string, c4: string, d1: string, tr: Tree)
    requires ScopesAre(tr, Layout()) && LocalsFit(j, k, n, q, a1, a2, a3, c1, c2, c3, c4, d1, tr) && tr.events == Trace(j, k, n, q, a1, a2, a3, c1, c2, c3, c4, d1)
    requires j != k && j != a1 && j != a2 && j != a3 && k != a1 && k != a2 && k != a3 && n != a1 && n != a2 && n != a3 && q != a1 && q != a2 && q != a3 && a1 != a2 && a1 != a3 && a1 != c1 && a1 != c2 && a1 != c3 && a1 != c4 && a1 != d1 && a2 != a3 && a2 != c1 && a2 != c2 && a2 != c3 && a2 != c4 && a2 != d1 && a3 != c1 && a3 != c2 && a3 != c3 && a3 != c4 && a3 != d1
    ensures Analyse(tr, tr.events, []) == [Diag(NotInContext, j, Pos(9, 9)), Diag(NotInContext, k, Pos(10, 9)), Diag(NotInContext, n, Pos(12, 16)), Diag(NotInContext, q, Pos(15, 20)), Diag(Shadow, a1, Pos(22, 21)), Diag(Shadow, a2, Pos(28, 42)), Diag(Shadow, a3, Pos(34, 42)), Diag(Duplicate, c1, Pos(37, 42)), Diag(Shadow, c2, Pos(41, 42)), Diag(Shadow, c3, Pos(45, 42)), Diag(Shadow, c4, Pos(50, 17)), Diag(Duplicate, d1, Pos(55, 58))]
  {
    assert Analyse(tr, [], []) == [] && Replay(tr, [], []) == [];
    Stage0(j, k, n, q, a1, a2, a3, c1, c2, c3, c4, d1, tr, []);
  }

  /** The diagnostics the test expects, in the order the analysis reports them. */
  lemma {:induction false} Outcome(j: string, k: string, n: string, q: string, a1: string, a2: string, a3: string, c1: string, c2: string, c3: string, c4: string, d1: string)
    requires j != k && j != a1 && j != a2 && j != a3 && k != a1 && k != a2 && k != a3 && n != a1 && n != a2 && n != a3 && q != a1 && q != a2 && q != a3 && a1 != a2 && a1 != a3 && a1 != c1 && a1 != c2 && a1 != c3 && a1 != c4 && a1 != d1 && a2 != a3 && a2 != c1 && a2 != c2 && a2 != c3 && a2 != c4 && a2 != d1 && a3 != c1 && a3 != c2 && a3 != c3 && a3 != c4 && a3 != d1
    ensures Check(Program(j, k, n, q, a1, a2, a3, c1, c2, c3, c4, d1)) == [Diag(NotInContext, j, Pos(9, 9)), Diag(NotInContext, k, Pos(10, 9)), Diag(NotInContext, n, Pos(12, 16)), Diag(NotInContext, q, Pos(15, 20)), Diag(Shadow, a1, Pos(22, 21)), Diag(Shadow, a2, Pos(28, 42)), Diag(Shadow, a3, Pos(34, 42)), Diag(Duplicate, c1, Pos(37, 42)), Diag(Shadow, c2, Pos(41, 42)), Diag(Shadow, c3, Pos(45, 42)), Diag(Shadow, c4, Pos(50, 17)), Diag(Duplicate, d1, Pos(55, 58))]
  {
    Walked(j, k, n, q, a1, a2, a3, c1, c2, c3, c4, d1);
    LocalsAll(j, k, n, q, a1, a2, a3, c1, c2, c3, c4, d1, Build(Program(j, k, n, q, a1, a2, a3, c1, c2, c3, c4, d1)));
    Result(j, k, n, q, a1, a2, a3, c1, c2, c3, c4, d1, Build(Program(j, k, n, q, a1, a2, a3, c1, c2, c3, c4, d1)));
  }
}

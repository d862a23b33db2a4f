/**
 * The statements on lines 68 to 85 of the program of the test For_02
 * (DeclarationExpressionsTests.cs, lines 428 to 658).
 * They share no name with the test's other statements outside their own `for`
 * statements: every part declares `i`, but only in a `for` initializer, a scope no
 * other part can see. So their diagnostics are the test's diagnostics on those lines.
 *
 * Its program, with its local names left as parameters, is walked into a scope tree and
 * analysed; Outcome states the exact list of diagnostics Check reports, for any names that
 * differ where the outcome depends on it.
 */
module ScenFor02c {
  import opened Syntax
  import opened Scopes
  import opened Binding
  import opened Reporting
  import opened Frames
  import opened Units
  import opened Traces

  /** The statements of the test's method, its names left as parameters. */
  function Body(i: string, c1: string, c2: string, c3: string, c4: string, c5: string, c6: string): seq<Stmt> {
    [For([Declare(i, Pos(68, 18), Initialized)] + ([Declare(c1, Pos(68, 27), Initialized)] + ([Declare(c1, Pos(68, 42), Initialized)])), [Use(i, Pos(68, 51), false)], [], Exprs([]))] + ([For([Declare(i, Pos(70, 18), Initialized)] + ([Declare(c2, Pos(70, 27), Initialized)]), [Use(i, Pos(70, 36), false)] + ([Declare(c2, Pos(70, 45), Initialized)]), [], Exprs([]))] + ([For([Declare(i, Pos(72, 18), Initialized)] + ([Declare(c3, Pos(72, 27), Initialized)]), [Use(i, Pos(72, 36), false)], [Use(i, Pos(72, 43), false)] + ([Declare(c3, Pos(72, 52), Initialized)]), Exprs([]))] + ([For([Declare(i, Pos(74, 18), Initialized)] + ([Declare(c4, Pos(74, 27), Initialized)]), [Use(i, Pos(74, 36), false)], [Use(i, Pos(74, 43), false)], Exprs([Call([Argument([Declare(c4, Pos(75, 42), Initialized)])])]))] + ([For([Declare(i, Pos(77, 18), Initialized)] + ([Declare(c5, Pos(77, 27), Initialized)]), [Use(i, Pos(77, 36), false)], [Use(i, Pos(77, 43), false)], Block([Exprs([Call([Argument([Declare(c5, Pos(79, 42), Initialized)])])])]))] + ([For([Declare(i, Pos(82, 18), Initialized)] + ([Declare(c6, Pos(82, 27), Initialized)]), [Use(i, Pos(82, 36), false)], [Use(i, Pos(82, 43), false)], Block([Exprs([Declare(c6, Pos(84, 17), Initialized)])] + ([Exprs([Call([Argument([Use(c6, Pos(85, 38), false)])])])])))])))))
  }

  /** The program of the test: one method holding those statements. */
  function Program(i: string, c1: string, c2: string, c3: string, c4: string, c5: string, c6: string): seq<Fragment> {
    MainUnit(Body(i, c1, c2, c3, c4, c5, c6))
  }

  /** Scopes 0 to 7, in the order the walk opens them. */
  function Layout0(): seq<Scope> {
    [Scope(Unit, None),
     Scope(InstanceInitializers, Some(0)),
     Scope(StaticInitializers, Some(0)),
     Scope(MethodBody, Some(0)),
     Scope(BlockBody, Some(3)),
     Scope(ForInit, Some(4)),
     Scope(ForLoop, Some(5)),
     Scope(EmbeddedBody, Some(6))]
  }

  /** Scopes 8 to 15, in the order the walk opens them. */
  function Layout1(): seq<Scope> {
    [Scope(ForInit, Some(4)),
     Scope(ForLoop, Some(8)),
     Scope(EmbeddedBody, Some(9)),
     Scope(ForInit, Some(4)),
     Scope(ForLoop, Some(11)),
     Scope(EmbeddedBody, Some(12)),
     Scope(ForInit, Some(4)),
     Scope(ForLoop, Some(14))]
  }

  /** Scopes 16 to 22, in the order the walk opens them. */
  function Layout2(): seq<Scope> {
    [Scope(EmbeddedBody, Some(15)),
     Scope(ForInit, Some(4)),
     Scope(ForLoop, Some(17)),
     Scope(BlockBody, Some(18)),
     Scope(ForInit, Some(4)),
     Scope(ForLoop, Some(20)),
     Scope(BlockBody, Some(21))]
  }

  /** Its scopes, in the order the walk opens them. */
  function Layout(): seq<Scope> {
    Layout0() + Layout1() + Layout2()
  }

  lemma {:induction false} LayoutJoin0()
    ensures [Scope(Unit, None), Scope(InstanceInitializers, Some(0)), Scope(StaticInitializers, Some(0)), Scope(MethodBody, Some(0)), Scope(BlockBody, Some(3))] + [Scope(ForInit, Some(4))] + [Scope(ForLoop, Some(5))] + [Scope(EmbeddedBody, Some(6))] == Layout0()
  {
  }

  lemma {:induction false} LayoutJoin1(pre: seq<Scope>)
    ensures pre + Layout1() == pre + [Scope(ForInit, Some(4))] + [Scope(ForLoop, Some(8))] + [Scope(EmbeddedBody, Some(9))] + [Scope(ForInit, Some(4))] + [Scope(ForLoop, Some(11))] + [Scope(EmbeddedBody, Some(12))] + [Scope(ForInit, Some(4))] + [Scope(ForLoop, Some(14))]
  {
  }

  lemma {:induction false} LayoutJoin2(pre: seq<Scope>)
    ensures pre + Layout2() == pre + [Scope(EmbeddedBody, Some(15))] + [Scope(ForInit, Some(4))] + [Scope(ForLoop, Some(17))] + [Scope(BlockBody, Some(18))] + [Scope(ForInit, Some(4))] + [Scope(ForLoop, Some(20))] + [Scope(BlockBody, Some(21))]
  {
  }

  /** The layout, scope by scope. */
  lemma {:induction false} LayoutFlat()
    ensures [Scope(Unit, None), Scope(InstanceInitializers, Some(0)), Scope(StaticInitializers, Some(0)), Scope(MethodBody, Some(0)), Scope(BlockBody, Some(3))] + [Scope(ForInit, Some(4))] + [Scope(ForLoop, Some(5))] + [Scope(EmbeddedBody, Some(6))] + [Scope(ForInit, Some(4))] + [Scope(ForLoop, Some(8))] + [Scope(EmbeddedBody, Some(9))] + [Scope(ForInit, Some(4))] + [Scope(ForLoop, Some(11))] + [Scope(EmbeddedBody, Some(12))] + [Scope(ForInit, Some(4))] + [Scope(ForLoop, Some(14))] + [Scope(EmbeddedBody, Some(15))] + [Scope(ForInit, Some(4))] + [Scope(ForLoop, Some(17))] + [Scope(BlockBody, Some(18))] + [Scope(ForInit, Some(4))] + [Scope(ForLoop, Some(20))] + [Scope(BlockBody, Some(21))] == Layout()
  {
    LayoutJoin0();
    LayoutJoin1(Layout0());
    LayoutJoin2(Layout0() + Layout1());
  }

  /** Events 0 to 7 of the test, in evaluation order. */
  function Chunk0(i: string, c1: string, c2: string, c3: string, c4: string, c5: string, c6: string): seq<Event> {
    []
      + [Declared(5, i, Pos(68, 18), Initialized, [])]
      + [Declared(5, c1, Pos(68, 27), Initialized, [])]
      + [Declared(5, c1, Pos(68, 42), Initialized, [])]
      + [Referenced(6, i, Pos(68, 51), false, false, [])]
      + [Declared(8, i, Pos(70, 18), Initialized, [])]
      + [Declared(8, c2, Pos(70, 27), Initialized, [])]
      + [Referenced(9, i, Pos(70, 36), false, false, [])]
      + [Declared(9, c2, Pos(70, 45), Initialized, [])]
  }

  /** Events 8 to 15 of the test, in evaluation order. */
  function Chunk1(i: string, c1: string, c2: string, c3: string, c4: string, c5: string, c6: string): seq<Event> {
    []
      + [Declared(11, i, Pos(72, 18), Initialized, [])]
      + [Declared(11, c3, Pos(72, 27), Initialized, [])]
      + [Referenced(12, i, Pos(72, 36), false, false, [])]
      + [Referenced(12, i, Pos(72, 43), false, false, [2])]
      + [Declared(12, c3, Pos(72, 52), Initialized, [2])]
      + [Declared(14, i, Pos(74, 18), Initialized, [])]
      + [Declared(14, c4, Pos(74, 27), Initialized, [])]
      + [Referenced(15, i, Pos(74, 36), false, false, [])]
  }

  /** Events 16 to 23 of the test, in evaluation order. */
  function Chunk2(i: string, c1: string, c2: string, c3: string, c4: string, c5: string, c6: string): seq<Event> {
    []
      + [Declared(16, c4, Pos(75, 42), Initialized, [3])]
      + [OutAssigned(16, [], [3])]
      + [Referenced(15, i, Pos(74, 43), false, false, [3])]
      + [Declared(17, i, Pos(77, 18), Initialized, [])]
      + [Declared(17, c5, Pos(77, 27), Initialized, [])]
      + [Referenced(18, i, Pos(77, 36), false, false, [])]
      + [Declared(19, c5, Pos(79, 42), Initialized, [4])]
      + [OutAssigned(19, [], [4])]
  }

  /** Events 24 to 31 of the test, in evaluation order. */
  function Chunk3(i: string, c1: string, c2: string, c3: string, c4: string, c5: string, c6: string): seq<Event> {
    []
      + [Referenced(18, i, Pos(77, 43), false, false, [4])]
      + [Declared(20, i, Pos(82, 18), Initialized, [])]
      + [Declared(20, c6, Pos(82, 27), Initialized, [])]
      + [Referenced(21, i, Pos(82, 36), false, false, [])]
      + [Declared(22, c6, Pos(84, 17), Initialized, [5])]
      + [Referenced(22, c6, Pos(85, 38), false, false, [5])]
      + [OutAssigned(22, [], [5])]
      + [Referenced(21, i, Pos(82, 43), false, false, [5])]
  }

  /** The events of the test, in evaluation order. */
  function Trace(i: string, c1: string, c2: string, c3: string, c4: string, c5: string, c6: string): seq<Event> {
    []
      + Chunk0(i, c1, c2, c3, c4, c5, c6)
      + Chunk1(i, c1, c2, c3, c4, c5, c6)
      + Chunk2(i, c1, c2, c3, c4, c5, c6)
      + Chunk3(i, c1, c2, c3, c4, c5, c6)
  }

  lemma {:induction false} Walk2(i: string, c1: string, c2: string, c3: string, c4: string, c5: string, c6: string, tr: Tree)
    requires |tr.scopes| == 5 && tr.arms == 0
    ensures WalkStmt(For([Declare(i, Pos(68, 18), Initialized)] + ([Declare(c1, Pos(68, 27), Initialized)] + ([Declare(c1, Pos(68, 42), Initialized)])), [Use(i, Pos(68, 51), false)], [], Exprs([])), Ctx(4, [], []), tr) == Tree(tr.scopes + [Scope(ForInit, Some(4))] + [Scope(ForLoop, Some(5))] + [Scope(EmbeddedBody, Some(6))], tr.events + [Declared(5, i, Pos(68, 18), Initialized, [])] + [Declared(5, c1, Pos(68, 27), Initialized, [])] + [Declared(5, c1, Pos(68, 42), Initialized, [])] + [Referenced(6, i, Pos(68, 51), false, false, [])], 1)
  {
    WalkExprsCons(Declare(i, Pos(68, 18), Initialized), [Declare(c1, Pos(68, 27), Initialized)] + ([Declare(c1, Pos(68, 42), Initialized)]), Ctx(5, [], []), Tree(tr.scopes + [Scope(ForInit, Some(4))] + [Scope(ForLoop, Some(5))], tr.events, 0));
    assert WalkExpr(Declare(i, Pos(68, 18), Initialized), Ctx(5, [], []), Tree(tr.scopes + [Scope(ForInit, Some(4))] + [Scope(ForLoop, Some(5))], tr.events, 0)) == Tree(tr.scopes + [Scope(ForInit, Some(4))] + [Scope(ForLoop, Some(5))], tr.events + [Declared(5, i, Pos(68, 18), Initialized, [])], 0);
    WalkExprsCons(Declare(c1, Pos(68, 27), Initialized), [Declare(c1, Pos(68, 42), Initialized)], Ctx(5, [], []), Tree(tr.scopes + [Scope(ForInit, Some(4))] + [Scope(ForLoop, Some(5))], tr.events + [Declared(5, i, Pos(68, 18), Initialized, [])], 0));
    assert WalkExpr(Declare(c1, Pos(68, 27), Initialized), Ctx(5, [], []), Tree(tr.scopes + [Scope(ForInit, Some(4))] + [Scope(ForLoop, Some(5))], tr.events + [Declared(5, i, Pos(68, 18), Initialized, [])], 0)) == Tree(tr.scopes + [Scope(ForInit, Some(4))] + [Scope(ForLoop, Some(5))], tr.events + [Declared(5, i, Pos(68, 18), Initialized, [])] + [Declared(5, c1, Pos(68, 27), Initialized, [])], 0);
    WalkExprsOne(Declare(c1, Pos(68, 42), Initialized), Ctx(5, [], []), Tree(tr.scopes + [Scope(ForInit, Some(4))] + [Scope(ForLoop, Some(5))], tr.events + [Declared(5, i, Pos(68, 18), Initialized, [])] + [Declared(5, c1, Pos(68, 27), Initialized, [])], 0));
    assert WalkExpr(Declare(c1, Pos(68, 42), Initialized), Ctx(5, [], []), Tree(tr.scopes + [Scope(ForInit, Some(4))] + [Scope(ForLoop, Some(5))], tr.events + [Declared(5, i, Pos(68, 18), Initialized, [])] + [Declared(5, c1, Pos(68, 27), Initialized, [])], 0)) == Tree(tr.scopes + [Scope(ForInit, Some(4))] + [Scope(ForLoop, Some(5))], tr.events + [Declared(5, i, Pos(68, 18), Initialized, [])] + [Declared(5, c1, Pos(68, 27), Initialized, [])] + [Declared(5, c1, Pos(68, 42), Initialized, [])], 0);
    assert WalkExprs([Declare(i, Pos(68, 18), Initialized)] + ([Declare(c1, Pos(68, 27), Initialized)] + ([Declare(c1, Pos(68, 42), Initialized)])), Ctx(5, [], []), Tree(tr.scopes + [Scope(ForInit, Some(4))] + [Scope(ForLoop, Some(5))], tr.events, 0)) == Tree(tr.scopes + [Scope(ForInit, Some(4))] + [Scope(ForLoop, Some(5))], tr.events + [Declared(5, i, Pos(68, 18), Initialized, [])] + [Declared(5, c1, Pos(68, 27), Initialized, [])] + [Declared(5, c1, Pos(68, 42), Initialized, [])], 0);
    WalkExprsOne(Use(i, Pos(68, 51), false), Ctx(6, [], []), Tree(tr.scopes + [Scope(ForInit, Some(4))] + [Scope(ForLoop, Some(5))], tr.events + [Declared(5, i, Pos(68, 18), Initialized, [])] + [Declared(5, c1, Pos(68, 27), Initialized, [])] + [Declared(5, c1, Pos(68, 42), Initialized, [])], 0));
    assert WalkExpr(Use(i, Pos(68, 51), false), Ctx(6, [], []), Tree(tr.scopes + [Scope(ForInit, Some(4))] + [Scope(ForLoop, Some(5))], tr.events + [Declared(5, i, Pos(68, 18), Initialized, [])] + [Declared(5, c1, Pos(68, 27), Initialized, [])] + [Declared(5, c1, Pos(68, 42), Initialized, [])], 0)) == Tree(tr.scopes + [Scope(ForInit, Some(4))] + [Scope(ForLoop, Some(5))], tr.events + [Declared(5, i, Pos(68, 18), Initialized, [])] + [Declared(5, c1, Pos(68, 27), Initialized, [])] + [Declared(5, c1, Pos(68, 42), Initialized, [])] + [Referenced(6, i, Pos(68, 51), false, false, [])], 0);
    assert WalkExprs([Use(i, Pos(68, 51), false)], Ctx(6, [], []), Tree(tr.scopes + [Scope(ForInit, Some(4))] + [Scope(ForLoop, Some(5))], tr.events + [Declared(5, i, Pos(68, 18), Initialized, [])] + [Declared(5, c1, Pos(68, 27), Initialized, [])] + [Declared(5, c1, Pos(68, 42), Initialized, [])], 0)) == Tree(tr.scopes + [Scope(ForInit, Some(4))] + [Scope(ForLoop, Some(5))], tr.events + [Declared(5, i, Pos(68, 18), Initialized, [])] + [Declared(5, c1, Pos(68, 27), Initialized, [])] + [Declared(5, c1, Pos(68, 42), Initialized, [])] + [Referenced(6, i, Pos(68, 51), false, false, [])], 0);
    assert [] + [0] == [0];
    assert WalkStmt(Exprs([]), Ctx(7, [0], []), Tree(tr.scopes + [Scope(ForInit, Some(4))] + [Scope(ForLoop, Some(5))] + [Scope(EmbeddedBody, Some(6))], tr.events + [Declared(5, i, Pos(68, 18), Initialized, [])] + [Declared(5, c1, Pos(68, 27), Initialized, [])] + [Declared(5, c1, Pos(68, 42), Initialized, [])] + [Referenced(6, i, Pos(68, 51), false, false, [])], 1)) == Tree(tr.scopes + [Scope(ForInit, Some(4))] + [Scope(ForLoop, Some(5))] + [Scope(EmbeddedBody, Some(6))], tr.events + [Declared(5, i, Pos(68, 18), Initialized, [])] + [Declared(5, c1, Pos(68, 27), Initialized, [])] + [Declared(5, c1, Pos(68, 42), Initialized, [])] + [Referenced(6, i, Pos(68, 51), false, false, [])], 1);
    assert WalkEmbedded(Exprs([]), Ctx(6, [0], []), Tree(tr.scopes + [Scope(ForInit, Some(4))] + [Scope(ForLoop, Some(5))], tr.events + [Declared(5, i, Pos(68, 18), Initialized, [])] + [Declared(5, c1, Pos(68, 27), Initialized, [])] + [Declared(5, c1, Pos(68, 42), Initialized, [])] + [Referenced(6, i, Pos(68, 51), false, false, [])], 1)) == Tree(tr.scopes + [Scope(ForInit, Some(4))] + [Scope(ForLoop, Some(5))] + [Scope(EmbeddedBody, Some(6))], tr.events + [Declared(5, i, Pos(68, 18), Initialized, [])] + [Declared(5, c1, Pos(68, 27), Initialized, [])] + [Declared(5, c1, Pos(68, 42), Initialized, [])] + [Referenced(6, i, Pos(68, 51), false, false, [])], 1);
    assert WalkStmt(For([Declare(i, Pos(68, 18), Initialized)] + ([Declare(c1, Pos(68, 27), Initialized)] + ([Declare(c1, Pos(68, 42), Initialized)])), [Use(i, Pos(68, 51), false)], [], Exprs([])), Ctx(4, [], []), tr) == Tree(tr.scopes + [Scope(ForInit, Some(4))] + [Scope(ForLoop, Some(5))] + [Scope(EmbeddedBody, Some(6))], tr.events + [Declared(5, i, Pos(68, 18), Initialized, [])] + [Declared(5, c1, Pos(68, 27), Initialized, [])] + [Declared(5, c1, Pos(68, 42), Initialized, [])] + [Referenced(6, i, Pos(68, 51), false, false, [])], 1);
  }

  lemma {:induction false} Walk3(i: string, c1: string, c2: string, c3: string, c4: string, c5: string, c6: string, tr: Tree)
    requires |tr.scopes| == 8 && tr.arms == 1
    ensures WalkStmt(For([Declare(i, Pos(70, 18), Initialized)] + ([Declare(c2, Pos(70, 27), Initialized)]), [Use(i, Pos(70, 36), false)] + ([Declare(c2, Pos(70, 45), Initialized)]), [], Exprs([])), Ctx(4, [], []), tr) == Tree(tr.scopes + [Scope(ForInit, Some(4))] + [Scope(ForLoop, Some(8))] + [Scope(EmbeddedBody, Some(9))], tr.events + [Declared(8, i, Pos(70, 18), Initialized, [])] + [Declared(8, c2, Pos(70, 27), Initialized, [])] + [Referenced(9, i, Pos(70, 36), false, false, [])] + [Declared(9, c2, Pos(70, 45), Initialized, [])], 2)
  {
    WalkExprsCons(Declare(i, Pos(70, 18), Initialized), [Declare(c2, Pos(70, 27), Initialized)], Ctx(8, [], []), Tree(tr.scopes + [Scope(ForInit, Some(4))] + [Scope(ForLoop, Some(8))], tr.events, 1));
    assert WalkExpr(Declare(i, Pos(70, 18), Initialized), Ctx(8, [], []), Tree(tr.scopes + [Scope(ForInit, Some(4))] + [Scope(ForLoop, Some(8))], tr.events, 1)) == Tree(tr.scopes + [Scope(ForInit, Some(4))] + [Scope(ForLoop, Some(8))], tr.events + [Declared(8, i, Pos(70, 18), Initialized, [])], 1);
    WalkExprsOne(Declare(c2, Pos(70, 27), Initialized), Ctx(8, [], []), Tree(tr.scopes + [Scope(ForInit, Some(4))] + [Scope(ForLoop, Some(8))], tr.events + [Declared(8, i, Pos(70, 18), Initialized, [])], 1));
    assert WalkExpr(Declare(c2, Pos(70, 27), Initialized), Ctx(8, [], []), Tree(tr.scopes + [Scope(ForInit, Some(4))] + [Scope(ForLoop, Some(8))], tr.events + [Declared(8, i, Pos(70, 18), Initialized, [])], 1)) == Tree(tr.scopes + [Scope(ForInit, Some(4))] + [Scope(ForLoop, Some(8))], tr.events + [Declared(8, i, Pos(70, 18), Initialized, [])] + [Declared(8, c2, Pos(70, 27), Initialized, [])], 1);
    assert WalkExprs([Declare(i, Pos(70, 18), Initialized)] + ([Declare(c2, Pos(70, 27), Initialized)]), Ctx(8, [], []), Tree(tr.scopes + [Scope(ForInit, Some(4))] + [Scope(ForLoop, Some(8))], tr.events, 1)) == Tree(tr.scopes + [Scope(ForInit, Some(4))] + [Scope(ForLoop, Some(8))], tr.events + [Declared(8, i, Pos(70, 18), Initialized, [])] + [Declared(8, c2, Pos(70, 27), Initialized, [])], 1);
    WalkExprsCons(Use(i, Pos(70, 36), false), [Declare(c2, Pos(70, 45), Initialized)], Ctx(9, [], []), Tree(tr.scopes + [Scope(ForInit, Some(4))] + [Scope(ForLoop, Some(8))], tr.events + [Declared(8, i, Pos(70, 18), Initialized, [])] + [Declared(8, c2, Pos(70, 27), Initialized, [])], 1));
    assert WalkExpr(Use(i, Pos(70, 36), false), Ctx(9, [], []), Tree(tr.scopes + [Scope(ForInit, Some(4))] + [Scope(ForLoop, Some(8))], tr.events + [Declared(8, i, Pos(70, 18), Initialized, [])] + [Declared(8, c2, Pos(70, 27), Initialized, [])], 1)) == Tree(tr.scopes + [Scope(ForInit, Some(4))] + [Scope(ForLoop, Some(8))], tr.events + [Declared(8, i, Pos(70, 18), Initialized, [])] + [Declared(8, c2, Pos(70, 27), Initialized, [])] + [Referenced(9, i, Pos(70, 36), false, false, [])], 1);
    WalkExprsOne(Declare(c2, Pos(70, 45), Initialized), Ctx(9, [], []), Tree(tr.scopes + [Scope(ForInit, Some(4))] + [Scope(ForLoop, Some(8))], tr.events + [Declared(8, i, Pos(70, 18), Initialized, [])] + [Declared(8, c2, Pos(70, 27), Initialized, [])] + [Referenced(9, i, Pos(70, 36), false, false, [])], 1));
    assert WalkExpr(Declare(c2, Pos(70, 45), Initialized), Ctx(9, [], []), Tree(tr.scopes + [Scope(ForInit, Some(4))] + [Scope(ForLoop, Some(8))], tr.events + [Declared(8, i, Pos(70, 18), Initialized, [])] + [Declared(8, c2, Pos(70, 27), Initialized, [])] + [Referenced(9, i, Pos(70, 36), false, false, [])], 1)) == Tree(tr.scopes + [Scope(ForInit, Some(4))] + [Scope(ForLoop, Some(8))], tr.events + [Declared(8, i, Pos(70, 18), Initialized, [])] + [Declared(8, c2, Pos(70, 27), Initialized, [])] + [Referenced(9, i, Pos(70, 36), false, false, [])] + [Declared(9, c2, Pos(70, 45), Initialized, [])], 1);
    assert WalkExprs([Use(i, Pos(70, 36), false)] + ([Declare(c2, Pos(70, 45), Initialized)]), Ctx(9, [], []), Tree(tr.scopes + [Scope(ForInit, Some(4))] + [Scope(ForLoop, Some(8))], tr.events + [Declared(8, i, Pos(70, 18), Initialized, [])] + [Declared(8, c2, Pos(70, 27), Initialized, [])], 1)) == Tree(tr.scopes + [Scope(ForInit, Some(4))] + [Scope(ForLoop, Some(8))], tr.events + [Declared(8, i, Pos(70, 18), Initialized, [])] + [Declared(8, c2, Pos(70, 27), Initialized, [])] + [Referenced(9, i, Pos(70, 36), false, false, [])] + [Declared(9, c2, Pos(70, 45), Initialized, [])], 1);
    assert [] + [1] == [1];
    assert WalkStmt(Exprs([]), Ctx(10, [1], []), Tree(tr.scopes + [Scope(ForInit, Some(4))] + [Scope(ForLoop, Some(8))] + [Scope(EmbeddedBody, Some(9))], tr.events + [Declared(8, i, Pos(70, 18), Initialized, [])] + [Declared(8, c2, Pos(70, 27), Initialized, [])] + [Referenced(9, i, Pos(70, 36), false, false, [])] + [Declared(9, c2, Pos(70, 45), Initialized, [])], 2)) == Tree(tr.scopes + [Scope(ForInit, Some(4))] + [Scope(ForLoop, Some(8))] + [Scope(EmbeddedBody, Some(9))], tr.events + [Declared(8, i, Pos(70, 18), Initialized, [])] + [Declared(8, c2, Pos(70, 27), Initialized, [])] + [Referenced(9, i, Pos(70, 36), false, false, [])] + [Declared(9, c2, Pos(70, 45), Initialized, [])], 2);
    assert WalkEmbedded(Exprs([]), Ctx(9, [1], []), Tree(tr.scopes + [Scope(ForInit, Some(4))] + [Scope(ForLoop, Some(8))], tr.events + [Declared(8, i, Pos(70, 18), Initialized, [])] + [Declared(8, c2, Pos(70, 27), Initialized, [])] + [Referenced(9, i, Pos(70, 36), false, false, [])] + [Declared(9, c2, Pos(70, 45), Initialized, [])], 2)) == Tree(tr.scopes + [Scope(ForInit, Some(4))] + [Scope(ForLoop, Some(8))] + [Scope(EmbeddedBody, Some(9))], tr.events + [Declared(8, i, Pos(70, 18), Initialized, [])] + [Declared(8, c2, Pos(70, 27), Initialized, [])] + [Referenced(9, i, Pos(70, 36), false, false, [])] + [Declared(9, c2, Pos(70, 45), Initialized, [])], 2);
    assert WalkStmt(For([Declare(i, Pos(70, 18), Initialized)] + ([Declare(c2, Pos(70, 27), Initialized)]), [Use(i, Pos(70, 36), false)] + ([Declare(c2, Pos(70, 45), Initialized)]), [], Exprs([])), Ctx(4, [], []), tr) == Tree(tr.scopes + [Scope(ForInit, Some(4))] + [Scope(ForLoop, Some(8))] + [Scope(EmbeddedBody, Some(9))], tr.events + [Declared(8, i, Pos(70, 18), Initialized, [])] + [Declared(8, c2, Pos(70, 27), Initialized, [])] + [Referenced(9, i, Pos(70, 36), false, false, [])] + [Declared(9, c2, Pos(70, 45), Initialized, [])], 2);
  }

  lemma {:induction false} Walk4(i: string, c1: string, c2: string, c3: string, c4: string, c5: string, c6: string, tr: Tree)
    requires |tr.scopes| == 11 && tr.arms == 2
    ensures WalkStmt(For([Declare(i, Pos(72, 18), Initialized)] + ([Declare(c3, Pos(72, 27), Initialized)]), [Use(i, Pos(72, 36), false)], [Use(i, Pos(72, 43), false)] + ([Declare(c3, Pos(72, 52), Initialized)]), Exprs([])), Ctx(4, [], []), tr) == Tree(tr.scopes + [Scope(ForInit, Some(4))] + [Scope(ForLoop, Some(11))] + [Scope(EmbeddedBody, Some(12))], tr.events + [Declared(11, i, Pos(72, 18), Initialized, [])] + [Declared(11, c3, Pos(72, 27), Initialized, [])] + [Referenced(12, i, Pos(72, 36), false, false, [])] + [Referenced(12, i, Pos(72, 43), false, false, [2])] + [Declared(12, c3, Pos(72, 52), Initialized, [2])], 3)
  {
    WalkExprsCons(Declare(i, Pos(72, 18), Initialized), [Declare(c3, Pos(72, 27), Initialized)], Ctx(11, [], []), Tree(tr.scopes + [Scope(ForInit, Some(4))] + [Scope(ForLoop, Some(11))], tr.events, 2));
    assert WalkExpr(Declare(i, Pos(72, 18), Initialized), Ctx(11, [], []), Tree(tr.scopes + [Scope(ForInit, Some(4))] + [Scope(ForLoop, Some(11))], tr.events, 2)) == Tree(tr.scopes + [Scope(ForInit, Some(4))] + [Scope(ForLoop, Some(11))], tr.events + [Declared(11, i, Pos(72, 18), Initialized, [])], 2);
    WalkExprsOne(Declare(c3, Pos(72, 27), Initialized), Ctx(11, [], []), Tree(tr.scopes + [Scope(ForInit, Some(4))] + [Scope(ForLoop, Some(11))], tr.events + [Declared(11, i, Pos(72, 18), Initialized, [])], 2));
    assert WalkExpr(Declare(c3, Pos(72, 27), Initialized), Ctx(11, [], []), Tree(tr.scopes + [Scope(ForInit, Some(4))] + [Scope(ForLoop, Some(11))], tr.events + [Declared(11, i, Pos(72, 18), Initialized, [])], 2)) == Tree(tr.scopes + [Scope(ForInit, Some(4))] + [Scope(ForLoop, Some(11))], tr.events + [Declared(11, i, Pos(72, 18), Initialized, [])] + [Declared(11, c3, Pos(72, 27), Initialized, [])], 2);
    assert WalkExprs([Declare(i, Pos(72, 18), Initialized)] + ([Declare(c3, Pos(72, 27), Initialized)]), Ctx(11, [], []), Tree(tr.scopes + [Scope(ForInit, Some(4))] + [Scope(ForLoop, Some(11))], tr.events, 2)) == Tree(tr.scopes + [Scope(ForInit, Some(4))] + [Scope(ForLoop, Some(11))], tr.events + [Declared(11, i, Pos(72, 18), Initialized, [])] + [Declared(11, c3, Pos(72, 27), Initialized, [])], 2);
    WalkExprsOne(Use(i, Pos(72, 36), false), Ctx(12, [], []), Tree(tr.scopes + [Scope(ForInit, Some(4))] + [Scope(ForLoop, Some(11))], tr.events + [Declared(11, i, Pos(72, 18), Initialized, [])] + [Declared(11, c3, Pos(72, 27), Initialized, [])], 2));
    assert WalkExpr(Use(i, Pos(72, 36), false), Ctx(12, [], []), Tree(tr.scopes + [Scope(ForInit, Some(4))] + [Scope(ForLoop, Some(11))], tr.events + [Declared(11, i, Pos(72, 18), Initialized, [])] + [Declared(11, c3, Pos(72, 27), Initialized, [])], 2)) == Tree(tr.scopes + [Scope(ForInit, Some(4))] + [Scope(ForLoop, Some(11))], tr.events + [Declared(11, i, Pos(72, 18), Initialized, [])] + [Declared(11, c3, Pos(72, 27), Initialized, [])] + [Referenced(12, i, Pos(72, 36), false, false, [])], 2);
    assert WalkExprs([Use(i, Pos(72, 36), false)], Ctx(12, [], []), Tree(tr.scopes + [Scope(ForInit, Some(4))] + [Scope(ForLoop, Some(11))], tr.events + [Declared(11, i, Pos(72, 18), Initialized, [])] + [Declared(11, c3, Pos(72, 27), Initialized, [])], 2)) == Tree(tr.scopes + [Scope(ForInit, Some(4))] + [Scope(ForLoop, Some(11))], tr.events + [Declared(11, i, Pos(72, 18), Initialized, [])] + [Declared(11, c3, Pos(72, 27), Initialized, [])] + [Referenced(12, i, Pos(72, 36), false, false, [])], 2);
    assert [] + [2] == [2];
    assert WalkStmt(Exprs([]), Ctx(13, [2], []), Tree(tr.scopes + [Scope(ForInit, Some(4))] + [Scope(ForLoop, Some(11))] + [Scope(EmbeddedBody, Some(12))], tr.events + [Declared(11, i, Pos(72, 18), Initialized, [])] + [Declared(11, c3, Pos(72, 27), Initialized, [])] + [Referenced(12, i, Pos(72, 36), false, false, [])], 3)) == Tree(tr.scopes + [Scope(ForInit, Some(4))] + [Scope(ForLoop, Some(11))] + [Scope(EmbeddedBody, Some(12))], tr.events + [Declared(11, i, Pos(72, 18), Initialized, [])] + [Declared(11, c3, Pos(72, 27), Initialized, [])] + [Referenced(12, i, Pos(72, 36), false, false, [])], 3);
    assert WalkEmbedded(Exprs([]), Ctx(12, [2], []), Tree(tr.scopes + [Scope(ForInit, Some(4))] + [Scope(ForLoop, Some(11))], tr.events + [Declared(11, i, Pos(72, 18), Initialized, [])] + [Declared(11, c3, Pos(72, 27), Initialized, [])] + [Referenced(12, i, Pos(72, 36), false, false, [])], 3)) == Tree(tr.scopes + [Scope(ForInit, Some(4))] + [Scope(ForLoop, Some(11))] + [Scope(EmbeddedBody, Some(12))], tr.events + [Declared(11, i, Pos(72, 18), Initialized, [])] + [Declared(11, c3, Pos(72, 27), Initialized, [])] + [Referenced(12, i, Pos(72, 36), false, false, [])], 3);
    WalkExprsCons(Use(i, Pos(72, 43), false), [Declare(c3, Pos(72, 52), Initialized)], Ctx(12, [2], []), Tree(tr.scopes + [Scope(ForInit, Some(4))] + [Scope(ForLoop, Some(11))] + [Scope(EmbeddedBody, Some(12))], tr.events + [Declared(11, i, Pos(72, 18), Initialized, [])] + [Declared(11, c3, Pos(72, 27), Initialized, [])] + [Referenced(12, i, Pos(72, 36), false, false, [])], 3));
    assert WalkExpr(Use(i, Pos(72, 43), false), Ctx(12, [2], []), Tree(tr.scopes + [Scope(ForInit, Some(4))] + [Scope(ForLoop, Some(11))] + [Scope(EmbeddedBody, Some(12))], tr.events + [Declared(11, i, Pos(72, 18), Initialized, [])] + [Declared(11, c3, Pos(72, 27), Initialized, [])] + [Referenced(12, i, Pos(72, 36), false, false, [])], 3)) == Tree(tr.scopes + [Scope(ForInit, Some(4))] + [Scope(ForLoop, Some(11))] + [Scope(EmbeddedBody, Some(12))], tr.events + [Declared(11, i, Pos(72, 18), Initialized, [])] + [Declared(11, c3, Pos(72, 27), Initialized, [])] + [Referenced(12, i, Pos(72, 36), false, false, [])] + [Referenced(12, i, Pos(72, 43), false, false, [2])], 3);
    WalkExprsOne(Declare(c3, Pos(72, 52), Initialized), Ctx(12, [2], []), Tree(tr.scopes + [Scope(ForInit, Some(4))] + [Scope(ForLoop, Some(11))] + [Scope(EmbeddedBody, Some(12))], tr.events + [Declared(11, i, Pos(72, 18), Initialized, [])] + [Declared(11, c3, Pos(72, 27), Initialized, [])] + [Referenced(12, i, Pos(72, 36), false, false, [])] + [Referenced(12, i, Pos(72, 43), false, false, [2])], 3));
    assert WalkExpr(Declare(c3, Pos(72, 52), Initialized), Ctx(12, [2], []), Tree(tr.scopes + [Scope(ForInit, Some(4))] + [Scope(ForLoop, Some(11))] + [Scope(EmbeddedBody, Some(12))], tr.events + [Declared(11, i, Pos(72, 18), Initialized, [])] + [Declared(11, c3, Pos(72, 27), Initialized, [])] + [Referenced(12, i, Pos(72, 36), false, false, [])] + [Referenced(12, i, Pos(72, 43), false, false, [2])], 3)) == Tree(tr.scopes + [Scope(ForInit, Some(4))] + [Scope(ForLoop, Some(11))] + [Scope(EmbeddedBody, Some(12))], tr.events + [Declared(11, i, Pos(72, 18), Initialized, [])] + [Declared(11, c3, Pos(72, 27), Initialized, [])] + [Referenced(12, i, Pos(72, 36), false, false, [])] + [Referenced(12, i, Pos(72, 43), false, false, [2])] + [Declared(12, c3, Pos(72, 52), Initialized, [2])], 3);
    assert WalkExprs([Use(i, Pos(72, 43), false)] + ([Declare(c3, Pos(72, 52), Initialized)]), Ctx(12, [2], []), Tree(tr.scopes + [Scope(ForInit, Some(4))] + [Scope(ForLoop, Some(11))] + [Scope(EmbeddedBody, Some(12))], tr.events + [Declared(11, i, Pos(72, 18), Initialized, [])] + [Declared(11, c3, Pos(72, 27), Initialized, [])] + [Referenced(12, i, Pos(72, 36), false, false, [])], 3)) == Tree(tr.scopes + [Scope(ForInit, Some(4))] + [Scope(ForLoop, Some(11))] + [Scope(EmbeddedBody, Some(12))], tr.events + [Declared(11, i, Pos(72, 18), Initialized, [])] + [Declared(11, c3, Pos(72, 27), Initialized, [])] + [Referenced(12, i, Pos(72, 36), false, false, [])] + [Referenced(12, i, Pos(72, 43), false, false, [2])] + [Declared(12, c3, Pos(72, 52), Initialized, [2])], 3);
    assert WalkStmt(For([Declare(i, Pos(72, 18), Initialized)] + ([Declare(c3, Pos(72, 27), Initialized)]), [Use(i, Pos(72, 36), false)], [Use(i, Pos(72, 43), false)] + ([Declare(c3, Pos(72, 52), Initialized)]), Exprs([])), Ctx(4, [], []), tr) == Tree(tr.scopes + [Scope(ForInit, Some(4))] + [Scope(ForLoop, Some(11))] + [Scope(EmbeddedBody, Some(12))], tr.events + [Declared(11, i, Pos(72, 18), Initialized, [])] + [Declared(11, c3, Pos(72, 27), Initialized, [])] + [Referenced(12, i, Pos(72, 36), false, false, [])] + [Referenced(12, i, Pos(72, 43), false, false, [2])] + [Declared(12, c3, Pos(72, 52), Initialized, [2])], 3);
  }

  lemma {:induction false} Walk5(i: string, c1: string, c2: string, c3: string, c4: string, c5: string, c6: string, tr: Tree)
    requires |tr.scopes| == 14 && tr.arms == 3
    ensures WalkStmt(For([Declare(i, Pos(74, 18), Initialized)] + ([Declare(c4, Pos(74, 27), Initialized)]), [Use(i, Pos(74, 36), false)], [Use(i, Pos(74, 43), false)], Exprs([Call([Argument([Declare(c4, Pos(75, 42), Initialized)])])])), Ctx(4, [], []), tr) == Tree(tr.scopes + [Scope(ForInit, Some(4))] + [Scope(ForLoop, Some(14))] + [Scope(EmbeddedBody, Some(15))], tr.events + [Declared(14, i, Pos(74, 18), Initialized, [])] + [Declared(14, c4, Pos(74, 27), Initialized, [])] + [Referenced(15, i, Pos(74, 36), false, false, [])] + [Declared(16, c4, Pos(75, 42), Initialized, [3])] + [OutAssigned(16, [], [3])] + [Referenced(15, i, Pos(74, 43), false, false, [3])], 4)
  {
    WalkExprsCons(Declare(i, Pos(74, 18), Initialized), [Declare(c4, Pos(74, 27), Initialized)], Ctx(14, [], []), Tree(tr.scopes + [Scope(ForInit, Some(4))] + [Scope(ForLoop, Some(14))], tr.events, 3));
    assert WalkExpr(Declare(i, Pos(74, 18), Initialized), Ctx(14, [], []), Tree(tr.scopes + [Scope(ForInit, Some(4))] + [Scope(ForLoop, Some(14))], tr.events, 3)) == Tree(tr.scopes + [Scope(ForInit, Some(4))] + [Scope(ForLoop, Some(14))], tr.events + [Declared(14, i, Pos(74, 18), Initialized, [])], 3);
    WalkExprsOne(Declare(c4, Pos(74, 27), Initialized), Ctx(14, [], []), Tree(tr.scopes + [Scope(ForInit, Some(4))] + [Scope(ForLoop, Some(14))], tr.events + [Declared(14, i, Pos(74, 18), Initialized, [])], 3));
    assert WalkExpr(Declare(c4, Pos(74, 27), Initialized), Ctx(14, [], []), Tree(tr.scopes + [Scope(ForInit, Some(4))] + [Scope(ForLoop, Some(14))], tr.events + [Declared(14, i, Pos(74, 18), Initialized, [])], 3)) == Tree(tr.scopes + [Scope(ForInit, Some(4))] + [Scope(ForLoop, Some(14))], tr.events + [Declared(14, i, Pos(74, 18), Initialized, [])] + [Declared(14, c4, Pos(74, 27), Initialized, [])], 3);
    assert WalkExprs([Declare(i, Pos(74, 18), Initialized)] + ([Declare(c4, Pos(74, 27), Initialized)]), Ctx(14, [], []), Tree(tr.scopes + [Scope(ForInit, Some(4))] + [Scope(ForLoop, Some(14))], tr.events, 3)) == Tree(tr.scopes + [Scope(ForInit, Some(4))] + [Scope(ForLoop, Some(14))], tr.events + [Declared(14, i, Pos(74, 18), Initialized, [])] + [Declared(14, c4, Pos(74, 27), Initialized, [])], 3);
    WalkExprsOne(Use(i, Pos(74, 36), false), Ctx(15, [], []), Tree(tr.scopes + [Scope(ForInit, Some(4))] + [Scope(ForLoop, Some(14))], tr.events + [Declared(14, i, Pos(74, 18), Initialized, [])] + [Declared(14, c4, Pos(74, 27), Initialized, [])], 3));
    assert WalkExpr(Use(i, Pos(74, 36), false), Ctx(15, [], []), Tree(tr.scopes + [Scope(ForInit, Some(4))] + [Scope(ForLoop, Some(14))], tr.events + [Declared(14, i, Pos(74, 18), Initialized, [])] + [Declared(14, c4, Pos(74, 27), Initialized, [])], 3)) == Tree(tr.scopes + [Scope(ForInit, Some(4))] + [Scope(ForLoop, Some(14))], tr.events + [Declared(14, i, Pos(74, 18), Initialized, [])] + [Declared(14, c4, Pos(74, 27), Initialized, [])] + [Referenced(15, i, Pos(74, 36), false, false, [])], 3);
    assert WalkExprs([Use(i, Pos(74, 36), false)], Ctx(15, [], []), Tree(tr.scopes + [Scope(ForInit, Some(4))] + [Scope(ForLoop, Some(14))], tr.events + [Declared(14, i, Pos(74, 18), Initialized, [])] + [Declared(14, c4, Pos(74, 27), Initialized, [])], 3)) == Tree(tr.scopes + [Scope(ForInit, Some(4))] + [Scope(ForLoop, Some(14))], tr.events + [Declared(14, i, Pos(74, 18), Initialized, [])] + [Declared(14, c4, Pos(74, 27), Initialized, [])] + [Referenced(15, i, Pos(74, 36), false, false, [])], 3);
    assert [] + [3] == [3];
    WalkExprsOne(Call([Argument([Declare(c4, Pos(75, 42), Initialized)])]), Ctx(16, [3], []), Tree(tr.scopes + [Scope(ForInit, Some(4))] + [Scope(ForLoop, Some(14))] + [Scope(EmbeddedBody, Some(15))], tr.events + [Declared(14, i, Pos(74, 18), Initialized, [])] + [Declared(14, c4, Pos(74, 27), Initialized, [])] + [Referenced(15, i, Pos(74, 36), false, false, [])], 4));
    assert OutNames([]) == [];
    WalkArgsOne(Argument([Declare(c4, Pos(75, 42), Initialized)]), [], Ctx(16, [3], []), Tree(tr.scopes + [Scope(ForInit, Some(4))] + [Scope(ForLoop, Some(14))] + [Scope(EmbeddedBody, Some(15))], tr.events + [Declared(14, i, Pos(74, 18), Initialized, [])] + [Declared(14, c4, Pos(74, 27), Initialized, [])] + [Referenced(15, i, Pos(74, 36), false, false, [])], 4));
    WalkExprsOne(Declare(c4, Pos(75, 42), Initialized), Ctx(16, [3], []), Tree(tr.scopes + [Scope(ForInit, Some(4))] + [Scope(ForLoop, Some(14))] + [Scope(EmbeddedBody, Some(15))], tr.events + [Declared(14, i, Pos(74, 18), Initialized, [])] + [Declared(14, c4, Pos(74, 27), Initialized, [])] + [Referenced(15, i, Pos(74, 36), false, false, [])], 4));
    assert WalkExpr(Declare(c4, Pos(75, 42), Initialized), Ctx(16, [3], []), Tree(tr.scopes + [Scope(ForInit, Some(4))] + [Scope(ForLoop, Some(14))] + [Scope(EmbeddedBody, Some(15))], tr.events + [Declared(14, i, Pos(74, 18), Initialized, [])] + [Declared(14, c4, Pos(74, 27), Initialized, [])] + [Referenced(15, i, Pos(74, 36), false, false, [])], 4)) == Tree(tr.scopes + [Scope(ForInit, Some(4))] + [Scope(ForLoop, Some(14))] + [Scope(EmbeddedBody, Some(15))], tr.events + [Declared(14, i, Pos(74, 18), Initialized, [])] + [Declared(14, c4, Pos(74, 27), Initialized, [])] + [Referenced(15, i, Pos(74, 36), false, false, [])] + [Declared(16, c4, Pos(75, 42), Initialized, [3])], 4);
    assert WalkExprs([Declare(c4, Pos(75, 42), Initialized)], Ctx(16, [3], []), Tree(tr.scopes + [Scope(ForInit, Some(4))] + [Scope(ForLoop, Some(14))] + [Scope(EmbeddedBody, Some(15))], tr.events + [Declared(14, i, Pos(74, 18), Initialized, [])] + [Declared(14, c4, Pos(74, 27), Initialized, [])] + [Referenced(15, i, Pos(74, 36), false, false, [])], 4)) == Tree(tr.scopes + [Scope(ForInit, Some(4))] + [Scope(ForLoop, Some(14))] + [Scope(EmbeddedBody, Some(15))], tr.events + [Declared(14, i, Pos(74, 18), Initialized, [])] + [Declared(14, c4, Pos(74, 27), Initialized, [])] + [Referenced(15, i, Pos(74, 36), false, false, [])] + [Declared(16, c4, Pos(75, 42), Initialized, [3])], 4);
    OutNamesOfOne(Declare(c4, Pos(75, 42), Initialized));
    OutNamesSnoc([], Argument([Declare(c4, Pos(75, 42), Initialized)]));
    assert WalkArgs([Argument([Declare(c4, Pos(75, 42), Initialized)])], [], Ctx(16, [3], []), Tree(tr.scopes + [Scope(ForInit, Some(4))] + [Scope(ForLoop, Some(14))] + [Scope(EmbeddedBody, Some(15))], tr.events + [Declared(14, i, Pos(74, 18), Initialized, [])] + [Declared(14, c4, Pos(74, 27), Initialized, [])] + [Referenced(15, i, Pos(74, 36), false, false, [])], 4)) == Tree(tr.scopes + [Scope(ForInit, Some(4))] + [Scope(ForLoop, Some(14))] + [Scope(EmbeddedBody, Some(15))], tr.events + [Declared(14, i, Pos(74, 18), Initialized, [])] + [Declared(14, c4, Pos(74, 27), Initialized, [])] + [Referenced(15, i, Pos(74, 36), false, false, [])] + [Declared(16, c4, Pos(75, 42), Initialized, [3])], 4);
    assert OutNames([Argument([Declare(c4, Pos(75, 42), Initialized)])]) == [];
    assert WalkExpr(Call([Argument([Declare(c4, Pos(75, 42), Initialized)])]), Ctx(16, [3], []), Tree(tr.scopes + [Scope(ForInit, Some(4))] + [Scope(ForLoop, Some(14))] + [Scope(EmbeddedBody, Some(15))], tr.events + [Declared(14, i, Pos(74, 18), Initialized, [])] + [Declared(14, c4, Pos(74, 27), Initialized, [])] + [Referenced(15, i, Pos(74, 36), false, false, [])], 4)) == Tree(tr.scopes + [Scope(ForInit, Some(4))] + [Scope(ForLoop, Some(14))] + [Scope(EmbeddedBody, Some(15))], tr.events + [Declared(14, i, Pos(74, 18), Initialized, [])] + [Declared(14, c4, Pos(74, 27), Initialized, [])] + [Referenced(15, i, Pos(74, 36), false, false, [])] + [Declared(16, c4, Pos(75, 42), Initialized, [3])] + [OutAssigned(16, [], [3])], 4);
    assert WalkExprs([Call([Argument([Declare(c4, Pos(75, 42), Initialized)])])], Ctx(16, [3], []), Tree(tr.scopes + [Scope(ForInit, Some(4))] + [Scope(ForLoop, Some(14))] + [Scope(EmbeddedBody, Some(15))], tr.events + [Declared(14, i, Pos(74, 18), Initialized, [])] + [Declared(14, c4, Pos(74, 27), Initialized, [])] + [Referenced(15, i, Pos(74, 36), false, false, [])], 4)) == Tree(tr.scopes + [Scope(ForInit, Some(4))] + [Scope(ForLoop, Some(14))] + [Scope(EmbeddedBody, Some(15))], tr.events + [Declared(14, i, Pos(74, 18), Initialized, [])] + [Declared(14, c4, Pos(74, 27), Initialized, [])] + [Referenced(15, i, Pos(74, 36), false, false, [])] + [Declared(16, c4, Pos(75, 42), Initialized, [3])] + [OutAssigned(16, [], [3])], 4);
    assert WalkStmt(Exprs([Call([Argument([Declare(c4, Pos(75, 42), Initialized)])])]), Ctx(16, [3], []), Tree(tr.scopes + [Scope(ForInit, Some(4))] + [Scope(ForLoop, Some(14))] + [Scope(EmbeddedBody, Some(15))], tr.events + [Declared(14, i, Pos(74, 18), Initialized, [])] + [Declared(14, c4, Pos(74, 27), Initialized, [])] + [Referenced(15, i, Pos(74, 36), false, false, [])], 4)) == Tree(tr.scopes + [Scope(ForInit, Some(4))] + [Scope(ForLoop, Some(14))] + [Scope(EmbeddedBody, Some(15))], tr.events + [Declared(14, i, Pos(74, 18), Initialized, [])] + [Declared(14, c4, Pos(74, 27), Initialized, [])] + [Referenced(15, i, Pos(74, 36), false, false, [])] + [Declared(16, c4, Pos(75, 42), Initialized, [3])] + [OutAssigned(16, [], [3])], 4);
    assert WalkEmbedded(Exprs([Call([Argument([Declare(c4, Pos(75, 42), Initialized)])])]), Ctx(15, [3], []), Tree(tr.scopes + [Scope(ForInit, Some(4))] + [Scope(ForLoop, Some(14))], tr.events + [Declared(14, i, Pos(74, 18), Initialized, [])] + [Declared(14, c4, Pos(74, 27), Initialized, [])] + [Referenced(15, i, Pos(74, 36), false, false, [])], 4)) == Tree(tr.scopes + [Scope(ForInit, Some(4))] + [Scope(ForLoop, Some(14))] + [Scope(EmbeddedBody, Some(15))], tr.events + [Declared(14, i, Pos(74, 18), Initialized, [])] + [Declared(14, c4, Pos(74, 27), Initialized, [])] + [Referenced(15, i, Pos(74, 36), false, false, [])] + [Declared(16, c4, Pos(75, 42), Initialized, [3])] + [OutAssigned(16, [], [3])], 4);
    WalkExprsOne(Use(i, Pos(74, 43), false), Ctx(15, [3], []), Tree(tr.scopes + [Scope(ForInit, Some(4))] + [Scope(ForLoop, Some(14))] + [Scope(EmbeddedBody, Some(15))], tr.events + [Declared(14, i, Pos(74, 18), Initialized, [])] + [Declared(14, c4, Pos(74, 27), Initialized, [])] + [Referenced(15, i, Pos(74, 36), false, false, [])] + [Declared(16, c4, Pos(75, 42), Initialized, [3])] + [OutAssigned(16, [], [3])], 4));
    assert WalkExpr(Use(i, Pos(74, 43), false), Ctx(15, [3], []), Tree(tr.scopes + [Scope(ForInit, Some(4))] + [Scope(ForLoop, Some(14))] + [Scope(EmbeddedBody, Some(15))], tr.events + [Declared(14, i, Pos(74, 18), Initialized, [])] + [Declared(14, c4, Pos(74, 27), Initialized, [])] + [Referenced(15, i, Pos(74, 36), false, false, [])] + [Declared(16, c4, Pos(75, 42), Initialized, [3])] + [OutAssigned(16, [], [3])], 4)) == Tree(tr.scopes + [Scope(ForInit, Some(4))] + [Scope(ForLoop, Some(14))] + [Scope(EmbeddedBody, Some(15))], tr.events + [Declared(14, i, Pos(74, 18), Initialized, [])] + [Declared(14, c4, Pos(74, 27), Initialized, [])] + [Referenced(15, i, Pos(74, 36), false, false, [])] + [Declared(16, c4, Pos(75, 42), Initialized, [3])] + [OutAssigned(16, [], [3])] + [Referenced(15, i, Pos(74, 43), false, false, [3])], 4);
    assert WalkExprs([Use(i, Pos(74, 43), false)], Ctx(15, [3], []), Tree(tr.scopes + [Scope(ForInit, Some(4))] + [Scope(ForLoop, Some(14))] + [Scope(EmbeddedBody, Some(15))], tr.events + [Declared(14, i, Pos(74, 18), Initialized, [])] + [Declared(14, c4, Pos(74, 27), Initialized, [])] + [Referenced(15, i, Pos(74, 36), false, false, [])] + [Declared(16, c4, Pos(75, 42), Initialized, [3])] + [OutAssigned(16, [], [3])], 4)) == Tree(tr.scopes + [Scope(ForInit, Some(4))] + [Scope(ForLoop, Some(14))] + [Scope(EmbeddedBody, Some(15))], tr.events + [Declared(14, i, Pos(74, 18), Initialized, [])] + [Declared(14, c4, Pos(74, 27), Initialized, [])] + [Referenced(15, i, Pos(74, 36), false, false, [])] + [Declared(16, c4, Pos(75, 42), Initialized, [3])] + [OutAssigned(16, [], [3])] + [Referenced(15, i, Pos(74, 43), false, false, [3])], 4);
    assert WalkStmt(For([Declare(i, Pos(74, 18), Initialized)] + ([Declare(c4, Pos(74, 27), Initialized)]), [Use(i, Pos(74, 36), false)], [Use(i, Pos(74, 43), false)], Exprs([Call([Argument([Declare(c4, Pos(75, 42), Initialized)])])])), Ctx(4, [], []), tr) == Tree(tr.scopes + [Scope(ForInit, Some(4))] + [Scope(ForLoop, Some(14))] + [Scope(EmbeddedBody, Some(15))], tr.events + [Declared(14, i, Pos(74, 18), Initialized, [])] + [Declared(14, c4, Pos(74, 27), Initialized, [])] + [Referenced(15, i, Pos(74, 36), false, false, [])] + [Declared(16, c4, Pos(75, 42), Initialized, [3])] + [OutAssigned(16, [], [3])] + [Referenced(15, i, Pos(74, 43), false, false, [3])], 4);
  }

  lemma {:induction false} Stmts1(i: string, c1: string, c2: string, c3: string, c4: string, c5: string, c6: string, tr: Tree, rest: seq<Stmt>)
    requires |tr.scopes| == 5 && tr.arms == 0
    ensures WalkStmts([For([Declare(i, Pos(68, 18), Initialized)] + ([Declare(c1, Pos(68, 27), Initialized)] + ([Declare(c1, Pos(68, 42), Initialized)])), [Use(i, Pos(68, 51), false)], [], Exprs([]))] + ([For([Declare(i, Pos(70, 18), Initialized)] + ([Declare(c2, Pos(70, 27), Initialized)]), [Use(i, Pos(70, 36), false)] + ([Declare(c2, Pos(70, 45), Initialized)]), [], Exprs([]))] + ([For([Declare(i, Pos(72, 18), Initialized)] + ([Declare(c3, Pos(72, 27), Initialized)]), [Use(i, Pos(72, 36), false)], [Use(i, Pos(72, 43), false)] + ([Declare(c3, Pos(72, 52), Initialized)]), Exprs([]))] + ([For([Declare(i, Pos(74, 18), Initialized)] + ([Declare(c4, Pos(74, 27), Initialized)]), [Use(i, Pos(74, 36), false)], [Use(i, Pos(74, 43), false)], Exprs([Call([Argument([Declare(c4, Pos(75, 42), Initialized)])])]))] + (rest)))), Ctx(4, [], []), tr) == WalkStmts(rest, Ctx(4, [], []), Tree(tr.scopes + [Scope(ForInit, Some(4))] + [Scope(ForLoop, Some(5))] + [Scope(EmbeddedBody, Some(6))] + [Scope(ForInit, Some(4))] + [Scope(ForLoop, Some(8))] + [Scope(EmbeddedBody, Some(9))] + [Scope(ForInit, Some(4))] + [Scope(ForLoop, Some(11))] + [Scope(EmbeddedBody, Some(12))] + [Scope(ForInit, Some(4))] + [Scope(ForLoop, Some(14))] + [Scope(EmbeddedBody, Some(15))], tr.events + [Declared(5, i, Pos(68, 18), Initialized, [])] + [Declared(5, c1, Pos(68, 27), Initialized, [])] + [Declared(5, c1, Pos(68, 42), Initialized, [])] + [Referenced(6, i, Pos(68, 51), false, false, [])] + [Declared(8, i, Pos(70, 18), Initialized, [])] + [Declared(8, c2, Pos(70, 27), Initialized, [])] + [Referenced(9, i, Pos(70, 36), false, false, [])] + [Declared(9, c2, Pos(70, 45), Initialized, [])] + [Declared(11, i, Pos(72, 18), Initialized, [])] + [Declared(11, c3, Pos(72, 27), Initialized, [])] + [Referenced(12, i, Pos(72, 36), false, false, [])] + [Referenced(12, i, Pos(72, 43), false, false, [2])] + [Declared(12, c3, Pos(72, 52), Initialized, [2])] + [Declared(14, i, Pos(74, 18), Initialized, [])] + [Declared(14, c4, Pos(74, 27), Initialized, [])] + [Referenced(15, i, Pos(74, 36), false, false, [])] + [Declared(16, c4, Pos(75, 42), Initialized, [3])] + [OutAssigned(16, [], [3])] + [Referenced(15, i, Pos(74, 43), false, false, [3])], 4))
  {
    WalkStmtsCons(For([Declare(i, Pos(68, 18), Initialized)] + ([Declare(c1, Pos(68, 27), Initialized)] + ([Declare(c1, Pos(68, 42), Initialized)])), [Use(i, Pos(68, 51), false)], [], Exprs([])), [For([Declare(i, Pos(70, 18), Initialized)] + ([Declare(c2, Pos(70, 27), Initialized)]), [Use(i, Pos(70, 36), false)] + ([Declare(c2, Pos(70, 45), Initialized)]), [], Exprs([]))] + ([For([Declare(i, Pos(72, 18), Initialized)] + ([Declare(c3, Pos(72, 27), Initialized)]), [Use(i, Pos(72, 36), false)], [Use(i, Pos(72, 43), false)] + ([Declare(c3, Pos(72, 52), Initialized)]), Exprs([]))] + ([For([Declare(i, Pos(74, 18), Initialized)] + ([Declare(c4, Pos(74, 27), Initialized)]), [Use(i, Pos(74, 36), false)], [Use(i, Pos(74, 43), false)], Exprs([Call([Argument([Declare(c4, Pos(75, 42), Initialized)])])]))] + (rest))), Ctx(4, [], []), tr);
    Walk2(i, c1, c2, c3, c4, c5, c6, tr);
    assert WalkStmt(For([Declare(i, Pos(68, 18), Initialized)] + ([Declare(c1, Pos(68, 27), Initialized)] + ([Declare(c1, Pos(68, 42), Initialized)])), [Use(i, Pos(68, 51), false)], [], Exprs([])), Ctx(4, [], []), tr) == Tree(tr.scopes + [Scope(ForInit, Some(4))] + [Scope(ForLoop, Some(5))] + [Scope(EmbeddedBody, Some(6))], tr.events + [Declared(5, i, Pos(68, 18), Initialized, [])] + [Declared(5, c1, Pos(68, 27), Initialized, [])] + [Declared(5, c1, Pos(68, 42), Initialized, [])] + [Referenced(6, i, Pos(68, 51), false, false, [])], 1);
    WalkStmtsCons(For([Declare(i, Pos(70, 18), Initialized)] + ([Declare(c2, Pos(70, 27), Initialized)]), [Use(i, Pos(70, 36), false)] + ([Declare(c2, Pos(70, 45), Initialized)]), [], Exprs([])), [For([Declare(i, Pos(72, 18), Initialized)] + ([Declare(c3, Pos(72, 27), Initialized)]), [Use(i, Pos(72, 36), false)], [Use(i, Pos(72, 43), false)] + ([Declare(c3, Pos(72, 52), Initialized)]), Exprs([]))] + ([For([Declare(i, Pos(74, 18), Initialized)] + ([Declare(c4, Pos(74, 27), Initialized)]), [Use(i, Pos(74, 36), false)], [Use(i, Pos(74, 43), false)], Exprs([Call([Argument([Declare(c4, Pos(75, 42), Initialized)])])]))] + (rest)), Ctx(4, [], []), Tree(tr.scopes + [Scope(ForInit, Some(4))] + [Scope(ForLoop, Some(5))] + [Scope(EmbeddedBody, Some(6))], tr.events + [Declared(5, i, Pos(68, 18), Initialized, [])] + [Declared(5, c1, Pos(68, 27), Initialized, [])] + [Declared(5, c1, Pos(68, 42), Initialized, [])] + [Referenced(6, i, Pos(68, 51), false, false, [])], 1));
    Walk3(i, c1, c2, c3, c4, c5, c6, Tree(tr.scopes + [Scope(ForInit, Some(4))] + [Scope(ForLoop, Some(5))] + [Scope(EmbeddedBody, Some(6))], tr.events + [Declared(5, i, Pos(68, 18), Initialized, [])] + [Declared(5, c1, Pos(68, 27), Initialized, [])] + [Declared(5, c1, Pos(68, 42), Initialized, [])] + [Referenced(6, i, Pos(68, 51), false, false, [])], 1));
    assert WalkStmt(For([Declare(i, Pos(70, 18), Initialized)] + ([Declare(c2, Pos(70, 27), Initialized)]), [Use(i, Pos(70, 36), false)] + ([Declare(c2, Pos(70, 45), Initialized)]), [], Exprs([])), Ctx(4, [], []), Tree(tr.scopes + [Scope(ForInit, Some(4))] + [Scope(ForLoop, Some(5))] + [Scope(EmbeddedBody, Some(6))], tr.events + [Declared(5, i, Pos(68, 18), Initialized, [])] + [Declared(5, c1, Pos(68, 27), Initialized, [])] + [Declared(5, c1, Pos(68, 42), Initialized, [])] + [Referenced(6, i, Pos(68, 51), false, false, [])], 1)) == Tree(tr.scopes + [Scope(ForInit, Some(4))] + [Scope(ForLoop, Some(5))] + [Scope(EmbeddedBody, Some(6))] + [Scope(ForInit, Some(4))] + [Scope(ForLoop, Some(8))] + [Scope(EmbeddedBody, Some(9))], tr.events + [Declared(5, i, Pos(68, 18), Initialized, [])] + [Declared(5, c1, Pos(68, 27), Initialized, [])] + [Declared(5, c1, Pos(68, 42), Initialized, [])] + [Referenced(6, i, Pos(68, 51), false, false, [])] + [Declared(8, i, Pos(70, 18), Initialized, [])] + [Declared(8, c2, Pos(70, 27), Initialized, [])] + [Referenced(9, i, Pos(70, 36), false, false, [])] + [Declared(9, c2, Pos(70, 45), Initialized, [])], 2);
    WalkStmtsCons(For([Declare(i, Pos(72, 18), Initialized)] + ([Declare(c3, Pos(72, 27), Initialized)]), [Use(i, Pos(72, 36), false)], [Use(i, Pos(72, 43), false)] + ([Declare(c3, Pos(72, 52), Initialized)]), Exprs([])), [For([Declare(i, Pos(74, 18), Initialized)] + ([Declare(c4, Pos(74, 27), Initialized)]), [Use(i, Pos(74, 36), false)], [Use(i, Pos(74, 43), false)], Exprs([Call([Argument([Declare(c4, Pos(75, 42), Initialized)])])]))] + (rest), Ctx(4, [], []), Tree(tr.scopes + [Scope(ForInit, Some(4))] + [Scope(ForLoop, Some(5))] + [Scope(EmbeddedBody, Some(6))] + [Scope(ForInit, Some(4))] + [Scope(ForLoop, Some(8))] + [Scope(EmbeddedBody, Some(9))], tr.events + [Declared(5, i, Pos(68, 18), Initialized, [])] + [Declared(5, c1, Pos(68, 27), Initialized, [])] + [Declared(5, c1, Pos(68, 42), Initialized, [])] + [Referenced(6, i, Pos(68, 51), false, false, [])] + [Declared(8, i, Pos(70, 18), Initialized, [])] + [Declared(8, c2, Pos(70, 27), Initialized, [])] + [Referenced(9, i, Pos(70, 36), false, false, [])] + [Declared(9, c2, Pos(70, 45), Initialized, [])], 2));
    Walk4(i, c1, c2, c3, c4, c5, c6, Tree(tr.scopes + [Scope(ForInit, Some(4))] + [Scope(ForLoop, Some(5))] + [Scope(EmbeddedBody, Some(6))] + [Scope(ForInit, Some(4))] + [Scope(ForLoop, Some(8))] + [Scope(EmbeddedBody, Some(9))], tr.events + [Declared(5, i, Pos(68, 18), Initialized, [])] + [Declared(5, c1, Pos(68, 27), Initialized, [])] + [Declared(5, c1, Pos(68, 42), Initialized, [])] + [Referenced(6, i, Pos(68, 51), false, false, [])] + [Declared(8, i, Pos(70, 18), Initialized, [])] + [Declared(8, c2, Pos(70, 27), Initialized, [])] + [Referenced(9, i, Pos(70, 36), false, false, [])] + [Declared(9, c2, Pos(70, 45), Initialized, [])], 2));
    assert WalkStmt(For([Declare(i, Pos(72, 18), Initialized)] + ([Declare(c3, Pos(72, 27), Initialized)]), [Use(i, Pos(72, 36), false)], [Use(i, Pos(72, 43), false)] + ([Declare(c3, Pos(72, 52), Initialized)]), Exprs([])), Ctx(4, [], []), Tree(tr.scopes + [Scope(ForInit, Some(4))] + [Scope(ForLoop, Some(5))] + [Scope(EmbeddedBody, Some(6))] + [Scope(ForInit, Some(4))] + [Scope(ForLoop, Some(8))] + [Scope(EmbeddedBody, Some(9))], tr.events + [Declared(5, i, Pos(68, 18), Initialized, [])] + [Declared(5, c1, Pos(68, 27), Initialized, [])] + [Declared(5, c1, Pos(68, 42), Initialized, [])] + [Referenced(6, i, Pos(68, 51), false, false, [])] + [Declared(8, i, Pos(70, 18), Initialized, [])] + [Declared(8, c2, Pos(70, 27), Initialized, [])] + [Referenced(9, i, Pos(70, 36), false, false, [])] + [Declared(9, c2, Pos(70, 45), Initialized, [])], 2)) == Tree(tr.scopes + [Scope(ForInit, Some(4))] + [Scope(ForLoop, Some(5))] + [Scope(EmbeddedBody, Some(6))] + [Scope(ForInit, Some(4))] + [Scope(ForLoop, Some(8))] + [Scope(EmbeddedBody, Some(9))] + [Scope(ForInit, Some(4))] + [Scope(ForLoop, Some(11))] + [Scope(EmbeddedBody, Some(12))], tr.events + [Declared(5, i, Pos(68, 18), Initialized, [])] + [Declared(5, c1, Pos(68, 27), Initialized, [])] + [Declared(5, c1, Pos(68, 42), Initialized, [])] + [Referenced(6, i, Pos(68, 51), false, false, [])] + [Declared(8, i, Pos(70, 18), Initialized, [])] + [Declared(8, c2, Pos(70, 27), Initialized, [])] + [Referenced(9, i, Pos(70, 36), false, false, [])] + [Declared(9, c2, Pos(70, 45), Initialized, [])] + [Declared(11, i, Pos(72, 18), Initialized, [])] + [Declared(11, c3, Pos(72, 27), Initialized, [])] + [Referenced(12, i, Pos(72, 36), false, false, [])] + [Referenced(12, i, Pos(72, 43), false, false, [2])] + [Declared(12, c3, Pos(72, 52), Initialized, [2])], 3);
    WalkStmtsCons(For([Declare(i, Pos(74, 18), Initialized)] + ([Declare(c4, Pos(74, 27), Initialized)]), [Use(i, Pos(74, 36), false)], [Use(i, Pos(74, 43), false)], Exprs([Call([Argument([Declare(c4, Pos(75, 42), Initialized)])])])), rest, Ctx(4, [], []), Tree(tr.scopes + [Scope(ForInit, Some(4))] + [Scope(ForLoop, Some(5))] + [Scope(EmbeddedBody, Some(6))] + [Scope(ForInit, Some(4))] + [Scope(ForLoop, Some(8))] + [Scope(EmbeddedBody, Some(9))] + [Scope(ForInit, Some(4))] + [Scope(ForLoop, Some(11))] + [Scope(EmbeddedBody, Some(12))], tr.events + [Declared(5, i, Pos(68, 18), Initialized, [])] + [Declared(5, c1, Pos(68, 27), Initialized, [])] + [Declared(5, c1, Pos(68, 42), Initialized, [])] + [Referenced(6, i, Pos(68, 51), false, false, [])] + [Declared(8, i, Pos(70, 18), Initialized, [])] + [Declared(8, c2, Pos(70, 27), Initialized, [])] + [Referenced(9, i, Pos(70, 36), false, false, [])] + [Declared(9, c2, Pos(70, 45), Initialized, [])] + [Declared(11, i, Pos(72, 18), Initialized, [])] + [Declared(11, c3, Pos(72, 27), Initialized, [])] + [Referenced(12, i, Pos(72, 36), false, false, [])] + [Referenced(12, i, Pos(72, 43), false, false, [2])] + [Declared(12, c3, Pos(72, 52), Initialized, [2])], 3));
    Walk5(i, c1, c2, c3, c4, c5, c6, Tree(tr.scopes + [Scope(ForInit, Some(4))] + [Scope(ForLoop, Some(5))] + [Scope(EmbeddedBody, Some(6))] + [Scope(ForInit, Some(4))] + [Scope(ForLoop, Some(8))] + [Scope(EmbeddedBody, Some(9))] + [Scope(ForInit, Some(4))] + [Scope(ForLoop, Some(11))] + [Scope(EmbeddedBody, Some(12))], tr.events + [Declared(5, i, Pos(68, 18), Initialized, [])] + [Declared(5, c1, Pos(68, 27), Initialized, [])] + [Declared(5, c1, Pos(68, 42), Initialized, [])] + [Referenced(6, i, Pos(68, 51), false, false, [])] + [Declared(8, i, Pos(70, 18), Initialized, [])] + [Declared(8, c2, Pos(70, 27), Initialized, [])] + [Referenced(9, i, Pos(70, 36), false, false, [])] + [Declared(9, c2, Pos(70, 45), Initialized, [])] + [Declared(11, i, Pos(72, 18), Initialized, [])] + [Declared(11, c3, Pos(72, 27), Initialized, [])] + [Referenced(12, i, Pos(72, 36), false, false, [])] + [Referenced(12, i, Pos(72, 43), false, false, [2])] + [Declared(12, c3, Pos(72, 52), Initialized, [2])], 3));
    assert WalkStmt(For([Declare(i, Pos(74, 18), Initialized)] + ([Declare(c4, Pos(74, 27), Initialized)]), [Use(i, Pos(74, 36), false)], [Use(i, Pos(74, 43), false)], Exprs([Call([Argument([Declare(c4, Pos(75, 42), Initialized)])])])), Ctx(4, [], []), Tree(tr.scopes + [Scope(ForInit, Some(4))] + [Scope(ForLoop, Some(5))] + [Scope(EmbeddedBody, Some(6))] + [Scope(ForInit, Some(4))] + [Scope(ForLoop, Some(8))] + [Scope(EmbeddedBody, Some(9))] + [Scope(ForInit, Some(4))] + [Scope(ForLoop, Some(11))] + [Scope(EmbeddedBody, Some(12))], tr.events + [Declared(5, i, Pos(68, 18), Initialized, [])] + [Declared(5, c1, Pos(68, 27), Initialized, [])] + [Declared(5, c1, Pos(68, 42), Initialized, [])] + [Referenced(6, i, Pos(68, 51), false, false, [])] + [Declared(8, i, Pos(70, 18), Initialized, [])] + [Declared(8, c2, Pos(70, 27), Initialized, [])] + [Referenced(9, i, Pos(70, 36), false, false, [])] + [Declared(9, c2, Pos(70, 45), Initialized, [])] + [Declared(11, i, Pos(72, 18), Initialized, [])] + [Declared(11, c3, Pos(72, 27), Initialized, [])] + [Referenced(12, i, Pos(72, 36), false, false, [])] + [Referenced(12, i, Pos(72, 43), false, false, [2])] + [Declared(12, c3, Pos(72, 52), Initialized, [2])], 3)) == Tree(tr.scopes + [Scope(ForInit, Some(4))] + [Scope(ForLoop, Some(5))] + [Scope(EmbeddedBody, Some(6))] + [Scope(ForInit, Some(4))] + [Scope(ForLoop, Some(8))] + [Scope(EmbeddedBody, Some(9))] + [Scope(ForInit, Some(4))] + [Scope(ForLoop, Some(11))] + [Scope(EmbeddedBody, Some(12))] + [Scope(ForInit, Some(4))] + [Scope(ForLoop, Some(14))] + [Scope(EmbeddedBody, Some(15))], tr.events + [Declared(5, i, Pos(68, 18), Initialized, [])] + [Declared(5, c1, Pos(68, 27), Initialized, [])] + [Declared(5, c1, Pos(68, 42), Initialized, [])] + [Referenced(6, i, Pos(68, 51), false, false, [])] + [Declared(8, i, Pos(70, 18), Initialized, [])] + [Declared(8, c2, Pos(70, 27), Initialized, [])] + [Referenced(9, i, Pos(70, 36), false, false, [])] + [Declared(9, c2, Pos(70, 45), Initialized, [])] + [Declared(11, i, Pos(72, 18), Initialized, [])] + [Declared(11, c3, Pos(72, 27), Initialized, [])] + [Referenced(12, i, Pos(72, 36), false, false, [])] + [Referenced(12, i, Pos(72, 43), false, false, [2])] + [Declared(12, c3, Pos(72, 52), Initialized, [2])] + [Declared(14, i, Pos(74, 18), Initialized, [])] + [Declared(14, c4, Pos(74, 27), Initialized, [])] + [Referenced(15, i, Pos(74, 36), false, false, [])] + [Declared(16, c4, Pos(75, 42), Initialized, [3])] + [OutAssigned(16, [], [3])] + [Referenced(15, i, Pos(74, 43), false, false, [3])], 4);
  }

  lemma {:induction false} Walk8(i: string, c1: string, c2: string, c3: string, c4: string, c5: string, c6: string, tr: Tree)
    requires |tr.scopes| == 20 && tr.arms == 5
    ensures WalkStmt(Exprs([Call([Argument([Declare(c5, Pos(79, 42), Initialized)])])]), Ctx(19, [4], []), tr) == Tree(tr.scopes, tr.events + [Declared(19, c5, Pos(79, 42), Initialized, [4])] + [OutAssigned(19, [], [4])], 5)
  {
    WalkExprsOne(Call([Argument([Declare(c5, Pos(79, 42), Initialized)])]), Ctx(19, [4], []), tr);
    assert OutNames([]) == [];
    WalkArgsOne(Argument([Declare(c5, Pos(79, 42), Initialized)]), [], Ctx(19, [4], []), tr);
    WalkExprsOne(Declare(c5, Pos(79, 42), Initialized), Ctx(19, [4], []), tr);
    assert WalkExpr(Declare(c5, Pos(79, 42), Initialized), Ctx(19, [4], []), tr) == Tree(tr.scopes, tr.events + [Declared(19, c5, Pos(79, 42), Initialized, [4])], 5);
    assert WalkExprs([Declare(c5, Pos(79, 42), Initialized)], Ctx(19, [4], []), tr) == Tree(tr.scopes, tr.events + [Declared(19, c5, Pos(79, 42), Initialized, [4])], 5);
    OutNamesOfOne(Declare(c5, Pos(79, 42), Initialized));
    OutNamesSnoc([], Argument([Declare(c5, Pos(79, 42), Initialized)]));
    assert WalkArgs([Argument([Declare(c5, Pos(79, 42), Initialized)])], [], Ctx(19, [4], []), tr) == Tree(tr.scopes, tr.events + [Declared(19, c5, Pos(79, 42), Initialized, [4])], 5);
    assert OutNames([Argument([Declare(c5, Pos(79, 42), Initialized)])]) == [];
    assert WalkExpr(Call([Argument([Declare(c5, Pos(79, 42), Initialized)])]), Ctx(19, [4], []), tr) == Tree(tr.scopes, tr.events + [Declared(19, c5, Pos(79, 42), Initialized, [4])] + [OutAssigned(19, [], [4])], 5);
    assert WalkExprs([Call([Argument([Declare(c5, Pos(79, 42), Initialized)])])], Ctx(19, [4], []), tr) == Tree(tr.scopes, tr.events + [Declared(19, c5, Pos(79, 42), Initialized, [4])] + [OutAssigned(19, [], [4])], 5);
    assert WalkStmt(Exprs([Call([Argument([Declare(c5, Pos(79, 42), Initialized)])])]), Ctx(19, [4], []), tr) == Tree(tr.scopes, tr.events + [Declared(19, c5, Pos(79, 42), Initialized, [4])] + [OutAssigned(19, [], [4])], 5);
  }

  lemma {:induction false} Walk7(i: string, c1: string, c2: string, c3: string, c4: string, c5: string, c6: string, tr: Tree)
    requires |tr.scopes| == 17 && tr.arms == 4
    ensures WalkStmt(For([Declare(i, Pos(77, 18), Initialized)] + ([Declare(c5, Pos(77, 27), Initialized)]), [Use(i, Pos(77, 36), false)], [Use(i, Pos(77, 43), false)], Block([Exprs([Call([Argument([Declare(c5, Pos(79, 42), Initialized)])])])])), Ctx(4, [], []), tr) == Tree(tr.scopes + [Scope(ForInit, Some(4))] + [Scope(ForLoop, Some(17))] + [Scope(BlockBody, Some(18))], tr.events + [Declared(17, i, Pos(77, 18), Initialized, [])] + [Declared(17, c5, Pos(77, 27), Initialized, [])] + [Referenced(18, i, Pos(77, 36), false, false, [])] + [Declared(19, c5, Pos(79, 42), Initialized, [4])] + [OutAssigned(19, [], [4])] + [Referenced(18, i, Pos(77, 43), false, false, [4])], 5)
  {
    WalkExprsCons(Declare(i, Pos(77, 18), Initialized), [Declare(c5, Pos(77, 27), Initialized)], Ctx(17, [], []), Tree(tr.scopes + [Scope(ForInit, Some(4))] + [Scope(ForLoop, Some(17))], tr.events, 4));
    assert WalkExpr(Declare(i, Pos(77, 18), Initialized), Ctx(17, [], []), Tree(tr.scopes + [Scope(ForInit, Some(4))] + [Scope(ForLoop, Some(17))], tr.events, 4)) == Tree(tr.scopes + [Scope(ForInit, Some(4))] + [Scope(ForLoop, Some(17))], tr.events + [Declared(17, i, Pos(77, 18), Initialized, [])], 4);
    WalkExprsOne(Declare(c5, Pos(77, 27), Initialized), Ctx(17, [], []), Tree(tr.scopes + [Scope(ForInit, Some(4))] + [Scope(ForLoop, Some(17))], tr.events + [Declared(17, i, Pos(77, 18), Initialized, [])], 4));
    assert WalkExpr(Declare(c5, Pos(77, 27), Initialized), Ctx(17, [], []), Tree(tr.scopes + [Scope(ForInit, Some(4))] + [Scope(ForLoop, Some(17))], tr.events + [Declared(17, i, Pos(77, 18), Initialized, [])], 4)) == Tree(tr.scopes + [Scope(ForInit, Some(4))] + [Scope(ForLoop, Some(17))], tr.events + [Declared(17, i, Pos(77, 18), Initialized, [])] + [Declared(17, c5, Pos(77, 27), Initialized, [])], 4);
    assert WalkExprs([Declare(i, Pos(77, 18), Initialized)] + ([Declare(c5, Pos(77, 27), Initialized)]), Ctx(17, [], []), Tree(tr.scopes + [Scope(ForInit, Some(4))] + [Scope(ForLoop, Some(17))], tr.events, 4)) == Tree(tr.scopes + [Scope(ForInit, Some(4))] + [Scope(ForLoop, Some(17))], tr.events + [Declared(17, i, Pos(77, 18), Initialized, [])] + [Declared(17, c5, Pos(77, 27), Initialized, [])], 4);
    WalkExprsOne(Use(i, Pos(77, 36), false), Ctx(18, [], []), Tree(tr.scopes + [Scope(ForInit, Some(4))] + [Scope(ForLoop, Some(17))], tr.events + [Declared(17, i, Pos(77, 18), Initialized, [])] + [Declared(17, c5, Pos(77, 27), Initialized, [])], 4));
    assert WalkExpr(Use(i, Pos(77, 36), false), Ctx(18, [], []), Tree(tr.scopes + [Scope(ForInit, Some(4))] + [Scope(ForLoop, Some(17))], tr.events + [Declared(17, i, Pos(77, 18), Initialized, [])] + [Declared(17, c5, Pos(77, 27), Initialized, [])], 4)) == Tree(tr.scopes + [Scope(ForInit, Some(4))] + [Scope(ForLoop, Some(17))], tr.events + [Declared(17, i, Pos(77, 18), Initialized, [])] + [Declared(17, c5, Pos(77, 27), Initialized, [])] + [Referenced(18, i, Pos(77, 36), false, false, [])], 4);
    assert WalkExprs([Use(i, Pos(77, 36), false)], Ctx(18, [], []), Tree(tr.scopes + [Scope(ForInit, Some(4))] + [Scope(ForLoop, Some(17))], tr.events + [Declared(17, i, Pos(77, 18), Initialized, [])] + [Declared(17, c5, Pos(77, 27), Initialized, [])], 4)) == Tree(tr.scopes + [Scope(ForInit, Some(4))] + [Scope(ForLoop, Some(17))], tr.events + [Declared(17, i, Pos(77, 18), Initialized, [])] + [Declared(17, c5, Pos(77, 27), Initialized, [])] + [Referenced(18, i, Pos(77, 36), false, false, [])], 4);
    assert [] + [4] == [4];
    WalkStmtsOne(Exprs([Call([Argument([Declare(c5, Pos(79, 42), Initialized)])])]), Ctx(19, [4], []), Tree(tr.scopes + [Scope(ForInit, Some(4))] + [Scope(ForLoop, Some(17))] + [Scope(BlockBody, Some(18))], tr.events + [Declared(17, i, Pos(77, 18), Initialized, [])] + [Declared(17, c5, Pos(77, 27), Initialized, [])] + [Referenced(18, i, Pos(77, 36), false, false, [])], 5));
    Walk8(i, c1, c2, c3, c4, c5, c6, Tree(tr.scopes + [Scope(ForInit, Some(4))] + [Scope(ForLoop, Some(17))] + [Scope(BlockBody, Some(18))], tr.events + [Declared(17, i, Pos(77, 18), Initialized, [])] + [Declared(17, c5, Pos(77, 27), Initialized, [])] + [Referenced(18, i, Pos(77, 36), false, false, [])], 5));
    assert WalkStmt(Exprs([Call([Argument([Declare(c5, Pos(79, 42), Initialized)])])]), Ctx(19, [4], []), Tree(tr.scopes + [Scope(ForInit, Some(4))] + [Scope(ForLoop, Some(17))] + [Scope(BlockBody, Some(18))], tr.events + [Declared(17, i, Pos(77, 18), Initialized, [])] + [Declared(17, c5, Pos(77, 27), Initialized, [])] + [Referenced(18, i, Pos(77, 36), false, false, [])], 5)) == Tree(tr.scopes + [Scope(ForInit, Some(4))] + [Scope(ForLoop, Some(17))] + [Scope(BlockBody, Some(18))], tr.events + [Declared(17, i, Pos(77, 18), Initialized, [])] + [Declared(17, c5, Pos(77, 27), Initialized, [])] + [Referenced(18, i, Pos(77, 36), false, false, [])] + [Declared(19, c5, Pos(79, 42), Initialized, [4])] + [OutAssigned(19, [], [4])], 5);
    assert WalkEmbedded(Block([Exprs([Call([Argument([Declare(c5, Pos(79, 42), Initialized)])])])]), Ctx(18, [4], []), Tree(tr.scopes + [Scope(ForInit, Some(4))] + [Scope(ForLoop, Some(17))], tr.events + [Declared(17, i, Pos(77, 18), Initialized, [])] + [Declared(17, c5, Pos(77, 27), Initialized, [])] + [Referenced(18, i, Pos(77, 36), false, false, [])], 5)) == Tree(tr.scopes + [Scope(ForInit, Some(4))] + [Scope(ForLoop, Some(17))] + [Scope(BlockBody, Some(18))], tr.events + [Declared(17, i, Pos(77, 18), Initialized, [])] + [Declared(17, c5, Pos(77, 27), Initialized, [])] + [Referenced(18, i, Pos(77, 36), false, false, [])] + [Declared(19, c5, Pos(79, 42), Initialized, [4])] + [OutAssigned(19, [], [4])], 5);
    WalkExprsOne(Use(i, Pos(77, 43), false), Ctx(18, [4], []), Tree(tr.scopes + [Scope(ForInit, Some(4))] + [Scope(ForLoop, Some(17))] + [Scope(BlockBody, Some(18))], tr.events + [Declared(17, i, Pos(77, 18), Initialized, [])] + [Declared(17, c5, Pos(77, 27), Initialized, [])] + [Referenced(18, i, Pos(77, 36), false, false, [])] + [Declared(19, c5, Pos(79, 42), Initialized, [4])] + [OutAssigned(19, [], [4])], 5));
    assert WalkExpr(Use(i, Pos(77, 43), false), Ctx(18, [4], []), Tree(tr.scopes + [Scope(ForInit, Some(4))] + [Scope(ForLoop, Some(17))] + [Scope(BlockBody, Some(18))], tr.events + [Declared(17, i, Pos(77, 18), Initialized, [])] + [Declared(17, c5, Pos(77, 27), Initialized, [])] + [Referenced(18, i, Pos(77, 36), false, false, [])] + [Declared(19, c5, Pos(79, 42), Initialized, [4])] + [OutAssigned(19, [], [4])], 5)) == Tree(tr.scopes + [Scope(ForInit, Some(4))] + [Scope(ForLoop, Some(17))] + [Scope(BlockBody, Some(18))], tr.events + [Declared(17, i, Pos(77, 18), Initialized, [])] + [Declared(17, c5, Pos(77, 27), Initialized, [])] + [Referenced(18, i, Pos(77, 36), false, false, [])] + [Declared(19, c5, Pos(79, 42), Initialized, [4])] + [OutAssigned(19, [], [4])] + [Referenced(18, i, Pos(77, 43), false, false, [4])], 5);
    assert WalkExprs([Use(i, Pos(77, 43), false)], Ctx(18, [4], []), Tree(tr.scopes + [Scope(ForInit, Some(4))] + [Scope(ForLoop, Some(17))] + [Scope(BlockBody, Some(18))], tr.events + [Declared(17, i, Pos(77, 18), Initialized, [])] + [Declared(17, c5, Pos(77, 27), Initialized, [])] + [Referenced(18, i, Pos(77, 36), false, false, [])] + [Declared(19, c5, Pos(79, 42), Initialized, [4])] + [OutAssigned(19, [], [4])], 5)) == Tree(tr.scopes + [Scope(ForInit, Some(4))] + [Scope(ForLoop, Some(17))] + [Scope(BlockBody, Some(18))], tr.events + [Declared(17, i, Pos(77, 18), Initialized, [])] + [Declared(17, c5, Pos(77, 27), Initialized, [])] + [Referenced(18, i, Pos(77, 36), false, false, [])] + [Declared(19, c5, Pos(79, 42), Initialized, [4])] + [OutAssigned(19, [], [4])] + [Referenced(18, i, Pos(77, 43), false, false, [4])], 5);
    assert WalkStmt(For([Declare(i, Pos(77, 18), Initialized)] + ([Declare(c5, Pos(77, 27), Initialized)]), [Use(i, Pos(77, 36), false)], [Use(i, Pos(77, 43), false)], Block([Exprs([Call([Argument([Declare(c5, Pos(79, 42), Initialized)])])])])), Ctx(4, [], []), tr) == Tree(tr.scopes + [Scope(ForInit, Some(4))] + [Scope(ForLoop, Some(17))] + [Scope(BlockBody, Some(18))], tr.events + [Declared(17, i, Pos(77, 18), Initialized, [])] + [Declared(17, c5, Pos(77, 27), Initialized, [])] + [Referenced(18, i, Pos(77, 36), false, false, [])] + [Declared(19, c5, Pos(79, 42), Initialized, [4])] + [OutAssigned(19, [], [4])] + [Referenced(18, i, Pos(77, 43), false, false, [4])], 5);
  }

  lemma {:induction false} Walk10(i: string, c1: string, c2: string, c3: string, c4: string, c5: string, c6: string, tr: Tree)
    requires |tr.scopes| == 23 && tr.arms == 6
    ensures WalkStmt(Exprs([Declare(c6, Pos(84, 17), Initialized)]), Ctx(22, [5], []), tr) == Tree(tr.scopes, tr.events + [Declared(22, c6, Pos(84, 17), Initialized, [5])], 6)
  {
    WalkExprsOne(Declare(c6, Pos(84, 17), Initialized), Ctx(22, [5], []), tr);
    assert WalkExpr(Declare(c6, Pos(84, 17), Initialized), Ctx(22, [5], []), tr) == Tree(tr.scopes, tr.events + [Declared(22, c6, Pos(84, 17), Initialized, [5])], 6);
    assert WalkExprs([Declare(c6, Pos(84, 17), Initialized)], Ctx(22, [5], []), tr) == Tree(tr.scopes, tr.events + [Declared(22, c6, Pos(84, 17), Initialized, [5])], 6);
    assert WalkStmt(Exprs([Declare(c6, Pos(84, 17), Initialized)]), Ctx(22, [5], []), tr) == Tree(tr.scopes, tr.events + [Declared(22, c6, Pos(84, 17), Initialized, [5])], 6);
  }

  lemma {:induction false} Walk11(i: string, c1: string, c2: string, c3: string, c4: string, c5: string, c6: string, tr: Tree)
    requires |tr.scopes| == 23 && tr.arms == 6
    ensures WalkStmt(Exprs([Call([Argument([Use(c6, Pos(85, 38), false)])])]), Ctx(22, [5], []), tr) == Tree(tr.scopes, tr.events + [Referenced(22, c6, Pos(85, 38), false, false, [5])] + [OutAssigned(22, [], [5])], 6)
  {
    WalkExprsOne(Call([Argument([Use(c6, Pos(85, 38), false)])]), Ctx(22, [5], []), tr);
    assert OutNames([]) == [];
    WalkArgsOne(Argument([Use(c6, Pos(85, 38), false)]), [], Ctx(22, [5], []), tr);
    WalkExprsOne(Use(c6, Pos(85, 38), false), Ctx(22, [5], []), tr);
    assert WalkExpr(Use(c6, Pos(85, 38), false), Ctx(22, [5], []), tr) == Tree(tr.scopes, tr.events + [Referenced(22, c6, Pos(85, 38), false, false, [5])], 6);
    assert WalkExprs([Use(c6, Pos(85, 38), false)], Ctx(22, [5], []), tr) == Tree(tr.scopes, tr.events + [Referenced(22, c6, Pos(85, 38), false, false, [5])], 6);
    OutNamesOfOne(Use(c6, Pos(85, 38), false));
    OutNamesSnoc([], Argument([Use(c6, Pos(85, 38), false)]));
    assert WalkArgs([Argument([Use(c6, Pos(85, 38), false)])], [], Ctx(22, [5], []), tr) == Tree(tr.scopes, tr.events + [Referenced(22, c6, Pos(85, 38), false, false, [5])], 6);
    assert OutNames([Argument([Use(c6, Pos(85, 38), false)])]) == [];
    assert WalkExpr(Call([Argument([Use(c6, Pos(85, 38), false)])]), Ctx(22, [5], []), tr) == Tree(tr.scopes, tr.events + [Referenced(22, c6, Pos(85, 38), false, false, [5])] + [OutAssigned(22, [], [5])], 6);
    assert WalkExprs([Call([Argument([Use(c6, Pos(85, 38), false)])])], Ctx(22, [5], []), tr) == Tree(tr.scopes, tr.events + [Referenced(22, c6, Pos(85, 38), false, false, [5])] + [OutAssigned(22, [], [5])], 6);
    assert WalkStmt(Exprs([Call([Argument([Use(c6, Pos(85, 38), false)])])]), Ctx(22, [5], []), tr) == Tree(tr.scopes, tr.events + [Referenced(22, c6, Pos(85, 38), false, false, [5])] + [OutAssigned(22, [], [5])], 6);
  }

  lemma {:induction false} Walk9(i: string, c1: string, c2: string, c3: string, c4: string, c5: string, c6: string, tr: Tree)
    requires |tr.scopes| == 20 && tr.arms == 5
    ensures WalkStmt(For([Declare(i, Pos(82, 18), Initialized)] + ([Declare(c6, Pos(82, 27), Initialized)]), [Use(i, Pos(82, 36), false)], [Use(i, Pos(82, 43), false)], Block([Exprs([Declare(c6, Pos(84, 17), Initialized)])] + ([Exprs([Call([Argument([Use(c6, Pos(85, 38), false)])])])]))), Ctx(4, [], []), tr) == Tree(tr.scopes + [Scope(ForInit, Some(4))] + [Scope(ForLoop, Some(20))] + [Scope(BlockBody, Some(21))], tr.events + [Declared(20, i, Pos(82, 18), Initialized, [])] + [Declared(20, c6, Pos(82, 27), Initialized, [])] + [Referenced(21, i, Pos(82, 36), false, false, [])] + [Declared(22, c6, Pos(84, 17), Initialized, [5])] + [Referenced(22, c6, Pos(85, 38), false, false, [5])] + [OutAssigned(22, [], [5])] + [Referenced(21, i, Pos(82, 43), false, false, [5])], 6)
  {
    WalkExprsCons(Declare(i, Pos(82, 18), Initialized), [Declare(c6, Pos(82, 27), Initialized)], Ctx(20, [], []), Tree(tr.scopes + [Scope(ForInit, Some(4))] + [Scope(ForLoop, Some(20))], tr.events, 5));
    assert WalkExpr(Declare(i, Pos(82, 18), Initialized), Ctx(20, [], []), Tree(tr.scopes + [Scope(ForInit, Some(4))] + [Scope(ForLoop, Some(20))], tr.events, 5)) == Tree(tr.scopes + [Scope(ForInit, Some(4))] + [Scope(ForLoop, Some(20))], tr.events + [Declared(20, i, Pos(82, 18), Initialized, [])], 5);
    WalkExprsOne(Declare(c6, Pos(82, 27), Initialized), Ctx(20, [], []), Tree(tr.scopes + [Scope(ForInit, Some(4))] + [Scope(ForLoop, Some(20))], tr.events + [Declared(20, i, Pos(82, 18), Initialized, [])], 5));
    assert WalkExpr(Declare(c6, Pos(82, 27), Initialized), Ctx(20, [], []), Tree(tr.scopes + [Scope(ForInit, Some(4))] + [Scope(ForLoop, Some(20))], tr.events + [Declared(20, i, Pos(82, 18), Initialized, [])], 5)) == Tree(tr.scopes + [Scope(ForInit, Some(4))] + [Scope(ForLoop, Some(20))], tr.events + [Declared(20, i, Pos(82, 18), Initialized, [])] + [Declared(20, c6, Pos(82, 27), Initialized, [])], 5);
    assert WalkExprs([Declare(i, Pos(82, 18), Initialized)] + ([Declare(c6, Pos(82, 27), Initialized)]), Ctx(20, [], []), Tree(tr.scopes + [Scope(ForInit, Some(4))] + [Scope(ForLoop, Some(20))], tr.events, 5)) == Tree(tr.scopes + [Scope(ForInit, Some(4))] + [Scope(ForLoop, Some(20))], tr.events + [Declared(20, i, Pos(82, 18), Initialized, [])] + [Declared(20, c6, Pos(82, 27), Initialized, [])], 5);
    WalkExprsOne(Use(i, Pos(82, 36), false), Ctx(21, [], []), Tree(tr.scopes + [Scope(ForInit, Some(4))] + [Scope(ForLoop, Some(20))], tr.events + [Declared(20, i, Pos(82, 18), Initialized, [])] + [Declared(20, c6, Pos(82, 27), Initialized, [])], 5));
    assert WalkExpr(Use(i, Pos(82, 36), false), Ctx(21, [], []), Tree(tr.scopes + [Scope(ForInit, Some(4))] + [Scope(ForLoop, Some(20))], tr.events + [Declared(20, i, Pos(82, 18), Initialized, [])] + [Declared(20, c6, Pos(82, 27), Initialized, [])], 5)) == Tree(tr.scopes + [Scope(ForInit, Some(4))] + [Scope(ForLoop, Some(20))], tr.events + [Declared(20, i, Pos(82, 18), Initialized, [])] + [Declared(20, c6, Pos(82, 27), Initialized, [])] + [Referenced(21, i, Pos(82, 36), false, false, [])], 5);
    assert WalkExprs([Use(i, Pos(82, 36), false)], Ctx(21, [], []), Tree(tr.scopes + [Scope(ForInit, Some(4))] + [Scope(ForLoop, Some(20))], tr.events + [Declared(20, i, Pos(82, 18), Initialized, [])] + [Declared(20, c6, Pos(82, 27), Initialized, [])], 5)) == Tree(tr.scopes + [Scope(ForInit, Some(4))] + [Scope(ForLoop, Some(20))], tr.events + [Declared(20, i, Pos(82, 18), Initialized, [])] + [Declared(20, c6, Pos(82, 27), Initialized, [])] + [Referenced(21, i, Pos(82, 36), false, false, [])], 5);
    assert [] + [5] == [5];
    WalkStmtsCons(Exprs([Declare(c6, Pos(84, 17), Initialized)]), [Exprs([Call([Argument([Use(c6, Pos(85, 38), false)])])])], Ctx(22, [5], []), Tree(tr.scopes + [Scope(ForInit, Some(4))] + [Scope(ForLoop, Some(20))] + [Scope(BlockBody, Some(21))], tr.events + [Declared(20, i, Pos(82, 18), Initialized, [])] + [Declared(20, c6, Pos(82, 27), Initialized, [])] + [Referenced(21, i, Pos(82, 36), false, false, [])], 6));
    Walk10(i, c1, c2, c3, c4, c5, c6, Tree(tr.scopes + [Scope(ForInit, Some(4))] + [Scope(ForLoop, Some(20))] + [Scope(BlockBody, Some(21))], tr.events + [Declared(20, i, Pos(82, 18), Initialized, [])] + [Declared(20, c6, Pos(82, 27), Initialized, [])] + [Referenced(21, i, Pos(82, 36), false, false, [])], 6));
    assert WalkStmt(Exprs([Declare(c6, Pos(84, 17), Initialized)]), Ctx(22, [5], []), Tree(tr.scopes + [Scope(ForInit, Some(4))] + [Scope(ForLoop, Some(20))] + [Scope(BlockBody, Some(21))], tr.events + [Declared(20, i, Pos(82, 18), Initialized, [])] + [Declared(20, c6, Pos(82, 27), Initialized, [])] + [Referenced(21, i, Pos(82, 36), false, false, [])], 6)) == Tree(tr.scopes + [Scope(ForInit, Some(4))] + [Scope(ForLoop, Some(20))] + [Scope(BlockBody, Some(21))], tr.events + [Declared(20, i, Pos(82, 18), Initialized, [])] + [Declared(20, c6, Pos(82, 27), Initialized, [])] + [Referenced(21, i, Pos(82, 36), false, false, [])] + [Declared(22, c6, Pos(84, 17), Initialized, [5])], 6);
    WalkStmtsOne(Exprs([Call([Argument([Use(c6, Pos(85, 38), false)])])]), Ctx(22, [5], []), Tree(tr.scopes + [Scope(ForInit, Some(4))] + [Scope(ForLoop, Some(20))] + [Scope(BlockBody, Some(21))], tr.events + [Declared(20, i, Pos(82, 18), Initialized, [])] + [Declared(20, c6, Pos(82, 27), Initialized, [])] + [Referenced(21, i, Pos(82, 36), false, false, [])] + [Declared(22, c6, Pos(84, 17), Initialized, [5])], 6));
    Walk11(i, c1, c2, c3, c4, c5, c6, Tree(tr.scopes + [Scope(ForInit, Some(4))] + [Scope(ForLoop, Some(20))] + [Scope(BlockBody, Some(21))], tr.events + [Declared(20, i, Pos(82, 18), Initialized, [])] + [Declared(20, c6, Pos(82, 27), Initialized, [])] + [Referenced(21, i, Pos(82, 36), false, false, [])] + [Declared(22, c6, Pos(84, 17), Initialized, [5])], 6));
    assert WalkStmt(Exprs([Call([Argument([Use(c6, Pos(85, 38), false)])])]), Ctx(22, [5], []), Tree(tr.scopes + [Scope(ForInit, Some(4))] + [Scope(ForLoop, Some(20))] + [Scope(BlockBody, Some(21))], tr.events + [Declared(20, i, Pos(82, 18), Initialized, [])] + [Declared(20, c6, Pos(82, 27), Initialized, [])] + [Referenced(21, i, Pos(82, 36), false, false, [])] + [Declared(22, c6, Pos(84, 17), Initialized, [5])], 6)) == Tree(tr.scopes + [Scope(ForInit, Some(4))] + [Scope(ForLoop, Some(20))] + [Scope(BlockBody, Some(21))], tr.events + [Declared(20, i, Pos(82, 18), Initialized, [])] + [Declared(20, c6, Pos(82, 27), Initialized, [])] + [Referenced(21, i, Pos(82, 36), false, false, [])] + [Declared(22, c6, Pos(84, 17), Initialized, [5])] + [Referenced(22, c6, Pos(85, 38), false, false, [5])] + [OutAssigned(22, [], [5])], 6);
    assert WalkEmbedded(Block([Exprs([Declare(c6, Pos(84, 17), Initialized)])] + ([Exprs([Call([Argument([Use(c6, Pos(85, 38), false)])])])])), Ctx(21, [5], []), Tree(tr.scopes + [Scope(ForInit, Some(4))] + [Scope(ForLoop, Some(20))], tr.events + [Declared(20, i, Pos(82, 18), Initialized, [])] + [Declared(20, c6, Pos(82, 27), Initialized, [])] + [Referenced(21, i, Pos(82, 36), false, false, [])], 6)) == Tree(tr.scopes + [Scope(ForInit, Some(4))] + [Scope(ForLoop, Some(20))] + [Scope(BlockBody, Some(21))], tr.events + [Declared(20, i, Pos(82, 18), Initialized, [])] + [Declared(20, c6, Pos(82, 27), Initialized, [])] + [Referenced(21, i, Pos(82, 36), false, false, [])] + [Declared(22, c6, Pos(84, 17), Initialized, [5])] + [Referenced(22, c6, Pos(85, 38), false, false, [5])] + [OutAssigned(22, [], [5])], 6);
    WalkExprsOne(Use(i, Pos(82, 43), false), Ctx(21, [5], []), Tree(tr.scopes + [Scope(ForInit, Some(4))] + [Scope(ForLoop, Some(20))] + [Scope(BlockBody, Some(21))], tr.events + [Declared(20, i, Pos(82, 18), Initialized, [])] + [Declared(20, c6, Pos(82, 27), Initialized, [])] + [Referenced(21, i, Pos(82, 36), false, false, [])] + [Declared(22, c6, Pos(84, 17), Initialized, [5])] + [Referenced(22, c6, Pos(85, 38), false, false, [5])] + [OutAssigned(22, [], [5])], 6));
    assert WalkExpr(Use(i, Pos(82, 43), false), Ctx(21, [5], []), Tree(tr.scopes + [Scope(ForInit, Some(4))] + [Scope(ForLoop, Some(20))] + [Scope(BlockBody, Some(21))], tr.events + [Declared(20, i, Pos(82, 18), Initialized, [])] + [Declared(20, c6, Pos(82, 27), Initialized, [])] + [Referenced(21, i, Pos(82, 36), false, false, [])] + [Declared(22, c6, Pos(84, 17), Initialized, [5])] + [Referenced(22, c6, Pos(85, 38), false, false, [5])] + [OutAssigned(22, [], [5])], 6)) == Tree(tr.scopes + [Scope(ForInit, Some(4))] + [Scope(ForLoop, Some(20))] + [Scope(BlockBody, Some(21))], tr.events + [Declared(20, i, Pos(82, 18), Initialized, [])] + [Declared(20, c6, Pos(82, 27), Initialized, [])] + [Referenced(21, i, Pos(82, 36), false, false, [])] + [Declared(22, c6, Pos(84, 17), Initialized, [5])] + [Referenced(22, c6, Pos(85, 38), false, false, [5])] + [OutAssigned(22, [], [5])] + [Referenced(21, i, Pos(82, 43), false, false, [5])], 6);
    assert WalkExprs([Use(i, Pos(82, 43), false)], Ctx(21, [5], []), Tree(tr.scopes + [Scope(ForInit, Some(4))] + [Scope(ForLoop, Some(20))] + [Scope(BlockBody, Some(21))], tr.events + [Declared(20, i, Pos(82, 18), Initialized, [])] + [Declared(20, c6, Pos(82, 27), Initialized, [])] + [Referenced(21, i, Pos(82, 36), false, false, [])] + [Declared(22, c6, Pos(84, 17), Initialized, [5])] + [Referenced(22, c6, Pos(85, 38), false, false, [5])] + [OutAssigned(22, [], [5])], 6)) == Tree(tr.scopes + [Scope(ForInit, Some(4))] + [Scope(ForLoop, Some(20))] + [Scope(BlockBody, Some(21))], tr.events + [Declared(20, i, Pos(82, 18), Initialized, [])] + [Declared(20, c6, Pos(82, 27), Initialized, [])] + [Referenced(21, i, Pos(82, 36), false, false, [])] + [Declared(22, c6, Pos(84, 17), Initialized, [5])] + [Referenced(22, c6, Pos(85, 38), false, false, [5])] + [OutAssigned(22, [], [5])] + [Referenced(21, i, Pos(82, 43), false, false, [5])], 6);
    assert WalkStmt(For([Declare(i, Pos(82, 18), Initialized)] + ([Declare(c6, Pos(82, 27), Initialized)]), [Use(i, Pos(82, 36), false)], [Use(i, Pos(82, 43), false)], Block([Exprs([Declare(c6, Pos(84, 17), Initialized)])] + ([Exprs([Call([Argument([Use(c6, Pos(85, 38), false)])])])]))), Ctx(4, [], []), tr) == Tree(tr.scopes + [Scope(ForInit, Some(4))] + [Scope(ForLoop, Some(20))] + [Scope(BlockBody, Some(21))], tr.events + [Declared(20, i, Pos(82, 18), Initialized, [])] + [Declared(20, c6, Pos(82, 27), Initialized, [])] + [Referenced(21, i, Pos(82, 36), false, false, [])] + [Declared(22, c6, Pos(84, 17), Initialized, [5])] + [Referenced(22, c6, Pos(85, 38), false, false, [5])] + [OutAssigned(22, [], [5])] + [Referenced(21, i, Pos(82, 43), false, false, [5])], 6);
  }

  lemma {:induction false} Stmts6(i: string, c1: string, c2: string, c3: string, c4: string, c5: string, c6: string, tr: Tree)
    requires |tr.scopes| == 17 && tr.arms == 4
    ensures WalkStmts([For([Declare(i, Pos(77, 18), Initialized)] + ([Declare(c5, Pos(77, 27), Initialized)]), [Use(i, Pos(77, 36), false)], [Use(i, Pos(77, 43), false)], Block([Exprs([Call([Argument([Declare(c5, Pos(79, 42), Initialized)])])])]))] + ([For([Declare(i, Pos(82, 18), Initialized)] + ([Declare(c6, Pos(82, 27), Initialized)]), [Use(i, Pos(82, 36), false)], [Use(i, Pos(82, 43), false)], Block([Exprs([Declare(c6, Pos(84, 17), Initialized)])] + ([Exprs([Call([Argument([Use(c6, Pos(85, 38), false)])])])])))]), Ctx(4, [], []), tr) == Tree(tr.scopes + [Scope(ForInit, Some(4))] + [Scope(ForLoop, Some(17))] + [Scope(BlockBody, Some(18))] + [Scope(ForInit, Some(4))] + [Scope(ForLoop, Some(20))] + [Scope(BlockBody, Some(21))], tr.events + [Declared(17, i, Pos(77, 18), Initialized, [])] + [Declared(17, c5, Pos(77, 27), Initialized, [])] + [Referenced(18, i, Pos(77, 36), false, false, [])] + [Declared(19, c5, Pos(79, 42), Initialized, [4])] + [OutAssigned(19, [], [4])] + [Referenced(18, i, Pos(77, 43), false, false, [4])] + [Declared(20, i, Pos(82, 18), Initialized, [])] + [Declared(20, c6, Pos(82, 27), Initialized, [])] + [Referenced(21, i, Pos(82, 36), false, false, [])] + [Declared(22, c6, Pos(84, 17), Initialized, [5])] + [Referenced(22, c6, Pos(85, 38), false, false, [5])] + [OutAssigned(22, [], [5])] + [Referenced(21, i, Pos(82, 43), false, false, [5])], 6)
  {
    WalkStmtsCons(For([Declare(i, Pos(77, 18), Initialized)] + ([Declare(c5, Pos(77, 27), Initialized)]), [Use(i, Pos(77, 36), false)], [Use(i, Pos(77, 43), false)], Block([Exprs([Call([Argument([Declare(c5, Pos(79, 42), Initialized)])])])])), [For([Declare(i, Pos(82, 18), Initialized)] + ([Declare(c6, Pos(82, 27), Initialized)]), [Use(i, Pos(82, 36), false)], [Use(i, Pos(82, 43), false)], Block([Exprs([Declare(c6, Pos(84, 17), Initialized)])] + ([Exprs([Call([Argument([Use(c6, Pos(85, 38), false)])])])])))], Ctx(4, [], []), tr);
    Walk7(i, c1, c2, c3, c4, c5, c6, tr);
    assert WalkStmt(For([Declare(i, Pos(77, 18), Initialized)] + ([Declare(c5, Pos(77, 27), Initialized)]), [Use(i, Pos(77, 36), false)], [Use(i, Pos(77, 43), false)], Block([Exprs([Call([Argument([Declare(c5, Pos(79, 42), Initialized)])])])])), Ctx(4, [], []), tr) == Tree(tr.scopes + [Scope(ForInit, Some(4))] + [Scope(ForLoop, Some(17))] + [Scope(BlockBody, Some(18))], tr.events + [Declared(17, i, Pos(77, 18), Initialized, [])] + [Declared(17, c5, Pos(77, 27), Initialized, [])] + [Referenced(18, i, Pos(77, 36), false, false, [])] + [Declared(19, c5, Pos(79, 42), Initialized, [4])] + [OutAssigned(19, [], [4])] + [Referenced(18, i, Pos(77, 43), false, false, [4])], 5);
    WalkStmtsOne(For([Declare(i, Pos(82, 18), Initialized)] + ([Declare(c6, Pos(82, 27), Initialized)]), [Use(i, Pos(82, 36), false)], [Use(i, Pos(82, 43), false)], Block([Exprs([Declare(c6, Pos(84, 17), Initialized)])] + ([Exprs([Call([Argument([Use(c6, Pos(85, 38), false)])])])]))), Ctx(4, [], []), Tree(tr.scopes + [Scope(ForInit, Some(4))] + [Scope(ForLoop, Some(17))] + [Scope(BlockBody, Some(18))], tr.events + [Declared(17, i, Pos(77, 18), Initialized, [])] + [Declared(17, c5, Pos(77, 27), Initialized, [])] + [Referenced(18, i, Pos(77, 36), false, false, [])] + [Declared(19, c5, Pos(79, 42), Initialized, [4])] + [OutAssigned(19, [], [4])] + [Referenced(18, i, Pos(77, 43), false, false, [4])], 5));
    Walk9(i, c1, c2, c3, c4, c5, c6, Tree(tr.scopes + [Scope(ForInit, Some(4))] + [Scope(ForLoop, Some(17))] + [Scope(BlockBody, Some(18))], tr.events + [Declared(17, i, Pos(77, 18), Initialized, [])] + [Declared(17, c5, Pos(77, 27), Initialized, [])] + [Referenced(18, i, Pos(77, 36), false, false, [])] + [Declared(19, c5, Pos(79, 42), Initialized, [4])] + [OutAssigned(19, [], [4])] + [Referenced(18, i, Pos(77, 43), false, false, [4])], 5));
    assert WalkStmt(For([Declare(i, Pos(82, 18), Initialized)] + ([Declare(c6, Pos(82, 27), Initialized)]), [Use(i, Pos(82, 36), false)], [Use(i, Pos(82, 43), false)], Block([Exprs([Declare(c6, Pos(84, 17), Initialized)])] + ([Exprs([Call([Argument([Use(c6, Pos(85, 38), false)])])])]))), Ctx(4, [], []), Tree(tr.scopes + [Scope(ForInit, Some(4))] + [Scope(ForLoop, Some(17))] + [Scope(BlockBody, Some(18))], tr.events + [Declared(17, i, Pos(77, 18), Initialized, [])] + [Declared(17, c5, Pos(77, 27), Initialized, [])] + [Referenced(18, i, Pos(77, 36), false, false, [])] + [Declared(19, c5, Pos(79, 42), Initialized, [4])] + [OutAssigned(19, [], [4])] + [Referenced(18, i, Pos(77, 43), false, false, [4])], 5)) == Tree(tr.scopes + [Scope(ForInit, Some(4))] + [Scope(ForLoop, Some(17))] + [Scope(BlockBody, Some(18))] + [Scope(ForInit, Some(4))] + [Scope(ForLoop, Some(20))] + [Scope(BlockBody, Some(21))], tr.events + [Declared(17, i, Pos(77, 18), Initialized, [])] + [Declared(17, c5, Pos(77, 27), Initialized, [])] + [Referenced(18, i, Pos(77, 36), false, false, [])] + [Declared(19, c5, Pos(79, 42), Initialized, [4])] + [OutAssigned(19, [], [4])] + [Referenced(18, i, Pos(77, 43), false, false, [4])] + [Declared(20, i, Pos(82, 18), Initialized, [])] + [Declared(20, c6, Pos(82, 27), Initialized, [])] + [Referenced(21, i, Pos(82, 36), false, false, [])] + [Declared(22, c6, Pos(84, 17), Initialized, [5])] + [Referenced(22, c6, Pos(85, 38), false, false, [5])] + [OutAssigned(22, [], [5])] + [Referenced(21, i, Pos(82, 43), false, false, [5])], 6);
  }

  lemma {:induction false} Join0(i: string, c1: string, c2: string, c3: string, c4: string, c5: string, c6: string, evs: seq<Event>)
    ensures evs + Chunk0(i, c1, c2, c3, c4, c5, c6) == evs + [Declared(5, i, Pos(68, 18), Initialized, [])] + [Declared(5, c1, Pos(68, 27), Initialized, [])] + [Declared(5, c1, Pos(68, 42), Initialized, [])] + [Referenced(6, i, Pos(68, 51), false, false, [])] + [Declared(8, i, Pos(70, 18), Initialized, [])] + [Declared(8, c2, Pos(70, 27), Initialized, [])] + [Referenced(9, i, Pos(70, 36), false, false, [])] + [Declared(9, c2, Pos(70, 45), Initialized, [])]
  {
  }

  lemma {:induction false} Join1(i: string, c1: string, c2: string, c3: string, c4: string, c5: string, c6: string, evs: seq<Event>)
    ensures evs + Chunk1(i, c1, c2, c3, c4, c5, c6) == evs + [Declared(11, i, Pos(72, 18), Initialized, [])] + [Declared(11, c3, Pos(72, 27), Initialized, [])] + [Referenced(12, i, Pos(72, 36), false, false, [])] + [Referenced(12, i, Pos(72, 43), false, false, [2])] + [Declared(12, c3, Pos(72, 52), Initialized, [2])] + [Declared(14, i, Pos(74, 18), Initialized, [])] + [Declared(14, c4, Pos(74, 27), Initialized, [])] + [Referenced(15, i, Pos(74, 36), false, false, [])]
  {
  }

  lemma {:induction false} Join2(i: string, c1: string, c2: string, c3: string, c4: string, c5: string, c6: string, evs: seq<Event>)
    ensures evs + Chunk2(i, c1, c2, c3, c4, c5, c6) == evs + [Declared(16, c4, Pos(75, 42), Initialized, [3])] + [OutAssigned(16, [], [3])] + [Referenced(15, i, Pos(74, 43), false, false, [3])] + [Declared(17, i, Pos(77, 18), Initialized, [])] + [Declared(17, c5, Pos(77, 27), Initialized, [])] + [Referenced(18, i, Pos(77, 36), false, false, [])] + [Declared(19, c5, Pos(79, 42), Initialized, [4])] + [OutAssigned(19, [], [4])]
  {
  }

  lemma {:induction false} Join3(i: string, c1: string, c2: string, c3: string, c4: string, c5: string, c6: string, evs: seq<Event>)
    ensures evs + Chunk3(i, c1, c2, c3, c4, c5, c6) == evs + [Referenced(18, i, Pos(77, 43), false, false, [4])] + [Declared(20, i, Pos(82, 18), Initialized, [])] + [Declared(20, c6, Pos(82, 27), Initialized, [])] + [Referenced(21, i, Pos(82, 36), false, false, [])] + [Declared(22, c6, Pos(84, 17), Initialized, [5])] + [Referenced(22, c6, Pos(85, 38), false, false, [5])] + [OutAssigned(22, [], [5])] + [Referenced(21, i, Pos(82, 43), false, false, [5])]
  {
  }

  /** The trace, event by event. */
  lemma {:induction false} Flat(i: string, c1: string, c2: string, c3: string, c4: string, c5: string, c6: string)
    ensures [] + [Declared(5, i, Pos(68, 18), Initialized, [])] + [Declared(5, c1, Pos(68, 27), Initialized, [])] + [Declared(5, c1, Pos(68, 42), Initialized, [])] + [Referenced(6, i, Pos(68, 51), false, false, [])] + [Declared(8, i, Pos(70, 18), Initialized, [])] + [Declared(8, c2, Pos(70, 27), Initialized, [])] + [Referenced(9, i, Pos(70, 36), false, false, [])] + [Declared(9, c2, Pos(70, 45), Initialized, [])] + [Declared(11, i, Pos(72, 18), Initialized, [])] + [Declared(11, c3, Pos(72, 27), Initialized, [])] + [Referenced(12, i, Pos(72, 36), false, false, [])] + [Referenced(12, i, Pos(72, 43), false, false, [2])] + [Declared(12, c3, Pos(72, 52), Initialized, [2])] + [Declared(14, i, Pos(74, 18), Initialized, [])] + [Declared(14, c4, Pos(74, 27), Initialized, [])] + [Referenced(15, i, Pos(74, 36), false, false, [])] + [Declared(16, c4, Pos(75, 42), Initialized, [3])] + [OutAssigned(16, [], [3])] + [Referenced(15, i, Pos(74, 43), false, false, [3])] + [Declared(17, i, Pos(77, 18), Initialized, [])] + [Declared(17, c5, Pos(77, 27), Initialized, [])] + [Referenced(18, i, Pos(77, 36), false, false, [])] + [Declared(19, c5, Pos(79, 42), Initialized, [4])] + [OutAssigned(19, [], [4])] + [Referenced(18, i, Pos(77, 43), false, false, [4])] + [Declared(20, i, Pos(82, 18), Initialized, [])] + [Declared(20, c6, Pos(82, 27), Initialized, [])] + [Referenced(21, i, Pos(82, 36), false, false, [])] + [Declared(22, c6, Pos(84, 17), Initialized, [5])] + [Referenced(22, c6, Pos(85, 38), false, false, [5])] + [OutAssigned(22, [], [5])] + [Referenced(21, i, Pos(82, 43), false, false, [5])] == Trace(i, c1, c2, c3, c4, c5, c6)
  {
    Join0(i, c1, c2, c3, c4, c5, c6, []);
    Join1(i, c1, c2, c3, c4, c5, c6, [] + Chunk0(i, c1, c2, c3, c4, c5, c6));
    Join2(i, c1, c2, c3, c4, c5, c6, [] + Chunk0(i, c1, c2, c3, c4, c5, c6) + Chunk1(i, c1, c2, c3, c4, c5, c6));
    Join3(i, c1, c2, c3, c4, c5, c6, [] + Chunk0(i, c1, c2, c3, c4, c5, c6) + Chunk1(i, c1, c2, c3, c4, c5, c6) + Chunk2(i, c1, c2, c3, c4, c5, c6));
  }

  lemma {:induction false} Walked(i: string, c1: string, c2: string, c3: string, c4: string, c5: string, c6: string)
    ensures Build(Program(i, c1, c2, c3, c4, c5, c6)) == Tree(Layout(), Trace(i, c1, c2, c3, c4, c5, c6), 6)
  {
    MainBuild(Body(i, c1, c2, c3, c4, c5, c6));
    Stmts1(i, c1, c2, c3, c4, c5, c6, MainHead(), [For([Declare(i, Pos(77, 18), Initialized)] + ([Declare(c5, Pos(77, 27), Initialized)]), [Use(i, Pos(77, 36), false)], [Use(i, Pos(77, 43), false)], Block([Exprs([Call([Argument([Declare(c5, Pos(79, 42), Initialized)])])])]))] + ([For([Declare(i, Pos(82, 18), Initialized)] + ([Declare(c6, Pos(82, 27), Initialized)]), [Use(i, Pos(82, 36), false)], [Use(i, Pos(82, 43), false)], Block([Exprs([Declare(c6, Pos(84, 17), Initialized)])] + ([Exprs([Call([Argument([Use(c6, Pos(85, 38), false)])])])])))]));
    Stmts6(i, c1, c2, c3, c4, c5, c6, Tree(MainHead().scopes + [Scope(ForInit, Some(4))] + [Scope(ForLoop, Some(5))] + [Scope(EmbeddedBody, Some(6))] + [Scope(ForInit, Some(4))] + [Scope(ForLoop, Some(8))] + [Scope(EmbeddedBody, Some(9))] + [Scope(ForInit, Some(4))] + [Scope(ForLoop, Some(11))] + [Scope(EmbeddedBody, Some(12))] + [Scope(ForInit, Some(4))] + [Scope(ForLoop, Some(14))] + [Scope(EmbeddedBody, Some(15))], MainHead().events + [Declared(5, i, Pos(68, 18), Initialized, [])] + [Declared(5, c1, Pos(68, 27), Initialized, [])] + [Declared(5, c1, Pos(68, 42), Initialized, [])] + [Referenced(6, i, Pos(68, 51), false, false, [])] + [Declared(8, i, Pos(70, 18), Initialized, [])] + [Declared(8, c2, Pos(70, 27), Initialized, [])] + [Referenced(9, i, Pos(70, 36), false, false, [])] + [Declared(9, c2, Pos(70, 45), Initialized, [])] + [Declared(11, i, Pos(72, 18), Initialized, [])] + [Declared(11, c3, Pos(72, 27), Initialized, [])] + [Referenced(12, i, Pos(72, 36), false, false, [])] + [Referenced(12, i, Pos(72, 43), false, false, [2])] + [Declared(12, c3, Pos(72, 52), Initialized, [2])] + [Declared(14, i, Pos(74, 18), Initialized, [])] + [Declared(14, c4, Pos(74, 27), Initialized, [])] + [Referenced(15, i, Pos(74, 36), false, false, [])] + [Declared(16, c4, Pos(75, 42), Initialized, [3])] + [OutAssigned(16, [], [3])] + [Referenced(15, i, Pos(74, 43), false, false, [3])], 4));
    LayoutFlat();
    Flat(i, c1, c2, c3, c4, c5, c6);
  }

  /** The locals events of chunk `ck` declare in scope `sc`, in order. */
  function NewIn(i: string, c1: string, c2: string, c3: string, c4: string, c5: string, c6: string, ck: nat, sc: nat): seq<Local> {
    if ck == 0 then
      if sc == 5 then [] + [Local(i, Pos(68, 18))] + [Local(c1, Pos(68, 27))] + [Local(c1, Pos(68, 42))]
      else if sc == 8 then [] + [Local(i, Pos(70, 18))] + [Local(c2, Pos(70, 27))]
      else if sc == 9 then [] + [Local(c2, Pos(70, 45))]
      else []
    else if ck == 1 then
      if sc == 11 then [] + [Local(i, Pos(72, 18))] + [Local(c3, Pos(72, 27))]
      else if sc == 12 then [] + [Local(c3, Pos(72, 52))]
      else if sc == 14 then [] + [Local(i, Pos(74, 18))] + [Local(c4, Pos(74, 27))]
      else []
    else if ck == 2 then
      if sc == 16 then [] + [Local(c4, Pos(75, 42))]
      else if sc == 17 then [] + [Local(i, Pos(77, 18))] + [Local(c5, Pos(77, 27))]
      else if sc == 19 then [] + [Local(c5, Pos(79, 42))]
      else []
    else if ck == 3 then
      if sc == 20 then [] + [Local(i, Pos(82, 18))] + [Local(c6, Pos(82, 27))]
      else if sc == 22 then [] + [Local(c6, Pos(84, 17))]
      else []
    else []
  }

  /** The locals the first `ck` chunks declare in scope `sc`, in order. */
  function DeclaredBy(i: string, c1: string, c2: string, c3: string, c4: string, c5: string, c6: string, ck: nat, sc: nat): seq<Local>
    decreases ck
  {
    if ck == 0 then [] else DeclaredBy(i, c1, c2, c3, c4, c5, c6, ck - 1, sc) + NewIn(i, c1, c2, c3, c4, c5, c6, ck - 1, sc)
  }

  /** The locals declared once events 0 to 7 follow some events. */
  lemma {:induction false} Decls0(i: string, c1: string, c2: string, c3: string, c4: string, c5: string, c6: string, evs: seq<Event>, sc: nat)
    requires DeclsIn(evs, sc) == DeclaredBy(i, c1, c2, c3, c4, c5, c6, 0, sc)
    ensures DeclsIn(evs + Chunk0(i, c1, c2, c3, c4, c5, c6), sc) == DeclaredBy(i, c1, c2, c3, c4, c5, c6, 1, sc)
  {
    DeclsInAppend(evs, Chunk0(i, c1, c2, c3, c4, c5, c6), sc);
    assert DeclsIn([], sc) == [];
    if sc == 5 {
      DeclsInAdd([], Declared(5, i, Pos(68, 18), Initialized, []), 5);
      DeclsInAdd([] + [Declared(5, i, Pos(68, 18), Initialized, [])], Declared(5, c1, Pos(68, 27), Initialized, []), 5);
      DeclsInAdd([] + [Declared(5, i, Pos(68, 18), Initialized, [])] + [Declared(5, c1, Pos(68, 27), Initialized, [])], Declared(5, c1, Pos(68, 42), Initialized, []), 5);
      DeclsInSkip([] + [Declared(5, i, Pos(68, 18), Initialized, [])] + [Declared(5, c1, Pos(68, 27), Initialized, [])] + [Declared(5, c1, Pos(68, 42), Initialized, [])], Referenced(6, i, Pos(68, 51), false, false, []), 5);
      DeclsInSkip([] + [Declared(5, i, Pos(68, 18), Initialized, [])] + [Declared(5, c1, Pos(68, 27), Initialized, [])] + [Declared(5, c1, Pos(68, 42), Initialized, [])] + [Referenced(6, i, Pos(68, 51), false, false, [])], Declared(8, i, Pos(70, 18), Initialized, []), 5);
      DeclsInSkip([] + [Declared(5, i, Pos(68, 18), Initialized, [])] + [Declared(5, c1, Pos(68, 27), Initialized, [])] + [Declared(5, c1, Pos(68, 42), Initialized, [])] + [Referenced(6, i, Pos(68, 51), false, false, [])] + [Declared(8, i, Pos(70, 18), Initialized, [])], Declared(8, c2, Pos(70, 27), Initialized, []), 5);
      DeclsInSkip([] + [Declared(5, i, Pos(68, 18), Initialized, [])] + [Declared(5, c1, Pos(68, 27), Initialized, [])] + [Declared(5, c1, Pos(68, 42), Initialized, [])] + [Referenced(6, i, Pos(68, 51), false, false, [])] + [Declared(8, i, Pos(70, 18), Initialized, [])] + [Declared(8, c2, Pos(70, 27), Initialized, [])], Referenced(9, i, Pos(70, 36), false, false, []), 5);
      DeclsInSkip([] + [Declared(5, i, Pos(68, 18), Initialized, [])] + [Declared(5, c1, Pos(68, 27), Initialized, [])] + [Declared(5, c1, Pos(68, 42), Initialized, [])] + [Referenced(6, i, Pos(68, 51), false, false, [])] + [Declared(8, i, Pos(70, 18), Initialized, [])] + [Declared(8, c2, Pos(70, 27), Initialized, [])] + [Referenced(9, i, Pos(70, 36), false, false, [])], Declared(9, c2, Pos(70, 45), Initialized, []), 5);
    } else if sc == 8 {
      DeclsInSkip([], Declared(5, i, Pos(68, 18), Initialized, []), 8);
      DeclsInSkip([] + [Declared(5, i, Pos(68, 18), Initialized, [])], Declared(5, c1, Pos(68, 27), Initialized, []), 8);
      DeclsInSkip([] + [Declared(5, i, Pos(68, 18), Initialized, [])] + [Declared(5, c1, Pos(68, 27), Initialized, [])], Declared(5, c1, Pos(68, 42), Initialized, []), 8);
      DeclsInSkip([] + [Declared(5, i, Pos(68, 18), Initialized, [])] + [Declared(5, c1, Pos(68, 27), Initialized, [])] + [Declared(5, c1, Pos(68, 42), Initialized, [])], Referenced(6, i, Pos(68, 51), false, false, []), 8);
      DeclsInAdd([] + [Declared(5, i, Pos(68, 18), Initialized, [])] + [Declared(5, c1, Pos(68, 27), Initialized, [])] + [Declared(5, c1, Pos(68, 42), Initialized, [])] + [Referenced(6, i, Pos(68, 51), false, false, [])], Declared(8, i, Pos(70, 18), Initialized, []), 8);
      DeclsInAdd([] + [Declared(5, i, Pos(68, 18), Initialized, [])] + [Declared(5, c1, Pos(68, 27), Initialized, [])] + [Declared(5, c1, Pos(68, 42), Initialized, [])] + [Referenced(6, i, Pos(68, 51), false, false, [])] + [Declared(8, i, Pos(70, 18), Initialized, [])], Declared(8, c2, Pos(70, 27), Initialized, []), 8);
      DeclsInSkip([] + [Declared(5, i, Pos(68, 18), Initialized, [])] + [Declared(5, c1, Pos(68, 27), Initialized, [])] + [Declared(5, c1, Pos(68, 42), Initialized, [])] + [Referenced(6, i, Pos(68, 51), false, false, [])] + [Declared(8, i, Pos(70, 18), Initialized, [])] + [Declared(8, c2, Pos(70, 27), Initialized, [])], Referenced(9, i, Pos(70, 36), false, false, []), 8);
      DeclsInSkip([] + [Declared(5, i, Pos(68, 18), Initialized, [])] + [Declared(5, c1, Pos(68, 27), Initialized, [])] + [Declared(5, c1, Pos(68, 42), Initialized, [])] + [Referenced(6, i, Pos(68, 51), false, false, [])] + [Declared(8, i, Pos(70, 18), Initialized, [])] + [Declared(8, c2, Pos(70, 27), Initialized, [])] + [Referenced(9, i, Pos(70, 36), false, false, [])], Declared(9, c2, Pos(70, 45), Initialized, []), 8);
    } else if sc == 9 {
      DeclsInSkip([], Declared(5, i, Pos(68, 18), Initialized, []), 9);
      DeclsInSkip([] + [Declared(5, i, Pos(68, 18), Initialized, [])], Declared(5, c1, Pos(68, 27), Initialized, []), 9);
      DeclsInSkip([] + [Declared(5, i, Pos(68, 18), Initialized, [])] + [Declared(5, c1, Pos(68, 27), Initialized, [])], Declared(5, c1, Pos(68, 42), Initialized, []), 9);
      DeclsInSkip([] + [Declared(5, i, Pos(68, 18), Initialized, [])] + [Declared(5, c1, Pos(68, 27), Initialized, [])] + [Declared(5, c1, Pos(68, 42), Initialized, [])], Referenced(6, i, Pos(68, 51), false, false, []), 9);
      DeclsInSkip([] + [Declared(5, i, Pos(68, 18), Initialized, [])] + [Declared(5, c1, Pos(68, 27), Initialized, [])] + [Declared(5, c1, Pos(68, 42), Initialized, [])] + [Referenced(6, i, Pos(68, 51), false, false, [])], Declared(8, i, Pos(70, 18), Initialized, []), 9);
      DeclsInSkip([] + [Declared(5, i, Pos(68, 18), Initialized, [])] + [Declared(5, c1, Pos(68, 27), Initialized, [])] + [Declared(5, c1, Pos(68, 42), Initialized, [])] + [Referenced(6, i, Pos(68, 51), false, false, [])] + [Declared(8, i, Pos(70, 18), Initialized, [])], Declared(8, c2, Pos(70, 27), Initialized, []), 9);
      DeclsInSkip([] + [Declared(5, i, Pos(68, 18), Initialized, [])] + [Declared(5, c1, Pos(68, 27), Initialized, [])] + [Declared(5, c1, Pos(68, 42), Initialized, [])] + [Referenced(6, i, Pos(68, 51), false, false, [])] + [Declared(8, i, Pos(70, 18), Initialized, [])] + [Declared(8, c2, Pos(70, 27), Initialized, [])], Referenced(9, i, Pos(70, 36), false, false, []), 9);
      DeclsInAdd([] + [Declared(5, i, Pos(68, 18), Initialized, [])] + [Declared(5, c1, Pos(68, 27), Initialized, [])] + [Declared(5, c1, Pos(68, 42), Initialized, [])] + [Referenced(6, i, Pos(68, 51), false, false, [])] + [Declared(8, i, Pos(70, 18), Initialized, [])] + [Declared(8, c2, Pos(70, 27), Initialized, [])] + [Referenced(9, i, Pos(70, 36), false, false, [])], Declared(9, c2, Pos(70, 45), Initialized, []), 9);
    } else {
      DeclsInSkip([], Declared(5, i, Pos(68, 18), Initialized, []), sc);
      DeclsInSkip([] + [Declared(5, i, Pos(68, 18), Initialized, [])], Declared(5, c1, Pos(68, 27), Initialized, []), sc);
      DeclsInSkip([] + [Declared(5, i, Pos(68, 18), Initialized, [])] + [Declared(5, c1, Pos(68, 27), Initialized, [])], Declared(5, c1, Pos(68, 42), Initialized, []), sc);
      DeclsInSkip([] + [Declared(5, i, Pos(68, 18), Initialized, [])] + [Declared(5, c1, Pos(68, 27), Initialized, [])] + [Declared(5, c1, Pos(68, 42), Initialized, [])], Referenced(6, i, Pos(68, 51), false, false, []), sc);
      DeclsInSkip([] + [Declared(5, i, Pos(68, 18), Initialized, [])] + [Declared(5, c1, Pos(68, 27), Initialized, [])] + [Declared(5, c1, Pos(68, 42), Initialized, [])] + [Referenced(6, i, Pos(68, 51), false, false, [])], Declared(8, i, Pos(70, 18), Initialized, []), sc);
      DeclsInSkip([] + [Declared(5, i, Pos(68, 18), Initialized, [])] + [Declared(5, c1, Pos(68, 27), Initialized, [])] + [Declared(5, c1, Pos(68, 42), Initialized, [])] + [Referenced(6, i, Pos(68, 51), false, false, [])] + [Declared(8, i, Pos(70, 18), Initialized, [])], Declared(8, c2, Pos(70, 27), Initialized, []), sc);
      DeclsInSkip([] + [Declared(5, i, Pos(68, 18), Initialized, [])] + [Declared(5, c1, Pos(68, 27), Initialized, [])] + [Declared(5, c1, Pos(68, 42), Initialized, [])] + [Referenced(6, i, Pos(68, 51), false, false, [])] + [Declared(8, i, Pos(70, 18), Initialized, [])] + [Declared(8, c2, Pos(70, 27), Initialized, [])], Referenced(9, i, Pos(70, 36), false, false, []), sc);
      DeclsInSkip([] + [Declared(5, i, Pos(68, 18), Initialized, [])] + [Declared(5, c1, Pos(68, 27), Initialized, [])] + [Declared(5, c1, Pos(68, 42), Initialized, [])] + [Referenced(6, i, Pos(68, 51), false, false, [])] + [Declared(8, i, Pos(70, 18), Initialized, [])] + [Declared(8, c2, Pos(70, 27), Initialized, [])] + [Referenced(9, i, Pos(70, 36), false, false, [])], Declared(9, c2, Pos(70, 45), Initialized, []), sc);
      AppendNil(DeclsIn(evs, sc));
    }
  }

  /** The locals declared once events 8 to 15 follow some events. */
  lemma {:induction false} Decls1(i: string, c1: string, c2: string, c3: string, c4: string, c5: string, c6: string, evs: seq<Event>, sc: nat)
    requires DeclsIn(evs, sc) == DeclaredBy(i, c1, c2, c3, c4, c5, c6, 1, sc)
    ensures DeclsIn(evs + Chunk1(i, c1, c2, c3, c4, c5, c6), sc) == DeclaredBy(i, c1, c2, c3, c4, c5, c6, 2, sc)
  {
    DeclsInAppend(evs, Chunk1(i, c1, c2, c3, c4, c5, c6), sc);
    assert DeclsIn([], sc) == [];
    if sc == 11 {
      DeclsInAdd([], Declared(11, i, Pos(72, 18), Initialized, []), 11);
      DeclsInAdd([] + [Declared(11, i, Pos(72, 18), Initialized, [])], Declared(11, c3, Pos(72, 27), Initialized, []), 11);
      DeclsInSkip([] + [Declared(11, i, Pos(72, 18), Initialized, [])] + [Declared(11, c3, Pos(72, 27), Initialized, [])], Referenced(12, i, Pos(72, 36), false, false, []), 11);
      DeclsInSkip([] + [Declared(11, i, Pos(72, 18), Initialized, [])] + [Declared(11, c3, Pos(72, 27), Initialized, [])] + [Referenced(12, i, Pos(72, 36), false, false, [])], Referenced(12, i, Pos(72, 43), false, false, [2]), 11);
      DeclsInSkip([] + [Declared(11, i, Pos(72, 18), Initialized, [])] + [Declared(11, c3, Pos(72, 27), Initialized, [])] + [Referenced(12, i, Pos(72, 36), false, false, [])] + [Referenced(12, i, Pos(72, 43), false, false, [2])], Declared(12, c3, Pos(72, 52), Initialized, [2]), 11);
      DeclsInSkip([] + [Declared(11, i, Pos(72, 18), Initialized, [])] + [Declared(11, c3, Pos(72, 27), Initialized, [])] + [Referenced(12, i, Pos(72, 36), false, false, [])] + [Referenced(12, i, Pos(72, 43), false, false, [2])] + [Declared(12, c3, Pos(72, 52), Initialized, [2])], Declared(14, i, Pos(74, 18), Initialized, []), 11);
      DeclsInSkip([] + [Declared(11, i, Pos(72, 18), Initialized, [])] + [Declared(11, c3, Pos(72, 27), Initialized, [])] + [Referenced(12, i, Pos(72, 36), false, false, [])] + [Referenced(12, i, Pos(72, 43), false, false, [2])] + [Declared(12, c3, Pos(72, 52), Initialized, [2])] + [Declared(14, i, Pos(74, 18), Initialized, [])], Declared(14, c4, Pos(74, 27), Initialized, []), 11);
      DeclsInSkip([] + [Declared(11, i, Pos(72, 18), Initialized, [])] + [Declared(11, c3, Pos(72, 27), Initialized, [])] + [Referenced(12, i, Pos(72, 36), false, false, [])] + [Referenced(12, i, Pos(72, 43), false, false, [2])] + [Declared(12, c3, Pos(72, 52), Initialized, [2])] + [Declared(14, i, Pos(74, 18), Initialized, [])] + [Declared(14, c4, Pos(74, 27), Initialized, [])], Referenced(15, i, Pos(74, 36), false, false, []), 11);
    } else if sc == 12 {
      DeclsInSkip([], Declared(11, i, Pos(72, 18), Initialized, []), 12);
      DeclsInSkip([] + [Declared(11, i, Pos(72, 18), Initialized, [])], Declared(11, c3, Pos(72, 27), Initialized, []), 12);
      DeclsInSkip([] + [Declared(11, i, Pos(72, 18), Initialized, [])] + [Declared(11, c3, Pos(72, 27), Initialized, [])], Referenced(12, i, Pos(72, 36), false, false, []), 12);
      DeclsInSkip([] + [Declared(11, i, Pos(72, 18), Initialized, [])] + [Declared(11, c3, Pos(72, 27), Initialized, [])] + [Referenced(12, i, Pos(72, 36), false, false, [])], Referenced(12, i, Pos(72, 43), false, false, [2]), 12);
      DeclsInAdd([] + [Declared(11, i, Pos(72, 18), Initialized, [])] + [Declared(11, c3, Pos(72, 27), Initialized, [])] + [Referenced(12, i, Pos(72, 36), false, false, [])] + [Referenced(12, i, Pos(72, 43), false, false, [2])], Declared(12, c3, Pos(72, 52), Initialized, [2]), 12);
      DeclsInSkip([] + [Declared(11, i, Pos(72, 18), Initialized, [])] + [Declared(11, c3, Pos(72, 27), Initialized, [])] + [Referenced(12, i, Pos(72, 36), false, false, [])] + [Referenced(12, i, Pos(72, 43), false, false, [2])] + [Declared(12, c3, Pos(72, 52), Initialized, [2])], Declared(14, i, Pos(74, 18), Initialized, []), 12);
      DeclsInSkip([] + [Declared(11, i, Pos(72, 18), Initialized, [])] + [Declared(11, c3, Pos(72, 27), Initialized, [])] + [Referenced(12, i, Pos(72, 36), false, false, [])] + [Referenced(12, i, Pos(72, 43), false, false, [2])] + [Declared(12, c3, Pos(72, 52), Initialized, [2])] + [Declared(14, i, Pos(74, 18), Initialized, [])], Declared(14, c4, Pos(74, 27), Initialized, []), 12);
      DeclsInSkip([] + [Declared(11, i, Pos(72, 18), Initialized, [])] + [Declared(11, c3, Pos(72, 27), Initialized, [])] + [Referenced(12, i, Pos(72, 36), false, false, [])] + [Referenced(12, i, Pos(72, 43), false, false, [2])] + [Declared(12, c3, Pos(72, 52), Initialized, [2])] + [Declared(14, i, Pos(74, 18), Initialized, [])] + [Declared(14, c4, Pos(74, 27), Initialized, [])], Referenced(15, i, Pos(74, 36), false, false, []), 12);
    } else if sc == 14 {
      DeclsInSkip([], Declared(11, i, Pos(72, 18), Initialized, []), 14);
      DeclsInSkip([] + [Declared(11, i, Pos(72, 18), Initialized, [])], Declared(11, c3, Pos(72, 27), Initialized, []), 14);
      DeclsInSkip([] + [Declared(11, i, Pos(72, 18), Initialized, [])] + [Declared(11, c3, Pos(72, 27), Initialized, [])], Referenced(12, i, Pos(72, 36), false, false, []), 14);
      DeclsInSkip([] + [Declared(11, i, Pos(72, 18), Initialized, [])] + [Declared(11, c3, Pos(72, 27), Initialized, [])] + [Referenced(12, i, Pos(72, 36), false, false, [])], Referenced(12, i, Pos(72, 43), false, false, [2]), 14);
      DeclsInSkip([] + [Declared(11, i, Pos(72, 18), Initialized, [])] + [Declared(11, c3, Pos(72, 27), Initialized, [])] + [Referenced(12, i, Pos(72, 36), false, false, [])] + [Referenced(12, i, Pos(72, 43), false, false, [2])], Declared(12, c3, Pos(72, 52), Initialized, [2]), 14);
      DeclsInAdd([] + [Declared(11, i, Pos(72, 18), Initialized, [])] + [Declared(11, c3, Pos(72, 27), Initialized, [])] + [Referenced(12, i, Pos(72, 36), false, false, [])] + [Referenced(12, i, Pos(72, 43), false, false, [2])] + [Declared(12, c3, Pos(72, 52), Initialized, [2])], Declared(14, i, Pos(74, 18), Initialized, []), 14);
      DeclsInAdd([] + [Declared(11, i, Pos(72, 18), Initialized, [])] + [Declared(11, c3, Pos(72, 27), Initialized, [])] + [Referenced(12, i, Pos(72, 36), false, false, [])] + [Referenced(12, i, Pos(72, 43), false, false, [2])] + [Declared(12, c3, Pos(72, 52), Initialized, [2])] + [Declared(14, i, Pos(74, 18), Initialized, [])], Declared(14, c4, Pos(74, 27), Initialized, []), 14);
      DeclsInSkip([] + [Declared(11, i, Pos(72, 18), Initialized, [])] + [Declared(11, c3, Pos(72, 27), Initialized, [])] + [Referenced(12, i, Pos(72, 36), false, false, [])] + [Referenced(12, i, Pos(72, 43), false, false, [2])] + [Declared(12, c3, Pos(72, 52), Initialized, [2])] + [Declared(14, i, Pos(74, 18), Initialized, [])] + [Declared(14, c4, Pos(74, 27), Initialized, [])], Referenced(15, i, Pos(74, 36), false, false, []), 14);
    } else {
      DeclsInSkip([], Declared(11, i, Pos(72, 18), Initialized, []), sc);
      DeclsInSkip([] + [Declared(11, i, Pos(72, 18), Initialized, [])], Declared(11, c3, Pos(72, 27), Initialized, []), sc);
      DeclsInSkip([] + [Declared(11, i, Pos(72, 18), Initialized, [])] + [Declared(11, c3, Pos(72, 27), Initialized, [])], Referenced(12, i, Pos(72, 36), false, false, []), sc);
      DeclsInSkip([] + [Declared(11, i, Pos(72, 18), Initialized, [])] + [Declared(11, c3, Pos(72, 27), Initialized, [])] + [Referenced(12, i, Pos(72, 36), false, false, [])], Referenced(12, i, Pos(72, 43), false, false, [2]), sc);
      DeclsInSkip([] + [Declared(11, i, Pos(72, 18), Initialized, [])] + [Declared(11, c3, Pos(72, 27), Initialized, [])] + [Referenced(12, i, Pos(72, 36), false, false, [])] + [Referenced(12, i, Pos(72, 43), false, false, [2])], Declared(12, c3, Pos(72, 52), Initialized, [2]), sc);
      DeclsInSkip([] + [Declared(11, i, Pos(72, 18), Initialized, [])] + [Declared(11, c3, Pos(72, 27), Initialized, [])] + [Referenced(12, i, Pos(72, 36), false, false, [])] + [Referenced(12, i, Pos(72, 43), false, false, [2])] + [Declared(12, c3, Pos(72, 52), Initialized, [2])], Declared(14, i, Pos(74, 18), Initialized, []), sc);
      DeclsInSkip([] + [Declared(11, i, Pos(72, 18), Initialized, [])] + [Declared(11, c3, Pos(72, 27), Initialized, [])] + [Referenced(12, i, Pos(72, 36), false, false, [])] + [Referenced(12, i, Pos(72, 43), false, false, [2])] + [Declared(12, c3, Pos(72, 52), Initialized, [2])] + [Declared(14, i, Pos(74, 18), Initialized, [])], Declared(14, c4, Pos(74, 27), Initialized, []), sc);
      DeclsInSkip([] + [Declared(11, i, Pos(72, 18), Initialized, [])] + [Declared(11, c3, Pos(72, 27), Initialized, [])] + [Referenced(12, i, Pos(72, 36), false, false, [])] + [Referenced(12, i, Pos(72, 43), false, false, [2])] + [Declared(12, c3, Pos(72, 52), Initialized, [2])] + [Declared(14, i, Pos(74, 18), Initialized, [])] + [Declared(14, c4, Pos(74, 27), Initialized, [])], Referenced(15, i, Pos(74, 36), false, false, []), sc);
      AppendNil(DeclsIn(evs, sc));
    }
  }

  /** The locals declared once events 16 to 23 follow some events. */
  lemma {:induction false} Decls2(i: string, c1: string, c2: string, c3: string, c4: string, c5: string, c6: string, evs: seq<Event>, sc: nat)
    requires DeclsIn(evs, sc) == DeclaredBy(i, c1, c2, c3, c4, c5, c6, 2, sc)
    ensures DeclsIn(evs + Chunk2(i, c1, c2, c3, c4, c5, c6), sc) == DeclaredBy(i, c1, c2, c3, c4, c5, c6, 3, sc)
  {
    DeclsInAppend(evs, Chunk2(i, c1, c2, c3, c4, c5, c6), sc);
    assert DeclsIn([], sc) == [];
    if sc == 16 {
      DeclsInAdd([], Declared(16, c4, Pos(75, 42), Initialized, [3]), 16);
      DeclsInSkip([] + [Declared(16, c4, Pos(75, 42), Initialized, [3])], OutAssigned(16, [], [3]), 16);
      DeclsInSkip([] + [Declared(16, c4, Pos(75, 42), Initialized, [3])] + [OutAssigned(16, [], [3])], Referenced(15, i, Pos(74, 43), false, false, [3]), 16);
      DeclsInSkip([] + [Declared(16, c4, Pos(75, 42), Initialized, [3])] + [OutAssigned(16, [], [3])] + [Referenced(15, i, Pos(74, 43), false, false, [3])], Declared(17, i, Pos(77, 18), Initialized, []), 16);
      DeclsInSkip([] + [Declared(16, c4, Pos(75, 42), Initialized, [3])] + [OutAssigned(16, [], [3])] + [Referenced(15, i, Pos(74, 43), false, false, [3])] + [Declared(17, i, Pos(77, 18), Initialized, [])], Declared(17, c5, Pos(77, 27), Initialized, []), 16);
      DeclsInSkip([] + [Declared(16, c4, Pos(75, 42), Initialized, [3])] + [OutAssigned(16, [], [3])] + [Referenced(15, i, Pos(74, 43), false, false, [3])] + [Declared(17, i, Pos(77, 18), Initialized, [])] + [Declared(17, c5, Pos(77, 27), Initialized, [])], Referenced(18, i, Pos(77, 36), false, false, []), 16);
      DeclsInSkip([] + [Declared(16, c4, Pos(75, 42), Initialized, [3])] + [OutAssigned(16, [], [3])] + [Referenced(15, i, Pos(74, 43), false, false, [3])] + [Declared(17, i, Pos(77, 18), Initialized, [])] + [Declared(17, c5, Pos(77, 27), Initialized, [])] + [Referenced(18, i, Pos(77, 36), false, false, [])], Declared(19, c5, Pos(79, 42), Initialized, [4]), 16);
      DeclsInSkip([] + [Declared(16, c4, Pos(75, 42), Initialized, [3])] + [OutAssigned(16, [], [3])] + [Referenced(15, i, Pos(74, 43), false, false, [3])] + [Declared(17, i, Pos(77, 18), Initialized, [])] + [Declared(17, c5, Pos(77, 27), Initialized, [])] + [Referenced(18, i, Pos(77, 36), false, false, [])] + [Declared(19, c5, Pos(79, 42), Initialized, [4])], OutAssigned(19, [], [4]), 16);
    } else if sc == 17 {
      DeclsInSkip([], Declared(16, c4, Pos(75, 42), Initialized, [3]), 17);
      DeclsInSkip([] + [Declared(16, c4, Pos(75, 42), Initialized, [3])], OutAssigned(16, [], [3]), 17);
      DeclsInSkip([] + [Declared(16, c4, Pos(75, 42), Initialized, [3])] + [OutAssigned(16, [], [3])], Referenced(15, i, Pos(74, 43), false, false, [3]), 17);
      DeclsInAdd([] + [Declared(16, c4, Pos(75, 42), Initialized, [3])] + [OutAssigned(16, [], [3])] + [Referenced(15, i, Pos(74, 43), false, false, [3])], Declared(17, i, Pos(77, 18), Initialized, []), 17);
      DeclsInAdd([] + [Declared(16, c4, Pos(75, 42), Initialized, [3])] + [OutAssigned(16, [], [3])] + [Referenced(15, i, Pos(74, 43), false, false, [3])] + [Declared(17, i, Pos(77, 18), Initialized, [])], Declared(17, c5, Pos(77, 27), Initialized, []), 17);
      DeclsInSkip([] + [Declared(16, c4, Pos(75, 42), Initialized, [3])] + [OutAssigned(16, [], [3])] + [Referenced(15, i, Pos(74, 43), false, false, [3])] + [Declared(17, i, Pos(77, 18), Initialized, [])] + [Declared(17, c5, Pos(77, 27), Initialized, [])], Referenced(18, i, Pos(77, 36), false, false, []), 17);
      DeclsInSkip([] + [Declared(16, c4, Pos(75, 42), Initialized, [3])] + [OutAssigned(16, [], [3])] + [Referenced(15, i, Pos(74, 43), false, false, [3])] + [Declared(17, i, Pos(77, 18), Initialized, [])] + [Declared(17, c5, Pos(77, 27), Initialized, [])] + [Referenced(18, i, Pos(77, 36), false, false, [])], Declared(19, c5, Pos(79, 42), Initialized, [4]), 17);
      DeclsInSkip([] + [Declared(16, c4, Pos(75, 42), Initialized, [3])] + [OutAssigned(16, [], [3])] + [Referenced(15, i, Pos(74, 43), false, false, [3])] + [Declared(17, i, Pos(77, 18), Initialized, [])] + [Declared(17, c5, Pos(77, 27), Initialized, [])] + [Referenced(18, i, Pos(77, 36), false, false, [])] + [Declared(19, c5, Pos(79, 42), Initialized, [4])], OutAssigned(19, [], [4]), 17);
    } else if sc == 19 {
      DeclsInSkip([], Declared(16, c4, Pos(75, 42), Initialized, [3]), 19);
      DeclsInSkip([] + [Declared(16, c4, Pos(75, 42), Initialized, [3])], OutAssigned(16, [], [3]), 19);
      DeclsInSkip([] + [Declared(16, c4, Pos(75, 42), Initialized, [3])] + [OutAssigned(16, [], [3])], Referenced(15, i, Pos(74, 43), false, false, [3]), 19);
      DeclsInSkip([] + [Declared(16, c4, Pos(75, 42), Initialized, [3])] + [OutAssigned(16, [], [3])] + [Referenced(15, i, Pos(74, 43), false, false, [3])], Declared(17, i, Pos(77, 18), Initialized, []), 19);
      DeclsInSkip([] + [Declared(16, c4, Pos(75, 42), Initialized, [3])] + [OutAssigned(16, [], [3])] + [Referenced(15, i, Pos(74, 43), false, false, [3])] + [Declared(17, i, Pos(77, 18), Initialized, [])], Declared(17, c5, Pos(77, 27), Initialized, []), 19);
      DeclsInSkip([] + [Declared(16, c4, Pos(75, 42), Initialized, [3])] + [OutAssigned(16, [], [3])] + [Referenced(15, i, Pos(74, 43), false, false, [3])] + [Declared(17, i, Pos(77, 18), Initialized, [])] + [Declared(17, c5, Pos(77, 27), Initialized, [])], Referenced(18, i, Pos(77, 36), false, false, []), 19);
      DeclsInAdd([] + [Declared(16, c4, Pos(75, 42), Initialized, [3])] + [OutAssigned(16, [], [3])] + [Referenced(15, i, Pos(74, 43), false, false, [3])] + [Declared(17, i, Pos(77, 18), Initialized, [])] + [Declared(17, c5, Pos(77, 27), Initialized, [])] + [Referenced(18, i, Pos(77, 36), false, false, [])], Declared(19, c5, Pos(79, 42), Initialized, [4]), 19);
      DeclsInSkip([] + [Declared(16, c4, Pos(75, 42), Initialized, [3])] + [OutAssigned(16, [], [3])] + [Referenced(15, i, Pos(74, 43), false, false, [3])] + [Declared(17, i, Pos(77, 18), Initialized, [])] + [Declared(17, c5, Pos(77, 27), Initialized, [])] + [Referenced(18, i, Pos(77, 36), false, false, [])] + [Declared(19, c5, Pos(79, 42), Initialized, [4])], OutAssigned(19, [], [4]), 19);
    } else {
      DeclsInSkip([], Declared(16, c4, Pos(75, 42), Initialized, [3]), sc);
      DeclsInSkip([] + [Declared(16, c4, Pos(75, 42), Initialized, [3])], OutAssigned(16, [], [3]), sc);
      DeclsInSkip([] + [Declared(16, c4, Pos(75, 42), Initialized, [3])] + [OutAssigned(16, [], [3])], Referenced(15, i, Pos(74, 43), false, false, [3]), sc);
      DeclsInSkip([] + [Declared(16, c4, Pos(75, 42), Initialized, [3])] + [OutAssigned(16, [], [3])] + [Referenced(15, i, Pos(74, 43), false, false, [3])], Declared(17, i, Pos(77, 18), Initialized, []), sc);
      DeclsInSkip([] + [Declared(16, c4, Pos(75, 42), Initialized, [3])] + [OutAssigned(16, [], [3])] + [Referenced(15, i, Pos(74, 43), false, false, [3])] + [Declared(17, i, Pos(77, 18), Initialized, [])], Declared(17, c5, Pos(77, 27), Initialized, []), sc);
      DeclsInSkip([] + [Declared(16, c4, Pos(75, 42), Initialized, [3])] + [OutAssigned(16, [], [3])] + [Referenced(15, i, Pos(74, 43), false, false, [3])] + [Declared(17, i, Pos(77, 18), Initialized, [])] + [Declared(17, c5, Pos(77, 27), Initialized, [])], Referenced(18, i, Pos(77, 36), false, false, []), sc);
      DeclsInSkip([] + [Declared(16, c4, Pos(75, 42), Initialized, [3])] + [OutAssigned(16, [], [3])] + [Referenced(15, i, Pos(74, 43), false, false, [3])] + [Declared(17, i, Pos(77, 18), Initialized, [])] + [Declared(17, c5, Pos(77, 27), Initialized, [])] + [Referenced(18, i, Pos(77, 36), false, false, [])], Declared(19, c5, Pos(79, 42), Initialized, [4]), sc);
      DeclsInSkip([] + [Declared(16, c4, Pos(75, 42), Initialized, [3])] + [OutAssigned(16, [], [3])] + [Referenced(15, i, Pos(74, 43), false, false, [3])] + [Declared(17, i, Pos(77, 18), Initialized, [])] + [Declared(17, c5, Pos(77, 27), Initialized, [])] + [Referenced(18, i, Pos(77, 36), false, false, [])] + [Declared(19, c5, Pos(79, 42), Initialized, [4])], OutAssigned(19, [], [4]), sc);
      AppendNil(DeclsIn(evs, sc));
    }
  }

  /** The locals declared once events 24 to 31 follow some events. */
  lemma {:induction false} Decls3(i: string, c1: string, c2: string, c3: string, c4: string, c5: string, c6: string, evs: seq<Event>, sc: nat)
    requires DeclsIn(evs, sc) == DeclaredBy(i, c1, c2, c3, c4, c5, c6, 3, sc)
    ensures DeclsIn(evs + Chunk3(i, c1, c2, c3, c4, c5, c6), sc) == DeclaredBy(i, c1, c2, c3, c4, c5, c6, 4, sc)
  {
    DeclsInAppend(evs, Chunk3(i, c1, c2, c3, c4, c5, c6), sc);
    assert DeclsIn([], sc) == [];
    if sc == 20 {
      DeclsInSkip([], Referenced(18, i, Pos(77, 43), false, false, [4]), 20);
      DeclsInAdd([] + [Referenced(18, i, Pos(77, 43), false, false, [4])], Declared(20, i, Pos(82, 18), Initialized, []), 20);
      DeclsInAdd([] + [Referenced(18, i, Pos(77, 43), false, false, [4])] + [Declared(20, i, Pos(82, 18), Initialized, [])], Declared(20, c6, Pos(82, 27), Initialized, []), 20);
      DeclsInSkip([] + [Referenced(18, i, Pos(77, 43), false, false, [4])] + [Declared(20, i, Pos(82, 18), Initialized, [])] + [Declared(20, c6, Pos(82, 27), Initialized, [])], Referenced(21, i, Pos(82, 36), false, false, []), 20);
      DeclsInSkip([] + [Referenced(18, i, Pos(77, 43), false, false, [4])] + [Declared(20, i, Pos(82, 18), Initialized, [])] + [Declared(20, c6, Pos(82, 27), Initialized, [])] + [Referenced(21, i, Pos(82, 36), false, false, [])], Declared(22, c6, Pos(84, 17), Initialized, [5]), 20);
      DeclsInSkip([] + [Referenced(18, i, Pos(77, 43), false, false, [4])] + [Declared(20, i, Pos(82, 18), Initialized, [])] + [Declared(20, c6, Pos(82, 27), Initialized, [])] + [Referenced(21, i, Pos(82, 36), false, false, [])] + [Declared(22, c6, Pos(84, 17), Initialized, [5])], Referenced(22, c6, Pos(85, 38), false, false, [5]), 20);
      DeclsInSkip([] + [Referenced(18, i, Pos(77, 43), false, false, [4])] + [Declared(20, i, Pos(82, 18), Initialized, [])] + [Declared(20, c6, Pos(82, 27), Initialized, [])] + [Referenced(21, i, Pos(82, 36), false, false, [])] + [Declared(22, c6, Pos(84, 17), Initialized, [5])] + [Referenced(22, c6, Pos(85, 38), false, false, [5])], OutAssigned(22, [], [5]), 20);
      DeclsInSkip([] + [Referenced(18, i, Pos(77, 43), false, false, [4])] + [Declared(20, i, Pos(82, 18), Initialized, [])] + [Declared(20, c6, Pos(82, 27), Initialized, [])] + [Referenced(21, i, Pos(82, 36), false, false, [])] + [Declared(22, c6, Pos(84, 17), Initialized, [5])] + [Referenced(22, c6, Pos(85, 38), false, false, [5])] + [OutAssigned(22, [], [5])], Referenced(21, i, Pos(82, 43), false, false, [5]), 20);
    } else if sc == 22 {
      DeclsInSkip([], Referenced(18, i, Pos(77, 43), false, false, [4]), 22);
      DeclsInSkip([] + [Referenced(18, i, Pos(77, 43), false, false, [4])], Declared(20, i, Pos(82, 18), Initialized, []), 22);
      DeclsInSkip([] + [Referenced(18, i, Pos(77, 43), false, false, [4])] + [Declared(20, i, Pos(82, 18), Initialized, [])], Declared(20, c6, Pos(82, 27), Initialized, []), 22);
      DeclsInSkip([] + [Referenced(18, i, Pos(77, 43), false, false, [4])] + [Declared(20, i, Pos(82, 18), Initialized, [])] + [Declared(20, c6, Pos(82, 27), Initialized, [])], Referenced(21, i, Pos(82, 36), false, false, []), 22);
      DeclsInAdd([] + [Referenced(18, i, Pos(77, 43), false, false, [4])] + [Declared(20, i, Pos(82, 18), Initialized, [])] + [Declared(20, c6, Pos(82, 27), Initialized, [])] + [Referenced(21, i, Pos(82, 36), false, false, [])], Declared(22, c6, Pos(84, 17), Initialized, [5]), 22);
      DeclsInSkip([] + [Referenced(18, i, Pos(77, 43), false, false, [4])] + [Declared(20, i, Pos(82, 18), Initialized, [])] + [Declared(20, c6, Pos(82, 27), Initialized, [])] + [Referenced(21, i, Pos(82, 36), false, false, [])] + [Declared(22, c6, Pos(84, 17), Initialized, [5])], Referenced(22, c6, Pos(85, 38), false, false, [5]), 22);
      DeclsInSkip([] + [Referenced(18, i, Pos(77, 43), false, false, [4])] + [Declared(20, i, Pos(82, 18), Initialized, [])] + [Declared(20, c6, Pos(82, 27), Initialized, [])] + [Referenced(21, i, Pos(82, 36), false, false, [])] + [Declared(22, c6, Pos(84, 17), Initialized, [5])] + [Referenced(22, c6, Pos(85, 38), false, false, [5])], OutAssigned(22, [], [5]), 22);
      DeclsInSkip([] + [Referenced(18, i, Pos(77, 43), false, false, [4])] + [Declared(20, i, Pos(82, 18), Initialized, [])] + [Declared(20, c6, Pos(82, 27), Initialized, [])] + [Referenced(21, i, Pos(82, 36), false, false, [])] + [Declared(22, c6, Pos(84, 17), Initialized, [5])] + [Referenced(22, c6, Pos(85, 38), false, false, [5])] + [OutAssigned(22, [], [5])], Referenced(21, i, Pos(82, 43), false, false, [5]), 22);
    } else {
      DeclsInSkip([], Referenced(18, i, Pos(77, 43), false, false, [4]), sc);
      DeclsInSkip([] + [Referenced(18, i, Pos(77, 43), false, false, [4])], Declared(20, i, Pos(82, 18), Initialized, []), sc);
      DeclsInSkip([] + [Referenced(18, i, Pos(77, 43), false, false, [4])] + [Declared(20, i, Pos(82, 18), Initialized, [])], Declared(20, c6, Pos(82, 27), Initialized, []), sc);
      DeclsInSkip([] + [Referenced(18, i, Pos(77, 43), false, false, [4])] + [Declared(20, i, Pos(82, 18), Initialized, [])] + [Declared(20, c6, Pos(82, 27), Initialized, [])], Referenced(21, i, Pos(82, 36), false, false, []), sc);
      DeclsInSkip([] + [Referenced(18, i, Pos(77, 43), false, false, [4])] + [Declared(20, i, Pos(82, 18), Initialized, [])] + [Declared(20, c6, Pos(82, 27), Initialized, [])] + [Referenced(21, i, Pos(82, 36), false, false, [])], Declared(22, c6, Pos(84, 17), Initialized, [5]), sc);
      DeclsInSkip([] + [Referenced(18, i, Pos(77, 43), false, false, [4])] + [Declared(20, i, Pos(82, 18), Initialized, [])] + [Declared(20, c6, Pos(82, 27), Initialized, [])] + [Referenced(21, i, Pos(82, 36), false, false, [])] + [Declared(22, c6, Pos(84, 17), Initialized, [5])], Referenced(22, c6, Pos(85, 38), false, false, [5]), sc);
      DeclsInSkip([] + [Referenced(18, i, Pos(77, 43), false, false, [4])] + [Declared(20, i, Pos(82, 18), Initialized, [])] + [Declared(20, c6, Pos(82, 27), Initialized, [])] + [Referenced(21, i, Pos(82, 36), false, false, [])] + [Declared(22, c6, Pos(84, 17), Initialized, [5])] + [Referenced(22, c6, Pos(85, 38), false, false, [5])], OutAssigned(22, [], [5]), sc);
      DeclsInSkip([] + [Referenced(18, i, Pos(77, 43), false, false, [4])] + [Declared(20, i, Pos(82, 18), Initialized, [])] + [Declared(20, c6, Pos(82, 27), Initialized, [])] + [Referenced(21, i, Pos(82, 36), false, false, [])] + [Declared(22, c6, Pos(84, 17), Initialized, [5])] + [Referenced(22, c6, Pos(85, 38), false, false, [5])] + [OutAssigned(22, [], [5])], Referenced(21, i, Pos(82, 43), false, false, [5]), sc);
      AppendNil(DeclsIn(evs, sc));
    }
  }

  lemma {:induction false} DeclsStage0(i: string, c1: string, c2: string, c3: string, c4: string, c5: string, c6: string, evs: seq<Event>, sc: nat)
    requires DeclsIn(evs, sc) == DeclaredBy(i, c1, c2, c3, c4, c5, c6, 0, sc)
    ensures DeclsIn(evs + Chunk0(i, c1, c2, c3, c4, c5, c6) + Chunk1(i, c1, c2, c3, c4, c5, c6) + Chunk2(i, c1, c2, c3, c4, c5, c6) + Chunk3(i, c1, c2, c3, c4, c5, c6), sc) == DeclaredBy(i, c1, c2, c3, c4, c5, c6, 4, sc)
  {
    Decls0(i, c1, c2, c3, c4, c5, c6, evs, sc);
    Decls1(i, c1, c2, c3, c4, c5, c6, evs + Chunk0(i, c1, c2, c3, c4, c5, c6), sc);
    Decls2(i, c1, c2, c3, c4, c5, c6, evs + Chunk0(i, c1, c2, c3, c4, c5, c6) + Chunk1(i, c1, c2, c3, c4, c5, c6), sc);
    Decls3(i, c1, c2, c3, c4, c5, c6, evs + Chunk0(i, c1, c2, c3, c4, c5, c6) + Chunk1(i, c1, c2, c3, c4, c5, c6) + Chunk2(i, c1, c2, c3, c4, c5, c6), sc);
  }

  /** The locals of every scope of a tree whose events are the test's, as the table gives them. */
  ghost predicate LocalsFit(i: string, c1: string, c2: string, c3: string, c4: string, c5: string, c6: string, tr: Tree) {
    forall sc: nat {:trigger DeclaredBy(i, c1, c2, c3, c4, c5, c6, 4, sc)} :: LocalsOf(tr, sc) == DeclaredBy(i, c1, c2, c3, c4, c5, c6, 4, sc)
  }

  /** The locals of every scope. */
  lemma {:induction false} LocalsAll(i: string, c1: string, c2: string, c3: string, c4: string, c5: string, c6: string, tr: Tree)
    requires tr.events == Trace(i, c1, c2, c3, c4, c5, c6)
    ensures LocalsFit(i, c1, c2, c3, c4, c5, c6, tr)
  {
    forall sc: nat
      ensures LocalsOf(tr, sc) == DeclaredBy(i, c1, c2, c3, c4, c5, c6, 4, sc)
    {
      assert DeclsIn([], sc) == [] == DeclaredBy(i, c1, c2, c3, c4, c5, c6, 0, sc);
      DeclsStage0(i, c1, c2, c3, c4, c5, c6, [], sc);
    }
  }

  /** The locals scope 0 declares, in order. */
  lemma {:induction false} Locals0(i: string, c1: string, c2: string, c3: string, c4: string, c5: string, c6: string)
    ensures DeclaredBy(i, c1, c2, c3, c4, c5, c6, 4, 0) == []
  {
    AppendNil([]);
    assert DeclaredBy(i, c1, c2, c3, c4, c5, c6, 1, 0) == [];
    assert DeclaredBy(i, c1, c2, c3, c4, c5, c6, 2, 0) == [];
    assert DeclaredBy(i, c1, c2, c3, c4, c5, c6, 3, 0) == [];
    assert DeclaredBy(i, c1, c2, c3, c4, c5, c6, 4, 0) == [];
  }

  /** The locals scope 3 declares, in order. */
  lemma {:induction false} Locals3(i: string, c1: string, c2: string, c3: string, c4: string, c5: string, c6: string)
    ensures DeclaredBy(i, c1, c2, c3, c4, c5, c6, 4, 3) == []
  {
    AppendNil([]);
    assert DeclaredBy(i, c1, c2, c3, c4, c5, c6, 1, 3) == [];
    assert DeclaredBy(i, c1, c2, c3, c4, c5, c6, 2, 3) == [];
    assert DeclaredBy(i, c1, c2, c3, c4, c5, c6, 3, 3) == [];
    assert DeclaredBy(i, c1, c2, c3, c4, c5, c6, 4, 3) == [];
  }

  /** The locals scope 4 declares, in order. */
  lemma {:induction false} Locals4(i: string, c1: string, c2: string, c3: string, c4: string, c5: string, c6: string)
    ensures DeclaredBy(i, c1, c2, c3, c4, c5, c6, 4, 4) == []
  {
    AppendNil([]);
    assert DeclaredBy(i, c1, c2, c3, c4, c5, c6, 1, 4) == [];
    assert DeclaredBy(i, c1, c2, c3, c4, c5, c6, 2, 4) == [];
    assert DeclaredBy(i, c1, c2, c3, c4, c5, c6, 3, 4) == [];
    assert DeclaredBy(i, c1, c2, c3, c4, c5, c6, 4, 4) == [];
  }

  /** The locals scope 5 declares, in order. */
  lemma {:induction false} Locals5(i: string, c1: string, c2: string, c3: string, c4: string, c5: string, c6: string)
    ensures DeclaredBy(i, c1, c2, c3, c4, c5, c6, 4, 5) == [Local(i, Pos(68, 18)), Local(c1, Pos(68, 27)), Local(c1, Pos(68, 42))]
  {
    assert DeclaredBy(i, c1, c2, c3, c4, c5, c6, 1, 5) == [Local(i, Pos(68, 18)), Local(c1, Pos(68, 27)), Local(c1, Pos(68, 42))];
    AppendNil([Local(i, Pos(68, 18)), Local(c1, Pos(68, 27)), Local(c1, Pos(68, 42))]);
    assert DeclaredBy(i, c1, c2, c3, c4, c5, c6, 2, 5) == [Local(i, Pos(68, 18)), Local(c1, Pos(68, 27)), Local(c1, Pos(68, 42))];
    assert DeclaredBy(i, c1, c2, c3, c4, c5, c6, 3, 5) == [Local(i, Pos(68, 18)), Local(c1, Pos(68, 27)), Local(c1, Pos(68, 42))];
    assert DeclaredBy(i, c1, c2, c3, c4, c5, c6, 4, 5) == [Local(i, Pos(68, 18)), Local(c1, Pos(68, 27)), Local(c1, Pos(68, 42))];
  }

  /** The locals scope 6 declares, in order. */
  lemma {:induction false} Locals6(i: string, c1: string, c2: string, c3: string, c4: string, c5: string, c6: string)
    ensures DeclaredBy(i, c1, c2, c3, c4, c5, c6, 4, 6) == []
  {
    AppendNil([]);
    assert DeclaredBy(i, c1, c2, c3, c4, c5, c6, 1, 6) == [];
    assert DeclaredBy(i, c1, c2, c3, c4, c5, c6, 2, 6) == [];
    assert DeclaredBy(i, c1, c2, c3, c4, c5, c6, 3, 6) == [];
    assert DeclaredBy(i, c1, c2, c3, c4, c5, c6, 4, 6) == [];
  }

  /** The locals scope 8 declares, in order. */
  lemma {:induction false} Locals8(i: string, c1: string, c2: string, c3: string, c4: string, c5: string, c6: string)
    ensures DeclaredBy(i, c1, c2, c3, c4, c5, c6, 4, 8) == [Local(i, Pos(70, 18)), Local(c2, Pos(70, 27))]
  {
    assert DeclaredBy(i, c1, c2, c3, c4, c5, c6, 1, 8) == [Local(i, Pos(70, 18)), Local(c2, Pos(70, 27))];
    AppendNil([Local(i, Pos(70, 18)), Local(c2, Pos(70, 27))]);
    assert DeclaredBy(i, c1, c2, c3, c4, c5, c6, 2, 8) == [Local(i, Pos(70, 18)), Local(c2, Pos(70, 27))];
    assert DeclaredBy(i, c1, c2, c3, c4, c5, c6, 3, 8) == [Local(i, Pos(70, 18)), Local(c2, Pos(70, 27))];
    assert DeclaredBy(i, c1, c2, c3, c4, c5, c6, 4, 8) == [Local(i, Pos(70, 18)), Local(c2, Pos(70, 27))];
  }

  /** The locals scope 9 declares, in order. */
  lemma {:induction false} Locals9(i: string, c1: string, c2: string, c3: string, c4: string, c5: string, c6: string)
    ensures DeclaredBy(i, c1, c2, c3, c4, c5, c6, 4, 9) == [Local(c2, Pos(70, 45))]
  {
    assert DeclaredBy(i, c1, c2, c3, c4, c5, c6, 1, 9) == [Local(c2, Pos(70, 45))];
    AppendNil([Local(c2, Pos(70, 45))]);
    assert DeclaredBy(i, c1, c2, c3, c4, c5, c6, 2, 9) == [Local(c2, Pos(70, 45))];
    assert DeclaredBy(i, c1, c2, c3, c4, c5, c6, 3, 9) == [Local(c2, Pos(70, 45))];
    assert DeclaredBy(i, c1, c2, c3, c4, c5, c6, 4, 9) == [Local(c2, Pos(70, 45))];
  }

  /** The locals scope 11 declares, in order. */
  lemma {:induction false} Locals11(i: string, c1: string, c2: string, c3: string, c4: string, c5: string, c6: string)
    ensures DeclaredBy(i, c1, c2, c3, c4, c5, c6, 4, 11) == [Local(i, Pos(72, 18)), Local(c3, Pos(72, 27))]
  {
    AppendNil([]);
    assert DeclaredBy(i, c1, c2, c3, c4, c5, c6, 1, 11) == [];
    assert DeclaredBy(i, c1, c2, c3, c4, c5, c6, 2, 11) == [Local(i, Pos(72, 18)), Local(c3, Pos(72, 27))];
    AppendNil([Local(i, Pos(72, 18)), Local(c3, Pos(72, 27))]);
    assert DeclaredBy(i, c1, c2, c3, c4, c5, c6, 3, 11) == [Local(i, Pos(72, 18)), Local(c3, Pos(72, 27))];
    assert DeclaredBy(i, c1, c2, c3, c4, c5, c6, 4, 11) == [Local(i, Pos(72, 18)), Local(c3, Pos(72, 27))];
  }

  /** The locals scope 12 declares, in order. */
  lemma {:induction false} Locals12(i: string, c1: string, c2: string, c3: string, c4: string, c5: string, c6: string)
    ensures DeclaredBy(i, c1, c2, c3, c4, c5, c6, 4, 12) == [Local(c3, Pos(72, 52))]
  {
    AppendNil([]);
    assert DeclaredBy(i, c1, c2, c3, c4, c5, c6, 1, 12) == [];
    assert DeclaredBy(i, c1, c2, c3, c4, c5, c6, 2, 12) == [Local(c3, Pos(72, 52))];
    AppendNil([Local(c3, Pos(72, 52))]);
    assert DeclaredBy(i, c1, c2, c3, c4, c5, c6, 3, 12) == [Local(c3, Pos(72, 52))];
    assert DeclaredBy(i, c1, c2, c3, c4, c5, c6, 4, 12) == [Local(c3, Pos(72, 52))];
  }

  /** The locals scope 14 declares, in order. */
  lemma {:induction false} Locals14(i: string, c1: string, c2: string, c3: string, c4: string, c5: string, c6: string)
    ensures DeclaredBy(i, c1, c2, c3, c4, c5, c6, 4, 14) == [Local(i, Pos(74, 18)), Local(c4, Pos(74, 27))]
  {
    AppendNil([]);
    assert DeclaredBy(i, c1, c2, c3, c4, c5, c6, 1, 14) == [];
    assert DeclaredBy(i, c1, c2, c3, c4, c5, c6, 2, 14) == [Local(i, Pos(74, 18)), Local(c4, Pos(74, 27))];
    AppendNil([Local(i, Pos(74, 18)), Local(c4, Pos(74, 27))]);
    assert DeclaredBy(i, c1, c2, c3, c4, c5, c6, 3, 14) == [Local(i, Pos(74, 18)), Local(c4, Pos(74, 27))];
    assert DeclaredBy(i, c1, c2, c3, c4, c5, c6, 4, 14) == [Local(i, Pos(74, 18)), Local(c4, Pos(74, 27))];
  }

  /** The locals scope 15 declares, in order. */
  lemma {:induction false} Locals15(i: string, c1: string, c2: string, c3: string, c4: string, c5: string, c6: string)
    ensures DeclaredBy(i, c1, c2, c3, c4, c5, c6, 4, 15) == []
  {
    AppendNil([]);
    assert DeclaredBy(i, c1, c2, c3, c4, c5, c6, 1, 15) == [];
    assert DeclaredBy(i, c1, c2, c3, c4, c5, c6, 2, 15) == [];
    assert DeclaredBy(i, c1, c2, c3, c4, c5, c6, 3, 15) == [];
    assert DeclaredBy(i, c1, c2, c3, c4, c5, c6, 4, 15) == [];
  }

  /** The locals scope 16 declares, in order. */
  lemma {:induction false} Locals16(i: string, c1: string, c2: string, c3: string, c4: string, c5: string, c6: string)
    ensures DeclaredBy(i, c1, c2, c3, c4, c5, c6, 4, 16) == [Local(c4, Pos(75, 42))]
  {
    AppendNil([]);
    assert DeclaredBy(i, c1, c2, c3, c4, c5, c6, 1, 16) == [];
    assert DeclaredBy(i, c1, c2, c3, c4, c5, c6, 2, 16) == [];
    assert DeclaredBy(i, c1, c2, c3, c4, c5, c6, 3, 16) == [Local(c4, Pos(75, 42))];
    AppendNil([Local(c4, Pos(75, 42))]);
    assert DeclaredBy(i, c1, c2, c3, c4, c5, c6, 4, 16) == [Local(c4, Pos(75, 42))];
  }

  /** The locals scope 17 declares, in order. */
  lemma {:induction false} Locals17(i: string, c1: string, c2: string, c3: string, c4: string, c5: string, c6: string)
    ensures DeclaredBy(i, c1, c2, c3, c4, c5, c6, 4, 17) == [Local(i, Pos(77, 18)), Local(c5, Pos(77, 27))]
  {
    AppendNil([]);
    assert DeclaredBy(i, c1, c2, c3, c4, c5, c6, 1, 17) == [];
    assert DeclaredBy(i, c1, c2, c3, c4, c5, c6, 2, 17) == [];
    assert DeclaredBy(i, c1, c2, c3, c4, c5, c6, 3, 17) == [Local(i, Pos(77, 18)), Local(c5, Pos(77, 27))];
    AppendNil([Local(i, Pos(77, 18)), Local(c5, Pos(77, 27))]);
    assert DeclaredBy(i, c1, c2, c3, c4, c5, c6, 4, 17) == [Local(i, Pos(77, 18)), Local(c5, Pos(77, 27))];
  }

  /** The locals scope 18 declares, in order. */
  lemma {:induction false} Locals18(i: string, c1: string, c2: string, c3: string, c4: string, c5: string, c6: string)
    ensures DeclaredBy(i, c1, c2, c3, c4, c5, c6, 4, 18) == []
  {
    AppendNil([]);
    assert DeclaredBy(i, c1, c2, c3, c4, c5, c6, 1, 18) == [];
    assert DeclaredBy(i, c1, c2, c3, c4, c5, c6, 2, 18) == [];
    assert DeclaredBy(i, c1, c2, c3, c4, c5, c6, 3, 18) == [];
    assert DeclaredBy(i, c1, c2, c3, c4, c5, c6, 4, 18) == [];
  }

  /** The locals scope 19 declares, in order. */
  lemma {:induction false} Locals19(i: string, c1: string, c2: string, c3: string, c4: string, c5: string, c6: string)
    ensures DeclaredBy(i, c1, c2, c3, c4, c5, c6, 4, 19) == [Local(c5, Pos(79, 42))]
  {
    AppendNil([]);
    assert DeclaredBy(i, c1, c2, c3, c4, c5, c6, 1, 19) == [];
    assert DeclaredBy(i, c1, c2, c3, c4, c5, c6, 2, 19) == [];
    assert DeclaredBy(i, c1, c2, c3, c4, c5, c6, 3, 19) == [Local(c5, Pos(79, 42))];
    AppendNil([Local(c5, Pos(79, 42))]);
    assert DeclaredBy(i, c1, c2, c3, c4, c5, c6, 4, 19) == [Local(c5, Pos(79, 42))];
  }

  /** The locals scope 20 declares, in order. */
  lemma {:induction false} Locals20(i: string, c1: string, c2: string, c3: string, c4: string, c5: string, c6: string)
    ensures DeclaredBy(i, c1, c2, c3, c4, c5, c6, 4, 20) == [Local(i, Pos(82, 18)), Local(c6, Pos(82, 27))]
  {
    AppendNil([]);
    assert DeclaredBy(i, c1, c2, c3, c4, c5, c6, 1, 20) == [];
    assert DeclaredBy(i, c1, c2, c3, c4, c5, c6, 2, 20) == [];
    assert DeclaredBy(i, c1, c2, c3, c4, c5, c6, 3, 20) == [];
    assert DeclaredBy(i, c1, c2, c3, c4, c5, c6, 4, 20) == [Local(i, Pos(82, 18)), Local(c6, Pos(82, 27))];
  }

  /** The locals scope 21 declares, in order. */
  lemma {:induction false} Locals21(i: string, c1: string, c2: string, c3: string, c4: string, c5: string, c6: string)
    ensures DeclaredBy(i, c1, c2, c3, c4, c5, c6, 4, 21) == []
  {
    AppendNil([]);
    assert DeclaredBy(i, c1, c2, c3, c4, c5, c6, 1, 21) == [];
    assert DeclaredBy(i, c1, c2, c3, c4, c5, c6, 2, 21) == [];
    assert DeclaredBy(i, c1, c2, c3, c4, c5, c6, 3, 21) == [];
    assert DeclaredBy(i, c1, c2, c3, c4, c5, c6, 4, 21) == [];
  }

  /** The locals scope 22 declares, in order. */
  lemma {:induction false} Locals22(i: string, c1: string, c2: string, c3: string, c4: string, c5: string, c6: string)
    ensures DeclaredBy(i, c1, c2, c3, c4, c5, c6, 4, 22) == [Local(c6, Pos(84, 17))]
  {
    AppendNil([]);
    assert DeclaredBy(i, c1, c2, c3, c4, c5, c6, 1, 22) == [];
    assert DeclaredBy(i, c1, c2, c3, c4, c5, c6, 2, 22) == [];
    assert DeclaredBy(i, c1, c2, c3, c4, c5, c6, 3, 22) == [];
    assert DeclaredBy(i, c1, c2, c3, c4, c5, c6, 4, 22) == [Local(c6, Pos(84, 17))];
  }

  /** The assignments known after event 7. */
  function Known0(i: string, c1: string, c2: string, c3: string, c4: string, c5: string, c6: string): seq<Fact> {
    []
      + [Fact(5, i, [])]
      + [Fact(5, c1, [])]
      + [Fact(5, c1, [])]
      + [Fact(8, i, [])]
      + [Fact(8, c2, [])]
      + [Fact(9, c2, [])]
  }

  /** Whether a local is assigned after the assignments of events 0 to 7. */
  lemma {:induction false} Assigned0(i: string, c1: string, c2: string, c3: string, c4: string, c5: string, c6: string, fs: seq<Fact>, sc: nat, nm: string, pth: seq<nat>)
    ensures Assigned(fs + [Fact(5, i, [])] + [Fact(5, c1, [])] + [Fact(5, c1, [])] + [Fact(8, i, [])] + [Fact(8, c2, [])] + [Fact(9, c2, [])], sc, nm, pth) == (
      Assigned(fs, sc, nm, pth) ||
      (5 == sc && i == nm && [] <= pth) ||
      (5 == sc && c1 == nm && [] <= pth) ||
      (5 == sc && c1 == nm && [] <= pth) ||
      (8 == sc && i == nm && [] <= pth) ||
      (8 == sc && c2 == nm && [] <= pth) ||
      (9 == sc && c2 == nm && [] <= pth))
  {
    AssignedSnoc(fs, Fact(5, i, []), sc, nm, pth);
    AssignedSnoc(fs + [Fact(5, i, [])], Fact(5, c1, []), sc, nm, pth);
    AssignedSnoc(fs + [Fact(5, i, [])] + [Fact(5, c1, [])], Fact(5, c1, []), sc, nm, pth);
    AssignedSnoc(fs + [Fact(5, i, [])] + [Fact(5, c1, [])] + [Fact(5, c1, [])], Fact(8, i, []), sc, nm, pth);
    AssignedSnoc(fs + [Fact(5, i, [])] + [Fact(5, c1, [])] + [Fact(5, c1, [])] + [Fact(8, i, [])], Fact(8, c2, []), sc, nm, pth);
    AssignedSnoc(fs + [Fact(5, i, [])] + [Fact(5, c1, [])] + [Fact(5, c1, [])] + [Fact(8, i, [])] + [Fact(8, c2, [])], Fact(9, c2, []), sc, nm, pth);
  }

  /** The assignments known after event 15. */
  function Known1(i: string, c1: string, c2: string, c3: string, c4: string, c5: string, c6: string): seq<Fact> {
    Known0(i, c1, c2, c3, c4, c5, c6)
      + [Fact(11, i, [])]
      + [Fact(11, c3, [])]
      + [Fact(12, c3, [2])]
      + [Fact(14, i, [])]
      + [Fact(14, c4, [])]
  }

  /** Whether a local is assigned after the assignments of events 8 to 15. */
  lemma {:induction false} Assigned1(i: string, c1: string, c2: string, c3: string, c4: string, c5: string, c6: string, fs: seq<Fact>, sc: nat, nm: string, pth: seq<nat>)
    ensures Assigned(fs + [Fact(11, i, [])] + [Fact(11, c3, [])] + [Fact(12, c3, [2])] + [Fact(14, i, [])] + [Fact(14, c4, [])], sc, nm, pth) == (
      Assigned(fs, sc, nm, pth) ||
      (11 == sc && i == nm && [] <= pth) ||
      (11 == sc && c3 == nm && [] <= pth) ||
      (12 == sc && c3 == nm && [2] <= pth) ||
      (14 == sc && i == nm && [] <= pth) ||
      (14 == sc && c4 == nm && [] <= pth))
  {
    AssignedSnoc(fs, Fact(11, i, []), sc, nm, pth);
    AssignedSnoc(fs + [Fact(11, i, [])], Fact(11, c3, []), sc, nm, pth);
    AssignedSnoc(fs + [Fact(11, i, [])] + [Fact(11, c3, [])], Fact(12, c3, [2]), sc, nm, pth);
    AssignedSnoc(fs + [Fact(11, i, [])] + [Fact(11, c3, [])] + [Fact(12, c3, [2])], Fact(14, i, []), sc, nm, pth);
    AssignedSnoc(fs + [Fact(11, i, [])] + [Fact(11, c3, [])] + [Fact(12, c3, [2])] + [Fact(14, i, [])], Fact(14, c4, []), sc, nm, pth);
  }

  /** The assignments known after event 23. */
  function Known2(i: string, c1: string, c2: string, c3: string, c4: string, c5: string, c6: string): seq<Fact> {
    Known1(i, c1, c2, c3, c4, c5, c6)
      + [Fact(16, c4, [3])]
      + [Fact(17, i, [])]
      + [Fact(17, c5, [])]
      + [Fact(19, c5, [4])]
  }

  /** Whether a local is assigned after the assignments of events 16 to 23. */
  lemma {:induction false} Assigned2(i: string, c1: string, c2: string, c3: string, c4: string, c5: string, c6: string, fs: seq<Fact>, sc: nat, nm: string, pth: seq<nat>)
    ensures Assigned(fs + [Fact(16, c4, [3])] + [Fact(17, i, [])] + [Fact(17, c5, [])] + [Fact(19, c5, [4])], sc, nm, pth) == (
      Assigned(fs, sc, nm, pth) ||
      (16 == sc && c4 == nm && [3] <= pth) ||
      (17 == sc && i == nm && [] <= pth) ||
      (17 == sc && c5 == nm && [] <= pth) ||
      (19 == sc && c5 == nm && [4] <= pth))
  {
    AssignedSnoc(fs, Fact(16, c4, [3]), sc, nm, pth);
    AssignedSnoc(fs + [Fact(16, c4, [3])], Fact(17, i, []), sc, nm, pth);
    AssignedSnoc(fs + [Fact(16, c4, [3])] + [Fact(17, i, [])], Fact(17, c5, []), sc, nm, pth);
    AssignedSnoc(fs + [Fact(16, c4, [3])] + [Fact(17, i, [])] + [Fact(17, c5, [])], Fact(19, c5, [4]), sc, nm, pth);
  }

  /** The assignments known after event 31. */
  function Known3(i: string, c1: string, c2: string, c3: string, c4: string, c5: string, c6: string): seq<Fact> {
    Known2(i, c1, c2, c3, c4, c5, c6)
      + [Fact(20, i, [])]
      + [Fact(20, c6, [])]
      + [Fact(22, c6, [5])]
  }

  /** Whether a local is assigned after the assignments of events 24 to 31. */
  lemma {:induction false} Assigned3(i: string, c1: string, c2: string, c3: string, c4: string, c5: string, c6: string, fs: seq<Fact>, sc: nat, nm: string, pth: seq<nat>)
    ensures Assigned(fs + [Fact(20, i, [])] + [Fact(20, c6, [])] + [Fact(22, c6, [5])], sc, nm, pth) == (
      Assigned(fs, sc, nm, pth) ||
      (20 == sc && i == nm && [] <= pth) ||
      (20 == sc && c6 == nm && [] <= pth) ||
      (22 == sc && c6 == nm && [5] <= pth))
  {
    AssignedSnoc(fs, Fact(20, i, []), sc, nm, pth);
    AssignedSnoc(fs + [Fact(20, i, [])], Fact(20, c6, []), sc, nm, pth);
    AssignedSnoc(fs + [Fact(20, i, [])] + [Fact(20, c6, [])], Fact(22, c6, [5]), sc, nm, pth);
  }

  /** Event 0: its diagnostics and the assignments after it. */
  lemma {:induction false} Event0(i: string, c1: string, c2: string, c3: string, c4: string, c5: string, c6: string, tr: Tree, fs: seq<Fact>)
    requires |tr.scopes| == 23
    requires Parent(tr, 0) == None
    requires Parent(tr, 3) == Some(0)
    requires Parent(tr, 4) == Some(3)
    requires Parent(tr, 5) == Some(4)
    requires LocalsOf(tr, 5) == [Local(i, Pos(68, 18)), Local(c1, Pos(68, 27)), Local(c1, Pos(68, 42))]
    requires LocalsOf(tr, 4) == []
    requires LocalsOf(tr, 3) == []
    requires LocalsOf(tr, 0) == []
    requires i != c1
    ensures EventDiags(tr, Declared(5, i, Pos(68, 18), Initialized, []), fs) == []
    ensures Step(tr, Declared(5, i, Pos(68, 18), Initialized, []), fs) == fs + [Fact(5, i, [])]
  {
    assert Lookup(tr, 0, i) == None;
    assert Lookup(tr, 3, i) == None;
    assert Lookup(tr, 4, i) == None;
  }

  /** Event 1: its diagnostics and the assignments after it. */
  lemma {:induction false} Event1(i: string, c1: string, c2: string, c3: string, c4: string, c5: string, c6: string, tr: Tree, fs: seq<Fact>)
    requires |tr.scopes| == 23
    requires Parent(tr, 0) == None
    requires Parent(tr, 3) == Some(0)
    requires Parent(tr, 4) == Some(3)
    requires Parent(tr, 5) == Some(4)
    requires LocalsOf(tr, 5) == [Local(i, Pos(68, 18)), Local(c1, Pos(68, 27)), Local(c1, Pos(68, 42))]
    requires LocalsOf(tr, 4) == []
    requires LocalsOf(tr, 3) == []
    requires LocalsOf(tr, 0) == []
    requires i != c1
    ensures EventDiags(tr, Declared(5, c1, Pos(68, 27), Initialized, []), fs) == []
    ensures Step(tr, Declared(5, c1, Pos(68, 27), Initialized, []), fs) == fs + [Fact(5, c1, [])]
  {
    assert Lookup(tr, 0, c1) == None;
    assert Lookup(tr, 3, c1) == None;
    assert Lookup(tr, 4, c1) == None;
  }

  /** Event 2: its diagnostics and the assignments after it. */
  lemma {:induction false} Event2(i: string, c1: string, c2: string, c3: string, c4: string, c5: string, c6: string, tr: Tree, fs: seq<Fact>)
    requires |tr.scopes| == 23
    requires Parent(tr, 5) == Some(4)
    requires LocalsOf(tr, 5) == [Local(i, Pos(68, 18)), Local(c1, Pos(68, 27)), Local(c1, Pos(68, 42))]
    requires i != c1
    ensures EventDiags(tr, Declared(5, c1, Pos(68, 42), Initialized, []), fs) == [Diag(Duplicate, c1, Pos(68, 42))]
    ensures Step(tr, Declared(5, c1, Pos(68, 42), Initialized, []), fs) == fs + [Fact(5, c1, [])]
  {
    assert Local(c1, Pos(68, 27)) in LocalsOf(tr, 5);
  }

  /** Event 3: its diagnostics and the assignments after it. */
  lemma {:induction false} Event3(i: string, c1: string, c2: string, c3: string, c4: string, c5: string, c6: string, tr: Tree, fs: seq<Fact>)
    requires |tr.scopes| == 23
    requires Parent(tr, 5) == Some(4)
    requires Parent(tr, 6) == Some(5)
    requires LocalsOf(tr, 6) == []
    requires LocalsOf(tr, 5) == [Local(i, Pos(68, 18)), Local(c1, Pos(68, 27)), Local(c1, Pos(68, 42))]
    requires i != c1
    requires Assigned(fs, 5, i, [])
    ensures EventDiags(tr, Referenced(6, i, Pos(68, 51), false, false, []), fs) == []
    ensures Step(tr, Referenced(6, i, Pos(68, 51), false, false, []), fs) == fs
  {
    assert Local(i, Pos(68, 18)) in LocalsOf(tr, 5);
    assert Lookup(tr, 5, i) == Some(5);
    assert Lookup(tr, 6, i) == Some(5);
  }

  /** Event 4: its diagnostics and the assignments after it. */
  lemma {:induction false} Event4(i: string, c1: string, c2: string, c3: string, c4: string, c5: string, c6: string, tr: Tree, fs: seq<Fact>)
    requires |tr.scopes| == 23
    requires Parent(tr, 0) == None
    requires Parent(tr, 3) == Some(0)
    requires Parent(tr, 4) == Some(3)
    requires Parent(tr, 8) == Some(4)
    requires LocalsOf(tr, 8) == [Local(i, Pos(70, 18)), Local(c2, Pos(70, 27))]
    requires LocalsOf(tr, 4) == []
    requires LocalsOf(tr, 3) == []
    requires LocalsOf(tr, 0) == []
    requires i != c2
    ensures EventDiags(tr, Declared(8, i, Pos(70, 18), Initialized, []), fs) == []
    ensures Step(tr, Declared(8, i, Pos(70, 18), Initialized, []), fs) == fs + [Fact(8, i, [])]
  {
    assert Lookup(tr, 0, i) == None;
    assert Lookup(tr, 3, i) == None;
    assert Lookup(tr, 4, i) == None;
  }

  /** Event 5: its diagnostics and the assignments after it. */
  lemma {:induction false} Event5(i: string, c1: string, c2: string, c3: string, c4: string, c5: string, c6: string, tr: Tree, fs: seq<Fact>)
    requires |tr.scopes| == 23
    requires Parent(tr, 0) == None
    requires Parent(tr, 3) == Some(0)
    requires Parent(tr, 4) == Some(3)
    requires Parent(tr, 8) == Some(4)
    requires LocalsOf(tr, 8) == [Local(i, Pos(70, 18)), Local(c2, Pos(70, 27))]
    requires LocalsOf(tr, 4) == []
    requires LocalsOf(tr, 3) == []
    requires LocalsOf(tr, 0) == []
    requires i != c2
    ensures EventDiags(tr, Declared(8, c2, Pos(70, 27), Initialized, []), fs) == []
    ensures Step(tr, Declared(8, c2, Pos(70, 27), Initialized, []), fs) == fs + [Fact(8, c2, [])]
  {
    assert Lookup(tr, 0, c2) == None;
    assert Lookup(tr, 3, c2) == None;
    assert Lookup(tr, 4, c2) == None;
  }

  /** Event 6: its diagnostics and the assignments after it. */
  lemma {:induction false} Event6(i: string, c1: string, c2: string, c3: string, c4: string, c5: string, c6: string, tr: Tree, fs: seq<Fact>)
    requires |tr.scopes| == 23
    requires Parent(tr, 8) == Some(4)
    requires Parent(tr, 9) == Some(8)
    requires LocalsOf(tr, 9) == [Local(c2, Pos(70, 45))]
    requires LocalsOf(tr, 8) == [Local(i, Pos(70, 18)), Local(c2, Pos(70, 27))]
    requires i != c2
    requires Assigned(fs, 8, i, [])
    ensures EventDiags(tr, Referenced(9, i, Pos(70, 36), false, false, []), fs) == []
    ensures Step(tr, Referenced(9, i, Pos(70, 36), false, false, []), fs) == fs
  {
    assert Local(i, Pos(70, 18)) in LocalsOf(tr, 8);
    assert Lookup(tr, 8, i) == Some(8);
    assert Lookup(tr, 9, i) == Some(8);
  }

  /** Event 7: its diagnostics and the assignments after it. */
  lemma {:induction false} Event7(i: string, c1: string, c2: string, c3: string, c4: string, c5: string, c6: string, tr: Tree, fs: seq<Fact>)
    requires |tr.scopes| == 23
    requires Parent(tr, 8) == Some(4)
    requires Parent(tr, 9) == Some(8)
    requires LocalsOf(tr, 9) == [Local(c2, Pos(70, 45))]
    requires LocalsOf(tr, 8) == [Local(i, Pos(70, 18)), Local(c2, Pos(70, 27))]
    requires i != c2
    ensures EventDiags(tr, Declared(9, c2, Pos(70, 45), Initialized, []), fs) == [Diag(Shadow, c2, Pos(70, 45))]
    ensures Step(tr, Declared(9, c2, Pos(70, 45), Initialized, []), fs) == fs + [Fact(9, c2, [])]
  {
    assert Local(c2, Pos(70, 27)) in LocalsOf(tr, 8);
    assert Lookup(tr, 8, c2) == Some(8);
  }

  /** Event 8: its diagnostics and the assignments after it. */
  lemma {:induction false} Event8(i: string, c1: string, c2: string, c3: string, c4: string, c5: string, c6: string, tr: Tree, fs: seq<Fact>)
    requires |tr.scopes| == 23
    requires Parent(tr, 0) == None
    requires Parent(tr, 3) == Some(0)
    requires Parent(tr, 4) == Some(3)
    requires Parent(tr, 11) == Some(4)
    requires LocalsOf(tr, 11) == [Local(i, Pos(72, 18)), Local(c3, Pos(72, 27))]
    requires LocalsOf(tr, 4) == []
    requires LocalsOf(tr, 3) == []
    requires LocalsOf(tr, 0) == []
    requires i != c3
    ensures EventDiags(tr, Declared(11, i, Pos(72, 18), Initialized, []), fs) == []
    ensures Step(tr, Declared(11, i, Pos(72, 18), Initialized, []), fs) == fs + [Fact(11, i, [])]
  {
    assert Lookup(tr, 0, i) == None;
    assert Lookup(tr, 3, i) == None;
    assert Lookup(tr, 4, i) == None;
  }

  /** Event 9: its diagnostics and the assignments after it. */
  lemma {:induction false} Event9(i: string, c1: string, c2: string, c3: string, c4: string, c5: string, c6: string, tr: Tree, fs: seq<Fact>)
    requires |tr.scopes| == 23
    requires Parent(tr, 0) == None
    requires Parent(tr, 3) == Some(0)
    requires Parent(tr, 4) == Some(3)
    requires Parent(tr, 11) == Some(4)
    requires LocalsOf(tr, 11) == [Local(i, Pos(72, 18)), Local(c3, Pos(72, 27))]
    requires LocalsOf(tr, 4) == []
    requires LocalsOf(tr, 3) == []
    requires LocalsOf(tr, 0) == []
    requires i != c3
    ensures EventDiags(tr, Declared(11, c3, Pos(72, 27), Initialized, []), fs) == []
    ensures Step(tr, Declared(11, c3, Pos(72, 27), Initialized, []), fs) == fs + [Fact(11, c3, [])]
  {
    assert Lookup(tr, 0, c3) == None;
    assert Lookup(tr, 3, c3) == None;
    assert Lookup(tr, 4, c3) == None;
  }

  /** Event 10: its diagnostics and the assignments after it. */
  lemma {:induction false} Event10(i: string, c1: string, c2: string, c3: string, c4: string, c5: string, c6: string, tr: Tree, fs: seq<Fact>)
    requires |tr.scopes| == 23
    requires Parent(tr, 11) == Some(4)
    requires Parent(tr, 12) == Some(11)
    requires LocalsOf(tr, 12) == [Local(c3, Pos(72, 52))]
    requires LocalsOf(tr, 11) == [Local(i, Pos(72, 18)), Local(c3, Pos(72, 27))]
    requires i != c3
    requires Assigned(fs, 11, i, [])
    ensures EventDiags(tr, Referenced(12, i, Pos(72, 36), false, false, []), fs) == []
    ensures Step(tr, Referenced(12, i, Pos(72, 36), false, false, []), fs) == fs
  {
    assert Local(i, Pos(72, 18)) in LocalsOf(tr, 11);
    assert Lookup(tr, 11, i) == Some(11);
    assert Lookup(tr, 12, i) == Some(11);
  }

  /** Event 11: its diagnostics and the assignments after it. */
  lemma {:induction false} Event11(i: string, c1: string, c2: string, c3: string, c4: string, c5: string, c6: string, tr: Tree, fs: seq<Fact>)
    requires |tr.scopes| == 23
    requires Parent(tr, 11) == Some(4)
    requires Parent(tr, 12) == Some(11)
    requires LocalsOf(tr, 12) == [Local(c3, Pos(72, 52))]
    requires LocalsOf(tr, 11) == [Local(i, Pos(72, 18)), Local(c3, Pos(72, 27))]
    requires i != c3
    requires Assigned(fs, 11, i, [2])
    ensures EventDiags(tr, Referenced(12, i, Pos(72, 43), false, false, [2]), fs) == []
    ensures Step(tr, Referenced(12, i, Pos(72, 43), false, false, [2]), fs) == fs
  {
    assert Local(i, Pos(72, 18)) in LocalsOf(tr, 11);
    assert Lookup(tr, 11, i) == Some(11);
    assert Lookup(tr, 12, i) == Some(11);
  }

  /** Event 12: its diagnostics and the assignments after it. */
  lemma {:induction false} Event12(i: string, c1: string, c2: string, c3: string, c4: string, c5: string, c6: string, tr: Tree, fs: seq<Fact>)
    requires |tr.scopes| == 23
    requires Parent(tr, 11) == Some(4)
    requires Parent(tr, 12) == Some(11)
    requires LocalsOf(tr, 12) == [Local(c3, Pos(72, 52))]
    requires LocalsOf(tr, 11) == [Local(i, Pos(72, 18)), Local(c3, Pos(72, 27))]
    requires i != c3
    ensures EventDiags(tr, Declared(12, c3, Pos(72, 52), Initialized, [2]), fs) == [Diag(Shadow, c3, Pos(72, 52))]
    ensures Step(tr, Declared(12, c3, Pos(72, 52), Initialized, [2]), fs) == fs + [Fact(12, c3, [2])]
  {
    assert Local(c3, Pos(72, 27)) in LocalsOf(tr, 11);
    assert Lookup(tr, 11, c3) == Some(11);
  }

  /** Event 13: its diagnostics and the assignments after it. */
  lemma {:induction false} Event13(i: string, c1: string, c2: string, c3: string, c4: string, c5: string, c6: string, tr: Tree, fs: seq<Fact>)
    requires |tr.scopes| == 23
    requires Parent(tr, 0) == None
    requires Parent(tr, 3) == Some(0)
    requires Parent(tr, 4) == Some(3)
    requires Parent(tr, 14) == Some(4)
    requires LocalsOf(tr, 14) == [Local(i, Pos(74, 18)), Local(c4, Pos(74, 27))]
    requires LocalsOf(tr, 4) == []
    requires LocalsOf(tr, 3) == []
    requires LocalsOf(tr, 0) == []
    requires i != c4
    ensures EventDiags(tr, Declared(14, i, Pos(74, 18), Initialized, []), fs) == []
    ensures Step(tr, Declared(14, i, Pos(74, 18), Initialized, []), fs) == fs + [Fact(14, i, [])]
  {
    assert Lookup(tr, 0, i) == None;
    assert Lookup(tr, 3, i) == None;
    assert Lookup(tr, 4, i) == None;
  }

  /** Event 14: its diagnostics and the assignments after it. */
  lemma {:induction false} Event14(i: string, c1: string, c2: string, c3: string, c4: string, c5: string, c6: string, tr: Tree, fs: seq<Fact>)
    requires |tr.scopes| == 23
    requires Parent(tr, 0) == None
    requires Parent(tr, 3) == Some(0)
    requires Parent(tr, 4) == Some(3)
    requires Parent(tr, 14) == Some(4)
    requires LocalsOf(tr, 14) == [Local(i, Pos(74, 18)), Local(c4, Pos(74, 27))]
    requires LocalsOf(tr, 4) == []
    requires LocalsOf(tr, 3) == []
    requires LocalsOf(tr, 0) == []
    requires i != c4
    ensures EventDiags(tr, Declared(14, c4, Pos(74, 27), Initialized, []), fs) == []
    ensures Step(tr, Declared(14, c4, Pos(74, 27), Initialized, []), fs) == fs + [Fact(14, c4, [])]
  {
    assert Lookup(tr, 0, c4) == None;
    assert Lookup(tr, 3, c4) == None;
    assert Lookup(tr, 4, c4) == None;
  }

  /** Event 15: its diagnostics and the assignments after it. */
  lemma {:induction false} Event15(i: string, c1: string, c2: string, c3: string, c4: string, c5: string, c6: string, tr: Tree, fs: seq<Fact>)
    requires |tr.scopes| == 23
    requires Parent(tr, 14) == Some(4)
    requires Parent(tr, 15) == Some(14)
    requires LocalsOf(tr, 15) == []
    requires LocalsOf(tr, 14) == [Local(i, Pos(74, 18)), Local(c4, Pos(74, 27))]
    requires i != c4
    requires Assigned(fs, 14, i, [])
    ensures EventDiags(tr, Referenced(15, i, Pos(74, 36), false, false, []), fs) == []
    ensures Step(tr, Referenced(15, i, Pos(74, 36), false, false, []), fs) == fs
  {
    assert Local(i, Pos(74, 18)) in LocalsOf(tr, 14);
    assert Lookup(tr, 14, i) == Some(14);
    assert Lookup(tr, 15, i) == Some(14);
  }

  /** Event 16: its diagnostics and the assignments after it. */
  lemma {:induction false} Event16(i: string, c1: string, c2: string, c3: string, c4: string, c5: string, c6: string, tr: Tree, fs: seq<Fact>)
    requires |tr.scopes| == 23
    requires Parent(tr, 14) == Some(4)
    requires Parent(tr, 15) == Some(14)
    requires Parent(tr, 16) == Some(15)
    requires LocalsOf(tr, 16) == [Local(c4, Pos(75, 42))]
    requires LocalsOf(tr, 15) == []
    requires LocalsOf(tr, 14) == [Local(i, Pos(74, 18)), Local(c4, Pos(74, 27))]
    requires i != c4
    ensures EventDiags(tr, Declared(16, c4, Pos(75, 42), Initialized, [3]), fs) == [Diag(Shadow, c4, Pos(75, 42))]
    ensures Step(tr, Declared(16, c4, Pos(75, 42), Initialized, [3]), fs) == fs + [Fact(16, c4, [3])]
  {
    assert Local(c4, Pos(74, 27)) in LocalsOf(tr, 14);
    assert Lookup(tr, 14, c4) == Some(14);
    assert Lookup(tr, 15, c4) == Some(14);
  }

  /** Event 17: its diagnostics and the assignments after it. */
  lemma {:induction false} Event17(i: string, c1: string, c2: string, c3: string, c4: string, c5: string, c6: string, tr: Tree, fs: seq<Fact>)
    ensures EventDiags(tr, OutAssigned(16, [], [3]), fs) == []
    ensures Step(tr, OutAssigned(16, [], [3]), fs) == fs
  {
    assert OutFacts(16, [], [3]) == [];
    FactsNil(fs);
  }

  /** Event 18: its diagnostics and the assignments after it. */
  lemma {:induction false} Event18(i: string, c1: string, c2: string, c3: string, c4: string, c5: string, c6: string, tr: Tree, fs: seq<Fact>)
    requires |tr.scopes| == 23
    requires Parent(tr, 14) == Some(4)
    requires Parent(tr, 15) == Some(14)
    requires LocalsOf(tr, 15) == []
    requires LocalsOf(tr, 14) == [Local(i, Pos(74, 18)), Local(c4, Pos(74, 27))]
    requires i != c4
    requires Assigned(fs, 14, i, [3])
    ensures EventDiags(tr, Referenced(15, i, Pos(74, 43), false, false, [3]), fs) == []
    ensures Step(tr, Referenced(15, i, Pos(74, 43), false, false, [3]), fs) == fs
  {
    assert Local(i, Pos(74, 18)) in LocalsOf(tr, 14);
    assert Lookup(tr, 14, i) == Some(14);
    assert Lookup(tr, 15, i) == Some(14);
  }

  /** Event 19: its diagnostics and the assignments after it. */
  lemma {:induction false} Event19(i: string, c1: string, c2: string, c3: string, c4: string, c5: string, c6: string, tr: Tree, fs: seq<Fact>)
    requires |tr.scopes| == 23
    requires Parent(tr, 0) == None
    requires Parent(tr, 3) == Some(0)
    requires Parent(tr, 4) == Some(3)
    requires Parent(tr, 17) == Some(4)
    requires LocalsOf(tr, 17) == [Local(i, Pos(77, 18)), Local(c5, Pos(77, 27))]
    requires LocalsOf(tr, 4) == []
    requires LocalsOf(tr, 3) == []
    requires LocalsOf(tr, 0) == []
    requires i != c5
    ensures EventDiags(tr, Declared(17, i, Pos(77, 18), Initialized, []), fs) == []
    ensures Step(tr, Declared(17, i, Pos(77, 18), Initialized, []), fs) == fs + [Fact(17, i, [])]
  {
    assert Lookup(tr, 0, i) == None;
    assert Lookup(tr, 3, i) == None;
    assert Lookup(tr, 4, i) == None;
  }

  /** Event 20: its diagnostics and the assignments after it. */
  lemma {:induction false} Event20(i: string, c1: string, c2: string, c3: string, c4: string, c5: string, c6: string, tr: Tree, fs: seq<Fact>)
    requires |tr.scopes| == 23
    requires Parent(tr, 0) == None
    requires Parent(tr, 3) == Some(0)
    requires Parent(tr, 4) == Some(3)
    requires Parent(tr, 17) == Some(4)
    requires LocalsOf(tr, 17) == [Local(i, Pos(77, 18)), Local(c5, Pos(77, 27))]
    requires LocalsOf(tr, 4) == []
    requires LocalsOf(tr, 3) == []
    requires LocalsOf(tr, 0) == []
    requires i != c5
    ensures EventDiags(tr, Declared(17, c5, Pos(77, 27), Initialized, []), fs) == []
    ensures Step(tr, Declared(17, c5, Pos(77, 27), Initialized, []), fs) == fs + [Fact(17, c5, [])]
  {
    assert Lookup(tr, 0, c5) == None;
    assert Lookup(tr, 3, c5) == None;
    assert Lookup(tr, 4, c5) == None;
  }

  /** Event 21: its diagnostics and the assignments after it. */
  lemma {:induction false} Event21(i: string, c1: string, c2: string, c3: string, c4: string, c5: string, c6: string, tr: Tree, fs: seq<Fact>)
    requires |tr.scopes| == 23
    requires Parent(tr, 17) == Some(4)
    requires Parent(tr, 18) == Some(17)
    requires LocalsOf(tr, 18) == []
    requires LocalsOf(tr, 17) == [Local(i, Pos(77, 18)), Local(c5, Pos(77, 27))]
    requires i != c5
    requires Assigned(fs, 17, i, [])
    ensures EventDiags(tr, Referenced(18, i, Pos(77, 36), false, false, []), fs) == []
    ensures Step(tr, Referenced(18, i, Pos(77, 36), false, false, []), fs) == fs
  {
    assert Local(i, Pos(77, 18)) in LocalsOf(tr, 17);
    assert Lookup(tr, 17, i) == Some(17);
    assert Lookup(tr, 18, i) == Some(17);
  }

  /** Event 22: its diagnostics and the assignments after it. */
  lemma {:induction false} Event22(i: string, c1: string, c2: string, c3: string, c4: string, c5: string, c6: string, tr: Tree, fs: seq<Fact>)
    requires |tr.scopes| == 23
    requires Parent(tr, 17) == Some(4)
    requires Parent(tr, 18) == Some(17)
    requires Parent(tr, 19) == Some(18)
    requires LocalsOf(tr, 19) == [Local(c5, Pos(79, 42))]
    requires LocalsOf(tr, 18) == []
    requires LocalsOf(tr, 17) == [Local(i, Pos(77, 18)), Local(c5, Pos(77, 27))]
    requires i != c5
    ensures EventDiags(tr, Declared(19, c5, Pos(79, 42), Initialized, [4]), fs) == [Diag(Shadow, c5, Pos(79, 42))]
    ensures Step(tr, Declared(19, c5, Pos(79, 42), Initialized, [4]), fs) == fs + [Fact(19, c5, [4])]
  {
    assert Local(c5, Pos(77, 27)) in LocalsOf(tr, 17);
    assert Lookup(tr, 17, c5) == Some(17);
    assert Lookup(tr, 18, c5) == Some(17);
  }

  /** Event 23: its diagnostics and the assignments after it. */
  lemma {:induction false} Event23(i: string, c1: string, c2: string, c3: string, c4: string, c5: string, c6: string, tr: Tree, fs: seq<Fact>)
    ensures EventDiags(tr, OutAssigned(19, [], [4]), fs) == []
    ensures Step(tr, OutAssigned(19, [], [4]), fs) == fs
  {
    assert OutFacts(19, [], [4]) == [];
    FactsNil(fs);
  }

  /** Event 24: its diagnostics and the assignments after it. */
  lemma {:induction false} Event24(i: string, c1: string, c2: string, c3: string, c4: string, c5: string, c6: string, tr: Tree, fs: seq<Fact>)
    requires |tr.scopes| == 23
    requires Parent(tr, 17) == Some(4)
    requires Parent(tr, 18) == Some(17)
    requires LocalsOf(tr, 18) == []
    requires LocalsOf(tr, 17) == [Local(i, Pos(77, 18)), Local(c5, Pos(77, 27))]
    requires i != c5
    requires Assigned(fs, 17, i, [4])
    ensures EventDiags(tr, Referenced(18, i, Pos(77, 43), false, false, [4]), fs) == []
    ensures Step(tr, Referenced(18, i, Pos(77, 43), false, false, [4]), fs) == fs
  {
    assert Local(i, Pos(77, 18)) in LocalsOf(tr, 17);
    assert Lookup(tr, 17, i) == Some(17);
    assert Lookup(tr, 18, i) == Some(17);
  }

  /** Event 25: its diagnostics and the assignments after it. */
  lemma {:induction false} Event25(i: string, c1: string, c2: string, c3: string, c4: string, c5: string, c6: string, tr: Tree, fs: seq<Fact>)
    requires |tr.scopes| == 23
    requires Parent(tr, 0) == None
    requires Parent(tr, 3) == Some(0)
    requires Parent(tr, 4) == Some(3)
    requires Parent(tr, 20) == Some(4)
    requires LocalsOf(tr, 20) == [Local(i, Pos(82, 18)), Local(c6, Pos(82, 27))]
    requires LocalsOf(tr, 4) == []
    requires LocalsOf(tr, 3) == []
    requires LocalsOf(tr, 0) == []
    requires i != c6
    ensures EventDiags(tr, Declared(20, i, Pos(82, 18), Initialized, []), fs) == []
    ensures Step(tr, Declared(20, i, Pos(82, 18), Initialized, []), fs) == fs + [Fact(20, i, [])]
  {
    assert Lookup(tr, 0, i) == None;
    assert Lookup(tr, 3, i) == None;
    assert Lookup(tr, 4, i) == None;
  }

  /** Event 26: its diagnostics and the assignments after it. */
  lemma {:induction false} Event26(i: string, c1: string, c2: string, c3: string, c4: string, c5: string, c6: string, tr: Tree, fs: seq<Fact>)
    requires |tr.scopes| == 23
    requires Parent(tr, 0) == None
    requires Parent(tr, 3) == Some(0)
    requires Parent(tr, 4) == Some(3)
    requires Parent(tr, 20) == Some(4)
    requires LocalsOf(tr, 20) == [Local(i, Pos(82, 18)), Local(c6, Pos(82, 27))]
    requires LocalsOf(tr, 4) == []
    requires LocalsOf(tr, 3) == []
    requires LocalsOf(tr, 0) == []
    requires i != c6
    ensures EventDiags(tr, Declared(20, c6, Pos(82, 27), Initialized, []), fs) == []
    ensures Step(tr, Declared(20, c6, Pos(82, 27), Initialized, []), fs) == fs + [Fact(20, c6, [])]
  {
    assert Lookup(tr, 0, c6) == None;
    assert Lookup(tr, 3, c6) == None;
    assert Lookup(tr, 4, c6) == None;
  }

  /** Event 27: its diagnostics and the assignments after it. */
  lemma {:induction false} Event27(i: string, c1: string, c2: string, c3: string, c4: string, c5: string, c6: string, tr: Tree, fs: seq<Fact>)
    requires |tr.scopes| == 23
    requires Parent(tr, 20) == Some(4)
    requires Parent(tr, 21) == Some(20)
    requires LocalsOf(tr, 21) == []
    requires LocalsOf(tr, 20) == [Local(i, Pos(82, 18)), Local(c6, Pos(82, 27))]
    requires i != c6
    requires Assigned(fs, 20, i, [])
    ensures EventDiags(tr, Referenced(21, i, Pos(82, 36), false, false, []), fs) == []
    ensures Step(tr, Referenced(21, i, Pos(82, 36), false, false, []), fs) == fs
  {
    assert Local(i, Pos(82, 18)) in LocalsOf(tr, 20);
    assert Lookup(tr, 20, i) == Some(20);
    assert Lookup(tr, 21, i) == Some(20);
  }

  /** Event 28: its diagnostics and the assignments after it. */
  lemma {:induction false} Event28(i: string, c1: string, c2: string, c3: string, c4: string, c5: string, c6: string, tr: Tree, fs: seq<Fact>)
    requires |tr.scopes| == 23
    requires Parent(tr, 20) == Some(4)
    requires Parent(tr, 21) == Some(20)
    requires Parent(tr, 22) == Some(21)
    requires LocalsOf(tr, 22) == [Local(c6, Pos(84, 17))]
    requires LocalsOf(tr, 21) == []
    requires LocalsOf(tr, 20) == [Local(i, Pos(82, 18)), Local(c6, Pos(82, 27))]
    requires i != c6
    ensures EventDiags(tr, Declared(22, c6, Pos(84, 17), Initialized, [5]), fs) == [Diag(Shadow, c6, Pos(84, 17))]
    ensures Step(tr, Declared(22, c6, Pos(84, 17), Initialized, [5]), fs) == fs + [Fact(22, c6, [5])]
  {
    assert Local(c6, Pos(82, 27)) in LocalsOf(tr, 20);
    assert Lookup(tr, 20, c6) == Some(20);
    assert Lookup(tr, 21, c6) == Some(20);
  }

  /** Event 29: its diagnostics and the assignments after it. */
  lemma {:induction false} Event29(i: string, c1: string, c2: string, c3: string, c4: string, c5: string, c6: string, tr: Tree, fs: seq<Fact>)
    requires |tr.scopes| == 23
    requires Parent(tr, 22) == Some(21)
    requires LocalsOf(tr, 22) == [Local(c6, Pos(84, 17))]
    requires Assigned(fs, 22, c6, [5])
    ensures EventDiags(tr, Referenced(22, c6, Pos(85, 38), false, false, [5]), fs) == []
    ensures Step(tr, Referenced(22, c6, Pos(85, 38), false, false, [5]), fs) == fs
  {
    assert Local(c6, Pos(84, 17)) in LocalsOf(tr, 22);
    assert Lookup(tr, 22, c6) == Some(22);
  }

  /** Event 30: its diagnostics and the assignments after it. */
  lemma {:induction false} Event30(i: string, c1: string, c2: string, c3: string, c4: string, c5: string, c6: string, tr: Tree, fs: seq<Fact>)
    ensures EventDiags(tr, OutAssigned(22, [], [5]), fs) == []
    ensures Step(tr, OutAssigned(22, [], [5]), fs) == fs
  {
    assert OutFacts(22, [], [5]) == [];
    FactsNil(fs);
  }

  /** Event 31: its diagnostics and the assignments after it. */
  lemma {:induction false} Event31(i: string, c1: string, c2: string, c3: string, c4: string, c5: string, c6: string, tr: Tree, fs: seq<Fact>)
    requires |tr.scopes| == 23
    requires Parent(tr, 20) == Some(4)
    requires Parent(tr, 21) == Some(20)
    requires LocalsOf(tr, 21) == []
    requires LocalsOf(tr, 20) == [Local(i, Pos(82, 18)), Local(c6, Pos(82, 27))]
    requires i != c6
    requires Assigned(fs, 20, i, [5])
    ensures EventDiags(tr, Referenced(21, i, Pos(82, 43), false, false, [5]), fs) == []
    ensures Step(tr, Referenced(21, i, Pos(82, 43), false, false, [5]), fs) == fs
  {
    assert Local(i, Pos(82, 18)) in LocalsOf(tr, 20);
    assert Lookup(tr, 20, i) == Some(20);
    assert Lookup(tr, 21, i) == Some(20);
  }

  /** What a read of i in scope 11 finds assigned before event 8. */
  lemma {:induction false} Read0(i: string, c1: string, c2: string, c3: string, c4: string, c5: string, c6: string)
    ensures !Assigned(Known0(i, c1, c2, c3, c4, c5, c6), 11, i, [])
  {
    Assigned0(i, c1, c2, c3, c4, c5, c6, [], 11, i, []);
    assert !Assigned([], 11, i, []);
  }

  /** What a read of i in scope 11 finds assigned before event 8. */
  lemma {:induction false} Read1(i: string, c1: string, c2: string, c3: string, c4: string, c5: string, c6: string)
    ensures !Assigned(Known0(i, c1, c2, c3, c4, c5, c6), 11, i, [2])
  {
    Assigned0(i, c1, c2, c3, c4, c5, c6, [], 11, i, [2]);
    assert !Assigned([], 11, i, [2]);
  }

  /** What a read of i in scope 14 finds assigned before event 8. */
  lemma {:induction false} Read2(i: string, c1: string, c2: string, c3: string, c4: string, c5: string, c6: string)
    ensures !Assigned(Known0(i, c1, c2, c3, c4, c5, c6), 14, i, [])
  {
    Assigned0(i, c1, c2, c3, c4, c5, c6, [], 14, i, []);
    assert !Assigned([], 14, i, []);
  }

  /** What a read of i in scope 14 finds assigned before event 16. */
  lemma {:induction false} Read3(i: string, c1: string, c2: string, c3: string, c4: string, c5: string, c6: string)
    ensures Assigned(Known1(i, c1, c2, c3, c4, c5, c6), 14, i, [3])
  {
    Assigned0(i, c1, c2, c3, c4, c5, c6, [], 14, i, [3]);
    Assigned1(i, c1, c2, c3, c4, c5, c6, Known0(i, c1, c2, c3, c4, c5, c6), 14, i, [3]);
    assert !Assigned([], 14, i, [3]);
  }

  /** What a read of i in scope 17 finds assigned before event 16. */
  lemma {:induction false} Read4(i: string, c1: string, c2: string, c3: string, c4: string, c5: string, c6: string)
    ensures !Assigned(Known1(i, c1, c2, c3, c4, c5, c6), 17, i, [])
  {
    Assigned0(i, c1, c2, c3, c4, c5, c6, [], 17, i, []);
    Assigned1(i, c1, c2, c3, c4, c5, c6, Known0(i, c1, c2, c3, c4, c5, c6), 17, i, []);
    assert !Assigned([], 17, i, []);
  }

  /** What a read of i in scope 17 finds assigned before event 24. */
  lemma {:induction false} Read5(i: string, c1: string, c2: string, c3: string, c4: string, c5: string, c6: string)
    ensures Assigned(Known2(i, c1, c2, c3, c4, c5, c6), 17, i, [4])
  {
    Assigned0(i, c1, c2, c3, c4, c5, c6, [], 17, i, [4]);
    Assigned1(i, c1, c2, c3, c4, c5, c6, Known0(i, c1, c2, c3, c4, c5, c6), 17, i, [4]);
    Assigned2(i, c1, c2, c3, c4, c5, c6, Known1(i, c1, c2, c3, c4, c5, c6), 17, i, [4]);
    assert !Assigned([], 17, i, [4]);
  }

  /** What a read of i in scope 20 finds assigned before event 24. */
  lemma {:induction false} Read6(i: string, c1: string, c2: string, c3: string, c4: string, c5: string, c6: string)
    ensures !Assigned(Known2(i, c1, c2, c3, c4, c5, c6), 20, i, [])
  {
    Assigned0(i, c1, c2, c3, c4, c5, c6, [], 20, i, []);
    Assigned1(i, c1, c2, c3, c4, c5, c6, Known0(i, c1, c2, c3, c4, c5, c6), 20, i, []);
    Assigned2(i, c1, c2, c3, c4, c5, c6, Known1(i, c1, c2, c3, c4, c5, c6), 20, i, []);
    assert !Assigned([], 20, i, []);
  }

  /** What a read of c6 in scope 22 finds assigned before event 24. */
  lemma {:induction false} Read7(i: string, c1: string, c2: string, c3: string, c4: string, c5: string, c6: string)
    ensures !Assigned(Known2(i, c1, c2, c3, c4, c5, c6), 22, c6, [5])
  {
    Assigned0(i, c1, c2, c3, c4, c5, c6, [], 22, c6, [5]);
    Assigned1(i, c1, c2, c3, c4, c5, c6, Known0(i, c1, c2, c3, c4, c5, c6), 22, c6, [5]);
    Assigned2(i, c1, c2, c3, c4, c5, c6, Known1(i, c1, c2, c3, c4, c5, c6), 22, c6, [5]);
    assert !Assigned([], 22, c6, [5]);
  }

  /** What a read of i in scope 20 finds assigned before event 24. */
  lemma {:induction false} Read8(i: string, c1: string, c2: string, c3: string, c4: string, c5: string, c6: string)
    ensures !Assigned(Known2(i, c1, c2, c3, c4, c5, c6), 20, i, [5])
  {
    Assigned0(i, c1, c2, c3, c4, c5, c6, [], 20, i, [5]);
    Assigned1(i, c1, c2, c3, c4, c5, c6, Known0(i, c1, c2, c3, c4, c5, c6), 20, i, [5]);
    Assigned2(i, c1, c2, c3, c4, c5, c6, Known1(i, c1, c2, c3, c4, c5, c6), 20, i, [5]);
    assert !Assigned([], 20, i, [5]);
  }

  /** The parent and the locals of scope 0. */
  lemma {:induction false} Scope0(i: string, c1: string, c2: string, c3: string, c4: string, c5: string, c6: string, tr: Tree)
    requires ScopesAre(tr, Layout())
    requires LocalsFit(i, c1, c2, c3, c4, c5, c6, tr)
    ensures |tr.scopes| == 23
    ensures Parent(tr, 0) == None
    ensures LocalsOf(tr, 0) == []
  {
    assert tr.scopes[0] == Layout()[0];
    Locals0(i, c1, c2, c3, c4, c5, c6);
    assert LocalsOf(tr, 0) == DeclaredBy(i, c1, c2, c3, c4, c5, c6, 4, 0);
  }

  /** The parent and the locals of scope 3. */
  lemma {:induction false} Scope3(i: string, c1: string, c2: string, c3: string, c4: string, c5: string, c6: string, tr: Tree)
    requires ScopesAre(tr, Layout())
    requires LocalsFit(i, c1, c2, c3, c4, c5, c6, tr)
    ensures |tr.scopes| == 23
    ensures Parent(tr, 3) == Some(0)
    ensures LocalsOf(tr, 3) == []
  {
    assert tr.scopes[3] == Layout()[3];
    Locals3(i, c1, c2, c3, c4, c5, c6);
    assert LocalsOf(tr, 3) == DeclaredBy(i, c1, c2, c3, c4, c5, c6, 4, 3);
  }

  /** The parent and the locals of scope 4. */
  lemma {:induction false} Scope4(i: string, c1: string, c2: string, c3: string, c4: string, c5: string, c6: string, tr: Tree)
    requires ScopesAre(tr, Layout())
    requires LocalsFit(i, c1, c2, c3, c4, c5, c6, tr)
    ensures |tr.scopes| == 23
    ensures Parent(tr, 4) == Some(3)
    ensures LocalsOf(tr, 4) == []
  {
    assert tr.scopes[4] == Layout()[4];
    Locals4(i, c1, c2, c3, c4, c5, c6);
    assert LocalsOf(tr, 4) == DeclaredBy(i, c1, c2, c3, c4, c5, c6, 4, 4);
  }

  /** The parent and the locals of scope 5. */
  lemma {:induction false} Scope5(i: string, c1: string, c2: string, c3: string, c4: string, c5: string, c6: string, tr: Tree)
    requires ScopesAre(tr, Layout())
    requires LocalsFit(i, c1, c2, c3, c4, c5, c6, tr)
    ensures |tr.scopes| == 23
    ensures Parent(tr, 5) == Some(4)
    ensures LocalsOf(tr, 5) == [Local(i, Pos(68, 18)), Local(c1, Pos(68, 27)), Local(c1, Pos(68, 42))]
  {
    assert tr.scopes[5] == Layout()[5];
    Locals5(i, c1, c2, c3, c4, c5, c6);
    assert LocalsOf(tr, 5) == DeclaredBy(i, c1, c2, c3, c4, c5, c6, 4, 5);
  }

  /** The parent and the locals of scope 6. */
  lemma {:induction false} Scope6(i: string, c1: string, c2: string, c3: string, c4: string, c5: string, c6: string, tr: Tree)
    requires ScopesAre(tr, Layout())
    requires LocalsFit(i, c1, c2, c3, c4, c5, c6, tr)
    ensures |tr.scopes| == 23
    ensures Parent(tr, 6) == Some(5)
    ensures LocalsOf(tr, 6) == []
  {
    assert tr.scopes[6] == Layout()[6];
    Locals6(i, c1, c2, c3, c4, c5, c6);
    assert LocalsOf(tr, 6) == DeclaredBy(i, c1, c2, c3, c4, c5, c6, 4, 6);
  }

  /** The parent and the locals of scope 8. */
  lemma {:induction false} Scope8(i: string, c1: string, c2: string, c3: string, c4: string, c5: string, c6: string, tr: Tree)
    requires ScopesAre(tr, Layout())
    requires LocalsFit(i, c1, c2, c3, c4, c5, c6, tr)
    ensures |tr.scopes| == 23
    ensures Parent(tr, 8) == Some(4)
    ensures LocalsOf(tr, 8) == [Local(i, Pos(70, 18)), Local(c2, Pos(70, 27))]
  {
    assert tr.scopes[8] == Layout()[8];
    Locals8(i, c1, c2, c3, c4, c5, c6);
    assert LocalsOf(tr, 8) == DeclaredBy(i, c1, c2, c3, c4, c5, c6, 4, 8);
  }

  /** The parent and the locals of scope 9. */
  lemma {:induction false} Scope9(i: string, c1: string, c2: string, c3: string, c4: string, c5: string, c6: string, tr: Tree)
    requires ScopesAre(tr, Layout())
    requires LocalsFit(i, c1, c2, c3, c4, c5, c6, tr)
    ensures |tr.scopes| == 23
    ensures Parent(tr, 9) == Some(8)
    ensures LocalsOf(tr, 9) == [Local(c2, Pos(70, 45))]
  {
    assert tr.scopes[9] == Layout()[9];
    Locals9(i, c1, c2, c3, c4, c5, c6);
    assert LocalsOf(tr, 9) == DeclaredBy(i, c1, c2, c3, c4, c5, c6, 4, 9);
  }

  /** The parent and the locals of scope 11. */
  lemma {:induction false} Scope11(i: string, c1: string, c2: string, c3: string, c4: string, c5: string, c6: string, tr: Tree)
    requires ScopesAre(tr, Layout())
    requires LocalsFit(i, c1, c2, c3, c4, c5, c6, tr)
    ensures |tr.scopes| == 23
    ensures Parent(tr, 11) == Some(4)
    ensures LocalsOf(tr, 11) == [Local(i, Pos(72, 18)), Local(c3, Pos(72, 27))]
  {
    assert tr.scopes[11] == Layout()[11];
    Locals11(i, c1, c2, c3, c4, c5, c6);
    assert LocalsOf(tr, 11) == DeclaredBy(i, c1, c2, c3, c4, c5, c6, 4, 11);
  }

  /** The parent and the locals of scope 12. */
  lemma {:induction false} Scope12(i: string, c1: string, c2: string, c3: string, c4: string, c5: string, c6: string, tr: Tree)
    requires ScopesAre(tr, Layout())
    requires LocalsFit(i, c1, c2, c3, c4, c5, c6, tr)
    ensures |tr.scopes| == 23
    ensures Parent(tr, 12) == Some(11)
    ensures LocalsOf(tr, 12) == [Local(c3, Pos(72, 52))]
  {
    assert tr.scopes[12] == Layout()[12];
    Locals12(i, c1, c2, c3, c4, c5, c6);
    assert LocalsOf(tr, 12) == DeclaredBy(i, c1, c2, c3, c4, c5, c6, 4, 12);
  }

  /** The parent and the locals of scope 14. */
  lemma {:induction false} Scope14(i: string, c1: string, c2: string, c3: string, c4: string, c5: string, c6: string, tr: Tree)
    requires ScopesAre(tr, Layout())
    requires LocalsFit(i, c1, c2, c3, c4, c5, c6, tr)
    ensures |tr.scopes| == 23
    ensures Parent(tr, 14) == Some(4)
    ensures LocalsOf(tr, 14) == [Local(i, Pos(74, 18)), Local(c4, Pos(74, 27))]
  {
    assert tr.scopes[14] == Layout()[14];
    Locals14(i, c1, c2, c3, c4, c5, c6);
    assert LocalsOf(tr, 14) == DeclaredBy(i, c1, c2, c3, c4, c5, c6, 4, 14);
  }

  /** The parent and the locals of scope 15. */
  lemma {:induction false} Scope15(i: string, c1: string, c2: string, c3: string, c4: string, c5: string, c6: string, tr: Tree)
    requires ScopesAre(tr, Layout())
    requires LocalsFit(i, c1, c2, c3, c4, c5, c6, tr)
    ensures |tr.scopes| == 23
    ensures Parent(tr, 15) == Some(14)
    ensures LocalsOf(tr, 15) == []
  {
    assert tr.scopes[15] == Layout()[15];
    Locals15(i, c1, c2, c3, c4, c5, c6);
    assert LocalsOf(tr, 15) == DeclaredBy(i, c1, c2, c3, c4, c5, c6, 4, 15);
  }

  /** The parent and the locals of scope 16. */
  lemma {:induction false} Scope16(i: string, c1: string, c2: string, c3: string, c4: string, c5: string, c6: string, tr: Tree)
    requires ScopesAre(tr, Layout())
    requires LocalsFit(i, c1, c2, c3, c4, c5, c6, tr)
    ensures |tr.scopes| == 23
    ensures Parent(tr, 16) == Some(15)
    ensures LocalsOf(tr, 16) == [Local(c4, Pos(75, 42))]
  {
    assert tr.scopes[16] == Layout()[16];
    Locals16(i, c1, c2, c3, c4, c5, c6);
    assert LocalsOf(tr, 16) == DeclaredBy(i, c1, c2, c3, c4, c5, c6, 4, 16);
  }

  /** The parent and the locals of scope 17. */
  lemma {:induction false} Scope17(i: string, c1: string, c2: string, c3: string, c4: string, c5: string, c6: string, tr: Tree)
    requires ScopesAre(tr, Layout())
    requires LocalsFit(i, c1, c2, c3, c4, c5, c6, tr)
    ensures |tr.scopes| == 23
    ensures Parent(tr, 17) == Some(4)
    ensures LocalsOf(tr, 17) == [Local(i, Pos(77, 18)), Local(c5, Pos(77, 27))]
  {
    assert tr.scopes[17] == Layout()[17];
    Locals17(i, c1, c2, c3, c4, c5, c6);
    assert LocalsOf(tr, 17) == DeclaredBy(i, c1, c2, c3, c4, c5, c6, 4, 17);
  }

  /** The parent and the locals of scope 18. */
  lemma {:induction false} Scope18(i: string, c1: string, c2: string, c3: string, c4: string, c5: string, c6: string, tr: Tree)
    requires ScopesAre(tr, Layout())
    requires LocalsFit(i, c1, c2, c3, c4, c5, c6, tr)
    ensures |tr.scopes| == 23
    ensures Parent(tr, 18) == Some(17)
    ensures LocalsOf(tr, 18) == []
  {
    assert tr.scopes[18] == Layout()[18];
    Locals18(i, c1, c2, c3, c4, c5, c6);
    assert LocalsOf(tr, 18) == DeclaredBy(i, c1, c2, c3, c4, c5, c6, 4, 18);
  }

  /** The parent and the locals of scope 19. */
  lemma {:induction false} Scope19(i: string, c1: string, c2: string, c3: string, c4: string, c5: string, c6: string, tr: Tree)
    requires ScopesAre(tr, Layout())
    requires LocalsFit(i, c1, c2, c3, c4, c5, c6, tr)
    ensures |tr.scopes| == 23
    ensures Parent(tr, 19) == Some(18)
    ensures LocalsOf(tr, 19) == [Local(c5, Pos(79, 42))]
  {
    assert tr.scopes[19] == Layout()[19];
    Locals19(i, c1, c2, c3, c4, c5, c6);
    assert LocalsOf(tr, 19) == DeclaredBy(i, c1, c2, c3, c4, c5, c6, 4, 19);
  }

  /** The parent and the locals of scope 20. */
  lemma {:induction false} Scope20(i: string, c1: string, c2: string, c3: string, c4: string, c5: string, c6: string, tr: Tree)
    requires ScopesAre(tr, Layout())
    requires LocalsFit(i, c1, c2, c3, c4, c5, c6, tr)
    ensures |tr.scopes| == 23
    ensures Parent(tr, 20) == Some(4)
    ensures LocalsOf(tr, 20) == [Local(i, Pos(82, 18)), Local(c6, Pos(82, 27))]
  {
    assert tr.scopes[20] == Layout()[20];
    Locals20(i, c1, c2, c3, c4, c5, c6);
    assert LocalsOf(tr, 20) == DeclaredBy(i, c1, c2, c3, c4, c5, c6, 4, 20);
  }

  /** The parent and the locals of scope 21. */
  lemma {:induction false} Scope21(i: string, c1: string, c2: string, c3: string, c4: string, c5: string, c6: string, tr: Tree)
    requires ScopesAre(tr, Layout())
    requires LocalsFit(i, c1, c2, c3, c4, c5, c6, tr)
    ensures |tr.scopes| == 23
    ensures Parent(tr, 21) == Some(20)
    ensures LocalsOf(tr, 21) == []
  {
    assert tr.scopes[21] == Layout()[21];
    Locals21(i, c1, c2, c3, c4, c5, c6);
    assert LocalsOf(tr, 21) == DeclaredBy(i, c1, c2, c3, c4, c5, c6, 4, 21);
  }

  /** The parent and the locals of scope 22. */
  lemma {:induction false} Scope22(i: string, c1: string, c2: string, c3: string, c4: string, c5: string, c6: string, tr: Tree)
    requires ScopesAre(tr, Layout())
    requires LocalsFit(i, c1, c2, c3, c4, c5, c6, tr)
    ensures |tr.scopes| == 23
    ensures Parent(tr, 22) == Some(21)
    ensures LocalsOf(tr, 22) == [Local(c6, Pos(84, 17))]
  {
    assert tr.scopes[22] == Layout()[22];
    Locals22(i, c1, c2, c3, c4, c5, c6);
    assert LocalsOf(tr, 22) == DeclaredBy(i, c1, c2, c3, c4, c5, c6, 4, 22);
  }

  /** The analysis of events 0 to 7, after the events before them. */
  lemma {:induction false} Analysed0(i: string, c1: string, c2: string, c3: string, c4: string, c5: string, c6: string, tr: Tree, evs: seq<Event>, fs: seq<Fact>, rs: seq<Diag>)
    requires |tr.scopes| == 23
    requires Parent(tr, 0) == None
    requires Parent(tr, 3) == Some(0)
    requires Parent(tr, 4) == Some(3)
    requires Parent(tr, 5) == Some(4)
    requires Parent(tr, 6) == Some(5)
    requires Parent(tr, 8) == Some(4)
    requires Parent(tr, 9) == Some(8)
    requires LocalsOf(tr, 0) == []
    requires LocalsOf(tr, 3) == []
    requires LocalsOf(tr, 4) == []
    requires LocalsOf(tr, 5) == [Local(i, Pos(68, 18)), Local(c1, Pos(68, 27)), Local(c1, Pos(68, 42))]
    requires LocalsOf(tr, 6) == []
    requires LocalsOf(tr, 8) == [Local(i, Pos(70, 18)), Local(c2, Pos(70, 27))]
    requires LocalsOf(tr, 9) == [Local(c2, Pos(70, 45))]
    requires i != c1 && i != c2
    requires Analyse(tr, evs, []) == rs
    requires Replay(tr, evs, []) == fs
    requires !Assigned(fs, 5, i, [])
    requires !Assigned(fs, 8, i, [])
    ensures Analyse(tr, evs + Chunk0(i, c1, c2, c3, c4, c5, c6), []) == rs + ([] + [] + [] + [Diag(Duplicate, c1, Pos(68, 42))] + [] + [] + [] + [] + [Diag(Shadow, c2, Pos(70, 45))])
    ensures Replay(tr, evs + Chunk0(i, c1, c2, c3, c4, c5, c6), []) == fs + [Fact(5, i, [])] + [Fact(5, c1, [])] + [Fact(5, c1, [])] + [Fact(8, i, [])] + [Fact(8, c2, [])] + [Fact(9, c2, [])]
  {
    assert Analyse(tr, [], fs) == [] && Replay(tr, [], fs) == fs;
    Event0(i, c1, c2, c3, c4, c5, c6, tr, fs);
    AnalyseSnoc(tr, [], Declared(5, i, Pos(68, 18), Initialized, []), fs);
    assert Analyse(tr, [] + [Declared(5, i, Pos(68, 18), Initialized, [])], fs) == [] + [];
    assert Replay(tr, [] + [Declared(5, i, Pos(68, 18), Initialized, [])], fs) == fs + [Fact(5, i, [])];
    Event1(i, c1, c2, c3, c4, c5, c6, tr, fs + [Fact(5, i, [])]);
    AnalyseSnoc(tr, [] + [Declared(5, i, Pos(68, 18), Initialized, [])], Declared(5, c1, Pos(68, 27), Initialized, []), fs);
    assert Analyse(tr, [] + [Declared(5, i, Pos(68, 18), Initialized, [])] + [Declared(5, c1, Pos(68, 27), Initialized, [])], fs) == [] + [] + [];
    assert Replay(tr, [] + [Declared(5, i, Pos(68, 18), Initialized, [])] + [Declared(5, c1, Pos(68, 27), Initialized, [])], fs) == fs + [Fact(5, i, [])] + [Fact(5, c1, [])];
    Event2(i, c1, c2, c3, c4, c5, c6, tr, fs + [Fact(5, i, [])] + [Fact(5, c1, [])]);
    AnalyseSnoc(tr, [] + [Declared(5, i, Pos(68, 18), Initialized, [])] + [Declared(5, c1, Pos(68, 27), Initialized, [])], Declared(5, c1, Pos(68, 42), Initialized, []), fs);
    assert Analyse(tr, [] + [Declared(5, i, Pos(68, 18), Initialized, [])] + [Declared(5, c1, Pos(68, 27), Initialized, [])] + [Declared(5, c1, Pos(68, 42), Initialized, [])], fs) == [] + [] + [] + [Diag(Duplicate, c1, Pos(68, 42))];
    assert Replay(tr, [] + [Declared(5, i, Pos(68, 18), Initialized, [])] + [Declared(5, c1, Pos(68, 27), Initialized, [])] + [Declared(5, c1, Pos(68, 42), Initialized, [])], fs) == fs + [Fact(5, i, [])] + [Fact(5, c1, [])] + [Fact(5, c1, [])];
    AssignedSnoc(fs, Fact(5, i, []), 5, i, []);
    AssignedSnoc(fs + [Fact(5, i, [])], Fact(5, c1, []), 5, i, []);
    AssignedSnoc(fs + [Fact(5, i, [])] + [Fact(5, c1, [])], Fact(5, c1, []), 5, i, []);
    Event3(i, c1, c2, c3, c4, c5, c6, tr, fs + [Fact(5, i, [])] + [Fact(5, c1, [])] + [Fact(5, c1, [])]);
    AnalyseSnoc(tr, [] + [Declared(5, i, Pos(68, 18), Initialized, [])] + [Declared(5, c1, Pos(68, 27), Initialized, [])] + [Declared(5, c1, Pos(68, 42), Initialized, [])], Referenced(6, i, Pos(68, 51), false, false, []), fs);
    assert Analyse(tr, [] + [Declared(5, i, Pos(68, 18), Initialized, [])] + [Declared(5, c1, Pos(68, 27), Initialized, [])] + [Declared(5, c1, Pos(68, 42), Initialized, [])] + [Referenced(6, i, Pos(68, 51), false, false, [])], fs) == [] + [] + [] + [Diag(Duplicate, c1, Pos(68, 42))] + [];
    assert Replay(tr, [] + [Declared(5, i, Pos(68, 18), Initialized, [])] + [Declared(5, c1, Pos(68, 27), Initialized, [])] + [Declared(5, c1, Pos(68, 42), Initialized, [])] + [Referenced(6, i, Pos(68, 51), false, false, [])], fs) == fs + [Fact(5, i, [])] + [Fact(5, c1, [])] + [Fact(5, c1, [])];
    Event4(i, c1, c2, c3, c4, c5, c6, tr, fs + [Fact(5, i, [])] + [Fact(5, c1, [])] + [Fact(5, c1, [])]);
    AnalyseSnoc(tr, [] + [Declared(5, i, Pos(68, 18), Initialized, [])] + [Declared(5, c1, Pos(68, 27), Initialized, [])] + [Declared(5, c1, Pos(68, 42), Initialized, [])] + [Referenced(6, i, Pos(68, 51), false, false, [])], Declared(8, i, Pos(70, 18), Initialized, []), fs);
    assert Analyse(tr, [] + [Declared(5, i, Pos(68, 18), Initialized, [])] + [Declared(5, c1, Pos(68, 27), Initialized, [])] + [Declared(5, c1, Pos(68, 42), Initialized, [])] + [Referenced(6, i, Pos(68, 51), false, false, [])] + [Declared(8, i, Pos(70, 18), Initialized, [])], fs) == [] + [] + [] + [Diag(Duplicate, c1, Pos(68, 42))] + [] + [];
    assert Replay(tr, [] + [Declared(5, i, Pos(68, 18), Initialized, [])] + [Declared(5, c1, Pos(68, 27), Initialized, [])] + [Declared(5, c1, Pos(68, 42), Initialized, [])] + [Referenced(6, i, Pos(68, 51), false, false, [])] + [Declared(8, i, Pos(70, 18), Initialized, [])], fs) == fs + [Fact(5, i, [])] + [Fact(5, c1, [])] + [Fact(5, c1, [])] + [Fact(8, i, [])];
    Event5(i, c1, c2, c3, c4, c5, c6, tr, fs + [Fact(5, i, [])] + [Fact(5, c1, [])] + [Fact(5, c1, [])] + [Fact(8, i, [])]);
    AnalyseSnoc(tr, [] + [Declared(5, i, Pos(68, 18), Initialized, [])] + [Declared(5, c1, Pos(68, 27), Initialized, [])] + [Declared(5, c1, Pos(68, 42), Initialized, [])] + [Referenced(6, i, Pos(68, 51), false, false, [])] + [Declared(8, i, Pos(70, 18), Initialized, [])], Declared(8, c2, Pos(70, 27), Initialized, []), fs);
    assert Analyse(tr, [] + [Declared(5, i, Pos(68, 18), Initialized, [])] + [Declared(5, c1, Pos(68, 27), Initialized, [])] + [Declared(5, c1, Pos(68, 42), Initialized, [])] + [Referenced(6, i, Pos(68, 51), false, false, [])] + [Declared(8, i, Pos(70, 18), Initialized, [])] + [Declared(8, c2, Pos(70, 27), Initialized, [])], fs) == [] + [] + [] + [Diag(Duplicate, c1, Pos(68, 42))] + [] + [] + [];
    assert Replay(tr, [] + [Declared(5, i, Pos(68, 18), Initialized, [])] + [Declared(5, c1, Pos(68, 27), Initialized, [])] + [Declared(5, c1, Pos(68, 42), Initialized, [])] + [Referenced(6, i, Pos(68, 51), false, false, [])] + [Declared(8, i, Pos(70, 18), Initialized, [])] + [Declared(8, c2, Pos(70, 27), Initialized, [])], fs) == fs + [Fact(5, i, [])] + [Fact(5, c1, [])] + [Fact(5, c1, [])] + [Fact(8, i, [])] + [Fact(8, c2, [])];
    AssignedSnoc(fs, Fact(5, i, []), 8, i, []);
    AssignedSnoc(fs + [Fact(5, i, [])], Fact(5, c1, []), 8, i, []);
    AssignedSnoc(fs + [Fact(5, i, [])] + [Fact(5, c1, [])], Fact(5, c1, []), 8, i, []);
    AssignedSnoc(fs + [Fact(5, i, [])] + [Fact(5, c1, [])] + [Fact(5, c1, [])], Fact(8, i, []), 8, i, []);
    AssignedSnoc(fs + [Fact(5, i, [])] + [Fact(5, c1, [])] + [Fact(5, c1, [])] + [Fact(8, i, [])], Fact(8, c2, []), 8, i, []);
    Event6(i, c1, c2, c3, c4, c5, c6, tr, fs + [Fact(5, i, [])] + [Fact(5, c1, [])] + [Fact(5, c1, [])] + [Fact(8, i, [])] + [Fact(8, c2, [])]);
    AnalyseSnoc(tr, [] + [Declared(5, i, Pos(68, 18), Initialized, [])] + [Declared(5, c1, Pos(68, 27), Initialized, [])] + [Declared(5, c1, Pos(68, 42), Initialized, [])] + [Referenced(6, i, Pos(68, 51), false, false, [])] + [Declared(8, i, Pos(70, 18), Initialized, [])] + [Declared(8, c2, Pos(70, 27), Initialized, [])], Referenced(9, i, Pos(70, 36), false, false, []), fs);
    assert Analyse(tr, [] + [Declared(5, i, Pos(68, 18), Initialized, [])] + [Declared(5, c1, Pos(68, 27), Initialized, [])] + [Declared(5, c1, Pos(68, 42), Initialized, [])] + [Referenced(6, i, Pos(68, 51), false, false, [])] + [Declared(8, i, Pos(70, 18), Initialized, [])] + [Declared(8, c2, Pos(70, 27), Initialized, [])] + [Referenced(9, i, Pos(70, 36), false, false, [])], fs) == [] + [] + [] + [Diag(Duplicate, c1, Pos(68, 42))] + [] + [] + [] + [];
    assert Replay(tr, [] + [Declared(5, i, Pos(68, 18), Initialized, [])] + [Declared(5, c1, Pos(68, 27), Initialized, [])] + [Declared(5, c1, Pos(68, 42), Initialized, [])] + [Referenced(6, i, Pos(68, 51), false, false, [])] + [Declared(8, i, Pos(70, 18), Initialized, [])] + [Declared(8, c2, Pos(70, 27), Initialized, [])] + [Referenced(9, i, Pos(70, 36), false, false, [])], fs) == fs + [Fact(5, i, [])] + [Fact(5, c1, [])] + [Fact(5, c1, [])] + [Fact(8, i, [])] + [Fact(8, c2, [])];
    Event7(i, c1, c2, c3, c4, c5, c6, tr, fs + [Fact(5, i, [])] + [Fact(5, c1, [])] + [Fact(5, c1, [])] + [Fact(8, i, [])] + [Fact(8, c2, [])]);
    AnalyseSnoc(tr, [] + [Declared(5, i, Pos(68, 18), Initialized, [])] + [Declared(5, c1, Pos(68, 27), Initialized, [])] + [Declared(5, c1, Pos(68, 42), Initialized, [])] + [Referenced(6, i, Pos(68, 51), false, false, [])] + [Declared(8, i, Pos(70, 18), Initialized, [])] + [Declared(8, c2, Pos(70, 27), Initialized, [])] + [Referenced(9, i, Pos(70, 36), false, false, [])], Declared(9, c2, Pos(70, 45), Initialized, []), fs);
    AnalyseSplit(tr, evs, Chunk0(i, c1, c2, c3, c4, c5, c6), []);
  }

  /** The analysis of events 8 to 15, after the events before them. */
  lemma {:induction false} Analysed1(i: string, c1: string, c2: string, c3: string, c4: string, c5: string, c6: string, tr: Tree, evs: seq<Event>, fs: seq<Fact>, rs: seq<Diag>)
    requires |tr.scopes| == 23
    requires Parent(tr, 0) == None
    requires Parent(tr, 3) == Some(0)
    requires Parent(tr, 4) == Some(3)
    requires Parent(tr, 11) == Some(4)
    requires Parent(tr, 12) == Some(11)
    requires Parent(tr, 14) == Some(4)
    requires Parent(tr, 15) == Some(14)
    requires LocalsOf(tr, 0) == []
    requires LocalsOf(tr, 3) == []
    requires LocalsOf(tr, 4) == []
    requires LocalsOf(tr, 11) == [Local(i, Pos(72, 18)), Local(c3, Pos(72, 27))]
    requires LocalsOf(tr, 12) == [Local(c3, Pos(72, 52))]
    requires LocalsOf(tr, 14) == [Local(i, Pos(74, 18)), Local(c4, Pos(74, 27))]
    requires LocalsOf(tr, 15) == []
    requires i != c3 && i != c4
    requires Analyse(tr, evs, []) == rs
    requires Replay(tr, evs, []) == fs
    requires !Assigned(fs, 11, i, [])
    requires !Assigned(fs, 11, i, [2])
    requires !Assigned(fs, 14, i, [])
    ensures Analyse(tr, evs + Chunk1(i, c1, c2, c3, c4, c5, c6), []) == rs + ([] + [] + [] + [] + [] + [Diag(Shadow, c3, Pos(72, 52))] + [] + [] + [])
    ensures Replay(tr, evs + Chunk1(i, c1, c2, c3, c4, c5, c6), []) == fs + [Fact(11, i, [])] + [Fact(11, c3, [])] + [Fact(12, c3, [2])] + [Fact(14, i, [])] + [Fact(14, c4, [])]
  {
    assert Analyse(tr, [], fs) == [] && Replay(tr, [], fs) == fs;
    Event8(i, c1, c2, c3, c4, c5, c6, tr, fs);
    AnalyseSnoc(tr, [], Declared(11, i, Pos(72, 18), Initialized, []), fs);
    assert Analyse(tr, [] + [Declared(11, i, Pos(72, 18), Initialized, [])], fs) == [] + [];
    assert Replay(tr, [] + [Declared(11, i, Pos(72, 18), Initialized, [])], fs) == fs + [Fact(11, i, [])];
    Event9(i, c1, c2, c3, c4, c5, c6, tr, fs + [Fact(11, i, [])]);
    AnalyseSnoc(tr, [] + [Declared(11, i, Pos(72, 18), Initialized, [])], Declared(11, c3, Pos(72, 27), Initialized, []), fs);
    assert Analyse(tr, [] + [Declared(11, i, Pos(72, 18), Initialized, [])] + [Declared(11, c3, Pos(72, 27), Initialized, [])], fs) == [] + [] + [];
    assert Replay(tr, [] + [Declared(11, i, Pos(72, 18), Initialized, [])] + [Declared(11, c3, Pos(72, 27), Initialized, [])], fs) == fs + [Fact(11, i, [])] + [Fact(11, c3, [])];
    AssignedSnoc(fs, Fact(11, i, []), 11, i, []);
    AssignedSnoc(fs + [Fact(11, i, [])], Fact(11, c3, []), 11, i, []);
    Event10(i, c1, c2, c3, c4, c5, c6, tr, fs + [Fact(11, i, [])] + [Fact(11, c3, [])]);
    AnalyseSnoc(tr, [] + [Declared(11, i, Pos(72, 18), Initialized, [])] + [Declared(11, c3, Pos(72, 27), Initialized, [])], Referenced(12, i, Pos(72, 36), false, false, []), fs);
    assert Analyse(tr, [] + [Declared(11, i, Pos(72, 18), Initialized, [])] + [Declared(11, c3, Pos(72, 27), Initialized, [])] + [Referenced(12, i, Pos(72, 36), false, false, [])], fs) == [] + [] + [] + [];
    assert Replay(tr, [] + [Declared(11, i, Pos(72, 18), Initialized, [])] + [Declared(11, c3, Pos(72, 27), Initialized, [])] + [Referenced(12, i, Pos(72, 36), false, false, [])], fs) == fs + [Fact(11, i, [])] + [Fact(11, c3, [])];
    AssignedSnoc(fs, Fact(11, i, []), 11, i, [2]);
    AssignedSnoc(fs + [Fact(11, i, [])], Fact(11, c3, []), 11, i, [2]);
    Event11(i, c1, c2, c3, c4, c5, c6, tr, fs + [Fact(11, i, [])] + [Fact(11, c3, [])]);
    AnalyseSnoc(tr, [] + [Declared(11, i, Pos(72, 18), Initialized, [])] + [Declared(11, c3, Pos(72, 27), Initialized, [])] + [Referenced(12, i, Pos(72, 36), false, false, [])], Referenced(12, i, Pos(72, 43), false, false, [2]), fs);
    assert Analyse(tr, [] + [Declared(11, i, Pos(72, 18), Initialized, [])] + [Declared(11, c3, Pos(72, 27), Initialized, [])] + [Referenced(12, i, Pos(72, 36), false, false, [])] + [Referenced(12, i, Pos(72, 43), false, false, [2])], fs) == [] + [] + [] + [] + [];
    assert Replay(tr, [] + [Declared(11, i, Pos(72, 18), Initialized, [])] + [Declared(11, c3, Pos(72, 27), Initialized, [])] + [Referenced(12, i, Pos(72, 36), false, false, [])] + [Referenced(12, i, Pos(72, 43), false, false, [2])], fs) == fs + [Fact(11, i, [])] + [Fact(11, c3, [])];
    Event12(i, c1, c2, c3, c4, c5, c6, tr, fs + [Fact(11, i, [])] + [Fact(11, c3, [])]);
    AnalyseSnoc(tr, [] + [Declared(11, i, Pos(72, 18), Initialized, [])] + [Declared(11, c3, Pos(72, 27), Initialized, [])] + [Referenced(12, i, Pos(72, 36), false, false, [])] + [Referenced(12, i, Pos(72, 43), false, false, [2])], Declared(12, c3, Pos(72, 52), Initialized, [2]), fs);
    assert Analyse(tr, [] + [Declared(11, i, Pos(72, 18), Initialized, [])] + [Declared(11, c3, Pos(72, 27), Initialized, [])] + [Referenced(12, i, Pos(72, 36), false, false, [])] + [Referenced(12, i, Pos(72, 43), false, false, [2])] + [Declared(12, c3, Pos(72, 52), Initialized, [2])], fs) == [] + [] + [] + [] + [] + [Diag(Shadow, c3, Pos(72, 52))];
    assert Replay(tr, [] + [Declared(11, i, Pos(72, 18), Initialized, [])] + [Declared(11, c3, Pos(72, 27), Initialized, [])] + [Referenced(12, i, Pos(72, 36), false, false, [])] + [Referenced(12, i, Pos(72, 43), false, false, [2])] + [Declared(12, c3, Pos(72, 52), Initialized, [2])], fs) == fs + [Fact(11, i, [])] + [Fact(11, c3, [])] + [Fact(12, c3, [2])];
    Event13(i, c1, c2, c3, c4, c5, c6, tr, fs + [Fact(11, i, [])] + [Fact(11, c3, [])] + [Fact(12, c3, [2])]);
    AnalyseSnoc(tr, [] + [Declared(11, i, Pos(72, 18), Initialized, [])] + [Declared(11, c3, Pos(72, 27), Initialized, [])] + [Referenced(12, i, Pos(72, 36), false, false, [])] + [Referenced(12, i, Pos(72, 43), false, false, [2])] + [Declared(12, c3, Pos(72, 52), Initialized, [2])], Declared(14, i, Pos(74, 18), Initialized, []), fs);
    assert Analyse(tr, [] + [Declared(11, i, Pos(72, 18), Initialized, [])] + [Declared(11, c3, Pos(72, 27), Initialized, [])] + [Referenced(12, i, Pos(72, 36), false, false, [])] + [Referenced(12, i, Pos(72, 43), false, false, [2])] + [Declared(12, c3, Pos(72, 52), Initialized, [2])] + [Declared(14, i, Pos(74, 18), Initialized, [])], fs) == [] + [] + [] + [] + [] + [Diag(Shadow, c3, Pos(72, 52))] + [];
    assert Replay(tr, [] + [Declared(11, i, Pos(72, 18), Initialized, [])] + [Declared(11, c3, Pos(72, 27), Initialized, [])] + [Referenced(12, i, Pos(72, 36), false, false, [])] + [Referenced(12, i, Pos(72, 43), false, false, [2])] + [Declared(12, c3, Pos(72, 52), Initialized, [2])] + [Declared(14, i, Pos(74, 18), Initialized, [])], fs) == fs + [Fact(11, i, [])] + [Fact(11, c3, [])] + [Fact(12, c3, [2])] + [Fact(14, i, [])];
    Event14(i, c1, c2, c3, c4, c5, c6, tr, fs + [Fact(11, i, [])] + [Fact(11, c3, [])] + [Fact(12, c3, [2])] + [Fact(14, i, [])]);
    AnalyseSnoc(tr, [] + [Declared(11, i, Pos(72, 18), Initialized, [])] + [Declared(11, c3, Pos(72, 27), Initialized, [])] + [Referenced(12, i, Pos(72, 36), false, false, [])] + [Referenced(12, i, Pos(72, 43), false, false, [2])] + [Declared(12, c3, Pos(72, 52), Initialized, [2])] + [Declared(14, i, Pos(74, 18), Initialized, [])], Declared(14, c4, Pos(74, 27), Initialized, []), fs);
    assert Analyse(tr, [] + [Declared(11, i, Pos(72, 18), Initialized, [])] + [Declared(11, c3, Pos(72, 27), Initialized, [])] + [Referenced(12, i, Pos(72, 36), false, false, [])] + [Referenced(12, i, Pos(72, 43), false, false, [2])] + [Declared(12, c3, Pos(72, 52), Initialized, [2])] + [Declared(14, i, Pos(74, 18), Initialized, [])] + [Declared(14, c4, Pos(74, 27), Initialized, [])], fs) == [] + [] + [] + [] + [] + [Diag(Shadow, c3, Pos(72, 52))] + [] + [];
    assert Replay(tr, [] + [Declared(11, i, Pos(72, 18), Initialized, [])] + [Declared(11, c3, Pos(72, 27), Initialized, [])] + [Referenced(12, i, Pos(72, 36), false, false, [])] + [Referenced(12, i, Pos(72, 43), false, false, [2])] + [Declared(12, c3, Pos(72, 52), Initialized, [2])] + [Declared(14, i, Pos(74, 18), Initialized, [])] + [Declared(14, c4, Pos(74, 27), Initialized, [])], fs) == fs + [Fact(11, i, [])] + [Fact(11, c3, [])] + [Fact(12, c3, [2])] + [Fact(14, i, [])] + [Fact(14, c4, [])];
    AssignedSnoc(fs, Fact(11, i, []), 14, i, []);
    AssignedSnoc(fs + [Fact(11, i, [])], Fact(11, c3, []), 14, i, []);
    AssignedSnoc(fs + [Fact(11, i, [])] + [Fact(11, c3, [])], Fact(12, c3, [2]), 14, i, []);
    AssignedSnoc(fs + [Fact(11, i, [])] + [Fact(11, c3, [])] + [Fact(12, c3, [2])], Fact(14, i, []), 14, i, []);
    AssignedSnoc(fs + [Fact(11, i, [])] + [Fact(11, c3, [])] + [Fact(12, c3, [2])] + [Fact(14, i, [])], Fact(14, c4, []), 14, i, []);
    Event15(i, c1, c2, c3, c4, c5, c6, tr, fs + [Fact(11, i, [])] + [Fact(11, c3, [])] + [Fact(12, c3, [2])] + [Fact(14, i, [])] + [Fact(14, c4, [])]);
    AnalyseSnoc(tr, [] + [Declared(11, i, Pos(72, 18), Initialized, [])] + [Declared(11, c3, Pos(72, 27), Initialized, [])] + [Referenced(12, i, Pos(72, 36), false, false, [])] + [Referenced(12, i, Pos(72, 43), false, false, [2])] + [Declared(12, c3, Pos(72, 52), Initialized, [2])] + [Declared(14, i, Pos(74, 18), Initialized, [])] + [Declared(14, c4, Pos(74, 27), Initialized, [])], Referenced(15, i, Pos(74, 36), false, false, []), fs);
    AnalyseSplit(tr, evs, Chunk1(i, c1, c2, c3, c4, c5, c6), []);
  }

  /** The analysis of events 16 to 23, after the events before them. */
  lemma {:induction false} Analysed2(i: string, c1: string, c2: string, c3: string, c4: string, c5: string, c6: string, tr: Tree, evs: seq<Event>, fs: seq<Fact>, rs: seq<Diag>)
    requires |tr.scopes| == 23
    requires Parent(tr, 0) == None
    requires Parent(tr, 3) == Some(0)
    requires Parent(tr, 4) == Some(3)
    requires Parent(tr, 14) == Some(4)
    requires Parent(tr, 15) == Some(14)
    requires Parent(tr, 16) == Some(15)
    requires Parent(tr, 17) == Some(4)
    requires Parent(tr, 18) == Some(17)
    requires Parent(tr, 19) == Some(18)
    requires LocalsOf(tr, 0) == []
    requires LocalsOf(tr, 3) == []
    requires LocalsOf(tr, 4) == []
    requires LocalsOf(tr, 14) == [Local(i, Pos(74, 18)), Local(c4, Pos(74, 27))]
    requires LocalsOf(tr, 15) == []
    requires LocalsOf(tr, 16) == [Local(c4, Pos(75, 42))]
    requires LocalsOf(tr, 17) == [Local(i, Pos(77, 18)), Local(c5, Pos(77, 27))]
    requires LocalsOf(tr, 18) == []
    requires LocalsOf(tr, 19) == [Local(c5, Pos(79, 42))]
    requires i != c4 && i != c5
    requires Analyse(tr, evs, []) == rs
    requires Replay(tr, evs, []) == fs
    requires Assigned(fs, 14, i, [3])
    requires !Assigned(fs, 17, i, [])
    ensures Analyse(tr, evs + Chunk2(i, c1, c2, c3, c4, c5, c6), []) == rs + ([] + [Diag(Shadow, c4, Pos(75, 42))] + [] + [] + [] + [] + [] + [Diag(Shadow, c5, Pos(79, 42))] + [])
    ensures Replay(tr, evs + Chunk2(i, c1, c2, c3, c4, c5, c6), []) == fs + [Fact(16, c4, [3])] + [Fact(17, i, [])] + [Fact(17, c5, [])] + [Fact(19, c5, [4])]
  {
    assert Analyse(tr, [], fs) == [] && Replay(tr, [], fs) == fs;
    Event16(i, c1, c2, c3, c4, c5, c6, tr, fs);
    AnalyseSnoc(tr, [], Declared(16, c4, Pos(75, 42), Initialized, [3]), fs);
    assert Analyse(tr, [] + [Declared(16, c4, Pos(75, 42), Initialized, [3])], fs) == [] + [Diag(Shadow, c4, Pos(75, 42))];
    assert Replay(tr, [] + [Declared(16, c4, Pos(75, 42), Initialized, [3])], fs) == fs + [Fact(16, c4, [3])];
    Event17(i, c1, c2, c3, c4, c5, c6, tr, fs + [Fact(16, c4, [3])]);
    AnalyseSnoc(tr, [] + [Declared(16, c4, Pos(75, 42), Initialized, [3])], OutAssigned(16, [], [3]), fs);
    assert Analyse(tr, [] + [Declared(16, c4, Pos(75, 42), Initialized, [3])] + [OutAssigned(16, [], [3])], fs) == [] + [Diag(Shadow, c4, Pos(75, 42))] + [];
    assert Replay(tr, [] + [Declared(16, c4, Pos(75, 42), Initialized, [3])] + [OutAssigned(16, [], [3])], fs) == fs + [Fact(16, c4, [3])];
    AssignedSnoc(fs, Fact(16, c4, [3]), 14, i, [3]);
    Event18(i, c1, c2, c3, c4, c5, c6, tr, fs + [Fact(16, c4, [3])]);
    AnalyseSnoc(tr, [] + [Declared(16, c4, Pos(75, 42), Initialized, [3])] + [OutAssigned(16, [], [3])], Referenced(15, i, Pos(74, 43), false, false, [3]), fs);
    assert Analyse(tr, [] + [Declared(16, c4, Pos(75, 42), Initialized, [3])] + [OutAssigned(16, [], [3])] + [Referenced(15, i, Pos(74, 43), false, false, [3])], fs) == [] + [Diag(Shadow, c4, Pos(75, 42))] + [] + [];
    assert Replay(tr, [] + [Declared(16, c4, Pos(75, 42), Initialized, [3])] + [OutAssigned(16, [], [3])] + [Referenced(15, i, Pos(74, 43), false, false, [3])], fs) == fs + [Fact(16, c4, [3])];
    Event19(i, c1, c2, c3, c4, c5, c6, tr, fs + [Fact(16, c4, [3])]);
    AnalyseSnoc(tr, [] + [Declared(16, c4, Pos(75, 42), Initialized, [3])] + [OutAssigned(16, [], [3])] + [Referenced(15, i, Pos(74, 43), false, false, [3])], Declared(17, i, Pos(77, 18), Initialized, []), fs);
    assert Analyse(tr, [] + [Declared(16, c4, Pos(75, 42), Initialized, [3])] + [OutAssigned(16, [], [3])] + [Referenced(15, i, Pos(74, 43), false, false, [3])] + [Declared(17, i, Pos(77, 18), Initialized, [])], fs) == [] + [Diag(Shadow, c4, Pos(75, 42))] + [] + [] + [];
    assert Replay(tr, [] + [Declared(16, c4, Pos(75, 42), Initialized, [3])] + [OutAssigned(16, [], [3])] + [Referenced(15, i, Pos(74, 43), false, false, [3])] + [Declared(17, i, Pos(77, 18), Initialized, [])], fs) == fs + [Fact(16, c4, [3])] + [Fact(17, i, [])];
    Event20(i, c1, c2, c3, c4, c5, c6, tr, fs + [Fact(16, c4, [3])] + [Fact(17, i, [])]);
    AnalyseSnoc(tr, [] + [Declared(16, c4, Pos(75, 42), Initialized, [3])] + [OutAssigned(16, [], [3])] + [Referenced(15, i, Pos(74, 43), false, false, [3])] + [Declared(17, i, Pos(77, 18), Initialized, [])], Declared(17, c5, Pos(77, 27), Initialized, []), fs);
    assert Analyse(tr, [] + [Declared(16, c4, Pos(75, 42), Initialized, [3])] + [OutAssigned(16, [], [3])] + [Referenced(15, i, Pos(74, 43), false, false, [3])] + [Declared(17, i, Pos(77, 18), Initialized, [])] + [Declared(17, c5, Pos(77, 27), Initialized, [])], fs) == [] + [Diag(Shadow, c4, Pos(75, 42))] + [] + [] + [] + [];
    assert Replay(tr, [] + [Declared(16, c4, Pos(75, 42), Initialized, [3])] + [OutAssigned(16, [], [3])] + [Referenced(15, i, Pos(74, 43), false, false, [3])] + [Declared(17, i, Pos(77, 18), Initialized, [])] + [Declared(17, c5, Pos(77, 27), Initialized, [])], fs) == fs + [Fact(16, c4, [3])] + [Fact(17, i, [])] + [Fact(17, c5, [])];
    AssignedSnoc(fs, Fact(16, c4, [3]), 17, i, []);
    AssignedSnoc(fs + [Fact(16, c4, [3])], Fact(17, i, []), 17, i, []);
    AssignedSnoc(fs + [Fact(16, c4, [3])] + [Fact(17, i, [])], Fact(17, c5, []), 17, i, []);
    Event21(i, c1, c2, c3, c4, c5, c6, tr, fs + [Fact(16, c4, [3])] + [Fact(17, i, [])] + [Fact(17, c5, [])]);
    AnalyseSnoc(tr, [] + [Declared(16, c4, Pos(75, 42), Initialized, [3])] + [OutAssigned(16, [], [3])] + [Referenced(15, i, Pos(74, 43), false, false, [3])] + [Declared(17, i, Pos(77, 18), Initialized, [])] + [Declared(17, c5, Pos(77, 27), Initialized, [])], Referenced(18, i, Pos(77, 36), false, false, []), fs);
    assert Analyse(tr, [] + [Declared(16, c4, Pos(75, 42), Initialized, [3])] + [OutAssigned(16, [], [3])] + [Referenced(15, i, Pos(74, 43), false, false, [3])] + [Declared(17, i, Pos(77, 18), Initialized, [])] + [Declared(17, c5, Pos(77, 27), Initialized, [])] + [Referenced(18, i, Pos(77, 36), false, false, [])], fs) == [] + [Diag(Shadow, c4, Pos(75, 42))] + [] + [] + [] + [] + [];
    assert Replay(tr, [] + [Declared(16, c4, Pos(75, 42), Initialized, [3])] + [OutAssigned(16, [], [3])] + [Referenced(15, i, Pos(74, 43), false, false, [3])] + [Declared(17, i, Pos(77, 18), Initialized, [])] + [Declared(17, c5, Pos(77, 27), Initialized, [])] + [Referenced(18, i, Pos(77, 36), false, false, [])], fs) == fs + [Fact(16, c4, [3])] + [Fact(17, i, [])] + [Fact(17, c5, [])];
    Event22(i, c1, c2, c3, c4, c5, c6, tr, fs + [Fact(16, c4, [3])] + [Fact(17, i, [])] + [Fact(17, c5, [])]);
    AnalyseSnoc(tr, [] + [Declared(16, c4, Pos(75, 42), Initialized, [3])] + [OutAssigned(16, [], [3])] + [Referenced(15, i, Pos(74, 43), false, false, [3])] + [Declared(17, i, Pos(77, 18), Initialized, [])] + [Declared(17, c5, Pos(77, 27), Initialized, [])] + [Referenced(18, i, Pos(77, 36), false, false, [])], Declared(19, c5, Pos(79, 42), Initialized, [4]), fs);
    assert Analyse(tr, [] + [Declared(16, c4, Pos(75, 42), Initialized, [3])] + [OutAssigned(16, [], [3])] + [Referenced(15, i, Pos(74, 43), false, false, [3])] + [Declared(17, i, Pos(77, 18), Initialized, [])] + [Declared(17, c5, Pos(77, 27), Initialized, [])] + [Referenced(18, i, Pos(77, 36), false, false, [])] + [Declared(19, c5, Pos(79, 42), Initialized, [4])], fs) == [] + [Diag(Shadow, c4, Pos(75, 42))] + [] + [] + [] + [] + [] + [Diag(Shadow, c5, Pos(79, 42))];
    assert Replay(tr, [] + [Declared(16, c4, Pos(75, 42), Initialized, [3])] + [OutAssigned(16, [], [3])] + [Referenced(15, i, Pos(74, 43), false, false, [3])] + [Declared(17, i, Pos(77, 18), Initialized, [])] + [Declared(17, c5, Pos(77, 27), Initialized, [])] + [Referenced(18, i, Pos(77, 36), false, false, [])] + [Declared(19, c5, Pos(79, 42), Initialized, [4])], fs) == fs + [Fact(16, c4, [3])] + [Fact(17, i, [])] + [Fact(17, c5, [])] + [Fact(19, c5, [4])];
    Event23(i, c1, c2, c3, c4, c5, c6, tr, fs + [Fact(16, c4, [3])] + [Fact(17, i, [])] + [Fact(17, c5, [])] + [Fact(19, c5, [4])]);
    AnalyseSnoc(tr, [] + [Declared(16, c4, Pos(75, 42), Initialized, [3])] + [OutAssigned(16, [], [3])] + [Referenced(15, i, Pos(74, 43), false, false, [3])] + [Declared(17, i, Pos(77, 18), Initialized, [])] + [Declared(17, c5, Pos(77, 27), Initialized, [])] + [Referenced(18, i, Pos(77, 36), false, false, [])] + [Declared(19, c5, Pos(79, 42), Initialized, [4])], OutAssigned(19, [], [4]), fs);
    AnalyseSplit(tr, evs, Chunk2(i, c1, c2, c3, c4, c5, c6), []);
  }

  /** The analysis of events 24 to 31, after the events before them. */
  lemma {:induction false} Analysed3(i: string, c1: string, c2: string, c3: string, c4: string, c5: string, c6: string, tr: Tree, evs: seq<Event>, fs: seq<Fact>, rs: seq<Diag>)
    requires |tr.scopes| == 23
    requires Parent(tr, 0) == None
    requires Parent(tr, 3) == Some(0)
    requires Parent(tr, 4) == Some(3)
    requires Parent(tr, 17) == Some(4)
    requires Parent(tr, 18) == Some(17)
    requires Parent(tr, 20) == Some(4)
    requires Parent(tr, 21) == Some(20)
    requires Parent(tr, 22) == Some(21)
    requires LocalsOf(tr, 0) == []
    requires LocalsOf(tr, 3) == []
    requires LocalsOf(tr, 4) == []
    requires LocalsOf(tr, 17) == [Local(i, Pos(77, 18)), Local(c5, Pos(77, 27))]
    requires LocalsOf(tr, 18) == []
    requires LocalsOf(tr, 20) == [Local(i, Pos(82, 18)), Local(c6, Pos(82, 27))]
    requires LocalsOf(tr, 21) == []
    requires LocalsOf(tr, 22) == [Local(c6, Pos(84, 17))]
    requires i != c5 && i != c6
    requires Analyse(tr, evs, []) == rs
    requires Replay(tr, evs, []) == fs
    requires Assigned(fs, 17, i, [4])
    requires !Assigned(fs, 20, i, [])
    requires !Assigned(fs, 22, c6, [5])
    requires !Assigned(fs, 20, i, [5])
    ensures Analyse(tr, evs + Chunk3(i, c1, c2, c3, c4, c5, c6), []) == rs + ([] + [] + [] + [] + [] + [Diag(Shadow, c6, Pos(84, 17))] + [] + [] + [])
    ensures Replay(tr, evs + Chunk3(i, c1, c2, c3, c4, c5, c6), []) == fs + [Fact(20, i, [])] + [Fact(20, c6, [])] + [Fact(22, c6, [5])]
  {
    assert Analyse(tr, [], fs) == [] && Replay(tr, [], fs) == fs;
    Event24(i, c1, c2, c3, c4, c5, c6, tr, fs);
    AnalyseSnoc(tr, [], Referenced(18, i, Pos(77, 43), false, false, [4]), fs);
    assert Analyse(tr, [] + [Referenced(18, i, Pos(77, 43), false, false, [4])], fs) == [] + [];
    assert Replay(tr, [] + [Referenced(18, i, Pos(77, 43), false, false, [4])], fs) == fs;
    Event25(i, c1, c2, c3, c4, c5, c6, tr, fs);
    AnalyseSnoc(tr, [] + [Referenced(18, i, Pos(77, 43), false, false, [4])], Declared(20, i, Pos(82, 18), Initialized, []), fs);
    assert Analyse(tr, [] + [Referenced(18, i, Pos(77, 43), false, false, [4])] + [Declared(20, i, Pos(82, 18), Initialized, [])], fs) == [] + [] + [];
    assert Replay(tr, [] + [Referenced(18, i, Pos(77, 43), false, false, [4])] + [Declared(20, i, Pos(82, 18), Initialized, [])], fs) == fs + [Fact(20, i, [])];
    Event26(i, c1, c2, c3, c4, c5, c6, tr, fs + [Fact(20, i, [])]);
    AnalyseSnoc(tr, [] + [Referenced(18, i, Pos(77, 43), false, false, [4])] + [Declared(20, i, Pos(82, 18), Initialized, [])], Declared(20, c6, Pos(82, 27), Initialized, []), fs);
    assert Analyse(tr, [] + [Referenced(18, i, Pos(77, 43), false, false, [4])] + [Declared(20, i, Pos(82, 18), Initialized, [])] + [Declared(20, c6, Pos(82, 27), Initialized, [])], fs) == [] + [] + [] + [];
    assert Replay(tr, [] + [Referenced(18, i, Pos(77, 43), false, false, [4])] + [Declared(20, i, Pos(82, 18), Initialized, [])] + [Declared(20, c6, Pos(82, 27), Initialized, [])], fs) == fs + [Fact(20, i, [])] + [Fact(20, c6, [])];
    AssignedSnoc(fs, Fact(20, i, []), 20, i, []);
    AssignedSnoc(fs + [Fact(20, i, [])], Fact(20, c6, []), 20, i, []);
    Event27(i, c1, c2, c3, c4, c5, c6, tr, fs + [Fact(20, i, [])] + [Fact(20, c6, [])]);
    AnalyseSnoc(tr, [] + [Referenced(18, i, Pos(77, 43), false, false, [4])] + [Declared(20, i, Pos(82, 18), Initialized, [])] + [Declared(20, c6, Pos(82, 27), Initialized, [])], Referenced(21, i, Pos(82, 36), false, false, []), fs);
    assert Analyse(tr, [] + [Referenced(18, i, Pos(77, 43), false, false, [4])] + [Declared(20, i, Pos(82, 18), Initialized, [])] + [Declared(20, c6, Pos(82, 27), Initialized, [])] + [Referenced(21, i, Pos(82, 36), false, false, [])], fs) == [] + [] + [] + [] + [];
    assert Replay(tr, [] + [Referenced(18, i, Pos(77, 43), false, false, [4])] + [Declared(20, i, Pos(82, 18), Initialized, [])] + [Declared(20, c6, Pos(82, 27), Initialized, [])] + [Referenced(21, i, Pos(82, 36), false, false, [])], fs) == fs + [Fact(20, i, [])] + [Fact(20, c6, [])];
    Event28(i, c1, c2, c3, c4, c5, c6, tr, fs + [Fact(20, i, [])] + [Fact(20, c6, [])]);
    AnalyseSnoc(tr, [] + [Referenced(18, i, Pos(77, 43), false, false, [4])] + [Declared(20, i, Pos(82, 18), Initialized, [])] + [Declared(20, c6, Pos(82, 27), Initialized, [])] + [Referenced(21, i, Pos(82, 36), false, false, [])], Declared(22, c6, Pos(84, 17), Initialized, [5]), fs);
    assert Analyse(tr, [] + [Referenced(18, i, Pos(77, 43), false, false, [4])] + [Declared(20, i, Pos(82, 18), Initialized, [])] + [Declared(20, c6, Pos(82, 27), Initialized, [])] + [Referenced(21, i, Pos(82, 36), false, false, [])] + [Declared(22, c6, Pos(84, 17), Initialized, [5])], fs) == [] + [] + [] + [] + [] + [Diag(Shadow, c6, Pos(84, 17))];
    assert Replay(tr, [] + [Referenced(18, i, Pos(77, 43), false, false, [4])] + [Declared(20, i, Pos(82, 18), Initialized, [])] + [Declared(20, c6, Pos(82, 27), Initialized, [])] + [Referenced(21, i, Pos(82, 36), false, false, [])] + [Declared(22, c6, Pos(84, 17), Initialized, [5])], fs) == fs + [Fact(20, i, [])] + [Fact(20, c6, [])] + [Fact(22, c6, [5])];
    AssignedSnoc(fs, Fact(20, i, []), 22, c6, [5]);
    AssignedSnoc(fs + [Fact(20, i, [])], Fact(20, c6, []), 22, c6, [5]);
    AssignedSnoc(fs + [Fact(20, i, [])] + [Fact(20, c6, [])], Fact(22, c6, [5]), 22, c6, [5]);
    Event29(i, c1, c2, c3, c4, c5, c6, tr, fs + [Fact(20, i, [])] + [Fact(20, c6, [])] + [Fact(22, c6, [5])]);
    AnalyseSnoc(tr, [] + [Referenced(18, i, Pos(77, 43), false, false, [4])] + [Declared(20, i, Pos(82, 18), Initialized, [])] + [Declared(20, c6, Pos(82, 27), Initialized, [])] + [Referenced(21, i, Pos(82, 36), false, false, [])] + [Declared(22, c6, Pos(84, 17), Initialized, [5])], Referenced(22, c6, Pos(85, 38), false, false, [5]), fs);
    assert Analyse(tr, [] + [Referenced(18, i, Pos(77, 43), false, false, [4])] + [Declared(20, i, Pos(82, 18), Initialized, [])] + [Declared(20, c6, Pos(82, 27), Initialized, [])] + [Referenced(21, i, Pos(82, 36), false, false, [])] + [Declared(22, c6, Pos(84, 17), Initialized, [5])] + [Referenced(22, c6, Pos(85, 38), false, false, [5])], fs) == [] + [] + [] + [] + [] + [Diag(Shadow, c6, Pos(84, 17))] + [];
    assert Replay(tr, [] + [Referenced(18, i, Pos(77, 43), false, false, [4])] + [Declared(20, i, Pos(82, 18), Initialized, [])] + [Declared(20, c6, Pos(82, 27), Initialized, [])] + [Referenced(21, i, Pos(82, 36), false, false, [])] + [Declared(22, c6, Pos(84, 17), Initialized, [5])] + [Referenced(22, c6, Pos(85, 38), false, false, [5])], fs) == fs + [Fact(20, i, [])] + [Fact(20, c6, [])] + [Fact(22, c6, [5])];
    Event30(i, c1, c2, c3, c4, c5, c6, tr, fs + [Fact(20, i, [])] + [Fact(20, c6, [])] + [Fact(22, c6, [5])]);
    AnalyseSnoc(tr, [] + [Referenced(18, i, Pos(77, 43), false, false, [4])] + [Declared(20, i, Pos(82, 18), Initialized, [])] + [Declared(20, c6, Pos(82, 27), Initialized, [])] + [Referenced(21, i, Pos(82, 36), false, false, [])] + [Declared(22, c6, Pos(84, 17), Initialized, [5])] + [Referenced(22, c6, Pos(85, 38), false, false, [5])], OutAssigned(22, [], [5]), fs);
    assert Analyse(tr, [] + [Referenced(18, i, Pos(77, 43), false, false, [4])] + [Declared(20, i, Pos(82, 18), Initialized, [])] + [Declared(20, c6, Pos(82, 27), Initialized, [])] + [Referenced(21, i, Pos(82, 36), false, false, [])] + [Declared(22, c6, Pos(84, 17), Initialized, [5])] + [Referenced(22, c6, Pos(85, 38), false, false, [5])] + [OutAssigned(22, [], [5])], fs) == [] + [] + [] + [] + [] + [Diag(Shadow, c6, Pos(84, 17))] + [] + [];
    assert Replay(tr, [] + [Referenced(18, i, Pos(77, 43), false, false, [4])] + [Declared(20, i, Pos(82, 18), Initialized, [])] + [Declared(20, c6, Pos(82, 27), Initialized, [])] + [Referenced(21, i, Pos(82, 36), false, false, [])] + [Declared(22, c6, Pos(84, 17), Initialized, [5])] + [Referenced(22, c6, Pos(85, 38), false, false, [5])] + [OutAssigned(22, [], [5])], fs) == fs + [Fact(20, i, [])] + [Fact(20, c6, [])] + [Fact(22, c6, [5])];
    AssignedSnoc(fs, Fact(20, i, []), 20, i, [5]);
    AssignedSnoc(fs + [Fact(20, i, [])], Fact(20, c6, []), 20, i, [5]);
    AssignedSnoc(fs + [Fact(20, i, [])] + [Fact(20, c6, [])], Fact(22, c6, [5]), 20, i, [5]);
    Event31(i, c1, c2, c3, c4, c5, c6, tr, fs + [Fact(20, i, [])] + [Fact(20, c6, [])] + [Fact(22, c6, [5])]);
    AnalyseSnoc(tr, [] + [Referenced(18, i, Pos(77, 43), false, false, [4])] + [Declared(20, i, Pos(82, 18), Initialized, [])] + [Declared(20, c6, Pos(82, 27), Initialized, [])] + [Referenced(21, i, Pos(82, 36), false, false, [])] + [Declared(22, c6, Pos(84, 17), Initialized, [5])] + [Referenced(22, c6, Pos(85, 38), false, false, [5])] + [OutAssigned(22, [], [5])], Referenced(21, i, Pos(82, 43), false, false, [5]), fs);
    AnalyseSplit(tr, evs, Chunk3(i, c1, c2, c3, c4, c5, c6), []);
  }

  lemma {:induction false} Glue0(i: string, c1: string, c2: string, c3: string, c4: string, c5: string, c6: string, rs: seq<Diag>)
    requires rs == []
    ensures rs + ([] + [] + [] + [Diag(Duplicate, c1, Pos(68, 42))] + [] + [] + [] + [] + [Diag(Shadow, c2, Pos(70, 45))]) == [Diag(Duplicate, c1, Pos(68, 42)), Diag(Shadow, c2, Pos(70, 45))]
  {
  }

  lemma {:induction false} Glue1(i: string, c1: string, c2: string, c3: string, c4: string, c5: string, c6: string, rs: seq<Diag>)
    requires rs == [Diag(Duplicate, c1, Pos(68, 42)), Diag(Shadow, c2, Pos(70, 45))]
    ensures rs + ([] + [] + [] + [] + [] + [Diag(Shadow, c3, Pos(72, 52))] + [] + [] + []) == [Diag(Duplicate, c1, Pos(68, 42)), Diag(Shadow, c2, Pos(70, 45)), Diag(Shadow, c3, Pos(72, 52))]
  {
  }

  lemma {:induction false} Glue2(i: string, c1: string, c2: string, c3: string, c4: string, c5: string, c6: string, rs: seq<Diag>)
    requires rs == [Diag(Duplicate, c1, Pos(68, 42)), Diag(Shadow, c2, Pos(70, 45)), Diag(Shadow, c3, Pos(72, 52))]
    ensures rs + ([] + [Diag(Shadow, c4, Pos(75, 42))] + [] + [] + [] + [] + [] + [Diag(Shadow, c5, Pos(79, 42))] + []) == [Diag(Duplicate, c1, Pos(68, 42)), Diag(Shadow, c2, Pos(70, 45)), Diag(Shadow, c3, Pos(72, 52)), Diag(Shadow, c4, Pos(75, 42)), Diag(Shadow, c5, Pos(79, 42))]
  {
  }

  lemma {:induction false} Glue3(i: string, c1: string, c2: string, c3: string, c4: string, c5: string, c6: string, rs: seq<Diag>)
    requires rs == [Diag(Duplicate, c1, Pos(68, 42)), Diag(Shadow, c2, Pos(70, 45)), Diag(Shadow, c3, Pos(72, 52)), Diag(Shadow, c4, Pos(75, 42)), Diag(Shadow, c5, Pos(79, 42))]
    ensures rs + ([] + [] + [] + [] + [] + [Diag(Shadow, c6, Pos(84, 17))] + [] + [] + []) == [Diag(Duplicate, c1, Pos(68, 42)), Diag(Shadow, c2, Pos(70, 45)), Diag(Shadow, c3, Pos(72, 52)), Diag(Shadow, c4, Pos(75, 42)), Diag(Shadow, c5, Pos(79, 42)), Diag(Shadow, c6, Pos(84, 17))]
  {
  }

  /** The analysis of events 0 to 31, after the events before them. */
  lemma {:induction false} Stage0(i: string, c1: string, c2: string, c3: string, c4: string, c5: string, c6: string, tr: Tree, evs: seq<Event>)
    requires ScopesAre(tr, Layout())
    requires LocalsFit(i, c1, c2, c3, c4, c5, c6, tr)
    requires i != c1 && i != c2 && i != c3 && i != c4 && i != c5 && i != c6
    requires Analyse(tr, evs, []) == []
    requires Replay(tr, evs, []) == []
    ensures Analyse(tr, evs + Chunk0(i, c1, c2, c3, c4, c5, c6) + Chunk1(i, c1, c2, c3, c4, c5, c6) + Chunk2(i, c1, c2, c3, c4, c5, c6) + Chunk3(i, c1, c2, c3, c4, c5, c6), []) == [Diag(Duplicate, c1, Pos(68, 42)), Diag(Shadow, c2, Pos(70, 45)), Diag(Shadow, c3, Pos(72, 52)), Diag(Shadow, c4, Pos(75, 42)), Diag(Shadow, c5, Pos(79, 42)), Diag(Shadow, c6, Pos(84, 17))]
    ensures Replay(tr, evs + Chunk0(i, c1, c2, c3, c4, c5, c6) + Chunk1(i, c1, c2, c3, c4, c5, c6) + Chunk2(i, c1, c2, c3, c4, c5, c6) + Chunk3(i, c1, c2, c3, c4, c5, c6), []) == Known3(i, c1, c2, c3, c4, c5, c6)
  {
    assert !Assigned([], 5, i, []);
    assert !Assigned([], 8, i, []);
    Scope0(i, c1, c2, c3, c4, c5, c6, tr);
    Scope3(i, c1, c2, c3, c4, c5, c6, tr);
    Scope4(i, c1, c2, c3, c4, c5, c6, tr);
    Scope5(i, c1, c2, c3, c4, c5, c6, tr);
    Scope6(i, c1, c2, c3, c4, c5, c6, tr);
    Scope8(i, c1, c2, c3, c4, c5, c6, tr);
    Scope9(i, c1, c2, c3, c4, c5, c6, tr);
    Analysed0(i, c1, c2, c3, c4, c5, c6, tr, evs, [], []);
    Glue0(i, c1, c2, c3, c4, c5, c6, []);
    Read0(i, c1, c2, c3, c4, c5, c6);
    Read1(i, c1, c2, c3, c4, c5, c6);
    Read2(i, c1, c2, c3, c4, c5, c6);
    Scope11(i, c1, c2, c3, c4, c5, c6, tr);
    Scope12(i, c1, c2, c3, c4, c5, c6, tr);
    Scope14(i, c1, c2, c3, c4, c5, c6, tr);
    Scope15(i, c1, c2, c3, c4, c5, c6, tr);
    Analysed1(i, c1, c2, c3, c4, c5, c6, tr, evs + Chunk0(i, c1, c2, c3, c4, c5, c6), Known0(i, c1, c2, c3, c4, c5, c6), [Diag(Duplicate, c1, Pos(68, 42)), Diag(Shadow, c2, Pos(70, 45))]);
    Glue1(i, c1, c2, c3, c4, c5, c6, [Diag(Duplicate, c1, Pos(68, 42)), Diag(Shadow, c2, Pos(70, 45))]);
    Read3(i, c1, c2, c3, c4, c5, c6);
    Read4(i, c1, c2, c3, c4, c5, c6);
    Scope16(i, c1, c2, c3, c4, c5, c6, tr);
    Scope17(i, c1, c2, c3, c4, c5, c6, tr);
    Scope18(i, c1, c2, c3, c4, c5, c6, tr);
    Scope19(i, c1, c2, c3, c4, c5, c6, tr);
    Analysed2(i, c1, c2, c3, c4, c5, c6, tr, evs + Chunk0(i, c1, c2, c3, c4, c5, c6) + Chunk1(i, c1, c2, c3, c4, c5, c6), Known1(i, c1, c2, c3, c4, c5, c6), [Diag(Duplicate, c1, Pos(68, 42)), Diag(Shadow, c2, Pos(70, 45)), Diag(Shadow, c3, Pos(72, 52))]);
    Glue2(i, c1, c2, c3, c4, c5, c6, [Diag(Duplicate, c1, Pos(68, 42)), Diag(Shadow, c2, Pos(70, 45)), Diag(Shadow, c3, Pos(72, 52))]);
    Read5(i, c1, c2, c3, c4, c5, c6);
    Read6(i, c1, c2, c3, c4, c5, c6);
    Read7(i, c1, c2, c3, c4, c5, c6);
    Read8(i, c1, c2, c3, c4, c5, c6);
    Scope20(i, c1, c2, c3, c4, c5, c6, tr);
    Scope21(i, c1, c2, c3, c4, c5, c6, tr);
    Scope22(i, c1, c2, c3, c4, c5, c6, tr);
    Analysed3(i, c1, c2, c3, c4, c5, c6, tr, evs + Chunk0(i, c1, c2, c3, c4, c5, c6) + Chunk1(i, c1, c2, c3, c4, c5, c6) + Chunk2(i, c1, c2, c3, c4, c5, c6), Known2(i, c1, c2, c3, c4, c5, c6), [Diag(Duplicate, c1, Pos(68, 42)), Diag(Shadow, c2, Pos(70, 45)), Diag(Shadow, c3, Pos(72, 52)), Diag(Shadow, c4, Pos(75, 42)), Diag(Shadow, c5, Pos(79, 42))]);
    Glue3(i, c1, c2, c3, c4, c5, c6, [Diag(Duplicate, c1, Pos(68, 42)), Diag(Shadow, c2, Pos(70, 45)), Diag(Shadow, c3, Pos(72, 52)), Diag(Shadow, c4, Pos(75, 42)), Diag(Shadow, c5, Pos(79, 42))]);
  }

  /** The analysis of a tree with the test's scopes and events. */
  lemma {:induction false} Result(i: string, c1: string, c2: string, c3: string, c4: string, c5: string, c6: string, tr: Tree)
    requires ScopesAre(tr, Layout()) && LocalsFit(i, c1, c2, c3, c4, c5, c6, tr) && tr.events == Trace(i, c1, c2, c3, c4, c5, c6)
    requires i != c1 && i != c2 && i != c3 && i != c4 && i != c5 && i != c6
    ensures Analyse(tr, tr.events, []) == [Diag(Duplicate, c1, Pos(68, 42)), Diag(Shadow, c2, Pos(70, 45)), Diag(Shadow, c3, Pos(72, 52)), Diag(Shadow, c4, Pos(75, 42)), Diag(Shadow, c5, Pos(79, 42)), Diag(Shadow, c6, Pos(84, 17))]
  {
    assert Analyse(tr, [], []) == [] && Replay(tr, [], []) == [];
    Stage0(i, c1, c2, c3, c4, c5, c6, tr, []);
  }

  /** The diagnostics the test expects, in the order the analysis reports them. */
  lemma {:induction false} Outcome(i: string, c1: string, c2: string, c3: string, c4: string, c5: string, c6: string)
    requires i != c1 && i != c2 && i != c3 && i != c4 && i != c5 && i != c6
    ensures Check(Program(i, c1, c2, c3, c4, c5, c6)) == [Diag(Duplicate, c1, Pos(68, 42)), Diag(Shadow, c2, Pos(70, 45)), Diag(Shadow, c3, Pos(72, 52)), Diag(Shadow, c4, Pos(75, 42)), Diag(Shadow, c5, Pos(79, 42)), Diag(Shadow, c6, Pos(84, 17))]
  {
    Walked(i, c1, c2, c3, c4, c5, c6);
    LocalsAll(i, c1, c2, c3, c4, c5, c6, Build(Program(i, c1, c2, c3, c4, c5, c6)));
    Result(i, c1, c2, c3, c4, c5, c6, Build(Program(i, c1, c2, c3, c4, c5, c6)));
  }
}

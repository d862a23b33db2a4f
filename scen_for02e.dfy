/**
 * The statements on lines 108 to 126 of the program of the test For_02
 * (DeclarationExpressionsTests.cs, lines 428 to 658).
 * They share no name with the test's other statements outside their own `for`
 * statements: every part declares `i`, but only in a `for` initializer, a scope no
 * other part can see. So their diagnostics are the test's diagnostics on those lines.
 *
 * Its program, with its local names left as parameters, is walked into a scope tree and
 * analysed; Outcome states the exact list of diagnostics Check reports, for any names that
 * differ where the outcome depends on it.
 */
module ScenFor02e {
  import opened Syntax
  import opened Scopes
  import opened Binding
  import opened Reporting
  import opened Frames
  import opened Units
  import opened Traces

  /** The statements of the test's method, its names left as parameters. */
  function Body(i: string, e1: string, e2: string, e3: string, e4: string, f1: string): seq<Stmt> {
    [For([Declare(i, Pos(108, 18), Initialized)], [Use(i, Pos(108, 25), false)], [Use(i, Pos(108, 32), false)] + ([Declare(e1, Pos(108, 42), Initialized)] + ([Declare(e1, Pos(108, 57), Initialized)])), Exprs([]))] + ([For([Declare(i, Pos(110, 18), Initialized)], [Use(i, Pos(110, 25), false)], [Use(i, Pos(110, 32), false)] + ([Declare(e2, Pos(110, 42), Initialized)]), Exprs([Call([Argument([Declare(e2, Pos(111, 42), Initialized)])])]))] + ([For([Declare(i, Pos(113, 18), Initialized)], [Use(i, Pos(113, 25), false)], [Use(i, Pos(113, 32), false)] + ([Declare(e3, Pos(113, 42), Initialized)]), Block([Exprs([Call([Argument([Declare(e3, Pos(115, 42), Initialized)])])])]))] + ([For([Declare(i, Pos(118, 18), Initialized)], [Use(i, Pos(118, 25), false)], [Use(i, Pos(118, 32), false)] + ([Declare(e4, Pos(118, 42), Initialized)]), Block([Exprs([Declare(e4, Pos(120, 17), Initialized)])] + ([Exprs([Call([Argument([Use(e4, Pos(121, 38), false)])])])])))] + ([For([Declare(i, Pos(125, 18), Initialized)], [Use(i, Pos(125, 25), false)], [Use(i, Pos(125, 32), false)], Exprs([Call([Argument([Declare(f1, Pos(126, 43), Initialized)] + ([Declare(f1, Pos(126, 56), Initialized)]))])]))]))))
  }

  /** The program of the test: one method holding those statements. */
  function Program(i: string, e1: string, e2: string, e3: string, e4: string, f1: string): seq<Fragment> {
    MainUnit(Body(i, e1, e2, e3, e4, f1))
  }

  /** Scopes 0 to 7, in the order the walk opens them. */
  function Layout0(): seq<Scope> {
    [Scope(Unit, None),
     Scope(InstanceInitializers, Some(0)),
     Scope(StaticInitializers, Some(0)),
     Scope(MethodBody, Some(0)),
     Scope(BlockBody, Some(3)),
     Scope(ForInit, Some(4)),
     Scope(ForLoop, Some(5)),
     Scope(EmbeddedBody, Some(6))]
  }

  /** Scopes 8 to 15, in the order the walk opens them. */
  function Layout1(): seq<Scope> {
    [Scope(ForInit, Some(4)),
     Scope(ForLoop, Some(8)),
     Scope(EmbeddedBody, Some(9)),
     Scope(ForInit, Some(4)),
     Scope(ForLoop, Some(11)),
     Scope(BlockBody, Some(12)),
     Scope(ForInit, Some(4)),
     Scope(ForLoop, Some(14))]
  }

  /** Scopes 16 to 19, in the order the walk opens them. */
  function Layout2(): seq<Scope> {
    [Scope(BlockBody, Some(15)),
     Scope(ForInit, Some(4)),
     Scope(ForLoop, Some(17)),
     Scope(EmbeddedBody, Some(18))]
  }

  /** Its scopes, in the order the walk opens them. */
  function Layout(): seq<Scope> {
    Layout0() + Layout1() + Layout2()
  }

  lemma {:induction false} LayoutJoin0()
    ensures [Scope(Unit, None), Scope(InstanceInitializers, Some(0)), Scope(StaticInitializers, Some(0)), Scope(MethodBody, Some(0)), Scope(BlockBody, Some(3))] + [Scope(ForInit, Some(4))] + [Scope(ForLoop, Some(5))] + [Scope(EmbeddedBody, Some(6))] == Layout0()
  {
  }

  lemma {:induction false} LayoutJoin1(pre: seq<Scope>)
    ensures pre + Layout1() == pre + [Scope(ForInit, Some(4))] + [Scope(ForLoop, Some(8))] + [Scope(EmbeddedBody, Some(9))] + [Scope(ForInit, Some(4))] + [Scope(ForLoop, Some(11))] + [Scope(BlockBody, Some(12))] + [Scope(ForInit, Some(4))] + [Scope(ForLoop, Some(14))]
  {
  }

  lemma {:induction false} LayoutJoin2(pre: seq<Scope>)
    ensures pre + Layout2() == pre + [Scope(BlockBody, Some(15))] + [Scope(ForInit, Some(4))] + [Scope(ForLoop, Some(17))] + [Scope(EmbeddedBody, Some(18))]
  {
  }

  /** The layout, scope by scope. */
  lemma {:induction false} LayoutFlat()
    ensures [Scope(Unit, None), Scope(InstanceInitializers, Some(0)), Scope(StaticInitializers, Some(0)), Scope(MethodBody, Some(0)), Scope(BlockBody, Some(3))] + [Scope(ForInit, Some(4))] + [Scope(ForLoop, Some(5))] + [Scope(EmbeddedBody, Some(6))] + [Scope(ForInit, Some(4))] + [Scope(ForLoop, Some(8))] + [Scope(EmbeddedBody, Some(9))] + [Scope(ForInit, Some(4))] + [Scope(ForLoop, Some(11))] + [Scope(BlockBody, Some(12))] + [Scope(ForInit, Some(4))] + [Scope(ForLoop, Some(14))] + [Scope(BlockBody, Some(15))] + [Scope(ForInit, Some(4))] + [Scope(ForLoop, Some(17))] + [Scope(EmbeddedBody, Some(18))] == Layout()
  {
    LayoutJoin0();
    LayoutJoin1(Layout0());
    LayoutJoin2(Layout0() + Layout1());
  }

  /** Events 0 to 7 of the test, in evaluation order. */
  function Chunk0(i: string, e1: string, e2: string, e3: string, e4: string, f1: string): seq<Event> {
    []
      + [Declared(5, i, Pos(108, 18), Initialized, [])]
      + [Referenced(6, i, Pos(108, 25), false, false, [])]
      + [Referenced(6, i, Pos(108, 32), false, false, [0])]
      + [Declared(6, e1, Pos(108, 42), Initialized, [0])]
      + [Declared(6, e1, Pos(108, 57), Initialized, [0])]
      + [Declared(8, i, Pos(110, 18), Initialized, [])]
      + [Referenced(9, i, Pos(110, 25), false, false, [])]
      + [Declared(10, e2, Pos(111, 42), Initialized, [1])]
  }

  /** Events 8 to 15 of the test, in evaluation order. */
  function Chunk1(i: string, e1: string, e2: string, e3: string, e4: string, f1: string): seq<Event> {
    []
      + [OutAssigned(10, [], [1])]
      + [Referenced(9, i, Pos(110, 32), false, false, [1])]
      + [Declared(9, e2, Pos(110, 42), Initialized, [1])]
      + [Declared(11, i, Pos(113, 18), Initialized, [])]
      + [Referenced(12, i, Pos(113, 25), false, false, [])]
      + [Declared(13, e3, Pos(115, 42), Initialized, [2])]
      + [OutAssigned(13, [], [2])]
      + [Referenced(12, i, Pos(113, 32), false, false, [2])]
  }

  /** Events 16 to 23 of the test, in evaluation order. */
  function Chunk2(i: string, e1: string, e2: string, e3: string, e4: string, f1: string): seq<Event> {
    []
      + [Declared(12, e3, Pos(113, 42), Initialized, [2])]
      + [Declared(14, i, Pos(118, 18), Initialized, [])]
      + [Referenced(15, i, Pos(118, 25), false, false, [])]
      + [Declared(16, e4, Pos(120, 17), Initialized, [3])]
      + [Referenced(16, e4, Pos(121, 38), false, false, [3])]
      + [OutAssigned(16, [], [3])]
      + [Referenced(15, i, Pos(118, 32), false, false, [3])]
      + [Declared(15, e4, Pos(118, 42), Initialized, [3])]
  }

  /** Events 24 to 29 of the test, in evaluation order. */
  function Chunk3(i: string, e1: string, e2: string, e3: string, e4: string, f1: string): seq<Event> {
    []
      + [Declared(17, i, Pos(125, 18), Initialized, [])]
      + [Referenced(18, i, Pos(125, 25), false, false, [])]
      + [Declared(19, f1, Pos(126, 43), Initialized, [4])]
      + [Declared(19, f1, Pos(126, 56), Initialized, [4])]
      + [OutAssigned(19, [], [4])]
      + [Referenced(18, i, Pos(125, 32), false, false, [4])]
  }

  /** The events of the test, in evaluation order. */
  function Trace(i: string, e1: string, e2: string, e3: string, e4: string, f1: string): seq<Event> {
    []
      + Chunk0(i, e1, e2, e3, e4, f1)
      + Chunk1(i, e1, e2, e3, e4, f1)
      + Chunk2(i, e1, e2, e3, e4, f1)
      + Chunk3(i, e1, e2, e3, e4, f1)
  }

  lemma {:induction false} Walk2(i: string, e1: string, e2: string, e3: string, e4: string, f1: string, tr: Tree)
    requires |tr.scopes| == 5 && tr.arms == 0
    ensures WalkStmt(For([Declare(i, Pos(108, 18), Initialized)], [Use(i, Pos(108, 25), false)], [Use(i, Pos(108, 32), false)] + ([Declare(e1, Pos(108, 42), Initialized)] + ([Declare(e1, Pos(108, 57), Initialized)])), Exprs([])), Ctx(4, [], []), tr) == Tree(tr.scopes + [Scope(ForInit, Some(4))] + [Scope(ForLoop, Some(5))] + [Scope(EmbeddedBody, Some(6))], tr.events + [Declared(5, i, Pos(108, 18), Initialized, [])] + [Referenced(6, i, Pos(108, 25), false, false, [])] + [Referenced(6, i, Pos(108, 32), false, false, [0])] + [Declared(6, e1, Pos(108, 42), Initialized, [0])] + [Declared(6, e1, Pos(108, 57), Initialized, [0])], 1)
  {
    WalkExprsOne(Declare(i, Pos(108, 18), Initialized), Ctx(5, [], []), Tree(tr.scopes + [Scope(ForInit, Some(4))] + [Scope(ForLoop, Some(5))], tr.events, 0));
    assert WalkExpr(Declare(i, Pos(108, 18), Initialized), Ctx(5, [], []), Tree(tr.scopes + [Scope(ForInit, Some(4))] + [Scope(ForLoop, Some(5))], tr.events, 0)) == Tree(tr.scopes + [Scope(ForInit, Some(4))] + [Scope(ForLoop, Some(5))], tr.events + [Declared(5, i, Pos(108, 18), Initialized, [])], 0);
    assert WalkExprs([Declare(i, Pos(108, 18), Initialized)], Ctx(5, [], []), Tree(tr.scopes + [Scope(ForInit, Some(4))] + [Scope(ForLoop, Some(5))], tr.events, 0)) == Tree(tr.scopes + [Scope(ForInit, Some(4))] + [Scope(ForLoop, Some(5))], tr.events + [Declared(5, i, Pos(108, 18), Initialized, [])], 0);
    WalkExprsOne(Use(i, Pos(108, 25), false), Ctx(6, [], []), Tree(tr.scopes + [Scope(ForInit, Some(4))] + [Scope(ForLoop, Some(5))], tr.events + [Declared(5, i, Pos(108, 18), Initialized, [])], 0));
    assert WalkExpr(Use(i, Pos(108, 25), false), Ctx(6, [], []), Tree(tr.scopes + [Scope(ForInit, Some(4))] + [Scope(ForLoop, Some(5))], tr.events + [Declared(5, i, Pos(108, 18), Initialized, [])], 0)) == Tree(tr.scopes + [Scope(ForInit, Some(4))] + [Scope(ForLoop, Some(5))], tr.events + [Declared(5, i, Pos(108, 18), Initialized, [])] + [Referenced(6, i, Pos(108, 25), false, false, [])], 0);
    assert WalkExprs([Use(i, Pos(108, 25), false)], Ctx(6, [], []), Tree(tr.scopes + [Scope(ForInit, Some(4))] + [Scope(ForLoop, Some(5))], tr.events + [Declared(5, i, Pos(108, 18), Initialized, [])], 0)) == Tree(tr.scopes + [Scope(ForInit, Some(4))] + [Scope(ForLoop, Some(5))], tr.events + [Declared(5, i, Pos(108, 18), Initialized, [])] + [Referenced(6, i, Pos(108, 25), false, false, [])], 0);
    assert [] + [0] == [0];
    assert WalkStmt(Exprs([]), Ctx(7, [0], []), Tree(tr.scopes + [Scope(ForInit, Some(4))] + [Scope(ForLoop, Some(5))] + [Scope(EmbeddedBody, Some(6))], tr.events + [Declared(5, i, Pos(108, 18), Initialized, [])] + [Referenced(6, i, Pos(108, 25), false, false, [])], 1)) == Tree(tr.scopes + [Scope(ForInit, Some(4))] + [Scope(ForLoop, Some(5))] + [Scope(EmbeddedBody, Some(6))], tr.events + [Declared(5, i, Pos(108, 18), Initialized, [])] + [Referenced(6, i, Pos(108, 25), false, false, [])], 1);
    assert WalkEmbedded(Exprs([]), Ctx(6, [0], []), Tree(tr.scopes + [Scope(ForInit, Some(4))] + [Scope(ForLoop, Some(5))], tr.events + [Declared(5, i, Pos(108, 18), Initialized, [])] + [Referenced(6, i, Pos(108, 25), false, false, [])], 1)) == Tree(tr.scopes + [Scope(ForInit, Some(4))] + [Scope(ForLoop, Some(5))] + [Scope(EmbeddedBody, Some(6))], tr.events + [Declared(5, i, Pos(108, 18), Initialized, [])] + [Referenced(6, i, Pos(108, 25), false, false, [])], 1);
    WalkExprsCons(Use(i, Pos(108, 32), false), [Declare(e1, Pos(108, 42), Initialized)] + ([Declare(e1, Pos(108, 57), Initialized)]), Ctx(6, [0], []), Tree(tr.scopes + [Scope(ForInit, Some(4))] + [Scope(ForLoop, Some(5))] + [Scope(EmbeddedBody, Some(6))], tr.events + [Declared(5, i, Pos(108, 18), Initialized, [])] + [Referenced(6, i, Pos(108, 25), false, false, [])], 1));
    assert WalkExpr(Use(i, Pos(108, 32), false), Ctx(6, [0], []), Tree(tr.scopes + [Scope(ForInit, Some(4))] + [Scope(ForLoop, Some(5))] + [Scope(EmbeddedBody, Some(6))], tr.events + [Declared(5, i, Pos(108, 18), Initialized, [])] + [Referenced(6, i, Pos(108, 25), false, false, [])], 1)) == Tree(tr.scopes + [Scope(ForInit, Some(4))] + [Scope(ForLoop, Some(5))] + [Scope(EmbeddedBody, Some(6))], tr.events + [Declared(5, i, Pos(108, 18), Initialized, [])] + [Referenced(6, i, Pos(108, 25), false, false, [])] + [Referenced(6, i, Pos(108, 32), false, false, [0])], 1);
    WalkExprsCons(Declare(e1, Pos(108, 42), Initialized), [Declare(e1, Pos(108, 57), Initialized)], Ctx(6, [0], []), Tree(tr.scopes + [Scope(ForInit, Some(4))] + [Scope(ForLoop, Some(5))] + [Scope(EmbeddedBody, Some(6))], tr.events + [Declared(5, i, Pos(108, 18), Initialized, [])] + [Referenced(6, i, Pos(108, 25), false, false, [])] + [Referenced(6, i, Pos(108, 32), false, false, [0])], 1));
    assert WalkExpr(Declare(e1, Pos(108, 42), Initialized), Ctx(6, [0], []), Tree(tr.scopes + [Scope(ForInit, Some(4))] + [Scope(ForLoop, Some(5))] + [Scope(EmbeddedBody, Some(6))], tr.events + [Declared(5, i, Pos(108, 18), Initialized, [])] + [Referenced(6, i, Pos(108, 25), false, false, [])] + [Referenced(6, i, Pos(108, 32), false, false, [0])], 1)) == Tree(tr.scopes + [Scope(ForInit, Some(4))] + [Scope(ForLoop, Some(5))] + [Scope(EmbeddedBody, Some(6))], tr.events + [Declared(5, i, Pos(108, 18), Initialized, [])] + [Referenced(6, i, Pos(108, 25), false, false, [])] + [Referenced(6, i, Pos(108, 32), false, false, [0])] + [Declared(6, e1, Pos(108, 42), Initialized, [0])], 1);
    WalkExprsOne(Declare(e1, Pos(108, 57), Initialized), Ctx(6, [0], []), Tree(tr.scopes + [Scope(ForInit, Some(4))] + [Scope(ForLoop, Some(5))] + [Scope(EmbeddedBody, Some(6))], tr.events + [Declared(5, i, Pos(108, 18), Initialized, [])] + [Referenced(6, i, Pos(108, 25), false, false, [])] + [Referenced(6, i, Pos(108, 32), false, false, [0])] + [Declared(6, e1, Pos(108, 42), Initialized, [0])], 1));
    assert WalkExpr(Declare(e1, Pos(108, 57), Initialized), Ctx(6, [0], []), Tree(tr.scopes + [Scope(ForInit, Some(4))] + [Scope(ForLoop, Some(5))] + [Scope(EmbeddedBody, Some(6))], tr.events + [Declared(5, i, Pos(108, 18), Initialized, [])] + [Referenced(6, i, Pos(108, 25), false, false, [])] + [Referenced(6, i, Pos(108, 32), false, false, [0])] + [Declared(6, e1, Pos(108, 42), Initialized, [0])], 1)) == Tree(tr.scopes + [Scope(ForInit, Some(4))] + [Scope(ForLoop, Some(5))] + [Scope(EmbeddedBody, Some(6))], tr.events + [Declared(5, i, Pos(108, 18), Initialized, [])] + [Referenced(6, i, Pos(108, 25), false, false, [])] + [Referenced(6, i, Pos(108, 32), false, false, [0])] + [Declared(6, e1, Pos(108, 42), Initialized, [0])] + [Declared(6, e1, Pos(108, 57), Initialized, [0])], 1);
    assert WalkExprs([Use(i, Pos(108, 32), false)] + ([Declare(e1, Pos(108, 42), Initialized)] + ([Declare(e1, Pos(108, 57), Initialized)])), Ctx(6, [0], []), Tree(tr.scopes + [Scope(ForInit, Some(4))] + [Scope(ForLoop, Some(5))] + [Scope(EmbeddedBody, Some(6))], tr.events + [Declared(5, i, Pos(108, 18), Initialized, [])] + [Referenced(6, i, Pos(108, 25), false, false, [])], 1)) == Tree(tr.scopes + [Scope(ForInit, Some(4))] + [Scope(ForLoop, Some(5))] + [Scope(EmbeddedBody, Some(6))], tr.events + [Declared(5, i, Pos(108, 18), Initialized, [])] + [Referenced(6, i, Pos(108, 25), false, false, [])] + [Referenced(6, i, Pos(108, 32), false, false, [0])] + [Declared(6, e1, Pos(108, 42), Initialized, [0])] + [Declared(6, e1, Pos(108, 57), Initialized, [0])], 1);
    assert WalkStmt(For([Declare(i, Pos(108, 18), Initialized)], [Use(i, Pos(108, 25), false)], [Use(i, Pos(108, 32), false)] + ([Declare(e1, Pos(108, 42), Initialized)] + ([Declare(e1, Pos(108, 57), Initialized)])), Exprs([])), Ctx(4, [], []), tr) == Tree(tr.scopes + [Scope(ForInit, Some(4))] + [Scope(ForLoop, Some(5))] + [Scope(EmbeddedBody, Some(6))], tr.events + [Declared(5, i, Pos(108, 18), Initialized, [])] + [Referenced(6, i, Pos(108, 25), false, false, [])] + [Referenced(6, i, Pos(108, 32), false, false, [0])] + [Declared(6, e1, Pos(108, 42), Initialized, [0])] + [Declared(6, e1, Pos(108, 57), Initialized, [0])], 1);
  }

  lemma {:induction false} Walk3(i: string, e1: string, e2: string, e3: string, e4: string, f1: string, tr: Tree)
    requires |tr.scopes| == 8 && tr.arms == 1
    ensures WalkStmt(For([Declare(i, Pos(110, 18), Initialized)], [Use(i, Pos(110, 25), false)], [Use(i, Pos(110, 32), false)] + ([Declare(e2, Pos(110, 42), Initialized)]), Exprs([Call([Argument([Declare(e2, Pos(111, 42), Initialized)])])])), Ctx(4, [], []), tr) == Tree(tr.scopes + [Scope(ForInit, Some(4))] + [Scope(ForLoop, Some(8))] + [Scope(EmbeddedBody, Some(9))], tr.events + [Declared(8, i, Pos(110, 18), Initialized, [])] + [Referenced(9, i, Pos(110, 25), false, false, [])] + [Declared(10, e2, Pos(111, 42), Initialized, [1])] + [OutAssigned(10, [], [1])] + [Referenced(9, i, Pos(110, 32), false, false, [1])] + [Declared(9, e2, Pos(110, 42), Initialized, [1])], 2)
  {
    WalkExprsOne(Declare(i, Pos(110, 18), Initialized), Ctx(8, [], []), Tree(tr.scopes + [Scope(ForInit, Some(4))] + [Scope(ForLoop, Some(8))], tr.events, 1));
    assert WalkExpr(Declare(i, Pos(110, 18), Initialized), Ctx(8, [], []), Tree(tr.scopes + [Scope(ForInit, Some(4))] + [Scope(ForLoop, Some(8))], tr.events, 1)) == Tree(tr.scopes + [Scope(ForInit, Some(4))] + [Scope(ForLoop, Some(8))], tr.events + [Declared(8, i, Pos(110, 18), Initialized, [])], 1);
    assert WalkExprs([Declare(i, Pos(110, 18), Initialized)], Ctx(8, [], []), Tree(tr.scopes + [Scope(ForInit, Some(4))] + [Scope(ForLoop, Some(8))], tr.events, 1)) == Tree(tr.scopes + [Scope(ForInit, Some(4))] + [Scope(ForLoop, Some(8))], tr.events + [Declared(8, i, Pos(110, 18), Initialized, [])], 1);
    WalkExprsOne(Use(i, Pos(110, 25), false), Ctx(9, [], []), Tree(tr.scopes + [Scope(ForInit, Some(4))] + [Scope(ForLoop, Some(8))], tr.events + [Declared(8, i, Pos(110, 18), Initialized, [])], 1));
    assert WalkExpr(Use(i, Pos(110, 25), false), Ctx(9, [], []), Tree(tr.scopes + [Scope(ForInit, Some(4))] + [Scope(ForLoop, Some(8))], tr.events + [Declared(8, i, Pos(110, 18), Initialized, [])], 1)) == Tree(tr.scopes + [Scope(ForInit, Some(4))] + [Scope(ForLoop, Some(8))], tr.events + [Declared(8, i, Pos(110, 18), Initialized, [])] + [Referenced(9, i, Pos(110, 25), false, false, [])], 1);
    assert WalkExprs([Use(i, Pos(110, 25), false)], Ctx(9, [], []), Tree(tr.scopes + [Scope(ForInit, Some(4))] + [Scope(ForLoop, Some(8))], tr.events + [Declared(8, i, Pos(110, 18), Initialized, [])], 1)) == Tree(tr.scopes + [Scope(ForInit, Some(4))] + [Scope(ForLoop, Some(8))], tr.events + [Declared(8, i, Pos(110, 18), Initialized, [])] + [Referenced(9, i, Pos(110, 25), false, false, [])], 1);
    assert [] + [1] == [1];
    WalkExprsOne(Call([Argument([Declare(e2, Pos(111, 42), Initialized)])]), Ctx(10, [1], []), Tree(tr.scopes + [Scope(ForInit, Some(4))] + [Scope(ForLoop, Some(8))] + [Scope(EmbeddedBody, Some(9))], tr.events + [Declared(8, i, Pos(110, 18), Initialized, [])] + [Referenced(9, i, Pos(110, 25), false, false, [])], 2));
    assert OutNames([]) == [];
    WalkArgsOne(Argument([Declare(e2, Pos(111, 42), Initialized)]), [], Ctx(10, [1], []), Tree(tr.scopes + [Scope(ForInit, Some(4))] + [Scope(ForLoop, Some(8))] + [Scope(EmbeddedBody, Some(9))], tr.events + [Declared(8, i, Pos(110, 18), Initialized, [])] + [Referenced(9, i, Pos(110, 25), false, false, [])], 2));
    WalkExprsOne(Declare(e2, Pos(111, 42), Initialized), Ctx(10, [1], []), Tree(tr.scopes + [Scope(ForInit, Some(4))] + [Scope(ForLoop, Some(8))] + [Scope(EmbeddedBody, Some(9))], tr.events + [Declared(8, i, Pos(110, 18), Initialized, [])] + [Referenced(9, i, Pos(110, 25), false, false, [])], 2));
    assert WalkExpr(Declare(e2, Pos(111, 42), Initialized), Ctx(10, [1], []), Tree(tr.scopes + [Scope(ForInit, Some(4))] + [Scope(ForLoop, Some(8))] + [Scope(EmbeddedBody, Some(9))], tr.events + [Declared(8, i, Pos(110, 18), Initialized, [])] + [Referenced(9, i, Pos(110, 25), false, false, [])], 2)) == Tree(tr.scopes + [Scope(ForInit, Some(4))] + [Scope(ForLoop, Some(8))] + [Scope(EmbeddedBody, Some(9))], tr.events + [Declared(8, i, Pos(110, 18), Initialized, [])] + [Referenced(9, i, Pos(110, 25), false, false, [])] + [Declared(10, e2, Pos(111, 42), Initialized, [1])], 2);
    assert WalkExprs([Declare(e2, Pos(111, 42), Initialized)], Ctx(10, [1], []), Tree(tr.scopes + [Scope(ForInit, Some(4))] + [Scope(ForLoop, Some(8))] + [Scope(EmbeddedBody, Some(9))], tr.events + [Declared(8, i, Pos(110, 18), Initialized, [])] + [Referenced(9, i, Pos(110, 25), false, false, [])], 2)) == Tree(tr.scopes + [Scope(ForInit, Some(4))] + [Scope(ForLoop, Some(8))] + [Scope(EmbeddedBody, Some(9))], tr.events + [Declared(8, i, Pos(110, 18), Initialized, [])] + [Referenced(9, i, Pos(110, 25), false, false, [])] + [Declared(10, e2, Pos(111, 42), Initialized, [1])], 2);
    OutNamesOfOne(Declare(e2, Pos(111, 42), Initialized));
    OutNamesSnoc([], Argument([Declare(e2, Pos(111, 42), Initialized)]));
    assert WalkArgs([Argument([Declare(e2, Pos(111, 42), Initialized)])], [], Ctx(10, [1], []), Tree(tr.scopes + [Scope(ForInit, Some(4))] + [Scope(ForLoop, Some(8))] + [Scope(EmbeddedBody, Some(9))], tr.events + [Declared(8, i, Pos(110, 18), Initialized, [])] + [Referenced(9, i, Pos(110, 25), false, false, [])], 2)) == Tree(tr.scopes + [Scope(ForInit, Some(4))] + [Scope(ForLoop, Some(8))] + [Scope(EmbeddedBody, Some(9))], tr.events + [Declared(8, i, Pos(110, 18), Initialized, [])] + [Referenced(9, i, Pos(110, 25), false, false, [])] + [Declared(10, e2, Pos(111, 42), Initialized, [1])], 2);
    assert OutNames([Argument([Declare(e2, Pos(111, 42), Initialized)])]) == [];
    assert WalkExpr(Call([Argument([Declare(e2, Pos(111, 42), Initialized)])]), Ctx(10, [1], []), Tree(tr.scopes + [Scope(ForInit, Some(4))] + [Scope(ForLoop, Some(8))] + [Scope(EmbeddedBody, Some(9))], tr.events + [Declared(8, i, Pos(110, 18), Initialized, [])] + [Referenced(9, i, Pos(110, 25), false, false, [])], 2)) == Tree(tr.scopes + [Scope(ForInit, Some(4))] + [Scope(ForLoop, Some(8))] + [Scope(EmbeddedBody, Some(9))], tr.events + [Declared(8, i, Pos(110, 18), Initialized, [])] + [Referenced(9, i, Pos(110, 25), false, false, [])] + [Declared(10, e2, Pos(111, 42), Initialized, [1])] + [OutAssigned(10, [], [1])], 2);
    assert WalkExprs([Call([Argument([Declare(e2, Pos(111, 42), Initialized)])])], Ctx(10, [1], []), Tree(tr.scopes + [Scope(ForInit, Some(4))] + [Scope(ForLoop, Some(8))] + [Scope(EmbeddedBody, Some(9))], tr.events + [Declared(8, i, Pos(110, 18), Initialized, [])] + [Referenced(9, i, Pos(110, 25), false, false, [])], 2)) == Tree(tr.scopes + [Scope(ForInit, Some(4))] + [Scope(ForLoop, Some(8))] + [Scope(EmbeddedBody, Some(9))], tr.events + [Declared(8, i, Pos(110, 18), Initialized, [])] + [Referenced(9, i, Pos(110, 25), false, false, [])] + [Declared(10, e2, Pos(111, 42), Initialized, [1])] + [OutAssigned(10, [], [1])], 2);
    assert WalkStmt(Exprs([Call([Argument([Declare(e2, Pos(111, 42), Initialized)])])]), Ctx(10, [1], []), Tree(tr.scopes + [Scope(ForInit, Some(4))] + [Scope(ForLoop, Some(8))] + [Scope(EmbeddedBody, Some(9))], tr.events + [Declared(8, i, Pos(110, 18), Initialized, [])] + [Referenced(9, i, Pos(110, 25), false, false, [])], 2)) == Tree(tr.scopes + [Scope(ForInit, Some(4))] + [Scope(ForLoop, Some(8))] + [Scope(EmbeddedBody, Some(9))], tr.events + [Declared(8, i, Pos(110, 18), Initialized, [])] + [Referenced(9, i, Pos(110, 25), false, false, [])] + [Declared(10, e2, Pos(111, 42), Initialized, [1])] + [OutAssigned(10, [], [1])], 2);
    assert WalkEmbedded(Exprs([Call([Argument([Declare(e2, Pos(111, 42), Initialized)])])]), Ctx(9, [1], []), Tree(tr.scopes + [Scope(ForInit, Some(4))] + [Scope(ForLoop, Some(8))], tr.events + [Declared(8, i, Pos(110, 18), Initialized, [])] + [Referenced(9, i, Pos(110, 25), false, false, [])], 2)) == Tree(tr.scopes + [Scope(ForInit, Some(4))] + [Scope(ForLoop, Some(8))] + [Scope(EmbeddedBody, Some(9))], tr.events + [Declared(8, i, Pos(110, 18), Initialized, [])] + [Referenced(9, i, Pos(110, 25), false, false, [])] + [Declared(10, e2, Pos(111, 42), Initialized, [1])] + [OutAssigned(10, [], [1])], 2);
    WalkExprsCons(Use(i, Pos(110, 32), false), [Declare(e2, Pos(110, 42), Initialized)], Ctx(9, [1], []), Tree(tr.scopes + [Scope(ForInit, Some(4))] + [Scope(ForLoop, Some(8))] + [Scope(EmbeddedBody, Some(9))], tr.events + [Declared(8, i, Pos(110, 18), Initialized, [])] + [Referenced(9, i, Pos(110, 25), false, false, [])] + [Declared(10, e2, Pos(111, 42), Initialized, [1])] + [OutAssigned(10, [], [1])], 2));
    assert WalkExpr(Use(i, Pos(110, 32), false), Ctx(9, [1], []), Tree(tr.scopes + [Scope(ForInit, Some(4))] + [Scope(ForLoop, Some(8))] + [Scope(EmbeddedBody, Some(9))], tr.events + [Declared(8, i, Pos(110, 18), Initialized, [])] + [Referenced(9, i, Pos(110, 25), false, false, [])] + [Declared(10, e2, Pos(111, 42), Initialized, [1])] + [OutAssigned(10, [], [1])], 2)) == Tree(tr.scopes + [Scope(ForInit, Some(4))] + [Scope(ForLoop, Some(8))] + [Scope(EmbeddedBody, Some(9))], tr.events + [Declared(8, i, Pos(110, 18), Initialized, [])] + [Referenced(9, i, Pos(110, 25), false, false, [])] + [Declared(10, e2, Pos(111, 42), Initialized, [1])] + [OutAssigned(10, [], [1])] + [Referenced(9, i, Pos(110, 32), false, false, [1])], 2);
    WalkExprsOne(Declare(e2, Pos(110, 42), Initialized), Ctx(9, [1], []), Tree(tr.scopes + [Scope(ForInit, Some(4))] + [Scope(ForLoop, Some(8))] + [Scope(EmbeddedBody, Some(9))], tr.events + [Declared(8, i, Pos(110, 18), Initialized, [])] + [Referenced(9, i, Pos(110, 25), false, false, [])] + [Declared(10, e2, Pos(111, 42), Initialized, [1])] + [OutAssigned(10, [], [1])] + [Referenced(9, i, Pos(110, 32), false, false, [1])], 2));
    assert WalkExpr(Declare(e2, Pos(110, 42), Initialized), Ctx(9, [1], []), Tree(tr.scopes + [Scope(ForInit, Some(4))] + [Scope(ForLoop, Some(8))] + [Scope(EmbeddedBody, Some(9))], tr.events + [Declared(8, i, Pos(110, 18), Initialized, [])] + [Referenced(9, i, Pos(110, 25), false, false, [])] + [Declared(10, e2, Pos(111, 42), Initialized, [1])] + [OutAssigned(10, [], [1])] + [Referenced(9, i, Pos(110, 32), false, false, [1])], 2)) == Tree(tr.scopes + [Scope(ForInit, Some(4))] + [Scope(ForLoop, Some(8))] + [Scope(EmbeddedBody, Some(9))], tr.events + [Declared(8, i, Pos(110, 18), Initialized, [])] + [Referenced(9, i, Pos(110, 25), false, false, [])] + [Declared(10, e2, Pos(111, 42), Initialized, [1])] + [OutAssigned(10, [], [1])] + [Referenced(9, i, Pos(110, 32), false, false, [1])] + [Declared(9, e2, Pos(110, 42), Initialized, [1])], 2);
    assert WalkExprs([Use(i, Pos(110, 32), false)] + ([Declare(e2, Pos(110, 42), Initialized)]), Ctx(9, [1], []), Tree(tr.scopes + [Scope(ForInit, Some(4))] + [Scope(ForLoop, Some(8))] + [Scope(EmbeddedBody, Some(9))], tr.events + [Declared(8, i, Pos(110, 18), Initialized, [])] + [Referenced(9, i, Pos(110, 25), false, false, [])] + [Declared(10, e2, Pos(111, 42), Initialized, [1])] + [OutAssigned(10, [], [1])], 2)) == Tree(tr.scopes + [Scope(ForInit, Some(4))] + [Scope(ForLoop, Some(8))] + [Scope(EmbeddedBody, Some(9))], tr.events + [Declared(8, i, Pos(110, 18), Initialized, [])] + [Referenced(9, i, Pos(110, 25), false, false, [])] + [Declared(10, e2, Pos(111, 42), Initialized, [1])] + [OutAssigned(10, [], [1])] + [Referenced(9, i, Pos(110, 32), false, false, [1])] + [Declared(9, e2, Pos(110, 42), Initialized, [1])], 2);
    assert WalkStmt(For([Declare(i, Pos(110, 18), Initialized)], [Use(i, Pos(110, 25), false)], [Use(i, Pos(110, 32), false)] + ([Declare(e2, Pos(110, 42), Initialized)]), Exprs([Call([Argument([Declare(e2, Pos(111, 42), Initialized)])])])), Ctx(4, [], []), tr) == Tree(tr.scopes + [Scope(ForInit, Some(4))] + [Scope(ForLoop, Some(8))] + [Scope(EmbeddedBody, Some(9))], tr.events + [Declared(8, i, Pos(110, 18), Initialized, [])] + [Referenced(9, i, Pos(110, 25), false, false, [])] + [Declared(10, e2, Pos(111, 42), Initialized, [1])] + [OutAssigned(10, [], [1])] + [Referenced(9, i, Pos(110, 32), false, false, [1])] + [Declared(9, e2, Pos(110, 42), Initialized, [1])], 2);
  }

  lemma {:induction false} Walk5(i: string, e1: string, e2: string, e3: string, e4: string, f1: string, tr: Tree)
    requires |tr.scopes| == 14 && tr.arms == 3
    ensures WalkStmt(Exprs([Call([Argument([Declare(e3, Pos(115, 42), Initialized)])])]), Ctx(13, [2], []), tr) == Tree(tr.scopes, tr.events + [Declared(13, e3, Pos(115, 42), Initialized, [2])] + [OutAssigned(13, [], [2])], 3)
  {
    WalkExprsOne(Call([Argument([Declare(e3, Pos(115, 42), Initialized)])]), Ctx(13, [2], []), tr);
    assert OutNames([]) == [];
    WalkArgsOne(Argument([Declare(e3, Pos(115, 42), Initialized)]), [], Ctx(13, [2], []), tr);
    WalkExprsOne(Declare(e3, Pos(115, 42), Initialized), Ctx(13, [2], []), tr);
    assert WalkExpr(Declare(e3, Pos(115, 42), Initialized), Ctx(13, [2], []), tr) == Tree(tr.scopes, tr.events + [Declared(13, e3, Pos(115, 42), Initialized, [2])], 3);
    assert WalkExprs([Declare(e3, Pos(115, 42), Initialized)], Ctx(13, [2], []), tr) == Tree(tr.scopes, tr.events + [Declared(13, e3, Pos(115, 42), Initialized, [2])], 3);
    OutNamesOfOne(Declare(e3, Pos(115, 42), Initialized));
    OutNamesSnoc([], Argument([Declare(e3, Pos(115, 42), Initialized)]));
    assert WalkArgs([Argument([Declare(e3, Pos(115, 42), Initialized)])], [], Ctx(13, [2], []), tr) == Tree(tr.scopes, tr.events + [Declared(13, e3, Pos(115, 42), Initialized, [2])], 3);
    assert OutNames([Argument([Declare(e3, Pos(115, 42), Initialized)])]) == [];
    assert WalkExpr(Call([Argument([Declare(e3, Pos(115, 42), Initialized)])]), Ctx(13, [2], []), tr) == Tree(tr.scopes, tr.events + [Declared(13, e3, Pos(115, 42), Initialized, [2])] + [OutAssigned(13, [], [2])], 3);
    assert WalkExprs([Call([Argument([Declare(e3, Pos(115, 42), Initialized)])])], Ctx(13, [2], []), tr) == Tree(tr.scopes, tr.events + [Declared(13, e3, Pos(115, 42), Initialized, [2])] + [OutAssigned(13, [], [2])], 3);
    assert WalkStmt(Exprs([Call([Argument([Declare(e3, Pos(115, 42), Initialized)])])]), Ctx(13, [2], []), tr) == Tree(tr.scopes, tr.events + [Declared(13, e3, Pos(115, 42), Initialized, [2])] + [OutAssigned(13, [], [2])], 3);
  }

  lemma {:induction false} Walk4(i: string, e1: string, e2: string, e3: string, e4: string, f1: string, tr: Tree)
    requires |tr.scopes| == 11 && tr.arms == 2
    ensures WalkStmt(For([Declare(i, Pos(113, 18), Initialized)], [Use(i, Pos(113, 25), false)], [Use(i, Pos(113, 32), false)] + ([Declare(e3, Pos(113, 42), Initialized)]), Block([Exprs([Call([Argument([Declare(e3, Pos(115, 42), Initialized)])])])])), Ctx(4, [], []), tr) == Tree(tr.scopes + [Scope(ForInit, Some(4))] + [Scope(ForLoop, Some(11))] + [Scope(BlockBody, Some(12))], tr.events + [Declared(11, i, Pos(113, 18), Initialized, [])] + [Referenced(12, i, Pos(113, 25), false, false, [])] + [Declared(13, e3, Pos(115, 42), Initialized, [2])] + [OutAssigned(13, [], [2])] + [Referenced(12, i, Pos(113, 32), false, false, [2])] + [Declared(12, e3, Pos(113, 42), Initialized, [2])], 3)
  {
    WalkExprsOne(Declare(i, Pos(113, 18), Initialized), Ctx(11, [], []), Tree(tr.scopes + [Scope(ForInit, Some(4))] + [Scope(ForLoop, Some(11))], tr.events, 2));
    assert WalkExpr(Declare(i, Pos(113, 18), Initialized), Ctx(11, [], []), Tree(tr.scopes + [Scope(ForInit, Some(4))] + [Scope(ForLoop, Some(11))], tr.events, 2)) == Tree(tr.scopes + [Scope(ForInit, Some(4))] + [Scope(ForLoop, Some(11))], tr.events + [Declared(11, i, Pos(113, 18), Initialized, [])], 2);
    assert WalkExprs([Declare(i, Pos(113, 18), Initialized)], Ctx(11, [], []), Tree(tr.scopes + [Scope(ForInit, Some(4))] + [Scope(ForLoop, Some(11))], tr.events, 2)) == Tree(tr.scopes + [Scope(ForInit, Some(4))] + [Scope(ForLoop, Some(11))], tr.events + [Declared(11, i, Pos(113, 18), Initialized, [])], 2);
    WalkExprsOne(Use(i, Pos(113, 25), false), Ctx(12, [], []), Tree(tr.scopes + [Scope(ForInit, Some(4))] + [Scope(ForLoop, Some(11))], tr.events + [Declared(11, i, Pos(113, 18), Initialized, [])], 2));
    assert WalkExpr(Use(i, Pos(113, 25), false), Ctx(12, [], []), Tree(tr.scopes + [Scope(ForInit, Some(4))] + [Scope(ForLoop, Some(11))], tr.events + [Declared(11, i, Pos(113, 18), Initialized, [])], 2)) == Tree(tr.scopes + [Scope(ForInit, Some(4))] + [Scope(ForLoop, Some(11))], tr.events + [Declared(11, i, Pos(113, 18), Initialized, [])] + [Referenced(12, i, Pos(113, 25), false, false, [])], 2);
    assert WalkExprs([Use(i, Pos(113, 25), false)], Ctx(12, [], []), Tree(tr.scopes + [Scope(ForInit, Some(4))] + [Scope(ForLoop, Some(11))], tr.events + [Declared(11, i, Pos(113, 18), Initialized, [])], 2)) == Tree(tr.scopes + [Scope(ForInit, Some(4))] + [Scope(ForLoop, Some(11))], tr.events + [Declared(11, i, Pos(113, 18), Initialized, [])] + [Referenced(12, i, Pos(113, 25), false, false, [])], 2);
    assert [] + [2] == [2];
    WalkStmtsOne(Exprs([Call([Argument([Declare(e3, Pos(115, 42), Initialized)])])]), Ctx(13, [2], []), Tree(tr.scopes + [Scope(ForInit, Some(4))] + [Scope(ForLoop, Some(11))] + [Scope(BlockBody, Some(12))], tr.events + [Declared(11, i, Pos(113, 18), Initialized, [])] + [Referenced(12, i, Pos(113, 25), false, false, [])], 3));
    Walk5(i, e1, e2, e3, e4, f1, Tree(tr.scopes + [Scope(ForInit, Some(4))] + [Scope(ForLoop, Some(11))] + [Scope(BlockBody, Some(12))], tr.events + [Declared(11, i, Pos(113, 18), Initialized, [])] + [Referenced(12, i, Pos(113, 25), false, false, [])], 3));
    assert WalkStmt(Exprs([Call([Argument([Declare(e3, Pos(115, 42), Initialized)])])]), Ctx(13, [2], []), Tree(tr.scopes + [Scope(ForInit, Some(4))] + [Scope(ForLoop, Some(11))] + [Scope(BlockBody, Some(12))], tr.events + [Declared(11, i, Pos(113, 18), Initialized, [])] + [Referenced(12, i, Pos(113, 25), false, false, [])], 3)) == Tree(tr.scopes + [Scope(ForInit, Some(4))] + [Scope(ForLoop, Some(11))] + [Scope(BlockBody, Some(12))], tr.events + [Declared(11, i, Pos(113, 18), Initialized, [])] + [Referenced(12, i, Pos(113, 25), false, false, [])] + [Declared(13, e3, Pos(115, 42), Initialized, [2])] + [OutAssigned(13, [], [2])], 3);
    assert WalkEmbedded(Block([Exprs([Call([Argument([Declare(e3, Pos(115, 42), Initialized)])])])]), Ctx(12, [2], []), Tree(tr.scopes + [Scope(ForInit, Some(4))] + [Scope(ForLoop, Some(11))], tr.events + [Declared(11, i, Pos(113, 18), Initialized, [])] + [Referenced(12, i, Pos(113, 25), false, false, [])], 3)) == Tree(tr.scopes + [Scope(ForInit, Some(4))] + [Scope(ForLoop, Some(11))] + [Scope(BlockBody, Some(12))], tr.events + [Declared(11, i, Pos(113, 18), Initialized, [])] + [Referenced(12, i, Pos(113, 25), false, false, [])] + [Declared(13, e3, Pos(115, 42), Initialized, [2])] + [OutAssigned(13, [], [2])], 3);
    WalkExprsCons(Use(i, Pos(113, 32), false), [Declare(e3, Pos(113, 42), Initialized)], Ctx(12, [2], []), Tree(tr.scopes + [Scope(ForInit, Some(4))] + [Scope(ForLoop, Some(11))] + [Scope(BlockBody, Some(12))], tr.events + [Declared(11, i, Pos(113, 18), Initialized, [])] + [Referenced(12, i, Pos(113, 25), false, false, [])] + [Declared(13, e3, Pos(115, 42), Initialized, [2])] + [OutAssigned(13, [], [2])], 3));
    assert WalkExpr(Use(i, Pos(113, 32), false), Ctx(12, [2], []), Tree(tr.scopes + [Scope(ForInit, Some(4))] + [Scope(ForLoop, Some(11))] + [Scope(BlockBody, Some(12))], tr.events + [Declared(11, i, Pos(113, 18), Initialized, [])] + [Referenced(12, i, Pos(113, 25), false, false, [])] + [Declared(13, e3, Pos(115, 42), Initialized, [2])] + [OutAssigned(13, [], [2])], 3)) == Tree(tr.scopes + [Scope(ForInit, Some(4))] + [Scope(ForLoop, Some(11))] + [Scope(BlockBody, Some(12))], tr.events + [Declared(11, i, Pos(113, 18), Initialized, [])] + [Referenced(12, i, Pos(113, 25), false, false, [])] + [Declared(13, e3, Pos(115, 42), Initialized, [2])] + [OutAssigned(13, [], [2])] + [Referenced(12, i, Pos(113, 32), false, false, [2])], 3);
    WalkExprsOne(Declare(e3, Pos(113, 42), Initialized), Ctx(12, [2], []), Tree(tr.scopes + [Scope(ForInit, Some(4))] + [Scope(ForLoop, Some(11))] + [Scope(BlockBody, Some(12))], tr.events + [Declared(11, i, Pos(113, 18), Initialized, [])] + [Referenced(12, i, Pos(113, 25), false, false, [])] + [Declared(13, e3, Pos(115, 42), Initialized, [2])] + [OutAssigned(13, [], [2])] + [Referenced(12, i, Pos(113, 32), false, false, [2])], 3));
    assert WalkExpr(Declare(e3, Pos(113, 42), Initialized), Ctx(12, [2], []), Tree(tr.scopes + [Scope(ForInit, Some(4))] + [Scope(ForLoop, Some(11))] + [Scope(BlockBody, Some(12))], tr.events + [Declared(11, i, Pos(113, 18), Initialized, [])] + [Referenced(12, i, Pos(113, 25), false, false, [])] + [Declared(13, e3, Pos(115, 42), Initialized, [2])] + [OutAssigned(13, [], [2])] + [Referenced(12, i, Pos(113, 32), false, false, [2])], 3)) == Tree(tr.scopes + [Scope(ForInit, Some(4))] + [Scope(ForLoop, Some(11))] + [Scope(BlockBody, Some(12))], tr.events + [Declared(11, i, Pos(113, 18), Initialized, [])] + [Referenced(12, i, Pos(113, 25), false, false, [])] + [Declared(13, e3, Pos(115, 42), Initialized, [2])] + [OutAssigned(13, [], [2])] + [Referenced(12, i, Pos(113, 32), false, false, [2])] + [Declared(12, e3, Pos(113, 42), Initialized, [2])], 3);
    assert WalkExprs([Use(i, Pos(113, 32), false)] + ([Declare(e3, Pos(113, 42), Initialized)]), Ctx(12, [2], []), Tree(tr.scopes + [Scope(ForInit, Some(4))] + [Scope(ForLoop, Some(11))] + [Scope(BlockBody, Some(12))], tr.events + [Declared(11, i, Pos(113, 18), Initialized, [])] + [Referenced(12, i, Pos(113, 25), false, false, [])] + [Declared(13, e3, Pos(115, 42), Initialized, [2])] + [OutAssigned(13, [], [2])], 3)) == Tree(tr.scopes + [Scope(ForInit, Some(4))] + [Scope(ForLoop, Some(11))] + [Scope(BlockBody, Some(12))], tr.events + [Declared(11, i, Pos(113, 18), Initialized, [])] + [Referenced(12, i, Pos(113, 25), false, false, [])] + [Declared(13, e3, Pos(115, 42), Initialized, [2])] + [OutAssigned(13, [], [2])] + [Referenced(12, i, Pos(113, 32), false, false, [2])] + [Declared(12, e3, Pos(113, 42), Initialized, [2])], 3);
    assert WalkStmt(For([Declare(i, Pos(113, 18), Initialized)], [Use(i, Pos(113, 25), false)], [Use(i, Pos(113, 32), false)] + ([Declare(e3, Pos(113, 42), Initialized)]), Block([Exprs([Call([Argument([Declare(e3, Pos(115, 42), Initialized)])])])])), Ctx(4, [], []), tr) == Tree(tr.scopes + [Scope(ForInit, Some(4))] + [Scope(ForLoop, Some(11))] + [Scope(BlockBody, Some(12))], tr.events + [Declared(11, i, Pos(113, 18), Initialized, [])] + [Referenced(12, i, Pos(113, 25), false, false, [])] + [Declared(13, e3, Pos(115, 42), Initialized, [2])] + [OutAssigned(13, [], [2])] + [Referenced(12, i, Pos(113, 32), false, false, [2])] + [Declared(12, e3, Pos(113, 42), Initialized, [2])], 3);
  }

  lemma {:induction false} Walk7(i: string, e1: string, e2: string, e3: string, e4: string, f1: string, tr: Tree)
    requires |tr.scopes| == 17 && tr.arms == 4
    ensures WalkStmt(Exprs([Declare(e4, Pos(120, 17), Initialized)]), Ctx(16, [3], []), tr) == Tree(tr.scopes, tr.events + [Declared(16, e4, Pos(120, 17), Initialized, [3])], 4)
  {
    WalkExprsOne(Declare(e4, Pos(120, 17), Initialized), Ctx(16, [3], []), tr);
    assert WalkExpr(Declare(e4, Pos(120, 17), Initialized), Ctx(16, [3], []), tr) == Tree(tr.scopes, tr.events + [Declared(16, e4, Pos(120, 17), Initialized, [3])], 4);
    assert WalkExprs([Declare(e4, Pos(120, 17), Initialized)], Ctx(16, [3], []), tr) == Tree(tr.scopes, tr.events + [Declared(16, e4, Pos(120, 17), Initialized, [3])], 4);
    assert WalkStmt(Exprs([Declare(e4, Pos(120, 17), Initialized)]), Ctx(16, [3], []), tr) == Tree(tr.scopes, tr.events + [Declared(16, e4, Pos(120, 17), Initialized, [3])], 4);
  }

  lemma {:induction false} Walk8(i: string, e1: string, e2: string, e3: string, e4: string, f1: string, tr: Tree)
    requires |tr.scopes| == 17 && tr.arms == 4
    ensures WalkStmt(Exprs([Call([Argument([Use(e4, Pos(121, 38), false)])])]), Ctx(16, [3], []), tr) == Tree(tr.scopes, tr.events + [Referenced(16, e4, Pos(121, 38), false, false, [3])] + [OutAssigned(16, [], [3])], 4)
  {
    WalkExprsOne(Call([Argument([Use(e4, Pos(121, 38), false)])]), Ctx(16, [3], []), tr);
    assert OutNames([]) == [];
    WalkArgsOne(Argument([Use(e4, Pos(121, 38), false)]), [], Ctx(16, [3], []), tr);
    WalkExprsOne(Use(e4, Pos(121, 38), false), Ctx(16, [3], []), tr);
    assert WalkExpr(Use(e4, Pos(121, 38), false), Ctx(16, [3], []), tr) == Tree(tr.scopes, tr.events + [Referenced(16, e4, Pos(121, 38), false, false, [3])], 4);
    assert WalkExprs([Use(e4, Pos(121, 38), false)], Ctx(16, [3], []), tr) == Tree(tr.scopes, tr.events + [Referenced(16, e4, Pos(121, 38), false, false, [3])], 4);
    OutNamesOfOne(Use(e4, Pos(121, 38), false));
    OutNamesSnoc([], Argument([Use(e4, Pos(121, 38), false)]));
    assert WalkArgs([Argument([Use(e4, Pos(121, 38), false)])], [], Ctx(16, [3], []), tr) == Tree(tr.scopes, tr.events + [Referenced(16, e4, Pos(121, 38), false, false, [3])], 4);
    assert OutNames([Argument([Use(e4, Pos(121, 38), false)])]) == [];
    assert WalkExpr(Call([Argument([Use(e4, Pos(121, 38), false)])]), Ctx(16, [3], []), tr) == Tree(tr.scopes, tr.events + [Referenced(16, e4, Pos(121, 38), false, false, [3])] + [OutAssigned(16, [], [3])], 4);
    assert WalkExprs([Call([Argument([Use(e4, Pos(121, 38), false)])])], Ctx(16, [3], []), tr) == Tree(tr.scopes, tr.events + [Referenced(16, e4, Pos(121, 38), false, false, [3])] + [OutAssigned(16, [], [3])], 4);
    assert WalkStmt(Exprs([Call([Argument([Use(e4, Pos(121, 38), false)])])]), Ctx(16, [3], []), tr) == Tree(tr.scopes, tr.events + [Referenced(16, e4, Pos(121, 38), false, false, [3])] + [OutAssigned(16, [], [3])], 4);
  }

  lemma {:induction false} Walk6(i: string, e1: string, e2: string, e3: string, e4: string, f1: string, tr: Tree)
    requires |tr.scopes| == 14 && tr.arms == 3
    ensures WalkStmt(For([Declare(i, Pos(118, 18), Initialized)], [Use(i, Pos(118, 25), false)], [Use(i, Pos(118, 32), false)] + ([Declare(e4, Pos(118, 42), Initialized)]), Block([Exprs([Declare(e4, Pos(120, 17), Initialized)])] + ([Exprs([Call([Argument([Use(e4, Pos(121, 38), false)])])])]))), Ctx(4, [], []), tr) == Tree(tr.scopes + [Scope(ForInit, Some(4))] + [Scope(ForLoop, Some(14))] + [Scope(BlockBody, Some(15))], tr.events + [Declared(14, i, Pos(118, 18), Initialized, [])] + [Referenced(15, i, Pos(118, 25), false, false, [])] + [Declared(16, e4, Pos(120, 17), Initialized, [3])] + [Referenced(16, e4, Pos(121, 38), false, false, [3])] + [OutAssigned(16, [], [3])] + [Referenced(15, i, Pos(118, 32), false, false, [3])] + [Declared(15, e4, Pos(118, 42), Initialized, [3])], 4)
  {
    WalkExprsOne(Declare(i, Pos(118, 18), Initialized), Ctx(14, [], []), Tree(tr.scopes + [Scope(ForInit, Some(4))] + [Scope(ForLoop, Some(14))], tr.events, 3));
    assert WalkExpr(Declare(i, Pos(118, 18), Initialized), Ctx(14, [], []), Tree(tr.scopes + [Scope(ForInit, Some(4))] + [Scope(ForLoop, Some(14))], tr.events, 3)) == Tree(tr.scopes + [Scope(ForInit, Some(4))] + [Scope(ForLoop, Some(14))], tr.events + [Declared(14, i, Pos(118, 18), Initialized, [])], 3);
    assert WalkExprs([Declare(i, Pos(118, 18), Initialized)], Ctx(14, [], []), Tree(tr.scopes + [Scope(ForInit, Some(4))] + [Scope(ForLoop, Some(14))], tr.events, 3)) == Tree(tr.scopes + [Scope(ForInit, Some(4))] + [Scope(ForLoop, Some(14))], tr.events + [Declared(14, i, Pos(118, 18), Initialized, [])], 3);
    WalkExprsOne(Use(i, Pos(118, 25), false), Ctx(15, [], []), Tree(tr.scopes + [Scope(ForInit, Some(4))] + [Scope(ForLoop, Some(14))], tr.events + [Declared(14, i, Pos(118, 18), Initialized, [])], 3));
    assert WalkExpr(Use(i, Pos(118, 25), false), Ctx(15, [], []), Tree(tr.scopes + [Scope(ForInit, Some(4))] + [Scope(ForLoop, Some(14))], tr.events + [Declared(14, i, Pos(118, 18), Initialized, [])], 3)) == Tree(tr.scopes + [Scope(ForInit, Some(4))] + [Scope(ForLoop, Some(14))], tr.events + [Declared(14, i, Pos(118, 18), Initialized, [])] + [Referenced(15, i, Pos(118, 25), false, false, [])], 3);
    assert WalkExprs([Use(i, Pos(118, 25), false)], Ctx(15, [], []), Tree(tr.scopes + [Scope(ForInit, Some(4))] + [Scope(ForLoop, Some(14))], tr.events + [Declared(14, i, Pos(118, 18), Initialized, [])], 3)) == Tree(tr.scopes + [Scope(ForInit, Some(4))] + [Scope(ForLoop, Some(14))], tr.events + [Declared(14, i, Pos(118, 18), Initialized, [])] + [Referenced(15, i, Pos(118, 25), false, false, [])], 3);
    assert [] + [3] == [3];
    WalkStmtsCons(Exprs([Declare(e4, Pos(120, 17), Initialized)]), [Exprs([Call([Argument([Use(e4, Pos(121, 38), false)])])])], Ctx(16, [3], []), Tree(tr.scopes + [Scope(ForInit, Some(4))] + [Scope(ForLoop, Some(14))] + [Scope(BlockBody, Some(15))], tr.events + [Declared(14, i, Pos(118, 18), Initialized, [])] + [Referenced(15, i, Pos(118, 25), false, false, [])], 4));
    Walk7(i, e1, e2, e3, e4, f1, Tree(tr.scopes + [Scope(ForInit, Some(4))] + [Scope(ForLoop, Some(14))] + [Scope(BlockBody, Some(15))], tr.events + [Declared(14, i, Pos(118, 18), Initialized, [])] + [Referenced(15, i, Pos(118, 25), false, false, [])], 4));
    assert WalkStmt(Exprs([Declare(e4, Pos(120, 17), Initialized)]), Ctx(16, [3], []), Tree(tr.scopes + [Scope(ForInit, Some(4))] + [Scope(ForLoop, Some(14))] + [Scope(BlockBody, Some(15))], tr.events + [Declared(14, i, Pos(118, 18), Initialized, [])] + [Referenced(15, i, Pos(118, 25), false, false, [])], 4)) == Tree(tr.scopes + [Scope(ForInit, Some(4))] + [Scope(ForLoop, Some(14))] + [Scope(BlockBody, Some(15))], tr.events + [Declared(14, i, Pos(118, 18), Initialized, [])] + [Referenced(15, i, Pos(118, 25), false, false, [])] + [Declared(16, e4, Pos(120, 17), Initialized, [3])], 4);
    WalkStmtsOne(Exprs([Call([Argument([Use(e4, Pos(121, 38), false)])])]), Ctx(16, [3], []), Tree(tr.scopes + [Scope(ForInit, Some(4))] + [Scope(ForLoop, Some(14))] + [Scope(BlockBody, Some(15))], tr.events + [Declared(14, i, Pos(118, 18), Initialized, [])] + [Referenced(15, i, Pos(118, 25), false, false, [])] + [Declared(16, e4, Pos(120, 17), Initialized, [3])], 4));
    Walk8(i, e1, e2, e3, e4, f1, Tree(tr.scopes + [Scope(ForInit, Some(4))] + [Scope(ForLoop, Some(14))] + [Scope(BlockBody, Some(15))], tr.events + [Declared(14, i, Pos(118, 18), Initialized, [])] + [Referenced(15, i, Pos(118, 25), false, false, [])] + [Declared(16, e4, Pos(120, 17), Initialized, [3])], 4));
    assert WalkStmt(Exprs([Call([Argument([Use(e4, Pos(121, 38), false)])])]), Ctx(16, [3], []), Tree(tr.scopes + [Scope(ForInit, Some(4))] + [Scope(ForLoop, Some(14))] + [Scope(BlockBody, Some(15))], tr.events + [Declared(14, i, Pos(118, 18), Initialized, [])] + [Referenced(15, i, Pos(118, 25), false, false, [])] + [Declared(16, e4, Pos(120, 17), Initialized, [3])], 4)) == Tree(tr.scopes + [Scope(ForInit, Some(4))] + [Scope(ForLoop, Some(14))] + [Scope(BlockBody, Some(15))], tr.events + [Declared(14, i, Pos(118, 18), Initialized, [])] + [Referenced(15, i, Pos(118, 25), false, false, [])] + [Declared(16, e4, Pos(120, 17), Initialized, [3])] + [Referenced(16, e4, Pos(121, 38), false, false, [3])] + [OutAssigned(16, [], [3])], 4);
    assert WalkEmbedded(Block([Exprs([Declare(e4, Pos(120, 17), Initialized)])] + ([Exprs([Call([Argument([Use(e4, Pos(121, 38), false)])])])])), Ctx(15, [3], []), Tree(tr.scopes + [Scope(ForInit, Some(4))] + [Scope(ForLoop, Some(14))], tr.events + [Declared(14, i, Pos(118, 18), Initialized, [])] + [Referenced(15, i, Pos(118, 25), false, false, [])], 4)) == Tree(tr.scopes + [Scope(ForInit, Some(4))] + [Scope(ForLoop, Some(14))] + [Scope(BlockBody, Some(15))], tr.events + [Declared(14, i, Pos(118, 18), Initialized, [])] + [Referenced(15, i, Pos(118, 25), false, false, [])] + [Declared(16, e4, Pos(120, 17), Initialized, [3])] + [Referenced(16, e4, Pos(121, 38), false, false, [3])] + [OutAssigned(16, [], [3])], 4);
    WalkExprsCons(Use(i, Pos(118, 32), false), [Declare(e4, Pos(118, 42), Initialized)], Ctx(15, [3], []), Tree(tr.scopes + [Scope(ForInit, Some(4))] + [Scope(ForLoop, Some(14))] + [Scope(BlockBody, Some(15))], tr.events + [Declared(14, i, Pos(118, 18), Initialized, [])] + [Referenced(15, i, Pos(118, 25), false, false, [])] + [Declared(16, e4, Pos(120, 17), Initialized, [3])] + [Referenced(16, e4, Pos(121, 38), false, false, [3])] + [OutAssigned(16, [], [3])], 4));
    assert WalkExpr(Use(i, Pos(118, 32), false), Ctx(15, [3], []), Tree(tr.scopes + [Scope(ForInit, Some(4))] + [Scope(ForLoop, Some(14))] + [Scope(BlockBody, Some(15))], tr.events + [Declared(14, i, Pos(118, 18), Initialized, [])] + [Referenced(15, i, Pos(118, 25), false, false, [])] + [Declared(16, e4, Pos(120, 17), Initialized, [3])] + [Referenced(16, e4, Pos(121, 38), false, false, [3])] + [OutAssigned(16, [], [3])], 4)) == Tree(tr.scopes + [Scope(ForInit, Some(4))] + [Scope(ForLoop, Some(14))] + [Scope(BlockBody, Some(15))], tr.events + [Declared(14, i, Pos(118, 18), Initialized, [])] + [Referenced(15, i, Pos(118, 25), false, false, [])] + [Declared(16, e4, Pos(120, 17), Initialized, [3])] + [Referenced(16, e4, Pos(121, 38), false, false, [3])] + [OutAssigned(16, [], [3])] + [Referenced(15, i, Pos(118, 32), false, false, [3])], 4);
    WalkExprsOne(Declare(e4, Pos(118, 42), Initialized), Ctx(15, [3], []), Tree(tr.scopes + [Scope(ForInit, Some(4))] + [Scope(ForLoop, Some(14))] + [Scope(BlockBody, Some(15))], tr.events + [Declared(14, i, Pos(118, 18), Initialized, [])] + [Referenced(15, i, Pos(118, 25), false, false, [])] + [Declared(16, e4, Pos(120, 17), Initialized, [3])] + [Referenced(16, e4, Pos(121, 38), false, false, [3])] + [OutAssigned(16, [], [3])] + [Referenced(15, i, Pos(118, 32), false, false, [3])], 4));
    assert WalkExpr(Declare(e4, Pos(118, 42), Initialized), Ctx(15, [3], []), Tree(tr.scopes + [Scope(ForInit, Some(4))] + [Scope(ForLoop, Some(14))] + [Scope(BlockBody, Some(15))], tr.events + [Declared(14, i, Pos(118, 18), Initialized, [])] + [Referenced(15, i, Pos(118, 25), false, false, [])] + [Declared(16, e4, Pos(120, 17), Initialized, [3])] + [Referenced(16, e4, Pos(121, 38), false, false, [3])] + [OutAssigned(16, [], [3])] + [Referenced(15, i, Pos(118, 32), false, false, [3])], 4)) == Tree(tr.scopes + [Scope(ForInit, Some(4))] + [Scope(ForLoop, Some(14))] + [Scope(BlockBody, Some(15))], tr.events + [Declared(14, i, Pos(118, 18), Initialized, [])] + [Referenced(15, i, Pos(118, 25), false, false, [])] + [Declared(16, e4, Pos(120, 17), Initialized, [3])] + [Referenced(16, e4, Pos(121, 38), false, false, [3])] + [OutAssigned(16, [], [3])] + [Referenced(15, i, Pos(118, 32), false, false, [3])] + [Declared(15, e4, Pos(118, 42), Initialized, [3])], 4);
    assert WalkExprs([Use(i, Pos(118, 32), false)] + ([Declare(e4, Pos(118, 42), Initialized)]), Ctx(15, [3], []), Tree(tr.scopes + [Scope(ForInit, Some(4))] + [Scope(ForLoop, Some(14))] + [Scope(BlockBody, Some(15))], tr.events + [Declared(14, i, Pos(118, 18), Initialized, [])] + [Referenced(15, i, Pos(118, 25), false, false, [])] + [Declared(16, e4, Pos(120, 17), Initialized, [3])] + [Referenced(16, e4, Pos(121, 38), false, false, [3])] + [OutAssigned(16, [], [3])], 4)) == Tree(tr.scopes + [Scope(ForInit, Some(4))] + [Scope(ForLoop, Some(14))] + [Scope(BlockBody, Some(15))], tr.events + [Declared(14, i, Pos(118, 18), Initialized, [])] + [Referenced(15, i, Pos(118, 25), false, false, [])] + [Declared(16, e4, Pos(120, 17), Initialized, [3])] + [Referenced(16, e4, Pos(121, 38), false, false, [3])] + [OutAssigned(16, [], [3])] + [Referenced(15, i, Pos(118, 32), false, false, [3])] + [Declared(15, e4, Pos(118, 42), Initialized, [3])], 4);
    assert WalkStmt(For([Declare(i, Pos(118, 18), Initialized)], [Use(i, Pos(118, 25), false)], [Use(i, Pos(118, 32), false)] + ([Declare(e4, Pos(118, 42), Initialized)]), Block([Exprs([Declare(e4, Pos(120, 17), Initialized)])] + ([Exprs([Call([Argument([Use(e4, Pos(121, 38), false)])])])]))), Ctx(4, [], []), tr) == Tree(tr.scopes + [Scope(ForInit, Some(4))] + [Scope(ForLoop, Some(14))] + [Scope(BlockBody, Some(15))], tr.events + [Declared(14, i, Pos(118, 18), Initialized, [])] + [Referenced(15, i, Pos(118, 25), false, false, [])] + [Declared(16, e4, Pos(120, 17), Initialized, [3])] + [Referenced(16, e4, Pos(121, 38), false, false, [3])] + [OutAssigned(16, [], [3])] + [Referenced(15, i, Pos(118, 32), false, false, [3])] + [Declared(15, e4, Pos(118, 42), Initialized, [3])], 4);
  }

  lemma {:induction false} Stmts1(i: string, e1: string, e2: string, e3: string, e4: string, f1: string, tr: Tree, rest: seq<Stmt>)
    requires |tr.scopes| == 5 && tr.arms == 0
    ensures WalkStmts([For([Declare(i, Pos(108, 18), Initialized)], [Use(i, Pos(108, 25), false)], [Use(i, Pos(108, 32), false)] + ([Declare(e1, Pos(108, 42), Initialized)] + ([Declare(e1, Pos(108, 57), Initialized)])), Exprs([]))] + ([For([Declare(i, Pos(110, 18), Initialized)], [Use(i, Pos(110, 25), false)], [Use(i, Pos(110, 32), false)] + ([Declare(e2, Pos(110, 42), Initialized)]), Exprs([Call([Argument([Declare(e2, Pos(111, 42), Initialized)])])]))] + ([For([Declare(i, Pos(113, 18), Initialized)], [Use(i, Pos(113, 25), false)], [Use(i, Pos(113, 32), false)] + ([Declare(e3, Pos(113, 42), Initialized)]), Block([Exprs([Call([Argument([Declare(e3, Pos(115, 42), Initialized)])])])]))] + ([For([Declare(i, Pos(118, 18), Initialized)], [Use(i, Pos(118, 25), false)], [Use(i, Pos(118, 32), false)] + ([Declare(e4, Pos(118, 42), Initialized)]), Block([Exprs([Declare(e4, Pos(120, 17), Initialized)])] + ([Exprs([Call([Argument([Use(e4, Pos(121, 38), false)])])])])))] + (rest)))), Ctx(4, [], []), tr) == WalkStmts(rest, Ctx(4, [], []), Tree(tr.scopes + [Scope(ForInit, Some(4))] + [Scope(ForLoop, Some(5))] + [Scope(EmbeddedBody, Some(6))] + [Scope(ForInit, Some(4))] + [Scope(ForLoop, Some(8))] + [Scope(EmbeddedBody, Some(9))] + [Scope(ForInit, Some(4))] + [Scope(ForLoop, Some(11))] + [Scope(BlockBody, Some(12))] + [Scope(ForInit, Some(4))] + [Scope(ForLoop, Some(14))] + [Scope(BlockBody, Some(15))], tr.events + [Declared(5, i, Pos(108, 18), Initialized, [])] + [Referenced(6, i, Pos(108, 25), false, false, [])] + [Referenced(6, i, Pos(108, 32), false, false, [0])] + [Declared(6, e1, Pos(108, 42), Initialized, [0])] + [Declared(6, e1, Pos(108, 57), Initialized, [0])] + [Declared(8, i, Pos(110, 18), Initialized, [])] + [Referenced(9, i, Pos(110, 25), false, false, [])] + [Declared(10, e2, Pos(111, 42), Initialized, [1])] + [OutAssigned(10, [], [1])] + [Referenced(9, i, Pos(110, 32), false, false, [1])] + [Declared(9, e2, Pos(110, 42), Initialized, [1])] + [Declared(11, i, Pos(113, 18), Initialized, [])] + [Referenced(12, i, Pos(113, 25), false, false, [])] + [Declared(13, e3, Pos(115, 42), Initialized, [2])] + [OutAssigned(13, [], [2])] + [Referenced(12, i, Pos(113, 32), false, false, [2])] + [Declared(12, e3, Pos(113, 42), Initialized, [2])] + [Declared(14, i, Pos(118, 18), Initialized, [])] + [Referenced(15, i, Pos(118, 25), false, false, [])] + [Declared(16, e4, Pos(120, 17), Initialized, [3])] + [Referenced(16, e4, Pos(121, 38), false, false, [3])] + [OutAssigned(16, [], [3])] + [Referenced(15, i, Pos(118, 32), false, false, [3])] + [Declared(15, e4, Pos(118, 42), Initialized, [3])], 4))
  {
    WalkStmtsCons(For([Declare(i, Pos(108, 18), Initialized)], [Use(i, Pos(108, 25), false)], [Use(i, Pos(108, 32), false)] + ([Declare(e1, Pos(108, 42), Initialized)] + ([Declare(e1, Pos(108, 57), Initialized)])), Exprs([])), [For([Declare(i, Pos(110, 18), Initialized)], [Use(i, Pos(110, 25), false)], [Use(i, Pos(110, 32), false)] + ([Declare(e2, Pos(110, 42), Initialized)]), Exprs([Call([Argument([Declare(e2, Pos(111, 42), Initialized)])])]))] + ([For([Declare(i, Pos(113, 18), Initialized)], [Use(i, Pos(113, 25), false)], [Use(i, Pos(113, 32), false)] + ([Declare(e3, Pos(113, 42), Initialized)]), Block([Exprs([Call([Argument([Declare(e3, Pos(115, 42), Initialized)])])])]))] + ([For([Declare(i, Pos(118, 18), Initialized)], [Use(i, Pos(118, 25), false)], [Use(i, Pos(118, 32), false)] + ([Declare(e4, Pos(118, 42), Initialized)]), Block([Exprs([Declare(e4, Pos(120, 17), Initialized)])] + ([Exprs([Call([Argument([Use(e4, Pos(121, 38), false)])])])])))] + (rest))), Ctx(4, [], []), tr);
    Walk2(i, e1, e2, e3, e4, f1, tr);
    assert WalkStmt(For([Declare(i, Pos(108, 18), Initialized)], [Use(i, Pos(108, 25), false)], [Use(i, Pos(108, 32), false)] + ([Declare(e1, Pos(108, 42), Initialized)] + ([Declare(e1, Pos(108, 57), Initialized)])), Exprs([])), Ctx(4, [], []), tr) == Tree(tr.scopes + [Scope(ForInit, Some(4))] + [Scope(ForLoop, Some(5))] + [Scope(EmbeddedBody, Some(6))], tr.events + [Declared(5, i, Pos(108, 18), Initialized, [])] + [Referenced(6, i, Pos(108, 25), false, false, [])] + [Referenced(6, i, Pos(108, 32), false, false, [0])] + [Declared(6, e1, Pos(108, 42), Initialized, [0])] + [Declared(6, e1, Pos(108, 57), Initialized, [0])], 1);
    WalkStmtsCons(For([Declare(i, Pos(110, 18), Initialized)], [Use(i, Pos(110, 25), false)], [Use(i, Pos(110, 32), false)] + ([Declare(e2, Pos(110, 42), Initialized)]), Exprs([Call([Argument([Declare(e2, Pos(111, 42), Initialized)])])])), [For([Declare(i, Pos(113, 18), Initialized)], [Use(i, Pos(113, 25), false)], [Use(i, Pos(113, 32), false)] + ([Declare(e3, Pos(113, 42), Initialized)]), Block([Exprs([Call([Argument([Declare(e3, Pos(115, 42), Initialized)])])])]))] + ([For([Declare(i, Pos(118, 18), Initialized)], [Use(i, Pos(118, 25), false)], [Use(i, Pos(118, 32), false)] + ([Declare(e4, Pos(118, 42), Initialized)]), Block([Exprs([Declare(e4, Pos(120, 17), Initialized)])] + ([Exprs([Call([Argument([Use(e4, Pos(121, 38), false)])])])])))] + (rest)), Ctx(4, [], []), Tree(tr.scopes + [Scope(ForInit, Some(4))] + [Scope(ForLoop, Some(5))] + [Scope(EmbeddedBody, Some(6))], tr.events + [Declared(5, i, Pos(108, 18), Initialized, [])] + [Referenced(6, i, Pos(108, 25), false, false, [])] + [Referenced(6, i, Pos(108, 32), false, false, [0])] + [Declared(6, e1, Pos(108, 42), Initialized, [0])] + [Declared(6, e1, Pos(108, 57), Initialized, [0])], 1));
    Walk3(i, e1, e2, e3, e4, f1, Tree(tr.scopes + [Scope(ForInit, Some(4))] + [Scope(ForLoop, Some(5))] + [Scope(EmbeddedBody, Some(6))], tr.events + [Declared(5, i, Pos(108, 18), Initialized, [])] + [Referenced(6, i, Pos(108, 25), false, false, [])] + [Referenced(6, i, Pos(108, 32), false, false, [0])] + [Declared(6, e1, Pos(108, 42), Initialized, [0])] + [Declared(6, e1, Pos(108, 57), Initialized, [0])], 1));
    assert WalkStmt(For([Declare(i, Pos(110, 18), Initialized)], [Use(i, Pos(110, 25), false)], [Use(i, Pos(110, 32), false)] + ([Declare(e2, Pos(110, 42), Initialized)]), Exprs([Call([Argument([Declare(e2, Pos(111, 42), Initialized)])])])), Ctx(4, [], []), Tree(tr.scopes + [Scope(ForInit, Some(4))] + [Scope(ForLoop, Some(5))] + [Scope(EmbeddedBody, Some(6))], tr.events + [Declared(5, i, Pos(108, 18), Initialized, [])] + [Referenced(6, i, Pos(108, 25), false, false, [])] + [Referenced(6, i, Pos(108, 32), false, false, [0])] + [Declared(6, e1, Pos(108, 42), Initialized, [0])] + [Declared(6, e1, Pos(108, 57), Initialized, [0])], 1)) == Tree(tr.scopes + [Scope(ForInit, Some(4))] + [Scope(ForLoop, Some(5))] + [Scope(EmbeddedBody, Some(6))] + [Scope(ForInit, Some(4))] + [Scope(ForLoop, Some(8))] + [Scope(EmbeddedBody, Some(9))], tr.events + [Declared(5, i, Pos(108, 18), Initialized, [])] + [Referenced(6, i, Pos(108, 25), false, false, [])] + [Referenced(6, i, Pos(108, 32), false, false, [0])] + [Declared(6, e1, Pos(108, 42), Initialized, [0])] + [Declared(6, e1, Pos(108, 57), Initialized, [0])] + [Declared(8, i, Pos(110, 18), Initialized, [])] + [Referenced(9, i, Pos(110, 25), false, false, [])] + [Declared(10, e2, Pos(111, 42), Initialized, [1])] + [OutAssigned(10, [], [1])] + [Referenced(9, i, Pos(110, 32), false, false, [1])] + [Declared(9, e2, Pos(110, 42), Initialized, [1])], 2);
    WalkStmtsCons(For([Declare(i, Pos(113, 18), Initialized)], [Use(i, Pos(113, 25), false)], [Use(i, Pos(113, 32), false)] + ([Declare(e3, Pos(113, 42), Initialized)]), Block([Exprs([Call([Argument([Declare(e3, Pos(115, 42), Initialized)])])])])), [For([Declare(i, Pos(118, 18), Initialized)], [Use(i, Pos(118, 25), false)], [Use(i, Pos(118, 32), false)] + ([Declare(e4, Pos(118, 42), Initialized)]), Block([Exprs([Declare(e4, Pos(120, 17), Initialized)])] + ([Exprs([Call([Argument([Use(e4, Pos(121, 38), false)])])])])))] + (rest), Ctx(4, [], []), Tree(tr.scopes + [Scope(ForInit, Some(4))] + [Scope(ForLoop, Some(5))] + [Scope(EmbeddedBody, Some(6))] + [Scope(ForInit, Some(4))] + [Scope(ForLoop, Some(8))] + [Scope(EmbeddedBody, Some(9))], tr.events + [Declared(5, i, Pos(108, 18), Initialized, [])] + [Referenced(6, i, Pos(108, 25), false, false, [])] + [Referenced(6, i, Pos(108, 32), false, false, [0])] + [Declared(6, e1, Pos(108, 42), Initialized, [0])] + [Declared(6, e1, Pos(108, 57), Initialized, [0])] + [Declared(8, i, Pos(110, 18), Initialized, [])] + [Referenced(9, i, Pos(110, 25), false, false, [])] + [Declared(10, e2, Pos(111, 42), Initialized, [1])] + [OutAssigned(10, [], [1])] + [Referenced(9, i, Pos(110, 32), false, false, [1])] + [Declared(9, e2, Pos(110, 42), Initialized, [1])], 2));
    Walk4(i, e1, e2, e3, e4, f1, Tree(tr.scopes + [Scope(ForInit, Some(4))] + [Scope(ForLoop, Some(5))] + [Scope(EmbeddedBody, Some(6))] + [Scope(ForInit, Some(4))] + [Scope(ForLoop, Some(8))] + [Scope(EmbeddedBody, Some(9))], tr.events + [Declared(5, i, Pos(108, 18), Initialized, [])] + [Referenced(6, i, Pos(108, 25), false, false, [])] + [Referenced(6, i, Pos(108, 32), false, false, [0])] + [Declared(6, e1, Pos(108, 42), Initialized, [0])] + [Declared(6, e1, Pos(108, 57), Initialized, [0])] + [Declared(8, i, Pos(110, 18), Initialized, [])] + [Referenced(9, i, Pos(110, 25), false, false, [])] + [Declared(10, e2, Pos(111, 42), Initialized, [1])] + [OutAssigned(10, [], [1])] + [Referenced(9, i, Pos(110, 32), false, false, [1])] + [Declared(9, e2, Pos(110, 42), Initialized, [1])], 2));
    assert WalkStmt(For([Declare(i, Pos(113, 18), Initialized)], [Use(i, Pos(113, 25), false)], [Use(i, Pos(113, 32), false)] + ([Declare(e3, Pos(113, 42), Initialized)]), Block([Exprs([Call([Argument([Declare(e3, Pos(115, 42), Initialized)])])])])), Ctx(4, [], []), Tree(tr.scopes + [Scope(ForInit, Some(4))] + [Scope(ForLoop, Some(5))] + [Scope(EmbeddedBody, Some(6))] + [Scope(ForInit, Some(4))] + [Scope(ForLoop, Some(8))] + [Scope(EmbeddedBody, Some(9))], tr.events + [Declared(5, i, Pos(108, 18), Initialized, [])] + [Referenced(6, i, Pos(108, 25), false, false, [])] + [Referenced(6, i, Pos(108, 32), false, false, [0])] + [Declared(6, e1, Pos(108, 42), Initialized, [0])] + [Declared(6, e1, Pos(108, 57), Initialized, [0])] + [Declared(8, i, Pos(110, 18), Initialized, [])] + [Referenced(9, i, Pos(110, 25), false, false, [])] + [Declared(10, e2, Pos(111, 42), Initialized, [1])] + [OutAssigned(10, [], [1])] + [Referenced(9, i, Pos(110, 32), false, false, [1])] + [Declared(9, e2, Pos(110, 42), Initialized, [1])], 2)) == Tree(tr.scopes + [Scope(ForInit, Some(4))] + [Scope(ForLoop, Some(5))] + [Scope(EmbeddedBody, Some(6))] + [Scope(ForInit, Some(4))] + [Scope(ForLoop, Some(8))] + [Scope(EmbeddedBody, Some(9))] + [Scope(ForInit, Some(4))] + [Scope(ForLoop, Some(11))] + [Scope(BlockBody, Some(12))], tr.events + [Declared(5, i, Pos(108, 18), Initialized, [])] + [Referenced(6, i, Pos(108, 25), false, false, [])] + [Referenced(6, i, Pos(108, 32), false, false, [0])] + [Declared(6, e1, Pos(108, 42), Initialized, [0])] + [Declared(6, e1, Pos(108, 57), Initialized, [0])] + [Declared(8, i, Pos(110, 18), Initialized, [])] + [Referenced(9, i, Pos(110, 25), false, false, [])] + [Declared(10, e2, Pos(111, 42), Initialized, [1])] + [OutAssigned(10, [], [1])] + [Referenced(9, i, Pos(110, 32), false, false, [1])] + [Declared(9, e2, Pos(110, 42), Initialized, [1])] + [Declared(11, i, Pos(113, 18), Initialized, [])] + [Referenced(12, i, Pos(113, 25), false, false, [])] + [Declared(13, e3, Pos(115, 42), Initialized, [2])] + [OutAssigned(13, [], [2])] + [Referenced(12, i, Pos(113, 32), false, false, [2])] + [Declared(12, e3, Pos(113, 42), Initialized, [2])], 3);
    WalkStmtsCons(For([Declare(i, Pos(118, 18), Initialized)], [Use(i, Pos(118, 25), false)], [Use(i, Pos(118, 32), false)] + ([Declare(e4, Pos(118, 42), Initialized)]), Block([Exprs([Declare(e4, Pos(120, 17), Initialized)])] + ([Exprs([Call([Argument([Use(e4, Pos(121, 38), false)])])])]))), rest, Ctx(4, [], []), Tree(tr.scopes + [Scope(ForInit, Some(4))] + [Scope(ForLoop, Some(5))] + [Scope(EmbeddedBody, Some(6))] + [Scope(ForInit, Some(4))] + [Scope(ForLoop, Some(8))] + [Scope(EmbeddedBody, Some(9))] + [Scope(ForInit, Some(4))] + [Scope(ForLoop, Some(11))] + [Scope(BlockBody, Some(12))], tr.events + [Declared(5, i, Pos(108, 18), Initialized, [])] + [Referenced(6, i, Pos(108, 25), false, false, [])] + [Referenced(6, i, Pos(108, 32), false, false, [0])] + [Declared(6, e1, Pos(108, 42), Initialized, [0])] + [Declared(6, e1, Pos(108, 57), Initialized, [0])] + [Declared(8, i, Pos(110, 18), Initialized, [])] + [Referenced(9, i, Pos(110, 25), false, false, [])] + [Declared(10, e2, Pos(111, 42), Initialized, [1])] + [OutAssigned(10, [], [1])] + [Referenced(9, i, Pos(110, 32), false, false, [1])] + [Declared(9, e2, Pos(110, 42), Initialized, [1])] + [Declared(11, i, Pos(113, 18), Initialized, [])] + [Referenced(12, i, Pos(113, 25), false, false, [])] + [Declared(13, e3, Pos(115, 42), Initialized, [2])] + [OutAssigned(13, [], [2])] + [Referenced(12, i, Pos(113, 32), false, false, [2])] + [Declared(12, e3, Pos(113, 42), Initialized, [2])], 3));
    Walk6(i, e1, e2, e3, e4, f1, Tree(tr.scopes + [Scope(ForInit, Some(4))] + [Scope(ForLoop, Some(5))] + [Scope(EmbeddedBody, Some(6))] + [Scope(ForInit, Some(4))] + [Scope(ForLoop, Some(8))] + [Scope(EmbeddedBody, Some(9))] + [Scope(ForInit, Some(4))] + [Scope(ForLoop, Some(11))] + [Scope(BlockBody, Some(12))], tr.events + [Declared(5, i, Pos(108, 18), Initialized, [])] + [Referenced(6, i, Pos(108, 25), false, false, [])] + [Referenced(6, i, Pos(108, 32), false, false, [0])] + [Declared(6, e1, Pos(108, 42), Initialized, [0])] + [Declared(6, e1, Pos(108, 57), Initialized, [0])] + [Declared(8, i, Pos(110, 18), Initialized, [])] + [Referenced(9, i, Pos(110, 25), false, false, [])] + [Declared(10, e2, Pos(111, 42), Initialized, [1])] + [OutAssigned(10, [], [1])] + [Referenced(9, i, Pos(110, 32), false, false, [1])] + [Declared(9, e2, Pos(110, 42), Initialized, [1])] + [Declared(11, i, Pos(113, 18), Initialized, [])] + [Referenced(12, i, Pos(113, 25), false, false, [])] + [Declared(13, e3, Pos(115, 42), Initialized, [2])] + [OutAssigned(13, [], [2])] + [Referenced(12, i, Pos(113, 32), false, false, [2])] + [Declared(12, e3, Pos(113, 42), Initialized, [2])], 3));
    assert WalkStmt(For([Declare(i, Pos(118, 18), Initialized)], [Use(i, Pos(118, 25), false)], [Use(i, Pos(118, 32), false)] + ([Declare(e4, Pos(118, 42), Initialized)]), Block([Exprs([Declare(e4, Pos(120, 17), Initialized)])] + ([Exprs([Call([Argument([Use(e4, Pos(121, 38), false)])])])]))), Ctx(4, [], []), Tree(tr.scopes + [Scope(ForInit, Some(4))] + [Scope(ForLoop, Some(5))] + [Scope(EmbeddedBody, Some(6))] + [Scope(ForInit, Some(4))] + [Scope(ForLoop, Some(8))] + [Scope(EmbeddedBody, Some(9))] + [Scope(ForInit, Some(4))] + [Scope(ForLoop, Some(11))] + [Scope(BlockBody, Some(12))], tr.events + [Declared(5, i, Pos(108, 18), Initialized, [])] + [Referenced(6, i, Pos(108, 25), false, false, [])] + [Referenced(6, i, Pos(108, 32), false, false, [0])] + [Declared(6, e1, Pos(108, 42), Initialized, [0])] + [Declared(6, e1, Pos(108, 57), Initialized, [0])] + [Declared(8, i, Pos(110, 18), Initialized, [])] + [Referenced(9, i, Pos(110, 25), false, false, [])] + [Declared(10, e2, Pos(111, 42), Initialized, [1])] + [OutAssigned(10, [], [1])] + [Referenced(9, i, Pos(110, 32), false, false, [1])] + [Declared(9, e2, Pos(110, 42), Initialized, [1])] + [Declared(11, i, Pos(113, 18), Initialized, [])] + [Referenced(12, i, Pos(113, 25), false, false, [])] + [Declared(13, e3, Pos(115, 42), Initialized, [2])] + [OutAssigned(13, [], [2])] + [Referenced(12, i, Pos(113, 32), false, false, [2])] + [Declared(12, e3, Pos(113, 42), Initialized, [2])], 3)) == Tree(tr.scopes + [Scope(ForInit, Some(4))] + [Scope(ForLoop, Some(5))] + [Scope(EmbeddedBody, Some(6))] + [Scope(ForInit, Some(4))] + [Scope(ForLoop, Some(8))] + [Scope(EmbeddedBody, Some(9))] + [Scope(ForInit, Some(4))] + [Scope(ForLoop, Some(11))] + [Scope(BlockBody, Some(12))] + [Scope(ForInit, Some(4))] + [Scope(ForLoop, Some(14))] + [Scope(BlockBody, Some(15))], tr.events + [Declared(5, i, Pos(108, 18), Initialized, [])] + [Referenced(6, i, Pos(108, 25), false, false, [])] + [Referenced(6, i, Pos(108, 32), false, false, [0])] + [Declared(6, e1, Pos(108, 42), Initialized, [0])] + [Declared(6, e1, Pos(108, 57), Initialized, [0])] + [Declared(8, i, Pos(110, 18), Initialized, [])] + [Referenced(9, i, Pos(110, 25), false, false, [])] + [Declared(10, e2, Pos(111, 42), Initialized, [1])] + [OutAssigned(10, [], [1])] + [Referenced(9, i, Pos(110, 32), false, false, [1])] + [Declared(9, e2, Pos(110, 42), Initialized, [1])] + [Declared(11, i, Pos(113, 18), Initialized, [])] + [Referenced(12, i, Pos(113, 25), false, false, [])] + [Declared(13, e3, Pos(115, 42), Initialized, [2])] + [OutAssigned(13, [], [2])] + [Referenced(12, i, Pos(113, 32), false, false, [2])] + [Declared(12, e3, Pos(113, 42), Initialized, [2])] + [Declared(14, i, Pos(118, 18), Initialized, [])] + [Referenced(15, i, Pos(118, 25), false, false, [])] + [Declared(16, e4, Pos(120, 17), Initialized, [3])] + [Referenced(16, e4, Pos(121, 38), false, false, [3])] + [OutAssigned(16, [], [3])] + [Referenced(15, i, Pos(118, 32), false, false, [3])] + [Declared(15, e4, Pos(118, 42), Initialized, [3])], 4);
  }

  lemma {:induction false} Walk10(i: string, e1: string, e2: string, e3: string, e4: string, f1: string, tr: Tree)
    requires |tr.scopes| == 17 && tr.arms == 4
    ensures WalkStmt(For([Declare(i, Pos(125, 18), Initialized)], [Use(i, Pos(125, 25), false)], [Use(i, Pos(125, 32), false)], Exprs([Call([Argument([Declare(f1, Pos(126, 43), Initialized)] + ([Declare(f1, Pos(126, 56), Initialized)]))])])), Ctx(4, [], []), tr) == Tree(tr.scopes + [Scope(ForInit, Some(4))] + [Scope(ForLoop, Some(17))] + [Scope(EmbeddedBody, Some(18))], tr.events + [Declared(17, i, Pos(125, 18), Initialized, [])] + [Referenced(18, i, Pos(125, 25), false, false, [])] + [Declared(19, f1, Pos(126, 43), Initialized, [4])] + [Declared(19, f1, Pos(126, 56), Initialized, [4])] + [OutAssigned(19, [], [4])] + [Referenced(18, i, Pos(125, 32), false, false, [4])], 5)
  {
    WalkExprsOne(Declare(i, Pos(125, 18), Initialized), Ctx(17, [], []), Tree(tr.scopes + [Scope(ForInit, Some(4))] + [Scope(ForLoop, Some(17))], tr.events, 4));
    assert WalkExpr(Declare(i, Pos(125, 18), Initialized), Ctx(17, [], []), Tree(tr.scopes + [Scope(ForInit, Some(4))] + [Scope(ForLoop, Some(17))], tr.events, 4)) == Tree(tr.scopes + [Scope(ForInit, Some(4))] + [Scope(ForLoop, Some(17))], tr.events + [Declared(17, i, Pos(125, 18), Initialized, [])], 4);
    assert WalkExprs([Declare(i, Pos(125, 18), Initialized)], Ctx(17, [], []), Tree(tr.scopes + [Scope(ForInit, Some(4))] + [Scope(ForLoop, Some(17))], tr.events, 4)) == Tree(tr.scopes + [Scope(ForInit, Some(4))] + [Scope(ForLoop, Some(17))], tr.events + [Declared(17, i, Pos(125, 18), Initialized, [])], 4);
    WalkExprsOne(Use(i, Pos(125, 25), false), Ctx(18, [], []), Tree(tr.scopes + [Scope(ForInit, Some(4))] + [Scope(ForLoop, Some(17))], tr.events + [Declared(17, i, Pos(125, 18), Initialized, [])], 4));
    assert WalkExpr(Use(i, Pos(125, 25), false), Ctx(18, [], []), Tree(tr.scopes + [Scope(ForInit, Some(4))] + [Scope(ForLoop, Some(17))], tr.events + [Declared(17, i, Pos(125, 18), Initialized, [])], 4)) == Tree(tr.scopes + [Scope(ForInit, Some(4))] + [Scope(ForLoop, Some(17))], tr.events + [Declared(17, i, Pos(125, 18), Initialized, [])] + [Referenced(18, i, Pos(125, 25), false, false, [])], 4);
    assert WalkExprs([Use(i, Pos(125, 25), false)], Ctx(18, [], []), Tree(tr.scopes + [Scope(ForInit, Some(4))] + [Scope(ForLoop, Some(17))], tr.events + [Declared(17, i, Pos(125, 18), Initialized, [])], 4)) == Tree(tr.scopes + [Scope(ForInit, Some(4))] + [Scope(ForLoop, Some(17))], tr.events + [Declared(17, i, Pos(125, 18), Initialized, [])] + [Referenced(18, i, Pos(125, 25), false, false, [])], 4);
    assert [] + [4] == [4];
    WalkExprsOne(Call([Argument([Declare(f1, Pos(126, 43), Initialized)] + ([Declare(f1, Pos(126, 56), Initialized)]))]), Ctx(19, [4], []), Tree(tr.scopes + [Scope(ForInit, Some(4))] + [Scope(ForLoop, Some(17))] + [Scope(EmbeddedBody, Some(18))], tr.events + [Declared(17, i, Pos(125, 18), Initialized, [])] + [Referenced(18, i, Pos(125, 25), false, false, [])], 5));
    assert OutNames([]) == [];
    WalkArgsOne(Argument([Declare(f1, Pos(126, 43), Initialized)] + ([Declare(f1, Pos(126, 56), Initialized)])), [], Ctx(19, [4], []), Tree(tr.scopes + [Scope(ForInit, Some(4))] + [Scope(ForLoop, Some(17))] + [Scope(EmbeddedBody, Some(18))], tr.events + [Declared(17, i, Pos(125, 18), Initialized, [])] + [Referenced(18, i, Pos(125, 25), false, false, [])], 5));
    WalkExprsCons(Declare(f1, Pos(126, 43), Initialized), [Declare(f1, Pos(126, 56), Initialized)], Ctx(19, [4], []), Tree(tr.scopes + [Scope(ForInit, Some(4))] + [Scope(ForLoop, Some(17))] + [Scope(EmbeddedBody, Some(18))], tr.events + [Declared(17, i, Pos(125, 18), Initialized, [])] + [Referenced(18, i, Pos(125, 25), false, false, [])], 5));
    assert WalkExpr(Declare(f1, Pos(126, 43), Initialized), Ctx(19, [4], []), Tree(tr.scopes + [Scope(ForInit, Some(4))] + [Scope(ForLoop, Some(17))] + [Scope(EmbeddedBody, Some(18))], tr.events + [Declared(17, i, Pos(125, 18), Initialized, [])] + [Referenced(18, i, Pos(125, 25), false, false, [])], 5)) == Tree(tr.scopes + [Scope(ForInit, Some(4))] + [Scope(ForLoop, Some(17))] + [Scope(EmbeddedBody, Some(18))], tr.events + [Declared(17, i, Pos(125, 18), Initialized, [])] + [Referenced(18, i, Pos(125, 25), false, false, [])] + [Declared(19, f1, Pos(126, 43), Initialized, [4])], 5);
    WalkExprsOne(Declare(f1, Pos(126, 56), Initialized), Ctx(19, [4], []), Tree(tr.scopes + [Scope(ForInit, Some(4))] + [Scope(ForLoop, Some(17))] + [Scope(EmbeddedBody, Some(18))], tr.events + [Declared(17, i, Pos(125, 18), Initialized, [])] + [Referenced(18, i, Pos(125, 25), false, false, [])] + [Declared(19, f1, Pos(126, 43), Initialized, [4])], 5));
    assert WalkExpr(Declare(f1, Pos(126, 56), Initialized), Ctx(19, [4], []), Tree(tr.scopes + [Scope(ForInit, Some(4))] + [Scope(ForLoop, Some(17))] + [Scope(EmbeddedBody, Some(18))], tr.events + [Declared(17, i, Pos(125, 18), Initialized, [])] + [Referenced(18, i, Pos(125, 25), false, false, [])] + [Declared(19, f1, Pos(126, 43), Initialized, [4])], 5)) == Tree(tr.scopes + [Scope(ForInit, Some(4))] + [Scope(ForLoop, Some(17))] + [Scope(EmbeddedBody, Some(18))], tr.events + [Declared(17, i, Pos(125, 18), Initialized, [])] + [Referenced(18, i, Pos(125, 25), false, false, [])] + [Declared(19, f1, Pos(126, 43), Initialized, [4])] + [Declared(19, f1, Pos(126, 56), Initialized, [4])], 5);
    assert WalkExprs([Declare(f1, Pos(126, 43), Initialized)] + ([Declare(f1, Pos(126, 56), Initialized)]), Ctx(19, [4], []), Tree(tr.scopes + [Scope(ForInit, Some(4))] + [Scope(ForLoop, Some(17))] + [Scope(EmbeddedBody, Some(18))], tr.events + [Declared(17, i, Pos(125, 18), Initialized, [])] + [Referenced(18, i, Pos(125, 25), false, false, [])], 5)) == Tree(tr.scopes + [Scope(ForInit, Some(4))] + [Scope(ForLoop, Some(17))] + [Scope(EmbeddedBody, Some(18))], tr.events + [Declared(17, i, Pos(125, 18), Initialized, [])] + [Referenced(18, i, Pos(125, 25), false, false, [])] + [Declared(19, f1, Pos(126, 43), Initialized, [4])] + [Declared(19, f1, Pos(126, 56), Initialized, [4])], 5);
    OutNamesOfCons(Declare(f1, Pos(126, 43), Initialized), [Declare(f1, Pos(126, 56), Initialized)]);
    OutNamesOfOne(Declare(f1, Pos(126, 56), Initialized));
    OutNamesSnoc([], Argument([Declare(f1, Pos(126, 43), Initialized)] + ([Declare(f1, Pos(126, 56), Initialized)])));
    assert WalkArgs([Argument([Declare(f1, Pos(126, 43), Initialized)] + ([Declare(f1, Pos(126, 56), Initialized)]))], [], Ctx(19, [4], []), Tree(tr.scopes + [Scope(ForInit, Some(4))] + [Scope(ForLoop, Some(17))] + [Scope(EmbeddedBody, Some(18))], tr.events + [Declared(17, i, Pos(125, 18), Initialized, [])] + [Referenced(18, i, Pos(125, 25), false, false, [])], 5)) == Tree(tr.scopes + [Scope(ForInit, Some(4))] + [Scope(ForLoop, Some(17))] + [Scope(EmbeddedBody, Some(18))], tr.events + [Declared(17, i, Pos(125, 18), Initialized, [])] + [Referenced(18, i, Pos(125, 25), false, false, [])] + [Declared(19, f1, Pos(126, 43), Initialized, [4])] + [Declared(19, f1, Pos(126, 56), Initialized, [4])], 5);
    assert OutNames([Argument([Declare(f1, Pos(126, 43), Initialized)] + ([Declare(f1, Pos(126, 56), Initialized)]))]) == [];
    assert WalkExpr(Call([Argument([Declare(f1, Pos(126, 43), Initialized)] + ([Declare(f1, Pos(126, 56), Initialized)]))]), Ctx(19, [4], []), Tree(tr.scopes + [Scope(ForInit, Some(4))] + [Scope(ForLoop, Some(17))] + [Scope(EmbeddedBody, Some(18))], tr.events + [Declared(17, i, Pos(125, 18), Initialized, [])] + [Referenced(18, i, Pos(125, 25), false, false, [])], 5)) == Tree(tr.scopes + [Scope(ForInit, Some(4))] + [Scope(ForLoop, Some(17))] + [Scope(EmbeddedBody, Some(18))], tr.events + [Declared(17, i, Pos(125, 18), Initialized, [])] + [Referenced(18, i, Pos(125, 25), false, false, [])] + [Declared(19, f1, Pos(126, 43), Initialized, [4])] + [Declared(19, f1, Pos(126, 56), Initialized, [4])] + [OutAssigned(19, [], [4])], 5);
    assert WalkExprs([Call([Argument([Declare(f1, Pos(126, 43), Initialized)] + ([Declare(f1, Pos(126, 56), Initialized)]))])], Ctx(19, [4], []), Tree(tr.scopes + [Scope(ForInit, Some(4))] + [Scope(ForLoop, Some(17))] + [Scope(EmbeddedBody, Some(18))], tr.events + [Declared(17, i, Pos(125, 18), Initialized, [])] + [Referenced(18, i, Pos(125, 25), false, false, [])], 5)) == Tree(tr.scopes + [Scope(ForInit, Some(4))] + [Scope(ForLoop, Some(17))] + [Scope(EmbeddedBody, Some(18))], tr.events + [Declared(17, i, Pos(125, 18), Initialized, [])] + [Referenced(18, i, Pos(125, 25), false, false, [])] + [Declared(19, f1, Pos(126, 43), Initialized, [4])] + [Declared(19, f1, Pos(126, 56), Initialized, [4])] + [OutAssigned(19, [], [4])], 5);
    assert WalkStmt(Exprs([Call([Argument([Declare(f1, Pos(126, 43), Initialized)] + ([Declare(f1, Pos(126, 56), Initialized)]))])]), Ctx(19, [4], []), Tree(tr.scopes + [Scope(ForInit, Some(4))] + [Scope(ForLoop, Some(17))] + [Scope(EmbeddedBody, Some(18))], tr.events + [Declared(17, i, Pos(125, 18), Initialized, [])] + [Referenced(18, i, Pos(125, 25), false, false, [])], 5)) == Tree(tr.scopes + [Scope(ForInit, Some(4))] + [Scope(ForLoop, Some(17))] + [Scope(EmbeddedBody, Some(18))], tr.events + [Declared(17, i, Pos(125, 18), Initialized, [])] + [Referenced(18, i, Pos(125, 25), false, false, [])] + [Declared(19, f1, Pos(126, 43), Initialized, [4])] + [Declared(19, f1, Pos(126, 56), Initialized, [4])] + [OutAssigned(19, [], [4])], 5);
    assert WalkEmbedded(Exprs([Call([Argument([Declare(f1, Pos(126, 43), Initialized)] + ([Declare(f1, Pos(126, 56), Initialized)]))])]), Ctx(18, [4], []), Tree(tr.scopes + [Scope(ForInit, Some(4))] + [Scope(ForLoop, Some(17))], tr.events + [Declared(17, i, Pos(125, 18), Initialized, [])] + [Referenced(18, i, Pos(125, 25), false, false, [])], 5)) == Tree(tr.scopes + [Scope(ForInit, Some(4))] + [Scope(ForLoop, Some(17))] + [Scope(EmbeddedBody, Some(18))], tr.events + [Declared(17, i, Pos(125, 18), Initialized, [])] + [Referenced(18, i, Pos(125, 25), false, false, [])] + [Declared(19, f1, Pos(126, 43), Initialized, [4])] + [Declared(19, f1, Pos(126, 56), Initialized, [4])] + [OutAssigned(19, [], [4])], 5);
    WalkExprsOne(Use(i, Pos(125, 32), false), Ctx(18, [4], []), Tree(tr.scopes + [Scope(ForInit, Some(4))] + [Scope(ForLoop, Some(17))] + [Scope(EmbeddedBody, Some(18))], tr.events + [Declared(17, i, Pos(125, 18), Initialized, [])] + [Referenced(18, i, Pos(125, 25), false, false, [])] + [Declared(19, f1, Pos(126, 43), Initialized, [4])] + [Declared(19, f1, Pos(126, 56), Initialized, [4])] + [OutAssigned(19, [], [4])], 5));
    assert WalkExpr(Use(i, Pos(125, 32), false), Ctx(18, [4], []), Tree(tr.scopes + [Scope(ForInit, Some(4))] + [Scope(ForLoop, Some(17))] + [Scope(EmbeddedBody, Some(18))], tr.events + [Declared(17, i, Pos(125, 18), Initialized, [])] + [Referenced(18, i, Pos(125, 25), false, false, [])] + [Declared(19, f1, Pos(126, 43), Initialized, [4])] + [Declared(19, f1, Pos(126, 56), Initialized, [4])] + [OutAssigned(19, [], [4])], 5)) == Tree(tr.scopes + [Scope(ForInit, Some(4))] + [Scope(ForLoop, Some(17))] + [Scope(EmbeddedBody, Some(18))], tr.events + [Declared(17, i, Pos(125, 18), Initialized, [])] + [Referenced(18, i, Pos(125, 25), false, false, [])] + [Declared(19, f1, Pos(126, 43), Initialized, [4])] + [Declared(19, f1, Pos(126, 56), Initialized, [4])] + [OutAssigned(19, [], [4])] + [Referenced(18, i, Pos(125, 32), false, false, [4])], 5);
    assert WalkExprs([Use(i, Pos(125, 32), false)], Ctx(18, [4], []), Tree(tr.scopes + [Scope(ForInit, Some(4))] + [Scope(ForLoop, Some(17))] + [Scope(EmbeddedBody, Some(18))], tr.events + [Declared(17, i, Pos(125, 18), Initialized, [])] + [Referenced(18, i, Pos(125, 25), false, false, [])] + [Declared(19, f1, Pos(126, 43), Initialized, [4])] + [Declared(19, f1, Pos(126, 56), Initialized, [4])] + [OutAssigned(19, [], [4])], 5)) == Tree(tr.scopes + [Scope(ForInit, Some(4))] + [Scope(ForLoop, Some(17))] + [Scope(EmbeddedBody, Some(18))], tr.events + [Declared(17, i, Pos(125, 18), Initialized, [])] + [Referenced(18, i, Pos(125, 25), false, false, [])] + [Declared(19, f1, Pos(126, 43), Initialized, [4])] + [Declared(19, f1, Pos(126, 56), Initialized, [4])] + [OutAssigned(19, [], [4])] + [Referenced(18, i, Pos(125, 32), false, false, [4])], 5);
    assert WalkStmt(For([Declare(i, Pos(125, 18), Initialized)], [Use(i, Pos(125, 25), false)], [Use(i, Pos(125, 32), false)], Exprs([Call([Argument([Declare(f1, Pos(126, 43), Initialized)] + ([Declare(f1, Pos(126, 56), Initialized)]))])])), Ctx(4, [], []), tr) == Tree(tr.scopes + [Scope(ForInit, Some(4))] + [Scope(ForLoop, Some(17))] + [Scope(EmbeddedBody, Some(18))], tr.events + [Declared(17, i, Pos(125, 18), Initialized, [])] + [Referenced(18, i, Pos(125, 25), false, false, [])] + [Declared(19, f1, Pos(126, 43), Initialized, [4])] + [Declared(19, f1, Pos(126, 56), Initialized, [4])] + [OutAssigned(19, [], [4])] + [Referenced(18, i, Pos(125, 32), false, false, [4])], 5);
  }

  lemma {:induction false} Stmts9(i: string, e1: string, e2: string, e3: string, e4: string, f1: string, tr: Tree)
    requires |tr.scopes| == 17 && tr.arms == 4
    ensures WalkStmts([For([Declare(i, Pos(125, 18), Initialized)], [Use(i, Pos(125, 25), false)], [Use(i, Pos(125, 32), false)], Exprs([Call([Argument([Declare(f1, Pos(126, 43), Initialized)] + ([Declare(f1, Pos(126, 56), Initialized)]))])]))], Ctx(4, [], []), tr) == Tree(tr.scopes + [Scope(ForInit, Some(4))] + [Scope(ForLoop, Some(17))] + [Scope(EmbeddedBody, Some(18))], tr.events + [Declared(17, i, Pos(125, 18), Initialized, [])] + [Referenced(18, i, Pos(125, 25), false, false, [])] + [Declared(19, f1, Pos(126, 43), Initialized, [4])] + [Declared(19, f1, Pos(126, 56), Initialized, [4])] + [OutAssigned(19, [], [4])] + [Referenced(18, i, Pos(125, 32), false, false, [4])], 5)
  {
    WalkStmtsOne(For([Declare(i, Pos(125, 18), Initialized)], [Use(i, Pos(125, 25), false)], [Use(i, Pos(125, 32), false)], Exprs([Call([Argument([Declare(f1, Pos(126, 43), Initialized)] + ([Declare(f1, Pos(126, 56), Initialized)]))])])), Ctx(4, [], []), tr);
    Walk10(i, e1, e2, e3, e4, f1, tr);
    assert WalkStmt(For([Declare(i, Pos(125, 18), Initialized)], [Use(i, Pos(125, 25), false)], [Use(i, Pos(125, 32), false)], Exprs([Call([Argument([Declare(f1, Pos(126, 43), Initialized)] + ([Declare(f1, Pos(126, 56), Initialized)]))])])), Ctx(4, [], []), tr) == Tree(tr.scopes + [Scope(ForInit, Some(4))] + [Scope(ForLoop, Some(17))] + [Scope(EmbeddedBody, Some(18))], tr.events + [Declared(17, i, Pos(125, 18), Initialized, [])] + [Referenced(18, i, Pos(125, 25), false, false, [])] + [Declared(19, f1, Pos(126, 43), Initialized, [4])] + [Declared(19, f1, Pos(126, 56), Initialized, [4])] + [OutAssigned(19, [], [4])] + [Referenced(18, i, Pos(125, 32), false, false, [4])], 5);
  }

  lemma {:induction false} Join0(i: string, e1: string, e2: string, e3: string, e4: string, f1: string, evs: seq<Event>)
    ensures evs + Chunk0(i, e1, e2, e3, e4, f1) == evs + [Declared(5, i, Pos(108, 18), Initialized, [])] + [Referenced(6, i, Pos(108, 25), false, false, [])] + [Referenced(6, i, Pos(108, 32), false, false, [0])] + [Declared(6, e1, Pos(108, 42), Initialized, [0])] + [Declared(6, e1, Pos(108, 57), Initialized, [0])] + [Declared(8, i, Pos(110, 18), Initialized, [])] + [Referenced(9, i, Pos(110, 25), false, false, [])] + [Declared(10, e2, Pos(111, 42), Initialized, [1])]
  {
  }

  lemma {:induction false} Join1(i: string, e1: string, e2: string, e3: string, e4: string, f1: string, evs: seq<Event>)
    ensures evs + Chunk1(i, e1, e2, e3, e4, f1) == evs + [OutAssigned(10, [], [1])] + [Referenced(9, i, Pos(110, 32), false, false, [1])] + [Declared(9, e2, Pos(110, 42), Initialized, [1])] + [Declared(11, i, Pos(113, 18), Initialized, [])] + [Referenced(12, i, Pos(113, 25), false, false, [])] + [Declared(13, e3, Pos(115, 42), Initialized, [2])] + [OutAssigned(13, [], [2])] + [Referenced(12, i, Pos(113, 32), false, false, [2])]
  {
  }

  lemma {:induction false} Join2(i: string, e1: string, e2: string, e3: string, e4: string, f1: string, evs: seq<Event>)
    ensures evs + Chunk2(i, e1, e2, e3, e4, f1) == evs + [Declared(12, e3, Pos(113, 42), Initialized, [2])] + [Declared(14, i, Pos(118, 18), Initialized, [])] + [Referenced(15, i, Pos(118, 25), false, false, [])] + [Declared(16, e4, Pos(120, 17), Initialized, [3])] + [Referenced(16, e4, Pos(121, 38), false, false, [3])] + [OutAssigned(16, [], [3])] + [Referenced(15, i, Pos(118, 32), false, false, [3])] + [Declared(15, e4, Pos(118, 42), Initialized, [3])]
  {
  }

  lemma {:induction false} Join3(i: string, e1: string, e2: string, e3: string, e4: string, f1: string, evs: seq<Event>)
    ensures evs + Chunk3(i, e1, e2, e3, e4, f1) == evs + [Declared(17, i, Pos(125, 18), Initialized, [])] + [Referenced(18, i, Pos(125, 25), false, false, [])] + [Declared(19, f1, Pos(126, 43), Initialized, [4])] + [Declared(19, f1, Pos(126, 56), Initialized, [4])] + [OutAssigned(19, [], [4])] + [Referenced(18, i, Pos(125, 32), false, false, [4])]
  {
  }

  /** The trace, event by event. */
  lemma {:induction false} Flat(i: string, e1: string, e2: string, e3: string, e4: string, f1: string)
    ensures [] + [Declared(5, i, Pos(108, 18), Initialized, [])] + [Referenced(6, i, Pos(108, 25), false, false, [])] + [Referenced(6, i, Pos(108, 32), false, false, [0])] + [Declared(6, e1, Pos(108, 42), Initialized, [0])] + [Declared(6, e1, Pos(108, 57), Initialized, [0])] + [Declared(8, i, Pos(110, 18), Initialized, [])] + [Referenced(9, i, Pos(110, 25), false, false, [])] + [Declared(10, e2, Pos(111, 42), Initialized, [1])] + [OutAssigned(10, [], [1])] + [Referenced(9, i, Pos(110, 32), false, false, [1])] + [Declared(9, e2, Pos(110, 42), Initialized, [1])] + [Declared(11, i, Pos(113, 18), Initialized, [])] + [Referenced(12, i, Pos(113, 25), false, false, [])] + [Declared(13, e3, Pos(115, 42), Initialized, [2])] + [OutAssigned(13, [], [2])] + [Referenced(12, i, Pos(113, 32), false, false, [2])] + [Declared(12, e3, Pos(113, 42), Initialized, [2])] + [Declared(14, i, Pos(118, 18), Initialized, [])] + [Referenced(15, i, Pos(118, 25), false, false, [])] + [Declared(16, e4, Pos(120, 17), Initialized, [3])] + [Referenced(16, e4, Pos(121, 38), false, false, [3])] + [OutAssigned(16, [], [3])] + [Referenced(15, i, Pos(118, 32), false, false, [3])] + [Declared(15, e4, Pos(118, 42), Initialized, [3])] + [Declared(17, i, Pos(125, 18), Initialized, [])] + [Referenced(18, i, Pos(125, 25), false, false, [])] + [Declared(19, f1, Pos(126, 43), Initialized, [4])] + [Declared(19, f1, Pos(126, 56), Initialized, [4])] + [OutAssigned(19, [], [4])] + [Referenced(18, i, Pos(125, 32), false, false, [4])] == Trace(i, e1, e2, e3, e4, f1)
  {
    Join0(i, e1, e2, e3, e4, f1, []);
    Join1(i, e1, e2, e3, e4, f1, [] + Chunk0(i, e1, e2, e3, e4, f1));
    Join2(i, e1, e2, e3, e4, f1, [] + Chunk0(i, e1, e2, e3, e4, f1) + Chunk1(i, e1, e2, e3, e4, f1));
    Join3(i, e1, e2, e3, e4, f1, [] + Chunk0(i, e1, e2, e3, e4, f1) + Chunk1(i, e1, e2, e3, e4, f1) + Chunk2(i, e1, e2, e3, e4, f1));
  }

  lemma {:induction false} Walked(i: string, e1: string, e2: string, e3: string, e4: string, f1: string)
    ensures Build(Program(i, e1, e2, e3, e4, f1)) == Tree(Layout(), Trace(i, e1, e2, e3, e4, f1), 5)
  {
    MainBuild(Body(i, e1, e2, e3, e4, f1));
    Stmts1(i, e1, e2, e3, e4, f1, MainHead(), [For([Declare(i, Pos(125, 18), Initialized)], [Use(i, Pos(125, 25), false)], [Use(i, Pos(125, 32), false)], Exprs([Call([Argument([Declare(f1, Pos(126, 43), Initialized)] + ([Declare(f1, Pos(126, 56), Initialized)]))])]))]);
    Stmts9(i, e1, e2, e3, e4, f1, Tree(MainHead().scopes + [Scope(ForInit, Some(4))] + [Scope(ForLoop, Some(5))] + [Scope(EmbeddedBody, Some(6))] + [Scope(ForInit, Some(4))] + [Scope(ForLoop, Some(8))] + [Scope(EmbeddedBody, Some(9))] + [Scope(ForInit, Some(4))] + [Scope(ForLoop, Some(11))] + [Scope(BlockBody, Some(12))] + [Scope(ForInit, Some(4))] + [Scope(ForLoop, Some(14))] + [Scope(BlockBody, Some(15))], MainHead().events + [Declared(5, i, Pos(108, 18), Initialized, [])] + [Referenced(6, i, Pos(108, 25), false, false, [])] + [Referenced(6, i, Pos(108, 32), false, false, [0])] + [Declared(6, e1, Pos(108, 42), Initialized, [0])] + [Declared(6, e1, Pos(108, 57), Initialized, [0])] + [Declared(8, i, Pos(110, 18), Initialized, [])] + [Referenced(9, i, Pos(110, 25), false, false, [])] + [Declared(10, e2, Pos(111, 42), Initialized, [1])] + [OutAssigned(10, [], [1])] + [Referenced(9, i, Pos(110, 32), false, false, [1])] + [Declared(9, e2, Pos(110, 42), Initialized, [1])] + [Declared(11, i, Pos(113, 18), Initialized, [])] + [Referenced(12, i, Pos(113, 25), false, false, [])] + [Declared(13, e3, Pos(115, 42), Initialized, [2])] + [OutAssigned(13, [], [2])] + [Referenced(12, i, Pos(113, 32), false, false, [2])] + [Declared(12, e3, Pos(113, 42), Initialized, [2])] + [Declared(14, i, Pos(118, 18), Initialized, [])] + [Referenced(15, i, Pos(118, 25), false, false, [])] + [Declared(16, e4, Pos(120, 17), Initialized, [3])] + [Referenced(16, e4, Pos(121, 38), false, false, [3])] + [OutAssigned(16, [], [3])] + [Referenced(15, i, Pos(118, 32), false, false, [3])] + [Declared(15, e4, Pos(118, 42), Initialized, [3])], 4));
    LayoutFlat();
    Flat(i, e1, e2, e3, e4, f1);
  }

  /** The locals events of chunk `ck` declare in scope `sc`, in order. */
  function NewIn(i: string, e1: string, e2: string, e3: string, e4: string, f1: string, ck: nat, sc: nat): seq<Local> {
    if ck == 0 then
      if sc == 5 then [] + [Local(i, Pos(108, 18))]
      else if sc == 6 then [] + [Local(e1, Pos(108, 42))] + [Local(e1, Pos(108, 57))]
      else if sc == 8 then [] + [Local(i, Pos(110, 18))]
      else if sc == 10 then [] + [Local(e2, Pos(111, 42))]
      else []
    else if ck == 1 then
      if sc == 9 then [] + [Local(e2, Pos(110, 42))]
      else if sc == 11 then [] + [Local(i, Pos(113, 18))]
      else if sc == 13 then [] + [Local(e3, Pos(115, 42))]
      else []
    else if ck == 2 then
      if sc == 12 then [] + [Local(e3, Pos(113, 42))]
      else if sc == 14 then [] + [Local(i, Pos(118, 18))]
      else if sc == 16 then [] + [Local(e4, Pos(120, 17))]
      else if sc == 15 then [] + [Local(e4, Pos(118, 42))]
      else []
    else if ck == 3 then
      if sc == 17 then [] + [Local(i, Pos(125, 18))]
      else if sc == 19 then [] + [Local(f1, Pos(126, 43))] + [Local(f1, Pos(126, 56))]
      else []
    else []
  }

  /** The locals the first `ck` chunks declare in scope `sc`, in order. */
  function DeclaredBy(i: string, e1: string, e2: string, e3: string, e4: string, f1: string, ck: nat, sc: nat): seq<Local>
    decreases ck
  {
    if ck == 0 then [] else DeclaredBy(i, e1, e2, e3, e4, f1, ck - 1, sc) + NewIn(i, e1, e2, e3, e4, f1, ck - 1, sc)
  }

  /** The locals declared once events 0 to 7 follow some events. */
  lemma {:induction false} Decls0(i: string, e1: string, e2: string, e3: string, e4: string, f1: string, evs: seq<Event>, sc: nat)
    requires DeclsIn(evs, sc) == DeclaredBy(i, e1, e2, e3, e4, f1, 0, sc)
    ensures DeclsIn(evs + Chunk0(i, e1, e2, e3, e4, f1), sc) == DeclaredBy(i, e1, e2, e3, e4, f1, 1, sc)
  {
    DeclsInAppend(evs, Chunk0(i, e1, e2, e3, e4, f1), sc);
    assert DeclsIn([], sc) == [];
    if sc == 5 {
      DeclsInAdd([], Declared(5, i, Pos(108, 18), Initialized, []), 5);
      DeclsInSkip([] + [Declared(5, i, Pos(108, 18), Initialized, [])], Referenced(6, i, Pos(108, 25), false, false, []), 5);
      DeclsInSkip([] + [Declared(5, i, Pos(108, 18), Initialized, [])] + [Referenced(6, i, Pos(108, 25), false, false, [])], Referenced(6, i, Pos(108, 32), false, false, [0]), 5);
      DeclsInSkip([] + [Declared(5, i, Pos(108, 18), Initialized, [])] + [Referenced(6, i, Pos(108, 25), false, false, [])] + [Referenced(6, i, Pos(108, 32), false, false, [0])], Declared(6, e1, Pos(108, 42), Initialized, [0]), 5);
      DeclsInSkip([] + [Declared(5, i, Pos(108, 18), Initialized, [])] + [Referenced(6, i, Pos(108, 25), false, false, [])] + [Referenced(6, i, Pos(108, 32), false, false, [0])] + [Declared(6, e1, Pos(108, 42), Initialized, [0])], Declared(6, e1, Pos(108, 57), Initialized, [0]), 5);
      DeclsInSkip([] + [Declared(5, i, Pos(108, 18), Initialized, [])] + [Referenced(6, i, Pos(108, 25), false, false, [])] + [Referenced(6, i, Pos(108, 32), false, false, [0])] + [Declared(6, e1, Pos(108, 42), Initialized, [0])] + [Declared(6, e1, Pos(108, 57), Initialized, [0])], Declared(8, i, Pos(110, 18), Initialized, []), 5);
      DeclsInSkip([] + [Declared(5, i, Pos(108, 18), Initialized, [])] + [Referenced(6, i, Pos(108, 25), false, false, [])] + [Referenced(6, i, Pos(108, 32), false, false, [0])] + [Declared(6, e1, Pos(108, 42), Initialized, [0])] + [Declared(6, e1, Pos(108, 57), Initialized, [0])] + [Declared(8, i, Pos(110, 18), Initialized, [])], Referenced(9, i, Pos(110, 25), false, false, []), 5);
      DeclsInSkip([] + [Declared(5, i, Pos(108, 18), Initialized, [])] + [Referenced(6, i, Pos(108, 25), false, false, [])] + [Referenced(6, i, Pos(108, 32), false, false, [0])] + [Declared(6, e1, Pos(108, 42), Initialized, [0])] + [Declared(6, e1, Pos(108, 57), Initialized, [0])] + [Declared(8, i, Pos(110, 18), Initialized, [])] + [Referenced(9, i, Pos(110, 25), false, false, [])], Declared(10, e2, Pos(111, 42), Initialized, [1]), 5);
    } else if sc == 6 {
      DeclsInSkip([], Declared(5, i, Pos(108, 18), Initialized, []), 6);
      DeclsInSkip([] + [Declared(5, i, Pos(108, 18), Initialized, [])], Referenced(6, i, Pos(108, 25), false, false, []), 6);
      DeclsInSkip([] + [Declared(5, i, Pos(108, 18), Initialized, [])] + [Referenced(6, i, Pos(108, 25), false, false, [])], Referenced(6, i, Pos(108, 32), false, false, [0]), 6);
      DeclsInAdd([] + [Declared(5, i, Pos(108, 18), Initialized, [])] + [Referenced(6, i, Pos(108, 25), false, false, [])] + [Referenced(6, i, Pos(108, 32), false, false, [0])], Declared(6, e1, Pos(108, 42), Initialized, [0]), 6);
      DeclsInAdd([] + [Declared(5, i, Pos(108, 18), Initialized, [])] + [Referenced(6, i, Pos(108, 25), false, false, [])] + [Referenced(6, i, Pos(108, 32), false, false, [0])] + [Declared(6, e1, Pos(108, 42), Initialized, [0])], Declared(6, e1, Pos(108, 57), Initialized, [0]), 6);
      DeclsInSkip([] + [Declared(5, i, Pos(108, 18), Initialized, [])] + [Referenced(6, i, Pos(108, 25), false, false, [])] + [Referenced(6, i, Pos(108, 32), false, false, [0])] + [Declared(6, e1, Pos(108, 42), Initialized, [0])] + [Declared(6, e1, Pos(108, 57), Initialized, [0])], Declared(8, i, Pos(110, 18), Initialized, []), 6);
      DeclsInSkip([] + [Declared(5, i, Pos(108, 18), Initialized, [])] + [Referenced(6, i, Pos(108, 25), false, false, [])] + [Referenced(6, i, Pos(108, 32), false, false, [0])] + [Declared(6, e1, Pos(108, 42), Initialized, [0])] + [Declared(6, e1, Pos(108, 57), Initialized, [0])] + [Declared(8, i, Pos(110, 18), Initialized, [])], Referenced(9, i, Pos(110, 25), false, false, []), 6);
      DeclsInSkip([] + [Declared(5, i, Pos(108, 18), Initialized, [])] + [Referenced(6, i, Pos(108, 25), false, false, [])] + [Referenced(6, i, Pos(108, 32), false, false, [0])] + [Declared(6, e1, Pos(108, 42), Initialized, [0])] + [Declared(6, e1, Pos(108, 57), Initialized, [0])] + [Declared(8, i, Pos(110, 18), Initialized, [])] + [Referenced(9, i, Pos(110, 25), false, false, [])], Declared(10, e2, Pos(111, 42), Initialized, [1]), 6);
    } else if sc == 8 {
      DeclsInSkip([], Declared(5, i, Pos(108, 18), Initialized, []), 8);
      DeclsInSkip([] + [Declared(5, i, Pos(108, 18), Initialized, [])], Referenced(6, i, Pos(108, 25), false, false, []), 8);
      DeclsInSkip([] + [Declared(5, i, Pos(108, 18), Initialized, [])] + [Referenced(6, i, Pos(108, 25), false, false, [])], Referenced(6, i, Pos(108, 32), false, false, [0]), 8);
      DeclsInSkip([] + [Declared(5, i, Pos(108, 18), Initialized, [])] + [Referenced(6, i, Pos(108, 25), false, false, [])] + [Referenced(6, i, Pos(108, 32), false, false, [0])], Declared(6, e1, Pos(108, 42), Initialized, [0]), 8);
      DeclsInSkip([] + [Declared(5, i, Pos(108, 18), Initialized, [])] + [Referenced(6, i, Pos(108, 25), false, false, [])] + [Referenced(6, i, Pos(108, 32), false, false, [0])] + [Declared(6, e1, Pos(108, 42), Initialized, [0])], Declared(6, e1, Pos(108, 57), Initialized, [0]), 8);
      DeclsInAdd([] + [Declared(5, i, Pos(108, 18), Initialized, [])] + [Referenced(6, i, Pos(108, 25), false, false, [])] + [Referenced(6, i, Pos(108, 32), false, false, [0])] + [Declared(6, e1, Pos(108, 42), Initialized, [0])] + [Declared(6, e1, Pos(108, 57), Initialized, [0])], Declared(8, i, Pos(110, 18), Initialized, []), 8);
      DeclsInSkip([] + [Declared(5, i, Pos(108, 18), Initialized, [])] + [Referenced(6, i, Pos(108, 25), false, false, [])] + [Referenced(6, i, Pos(108, 32), false, false, [0])] + [Declared(6, e1, Pos(108, 42), Initialized, [0])] + [Declared(6, e1, Pos(108, 57), Initialized, [0])] + [Declared(8, i, Pos(110, 18), Initialized, [])], Referenced(9, i, Pos(110, 25), false, false, []), 8);
      DeclsInSkip([] + [Declared(5, i, Pos(108, 18), Initialized, [])] + [Referenced(6, i, Pos(108, 25), false, false, [])] + [Referenced(6, i, Pos(108, 32), false, false, [0])] + [Declared(6, e1, Pos(108, 42), Initialized, [0])] + [Declared(6, e1, Pos(108, 57), Initialized, [0])] + [Declared(8, i, Pos(110, 18), Initialized, [])] + [Referenced(9, i, Pos(110, 25), false, false, [])], Declared(10, e2, Pos(111, 42), Initialized, [1]), 8);
    } else if sc == 10 {
      DeclsInSkip([], Declared(5, i, Pos(108, 18), Initialized, []), 10);
      DeclsInSkip([] + [Declared(5, i, Pos(108, 18), Initialized, [])], Referenced(6, i, Pos(108, 25), false, false, []), 10);
      DeclsInSkip([] + [Declared(5, i, Pos(108, 18), Initialized, [])] + [Referenced(6, i, Pos(108, 25), false, false, [])], Referenced(6, i, Pos(108, 32), false, false, [0]), 10);
      DeclsInSkip([] + [Declared(5, i, Pos(108, 18), Initialized, [])] + [Referenced(6, i, Pos(108, 25), false, false, [])] + [Referenced(6, i, Pos(108, 32), false, false, [0])], Declared(6, e1, Pos(108, 42), Initialized, [0]), 10);
      DeclsInSkip([] + [Declared(5, i, Pos(108, 18), Initialized, [])] + [Referenced(6, i, Pos(108, 25), false, false, [])] + [Referenced(6, i, Pos(108, 32), false, false, [0])] + [Declared(6, e1, Pos(108, 42), Initialized, [0])], Declared(6, e1, Pos(108, 57), Initialized, [0]), 10);
      DeclsInSkip([] + [Declared(5, i, Pos(108, 18), Initialized, [])] + [Referenced(6, i, Pos(108, 25), false, false, [])] + [Referenced(6, i, Pos(108, 32), false, false, [0])] + [Declared(6, e1, Pos(108, 42), Initialized, [0])] + [Declared(6, e1, Pos(108, 57), Initialized, [0])], Declared(8, i, Pos(110, 18), Initialized, []), 10);
      DeclsInSkip([] + [Declared(5, i, Pos(108, 18), Initialized, [])] + [Referenced(6, i, Pos(108, 25), false, false, [])] + [Referenced(6, i, Pos(108, 32), false, false, [0])] + [Declared(6, e1, Pos(108, 42), Initialized, [0])] + [Declared(6, e1, Pos(108, 57), Initialized, [0])] + [Declared(8, i, Pos(110, 18), Initialized, [])], Referenced(9, i, Pos(110, 25), false, false, []), 10);
      DeclsInAdd([] + [Declared(5, i, Pos(108, 18), Initialized, [])] + [Referenced(6, i, Pos(108, 25), false, false, [])] + [Referenced(6, i, Pos(108, 32), false, false, [0])] + [Declared(6, e1, Pos(108, 42), Initialized, [0])] + [Declared(6, e1, Pos(108, 57), Initialized, [0])] + [Declared(8, i, Pos(110, 18), Initialized, [])] + [Referenced(9, i, Pos(110, 25), false, false, [])], Declared(10, e2, Pos(111, 42), Initialized, [1]), 10);
    } else {
      DeclsInSkip([], Declared(5, i, Pos(108, 18), Initialized, []), sc);
      DeclsInSkip([] + [Declared(5, i, Pos(108, 18), Initialized, [])], Referenced(6, i, Pos(108, 25), false, false, []), sc);
      DeclsInSkip([] + [Declared(5, i, Pos(108, 18), Initialized, [])] + [Referenced(6, i, Pos(108, 25), false, false, [])], Referenced(6, i, Pos(108, 32), false, false, [0]), sc);
      DeclsInSkip([] + [Declared(5, i, Pos(108, 18), Initialized, [])] + [Referenced(6, i, Pos(108, 25), false, false, [])] + [Referenced(6, i, Pos(108, 32), false, false, [0])], Declared(6, e1, Pos(108, 42), Initialized, [0]), sc);
      DeclsInSkip([] + [Declared(5, i, Pos(108, 18), Initialized, [])] + [Referenced(6, i, Pos(108, 25), false, false, [])] + [Referenced(6, i, Pos(108, 32), false, false, [0])] + [Declared(6, e1, Pos(108, 42), Initialized, [0])], Declared(6, e1, Pos(108, 57), Initialized, [0]), sc);
      DeclsInSkip([] + [Declared(5, i, Pos(108, 18), Initialized, [])] + [Referenced(6, i, Pos(108, 25), false, false, [])] + [Referenced(6, i, Pos(108, 32), false, false, [0])] + [Declared(6, e1, Pos(108, 42), Initialized, [0])] + [Declared(6, e1, Pos(108, 57), Initialized, [0])], Declared(8, i, Pos(110, 18), Initialized, []), sc);
      DeclsInSkip([] + [Declared(5, i, Pos(108, 18), Initialized, [])] + [Referenced(6, i, Pos(108, 25), false, false, [])] + [Referenced(6, i, Pos(108, 32), false, false, [0])] + [Declared(6, e1, Pos(108, 42), Initialized, [0])] + [Declared(6, e1, Pos(108, 57), Initialized, [0])] + [Declared(8, i, Pos(110, 18), Initialized, [])], Referenced(9, i, Pos(110, 25), false, false, []), sc);
      DeclsInSkip([] + [Declared(5, i, Pos(108, 18), Initialized, [])] + [Referenced(6, i, Pos(108, 25), false, false, [])] + [Referenced(6, i, Pos(108, 32), false, false, [0])] + [Declared(6, e1, Pos(108, 42), Initialized, [0])] + [Declared(6, e1, Pos(108, 57), Initialized, [0])] + [Declared(8, i, Pos(110, 18), Initialized, [])] + [Referenced(9, i, Pos(110, 25), false, false, [])], Declared(10, e2, Pos(111, 42), Initialized, [1]), sc);
      AppendNil(DeclsIn(evs, sc));
    }
  }

  /** The locals declared once events 8 to 15 follow some events. */
  lemma {:induction false} Decls1(i: string, e1: string, e2: string, e3: string, e4: string, f1: string, evs: seq<Event>, sc: nat)
    requires DeclsIn(evs, sc) == DeclaredBy(i, e1, e2, e3, e4, f1, 1, sc)
    ensures DeclsIn(evs + Chunk1(i, e1, e2, e3, e4, f1), sc) == DeclaredBy(i, e1, e2, e3, e4, f1, 2, sc)
  {
    DeclsInAppend(evs, Chunk1(i, e1, e2, e3, e4, f1), sc);
    assert DeclsIn([], sc) == [];
    if sc == 9 {
      DeclsInSkip([], OutAssigned(10, [], [1]), 9);
      DeclsInSkip([] + [OutAssigned(10, [], [1])], Referenced(9, i, Pos(110, 32), false, false, [1]), 9);
      DeclsInAdd([] + [OutAssigned(10, [], [1])] + [Referenced(9, i, Pos(110, 32), false, false, [1])], Declared(9, e2, Pos(110, 42), Initialized, [1]), 9);
      DeclsInSkip([] + [OutAssigned(10, [], [1])] + [Referenced(9, i, Pos(110, 32), false, false, [1])] + [Declared(9, e2, Pos(110, 42), Initialized, [1])], Declared(11, i, Pos(113, 18), Initialized, []), 9);
      DeclsInSkip([] + [OutAssigned(10, [], [1])] + [Referenced(9, i, Pos(110, 32), false, false, [1])] + [Declared(9, e2, Pos(110, 42), Initialized, [1])] + [Declared(11, i, Pos(113, 18), Initialized, [])], Referenced(12, i, Pos(113, 25), false, false, []), 9);
      DeclsInSkip([] + [OutAssigned(10, [], [1])] + [Referenced(9, i, Pos(110, 32), false, false, [1])] + [Declared(9, e2, Pos(110, 42), Initialized, [1])] + [Declared(11, i, Pos(113, 18), Initialized, [])] + [Referenced(12, i, Pos(113, 25), false, false, [])], Declared(13, e3, Pos(115, 42), Initialized, [2]), 9);
      DeclsInSkip([] + [OutAssigned(10, [], [1])] + [Referenced(9, i, Pos(110, 32), false, false, [1])] + [Declared(9, e2, Pos(110, 42), Initialized, [1])] + [Declared(11, i, Pos(113, 18), Initialized, [])] + [Referenced(12, i, Pos(113, 25), false, false, [])] + [Declared(13, e3, Pos(115, 42), Initialized, [2])], OutAssigned(13, [], [2]), 9);
      DeclsInSkip([] + [OutAssigned(10, [], [1])] + [Referenced(9, i, Pos(110, 32), false, false, [1])] + [Declared(9, e2, Pos(110, 42), Initialized, [1])] + [Declared(11, i, Pos(113, 18), Initialized, [])] + [Referenced(12, i, Pos(113, 25), false, false, [])] + [Declared(13, e3, Pos(115, 42), Initialized, [2])] + [OutAssigned(13, [], [2])], Referenced(12, i, Pos(113, 32), false, false, [2]), 9);
    } else if sc == 11 {
      DeclsInSkip([], OutAssigned(10, [], [1]), 11);
      DeclsInSkip([] + [OutAssigned(10, [], [1])], Referenced(9, i, Pos(110, 32), false, false, [1]), 11);
      DeclsInSkip([] + [OutAssigned(10, [], [1])] + [Referenced(9, i, Pos(110, 32), false, false, [1])], Declared(9, e2, Pos(110, 42), Initialized, [1]), 11);
      DeclsInAdd([] + [OutAssigned(10, [], [1])] + [Referenced(9, i, Pos(110, 32), false, false, [1])] + [Declared(9, e2, Pos(110, 42), Initialized, [1])], Declared(11, i, Pos(113, 18), Initialized, []), 11);
      DeclsInSkip([] + [OutAssigned(10, [], [1])] + [Referenced(9, i, Pos(110, 32), false, false, [1])] + [Declared(9, e2, Pos(110, 42), Initialized, [1])] + [Declared(11, i, Pos(113, 18), Initialized, [])], Referenced(12, i, Pos(113, 25), false, false, []), 11);
      DeclsInSkip([] + [OutAssigned(10, [], [1])] + [Referenced(9, i, Pos(110, 32), false, false, [1])] + [Declared(9, e2, Pos(110, 42), Initialized, [1])] + [Declared(11, i, Pos(113, 18), Initialized, [])] + [Referenced(12, i, Pos(113, 25), false, false, [])], Declared(13, e3, Pos(115, 42), Initialized, [2]), 11);
      DeclsInSkip([] + [OutAssigned(10, [], [1])] + [Referenced(9, i, Pos(110, 32), false, false, [1])] + [Declared(9, e2, Pos(110, 42), Initialized, [1])] + [Declared(11, i, Pos(113, 18), Initialized, [])] + [Referenced(12, i, Pos(113, 25), false, false, [])] + [Declared(13, e3, Pos(115, 42), Initialized, [2])], OutAssigned(13, [], [2]), 11);
      DeclsInSkip([] + [OutAssigned(10, [], [1])] + [Referenced(9, i, Pos(110, 32), false, false, [1])] + [Declared(9, e2, Pos(110, 42), Initialized, [1])] + [Declared(11, i, Pos(113, 18), Initialized, [])] + [Referenced(12, i, Pos(113, 25), false, false, [])] + [Declared(13, e3, Pos(115, 42), Initialized, [2])] + [OutAssigned(13, [], [2])], Referenced(12, i, Pos(113, 32), false, false, [2]), 11);
    } else if sc == 13 {
      DeclsInSkip([], OutAssigned(10, [], [1]), 13);
      DeclsInSkip([] + [OutAssigned(10, [], [1])], Referenced(9, i, Pos(110, 32), false, false, [1]), 13);
      DeclsInSkip([] + [OutAssigned(10, [], [1])] + [Referenced(9, i, Pos(110, 32), false, false, [1])], Declared(9, e2, Pos(110, 42), Initialized, [1]), 13);
      DeclsInSkip([] + [OutAssigned(10, [], [1])] + [Referenced(9, i, Pos(110, 32), false, false, [1])] + [Declared(9, e2, Pos(110, 42), Initialized, [1])], Declared(11, i, Pos(113, 18), Initialized, []), 13);
      DeclsInSkip([] + [OutAssigned(10, [], [1])] + [Referenced(9, i, Pos(110, 32), false, false, [1])] + [Declared(9, e2, Pos(110, 42), Initialized, [1])] + [Declared(11, i, Pos(113, 18), Initialized, [])], Referenced(12, i, Pos(113, 25), false, false, []), 13);
      DeclsInAdd([] + [OutAssigned(10, [], [1])] + [Referenced(9, i, Pos(110, 32), false, false, [1])] + [Declared(9, e2, Pos(110, 42), Initialized, [1])] + [Declared(11, i, Pos(113, 18), Initialized, [])] + [Referenced(12, i, Pos(113, 25), false, false, [])], Declared(13, e3, Pos(115, 42), Initialized, [2]), 13);
      DeclsInSkip([] + [OutAssigned(10, [], [1])] + [Referenced(9, i, Pos(110, 32), false, false, [1])] + [Declared(9, e2, Pos(110, 42), Initialized, [1])] + [Declared(11, i, Pos(113, 18), Initialized, [])] + [Referenced(12, i, Pos(113, 25), false, false, [])] + [Declared(13, e3, Pos(115, 42), Initialized, [2])], OutAssigned(13, [], [2]), 13);
      DeclsInSkip([] + [OutAssigned(10, [], [1])] + [Referenced(9, i, Pos(110, 32), false, false, [1])] + [Declared(9, e2, Pos(110, 42), Initialized, [1])] + [Declared(11, i, Pos(113, 18), Initialized, [])] + [Referenced(12, i, Pos(113, 25), false, false, [])] + [Declared(13, e3, Pos(115, 42), Initialized, [2])] + [OutAssigned(13, [], [2])], Referenced(12, i, Pos(113, 32), false, false, [2]), 13);
    } else {
      DeclsInSkip([], OutAssigned(10, [], [1]), sc);
      DeclsInSkip([] + [OutAssigned(10, [], [1])], Referenced(9, i, Pos(110, 32), false, false, [1]), sc);
      DeclsInSkip([] + [OutAssigned(10, [], [1])] + [Referenced(9, i, Pos(110, 32), false, false, [1])], Declared(9, e2, Pos(110, 42), Initialized, [1]), sc);
      DeclsInSkip([] + [OutAssigned(10, [], [1])] + [Referenced(9, i, Pos(110, 32), false, false, [1])] + [Declared(9, e2, Pos(110, 42), Initialized, [1])], Declared(11, i, Pos(113, 18), Initialized, []), sc);
      DeclsInSkip([] + [OutAssigned(10, [], [1])] + [Referenced(9, i, Pos(110, 32), false, false, [1])] + [Declared(9, e2, Pos(110, 42), Initialized, [1])] + [Declared(11, i, Pos(113, 18), Initialized, [])], Referenced(12, i, Pos(113, 25), false, false, []), sc);
      DeclsInSkip([] + [OutAssigned(10, [], [1])] + [Referenced(9, i, Pos(110, 32), false, false, [1])] + [Declared(9, e2, Pos(110, 42), Initialized, [1])] + [Declared(11, i, Pos(113, 18), Initialized, [])] + [Referenced(12, i, Pos(113, 25), false, false, [])], Declared(13, e3, Pos(115, 42), Initialized, [2]), sc);
      DeclsInSkip([] + [OutAssigned(10, [], [1])] + [Referenced(9, i, Pos(110, 32), false, false, [1])] + [Declared(9, e2, Pos(110, 42), Initialized, [1])] + [Declared(11, i, Pos(113, 18), Initialized, [])] + [Referenced(12, i, Pos(113, 25), false, false, [])] + [Declared(13, e3, Pos(115, 42), Initialized, [2])], OutAssigned(13, [], [2]), sc);
      DeclsInSkip([] + [OutAssigned(10, [], [1])] + [Referenced(9, i, Pos(110, 32), false, false, [1])] + [Declared(9, e2, Pos(110, 42), Initialized, [1])] + [Declared(11, i, Pos(113, 18), Initialized, [])] + [Referenced(12, i, Pos(113, 25), false, false, [])] + [Declared(13, e3, Pos(115, 42), Initialized, [2])] + [OutAssigned(13, [], [2])], Referenced(12, i, Pos(113, 32), false, false, [2]), sc);
      AppendNil(DeclsIn(evs, sc));
    }
  }

  /** The locals declared once events 16 to 23 follow some events. */
  lemma {:induction false} Decls2(i: string, e1: string, e2: string, e3: string, e4: string, f1: string, evs: seq<Event>, sc: nat)
    requires DeclsIn(evs, sc) == DeclaredBy(i, e1, e2, e3, e4, f1, 2, sc)
    ensures DeclsIn(evs + Chunk2(i, e1, e2, e3, e4, f1), sc) == DeclaredBy(i, e1, e2, e3, e4, f1, 3, sc)
  {
    DeclsInAppend(evs, Chunk2(i, e1, e2, e3, e4, f1), sc);
    assert DeclsIn([], sc) == [];
    if sc == 12 {
      DeclsInAdd([], Declared(12, e3, Pos(113, 42), Initialized, [2]), 12);
      DeclsInSkip([] + [Declared(12, e3, Pos(113, 42), Initialized, [2])], Declared(14, i, Pos(118, 18), Initialized, []), 12);
      DeclsInSkip([] + [Declared(12, e3, Pos(113, 42), Initialized, [2])] + [Declared(14, i, Pos(118, 18), Initialized, [])], Referenced(15, i, Pos(118, 25), false, false, []), 12);
      DeclsInSkip([] + [Declared(12, e3, Pos(113, 42), Initialized, [2])] + [Declared(14, i, Pos(118, 18), Initialized, [])] + [Referenced(15, i, Pos(118, 25), false, false, [])], Declared(16, e4, Pos(120, 17), Initialized, [3]), 12);
      DeclsInSkip([] + [Declared(12, e3, Pos(113, 42), Initialized, [2])] + [Declared(14, i, Pos(118, 18), Initialized, [])] + [Referenced(15, i, Pos(118, 25), false, false, [])] + [Declared(16, e4, Pos(120, 17), Initialized, [3])], Referenced(16, e4, Pos(121, 38), false, false, [3]), 12);
      DeclsInSkip([] + [Declared(12, e3, Pos(113, 42), Initialized, [2])] + [Declared(14, i, Pos(118, 18), Initialized, [])] + [Referenced(15, i, Pos(118, 25), false, false, [])] + [Declared(16, e4, Pos(120, 17), Initialized, [3])] + [Referenced(16, e4, Pos(121, 38), false, false, [3])], OutAssigned(16, [], [3]), 12);
      DeclsInSkip([] + [Declared(12, e3, Pos(113, 42), Initialized, [2])] + [Declared(14, i, Pos(118, 18), Initialized, [])] + [Referenced(15, i, Pos(118, 25), false, false, [])] + [Declared(16, e4, Pos(120, 17), Initialized, [3])] + [Referenced(16, e4, Pos(121, 38), false, false, [3])] + [OutAssigned(16, [], [3])], Referenced(15, i, Pos(118, 32), false, false, [3]), 12);
      DeclsInSkip([] + [Declared(12, e3, Pos(113, 42), Initialized, [2])] + [Declared(14, i, Pos(118, 18), Initialized, [])] + [Referenced(15, i, Pos(118, 25), false, false, [])] + [Declared(16, e4, Pos(120, 17), Initialized, [3])] + [Referenced(16, e4, Pos(121, 38), false, false, [3])] + [OutAssigned(16, [], [3])] + [Referenced(15, i, Pos(118, 32), false, false, [3])], Declared(15, e4, Pos(118, 42), Initialized, [3]), 12);
    } else if sc == 14 {
      DeclsInSkip([], Declared(12, e3, Pos(113, 42), Initialized, [2]), 14);
      DeclsInAdd([] + [Declared(12, e3, Pos(113, 42), Initialized, [2])], Declared(14, i, Pos(118, 18), Initialized, []), 14);
      DeclsInSkip([] + [Declared(12, e3, Pos(113, 42), Initialized, [2])] + [Declared(14, i, Pos(118, 18), Initialized, [])], Referenced(15, i, Pos(118, 25), false, false, []), 14);
      DeclsInSkip([] + [Declared(12, e3, Pos(113, 42), Initialized, [2])] + [Declared(14, i, Pos(118, 18), Initialized, [])] + [Referenced(15, i, Pos(118, 25), false, false, [])], Declared(16, e4, Pos(120, 17), Initialized, [3]), 14);
      DeclsInSkip([] + [Declared(12, e3, Pos(113, 42), Initialized, [2])] + [Declared(14, i, Pos(118, 18), Initialized, [])] + [Referenced(15, i, Pos(118, 25), false, false, [])] + [Declared(16, e4, Pos(120, 17), Initialized, [3])], Referenced(16, e4, Pos(121, 38), false, false, [3]), 14);
      DeclsInSkip([] + [Declared(12, e3, Pos(113, 42), Initialized, [2])] + [Declared(14, i, Pos(118, 18), Initialized, [])] + [Referenced(15, i, Pos(118, 25), false, false, [])] + [Declared(16, e4, Pos(120, 17), Initialized, [3])] + [Referenced(16, e4, Pos(121, 38), false, false, [3])], OutAssigned(16, [], [3]), 14);
      DeclsInSkip([] + [Declared(12, e3, Pos(113, 42), Initialized, [2])] + [Declared(14, i, Pos(118, 18), Initialized, [])] + [Referenced(15, i, Pos(118, 25), false, false, [])] + [Declared(16, e4, Pos(120, 17), Initialized, [3])] + [Referenced(16, e4, Pos(121, 38), false, false, [3])] + [OutAssigned(16, [], [3])], Referenced(15, i, Pos(118, 32), false, false, [3]), 14);
      DeclsInSkip([] + [Declared(12, e3, Pos(113, 42), Initialized, [2])] + [Declared(14, i, Pos(118, 18), Initialized, [])] + [Referenced(15, i, Pos(118, 25), false, false, [])] + [Declared(16, e4, Pos(120, 17), Initialized, [3])] + [Referenced(16, e4, Pos(121, 38), false, false, [3])] + [OutAssigned(16, [], [3])] + [Referenced(15, i, Pos(118, 32), false, false, [3])], Declared(15, e4, Pos(118, 42), Initialized, [3]), 14);
    } else if sc == 16 {
      DeclsInSkip([], Declared(12, e3, Pos(113, 42), Initialized, [2]), 16);
      DeclsInSkip([] + [Declared(12, e3, Pos(113, 42), Initialized, [2])], Declared(14, i, Pos(118, 18), Initialized, []), 16);
      DeclsInSkip([] + [Declared(12, e3, Pos(113, 42), Initialized, [2])] + [Declared(14, i, Pos(118, 18), Initialized, [])], Referenced(15, i, Pos(118, 25), false, false, []), 16);
      DeclsInAdd([] + [Declared(12, e3, Pos(113, 42), Initialized, [2])] + [Declared(14, i, Pos(118, 18), Initialized, [])] + [Referenced(15, i, Pos(118, 25), false, false, [])], Declared(16, e4, Pos(120, 17), Initialized, [3]), 16);
      DeclsInSkip([] + [Declared(12, e3, Pos(113, 42), Initialized, [2])] + [Declared(14, i, Pos(118, 18), Initialized, [])] + [Referenced(15, i, Pos(118, 25), false, false, [])] + [Declared(16, e4, Pos(120, 17), Initialized, [3])], Referenced(16, e4, Pos(121, 38), false, false, [3]), 16);
      DeclsInSkip([] + [Declared(12, e3, Pos(113, 42), Initialized, [2])] + [Declared(14, i, Pos(118, 18), Initialized, [])] + [Referenced(15, i, Pos(118, 25), false, false, [])] + [Declared(16, e4, Pos(120, 17), Initialized, [3])] + [Referenced(16, e4, Pos(121, 38), false, false, [3])], OutAssigned(16, [], [3]), 16);
      DeclsInSkip([] + [Declared(12, e3, Pos(113, 42), Initialized, [2])] + [Declared(14, i, Pos(118, 18), Initialized, [])] + [Referenced(15, i, Pos(118, 25), false, false, [])] + [Declared(16, e4, Pos(120, 17), Initialized, [3])] + [Referenced(16, e4, Pos(121, 38), false, false, [3])] + [OutAssigned(16, [], [3])], Referenced(15, i, Pos(118, 32), false, false, [3]), 16);
      DeclsInSkip([] + [Declared(12, e3, Pos(113, 42), Initialized, [2])] + [Declared(14, i, Pos(118, 18), Initialized, [])] + [Referenced(15, i, Pos(118, 25), false, false, [])] + [Declared(16, e4, Pos(120, 17), Initialized, [3])] + [Referenced(16, e4, Pos(121, 38), false, false, [3])] + [OutAssigned(16, [], [3])] + [Referenced(15, i, Pos(118, 32), false, false, [3])], Declared(15, e4, Pos(118, 42), Initialized, [3]), 16);
    } else if sc == 15 {
      DeclsInSkip([], Declared(12, e3, Pos(113, 42), Initialized, [2]), 15);
      DeclsInSkip([] + [Declared(12, e3, Pos(113, 42), Initialized, [2])], Declared(14, i, Pos(118, 18), Initialized, []), 15);
      DeclsInSkip([] + [Declared(12, e3, Pos(113, 42), Initialized, [2])] + [Declared(14, i, Pos(118, 18), Initialized, [])], Referenced(15, i, Pos(118, 25), false, false, []), 15);
      DeclsInSkip([] + [Declared(12, e3, Pos(113, 42), Initialized, [2])] + [Declared(14, i, Pos(118, 18), Initialized, [])] + [Referenced(15, i, Pos(118, 25), false, false, [])], Declared(16, e4, Pos(120, 17), Initialized, [3]), 15);
      DeclsInSkip([] + [Declared(12, e3, Pos(113, 42), Initialized, [2])] + [Declared(14, i, Pos(118, 18), Initialized, [])] + [Referenced(15, i, Pos(118, 25), false, false, [])] + [Declared(16, e4, Pos(120, 17), Initialized, [3])], Referenced(16, e4, Pos(121, 38), false, false, [3]), 15);
      DeclsInSkip([] + [Declared(12, e3, Pos(113, 42), Initialized, [2])] + [Declared(14, i, Pos(118, 18), Initialized, [])] + [Referenced(15, i, Pos(118, 25), false, false, [])] + [Declared(16, e4, Pos(120, 17), Initialized, [3])] + [Referenced(16, e4, Pos(121, 38), false, false, [3])], OutAssigned(16, [], [3]), 15);
      DeclsInSkip([] + [Declared(12, e3, Pos(113, 42), Initialized, [2])] + [Declared(14, i, Pos(118, 18), Initialized, [])] + [Referenced(15, i, Pos(118, 25), false, false, [])] + [Declared(16, e4, Pos(120, 17), Initialized, [3])] + [Referenced(16, e4, Pos(121, 38), false, false, [3])] + [OutAssigned(16, [], [3])], Referenced(15, i, Pos(118, 32), false, false, [3]), 15);
      DeclsInAdd([] + [Declared(12, e3, Pos(113, 42), Initialized, [2])] + [Declared(14, i, Pos(118, 18), Initialized, [])] + [Referenced(15, i, Pos(118, 25), false, false, [])] + [Declared(16, e4, Pos(120, 17), Initialized, [3])] + [Referenced(16, e4, Pos(121, 38), false, false, [3])] + [OutAssigned(16, [], [3])] + [Referenced(15, i, Pos(118, 32), false, false, [3])], Declared(15, e4, Pos(118, 42), Initialized, [3]), 15);
    } else {
      DeclsInSkip([], Declared(12, e3, Pos(113, 42), Initialized, [2]), sc);
      DeclsInSkip([] + [Declared(12, e3, Pos(113, 42), Initialized, [2])], Declared(14, i, Pos(118, 18), Initialized, []), sc);
      DeclsInSkip([] + [Declared(12, e3, Pos(113, 42), Initialized, [2])] + [Declared(14, i, Pos(118, 18), Initialized, [])], Referenced(15, i, Pos(118, 25), false, false, []), sc);
      DeclsInSkip([] + [Declared(12, e3, Pos(113, 42), Initialized, [2])] + [Declared(14, i, Pos(118, 18), Initialized, [])] + [Referenced(15, i, Pos(118, 25), false, false, [])], Declared(16, e4, Pos(120, 17), Initialized, [3]), sc);
      DeclsInSkip([] + [Declared(12, e3, Pos(113, 42), Initialized, [2])] + [Declared(14, i, Pos(118, 18), Initialized, [])] + [Referenced(15, i, Pos(118, 25), false, false, [])] + [Declared(16, e4, Pos(120, 17), Initialized, [3])], Referenced(16, e4, Pos(121, 38), false, false, [3]), sc);
      DeclsInSkip([] + [Declared(12, e3, Pos(113, 42), Initialized, [2])] + [Declared(14, i, Pos(118, 18), Initialized, [])] + [Referenced(15, i, Pos(118, 25), false, false, [])] + [Declared(16, e4, Pos(120, 17), Initialized, [3])] + [Referenced(16, e4, Pos(121, 38), false, false, [3])], OutAssigned(16, [], [3]), sc);
      DeclsInSkip([] + [Declared(12, e3, Pos(113, 42), Initialized, [2])] + [Declared(14, i, Pos(118, 18), Initialized, [])] + [Referenced(15, i, Pos(118, 25), false, false, [])] + [Declared(16, e4, Pos(120, 17), Initialized, [3])] + [Referenced(16, e4, Pos(121, 38), false, false, [3])] + [OutAssigned(16, [], [3])], Referenced(15, i, Pos(118, 32), false, false, [3]), sc);
      DeclsInSkip([] + [Declared(12, e3, Pos(113, 42), Initialized, [2])] + [Declared(14, i, Pos(118, 18), Initialized, [])] + [Referenced(15, i, Pos(118, 25), false, false, [])] + [Declared(16, e4, Pos(120, 17), Initialized, [3])] + [Referenced(16, e4, Pos(121, 38), false, false, [3])] + [OutAssigned(16, [], [3])] + [Referenced(15, i, Pos(118, 32), false, false, [3])], Declared(15, e4, Pos(118, 42), Initialized, [3]), sc);
      AppendNil(DeclsIn(evs, sc));
    }
  }

  /** The locals declared once events 24 to 29 follow some events. */
  lemma {:induction false} Decls3(i: string, e1: string, e2: string, e3: string, e4: string, f1: string, evs: seq<Event>, sc: nat)
    requires DeclsIn(evs, sc) == DeclaredBy(i, e1, e2, e3, e4, f1, 3, sc)
    ensures DeclsIn(evs + Chunk3(i, e1, e2, e3, e4, f1), sc) == DeclaredBy(i, e1, e2, e3, e4, f1, 4, sc)
  {
    DeclsInAppend(evs, Chunk3(i, e1, e2, e3, e4, f1), sc);
    assert DeclsIn([], sc) == [];
    if sc == 17 {
      DeclsInAdd([], Declared(17, i, Pos(125, 18), Initialized, []), 17);
      DeclsInSkip([] + [Declared(17, i, Pos(125, 18), Initialized, [])], Referenced(18, i, Pos(125, 25), false, false, []), 17);
      DeclsInSkip([] + [Declared(17, i, Pos(125, 18), Initialized, [])] + [Referenced(18, i, Pos(125, 25), false, false, [])], Declared(19, f1, Pos(126, 43), Initialized, [4]), 17);
      DeclsInSkip([] + [Declared(17, i, Pos(125, 18), Initialized, [])] + [Referenced(18, i, Pos(125, 25), false, false, [])] + [Declared(19, f1, Pos(126, 43), Initialized, [4])], Declared(19, f1, Pos(126, 56), Initialized, [4]), 17);
      DeclsInSkip([] + [Declared(17, i, Pos(125, 18), Initialized, [])] + [Referenced(18, i, Pos(125, 25), false, false, [])] + [Declared(19, f1, Pos(126, 43), Initialized, [4])] + [Declared(19, f1, Pos(126, 56), Initialized, [4])], OutAssigned(19, [], [4]), 17);
      DeclsInSkip([] + [Declared(17, i, Pos(125, 18), Initialized, [])] + [Referenced(18, i, Pos(125, 25), false, false, [])] + [Declared(19, f1, Pos(126, 43), Initialized, [4])] + [Declared(19, f1, Pos(126, 56), Initialized, [4])] + [OutAssigned(19, [], [4])], Referenced(18, i, Pos(125, 32), false, false, [4]), 17);
    } else if sc == 19 {
      DeclsInSkip([], Declared(17, i, Pos(125, 18), Initialized, []), 19);
      DeclsInSkip([] + [Declared(17, i, Pos(125, 18), Initialized, [])], Referenced(18, i, Pos(125, 25), false, false, []), 19);
      DeclsInAdd([] + [Declared(17, i, Pos(125, 18), Initialized, [])] + [Referenced(18, i, Pos(125, 25), false, false, [])], Declared(19, f1, Pos(126, 43), Initialized, [4]), 19);
      DeclsInAdd([] + [Declared(17, i, Pos(125, 18), Initialized, [])] + [Referenced(18, i, Pos(125, 25), false, false, [])] + [Declared(19, f1, Pos(126, 43), Initialized, [4])], Declared(19, f1, Pos(126, 56), Initialized, [4]), 19);
      DeclsInSkip([] + [Declared(17, i, Pos(125, 18), Initialized, [])] + [Referenced(18, i, Pos(125, 25), false, false, [])] + [Declared(19, f1, Pos(126, 43), Initialized, [4])] + [Declared(19, f1, Pos(126, 56), Initialized, [4])], OutAssigned(19, [], [4]), 19);
      DeclsInSkip([] + [Declared(17, i, Pos(125, 18), Initialized, [])] + [Referenced(18, i, Pos(125, 25), false, false, [])] + [Declared(19, f1, Pos(126, 43), Initialized, [4])] + [Declared(19, f1, Pos(126, 56), Initialized, [4])] + [OutAssigned(19, [], [4])], Referenced(18, i, Pos(125, 32), false, false, [4]), 19);
    } else {
      DeclsInSkip([], Declared(17, i, Pos(125, 18), Initialized, []), sc);
      DeclsInSkip([] + [Declared(17, i, Pos(125, 18), Initialized, [])], Referenced(18, i, Pos(125, 25), false, false, []), sc);
      DeclsInSkip([] + [Declared(17, i, Pos(125, 18), Initialized, [])] + [Referenced(18, i, Pos(125, 25), false, false, [])], Declared(19, f1, Pos(126, 43), Initialized, [4]), sc);
      DeclsInSkip([] + [Declared(17, i, Pos(125, 18), Initialized, [])] + [Referenced(18, i, Pos(125, 25), false, false, [])] + [Declared(19, f1, Pos(126, 43), Initialized, [4])], Declared(19, f1, Pos(126, 56), Initialized, [4]), sc);
      DeclsInSkip([] + [Declared(17, i, Pos(125, 18), Initialized, [])] + [Referenced(18, i, Pos(125, 25), false, false, [])] + [Declared(19, f1, Pos(126, 43), Initialized, [4])] + [Declared(19, f1, Pos(126, 56), Initialized, [4])], OutAssigned(19, [], [4]), sc);
      DeclsInSkip([] + [Declared(17, i, Pos(125, 18), Initialized, [])] + [Referenced(18, i, Pos(125, 25), false, false, [])] + [Declared(19, f1, Pos(126, 43), Initialized, [4])] + [Declared(19, f1, Pos(126, 56), Initialized, [4])] + [OutAssigned(19, [], [4])], Referenced(18, i, Pos(125, 32), false, false, [4]), sc);
      AppendNil(DeclsIn(evs, sc));
    }
  }

  lemma {:induction false} DeclsStage0(i: string, e1: string, e2: string, e3: string, e4: string, f1: string, evs: seq<Event>, sc: nat)
    requires DeclsIn(evs, sc) == DeclaredBy(i, e1, e2, e3, e4, f1, 0, sc)
    ensures DeclsIn(evs + Chunk0(i, e1, e2, e3, e4, f1) + Chunk1(i, e1, e2, e3, e4, f1) + Chunk2(i, e1, e2, e3, e4, f1) + Chunk3(i, e1, e2, e3, e4, f1), sc) == DeclaredBy(i, e1, e2, e3, e4, f1, 4, sc)
  {
    Decls0(i, e1, e2, e3, e4, f1, evs, sc);
    Decls1(i, e1, e2, e3, e4, f1, evs + Chunk0(i, e1, e2, e3, e4, f1), sc);
    Decls2(i, e1, e2, e3, e4, f1, evs + Chunk0(i, e1, e2, e3, e4, f1) + Chunk1(i, e1, e2, e3, e4, f1), sc);
    Decls3(i, e1, e2, e3, e4, f1, evs + Chunk0(i, e1, e2, e3, e4, f1) + Chunk1(i, e1, e2, e3, e4, f1) + Chunk2(i, e1, e2, e3, e4, f1), sc);
  }

  /** The locals of every scope of a tree whose events are the test's, as the table gives them. */
  ghost predicate LocalsFit(i: string, e1: string, e2: string, e3: string, e4: string, f1: string, tr: Tree) {
    forall sc: nat {:trigger DeclaredBy(i, e1, e2, e3, e4, f1, 4, sc)} :: LocalsOf(tr, sc) == DeclaredBy(i, e1, e2, e3, e4, f1, 4, sc)
  }

  /** The locals of every scope. */
  lemma {:induction false} LocalsAll(i: string, e1: string, e2: string, e3: string, e4: string, f1: string, tr: Tree)
    requires tr.events == Trace(i, e1, e2, e3, e4, f1)
    ensures LocalsFit(i, e1, e2, e3, e4, f1, tr)
  {
    forall sc: nat
      ensures LocalsOf(tr, sc) == DeclaredBy(i, e1, e2, e3, e4, f1, 4, sc)
    {
      assert DeclsIn([], sc) == [] == DeclaredBy(i, e1, e2, e3, e4, f1, 0, sc);
      DeclsStage0(i, e1, e2, e3, e4, f1, [], sc);
    }
  }

  /** The locals scope 0 declares, in order. */
  lemma {:induction false} Locals0(i: string, e1: string, e2: string, e3: string, e4: string, f1: string)
    ensures DeclaredBy(i, e1, e2, e3, e4, f1, 4, 0) == []
  {
    AppendNil([]);
    assert DeclaredBy(i, e1, e2, e3, e4, f1, 1, 0) == [];
    assert DeclaredBy(i, e1, e2, e3, e4, f1, 2, 0) == [];
    assert DeclaredBy(i, e1, e2, e3, e4, f1, 3, 0) == [];
    assert DeclaredBy(i, e1, e2, e3, e4, f1, 4, 0) == [];
  }

  /** The locals scope 3 declares, in order. */
  lemma {:induction false} Locals3(i: string, e1: string, e2: string, e3: string, e4: string, f1: string)
    ensures DeclaredBy(i, e1, e2, e3, e4, f1, 4, 3) == []
  {
    AppendNil([]);
    assert DeclaredBy(i, e1, e2, e3, e4, f1, 1, 3) == [];
    assert DeclaredBy(i, e1, e2, e3, e4, f1, 2, 3) == [];
    assert DeclaredBy(i, e1, e2, e3, e4, f1, 3, 3) == [];
    assert DeclaredBy(i, e1, e2, e3, e4, f1, 4, 3) == [];
  }

  /** The locals scope 4 declares, in order. */
  lemma {:induction false} Locals4(i: string, e1: string, e2: string, e3: string, e4: string, f1: string)
    ensures DeclaredBy(i, e1, e2, e3, e4, f1, 4, 4) == []
  {
    AppendNil([]);
    assert DeclaredBy(i, e1, e2, e3, e4, f1, 1, 4) == [];
    assert DeclaredBy(i, e1, e2, e3, e4, f1, 2, 4) == [];
    assert DeclaredBy(i, e1, e2, e3, e4, f1, 3, 4) == [];
    assert DeclaredBy(i, e1, e2, e3, e4, f1, 4, 4) == [];
  }

  /** The locals scope 5 declares, in order. */
  lemma {:induction false} Locals5(i: string, e1: string, e2: string, e3: string, e4: string, f1: string)
    ensures DeclaredBy(i, e1, e2, e3, e4, f1, 4, 5) == [Local(i, Pos(108, 18))]
  {
    assert DeclaredBy(i, e1, e2, e3, e4, f1, 1, 5) == [Local(i, Pos(108, 18))];
    AppendNil([Local(i, Pos(108, 18))]);
    assert DeclaredBy(i, e1, e2, e3, e4, f1, 2, 5) == [Local(i, Pos(108, 18))];
    assert DeclaredBy(i, e1, e2, e3, e4, f1, 3, 5) == [Local(i, Pos(108, 18))];
    assert DeclaredBy(i, e1, e2, e3, e4, f1, 4, 5) == [Local(i, Pos(108, 18))];
  }

  /** The locals scope 6 declares, in order. */
  lemma {:induction false} Locals6(i: string, e1: string, e2: string, e3: string, e4: string, f1: string)
    ensures DeclaredBy(i, e1, e2, e3, e4, f1, 4, 6) == [Local(e1, Pos(108, 42)), Local(e1, Pos(108, 57))]
  {
    assert DeclaredBy(i, e1, e2, e3, e4, f1, 1, 6) == [Local(e1, Pos(108, 42)), Local(e1, Pos(108, 57))];
    AppendNil([Local(e1, Pos(108, 42)), Local(e1, Pos(108, 57))]);
    assert DeclaredBy(i, e1, e2, e3, e4, f1, 2, 6) == [Local(e1, Pos(108, 42)), Local(e1, Pos(108, 57))];
    assert DeclaredBy(i, e1, e2, e3, e4, f1, 3, 6) == [Local(e1, Pos(108, 42)), Local(e1, Pos(108, 57))];
    assert DeclaredBy(i, e1, e2, e3, e4, f1, 4, 6) == [Local(e1, Pos(108, 42)), Local(e1, Pos(108, 57))];
  }

  /** The locals scope 8 declares, in order. */
  lemma {:induction false} Locals8(i: string, e1: string, e2: string, e3: string, e4: string, f1: string)
    ensures DeclaredBy(i, e1, e2, e3, e4, f1, 4, 8) == [Local(i, Pos(110, 18))]
  {
    assert DeclaredBy(i, e1, e2, e3, e4, f1, 1, 8) == [Local(i, Pos(110, 18))];
    AppendNil([Local(i, Pos(110, 18))]);
    assert DeclaredBy(i, e1, e2, e3, e4, f1, 2, 8) == [Local(i, Pos(110, 18))];
    assert DeclaredBy(i, e1, e2, e3, e4, f1, 3, 8) == [Local(i, Pos(110, 18))];
    assert DeclaredBy(i, e1, e2, e3, e4, f1, 4, 8) == [Local(i, Pos(110, 18))];
  }

  /** The locals scope 9 declares, in order. */
  lemma {:induction false} Locals9(i: string, e1: string, e2: string, e3: string, e4: string, f1: string)
    ensures DeclaredBy(i, e1, e2, e3, e4, f1, 4, 9) == [Local(e2, Pos(110, 42))]
  {
    AppendNil([]);
    assert DeclaredBy(i, e1, e2, e3, e4, f1, 1, 9) == [];
    assert DeclaredBy(i, e1, e2, e3, e4, f1, 2, 9) == [Local(e2, Pos(110, 42))];
    AppendNil([Local(e2, Pos(110, 42))]);
    assert DeclaredBy(i, e1, e2, e3, e4, f1, 3, 9) == [Local(e2, Pos(110, 42))];
    assert DeclaredBy(i, e1, e2, e3, e4, f1, 4, 9) == [Local(e2, Pos(110, 42))];
  }

  /** The locals scope 10 declares, in order. */
  lemma {:induction false} Locals10(i: string, e1: string, e2: string, e3: string, e4: string, f1: string)
    ensures DeclaredBy(i, e1, e2, e3, e4, f1, 4, 10) == [Local(e2, Pos(111, 42))]
  {
    assert DeclaredBy(i, e1, e2, e3, e4, f1, 1, 10) == [Local(e2, Pos(111, 42))];
    AppendNil([Local(e2, Pos(111, 42))]);
    assert DeclaredBy(i, e1, e2, e3, e4, f1, 2, 10) == [Local(e2, Pos(111, 42))];
    assert DeclaredBy(i, e1, e2, e3, e4, f1, 3, 10) == [Local(e2, Pos(111, 42))];
    assert DeclaredBy(i, e1, e2, e3, e4, f1, 4, 10) == [Local(e2, Pos(111, 42))];
  }

  /** The locals scope 11 declares, in order. */
  lemma {:induction false} Locals11(i: string, e1: string, e2: string, e3: string, e4: string, f1: string)
    ensures DeclaredBy(i, e1, e2, e3, e4, f1, 4, 11) == [Local(i, Pos(113, 18))]
  {
    AppendNil([]);
    assert DeclaredBy(i, e1, e2, e3, e4, f1, 1, 11) == [];
    assert DeclaredBy(i, e1, e2, e3, e4, f1, 2, 11) == [Local(i, Pos(113, 18))];
    AppendNil([Local(i, Pos(113, 18))]);
    assert DeclaredBy(i, e1, e2, e3, e4, f1, 3, 11) == [Local(i, Pos(113, 18))];
    assert DeclaredBy(i, e1, e2, e3, e4, f1, 4, 11) == [Local(i, Pos(113, 18))];
  }

  /** The locals scope 12 declares, in order. */
  lemma {:induction false} Locals12(i: string, e1: string, e2: string, e3: string, e4: string, f1: string)
    ensures DeclaredBy(i, e1, e2, e3, e4, f1, 4, 12) == [Local(e3, Pos(113, 42))]
  {
    AppendNil([]);
    assert DeclaredBy(i, e1, e2, e3, e4, f1, 1, 12) == [];
    assert DeclaredBy(i, e1, e2, e3, e4, f1, 2, 12) == [];
    assert DeclaredBy(i, e1, e2, e3, e4, f1, 3, 12) == [Local(e3, Pos(113, 42))];
    AppendNil([Local(e3, Pos(113, 42))]);
    assert DeclaredBy(i, e1, e2, e3, e4, f1, 4, 12) == [Local(e3, Pos(113, 42))];
  }

  /** The locals scope 13 declares, in order. */
  lemma {:induction false} Locals13(i: string, e1: string, e2: string, e3: string, e4: string, f1: string)
    ensures DeclaredBy(i, e1, e2, e3, e4, f1, 4, 13) == [Local(e3, Pos(115, 42))]
  {
    AppendNil([]);
    assert DeclaredBy(i, e1, e2, e3, e4, f1, 1, 13) == [];
    assert DeclaredBy(i, e1, e2, e3, e4, f1, 2, 13) == [Local(e3, Pos(115, 42))];
    AppendNil([Local(e3, Pos(115, 42))]);
    assert DeclaredBy(i, e1, e2, e3, e4, f1, 3, 13) == [Local(e3, Pos(115, 42))];
    assert DeclaredBy(i, e1, e2, e3, e4, f1, 4, 13) == [Local(e3, Pos(115, 42))];
  }

  /** The locals scope 14 declares, in order. */
  lemma {:induction false} Locals14(i: string, e1: string, e2: string, e3: string, e4: string, f1: string)
    ensures DeclaredBy(i, e1, e2, e3, e4, f1, 4, 14) == [Local(i, Pos(118, 18))]
  {
    AppendNil([]);
    assert DeclaredBy(i, e1, e2, e3, e4, f1, 1, 14) == [];
    assert DeclaredBy(i, e1, e2, e3, e4, f1, 2, 14) == [];
    assert DeclaredBy(i, e1, e2, e3, e4, f1, 3, 14) == [Local(i, Pos(118, 18))];
    AppendNil([Local(i, Pos(118, 18))]);
    assert DeclaredBy(i, e1, e2, e3, e4, f1, 4, 14) == [Local(i, Pos(118, 18))];
  }

  /** The locals scope 15 declares, in order. */
  lemma {:induction false} Locals15(i: string, e1: string, e2: string, e3: string, e4: string, f1: string)
    ensures DeclaredBy(i, e1, e2, e3, e4, f1, 4, 15) == [Local(e4, Pos(118, 42))]
  {
    AppendNil([]);
    assert DeclaredBy(i, e1, e2, e3, e4, f1, 1, 15) == [];
    assert DeclaredBy(i, e1, e2, e3, e4, f1, 2, 15) == [];
    assert DeclaredBy(i, e1, e2, e3, e4, f1, 3, 15) == [Local(e4, Pos(118, 42))];
    AppendNil([Local(e4, Pos(118, 42))]);
    assert DeclaredBy(i, e1, e2, e3, e4, f1, 4, 15) == [Local(e4, Pos(118, 42))];
  }

  /** The locals scope 16 declares, in order. */
  lemma {:induction false} Locals16(i: string, e1: string, e2: string, e3: string, e4: string, f1: string)
    ensures DeclaredBy(i, e1, e2, e3, e4, f1, 4, 16) == [Local(e4, Pos(120, 17))]
  {
    AppendNil([]);
    assert DeclaredBy(i, e1, e2, e3, e4, f1, 1, 16) == [];
    assert DeclaredBy(i, e1, e2, e3, e4, f1, 2, 16) == [];
    assert DeclaredBy(i, e1, e2, e3, e4, f1, 3, 16) == [Local(e4, Pos(120, 17))];
    AppendNil([Local(e4, Pos(120, 17))]);
    assert DeclaredBy(i, e1, e2, e3, e4, f1, 4, 16) == [Local(e4, Pos(120, 17))];
  }

  /** The locals scope 17 declares, in order. */
  lemma {:induction false} Locals17(i: string, e1: string, e2: string, e3: string, e4: string, f1: string)
    ensures DeclaredBy(i, e1, e2, e3, e4, f1, 4, 17) == [Local(i, Pos(125, 18))]
  {
    AppendNil([]);
    assert DeclaredBy(i, e1, e2, e3, e4, f1, 1, 17) == [];
    assert DeclaredBy(i, e1, e2, e3, e4, f1, 2, 17) == [];
    assert DeclaredBy(i, e1, e2, e3, e4, f1, 3, 17) == [];
    assert DeclaredBy(i, e1, e2, e3, e4, f1, 4, 17) == [Local(i, Pos(125, 18))];
  }

  /** The locals scope 18 declares, in order. */
  lemma {:induction false} Locals18(i: string, e1: string, e2: string, e3: string, e4: string, f1: string)
    ensures DeclaredBy(i, e1, e2, e3, e4, f1, 4, 18) == []
  {
    AppendNil([]);
    assert DeclaredBy(i, e1, e2, e3, e4, f1, 1, 18) == [];
    assert DeclaredBy(i, e1, e2, e3, e4, f1, 2, 18) == [];
    assert DeclaredBy(i, e1, e2, e3, e4, f1, 3, 18) == [];
    assert DeclaredBy(i, e1, e2, e3, e4, f1, 4, 18) == [];
  }

  /** The locals scope 19 declares, in order. */
  lemma {:induction false} Locals19(i: string, e1: string, e2: string, e3: string, e4: string, f1: string)
    ensures DeclaredBy(i, e1, e2, e3, e4, f1, 4, 19) == [Local(f1, Pos(126, 43)), Local(f1, Pos(126, 56))]
  {
    AppendNil([]);
    assert DeclaredBy(i, e1, e2, e3, e4, f1, 1, 19) == [];
    assert DeclaredBy(i, e1, e2, e3, e4, f1, 2, 19) == [];
    assert DeclaredBy(i, e1, e2, e3, e4, f1, 3, 19) == [];
    assert DeclaredBy(i, e1, e2, e3, e4, f1, 4, 19) == [Local(f1, Pos(126, 43)), Local(f1, Pos(126, 56))];
  }

  /** The assignments known after event 7. */
  function Known0(i: string, e1: string, e2: string, e3: string, e4: string, f1: string): seq<Fact> {
    []
      + [Fact(5, i, [])]
      + [Fact(6, e1, [0])]
      + [Fact(6, e1, [0])]
      + [Fact(8, i, [])]
      + [Fact(10, e2, [1])]
  }

  /** Whether a local is assigned after the assignments of events 0 to 7. */
  lemma {:induction false} Assigned0(i: string, e1: string, e2: string, e3: string, e4: string, f1: string, fs: seq<Fact>, sc: nat, nm: string, pth: seq<nat>)
    ensures Assigned(fs + [Fact(5, i, [])] + [Fact(6, e1, [0])] + [Fact(6, e1, [0])] + [Fact(8, i, [])] + [Fact(10, e2, [1])], sc, nm, pth) == (
      Assigned(fs, sc, nm, pth) ||
      (5 == sc && i == nm && [] <= pth) ||
      (6 == sc && e1 == nm && [0] <= pth) ||
      (6 == sc && e1 == nm && [0] <= pth) ||
      (8 == sc && i == nm && [] <= pth) ||
      (10 == sc && e2 == nm && [1] <= pth))
  {
    AssignedSnoc(fs, Fact(5, i, []), sc, nm, pth);
    AssignedSnoc(fs + [Fact(5, i, [])], Fact(6, e1, [0]), sc, nm, pth);
    AssignedSnoc(fs + [Fact(5, i, [])] + [Fact(6, e1, [0])], Fact(6, e1, [0]), sc, nm, pth);
    AssignedSnoc(fs + [Fact(5, i, [])] + [Fact(6, e1, [0])] + [Fact(6, e1, [0])], Fact(8, i, []), sc, nm, pth);
    AssignedSnoc(fs + [Fact(5, i, [])] + [Fact(6, e1, [0])] + [Fact(6, e1, [0])] + [Fact(8, i, [])], Fact(10, e2, [1]), sc, nm, pth);
  }

  /** The assignments known after event 15. */
  function Known1(i: string, e1: string, e2: string, e3: string, e4: string, f1: string): seq<Fact> {
    Known0(i, e1, e2, e3, e4, f1)
      + [Fact(9, e2, [1])]
      + [Fact(11, i, [])]
      + [Fact(13, e3, [2])]
  }

  /** Whether a local is assigned after the assignments of events 8 to 15. */
  lemma {:induction false} Assigned1(i: string, e1: string, e2: string, e3: string, e4: string, f1: string, fs: seq<Fact>, sc: nat, nm: string, pth: seq<nat>)
    ensures Assigned(fs + [Fact(9, e2, [1])] + [Fact(11, i, [])] + [Fact(13, e3, [2])], sc, nm, pth) == (
      Assigned(fs, sc, nm, pth) ||
      (9 == sc && e2 == nm && [1] <= pth) ||
      (11 == sc && i == nm && [] <= pth) ||
      (13 == sc && e3 == nm && [2] <= pth))
  {
    AssignedSnoc(fs, Fact(9, e2, [1]), sc, nm, pth);
    AssignedSnoc(fs + [Fact(9, e2, [1])], Fact(11, i, []), sc, nm, pth);
    AssignedSnoc(fs + [Fact(9, e2, [1])] + [Fact(11, i, [])], Fact(13, e3, [2]), sc, nm, pth);
  }

  /** The assignments known after event 23. */
  function Known2(i: string, e1: string, e2: string, e3: string, e4: string, f1: string): seq<Fact> {
    Known1(i, e1, e2, e3, e4, f1)
      + [Fact(12, e3, [2])]
      + [Fact(14, i, [])]
      + [Fact(16, e4, [3])]
      + [Fact(15, e4, [3])]
  }

  /** Whether a local is assigned after the assignments of events 16 to 23. */
  lemma {:induction false} Assigned2(i: string, e1: string, e2: string, e3: string, e4: string, f1: string, fs: seq<Fact>, sc: nat, nm: string, pth: seq<nat>)
    ensures Assigned(fs + [Fact(12, e3, [2])] + [Fact(14, i, [])] + [Fact(16, e4, [3])] + [Fact(15, e4, [3])], sc, nm, pth) == (
      Assigned(fs, sc, nm, pth) ||
      (12 == sc && e3 == nm && [2] <= pth) ||
      (14 == sc && i == nm && [] <= pth) ||
      (16 == sc && e4 == nm && [3] <= pth) ||
      (15 == sc && e4 == nm && [3] <= pth))
  {
    AssignedSnoc(fs, Fact(12, e3, [2]), sc, nm, pth);
    AssignedSnoc(fs + [Fact(12, e3, [2])], Fact(14, i, []), sc, nm, pth);
    AssignedSnoc(fs + [Fact(12, e3, [2])] + [Fact(14, i, [])], Fact(16, e4, [3]), sc, nm, pth);
    AssignedSnoc(fs + [Fact(12, e3, [2])] + [Fact(14, i, [])] + [Fact(16, e4, [3])], Fact(15, e4, [3]), sc, nm, pth);
  }

  /** The assignments known after event 29. */
  function Known3(i: string, e1: string, e2: string, e3: string, e4: string, f1: string): seq<Fact> {
    Known2(i, e1, e2, e3, e4, f1)
      + [Fact(17, i, [])]
      + [Fact(19, f1, [4])]
      + [Fact(19, f1, [4])]
  }

  /** Whether a local is assigned after the assignments of events 24 to 29. */
  lemma {:induction false} Assigned3(i: string, e1: string, e2: string, e3: string, e4: string, f1: string, fs: seq<Fact>, sc: nat, nm: string, pth: seq<nat>)
    ensures Assigned(fs + [Fact(17, i, [])] + [Fact(19, f1, [4])] + [Fact(19, f1, [4])], sc, nm, pth) == (
      Assigned(fs, sc, nm, pth) ||
      (17 == sc && i == nm && [] <= pth) ||
      (19 == sc && f1 == nm && [4] <= pth) ||
      (19 == sc && f1 == nm && [4] <= pth))
  {
    AssignedSnoc(fs, Fact(17, i, []), sc, nm, pth);
    AssignedSnoc(fs + [Fact(17, i, [])], Fact(19, f1, [4]), sc, nm, pth);
    AssignedSnoc(fs + [Fact(17, i, [])] + [Fact(19, f1, [4])], Fact(19, f1, [4]), sc, nm, pth);
  }

  /** Event 0: its diagnostics and the assignments after it. */
  lemma {:induction false} Event0(i: string, e1: string, e2: string, e3: string, e4: string, f1: string, tr: Tree, fs: seq<Fact>)
    requires |tr.scopes| == 20
    requires Parent(tr, 0) == None
    requires Parent(tr, 3) == Some(0)
    requires Parent(tr, 4) == Some(3)
    requires Parent(tr, 5) == Some(4)
    requires LocalsOf(tr, 5) == [Local(i, Pos(108, 18))]
    requires LocalsOf(tr, 4) == []
    requires LocalsOf(tr, 3) == []
    requires LocalsOf(tr, 0) == []
    ensures EventDiags(tr, Declared(5, i, Pos(108, 18), Initialized, []), fs) == []
    ensures Step(tr, Declared(5, i, Pos(108, 18), Initialized, []), fs) == fs + [Fact(5, i, [])]
  {
    assert Lookup(tr, 0, i) == None;
    assert Lookup(tr, 3, i) == None;
    assert Lookup(tr, 4, i) == None;
  }

  /** Event 1: its diagnostics and the assignments after it. */
  lemma {:induction false} Event1(i: string, e1: string, e2: string, e3: string, e4: string, f1: string, tr: Tree, fs: seq<Fact>)
    requires |tr.scopes| == 20
    requires Parent(tr, 5) == Some(4)
    requires Parent(tr, 6) == Some(5)
    requires LocalsOf(tr, 6) == [Local(e1, Pos(108, 42)), Local(e1, Pos(108, 57))]
    requires LocalsOf(tr, 5) == [Local(i, Pos(108, 18))]
    requires i != e1
    requires Assigned(fs, 5, i, [])
    ensures EventDiags(tr, Referenced(6, i, Pos(108, 25), false, false, []), fs) == []
    ensures Step(tr, Referenced(6, i, Pos(108, 25), false, false, []), fs) == fs
  {
    assert Local(i, Pos(108, 18)) in LocalsOf(tr, 5);
    assert Lookup(tr, 5, i) == Some(5);
    assert Lookup(tr, 6, i) == Some(5);
  }

  /** Event 2: its diagnostics and the assignments after it. */
  lemma {:induction false} Event2(i: string, e1: string, e2: string, e3: string, e4: string, f1: string, tr: Tree, fs: seq<Fact>)
    requires |tr.scopes| == 20
    requires Parent(tr, 5) == Some(4)
    requires Parent(tr, 6) == Some(5)
    requires LocalsOf(tr, 6) == [Local(e1, Pos(108, 42)), Local(e1, Pos(108, 57))]
    requires LocalsOf(tr, 5) == [Local(i, Pos(108, 18))]
    requires i != e1
    requires Assigned(fs, 5, i, [0])
    ensures EventDiags(tr, Referenced(6, i, Pos(108, 32), false, false, [0]), fs) == []
    ensures Step(tr, Referenced(6, i, Pos(108, 32), false, false, [0]), fs) == fs
  {
    assert Local(i, Pos(108, 18)) in LocalsOf(tr, 5);
    assert Lookup(tr, 5, i) == Some(5);
    assert Lookup(tr, 6, i) == Some(5);
  }

  /** Event 3: its diagnostics and the assignments after it. */
  lemma {:induction false} Event3(i: string, e1: string, e2: string, e3: string, e4: string, f1: string, tr: Tree, fs: seq<Fact>)
    requires |tr.scopes| == 20
    requires Parent(tr, 0) == None
    requires Parent(tr, 3) == Some(0)
    requires Parent(tr, 4) == Some(3)
    requires Parent(tr, 5) == Some(4)
    requires Parent(tr, 6) == Some(5)
    requires LocalsOf(tr, 6) == [Local(e1, Pos(108, 42)), Local(e1, Pos(108, 57))]
    requires LocalsOf(tr, 5) == [Local(i, Pos(108, 18))]
    requires LocalsOf(tr, 4) == []
    requires LocalsOf(tr, 3) == []
    requires LocalsOf(tr, 0) == []
    requires i != e1
    ensures EventDiags(tr, Declared(6, e1, Pos(108, 42), Initialized, [0]), fs) == []
    ensures Step(tr, Declared(6, e1, Pos(108, 42), Initialized, [0]), fs) == fs + [Fact(6, e1, [0])]
  {
    assert Lookup(tr, 0, e1) == None;
    assert Lookup(tr, 3, e1) == None;
    assert Lookup(tr, 4, e1) == None;
    assert Lookup(tr, 5, e1) == None;
  }

  /** Event 4: its diagnostics and the assignments after it. */
  lemma {:induction false} Event4(i: string, e1: string, e2: string, e3: string, e4: string, f1: string, tr: Tree, fs: seq<Fact>)
    requires |tr.scopes| == 20
    requires Parent(tr, 6) == Some(5)
    requires LocalsOf(tr, 6) == [Local(e1, Pos(108, 42)), Local(e1, Pos(108, 57))]
    ensures EventDiags(tr, Declared(6, e1, Pos(108, 57), Initialized, [0]), fs) == [Diag(Duplicate, e1, Pos(108, 57))]
    ensures Step(tr, Declared(6, e1, Pos(108, 57), Initialized, [0]), fs) == fs + [Fact(6, e1, [0])]
  {
    assert Local(e1, Pos(108, 42)) in LocalsOf(tr, 6);
  }

  /** Event 5: its diagnostics and the assignments after it. */
  lemma {:induction false} Event5(i: string, e1: string, e2: string, e3: string, e4: string, f1: string, tr: Tree, fs: seq<Fact>)
    requires |tr.scopes| == 20
    requires Parent(tr, 0) == None
    requires Parent(tr, 3) == Some(0)
    requires Parent(tr, 4) == Some(3)
    requires Parent(tr, 8) == Some(4)
    requires LocalsOf(tr, 8) == [Local(i, Pos(110, 18))]
    requires LocalsOf(tr, 4) == []
    requires LocalsOf(tr, 3) == []
    requires LocalsOf(tr, 0) == []
    ensures EventDiags(tr, Declared(8, i, Pos(110, 18), Initialized, []), fs) == []
    ensures Step(tr, Declared(8, i, Pos(110, 18), Initialized, []), fs) == fs + [Fact(8, i, [])]
  {
    assert Lookup(tr, 0, i) == None;
    assert Lookup(tr, 3, i) == None;
    assert Lookup(tr, 4, i) == None;
  }

  /** Event 6: its diagnostics and the assignments after it. */
  lemma {:induction false} Event6(i: string, e1: string, e2: string, e3: string, e4: string, f1: string, tr: Tree, fs: seq<Fact>)
    requires |tr.scopes| == 20
    requires Parent(tr, 8) == Some(4)
    requires Parent(tr, 9) == Some(8)
    requires LocalsOf(tr, 9) == [Local(e2, Pos(110, 42))]
    requires LocalsOf(tr, 8) == [Local(i, Pos(110, 18))]
    requires i != e2
    requires Assigned(fs, 8, i, [])
    ensures EventDiags(tr, Referenced(9, i, Pos(110, 25), false, false, []), fs) == []
    ensures Step(tr, Referenced(9, i, Pos(110, 25), false, false, []), fs) == fs
  {
    assert Local(i, Pos(110, 18)) in LocalsOf(tr, 8);
    assert Lookup(tr, 8, i) == Some(8);
    assert Lookup(tr, 9, i) == Some(8);
  }

  /** Event 7: its diagnostics and the assignments after it. */
  lemma {:induction false} Event7(i: string, e1: string, e2: string, e3: string, e4: string, f1: string, tr: Tree, fs: seq<Fact>)
    requires |tr.scopes| == 20
    requires Parent(tr, 9) == Some(8)
    requires Parent(tr, 10) == Some(9)
    requires LocalsOf(tr, 10) == [Local(e2, Pos(111, 42))]
    requires LocalsOf(tr, 9) == [Local(e2, Pos(110, 42))]
    ensures EventDiags(tr, Declared(10, e2, Pos(111, 42), Initialized, [1]), fs) == [Diag(Shadow, e2, Pos(111, 42))]
    ensures Step(tr, Declared(10, e2, Pos(111, 42), Initialized, [1]), fs) == fs + [Fact(10, e2, [1])]
  {
    assert Local(e2, Pos(110, 42)) in LocalsOf(tr, 9);
    assert Lookup(tr, 9, e2) == Some(9);
  }

  /** Event 8: its diagnostics and the assignments after it. */
  lemma {:induction false} Event8(i: string, e1: string, e2: string, e3: string, e4: string, f1: string, tr: Tree, fs: seq<Fact>)
    ensures EventDiags(tr, OutAssigned(10, [], [1]), fs) == []
    ensures Step(tr, OutAssigned(10, [], [1]), fs) == fs
  {
    assert OutFacts(10, [], [1]) == [];
    FactsNil(fs);
  }

  /** Event 9: its diagnostics and the assignments after it. */
  lemma {:induction false} Event9(i: string, e1: string, e2: string, e3: string, e4: string, f1: string, tr: Tree, fs: seq<Fact>)
    requires |tr.scopes| == 20
    requires Parent(tr, 8) == Some(4)
    requires Parent(tr, 9) == Some(8)
    requires LocalsOf(tr, 9) == [Local(e2, Pos(110, 42))]
    requires LocalsOf(tr, 8) == [Local(i, Pos(110, 18))]
    requires i != e2
    requires Assigned(fs, 8, i, [1])
    ensures EventDiags(tr, Referenced(9, i, Pos(110, 32), false, false, [1]), fs) == []
    ensures Step(tr, Referenced(9, i, Pos(110, 32), false, false, [1]), fs) == fs
  {
    assert Local(i, Pos(110, 18)) in LocalsOf(tr, 8);
    assert Lookup(tr, 8, i) == Some(8);
    assert Lookup(tr, 9, i) == Some(8);
  }

  /** Event 10: its diagnostics and the assignments after it. */
  lemma {:induction false} Event10(i: string, e1: string, e2: string, e3: string, e4: string, f1: string, tr: Tree, fs: seq<Fact>)
    requires |tr.scopes| == 20
    requires Parent(tr, 0) == None
    requires Parent(tr, 3) == Some(0)
    requires Parent(tr, 4) == Some(3)
    requires Parent(tr, 8) == Some(4)
    requires Parent(tr, 9) == Some(8)
    requires LocalsOf(tr, 9) == [Local(e2, Pos(110, 42))]
    requires LocalsOf(tr, 8) == [Local(i, Pos(110, 18))]
    requires LocalsOf(tr, 4) == []
    requires LocalsOf(tr, 3) == []
    requires LocalsOf(tr, 0) == []
    requires i != e2
    ensures EventDiags(tr, Declared(9, e2, Pos(110, 42), Initialized, [1]), fs) == []
    ensures Step(tr, Declared(9, e2, Pos(110, 42), Initialized, [1]), fs) == fs + [Fact(9, e2, [1])]
  {
    assert Lookup(tr, 0, e2) == None;
    assert Lookup(tr, 3, e2) == None;
    assert Lookup(tr, 4, e2) == None;
    assert Lookup(tr, 8, e2) == None;
  }

  /** Event 11: its diagnostics and the assignments after it. */
  lemma {:induction false} Event11(i: string, e1: string, e2: string, e3: string, e4: string, f1: string, tr: Tree, fs: seq<Fact>)
    requires |tr.scopes| == 20
    requires Parent(tr, 0) == None
    requires Parent(tr, 3) == Some(0)
    requires Parent(tr, 4) == Some(3)
    requires Parent(tr, 11) == Some(4)
    requires LocalsOf(tr, 11) == [Local(i, Pos(113, 18))]
    requires LocalsOf(tr, 4) == []
    requires LocalsOf(tr, 3) == []
    requires LocalsOf(tr, 0) == []
    ensures EventDiags(tr, Declared(11, i, Pos(113, 18), Initialized, []), fs) == []
    ensures Step(tr, Declared(11, i, Pos(113, 18), Initialized, []), fs) == fs + [Fact(11, i, [])]
  {
    assert Lookup(tr, 0, i) == None;
    assert Lookup(tr, 3, i) == None;
    assert Lookup(tr, 4, i) == None;
  }

  /** Event 12: its diagnostics and the assignments after it. */
  lemma {:induction false} Event12(i: string, e1: string, e2: string, e3: string, e4: string, f1: string, tr: Tree, fs: seq<Fact>)
    requires |tr.scopes| == 20
    requires Parent(tr, 11) == Some(4)
    requires Parent(tr, 12) == Some(11)
    requires LocalsOf(tr, 12) == [Local(e3, Pos(113, 42))]
    requires LocalsOf(tr, 11) == [Local(i, Pos(113, 18))]
    requires i != e3
    requires Assigned(fs, 11, i, [])
    ensures EventDiags(tr, Referenced(12, i, Pos(113, 25), false, false, []), fs) == []
    ensures Step(tr, Referenced(12, i, Pos(113, 25), false, false, []), fs) == fs
  {
    assert Local(i, Pos(113, 18)) in LocalsOf(tr, 11);
    assert Lookup(tr, 11, i) == Some(11);
    assert Lookup(tr, 12, i) == Some(11);
  }

  /** Event 13: its diagnostics and the assignments after it. */
  lemma {:induction false} Event13(i: string, e1: string, e2: string, e3: string, e4: string, f1: string, tr: Tree, fs: seq<Fact>)
    requires |tr.scopes| == 20
    requires Parent(tr, 12) == Some(11)
    requires Parent(tr, 13) == Some(12)
    requires LocalsOf(tr, 13) == [Local(e3, Pos(115, 42))]
    requires LocalsOf(tr, 12) == [Local(e3, Pos(113, 42))]
    ensures EventDiags(tr, Declared(13, e3, Pos(115, 42), Initialized, [2]), fs) == [Diag(Shadow, e3, Pos(115, 42))]
    ensures Step(tr, Declared(13, e3, Pos(115, 42), Initialized, [2]), fs) == fs + [Fact(13, e3, [2])]
  {
    assert Local(e3, Pos(113, 42)) in LocalsOf(tr, 12);
    assert Lookup(tr, 12, e3) == Some(12);
  }

  /** Event 14: its diagnostics and the assignments after it. */
  lemma {:induction false} Event14(i: string, e1: string, e2: string, e3: string, e4: string, f1: string, tr: Tree, fs: seq<Fact>)
    ensures EventDiags(tr, OutAssigned(13, [], [2]), fs) == []
    ensures Step(tr, OutAssigned(13, [], [2]), fs) == fs
  {
    assert OutFacts(13, [], [2]) == [];
    FactsNil(fs);
  }

  /** Event 15: its diagnostics and the assignments after it. */
  lemma {:induction false} Event15(i: string, e1: string, e2: string, e3: string, e4: string, f1: string, tr: Tree, fs: seq<Fact>)
    requires |tr.scopes| == 20
    requires Parent(tr, 11) == Some(4)
    requires Parent(tr, 12) == Some(11)
    requires LocalsOf(tr, 12) == [Local(e3, Pos(113, 42))]
    requires LocalsOf(tr, 11) == [Local(i, Pos(113, 18))]
    requires i != e3
    requires Assigned(fs, 11, i, [2])
    ensures EventDiags(tr, Referenced(12, i, Pos(113, 32), false, false, [2]), fs) == []
    ensures Step(tr, Referenced(12, i, Pos(113, 32), false, false, [2]), fs) == fs
  {
    assert Local(i, Pos(113, 18)) in LocalsOf(tr, 11);
    assert Lookup(tr, 11, i) == Some(11);
    assert Lookup(tr, 12, i) == Some(11);
  }

  /** Event 16: its diagnostics and the assignments after it. */
  lemma {:induction false} Event16(i: string, e1: string, e2: string, e3: string, e4: string, f1: string, tr: Tree, fs: seq<Fact>)
    requires |tr.scopes| == 20
    requires Parent(tr, 0) == None
    requires Parent(tr, 3) == Some(0)
    requires Parent(tr, 4) == Some(3)
    requires Parent(tr, 11) == Some(4)
    requires Parent(tr, 12) == Some(11)
    requires LocalsOf(tr, 12) == [Local(e3, Pos(113, 42))]
    requires LocalsOf(tr, 11) == [Local(i, Pos(113, 18))]
    requires LocalsOf(tr, 4) == []
    requires LocalsOf(tr, 3) == []
    requires LocalsOf(tr, 0) == []
    requires i != e3
    ensures EventDiags(tr, Declared(12, e3, Pos(113, 42), Initialized, [2]), fs) == []
    ensures Step(tr, Declared(12, e3, Pos(113, 42), Initialized, [2]), fs) == fs + [Fact(12, e3, [2])]
  {
    assert Lookup(tr, 0, e3) == None;
    assert Lookup(tr, 3, e3) == None;
    assert Lookup(tr, 4, e3) == None;
    assert Lookup(tr, 11, e3) == None;
  }

  /** Event 17: its diagnostics and the assignments after it. */
  lemma {:induction false} Event17(i: string, e1: string, e2: string, e3: string, e4: string, f1: string, tr: Tree, fs: seq<Fact>)
    requires |tr.scopes| == 20
    requires Parent(tr, 0) == None
    requires Parent(tr, 3) == Some(0)
    requires Parent(tr, 4) == Some(3)
    requires Parent(tr, 14) == Some(4)
    requires LocalsOf(tr, 14) == [Local(i, Pos(118, 18))]
    requires LocalsOf(tr, 4) == []
    requires LocalsOf(tr, 3) == []
    requires LocalsOf(tr, 0) == []
    ensures EventDiags(tr, Declared(14, i, Pos(118, 18), Initialized, []), fs) == []
    ensures Step(tr, Declared(14, i, Pos(118, 18), Initialized, []), fs) == fs + [Fact(14, i, [])]
  {
    assert Lookup(tr, 0, i) == None;
    assert Lookup(tr, 3, i) == None;
    assert Lookup(tr, 4, i) == None;
  }

  /** Event 18: its diagnostics and the assignments after it. */
  lemma {:induction false} Event18(i: string, e1: string, e2: string, e3: string, e4: string, f1: string, tr: Tree, fs: seq<Fact>)
    requires |tr.scopes| == 20
    requires Parent(tr, 14) == Some(4)
    requires Parent(tr, 15) == Some(14)
    requires LocalsOf(tr, 15) == [Local(e4, Pos(118, 42))]
    requires LocalsOf(tr, 14) == [Local(i, Pos(118, 18))]
    requires i != e4
    requires Assigned(fs, 14, i, [])
    ensures EventDiags(tr, Referenced(15, i, Pos(118, 25), false, false, []), fs) == []
    ensures Step(tr, Referenced(15, i, Pos(118, 25), false, false, []), fs) == fs
  {
    assert Local(i, Pos(118, 18)) in LocalsOf(tr, 14);
    assert Lookup(tr, 14, i) == Some(14);
    assert Lookup(tr, 15, i) == Some(14);
  }

  /** Event 19: its diagnostics and the assignments after it. */
  lemma {:induction false} Event19(i: string, e1: string, e2: string, e3: string, e4: string, f1: string, tr: Tree, fs: seq<Fact>)
    requires |tr.scopes| == 20
    requires Parent(tr, 15) == Some(14)
    requires Parent(tr, 16) == Some(15)
    requires LocalsOf(tr, 16) == [Local(e4, Pos(120, 17))]
    requires LocalsOf(tr, 15) == [Local(e4, Pos(118, 42))]
    ensures EventDiags(tr, Declared(16, e4, Pos(120, 17), Initialized, [3]), fs) == [Diag(Shadow, e4, Pos(120, 17))]
    ensures Step(tr, Declared(16, e4, Pos(120, 17), Initialized, [3]), fs) == fs + [Fact(16, e4, [3])]
  {
    assert Local(e4, Pos(118, 42)) in LocalsOf(tr, 15);
    assert Lookup(tr, 15, e4) == Some(15);
  }

  /** Event 20: its diagnostics and the assignments after it. */
  lemma {:induction false} Event20(i: string, e1: string, e2: string, e3: string, e4: string, f1: string, tr: Tree, fs: seq<Fact>)
    requires |tr.scopes| == 20
    requires Parent(tr, 16) == Some(15)
    requires LocalsOf(tr, 16) == [Local(e4, Pos(120, 17))]
    requires Assigned(fs, 16, e4, [3])
    ensures EventDiags(tr, Referenced(16, e4, Pos(121, 38), false, false, [3]), fs) == []
    ensures Step(tr, Referenced(16, e4, Pos(121, 38), false, false, [3]), fs) == fs
  {
    assert Local(e4, Pos(120, 17)) in LocalsOf(tr, 16);
    assert Lookup(tr, 16, e4) == Some(16);
  }

  /** Event 21: its diagnostics and the assignments after it. */
  lemma {:induction false} Event21(i: string, e1: string, e2: string, e3: string, e4: string, f1: string, tr: Tree, fs: seq<Fact>)
    ensures EventDiags(tr, OutAssigned(16, [], [3]), fs) == []
    ensures Step(tr, OutAssigned(16, [], [3]), fs) == fs
  {
    assert OutFacts(16, [], [3]) == [];
    FactsNil(fs);
  }

  /** Event 22: its diagnostics and the assignments after it. */
  lemma {:induction false} Event22(i: string, e1: string, e2: string, e3: string, e4: string, f1: string, tr: Tree, fs: seq<Fact>)
    requires |tr.scopes| == 20
    requires Parent(tr, 14) == Some(4)
    requires Parent(tr, 15) == Some(14)
    requires LocalsOf(tr, 15) == [Local(e4, Pos(118, 42))]
    requires LocalsOf(tr, 14) == [Local(i, Pos(118, 18))]
    requires i != e4
    requires Assigned(fs, 14, i, [3])
    ensures EventDiags(tr, Referenced(15, i, Pos(118, 32), false, false, [3]), fs) == []
    ensures Step(tr, Referenced(15, i, Pos(118, 32), false, false, [3]), fs) == fs
  {
    assert Local(i, Pos(118, 18)) in LocalsOf(tr, 14);
    assert Lookup(tr, 14, i) == Some(14);
    assert Lookup(tr, 15, i) == Some(14);
  }

  /** Event 23: its diagnostics and the assignments after it. */
  lemma {:induction false} Event23(i: string, e1: string, e2: string, e3: string, e4: string, f1: string, tr: Tree, fs: seq<Fact>)
    requires |tr.scopes| == 20
    requires Parent(tr, 0) == None
    requires Parent(tr, 3) == Some(0)
    requires Parent(tr, 4) == Some(3)
    requires Parent(tr, 14) == Some(4)
    requires Parent(tr, 15) == Some(14)
    requires LocalsOf(tr, 15) == [Local(e4, Pos(118, 42))]
    requires LocalsOf(tr, 14) == [Local(i, Pos(118, 18))]
    requires LocalsOf(tr, 4) == []
    requires LocalsOf(tr, 3) == []
    requires LocalsOf(tr, 0) == []
    requires i != e4
    ensures EventDiags(tr, Declared(15, e4, Pos(118, 42), Initialized, [3]), fs) == []
    ensures Step(tr, Declared(15, e4, Pos(118, 42), Initialized, [3]), fs) == fs + [Fact(15, e4, [3])]
  {
    assert Lookup(tr, 0, e4) == None;
    assert Lookup(tr, 3, e4) == None;
    assert Lookup(tr, 4, e4) == None;
    assert Lookup(tr, 14, e4) == None;
  }

  /** Event 24: its diagnostics and the assignments after it. */
  lemma {:induction false} Event24(i: string, e1: string, e2: string, e3: string, e4: string, f1: string, tr: Tree, fs: seq<Fact>)
    requires |tr.scopes| == 20
    requires Parent(tr, 0) == None
    requires Parent(tr, 3) == Some(0)
    requires Parent(tr, 4) == Some(3)
    requires Parent(tr, 17) == Some(4)
    requires LocalsOf(tr, 17) == [Local(i, Pos(125, 18))]
    requires LocalsOf(tr, 4) == []
    requires LocalsOf(tr, 3) == []
    requires LocalsOf(tr, 0) == []
    ensures EventDiags(tr, Declared(17, i, Pos(125, 18), Initialized, []), fs) == []
    ensures Step(tr, Declared(17, i, Pos(125, 18), Initialized, []), fs) == fs + [Fact(17, i, [])]
  {
    assert Lookup(tr, 0, i) == None;
    assert Lookup(tr, 3, i) == None;
    assert Lookup(tr, 4, i) == None;
  }

  /** Event 25: its diagnostics and the assignments after it. */
  lemma {:induction false} Event25(i: string, e1: string, e2: string, e3: string, e4: string, f1: string, tr: Tree, fs: seq<Fact>)
    requires |tr.scopes| == 20
    requires Parent(tr, 17) == Some(4)
    requires Parent(tr, 18) == Some(17)
    requires LocalsOf(tr, 18) == []
    requires LocalsOf(tr, 17) == [Local(i, Pos(125, 18))]
    requires Assigned(fs, 17, i, [])
    ensures EventDiags(tr, Referenced(18, i, Pos(125, 25), false, false, []), fs) == []
    ensures Step(tr, Referenced(18, i, Pos(125, 25), false, false, []), fs) == fs
  {
    assert Local(i, Pos(125, 18)) in LocalsOf(tr, 17);
    assert Lookup(tr, 17, i) == Some(17);
    assert Lookup(tr, 18, i) == Some(17);
  }

  /** Event 26: its diagnostics and the assignments after it. */
  lemma {:induction false} Event26(i: string, e1: string, e2: string, e3: string, e4: string, f1: string, tr: Tree, fs: seq<Fact>)
    requires |tr.scopes| == 20
    requires Parent(tr, 0) == None
    requires Parent(tr, 3) == Some(0)
    requires Parent(tr, 4) == Some(3)
    requires Parent(tr, 17) == Some(4)
    requires Parent(tr, 18) == Some(17)
    requires Parent(tr, 19) == Some(18)
    requires LocalsOf(tr, 19) == [Local(f1, Pos(126, 43)), Local(f1, Pos(126, 56))]
    requires LocalsOf(tr, 18) == []
    requires LocalsOf(tr, 17) == [Local(i, Pos(125, 18))]
    requires LocalsOf(tr, 4) == []
    requires LocalsOf(tr, 3) == []
    requires LocalsOf(tr, 0) == []
    requires i != f1
    ensures EventDiags(tr, Declared(19, f1, Pos(126, 43), Initialized, [4]), fs) == []
    ensures Step(tr, Declared(19, f1, Pos(126, 43), Initialized, [4]), fs) == fs + [Fact(19, f1, [4])]
  {
    assert Lookup(tr, 0, f1) == None;
    assert Lookup(tr, 3, f1) == None;
    assert Lookup(tr, 4, f1) == None;
    assert Lookup(tr, 17, f1) == None;
    assert Lookup(tr, 18, f1) == None;
  }

  /** Event 27: its diagnostics and the assignments after it. */
  lemma {:induction false} Event27(i: string, e1: string, e2: string, e3: string, e4: string, f1: string, tr: Tree, fs: seq<Fact>)
    requires |tr.scopes| == 20
    requires Parent(tr, 19) == Some(18)
    requires LocalsOf(tr, 19) == [Local(f1, Pos(126, 43)), Local(f1, Pos(126, 56))]
    ensures EventDiags(tr, Declared(19, f1, Pos(126, 56), Initialized, [4]), fs) == [Diag(Duplicate, f1, Pos(126, 56))]
    ensures Step(tr, Declared(19, f1, Pos(126, 56), Initialized, [4]), fs) == fs + [Fact(19, f1, [4])]
  {
    assert Local(f1, Pos(126, 43)) in LocalsOf(tr, 19);
  }

  /** Event 28: its diagnostics and the assignments after it. */
  lemma {:induction false} Event28(i: string, e1: string, e2: string, e3: string, e4: string, f1: string, tr: Tree, fs: seq<Fact>)
    ensures EventDiags(tr, OutAssigned(19, [], [4]), fs) == []
    ensures Step(tr, OutAssigned(19, [], [4]), fs) == fs
  {
    assert OutFacts(19, [], [4]) == [];
    FactsNil(fs);
  }

  /** Event 29: its diagnostics and the assignments after it. */
  lemma {:induction false} Event29(i: string, e1: string, e2: string, e3: string, e4: string, f1: string, tr: Tree, fs: seq<Fact>)
    requires |tr.scopes| == 20
    requires Parent(tr, 17) == Some(4)
    requires Parent(tr, 18) == Some(17)
    requires LocalsOf(tr, 18) == []
    requires LocalsOf(tr, 17) == [Local(i, Pos(125, 18))]
    requires Assigned(fs, 17, i, [4])
    ensures EventDiags(tr, Referenced(18, i, Pos(125, 32), false, false, [4]), fs) == []
    ensures Step(tr, Referenced(18, i, Pos(125, 32), false, false, [4]), fs) == fs
  {
    assert Local(i, Pos(125, 18)) in LocalsOf(tr, 17);
    assert Lookup(tr, 17, i) == Some(17);
    assert Lookup(tr, 18, i) == Some(17);
  }

  /** What a read of i in scope 8 finds assigned before event 8. */
  lemma {:induction false} Read0(i: string, e1: string, e2: string, e3: string, e4: string, f1: string)
    ensures Assigned(Known0(i, e1, e2, e3, e4, f1), 8, i, [1])
  {
    Assigned0(i, e1, e2, e3, e4, f1, [], 8, i, [1]);
    assert !Assigned([], 8, i, [1]);
  }

  /** What a read of i in scope 11 finds assigned before event 8. */
  lemma {:induction false} Read1(i: string, e1: string, e2: string, e3: string, e4: string, f1: string)
    ensures !Assigned(Known0(i, e1, e2, e3, e4, f1), 11, i, [])
  {
    Assigned0(i, e1, e2, e3, e4, f1, [], 11, i, []);
    assert !Assigned([], 11, i, []);
  }

  /** What a read of i in scope 11 finds assigned before event 8. */
  lemma {:induction false} Read2(i: string, e1: string, e2: string, e3: string, e4: string, f1: string)
    ensures !Assigned(Known0(i, e1, e2, e3, e4, f1), 11, i, [2])
  {
    Assigned0(i, e1, e2, e3, e4, f1, [], 11, i, [2]);
    assert !Assigned([], 11, i, [2]);
  }

  /** What a read of i in scope 14 finds assigned before event 16. */
  lemma {:induction false} Read3(i: string, e1: string, e2: string, e3: string, e4: string, f1: string)
    ensures !Assigned(Known1(i, e1, e2, e3, e4, f1), 14, i, [])
  {
    Assigned0(i, e1, e2, e3, e4, f1, [], 14, i, []);
    Assigned1(i, e1, e2, e3, e4, f1, Known0(i, e1, e2, e3, e4, f1), 14, i, []);
    assert !Assigned([], 14, i, []);
  }

  /** What a read of e4 in scope 16 finds assigned before event 16. */
  lemma {:induction false} Read4(i: string, e1: string, e2: string, e3: string, e4: string, f1: string)
    ensures !Assigned(Known1(i, e1, e2, e3, e4, f1), 16, e4, [3])
  {
    Assigned0(i, e1, e2, e3, e4, f1, [], 16, e4, [3]);
    Assigned1(i, e1, e2, e3, e4, f1, Known0(i, e1, e2, e3, e4, f1), 16, e4, [3]);
    assert !Assigned([], 16, e4, [3]);
  }

  /** What a read of i in scope 14 finds assigned before event 16. */
  lemma {:induction false} Read5(i: string, e1: string, e2: string, e3: string, e4: string, f1: string)
    ensures !Assigned(Known1(i, e1, e2, e3, e4, f1), 14, i, [3])
  {
    Assigned0(i, e1, e2, e3, e4, f1, [], 14, i, [3]);
    Assigned1(i, e1, e2, e3, e4, f1, Known0(i, e1, e2, e3, e4, f1), 14, i, [3]);
    assert !Assigned([], 14, i, [3]);
  }

  /** What a read of i in scope 17 finds assigned before event 24. */
  lemma {:induction false} Read6(i: string, e1: string, e2: string, e3: string, e4: string, f1: string)
    ensures !Assigned(Known2(i, e1, e2, e3, e4, f1), 17, i, [])
  {
    Assigned0(i, e1, e2, e3, e4, f1, [], 17, i, []);
    Assigned1(i, e1, e2, e3, e4, f1, Known0(i, e1, e2, e3, e4, f1), 17, i, []);
    Assigned2(i, e1, e2, e3, e4, f1, Known1(i, e1, e2, e3, e4, f1), 17, i, []);
    assert !Assigned([], 17, i, []);
  }

  /** What a read of i in scope 17 finds assigned before event 24. */
  lemma {:induction false} Read7(i: string, e1: string, e2: string, e3: string, e4: string, f1: string)
    ensures !Assigned(Known2(i, e1, e2, e3, e4, f1), 17, i, [4])
  {
    Assigned0(i, e1, e2, e3, e4, f1, [], 17, i, [4]);
    Assigned1(i, e1, e2, e3, e4, f1, Known0(i, e1, e2, e3, e4, f1), 17, i, [4]);
    Assigned2(i, e1, e2, e3, e4, f1, Known1(i, e1, e2, e3, e4, f1), 17, i, [4]);
    assert !Assigned([], 17, i, [4]);
  }

  /** The parent and the locals of scope 0. */
  lemma {:induction false} Scope0(i: string, e1: string, e2: string, e3: string, e4: string, f1: string, tr: Tree)
    requires ScopesAre(tr, Layout())
    requires LocalsFit(i, e1, e2, e3, e4, f1, tr)
    ensures |tr.scopes| == 20
    ensures Parent(tr, 0) == None
    ensures LocalsOf(tr, 0) == []
  {
    assert tr.scopes[0] == Layout()[0];
    Locals0(i, e1, e2, e3, e4, f1);
    assert LocalsOf(tr, 0) == DeclaredBy(i, e1, e2, e3, e4, f1, 4, 0);
  }

  /** The parent and the locals of scope 3. */
  lemma {:induction false} Scope3(i: string, e1: string, e2: string, e3: string, e4: string, f1: string, tr: Tree)
    requires ScopesAre(tr, Layout())
    requires LocalsFit(i, e1, e2, e3, e4, f1, tr)
    ensures |tr.scopes| == 20
    ensures Parent(tr, 3) == Some(0)
    ensures LocalsOf(tr, 3) == []
  {
    assert tr.scopes[3] == Layout()[3];
    Locals3(i, e1, e2, e3, e4, f1);
    assert LocalsOf(tr, 3) == DeclaredBy(i, e1, e2, e3, e4, f1, 4, 3);
  }

  /** The parent and the locals of scope 4. */
  lemma {:induction false} Scope4(i: string, e1: string, e2: string, e3: string, e4: string, f1: string, tr: Tree)
    requires ScopesAre(tr, Layout())
    requires LocalsFit(i, e1, e2, e3, e4, f1, tr)
    ensures |tr.scopes| == 20
    ensures Parent(tr, 4) == Some(3)
    ensures LocalsOf(tr, 4) == []
  {
    assert tr.scopes[4] == Layout()[4];
    Locals4(i, e1, e2, e3, e4, f1);
    assert LocalsOf(tr, 4) == DeclaredBy(i, e1, e2, e3, e4, f1, 4, 4);
  }

  /** The parent and the locals of scope 5. */
  lemma {:induction false} Scope5(i: string, e1: string, e2: string, e3: string, e4: string, f1: string, tr: Tree)
    requires ScopesAre(tr, Layout())
    requires LocalsFit(i, e1, e2, e3, e4, f1, tr)
    ensures |tr.scopes| == 20
    ensures Parent(tr, 5) == Some(4)
    ensures LocalsOf(tr, 5) == [Local(i, Pos(108, 18))]
  {
    assert tr.scopes[5] == Layout()[5];
    Locals5(i, e1, e2, e3, e4, f1);
    assert LocalsOf(tr, 5) == DeclaredBy(i, e1, e2, e3, e4, f1, 4, 5);
  }

  /** The parent and the locals of scope 6. */
  lemma {:induction false} Scope6(i: string, e1: string, e2: string, e3: string, e4: string, f1: string, tr: Tree)
    requires ScopesAre(tr, Layout())
    requires LocalsFit(i, e1, e2, e3, e4, f1, tr)
    ensures |tr.scopes| == 20
    ensures Parent(tr, 6) == Some(5)
    ensures LocalsOf(tr, 6) == [Local(e1, Pos(108, 42)), Local(e1, Pos(108, 57))]
  {
    assert tr.scopes[6] == Layout()[6];
    Locals6(i, e1, e2, e3, e4, f1);
    assert LocalsOf(tr, 6) == DeclaredBy(i, e1, e2, e3, e4, f1, 4, 6);
  }

  /** The parent and the locals of scope 8. */
  lemma {:induction false} Scope8(i: string, e1: string, e2: string, e3: string, e4: string, f1: string, tr: Tree)
    requires ScopesAre(tr, Layout())
    requires LocalsFit(i, e1, e2, e3, e4, f1, tr)
    ensures |tr.scopes| == 20
    ensures Parent(tr, 8) == Some(4)
    ensures LocalsOf(tr, 8) == [Local(i, Pos(110, 18))]
  {
    assert tr.scopes[8] == Layout()[8];
    Locals8(i, e1, e2, e3, e4, f1);
    assert LocalsOf(tr, 8) == DeclaredBy(i, e1, e2, e3, e4, f1, 4, 8);
  }

  /** The parent and the locals of scope 9. */
  lemma {:induction false} Scope9(i: string, e1: string, e2: string, e3: string, e4: string, f1: string, tr: Tree)
    requires ScopesAre(tr, Layout())
    requires LocalsFit(i, e1, e2, e3, e4, f1, tr)
    ensures |tr.scopes| == 20
    ensures Parent(tr, 9) == Some(8)
    ensures LocalsOf(tr, 9) == [Local(e2, Pos(110, 42))]
  {
    assert tr.scopes[9] == Layout()[9];
    Locals9(i, e1, e2, e3, e4, f1);
    assert LocalsOf(tr, 9) == DeclaredBy(i, e1, e2, e3, e4, f1, 4, 9);
  }

  /** The parent and the locals of scope 10. */
  lemma {:induction false} Scope10(i: string, e1: string, e2: string, e3: string, e4: string, f1: string, tr: Tree)
    requires ScopesAre(tr, Layout())
    requires LocalsFit(i, e1, e2, e3, e4, f1, tr)
    ensures |tr.scopes| == 20
    ensures Parent(tr, 10) == Some(9)
    ensures LocalsOf(tr, 10) == [Local(e2, Pos(111, 42))]
  {
    assert tr.scopes[10] == Layout()[10];
    Locals10(i, e1, e2, e3, e4, f1);
    assert LocalsOf(tr, 10) == DeclaredBy(i, e1, e2, e3, e4, f1, 4, 10);
  }

  /** The parent and the locals of scope 11. */
  lemma {:induction false} Scope11(i: string, e1: string, e2: string, e3: string, e4: string, f1: string, tr: Tree)
    requires ScopesAre(tr, Layout())
    requires LocalsFit(i, e1, e2, e3, e4, f1, tr)
    ensures |tr.scopes| == 20
    ensures Parent(tr, 11) == Some(4)
    ensures LocalsOf(tr, 11) == [Local(i, Pos(113, 18))]
  {
    assert tr.scopes[11] == Layout()[11];
    Locals11(i, e1, e2, e3, e4, f1);
    assert LocalsOf(tr, 11) == DeclaredBy(i, e1, e2, e3, e4, f1, 4, 11);
  }

  /** The parent and the locals of scope 12. */
  lemma {:induction false} Scope12(i: string, e1: string, e2: string, e3: string, e4: string, f1: string, tr: Tree)
    requires ScopesAre(tr, Layout())
    requires LocalsFit(i, e1, e2, e3, e4, f1, tr)
    ensures |tr.scopes| == 20
    ensures Parent(tr, 12) == Some(11)
    ensures LocalsOf(tr, 12) == [Local(e3, Pos(113, 42))]
  {
    assert tr.scopes[12] == Layout()[12];
    Locals12(i, e1, e2, e3, e4, f1);
    assert LocalsOf(tr, 12) == DeclaredBy(i, e1, e2, e3, e4, f1, 4, 12);
  }

  /** The parent and the locals of scope 13. */
  lemma {:induction false} Scope13(i: string, e1: string, e2: string, e3: string, e4: string, f1: string, tr: Tree)
    requires ScopesAre(tr, Layout())
    requires LocalsFit(i, e1, e2, e3, e4, f1, tr)
    ensures |tr.scopes| == 20
    ensures Parent(tr, 13) == Some(12)
    ensures LocalsOf(tr, 13) == [Local(e3, Pos(115, 42))]
  {
    assert tr.scopes[13] == Layout()[13];
    Locals13(i, e1, e2, e3, e4, f1);
    assert LocalsOf(tr, 13) == DeclaredBy(i, e1, e2, e3, e4, f1, 4, 13);
  }

  /** The parent and the locals of scope 14. */
  lemma {:induction false} Scope14(i: string, e1: string, e2: string, e3: string, e4: string, f1: string, tr: Tree)
    requires ScopesAre(tr, Layout())
    requires LocalsFit(i, e1, e2, e3, e4, f1, tr)
    ensures |tr.scopes| == 20
    ensures Parent(tr, 14) == Some(4)
    ensures LocalsOf(tr, 14) == [Local(i, Pos(118, 18))]
  {
    assert tr.scopes[14] == Layout()[14];
    Locals14(i, e1, e2, e3, e4, f1);
    assert LocalsOf(tr, 14) == DeclaredBy(i, e1, e2, e3, e4, f1, 4, 14);
  }

  /** The parent and the locals of scope 15. */
  lemma {:induction false} Scope15(i: string, e1: string, e2: string, e3: string, e4: string, f1: string, tr: Tree)
    requires ScopesAre(tr, Layout())
    requires LocalsFit(i, e1, e2, e3, e4, f1, tr)
    ensures |tr.scopes| == 20
    ensures Parent(tr, 15) == Some(14)
    ensures LocalsOf(tr, 15) == [Local(e4, Pos(118, 42))]
  {
    assert tr.scopes[15] == Layout()[15];
    Locals15(i, e1, e2, e3, e4, f1);
    assert LocalsOf(tr, 15) == DeclaredBy(i, e1, e2, e3, e4, f1, 4, 15);
  }

  /** The parent and the locals of scope 16. */
  lemma {:induction false} Scope16(i: string, e1: string, e2: string, e3: string, e4: string, f1: string, tr: Tree)
    requires ScopesAre(tr, Layout())
    requires LocalsFit(i, e1, e2, e3, e4, f1, tr)
    ensures |tr.scopes| == 20
    ensures Parent(tr, 16) == Some(15)
    ensures LocalsOf(tr, 16) == [Local(e4, Pos(120, 17))]
  {
    assert tr.scopes[16] == Layout()[16];
    Locals16(i, e1, e2, e3, e4, f1);
    assert LocalsOf(tr, 16) == DeclaredBy(i, e1, e2, e3, e4, f1, 4, 16);
  }

  /** The parent and the locals of scope 17. */
  lemma {:induction false} Scope17(i: string, e1: string, e2: string, e3: string, e4: string, f1: string, tr: Tree)
    requires ScopesAre(tr, Layout())
    requires LocalsFit(i, e1, e2, e3, e4, f1, tr)
    ensures |tr.scopes| == 20
    ensures Parent(tr, 17) == Some(4)
    ensures LocalsOf(tr, 17) == [Local(i, Pos(125, 18))]
  {
    assert tr.scopes[17] == Layout()[17];
    Locals17(i, e1, e2, e3, e4, f1);
    assert LocalsOf(tr, 17) == DeclaredBy(i, e1, e2, e3, e4, f1, 4, 17);
  }

  /** The parent and the locals of scope 18. */
  lemma {:induction false} Scope18(i: string, e1: string, e2: string, e3: string, e4: string, f1: string, tr: Tree)
    requires ScopesAre(tr, Layout())
    requires LocalsFit(i, e1, e2, e3, e4, f1, tr)
    ensures |tr.scopes| == 20
    ensures Parent(tr, 18) == Some(17)
    ensures LocalsOf(tr, 18) == []
  {
    assert tr.scopes[18] == Layout()[18];
    Locals18(i, e1, e2, e3, e4, f1);
    assert LocalsOf(tr, 18) == DeclaredBy(i, e1, e2, e3, e4, f1, 4, 18);
  }

  /** The parent and the locals of scope 19. */
  lemma {:induction false} Scope19(i: string, e1: string, e2: string, e3: string, e4: string, f1: string, tr: Tree)
    requires ScopesAre(tr, Layout())
    requires LocalsFit(i, e1, e2, e3, e4, f1, tr)
    ensures |tr.scopes| == 20
    ensures Parent(tr, 19) == Some(18)
    ensures LocalsOf(tr, 19) == [Local(f1, Pos(126, 43)), Local(f1, Pos(126, 56))]
  {
    assert tr.scopes[19] == Layout()[19];
    Locals19(i, e1, e2, e3, e4, f1);
    assert LocalsOf(tr, 19) == DeclaredBy(i, e1, e2, e3, e4, f1, 4, 19);
  }

  /** The analysis of events 0 to 7, after the events before them. */
  lemma {:induction false} Analysed0(i: string, e1: string, e2: string, e3: string, e4: string, f1: string, tr: Tree, evs: seq<Event>, fs: seq<Fact>, rs: seq<Diag>)
    requires |tr.scopes| == 20
    requires Parent(tr, 0) == None
    requires Parent(tr, 3) == Some(0)
    requires Parent(tr, 4) == Some(3)
    requires Parent(tr, 5) == Some(4)
    requires Parent(tr, 6) == Some(5)
    requires Parent(tr, 8) == Some(4)
    requires Parent(tr, 9) == Some(8)
    requires Parent(tr, 10) == Some(9)
    requires LocalsOf(tr, 0) == []
    requires LocalsOf(tr, 3) == []
    requires LocalsOf(tr, 4) == []
    requires LocalsOf(tr, 5) == [Local(i, Pos(108, 18))]
    requires LocalsOf(tr, 6) == [Local(e1, Pos(108, 42)), Local(e1, Pos(108, 57))]
    requires LocalsOf(tr, 8) == [Local(i, Pos(110, 18))]
    requires LocalsOf(tr, 9) == [Local(e2, Pos(110, 42))]
    requires LocalsOf(tr, 10) == [Local(e2, Pos(111, 42))]
    requires i != e1 && i != e2
    requires Analyse(tr, evs, []) == rs
    requires Replay(tr, evs, []) == fs
    requires !Assigned(fs, 5, i, [])
    requires !Assigned(fs, 5, i, [0])
    requires !Assigned(fs, 8, i, [])
    ensures Analyse(tr, evs + Chunk0(i, e1, e2, e3, e4, f1), []) == rs + ([] + [] + [] + [] + [] + [Diag(Duplicate, e1, Pos(108, 57))] + [] + [] + [Diag(Shadow, e2, Pos(111, 42))])
    ensures Replay(tr, evs + Chunk0(i, e1, e2, e3, e4, f1), []) == fs + [Fact(5, i, [])] + [Fact(6, e1, [0])] + [Fact(6, e1, [0])] + [Fact(8, i, [])] + [Fact(10, e2, [1])]
  {
    assert Analyse(tr, [], fs) == [] && Replay(tr, [], fs) == fs;
    Event0(i, e1, e2, e3, e4, f1, tr, fs);
    AnalyseSnoc(tr, [], Declared(5, i, Pos(108, 18), Initialized, []), fs);
    assert Analyse(tr, [] + [Declared(5, i, Pos(108, 18), Initialized, [])], fs) == [] + [];
    assert Replay(tr, [] + [Declared(5, i, Pos(108, 18), Initialized, [])], fs) == fs + [Fact(5, i, [])];
    AssignedSnoc(fs, Fact(5, i, []), 5, i, []);
    Event1(i, e1, e2, e3, e4, f1, tr, fs + [Fact(5, i, [])]);
    AnalyseSnoc(tr, [] + [Declared(5, i, Pos(108, 18), Initialized, [])], Referenced(6, i, Pos(108, 25), false, false, []), fs);
    assert Analyse(tr, [] + [Declared(5, i, Pos(108, 18), Initialized, [])] + [Referenced(6, i, Pos(108, 25), false, false, [])], fs) == [] + [] + [];
    assert Replay(tr, [] + [Declared(5, i, Pos(108, 18), Initialized, [])] + [Referenced(6, i, Pos(108, 25), false, false, [])], fs) == fs + [Fact(5, i, [])];
    AssignedSnoc(fs, Fact(5, i, []), 5, i, [0]);
    Event2(i, e1, e2, e3, e4, f1, tr, fs + [Fact(5, i, [])]);
    AnalyseSnoc(tr, [] + [Declared(5, i, Pos(108, 18), Initialized, [])] + [Referenced(6, i, Pos(108, 25), false, false, [])], Referenced(6, i, Pos(108, 32), false, false, [0]), fs);
    assert Analyse(tr, [] + [Declared(5, i, Pos(108, 18), Initialized, [])] + [Referenced(6, i, Pos(108, 25), false, false, [])] + [Referenced(6, i, Pos(108, 32), false, false, [0])], fs) == [] + [] + [] + [];
    assert Replay(tr, [] + [Declared(5, i, Pos(108, 18), Initialized, [])] + [Referenced(6, i, Pos(108, 25), false, false, [])] + [Referenced(6, i, Pos(108, 32), false, false, [0])], fs) == fs + [Fact(5, i, [])];
    Event3(i, e1, e2, e3, e4, f1, tr, fs + [Fact(5, i, [])]);
    AnalyseSnoc(tr, [] + [Declared(5, i, Pos(108, 18), Initialized, [])] + [Referenced(6, i, Pos(108, 25), false, false, [])] + [Referenced(6, i, Pos(108, 32), false, false, [0])], Declared(6, e1, Pos(108, 42), Initialized, [0]), fs);
    assert Analyse(tr, [] + [Declared(5, i, Pos(108, 18), Initialized, [])] + [Referenced(6, i, Pos(108, 25), false, false, [])] + [Referenced(6, i, Pos(108, 32), false, false, [0])] + [Declared(6, e1, Pos(108, 42), Initialized, [0])], fs) == [] + [] + [] + [] + [];
    assert Replay(tr, [] + [Declared(5, i, Pos(108, 18), Initialized, [])] + [Referenced(6, i, Pos(108, 25), false, false, [])] + [Referenced(6, i, Pos(108, 32), false, false, [0])] + [Declared(6, e1, Pos(108, 42), Initialized, [0])], fs) == fs + [Fact(5, i, [])] + [Fact(6, e1, [0])];
    Event4(i, e1, e2, e3, e4, f1, tr, fs + [Fact(5, i, [])] + [Fact(6, e1, [0])]);
    AnalyseSnoc(tr, [] + [Declared(5, i, Pos(108, 18), Initialized, [])] + [Referenced(6, i, Pos(108, 25), false, false, [])] + [Referenced(6, i, Pos(108, 32), false, false, [0])] + [Declared(6, e1, Pos(108, 42), Initialized, [0])], Declared(6, e1, Pos(108, 57), Initialized, [0]), fs);
    assert Analyse(tr, [] + [Declared(5, i, Pos(108, 18), Initialized, [])] + [Referenced(6, i, Pos(108, 25), false, false, [])] + [Referenced(6, i, Pos(108, 32), false, false, [0])] + [Declared(6, e1, Pos(108, 42), Initialized, [0])] + [Declared(6, e1, Pos(108, 57), Initialized, [0])], fs) == [] + [] + [] + [] + [] + [Diag(Duplicate, e1, Pos(108, 57))];
    assert Replay(tr, [] + [Declared(5, i, Pos(108, 18), Initialized, [])] + [Referenced(6, i, Pos(108, 25), false, false, [])] + [Referenced(6, i, Pos(108, 32), false, false, [0])] + [Declared(6, e1, Pos(108, 42), Initialized, [0])] + [Declared(6, e1, Pos(108, 57), Initialized, [0])], fs) == fs + [Fact(5, i, [])] + [Fact(6, e1, [0])] + [Fact(6, e1, [0])];
    Event5(i, e1, e2, e3, e4, f1, tr, fs + [Fact(5, i, [])] + [Fact(6, e1, [0])] + [Fact(6, e1, [0])]);
    AnalyseSnoc(tr, [] + [Declared(5, i, Pos(108, 18), Initialized, [])] + [Referenced(6, i, Pos(108, 25), false, false, [])] + [Referenced(6, i, Pos(108, 32), false, false, [0])] + [Declared(6, e1, Pos(108, 42), Initialized, [0])] + [Declared(6, e1, Pos(108, 57), Initialized, [0])], Declared(8, i, Pos(110, 18), Initialized, []), fs);
    assert Analyse(tr, [] + [Declared(5, i, Pos(108, 18), Initialized, [])] + [Referenced(6, i, Pos(108, 25), false, false, [])] + [Referenced(6, i, Pos(108, 32), false, false, [0])] + [Declared(6, e1, Pos(108, 42), Initialized, [0])] + [Declared(6, e1, Pos(108, 57), Initialized, [0])] + [Declared(8, i, Pos(110, 18), Initialized, [])], fs) == [] + [] + [] + [] + [] + [Diag(Duplicate, e1, Pos(108, 57))] + [];
    assert Replay(tr, [] + [Declared(5, i, Pos(108, 18), Initialized, [])] + [Referenced(6, i, Pos(108, 25), false, false, [])] + [Referenced(6, i, Pos(108, 32), false, false, [0])] + [Declared(6, e1, Pos(108, 42), Initialized, [0])] + [Declared(6, e1, Pos(108, 57), Initialized, [0])] + [Declared(8, i, Pos(110, 18), Initialized, [])], fs) == fs + [Fact(5, i, [])] + [Fact(6, e1, [0])] + [Fact(6, e1, [0])] + [Fact(8, i, [])];
    AssignedSnoc(fs, Fact(5, i, []), 8, i, []);
    AssignedSnoc(fs + [Fact(5, i, [])], Fact(6, e1, [0]), 8, i, []);
    AssignedSnoc(fs + [Fact(5, i, [])] + [Fact(6, e1, [0])], Fact(6, e1, [0]), 8, i, []);
    AssignedSnoc(fs + [Fact(5, i, [])] + [Fact(6, e1, [0])] + [Fact(6, e1, [0])], Fact(8, i, []), 8, i, []);
    Event6(i, e1, e2, e3, e4, f1, tr, fs + [Fact(5, i, [])] + [Fact(6, e1, [0])] + [Fact(6, e1, [0])] + [Fact(8, i, [])]);
    AnalyseSnoc(tr, [] + [Declared(5, i, Pos(108, 18), Initialized, [])] + [Referenced(6, i, Pos(108, 25), false, false, [])] + [Referenced(6, i, Pos(108, 32), false, false, [0])] + [Declared(6, e1, Pos(108, 42), Initialized, [0])] + [Declared(6, e1, Pos(108, 57), Initialized, [0])] + [Declared(8, i, Pos(110, 18), Initialized, [])], Referenced(9, i, Pos(110, 25), false, false, []), fs);
    assert Analyse(tr, [] + [Declared(5, i, Pos(108, 18), Initialized, [])] + [Referenced(6, i, Pos(108, 25), false, false, [])] + [Referenced(6, i, Pos(108, 32), false, false, [0])] + [Declared(6, e1, Pos(108, 42), Initialized, [0])] + [Declared(6, e1, Pos(108, 57), Initialized, [0])] + [Declared(8, i, Pos(110, 18), Initialized, [])] + [Referenced(9, i, Pos(110, 25), false, false, [])], fs) == [] + [] + [] + [] + [] + [Diag(Duplicate, e1, Pos(108, 57))] + [] + [];
    assert Replay(tr, [] + [Declared(5, i, Pos(108, 18), Initialized, [])] + [Referenced(6, i, Pos(108, 25), false, false, [])] + [Referenced(6, i, Pos(108, 32), false, false, [0])] + [Declared(6, e1, Pos(108, 42), Initialized, [0])] + [Declared(6, e1, Pos(108, 57), Initialized, [0])] + [Declared(8, i, Pos(110, 18), Initialized, [])] + [Referenced(9, i, Pos(110, 25), false, false, [])], fs) == fs + [Fact(5, i, [])] + [Fact(6, e1, [0])] + [Fact(6, e1, [0])] + [Fact(8, i, [])];
    Event7(i, e1, e2, e3, e4, f1, tr, fs + [Fact(5, i, [])] + [Fact(6, e1, [0])] + [Fact(6, e1, [0])] + [Fact(8, i, [])]);
    AnalyseSnoc(tr, [] + [Declared(5, i, Pos(108, 18), Initialized, [])] + [Referenced(6, i, Pos(108, 25), false, false, [])] + [Referenced(6, i, Pos(108, 32), false, false, [0])] + [Declared(6, e1, Pos(108, 42), Initialized, [0])] + [Declared(6, e1, Pos(108, 57), Initialized, [0])] + [Declared(8, i, Pos(110, 18), Initialized, [])] + [Referenced(9, i, Pos(110, 25), false, false, [])], Declared(10, e2, Pos(111, 42), Initialized, [1]), fs);
    AnalyseSplit(tr, evs, Chunk0(i, e1, e2, e3, e4, f1), []);
  }

  /** The analysis of events 8 to 15, after the events before them. */
  lemma {:induction false} Analysed1(i: string, e1: string, e2: string, e3: string, e4: string, f1: string, tr: Tree, evs: seq<Event>, fs: seq<Fact>, rs: seq<Diag>)
    requires |tr.scopes| == 20
    requires Parent(tr, 0) == None
    requires Parent(tr, 3) == Some(0)
    requires Parent(tr, 4) == Some(3)
    requires Parent(tr, 8) == Some(4)
    requires Parent(tr, 9) == Some(8)
    requires Parent(tr, 11) == Some(4)
    requires Parent(tr, 12) == Some(11)
    requires Parent(tr, 13) == Some(12)
    requires LocalsOf(tr, 0) == []
    requires LocalsOf(tr, 3) == []
    requires LocalsOf(tr, 4) == []
    requires LocalsOf(tr, 8) == [Local(i, Pos(110, 18))]
    requires LocalsOf(tr, 9) == [Local(e2, Pos(110, 42))]
    requires LocalsOf(tr, 11) == [Local(i, Pos(113, 18))]
    requires LocalsOf(tr, 12) == [Local(e3, Pos(113, 42))]
    requires LocalsOf(tr, 13) == [Local(e3, Pos(115, 42))]
    requires i != e2 && i != e3
    requires Analyse(tr, evs, []) == rs
    requires Replay(tr, evs, []) == fs
    requires Assigned(fs, 8, i, [1])
    requires !Assigned(fs, 11, i, [])
    requires !Assigned(fs, 11, i, [2])
    ensures Analyse(tr, evs + Chunk1(i, e1, e2, e3, e4, f1), []) == rs + ([] + [] + [] + [] + [] + [] + [Diag(Shadow, e3, Pos(115, 42))] + [] + [])
    ensures Replay(tr, evs + Chunk1(i, e1, e2, e3, e4, f1), []) == fs + [Fact(9, e2, [1])] + [Fact(11, i, [])] + [Fact(13, e3, [2])]
  {
    assert Analyse(tr, [], fs) == [] && Replay(tr, [], fs) == fs;
    Event8(i, e1, e2, e3, e4, f1, tr, fs);
    AnalyseSnoc(tr, [], OutAssigned(10, [], [1]), fs);
    assert Analyse(tr, [] + [OutAssigned(10, [], [1])], fs) == [] + [];
    assert Replay(tr, [] + [OutAssigned(10, [], [1])], fs) == fs;
    Event9(i, e1, e2, e3, e4, f1, tr, fs);
    AnalyseSnoc(tr, [] + [OutAssigned(10, [], [1])], Referenced(9, i, Pos(110, 32), false, false, [1]), fs);
    assert Analyse(tr, [] + [OutAssigned(10, [], [1])] + [Referenced(9, i, Pos(110, 32), false, false, [1])], fs) == [] + [] + [];
    assert Replay(tr, [] + [OutAssigned(10, [], [1])] + [Referenced(9, i, Pos(110, 32), false, false, [1])], fs) == fs;
    Event10(i, e1, e2, e3, e4, f1, tr, fs);
    AnalyseSnoc(tr, [] + [OutAssigned(10, [], [1])] + [Referenced(9, i, Pos(110, 32), false, false, [1])], Declared(9, e2, Pos(110, 42), Initialized, [1]), fs);
    assert Analyse(tr, [] + [OutAssigned(10, [], [1])] + [Referenced(9, i, Pos(110, 32), false, false, [1])] + [Declared(9, e2, Pos(110, 42), Initialized, [1])], fs) == [] + [] + [] + [];
    assert Replay(tr, [] + [OutAssigned(10, [], [1])] + [Referenced(9, i, Pos(110, 32), false, false, [1])] + [Declared(9, e2, Pos(110, 42), Initialized, [1])], fs) == fs + [Fact(9, e2, [1])];
    Event11(i, e1, e2, e3, e4, f1, tr, fs + [Fact(9, e2, [1])]);
    AnalyseSnoc(tr, [] + [OutAssigned(10, [], [1])] + [Referenced(9, i, Pos(110, 32), false, false, [1])] + [Declared(9, e2, Pos(110, 42), Initialized, [1])], Declared(11, i, Pos(113, 18), Initialized, []), fs);
    assert Analyse(tr, [] + [OutAssigned(10, [], [1])] + [Referenced(9, i, Pos(110, 32), false, false, [1])] + [Declared(9, e2, Pos(110, 42), Initialized, [1])] + [Declared(11, i, Pos(113, 18), Initialized, [])], fs) == [] + [] + [] + [] + [];
    assert Replay(tr, [] + [OutAssigned(10, [], [1])] + [Referenced(9, i, Pos(110, 32), false, false, [1])] + [Declared(9, e2, Pos(110, 42), Initialized, [1])] + [Declared(11, i, Pos(113, 18), Initialized, [])], fs) == fs + [Fact(9, e2, [1])] + [Fact(11, i, [])];
    AssignedSnoc(fs, Fact(9, e2, [1]), 11, i, []);
    AssignedSnoc(fs + [Fact(9, e2, [1])], Fact(11, i, []), 11, i, []);
    Event12(i, e1, e2, e3, e4, f1, tr, fs + [Fact(9, e2, [1])] + [Fact(11, i, [])]);
    AnalyseSnoc(tr, [] + [OutAssigned(10, [], [1])] + [Referenced(9, i, Pos(110, 32), false, false, [1])] + [Declared(9, e2, Pos(110, 42), Initialized, [1])] + [Declared(11, i, Pos(113, 18), Initialized, [])], Referenced(12, i, Pos(113, 25), false, false, []), fs);
    assert Analyse(tr, [] + [OutAssigned(10, [], [1])] + [Referenced(9, i, Pos(110, 32), false, false, [1])] + [Declared(9, e2, Pos(110, 42), Initialized, [1])] + [Declared(11, i, Pos(113, 18), Initialized, [])] + [Referenced(12, i, Pos(113, 25), false, false, [])], fs) == [] + [] + [] + [] + [] + [];
    assert Replay(tr, [] + [OutAssigned(10, [], [1])] + [Referenced(9, i, Pos(110, 32), false, false, [1])] + [Declared(9, e2, Pos(110, 42), Initialized, [1])] + [Declared(11, i, Pos(113, 18), Initialized, [])] + [Referenced(12, i, Pos(113, 25), false, false, [])], fs) == fs + [Fact(9, e2, [1])] + [Fact(11, i, [])];
    Event13(i, e1, e2, e3, e4, f1, tr, fs + [Fact(9, e2, [1])] + [Fact(11, i, [])]);
    AnalyseSnoc(tr, [] + [OutAssigned(10, [], [1])] + [Referenced(9, i, Pos(110, 32), false, false, [1])] + [Declared(9, e2, Pos(110, 42), Initialized, [1])] + [Declared(11, i, Pos(113, 18), Initialized, [])] + [Referenced(12, i, Pos(113, 25), false, false, [])], Declared(13, e3, Pos(115, 42), Initialized, [2]), fs);
    assert Analyse(tr, [] + [OutAssigned(10, [], [1])] + [Referenced(9, i, Pos(110, 32), false, false, [1])] + [Declared(9, e2, Pos(110, 42), Initialized, [1])] + [Declared(11, i, Pos(113, 18), Initialized, [])] + [Referenced(12, i, Pos(113, 25), false, false, [])] + [Declared(13, e3, Pos(115, 42), Initialized, [2])], fs) == [] + [] + [] + [] + [] + [] + [Diag(Shadow, e3, Pos(115, 42))];
    assert Replay(tr, [] + [OutAssigned(10, [], [1])] + [Referenced(9, i, Pos(110, 32), false, false, [1])] + [Declared(9, e2, Pos(110, 42), Initialized, [1])] + [Declared(11, i, Pos(113, 18), Initialized, [])] + [Referenced(12, i, Pos(113, 25), false, false, [])] + [Declared(13, e3, Pos(115, 42), Initialized, [2])], fs) == fs + [Fact(9, e2, [1])] + [Fact(11, i, [])] + [Fact(13, e3, [2])];
    Event14(i, e1, e2, e3, e4, f1, tr, fs + [Fact(9, e2, [1])] + [Fact(11, i, [])] + [Fact(13, e3, [2])]);
    AnalyseSnoc(tr, [] + [OutAssigned(10, [], [1])] + [Referenced(9, i, Pos(110, 32), false, false, [1])] + [Declared(9, e2, Pos(110, 42), Initialized, [1])] + [Declared(11, i, Pos(113, 18), Initialized, [])] + [Referenced(12, i, Pos(113, 25), false, false, [])] + [Declared(13, e3, Pos(115, 42), Initialized, [2])], OutAssigned(13, [], [2]), fs);
    assert Analyse(tr, [] + [OutAssigned(10, [], [1])] + [Referenced(9, i, Pos(110, 32), false, false, [1])] + [Declared(9, e2, Pos(110, 42), Initialized, [1])] + [Declared(11, i, Pos(113, 18), Initialized, [])] + [Referenced(12, i, Pos(113, 25), false, false, [])] + [Declared(13, e3, Pos(115, 42), Initialized, [2])] + [OutAssigned(13, [], [2])], fs) == [] + [] + [] + [] + [] + [] + [Diag(Shadow, e3, Pos(115, 42))] + [];
    assert Replay(tr, [] + [OutAssigned(10, [], [1])] + [Referenced(9, i, Pos(110, 32), false, false, [1])] + [Declared(9, e2, Pos(110, 42), Initialized, [1])] + [Declared(11, i, Pos(113, 18), Initialized, [])] + [Referenced(12, i, Pos(113, 25), false, false, [])] + [Declared(13, e3, Pos(115, 42), Initialized, [2])] + [OutAssigned(13, [], [2])], fs) == fs + [Fact(9, e2, [1])] + [Fact(11, i, [])] + [Fact(13, e3, [2])];
    AssignedSnoc(fs, Fact(9, e2, [1]), 11, i, [2]);
    AssignedSnoc(fs + [Fact(9, e2, [1])], Fact(11, i, []), 11, i, [2]);
    AssignedSnoc(fs + [Fact(9, e2, [1])] + [Fact(11, i, [])], Fact(13, e3, [2]), 11, i, [2]);
    Event15(i, e1, e2, e3, e4, f1, tr, fs + [Fact(9, e2, [1])] + [Fact(11, i, [])] + [Fact(13, e3, [2])]);
    AnalyseSnoc(tr, [] + [OutAssigned(10, [], [1])] + [Referenced(9, i, Pos(110, 32), false, false, [1])] + [Declared(9, e2, Pos(110, 42), Initialized, [1])] + [Declared(11, i, Pos(113, 18), Initialized, [])] + [Referenced(12, i, Pos(113, 25), false, false, [])] + [Declared(13, e3, Pos(115, 42), Initialized, [2])] + [OutAssigned(13, [], [2])], Referenced(12, i, Pos(113, 32), false, false, [2]), fs);
    AnalyseSplit(tr, evs, Chunk1(i, e1, e2, e3, e4, f1), []);
  }

  /** The analysis of events 16 to 23, after the events before them. */
  lemma {:induction false} Analysed2(i: string, e1: string, e2: string, e3: string, e4: string, f1: string, tr: Tree, evs: seq<Event>, fs: seq<Fact>, rs: seq<Diag>)
    requires |tr.scopes| == 20
    requires Parent(tr, 0) == None
    requires Parent(tr, 3) == Some(0)
    requires Parent(tr, 4) == Some(3)
    requires Parent(tr, 11) == Some(4)
    requires Parent(tr, 12) == Some(11)
    requires Parent(tr, 14) == Some(4)
    requires Parent(tr, 15) == Some(14)
    requires Parent(tr, 16) == Some(15)
    requires LocalsOf(tr, 0) == []
    requires LocalsOf(tr, 3) == []
    requires LocalsOf(tr, 4) == []
    requires LocalsOf(tr, 11) == [Local(i, Pos(113, 18))]
    requires LocalsOf(tr, 12) == [Local(e3, Pos(113, 42))]
    requires LocalsOf(tr, 14) == [Local(i, Pos(118, 18))]
    requires LocalsOf(tr, 15) == [Local(e4, Pos(118, 42))]
    requires LocalsOf(tr, 16) == [Local(e4, Pos(120, 17))]
    requires i != e3 && i != e4
    requires Analyse(tr, evs, []) == rs
    requires Replay(tr, evs, []) == fs
    requires !Assigned(fs, 14, i, [])
    requires !Assigned(fs, 16, e4, [3])
    requires !Assigned(fs, 14, i, [3])
    ensures Analyse(tr, evs + Chunk2(i, e1, e2, e3, e4, f1), []) == rs + ([] + [] + [] + [] + [Diag(Shadow, e4, Pos(120, 17))] + [] + [] + [] + [])
    ensures Replay(tr, evs + Chunk2(i, e1, e2, e3, e4, f1), []) == fs + [Fact(12, e3, [2])] + [Fact(14, i, [])] + [Fact(16, e4, [3])] + [Fact(15, e4, [3])]
  {
    assert Analyse(tr, [], fs) == [] && Replay(tr, [], fs) == fs;
    Event16(i, e1, e2, e3, e4, f1, tr, fs);
    AnalyseSnoc(tr, [], Declared(12, e3, Pos(113, 42), Initialized, [2]), fs);
    assert Analyse(tr, [] + [Declared(12, e3, Pos(113, 42), Initialized, [2])], fs) == [] + [];
    assert Replay(tr, [] + [Declared(12, e3, Pos(113, 42), Initialized, [2])], fs) == fs + [Fact(12, e3, [2])];
    Event17(i, e1, e2, e3, e4, f1, tr, fs + [Fact(12, e3, [2])]);
    AnalyseSnoc(tr, [] + [Declared(12, e3, Pos(113, 42), Initialized, [2])], Declared(14, i, Pos(118, 18), Initialized, []), fs);
    assert Analyse(tr, [] + [Declared(12, e3, Pos(113, 42), Initialized, [2])] + [Declared(14, i, Pos(118, 18), Initialized, [])], fs) == [] + [] + [];
    assert Replay(tr, [] + [Declared(12, e3, Pos(113, 42), Initialized, [2])] + [Declared(14, i, Pos(118, 18), Initialized, [])], fs) == fs + [Fact(12, e3, [2])] + [Fact(14, i, [])];
    AssignedSnoc(fs, Fact(12, e3, [2]), 14, i, []);
    AssignedSnoc(fs + [Fact(12, e3, [2])], Fact(14, i, []), 14, i, []);
    Event18(i, e1, e2, e3, e4, f1, tr, fs + [Fact(12, e3, [2])] + [Fact(14, i, [])]);
    AnalyseSnoc(tr, [] + [Declared(12, e3, Pos(113, 42), Initialized, [2])] + [Declared(14, i, Pos(118, 18), Initialized, [])], Referenced(15, i, Pos(118, 25), false, false, []), fs);
    assert Analyse(tr, [] + [Declared(12, e3, Pos(113, 42), Initialized, [2])] + [Declared(14, i, Pos(118, 18), Initialized, [])] + [Referenced(15, i, Pos(118, 25), false, false, [])], fs) == [] + [] + [] + [];
    assert Replay(tr, [] + [Declared(12, e3, Pos(113, 42), Initialized, [2])] + [Declared(14, i, Pos(118, 18), Initialized, [])] + [Referenced(15, i, Pos(118, 25), false, false, [])], fs) == fs + [Fact(12, e3, [2])] + [Fact(14, i, [])];
    Event19(i, e1, e2, e3, e4, f1, tr, fs + [Fact(12, e3, [2])] + [Fact(14, i, [])]);
    AnalyseSnoc(tr, [] + [Declared(12, e3, Pos(113, 42), Initialized, [2])] + [Declared(14, i, Pos(118, 18), Initialized, [])] + [Referenced(15, i, Pos(118, 25), false, false, [])], Declared(16, e4, Pos(120, 17), Initialized, [3]), fs);
    assert Analyse(tr, [] + [Declared(12, e3, Pos(113, 42), Initialized, [2])] + [Declared(14, i, Pos(118, 18), Initialized, [])] + [Referenced(15, i, Pos(118, 25), false, false, [])] + [Declared(16, e4, Pos(120, 17), Initialized, [3])], fs) == [] + [] + [] + [] + [Diag(Shadow, e4, Pos(120, 17))];
    assert Replay(tr, [] + [Declared(12, e3, Pos(113, 42), Initialized, [2])] + [Declared(14, i, Pos(118, 18), Initialized, [])] + [Referenced(15, i, Pos(118, 25), false, false, [])] + [Declared(16, e4, Pos(120, 17), Initialized, [3])], fs) == fs + [Fact(12, e3, [2])] + [Fact(14, i, [])] + [Fact(16, e4, [3])];
    AssignedSnoc(fs, Fact(12, e3, [2]), 16, e4, [3]);
    AssignedSnoc(fs + [Fact(12, e3, [2])], Fact(14, i, []), 16, e4, [3]);
    AssignedSnoc(fs + [Fact(12, e3, [2])] + [Fact(14, i, [])], Fact(16, e4, [3]), 16, e4, [3]);
    Event20(i, e1, e2, e3, e4, f1, tr, fs + [Fact(12, e3, [2])] + [Fact(14, i, [])] + [Fact(16, e4, [3])]);
    AnalyseSnoc(tr, [] + [Declared(12, e3, Pos(113, 42), Initialized, [2])] + [Declared(14, i, Pos(118, 18), Initialized, [])] + [Referenced(15, i, Pos(118, 25), false, false, [])] + [Declared(16, e4, Pos(120, 17), Initialized, [3])], Referenced(16, e4, Pos(121, 38), false, false, [3]), fs);
    assert Analyse(tr, [] + [Declared(12, e3, Pos(113, 42), Initialized, [2])] + [Declared(14, i, Pos(118, 18), Initialized, [])] + [Referenced(15, i, Pos(118, 25), false, false, [])] + [Declared(16, e4, Pos(120, 17), Initialized, [3])] + [Referenced(16, e4, Pos(121, 38), false, false, [3])], fs) == [] + [] + [] + [] + [Diag(Shadow, e4, Pos(120, 17))] + [];
    assert Replay(tr, [] + [Declared(12, e3, Pos(113, 42), Initialized, [2])] + [Declared(14, i, Pos(118, 18), Initialized, [])] + [Referenced(15, i, Pos(118, 25), false, false, [])] + [Declared(16, e4, Pos(120, 17), Initialized, [3])] + [Referenced(16, e4, Pos(121, 38), false, false, [3])], fs) == fs + [Fact(12, e3, [2])] + [Fact(14, i, [])] + [Fact(16, e4, [3])];
    Event21(i, e1, e2, e3, e4, f1, tr, fs + [Fact(12, e3, [2])] + [Fact(14, i, [])] + [Fact(16, e4, [3])]);
    AnalyseSnoc(tr, [] + [Declared(12, e3, Pos(113, 42), Initialized, [2])] + [Declared(14, i, Pos(118, 18), Initialized, [])] + [Referenced(15, i, Pos(118, 25), false, false, [])] + [Declared(16, e4, Pos(120, 17), Initialized, [3])] + [Referenced(16, e4, Pos(121, 38), false, false, [3])], OutAssigned(16, [], [3]), fs);
    assert Analyse(tr, [] + [Declared(12, e3, Pos(113, 42), Initialized, [2])] + [Declared(14, i, Pos(118, 18), Initialized, [])] + [Referenced(15, i, Pos(118, 25), false, false, [])] + [Declared(16, e4, Pos(120, 17), Initialized, [3])] + [Referenced(16, e4, Pos(121, 38), false, false, [3])] + [OutAssigned(16, [], [3])], fs) == [] + [] + [] + [] + [Diag(Shadow, e4, Pos(120, 17))] + [] + [];
    assert Replay(tr, [] + [Declared(12, e3, Pos(113, 42), Initialized, [2])] + [Declared(14, i, Pos(118, 18), Initialized, [])] + [Referenced(15, i, Pos(118, 25), false, false, [])] + [Declared(16, e4, Pos(120, 17), Initialized, [3])] + [Referenced(16, e4, Pos(121, 38), false, false, [3])] + [OutAssigned(16, [], [3])], fs) == fs + [Fact(12, e3, [2])] + [Fact(14, i, [])] + [Fact(16, e4, [3])];
    AssignedSnoc(fs, Fact(12, e3, [2]), 14, i, [3]);
    AssignedSnoc(fs + [Fact(12, e3, [2])], Fact(14, i, []), 14, i, [3]);
    AssignedSnoc(fs + [Fact(12, e3, [2])] + [Fact(14, i, [])], Fact(16, e4, [3]), 14, i, [3]);
    Event22(i, e1, e2, e3, e4, f1, tr, fs + [Fact(12, e3, [2])] + [Fact(14, i, [])] + [Fact(16, e4, [3])]);
    AnalyseSnoc(tr, [] + [Declared(12, e3, Pos(113, 42), Initialized, [2])] + [Declared(14, i, Pos(118, 18), Initialized, [])] + [Referenced(15, i, Pos(118, 25), false, false, [])] + [Declared(16, e4, Pos(120, 17), Initialized, [3])] + [Referenced(16, e4, Pos(121, 38), false, false, [3])] + [OutAssigned(16, [], [3])], Referenced(15, i, Pos(118, 32), false, false, [3]), fs);
    assert Analyse(tr, [] + [Declared(12, e3, Pos(113, 42), Initialized, [2])] + [Declared(14, i, Pos(118, 18), Initialized, [])] + [Referenced(15, i, Pos(118, 25), false, false, [])] + [Declared(16, e4, Pos(120, 17), Initialized, [3])] + [Referenced(16, e4, Pos(121, 38), false, false, [3])] + [OutAssigned(16, [], [3])] + [Referenced(15, i, Pos(118, 32), false, false, [3])], fs) == [] + [] + [] + [] + [Diag(Shadow, e4, Pos(120, 17))] + [] + [] + [];
    assert Replay(tr, [] + [Declared(12, e3, Pos(113, 42), Initialized, [2])] + [Declared(14, i, Pos(118, 18), Initialized, [])] + [Referenced(15, i, Pos(118, 25), false, false, [])] + [Declared(16, e4, Pos(120, 17), Initialized, [3])] + [Referenced(16, e4, Pos(121, 38), false, false, [3])] + [OutAssigned(16, [], [3])] + [Referenced(15, i, Pos(118, 32), false, false, [3])], fs) == fs + [Fact(12, e3, [2])] + [Fact(14, i, [])] + [Fact(16, e4, [3])];
    Event23(i, e1, e2, e3, e4, f1, tr, fs + [Fact(12, e3, [2])] + [Fact(14, i, [])] + [Fact(16, e4, [3])]);
    AnalyseSnoc(tr, [] + [Declared(12, e3, Pos(113, 42), Initialized, [2])] + [Declared(14, i, Pos(118, 18), Initialized, [])] + [Referenced(15, i, Pos(118, 25), false, false, [])] + [Declared(16, e4, Pos(120, 17), Initialized, [3])] + [Referenced(16, e4, Pos(121, 38), false, false, [3])] + [OutAssigned(16, [], [3])] + [Referenced(15, i, Pos(118, 32), false, false, [3])], Declared(15, e4, Pos(118, 42), Initialized, [3]), fs);
    AnalyseSplit(tr, evs, Chunk2(i, e1, e2, e3, e4, f1), []);
  }

  /** The analysis of events 24 to 29, after the events before them. */
  lemma {:induction false} Analysed3(i: string, e1: string, e2: string, e3: string, e4: string, f1: string, tr: Tree, evs: seq<Event>, fs: seq<Fact>, rs: seq<Diag>)
    requires |tr.scopes| == 20
    requires Parent(tr, 0) == None
    requires Parent(tr, 3) == Some(0)
    requires Parent(tr, 4) == Some(3)
    requires Parent(tr, 17) == Some(4)
    requires Parent(tr, 18) == Some(17)
    requires Parent(tr, 19) == Some(18)
    requires LocalsOf(tr, 0) == []
    requires LocalsOf(tr, 3) == []
    requires LocalsOf(tr, 4) == []
    requires LocalsOf(tr, 17) == [Local(i, Pos(125, 18))]
    requires LocalsOf(tr, 18) == []
    requires LocalsOf(tr, 19) == [Local(f1, Pos(126, 43)), Local(f1, Pos(126, 56))]
    requires i != f1
    requires Analyse(tr, evs, []) == rs
    requires Replay(tr, evs, []) == fs
    requires !Assigned(fs, 17, i, [])
    requires !Assigned(fs, 17, i, [4])
    ensures Analyse(tr, evs + Chunk3(i, e1, e2, e3, e4, f1), []) == rs + ([] + [] + [] + [] + [Diag(Duplicate, f1, Pos(126, 56))] + [] + [])
    ensures Replay(tr, evs + Chunk3(i, e1, e2, e3, e4, f1), []) == fs + [Fact(17, i, [])] + [Fact(19, f1, [4])] + [Fact(19, f1, [4])]
  {
    assert Analyse(tr, [], fs) == [] && Replay(tr, [], fs) == fs;
    Event24(i, e1, e2, e3, e4, f1, tr, fs);
    AnalyseSnoc(tr, [], Declared(17, i, Pos(125, 18), Initialized, []), fs);
    assert Analyse(tr, [] + [Declared(17, i, Pos(125, 18), Initialized, [])], fs) == [] + [];
    assert Replay(tr, [] + [Declared(17, i, Pos(125, 18), Initialized, [])], fs) == fs + [Fact(17, i, [])];
    AssignedSnoc(fs, Fact(17, i, []), 17, i, []);
    Event25(i, e1, e2, e3, e4, f1, tr, fs + [Fact(17, i, [])]);
    AnalyseSnoc(tr, [] + [Declared(17, i, Pos(125, 18), Initialized, [])], Referenced(18, i, Pos(125, 25), false, false, []), fs);
    assert Analyse(tr, [] + [Declared(17, i, Pos(125, 18), Initialized, [])] + [Referenced(18, i, Pos(125, 25), false, false, [])], fs) == [] + [] + [];
    assert Replay(tr, [] + [Declared(17, i, Pos(125, 18), Initialized, [])] + [Referenced(18, i, Pos(125, 25), false, false, [])], fs) == fs + [Fact(17, i, [])];
    Event26(i, e1, e2, e3, e4, f1, tr, fs + [Fact(17, i, [])]);
    AnalyseSnoc(tr, [] + [Declared(17, i, Pos(125, 18), Initialized, [])] + [Referenced(18, i, Pos(125, 25), false, false, [])], Declared(19, f1, Pos(126, 43), Initialized, [4]), fs);
    assert Analyse(tr, [] + [Declared(17, i, Pos(125, 18), Initialized, [])] + [Referenced(18, i, Pos(125, 25), false, false, [])] + [Declared(19, f1, Pos(126, 43), Initialized, [4])], fs) == [] + [] + [] + [];
    assert Replay(tr, [] + [Declared(17, i, Pos(125, 18), Initialized, [])] + [Referenced(18, i, Pos(125, 25), false, false, [])] + [Declared(19, f1, Pos(126, 43), Initialized, [4])], fs) == fs + [Fact(17, i, [])] + [Fact(19, f1, [4])];
    Event27(i, e1, e2, e3, e4, f1, tr, fs + [Fact(17, i, [])] + [Fact(19, f1, [4])]);
    AnalyseSnoc(tr, [] + [Declared(17, i, Pos(125, 18), Initialized, [])] + [Referenced(18, i, Pos(125, 25), false, false, [])] + [Declared(19, f1, Pos(126, 43), Initialized, [4])], Declared(19, f1, Pos(126, 56), Initialized, [4]), fs);
    assert Analyse(tr, [] + [Declared(17, i, Pos(125, 18), Initialized, [])] + [Referenced(18, i, Pos(125, 25), false, false, [])] + [Declared(19, f1, Pos(126, 43), Initialized, [4])] + [Declared(19, f1, Pos(126, 56), Initialized, [4])], fs) == [] + [] + [] + [] + [Diag(Duplicate, f1, Pos(126, 56))];
    assert Replay(tr, [] + [Declared(17, i, Pos(125, 18), Initialized, [])] + [Referenced(18, i, Pos(125, 25), false, false, [])] + [Declared(19, f1, Pos(126, 43), Initialized, [4])] + [Declared(19, f1, Pos(126, 56), Initialized, [4])], fs) == fs + [Fact(17, i, [])] + [Fact(19, f1, [4])] + [Fact(19, f1, [4])];
    Event28(i, e1, e2, e3, e4, f1, tr, fs + [Fact(17, i, [])] + [Fact(19, f1, [4])] + [Fact(19, f1, [4])]);
    AnalyseSnoc(tr, [] + [Declared(17, i, Pos(125, 18), Initialized, [])] + [Referenced(18, i, Pos(125, 25), false, false, [])] + [Declared(19, f1, Pos(126, 43), Initialized, [4])] + [Declared(19, f1, Pos(126, 56), Initialized, [4])], OutAssigned(19, [], [4]), fs);
    assert Analyse(tr, [] + [Declared(17, i, Pos(125, 18), Initialized, [])] + [Referenced(18, i, Pos(125, 25), false, false, [])] + [Declared(19, f1, Pos(126, 43), Initialized, [4])] + [Declared(19, f1, Pos(126, 56), Initialized, [4])] + [OutAssigned(19, [], [4])], fs) == [] + [] + [] + [] + [Diag(Duplicate, f1, Pos(126, 56))] + [];
    assert Replay(tr, [] + [Declared(17, i, Pos(125, 18), Initialized, [])] + [Referenced(18, i, Pos(125, 25), false, false, [])] + [Declared(19, f1, Pos(126, 43), Initialized, [4])] + [Declared(19, f1, Pos(126, 56), Initialized, [4])] + [OutAssigned(19, [], [4])], fs) == fs + [Fact(17, i, [])] + [Fact(19, f1, [4])] + [Fact(19, f1, [4])];
    AssignedSnoc(fs, Fact(17, i, []), 17, i, [4]);
    AssignedSnoc(fs + [Fact(17, i, [])], Fact(19, f1, [4]), 17, i, [4]);
    AssignedSnoc(fs + [Fact(17, i, [])] + [Fact(19, f1, [4])], Fact(19, f1, [4]), 17, i, [4]);
    Event29(i, e1, e2, e3, e4, f1, tr, fs + [Fact(17, i, [])] + [Fact(19, f1, [4])] + [Fact(19, f1, [4])]);
    AnalyseSnoc(tr, [] + [Declared(17, i, Pos(125, 18), Initialized, [])] + [Referenced(18, i, Pos(125, 25), false, false, [])] + [Declared(19, f1, Pos(126, 43), Initialized, [4])] + [Declared(19, f1, Pos(126, 56), Initialized, [4])] + [OutAssigned(19, [], [4])], Referenced(18, i, Pos(125, 32), false, false, [4]), fs);
    AnalyseSplit(tr, evs, Chunk3(i, e1, e2, e3, e4, f1), []);
  }

  lemma {:induction false} Glue0(i: string, e1: string, e2: string, e3: string, e4: string, f1: string, rs: seq<Diag>)
    requires rs == []
    ensures rs + ([] + [] + [] + [] + [] + [Diag(Duplicate, e1, Pos(108, 57))] + [] + [] + [Diag(Shadow, e2, Pos(111, 42))]) == [Diag(Duplicate, e1, Pos(108, 57)), Diag(Shadow, e2, Pos(111, 42))]
  {
  }

  lemma {:induction false} Glue1(i: string, e1: string, e2: string, e3: string, e4: string, f1: string, rs: seq<Diag>)
    requires rs == [Diag(Duplicate, e1, Pos(108, 57)), Diag(Shadow, e2, Pos(111, 42))]
    ensures rs + ([] + [] + [] + [] + [] + [] + [Diag(Shadow, e3, Pos(115, 42))] + [] + []) == [Diag(Duplicate, e1, Pos(108, 57)), Diag(Shadow, e2, Pos(111, 42)), Diag(Shadow, e3, Pos(115, 42))]
  {
  }

  lemma {:induction false} Glue2(i: string, e1: string, e2: string, e3: string, e4: string, f1: string, rs: seq<Diag>)
    requires rs == [Diag(Duplicate, e1, Pos(108, 57)), Diag(Shadow, e2, Pos(111, 42)), Diag(Shadow, e3, Pos(115, 42))]
    ensures rs + ([] + [] + [] + [] + [Diag(Shadow, e4, Pos(120, 17))] + [] + [] + [] + []) == [Diag(Duplicate, e1, Pos(108, 57)), Diag(Shadow, e2, Pos(111, 42)), Diag(Shadow, e3, Pos(115, 42)), Diag(Shadow, e4, Pos(120, 17))]
  {
  }

  lemma {:induction false} Glue3(i: string, e1: string, e2: string, e3: string, e4: string, f1: string, rs: seq<Diag>)
    requires rs == [Diag(Duplicate, e1, Pos(108, 57)), Diag(Shadow, e2, Pos(111, 42)), Diag(Shadow, e3, Pos(115, 42)), Diag(Shadow, e4, Pos(120, 17))]
    ensures rs + ([] + [] + [] + [] + [Diag(Duplicate, f1, Pos(126, 56))] + [] + []) == [Diag(Duplicate, e1, Pos(108, 57)), Diag(Shadow, e2, Pos(111, 42)), Diag(Shadow, e3, Pos(115, 42)), Diag(Shadow, e4, Pos(120, 17)), Diag(Duplicate, f1, Pos(126, 56))]
  {
  }

  /** The analysis of events 0 to 29, after the events before them. */
  lemma {:induction false} Stage0(i: string, e1: string, e2: string, e3: string, e4: string, f1: string, tr: Tree, evs: seq<Event>)
    requires ScopesAre(tr, Layout())
    requires LocalsFit(i, e1, e2, e3, e4, f1, tr)
    requires i != e1 && i != e2 && i != e3 && i != e4 && i != f1
    requires Analyse(tr, evs, []) == []
    requires Replay(tr, evs, []) == []
    ensures Analyse(tr, evs + Chunk0(i, e1, e2, e3, e4, f1) + Chunk1(i, e1, e2, e3, e4, f1) + Chunk2(i, e1, e2, e3, e4, f1) + Chunk3(i, e1, e2, e3, e4, f1), []) == [Diag(Duplicate, e1, Pos(108, 57)), Diag(Shadow, e2, Pos(111, 42)), Diag(Shadow, e3, Pos(115, 42)), Diag(Shadow, e4, Pos(120, 17)), Diag(Duplicate, f1, Pos(126, 56))]
    ensures Replay(tr, evs + Chunk0(i, e1, e2, e3, e4, f1) + Chunk1(i, e1, e2, e3, e4, f1) + Chunk2(i, e1, e2, e3, e4, f1) + Chunk3(i, e1, e2, e3, e4, f1), []) == Known3(i, e1, e2, e3, e4, f1)
  {
    assert !Assigned([], 5, i, []);
    assert !Assigned([], 5, i, [0]);
    assert !Assigned([], 8, i, []);
    Scope0(i, e1, e2, e3, e4, f1, tr);
    Scope3(i, e1, e2, e3, e4, f1, tr);
    Scope4(i, e1, e2, e3, e4, f1, tr);
    Scope5(i, e1, e2, e3, e4, f1, tr);
    Scope6(i, e1, e2, e3, e4, f1, tr);
    Scope8(i, e1, e2, e3, e4, f1, tr);
    Scope9(i, e1, e2, e3, e4, f1, tr);
    Scope10(i, e1, e2, e3, e4, f1, tr);
    Analysed0(i, e1, e2, e3, e4, f1, tr, evs, [], []);
    Glue0(i, e1, e2, e3, e4, f1, []);
    Read0(i, e1, e2, e3, e4, f1);
    Read1(i, e1, e2, e3, e4, f1);
    Read2(i, e1, e2, e3, e4, f1);
    Scope11(i, e1, e2, e3, e4, f1, tr);
    Scope12(i, e1, e2, e3, e4, f1, tr);
    Scope13(i, e1, e2, e3, e4, f1, tr);
    Analysed1(i, e1, e2, e3, e4, f1, tr, evs + Chunk0(i, e1, e2, e3, e4, f1), Known0(i, e1, e2, e3, e4, f1), [Diag(Duplicate, e1, Pos(108, 57)), Diag(Shadow, e2, Pos(111, 42))]);
    Glue1(i, e1, e2, e3, e4, f1, [Diag(Duplicate, e1, Pos(108, 57)), Diag(Shadow, e2, Pos(111, 42))]);
    Read3(i, e1, e2, e3, e4, f1);
    Read4(i, e1, e2, e3, e4, f1);
    Read5(i, e1, e2, e3, e4, f1);
    Scope14(i, e1, e2, e3, e4, f1, tr);
    Scope15(i, e1, e2, e3, e4, f1, tr);
    Scope16(i, e1, e2, e3, e4, f1, tr);
    Analysed2(i, e1, e2, e3, e4, f1, tr, evs + Chunk0(i, e1, e2, e3, e4, f1) + Chunk1(i, e1, e2, e3, e4, f1), Known1(i, e1, e2, e3, e4, f1), [Diag(Duplicate, e1, Pos(108, 57)), Diag(Shadow, e2, Pos(111, 42)), Diag(Shadow, e3, Pos(115, 42))]);
    Glue2(i, e1, e2, e3, e4, f1, [Diag(Duplicate, e1, Pos(108, 57)), Diag(Shadow, e2, Pos(111, 42)), Diag(Shadow, e3, Pos(115, 42))]);
    Read6(i, e1, e2, e3, e4, f1);
    Read7(i, e1, e2, e3, e4, f1);
    Scope17(i, e1, e2, e3, e4, f1, tr);
    Scope18(i, e1, e2, e3, e4, f1, tr);
    Scope19(i, e1, e2, e3, e4, f1, tr);
    Analysed3(i, e1, e2, e3, e4, f1, tr, evs + Chunk0(i, e1, e2, e3, e4, f1) + Chunk1(i, e1, e2, e3, e4, f1) + Chunk2(i, e1, e2, e3, e4, f1), Known2(i, e1, e2, e3, e4, f1), [Diag(Duplicate, e1, Pos(108, 57)), Diag(Shadow, e2, Pos(111, 42)), Diag(Shadow, e3, Pos(115, 42)), Diag(Shadow, e4, Pos(120, 17))]);
    Glue3(i, e1, e2, e3, e4, f1, [Diag(Duplicate, e1, Pos(108, 57)), Diag(Shadow, e2, Pos(111, 42)), Diag(Shadow, e3, Pos(115, 42)), Diag(Shadow, e4, Pos(120, 17))]);
  }

  /** The analysis of a tree with the test's scopes and events. */
  lemma {:induction false} Result(i: string, e1: string, e2: string, e3: string, e4: string, f1: string, tr: Tree)
    requires ScopesAre(tr, Layout()) && LocalsFit(i, e1, e2, e3, e4, f1, tr) && tr.events == Trace(i, e1, e2, e3, e4, f1)
    requires i != e1 && i != e2 && i != e3 && i != e4 && i != f1
    ensures Analyse(tr, tr.events, []) == [Diag(Duplicate, e1, Pos(108, 57)), Diag(Shadow, e2, Pos(111, 42)), Diag(Shadow, e3, Pos(115, 42)), Diag(Shadow, e4, Pos(120, 17)), Diag(Duplicate, f1, Pos(126, 56))]
  {
    assert Analyse(tr, [], []) == [] && Replay(tr, [], []) == [];
    Stage0(i, e1, e2, e3, e4, f1, tr, []);
  }

  /** The diagnostics the test expects, in the order the analysis reports them. */
  lemma {:induction false} Outcome(i: string, e1: string, e2: string, e3: string, e4: string, f1: string)
    requires i != e1 && i != e2 && i != e3 && i != e4 && i != f1
    ensures Check(Program(i, e1, e2, e3, e4, f1)) == [Diag(Duplicate, e1, Pos(108, 57)), Diag(Shadow, e2, Pos(111, 42)), Diag(Shadow, e3, Pos(115, 42)), Diag(Shadow, e4, Pos(120, 17)), Diag(Duplicate, f1, Pos(126, 56))]
  {
    Walked(i, e1, e2, e3, e4, f1);
    LocalsAll(i, e1, e2, e3, e4, f1, Build(Program(i, e1, e2, e3, e4, f1)));
    Result(i, e1, e2, e3, e4, f1, Build(Program(i, e1, e2, e3, e4, f1)));
  }
}

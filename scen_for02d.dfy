/**
 * The statements on lines 89 to 104 of the program of the test For_02
 * (DeclarationExpressionsTests.cs, lines 428 to 658).
 * They share no name with the test's other statements outside their own `for`
 * statements: every part declares `i`, but only in a `for` initializer, a scope no
 * other part can see. So their diagnostics are the test's diagnostics on those lines.
 *
 * Its program, with its local names left as parameters, is walked into a scope tree and
 * analysed; Outcome states the exact list of diagnostics Check reports, for any names that
 * differ where the outcome depends on it.
 */
module ScenFor02d {
  import opened Syntax
  import opened Scopes
  import opened Binding
  import opened Reporting
  import opened Frames
  import opened Units
  import opened Traces

  /** The statements of the test's method, its names left as parameters. */
  function Body(i: string, d1: string, d2: string, d3: string, d4: string, d5: string): seq<Stmt> {
    [For([Declare(i, Pos(89, 18), Initialized)], [Declare(d1, Pos(89, 30), Initialized)] + ([Declare(d1, Pos(89, 45), Initialized)]), [Use(i, Pos(89, 54), false)], Exprs([]))] + ([For([Declare(i, Pos(91, 18), Initialized)], [Declare(d2, Pos(91, 30), Initialized)], [Use(i, Pos(91, 43), false)] + ([Declare(d2, Pos(91, 53), Initialized)]), Exprs([]))] + ([For([Declare(i, Pos(93, 18), Initialized)], [Declare(d3, Pos(93, 30), Initialized)], [Use(i, Pos(93, 43), false)], Exprs([Call([Argument([Declare(d3, Pos(94, 42), Initialized)])])]))] + ([For([Declare(i, Pos(96, 18), Initialized)], [Declare(d4, Pos(96, 30), Initialized)], [Use(i, Pos(96, 43), false)], Block([Exprs([Call([Argument([Declare(d4, Pos(98, 42), Initialized)])])])]))] + ([For([Declare(i, Pos(101, 18), Initialized)], [Declare(d5, Pos(101, 30), Initialized)], [Use(i, Pos(101, 43), false)], Block([Exprs([Declare(d5, Pos(103, 17), Initialized)])] + ([Exprs([Call([Argument([Use(d5, Pos(104, 38), false)])])])])))]))))
  }

  /** The program of the test: one method holding those statements. */
  function Program(i: string, d1: string, d2: string, d3: string, d4: string, d5: string): seq<Fragment> {
    MainUnit(Body(i, d1, d2, d3, d4, d5))
  }

  /** Scopes 0 to 7, in the order the walk opens them. */
  function Layout0(): seq<Scope> {
    [Scope(Unit, None),
     Scope(InstanceInitializers, Some(0)),
     Scope(StaticInitializers, Some(0)),
     Scope(MethodBody, Some(0)),
     Scope(BlockBody, Some(3)),
     Scope(ForInit, Some(4)),
     Scope(ForLoop, Some(5)),
     Scope(EmbeddedBody, Some(6))]
  }

  /** Scopes 8 to 15, in the order the walk opens them. */
  function Layout1(): seq<Scope> {
    [Scope(ForInit, Some(4)),
     Scope(ForLoop, Some(8)),
     Scope(EmbeddedBody, Some(9)),
     Scope(ForInit, Some(4)),
     Scope(ForLoop, Some(11)),
     Scope(EmbeddedBody, Some(12)),
     Scope(ForInit, Some(4)),
     Scope(ForLoop, Some(14))]
  }

  /** Scopes 16 to 19, in the order the walk opens them. */
  function Layout2(): seq<Scope> {
    [Scope(BlockBody, Some(15)),
     Scope(ForInit, Some(4)),
     Scope(ForLoop, Some(17)),
     Scope(BlockBody, Some(18))]
  }

  /** Its scopes, in the order the walk opens them. */
  function Layout(): seq<Scope> {
    Layout0() + Layout1() + Layout2()
  }

  lemma {:induction false} LayoutJoin0()
    ensures [Scope(Unit, None), Scope(InstanceInitializers, Some(0)), Scope(StaticInitializers, Some(0)), Scope(MethodBody, Some(0)), Scope(BlockBody, Some(3))] + [Scope(ForInit, Some(4))] + [Scope(ForLoop, Some(5))] + [Scope(EmbeddedBody, Some(6))] == Layout0()
  {
  }

  lemma {:induction false} LayoutJoin1(pre: seq<Scope>)
    ensures pre + Layout1() == pre + [Scope(ForInit, Some(4))] + [Scope(ForLoop, Some(8))] + [Scope(EmbeddedBody, Some(9))] + [Scope(ForInit, Some(4))] + [Scope(ForLoop, Some(11))] + [Scope(EmbeddedBody, Some(12))] + [Scope(ForInit, Some(4))] + [Scope(ForLoop, Some(14))]
  {
  }

  lemma {:induction false} LayoutJoin2(pre: seq<Scope>)
    ensures pre + Layout2() == pre + [Scope(BlockBody, Some(15))] + [Scope(ForInit, Some(4))] + [Scope(ForLoop, Some(17))] + [Scope(BlockBody, Some(18))]
  {
  }

  /** The layout, scope by scope. */
  lemma {:induction false} LayoutFlat()
    ensures [Scope(Unit, None), Scope(InstanceInitializers, Some(0)), Scope(StaticInitializers, Some(0)), Scope(MethodBody, Some(0)), Scope(BlockBody, Some(3))] + [Scope(ForInit, Some(4))] + [Scope(ForLoop, Some(5))] + [Scope(EmbeddedBody, Some(6))] + [Scope(ForInit, Some(4))] + [Scope(ForLoop, Some(8))] + [Scope(EmbeddedBody, Some(9))] + [Scope(ForInit, Some(4))] + [Scope(ForLoop, Some(11))] + [Scope(EmbeddedBody, Some(12))] + [Scope(ForInit, Some(4))] + [Scope(ForLoop, Some(14))] + [Scope(BlockBody, Some(15))] + [Scope(ForInit, Some(4))] + [Scope(ForLoop, Some(17))] + [Scope(BlockBody, Some(18))] == Layout()
  {
    LayoutJoin0();
    LayoutJoin1(Layout0());
    LayoutJoin2(Layout0() + Layout1());
  }

  /** Events 0 to 7 of the test, in evaluation order. */
  function Chunk0(i: string, d1: string, d2: string, d3: string, d4: string, d5: string): seq<Event> {
    []
      + [Declared(5, i, Pos(89, 18), Initialized, [])]
      + [Declared(6, d1, Pos(89, 30), Initialized, [])]
      + [Declared(6, d1, Pos(89, 45), Initialized, [])]
      + [Referenced(6, i, Pos(89, 54), false, false, [0])]
      + [Declared(8, i, Pos(91, 18), Initialized, [])]
      + [Declared(9, d2, Pos(91, 30), Initialized, [])]
      + [Referenced(9, i, Pos(91, 43), false, false, [1])]
      + [Declared(9, d2, Pos(91, 53), Initialized, [1])]
  }

  /** Events 8 to 15 of the test, in evaluation order. */
  function Chunk1(i: string, d1: string, d2: string, d3: string, d4: string, d5: string): seq<Event> {
    []
      + [Declared(11, i, Pos(93, 18), Initialized, [])]
      + [Declared(12, d3, Pos(93, 30), Initialized, [])]
      + [Declared(13, d3, Pos(94, 42), Initialized, [2])]
      + [OutAssigned(13, [], [2])]
      + [Referenced(12, i, Pos(93, 43), false, false, [2])]
      + [Declared(14, i, Pos(96, 18), Initialized, [])]
      + [Declared(15, d4, Pos(96, 30), Initialized, [])]
      + [Declared(16, d4, Pos(98, 42), Initialized, [3])]
  }

  /** Events 16 to 23 of the test, in evaluation order. */
  function Chunk2(i: string, d1: string, d2: string, d3: string, d4: string, d5: string): seq<Event> {
    []
      + [OutAssigned(16, [], [3])]
      + [Referenced(15, i, Pos(96, 43), false, false, [3])]
      + [Declared(17, i, Pos(101, 18), Initialized, [])]
      + [Declared(18, d5, Pos(101, 30), Initialized, [])]
      + [Declared(19, d5, Pos(103, 17), Initialized, [4])]
      + [Referenced(19, d5, Pos(104, 38), false, false, [4])]
      + [OutAssigned(19, [], [4])]
      + [Referenced(18, i, Pos(101, 43), false, false, [4])]
  }

  /** The events of the test, in evaluation order. */
  function Trace(i: string, d1: string, d2: string, d3: string, d4: string, d5: string): seq<Event> {
    []
      + Chunk0(i, d1, d2, d3, d4, d5)
      + Chunk1(i, d1, d2, d3, d4, d5)
      + Chunk2(i, d1, d2, d3, d4, d5)
  }

  lemma {:induction false} Walk2(i: string, d1: string, d2: string, d3: string, d4: string, d5: string, tr: Tree)
    requires |tr.scopes| == 5 && tr.arms == 0
    ensures WalkStmt(For([Declare(i, Pos(89, 18), Initialized)], [Declare(d1, Pos(89, 30), Initialized)] + ([Declare(d1, Pos(89, 45), Initialized)]), [Use(i, Pos(89, 54), false)], Exprs([])), Ctx(4, [], []), tr) == Tree(tr.scopes + [Scope(ForInit, Some(4))] + [Scope(ForLoop, Some(5))] + [Scope(EmbeddedBody, Some(6))], tr.events + [Declared(5, i, Pos(89, 18), Initialized, [])] + [Declared(6, d1, Pos(89, 30), Initialized, [])] + [Declared(6, d1, Pos(89, 45), Initialized, [])] + [Referenced(6, i, Pos(89, 54), false, false, [0])], 1)
  {
    WalkExprsOne(Declare(i, Pos(89, 18), Initialized), Ctx(5, [], []), Tree(tr.scopes + [Scope(ForInit, Some(4))] + [Scope(ForLoop, Some(5))], tr.events, 0));
    assert WalkExpr(Declare(i, Pos(89, 18), Initialized), Ctx(5, [], []), Tree(tr.scopes + [Scope(ForInit, Some(4))] + [Scope(ForLoop, Some(5))], tr.events, 0)) == Tree(tr.scopes + [Scope(ForInit, Some(4))] + [Scope(ForLoop, Some(5))], tr.events + [Declared(5, i, Pos(89, 18), Initialized, [])], 0);
    assert WalkExprs([Declare(i, Pos(89, 18), Initialized)], Ctx(5, [], []), Tree(tr.scopes + [Scope(ForInit, Some(4))] + [Scope(ForLoop, Some(5))], tr.events, 0)) == Tree(tr.scopes + [Scope(ForInit, Some(4))] + [Scope(ForLoop, Some(5))], tr.events + [Declared(5, i, Pos(89, 18), Initialized, [])], 0);
    WalkExprsCons(Declare(d1, Pos(89, 30), Initialized), [Declare(d1, Pos(89, 45), Initialized)], Ctx(6, [], []), Tree(tr.scopes + [Scope(ForInit, Some(4))] + [Scope(ForLoop, Some(5))], tr.events + [Declared(5, i, Pos(89, 18), Initialized, [])], 0));
    assert WalkExpr(Declare(d1, Pos(89, 30), Initialized), Ctx(6, [], []), Tree(tr.scopes + [Scope(ForInit, Some(4))] + [Scope(ForLoop, Some(5))], tr.events + [Declared(5, i, Pos(89, 18), Initialized, [])], 0)) == Tree(tr.scopes + [Scope(ForInit, Some(4))] + [Scope(ForLoop, Some(5))], tr.events + [Declared(5, i, Pos(89, 18), Initialized, [])] + [Declared(6, d1, Pos(89, 30), Initialized, [])], 0);
    WalkExprsOne(Declare(d1, Pos(89, 45), Initialized), Ctx(6, [], []), Tree(tr.scopes + [Scope(ForInit, Some(4))] + [Scope(ForLoop, Some(5))], tr.events + [Declared(5, i, Pos(89, 18), Initialized, [])] + [Declared(6, d1, Pos(89, 30), Initialized, [])], 0));
    assert WalkExpr(Declare(d1, Pos(89, 45), Initialized), Ctx(6, [], []), Tree(tr.scopes + [Scope(ForInit, Some(4))] + [Scope(ForLoop, Some(5))], tr.events + [Declared(5, i, Pos(89, 18), Initialized, [])] + [Declared(6, d1, Pos(89, 30), Initialized, [])], 0)) == Tree(tr.scopes + [Scope(ForInit, Some(4))] + [Scope(ForLoop, Some(5))], tr.events + [Declared(5, i, Pos(89, 18), Initialized, [])] + [Declared(6, d1, Pos(89, 30), Initialized, [])] + [Declared(6, d1, Pos(89, 45), Initialized, [])], 0);
    assert WalkExprs([Declare(d1, Pos(89, 30), Initialized)] + ([Declare(d1, Pos(89, 45), Initialized)]), Ctx(6, [], []), Tree(tr.scopes + [Scope(ForInit, Some(4))] + [Scope(ForLoop, Some(5))], tr.events + [Declared(5, i, Pos(89, 18), Initialized, [])], 0)) == Tree(tr.scopes + [Scope(ForInit, Some(4))] + [Scope(ForLoop, Some(5))], tr.events + [Declared(5, i, Pos(89, 18), Initialized, [])] + [Declared(6, d1, Pos(89, 30), Initialized, [])] + [Declared(6, d1, Pos(89, 45), Initialized, [])], 0);
    assert [] + [0] == [0];
    assert WalkStmt(Exprs([]), Ctx(7, [0], []), Tree(tr.scopes + [Scope(ForInit, Some(4))] + [Scope(ForLoop, Some(5))] + [Scope(EmbeddedBody, Some(6))], tr.events + [Declared(5, i, Pos(89, 18), Initialized, [])] + [Declared(6, d1, Pos(89, 30), Initialized, [])] + [Declared(6, d1, Pos(89, 45), Initialized, [])], 1)) == Tree(tr.scopes + [Scope(ForInit, Some(4))] + [Scope(ForLoop, Some(5))] + [Scope(EmbeddedBody, Some(6))], tr.events + [Declared(5, i, Pos(89, 18), Initialized, [])] + [Declared(6, d1, Pos(89, 30), Initialized, [])] + [Declared(6, d1, Pos(89, 45), Initialized, [])], 1);
    assert WalkEmbedded(Exprs([]), Ctx(6, [0], []), Tree(tr.scopes + [Scope(ForInit, Some(4))] + [Scope(ForLoop, Some(5))], tr.events + [Declared(5, i, Pos(89, 18), Initialized, [])] + [Declared(6, d1, Pos(89, 30), Initialized, [])] + [Declared(6, d1, Pos(89, 45), Initialized, [])], 1)) == Tree(tr.scopes + [Scope(ForInit, Some(4))] + [Scope(ForLoop, Some(5))] + [Scope(EmbeddedBody, Some(6))], tr.events + [Declared(5, i, Pos(89, 18), Initialized, [])] + [Declared(6, d1, Pos(89, 30), Initialized, [])] + [Declared(6, d1, Pos(89, 45), Initialized, [])], 1);
    WalkExprsOne(Use(i, Pos(89, 54), false), Ctx(6, [0], []), Tree(tr.scopes + [Scope(ForInit, Some(4))] + [Scope(ForLoop, Some(5))] + [Scope(EmbeddedBody, Some(6))], tr.events + [Declared(5, i, Pos(89, 18), Initialized, [])] + [Declared(6, d1, Pos(89, 30), Initialized, [])] + [Declared(6, d1, Pos(89, 45), Initialized, [])], 1));
    assert WalkExpr(Use(i, Pos(89, 54), false), Ctx(6, [0], []), Tree(tr.scopes + [Scope(ForInit, Some(4))] + [Scope(ForLoop, Some(5))] + [Scope(EmbeddedBody, Some(6))], tr.events + [Declared(5, i, Pos(89, 18), Initialized, [])] + [Declared(6, d1, Pos(89, 30), Initialized, [])] + [Declared(6, d1, Pos(89, 45), Initialized, [])], 1)) == Tree(tr.scopes + [Scope(ForInit, Some(4))] + [Scope(ForLoop, Some(5))] + [Scope(EmbeddedBody, Some(6))], tr.events + [Declared(5, i, Pos(89, 18), Initialized, [])] + [Declared(6, d1, Pos(89, 30), Initialized, [])] + [Declared(6, d1, Pos(89, 45), Initialized, [])] + [Referenced(6, i, Pos(89, 54), false, false, [0])], 1);
    assert WalkExprs([Use(i, Pos(89, 54), false)], Ctx(6, [0], []), Tree(tr.scopes + [Scope(ForInit, Some(4))] + [Scope(ForLoop, Some(5))] + [Scope(EmbeddedBody, Some(6))], tr.events + [Declared(5, i, Pos(89, 18), Initialized, [])] + [Declared(6, d1, Pos(89, 30), Initialized, [])] + [Declared(6, d1, Pos(89, 45), Initialized, [])], 1)) == Tree(tr.scopes + [Scope(ForInit, Some(4))] + [Scope(ForLoop, Some(5))] + [Scope(EmbeddedBody, Some(6))], tr.events + [Declared(5, i, Pos(89, 18), Initialized, [])] + [Declared(6, d1, Pos(89, 30), Initialized, [])] + [Declared(6, d1, Pos(89, 45), Initialized, [])] + [Referenced(6, i, Pos(89, 54), false, false, [0])], 1);
    assert WalkStmt(For([Declare(i, Pos(89, 18), Initialized)], [Declare(d1, Pos(89, 30), Initialized)] + ([Declare(d1, Pos(89, 45), Initialized)]), [Use(i, Pos(89, 54), false)], Exprs([])), Ctx(4, [], []), tr) == Tree(tr.scopes + [Scope(ForInit, Some(4))] + [Scope(ForLoop, Some(5))] + [Scope(EmbeddedBody, Some(6))], tr.events + [Declared(5, i, Pos(89, 18), Initialized, [])] + [Declared(6, d1, Pos(89, 30), Initialized, [])] + [Declared(6, d1, Pos(89, 45), Initialized, [])] + [Referenced(6, i, Pos(89, 54), false, false, [0])], 1);
  }

  lemma {:induction false} Walk3(i: string, d1: string, d2: string, d3: string, d4: string, d5: string, tr: Tree)
    requires |tr.scopes| == 8 && tr.arms == 1
    ensures WalkStmt(For([Declare(i, Pos(91, 18), Initialized)], [Declare(d2, Pos(91, 30), Initialized)], [Use(i, Pos(91, 43), false)] + ([Declare(d2, Pos(91, 53), Initialized)]), Exprs([])), Ctx(4, [], []), tr) == Tree(tr.scopes + [Scope(ForInit, Some(4))] + [Scope(ForLoop, Some(8))] + [Scope(EmbeddedBody, Some(9))], tr.events + [Declared(8, i, Pos(91, 18), Initialized, [])] + [Declared(9, d2, Pos(91, 30), Initialized, [])] + [Referenced(9, i, Pos(91, 43), false, false, [1])] + [Declared(9, d2, Pos(91, 53), Initialized, [1])], 2)
  {
    WalkExprsOne(Declare(i, Pos(91, 18), Initialized), Ctx(8, [], []), Tree(tr.scopes + [Scope(ForInit, Some(4))] + [Scope(ForLoop, Some(8))], tr.events, 1));
    assert WalkExpr(Declare(i, Pos(91, 18), Initialized), Ctx(8, [], []), Tree(tr.scopes + [Scope(ForInit, Some(4))] + [Scope(ForLoop, Some(8))], tr.events, 1)) == Tree(tr.scopes + [Scope(ForInit, Some(4))] + [Scope(ForLoop, Some(8))], tr.events + [Declared(8, i, Pos(91, 18), Initialized, [])], 1);
    assert WalkExprs([Declare(i, Pos(91, 18), Initialized)], Ctx(8, [], []), Tree(tr.scopes + [Scope(ForInit, Some(4))] + [Scope(ForLoop, Some(8))], tr.events, 1)) == Tree(tr.scopes + [Scope(ForInit, Some(4))] + [Scope(ForLoop, Some(8))], tr.events + [Declared(8, i, Pos(91, 18), Initialized, [])], 1);
    WalkExprsOne(Declare(d2, Pos(91, 30), Initialized), Ctx(9, [], []), Tree(tr.scopes + [Scope(ForInit, Some(4))] + [Scope(ForLoop, Some(8))], tr.events + [Declared(8, i, Pos(91, 18), Initialized, [])], 1));
    assert WalkExpr(Declare(d2, Pos(91, 30), Initialized), Ctx(9, [], []), Tree(tr.scopes + [Scope(ForInit, Some(4))] + [Scope(ForLoop, Some(8))], tr.events + [Declared(8, i, Pos(91, 18), Initialized, [])], 1)) == Tree(tr.scopes + [Scope(ForInit, Some(4))] + [Scope(ForLoop, Some(8))], tr.events + [Declared(8, i, Pos(91, 18), Initialized, [])] + [Declared(9, d2, Pos(91, 30), Initialized, [])], 1);
    assert WalkExprs([Declare(d2, Pos(91, 30), Initialized)], Ctx(9, [], []), Tree(tr.scopes + [Scope(ForInit, Some(4))] + [Scope(ForLoop, Some(8))], tr.events + [Declared(8, i, Pos(91, 18), Initialized, [])], 1)) == Tree(tr.scopes + [Scope(ForInit, Some(4))] + [Scope(ForLoop, Some(8))], tr.events + [Declared(8, i, Pos(91, 18), Initialized, [])] + [Declared(9, d2, Pos(91, 30), Initialized, [])], 1);
    assert [] + [1] == [1];
    assert WalkStmt(Exprs([]), Ctx(10, [1], []), Tree(tr.scopes + [Scope(ForInit, Some(4))] + [Scope(ForLoop, Some(8))] + [Scope(EmbeddedBody, Some(9))], tr.events + [Declared(8, i, Pos(91, 18), Initialized, [])] + [Declared(9, d2, Pos(91, 30), Initialized, [])], 2)) == Tree(tr.scopes + [Scope(ForInit, Some(4))] + [Scope(ForLoop, Some(8))] + [Scope(EmbeddedBody, Some(9))], tr.events + [Declared(8, i, Pos(91, 18), Initialized, [])] + [Declared(9, d2, Pos(91, 30), Initialized, [])], 2);
    assert WalkEmbedded(Exprs([]), Ctx(9, [1], []), Tree(tr.scopes + [Scope(ForInit, Some(4))] + [Scope(ForLoop, Some(8))], tr.events + [Declared(8, i, Pos(91, 18), Initialized, [])] + [Declared(9, d2, Pos(91, 30), Initialized, [])], 2)) == Tree(tr.scopes + [Scope(ForInit, Some(4))] + [Scope(ForLoop, Some(8))] + [Scope(EmbeddedBody, Some(9))], tr.events + [Declared(8, i, Pos(91, 18), Initialized, [])] + [Declared(9, d2, Pos(91, 30), Initialized, [])], 2);
    WalkExprsCons(Use(i, Pos(91, 43), false), [Declare(d2, Pos(91, 53), Initialized)], Ctx(9, [1], []), Tree(tr.scopes + [Scope(ForInit, Some(4))] + [Scope(ForLoop, Some(8))] + [Scope(EmbeddedBody, Some(9))], tr.events + [Declared(8, i, Pos(91, 18), Initialized, [])] + [Declared(9, d2, Pos(91, 30), Initialized, [])], 2));
    assert WalkExpr(Use(i, Pos(91, 43), false), Ctx(9, [1], []), Tree(tr.scopes + [Scope(ForInit, Some(4))] + [Scope(ForLoop, Some(8))] + [Scope(EmbeddedBody, Some(9))], tr.events + [Declared(8, i, Pos(91, 18), Initialized, [])] + [Declared(9, d2, Pos(91, 30), Initialized, [])], 2)) == Tree(tr.scopes + [Scope(ForInit, Some(4))] + [Scope(ForLoop, Some(8))] + [Scope(EmbeddedBody, Some(9))], tr.events + [Declared(8, i, Pos(91, 18), Initialized, [])] + [Declared(9, d2, Pos(91, 30), Initialized, [])] + [Referenced(9, i, Pos(91, 43), false, false, [1])], 2);
    WalkExprsOne(Declare(d2, Pos(91, 53), Initialized), Ctx(9, [1], []), Tree(tr.scopes + [Scope(ForInit, Some(4))] + [Scope(ForLoop, Some(8))] + [Scope(EmbeddedBody, Some(9))], tr.events + [Declared(8, i, Pos(91, 18), Initialized, [])] + [Declared(9, d2, Pos(91, 30), Initialized, [])] + [Referenced(9, i, Pos(91, 43), false, false, [1])], 2));
    assert WalkExpr(Declare(d2, Pos(91, 53), Initialized), Ctx(9, [1], []), Tree(tr.scopes + [Scope(ForInit, Some(4))] + [Scope(ForLoop, Some(8))] + [Scope(EmbeddedBody, Some(9))], tr.events + [Declared(8, i, Pos(91, 18), Initialized, [])] + [Declared(9, d2, Pos(91, 30), Initialized, [])] + [Referenced(9, i, Pos(91, 43), false, false, [1])], 2)) == Tree(tr.scopes + [Scope(ForInit, Some(4))] + [Scope(ForLoop, Some(8))] + [Scope(EmbeddedBody, Some(9))], tr.events + [Declared(8, i, Pos(91, 18), Initialized, [])] + [Declared(9, d2, Pos(91, 30), Initialized, [])] + [Referenced(9, i, Pos(91, 43), false, false, [1])] + [Declared(9, d2, Pos(91, 53), Initialized, [1])], 2);
    assert WalkExprs([Use(i, Pos(91, 43), false)] + ([Declare(d2, Pos(91, 53), Initialized)]), Ctx(9, [1], []), Tree(tr.scopes + [Scope(ForInit, Some(4))] + [Scope(ForLoop, Some(8))] + [Scope(EmbeddedBody, Some(9))], tr.events + [Declared(8, i, Pos(91, 18), Initialized, [])] + [Declared(9, d2, Pos(91, 30), Initialized, [])], 2)) == Tree(tr.scopes + [Scope(ForInit, Some(4))] + [Scope(ForLoop, Some(8))] + [Scope(EmbeddedBody, Some(9))], tr.events + [Declared(8, i, Pos(91, 18), Initialized, [])] + [Declared(9, d2, Pos(91, 30), Initialized, [])] + [Referenced(9, i, Pos(91, 43), false, false, [1])] + [Declared(9, d2, Pos(91, 53), Initialized, [1])], 2);
    assert WalkStmt(For([Declare(i, Pos(91, 18), Initialized)], [Declare(d2, Pos(91, 30), Initialized)], [Use(i, Pos(91, 43), false)] + ([Declare(d2, Pos(91, 53), Initialized)]), Exprs([])), Ctx(4, [], []), tr) == Tree(tr.scopes + [Scope(ForInit, Some(4))] + [Scope(ForLoop, Some(8))] + [Scope(EmbeddedBody, Some(9))], tr.events + [Declared(8, i, Pos(91, 18), Initialized, [])] + [Declared(9, d2, Pos(91, 30), Initialized, [])] + [Referenced(9, i, Pos(91, 43), false, false, [1])] + [Declared(9, d2, Pos(91, 53), Initialized, [1])], 2);
  }

  lemma {:induction false} Walk4(i: string, d1: string, d2: string, d3: string, d4: string, d5: string, tr: Tree)
    requires |tr.scopes| == 11 && tr.arms == 2
    ensures WalkStmt(For([Declare(i, Pos(93, 18), Initialized)], [Declare(d3, Pos(93, 30), Initialized)], [Use(i, Pos(93, 43), false)], Exprs([Call([Argument([Declare(d3, Pos(94, 42), Initialized)])])])), Ctx(4, [], []), tr) == Tree(tr.scopes + [Scope(ForInit, Some(4))] + [Scope(ForLoop, Some(11))] + [Scope(EmbeddedBody, Some(12))], tr.events + [Declared(11, i, Pos(93, 18), Initialized, [])] + [Declared(12, d3, Pos(93, 30), Initialized, [])] + [Declared(13, d3, Pos(94, 42), Initialized, [2])] + [OutAssigned(13, [], [2])] + [Referenced(12, i, Pos(93, 43), false, false, [2])], 3)
  {
    WalkExprsOne(Declare(i, Pos(93, 18), Initialized), Ctx(11, [], []), Tree(tr.scopes + [Scope(ForInit, Some(4))] + [Scope(ForLoop, Some(11))], tr.events, 2));
    assert WalkExpr(Declare(i, Pos(93, 18), Initialized), Ctx(11, [], []), Tree(tr.scopes + [Scope(ForInit, Some(4))] + [Scope(ForLoop, Some(11))], tr.events, 2)) == Tree(tr.scopes + [Scope(ForInit, Some(4))] + [Scope(ForLoop, Some(11))], tr.events + [Declared(11, i, Pos(93, 18), Initialized, [])], 2);
    assert WalkExprs([Declare(i, Pos(93, 18), Initialized)], Ctx(11, [], []), Tree(tr.scopes + [Scope(ForInit, Some(4))] + [Scope(ForLoop, Some(11))], tr.events, 2)) == Tree(tr.scopes + [Scope(ForInit, Some(4))] + [Scope(ForLoop, Some(11))], tr.events + [Declared(11, i, Pos(93, 18), Initialized, [])], 2);
    WalkExprsOne(Declare(d3, Pos(93, 30), Initialized), Ctx(12, [], []), Tree(tr.scopes + [Scope(ForInit, Some(4))] + [Scope(ForLoop, Some(11))], tr.events + [Declared(11, i, Pos(93, 18), Initialized, [])], 2));
    assert WalkExpr(Declare(d3, Pos(93, 30), Initialized), Ctx(12, [], []), Tree(tr.scopes + [Scope(ForInit, Some(4))] + [Scope(ForLoop, Some(11))], tr.events + [Declared(11, i, Pos(93, 18), Initialized, [])], 2)) == Tree(tr.scopes + [Scope(ForInit, Some(4))] + [Scope(ForLoop, Some(11))], tr.events + [Declared(11, i, Pos(93, 18), Initialized, [])] + [Declared(12, d3, Pos(93, 30), Initialized, [])], 2);
    assert WalkExprs([Declare(d3, Pos(93, 30), Initialized)], Ctx(12, [], []), Tree(tr.scopes + [Scope(ForInit, Some(4))] + [Scope(ForLoop, Some(11))], tr.events + [Declared(11, i, Pos(93, 18), Initialized, [])], 2)) == Tree(tr.scopes + [Scope(ForInit, Some(4))] + [Scope(ForLoop, Some(11))], tr.events + [Declared(11, i, Pos(93, 18), Initialized, [])] + [Declared(12, d3, Pos(93, 30), Initialized, [])], 2);
    assert [] + [2] == [2];
    WalkExprsOne(Call([Argument([Declare(d3, Pos(94, 42), Initialized)])]), Ctx(13, [2], []), Tree(tr.scopes + [Scope(ForInit, Some(4))] + [Scope(ForLoop, Some(11))] + [Scope(EmbeddedBody, Some(12))], tr.events + [Declared(11, i, Pos(93, 18), Initialized, [])] + [Declared(12, d3, Pos(93, 30), Initialized, [])], 3));
    assert OutNames([]) == [];
    WalkArgsOne(Argument([Declare(d3, Pos(94, 42), Initialized)]), [], Ctx(13, [2], []), Tree(tr.scopes + [Scope(ForInit, Some(4))] + [Scope(ForLoop, Some(11))] + [Scope(EmbeddedBody, Some(12))], tr.events + [Declared(11, i, Pos(93, 18), Initialized, [])] + [Declared(12, d3, Pos(93, 30), Initialized, [])], 3));
    WalkExprsOne(Declare(d3, Pos(94, 42), Initialized), Ctx(13, [2], []), Tree(tr.scopes + [Scope(ForInit, Some(4))] + [Scope(ForLoop, Some(11))] + [Scope(EmbeddedBody, Some(12))], tr.events + [Declared(11, i, Pos(93, 18), Initialized, [])] + [Declared(12, d3, Pos(93, 30), Initialized, [])], 3));
    assert WalkExpr(Declare(d3, Pos(94, 42), Initialized), Ctx(13, [2], []), Tree(tr.scopes + [Scope(ForInit, Some(4))] + [Scope(ForLoop, Some(11))] + [Scope(EmbeddedBody, Some(12))], tr.events + [Declared(11, i, Pos(93, 18), Initialized, [])] + [Declared(12, d3, Pos(93, 30), Initialized, [])], 3)) == Tree(tr.scopes + [Scope(ForInit, Some(4))] + [Scope(ForLoop, Some(11))] + [Scope(EmbeddedBody, Some(12))], tr.events + [Declared(11, i, Pos(93, 18), Initialized, [])] + [Declared(12, d3, Pos(93, 30), Initialized, [])] + [Declared(13, d3, Pos(94, 42), Initialized, [2])], 3);
    assert WalkExprs([Declare(d3, Pos(94, 42), Initialized)], Ctx(13, [2], []), Tree(tr.scopes + [Scope(ForInit, Some(4))] + [Scope(ForLoop, Some(11))] + [Scope(EmbeddedBody, Some(12))], tr.events + [Declared(11, i, Pos(93, 18), Initialized, [])] + [Declared(12, d3, Pos(93, 30), Initialized, [])], 3)) == Tree(tr.scopes + [Scope(ForInit, Some(4))] + [Scope(ForLoop, Some(11))] + [Scope(EmbeddedBody, Some(12))], tr.events + [Declared(11, i, Pos(93, 18), Initialized, [])] + [Declared(12, d3, Pos(93, 30), Initialized, [])] + [Declared(13, d3, Pos(94, 42), Initialized, [2])], 3);
    OutNamesOfOne(Declare(d3, Pos(94, 42), Initialized));
    OutNamesSnoc([], Argument([Declare(d3, Pos(94, 42), Initialized)]));
    assert WalkArgs([Argument([Declare(d3, Pos(94, 42), Initialized)])], [], Ctx(13, [2], []), Tree(tr.scopes + [Scope(ForInit, Some(4))] + [Scope(ForLoop, Some(11))] + [Scope(EmbeddedBody, Some(12))], tr.events + [Declared(11, i, Pos(93, 18), Initialized, [])] + [Declared(12, d3, Pos(93, 30), Initialized, [])], 3)) == Tree(tr.scopes + [Scope(ForInit, Some(4))] + [Scope(ForLoop, Some(11))] + [Scope(EmbeddedBody, Some(12))], tr.events + [Declared(11, i, Pos(93, 18), Initialized, [])] + [Declared(12, d3, Pos(93, 30), Initialized, [])] + [Declared(13, d3, Pos(94, 42), Initialized, [2])], 3);
    assert OutNames([Argument([Declare(d3, Pos(94, 42), Initialized)])]) == [];
    assert WalkExpr(Call([Argument([Declare(d3, Pos(94, 42), Initialized)])]), Ctx(13, [2], []), Tree(tr.scopes + [Scope(ForInit, Some(4))] + [Scope(ForLoop, Some(11))] + [Scope(EmbeddedBody, Some(12))], tr.events + [Declared(11, i, Pos(93, 18), Initialized, [])] + [Declared(12, d3, Pos(93, 30), Initialized, [])], 3)) == Tree(tr.scopes + [Scope(ForInit, Some(4))] + [Scope(ForLoop, Some(11))] + [Scope(EmbeddedBody, Some(12))], tr.events + [Declared(11, i, Pos(93, 18), Initialized, [])] + [Declared(12, d3, Pos(93, 30), Initialized, [])] + [Declared(13, d3, Pos(94, 42), Initialized, [2])] + [OutAssigned(13, [], [2])], 3);
    assert WalkExprs([Call([Argument([Declare(d3, Pos(94, 42), Initialized)])])], Ctx(13, [2], []), Tree(tr.scopes + [Scope(ForInit, Some(4))] + [Scope(ForLoop, Some(11))] + [Scope(EmbeddedBody, Some(12))], tr.events + [Declared(11, i, Pos(93, 18), Initialized, [])] + [Declared(12, d3, Pos(93, 30), Initialized, [])], 3)) == Tree(tr.scopes + [Scope(ForInit, Some(4))] + [Scope(ForLoop, Some(11))] + [Scope(EmbeddedBody, Some(12))], tr.events + [Declared(11, i, Pos(93, 18), Initialized, [])] + [Declared(12, d3, Pos(93, 30), Initialized, [])] + [Declared(13, d3, Pos(94, 42), Initialized, [2])] + [OutAssigned(13, [], [2])], 3);
    assert WalkStmt(Exprs([Call([Argument([Declare(d3, Pos(94, 42), Initialized)])])]), Ctx(13, [2], []), Tree(tr.scopes + [Scope(ForInit, Some(4))] + [Scope(ForLoop, Some(11))] + [Scope(EmbeddedBody, Some(12))], tr.events + [Declared(11, i, Pos(93, 18), Initialized, [])] + [Declared(12, d3, Pos(93, 30), Initialized, [])], 3)) == Tree(tr.scopes + [Scope(ForInit, Some(4))] + [Scope(ForLoop, Some(11))] + [Scope(EmbeddedBody, Some(12))], tr.events + [Declared(11, i, Pos(93, 18), Initialized, [])] + [Declared(12, d3, Pos(93, 30), Initialized, [])] + [Declared(13, d3, Pos(94, 42), Initialized, [2])] + [OutAssigned(13, [], [2])], 3);
    assert WalkEmbedded(Exprs([Call([Argument([Declare(d3, Pos(94, 42), Initialized)])])]), Ctx(12, [2], []), Tree(tr.scopes + [Scope(ForInit, Some(4))] + [Scope(ForLoop, Some(11))], tr.events + [Declared(11, i, Pos(93, 18), Initialized, [])] + [Declared(12, d3, Pos(93, 30), Initialized, [])], 3)) == Tree(tr.scopes + [Scope(ForInit, Some(4))] + [Scope(ForLoop, Some(11))] + [Scope(EmbeddedBody, Some(12))], tr.events + [Declared(11, i, Pos(93, 18), Initialized, [])] + [Declared(12, d3, Pos(93, 30), Initialized, [])] + [Declared(13, d3, Pos(94, 42), Initialized, [2])] + [OutAssigned(13, [], [2])], 3);
    WalkExprsOne(Use(i, Pos(93, 43), false), Ctx(12, [2], []), Tree(tr.scopes + [Scope(ForInit, Some(4))] + [Scope(ForLoop, Some(11))] + [Scope(EmbeddedBody, Some(12))], tr.events + [Declared(11, i, Pos(93, 18), Initialized, [])] + [Declared(12, d3, Pos(93, 30), Initialized, [])] + [Declared(13, d3, Pos(94, 42), Initialized, [2])] + [OutAssigned(13, [], [2])], 3));
    assert WalkExpr(Use(i, Pos(93, 43), false), Ctx(12, [2], []), Tree(tr.scopes + [Scope(ForInit, Some(4))] + [Scope(ForLoop, Some(11))] + [Scope(EmbeddedBody, Some(12))], tr.events + [Declared(11, i, Pos(93, 18), Initialized, [])] + [Declared(12, d3, Pos(93, 30), Initialized, [])] + [Declared(13, d3, Pos(94, 42), Initialized, [2])] + [OutAssigned(13, [], [2])], 3)) == Tree(tr.scopes + [Scope(ForInit, Some(4))] + [Scope(ForLoop, Some(11))] + [Scope(EmbeddedBody, Some(12))], tr.events + [Declared(11, i, Pos(93, 18), Initialized, [])] + [Declared(12, d3, Pos(93, 30), Initialized, [])] + [Declared(13, d3, Pos(94, 42), Initialized, [2])] + [OutAssigned(13, [], [2])] + [Referenced(12, i, Pos(93, 43), false, false, [2])], 3);
    assert WalkExprs([Use(i, Pos(93, 43), false)], Ctx(12, [2], []), Tree(tr.scopes + [Scope(ForInit, Some(4))] + [Scope(ForLoop, Some(11))] + [Scope(EmbeddedBody, Some(12))], tr.events + [Declared(11, i, Pos(93, 18), Initialized, [])] + [Declared(12, d3, Pos(93, 30), Initialized, [])] + [Declared(13, d3, Pos(94, 42), Initialized, [2])] + [OutAssigned(13, [], [2])], 3)) == Tree(tr.scopes + [Scope(ForInit, Some(4))] + [Scope(ForLoop, Some(11))] + [Scope(EmbeddedBody, Some(12))], tr.events + [Declared(11, i, Pos(93, 18), Initialized, [])] + [Declared(12, d3, Pos(93, 30), Initialized, [])] + [Declared(13, d3, Pos(94, 42), Initialized, [2])] + [OutAssigned(13, [], [2])] + [Referenced(12, i, Pos(93, 43), false, false, [2])], 3);
    assert WalkStmt(For([Declare(i, Pos(93, 18), Initialized)], [Declare(d3, Pos(93, 30), Initialized)], [Use(i, Pos(93, 43), false)], Exprs([Call([Argument([Declare(d3, Pos(94, 42), Initialized)])])])), Ctx(4, [], []), tr) == Tree(tr.scopes + [Scope(ForInit, Some(4))] + [Scope(ForLoop, Some(11))] + [Scope(EmbeddedBody, Some(12))], tr.events + [Declared(11, i, Pos(93, 18), Initialized, [])] + [Declared(12, d3, Pos(93, 30), Initialized, [])] + [Declared(13, d3, Pos(94, 42), Initialized, [2])] + [OutAssigned(13, [], [2])] + [Referenced(12, i, Pos(93, 43), false, false, [2])], 3);
  }

  lemma {:induction false} Walk6(i: string, d1: string, d2: string, d3: string, d4: string, d5: string, tr: Tree)
    requires |tr.scopes| == 17 && tr.arms == 4
    ensures WalkStmt(Exprs([Call([Argument([Declare(d4, Pos(98, 42), Initialized)])])]), Ctx(16, [3], []), tr) == Tree(tr.scopes, tr.events + [Declared(16, d4, Pos(98, 42), Initialized, [3])] + [OutAssigned(16, [], [3])], 4)
  {
    WalkExprsOne(Call([Argument([Declare(d4, Pos(98, 42), Initialized)])]), Ctx(16, [3], []), tr);
    assert OutNames([]) == [];
    WalkArgsOne(Argument([Declare(d4, Pos(98, 42), Initialized)]), [], Ctx(16, [3], []), tr);
    WalkExprsOne(Declare(d4, Pos(98, 42), Initialized), Ctx(16, [3], []), tr);
    assert WalkExpr(Declare(d4, Pos(98, 42), Initialized), Ctx(16, [3], []), tr) == Tree(tr.scopes, tr.events + [Declared(16, d4, Pos(98, 42), Initialized, [3])], 4);
    assert WalkExprs([Declare(d4, Pos(98, 42), Initialized)], Ctx(16, [3], []), tr) == Tree(tr.scopes, tr.events + [Declared(16, d4, Pos(98, 42), Initialized, [3])], 4);
    OutNamesOfOne(Declare(d4, Pos(98, 42), Initialized));
    OutNamesSnoc([], Argument([Declare(d4, Pos(98, 42), Initialized)]));
    assert WalkArgs([Argument([Declare(d4, Pos(98, 42), Initialized)])], [], Ctx(16, [3], []), tr) == Tree(tr.scopes, tr.events + [Declared(16, d4, Pos(98, 42), Initialized, [3])], 4);
    assert OutNames([Argument([Declare(d4, Pos(98, 42), Initialized)])]) == [];
    assert WalkExpr(Call([Argument([Declare(d4, Pos(98, 42), Initialized)])]), Ctx(16, [3], []), tr) == Tree(tr.scopes, tr.events + [Declared(16, d4, Pos(98, 42), Initialized, [3])] + [OutAssigned(16, [], [3])], 4);
    assert WalkExprs([Call([Argument([Declare(d4, Pos(98, 42), Initialized)])])], Ctx(16, [3], []), tr) == Tree(tr.scopes, tr.events + [Declared(16, d4, Pos(98, 42), Initialized, [3])] + [OutAssigned(16, [], [3])], 4);
    assert WalkStmt(Exprs([Call([Argument([Declare(d4, Pos(98, 42), Initialized)])])]), Ctx(16, [3], []), tr) == Tree(tr.scopes, tr.events + [Declared(16, d4, Pos(98, 42), Initialized, [3])] + [OutAssigned(16, [], [3])], 4);
  }

  lemma {:induction false} Walk5(i: string, d1: string, d2: string, d3: string, d4: string, d5: string, tr: Tree)
    requires |tr.scopes| == 14 && tr.arms == 3
    ensures WalkStmt(For([Declare(i, Pos(96, 18), Initialized)], [Declare(d4, Pos(96, 30), Initialized)], [Use(i, Pos(96, 43), false)], Block([Exprs([Call([Argument([Declare(d4, Pos(98, 42), Initialized)])])])])), Ctx(4, [], []), tr) == Tree(tr.scopes + [Scope(ForInit, Some(4))] + [Scope(ForLoop, Some(14))] + [Scope(BlockBody, Some(15))], tr.events + [Declared(14, i, Pos(96, 18), Initialized, [])] + [Declared(15, d4, Pos(96, 30), Initialized, [])] + [Declared(16, d4, Pos(98, 42), Initialized, [3])] + [OutAssigned(16, [], [3])] + [Referenced(15, i, Pos(96, 43), false, false, [3])], 4)
  {
    WalkExprsOne(Declare(i, Pos(96, 18), Initialized), Ctx(14, [], []), Tree(tr.scopes + [Scope(ForInit, Some(4))] + [Scope(ForLoop, Some(14))], tr.events, 3));
    assert WalkExpr(Declare(i, Pos(96, 18), Initialized), Ctx(14, [], []), Tree(tr.scopes + [Scope(ForInit, Some(4))] + [Scope(ForLoop, Some(14))], tr.events, 3)) == Tree(tr.scopes + [Scope(ForInit, Some(4))] + [Scope(ForLoop, Some(14))], tr.events + [Declared(14, i, Pos(96, 18), Initialized, [])], 3);
    assert WalkExprs([Declare(i, Pos(96, 18), Initialized)], Ctx(14, [], []), Tree(tr.scopes + [Scope(ForInit, Some(4))] + [Scope(ForLoop, Some(14))], tr.events, 3)) == Tree(tr.scopes + [Scope(ForInit, Some(4))] + [Scope(ForLoop, Some(14))], tr.events + [Declared(14, i, Pos(96, 18), Initialized, [])], 3);
    WalkExprsOne(Declare(d4, Pos(96, 30), Initialized), Ctx(15, [], []), Tree(tr.scopes + [Scope(ForInit, Some(4))] + [Scope(ForLoop, Some(14))], tr.events + [Declared(14, i, Pos(96, 18), Initialized, [])], 3));
    assert WalkExpr(Declare(d4, Pos(96, 30), Initialized), Ctx(15, [], []), Tree(tr.scopes + [Scope(ForInit, Some(4))] + [Scope(ForLoop, Some(14))], tr.events + [Declared(14, i, Pos(96, 18), Initialized, [])], 3)) == Tree(tr.scopes + [Scope(ForInit, Some(4))] + [Scope(ForLoop, Some(14))], tr.events + [Declared(14, i, Pos(96, 18), Initialized, [])] + [Declared(15, d4, Pos(96, 30), Initialized, [])], 3);
    assert WalkExprs([Declare(d4, Pos(96, 30), Initialized)], Ctx(15, [], []), Tree(tr.scopes + [Scope(ForInit, Some(4))] + [Scope(ForLoop, Some(14))], tr.events + [Declared(14, i, Pos(96, 18), Initialized, [])], 3)) == Tree(tr.scopes + [Scope(ForInit, Some(4))] + [Scope(ForLoop, Some(14))], tr.events + [Declared(14, i, Pos(96, 18), Initialized, [])] + [Declared(15, d4, Pos(96, 30), Initialized, [])], 3);
    assert [] + [3] == [3];
    WalkStmtsOne(Exprs([Call([Argument([Declare(d4, Pos(98, 42), Initialized)])])]), Ctx(16, [3], []), Tree(tr.scopes + [Scope(ForInit, Some(4))] + [Scope(ForLoop, Some(14))] + [Scope(BlockBody, Some(15))], tr.events + [Declared(14, i, Pos(96, 18), Initialized, [])] + [Declared(15, d4, Pos(96, 30), Initialized, [])], 4));
    Walk6(i, d1, d2, d3, d4, d5, Tree(tr.scopes + [Scope(ForInit, Some(4))] + [Scope(ForLoop, Some(14))] + [Scope(BlockBody, Some(15))], tr.events + [Declared(14, i, Pos(96, 18), Initialized, [])] + [Declared(15, d4, Pos(96, 30), Initialized, [])], 4));
    assert WalkStmt(Exprs([Call([Argument([Declare(d4, Pos(98, 42), Initialized)])])]), Ctx(16, [3], []), Tree(tr.scopes + [Scope(ForInit, Some(4))] + [Scope(ForLoop, Some(14))] + [Scope(BlockBody, Some(15))], tr.events + [Declared(14, i, Pos(96, 18), Initialized, [])] + [Declared(15, d4, Pos(96, 30), Initialized, [])], 4)) == Tree(tr.scopes + [Scope(ForInit, Some(4))] + [Scope(ForLoop, Some(14))] + [Scope(BlockBody, Some(15))], tr.events + [Declared(14, i, Pos(96, 18), Initialized, [])] + [Declared(15, d4, Pos(96, 30), Initialized, [])] + [Declared(16, d4, Pos(98, 42), Initialized, [3])] + [OutAssigned(16, [], [3])], 4);
    assert WalkEmbedded(Block([Exprs([Call([Argument([Declare(d4, Pos(98, 42), Initialized)])])])]), Ctx(15, [3], []), Tree(tr.scopes + [Scope(ForInit, Some(4))] + [Scope(ForLoop, Some(14))], tr.events + [Declared(14, i, Pos(96, 18), Initialized, [])] + [Declared(15, d4, Pos(96, 30), Initialized, [])], 4)) == Tree(tr.scopes + [Scope(ForInit, Some(4))] + [Scope(ForLoop, Some(14))] + [Scope(BlockBody, Some(15))], tr.events + [Declared(14, i, Pos(96, 18), Initialized, [])] + [Declared(15, d4, Pos(96, 30), Initialized, [])] + [Declared(16, d4, Pos(98, 42), Initialized, [3])] + [OutAssigned(16, [], [3])], 4);
    WalkExprsOne(Use(i, Pos(96, 43), false), Ctx(15, [3], []), Tree(tr.scopes + [Scope(ForInit, Some(4))] + [Scope(ForLoop, Some(14))] + [Scope(BlockBody, Some(15))], tr.events + [Declared(14, i, Pos(96, 18), Initialized, [])] + [Declared(15, d4, Pos(96, 30), Initialized, [])] + [Declared(16, d4, Pos(98, 42), Initialized, [3])] + [OutAssigned(16, [], [3])], 4));
    assert WalkExpr(Use(i, Pos(96, 43), false), Ctx(15, [3], []), Tree(tr.scopes + [Scope(ForInit, Some(4))] + [Scope(ForLoop, Some(14))] + [Scope(BlockBody, Some(15))], tr.events + [Declared(14, i, Pos(96, 18), Initialized, [])] + [Declared(15, d4, Pos(96, 30), Initialized, [])] + [Declared(16, d4, Pos(98, 42), Initialized, [3])] + [OutAssigned(16, [], [3])], 4)) == Tree(tr.scopes + [Scope(ForInit, Some(4))] + [Scope(ForLoop, Some(14))] + [Scope(BlockBody, Some(15))], tr.events + [Declared(14, i, Pos(96, 18), Initialized, [])] + [Declared(15, d4, Pos(96, 30), Initialized, [])] + [Declared(16, d4, Pos(98, 42), Initialized, [3])] + [OutAssigned(16, [], [3])] + [Referenced(15, i, Pos(96, 43), false, false, [3])], 4);
    assert WalkExprs([Use(i, Pos(96, 43), false)], Ctx(15, [3], []), Tree(tr.scopes + [Scope(ForInit, Some(4))] + [Scope(ForLoop, Some(14))] + [Scope(BlockBody, Some(15))], tr.events + [Declared(14, i, Pos(96, 18), Initialized, [])] + [Declared(15, d4, Pos(96, 30), Initialized, [])] + [Declared(16, d4, Pos(98, 42), Initialized, [3])] + [OutAssigned(16, [], [3])], 4)) == Tree(tr.scopes + [Scope(ForInit, Some(4))] + [Scope(ForLoop, Some(14))] + [Scope(BlockBody, Some(15))], tr.events + [Declared(14, i, Pos(96, 18), Initialized, [])] + [Declared(15, d4, Pos(96, 30), Initialized, [])] + [Declared(16, d4, Pos(98, 42), Initialized, [3])] + [OutAssigned(16, [], [3])] + [Referenced(15, i, Pos(96, 43), false, false, [3])], 4);
    assert WalkStmt(For([Declare(i, Pos(96, 18), Initialized)], [Declare(d4, Pos(96, 30), Initialized)], [Use(i, Pos(96, 43), false)], Block([Exprs([Call([Argument([Declare(d4, Pos(98, 42), Initialized)])])])])), Ctx(4, [], []), tr) == Tree(tr.scopes + [Scope(ForInit, Some(4))] + [Scope(ForLoop, Some(14))] + [Scope(BlockBody, Some(15))], tr.events + [Declared(14, i, Pos(96, 18), Initialized, [])] + [Declared(15, d4, Pos(96, 30), Initialized, [])] + [Declared(16, d4, Pos(98, 42), Initialized, [3])] + [OutAssigned(16, [], [3])] + [Referenced(15, i, Pos(96, 43), false, false, [3])], 4);
  }

  lemma {:induction false} Stmts1(i: string, d1: string, d2: string, d3: string, d4: string, d5: string, tr: Tree, rest: seq<Stmt>)
    requires |tr.scopes| == 5 && tr.arms == 0
    ensures WalkStmts([For([Declare(i, Pos(89, 18), Initialized)], [Declare(d1, Pos(89, 30), Initialized)] + ([Declare(d1, Pos(89, 45), Initialized)]), [Use(i, Pos(89, 54), false)], Exprs([]))] + ([For([Declare(i, Pos(91, 18), Initialized)], [Declare(d2, Pos(91, 30), Initialized)], [Use(i, Pos(91, 43), false)] + ([Declare(d2, Pos(91, 53), Initialized)]), Exprs([]))] + ([For([Declare(i, Pos(93, 18), Initialized)], [Declare(d3, Pos(93, 30), Initialized)], [Use(i, Pos(93, 43), false)], Exprs([Call([Argument([Declare(d3, Pos(94, 42), Initialized)])])]))] + ([For([Declare(i, Pos(96, 18), Initialized)], [Declare(d4, Pos(96, 30), Initialized)], [Use(i, Pos(96, 43), false)], Block([Exprs([Call([Argument([Declare(d4, Pos(98, 42), Initialized)])])])]))] + (rest)))), Ctx(4, [], []), tr) == WalkStmts(rest, Ctx(4, [], []), Tree(tr.scopes + [Scope(ForInit, Some(4))] + [Scope(ForLoop, Some(5))] + [Scope(EmbeddedBody, Some(6))] + [Scope(ForInit, Some(4))] + [Scope(ForLoop, Some(8))] + [Scope(EmbeddedBody, Some(9))] + [Scope(ForInit, Some(4))] + [Scope(ForLoop, Some(11))] + [Scope(EmbeddedBody, Some(12))] + [Scope(ForInit, Some(4))] + [Scope(ForLoop, Some(14))] + [Scope(BlockBody, Some(15))], tr.events + [Declared(5, i, Pos(89, 18), Initialized, [])] + [Declared(6, d1, Pos(89, 30), Initialized, [])] + [Declared(6, d1, Pos(89, 45), Initialized, [])] + [Referenced(6, i, Pos(89, 54), false, false, [0])] + [Declared(8, i, Pos(91, 18), Initialized, [])] + [Declared(9, d2, Pos(91, 30), Initialized, [])] + [Referenced(9, i, Pos(91, 43), false, false, [1])] + [Declared(9, d2, Pos(91, 53), Initialized, [1])] + [Declared(11, i, Pos(93, 18), Initialized, [])] + [Declared(12, d3, Pos(93, 30), Initialized, [])] + [Declared(13, d3, Pos(94, 42), Initialized, [2])] + [OutAssigned(13, [], [2])] + [Referenced(12, i, Pos(93, 43), false, false, [2])] + [Declared(14, i, Pos(96, 18), Initialized, [])] + [Declared(15, d4, Pos(96, 30), Initialized, [])] + [Declared(16, d4, Pos(98, 42), Initialized, [3])] + [OutAssigned(16, [], [3])] + [Referenced(15, i, Pos(96, 43), false, false, [3])], 4))
  {
    WalkStmtsCons(For([Declare(i, Pos(89, 18), Initialized)], [Declare(d1, Pos(89, 30), Initialized)] + ([Declare(d1, Pos(89, 45), Initialized)]), [Use(i, Pos(89, 54), false)], Exprs([])), [For([Declare(i, Pos(91, 18), Initialized)], [Declare(d2, Pos(91, 30), Initialized)], [Use(i, Pos(91, 43), false)] + ([Declare(d2, Pos(91, 53), Initialized)]), Exprs([]))] + ([For([Declare(i, Pos(93, 18), Initialized)], [Declare(d3, Pos(93, 30), Initialized)], [Use(i, Pos(93, 43), false)], Exprs([Call([Argument([Declare(d3, Pos(94, 42), Initialized)])])]))] + ([For([Declare(i, Pos(96, 18), Initialized)], [Declare(d4, Pos(96, 30), Initialized)], [Use(i, Pos(96, 43), false)], Block([Exprs([Call([Argument([Declare(d4, Pos(98, 42), Initialized)])])])]))] + (rest))), Ctx(4, [], []), tr);
    Walk2(i, d1, d2, d3, d4, d5, tr);
    assert WalkStmt(For([Declare(i, Pos(89, 18), Initialized)], [Declare(d1, Pos(89, 30), Initialized)] + ([Declare(d1, Pos(89, 45), Initialized)]), [Use(i, Pos(89, 54), false)], Exprs([])), Ctx(4, [], []), tr) == Tree(tr.scopes + [Scope(ForInit, Some(4))] + [Scope(ForLoop, Some(5))] + [Scope(EmbeddedBody, Some(6))], tr.events + [Declared(5, i, Pos(89, 18), Initialized, [])] + [Declared(6, d1, Pos(89, 30), Initialized, [])] + [Declared(6, d1, Pos(89, 45), Initialized, [])] + [Referenced(6, i, Pos(89, 54), false, false, [0])], 1);
    WalkStmtsCons(For([Declare(i, Pos(91, 18), Initialized)], [Declare(d2, Pos(91, 30), Initialized)], [Use(i, Pos(91, 43), false)] + ([Declare(d2, Pos(91, 53), Initialized)]), Exprs([])), [For([Declare(i, Pos(93, 18), Initialized)], [Declare(d3, Pos(93, 30), Initialized)], [Use(i, Pos(93, 43), false)], Exprs([Call([Argument([Declare(d3, Pos(94, 42), Initialized)])])]))] + ([For([Declare(i, Pos(96, 18), Initialized)], [Declare(d4, Pos(96, 30), Initialized)], [Use(i, Pos(96, 43), false)], Block([Exprs([Call([Argument([Declare(d4, Pos(98, 42), Initialized)])])])]))] + (rest)), Ctx(4, [], []), Tree(tr.scopes + [Scope(ForInit, Some(4))] + [Scope(ForLoop, Some(5))] + [Scope(EmbeddedBody, Some(6))], tr.events + [Declared(5, i, Pos(89, 18), Initialized, [])] + [Declared(6, d1, Pos(89, 30), Initialized, [])] + [Declared(6, d1, Pos(89, 45), Initialized, [])] + [Referenced(6, i, Pos(89, 54), false, false, [0])], 1));
    Walk3(i, d1, d2, d3, d4, d5, Tree(tr.scopes + [Scope(ForInit, Some(4))] + [Scope(ForLoop, Some(5))] + [Scope(EmbeddedBody, Some(6))], tr.events + [Declared(5, i, Pos(89, 18), Initialized, [])] + [Declared(6, d1, Pos(89, 30), Initialized, [])] + [Declared(6, d1, Pos(89, 45), Initialized, [])] + [Referenced(6, i, Pos(89, 54), false, false, [0])], 1));
    assert WalkStmt(For([Declare(i, Pos(91, 18), Initialized)], [Declare(d2, Pos(91, 30), Initialized)], [Use(i, Pos(91, 43), false)] + ([Declare(d2, Pos(91, 53), Initialized)]), Exprs([])), Ctx(4, [], []), Tree(tr.scopes + [Scope(ForInit, Some(4))] + [Scope(ForLoop, Some(5))] + [Scope(EmbeddedBody, Some(6))], tr.events + [Declared(5, i, Pos(89, 18), Initialized, [])] + [Declared(6, d1, Pos(89, 30), Initialized, [])] + [Declared(6, d1, Pos(89, 45), Initialized, [])] + [Referenced(6, i, Pos(89, 54), false, false, [0])], 1)) == Tree(tr.scopes + [Scope(ForInit, Some(4))] + [Scope(ForLoop, Some(5))] + [Scope(EmbeddedBody, Some(6))] + [Scope(ForInit, Some(4))] + [Scope(ForLoop, Some(8))] + [Scope(EmbeddedBody, Some(9))], tr.events + [Declared(5, i, Pos(89, 18), Initialized, [])] + [Declared(6, d1, Pos(89, 30), Initialized, [])] + [Declared(6, d1, Pos(89, 45), Initialized, [])] + [Referenced(6, i, Pos(89, 54), false, false, [0])] + [Declared(8, i, Pos(91, 18), Initialized, [])] + [Declared(9, d2, Pos(91, 30), Initialized, [])] + [Referenced(9, i, Pos(91, 43), false, false, [1])] + [Declared(9, d2, Pos(91, 53), Initialized, [1])], 2);
    WalkStmtsCons(For([Declare(i, Pos(93, 18), Initialized)], [Declare(d3, Pos(93, 30), Initialized)], [Use(i, Pos(93, 43), false)], Exprs([Call([Argument([Declare(d3, Pos(94, 42), Initialized)])])])), [For([Declare(i, Pos(96, 18), Initialized)], [Declare(d4, Pos(96, 30), Initialized)], [Use(i, Pos(96, 43), false)], Block([Exprs([Call([Argument([Declare(d4, Pos(98, 42), Initialized)])])])]))] + (rest), Ctx(4, [], []), Tree(tr.scopes + [Scope(ForInit, Some(4))] + [Scope(ForLoop, Some(5))] + [Scope(EmbeddedBody, Some(6))] + [Scope(ForInit, Some(4))] + [Scope(ForLoop, Some(8))] + [Scope(EmbeddedBody, Some(9))], tr.events + [Declared(5, i, Pos(89, 18), Initialized, [])] + [Declared(6, d1, Pos(89, 30), Initialized, [])] + [Declared(6, d1, Pos(89, 45), Initialized, [])] + [Referenced(6, i, Pos(89, 54), false, false, [0])] + [Declared(8, i, Pos(91, 18), Initialized, [])] + [Declared(9, d2, Pos(91, 30), Initialized, [])] + [Referenced(9, i, Pos(91, 43), false, false, [1])] + [Declared(9, d2, Pos(91, 53), Initialized, [1])], 2));
    Walk4(i, d1, d2, d3, d4, d5, Tree(tr.scopes + [Scope(ForInit, Some(4))] + [Scope(ForLoop, Some(5))] + [Scope(EmbeddedBody, Some(6))] + [Scope(ForInit, Some(4))] + [Scope(ForLoop, Some(8))] + [Scope(EmbeddedBody, Some(9))], tr.events + [Declared(5, i, Pos(89, 18), Initialized, [])] + [Declared(6, d1, Pos(89, 30), Initialized, [])] + [Declared(6, d1, Pos(89, 45), Initialized, [])] + [Referenced(6, i, Pos(89, 54), false, false, [0])] + [Declared(8, i, Pos(91, 18), Initialized, [])] + [Declared(9, d2, Pos(91, 30), Initialized, [])] + [Referenced(9, i, Pos(91, 43), false, false, [1])] + [Declared(9, d2, Pos(91, 53), Initialized, [1])], 2));
    assert WalkStmt(For([Declare(i, Pos(93, 18), Initialized)], [Declare(d3, Pos(93, 30), Initialized)], [Use(i, Pos(93, 43), false)], Exprs([Call([Argument([Declare(d3, Pos(94, 42), Initialized)])])])), Ctx(4, [], []), Tree(tr.scopes + [Scope(ForInit, Some(4))] + [Scope(ForLoop, Some(5))] + [Scope(EmbeddedBody, Some(6))] + [Scope(ForInit, Some(4))] + [Scope(ForLoop, Some(8))] + [Scope(EmbeddedBody, Some(9))], tr.events + [Declared(5, i, Pos(89, 18), Initialized, [])] + [Declared(6, d1, Pos(89, 30), Initialized, [])] + [Declared(6, d1, Pos(89, 45), Initialized, [])] + [Referenced(6, i, Pos(89, 54), false, false, [0])] + [Declared(8, i, Pos(91, 18), Initialized, [])] + [Declared(9, d2, Pos(91, 30), Initialized, [])] + [Referenced(9, i, Pos(91, 43), false, false, [1])] + [Declared(9, d2, Pos(91, 53), Initialized, [1])], 2)) == Tree(tr.scopes + [Scope(ForInit, Some(4))] + [Scope(ForLoop, Some(5))] + [Scope(EmbeddedBody, Some(6))] + [Scope(ForInit, Some(4))] + [Scope(ForLoop, Some(8))] + [Scope(EmbeddedBody, Some(9))] + [Scope(ForInit, Some(4))] + [Scope(ForLoop, Some(11))] + [Scope(EmbeddedBody, Some(12))], tr.events + [Declared(5, i, Pos(89, 18), Initialized, [])] + [Declared(6, d1, Pos(89, 30), Initialized, [])] + [Declared(6, d1, Pos(89, 45), Initialized, [])] + [Referenced(6, i, Pos(89, 54), false, false, [0])] + [Declared(8, i, Pos(91, 18), Initialized, [])] + [Declared(9, d2, Pos(91, 30), Initialized, [])] + [Referenced(9, i, Pos(91, 43), false, false, [1])] + [Declared(9, d2, Pos(91, 53), Initialized, [1])] + [Declared(11, i, Pos(93, 18), Initialized, [])] + [Declared(12, d3, Pos(93, 30), Initialized, [])] + [Declared(13, d3, Pos(94, 42), Initialized, [2])] + [OutAssigned(13, [], [2])] + [Referenced(12, i, Pos(93, 43), false, false, [2])], 3);
    WalkStmtsCons(For([Declare(i, Pos(96, 18), Initialized)], [Declare(d4, Pos(96, 30), Initialized)], [Use(i, Pos(96, 43), false)], Block([Exprs([Call([Argument([Declare(d4, Pos(98, 42), Initialized)])])])])), rest, Ctx(4, [], []), Tree(tr.scopes + [Scope(ForInit, Some(4))] + [Scope(ForLoop, Some(5))] + [Scope(EmbeddedBody, Some(6))] + [Scope(ForInit, Some(4))] + [Scope(ForLoop, Some(8))] + [Scope(EmbeddedBody, Some(9))] + [Scope(ForInit, Some(4))] + [Scope(ForLoop, Some(11))] + [Scope(EmbeddedBody, Some(12))], tr.events + [Declared(5, i, Pos(89, 18), Initialized, [])] + [Declared(6, d1, Pos(89, 30), Initialized, [])] + [Declared(6, d1, Pos(89, 45), Initialized, [])] + [Referenced(6, i, Pos(89, 54), false, false, [0])] + [Declared(8, i, Pos(91, 18), Initialized, [])] + [Declared(9, d2, Pos(91, 30), Initialized, [])] + [Referenced(9, i, Pos(91, 43), false, false, [1])] + [Declared(9, d2, Pos(91, 53), Initialized, [1])] + [Declared(11, i, Pos(93, 18), Initialized, [])] + [Declared(12, d3, Pos(93, 30), Initialized, [])] + [Declared(13, d3, Pos(94, 42), Initialized, [2])] + [OutAssigned(13, [], [2])] + [Referenced(12, i, Pos(93, 43), false, false, [2])], 3));
    Walk5(i, d1, d2, d3, d4, d5, Tree(tr.scopes + [Scope(ForInit, Some(4))] + [Scope(ForLoop, Some(5))] + [Scope(EmbeddedBody, Some(6))] + [Scope(ForInit, Some(4))] + [Scope(ForLoop, Some(8))] + [Scope(EmbeddedBody, Some(9))] + [Scope(ForInit, Some(4))] + [Scope(ForLoop, Some(11))] + [Scope(EmbeddedBody, Some(12))], tr.events + [Declared(5, i, Pos(89, 18), Initialized, [])] + [Declared(6, d1, Pos(89, 30), Initialized, [])] + [Declared(6, d1, Pos(89, 45), Initialized, [])] + [Referenced(6, i, Pos(89, 54), false, false, [0])] + [Declared(8, i, Pos(91, 18), Initialized, [])] + [Declared(9, d2, Pos(91, 30), Initialized, [])] + [Referenced(9, i, Pos(91, 43), false, false, [1])] + [Declared(9, d2, Pos(91, 53), Initialized, [1])] + [Declared(11, i, Pos(93, 18), Initialized, [])] + [Declared(12, d3, Pos(93, 30), Initialized, [])] + [Declared(13, d3, Pos(94, 42), Initialized, [2])] + [OutAssigned(13, [], [2])] + [Referenced(12, i, Pos(93, 43), false, false, [2])], 3));
    assert WalkStmt(For([Declare(i, Pos(96, 18), Initialized)], [Declare(d4, Pos(96, 30), Initialized)], [Use(i, Pos(96, 43), false)], Block([Exprs([Call([Argument([Declare(d4, Pos(98, 42), Initialized)])])])])), Ctx(4, [], []), Tree(tr.scopes + [Scope(ForInit, Some(4))] + [Scope(ForLoop, Some(5))] + [Scope(EmbeddedBody, Some(6))] + [Scope(ForInit, Some(4))] + [Scope(ForLoop, Some(8))] + [Scope(EmbeddedBody, Some(9))] + [Scope(ForInit, Some(4))] + [Scope(ForLoop, Some(11))] + [Scope(EmbeddedBody, Some(12))], tr.events + [Declared(5, i, Pos(89, 18), Initialized, [])] + [Declared(6, d1, Pos(89, 30), Initialized, [])] + [Declared(6, d1, Pos(89, 45), Initialized, [])] + [Referenced(6, i, Pos(89, 54), false, false, [0])] + [Declared(8, i, Pos(91, 18), Initialized, [])] + [Declared(9, d2, Pos(91, 30), Initialized, [])] + [Referenced(9, i, Pos(91, 43), false, false, [1])] + [Declared(9, d2, Pos(91, 53), Initialized, [1])] + [Declared(11, i, Pos(93, 18), Initialized, [])] + [Declared(12, d3, Pos(93, 30), Initialized, [])] + [Declared(13, d3, Pos(94, 42), Initialized, [2])] + [OutAssigned(13, [], [2])] + [Referenced(12, i, Pos(93, 43), false, false, [2])], 3)) == Tree(tr.scopes + [Scope(ForInit, Some(4))] + [Scope(ForLoop, Some(5))] + [Scope(EmbeddedBody, Some(6))] + [Scope(ForInit, Some(4))] + [Scope(ForLoop, Some(8))] + [Scope(EmbeddedBody, Some(9))] + [Scope(ForInit, Some(4))] + [Scope(ForLoop, Some(11))] + [Scope(EmbeddedBody, Some(12))] + [Scope(ForInit, Some(4))] + [Scope(ForLoop, Some(14))] + [Scope(BlockBody, Some(15))], tr.events + [Declared(5, i, Pos(89, 18), Initialized, [])] + [Declared(6, d1, Pos(89, 30), Initialized, [])] + [Declared(6, d1, Pos(89, 45), Initialized, [])] + [Referenced(6, i, Pos(89, 54), false, false, [0])] + [Declared(8, i, Pos(91, 18), Initialized, [])] + [Declared(9, d2, Pos(91, 30), Initialized, [])] + [Referenced(9, i, Pos(91, 43), false, false, [1])] + [Declared(9, d2, Pos(91, 53), Initialized, [1])] + [Declared(11, i, Pos(93, 18), Initialized, [])] + [Declared(12, d3, Pos(93, 30), Initialized, [])] + [Declared(13, d3, Pos(94, 42), Initialized, [2])] + [OutAssigned(13, [], [2])] + [Referenced(12, i, Pos(93, 43), false, false, [2])] + [Declared(14, i, Pos(96, 18), Initialized, [])] + [Declared(15, d4, Pos(96, 30), Initialized, [])] + [Declared(16, d4, Pos(98, 42), Initialized, [3])] + [OutAssigned(16, [], [3])] + [Referenced(15, i, Pos(96, 43), false, false, [3])], 4);
  }

  lemma {:induction false} Walk9(i: string, d1: string, d2: string, d3: string, d4: string, d5: string, tr: Tree)
    requires |tr.scopes| == 20 && tr.arms == 5
    ensures WalkStmt(Exprs([Declare(d5, Pos(103, 17), Initialized)]), Ctx(19, [4], []), tr) == Tree(tr.scopes, tr.events + [Declared(19, d5, Pos(103, 17), Initialized, [4])], 5)
  {
    WalkExprsOne(Declare(d5, Pos(103, 17), Initialized), Ctx(19, [4], []), tr);
    assert WalkExpr(Declare(d5, Pos(103, 17), Initialized), Ctx(19, [4], []), tr) == Tree(tr.scopes, tr.events + [Declared(19, d5, Pos(103, 17), Initialized, [4])], 5);
    assert WalkExprs([Declare(d5, Pos(103, 17), Initialized)], Ctx(19, [4], []), tr) == Tree(tr.scopes, tr.events + [Declared(19, d5, Pos(103, 17), Initialized, [4])], 5);
    assert WalkStmt(Exprs([Declare(d5, Pos(103, 17), Initialized)]), Ctx(19, [4], []), tr) == Tree(tr.scopes, tr.events + [Declared(19, d5, Pos(103, 17), Initialized, [4])], 5);
  }

  lemma {:induction false} Walk10(i: string, d1: string, d2: string, d3: string, d4: string, d5: string, tr: Tree)
    requires |tr.scopes| == 20 && tr.arms == 5
    ensures WalkStmt(Exprs([Call([Argument([Use(d5, Pos(104, 38), false)])])]), Ctx(19, [4], []), tr) == Tree(tr.scopes, tr.events + [Referenced(19, d5, Pos(104, 38), false, false, [4])] + [OutAssigned(19, [], [4])], 5)
  {
    WalkExprsOne(Call([Argument([Use(d5, Pos(104, 38), false)])]), Ctx(19, [4], []), tr);
    assert OutNames([]) == [];
    WalkArgsOne(Argument([Use(d5, Pos(104, 38), false)]), [], Ctx(19, [4], []), tr);
    WalkExprsOne(Use(d5, Pos(104, 38), false), Ctx(19, [4], []), tr);
    assert WalkExpr(Use(d5, Pos(104, 38), false), Ctx(19, [4], []), tr) == Tree(tr.scopes, tr.events + [Referenced(19, d5, Pos(104, 38), false, false, [4])], 5);
    assert WalkExprs([Use(d5, Pos(104, 38), false)], Ctx(19, [4], []), tr) == Tree(tr.scopes, tr.events + [Referenced(19, d5, Pos(104, 38), false, false, [4])], 5);
    OutNamesOfOne(Use(d5, Pos(104, 38), false));
    OutNamesSnoc([], Argument([Use(d5, Pos(104, 38), false)]));
    assert WalkArgs([Argument([Use(d5, Pos(104, 38), false)])], [], Ctx(19, [4], []), tr) == Tree(tr.scopes, tr.events + [Referenced(19, d5, Pos(104, 38), false, false, [4])], 5);
    assert OutNames([Argument([Use(d5, Pos(104, 38), false)])]) == [];
    assert WalkExpr(Call([Argument([Use(d5, Pos(104, 38), false)])]), Ctx(19, [4], []), tr) == Tree(tr.scopes, tr.events + [Referenced(19, d5, Pos(104, 38), false, false, [4])] + [OutAssigned(19, [], [4])], 5);
    assert WalkExprs([Call([Argument([Use(d5, Pos(104, 38), false)])])], Ctx(19, [4], []), tr) == Tree(tr.scopes, tr.events + [Referenced(19, d5, Pos(104, 38), false, false, [4])] + [OutAssigned(19, [], [4])], 5);
    assert WalkStmt(Exprs([Call([Argument([Use(d5, Pos(104, 38), false)])])]), Ctx(19, [4], []), tr) == Tree(tr.scopes, tr.events + [Referenced(19, d5, Pos(104, 38), false, false, [4])] + [OutAssigned(19, [], [4])], 5);
  }

  lemma {:induction false} Walk8(i: string, d1: string, d2: string, d3: string, d4: string, d5: string, tr: Tree)
    requires |tr.scopes| == 17 && tr.arms == 4
    ensures WalkStmt(For([Declare(i, Pos(101, 18), Initialized)], [Declare(d5, Pos(101, 30), Initialized)], [Use(i, Pos(101, 43), false)], Block([Exprs([Declare(d5, Pos(103, 17), Initialized)])] + ([Exprs([Call([Argument([Use(d5, Pos(104, 38), false)])])])]))), Ctx(4, [], []), tr) == Tree(tr.scopes + [Scope(ForInit, Some(4))] + [Scope(ForLoop, Some(17))] + [Scope(BlockBody, Some(18))], tr.events + [Declared(17, i, Pos(101, 18), Initialized, [])] + [Declared(18, d5, Pos(101, 30), Initialized, [])] + [Declared(19, d5, Pos(103, 17), Initialized, [4])] + [Referenced(19, d5, Pos(104, 38), false, false, [4])] + [OutAssigned(19, [], [4])] + [Referenced(18, i, Pos(101, 43), false, false, [4])], 5)
  {
    WalkExprsOne(Declare(i, Pos(101, 18), Initialized), Ctx(17, [], []), Tree(tr.scopes + [Scope(ForInit, Some(4))] + [Scope(ForLoop, Some(17))], tr.events, 4));
    assert WalkExpr(Declare(i, Pos(101, 18), Initialized), Ctx(17, [], []), Tree(tr.scopes + [Scope(ForInit, Some(4))] + [Scope(ForLoop, Some(17))], tr.events, 4)) == Tree(tr.scopes + [Scope(ForInit, Some(4))] + [Scope(ForLoop, Some(17))], tr.events + [Declared(17, i, Pos(101, 18), Initialized, [])], 4);
    assert WalkExprs([Declare(i, Pos(101, 18), Initialized)], Ctx(17, [], []), Tree(tr.scopes + [Scope(ForInit, Some(4))] + [Scope(ForLoop, Some(17))], tr.events, 4)) == Tree(tr.scopes + [Scope(ForInit, Some(4))] + [Scope(ForLoop, Some(17))], tr.events + [Declared(17, i, Pos(101, 18), Initialized, [])], 4);
    WalkExprsOne(Declare(d5, Pos(101, 30), Initialized), Ctx(18, [], []), Tree(tr.scopes + [Scope(ForInit, Some(4))] + [Scope(ForLoop, Some(17))], tr.events + [Declared(17, i, Pos(101, 18), Initialized, [])], 4));
    assert WalkExpr(Declare(d5, Pos(101, 30), Initialized), Ctx(18, [], []), Tree(tr.scopes + [Scope(ForInit, Some(4))] + [Scope(ForLoop, Some(17))], tr.events + [Declared(17, i, Pos(101, 18), Initialized, [])], 4)) == Tree(tr.scopes + [Scope(ForInit, Some(4))] + [Scope(ForLoop, Some(17))], tr.events + [Declared(17, i, Pos(101, 18), Initialized, [])] + [Declared(18, d5, Pos(101, 30), Initialized, [])], 4);
    assert WalkExprs([Declare(d5, Pos(101, 30), Initialized)], Ctx(18, [], []), Tree(tr.scopes + [Scope(ForInit, Some(4))] + [Scope(ForLoop, Some(17))], tr.events + [Declared(17, i, Pos(101, 18), Initialized, [])], 4)) == Tree(tr.scopes + [Scope(ForInit, Some(4))] + [Scope(ForLoop, Some(17))], tr.events + [Declared(17, i, Pos(101, 18), Initialized, [])] + [Declared(18, d5, Pos(101, 30), Initialized, [])], 4);
    assert [] + [4] == [4];
    WalkStmtsCons(Exprs([Declare(d5, Pos(103, 17), Initialized)]), [Exprs([Call([Argument([Use(d5, Pos(104, 38), false)])])])], Ctx(19, [4], []), Tree(tr.scopes + [Scope(ForInit, Some(4))] + [Scope(ForLoop, Some(17))] + [Scope(BlockBody, Some(18))], tr.events + [Declared(17, i, Pos(101, 18), Initialized, [])] + [Declared(18, d5, Pos(101, 30), Initialized, [])], 5));
    Walk9(i, d1, d2, d3, d4, d5, Tree(tr.scopes + [Scope(ForInit, Some(4))] + [Scope(ForLoop, Some(17))] + [Scope(BlockBody, Some(18))], tr.events + [Declared(17, i, Pos(101, 18), Initialized, [])] + [Declared(18, d5, Pos(101, 30), Initialized, [])], 5));
    assert WalkStmt(Exprs([Declare(d5, Pos(103, 17), Initialized)]), Ctx(19, [4], []), Tree(tr.scopes + [Scope(ForInit, Some(4))] + [Scope(ForLoop, Some(17))] + [Scope(BlockBody, Some(18))], tr.events + [Declared(17, i, Pos(101, 18), Initialized, [])] + [Declared(18, d5, Pos(101, 30), Initialized, [])], 5)) == Tree(tr.scopes + [Scope(ForInit, Some(4))] + [Scope(ForLoop, Some(17))] + [Scope(BlockBody, Some(18))], tr.events + [Declared(17, i, Pos(101, 18), Initialized, [])] + [Declared(18, d5, Pos(101, 30), Initialized, [])] + [Declared(19, d5, Pos(103, 17), Initialized, [4])], 5);
    WalkStmtsOne(Exprs([Call([Argument([Use(d5, Pos(104, 38), false)])])]), Ctx(19, [4], []), Tree(tr.scopes + [Scope(ForInit, Some(4))] + [Scope(ForLoop, Some(17))] + [Scope(BlockBody, Some(18))], tr.events + [Declared(17, i, Pos(101, 18), Initialized, [])] + [Declared(18, d5, Pos(101, 30), Initialized, [])] + [Declared(19, d5, Pos(103, 17), Initialized, [4])], 5));
    Walk10(i, d1, d2, d3, d4, d5, Tree(tr.scopes + [Scope(ForInit, Some(4))] + [Scope(ForLoop, Some(17))] + [Scope(BlockBody, Some(18))], tr.events + [Declared(17, i, Pos(101, 18), Initialized, [])] + [Declared(18, d5, Pos(101, 30), Initialized, [])] + [Declared(19, d5, Pos(103, 17), Initialized, [4])], 5));
    assert WalkStmt(Exprs([Call([Argument([Use(d5, Pos(104, 38), false)])])]), Ctx(19, [4], []), Tree(tr.scopes + [Scope(ForInit, Some(4))] + [Scope(ForLoop, Some(17))] + [Scope(BlockBody, Some(18))], tr.events + [Declared(17, i, Pos(101, 18), Initialized, [])] + [Declared(18, d5, Pos(101, 30), Initialized, [])] + [Declared(19, d5, Pos(103, 17), Initialized, [4])], 5)) == Tree(tr.scopes + [Scope(ForInit, Some(4))] + [Scope(ForLoop, Some(17))] + [Scope(BlockBody, Some(18))], tr.events + [Declared(17, i, Pos(101, 18), Initialized, [])] + [Declared(18, d5, Pos(101, 30), Initialized, [])] + [Declared(19, d5, Pos(103, 17), Initialized, [4])] + [Referenced(19, d5, Pos(104, 38), false, false, [4])] + [OutAssigned(19, [], [4])], 5);
    assert WalkEmbedded(Block([Exprs([Declare(d5, Pos(103, 17), Initialized)])] + ([Exprs([Call([Argument([Use(d5, Pos(104, 38), false)])])])])), Ctx(18, [4], []), Tree(tr.scopes + [Scope(ForInit, Some(4))] + [Scope(ForLoop, Some(17))], tr.events + [Declared(17, i, Pos(101, 18), Initialized, [])] + [Declared(18, d5, Pos(101, 30), Initialized, [])], 5)) == Tree(tr.scopes + [Scope(ForInit, Some(4))] + [Scope(ForLoop, Some(17))] + [Scope(BlockBody, Some(18))], tr.events + [Declared(17, i, Pos(101, 18), Initialized, [])] + [Declared(18, d5, Pos(101, 30), Initialized, [])] + [Declared(19, d5, Pos(103, 17), Initialized, [4])] + [Referenced(19, d5, Pos(104, 38), false, false, [4])] + [OutAssigned(19, [], [4])], 5);
    WalkExprsOne(Use(i, Pos(101, 43), false), Ctx(18, [4], []), Tree(tr.scopes + [Scope(ForInit, Some(4))] + [Scope(ForLoop, Some(17))] + [Scope(BlockBody, Some(18))], tr.events + [Declared(17, i, Pos(101, 18), Initialized, [])] + [Declared(18, d5, Pos(101, 30), Initialized, [])] + [Declared(19, d5, Pos(103, 17), Initialized, [4])] + [Referenced(19, d5, Pos(104, 38), false, false, [4])] + [OutAssigned(19, [], [4])], 5));
    assert WalkExpr(Use(i, Pos(101, 43), false), Ctx(18, [4], []), Tree(tr.scopes + [Scope(ForInit, Some(4))] + [Scope(ForLoop, Some(17))] + [Scope(BlockBody, Some(18))], tr.events + [Declared(17, i, Pos(101, 18), Initialized, [])] + [Declared(18, d5, Pos(101, 30), Initialized, [])] + [Declared(19, d5, Pos(103, 17), Initialized, [4])] + [Referenced(19, d5, Pos(104, 38), false, false, [4])] + [OutAssigned(19, [], [4])], 5)) == Tree(tr.scopes + [Scope(ForInit, Some(4))] + [Scope(ForLoop, Some(17))] + [Scope(BlockBody, Some(18))], tr.events + [Declared(17, i, Pos(101, 18), Initialized, [])] + [Declared(18, d5, Pos(101, 30), Initialized, [])] + [Declared(19, d5, Pos(103, 17), Initialized, [4])] + [Referenced(19, d5, Pos(104, 38), false, false, [4])] + [OutAssigned(19, [], [4])] + [Referenced(18, i, Pos(101, 43), false, false, [4])], 5);
    assert WalkExprs([Use(i, Pos(101, 43), false)], Ctx(18, [4], []), Tree(tr.scopes + [Scope(ForInit, Some(4))] + [Scope(ForLoop, Some(17))] + [Scope(BlockBody, Some(18))], tr.events + [Declared(17, i, Pos(101, 18), Initialized, [])] + [Declared(18, d5, Pos(101, 30), Initialized, [])] + [Declared(19, d5, Pos(103, 17), Initialized, [4])] + [Referenced(19, d5, Pos(104, 38), false, false, [4])] + [OutAssigned(19, [], [4])], 5)) == Tree(tr.scopes + [Scope(ForInit, Some(4))] + [Scope(ForLoop, Some(17))] + [Scope(BlockBody, Some(18))], tr.events + [Declared(17, i, Pos(101, 18), Initialized, [])] + [Declared(18, d5, Pos(101, 30), Initialized, [])] + [Declared(19, d5, Pos(103, 17), Initialized, [4])] + [Referenced(19, d5, Pos(104, 38), false, false, [4])] + [OutAssigned(19, [], [4])] + [Referenced(18, i, Pos(101, 43), false, false, [4])], 5);
    assert WalkStmt(For([Declare(i, Pos(101, 18), Initialized)], [Declare(d5, Pos(101, 30), Initialized)], [Use(i, Pos(101, 43), false)], Block([Exprs([Declare(d5, Pos(103, 17), Initialized)])] + ([Exprs([Call([Argument([Use(d5, Pos(104, 38), false)])])])]))), Ctx(4, [], []), tr) == Tree(tr.scopes + [Scope(ForInit, Some(4))] + [Scope(ForLoop, Some(17))] + [Scope(BlockBody, Some(18))], tr.events + [Declared(17, i, Pos(101, 18), Initialized, [])] + [Declared(18, d5, Pos(101, 30), Initialized, [])] + [Declared(19, d5, Pos(103, 17), Initialized, [4])] + [Referenced(19, d5, Pos(104, 38), false, false, [4])] + [OutAssigned(19, [], [4])] + [Referenced(18, i, Pos(101, 43), false, false, [4])], 5);
  }

  lemma {:induction false} Stmts7(i: string, d1: string, d2: string, d3: string, d4: string, d5: string, tr: Tree)
    requires |tr.scopes| == 17 && tr.arms == 4
    ensures WalkStmts([For([Declare(i, Pos(101, 18), Initialized)], [Declare(d5, Pos(101, 30), Initialized)], [Use(i, Pos(101, 43), false)], Block([Exprs([Declare(d5, Pos(103, 17), Initialized)])] + ([Exprs([Call([Argument([Use(d5, Pos(104, 38), false)])])])])))], Ctx(4, [], []), tr) == Tree(tr.scopes + [Scope(ForInit, Some(4))] + [Scope(ForLoop, Some(17))] + [Scope(BlockBody, Some(18))], tr.events + [Declared(17, i, Pos(101, 18), Initialized, [])] + [Declared(18, d5, Pos(101, 30), Initialized, [])] + [Declared(19, d5, Pos(103, 17), Initialized, [4])] + [Referenced(19, d5, Pos(104, 38), false, false, [4])] + [OutAssigned(19, [], [4])] + [Referenced(18, i, Pos(101, 43), false, false, [4])], 5)
  {
    WalkStmtsOne(For([Declare(i, Pos(101, 18), Initialized)], [Declare(d5, Pos(101, 30), Initialized)], [Use(i, Pos(101, 43), false)], Block([Exprs([Declare(d5, Pos(103, 17), Initialized)])] + ([Exprs([Call([Argument([Use(d5, Pos(104, 38), false)])])])]))), Ctx(4, [], []), tr);
    Walk8(i, d1, d2, d3, d4, d5, tr);
    assert WalkStmt(For([Declare(i, Pos(101, 18), Initialized)], [Declare(d5, Pos(101, 30), Initialized)], [Use(i, Pos(101, 43), false)], Block([Exprs([Declare(d5, Pos(103, 17), Initialized)])] + ([Exprs([Call([Argument([Use(d5, Pos(104, 38), false)])])])]))), Ctx(4, [], []), tr) == Tree(tr.scopes + [Scope(ForInit, Some(4))] + [Scope(ForLoop, Some(17))] + [Scope(BlockBody, Some(18))], tr.events + [Declared(17, i, Pos(101, 18), Initialized, [])] + [Declared(18, d5, Pos(101, 30), Initialized, [])] + [Declared(19, d5, Pos(103, 17), Initialized, [4])] + [Referenced(19, d5, Pos(104, 38), false, false, [4])] + [OutAssigned(19, [], [4])] + [Referenced(18, i, Pos(101, 43), false, false, [4])], 5);
  }

  lemma {:induction false} Join0(i: string, d1: string, d2: string, d3: string, d4: string, d5: string, evs: seq<Event>)
    ensures evs + Chunk0(i, d1, d2, d3, d4, d5) == evs + [Declared(5, i, Pos(89, 18), Initialized, [])] + [Declared(6, d1, Pos(89, 30), Initialized, [])] + [Declared(6, d1, Pos(89, 45), Initialized, [])] + [Referenced(6, i, Pos(89, 54), false, false, [0])] + [Declared(8, i, Pos(91, 18), Initialized, [])] + [Declared(9, d2, Pos(91, 30), Initialized, [])] + [Referenced(9, i, Pos(91, 43), false, false, [1])] + [Declared(9, d2, Pos(91, 53), Initialized, [1])]
  {
  }

  lemma {:induction false} Join1(i: string, d1: string, d2: string, d3: string, d4: string, d5: string, evs: seq<Event>)
    ensures evs + Chunk1(i, d1, d2, d3, d4, d5) == evs + [Declared(11, i, Pos(93, 18), Initialized, [])] + [Declared(12, d3, Pos(93, 30), Initialized, [])] + [Declared(13, d3, Pos(94, 42), Initialized, [2])] + [OutAssigned(13, [], [2])] + [Referenced(12, i, Pos(93, 43), false, false, [2])] + [Declared(14, i, Pos(96, 18), Initialized, [])] + [Declared(15, d4, Pos(96, 30), Initialized, [])] + [Declared(16, d4, Pos(98, 42), Initialized, [3])]
  {
  }

  lemma {:induction false} Join2(i: string, d1: string, d2: string, d3: string, d4: string, d5: string, evs: seq<Event>)
    ensures evs + Chunk2(i, d1, d2, d3, d4, d5) == evs + [OutAssigned(16, [], [3])] + [Referenced(15, i, Pos(96, 43), false, false, [3])] + [Declared(17, i, Pos(101, 18), Initialized, [])] + [Declared(18, d5, Pos(101, 30), Initialized, [])] + [Declared(19, d5, Pos(103, 17), Initialized, [4])] + [Referenced(19, d5, Pos(104, 38), false, false, [4])] + [OutAssigned(19, [], [4])] + [Referenced(18, i, Pos(101, 43), false, false, [4])]
  {
  }

  /** The trace, event by event. */
  lemma {:induction false} Flat(i: string, d1: string, d2: string, d3: string, d4: string, d5: string)
    ensures [] + [Declared(5, i, Pos(89, 18), Initialized, [])] + [Declared(6, d1, Pos(89, 30), Initialized, [])] + [Declared(6, d1, Pos(89, 45), Initialized, [])] + [Referenced(6, i, Pos(89, 54), false, false, [0])] + [Declared(8, i, Pos(91, 18), Initialized, [])] + [Declared(9, d2, Pos(91, 30), Initialized, [])] + [Referenced(9, i, Pos(91, 43), false, false, [1])] + [Declared(9, d2, Pos(91, 53), Initialized, [1])] + [Declared(11, i, Pos(93, 18), Initialized, [])] + [Declared(12, d3, Pos(93, 30), Initialized, [])] + [Declared(13, d3, Pos(94, 42), Initialized, [2])] + [OutAssigned(13, [], [2])] + [Referenced(12, i, Pos(93, 43), false, false, [2])] + [Declared(14, i, Pos(96, 18), Initialized, [])] + [Declared(15, d4, Pos(96, 30), Initialized, [])] + [Declared(16, d4, Pos(98, 42), Initialized, [3])] + [OutAssigned(16, [], [3])] + [Referenced(15, i, Pos(96, 43), false, false, [3])] + [Declared(17, i, Pos(101, 18), Initialized, [])] + [Declared(18, d5, Pos(101, 30), Initialized, [])] + [Declared(19, d5, Pos(103, 17), Initialized, [4])] + [Referenced(19, d5, Pos(104, 38), false, false, [4])] + [OutAssigned(19, [], [4])] + [Referenced(18, i, Pos(101, 43), false, false, [4])] == Trace(i, d1, d2, d3, d4, d5)
  {
    Join0(i, d1, d2, d3, d4, d5, []);
    Join1(i, d1, d2, d3, d4, d5, [] + Chunk0(i, d1, d2, d3, d4, d5));
    Join2(i, d1, d2, d3, d4, d5, [] + Chunk0(i, d1, d2, d3, d4, d5) + Chunk1(i, d1, d2, d3, d4, d5));
  }

  lemma {:induction false} Walked(i: string, d1: string, d2: string, d3: string, d4: string, d5: string)
    ensures Build(Program(i, d1, d2, d3, d4, d5)) == Tree(Layout(), Trace(i, d1, d2, d3, d4, d5), 5)
  {
    MainBuild(Body(i, d1, d2, d3, d4, d5));
    Stmts1(i, d1, d2, d3, d4, d5, MainHead(), [For([Declare(i, Pos(101, 18), Initialized)], [Declare(d5, Pos(101, 30), Initialized)], [Use(i, Pos(101, 43), false)], Block([Exprs([Declare(d5, Pos(103, 17), Initialized)])] + ([Exprs([Call([Argument([Use(d5, Pos(104, 38), false)])])])])))]);
    Stmts7(i, d1, d2, d3, d4, d5, Tree(MainHead().scopes + [Scope(ForInit, Some(4))] + [Scope(ForLoop, Some(5))] + [Scope(EmbeddedBody, Some(6))] + [Scope(ForInit, Some(4))] + [Scope(ForLoop, Some(8))] + [Scope(EmbeddedBody, Some(9))] + [Scope(ForInit, Some(4))] + [Scope(ForLoop, Some(11))] + [Scope(EmbeddedBody, Some(12))] + [Scope(ForInit, Some(4))] + [Scope(ForLoop, Some(14))] + [Scope(BlockBody, Some(15))], MainHead().events + [Declared(5, i, Pos(89, 18), Initialized, [])] + [Declared(6, d1, Pos(89, 30), Initialized, [])] + [Declared(6, d1, Pos(89, 45), Initialized, [])] + [Referenced(6, i, Pos(89, 54), false, false, [0])] + [Declared(8, i, Pos(91, 18), Initialized, [])] + [Declared(9, d2, Pos(91, 30), Initialized, [])] + [Referenced(9, i, Pos(91, 43), false, false, [1])] + [Declared(9, d2, Pos(91, 53), Initialized, [1])] + [Declared(11, i, Pos(93, 18), Initialized, [])] + [Declared(12, d3, Pos(93, 30), Initialized, [])] + [Declared(13, d3, Pos(94, 42), Initialized, [2])] + [OutAssigned(13, [], [2])] + [Referenced(12, i, Pos(93, 43), false, false, [2])] + [Declared(14, i, Pos(96, 18), Initialized, [])] + [Declared(15, d4, Pos(96, 30), Initialized, [])] + [Declared(16, d4, Pos(98, 42), Initialized, [3])] + [OutAssigned(16, [], [3])] + [Referenced(15, i, Pos(96, 43), false, false, [3])], 4));
    LayoutFlat();
    Flat(i, d1, d2, d3, d4, d5);
  }

  /** The locals events of chunk `ck` declare in scope `sc`, in order. */
  function NewIn(i: string, d1: string, d2: string, d3: string, d4: string, d5: string, ck: nat, sc: nat): seq<Local> {
    if ck == 0 then
      if sc == 5 then [] + [Local(i, Pos(89, 18))]
      else if sc == 6 then [] + [Local(d1, Pos(89, 30))] + [Local(d1, Pos(89, 45))]
      else if sc == 8 then [] + [Local(i, Pos(91, 18))]
      else if sc == 9 then [] + [Local(d2, Pos(91, 30))] + [Local(d2, Pos(91, 53))]
      else []
    else if ck == 1 then
      if sc == 11 then [] + [Local(i, Pos(93, 18))]
      else if sc == 12 then [] + [Local(d3, Pos(93, 30))]
      else if sc == 13 then [] + [Local(d3, Pos(94, 42))]
      else if sc == 14 then [] + [Local(i, Pos(96, 18))]
      else if sc == 15 then [] + [Local(d4, Pos(96, 30))]
      else if sc == 16 then [] + [Local(d4, Pos(98, 42))]
      else []
    else if ck == 2 then
      if sc == 17 then [] + [Local(i, Pos(101, 18))]
      else if sc == 18 then [] + [Local(d5, Pos(101, 30))]
      else if sc == 19 then [] + [Local(d5, Pos(103, 17))]
      else []
    else []
  }

  /** The locals the first `ck` chunks declare in scope `sc`, in order. */
  function DeclaredBy(i: string, d1: string, d2: string, d3: string, d4: string, d5: string, ck: nat, sc: nat): seq<Local>
    decreases ck
  {
    if ck == 0 then [] else DeclaredBy(i, d1, d2, d3, d4, d5, ck - 1, sc) + NewIn(i, d1, d2, d3, d4, d5, ck - 1, sc)
  }

  /** The locals declared once events 0 to 7 follow some events. */
  lemma {:induction false} Decls0(i: string, d1: string, d2: string, d3: string, d4: string, d5: string, evs: seq<Event>, sc: nat)
    requires DeclsIn(evs, sc) == DeclaredBy(i, d1, d2, d3, d4, d5, 0, sc)
    ensures DeclsIn(evs + Chunk0(i, d1, d2, d3, d4, d5), sc) == DeclaredBy(i, d1, d2, d3, d4, d5, 1, sc)
  {
    DeclsInAppend(evs, Chunk0(i, d1, d2, d3, d4, d5), sc);
    assert DeclsIn([], sc) == [];
    if sc == 5 {
      DeclsInAdd([], Declared(5, i, Pos(89, 18), Initialized, []), 5);
      DeclsInSkip([] + [Declared(5, i, Pos(89, 18), Initialized, [])], Declared(6, d1, Pos(89, 30), Initialized, []), 5);
      DeclsInSkip([] + [Declared(5, i, Pos(89, 18), Initialized, [])] + [Declared(6, d1, Pos(89, 30), Initialized, [])], Declared(6, d1, Pos(89, 45), Initialized, []), 5);
      DeclsInSkip([] + [Declared(5, i, Pos(89, 18), Initialized, [])] + [Declared(6, d1, Pos(89, 30), Initialized, [])] + [Declared(6, d1, Pos(89, 45), Initialized, [])], Referenced(6, i, Pos(89, 54), false, false, [0]), 5);
      DeclsInSkip([] + [Declared(5, i, Pos(89, 18), Initialized, [])] + [Declared(6, d1, Pos(89, 30), Initialized, [])] + [Declared(6, d1, Pos(89, 45), Initialized, [])] + [Referenced(6, i, Pos(89, 54), false, false, [0])], Declared(8, i, Pos(91, 18), Initialized, []), 5);
      DeclsInSkip([] + [Declared(5, i, Pos(89, 18), Initialized, [])] + [Declared(6, d1, Pos(89, 30), Initialized, [])] + [Declared(6, d1, Pos(89, 45), Initialized, [])] + [Referenced(6, i, Pos(89, 54), false, false, [0])] + [Declared(8, i, Pos(91, 18), Initialized, [])], Declared(9, d2, Pos(91, 30), Initialized, []), 5);
      DeclsInSkip([] + [Declared(5, i, Pos(89, 18), Initialized, [])] + [Declared(6, d1, Pos(89, 30), Initialized, [])] + [Declared(6, d1, Pos(89, 45), Initialized, [])] + [Referenced(6, i, Pos(89, 54), false, false, [0])] + [Declared(8, i, Pos(91, 18), Initialized, [])] + [Declared(9, d2, Pos(91, 30), Initialized, [])], Referenced(9, i, Pos(91, 43), false, false, [1]), 5);
      DeclsInSkip([] + [Declared(5, i, Pos(89, 18), Initialized, [])] + [Declared(6, d1, Pos(89, 30), Initialized, [])] + [Declared(6, d1, Pos(89, 45), Initialized, [])] + [Referenced(6, i, Pos(89, 54), false, false, [0])] + [Declared(8, i, Pos(91, 18), Initialized, [])] + [Declared(9, d2, Pos(91, 30), Initialized, [])] + [Referenced(9, i, Pos(91, 43), false, false, [1])], Declared(9, d2, Pos(91, 53), Initialized, [1]), 5);
    } else if sc == 6 {
      DeclsInSkip([], Declared(5, i, Pos(89, 18), Initialized, []), 6);
      DeclsInAdd([] + [Declared(5, i, Pos(89, 18), Initialized, [])], Declared(6, d1, Pos(89, 30), Initialized, []), 6);
      DeclsInAdd([] + [Declared(5, i, Pos(89, 18), Initialized, [])] + [Declared(6, d1, Pos(89, 30), Initialized, [])], Declared(6, d1, Pos(89, 45), Initialized, []), 6);
      DeclsInSkip([] + [Declared(5, i, Pos(89, 18), Initialized, [])] + [Declared(6, d1, Pos(89, 30), Initialized, [])] + [Declared(6, d1, Pos(89, 45), Initialized, [])], Referenced(6, i, Pos(89, 54), false, false, [0]), 6);
      DeclsInSkip([] + [Declared(5, i, Pos(89, 18), Initialized, [])] + [Declared(6, d1, Pos(89, 30), Initialized, [])] + [Declared(6, d1, Pos(89, 45), Initialized, [])] + [Referenced(6, i, Pos(89, 54), false, false, [0])], Declared(8, i, Pos(91, 18), Initialized, []), 6);
      DeclsInSkip([] + [Declared(5, i, Pos(89, 18), Initialized, [])] + [Declared(6, d1, Pos(89, 30), Initialized, [])] + [Declared(6, d1, Pos(89, 45), Initialized, [])] + [Referenced(6, i, Pos(89, 54), false, false, [0])] + [Declared(8, i, Pos(91, 18), Initialized, [])], Declared(9, d2, Pos(91, 30), Initialized, []), 6);
      DeclsInSkip([] + [Declared(5, i, Pos(89, 18), Initialized, [])] + [Declared(6, d1, Pos(89, 30), Initialized, [])] + [Declared(6, d1, Pos(89, 45), Initialized, [])] + [Referenced(6, i, Pos(89, 54), false, false, [0])] + [Declared(8, i, Pos(91, 18), Initialized, [])] + [Declared(9, d2, Pos(91, 30), Initialized, [])], Referenced(9, i, Pos(91, 43), false, false, [1]), 6);
      DeclsInSkip([] + [Declared(5, i, Pos(89, 18), Initialized, [])] + [Declared(6, d1, Pos(89, 30), Initialized, [])] + [Declared(6, d1, Pos(89, 45), Initialized, [])] + [Referenced(6, i, Pos(89, 54), false, false, [0])] + [Declared(8, i, Pos(91, 18), Initialized, [])] + [Declared(9, d2, Pos(91, 30), Initialized, [])] + [Referenced(9, i, Pos(91, 43), false, false, [1])], Declared(9, d2, Pos(91, 53), Initialized, [1]), 6);
    } else if sc == 8 {
      DeclsInSkip([], Declared(5, i, Pos(89, 18), Initialized, []), 8);
      DeclsInSkip([] + [Declared(5, i, Pos(89, 18), Initialized, [])], Declared(6, d1, Pos(89, 30), Initialized, []), 8);
      DeclsInSkip([] + [Declared(5, i, Pos(89, 18), Initialized, [])] + [Declared(6, d1, Pos(89, 30), Initialized, [])], Declared(6, d1, Pos(89, 45), Initialized, []), 8);
      DeclsInSkip([] + [Declared(5, i, Pos(89, 18), Initialized, [])] + [Declared(6, d1, Pos(89, 30), Initialized, [])] + [Declared(6, d1, Pos(89, 45), Initialized, [])], Referenced(6, i, Pos(89, 54), false, false, [0]), 8);
      DeclsInAdd([] + [Declared(5, i, Pos(89, 18), Initialized, [])] + [Declared(6, d1, Pos(89, 30), Initialized, [])] + [Declared(6, d1, Pos(89, 45), Initialized, [])] + [Referenced(6, i, Pos(89, 54), false, false, [0])], Declared(8, i, Pos(91, 18), Initialized, []), 8);
      DeclsInSkip([] + [Declared(5, i, Pos(89, 18), Initialized, [])] + [Declared(6, d1, Pos(89, 30), Initialized, [])] + [Declared(6, d1, Pos(89, 45), Initialized, [])] + [Referenced(6, i, Pos(89, 54), false, false, [0])] + [Declared(8, i, Pos(91, 18), Initialized, [])], Declared(9, d2, Pos(91, 30), Initialized, []), 8);
      DeclsInSkip([] + [Declared(5, i, Pos(89, 18), Initialized, [])] + [Declared(6, d1, Pos(89, 30), Initialized, [])] + [Declared(6, d1, Pos(89, 45), Initialized, [])] + [Referenced(6, i, Pos(89, 54), false, false, [0])] + [Declared(8, i, Pos(91, 18), Initialized, [])] + [Declared(9, d2, Pos(91, 30), Initialized, [])], Referenced(9, i, Pos(91, 43), false, false, [1]), 8);
      DeclsInSkip([] + [Declared(5, i, Pos(89, 18), Initialized, [])] + [Declared(6, d1, Pos(89, 30), Initialized, [])] + [Declared(6, d1, Pos(89, 45), Initialized, [])] + [Referenced(6, i, Pos(89, 54), false, false, [0])] + [Declared(8, i, Pos(91, 18), Initialized, [])] + [Declared(9, d2, Pos(91, 30), Initialized, [])] + [Referenced(9, i, Pos(91, 43), false, false, [1])], Declared(9, d2, Pos(91, 53), Initialized, [1]), 8);
    } else if sc == 9 {
      DeclsInSkip([], Declared(5, i, Pos(89, 18), Initialized, []), 9);
      DeclsInSkip([] + [Declared(5, i, Pos(89, 18), Initialized, [])], Declared(6, d1, Pos(89, 30), Initialized, []), 9);
      DeclsInSkip([] + [Declared(5, i, Pos(89, 18), Initialized, [])] + [Declared(6, d1, Pos(89, 30), Initialized, [])], Declared(6, d1, Pos(89, 45), Initialized, []), 9);
      DeclsInSkip([] + [Declared(5, i, Pos(89, 18), Initialized, [])] + [Declared(6, d1, Pos(89, 30), Initialized, [])] + [Declared(6, d1, Pos(89, 45), Initialized, [])], Referenced(6, i, Pos(89, 54), false, false, [0]), 9);
      DeclsInSkip([] + [Declared(5, i, Pos(89, 18), Initialized, [])] + [Declared(6, d1, Pos(89, 30), Initialized, [])] + [Declared(6, d1, Pos(89, 45), Initialized, [])] + [Referenced(6, i, Pos(89, 54), false, false, [0])], Declared(8, i, Pos(91, 18), Initialized, []), 9);
      DeclsInAdd([] + [Declared(5, i, Pos(89, 18), Initialized, [])] + [Declared(6, d1, Pos(89, 30), Initialized, [])] + [Declared(6, d1, Pos(89, 45), Initialized, [])] + [Referenced(6, i, Pos(89, 54), false, false, [0])] + [Declared(8, i, Pos(91, 18), Initialized, [])], Declared(9, d2, Pos(91, 30), Initialized, []), 9);
      DeclsInSkip([] + [Declared(5, i, Pos(89, 18), Initialized, [])] + [Declared(6, d1, Pos(89, 30), Initialized, [])] + [Declared(6, d1, Pos(89, 45), Initialized, [])] + [Referenced(6, i, Pos(89, 54), false, false, [0])] + [Declared(8, i, Pos(91, 18), Initialized, [])] + [Declared(9, d2, Pos(91, 30), Initialized, [])], Referenced(9, i, Pos(91, 43), false, false, [1]), 9);
      DeclsInAdd([] + [Declared(5, i, Pos(89, 18), Initialized, [])] + [Declared(6, d1, Pos(89, 30), Initialized, [])] + [Declared(6, d1, Pos(89, 45), Initialized, [])] + [Referenced(6, i, Pos(89, 54), false, false, [0])] + [Declared(8, i, Pos(91, 18), Initialized, [])] + [Declared(9, d2, Pos(91, 30), Initialized, [])] + [Referenced(9, i, Pos(91, 43), false, false, [1])], Declared(9, d2, Pos(91, 53), Initialized, [1]), 9);
    } else {
      DeclsInSkip([], Declared(5, i, Pos(89, 18), Initialized, []), sc);
      DeclsInSkip([] + [Declared(5, i, Pos(89, 18), Initialized, [])], Declared(6, d1, Pos(89, 30), Initialized, []), sc);
      DeclsInSkip([] + [Declared(5, i, Pos(89, 18), Initialized, [])] + [Declared(6, d1, Pos(89, 30), Initialized, [])], Declared(6, d1, Pos(89, 45), Initialized, []), sc);
      DeclsInSkip([] + [Declared(5, i, Pos(89, 18), Initialized, [])] + [Declared(6, d1, Pos(89, 30), Initialized, [])] + [Declared(6, d1, Pos(89, 45), Initialized, [])], Referenced(6, i, Pos(89, 54), false, false, [0]), sc);
      DeclsInSkip([] + [Declared(5, i, Pos(89, 18), Initialized, [])] + [Declared(6, d1, Pos(89, 30), Initialized, [])] + [Declared(6, d1, Pos(89, 45), Initialized, [])] + [Referenced(6, i, Pos(89, 54), false, false, [0])], Declared(8, i, Pos(91, 18), Initialized, []), sc);
      DeclsInSkip([] + [Declared(5, i, Pos(89, 18), Initialized, [])] + [Declared(6, d1, Pos(89, 30), Initialized, [])] + [Declared(6, d1, Pos(89, 45), Initialized, [])] + [Referenced(6, i, Pos(89, 54), false, false, [0])] + [Declared(8, i, Pos(91, 18), Initialized, [])], Declared(9, d2, Pos(91, 30), Initialized, []), sc);
      DeclsInSkip([] + [Declared(5, i, Pos(89, 18), Initialized, [])] + [Declared(6, d1, Pos(89, 30), Initialized, [])] + [Declared(6, d1, Pos(89, 45), Initialized, [])] + [Referenced(6, i, Pos(89, 54), false, false, [0])] + [Declared(8, i, Pos(91, 18), Initialized, [])] + [Declared(9, d2, Pos(91, 30), Initialized, [])], Referenced(9, i, Pos(91, 43), false, false, [1]), sc);
      DeclsInSkip([] + [Declared(5, i, Pos(89, 18), Initialized, [])] + [Declared(6, d1, Pos(89, 30), Initialized, [])] + [Declared(6, d1, Pos(89, 45), Initialized, [])] + [Referenced(6, i, Pos(89, 54), false, false, [0])] + [Declared(8, i, Pos(91, 18), Initialized, [])] + [Declared(9, d2, Pos(91, 30), Initialized, [])] + [Referenced(9, i, Pos(91, 43), false, false, [1])], Declared(9, d2, Pos(91, 53), Initialized, [1]), sc);
      AppendNil(DeclsIn(evs, sc));
    }
  }

  /** The locals declared once events 8 to 15 follow some events. */
  lemma {:induction false} Decls1(i: string, d1: string, d2: string, d3: string, d4: string, d5: string, evs: seq<Event>, sc: nat)
    requires DeclsIn(evs, sc) == DeclaredBy(i, d1, d2, d3, d4, d5, 1, sc)
    ensures DeclsIn(evs + Chunk1(i, d1, d2, d3, d4, d5), sc) == DeclaredBy(i, d1, d2, d3, d4, d5, 2, sc)
  {
    DeclsInAppend(evs, Chunk1(i, d1, d2, d3, d4, d5), sc);
    assert DeclsIn([], sc) == [];
    if sc == 11 {
      DeclsInAdd([], Declared(11, i, Pos(93, 18), Initialized, []), 11);
      DeclsInSkip([] + [Declared(11, i, Pos(93, 18), Initialized, [])], Declared(12, d3, Pos(93, 30), Initialized, []), 11);
      DeclsInSkip([] + [Declared(11, i, Pos(93, 18), Initialized, [])] + [Declared(12, d3, Pos(93, 30), Initialized, [])], Declared(13, d3, Pos(94, 42), Initialized, [2]), 11);
      DeclsInSkip([] + [Declared(11, i, Pos(93, 18), Initialized, [])] + [Declared(12, d3, Pos(93, 30), Initialized, [])] + [Declared(13, d3, Pos(94, 42), Initialized, [2])], OutAssigned(13, [], [2]), 11);
      DeclsInSkip([] + [Declared(11, i, Pos(93, 18), Initialized, [])] + [Declared(12, d3, Pos(93, 30), Initialized, [])] + [Declared(13, d3, Pos(94, 42), Initialized, [2])] + [OutAssigned(13, [], [2])], Referenced(12, i, Pos(93, 43), false, false, [2]), 11);
      DeclsInSkip([] + [Declared(11, i, Pos(93, 18), Initialized, [])] + [Declared(12, d3, Pos(93, 30), Initialized, [])] + [Declared(13, d3, Pos(94, 42), Initialized, [2])] + [OutAssigned(13, [], [2])] + [Referenced(12, i, Pos(93, 43), false, false, [2])], Declared(14, i, Pos(96, 18), Initialized, []), 11);
      DeclsInSkip([] + [Declared(11, i, Pos(93, 18), Initialized, [])] + [Declared(12, d3, Pos(93, 30), Initialized, [])] + [Declared(13, d3, Pos(94, 42), Initialized, [2])] + [OutAssigned(13, [], [2])] + [Referenced(12, i, Pos(93, 43), false, false, [2])] + [Declared(14, i, Pos(96, 18), Initialized, [])], Declared(15, d4, Pos(96, 30), Initialized, []), 11);
      DeclsInSkip([] + [Declared(11, i, Pos(93, 18), Initialized, [])] + [Declared(12, d3, Pos(93, 30), Initialized, [])] + [Declared(13, d3, Pos(94, 42), Initialized, [2])] + [OutAssigned(13, [], [2])] + [Referenced(12, i, Pos(93, 43), false, false, [2])] + [Declared(14, i, Pos(96, 18), Initialized, [])] + [Declared(15, d4, Pos(96, 30), Initialized, [])], Declared(16, d4, Pos(98, 42), Initialized, [3]), 11);
    } else if sc == 12 {
      DeclsInSkip([], Declared(11, i, Pos(93, 18), Initialized, []), 12);
      DeclsInAdd([] + [Declared(11, i, Pos(93, 18), Initialized, [])], Declared(12, d3, Pos(93, 30), Initialized, []), 12);
      DeclsInSkip([] + [Declared(11, i, Pos(93, 18), Initialized, [])] + [Declared(12, d3, Pos(93, 30), Initialized, [])], Declared(13, d3, Pos(94, 42), Initialized, [2]), 12);
      DeclsInSkip([] + [Declared(11, i, Pos(93, 18), Initialized, [])] + [Declared(12, d3, Pos(93, 30), Initialized, [])] + [Declared(13, d3, Pos(94, 42), Initialized, [2])], OutAssigned(13, [], [2]), 12);
      DeclsInSkip([] + [Declared(11, i, Pos(93, 18), Initialized, [])] + [Declared(12, d3, Pos(93, 30), Initialized, [])] + [Declared(13, d3, Pos(94, 42), Initialized, [2])] + [OutAssigned(13, [], [2])], Referenced(12, i, Pos(93, 43), false, false, [2]), 12);
      DeclsInSkip([] + [Declared(11, i, Pos(93, 18), Initialized, [])] + [Declared(12, d3, Pos(93, 30), Initialized, [])] + [Declared(13, d3, Pos(94, 42), Initialized, [2])] + [OutAssigned(13, [], [2])] + [Referenced(12, i, Pos(93, 43), false, false, [2])], Declared(14, i, Pos(96, 18), Initialized, []), 12);
      DeclsInSkip([] + [Declared(11, i, Pos(93, 18), Initialized, [])] + [Declared(12, d3, Pos(93, 30), Initialized, [])] + [Declared(13, d3, Pos(94, 42), Initialized, [2])] + [OutAssigned(13, [], [2])] + [Referenced(12, i, Pos(93, 43), false, false, [2])] + [Declared(14, i, Pos(96, 18), Initialized, [])], Declared(15, d4, Pos(96, 30), Initialized, []), 12);
      DeclsInSkip([] + [Declared(11, i, Pos(93, 18), Initialized, [])] + [Declared(12, d3, Pos(93, 30), Initialized, [])] + [Declared(13, d3, Pos(94, 42), Initialized, [2])] + [OutAssigned(13, [], [2])] + [Referenced(12, i, Pos(93, 43), false, false, [2])] + [Declared(14, i, Pos(96, 18), Initialized, [])] + [Declared(15, d4, Pos(96, 30), Initialized, [])], Declared(16, d4, Pos(98, 42), Initialized, [3]), 12);
    } else if sc == 13 {
      DeclsInSkip([], Declared(11, i, Pos(93, 18), Initialized, []), 13);
      DeclsInSkip([] + [Declared(11, i, Pos(93, 18), Initialized, [])], Declared(12, d3, Pos(93, 30), Initialized, []), 13);
      DeclsInAdd([] + [Declared(11, i, Pos(93, 18), Initialized, [])] + [Declared(12, d3, Pos(93, 30), Initialized, [])], Declared(13, d3, Pos(94, 42), Initialized, [2]), 13);
      DeclsInSkip([] + [Declared(11, i, Pos(93, 18), Initialized, [])] + [Declared(12, d3, Pos(93, 30), Initialized, [])] + [Declared(13, d3, Pos(94, 42), Initialized, [2])], OutAssigned(13, [], [2]), 13);
      DeclsInSkip([] + [Declared(11, i, Pos(93, 18), Initialized, [])] + [Declared(12, d3, Pos(93, 30), Initialized, [])] + [Declared(13, d3, Pos(94, 42), Initialized, [2])] + [OutAssigned(13, [], [2])], Referenced(12, i, Pos(93, 43), false, false, [2]), 13);
      DeclsInSkip([] + [Declared(11, i, Pos(93, 18), Initialized, [])] + [Declared(12, d3, Pos(93, 30), Initialized, [])] + [Declared(13, d3, Pos(94, 42), Initialized, [2])] + [OutAssigned(13, [], [2])] + [Referenced(12, i, Pos(93, 43), false, false, [2])], Declared(14, i, Pos(96, 18), Initialized, []), 13);
      DeclsInSkip([] + [Declared(11, i, Pos(93, 18), Initialized, [])] + [Declared(12, d3, Pos(93, 30), Initialized, [])] + [Declared(13, d3, Pos(94, 42), Initialized, [2])] + [OutAssigned(13, [], [2])] + [Referenced(12, i, Pos(93, 43), false, false, [2])] + [Declared(14, i, Pos(96, 18), Initialized, [])], Declared(15, d4, Pos(96, 30), Initialized, []), 13);
      DeclsInSkip([] + [Declared(11, i, Pos(93, 18), Initialized, [])] + [Declared(12, d3, Pos(93, 30), Initialized, [])] + [Declared(13, d3, Pos(94, 42), Initialized, [2])] + [OutAssigned(13, [], [2])] + [Referenced(12, i, Pos(93, 43), false, false, [2])] + [Declared(14, i, Pos(96, 18), Initialized, [])] + [Declared(15, d4, Pos(96, 30), Initialized, [])], Declared(16, d4, Pos(98, 42), Initialized, [3]), 13);
    } else if sc == 14 {
      DeclsInSkip([], Declared(11, i, Pos(93, 18), Initialized, []), 14);
      DeclsInSkip([] + [Declared(11, i, Pos(93, 18), Initialized, [])], Declared(12, d3, Pos(93, 30), Initialized, []), 14);
      DeclsInSkip([] + [Declared(11, i, Pos(93, 18), Initialized, [])] + [Declared(12, d3, Pos(93, 30), Initialized, [])], Declared(13, d3, Pos(94, 42), Initialized, [2]), 14);
      DeclsInSkip([] + [Declared(11, i, Pos(93, 18), Initialized, [])] + [Declared(12, d3, Pos(93, 30), Initialized, [])] + [Declared(13, d3, Pos(94, 42), Initialized, [2])], OutAssigned(13, [], [2]), 14);
      DeclsInSkip([] + [Declared(11, i, Pos(93, 18), Initialized, [])] + [Declared(12, d3, Pos(93, 30), Initialized, [])] + [Declared(13, d3, Pos(94, 42), Initialized, [2])] + [OutAssigned(13, [], [2])], Referenced(12, i, Pos(93, 43), false, false, [2]), 14);
      DeclsInAdd([] + [Declared(11, i, Pos(93, 18), Initialized, [])] + [Declared(12, d3, Pos(93, 30), Initialized, [])] + [Declared(13, d3, Pos(94, 42), Initialized, [2])] + [OutAssigned(13, [], [2])] + [Referenced(12, i, Pos(93, 43), false, false, [2])], Declared(14, i, Pos(96, 18), Initialized, []), 14);
      DeclsInSkip([] + [Declared(11, i, Pos(93, 18), Initialized, [])] + [Declared(12, d3, Pos(93, 30), Initialized, [])] + [Declared(13, d3, Pos(94, 42), Initialized, [2])] + [OutAssigned(13, [], [2])] + [Referenced(12, i, Pos(93, 43), false, false, [2])] + [Declared(14, i, Pos(96, 18), Initialized, [])], Declared(15, d4, Pos(96, 30), Initialized, []), 14);
      DeclsInSkip([] + [Declared(11, i, Pos(93, 18), Initialized, [])] + [Declared(12, d3, Pos(93, 30), Initialized, [])] + [Declared(13, d3, Pos(94, 42), Initialized, [2])] + [OutAssigned(13, [], [2])] + [Referenced(12, i, Pos(93, 43), false, false, [2])] + [Declared(14, i, Pos(96, 18), Initialized, [])] + [Declared(15, d4, Pos(96, 30), Initialized, [])], Declared(16, d4, Pos(98, 42), Initialized, [3]), 14);
    } else if sc == 15 {
      DeclsInSkip([], Declared(11, i, Pos(93, 18), Initialized, []), 15);
      DeclsInSkip([] + [Declared(11, i, Pos(93, 18), Initialized, [])], Declared(12, d3, Pos(93, 30), Initialized, []), 15);
      DeclsInSkip([] + [Declared(11, i, Pos(93, 18), Initialized, [])] + [Declared(12, d3, Pos(93, 30), Initialized, [])], Declared(13, d3, Pos(94, 42), Initialized, [2]), 15);
      DeclsInSkip([] + [Declared(11, i, Pos(93, 18), Initialized, [])] + [Declared(12, d3, Pos(93, 30), Initialized, [])] + [Declared(13, d3, Pos(94, 42), Initialized, [2])], OutAssigned(13, [], [2]), 15);
      DeclsInSkip([] + [Declared(11, i, Pos(93, 18), Initialized, [])] + [Declared(12, d3, Pos(93, 30), Initialized, [])] + [Declared(13, d3, Pos(94, 42), Initialized, [2])] + [OutAssigned(13, [], [2])], Referenced(12, i, Pos(93, 43), false, false, [2]), 15);
      DeclsInSkip([] + [Declared(11, i, Pos(93, 18), Initialized, [])] + [Declared(12, d3, Pos(93, 30), Initialized, [])] + [Declared(13, d3, Pos(94, 42), Initialized, [2])] + [OutAssigned(13, [], [2])] + [Referenced(12, i, Pos(93, 43), false, false, [2])], Declared(14, i, Pos(96, 18), Initialized, []), 15);
      DeclsInAdd([] + [Declared(11, i, Pos(93, 18), Initialized, [])] + [Declared(12, d3, Pos(93, 30), Initialized, [])] + [Declared(13, d3, Pos(94, 42), Initialized, [2])] + [OutAssigned(13, [], [2])] + [Referenced(12, i, Pos(93, 43), false, false, [2])] + [Declared(14, i, Pos(96, 18), Initialized, [])], Declared(15, d4, Pos(96, 30), Initialized, []), 15);
      DeclsInSkip([] + [Declared(11, i, Pos(93, 18), Initialized, [])] + [Declared(12, d3, Pos(93, 30), Initialized, [])] + [Declared(13, d3, Pos(94, 42), Initialized, [2])] + [OutAssigned(13, [], [2])] + [Referenced(12, i, Pos(93, 43), false, false, [2])] + [Declared(14, i, Pos(96, 18), Initialized, [])] + [Declared(15, d4, Pos(96, 30), Initialized, [])], Declared(16, d4, Pos(98, 42), Initialized, [3]), 15);
    } else if sc == 16 {
      DeclsInSkip([], Declared(11, i, Pos(93, 18), Initialized, []), 16);
      DeclsInSkip([] + [Declared(11, i, Pos(93, 18), Initialized, [])], Declared(12, d3, Pos(93, 30), Initialized, []), 16);
      DeclsInSkip([] + [Declared(11, i, Pos(93, 18), Initialized, [])] + [Declared(12, d3, Pos(93, 30), Initialized, [])], Declared(13, d3, Pos(94, 42), Initialized, [2]), 16);
      DeclsInSkip([] + [Declared(11, i, Pos(93, 18), Initialized, [])] + [Declared(12, d3, Pos(93, 30), Initialized, [])] + [Declared(13, d3, Pos(94, 42), Initialized, [2])], OutAssigned(13, [], [2]), 16);
      DeclsInSkip([] + [Declared(11, i, Pos(93, 18), Initialized, [])] + [Declared(12, d3, Pos(93, 30), Initialized, [])] + [Declared(13, d3, Pos(94, 42), Initialized, [2])] + [OutAssigned(13, [], [2])], Referenced(12, i, Pos(93, 43), false, false, [2]), 16);
      DeclsInSkip([] + [Declared(11, i, Pos(93, 18), Initialized, [])] + [Declared(12, d3, Pos(93, 30), Initialized, [])] + [Declared(13, d3, Pos(94, 42), Initialized, [2])] + [OutAssigned(13, [], [2])] + [Referenced(12, i, Pos(93, 43), false, false, [2])], Declared(14, i, Pos(96, 18), Initialized, []), 16);
      DeclsInSkip([] + [Declared(11, i, Pos(93, 18), Initialized, [])] + [Declared(12, d3, Pos(93, 30), Initialized, [])] + [Declared(13, d3, Pos(94, 42), Initialized, [2])] + [OutAssigned(13, [], [2])] + [Referenced(12, i, Pos(93, 43), false, false, [2])] + [Declared(14, i, Pos(96, 18), Initialized, [])], Declared(15, d4, Pos(96, 30), Initialized, []), 16);
      DeclsInAdd([] + [Declared(11, i, Pos(93, 18), Initialized, [])] + [Declared(12, d3, Pos(93, 30), Initialized, [])] + [Declared(13, d3, Pos(94, 42), Initialized, [2])] + [OutAssigned(13, [], [2])] + [Referenced(12, i, Pos(93, 43), false, false, [2])] + [Declared(14, i, Pos(96, 18), Initialized, [])] + [Declared(15, d4, Pos(96, 30), Initialized, [])], Declared(16, d4, Pos(98, 42), Initialized, [3]), 16);
    } else {
      DeclsInSkip([], Declared(11, i, Pos(93, 18), Initialized, []), sc);
      DeclsInSkip([] + [Declared(11, i, Pos(93, 18), Initialized, [])], Declared(12, d3, Pos(93, 30), Initialized, []), sc);
      DeclsInSkip([] + [Declared(11, i, Pos(93, 18), Initialized, [])] + [Declared(12, d3, Pos(93, 30), Initialized, [])], Declared(13, d3, Pos(94, 42), Initialized, [2]), sc);
      DeclsInSkip([] + [Declared(11, i, Pos(93, 18), Initialized, [])] + [Declared(12, d3, Pos(93, 30), Initialized, [])] + [Declared(13, d3, Pos(94, 42), Initialized, [2])], OutAssigned(13, [], [2]), sc);
      DeclsInSkip([] + [Declared(11, i, Pos(93, 18), Initialized, [])] + [Declared(12, d3, Pos(93, 30), Initialized, [])] + [Declared(13, d3, Pos(94, 42), Initialized, [2])] + [OutAssigned(13, [], [2])], Referenced(12, i, Pos(93, 43), false, false, [2]), sc);
      DeclsInSkip([] + [Declared(11, i, Pos(93, 18), Initialized, [])] + [Declared(12, d3, Pos(93, 30), Initialized, [])] + [Declared(13, d3, Pos(94, 42), Initialized, [2])] + [OutAssigned(13, [], [2])] + [Referenced(12, i, Pos(93, 43), false, false, [2])], Declared(14, i, Pos(96, 18), Initialized, []), sc);
      DeclsInSkip([] + [Declared(11, i, Pos(93, 18), Initialized, [])] + [Declared(12, d3, Pos(93, 30), Initialized, [])] + [Declared(13, d3, Pos(94, 42), Initialized, [2])] + [OutAssigned(13, [], [2])] + [Referenced(12, i, Pos(93, 43), false, false, [2])] + [Declared(14, i, Pos(96, 18), Initialized, [])], Declared(15, d4, Pos(96, 30), Initialized, []), sc);
      DeclsInSkip([] + [Declared(11, i, Pos(93, 18), Initialized, [])] + [Declared(12, d3, Pos(93, 30), Initialized, [])] + [Declared(13, d3, Pos(94, 42), Initialized, [2])] + [OutAssigned(13, [], [2])] + [Referenced(12, i, Pos(93, 43), false, false, [2])] + [Declared(14, i, Pos(96, 18), Initialized, [])] + [Declared(15, d4, Pos(96, 30), Initialized, [])], Declared(16, d4, Pos(98, 42), Initialized, [3]), sc);
      AppendNil(DeclsIn(evs, sc));
    }
  }

  /** The locals declared once events 16 to 23 follow some events. */
  lemma {:induction false} Decls2(i: string, d1: string, d2: string, d3: string, d4: string, d5: string, evs: seq<Event>, sc: nat)
    requires DeclsIn(evs, sc) == DeclaredBy(i, d1, d2, d3, d4, d5, 2, sc)
    ensures DeclsIn(evs + Chunk2(i, d1, d2, d3, d4, d5), sc) == DeclaredBy(i, d1, d2, d3, d4, d5, 3, sc)
  {
    DeclsInAppend(evs, Chunk2(i, d1, d2, d3, d4, d5), sc);
    assert DeclsIn([], sc) == [];
    if sc == 17 {
      DeclsInSkip([], OutAssigned(16, [], [3]), 17);
      DeclsInSkip([] + [OutAssigned(16, [], [3])], Referenced(15, i, Pos(96, 43), false, false, [3]), 17);
      DeclsInAdd([] + [OutAssigned(16, [], [3])] + [Referenced(15, i, Pos(96, 43), false, false, [3])], Declared(17, i, Pos(101, 18), Initialized, []), 17);
      DeclsInSkip([] + [OutAssigned(16, [], [3])] + [Referenced(15, i, Pos(96, 43), false, false, [3])] + [Declared(17, i, Pos(101, 18), Initialized, [])], Declared(18, d5, Pos(101, 30), Initialized, []), 17);
      DeclsInSkip([] + [OutAssigned(16, [], [3])] + [Referenced(15, i, Pos(96, 43), false, false, [3])] + [Declared(17, i, Pos(101, 18), Initialized, [])] + [Declared(18, d5, Pos(101, 30), Initialized, [])], Declared(19, d5, Pos(103, 17), Initialized, [4]), 17);
      DeclsInSkip([] + [OutAssigned(16, [], [3])] + [Referenced(15, i, Pos(96, 43), false, false, [3])] + [Declared(17, i, Pos(101, 18), Initialized, [])] + [Declared(18, d5, Pos(101, 30), Initialized, [])] + [Declared(19, d5, Pos(103, 17), Initialized, [4])], Referenced(19, d5, Pos(104, 38), false, false, [4]), 17);
      DeclsInSkip([] + [OutAssigned(16, [], [3])] + [Referenced(15, i, Pos(96, 43), false, false, [3])] + [Declared(17, i, Pos(101, 18), Initialized, [])] + [Declared(18, d5, Pos(101, 30), Initialized, [])] + [Declared(19, d5, Pos(103, 17), Initialized, [4])] + [Referenced(19, d5, Pos(104, 38), false, false, [4])], OutAssigned(19, [], [4]), 17);
      DeclsInSkip([] + [OutAssigned(16, [], [3])] + [Referenced(15, i, Pos(96, 43), false, false, [3])] + [Declared(17, i, Pos(101, 18), Initialized, [])] + [Declared(18, d5, Pos(101, 30), Initialized, [])] + [Declared(19, d5, Pos(103, 17), Initialized, [4])] + [Referenced(19, d5, Pos(104, 38), false, false, [4])] + [OutAssigned(19, [], [4])], Referenced(18, i, Pos(101, 43), false, false, [4]), 17);
    } else if sc == 18 {
      DeclsInSkip([], OutAssigned(16, [], [3]), 18);
      DeclsInSkip([] + [OutAssigned(16, [], [3])], Referenced(15, i, Pos(96, 43), false, false, [3]), 18);
      DeclsInSkip([] + [OutAssigned(16, [], [3])] + [Referenced(15, i, Pos(96, 43), false, false, [3])], Declared(17, i, Pos(101, 18), Initialized, []), 18);
      DeclsInAdd([] + [OutAssigned(16, [], [3])] + [Referenced(15, i, Pos(96, 43), false, false, [3])] + [Declared(17, i, Pos(101, 18), Initialized, [])], Declared(18, d5, Pos(101, 30), Initialized, []), 18);
      DeclsInSkip([] + [OutAssigned(16, [], [3])] + [Referenced(15, i, Pos(96, 43), false, false, [3])] + [Declared(17, i, Pos(101, 18), Initialized, [])] + [Declared(18, d5, Pos(101, 30), Initialized, [])], Declared(19, d5, Pos(103, 17), Initialized, [4]), 18);
      DeclsInSkip([] + [OutAssigned(16, [], [3])] + [Referenced(15, i, Pos(96, 43), false, false, [3])] + [Declared(17, i, Pos(101, 18), Initialized, [])] + [Declared(18, d5, Pos(101, 30), Initialized, [])] + [Declared(19, d5, Pos(103, 17), Initialized, [4])], Referenced(19, d5, Pos(104, 38), false, false, [4]), 18);
      DeclsInSkip([] + [OutAssigned(16, [], [3])] + [Referenced(15, i, Pos(96, 43), false, false, [3])] + [Declared(17, i, Pos(101, 18), Initialized, [])] + [Declared(18, d5, Pos(101, 30), Initialized, [])] + [Declared(19, d5, Pos(103, 17), Initialized, [4])] + [Referenced(19, d5, Pos(104, 38), false, false, [4])], OutAssigned(19, [], [4]), 18);
      DeclsInSkip([] + [OutAssigned(16, [], [3])] + [Referenced(15, i, Pos(96, 43), false, false, [3])] + [Declared(17, i, Pos(101, 18), Initialized, [])] + [Declared(18, d5, Pos(101, 30), Initialized, [])] + [Declared(19, d5, Pos(103, 17), Initialized, [4])] + [Referenced(19, d5, Pos(104, 38), false, false, [4])] + [OutAssigned(19, [], [4])], Referenced(18, i, Pos(101, 43), false, false, [4]), 18);
    } else if sc == 19 {
      DeclsInSkip([], OutAssigned(16, [], [3]), 19);
      DeclsInSkip([] + [OutAssigned(16, [], [3])], Referenced(15, i, Pos(96, 43), false, false, [3]), 19);
      DeclsInSkip([] + [OutAssigned(16, [], [3])] + [Referenced(15, i, Pos(96, 43), false, false, [3])], Declared(17, i, Pos(101, 18), Initialized, []), 19);
      DeclsInSkip([] + [OutAssigned(16, [], [3])] + [Referenced(15, i, Pos(96, 43), false, false, [3])] + [Declared(17, i, Pos(101, 18), Initialized, [])], Declared(18, d5, Pos(101, 30), Initialized, []), 19);
      DeclsInAdd([] + [OutAssigned(16, [], [3])] + [Referenced(15, i, Pos(96, 43), false, false, [3])] + [Declared(17, i, Pos(101, 18), Initialized, [])] + [Declared(18, d5, Pos(101, 30), Initialized, [])], Declared(19, d5, Pos(103, 17), Initialized, [4]), 19);
      DeclsInSkip([] + [OutAssigned(16, [], [3])] + [Referenced(15, i, Pos(96, 43), false, false, [3])] + [Declared(17, i, Pos(101, 18), Initialized, [])] + [Declared(18, d5, Pos(101, 30), Initialized, [])] + [Declared(19, d5, Pos(103, 17), Initialized, [4])], Referenced(19, d5, Pos(104, 38), false, false, [4]), 19);
      DeclsInSkip([] + [OutAssigned(16, [], [3])] + [Referenced(15, i, Pos(96, 43), false, false, [3])] + [Declared(17, i, Pos(101, 18), Initialized, [])] + [Declared(18, d5, Pos(101, 30), Initialized, [])] + [Declared(19, d5, Pos(103, 17), Initialized, [4])] + [Referenced(19, d5, Pos(104, 38), false, false, [4])], OutAssigned(19, [], [4]), 19);
      DeclsInSkip([] + [OutAssigned(16, [], [3])] + [Referenced(15, i, Pos(96, 43), false, false, [3])] + [Declared(17, i, Pos(101, 18), Initialized, [])] + [Declared(18, d5, Pos(101, 30), Initialized, [])] + [Declared(19, d5, Pos(103, 17), Initialized, [4])] + [Referenced(19, d5, Pos(104, 38), false, false, [4])] + [OutAssigned(19, [], [4])], Referenced(18, i, Pos(101, 43), false, false, [4]), 19);
    } else {
      DeclsInSkip([], OutAssigned(16, [], [3]), sc);
      DeclsInSkip([] + [OutAssigned(16, [], [3])], Referenced(15, i, Pos(96, 43), false, false, [3]), sc);
      DeclsInSkip([] + [OutAssigned(16, [], [3])] + [Referenced(15, i, Pos(96, 43), false, false, [3])], Declared(17, i, Pos(101, 18), Initialized, []), sc);
      DeclsInSkip([] + [OutAssigned(16, [], [3])] + [Referenced(15, i, Pos(96, 43), false, false, [3])] + [Declared(17, i, Pos(101, 18), Initialized, [])], Declared(18, d5, Pos(101, 30), Initialized, []), sc);
      DeclsInSkip([] + [OutAssigned(16, [], [3])] + [Referenced(15, i, Pos(96, 43), false, false, [3])] + [Declared(17, i, Pos(101, 18), Initialized, [])] + [Declared(18, d5, Pos(101, 30), Initialized, [])], Declared(19, d5, Pos(103, 17), Initialized, [4]), sc);
      DeclsInSkip([] + [OutAssigned(16, [], [3])] + [Referenced(15, i, Pos(96, 43), false, false, [3])] + [Declared(17, i, Pos(101, 18), Initialized, [])] + [Declared(18, d5, Pos(101, 30), Initialized, [])] + [Declared(19, d5, Pos(103, 17), Initialized, [4])], Referenced(19, d5, Pos(104, 38), false, false, [4]), sc);
      DeclsInSkip([] + [OutAssigned(16, [], [3])] + [Referenced(15, i, Pos(96, 43), false, false, [3])] + [Declared(17, i, Pos(101, 18), Initialized, [])] + [Declared(18, d5, Pos(101, 30), Initialized, [])] + [Declared(19, d5, Pos(103, 17), Initialized, [4])] + [Referenced(19, d5, Pos(104, 38), false, false, [4])], OutAssigned(19, [], [4]), sc);
      DeclsInSkip([] + [OutAssigned(16, [], [3])] + [Referenced(15, i, Pos(96, 43), false, false, [3])] + [Declared(17, i, Pos(101, 18), Initialized, [])] + [Declared(18, d5, Pos(101, 30), Initialized, [])] + [Declared(19, d5, Pos(103, 17), Initialized, [4])] + [Referenced(19, d5, Pos(104, 38), false, false, [4])] + [OutAssigned(19, [], [4])], Referenced(18, i, Pos(101, 43), false, false, [4]), sc);
      AppendNil(DeclsIn(evs, sc));
    }
  }

  lemma {:induction false} DeclsStage0(i: string, d1: string, d2: string, d3: string, d4: string, d5: string, evs: seq<Event>, sc: nat)
    requires DeclsIn(evs, sc) == DeclaredBy(i, d1, d2, d3, d4, d5, 0, sc)
    ensures DeclsIn(evs + Chunk0(i, d1, d2, d3, d4, d5) + Chunk1(i, d1, d2, d3, d4, d5) + Chunk2(i, d1, d2, d3, d4, d5), sc) == DeclaredBy(i, d1, d2, d3, d4, d5, 3, sc)
  {
    Decls0(i, d1, d2, d3, d4, d5, evs, sc);
    Decls1(i, d1, d2, d3, d4, d5, evs + Chunk0(i, d1, d2, d3, d4, d5), sc);
    Decls2(i, d1, d2, d3, d4, d5, evs + Chunk0(i, d1, d2, d3, d4, d5) + Chunk1(i, d1, d2, d3, d4, d5), sc);
  }

  /** The locals of every scope of a tree whose events are the test's, as the table gives them. */
  ghost predicate LocalsFit(i: string, d1: string, d2: string, d3: string, d4: string, d5: string, tr: Tree) {
    forall sc: nat {:trigger DeclaredBy(i, d1, d2, d3, d4, d5, 3, sc)} :: LocalsOf(tr, sc) == DeclaredBy(i, d1, d2, d3, d4, d5, 3, sc)
  }

  /** The locals of every scope. */
  lemma {:induction false} LocalsAll(i: string, d1: string, d2: string, d3: string, d4: string, d5: string, tr: Tree)
    requires tr.events == Trace(i, d1, d2, d3, d4, d5)
    ensures LocalsFit(i, d1, d2, d3, d4, d5, tr)
  {
    forall sc: nat
      ensures LocalsOf(tr, sc) == DeclaredBy(i, d1, d2, d3, d4, d5, 3, sc)
    {
      assert DeclsIn([], sc) == [] == DeclaredBy(i, d1, d2, d3, d4, d5, 0, sc);
      DeclsStage0(i, d1, d2, d3, d4, d5, [], sc);
    }
  }

  /** The locals scope 0 declares, in order. */
  lemma {:induction false} Locals0(i: string, d1: string, d2: string, d3: string, d4: string, d5: string)
    ensures DeclaredBy(i, d1, d2, d3, d4, d5, 3, 0) == []
  {
    AppendNil([]);
    assert DeclaredBy(i, d1, d2, d3, d4, d5, 1, 0) == [];
    assert DeclaredBy(i, d1, d2, d3, d4, d5, 2, 0) == [];
    assert DeclaredBy(i, d1, d2, d3, d4, d5, 3, 0) == [];
  }

  /** The locals scope 3 declares, in order. */
  lemma {:induction false} Locals3(i: string, d1: string, d2: string, d3: string, d4: string, d5: string)
    ensures DeclaredBy(i, d1, d2, d3, d4, d5, 3, 3) == []
  {
    AppendNil([]);
    assert DeclaredBy(i, d1, d2, d3, d4, d5, 1, 3) == [];
    assert DeclaredBy(i, d1, d2, d3, d4, d5, 2, 3) == [];
    assert DeclaredBy(i, d1, d2, d3, d4, d5, 3, 3) == [];
  }

  /** The locals scope 4 declares, in order. */
  lemma {:induction false} Locals4(i: string, d1: string, d2: string, d3: string, d4: string, d5: string)
    ensures DeclaredBy(i, d1, d2, d3, d4, d5, 3, 4) == []
  {
    AppendNil([]);
    assert DeclaredBy(i, d1, d2, d3, d4, d5, 1, 4) == [];
    assert DeclaredBy(i, d1, d2, d3, d4, d5, 2, 4) == [];
    assert DeclaredBy(i, d1, d2, d3, d4, d5, 3, 4) == [];
  }

  /** The locals scope 5 declares, in order. */
  lemma {:induction false} Locals5(i: string, d1: string, d2: string, d3: string, d4: string, d5: string)
    ensures DeclaredBy(i, d1, d2, d3, d4, d5, 3, 5) == [Local(i, Pos(89, 18))]
  {
    assert DeclaredBy(i, d1, d2, d3, d4, d5, 1, 5) == [Local(i, Pos(89, 18))];
    AppendNil([Local(i, Pos(89, 18))]);
    assert DeclaredBy(i, d1, d2, d3, d4, d5, 2, 5) == [Local(i, Pos(89, 18))];
    assert DeclaredBy(i, d1, d2, d3, d4, d5, 3, 5) == [Local(i, Pos(89, 18))];
  }

  /** The locals scope 6 declares, in order. */
  lemma {:induction false} Locals6(i: string, d1: string, d2: string, d3: string, d4: string, d5: string)
    ensures DeclaredBy(i, d1, d2, d3, d4, d5, 3, 6) == [Local(d1, Pos(89, 30)), Local(d1, Pos(89, 45))]
  {
    assert DeclaredBy(i, d1, d2, d3, d4, d5, 1, 6) == [Local(d1, Pos(89, 30)), Local(d1, Pos(89, 45))];
    AppendNil([Local(d1, Pos(89, 30)), Local(d1, Pos(89, 45))]);
    assert DeclaredBy(i, d1, d2, d3, d4, d5, 2, 6) == [Local(d1, Pos(89, 30)), Local(d1, Pos(89, 45))];
    assert DeclaredBy(i, d1, d2, d3, d4, d5, 3, 6) == [Local(d1, Pos(89, 30)), Local(d1, Pos(89, 45))];
  }

  /** The locals scope 8 declares, in order. */
  lemma {:induction false} Locals8(i: string, d1: string, d2: string, d3: string, d4: string, d5: string)
    ensures DeclaredBy(i, d1, d2, d3, d4, d5, 3, 8) == [Local(i, Pos(91, 18))]
  {
    assert DeclaredBy(i, d1, d2, d3, d4, d5, 1, 8) == [Local(i, Pos(91, 18))];
    AppendNil([Local(i, Pos(91, 18))]);
    assert DeclaredBy(i, d1, d2, d3, d4, d5, 2, 8) == [Local(i, Pos(91, 18))];
    assert DeclaredBy(i, d1, d2, d3, d4, d5, 3, 8) == [Local(i, Pos(91, 18))];
  }

  /** The locals scope 9 declares, in order. */
  lemma {:induction false} Locals9(i: string, d1: string, d2: string, d3: string, d4: string, d5: string)
    ensures DeclaredBy(i, d1, d2, d3, d4, d5, 3, 9) == [Local(d2, Pos(91, 30)), Local(d2, Pos(91, 53))]
  {
    assert DeclaredBy(i, d1, d2, d3, d4, d5, 1, 9) == [Local(d2, Pos(91, 30)), Local(d2, Pos(91, 53))];
    AppendNil([Local(d2, Pos(91, 30)), Local(d2, Pos(91, 53))]);
    assert DeclaredBy(i, d1, d2, d3, d4, d5, 2, 9) == [Local(d2, Pos(91, 30)), Local(d2, Pos(91, 53))];
    assert DeclaredBy(i, d1, d2, d3, d4, d5, 3, 9) == [Local(d2, Pos(91, 30)), Local(d2, Pos(91, 53))];
  }

  /** The locals scope 11 declares, in order. */
  lemma {:induction false} Locals11(i: string, d1: string, d2: string, d3: string, d4: string, d5: string)
    ensures DeclaredBy(i, d1, d2, d3, d4, d5, 3, 11) == [Local(i, Pos(93, 18))]
  {
    AppendNil([]);
    assert DeclaredBy(i, d1, d2, d3, d4, d5, 1, 11) == [];
    assert DeclaredBy(i, d1, d2, d3, d4, d5, 2, 11) == [Local(i, Pos(93, 18))];
    AppendNil([Local(i, Pos(93, 18))]);
    assert DeclaredBy(i, d1, d2, d3, d4, d5, 3, 11) == [Local(i, Pos(93, 18))];
  }

  /** The locals scope 12 declares, in order. */
  lemma {:induction false} Locals12(i: string, d1: string, d2: string, d3: string, d4: string, d5: string)
    ensures DeclaredBy(i, d1, d2, d3, d4, d5, 3, 12) == [Local(d3, Pos(93, 30))]
  {
    AppendNil([]);
    assert DeclaredBy(i, d1, d2, d3, d4, d5, 1, 12) == [];
    assert DeclaredBy(i, d1, d2, d3, d4, d5, 2, 12) == [Local(d3, Pos(93, 30))];
    AppendNil([Local(d3, Pos(93, 30))]);
    assert DeclaredBy(i, d1, d2, d3, d4, d5, 3, 12) == [Local(d3, Pos(93, 30))];
  }

  /** The locals scope 13 declares, in order. */
  lemma {:induction false} Locals13(i: string, d1: string, d2: string, d3: string, d4: string, d5: string)
    ensures DeclaredBy(i, d1, d2, d3, d4, d5, 3, 13) == [Local(d3, Pos(94, 42))]
  {
    AppendNil([]);
    assert DeclaredBy(i, d1, d2, d3, d4, d5, 1, 13) == [];
    assert DeclaredBy(i, d1, d2, d3, d4, d5, 2, 13) == [Local(d3, Pos(94, 42))];
    AppendNil([Local(d3, Pos(94, 42))]);
    assert DeclaredBy(i, d1, d2, d3, d4, d5, 3, 13) == [Local(d3, Pos(94, 42))];
  }

  /** The locals scope 14 declares, in order. */
  lemma {:induction false} Locals14(i: string, d1: string, d2: string, d3: string, d4: string, d5: string)
    ensures DeclaredBy(i, d1, d2, d3, d4, d5, 3, 14) == [Local(i, Pos(96, 18))]
  {
    AppendNil([]);
    assert DeclaredBy(i, d1, d2, d3, d4, d5, 1, 14) == [];
    assert DeclaredBy(i, d1, d2, d3, d4, d5, 2, 14) == [Local(i, Pos(96, 18))];
    AppendNil([Local(i, Pos(96, 18))]);
    assert DeclaredBy(i, d1, d2, d3, d4, d5, 3, 14) == [Local(i, Pos(96, 18))];
  }

  /** The locals scope 15 declares, in order. */
  lemma {:induction false} Locals15(i: string, d1: string, d2: string, d3: string, d4: string, d5: string)
    ensures DeclaredBy(i, d1, d2, d3, d4, d5, 3, 15) == [Local(d4, Pos(96, 30))]
  {
    AppendNil([]);
    assert DeclaredBy(i, d1, d2, d3, d4, d5, 1, 15) == [];
    assert DeclaredBy(i, d1, d2, d3, d4, d5, 2, 15) == [Local(d4, Pos(96, 30))];
    AppendNil([Local(d4, Pos(96, 30))]);
    assert DeclaredBy(i, d1, d2, d3, d4, d5, 3, 15) == [Local(d4, Pos(96, 30))];
  }

  /** The locals scope 16 declares, in order. */
  lemma {:induction false} Locals16(i: string, d1: string, d2: string, d3: string, d4: string, d5: string)
    ensures DeclaredBy(i, d1, d2, d3, d4, d5, 3, 16) == [Local(d4, Pos(98, 42))]
  {
    AppendNil([]);
    assert DeclaredBy(i, d1, d2, d3, d4, d5, 1, 16) == [];
    assert DeclaredBy(i, d1, d2, d3, d4, d5, 2, 16) == [Local(d4, Pos(98, 42))];
    AppendNil([Local(d4, Pos(98, 42))]);
    assert DeclaredBy(i, d1, d2, d3, d4, d5, 3, 16) == [Local(d4, Pos(98, 42))];
  }

  /** The locals scope 17 declares, in order. */
  lemma {:induction false} Locals17(i: string, d1: string, d2: string, d3: string, d4: string, d5: string)
    ensures DeclaredBy(i, d1, d2, d3, d4, d5, 3, 17) == [Local(i, Pos(101, 18))]
  {
    AppendNil([]);
    assert DeclaredBy(i, d1, d2, d3, d4, d5, 1, 17) == [];
    assert DeclaredBy(i, d1, d2, d3, d4, d5, 2, 17) == [];
    assert DeclaredBy(i, d1, d2, d3, d4, d5, 3, 17) == [Local(i, Pos(101, 18))];
  }

  /** The locals scope 18 declares, in order. */
  lemma {:induction false} Locals18(i: string, d1: string, d2: string, d3: string, d4: string, d5: string)
    ensures DeclaredBy(i, d1, d2, d3, d4, d5, 3, 18) == [Local(d5, Pos(101, 30))]
  {
    AppendNil([]);
    assert DeclaredBy(i, d1, d2, d3, d4, d5, 1, 18) == [];
    assert DeclaredBy(i, d1, d2, d3, d4, d5, 2, 18) == [];
    assert DeclaredBy(i, d1, d2, d3, d4, d5, 3, 18) == [Local(d5, Pos(101, 30))];
  }

  /** The locals scope 19 declares, in order. */
  lemma {:induction false} Locals19(i: string, d1: string, d2: string, d3: string, d4: string, d5: string)
    ensures DeclaredBy(i, d1, d2, d3, d4, d5, 3, 19) == [Local(d5, Pos(103, 17))]
  {
    AppendNil([]);
    assert DeclaredBy(i, d1, d2, d3, d4, d5, 1, 19) == [];
    assert DeclaredBy(i, d1, d2, d3, d4, d5, 2, 19) == [];
    assert DeclaredBy(i, d1, d2, d3, d4, d5, 3, 19) == [Local(d5, Pos(103, 17))];
  }

  /** The assignments known after event 7. */
  function Known0(i: string, d1: string, d2: string, d3: string, d4: string, d5: string): seq<Fact> {
    []
      + [Fact(5, i, [])]
      + [Fact(6, d1, [])]
      + [Fact(6, d1, [])]
      + [Fact(8, i, [])]
      + [Fact(9, d2, [])]
      + [Fact(9, d2, [1])]
  }

  /** Whether a local is assigned after the assignments of events 0 to 7. */
  lemma {:induction false} Assigned0(i: string, d1: string, d2: string, d3: string, d4: string, d5: string, fs: seq<Fact>, sc: nat, nm: string, pth: seq<nat>)
    ensures Assigned(fs + [Fact(5, i, [])] + [Fact(6, d1, [])] + [Fact(6, d1, [])] + [Fact(8, i, [])] + [Fact(9, d2, [])] + [Fact(9, d2, [1])], sc, nm, pth) == (
      Assigned(fs, sc, nm, pth) ||
      (5 == sc && i == nm && [] <= pth) ||
      (6 == sc && d1 == nm && [] <= pth) ||
      (6 == sc && d1 == nm && [] <= pth) ||
      (8 == sc && i == nm && [] <= pth) ||
      (9 == sc && d2 == nm && [] <= pth) ||
      (9 == sc && d2 == nm && [1] <= pth))
  {
    AssignedSnoc(fs, Fact(5, i, []), sc, nm, pth);
    AssignedSnoc(fs + [Fact(5, i, [])], Fact(6, d1, []), sc, nm, pth);
    AssignedSnoc(fs + [Fact(5, i, [])] + [Fact(6, d1, [])], Fact(6, d1, []), sc, nm, pth);
    AssignedSnoc(fs + [Fact(5, i, [])] + [Fact(6, d1, [])] + [Fact(6, d1, [])], Fact(8, i, []), sc, nm, pth);
    AssignedSnoc(fs + [Fact(5, i, [])] + [Fact(6, d1, [])] + [Fact(6, d1, [])] + [Fact(8, i, [])], Fact(9, d2, []), sc, nm, pth);
    AssignedSnoc(fs + [Fact(5, i, [])] + [Fact(6, d1, [])] + [Fact(6, d1, [])] + [Fact(8, i, [])] + [Fact(9, d2, [])], Fact(9, d2, [1]), sc, nm, pth);
  }

  /** The assignments known after event 15. */
  function Known1(i: string, d1: string, d2: string, d3: string, d4: string, d5: string): seq<Fact> {
    Known0(i, d1, d2, d3, d4, d5)
      + [Fact(11, i, [])]
      + [Fact(12, d3, [])]
      + [Fact(13, d3, [2])]
      + [Fact(14, i, [])]
      + [Fact(15, d4, [])]
      + [Fact(16, d4, [3])]
  }

  /** Whether a local is assigned after the assignments of events 8 to 15. */
  lemma {:induction false} Assigned1(i: string, d1: string, d2: string, d3: string, d4: string, d5: string, fs: seq<Fact>, sc: nat, nm: string, pth: seq<nat>)
    ensures Assigned(fs + [Fact(11, i, [])] + [Fact(12, d3, [])] + [Fact(13, d3, [2])] + [Fact(14, i, [])] + [Fact(15, d4, [])] + [Fact(16, d4, [3])], sc, nm, pth) == (
      Assigned(fs, sc, nm, pth) ||
      (11 == sc && i == nm && [] <= pth) ||
      (12 == sc && d3 == nm && [] <= pth) ||
      (13 == sc && d3 == nm && [2] <= pth) ||
      (14 == sc && i == nm && [] <= pth) ||
      (15 == sc && d4 == nm && [] <= pth) ||
      (16 == sc && d4 == nm && [3] <= pth))
  {
    AssignedSnoc(fs, Fact(11, i, []), sc, nm, pth);
    AssignedSnoc(fs + [Fact(11, i, [])], Fact(12, d3, []), sc, nm, pth);
    AssignedSnoc(fs + [Fact(11, i, [])] + [Fact(12, d3, [])], Fact(13, d3, [2]), sc, nm, pth);
    AssignedSnoc(fs + [Fact(11, i, [])] + [Fact(12, d3, [])] + [Fact(13, d3, [2])], Fact(14, i, []), sc, nm, pth);
    AssignedSnoc(fs + [Fact(11, i, [])] + [Fact(12, d3, [])] + [Fact(13, d3, [2])] + [Fact(14, i, [])], Fact(15, d4, []), sc, nm, pth);
    AssignedSnoc(fs + [Fact(11, i, [])] + [Fact(12, d3, [])] + [Fact(13, d3, [2])] + [Fact(14, i, [])] + [Fact(15, d4, [])], Fact(16, d4, [3]), sc, nm, pth);
  }

  /** The assignments known after event 23. */
  function Known2(i: string, d1: string, d2: string, d3: string, d4: string, d5: string): seq<Fact> {
    Known1(i, d1, d2, d3, d4, d5)
      + [Fact(17, i, [])]
      + [Fact(18, d5, [])]
      + [Fact(19, d5, [4])]
  }

  /** Whether a local is assigned after the assignments of events 16 to 23. */
  lemma {:induction false} Assigned2(i: string, d1: string, d2: string, d3: string, d4: string, d5: string, fs: seq<Fact>, sc: nat, nm: string, pth: seq<nat>)
    ensures Assigned(fs + [Fact(17, i, [])] + [Fact(18, d5, [])] + [Fact(19, d5, [4])], sc, nm, pth) == (
      Assigned(fs, sc, nm, pth) ||
      (17 == sc && i == nm && [] <= pth) ||
      (18 == sc && d5 == nm && [] <= pth) ||
      (19 == sc && d5 == nm && [4] <= pth))
  {
    AssignedSnoc(fs, Fact(17, i, []), sc, nm, pth);
    AssignedSnoc(fs + [Fact(17, i, [])], Fact(18, d5, []), sc, nm, pth);
    AssignedSnoc(fs + [Fact(17, i, [])] + [Fact(18, d5, [])], Fact(19, d5, [4]), sc, nm, pth);
  }

  /** Event 0: its diagnostics and the assignments after it. */
  lemma {:induction false} Event0(i: string, d1: string, d2: string, d3: string, d4: string, d5: string, tr: Tree, fs: seq<Fact>)
    requires |tr.scopes| == 20
    requires Parent(tr, 0) == None
    requires Parent(tr, 3) == Some(0)
    requires Parent(tr, 4) == Some(3)
    requires Parent(tr, 5) == Some(4)
    requires LocalsOf(tr, 5) == [Local(i, Pos(89, 18))]
    requires LocalsOf(tr, 4) == []
    requires LocalsOf(tr, 3) == []
    requires LocalsOf(tr, 0) == []
    ensures EventDiags(tr, Declared(5, i, Pos(89, 18), Initialized, []), fs) == []
    ensures Step(tr, Declared(5, i, Pos(89, 18), Initialized, []), fs) == fs + [Fact(5, i, [])]
  {
    assert Lookup(tr, 0, i) == None;
    assert Lookup(tr, 3, i) == None;
    assert Lookup(tr, 4, i) == None;
  }

  /** Event 1: its diagnostics and the assignments after it. */
  lemma {:induction false} Event1(i: string, d1: string, d2: string, d3: string, d4: string, d5: string, tr: Tree, fs: seq<Fact>)
    requires |tr.scopes| == 20
    requires Parent(tr, 0) == None
    requires Parent(tr, 3) == Some(0)
    requires Parent(tr, 4) == Some(3)
    requires Parent(tr, 5) == Some(4)
    requires Parent(tr, 6) == Some(5)
    requires LocalsOf(tr, 6) == [Local(d1, Pos(89, 30)), Local(d1, Pos(89, 45))]
    requires LocalsOf(tr, 5) == [Local(i, Pos(89, 18))]
    requires LocalsOf(tr, 4) == []
    requires LocalsOf(tr, 3) == []
    requires LocalsOf(tr, 0) == []
    requires i != d1
    ensures EventDiags(tr, Declared(6, d1, Pos(89, 30), Initialized, []), fs) == []
    ensures Step(tr, Declared(6, d1, Pos(89, 30), Initialized, []), fs) == fs + [Fact(6, d1, [])]
  {
    assert Lookup(tr, 0, d1) == None;
    assert Lookup(tr, 3, d1) == None;
    assert Lookup(tr, 4, d1) == None;
    assert Lookup(tr, 5, d1) == None;
  }

  /** Event 2: its diagnostics and the assignments after it. */
  lemma {:induction false} Event2(i: string, d1: string, d2: string, d3: string, d4: string, d5: string, tr: Tree, fs: seq<Fact>)
    requires |tr.scopes| == 20
    requires Parent(tr, 6) == Some(5)
    requires LocalsOf(tr, 6) == [Local(d1, Pos(89, 30)), Local(d1, Pos(89, 45))]
    ensures EventDiags(tr, Declared(6, d1, Pos(89, 45), Initialized, []), fs) == [Diag(Duplicate, d1, Pos(89, 45))]
    ensures Step(tr, Declared(6, d1, Pos(89, 45), Initialized, []), fs) == fs + [Fact(6, d1, [])]
  {
    assert Local(d1, Pos(89, 30)) in LocalsOf(tr, 6);
  }

  /** Event 3: its diagnostics and the assignments after it. */
  lemma {:induction false} Event3(i: string, d1: string, d2: string, d3: string, d4: string, d5: string, tr: Tree, fs: seq<Fact>)
    requires |tr.scopes| == 20
    requires Parent(tr, 5) == Some(4)
    requires Parent(tr, 6) == Some(5)
    requires LocalsOf(tr, 6) == [Local(d1, Pos(89, 30)), Local(d1, Pos(89, 45))]
    requires LocalsOf(tr, 5) == [Local(i, Pos(89, 18))]
    requires i != d1
    requires Assigned(fs, 5, i, [0])
    ensures EventDiags(tr, Referenced(6, i, Pos(89, 54), false, false, [0]), fs) == []
    ensures Step(tr, Referenced(6, i, Pos(89, 54), false, false, [0]), fs) == fs
  {
    assert Local(i, Pos(89, 18)) in LocalsOf(tr, 5);
    assert Lookup(tr, 5, i) == Some(5);
    assert Lookup(tr, 6, i) == Some(5);
  }

  /** Event 4: its diagnostics and the assignments after it. */
  lemma {:induction false} Event4(i: string, d1: string, d2: string, d3: string, d4: string, d5: string, tr: Tree, fs: seq<Fact>)
    requires |tr.scopes| == 20
    requires Parent(tr, 0) == None
    requires Parent(tr, 3) == Some(0)
    requires Parent(tr, 4) == Some(3)
    requires Parent(tr, 8) == Some(4)
    requires LocalsOf(tr, 8) == [Local(i, Pos(91, 18))]
    requires LocalsOf(tr, 4) == []
    requires LocalsOf(tr, 3) == []
    requires LocalsOf(tr, 0) == []
    ensures EventDiags(tr, Declared(8, i, Pos(91, 18), Initialized, []), fs) == []
    ensures Step(tr, Declared(8, i, Pos(91, 18), Initialized, []), fs) == fs + [Fact(8, i, [])]
  {
    assert Lookup(tr, 0, i) == None;
    assert Lookup(tr, 3, i) == None;
    assert Lookup(tr, 4, i) == None;
  }

  /** Event 5: its diagnostics and the assignments after it. */
  lemma {:induction false} Event5(i: string, d1: string, d2: string, d3: string, d4: string, d5: string, tr: Tree, fs: seq<Fact>)
    requires |tr.scopes| == 20
    requires Parent(tr, 0) == None
    requires Parent(tr, 3) == Some(0)
    requires Parent(tr, 4) == Some(3)
    requires Parent(tr, 8) == Some(4)
    requires Parent(tr, 9) == Some(8)
    requires LocalsOf(tr, 9) == [Local(d2, Pos(91, 30)), Local(d2, Pos(91, 53))]
    requires LocalsOf(tr, 8) == [Local(i, Pos(91, 18))]
    requires LocalsOf(tr, 4) == []
    requires LocalsOf(tr, 3) == []
    requires LocalsOf(tr, 0) == []
    requires i != d2
    ensures EventDiags(tr, Declared(9, d2, Pos(91, 30), Initialized, []), fs) == []
    ensures Step(tr, Declared(9, d2, Pos(91, 30), Initialized, []), fs) == fs + [Fact(9, d2, [])]
  {
    assert Lookup(tr, 0, d2) == None;
    assert Lookup(tr, 3, d2) == None;
    assert Lookup(tr, 4, d2) == None;
    assert Lookup(tr, 8, d2) == None;
  }

  /** Event 6: its diagnostics and the assignments after it. */
  lemma {:induction false} Event6(i: string, d1: string, d2: string, d3: string, d4: string, d5: string, tr: Tree, fs: seq<Fact>)
    requires |tr.scopes| == 20
    requires Parent(tr, 8) == Some(4)
    requires Parent(tr, 9) == Some(8)
    requires LocalsOf(tr, 9) == [Local(d2, Pos(91, 30)), Local(d2, Pos(91, 53))]
    requires LocalsOf(tr, 8) == [Local(i, Pos(91, 18))]
    requires i != d2
    requires Assigned(fs, 8, i, [1])
    ensures EventDiags(tr, Referenced(9, i, Pos(91, 43), false, false, [1]), fs) == []
    ensures Step(tr, Referenced(9, i, Pos(91, 43), false, false, [1]), fs) == fs
  {
    assert Local(i, Pos(91, 18)) in LocalsOf(tr, 8);
    assert Lookup(tr, 8, i) == Some(8);
    assert Lookup(tr, 9, i) == Some(8);
  }

  /** Event 7: its diagnostics and the assignments after it. */
  lemma {:induction false} Event7(i: string, d1: string, d2: string, d3: string, d4: string, d5: string, tr: Tree, fs: seq<Fact>)
    requires |tr.scopes| == 20
    requires Parent(tr, 9) == Some(8)
    requires LocalsOf(tr, 9) == [Local(d2, Pos(91, 30)), Local(d2, Pos(91, 53))]
    ensures EventDiags(tr, Declared(9, d2, Pos(91, 53), Initialized, [1]), fs) == [Diag(Duplicate, d2, Pos(91, 53))]
    ensures Step(tr, Declared(9, d2, Pos(91, 53), Initialized, [1]), fs) == fs + [Fact(9, d2, [1])]
  {
    assert Local(d2, Pos(91, 30)) in LocalsOf(tr, 9);
  }

  /** Event 8: its diagnostics and the assignments after it. */
  lemma {:induction false} Event8(i: string, d1: string, d2: string, d3: string, d4: string, d5: string, tr: Tree, fs: seq<Fact>)
    requires |tr.scopes| == 20
    requires Parent(tr, 0) == None
    requires Parent(tr, 3) == Some(0)
    requires Parent(tr, 4) == Some(3)
    requires Parent(tr, 11) == Some(4)
    requires LocalsOf(tr, 11) == [Local(i, Pos(93, 18))]
    requires LocalsOf(tr, 4) == []
    requires LocalsOf(tr, 3) == []
    requires LocalsOf(tr, 0) == []
    ensures EventDiags(tr, Declared(11, i, Pos(93, 18), Initialized, []), fs) == []
    ensures Step(tr, Declared(11, i, Pos(93, 18), Initialized, []), fs) == fs + [Fact(11, i, [])]
  {
    assert Lookup(tr, 0, i) == None;
    assert Lookup(tr, 3, i) == None;
    assert Lookup(tr, 4, i) == None;
  }

  /** Event 9: its diagnostics and the assignments after it. */
  lemma {:induction false} Event9(i: string, d1: string, d2: string, d3: string, d4: string, d5: string, tr: Tree, fs: seq<Fact>)
    requires |tr.scopes| == 20
    requires Parent(tr, 0) == None
    requires Parent(tr, 3) == Some(0)
    requires Parent(tr, 4) == Some(3)
    requires Parent(tr, 11) == Some(4)
    requires Parent(tr, 12) == Some(11)
    requires LocalsOf(tr, 12) == [Local(d3, Pos(93, 30))]
    requires LocalsOf(tr, 11) == [Local(i, Pos(93, 18))]
    requires LocalsOf(tr, 4) == []
    requires LocalsOf(tr, 3) == []
    requires LocalsOf(tr, 0) == []
    requires i != d3
    ensures EventDiags(tr, Declared(12, d3, Pos(93, 30), Initialized, []), fs) == []
    ensures Step(tr, Declared(12, d3, Pos(93, 30), Initialized, []), fs) == fs + [Fact(12, d3, [])]
  {
    assert Lookup(tr, 0, d3) == None;
    assert Lookup(tr, 3, d3) == None;
    assert Lookup(tr, 4, d3) == None;
    assert Lookup(tr, 11, d3) == None;
  }

  /** Event 10: its diagnostics and the assignments after it. */
  lemma {:induction false} Event10(i: string, d1: string, d2: string, d3: string, d4: string, d5: string, tr: Tree, fs: seq<Fact>)
    requires |tr.scopes| == 20
    requires Parent(tr, 12) == Some(11)
    requires Parent(tr, 13) == Some(12)
    requires LocalsOf(tr, 13) == [Local(d3, Pos(94, 42))]
    requires LocalsOf(tr, 12) == [Local(d3, Pos(93, 30))]
    ensures EventDiags(tr, Declared(13, d3, Pos(94, 42), Initialized, [2]), fs) == [Diag(Shadow, d3, Pos(94, 42))]
    ensures Step(tr, Declared(13, d3, Pos(94, 42), Initialized, [2]), fs) == fs + [Fact(13, d3, [2])]
  {
    assert Local(d3, Pos(93, 30)) in LocalsOf(tr, 12);
    assert Lookup(tr, 12, d3) == Some(12);
  }

  /** Event 11: its diagnostics and the assignments after it. */
  lemma {:induction false} Event11(i: string, d1: string, d2: string, d3: string, d4: string, d5: string, tr: Tree, fs: seq<Fact>)
    ensures EventDiags(tr, OutAssigned(13, [], [2]), fs) == []
    ensures Step(tr, OutAssigned(13, [], [2]), fs) == fs
  {
    assert OutFacts(13, [], [2]) == [];
    FactsNil(fs);
  }

  /** Event 12: its diagnostics and the assignments after it. */
  lemma {:induction false} Event12(i: string, d1: string, d2: string, d3: string, d4: string, d5: string, tr: Tree, fs: seq<Fact>)
    requires |tr.scopes| == 20
    requires Parent(tr, 11) == Some(4)
    requires Parent(tr, 12) == Some(11)
    requires LocalsOf(tr, 12) == [Local(d3, Pos(93, 30))]
    requires LocalsOf(tr, 11) == [Local(i, Pos(93, 18))]
    requires i != d3
    requires Assigned(fs, 11, i, [2])
    ensures EventDiags(tr, Referenced(12, i, Pos(93, 43), false, false, [2]), fs) == []
    ensures Step(tr, Referenced(12, i, Pos(93, 43), false, false, [2]), fs) == fs
  {
    assert Local(i, Pos(93, 18)) in LocalsOf(tr, 11);
    assert Lookup(tr, 11, i) == Some(11);
    assert Lookup(tr, 12, i) == Some(11);
  }

  /** Event 13: its diagnostics and the assignments after it. */
  lemma {:induction false} Event13(i: string, d1: string, d2: string, d3: string, d4: string, d5: string, tr: Tree, fs: seq<Fact>)
    requires |tr.scopes| == 20
    requires Parent(tr, 0) == None
    requires Parent(tr, 3) == Some(0)
    requires Parent(tr, 4) == Some(3)
    requires Parent(tr, 14) == Some(4)
    requires LocalsOf(tr, 14) == [Local(i, Pos(96, 18))]
    requires LocalsOf(tr, 4) == []
    requires LocalsOf(tr, 3) == []
    requires LocalsOf(tr, 0) == []
    ensures EventDiags(tr, Declared(14, i, Pos(96, 18), Initialized, []), fs) == []
    ensures Step(tr, Declared(14, i, Pos(96, 18), Initialized, []), fs) == fs + [Fact(14, i, [])]
  {
    assert Lookup(tr, 0, i) == None;
    assert Lookup(tr, 3, i) == None;
    assert Lookup(tr, 4, i) == None;
  }

  /** Event 14: its diagnostics and the assignments after it. */
  lemma {:induction false} Event14(i: string, d1: string, d2: string, d3: string, d4: string, d5: string, tr: Tree, fs: seq<Fact>)
    requires |tr.scopes| == 20
    requires Parent(tr, 0) == None
    requires Parent(tr, 3) == Some(0)
    requires Parent(tr, 4) == Some(3)
    requires Parent(tr, 14) == Some(4)
    requires Parent(tr, 15) == Some(14)
    requires LocalsOf(tr, 15) == [Local(d4, Pos(96, 30))]
    requires LocalsOf(tr, 14) == [Local(i, Pos(96, 18))]
    requires LocalsOf(tr, 4) == []
    requires LocalsOf(tr, 3) == []
    requires LocalsOf(tr, 0) == []
    requires i != d4
    ensures EventDiags(tr, Declared(15, d4, Pos(96, 30), Initialized, []), fs) == []
    ensures Step(tr, Declared(15, d4, Pos(96, 30), Initialized, []), fs) == fs + [Fact(15, d4, [])]
  {
    assert Lookup(tr, 0, d4) == None;
    assert Lookup(tr, 3, d4) == None;
    assert Lookup(tr, 4, d4) == None;
    assert Lookup(tr, 14, d4) == None;
  }

  /** Event 15: its diagnostics and the assignments after it. */
  lemma {:induction false} Event15(i: string, d1: string, d2: string, d3: string, d4: string, d5: string, tr: Tree, fs: seq<Fact>)
    requires |tr.scopes| == 20
    requires Parent(tr, 15) == Some(14)
    requires Parent(tr, 16) == Some(15)
    requires LocalsOf(tr, 16) == [Local(d4, Pos(98, 42))]
    requires LocalsOf(tr, 15) == [Local(d4, Pos(96, 30))]
    ensures EventDiags(tr, Declared(16, d4, Pos(98, 42), Initialized, [3]), fs) == [Diag(Shadow, d4, Pos(98, 42))]
    ensures Step(tr, Declared(16, d4, Pos(98, 42), Initialized, [3]), fs) == fs + [Fact(16, d4, [3])]
  {
    assert Local(d4, Pos(96, 30)) in LocalsOf(tr, 15);
    assert Lookup(tr, 15, d4) == Some(15);
  }

  /** Event 16: its diagnostics and the assignments after it. */
  lemma {:induction false} Event16(i: string, d1: string, d2: string, d3: string, d4: string, d5: string, tr: Tree, fs: seq<Fact>)
    ensures EventDiags(tr, OutAssigned(16, [], [3]), fs) == []
    ensures Step(tr, OutAssigned(16, [], [3]), fs) == fs
  {
    assert OutFacts(16, [], [3]) == [];
    FactsNil(fs);
  }

  /** Event 17: its diagnostics and the assignments after it. */
  lemma {:induction false} Event17(i: string, d1: string, d2: string, d3: string, d4: string, d5: string, tr: Tree, fs: seq<Fact>)
    requires |tr.scopes| == 20
    requires Parent(tr, 14) == Some(4)
    requires Parent(tr, 15) == Some(14)
    requires LocalsOf(tr, 15) == [Local(d4, Pos(96, 30))]
    requires LocalsOf(tr, 14) == [Local(i, Pos(96, 18))]
    requires i != d4
    requires Assigned(fs, 14, i, [3])
    ensures EventDiags(tr, Referenced(15, i, Pos(96, 43), false, false, [3]), fs) == []
    ensures Step(tr, Referenced(15, i, Pos(96, 43), false, false, [3]), fs) == fs
  {
    assert Local(i, Pos(96, 18)) in LocalsOf(tr, 14);
    assert Lookup(tr, 14, i) == Some(14);
    assert Lookup(tr, 15, i) == Some(14);
  }

  /** Event 18: its diagnostics and the assignments after it. */
  lemma {:induction false} Event18(i: string, d1: string, d2: string, d3: string, d4: string, d5: string, tr: Tree, fs: seq<Fact>)
    requires |tr.scopes| == 20
    requires Parent(tr, 0) == None
    requires Parent(tr, 3) == Some(0)
    requires Parent(tr, 4) == Some(3)
    requires Parent(tr, 17) == Some(4)
    requires LocalsOf(tr, 17) == [Local(i, Pos(101, 18))]
    requires LocalsOf(tr, 4) == []
    requires LocalsOf(tr, 3) == []
    requires LocalsOf(tr, 0) == []
    ensures EventDiags(tr, Declared(17, i, Pos(101, 18), Initialized, []), fs) == []
    ensures Step(tr, Declared(17, i, Pos(101, 18), Initialized, []), fs) == fs + [Fact(17, i, [])]
  {
    assert Lookup(tr, 0, i) == None;
    assert Lookup(tr, 3, i) == None;
    assert Lookup(tr, 4, i) == None;
  }

  /** Event 19: its diagnostics and the assignments after it. */
  lemma {:induction false} Event19(i: string, d1: string, d2: string, d3: string, d4: string, d5: string, tr: Tree, fs: seq<Fact>)
    requires |tr.scopes| == 20
    requires Parent(tr, 0) == None
    requires Parent(tr, 3) == Some(0)
    requires Parent(tr, 4) == Some(3)
    requires Parent(tr, 17) == Some(4)
    requires Parent(tr, 18) == Some(17)
    requires LocalsOf(tr, 18) == [Local(d5, Pos(101, 30))]
    requires LocalsOf(tr, 17) == [Local(i, Pos(101, 18))]
    requires LocalsOf(tr, 4) == []
    requires LocalsOf(tr, 3) == []
    requires LocalsOf(tr, 0) == []
    requires i != d5
    ensures EventDiags(tr, Declared(18, d5, Pos(101, 30), Initialized, []), fs) == []
    ensures Step(tr, Declared(18, d5, Pos(101, 30), Initialized, []), fs) == fs + [Fact(18, d5, [])]
  {
    assert Lookup(tr, 0, d5) == None;
    assert Lookup(tr, 3, d5) == None;
    assert Lookup(tr, 4, d5) == None;
    assert Lookup(tr, 17, d5) == None;
  }

  /** Event 20: its diagnostics and the assignments after it. */
  lemma {:induction false} Event20(i: string, d1: string, d2: string, d3: string, d4: string, d5: string, tr: Tree, fs: seq<Fact>)
    requires |tr.scopes| == 20
    requires Parent(tr, 18) == Some(17)
    requires Parent(tr, 19) == Some(18)
    requires LocalsOf(tr, 19) == [Local(d5, Pos(103, 17))]
    requires LocalsOf(tr, 18) == [Local(d5, Pos(101, 30))]
    ensures EventDiags(tr, Declared(19, d5, Pos(103, 17), Initialized, [4]), fs) == [Diag(Shadow, d5, Pos(103, 17))]
    ensures Step(tr, Declared(19, d5, Pos(103, 17), Initialized, [4]), fs) == fs + [Fact(19, d5, [4])]
  {
    assert Local(d5, Pos(101, 30)) in LocalsOf(tr, 18);
    assert Lookup(tr, 18, d5) == Some(18);
  }

  /** Event 21: its diagnostics and the assignments after it. */
  lemma {:induction false} Event21(i: string, d1: string, d2: string, d3: string, d4: string, d5: string, tr: Tree, fs: seq<Fact>)
    requires |tr.scopes| == 20
    requires Parent(tr, 19) == Some(18)
    requires LocalsOf(tr, 19) == [Local(d5, Pos(103, 17))]
    requires Assigned(fs, 19, d5, [4])
    ensures EventDiags(tr, Referenced(19, d5, Pos(104, 38), false, false, [4]), fs) == []
    ensures Step(tr, Referenced(19, d5, Pos(104, 38), false, false, [4]), fs) == fs
  {
    assert Local(d5, Pos(103, 17)) in LocalsOf(tr, 19);
    assert Lookup(tr, 19, d5) == Some(19);
  }

  /** Event 22: its diagnostics and the assignments after it. */
  lemma {:induction false} Event22(i: string, d1: string, d2: string, d3: string, d4: string, d5: string, tr: Tree, fs: seq<Fact>)
    ensures EventDiags(tr, OutAssigned(19, [], [4]), fs) == []
    ensures Step(tr, OutAssigned(19, [], [4]), fs) == fs
  {
    assert OutFacts(19, [], [4]) == [];
    FactsNil(fs);
  }

  /** Event 23: its diagnostics and the assignments after it. */
  lemma {:induction false} Event23(i: string, d1: string, d2: string, d3: string, d4: string, d5: string, tr: Tree, fs: seq<Fact>)
    requires |tr.scopes| == 20
    requires Parent(tr, 17) == Some(4)
    requires Parent(tr, 18) == Some(17)
    requires LocalsOf(tr, 18) == [Local(d5, Pos(101, 30))]
    requires LocalsOf(tr, 17) == [Local(i, Pos(101, 18))]
    requires i != d5
    requires Assigned(fs, 17, i, [4])
    ensures EventDiags(tr, Referenced(18, i, Pos(101, 43), false, false, [4]), fs) == []
    ensures Step(tr, Referenced(18, i, Pos(101, 43), false, false, [4]), fs) == fs
  {
    assert Local(i, Pos(101, 18)) in LocalsOf(tr, 17);
    assert Lookup(tr, 17, i) == Some(17);
    assert Lookup(tr, 18, i) == Some(17);
  }

  /** What a read of i in scope 11 finds assigned before event 8. */
  lemma {:induction false} Read0(i: string, d1: string, d2: string, d3: string, d4: string, d5: string)
    ensures !Assigned(Known0(i, d1, d2, d3, d4, d5), 11, i, [2])
  {
    Assigned0(i, d1, d2, d3, d4, d5, [], 11, i, [2]);
    assert !Assigned([], 11, i, [2]);
  }

  /** What a read of i in scope 14 finds assigned before event 16. */
  lemma {:induction false} Read1(i: string, d1: string, d2: string, d3: string, d4: string, d5: string)
    ensures Assigned(Known1(i, d1, d2, d3, d4, d5), 14, i, [3])
  {
    Assigned0(i, d1, d2, d3, d4, d5, [], 14, i, [3]);
    Assigned1(i, d1, d2, d3, d4, d5, Known0(i, d1, d2, d3, d4, d5), 14, i, [3]);
    assert !Assigned([], 14, i, [3]);
  }

  /** What a read of d5 in scope 19 finds assigned before event 16. */
  lemma {:induction false} Read2(i: string, d1: string, d2: string, d3: string, d4: string, d5: string)
    ensures !Assigned(Known1(i, d1, d2, d3, d4, d5), 19, d5, [4])
  {
    Assigned0(i, d1, d2, d3, d4, d5, [], 19, d5, [4]);
    Assigned1(i, d1, d2, d3, d4, d5, Known0(i, d1, d2, d3, d4, d5), 19, d5, [4]);
    assert !Assigned([], 19, d5, [4]);
  }

  /** What a read of i in scope 17 finds assigned before event 16. */
  lemma {:induction false} Read3(i: string, d1: string, d2: string, d3: string, d4: string, d5: string)
    ensures !Assigned(Known1(i, d1, d2, d3, d4, d5), 17, i, [4])
  {
    Assigned0(i, d1, d2, d3, d4, d5, [], 17, i, [4]);
    Assigned1(i, d1, d2, d3, d4, d5, Known0(i, d1, d2, d3, d4, d5), 17, i, [4]);
    assert !Assigned([], 17, i, [4]);
  }

  /** The parent and the locals of scope 0. */
  lemma {:induction false} Scope0(i: string, d1: string, d2: string, d3: string, d4: string, d5: string, tr: Tree)
    requires ScopesAre(tr, Layout())
    requires LocalsFit(i, d1, d2, d3, d4, d5, tr)
    ensures |tr.scopes| == 20
    ensures Parent(tr, 0) == None
    ensures LocalsOf(tr, 0) == []
  {
    assert tr.scopes[0] == Layout()[0];
    Locals0(i, d1, d2, d3, d4, d5);
    assert LocalsOf(tr, 0) == DeclaredBy(i, d1, d2, d3, d4, d5, 3, 0);
  }

  /** The parent and the locals of scope 3. */
  lemma {:induction false} Scope3(i: string, d1: string, d2: string, d3: string, d4: string, d5: string, tr: Tree)
    requires ScopesAre(tr, Layout())
    requires LocalsFit(i, d1, d2, d3, d4, d5, tr)
    ensures |tr.scopes| == 20
    ensures Parent(tr, 3) == Some(0)
    ensures LocalsOf(tr, 3) == []
  {
    assert tr.scopes[3] == Layout()[3];
    Locals3(i, d1, d2, d3, d4, d5);
    assert LocalsOf(tr, 3) == DeclaredBy(i, d1, d2, d3, d4, d5, 3, 3);
  }

  /** The parent and the locals of scope 4. */
  lemma {:induction false} Scope4(i: string, d1: string, d2: string, d3: string, d4: string, d5: string, tr: Tree)
    requires ScopesAre(tr, Layout())
    requires LocalsFit(i, d1, d2, d3, d4, d5, tr)
    ensures |tr.scopes| == 20
    ensures Parent(tr, 4) == Some(3)
    ensures LocalsOf(tr, 4) == []
  {
    assert tr.scopes[4] == Layout()[4];
    Locals4(i, d1, d2, d3, d4, d5);
    assert LocalsOf(tr, 4) == DeclaredBy(i, d1, d2, d3, d4, d5, 3, 4);
  }

  /** The parent and the locals of scope 5. */
  lemma {:induction false} Scope5(i: string, d1: string, d2: string, d3: string, d4: string, d5: string, tr: Tree)
    requires ScopesAre(tr, Layout())
    requires LocalsFit(i, d1, d2, d3, d4, d5, tr)
    ensures |tr.scopes| == 20
    ensures Parent(tr, 5) == Some(4)
    ensures LocalsOf(tr, 5) == [Local(i, Pos(89, 18))]
  {
    assert tr.scopes[5] == Layout()[5];
    Locals5(i, d1, d2, d3, d4, d5);
    assert LocalsOf(tr, 5) == DeclaredBy(i, d1, d2, d3, d4, d5, 3, 5);
  }

  /** The parent and the locals of scope 6. */
  lemma {:induction false} Scope6(i: string, d1: string, d2: string, d3: string, d4: string, d5: string, tr: Tree)
    requires ScopesAre(tr, Layout())
    requires LocalsFit(i, d1, d2, d3, d4, d5, tr)
    ensures |tr.scopes| == 20
    ensures Parent(tr, 6) == Some(5)
    ensures LocalsOf(tr, 6) == [Local(d1, Pos(89, 30)), Local(d1, Pos(89, 45))]
  {
    assert tr.scopes[6] == Layout()[6];
    Locals6(i, d1, d2, d3, d4, d5);
    assert LocalsOf(tr, 6) == DeclaredBy(i, d1, d2, d3, d4, d5, 3, 6);
  }

  /** The parent and the locals of scope 8. */
  lemma {:induction false} Scope8(i: string, d1: string, d2: string, d3: string, d4: string, d5: string, tr: Tree)
    requires ScopesAre(tr, Layout())
    requires LocalsFit(i, d1, d2, d3, d4, d5, tr)
    ensures |tr.scopes| == 20
    ensures Parent(tr, 8) == Some(4)
    ensures LocalsOf(tr, 8) == [Local(i, Pos(91, 18))]
  {
    assert tr.scopes[8] == Layout()[8];
    Locals8(i, d1, d2, d3, d4, d5);
    assert LocalsOf(tr, 8) == DeclaredBy(i, d1, d2, d3, d4, d5, 3, 8);
  }

  /** The parent and the locals of scope 9. */
  lemma {:induction false} Scope9(i: string, d1: string, d2: string, d3: string, d4: string, d5: string, tr: Tree)
    requires ScopesAre(tr, Layout())
    requires LocalsFit(i, d1, d2, d3, d4, d5, tr)
    ensures |tr.scopes| == 20
    ensures Parent(tr, 9) == Some(8)
    ensures LocalsOf(tr, 9) == [Local(d2, Pos(91, 30)), Local(d2, Pos(91, 53))]
  {
    assert tr.scopes[9] == Layout()[9];
    Locals9(i, d1, d2, d3, d4, d5);
    assert LocalsOf(tr, 9) == DeclaredBy(i, d1, d2, d3, d4, d5, 3, 9);
  }

  /** The parent and the locals of scope 11. */
  lemma {:induction false} Scope11(i: string, d1: string, d2: string, d3: string, d4: string, d5: string, tr: Tree)
    requires ScopesAre(tr, Layout())
    requires LocalsFit(i, d1, d2, d3, d4, d5, tr)
    ensures |tr.scopes| == 20
    ensures Parent(tr, 11) == Some(4)
    ensures LocalsOf(tr, 11) == [Local(i, Pos(93, 18))]
  {
    assert tr.scopes[11] == Layout()[11];
    Locals11(i, d1, d2, d3, d4, d5);
    assert LocalsOf(tr, 11) == DeclaredBy(i, d1, d2, d3, d4, d5, 3, 11);
  }

  /** The parent and the locals of scope 12. */
  lemma {:induction false} Scope12(i: string, d1: string, d2: string, d3: string, d4: string, d5: string, tr: Tree)
    requires ScopesAre(tr, Layout())
    requires LocalsFit(i, d1, d2, d3, d4, d5, tr)
    ensures |tr.scopes| == 20
    ensures Parent(tr, 12) == Some(11)
    ensures LocalsOf(tr, 12) == [Local(d3, Pos(93, 30))]
  {
    assert tr.scopes[12] == Layout()[12];
    Locals12(i, d1, d2, d3, d4, d5);
    assert LocalsOf(tr, 12) == DeclaredBy(i, d1, d2, d3, d4, d5, 3, 12);
  }

  /** The parent and the locals of scope 13. */
  lemma {:induction false} Scope13(i: string, d1: string, d2: string, d3: string, d4: string, d5: string, tr: Tree)
    requires ScopesAre(tr, Layout())
    requires LocalsFit(i, d1, d2, d3, d4, d5, tr)
    ensures |tr.scopes| == 20
    ensures Parent(tr, 13) == Some(12)
    ensures LocalsOf(tr, 13) == [Local(d3, Pos(94, 42))]
  {
    assert tr.scopes[13] == Layout()[13];
    Locals13(i, d1, d2, d3, d4, d5);
    assert LocalsOf(tr, 13) == DeclaredBy(i, d1, d2, d3, d4, d5, 3, 13);
  }

  /** The parent and the locals of scope 14. */
  lemma {:induction false} Scope14(i: string, d1: string, d2: string, d3: string, d4: string, d5: string, tr: Tree)
    requires ScopesAre(tr, Layout())
    requires LocalsFit(i, d1, d2, d3, d4, d5, tr)
    ensures |tr.scopes| == 20
    ensures Parent(tr, 14) == Some(4)
    ensures LocalsOf(tr, 14) == [Local(i, Pos(96, 18))]
  {
    assert tr.scopes[14] == Layout()[14];
    Locals14(i, d1, d2, d3, d4, d5);
    assert LocalsOf(tr, 14) == DeclaredBy(i, d1, d2, d3, d4, d5, 3, 14);
  }

  /** The parent and the locals of scope 15. */
  lemma {:induction false} Scope15(i: string, d1: string, d2: string, d3: string, d4: string, d5: string, tr: Tree)
    requires ScopesAre(tr, Layout())
    requires LocalsFit(i, d1, d2, d3, d4, d5, tr)
    ensures |tr.scopes| == 20
    ensures Parent(tr, 15) == Some(14)
    ensures LocalsOf(tr, 15) == [Local(d4, Pos(96, 30))]
  {
    assert tr.scopes[15] == Layout()[15];
    Locals15(i, d1, d2, d3, d4, d5);
    assert LocalsOf(tr, 15) == DeclaredBy(i, d1, d2, d3, d4, d5, 3, 15);
  }

  /** The parent and the locals of scope 16. */
  lemma {:induction false} Scope16(i: string, d1: string, d2: string, d3: string, d4: string, d5: string, tr: Tree)
    requires ScopesAre(tr, Layout())
    requires LocalsFit(i, d1, d2, d3, d4, d5, tr)
    ensures |tr.scopes| == 20
    ensures Parent(tr, 16) == Some(15)
    ensures LocalsOf(tr, 16) == [Local(d4, Pos(98, 42))]
  {
    assert tr.scopes[16] == Layout()[16];
    Locals16(i, d1, d2, d3, d4, d5);
    assert LocalsOf(tr, 16) == DeclaredBy(i, d1, d2, d3, d4, d5, 3, 16);
  }

  /** The parent and the locals of scope 17. */
  lemma {:induction false} Scope17(i: string, d1: string, d2: string, d3: string, d4: string, d5: string, tr: Tree)
    requires ScopesAre(tr, Layout())
    requires LocalsFit(i, d1, d2, d3, d4, d5, tr)
    ensures |tr.scopes| == 20
    ensures Parent(tr, 17) == Some(4)
    ensures LocalsOf(tr, 17) == [Local(i, Pos(101, 18))]
  {
    assert tr.scopes[17] == Layout()[17];
    Locals17(i, d1, d2, d3, d4, d5);
    assert LocalsOf(tr, 17) == DeclaredBy(i, d1, d2, d3, d4, d5, 3, 17);
  }

  /** The parent and the locals of scope 18. */
  lemma {:induction false} Scope18(i: string, d1: string, d2: string, d3: string, d4: string, d5: string, tr: Tree)
    requires ScopesAre(tr, Layout())
    requires LocalsFit(i, d1, d2, d3, d4, d5, tr)
    ensures |tr.scopes| == 20
    ensures Parent(tr, 18) == Some(17)
    ensures LocalsOf(tr, 18) == [Local(d5, Pos(101, 30))]
  {
    assert tr.scopes[18] == Layout()[18];
    Locals18(i, d1, d2, d3, d4, d5);
    assert LocalsOf(tr, 18) == DeclaredBy(i, d1, d2, d3, d4, d5, 3, 18);
  }

  /** The parent and the locals of scope 19. */
  lemma {:induction false} Scope19(i: string, d1: string, d2: string, d3: string, d4: string, d5: string, tr: Tree)
    requires ScopesAre(tr, Layout())
    requires LocalsFit(i, d1, d2, d3, d4, d5, tr)
    ensures |tr.scopes| == 20
    ensures Parent(tr, 19) == Some(18)
    ensures LocalsOf(tr, 19) == [Local(d5, Pos(103, 17))]
  {
    assert tr.scopes[19] == Layout()[19];
    Locals19(i, d1, d2, d3, d4, d5);
    assert LocalsOf(tr, 19) == DeclaredBy(i, d1, d2, d3, d4, d5, 3, 19);
  }

  /** The analysis of events 0 to 7, after the events before them. */
  lemma {:induction false} Analysed0(i: string, d1: string, d2: string, d3: string, d4: string, d5: string, tr: Tree, evs: seq<Event>, fs: seq<Fact>, rs: seq<Diag>)
    requires |tr.scopes| == 20
    requires Parent(tr, 0) == None
    requires Parent(tr, 3) == Some(0)
    requires Parent(tr, 4) == Some(3)
    requires Parent(tr, 5) == Some(4)
    requires Parent(tr, 6) == Some(5)
    requires Parent(tr, 8) == Some(4)
    requires Parent(tr, 9) == Some(8)
    requires LocalsOf(tr, 0) == []
    requires LocalsOf(tr, 3) == []
    requires LocalsOf(tr, 4) == []
    requires LocalsOf(tr, 5) == [Local(i, Pos(89, 18))]
    requires LocalsOf(tr, 6) == [Local(d1, Pos(89, 30)), Local(d1, Pos(89, 45))]
    requires LocalsOf(tr, 8) == [Local(i, Pos(91, 18))]
    requires LocalsOf(tr, 9) == [Local(d2, Pos(91, 30)), Local(d2, Pos(91, 53))]
    requires i != d1 && i != d2
    requires Analyse(tr, evs, []) == rs
    requires Replay(tr, evs, []) == fs
    requires !Assigned(fs, 5, i, [0])
    requires !Assigned(fs, 8, i, [1])
    ensures Analyse(tr, evs + Chunk0(i, d1, d2, d3, d4, d5), []) == rs + ([] + [] + [] + [Diag(Duplicate, d1, Pos(89, 45))] + [] + [] + [] + [] + [Diag(Duplicate, d2, Pos(91, 53))])
    ensures Replay(tr, evs + Chunk0(i, d1, d2, d3, d4, d5), []) == fs + [Fact(5, i, [])] + [Fact(6, d1, [])] + [Fact(6, d1, [])] + [Fact(8, i, [])] + [Fact(9, d2, [])] + [Fact(9, d2, [1])]
  {
    assert Analyse(tr, [], fs) == [] && Replay(tr, [], fs) == fs;
    Event0(i, d1, d2, d3, d4, d5, tr, fs);
    AnalyseSnoc(tr, [], Declared(5, i, Pos(89, 18), Initialized, []), fs);
    assert Analyse(tr, [] + [Declared(5, i, Pos(89, 18), Initialized, [])], fs) == [] + [];
    assert Replay(tr, [] + [Declared(5, i, Pos(89, 18), Initialized, [])], fs) == fs + [Fact(5, i, [])];
    Event1(i, d1, d2, d3, d4, d5, tr, fs + [Fact(5, i, [])]);
    AnalyseSnoc(tr, [] + [Declared(5, i, Pos(89, 18), Initialized, [])], Declared(6, d1, Pos(89, 30), Initialized, []), fs);
    assert Analyse(tr, [] + [Declared(5, i, Pos(89, 18), Initialized, [])] + [Declared(6, d1, Pos(89, 30), Initialized, [])], fs) == [] + [] + [];
    assert Replay(tr, [] + [Declared(5, i, Pos(89, 18), Initialized, [])] + [Declared(6, d1, Pos(89, 30), Initialized, [])], fs) == fs + [Fact(5, i, [])] + [Fact(6, d1, [])];
    Event2(i, d1, d2, d3, d4, d5, tr, fs + [Fact(5, i, [])] + [Fact(6, d1, [])]);
    AnalyseSnoc(tr, [] + [Declared(5, i, Pos(89, 18), Initialized, [])] + [Declared(6, d1, Pos(89, 30), Initialized, [])], Declared(6, d1, Pos(89, 45), Initialized, []), fs);
    assert Analyse(tr, [] + [Declared(5, i, Pos(89, 18), Initialized, [])] + [Declared(6, d1, Pos(89, 30), Initialized, [])] + [Declared(6, d1, Pos(89, 45), Initialized, [])], fs) == [] + [] + [] + [Diag(Duplicate, d1, Pos(89, 45))];
    assert Replay(tr, [] + [Declared(5, i, Pos(89, 18), Initialized, [])] + [Declared(6, d1, Pos(89, 30), Initialized, [])] + [Declared(6, d1, Pos(89, 45), Initialized, [])], fs) == fs + [Fact(5, i, [])] + [Fact(6, d1, [])] + [Fact(6, d1, [])];
    AssignedSnoc(fs, Fact(5, i, []), 5, i, [0]);
    AssignedSnoc(fs + [Fact(5, i, [])], Fact(6, d1, []), 5, i, [0]);
    AssignedSnoc(fs + [Fact(5, i, [])] + [Fact(6, d1, [])], Fact(6, d1, []), 5, i, [0]);
    Event3(i, d1, d2, d3, d4, d5, tr, fs + [Fact(5, i, [])] + [Fact(6, d1, [])] + [Fact(6, d1, [])]);
    AnalyseSnoc(tr, [] + [Declared(5, i, Pos(89, 18), Initialized, [])] + [Declared(6, d1, Pos(89, 30), Initialized, [])] + [Declared(6, d1, Pos(89, 45), Initialized, [])], Referenced(6, i, Pos(89, 54), false, false, [0]), fs);
    assert Analyse(tr, [] + [Declared(5, i, Pos(89, 18), Initialized, [])] + [Declared(6, d1, Pos(89, 30), Initialized, [])] + [Declared(6, d1, Pos(89, 45), Initialized, [])] + [Referenced(6, i, Pos(89, 54), false, false, [0])], fs) == [] + [] + [] + [Diag(Duplicate, d1, Pos(89, 45))] + [];
    assert Replay(tr, [] + [Declared(5, i, Pos(89, 18), Initialized, [])] + [Declared(6, d1, Pos(89, 30), Initialized, [])] + [Declared(6, d1, Pos(89, 45), Initialized, [])] + [Referenced(6, i, Pos(89, 54), false, false, [0])], fs) == fs + [Fact(5, i, [])] + [Fact(6, d1, [])] + [Fact(6, d1, [])];
    Event4(i, d1, d2, d3, d4, d5, tr, fs + [Fact(5, i, [])] + [Fact(6, d1, [])] + [Fact(6, d1, [])]);
    AnalyseSnoc(tr, [] + [Declared(5, i, Pos(89, 18), Initialized, [])] + [Declared(6, d1, Pos(89, 30), Initialized, [])] + [Declared(6, d1, Pos(89, 45), Initialized, [])] + [Referenced(6, i, Pos(89, 54), false, false, [0])], Declared(8, i, Pos(91, 18), Initialized, []), fs);
    assert Analyse(tr, [] + [Declared(5, i, Pos(89, 18), Initialized, [])] + [Declared(6, d1, Pos(89, 30), Initialized, [])] + [Declared(6, d1, Pos(89, 45), Initialized, [])] + [Referenced(6, i, Pos(89, 54), false, false, [0])] + [Declared(8, i, Pos(91, 18), Initialized, [])], fs) == [] + [] + [] + [Diag(Duplicate, d1, Pos(89, 45))] + [] + [];
    assert Replay(tr, [] + [Declared(5, i, Pos(89, 18), Initialized, [])] + [Declared(6, d1, Pos(89, 30), Initialized, [])] + [Declared(6, d1, Pos(89, 45), Initialized, [])] + [Referenced(6, i, Pos(89, 54), false, false, [0])] + [Declared(8, i, Pos(91, 18), Initialized, [])], fs) == fs + [Fact(5, i, [])] + [Fact(6, d1, [])] + [Fact(6, d1, [])] + [Fact(8, i, [])];
    Event5(i, d1, d2, d3, d4, d5, tr, fs + [Fact(5, i, [])] + [Fact(6, d1, [])] + [Fact(6, d1, [])] + [Fact(8, i, [])]);
    AnalyseSnoc(tr, [] + [Declared(5, i, Pos(89, 18), Initialized, [])] + [Declared(6, d1, Pos(89, 30), Initialized, [])] + [Declared(6, d1, Pos(89, 45), Initialized, [])] + [Referenced(6, i, Pos(89, 54), false, false, [0])] + [Declared(8, i, Pos(91, 18), Initialized, [])], Declared(9, d2, Pos(91, 30), Initialized, []), fs);
    assert Analyse(tr, [] + [Declared(5, i, Pos(89, 18), Initialized, [])] + [Declared(6, d1, Pos(89, 30), Initialized, [])] + [Declared(6, d1, Pos(89, 45), Initialized, [])] + [Referenced(6, i, Pos(89, 54), false, false, [0])] + [Declared(8, i, Pos(91, 18), Initialized, [])] + [Declared(9, d2, Pos(91, 30), Initialized, [])], fs) == [] + [] + [] + [Diag(Duplicate, d1, Pos(89, 45))] + [] + [] + [];
    assert Replay(tr, [] + [Declared(5, i, Pos(89, 18), Initialized, [])] + [Declared(6, d1, Pos(89, 30), Initialized, [])] + [Declared(6, d1, Pos(89, 45), Initialized, [])] + [Referenced(6, i, Pos(89, 54), false, false, [0])] + [Declared(8, i, Pos(91, 18), Initialized, [])] + [Declared(9, d2, Pos(91, 30), Initialized, [])], fs) == fs + [Fact(5, i, [])] + [Fact(6, d1, [])] + [Fact(6, d1, [])] + [Fact(8, i, [])] + [Fact(9, d2, [])];
    AssignedSnoc(fs, Fact(5, i, []), 8, i, [1]);
    AssignedSnoc(fs + [Fact(5, i, [])], Fact(6, d1, []), 8, i, [1]);
    AssignedSnoc(fs + [Fact(5, i, [])] + [Fact(6, d1, [])], Fact(6, d1, []), 8, i, [1]);
    AssignedSnoc(fs + [Fact(5, i, [])] + [Fact(6, d1, [])] + [Fact(6, d1, [])], Fact(8, i, []), 8, i, [1]);
    AssignedSnoc(fs + [Fact(5, i, [])] + [Fact(6, d1, [])] + [Fact(6, d1, [])] + [Fact(8, i, [])], Fact(9, d2, []), 8, i, [1]);
    Event6(i, d1, d2, d3, d4, d5, tr, fs + [Fact(5, i, [])] + [Fact(6, d1, [])] + [Fact(6, d1, [])] + [Fact(8, i, [])] + [Fact(9, d2, [])]);
    AnalyseSnoc(tr, [] + [Declared(5, i, Pos(89, 18), Initialized, [])] + [Declared(6, d1, Pos(89, 30), Initialized, [])] + [Declared(6, d1, Pos(89, 45), Initialized, [])] + [Referenced(6, i, Pos(89, 54), false, false, [0])] + [Declared(8, i, Pos(91, 18), Initialized, [])] + [Declared(9, d2, Pos(91, 30), Initialized, [])], Referenced(9, i, Pos(91, 43), false, false, [1]), fs);
    assert Analyse(tr, [] + [Declared(5, i, Pos(89, 18), Initialized, [])] + [Declared(6, d1, Pos(89, 30), Initialized, [])] + [Declared(6, d1, Pos(89, 45), Initialized, [])] + [Referenced(6, i, Pos(89, 54), false, false, [0])] + [Declared(8, i, Pos(91, 18), Initialized, [])] + [Declared(9, d2, Pos(91, 30), Initialized, [])] + [Referenced(9, i, Pos(91, 43), false, false, [1])], fs) == [] + [] + [] + [Diag(Duplicate, d1, Pos(89, 45))] + [] + [] + [] + [];
    assert Replay(tr, [] + [Declared(5, i, Pos(89, 18), Initialized, [])] + [Declared(6, d1, Pos(89, 30), Initialized, [])] + [Declared(6, d1, Pos(89, 45), Initialized, [])] + [Referenced(6, i, Pos(89, 54), false, false, [0])] + [Declared(8, i, Pos(91, 18), Initialized, [])] + [Declared(9, d2, Pos(91, 30), Initialized, [])] + [Referenced(9, i, Pos(91, 43), false, false, [1])], fs) == fs + [Fact(5, i, [])] + [Fact(6, d1, [])] + [Fact(6, d1, [])] + [Fact(8, i, [])] + [Fact(9, d2, [])];
    Event7(i, d1, d2, d3, d4, d5, tr, fs + [Fact(5, i, [])] + [Fact(6, d1, [])] + [Fact(6, d1, [])] + [Fact(8, i, [])] + [Fact(9, d2, [])]);
    AnalyseSnoc(tr, [] + [Declared(5, i, Pos(89, 18), Initialized, [])] + [Declared(6, d1, Pos(89, 30), Initialized, [])] + [Declared(6, d1, Pos(89, 45), Initialized, [])] + [Referenced(6, i, Pos(89, 54), false, false, [0])] + [Declared(8, i, Pos(91, 18), Initialized, [])] + [Declared(9, d2, Pos(91, 30), Initialized, [])] + [Referenced(9, i, Pos(91, 43), false, false, [1])], Declared(9, d2, Pos(91, 53), Initialized, [1]), fs);
    AnalyseSplit(tr, evs, Chunk0(i, d1, d2, d3, d4, d5), []);
  }

  /** The analysis of events 8 to 15, after the events before them. */
  lemma {:induction false} Analysed1(i: string, d1: string, d2: string, d3: string, d4: string, d5: string, tr: Tree, evs: seq<Event>, fs: seq<Fact>, rs: seq<Diag>)
    requires |tr.scopes| == 20
    requires Parent(tr, 0) == None
    requires Parent(tr, 3) == Some(0)
    requires Parent(tr, 4) == Some(3)
    requires Parent(tr, 11) == Some(4)
    requires Parent(tr, 12) == Some(11)
    requires Parent(tr, 13) == Some(12)
    requires Parent(tr, 14) == Some(4)
    requires Parent(tr, 15) == Some(14)
    requires Parent(tr, 16) == Some(15)
    requires LocalsOf(tr, 0) == []
    requires LocalsOf(tr, 3) == []
    requires LocalsOf(tr, 4) == []
    requires LocalsOf(tr, 11) == [Local(i, Pos(93, 18))]
    requires LocalsOf(tr, 12) == [Local(d3, Pos(93, 30))]
    requires LocalsOf(tr, 13) == [Local(d3, Pos(94, 42))]
    requires LocalsOf(tr, 14) == [Local(i, Pos(96, 18))]
    requires LocalsOf(tr, 15) == [Local(d4, Pos(96, 30))]
    requires LocalsOf(tr, 16) == [Local(d4, Pos(98, 42))]
    requires i != d3 && i != d4
    requires Analyse(tr, evs, []) == rs
    requires Replay(tr, evs, []) == fs
    requires !Assigned(fs, 11, i, [2])
    ensures Analyse(tr, evs + Chunk1(i, d1, d2, d3, d4, d5), []) == rs + ([] + [] + [] + [Diag(Shadow, d3, Pos(94, 42))] + [] + [] + [] + [] + [Diag(Shadow, d4, Pos(98, 42))])
    ensures Replay(tr, evs + Chunk1(i, d1, d2, d3, d4, d5), []) == fs + [Fact(11, i, [])] + [Fact(12, d3, [])] + [Fact(13, d3, [2])] + [Fact(14, i, [])] + [Fact(15, d4, [])] + [Fact(16, d4, [3])]
  {
    assert Analyse(tr, [], fs) == [] && Replay(tr, [], fs) == fs;
    Event8(i, d1, d2, d3, d4, d5, tr, fs);
    AnalyseSnoc(tr, [], Declared(11, i, Pos(93, 18), Initialized, []), fs);
    assert Analyse(tr, [] + [Declared(11, i, Pos(93, 18), Initialized, [])], fs) == [] + [];
    assert Replay(tr, [] + [Declared(11, i, Pos(93, 18), Initialized, [])], fs) == fs + [Fact(11, i, [])];
    Event9(i, d1, d2, d3, d4, d5, tr, fs + [Fact(11, i, [])]);
    AnalyseSnoc(tr, [] + [Declared(11, i, Pos(93, 18), Initialized, [])], Declared(12, d3, Pos(93, 30), Initialized, []), fs);
    assert Analyse(tr, [] + [Declared(11, i, Pos(93, 18), Initialized, [])] + [Declared(12, d3, Pos(93, 30), Initialized, [])], fs) == [] + [] + [];
    assert Replay(tr, [] + [Declared(11, i, Pos(93, 18), Initialized, [])] + [Declared(12, d3, Pos(93, 30), Initialized, [])], fs) == fs + [Fact(11, i, [])] + [Fact(12, d3, [])];
    Event10(i, d1, d2, d3, d4, d5, tr, fs + [Fact(11, i, [])] + [Fact(12, d3, [])]);
    AnalyseSnoc(tr, [] + [Declared(11, i, Pos(93, 18), Initialized, [])] + [Declared(12, d3, Pos(93, 30), Initialized, [])], Declared(13, d3, Pos(94, 42), Initialized, [2]), fs);
    assert Analyse(tr, [] + [Declared(11, i, Pos(93, 18), Initialized, [])] + [Declared(12, d3, Pos(93, 30), Initialized, [])] + [Declared(13, d3, Pos(94, 42), Initialized, [2])], fs) == [] + [] + [] + [Diag(Shadow, d3, Pos(94, 42))];
    assert Replay(tr, [] + [Declared(11, i, Pos(93, 18), Initialized, [])] + [Declared(12, d3, Pos(93, 30), Initialized, [])] + [Declared(13, d3, Pos(94, 42), Initialized, [2])], fs) == fs + [Fact(11, i, [])] + [Fact(12, d3, [])] + [Fact(13, d3, [2])];
    Event11(i, d1, d2, d3, d4, d5, tr, fs + [Fact(11, i, [])] + [Fact(12, d3, [])] + [Fact(13, d3, [2])]);
    AnalyseSnoc(tr, [] + [Declared(11, i, Pos(93, 18), Initialized, [])] + [Declared(12, d3, Pos(93, 30), Initialized, [])] + [Declared(13, d3, Pos(94, 42), Initialized, [2])], OutAssigned(13, [], [2]), fs);
    assert Analyse(tr, [] + [Declared(11, i, Pos(93, 18), Initialized, [])] + [Declared(12, d3, Pos(93, 30), Initialized, [])] + [Declared(13, d3, Pos(94, 42), Initialized, [2])] + [OutAssigned(13, [], [2])], fs) == [] + [] + [] + [Diag(Shadow, d3, Pos(94, 42))] + [];
    assert Replay(tr, [] + [Declared(11, i, Pos(93, 18), Initialized, [])] + [Declared(12, d3, Pos(93, 30), Initialized, [])] + [Declared(13, d3, Pos(94, 42), Initialized, [2])] + [OutAssigned(13, [], [2])], fs) == fs + [Fact(11, i, [])] + [Fact(12, d3, [])] + [Fact(13, d3, [2])];
    AssignedSnoc(fs, Fact(11, i, []), 11, i, [2]);
    AssignedSnoc(fs + [Fact(11, i, [])], Fact(12, d3, []), 11, i, [2]);
    AssignedSnoc(fs + [Fact(11, i, [])] + [Fact(12, d3, [])], Fact(13, d3, [2]), 11, i, [2]);
    Event12(i, d1, d2, d3, d4, d5, tr, fs + [Fact(11, i, [])] + [Fact(12, d3, [])] + [Fact(13, d3, [2])]);
    AnalyseSnoc(tr, [] + [Declared(11, i, Pos(93, 18), Initialized, [])] + [Declared(12, d3, Pos(93, 30), Initialized, [])] + [Declared(13, d3, Pos(94, 42), Initialized, [2])] + [OutAssigned(13, [], [2])], Referenced(12, i, Pos(93, 43), false, false, [2]), fs);
    assert Analyse(tr, [] + [Declared(11, i, Pos(93, 18), Initialized, [])] + [Declared(12, d3, Pos(93, 30), Initialized, [])] + [Declared(13, d3, Pos(94, 42), Initialized, [2])] + [OutAssigned(13, [], [2])] + [Referenced(12, i, Pos(93, 43), false, false, [2])], fs) == [] + [] + [] + [Diag(Shadow, d3, Pos(94, 42))] + [] + [];
    assert Replay(tr, [] + [Declared(11, i, Pos(93, 18), Initialized, [])] + [Declared(12, d3, Pos(93, 30), Initialized, [])] + [Declared(13, d3, Pos(94, 42), Initialized, [2])] + [OutAssigned(13, [], [2])] + [Referenced(12, i, Pos(93, 43), false, false, [2])], fs) == fs + [Fact(11, i, [])] + [Fact(12, d3, [])] + [Fact(13, d3, [2])];
    Event13(i, d1, d2, d3, d4, d5, tr, fs + [Fact(11, i, [])] + [Fact(12, d3, [])] + [Fact(13, d3, [2])]);
    AnalyseSnoc(tr, [] + [Declared(11, i, Pos(93, 18), Initialized, [])] + [Declared(12, d3, Pos(93, 30), Initialized, [])] + [Declared(13, d3, Pos(94, 42), Initialized, [2])] + [OutAssigned(13, [], [2])] + [Referenced(12, i, Pos(93, 43), false, false, [2])], Declared(14, i, Pos(96, 18), Initialized, []), fs);
    assert Analyse(tr, [] + [Declared(11, i, Pos(93, 18), Initialized, [])] + [Declared(12, d3, Pos(93, 30), Initialized, [])] + [Declared(13, d3, Pos(94, 42), Initialized, [2])] + [OutAssigned(13, [], [2])] + [Referenced(12, i, Pos(93, 43), false, false, [2])] + [Declared(14, i, Pos(96, 18), Initialized, [])], fs) == [] + [] + [] + [Diag(Shadow, d3, Pos(94, 42))] + [] + [] + [];
    assert Replay(tr, [] + [Declared(11, i, Pos(93, 18), Initialized, [])] + [Declared(12, d3, Pos(93, 30), Initialized, [])] + [Declared(13, d3, Pos(94, 42), Initialized, [2])] + [OutAssigned(13, [], [2])] + [Referenced(12, i, Pos(93, 43), false, false, [2])] + [Declared(14, i, Pos(96, 18), Initialized, [])], fs) == fs + [Fact(11, i, [])] + [Fact(12, d3, [])] + [Fact(13, d3, [2])] + [Fact(14, i, [])];
    Event14(i, d1, d2, d3, d4, d5, tr, fs + [Fact(11, i, [])] + [Fact(12, d3, [])] + [Fact(13, d3, [2])] + [Fact(14, i, [])]);
    AnalyseSnoc(tr, [] + [Declared(11, i, Pos(93, 18), Initialized, [])] + [Declared(12, d3, Pos(93, 30), Initialized, [])] + [Declared(13, d3, Pos(94, 42), Initialized, [2])] + [OutAssigned(13, [], [2])] + [Referenced(12, i, Pos(93, 43), false, false, [2])] + [Declared(14, i, Pos(96, 18), Initialized, [])], Declared(15, d4, Pos(96, 30), Initialized, []), fs);
    assert Analyse(tr, [] + [Declared(11, i, Pos(93, 18), Initialized, [])] + [Declared(12, d3, Pos(93, 30), Initialized, [])] + [Declared(13, d3, Pos(94, 42), Initialized, [2])] + [OutAssigned(13, [], [2])] + [Referenced(12, i, Pos(93, 43), false, false, [2])] + [Declared(14, i, Pos(96, 18), Initialized, [])] + [Declared(15, d4, Pos(96, 30), Initialized, [])], fs) == [] + [] + [] + [Diag(Shadow, d3, Pos(94, 42))] + [] + [] + [] + [];
    assert Replay(tr, [] + [Declared(11, i, Pos(93, 18), Initialized, [])] + [Declared(12, d3, Pos(93, 30), Initialized, [])] + [Declared(13, d3, Pos(94, 42), Initialized, [2])] + [OutAssigned(13, [], [2])] + [Referenced(12, i, Pos(93, 43), false, false, [2])] + [Declared(14, i, Pos(96, 18), Initialized, [])] + [Declared(15, d4, Pos(96, 30), Initialized, [])], fs) == fs + [Fact(11, i, [])] + [Fact(12, d3, [])] + [Fact(13, d3, [2])] + [Fact(14, i, [])] + [Fact(15, d4, [])];
    Event15(i, d1, d2, d3, d4, d5, tr, fs + [Fact(11, i, [])] + [Fact(12, d3, [])] + [Fact(13, d3, [2])] + [Fact(14, i, [])] + [Fact(15, d4, [])]);
    AnalyseSnoc(tr, [] + [Declared(11, i, Pos(93, 18), Initialized, [])] + [Declared(12, d3, Pos(93, 30), Initialized, [])] + [Declared(13, d3, Pos(94, 42), Initialized, [2])] + [OutAssigned(13, [], [2])] + [Referenced(12, i, Pos(93, 43), false, false, [2])] + [Declared(14, i, Pos(96, 18), Initialized, [])] + [Declared(15, d4, Pos(96, 30), Initialized, [])], Declared(16, d4, Pos(98, 42), Initialized, [3]), fs);
    AnalyseSplit(tr, evs, Chunk1(i, d1, d2, d3, d4, d5), []);
  }

  /** The analysis of events 16 to 23, after the events before them. */
  lemma {:induction false} Analysed2(i: string, d1: string, d2: string, d3: string, d4: string, d5: string, tr: Tree, evs: seq<Event>, fs: seq<Fact>, rs: seq<Diag>)
    requires |tr.scopes| == 20
    requires Parent(tr, 0) == None
    requires Parent(tr, 3) == Some(0)
    requires Parent(tr, 4) == Some(3)
    requires Parent(tr, 14) == Some(4)
    requires Parent(tr, 15) == Some(14)
    requires Parent(tr, 17) == Some(4)
    requires Parent(tr, 18) == Some(17)
    requires Parent(tr, 19) == Some(18)
    requires LocalsOf(tr, 0) == []
    requires LocalsOf(tr, 3) == []
    requires LocalsOf(tr, 4) == []
    requires LocalsOf(tr, 14) == [Local(i, Pos(96, 18))]
    requires LocalsOf(tr, 15) == [Local(d4, Pos(96, 30))]
    requires LocalsOf(tr, 17) == [Local(i, Pos(101, 18))]
    requires LocalsOf(tr, 18) == [Local(d5, Pos(101, 30))]
    requires LocalsOf(tr, 19) == [Local(d5, Pos(103, 17))]
    requires i != d4 && i != d5
    requires Analyse(tr, evs, []) == rs
    requires Replay(tr, evs, []) == fs
    requires Assigned(fs, 14, i, [3])
    requires !Assigned(fs, 19, d5, [4])
    requires !Assigned(fs, 17, i, [4])
    ensures Analyse(tr, evs + Chunk2(i, d1, d2, d3, d4, d5), []) == rs + ([] + [] + [] + [] + [] + [Diag(Shadow, d5, Pos(103, 17))] + [] + [] + [])
    ensures Replay(tr, evs + Chunk2(i, d1, d2, d3, d4, d5), []) == fs + [Fact(17, i, [])] + [Fact(18, d5, [])] + [Fact(19, d5, [4])]
  {
    assert Analyse(tr, [], fs) == [] && Replay(tr, [], fs) == fs;
    Event16(i, d1, d2, d3, d4, d5, tr, fs);
    AnalyseSnoc(tr, [], OutAssigned(16, [], [3]), fs);
    assert Analyse(tr, [] + [OutAssigned(16, [], [3])], fs) == [] + [];
    assert Replay(tr, [] + [OutAssigned(16, [], [3])], fs) == fs;
    Event17(i, d1, d2, d3, d4, d5, tr, fs);
    AnalyseSnoc(tr, [] + [OutAssigned(16, [], [3])], Referenced(15, i, Pos(96, 43), false, false, [3]), fs);
    assert Analyse(tr, [] + [OutAssigned(16, [], [3])] + [Referenced(15, i, Pos(96, 43), false, false, [3])], fs) == [] + [] + [];
    assert Replay(tr, [] + [OutAssigned(16, [], [3])] + [Referenced(15, i, Pos(96, 43), false, false, [3])], fs) == fs;
    Event18(i, d1, d2, d3, d4, d5, tr, fs);
    AnalyseSnoc(tr, [] + [OutAssigned(16, [], [3])] + [Referenced(15, i, Pos(96, 43), false, false, [3])], Declared(17, i, Pos(101, 18), Initialized, []), fs);
    assert Analyse(tr, [] + [OutAssigned(16, [], [3])] + [Referenced(15, i, Pos(96, 43), false, false, [3])] + [Declared(17, i, Pos(101, 18), Initialized, [])], fs) == [] + [] + [] + [];
    assert Replay(tr, [] + [OutAssigned(16, [], [3])] + [Referenced(15, i, Pos(96, 43), false, false, [3])] + [Declared(17, i, Pos(101, 18), Initialized, [])], fs) == fs + [Fact(17, i, [])];
    Event19(i, d1, d2, d3, d4, d5, tr, fs + [Fact(17, i, [])]);
    AnalyseSnoc(tr, [] + [OutAssigned(16, [], [3])] + [Referenced(15, i, Pos(96, 43), false, false, [3])] + [Declared(17, i, Pos(101, 18), Initialized, [])], Declared(18, d5, Pos(101, 30), Initialized, []), fs);
    assert Analyse(tr, [] + [OutAssigned(16, [], [3])] + [Referenced(15, i, Pos(96, 43), false, false, [3])] + [Declared(17, i, Pos(101, 18), Initialized, [])] + [Declared(18, d5, Pos(101, 30), Initialized, [])], fs) == [] + [] + [] + [] + [];
    assert Replay(tr, [] + [OutAssigned(16, [], [3])] + [Referenced(15, i, Pos(96, 43), false, false, [3])] + [Declared(17, i, Pos(101, 18), Initialized, [])] + [Declared(18, d5, Pos(101, 30), Initialized, [])], fs) == fs + [Fact(17, i, [])] + [Fact(18, d5, [])];
    Event20(i, d1, d2, d3, d4, d5, tr, fs + [Fact(17, i, [])] + [Fact(18, d5, [])]);
    AnalyseSnoc(tr, [] + [OutAssigned(16, [], [3])] + [Referenced(15, i, Pos(96, 43), false, false, [3])] + [Declared(17, i, Pos(101, 18), Initialized, [])] + [Declared(18, d5, Pos(101, 30), Initialized, [])], Declared(19, d5, Pos(103, 17), Initialized, [4]), fs);
    assert Analyse(tr, [] + [OutAssigned(16, [], [3])] + [Referenced(15, i, Pos(96, 43), false, false, [3])] + [Declared(17, i, Pos(101, 18), Initialized, [])] + [Declared(18, d5, Pos(101, 30), Initialized, [])] + [Declared(19, d5, Pos(103, 17), Initialized, [4])], fs) == [] + [] + [] + [] + [] + [Diag(Shadow, d5, Pos(103, 17))];
    assert Replay(tr, [] + [OutAssigned(16, [], [3])] + [Referenced(15, i, Pos(96, 43), false, false, [3])] + [Declared(17, i, Pos(101, 18), Initialized, [])] + [Declared(18, d5, Pos(101, 30), Initialized, [])] + [Declared(19, d5, Pos(103, 17), Initialized, [4])], fs) == fs + [Fact(17, i, [])] + [Fact(18, d5, [])] + [Fact(19, d5, [4])];
    AssignedSnoc(fs, Fact(17, i, []), 19, d5, [4]);
    AssignedSnoc(fs + [Fact(17, i, [])], Fact(18, d5, []), 19, d5, [4]);
    AssignedSnoc(fs + [Fact(17, i, [])] + [Fact(18, d5, [])], Fact(19, d5, [4]), 19, d5, [4]);
    Event21(i, d1, d2, d3, d4, d5, tr, fs + [Fact(17, i, [])] + [Fact(18, d5, [])] + [Fact(19, d5, [4])]);
    AnalyseSnoc(tr, [] + [OutAssigned(16, [], [3])] + [Referenced(15, i, Pos(96, 43), false, false, [3])] + [Declared(17, i, Pos(101, 18), Initialized, [])] + [Declared(18, d5, Pos(101, 30), Initialized, [])] + [Declared(19, d5, Pos(103, 17), Initialized, [4])], Referenced(19, d5, Pos(104, 38), false, false, [4]), fs);
    assert Analyse(tr, [] + [OutAssigned(16, [], [3])] + [Referenced(15, i, Pos(96, 43), false, false, [3])] + [Declared(17, i, Pos(101, 18), Initialized, [])] + [Declared(18, d5, Pos(101, 30), Initialized, [])] + [Declared(19, d5, Pos(103, 17), Initialized, [4])] + [Referenced(19, d5, Pos(104, 38), false, false, [4])], fs) == [] + [] + [] + [] + [] + [Diag(Shadow, d5, Pos(103, 17))] + [];
    assert Replay(tr, [] + [OutAssigned(16, [], [3])] + [Referenced(15, i, Pos(96, 43), false, false, [3])] + [Declared(17, i, Pos(101, 18), Initialized, [])] + [Declared(18, d5, Pos(101, 30), Initialized, [])] + [Declared(19, d5, Pos(103, 17), Initialized, [4])] + [Referenced(19, d5, Pos(104, 38), false, false, [4])], fs) == fs + [Fact(17, i, [])] + [Fact(18, d5, [])] + [Fact(19, d5, [4])];
    Event22(i, d1, d2, d3, d4, d5, tr, fs + [Fact(17, i, [])] + [Fact(18, d5, [])] + [Fact(19, d5, [4])]);
    AnalyseSnoc(tr, [] + [OutAssigned(16, [], [3])] + [Referenced(15, i, Pos(96, 43), false, false, [3])] + [Declared(17, i, Pos(101, 18), Initialized, [])] + [Declared(18, d5, Pos(101, 30), Initialized, [])] + [Declared(19, d5, Pos(103, 17), Initialized, [4])] + [Referenced(19, d5, Pos(104, 38), false, false, [4])], OutAssigned(19, [], [4]), fs);
    assert Analyse(tr, [] + [OutAssigned(16, [], [3])] + [Referenced(15, i, Pos(96, 43), false, false, [3])] + [Declared(17, i, Pos(101, 18), Initialized, [])] + [Declared(18, d5, Pos(101, 30), Initialized, [])] + [Declared(19, d5, Pos(103, 17), Initialized, [4])] + [Referenced(19, d5, Pos(104, 38), false, false, [4])] + [OutAssigned(19, [], [4])], fs) == [] + [] + [] + [] + [] + [Diag(Shadow, d5, Pos(103, 17))] + [] + [];
    assert Replay(tr, [] + [OutAssigned(16, [], [3])] + [Referenced(15, i, Pos(96, 43), false, false, [3])] + [Declared(17, i, Pos(101, 18), Initialized, [])] + [Declared(18, d5, Pos(101, 30), Initialized, [])] + [Declared(19, d5, Pos(103, 17), Initialized, [4])] + [Referenced(19, d5, Pos(104, 38), false, false, [4])] + [OutAssigned(19, [], [4])], fs) == fs + [Fact(17, i, [])] + [Fact(18, d5, [])] + [Fact(19, d5, [4])];
    AssignedSnoc(fs, Fact(17, i, []), 17, i, [4]);
    AssignedSnoc(fs + [Fact(17, i, [])], Fact(18, d5, []), 17, i, [4]);
    AssignedSnoc(fs + [Fact(17, i, [])] + [Fact(18, d5, [])], Fact(19, d5, [4]), 17, i, [4]);
    Event23(i, d1, d2, d3, d4, d5, tr, fs + [Fact(17, i, [])] + [Fact(18, d5, [])] + [Fact(19, d5, [4])]);
    AnalyseSnoc(tr, [] + [OutAssigned(16, [], [3])] + [Referenced(15, i, Pos(96, 43), false, false, [3])] + [Declared(17, i, Pos(101, 18), Initialized, [])] + [Declared(18, d5, Pos(101, 30), Initialized, [])] + [Declared(19, d5, Pos(103, 17), Initialized, [4])] + [Referenced(19, d5, Pos(104, 38), false, false, [4])] + [OutAssigned(19, [], [4])], Referenced(18, i, Pos(101, 43), false, false, [4]), fs);
    AnalyseSplit(tr, evs, Chunk2(i, d1, d2, d3, d4, d5), []);
  }

  lemma {:induction false} Glue0(i: string, d1: string, d2: string, d3: string, d4: string, d5: string, rs: seq<Diag>)
    requires rs == []
    ensures rs + ([] + [] + [] + [Diag(Duplicate, d1, Pos(89, 45))] + [] + [] + [] + [] + [Diag(Duplicate, d2, Pos(91, 53))]) == [Diag(Duplicate, d1, Pos(89, 45)), Diag(Duplicate, d2, Pos(91, 53))]
  {
  }

  lemma {:induction false} Glue1(i: string, d1: string, d2: string, d3: string, d4: string, d5: string, rs: seq<Diag>)
    requires rs == [Diag(Duplicate, d1, Pos(89, 45)), Diag(Duplicate, d2, Pos(91, 53))]
    ensures rs + ([] + [] + [] + [Diag(Shadow, d3, Pos(94, 42))] + [] + [] + [] + [] + [Diag(Shadow, d4, Pos(98, 42))]) == [Diag(Duplicate, d1, Pos(89, 45)), Diag(Duplicate, d2, Pos(91, 53)), Diag(Shadow, d3, Pos(94, 42)), Diag(Shadow, d4, Pos(98, 42))]
  {
  }

  lemma {:induction false} Glue2(i: string, d1: string, d2: string, d3: string, d4: string, d5: string, rs: seq<Diag>)
    requires rs == [Diag(Duplicate, d1, Pos(89, 45)), Diag(Duplicate, d2, Pos(91, 53)), Diag(Shadow, d3, Pos(94, 42)), Diag(Shadow, d4, Pos(98, 42))]
    ensures rs + ([] + [] + [] + [] + [] + [Diag(Shadow, d5, Pos(103, 17))] + [] + [] + []) == [Diag(Duplicate, d1, Pos(89, 45)), Diag(Duplicate, d2, Pos(91, 53)), Diag(Shadow, d3, Pos(94, 42)), Diag(Shadow, d4, Pos(98, 42)), Diag(Shadow, d5, Pos(103, 17))]
  {
  }

  /** The analysis of events 0 to 23, after the events before them. */
  lemma {:induction false} Stage0(i: string, d1: string, d2: string, d3: string, d4: string, d5: string, tr: Tree, evs: seq<Event>)
    requires ScopesAre(tr, Layout())
    requires LocalsFit(i, d1, d2, d3, d4, d5, tr)
    requires i != d1 && i != d2 && i != d3 && i != d4 && i != d5
    requires Analyse(tr, evs, []) == []
    requires Replay(tr, evs, []) == []
    ensures Analyse(tr, evs + Chunk0(i, d1, d2, d3, d4, d5) + Chunk1(i, d1, d2, d3, d4, d5) + Chunk2(i, d1, d2, d3, d4, d5), []) == [Diag(Duplicate, d1, Pos(89, 45)), Diag(Duplicate, d2, Pos(91, 53)), Diag(Shadow, d3, Pos(94, 42)), Diag(Shadow, d4, Pos(98, 42)), Diag(Shadow, d5, Pos(103, 17))]
    ensures Replay(tr, evs + Chunk0(i, d1, d2, d3, d4, d5) + Chunk1(i, d1, d2, d3, d4, d5) + Chunk2(i, d1, d2, d3, d4, d5), []) == Known2(i, d1, d2, d3, d4, d5)
  {
    assert !Assigned([], 5, i, [0]);
    assert !Assigned([], 8, i, [1]);
    Scope0(i, d1, d2, d3, d4, d5, tr);
    Scope3(i, d1, d2, d3, d4, d5, tr);
    Scope4(i, d1, d2, d3, d4, d5, tr);
    Scope5(i, d1, d2, d3, d4, d5, tr);
    Scope6(i, d1, d2, d3, d4, d5, tr);
    Scope8(i, d1, d2, d3, d4, d5, tr);
    Scope9(i, d1, d2, d3, d4, d5, tr);
    Analysed0(i, d1, d2, d3, d4, d5, tr, evs, [], []);
    Glue0(i, d1, d2, d3, d4, d5, []);
    Read0(i, d1, d2, d3, d4, d5);
    Scope11(i, d1, d2, d3, d4, d5, tr);
    Scope12(i, d1, d2, d3, d4, d5, tr);
    Scope13(i, d1, d2, d3, d4, d5, tr);
    Scope14(i, d1, d2, d3, d4, d5, tr);
    Scope15(i, d1, d2, d3, d4, d5, tr);
    Scope16(i, d1, d2, d3, d4, d5, tr);
    Analysed1(i, d1, d2, d3, d4, d5, tr, evs + Chunk0(i, d1, d2, d3, d4, d5), Known0(i, d1, d2, d3, d4, d5), [Diag(Duplicate, d1, Pos(89, 45)), Diag(Duplicate, d2, Pos(91, 53))]);
    Glue1(i, d1, d2, d3, d4, d5, [Diag(Duplicate, d1, Pos(89, 45)), Diag(Duplicate, d2, Pos(91, 53))]);
    Read1(i, d1, d2, d3, d4, d5);
    Read2(i, d1, d2, d3, d4, d5);
    Read3(i, d1, d2, d3, d4, d5);
    Scope17(i, d1, d2, d3, d4, d5, tr);
    Scope18(i, d1, d2, d3, d4, d5, tr);
    Scope19(i, d1, d2, d3, d4, d5, tr);
    Analysed2(i, d1, d2, d3, d4, d5, tr, evs + Chunk0(i, d1, d2, d3, d4, d5) + Chunk1(i, d1, d2, d3, d4, d5), Known1(i, d1, d2, d3, d4, d5), [Diag(Duplicate, d1, Pos(89, 45)), Diag(Duplicate, d2, Pos(91, 53)), Diag(Shadow, d3, Pos(94, 42)), Diag(Shadow, d4, Pos(98, 42))]);
    Glue2(i, d1, d2, d3, d4, d5, [Diag(Duplicate, d1, Pos(89, 45)), Diag(Duplicate, d2, Pos(91, 53)), Diag(Shadow, d3, Pos(94, 42)), Diag(Shadow, d4, Pos(98, 42))]);
  }

  /** The analysis of a tree with the test's scopes and events. */
  lemma {:induction false} Result(i: string, d1: string, d2: string, d3: string, d4: string, d5: string, tr: Tree)
    requires ScopesAre(tr, Layout()) && LocalsFit(i, d1, d2, d3, d4, d5, tr) && tr.events == Trace(i, d1, d2, d3, d4, d5)
    requires i != d1 && i != d2 && i != d3 && i != d4 && i != d5
    ensures Analyse(tr, tr.events, []) == [Diag(Duplicate, d1, Pos(89, 45)), Diag(Duplicate, d2, Pos(91, 53)), Diag(Shadow, d3, Pos(94, 42)), Diag(Shadow, d4, Pos(98, 42)), Diag(Shadow, d5, Pos(103, 17))]
  {
    assert Analyse(tr, [], []) == [] && Replay(tr, [], []) == [];
    Stage0(i, d1, d2, d3, d4, d5, tr, []);
  }

  /** The diagnostics the test expects, in the order the analysis reports them. */
  lemma {:induction false} Outcome(i: string, d1: string, d2: string, d3: string, d4: string, d5: string)
    requires i != d1 && i != d2 && i != d3 && i != d4 && i != d5
    ensures Check(Program(i, d1, d2, d3, d4, d5)) == [Diag(Duplicate, d1, Pos(89, 45)), Diag(Duplicate, d2, Pos(91, 53)), Diag(Shadow, d3, Pos(94, 42)), Diag(Shadow, d4, Pos(98, 42)), Diag(Shadow, d5, Pos(103, 17))]
  {
    Walked(i, d1, d2, d3, d4, d5);
    LocalsAll(i, d1, d2, d3, d4, d5, Build(Program(i, d1, d2, d3, d4, d5)));
    Result(i, d1, d2, d3, d4, d5, Build(Program(i, d1, d2, d3, d4, d5)));
  }
}

/**
 * The statements on lines 41 to 64 of the program of the test For_02
 * (DeclarationExpressionsTests.cs, lines 428 to 658).
 * They share no name with the test's other statements outside their own `for`
 * statements: every part declares `i`, but only in a `for` initializer, a scope no
 * other part can see. So their diagnostics are the test's diagnostics on those lines.
 *
 * Its program, with its local names left as parameters, is walked into a scope tree and
 * analysed; Outcome states the exact list of diagnostics Check reports, for any names that
 * differ where the outcome depends on it.
 */
module ScenFor02b {
  import opened Syntax
  import opened Scopes
  import opened Binding
  import opened Reporting
  import opened Frames
  import opened Units
  import opened Traces

  /** The statements of the test's method, its names left as parameters. */
  function Body(a1: string, b1: string, i: string, a2: string, a3: string, a4: string, a5: string): seq<Stmt> {
    [Exprs([Declare(a1, Pos(41, 13), Initialized)])] + ([Exprs([Call([Argument([Declare(b1, Pos(42, 39), Initialized)] + ([Use(a1, Pos(42, 49), false)]))])])] + ([For([Declare(i, Pos(44, 18), Initialized)] + ([Declare(a1, Pos(44, 27), Initialized)]), [Use(i, Pos(44, 36), false)], [], Exprs([]))] + ([For([Declare(i, Pos(45, 18), Initialized)] + ([Declare(b1, Pos(45, 27), Initialized)]), [Use(i, Pos(45, 36), false)], [], Exprs([]))] + ([Exprs([Declare(a2, Pos(47, 13), Initialized)])] + ([Exprs([Call([Argument([Use(a2, Pos(48, 34), false)])])])] + ([For([Declare(i, Pos(49, 18), Initialized)], [Use(i, Pos(49, 25), false)] + ([Declare(a2, Pos(49, 34), Initialized)]), [], Exprs([]))] + ([Exprs([Declare(a3, Pos(51, 13), Initialized)])] + ([Exprs([Call([Argument([Use(a3, Pos(52, 34), false)])])])] + ([For([Declare(i, Pos(53, 18), Initialized)], [Use(i, Pos(53, 25), false)], [Use(i, Pos(53, 32), false)] + ([Declare(a3, Pos(53, 41), Initialized)]), Exprs([]))] + ([Exprs([Declare(a4, Pos(55, 13), Initialized)])] + ([Exprs([Call([Argument([Use(a4, Pos(56, 34), false)])])])] + ([For([Declare(i, Pos(57, 18), Initialized)], [Use(i, Pos(57, 25), false)], [Use(i, Pos(57, 32), false)], Exprs([Call([Argument([Declare(a4, Pos(58, 42), Initialized)])])]))] + ([Exprs([Declare(a5, Pos(60, 13), Initialized)])] + ([Exprs([Call([Argument([Use(a5, Pos(61, 34), false)])])])] + ([For([Declare(i, Pos(62, 18), Initialized)], [Use(i, Pos(62, 25), false)], [Use(i, Pos(62, 32), false)], Block([Exprs([Call([Argument([Declare(a5, Pos(64, 42), Initialized)])])])]))])))))))))))))))
  }

  /** The program of the test: one method holding those statements. */
  function Program(a1: string, b1: string, i: string, a2: string, a3: string, a4: string, a5: string): seq<Fragment> {
    MainUnit(Body(a1, b1, i, a2, a3, a4, a5))
  }

  /** Scopes 0 to 7, in the order the walk opens them. */
  function Layout0(): seq<Scope> {
    [Scope(Unit, None),
     Scope(InstanceInitializers, Some(0)),
     Scope(StaticInitializers, Some(0)),
     Scope(MethodBody, Some(0)),
     Scope(BlockBody, Some(3)),
     Scope(ForInit, Some(4)),
     Scope(ForLoop, Some(5)),
     Scope(EmbeddedBody, Some(6))]
  }

  /** Scopes 8 to 15, in the order the walk opens them. */
  function Layout1(): seq<Scope> {
    [Scope(ForInit, Some(4)),
     Scope(ForLoop, Some(8)),
     Scope(EmbeddedBody, Some(9)),
     Scope(ForInit, Some(4)),
     Scope(ForLoop, Some(11)),
     Scope(EmbeddedBody, Some(12)),
     Scope(ForInit, Some(4)),
     Scope(ForLoop, Some(14))]
  }

  /** Scopes 16 to 22, in the order the walk opens them. */
  function Layout2(): seq<Scope> {
    [Scope(EmbeddedBody, Some(15)),
     Scope(ForInit, Some(4)),
     Scope(ForLoop, Some(17)),
     Scope(EmbeddedBody, Some(18)),
     Scope(ForInit, Some(4)),
     Scope(ForLoop, Some(20)),
     Scope(BlockBody, Some(21))]
  }

  /** Its scopes, in the order the walk opens them. */
  function Layout(): seq<Scope> {
    Layout0() + Layout1() + Layout2()
  }

  lemma {:induction false} LayoutJoin0()
    ensures [Scope(Unit, None), Scope(InstanceInitializers, Some(0)), Scope(StaticInitializers, Some(0)), Scope(MethodBody, Some(0)), Scope(BlockBody, Some(3))] + [Scope(ForInit, Some(4))] + [Scope(ForLoop, Some(5))] + [Scope(EmbeddedBody, Some(6))] == Layout0()
  {
  }

  lemma {:induction false} LayoutJoin1(pre: seq<Scope>)
    ensures pre + Layout1() == pre + [Scope(ForInit, Some(4))] + [Scope(ForLoop, Some(8))] + [Scope(EmbeddedBody, Some(9))] + [Scope(ForInit, Some(4))] + [Scope(ForLoop, Some(11))] + [Scope(EmbeddedBody, Some(12))] + [Scope(ForInit, Some(4))] + [Scope(ForLoop, Some(14))]
  {
  }

  lemma {:induction false} LayoutJoin2(pre: seq<Scope>)
    ensures pre + Layout2() == pre + [Scope(EmbeddedBody, Some(15))] + [Scope(ForInit, Some(4))] + [Scope(ForLoop, Some(17))] + [Scope(EmbeddedBody, Some(18))] + [Scope(ForInit, Some(4))] + [Scope(ForLoop, Some(20))] + [Scope(BlockBody, Some(21))]
  {
  }

  /** The layout, scope by scope. */
  lemma {:induction false} LayoutFlat()
    ensures [Scope(Unit, None), Scope(InstanceInitializers, Some(0)), Scope(StaticInitializers, Some(0)), Scope(MethodBody, Some(0)), Scope(BlockBody, Some(3))] + [Scope(ForInit, Some(4))] + [Scope(ForLoop, Some(5))] + [Scope(EmbeddedBody, Some(6))] + [Scope(ForInit, Some(4))] + [Scope(ForLoop, Some(8))] + [Scope(EmbeddedBody, Some(9))] + [Scope(ForInit, Some(4))] + [Scope(ForLoop, Some(11))] + [Scope(EmbeddedBody, Some(12))] + [Scope(ForInit, Some(4))] + [Scope(ForLoop, Some(14))] + [Scope(EmbeddedBody, Some(15))] + [Scope(ForInit, Some(4))] + [Scope(ForLoop, Some(17))] + [Scope(EmbeddedBody, Some(18))] + [Scope(ForInit, Some(4))] + [Scope(ForLoop, Some(20))] + [Scope(BlockBody, Some(21))] == Layout()
  {
    LayoutJoin0();
    LayoutJoin1(Layout0());
    LayoutJoin2(Layout0() + Layout1());
  }

  /** Events 0 to 7 of the test, in evaluation order. */
  function Chunk0(a1: string, b1: string, i: string, a2: string, a3: string, a4: string, a5: string): seq<Event> {
    []
      + [Declared(4, a1, Pos(41, 13), Initialized, [])]
      + [Declared(4, b1, Pos(42, 39), Initialized, [])]
      + [Referenced(4, a1, Pos(42, 49), false, false, [])]
      + [OutAssigned(4, [], [])]
      + [Declared(5, i, Pos(44, 18), Initialized, [])]
      + [Declared(5, a1, Pos(44, 27), Initialized, [])]
      + [Referenced(6, i, Pos(44, 36), false, false, [])]
      + [Declared(8, i, Pos(45, 18), Initialized, [])]
  }

  /** Events 8 to 15 of the test, in evaluation order. */
  function Chunk1(a1: string, b1: string, i: string, a2: string, a3: string, a4: string, a5: string): seq<Event> {
    []
      + [Declared(8, b1, Pos(45, 27), Initialized, [])]
      + [Referenced(9, i, Pos(45, 36), false, false, [])]
      + [Declared(4, a2, Pos(47, 13), Initialized, [])]
      + [Referenced(4, a2, Pos(48, 34), false, false, [])]
      + [OutAssigned(4, [], [])]
      + [Declared(11, i, Pos(49, 18), Initialized, [])]
      + [Referenced(12, i, Pos(49, 25), false, false, [])]
      + [Declared(12, a2, Pos(49, 34), Initialized, [])]
  }

  /** Events 16 to 23 of the test, in evaluation order. */
  function Chunk2(a1: string, b1: string, i: string, a2: string, a3: string, a4: string, a5: string): seq<Event> {
    []
      + [Declared(4, a3, Pos(51, 13), Initialized, [])]
      + [Referenced(4, a3, Pos(52, 34), false, false, [])]
      + [OutAssigned(4, [], [])]
      + [Declared(14, i, Pos(53, 18), Initialized, [])]
      + [Referenced(15, i, Pos(53, 25), false, false, [])]
      + [Referenced(15, i, Pos(53, 32), false, false, [3])]
      + [Declared(15, a3, Pos(53, 41), Initialized, [3])]
      + [Declared(4, a4, Pos(55, 13), Initialized, [])]
  }

  /** Events 24 to 31 of the test, in evaluation order. */
  function Chunk3(a1: string, b1: string, i: string, a2: string, a3: string, a4: string, a5: string): seq<Event> {
    []
      + [Referenced(4, a4, Pos(56, 34), false, false, [])]
      + [OutAssigned(4, [], [])]
      + [Declared(17, i, Pos(57, 18), Initialized, [])]
      + [Referenced(18, i, Pos(57, 25), false, false, [])]
      + [Declared(19, a4, Pos(58, 42), Initialized, [4])]
      + [OutAssigned(19, [], [4])]
      + [Referenced(18, i, Pos(57, 32), false, false, [4])]
      + [Declared(4, a5, Pos(60, 13), Initialized, [])]
  }

  /** Events 32 to 38 of the test, in evaluation order. */
  function Chunk4(a1: string, b1: string, i: string, a2: string, a3: string, a4: string, a5: string): seq<Event> {
    []
      + [Referenced(4, a5, Pos(61, 34), false, false, [])]
      + [OutAssigned(4, [], [])]
      + [Declared(20, i, Pos(62, 18), Initialized, [])]
      + [Referenced(21, i, Pos(62, 25), false, false, [])]
      + [Declared(22, a5, Pos(64, 42), Initialized, [5])]
      + [OutAssigned(22, [], [5])]
      + [Referenced(21, i, Pos(62, 32), false, false, [5])]
  }

  /** The events of the test, in evaluation order. */
  function Trace(a1: string, b1: string, i: string, a2: string, a3: string, a4: string, a5: string): seq<Event> {
    []
      + Chunk0(a1, b1, i, a2, a3, a4, a5)
      + Chunk1(a1, b1, i, a2, a3, a4, a5)
      + Chunk2(a1, b1, i, a2, a3, a4, a5)
      + Chunk3(a1, b1, i, a2, a3, a4, a5)
      + Chunk4(a1, b1, i, a2, a3, a4, a5)
  }

  lemma {:induction false} Walk2(a1: string, b1: string, i: string, a2: string, a3: string, a4: string, a5: string, tr: Tree)
    requires |tr.scopes| == 5 && tr.arms == 0
    ensures WalkStmt(Exprs([Declare(a1, Pos(41, 13), Initialized)]), Ctx(4, [], []), tr) == Tree(tr.scopes, tr.events + [Declared(4, a1, Pos(41, 13), Initialized, [])], 0)
  {
    WalkExprsOne(Declare(a1, Pos(41, 13), Initialized), Ctx(4, [], []), tr);
    assert WalkExpr(Declare(a1, Pos(41, 13), Initialized), Ctx(4, [], []), tr) == Tree(tr.scopes, tr.events + [Declared(4, a1, Pos(41, 13), Initialized, [])], 0);
    assert WalkExprs([Declare(a1, Pos(41, 13), Initialized)], Ctx(4, [], []), tr) == Tree(tr.scopes, tr.events + [Declared(4, a1, Pos(41, 13), Initialized, [])], 0);
    assert WalkStmt(Exprs([Declare(a1, Pos(41, 13), Initialized)]), Ctx(4, [], []), tr) == Tree(tr.scopes, tr.events + [Declared(4, a1, Pos(41, 13), Initialized, [])], 0);
  }

  lemma {:induction false} Walk3(a1: string, b1: string, i: string, a2: string, a3: string, a4: string, a5: string, tr: Tree)
    requires |tr.scopes| == 5 && tr.arms == 0
    ensures WalkStmt(Exprs([Call([Argument([Declare(b1, Pos(42, 39), Initialized)] + ([Use(a1, Pos(42, 49), false)]))])]), Ctx(4, [], []), tr) == Tree(tr.scopes, tr.events + [Declared(4, b1, Pos(42, 39), Initialized, [])] + [Referenced(4, a1, Pos(42, 49), false, false, [])] + [OutAssigned(4, [], [])], 0)
  {
    WalkExprsOne(Call([Argument([Declare(b1, Pos(42, 39), Initialized)] + ([Use(a1, Pos(42, 49), false)]))]), Ctx(4, [], []), tr);
    assert OutNames([]) == [];
    WalkArgsOne(Argument([Declare(b1, Pos(42, 39), Initialized)] + ([Use(a1, Pos(42, 49), false)])), [], Ctx(4, [], []), tr);
    WalkExprsCons(Declare(b1, Pos(42, 39), Initialized), [Use(a1, Pos(42, 49), false)], Ctx(4, [], []), tr);
    assert WalkExpr(Declare(b1, Pos(42, 39), Initialized), Ctx(4, [], []), tr) == Tree(tr.scopes, tr.events + [Declared(4, b1, Pos(42, 39), Initialized, [])], 0);
    WalkExprsOne(Use(a1, Pos(42, 49), false), Ctx(4, [], []), Tree(tr.scopes, tr.events + [Declared(4, b1, Pos(42, 39), Initialized, [])], 0));
    assert WalkExpr(Use(a1, Pos(42, 49), false), Ctx(4, [], []), Tree(tr.scopes, tr.events + [Declared(4, b1, Pos(42, 39), Initialized, [])], 0)) == Tree(tr.scopes, tr.events + [Declared(4, b1, Pos(42, 39), Initialized, [])] + [Referenced(4, a1, Pos(42, 49), false, false, [])], 0);
    assert WalkExprs([Declare(b1, Pos(42, 39), Initialized)] + ([Use(a1, Pos(42, 49), false)]), Ctx(4, [], []), tr) == Tree(tr.scopes, tr.events + [Declared(4, b1, Pos(42, 39), Initialized, [])] + [Referenced(4, a1, Pos(42, 49), false, false, [])], 0);
    OutNamesOfCons(Declare(b1, Pos(42, 39), Initialized), [Use(a1, Pos(42, 49), false)]);
    OutNamesOfOne(Use(a1, Pos(42, 49), false));
    OutNamesSnoc([], Argument([Declare(b1, Pos(42, 39), Initialized)] + ([Use(a1, Pos(42, 49), false)])));
    assert WalkArgs([Argument([Declare(b1, Pos(42, 39), Initialized)] + ([Use(a1, Pos(42, 49), false)]))], [], Ctx(4, [], []), tr) == Tree(tr.scopes, tr.events + [Declared(4, b1, Pos(42, 39), Initialized, [])] + [Referenced(4, a1, Pos(42, 49), false, false, [])], 0);
    assert OutNames([Argument([Declare(b1, Pos(42, 39), Initialized)] + ([Use(a1, Pos(42, 49), false)]))]) == [];
    assert WalkExpr(Call([Argument([Declare(b1, Pos(42, 39), Initialized)] + ([Use(a1, Pos(42, 49), false)]))]), Ctx(4, [], []), tr) == Tree(tr.scopes, tr.events + [Declared(4, b1, Pos(42, 39), Initialized, [])] + [Referenced(4, a1, Pos(42, 49), false, false, [])] + [OutAssigned(4, [], [])], 0);
    assert WalkExprs([Call([Argument([Declare(b1, Pos(42, 39), Initialized)] + ([Use(a1, Pos(42, 49), false)]))])], Ctx(4, [], []), tr) == Tree(tr.scopes, tr.events + [Declared(4, b1, Pos(42, 39), Initialized, [])] + [Referenced(4, a1, Pos(42, 49), false, false, [])] + [OutAssigned(4, [], [])], 0);
    assert WalkStmt(Exprs([Call([Argument([Declare(b1, Pos(42, 39), Initialized)] + ([Use(a1, Pos(42, 49), false)]))])]), Ctx(4, [], []), tr) == Tree(tr.scopes, tr.events + [Declared(4, b1, Pos(42, 39), Initialized, [])] + [Referenced(4, a1, Pos(42, 49), false, false, [])] + [OutAssigned(4, [], [])], 0);
  }

  lemma {:induction false} Walk4(a1: string, b1: string, i: string, a2: string, a3: string, a4: string, a5: string, tr: Tree)
    requires |tr.scopes| == 5 && tr.arms == 0
    ensures WalkStmt(For([Declare(i, Pos(44, 18), Initialized)] + ([Declare(a1, Pos(44, 27), Initialized)]), [Use(i, Pos(44, 36), false)], [], Exprs([])), Ctx(4, [], []), tr) == Tree(tr.scopes + [Scope(ForInit, Some(4))] + [Scope(ForLoop, Some(5))] + [Scope(EmbeddedBody, Some(6))], tr.events + [Declared(5, i, Pos(44, 18), Initialized, [])] + [Declared(5, a1, Pos(44, 27), Initialized, [])] + [Referenced(6, i, Pos(44, 36), false, false, [])], 1)
  {
    WalkExprsCons(Declare(i, Pos(44, 18), Initialized), [Declare(a1, Pos(44, 27), Initialized)], Ctx(5, [], []), Tree(tr.scopes + [Scope(ForInit, Some(4))] + [Scope(ForLoop, Some(5))], tr.events, 0));
    assert WalkExpr(Declare(i, Pos(44, 18), Initialized), Ctx(5, [], []), Tree(tr.scopes + [Scope(ForInit, Some(4))] + [Scope(ForLoop, Some(5))], tr.events, 0)) == Tree(tr.scopes + [Scope(ForInit, Some(4))] + [Scope(ForLoop, Some(5))], tr.events + [Declared(5, i, Pos(44, 18), Initialized, [])], 0);
    WalkExprsOne(Declare(a1, Pos(44, 27), Initialized), Ctx(5, [], []), Tree(tr.scopes + [Scope(ForInit, Some(4))] + [Scope(ForLoop, Some(5))], tr.events + [Declared(5, i, Pos(44, 18), Initialized, [])], 0));
    assert WalkExpr(Declare(a1, Pos(44, 27), Initialized), Ctx(5, [], []), Tree(tr.scopes + [Scope(ForInit, Some(4))] + [Scope(ForLoop, Some(5))], tr.events + [Declared(5, i, Pos(44, 18), Initialized, [])], 0)) == Tree(tr.scopes + [Scope(ForInit, Some(4))] + [Scope(ForLoop, Some(5))], tr.events + [Declared(5, i, Pos(44, 18), Initialized, [])] + [Declared(5, a1, Pos(44, 27), Initialized, [])], 0);
    assert WalkExprs([Declare(i, Pos(44, 18), Initialized)] + ([Declare(a1, Pos(44, 27), Initialized)]), Ctx(5, [], []), Tree(tr.scopes + [Scope(ForInit, Some(4))] + [Scope(ForLoop, Some(5))], tr.events, 0)) == Tree(tr.scopes + [Scope(ForInit, Some(4))] + [Scope(ForLoop, Some(5))], tr.events + [Declared(5, i, Pos(44, 18), Initialized, [])] + [Declared(5, a1, Pos(44, 27), Initialized, [])], 0);
    WalkExprsOne(Use(i, Pos(44, 36), false), Ctx(6, [], []), Tree(tr.scopes + [Scope(ForInit, Some(4))] + [Scope(ForLoop, Some(5))], tr.events + [Declared(5, i, Pos(44, 18), Initialized, [])] + [Declared(5, a1, Pos(44, 27), Initialized, [])], 0));
    assert WalkExpr(Use(i, Pos(44, 36), false), Ctx(6, [], []), Tree(tr.scopes + [Scope(ForInit, Some(4))] + [Scope(ForLoop, Some(5))], tr.events + [Declared(5, i, Pos(44, 18), Initialized, [])] + [Declared(5, a1, Pos(44, 27), Initialized, [])], 0)) == Tree(tr.scopes + [Scope(ForInit, Some(4))] + [Scope(ForLoop, Some(5))], tr.events + [Declared(5, i, Pos(44, 18), Initialized, [])] + [Declared(5, a1, Pos(44, 27), Initialized, [])] + [Referenced(6, i, Pos(44, 36), false, false, [])], 0);
    assert WalkExprs([Use(i, Pos(44, 36), false)], Ctx(6, [], []), Tree(tr.scopes + [Scope(ForInit, Some(4))] + [Scope(ForLoop, Some(5))], tr.events + [Declared(5, i, Pos(44, 18), Initialized, [])] + [Declared(5, a1, Pos(44, 27), Initialized, [])], 0)) == Tree(tr.scopes + [Scope(ForInit, Some(4))] + [Scope(ForLoop, Some(5))], tr.events + [Declared(5, i, Pos(44, 18), Initialized, [])] + [Declared(5, a1, Pos(44, 27), Initialized, [])] + [Referenced(6, i, Pos(44, 36), false, false, [])], 0);
    assert [] + [0] == [0];
    assert WalkStmt(Exprs([]), Ctx(7, [0], []), Tree(tr.scopes + [Scope(ForInit, Some(4))] + [Scope(ForLoop, Some(5))] + [Scope(EmbeddedBody, Some(6))], tr.events + [Declared(5, i, Pos(44, 18), Initialized, [])] + [Declared(5, a1, Pos(44, 27), Initialized, [])] + [Referenced(6, i, Pos(44, 36), false, false, [])], 1)) == Tree(tr.scopes + [Scope(ForInit, Some(4))] + [Scope(ForLoop, Some(5))] + [Scope(EmbeddedBody, Some(6))], tr.events + [Declared(5, i, Pos(44, 18), Initialized, [])] + [Declared(5, a1, Pos(44, 27), Initialized, [])] + [Referenced(6, i, Pos(44, 36), false, false, [])], 1);
    assert WalkEmbedded(Exprs([]), Ctx(6, [0], []), Tree(tr.scopes + [Scope(ForInit, Some(4))] + [Scope(ForLoop, Some(5))], tr.events + [Declared(5, i, Pos(44, 18), Initialized, [])] + [Declared(5, a1, Pos(44, 27), Initialized, [])] + [Referenced(6, i, Pos(44, 36), false, false, [])], 1)) == Tree(tr.scopes + [Scope(ForInit, Some(4))] + [Scope(ForLoop, Some(5))] + [Scope(EmbeddedBody, Some(6))], tr.events + [Declared(5, i, Pos(44, 18), Initialized, [])] + [Declared(5, a1, Pos(44, 27), Initialized, [])] + [Referenced(6, i, Pos(44, 36), false, false, [])], 1);
    assert WalkStmt(For([Declare(i, Pos(44, 18), Initialized)] + ([Declare(a1, Pos(44, 27), Initialized)]), [Use(i, Pos(44, 36), false)], [], Exprs([])), Ctx(4, [], []), tr) == Tree(tr.scopes + [Scope(ForInit, Some(4))] + [Scope(ForLoop, Some(5))] + [Scope(EmbeddedBody, Some(6))], tr.events + [Declared(5, i, Pos(44, 18), Initialized, [])] + [Declared(5, a1, Pos(44, 27), Initialized, [])] + [Referenced(6, i, Pos(44, 36), false, false, [])], 1);
  }

  lemma {:induction false} Walk5(a1: string, b1: string, i: string, a2: string, a3: string, a4: string, a5: string, tr: Tree)
    requires |tr.scopes| == 8 && tr.arms == 1
    ensures WalkStmt(For([Declare(i, Pos(45, 18), Initialized)] + ([Declare(b1, Pos(45, 27), Initialized)]), [Use(i, Pos(45, 36), false)], [], Exprs([])), Ctx(4, [], []), tr) == Tree(tr.scopes + [Scope(ForInit, Some(4))] + [Scope(ForLoop, Some(8))] + [Scope(EmbeddedBody, Some(9))], tr.events + [Declared(8, i, Pos(45, 18), Initialized, [])] + [Declared(8, b1, Pos(45, 27), Initialized, [])] + [Referenced(9, i, Pos(45, 36), false, false, [])], 2)
  {
    WalkExprsCons(Declare(i, Pos(45, 18), Initialized), [Declare(b1, Pos(45, 27), Initialized)], Ctx(8, [], []), Tree(tr.scopes + [Scope(ForInit, Some(4))] + [Scope(ForLoop, Some(8))], tr.events, 1));
    assert WalkExpr(Declare(i, Pos(45, 18), Initialized), Ctx(8, [], []), Tree(tr.scopes + [Scope(ForInit, Some(4))] + [Scope(ForLoop, Some(8))], tr.events, 1)) == Tree(tr.scopes + [Scope(ForInit, Some(4))] + [Scope(ForLoop, Some(8))], tr.events + [Declared(8, i, Pos(45, 18), Initialized, [])], 1);
    WalkExprsOne(Declare(b1, Pos(45, 27), Initialized), Ctx(8, [], []), Tree(tr.scopes + [Scope(ForInit, Some(4))] + [Scope(ForLoop, Some(8))], tr.events + [Declared(8, i, Pos(45, 18), Initialized, [])], 1));
    assert WalkExpr(Declare(b1, Pos(45, 27), Initialized), Ctx(8, [], []), Tree(tr.scopes + [Scope(ForInit, Some(4))] + [Scope(ForLoop, Some(8))], tr.events + [Declared(8, i, Pos(45, 18), Initialized, [])], 1)) == Tree(tr.scopes + [Scope(ForInit, Some(4))] + [Scope(ForLoop, Some(8))], tr.events + [Declared(8, i, Pos(45, 18), Initialized, [])] + [Declared(8, b1, Pos(45, 27), Initialized, [])], 1);
    assert WalkExprs([Declare(i, Pos(45, 18), Initialized)] + ([Declare(b1, Pos(45, 27), Initialized)]), Ctx(8, [], []), Tree(tr.scopes + [Scope(ForInit, Some(4))] + [Scope(ForLoop, Some(8))], tr.events, 1)) == Tree(tr.scopes + [Scope(ForInit, Some(4))] + [Scope(ForLoop, Some(8))], tr.events + [Declared(8, i, Pos(45, 18), Initialized, [])] + [Declared(8, b1, Pos(45, 27), Initialized, [])], 1);
    WalkExprsOne(Use(i, Pos(45, 36), false), Ctx(9, [], []), Tree(tr.scopes + [Scope(ForInit, Some(4))] + [Scope(ForLoop, Some(8))], tr.events + [Declared(8, i, Pos(45, 18), Initialized, [])] + [Declared(8, b1, Pos(45, 27), Initialized, [])], 1));
    assert WalkExpr(Use(i, Pos(45, 36), false), Ctx(9, [], []), Tree(tr.scopes + [Scope(ForInit, Some(4))] + [Scope(ForLoop, Some(8))], tr.events + [Declared(8, i, Pos(45, 18), Initialized, [])] + [Declared(8, b1, Pos(45, 27), Initialized, [])], 1)) == Tree(tr.scopes + [Scope(ForInit, Some(4))] + [Scope(ForLoop, Some(8))], tr.events + [Declared(8, i, Pos(45, 18), Initialized, [])] + [Declared(8, b1, Pos(45, 27), Initialized, [])] + [Referenced(9, i, Pos(45, 36), false, false, [])], 1);
    assert WalkExprs([Use(i, Pos(45, 36), false)], Ctx(9, [], []), Tree(tr.scopes + [Scope(ForInit, Some(4))] + [Scope(ForLoop, Some(8))], tr.events + [Declared(8, i, Pos(45, 18), Initialized, [])] + [Declared(8, b1, Pos(45, 27), Initialized, [])], 1)) == Tree(tr.scopes + [Scope(ForInit, Some(4))] + [Scope(ForLoop, Some(8))], tr.events + [Declared(8, i, Pos(45, 18), Initialized, [])] + [Declared(8, b1, Pos(45, 27), Initialized, [])] + [Referenced(9, i, Pos(45, 36), false, false, [])], 1);
    assert [] + [1] == [1];
    assert WalkStmt(Exprs([]), Ctx(10, [1], []), Tree(tr.scopes + [Scope(ForInit, Some(4))] + [Scope(ForLoop, Some(8))] + [Scope(EmbeddedBody, Some(9))], tr.events + [Declared(8, i, Pos(45, 18), Initialized, [])] + [Declared(8, b1, Pos(45, 27), Initialized, [])] + [Referenced(9, i, Pos(45, 36), false, false, [])], 2)) == Tree(tr.scopes + [Scope(ForInit, Some(4))] + [Scope(ForLoop, Some(8))] + [Scope(EmbeddedBody, Some(9))], tr.events + [Declared(8, i, Pos(45, 18), Initialized, [])] + [Declared(8, b1, Pos(45, 27), Initialized, [])] + [Referenced(9, i, Pos(45, 36), false, false, [])], 2);
    assert WalkEmbedded(Exprs([]), Ctx(9, [1], []), Tree(tr.scopes + [Scope(ForInit, Some(4))] + [Scope(ForLoop, Some(8))], tr.events + [Declared(8, i, Pos(45, 18), Initialized, [])] + [Declared(8, b1, Pos(45, 27), Initialized, [])] + [Referenced(9, i, Pos(45, 36), false, false, [])], 2)) == Tree(tr.scopes + [Scope(ForInit, Some(4))] + [Scope(ForLoop, Some(8))] + [Scope(EmbeddedBody, Some(9))], tr.events + [Declared(8, i, Pos(45, 18), Initialized, [])] + [Declared(8, b1, Pos(45, 27), Initialized, [])] + [Referenced(9, i, Pos(45, 36), false, false, [])], 2);
    assert WalkStmt(For([Declare(i, Pos(45, 18), Initialized)] + ([Declare(b1, Pos(45, 27), Initialized)]), [Use(i, Pos(45, 36), false)], [], Exprs([])), Ctx(4, [], []), tr) == Tree(tr.scopes + [Scope(ForInit, Some(4))] + [Scope(ForLoop, Some(8))] + [Scope(EmbeddedBody, Some(9))], tr.events + [Declared(8, i, Pos(45, 18), Initialized, [])] + [Declared(8, b1, Pos(45, 27), Initialized, [])] + [Referenced(9, i, Pos(45, 36), false, false, [])], 2);
  }

  lemma {:induction false} Stmts1(a1: string, b1: string, i: string, a2: string, a3: string, a4: string, a5: string, tr: Tree, rest: seq<Stmt>)
    requires |tr.scopes| == 5 && tr.arms == 0
    ensures WalkStmts([Exprs([Declare(a1, Pos(41, 13), Initialized)])] + ([Exprs([Call([Argument([Declare(b1, Pos(42, 39), Initialized)] + ([Use(a1, Pos(42, 49), false)]))])])] + ([For([Declare(i, Pos(44, 18), Initialized)] + ([Declare(a1, Pos(44, 27), Initialized)]), [Use(i, Pos(44, 36), false)], [], Exprs([]))] + ([For([Declare(i, Pos(45, 18), Initialized)] + ([Declare(b1, Pos(45, 27), Initialized)]), [Use(i, Pos(45, 36), false)], [], Exprs([]))] + (rest)))), Ctx(4, [], []), tr) == WalkStmts(rest, Ctx(4, [], []), Tree(tr.scopes + [Scope(ForInit, Some(4))] + [Scope(ForLoop, Some(5))] + [Scope(EmbeddedBody, Some(6))] + [Scope(ForInit, Some(4))] + [Scope(ForLoop, Some(8))] + [Scope(EmbeddedBody, Some(9))], tr.events + [Declared(4, a1, Pos(41, 13), Initialized, [])] + [Declared(4, b1, Pos(42, 39), Initialized, [])] + [Referenced(4, a1, Pos(42, 49), false, false, [])] + [OutAssigned(4, [], [])] + [Declared(5, i, Pos(44, 18), Initialized, [])] + [Declared(5, a1, Pos(44, 27), Initialized, [])] + [Referenced(6, i, Pos(44, 36), false, false, [])] + [Declared(8, i, Pos(45, 18), Initialized, [])] + [Declared(8, b1, Pos(45, 27), Initialized, [])] + [Referenced(9, i, Pos(45, 36), false, false, [])], 2))
  {
    WalkStmtsCons(Exprs([Declare(a1, Pos(41, 13), Initialized)]), [Exprs([Call([Argument([Declare(b1, Pos(42, 39), Initialized)] + ([Use(a1, Pos(42, 49), false)]))])])] + ([For([Declare(i, Pos(44, 18), Initialized)] + ([Declare(a1, Pos(44, 27), Initialized)]), [Use(i, Pos(44, 36), false)], [], Exprs([]))] + ([For([Declare(i, Pos(45, 18), Initialized)] + ([Declare(b1, Pos(45, 27), Initialized)]), [Use(i, Pos(45, 36), false)], [], Exprs([]))] + (rest))), Ctx(4, [], []), tr);
    Walk2(a1, b1, i, a2, a3, a4, a5, tr);
    assert WalkStmt(Exprs([Declare(a1, Pos(41, 13), Initialized)]), Ctx(4, [], []), tr) == Tree(tr.scopes, tr.events + [Declared(4, a1, Pos(41, 13), Initialized, [])], 0);
    WalkStmtsCons(Exprs([Call([Argument([Declare(b1, Pos(42, 39), Initialized)] + ([Use(a1, Pos(42, 49), false)]))])]), [For([Declare(i, Pos(44, 18), Initialized)] + ([Declare(a1, Pos(44, 27), Initialized)]), [Use(i, Pos(44, 36), false)], [], Exprs([]))] + ([For([Declare(i, Pos(45, 18), Initialized)] + ([Declare(b1, Pos(45, 27), Initialized)]), [Use(i, Pos(45, 36), false)], [], Exprs([]))] + (rest)), Ctx(4, [], []), Tree(tr.scopes, tr.events + [Declared(4, a1, Pos(41, 13), Initialized, [])], 0));
    Walk3(a1, b1, i, a2, a3, a4, a5, Tree(tr.scopes, tr.events + [Declared(4, a1, Pos(41, 13), Initialized, [])], 0));
    assert WalkStmt(Exprs([Call([Argument([Declare(b1, Pos(42, 39), Initialized)] + ([Use(a1, Pos(42, 49), false)]))])]), Ctx(4, [], []), Tree(tr.scopes, tr.events + [Declared(4, a1, Pos(41, 13), Initialized, [])], 0)) == Tree(tr.scopes, tr.events + [Declared(4, a1, Pos(41, 13), Initialized, [])] + [Declared(4, b1, Pos(42, 39), Initialized, [])] + [Referenced(4, a1, Pos(42, 49), false, false, [])] + [OutAssigned(4, [], [])], 0);
    WalkStmtsCons(For([Declare(i, Pos(44, 18), Initialized)] + ([Declare(a1, Pos(44, 27), Initialized)]), [Use(i, Pos(44, 36), false)], [], Exprs([])), [For([Declare(i, Pos(45, 18), Initialized)] + ([Declare(b1, Pos(45, 27), Initialized)]), [Use(i, Pos(45, 36), false)], [], Exprs([]))] + (rest), Ctx(4, [], []), Tree(tr.scopes, tr.events + [Declared(4, a1, Pos(41, 13), Initialized, [])] + [Declared(4, b1, Pos(42, 39), Initialized, [])] + [Referenced(4, a1, Pos(42, 49), false, false, [])] + [OutAssigned(4, [], [])], 0));
    Walk4(a1, b1, i, a2, a3, a4, a5, Tree(tr.scopes, tr.events + [Declared(4, a1, Pos(41, 13), Initialized, [])] + [Declared(4, b1, Pos(42, 39), Initialized, [])] + [Referenced(4, a1, Pos(42, 49), false, false, [])] + [OutAssigned(4, [], [])], 0));
    assert WalkStmt(For([Declare(i, Pos(44, 18), Initialized)] + ([Declare(a1, Pos(44, 27), Initialized)]), [Use(i, Pos(44, 36), false)], [], Exprs([])), Ctx(4, [], []), Tree(tr.scopes, tr.events + [Declared(4, a1, Pos(41, 13), Initialized, [])] + [Declared(4, b1, Pos(42, 39), Initialized, [])] + [Referenced(4, a1, Pos(42, 49), false, false, [])] + [OutAssigned(4, [], [])], 0)) == Tree(tr.scopes + [Scope(ForInit, Some(4))] + [Scope(ForLoop, Some(5))] + [Scope(EmbeddedBody, Some(6))], tr.events + [Declared(4, a1, Pos(41, 13), Initialized, [])] + [Declared(4, b1, Pos(42, 39), Initialized, [])] + [Referenced(4, a1, Pos(42, 49), false, false, [])] + [OutAssigned(4, [], [])] + [Declared(5, i, Pos(44, 18), Initialized, [])] + [Declared(5, a1, Pos(44, 27), Initialized, [])] + [Referenced(6, i, Pos(44, 36), false, false, [])], 1);
    WalkStmtsCons(For([Declare(i, Pos(45, 18), Initialized)] + ([Declare(b1, Pos(45, 27), Initialized)]), [Use(i, Pos(45, 36), false)], [], Exprs([])), rest, Ctx(4, [], []), Tree(tr.scopes + [Scope(ForInit, Some(4))] + [Scope(ForLoop, Some(5))] + [Scope(EmbeddedBody, Some(6))], tr.events + [Declared(4, a1, Pos(41, 13), Initialized, [])] + [Declared(4, b1, Pos(42, 39), Initialized, [])] + [Referenced(4, a1, Pos(42, 49), false, false, [])] + [OutAssigned(4, [], [])] + [Declared(5, i, Pos(44, 18), Initialized, [])] + [Declared(5, a1, Pos(44, 27), Initialized, [])] + [Referenced(6, i, Pos(44, 36), false, false, [])], 1));
    Walk5(a1, b1, i, a2, a3, a4, a5, Tree(tr.scopes + [Scope(ForInit, Some(4))] + [Scope(ForLoop, Some(5))] + [Scope(EmbeddedBody, Some(6))], tr.events + [Declared(4, a1, Pos(41, 13), Initialized, [])] + [Declared(4, b1, Pos(42, 39), Initialized, [])] + [Referenced(4, a1, Pos(42, 49), false, false, [])] + [OutAssigned(4, [], [])] + [Declared(5, i, Pos(44, 18), Initialized, [])] + [Declared(5, a1, Pos(44, 27), Initialized, [])] + [Referenced(6, i, Pos(44, 36), false, false, [])], 1));
    assert WalkStmt(For([Declare(i, Pos(45, 18), Initialized)] + ([Declare(b1, Pos(45, 27), Initialized)]), [Use(i, Pos(45, 36), false)], [], Exprs([])), Ctx(4, [], []), Tree(tr.scopes + [Scope(ForInit, Some(4))] + [Scope(ForLoop, Some(5))] + [Scope(EmbeddedBody, Some(6))], tr.events + [Declared(4, a1, Pos(41, 13), Initialized, [])] + [Declared(4, b1, Pos(42, 39), Initialized, [])] + [Referenced(4, a1, Pos(42, 49), false, false, [])] + [OutAssigned(4, [], [])] + [Declared(5, i, Pos(44, 18), Initialized, [])] + [Declared(5, a1, Pos(44, 27), Initialized, [])] + [Referenced(6, i, Pos(44, 36), false, false, [])], 1)) == Tree(tr.scopes + [Scope(ForInit, Some(4))] + [Scope(ForLoop, Some(5))] + [Scope(EmbeddedBody, Some(6))] + [Scope(ForInit, Some(4))] + [Scope(ForLoop, Some(8))] + [Scope(EmbeddedBody, Some(9))], tr.events + [Declared(4, a1, Pos(41, 13), Initialized, [])] + [Declared(4, b1, Pos(42, 39), Initialized, [])] + [Referenced(4, a1, Pos(42, 49), false, false, [])] + [OutAssigned(4, [], [])] + [Declared(5, i, Pos(44, 18), Initialized, [])] + [Declared(5, a1, Pos(44, 27), Initialized, [])] + [Referenced(6, i, Pos(44, 36), false, false, [])] + [Declared(8, i, Pos(45, 18), Initialized, [])] + [Declared(8, b1, Pos(45, 27), Initialized, [])] + [Referenced(9, i, Pos(45, 36), false, false, [])], 2);
  }

  lemma {:induction false} Walk7(a1: string, b1: string, i: string, a2: string, a3: string, a4: string, a5: string, tr: Tree)
    requires |tr.scopes| == 11 && tr.arms == 2
    ensures WalkStmt(Exprs([Declare(a2, Pos(47, 13), Initialized)]), Ctx(4, [], []), tr) == Tree(tr.scopes, tr.events + [Declared(4, a2, Pos(47, 13), Initialized, [])], 2)
  {
    WalkExprsOne(Declare(a2, Pos(47, 13), Initialized), Ctx(4, [], []), tr);
    assert WalkExpr(Declare(a2, Pos(47, 13), Initialized), Ctx(4, [], []), tr) == Tree(tr.scopes, tr.events + [Declared(4, a2, Pos(47, 13), Initialized, [])], 2);
    assert WalkExprs([Declare(a2, Pos(47, 13), Initialized)], Ctx(4, [], []), tr) == Tree(tr.scopes, tr.events + [Declared(4, a2, Pos(47, 13), Initialized, [])], 2);
    assert WalkStmt(Exprs([Declare(a2, Pos(47, 13), Initialized)]), Ctx(4, [], []), tr) == Tree(tr.scopes, tr.events + [Declared(4, a2, Pos(47, 13), Initialized, [])], 2);
  }

  lemma {:induction false} Walk8(a1: string, b1: string, i: string, a2: string, a3: string, a4: string, a5: string, tr: Tree)
    requires |tr.scopes| == 11 && tr.arms == 2
    ensures WalkStmt(Exprs([Call([Argument([Use(a2, Pos(48, 34), false)])])]), Ctx(4, [], []), tr) == Tree(tr.scopes, tr.events + [Referenced(4, a2, Pos(48, 34), false, false, [])] + [OutAssigned(4, [], [])], 2)
  {
    WalkExprsOne(Call([Argument([Use(a2, Pos(48, 34), false)])]), Ctx(4, [], []), tr);
    assert OutNames([]) == [];
    WalkArgsOne(Argument([Use(a2, Pos(48, 34), false)]), [], Ctx(4, [], []), tr);
    WalkExprsOne(Use(a2, Pos(48, 34), false), Ctx(4, [], []), tr);
    assert WalkExpr(Use(a2, Pos(48, 34), false), Ctx(4, [], []), tr) == Tree(tr.scopes, tr.events + [Referenced(4, a2, Pos(48, 34), false, false, [])], 2);
    assert WalkExprs([Use(a2, Pos(48, 34), false)], Ctx(4, [], []), tr) == Tree(tr.scopes, tr.events + [Referenced(4, a2, Pos(48, 34), false, false, [])], 2);
    OutNamesOfOne(Use(a2, Pos(48, 34), false));
    OutNamesSnoc([], Argument([Use(a2, Pos(48, 34), false)]));
    assert WalkArgs([Argument([Use(a2, Pos(48, 34), false)])], [], Ctx(4, [], []), tr) == Tree(tr.scopes, tr.events + [Referenced(4, a2, Pos(48, 34), false, false, [])], 2);
    assert OutNames([Argument([Use(a2, Pos(48, 34), false)])]) == [];
    assert WalkExpr(Call([Argument([Use(a2, Pos(48, 34), false)])]), Ctx(4, [], []), tr) == Tree(tr.scopes, tr.events + [Referenced(4, a2, Pos(48, 34), false, false, [])] + [OutAssigned(4, [], [])], 2);
    assert WalkExprs([Call([Argument([Use(a2, Pos(48, 34), false)])])], Ctx(4, [], []), tr) == Tree(tr.scopes, tr.events + [Referenced(4, a2, Pos(48, 34), false, false, [])] + [OutAssigned(4, [], [])], 2);
    assert WalkStmt(Exprs([Call([Argument([Use(a2, Pos(48, 34), false)])])]), Ctx(4, [], []), tr) == Tree(tr.scopes, tr.events + [Referenced(4, a2, Pos(48, 34), false, false, [])] + [OutAssigned(4, [], [])], 2);
  }

  lemma {:induction false} Walk9(a1: string, b1: string, i: string, a2: string, a3: string, a4: string, a5: string, tr: Tree)
    requires |tr.scopes| == 11 && tr.arms == 2
    ensures WalkStmt(For([Declare(i, Pos(49, 18), Initialized)], [Use(i, Pos(49, 25), false)] + ([Declare(a2, Pos(49, 34), Initialized)]), [], Exprs([])), Ctx(4, [], []), tr) == Tree(tr.scopes + [Scope(ForInit, Some(4))] + [Scope(ForLoop, Some(11))] + [Scope(EmbeddedBody, Some(12))], tr.events + [Declared(11, i, Pos(49, 18), Initialized, [])] + [Referenced(12, i, Pos(49, 25), false, false, [])] + [Declared(12, a2, Pos(49, 34), Initialized, [])], 3)
  {
    WalkExprsOne(Declare(i, Pos(49, 18), Initialized), Ctx(11, [], []), Tree(tr.scopes + [Scope(ForInit, Some(4))] + [Scope(ForLoop, Some(11))], tr.events, 2));
    assert WalkExpr(Declare(i, Pos(49, 18), Initialized), Ctx(11, [], []), Tree(tr.scopes + [Scope(ForInit, Some(4))] + [Scope(ForLoop, Some(11))], tr.events, 2)) == Tree(tr.scopes + [Scope(ForInit, Some(4))] + [Scope(ForLoop, Some(11))], tr.events + [Declared(11, i, Pos(49, 18), Initialized, [])], 2);
    assert WalkExprs([Declare(i, Pos(49, 18), Initialized)], Ctx(11, [], []), Tree(tr.scopes + [Scope(ForInit, Some(4))] + [Scope(ForLoop, Some(11))], tr.events, 2)) == Tree(tr.scopes + [Scope(ForInit, Some(4))] + [Scope(ForLoop, Some(11))], tr.events + [Declared(11, i, Pos(49, 18), Initialized, [])], 2);
    WalkExprsCons(Use(i, Pos(49, 25), false), [Declare(a2, Pos(49, 34), Initialized)], Ctx(12, [], []), Tree(tr.scopes + [Scope(ForInit, Some(4))] + [Scope(ForLoop, Some(11))], tr.events + [Declared(11, i, Pos(49, 18), Initialized, [])], 2));
    assert WalkExpr(Use(i, Pos(49, 25), false), Ctx(12, [], []), Tree(tr.scopes + [Scope(ForInit, Some(4))] + [Scope(ForLoop, Some(11))], tr.events + [Declared(11, i, Pos(49, 18), Initialized, [])], 2)) == Tree(tr.scopes + [Scope(ForInit, Some(4))] + [Scope(ForLoop, Some(11))], tr.events + [Declared(11, i, Pos(49, 18), Initialized, [])] + [Referenced(12, i, Pos(49, 25), false, false, [])], 2);
    WalkExprsOne(Declare(a2, Pos(49, 34), Initialized), Ctx(12, [], []), Tree(tr.scopes + [Scope(ForInit, Some(4))] + [Scope(ForLoop, Some(11))], tr.events + [Declared(11, i, Pos(49, 18), Initialized, [])] + [Referenced(12, i, Pos(49, 25), false, false, [])], 2));
    assert WalkExpr(Declare(a2, Pos(49, 34), Initialized), Ctx(12, [], []), Tree(tr.scopes + [Scope(ForInit, Some(4))] + [Scope(ForLoop, Some(11))], tr.events + [Declared(11, i, Pos(49, 18), Initialized, [])] + [Referenced(12, i, Pos(49, 25), false, false, [])], 2)) == Tree(tr.scopes + [Scope(ForInit, Some(4))] + [Scope(ForLoop, Some(11))], tr.events + [Declared(11, i, Pos(49, 18), Initialized, [])] + [Referenced(12, i, Pos(49, 25), false, false, [])] + [Declared(12, a2, Pos(49, 34), Initialized, [])], 2);
    assert WalkExprs([Use(i, Pos(49, 25), false)] + ([Declare(a2, Pos(49, 34), Initialized)]), Ctx(12, [], []), Tree(tr.scopes + [Scope(ForInit, Some(4))] + [Scope(ForLoop, Some(11))], tr.events + [Declared(11, i, Pos(49, 18), Initialized, [])], 2)) == Tree(tr.scopes + [Scope(ForInit, Some(4))] + [Scope(ForLoop, Some(11))], tr.events + [Declared(11, i, Pos(49, 18), Initialized, [])] + [Referenced(12, i, Pos(49, 25), false, false, [])] + [Declared(12, a2, Pos(49, 34), Initialized, [])], 2);
    assert [] + [2] == [2];
    assert WalkStmt(Exprs([]), Ctx(13, [2], []), Tree(tr.scopes + [Scope(ForInit, Some(4))] + [Scope(ForLoop, Some(11))] + [Scope(EmbeddedBody, Some(12))], tr.events + [Declared(11, i, Pos(49, 18), Initialized, [])] + [Referenced(12, i, Pos(49, 25), false, false, [])] + [Declared(12, a2, Pos(49, 34), Initialized, [])], 3)) == Tree(tr.scopes + [Scope(ForInit, Some(4))] + [Scope(ForLoop, Some(11))] + [Scope(EmbeddedBody, Some(12))], tr.events + [Declared(11, i, Pos(49, 18), Initialized, [])] + [Referenced(12, i, Pos(49, 25), false, false, [])] + [Declared(12, a2, Pos(49, 34), Initialized, [])], 3);
    assert WalkEmbedded(Exprs([]), Ctx(12, [2], []), Tree(tr.scopes + [Scope(ForInit, Some(4))] + [Scope(ForLoop, Some(11))], tr.events + [Declared(11, i, Pos(49, 18), Initialized, [])] + [Referenced(12, i, Pos(49, 25), false, false, [])] + [Declared(12, a2, Pos(49, 34), Initialized, [])], 3)) == Tree(tr.scopes + [Scope(ForInit, Some(4))] + [Scope(ForLoop, Some(11))] + [Scope(EmbeddedBody, Some(12))], tr.events + [Declared(11, i, Pos(49, 18), Initialized, [])] + [Referenced(12, i, Pos(49, 25), false, false, [])] + [Declared(12, a2, Pos(49, 34), Initialized, [])], 3);
    assert WalkStmt(For([Declare(i, Pos(49, 18), Initialized)], [Use(i, Pos(49, 25), false)] + ([Declare(a2, Pos(49, 34), Initialized)]), [], Exprs([])), Ctx(4, [], []), tr) == Tree(tr.scopes + [Scope(ForInit, Some(4))] + [Scope(ForLoop, Some(11))] + [Scope(EmbeddedBody, Some(12))], tr.events + [Declared(11, i, Pos(49, 18), Initialized, [])] + [Referenced(12, i, Pos(49, 25), false, false, [])] + [Declared(12, a2, Pos(49, 34), Initialized, [])], 3);
  }

  lemma {:induction false} Walk10(a1: string, b1: string, i: string, a2: string, a3: string, a4: string, a5: string, tr: Tree)
    requires |tr.scopes| == 14 && tr.arms == 3
    ensures WalkStmt(Exprs([Declare(a3, Pos(51, 13), Initialized)]), Ctx(4, [], []), tr) == Tree(tr.scopes, tr.events + [Declared(4, a3, Pos(51, 13), Initialized, [])], 3)
  {
    WalkExprsOne(Declare(a3, Pos(51, 13), Initialized), Ctx(4, [], []), tr);
    assert WalkExpr(Declare(a3, Pos(51, 13), Initialized), Ctx(4, [], []), tr) == Tree(tr.scopes, tr.events + [Declared(4, a3, Pos(51, 13), Initialized, [])], 3);
    assert WalkExprs([Declare(a3, Pos(51, 13), Initialized)], Ctx(4, [], []), tr) == Tree(tr.scopes, tr.events + [Declared(4, a3, Pos(51, 13), Initialized, [])], 3);
    assert WalkStmt(Exprs([Declare(a3, Pos(51, 13), Initialized)]), Ctx(4, [], []), tr) == Tree(tr.scopes, tr.events + [Declared(4, a3, Pos(51, 13), Initialized, [])], 3);
  }

  lemma {:induction false} Stmts6(a1: string, b1: string, i: string, a2: string, a3: string, a4: string, a5: string, tr: Tree, rest: seq<Stmt>)
    requires |tr.scopes| == 11 && tr.arms == 2
    ensures WalkStmts([Exprs([Declare(a2, Pos(47, 13), Initialized)])] + ([Exprs([Call([Argument([Use(a2, Pos(48, 34), false)])])])] + ([For([Declare(i, Pos(49, 18), Initialized)], [Use(i, Pos(49, 25), false)] + ([Declare(a2, Pos(49, 34), Initialized)]), [], Exprs([]))] + ([Exprs([Declare(a3, Pos(51, 13), Initialized)])] + (rest)))), Ctx(4, [], []), tr) == WalkStmts(rest, Ctx(4, [], []), Tree(tr.scopes + [Scope(ForInit, Some(4))] + [Scope(ForLoop, Some(11))] + [Scope(EmbeddedBody, Some(12))], tr.events + [Declared(4, a2, Pos(47, 13), Initialized, [])] + [Referenced(4, a2, Pos(48, 34), false, false, [])] + [OutAssigned(4, [], [])] + [Declared(11, i, Pos(49, 18), Initialized, [])] + [Referenced(12, i, Pos(49, 25), false, false, [])] + [Declared(12, a2, Pos(49, 34), Initialized, [])] + [Declared(4, a3, Pos(51, 13), Initialized, [])], 3))
  {
    WalkStmtsCons(Exprs([Declare(a2, Pos(47, 13), Initialized)]), [Exprs([Call([Argument([Use(a2, Pos(48, 34), false)])])])] + ([For([Declare(i, Pos(49, 18), Initialized)], [Use(i, Pos(49, 25), false)] + ([Declare(a2, Pos(49, 34), Initialized)]), [], Exprs([]))] + ([Exprs([Declare(a3, Pos(51, 13), Initialized)])] + (rest))), Ctx(4, [], []), tr);
    Walk7(a1, b1, i, a2, a3, a4, a5, tr);
    assert WalkStmt(Exprs([Declare(a2, Pos(47, 13), Initialized)]), Ctx(4, [], []), tr) == Tree(tr.scopes, tr.events + [Declared(4, a2, Pos(47, 13), Initialized, [])], 2);
    WalkStmtsCons(Exprs([Call([Argument([Use(a2, Pos(48, 34), false)])])]), [For([Declare(i, Pos(49, 18), Initialized)], [Use(i, Pos(49, 25), false)] + ([Declare(a2, Pos(49, 34), Initialized)]), [], Exprs([]))] + ([Exprs([Declare(a3, Pos(51, 13), Initialized)])] + (rest)), Ctx(4, [], []), Tree(tr.scopes, tr.events + [Declared(4, a2, Pos(47, 13), Initialized, [])], 2));
    Walk8(a1, b1, i, a2, a3, a4, a5, Tree(tr.scopes, tr.events + [Declared(4, a2, Pos(47, 13), Initialized, [])], 2));
    assert WalkStmt(Exprs([Call([Argument([Use(a2, Pos(48, 34), false)])])]), Ctx(4, [], []), Tree(tr.scopes, tr.events + [Declared(4, a2, Pos(47, 13), Initialized, [])], 2)) == Tree(tr.scopes, tr.events + [Declared(4, a2, Pos(47, 13), Initialized, [])] + [Referenced(4, a2, Pos(48, 34), false, false, [])] + [OutAssigned(4, [], [])], 2);
    WalkStmtsCons(For([Declare(i, Pos(49, 18), Initialized)], [Use(i, Pos(49, 25), false)] + ([Declare(a2, Pos(49, 34), Initialized)]), [], Exprs([])), [Exprs([Declare(a3, Pos(51, 13), Initialized)])] + (rest), Ctx(4, [], []), Tree(tr.scopes, tr.events + [Declared(4, a2, Pos(47, 13), Initialized, [])] + [Referenced(4, a2, Pos(48, 34), false, false, [])] + [OutAssigned(4, [], [])], 2));
    Walk9(a1, b1, i, a2, a3, a4, a5, Tree(tr.scopes, tr.events + [Declared(4, a2, Pos(47, 13), Initialized, [])] + [Referenced(4, a2, Pos(48, 34), false, false, [])] + [OutAssigned(4, [], [])], 2));
    assert WalkStmt(For([Declare(i, Pos(49, 18), Initialized)], [Use(i, Pos(49, 25), false)] + ([Declare(a2, Pos(49, 34), Initialized)]), [], Exprs([])), Ctx(4, [], []), Tree(tr.scopes, tr.events + [Declared(4, a2, Pos(47, 13), Initialized, [])] + [Referenced(4, a2, Pos(48, 34), false, false, [])] + [OutAssigned(4, [], [])], 2)) == Tree(tr.scopes + [Scope(ForInit, Some(4))] + [Scope(ForLoop, Some(11))] + [Scope(EmbeddedBody, Some(12))], tr.events + [Declared(4, a2, Pos(47, 13), Initialized, [])] + [Referenced(4, a2, Pos(48, 34), false, false, [])] + [OutAssigned(4, [], [])] + [Declared(11, i, Pos(49, 18), Initialized, [])] + [Referenced(12, i, Pos(49, 25), false, false, [])] + [Declared(12, a2, Pos(49, 34), Initialized, [])], 3);
    WalkStmtsCons(Exprs([Declare(a3, Pos(51, 13), Initialized)]), rest, Ctx(4, [], []), Tree(tr.scopes + [Scope(ForInit, Some(4))] + [Scope(ForLoop, Some(11))] + [Scope(EmbeddedBody, Some(12))], tr.events + [Declared(4, a2, Pos(47, 13), Initialized, [])] + [Referenced(4, a2, Pos(48, 34), false, false, [])] + [OutAssigned(4, [], [])] + [Declared(11, i, Pos(49, 18), Initialized, [])] + [Referenced(12, i, Pos(49, 25), false, false, [])] + [Declared(12, a2, Pos(49, 34), Initialized, [])], 3));
    Walk10(a1, b1, i, a2, a3, a4, a5, Tree(tr.scopes + [Scope(ForInit, Some(4))] + [Scope(ForLoop, Some(11))] + [Scope(EmbeddedBody, Some(12))], tr.events + [Declared(4, a2, Pos(47, 13), Initialized, [])] + [Referenced(4, a2, Pos(48, 34), false, false, [])] + [OutAssigned(4, [], [])] + [Declared(11, i, Pos(49, 18), Initialized, [])] + [Referenced(12, i, Pos(49, 25), false, false, [])] + [Declared(12, a2, Pos(49, 34), Initialized, [])], 3));
    assert WalkStmt(Exprs([Declare(a3, Pos(51, 13), Initialized)]), Ctx(4, [], []), Tree(tr.scopes + [Scope(ForInit, Some(4))] + [Scope(ForLoop, Some(11))] + [Scope(EmbeddedBody, Some(12))], tr.events + [Declared(4, a2, Pos(47, 13), Initialized, [])] + [Referenced(4, a2, Pos(48, 34), false, false, [])] + [OutAssigned(4, [], [])] + [Declared(11, i, Pos(49, 18), Initialized, [])] + [Referenced(12, i, Pos(49, 25), false, false, [])] + [Declared(12, a2, Pos(49, 34), Initialized, [])], 3)) == Tree(tr.scopes + [Scope(ForInit, Some(4))] + [Scope(ForLoop, Some(11))] + [Scope(EmbeddedBody, Some(12))], tr.events + [Declared(4, a2, Pos(47, 13), Initialized, [])] + [Referenced(4, a2, Pos(48, 34), false, false, [])] + [OutAssigned(4, [], [])] + [Declared(11, i, Pos(49, 18), Initialized, [])] + [Referenced(12, i, Pos(49, 25), false, false, [])] + [Declared(12, a2, Pos(49, 34), Initialized, [])] + [Declared(4, a3, Pos(51, 13), Initialized, [])], 3);
  }

  lemma {:induction false} Walk12(a1: string, b1: string, i: string, a2: string, a3: string, a4: string, a5: string, tr: Tree)
    requires |tr.scopes| == 14 && tr.arms == 3
    ensures WalkStmt(Exprs([Call([Argument([Use(a3, Pos(52, 34), false)])])]), Ctx(4, [], []), tr) == Tree(tr.scopes, tr.events + [Referenced(4, a3, Pos(52, 34), false, false, [])] + [OutAssigned(4, [], [])], 3)
  {
    WalkExprsOne(Call([Argument([Use(a3, Pos(52, 34), false)])]), Ctx(4, [], []), tr);
    assert OutNames([]) == [];
    WalkArgsOne(Argument([Use(a3, Pos(52, 34), false)]), [], Ctx(4, [], []), tr);
    WalkExprsOne(Use(a3, Pos(52, 34), false), Ctx(4, [], []), tr);
    assert WalkExpr(Use(a3, Pos(52, 34), false), Ctx(4, [], []), tr) == Tree(tr.scopes, tr.events + [Referenced(4, a3, Pos(52, 34), false, false, [])], 3);
    assert WalkExprs([Use(a3, Pos(52, 34), false)], Ctx(4, [], []), tr) == Tree(tr.scopes, tr.events + [Referenced(4, a3, Pos(52, 34), false, false, [])], 3);
    OutNamesOfOne(Use(a3, Pos(52, 34), false));
    OutNamesSnoc([], Argument([Use(a3, Pos(52, 34), false)]));
    assert WalkArgs([Argument([Use(a3, Pos(52, 34), false)])], [], Ctx(4, [], []), tr) == Tree(tr.scopes, tr.events + [Referenced(4, a3, Pos(52, 34), false, false, [])], 3);
    assert OutNames([Argument([Use(a3, Pos(52, 34), false)])]) == [];
    assert WalkExpr(Call([Argument([Use(a3, Pos(52, 34), false)])]), Ctx(4, [], []), tr) == Tree(tr.scopes, tr.events + [Referenced(4, a3, Pos(52, 34), false, false, [])] + [OutAssigned(4, [], [])], 3);
    assert WalkExprs([Call([Argument([Use(a3, Pos(52, 34), false)])])], Ctx(4, [], []), tr) == Tree(tr.scopes, tr.events + [Referenced(4, a3, Pos(52, 34), false, false, [])] + [OutAssigned(4, [], [])], 3);
    assert WalkStmt(Exprs([Call([Argument([Use(a3, Pos(52, 34), false)])])]), Ctx(4, [], []), tr) == Tree(tr.scopes, tr.events + [Referenced(4, a3, Pos(52, 34), false, false, [])] + [OutAssigned(4, [], [])], 3);
  }

  lemma {:induction false} Walk13(a1: string, b1: string, i: string, a2: string, a3: string, a4: string, a5: string, tr: Tree)
    requires |tr.scopes| == 14 && tr.arms == 3
    ensures WalkStmt(For([Declare(i, Pos(53, 18), Initialized)], [Use(i, Pos(53, 25), false)], [Use(i, Pos(53, 32), false)] + ([Declare(a3, Pos(53, 41), Initialized)]), Exprs([])), Ctx(4, [], []), tr) == Tree(tr.scopes + [Scope(ForInit, Some(4))] + [Scope(ForLoop, Some(14))] + [Scope(EmbeddedBody, Some(15))], tr.events + [Declared(14, i, Pos(53, 18), Initialized, [])] + [Referenced(15, i, Pos(53, 25), false, false, [])] + [Referenced(15, i, Pos(53, 32), false, false, [3])] + [Declared(15, a3, Pos(53, 41), Initialized, [3])], 4)
  {
    WalkExprsOne(Declare(i, Pos(53, 18), Initialized), Ctx(14, [], []), Tree(tr.scopes + [Scope(ForInit, Some(4))] + [Scope(ForLoop, Some(14))], tr.events, 3));
    assert WalkExpr(Declare(i, Pos(53, 18), Initialized), Ctx(14, [], []), Tree(tr.scopes + [Scope(ForInit, Some(4))] + [Scope(ForLoop, Some(14))], tr.events, 3)) == Tree(tr.scopes + [Scope(ForInit, Some(4))] + [Scope(ForLoop, Some(14))], tr.events + [Declared(14, i, Pos(53, 18), Initialized, [])], 3);
    assert WalkExprs([Declare(i, Pos(53, 18), Initialized)], Ctx(14, [], []), Tree(tr.scopes + [Scope(ForInit, Some(4))] + [Scope(ForLoop, Some(14))], tr.events, 3)) == Tree(tr.scopes + [Scope(ForInit, Some(4))] + [Scope(ForLoop, Some(14))], tr.events + [Declared(14, i, Pos(53, 18), Initialized, [])], 3);
    WalkExprsOne(Use(i, Pos(53, 25), false), Ctx(15, [], []), Tree(tr.scopes + [Scope(ForInit, Some(4))] + [Scope(ForLoop, Some(14))], tr.events + [Declared(14, i, Pos(53, 18), Initialized, [])], 3));
    assert WalkExpr(Use(i, Pos(53, 25), false), Ctx(15, [], []), Tree(tr.scopes + [Scope(ForInit, Some(4))] + [Scope(ForLoop, Some(14))], tr.events + [Declared(14, i, Pos(53, 18), Initialized, [])], 3)) == Tree(tr.scopes + [Scope(ForInit, Some(4))] + [Scope(ForLoop, Some(14))], tr.events + [Declared(14, i, Pos(53, 18), Initialized, [])] + [Referenced(15, i, Pos(53, 25), false, false, [])], 3);
    assert WalkExprs([Use(i, Pos(53, 25), false)], Ctx(15, [], []), Tree(tr.scopes + [Scope(ForInit, Some(4))] + [Scope(ForLoop, Some(14))], tr.events + [Declared(14, i, Pos(53, 18), Initialized, [])], 3)) == Tree(tr.scopes + [Scope(ForInit, Some(4))] + [Scope(ForLoop, Some(14))], tr.events + [Declared(14, i, Pos(53, 18), Initialized, [])] + [Referenced(15, i, Pos(53, 25), false, false, [])], 3);
    assert [] + [3] == [3];
    assert WalkStmt(Exprs([]), Ctx(16, [3], []), Tree(tr.scopes + [Scope(ForInit, Some(4))] + [Scope(ForLoop, Some(14))] + [Scope(EmbeddedBody, Some(15))], tr.events + [Declared(14, i, Pos(53, 18), Initialized, [])] + [Referenced(15, i, Pos(53, 25), false, false, [])], 4)) == Tree(tr.scopes + [Scope(ForInit, Some(4))] + [Scope(ForLoop, Some(14))] + [Scope(EmbeddedBody, Some(15))], tr.events + [Declared(14, i, Pos(53, 18), Initialized, [])] + [Referenced(15, i, Pos(53, 25), false, false, [])], 4);
    assert WalkEmbedded(Exprs([]), Ctx(15, [3], []), Tree(tr.scopes + [Scope(ForInit, Some(4))] + [Scope(ForLoop, Some(14))], tr.events + [Declared(14, i, Pos(53, 18), Initialized, [])] + [Referenced(15, i, Pos(53, 25), false, false, [])], 4)) == Tree(tr.scopes + [Scope(ForInit, Some(4))] + [Scope(ForLoop, Some(14))] + [Scope(EmbeddedBody, Some(15))], tr.events + [Declared(14, i, Pos(53, 18), Initialized, [])] + [Referenced(15, i, Pos(53, 25), false, false, [])], 4);
    WalkExprsCons(Use(i, Pos(53, 32), false), [Declare(a3, Pos(53, 41), Initialized)], Ctx(15, [3], []), Tree(tr.scopes + [Scope(ForInit, Some(4))] + [Scope(ForLoop, Some(14))] + [Scope(EmbeddedBody, Some(15))], tr.events + [Declared(14, i, Pos(53, 18), Initialized, [])] + [Referenced(15, i, Pos(53, 25), false, false, [])], 4));
    assert WalkExpr(Use(i, Pos(53, 32), false), Ctx(15, [3], []), Tree(tr.scopes + [Scope(ForInit, Some(4))] + [Scope(ForLoop, Some(14))] + [Scope(EmbeddedBody, Some(15))], tr.events + [Declared(14, i, Pos(53, 18), Initialized, [])] + [Referenced(15, i, Pos(53, 25), false, false, [])], 4)) == Tree(tr.scopes + [Scope(ForInit, Some(4))] + [Scope(ForLoop, Some(14))] + [Scope(EmbeddedBody, Some(15))], tr.events + [Declared(14, i, Pos(53, 18), Initialized, [])] + [Referenced(15, i, Pos(53, 25), false, false, [])] + [Referenced(15, i, Pos(53, 32), false, false, [3])], 4);
    WalkExprsOne(Declare(a3, Pos(53, 41), Initialized), Ctx(15, [3], []), Tree(tr.scopes + [Scope(ForInit, Some(4))] + [Scope(ForLoop, Some(14))] + [Scope(EmbeddedBody, Some(15))], tr.events + [Declared(14, i, Pos(53, 18), Initialized, [])] + [Referenced(15, i, Pos(53, 25), false, false, [])] + [Referenced(15, i, Pos(53, 32), false, false, [3])], 4));
    assert WalkExpr(Declare(a3, Pos(53, 41), Initialized), Ctx(15, [3], []), Tree(tr.scopes + [Scope(ForInit, Some(4))] + [Scope(ForLoop, Some(14))] + [Scope(EmbeddedBody, Some(15))], tr.events + [Declared(14, i, Pos(53, 18), Initialized, [])] + [Referenced(15, i, Pos(53, 25), false, false, [])] + [Referenced(15, i, Pos(53, 32), false, false, [3])], 4)) == Tree(tr.scopes + [Scope(ForInit, Some(4))] + [Scope(ForLoop, Some(14))] + [Scope(EmbeddedBody, Some(15))], tr.events + [Declared(14, i, Pos(53, 18), Initialized, [])] + [Referenced(15, i, Pos(53, 25), false, false, [])] + [Referenced(15, i, Pos(53, 32), false, false, [3])] + [Declared(15, a3, Pos(53, 41), Initialized, [3])], 4);
    assert WalkExprs([Use(i, Pos(53, 32), false)] + ([Declare(a3, Pos(53, 41), Initialized)]), Ctx(15, [3], []), Tree(tr.scopes + [Scope(ForInit, Some(4))] + [Scope(ForLoop, Some(14))] + [Scope(EmbeddedBody, Some(15))], tr.events + [Declared(14, i, Pos(53, 18), Initialized, [])] + [Referenced(15, i, Pos(53, 25), false, false, [])], 4)) == Tree(tr.scopes + [Scope(ForInit, Some(4))] + [Scope(ForLoop, Some(14))] + [Scope(EmbeddedBody, Some(15))], tr.events + [Declared(14, i, Pos(53, 18), Initialized, [])] + [Referenced(15, i, Pos(53, 25), false, false, [])] + [Referenced(15, i, Pos(53, 32), false, false, [3])] + [Declared(15, a3, Pos(53, 41), Initialized, [3])], 4);
    assert WalkStmt(For([Declare(i, Pos(53, 18), Initialized)], [Use(i, Pos(53, 25), false)], [Use(i, Pos(53, 32), false)] + ([Declare(a3, Pos(53, 41), Initialized)]), Exprs([])), Ctx(4, [], []), tr) == Tree(tr.scopes + [Scope(ForInit, Some(4))] + [Scope(ForLoop, Some(14))] + [Scope(EmbeddedBody, Some(15))], tr.events + [Declared(14, i, Pos(53, 18), Initialized, [])] + [Referenced(15, i, Pos(53, 25), false, false, [])] + [Referenced(15, i, Pos(53, 32), false, false, [3])] + [Declared(15, a3, Pos(53, 41), Initialized, [3])], 4);
  }

  lemma {:induction false} Walk14(a1: string, b1: string, i: string, a2: string, a3: string, a4: string, a5: string, tr: Tree)
    requires |tr.scopes| == 17 && tr.arms == 4
    ensures WalkStmt(Exprs([Declare(a4, Pos(55, 13), Initialized)]), Ctx(4, [], []), tr) == Tree(tr.scopes, tr.events + [Declared(4, a4, Pos(55, 13), Initialized, [])], 4)
  {
    WalkExprsOne(Declare(a4, Pos(55, 13), Initialized), Ctx(4, [], []), tr);
    assert WalkExpr(Declare(a4, Pos(55, 13), Initialized), Ctx(4, [], []), tr) == Tree(tr.scopes, tr.events + [Declared(4, a4, Pos(55, 13), Initialized, [])], 4);
    assert WalkExprs([Declare(a4, Pos(55, 13), Initialized)], Ctx(4, [], []), tr) == Tree(tr.scopes, tr.events + [Declared(4, a4, Pos(55, 13), Initialized, [])], 4);
    assert WalkStmt(Exprs([Declare(a4, Pos(55, 13), Initialized)]), Ctx(4, [], []), tr) == Tree(tr.scopes, tr.events + [Declared(4, a4, Pos(55, 13), Initialized, [])], 4);
  }

  lemma {:induction false} Walk15(a1: string, b1: string, i: string, a2: string, a3: string, a4: string, a5: string, tr: Tree)
    requires |tr.scopes| == 17 && tr.arms == 4
    ensures WalkStmt(Exprs([Call([Argument([Use(a4, Pos(56, 34), false)])])]), Ctx(4, [], []), tr) == Tree(tr.scopes, tr.events + [Referenced(4, a4, Pos(56, 34), false, false, [])] + [OutAssigned(4, [], [])], 4)
  {
    WalkExprsOne(Call([Argument([Use(a4, Pos(56, 34), false)])]), Ctx(4, [], []), tr);
    assert OutNames([]) == [];
    WalkArgsOne(Argument([Use(a4, Pos(56, 34), false)]), [], Ctx(4, [], []), tr);
    WalkExprsOne(Use(a4, Pos(56, 34), false), Ctx(4, [], []), tr);
    assert WalkExpr(Use(a4, Pos(56, 34), false), Ctx(4, [], []), tr) == Tree(tr.scopes, tr.events + [Referenced(4, a4, Pos(56, 34), false, false, [])], 4);
    assert WalkExprs([Use(a4, Pos(56, 34), false)], Ctx(4, [], []), tr) == Tree(tr.scopes, tr.events + [Referenced(4, a4, Pos(56, 34), false, false, [])], 4);
    OutNamesOfOne(Use(a4, Pos(56, 34), false));
    OutNamesSnoc([], Argument([Use(a4, Pos(56, 34), false)]));
    assert WalkArgs([Argument([Use(a4, Pos(56, 34), false)])], [], Ctx(4, [], []), tr) == Tree(tr.scopes, tr.events + [Referenced(4, a4, Pos(56, 34), false, false, [])], 4);
    assert OutNames([Argument([Use(a4, Pos(56, 34), false)])]) == [];
    assert WalkExpr(Call([Argument([Use(a4, Pos(56, 34), false)])]), Ctx(4, [], []), tr) == Tree(tr.scopes, tr.events + [Referenced(4, a4, Pos(56, 34), false, false, [])] + [OutAssigned(4, [], [])], 4);
    assert WalkExprs([Call([Argument([Use(a4, Pos(56, 34), false)])])], Ctx(4, [], []), tr) == Tree(tr.scopes, tr.events + [Referenced(4, a4, Pos(56, 34), false, false, [])] + [OutAssigned(4, [], [])], 4);
    assert WalkStmt(Exprs([Call([Argument([Use(a4, Pos(56, 34), false)])])]), Ctx(4, [], []), tr) == Tree(tr.scopes, tr.events + [Referenced(4, a4, Pos(56, 34), false, false, [])] + [OutAssigned(4, [], [])], 4);
  }

  lemma {:induction false} Stmts11(a1: string, b1: string, i: string, a2: string, a3: string, a4: string, a5: string, tr: Tree, rest: seq<Stmt>)
    requires |tr.scopes| == 14 && tr.arms == 3
    ensures WalkStmts([Exprs([Call([Argument([Use(a3, Pos(52, 34), false)])])])] + ([For([Declare(i, Pos(53, 18), Initialized)], [Use(i, Pos(53, 25), false)], [Use(i, Pos(53, 32), false)] + ([Declare(a3, Pos(53, 41), Initialized)]), Exprs([]))] + ([Exprs([Declare(a4, Pos(55, 13), Initialized)])] + ([Exprs([Call([Argument([Use(a4, Pos(56, 34), false)])])])] + (rest)))), Ctx(4, [], []), tr) == WalkStmts(rest, Ctx(4, [], []), Tree(tr.scopes + [Scope(ForInit, Some(4))] + [Scope(ForLoop, Some(14))] + [Scope(EmbeddedBody, Some(15))], tr.events + [Referenced(4, a3, Pos(52, 34), false, false, [])] + [OutAssigned(4, [], [])] + [Declared(14, i, Pos(53, 18), Initialized, [])] + [Referenced(15, i, Pos(53, 25), false, false, [])] + [Referenced(15, i, Pos(53, 32), false, false, [3])] + [Declared(15, a3, Pos(53, 41), Initialized, [3])] + [Declared(4, a4, Pos(55, 13), Initialized, [])] + [Referenced(4, a4, Pos(56, 34), false, false, [])] + [OutAssigned(4, [], [])], 4))
  {
    WalkStmtsCons(Exprs([Call([Argument([Use(a3, Pos(52, 34), false)])])]), [For([Declare(i, Pos(53, 18), Initialized)], [Use(i, Pos(53, 25), false)], [Use(i, Pos(53, 32), false)] + ([Declare(a3, Pos(53, 41), Initialized)]), Exprs([]))] + ([Exprs([Declare(a4, Pos(55, 13), Initialized)])] + ([Exprs([Call([Argument([Use(a4, Pos(56, 34), false)])])])] + (rest))), Ctx(4, [], []), tr);
    Walk12(a1, b1, i, a2, a3, a4, a5, tr);
    assert WalkStmt(Exprs([Call([Argument([Use(a3, Pos(52, 34), false)])])]), Ctx(4, [], []), tr) == Tree(tr.scopes, tr.events + [Referenced(4, a3, Pos(52, 34), false, false, [])] + [OutAssigned(4, [], [])], 3);
    WalkStmtsCons(For([Declare(i, Pos(53, 18), Initialized)], [Use(i, Pos(53, 25), false)], [Use(i, Pos(53, 32), false)] + ([Declare(a3, Pos(53, 41), Initialized)]), Exprs([])), [Exprs([Declare(a4, Pos(55, 13), Initialized)])] + ([Exprs([Call([Argument([Use(a4, Pos(56, 34), false)])])])] + (rest)), Ctx(4, [], []), Tree(tr.scopes, tr.events + [Referenced(4, a3, Pos(52, 34), false, false, [])] + [OutAssigned(4, [], [])], 3));
    Walk13(a1, b1, i, a2, a3, a4, a5, Tree(tr.scopes, tr.events + [Referenced(4, a3, Pos(52, 34), false, false, [])] + [OutAssigned(4, [], [])], 3));
    assert WalkStmt(For([Declare(i, Pos(53, 18), Initialized)], [Use(i, Pos(53, 25), false)], [Use(i, Pos(53, 32), false)] + ([Declare(a3, Pos(53, 41), Initialized)]), Exprs([])), Ctx(4, [], []), Tree(tr.scopes, tr.events + [Referenced(4, a3, Pos(52, 34), false, false, [])] + [OutAssigned(4, [], [])], 3)) == Tree(tr.scopes + [Scope(ForInit, Some(4))] + [Scope(ForLoop, Some(14))] + [Scope(EmbeddedBody, Some(15))], tr.events + [Referenced(4, a3, Pos(52, 34), false, false, [])] + [OutAssigned(4, [], [])] + [Declared(14, i, Pos(53, 18), Initialized, [])] + [Referenced(15, i, Pos(53, 25), false, false, [])] + [Referenced(15, i, Pos(53, 32), false, false, [3])] + [Declared(15, a3, Pos(53, 41), Initialized, [3])], 4);
    WalkStmtsCons(Exprs([Declare(a4, Pos(55, 13), Initialized)]), [Exprs([Call([Argument([Use(a4, Pos(56, 34), false)])])])] + (rest), Ctx(4, [], []), Tree(tr.scopes + [Scope(ForInit, Some(4))] + [Scope(ForLoop, Some(14))] + [Scope(EmbeddedBody, Some(15))], tr.events + [Referenced(4, a3, Pos(52, 34), false, false, [])] + [OutAssigned(4, [], [])] + [Declared(14, i, Pos(53, 18), Initialized, [])] + [Referenced(15, i, Pos(53, 25), false, false, [])] + [Referenced(15, i, Pos(53, 32), false, false, [3])] + [Declared(15, a3, Pos(53, 41), Initialized, [3])], 4));
    Walk14(a1, b1, i, a2, a3, a4, a5, Tree(tr.scopes + [Scope(ForInit, Some(4))] + [Scope(ForLoop, Some(14))] + [Scope(EmbeddedBody, Some(15))], tr.events + [Referenced(4, a3, Pos(52, 34), false, false, [])] + [OutAssigned(4, [], [])] + [Declared(14, i, Pos(53, 18), Initialized, [])] + [Referenced(15, i, Pos(53, 25), false, false, [])] + [Referenced(15, i, Pos(53, 32), false, false, [3])] + [Declared(15, a3, Pos(53, 41), Initialized, [3])], 4));
    assert WalkStmt(Exprs([Declare(a4, Pos(55, 13), Initialized)]), Ctx(4, [], []), Tree(tr.scopes + [Scope(ForInit, Some(4))] + [Scope(ForLoop, Some(14))] + [Scope(EmbeddedBody, Some(15))], tr.events + [Referenced(4, a3, Pos(52, 34), false, false, [])] + [OutAssigned(4, [], [])] + [Declared(14, i, Pos(53, 18), Initialized, [])] + [Referenced(15, i, Pos(53, 25), false, false, [])] + [Referenced(15, i, Pos(53, 32), false, false, [3])] + [Declared(15, a3, Pos(53, 41), Initialized, [3])], 4)) == Tree(tr.scopes + [Scope(ForInit, Some(4))] + [Scope(ForLoop, Some(14))] + [Scope(EmbeddedBody, Some(15))], tr.events + [Referenced(4, a3, Pos(52, 34), false, false, [])] + [OutAssigned(4, [], [])] + [Declared(14, i, Pos(53, 18), Initialized, [])] + [Referenced(15, i, Pos(53, 25), false, false, [])] + [Referenced(15, i, Pos(53, 32), false, false, [3])] + [Declared(15, a3, Pos(53, 41), Initialized, [3])] + [Declared(4, a4, Pos(55, 13), Initialized, [])], 4);
    WalkStmtsCons(Exprs([Call([Argument([Use(a4, Pos(56, 34), false)])])]), rest, Ctx(4, [], []), Tree(tr.scopes + [Scope(ForInit, Some(4))] + [Scope(ForLoop, Some(14))] + [Scope(EmbeddedBody, Some(15))], tr.events + [Referenced(4, a3, Pos(52, 34), false, false, [])] + [OutAssigned(4, [], [])] + [Declared(14, i, Pos(53, 18), Initialized, [])] + [Referenced(15, i, Pos(53, 25), false, false, [])] + [Referenced(15, i, Pos(53, 32), false, false, [3])] + [Declared(15, a3, Pos(53, 41), Initialized, [3])] + [Declared(4, a4, Pos(55, 13), Initialized, [])], 4));
    Walk15(a1, b1, i, a2, a3, a4, a5, Tree(tr.scopes + [Scope(ForInit, Some(4))] + [Scope(ForLoop, Some(14))] + [Scope(EmbeddedBody, Some(15))], tr.events + [Referenced(4, a3, Pos(52, 34), false, false, [])] + [OutAssigned(4, [], [])] + [Declared(14, i, Pos(53, 18), Initialized, [])] + [Referenced(15, i, Pos(53, 25), false, false, [])] + [Referenced(15, i, Pos(53, 32), false, false, [3])] + [Declared(15, a3, Pos(53, 41), Initialized, [3])] + [Declared(4, a4, Pos(55, 13), Initialized, [])], 4));
    assert WalkStmt(Exprs([Call([Argument([Use(a4, Pos(56, 34), false)])])]), Ctx(4, [], []), Tree(tr.scopes + [Scope(ForInit, Some(4))] + [Scope(ForLoop, Some(14))] + [Scope(EmbeddedBody, Some(15))], tr.events + [Referenced(4, a3, Pos(52, 34), false, false, [])] + [OutAssigned(4, [], [])] + [Declared(14, i, Pos(53, 18), Initialized, [])] + [Referenced(15, i, Pos(53, 25), false, false, [])] + [Referenced(15, i, Pos(53, 32), false, false, [3])] + [Declared(15, a3, Pos(53, 41), Initialized, [3])] + [Declared(4, a4, Pos(55, 13), Initialized, [])], 4)) == Tree(tr.scopes + [Scope(ForInit, Some(4))] + [Scope(ForLoop, Some(14))] + [Scope(EmbeddedBody, Some(15))], tr.events + [Referenced(4, a3, Pos(52, 34), false, false, [])] + [OutAssigned(4, [], [])] + [Declared(14, i, Pos(53, 18), Initialized, [])] + [Referenced(15, i, Pos(53, 25), false, false, [])] + [Referenced(15, i, Pos(53, 32), false, false, [3])] + [Declared(15, a3, Pos(53, 41), Initialized, [3])] + [Declared(4, a4, Pos(55, 13), Initialized, [])] + [Referenced(4, a4, Pos(56, 34), false, false, [])] + [OutAssigned(4, [], [])], 4);
  }

  lemma {:induction false} Walk17(a1: string, b1: string, i: string, a2: string, a3: string, a4: string, a5: string, tr: Tree)
    requires |tr.scopes| == 17 && tr.arms == 4
    ensures WalkStmt(For([Declare(i, Pos(57, 18), Initialized)], [Use(i, Pos(57, 25), false)], [Use(i, Pos(57, 32), false)], Exprs([Call([Argument([Declare(a4, Pos(58, 42), Initialized)])])])), Ctx(4, [], []), tr) == Tree(tr.scopes + [Scope(ForInit, Some(4))] + [Scope(ForLoop, Some(17))] + [Scope(EmbeddedBody, Some(18))], tr.events + [Declared(17, i, Pos(57, 18), Initialized, [])] + [Referenced(18, i, Pos(57, 25), false, false, [])] + [Declared(19, a4, Pos(58, 42), Initialized, [4])] + [OutAssigned(19, [], [4])] + [Referenced(18, i, Pos(57, 32), false, false, [4])], 5)
  {
    WalkExprsOne(Declare(i, Pos(57, 18), Initialized), Ctx(17, [], []), Tree(tr.scopes + [Scope(ForInit, Some(4))] + [Scope(ForLoop, Some(17))], tr.events, 4));
    assert WalkExpr(Declare(i, Pos(57, 18), Initialized), Ctx(17, [], []), Tree(tr.scopes + [Scope(ForInit, Some(4))] + [Scope(ForLoop, Some(17))], tr.events, 4)) == Tree(tr.scopes + [Scope(ForInit, Some(4))] + [Scope(ForLoop, Some(17))], tr.events + [Declared(17, i, Pos(57, 18), Initialized, [])], 4);
    assert WalkExprs([Declare(i, Pos(57, 18), Initialized)], Ctx(17, [], []), Tree(tr.scopes + [Scope(ForInit, Some(4))] + [Scope(ForLoop, Some(17))], tr.events, 4)) == Tree(tr.scopes + [Scope(ForInit, Some(4))] + [Scope(ForLoop, Some(17))], tr.events + [Declared(17, i, Pos(57, 18), Initialized, [])], 4);
    WalkExprsOne(Use(i, Pos(57, 25), false), Ctx(18, [], []), Tree(tr.scopes + [Scope(ForInit, Some(4))] + [Scope(ForLoop, Some(17))], tr.events + [Declared(17, i, Pos(57, 18), Initialized, [])], 4));
    assert WalkExpr(Use(i, Pos(57, 25), false), Ctx(18, [], []), Tree(tr.scopes + [Scope(ForInit, Some(4))] + [Scope(ForLoop, Some(17))], tr.events + [Declared(17, i, Pos(57, 18), Initialized, [])], 4)) == Tree(tr.scopes + [Scope(ForInit, Some(4))] + [Scope(ForLoop, Some(17))], tr.events + [Declared(17, i, Pos(57, 18), Initialized, [])] + [Referenced(18, i, Pos(57, 25), false, false, [])], 4);
    assert WalkExprs([Use(i, Pos(57, 25), false)], Ctx(18, [], []), Tree(tr.scopes + [Scope(ForInit, Some(4))] + [Scope(ForLoop, Some(17))], tr.events + [Declared(17, i, Pos(57, 18), Initialized, [])], 4)) == Tree(tr.scopes + [Scope(ForInit, Some(4))] + [Scope(ForLoop, Some(17))], tr.events + [Declared(17, i, Pos(57, 18), Initialized, [])] + [Referenced(18, i, Pos(57, 25), false, false, [])], 4);
    assert [] + [4] == [4];
    WalkExprsOne(Call([Argument([Declare(a4, Pos(58, 42), Initialized)])]), Ctx(19, [4], []), Tree(tr.scopes + [Scope(ForInit, Some(4))] + [Scope(ForLoop, Some(17))] + [Scope(EmbeddedBody, Some(18))], tr.events + [Declared(17, i, Pos(57, 18), Initialized, [])] + [Referenced(18, i, Pos(57, 25), false, false, [])], 5));
    assert OutNames([]) == [];
    WalkArgsOne(Argument([Declare(a4, Pos(58, 42), Initialized)]), [], Ctx(19, [4], []), Tree(tr.scopes + [Scope(ForInit, Some(4))] + [Scope(ForLoop, Some(17))] + [Scope(EmbeddedBody, Some(18))], tr.events + [Declared(17, i, Pos(57, 18), Initialized, [])] + [Referenced(18, i, Pos(57, 25), false, false, [])], 5));
    WalkExprsOne(Declare(a4, Pos(58, 42), Initialized), Ctx(19, [4], []), Tree(tr.scopes + [Scope(ForInit, Some(4))] + [Scope(ForLoop, Some(17))] + [Scope(EmbeddedBody, Some(18))], tr.events + [Declared(17, i, Pos(57, 18), Initialized, [])] + [Referenced(18, i, Pos(57, 25), false, false, [])], 5));
    assert WalkExpr(Declare(a4, Pos(58, 42), Initialized), Ctx(19, [4], []), Tree(tr.scopes + [Scope(ForInit, Some(4))] + [Scope(ForLoop, Some(17))] + [Scope(EmbeddedBody, Some(18))], tr.events + [Declared(17, i, Pos(57, 18), Initialized, [])] + [Referenced(18, i, Pos(57, 25), false, false, [])], 5)) == Tree(tr.scopes + [Scope(ForInit, Some(4))] + [Scope(ForLoop, Some(17))] + [Scope(EmbeddedBody, Some(18))], tr.events + [Declared(17, i, Pos(57, 18), Initialized, [])] + [Referenced(18, i, Pos(57, 25), false, false, [])] + [Declared(19, a4, Pos(58, 42), Initialized, [4])], 5);
    assert WalkExprs([Declare(a4, Pos(58, 42), Initialized)], Ctx(19, [4], []), Tree(tr.scopes + [Scope(ForInit, Some(4))] + [Scope(ForLoop, Some(17))] + [Scope(EmbeddedBody, Some(18))], tr.events + [Declared(17, i, Pos(57, 18), Initialized, [])] + [Referenced(18, i, Pos(57, 25), false, false, [])], 5)) == Tree(tr.scopes + [Scope(ForInit, Some(4))] + [Scope(ForLoop, Some(17))] + [Scope(EmbeddedBody, Some(18))], tr.events + [Declared(17, i, Pos(57, 18), Initialized, [])] + [Referenced(18, i, Pos(57, 25), false, false, [])] + [Declared(19, a4, Pos(58, 42), Initialized, [4])], 5);
    OutNamesOfOne(Declare(a4, Pos(58, 42), Initialized));
    OutNamesSnoc([], Argument([Declare(a4, Pos(58, 42), Initialized)]));
    assert WalkArgs([Argument([Declare(a4, Pos(58, 42), Initialized)])], [], Ctx(19, [4], []), Tree(tr.scopes + [Scope(ForInit, Some(4))] + [Scope(ForLoop, Some(17))] + [Scope(EmbeddedBody, Some(18))], tr.events + [Declared(17, i, Pos(57, 18), Initialized, [])] + [Referenced(18, i, Pos(57, 25), false, false, [])], 5)) == Tree(tr.scopes + [Scope(ForInit, Some(4))] + [Scope(ForLoop, Some(17))] + [Scope(EmbeddedBody, Some(18))], tr.events + [Declared(17, i, Pos(57, 18), Initialized, [])] + [Referenced(18, i, Pos(57, 25), false, false, [])] + [Declared(19, a4, Pos(58, 42), Initialized, [4])], 5);
    assert OutNames([Argument([Declare(a4, Pos(58, 42), Initialized)])]) == [];
    assert WalkExpr(Call([Argument([Declare(a4, Pos(58, 42), Initialized)])]), Ctx(19, [4], []), Tree(tr.scopes + [Scope(ForInit, Some(4))] + [Scope(ForLoop, Some(17))] + [Scope(EmbeddedBody, Some(18))], tr.events + [Declared(17, i, Pos(57, 18), Initialized, [])] + [Referenced(18, i, Pos(57, 25), false, false, [])], 5)) == Tree(tr.scopes + [Scope(ForInit, Some(4))] + [Scope(ForLoop, Some(17))] + [Scope(EmbeddedBody, Some(18))], tr.events + [Declared(17, i, Pos(57, 18), Initialized, [])] + [Referenced(18, i, Pos(57, 25), false, false, [])] + [Declared(19, a4, Pos(58, 42), Initialized, [4])] + [OutAssigned(19, [], [4])], 5);
    assert WalkExprs([Call([Argument([Declare(a4, Pos(58, 42), Initialized)])])], Ctx(19, [4], []), Tree(tr.scopes + [Scope(ForInit, Some(4))] + [Scope(ForLoop, Some(17))] + [Scope(EmbeddedBody, Some(18))], tr.events + [Declared(17, i, Pos(57, 18), Initialized, [])] + [Referenced(18, i, Pos(57, 25), false, false, [])], 5)) == Tree(tr.scopes + [Scope(ForInit, Some(4))] + [Scope(ForLoop, Some(17))] + [Scope(EmbeddedBody, Some(18))], tr.events + [Declared(17, i, Pos(57, 18), Initialized, [])] + [Referenced(18, i, Pos(57, 25), false, false, [])] + [Declared(19, a4, Pos(58, 42), Initialized, [4])] + [OutAssigned(19, [], [4])], 5);
    assert WalkStmt(Exprs([Call([Argument([Declare(a4, Pos(58, 42), Initialized)])])]), Ctx(19, [4], []), Tree(tr.scopes + [Scope(ForInit, Some(4))] + [Scope(ForLoop, Some(17))] + [Scope(EmbeddedBody, Some(18))], tr.events + [Declared(17, i, Pos(57, 18), Initialized, [])] + [Referenced(18, i, Pos(57, 25), false, false, [])], 5)) == Tree(tr.scopes + [Scope(ForInit, Some(4))] + [Scope(ForLoop, Some(17))] + [Scope(EmbeddedBody, Some(18))], tr.events + [Declared(17, i, Pos(57, 18), Initialized, [])] + [Referenced(18, i, Pos(57, 25), false, false, [])] + [Declared(19, a4, Pos(58, 42), Initialized, [4])] + [OutAssigned(19, [], [4])], 5);
    assert WalkEmbedded(Exprs([Call([Argument([Declare(a4, Pos(58, 42), Initialized)])])]), Ctx(18, [4], []), Tree(tr.scopes + [Scope(ForInit, Some(4))] + [Scope(ForLoop, Some(17))], tr.events + [Declared(17, i, Pos(57, 18), Initialized, [])] + [Referenced(18, i, Pos(57, 25), false, false, [])], 5)) == Tree(tr.scopes + [Scope(ForInit, Some(4))] + [Scope(ForLoop, Some(17))] + [Scope(EmbeddedBody, Some(18))], tr.events + [Declared(17, i, Pos(57, 18), Initialized, [])] + [Referenced(18, i, Pos(57, 25), false, false, [])] + [Declared(19, a4, Pos(58, 42), Initialized, [4])] + [OutAssigned(19, [], [4])], 5);
    WalkExprsOne(Use(i, Pos(57, 32), false), Ctx(18, [4], []), Tree(tr.scopes + [Scope(ForInit, Some(4))] + [Scope(ForLoop, Some(17))] + [Scope(EmbeddedBody, Some(18))], tr.events + [Declared(17, i, Pos(57, 18), Initialized, [])] + [Referenced(18, i, Pos(57, 25), false, false, [])] + [Declared(19, a4, Pos(58, 42), Initialized, [4])] + [OutAssigned(19, [], [4])], 5));
    assert WalkExpr(Use(i, Pos(57, 32), false), Ctx(18, [4], []), Tree(tr.scopes + [Scope(ForInit, Some(4))] + [Scope(ForLoop, Some(17))] + [Scope(EmbeddedBody, Some(18))], tr.events + [Declared(17, i, Pos(57, 18), Initialized, [])] + [Referenced(18, i, Pos(57, 25), false, false, [])] + [Declared(19, a4, Pos(58, 42), Initialized, [4])] + [OutAssigned(19, [], [4])], 5)) == Tree(tr.scopes + [Scope(ForInit, Some(4))] + [Scope(ForLoop, Some(17))] + [Scope(EmbeddedBody, Some(18))], tr.events + [Declared(17, i, Pos(57, 18), Initialized, [])] + [Referenced(18, i, Pos(57, 25), false, false, [])] + [Declared(19, a4, Pos(58, 42), Initialized, [4])] + [OutAssigned(19, [], [4])] + [Referenced(18, i, Pos(57, 32), false, false, [4])], 5);
    assert WalkExprs([Use(i, Pos(57, 32), false)], Ctx(18, [4], []), Tree(tr.scopes + [Scope(ForInit, Some(4))] + [Scope(ForLoop, Some(17))] + [Scope(EmbeddedBody, Some(18))], tr.events + [Declared(17, i, Pos(57, 18), Initialized, [])] + [Referenced(18, i, Pos(57, 25), false, false, [])] + [Declared(19, a4, Pos(58, 42), Initialized, [4])] + [OutAssigned(19, [], [4])], 5)) == Tree(tr.scopes + [Scope(ForInit, Some(4))] + [Scope(ForLoop, Some(17))] + [Scope(EmbeddedBody, Some(18))], tr.events + [Declared(17, i, Pos(57, 18), Initialized, [])] + [Referenced(18, i, Pos(57, 25), false, false, [])] + [Declared(19, a4, Pos(58, 42), Initialized, [4])] + [OutAssigned(19, [], [4])] + [Referenced(18, i, Pos(57, 32), false, false, [4])], 5);
    assert WalkStmt(For([Declare(i, Pos(57, 18), Initialized)], [Use(i, Pos(57, 25), false)], [Use(i, Pos(57, 32), false)], Exprs([Call([Argument([Declare(a4, Pos(58, 42), Initialized)])])])), Ctx(4, [], []), tr) == Tree(tr.scopes + [Scope(ForInit, Some(4))] + [Scope(ForLoop, Some(17))] + [Scope(EmbeddedBody, Some(18))], tr.events + [Declared(17, i, Pos(57, 18), Initialized, [])] + [Referenced(18, i, Pos(57, 25), false, false, [])] + [Declared(19, a4, Pos(58, 42), Initialized, [4])] + [OutAssigned(19, [], [4])] + [Referenced(18, i, Pos(57, 32), false, false, [4])], 5);
  }

  lemma {:induction false} Walk18(a1: string, b1: string, i: string, a2: string, a3: string, a4: string, a5: string, tr: Tree)
    requires |tr.scopes| == 20 && tr.arms == 5
    ensures WalkStmt(Exprs([Declare(a5, Pos(60, 13), Initialized)]), Ctx(4, [], []), tr) == Tree(tr.scopes, tr.events + [Declared(4, a5, Pos(60, 13), Initialized, [])], 5)
  {
    WalkExprsOne(Declare(a5, Pos(60, 13), Initialized), Ctx(4, [], []), tr);
    assert WalkExpr(Declare(a5, Pos(60, 13), Initialized), Ctx(4, [], []), tr) == Tree(tr.scopes, tr.events + [Declared(4, a5, Pos(60, 13), Initialized, [])], 5);
    assert WalkExprs([Declare(a5, Pos(60, 13), Initialized)], Ctx(4, [], []), tr) == Tree(tr.scopes, tr.events + [Declared(4, a5, Pos(60, 13), Initialized, [])], 5);
    assert WalkStmt(Exprs([Declare(a5, Pos(60, 13), Initialized)]), Ctx(4, [], []), tr) == Tree(tr.scopes, tr.events + [Declared(4, a5, Pos(60, 13), Initialized, [])], 5);
  }

  lemma {:induction false} Walk19(a1: string, b1: string, i: string, a2: string, a3: string, a4: string, a5: string, tr: Tree)
    requires |tr.scopes| == 20 && tr.arms == 5
    ensures WalkStmt(Exprs([Call([Argument([Use(a5, Pos(61, 34), false)])])]), Ctx(4, [], []), tr) == Tree(tr.scopes, tr.events + [Referenced(4, a5, Pos(61, 34), false, false, [])] + [OutAssigned(4, [], [])], 5)
  {
    WalkExprsOne(Call([Argument([Use(a5, Pos(61, 34), false)])]), Ctx(4, [], []), tr);
    assert OutNames([]) == [];
    WalkArgsOne(Argument([Use(a5, Pos(61, 34), false)]), [], Ctx(4, [], []), tr);
    WalkExprsOne(Use(a5, Pos(61, 34), false), Ctx(4, [], []), tr);
    assert WalkExpr(Use(a5, Pos(61, 34), false), Ctx(4, [], []), tr) == Tree(tr.scopes, tr.events + [Referenced(4, a5, Pos(61, 34), false, false, [])], 5);
    assert WalkExprs([Use(a5, Pos(61, 34), false)], Ctx(4, [], []), tr) == Tree(tr.scopes, tr.events + [Referenced(4, a5, Pos(61, 34), false, false, [])], 5);
    OutNamesOfOne(Use(a5, Pos(61, 34), false));
    OutNamesSnoc([], Argument([Use(a5, Pos(61, 34), false)]));
    assert WalkArgs([Argument([Use(a5, Pos(61, 34), false)])], [], Ctx(4, [], []), tr) == Tree(tr.scopes, tr.events + [Referenced(4, a5, Pos(61, 34), false, false, [])], 5);
    assert OutNames([Argument([Use(a5, Pos(61, 34), false)])]) == [];
    assert WalkExpr(Call([Argument([Use(a5, Pos(61, 34), false)])]), Ctx(4, [], []), tr) == Tree(tr.scopes, tr.events + [Referenced(4, a5, Pos(61, 34), false, false, [])] + [OutAssigned(4, [], [])], 5);
    assert WalkExprs([Call([Argument([Use(a5, Pos(61, 34), false)])])], Ctx(4, [], []), tr) == Tree(tr.scopes, tr.events + [Referenced(4, a5, Pos(61, 34), false, false, [])] + [OutAssigned(4, [], [])], 5);
    assert WalkStmt(Exprs([Call([Argument([Use(a5, Pos(61, 34), false)])])]), Ctx(4, [], []), tr) == Tree(tr.scopes, tr.events + [Referenced(4, a5, Pos(61, 34), false, false, [])] + [OutAssigned(4, [], [])], 5);
  }

  lemma {:induction false} Walk21(a1: string, b1: string, i: string, a2: string, a3: string, a4: string, a5: string, tr: Tree)
    requires |tr.scopes| == 23 && tr.arms == 6
    ensures WalkStmt(Exprs([Call([Argument([Declare(a5, Pos(64, 42), Initialized)])])]), Ctx(22, [5], []), tr) == Tree(tr.scopes, tr.events + [Declared(22, a5, Pos(64, 42), Initialized, [5])] + [OutAssigned(22, [], [5])], 6)
  {
    WalkExprsOne(Call([Argument([Declare(a5, Pos(64, 42), Initialized)])]), Ctx(22, [5], []), tr);
    assert OutNames([]) == [];
    WalkArgsOne(Argument([Declare(a5, Pos(64, 42), Initialized)]), [], Ctx(22, [5], []), tr);
    WalkExprsOne(Declare(a5, Pos(64, 42), Initialized), Ctx(22, [5], []), tr);
    assert WalkExpr(Declare(a5, Pos(64, 42), Initialized), Ctx(22, [5], []), tr) == Tree(tr.scopes, tr.events + [Declared(22, a5, Pos(64, 42), Initialized, [5])], 6);
    assert WalkExprs([Declare(a5, Pos(64, 42), Initialized)], Ctx(22, [5], []), tr) == Tree(tr.scopes, tr.events + [Declared(22, a5, Pos(64, 42), Initialized, [5])], 6);
    OutNamesOfOne(Declare(a5, Pos(64, 42), Initialized));
    OutNamesSnoc([], Argument([Declare(a5, Pos(64, 42), Initialized)]));
    assert WalkArgs([Argument([Declare(a5, Pos(64, 42), Initialized)])], [], Ctx(22, [5], []), tr) == Tree(tr.scopes, tr.events + [Declared(22, a5, Pos(64, 42), Initialized, [5])], 6);
    assert OutNames([Argument([Declare(a5, Pos(64, 42), Initialized)])]) == [];
    assert WalkExpr(Call([Argument([Declare(a5, Pos(64, 42), Initialized)])]), Ctx(22, [5], []), tr) == Tree(tr.scopes, tr.events + [Declared(22, a5, Pos(64, 42), Initialized, [5])] + [OutAssigned(22, [], [5])], 6);
    assert WalkExprs([Call([Argument([Declare(a5, Pos(64, 42), Initialized)])])], Ctx(22, [5], []), tr) == Tree(tr.scopes, tr.events + [Declared(22, a5, Pos(64, 42), Initialized, [5])] + [OutAssigned(22, [], [5])], 6);
    assert WalkStmt(Exprs([Call([Argument([Declare(a5, Pos(64, 42), Initialized)])])]), Ctx(22, [5], []), tr) == Tree(tr.scopes, tr.events + [Declared(22, a5, Pos(64, 42), Initialized, [5])] + [OutAssigned(22, [], [5])], 6);
  }

  lemma {:induction false} Walk20(a1: string, b1: string, i: string, a2: string, a3: string, a4: string, a5: string, tr: Tree)
    requires |tr.scopes| == 20 && tr.arms == 5
    ensures WalkStmt(For([Declare(i, Pos(62, 18), Initialized)], [Use(i, Pos(62, 25), false)], [Use(i, Pos(62, 32), false)], Block([Exprs([Call([Argument([Declare(a5, Pos(64, 42), Initialized)])])])])), Ctx(4, [], []), tr) == Tree(tr.scopes + [Scope(ForInit, Some(4))] + [Scope(ForLoop, Some(20))] + [Scope(BlockBody, Some(21))], tr.events + [Declared(20, i, Pos(62, 18), Initialized, [])] + [Referenced(21, i, Pos(62, 25), false, false, [])] + [Declared(22, a5, Pos(64, 42), Initialized, [5])] + [OutAssigned(22, [], [5])] + [Referenced(21, i, Pos(62, 32), false, false, [5])], 6)
  {
    WalkExprsOne(Declare(i, Pos(62, 18), Initialized), Ctx(20, [], []), Tree(tr.scopes + [Scope(ForInit, Some(4))] + [Scope(ForLoop, Some(20))], tr.events, 5));
    assert WalkExpr(Declare(i, Pos(62, 18), Initialized), Ctx(20, [], []), Tree(tr.scopes + [Scope(ForInit, Some(4))] + [Scope(ForLoop, Some(20))], tr.events, 5)) == Tree(tr.scopes + [Scope(ForInit, Some(4))] + [Scope(ForLoop, Some(20))], tr.events + [Declared(20, i, Pos(62, 18), Initialized, [])], 5);
    assert WalkExprs([Declare(i, Pos(62, 18), Initialized)], Ctx(20, [], []), Tree(tr.scopes + [Scope(ForInit, Some(4))] + [Scope(ForLoop, Some(20))], tr.events, 5)) == Tree(tr.scopes + [Scope(ForInit, Some(4))] + [Scope(ForLoop, Some(20))], tr.events + [Declared(20, i, Pos(62, 18), Initialized, [])], 5);
    WalkExprsOne(Use(i, Pos(62, 25), false), Ctx(21, [], []), Tree(tr.scopes + [Scope(ForInit, Some(4))] + [Scope(ForLoop, Some(20))], tr.events + [Declared(20, i, Pos(62, 18), Initialized, [])], 5));
    assert WalkExpr(Use(i, Pos(62, 25), false), Ctx(21, [], []), Tree(tr.scopes + [Scope(ForInit, Some(4))] + [Scope(ForLoop, Some(20))], tr.events + [Declared(20, i, Pos(62, 18), Initialized, [])], 5)) == Tree(tr.scopes + [Scope(ForInit, Some(4))] + [Scope(ForLoop, Some(20))], tr.events + [Declared(20, i, Pos(62, 18), Initialized, [])] + [Referenced(21, i, Pos(62, 25), false, false, [])], 5);
    assert WalkExprs([Use(i, Pos(62, 25), false)], Ctx(21, [], []), Tree(tr.scopes + [Scope(ForInit, Some(4))] + [Scope(ForLoop, Some(20))], tr.events + [Declared(20, i, Pos(62, 18), Initialized, [])], 5)) == Tree(tr.scopes + [Scope(ForInit, Some(4))] + [Scope(ForLoop, Some(20))], tr.events + [Declared(20, i, Pos(62, 18), Initialized, [])] + [Referenced(21, i, Pos(62, 25), false, false, [])], 5);
    assert [] + [5] == [5];
    WalkStmtsOne(Exprs([Call([Argument([Declare(a5, Pos(64, 42), Initialized)])])]), Ctx(22, [5], []), Tree(tr.scopes + [Scope(ForInit, Some(4))] + [Scope(ForLoop, Some(20))] + [Scope(BlockBody, Some(21))], tr.events + [Declared(20, i, Pos(62, 18), Initialized, [])] + [Referenced(21, i, Pos(62, 25), false, false, [])], 6));
    Walk21(a1, b1, i, a2, a3, a4, a5, Tree(tr.scopes + [Scope(ForInit, Some(4))] + [Scope(ForLoop, Some(20))] + [Scope(BlockBody, Some(21))], tr.events + [Declared(20, i, Pos(62, 18), Initialized, [])] + [Referenced(21, i, Pos(62, 25), false, false, [])], 6));
    assert WalkStmt(Exprs([Call([Argument([Declare(a5, Pos(64, 42), Initialized)])])]), Ctx(22, [5], []), Tree(tr.scopes + [Scope(ForInit, Some(4))] + [Scope(ForLoop, Some(20))] + [Scope(BlockBody, Some(21))], tr.events + [Declared(20, i, Pos(62, 18), Initialized, [])] + [Referenced(21, i, Pos(62, 25), false, false, [])], 6)) == Tree(tr.scopes + [Scope(ForInit, Some(4))] + [Scope(ForLoop, Some(20))] + [Scope(BlockBody, Some(21))], tr.events + [Declared(20, i, Pos(62, 18), Initialized, [])] + [Referenced(21, i, Pos(62, 25), false, false, [])] + [Declared(22, a5, Pos(64, 42), Initialized, [5])] + [OutAssigned(22, [], [5])], 6);
    assert WalkEmbedded(Block([Exprs([Call([Argument([Declare(a5, Pos(64, 42), Initialized)])])])]), Ctx(21, [5], []), Tree(tr.scopes + [Scope(ForInit, Some(4))] + [Scope(ForLoop, Some(20))], tr.events + [Declared(20, i, Pos(62, 18), Initialized, [])] + [Referenced(21, i, Pos(62, 25), false, false, [])], 6)) == Tree(tr.scopes + [Scope(ForInit, Some(4))] + [Scope(ForLoop, Some(20))] + [Scope(BlockBody, Some(21))], tr.events + [Declared(20, i, Pos(62, 18), Initialized, [])] + [Referenced(21, i, Pos(62, 25), false, false, [])] + [Declared(22, a5, Pos(64, 42), Initialized, [5])] + [OutAssigned(22, [], [5])], 6);
    WalkExprsOne(Use(i, Pos(62, 32), false), Ctx(21, [5], []), Tree(tr.scopes + [Scope(ForInit, Some(4))] + [Scope(ForLoop, Some(20))] + [Scope(BlockBody, Some(21))], tr.events + [Declared(20, i, Pos(62, 18), Initialized, [])] + [Referenced(21, i, Pos(62, 25), false, false, [])] + [Declared(22, a5, Pos(64, 42), Initialized, [5])] + [OutAssigned(22, [], [5])], 6));
    assert WalkExpr(Use(i, Pos(62, 32), false), Ctx(21, [5], []), Tree(tr.scopes + [Scope(ForInit, Some(4))] + [Scope(ForLoop, Some(20))] + [Scope(BlockBody, Some(21))], tr.events + [Declared(20, i, Pos(62, 18), Initialized, [])] + [Referenced(21, i, Pos(62, 25), false, false, [])] + [Declared(22, a5, Pos(64, 42), Initialized, [5])] + [OutAssigned(22, [], [5])], 6)) == Tree(tr.scopes + [Scope(ForInit, Some(4))] + [Scope(ForLoop, Some(20))] + [Scope(BlockBody, Some(21))], tr.events + [Declared(20, i, Pos(62, 18), Initialized, [])] + [Referenced(21, i, Pos(62, 25), false, false, [])] + [Declared(22, a5, Pos(64, 42), Initialized, [5])] + [OutAssigned(22, [], [5])] + [Referenced(21, i, Pos(62, 32), false, false, [5])], 6);
    assert WalkExprs([Use(i, Pos(62, 32), false)], Ctx(21, [5], []), Tree(tr.scopes + [Scope(ForInit, Some(4))] + [Scope(ForLoop, Some(20))] + [Scope(BlockBody, Some(21))], tr.events + [Declared(20, i, Pos(62, 18), Initialized, [])] + [Referenced(21, i, Pos(62, 25), false, false, [])] + [Declared(22, a5, Pos(64, 42), Initialized, [5])] + [OutAssigned(22, [], [5])], 6)) == Tree(tr.scopes + [Scope(ForInit, Some(4))] + [Scope(ForLoop, Some(20))] + [Scope(BlockBody, Some(21))], tr.events + [Declared(20, i, Pos(62, 18), Initialized, [])] + [Referenced(21, i, Pos(62, 25), false, false, [])] + [Declared(22, a5, Pos(64, 42), Initialized, [5])] + [OutAssigned(22, [], [5])] + [Referenced(21, i, Pos(62, 32), false, false, [5])], 6);
    assert WalkStmt(For([Declare(i, Pos(62, 18), Initialized)], [Use(i, Pos(62, 25), false)], [Use(i, Pos(62, 32), false)], Block([Exprs([Call([Argument([Declare(a5, Pos(64, 42), Initialized)])])])])), Ctx(4, [], []), tr) == Tree(tr.scopes + [Scope(ForInit, Some(4))] + [Scope(ForLoop, Some(20))] + [Scope(BlockBody, Some(21))], tr.events + [Declared(20, i, Pos(62, 18), Initialized, [])] + [Referenced(21, i, Pos(62, 25), false, false, [])] + [Declared(22, a5, Pos(64, 42), Initialized, [5])] + [OutAssigned(22, [], [5])] + [Referenced(21, i, Pos(62, 32), false, false, [5])], 6);
  }

  lemma {:induction false} Stmts16(a1: string, b1: string, i: string, a2: string, a3: string, a4: string, a5: string, tr: Tree)
    requires |tr.scopes| == 17 && tr.arms == 4
    ensures WalkStmts([For([Declare(i, Pos(57, 18), Initialized)], [Use(i, Pos(57, 25), false)], [Use(i, Pos(57, 32), false)], Exprs([Call([Argument([Declare(a4, Pos(58, 42), Initialized)])])]))] + ([Exprs([Declare(a5, Pos(60, 13), Initialized)])] + ([Exprs([Call([Argument([Use(a5, Pos(61, 34), false)])])])] + ([For([Declare(i, Pos(62, 18), Initialized)], [Use(i, Pos(62, 25), false)], [Use(i, Pos(62, 32), false)], Block([Exprs([Call([Argument([Declare(a5, Pos(64, 42), Initialized)])])])]))]))), Ctx(4, [], []), tr) == Tree(tr.scopes + [Scope(ForInit, Some(4))] + [Scope(ForLoop, Some(17))] + [Scope(EmbeddedBody, Some(18))] + [Scope(ForInit, Some(4))] + [Scope(ForLoop, Some(20))] + [Scope(BlockBody, Some(21))], tr.events + [Declared(17, i, Pos(57, 18), Initialized, [])] + [Referenced(18, i, Pos(57, 25), false, false, [])] + [Declared(19, a4, Pos(58, 42), Initialized, [4])] + [OutAssigned(19, [], [4])] + [Referenced(18, i, Pos(57, 32), false, false, [4])] + [Declared(4, a5, Pos(60, 13), Initialized, [])] + [Referenced(4, a5, Pos(61, 34), false, false, [])] + [OutAssigned(4, [], [])] + [Declared(20, i, Pos(62, 18), Initialized, [])] + [Referenced(21, i, Pos(62, 25), false, false, [])] + [Declared(22, a5, Pos(64, 42), Initialized, [5])] + [OutAssigned(22, [], [5])] + [Referenced(21, i, Pos(62, 32), false, false, [5])], 6)
  {
    WalkStmtsCons(For([Declare(i, Pos(57, 18), Initialized)], [Use(i, Pos(57, 25), false)], [Use(i, Pos(57, 32), false)], Exprs([Call([Argument([Declare(a4, Pos(58, 42), Initialized)])])])), [Exprs([Declare(a5, Pos(60, 13), Initialized)])] + ([Exprs([Call([Argument([Use(a5, Pos(61, 34), false)])])])] + ([For([Declare(i, Pos(62, 18), Initialized)], [Use(i, Pos(62, 25), false)], [Use(i, Pos(62, 32), false)], Block([Exprs([Call([Argument([Declare(a5, Pos(64, 42), Initialized)])])])]))])), Ctx(4, [], []), tr);
    Walk17(a1, b1, i, a2, a3, a4, a5, tr);
    assert WalkStmt(For([Declare(i, Pos(57, 18), Initialized)], [Use(i, Pos(57, 25), false)], [Use(i, Pos(57, 32), false)], Exprs([Call([Argument([Declare(a4, Pos(58, 42), Initialized)])])])), Ctx(4, [], []), tr) == Tree(tr.scopes + [Scope(ForInit, Some(4))] + [Scope(ForLoop, Some(17))] + [Scope(EmbeddedBody, Some(18))], tr.events + [Declared(17, i, Pos(57, 18), Initialized, [])] + [Referenced(18, i, Pos(57, 25), false, false, [])] + [Declared(19, a4, Pos(58, 42), Initialized, [4])] + [OutAssigned(19, [], [4])] + [Referenced(18, i, Pos(57, 32), false, false, [4])], 5);
    WalkStmtsCons(Exprs([Declare(a5, Pos(60, 13), Initialized)]), [Exprs([Call([Argument([Use(a5, Pos(61, 34), false)])])])] + ([For([Declare(i, Pos(62, 18), Initialized)], [Use(i, Pos(62, 25), false)], [Use(i, Pos(62, 32), false)], Block([Exprs([Call([Argument([Declare(a5, Pos(64, 42), Initialized)])])])]))]), Ctx(4, [], []), Tree(tr.scopes + [Scope(ForInit, Some(4))] + [Scope(ForLoop, Some(17))] + [Scope(EmbeddedBody, Some(18))], tr.events + [Declared(17, i, Pos(57, 18), Initialized, [])] + [Referenced(18, i, Pos(57, 25), false, false, [])] + [Declared(19, a4, Pos(58, 42), Initialized, [4])] + [OutAssigned(19, [], [4])] + [Referenced(18, i, Pos(57, 32), false, false, [4])], 5));
    Walk18(a1, b1, i, a2, a3, a4, a5, Tree(tr.scopes + [Scope(ForInit, Some(4))] + [Scope(ForLoop, Some(17))] + [Scope(EmbeddedBody, Some(18))], tr.events + [Declared(17, i, Pos(57, 18), Initialized, [])] + [Referenced(18, i, Pos(57, 25), false, false, [])] + [Declared(19, a4, Pos(58, 42), Initialized, [4])] + [OutAssigned(19, [], [4])] + [Referenced(18, i, Pos(57, 32), false, false, [4])], 5));
    assert WalkStmt(Exprs([Declare(a5, Pos(60, 13), Initialized)]), Ctx(4, [], []), Tree(tr.scopes + [Scope(ForInit, Some(4))] + [Scope(ForLoop, Some(17))] + [Scope(EmbeddedBody, Some(18))], tr.events + [Declared(17, i, Pos(57, 18), Initialized, [])] + [Referenced(18, i, Pos(57, 25), false, false, [])] + [Declared(19, a4, Pos(58, 42), Initialized, [4])] + [OutAssigned(19, [], [4])] + [Referenced(18, i, Pos(57, 32), false, false, [4])], 5)) == Tree(tr.scopes + [Scope(ForInit, Some(4))] + [Scope(ForLoop, Some(17))] + [Scope(EmbeddedBody, Some(18))], tr.events + [Declared(17, i, Pos(57, 18), Initialized, [])] + [Referenced(18, i, Pos(57, 25), false, false, [])] + [Declared(19, a4, Pos(58, 42), Initialized, [4])] + [OutAssigned(19, [], [4])] + [Referenced(18, i, Pos(57, 32), false, false, [4])] + [Declared(4, a5, Pos(60, 13), Initialized, [])], 5);
    WalkStmtsCons(Exprs([Call([Argument([Use(a5, Pos(61, 34), false)])])]), [For([Declare(i, Pos(62, 18), Initialized)], [Use(i, Pos(62, 25), false)], [Use(i, Pos(62, 32), false)], Block([Exprs([Call([Argument([Declare(a5, Pos(64, 42), Initialized)])])])]))], Ctx(4, [], []), Tree(tr.scopes + [Scope(ForInit, Some(4))] + [Scope(ForLoop, Some(17))] + [Scope(EmbeddedBody, Some(18))], tr.events + [Declared(17, i, Pos(57, 18), Initialized, [])] + [Referenced(18, i, Pos(57, 25), false, false, [])] + [Declared(19, a4, Pos(58, 42), Initialized, [4])] + [OutAssigned(19, [], [4])] + [Referenced(18, i, Pos(57, 32), false, false, [4])] + [Declared(4, a5, Pos(60, 13), Initialized, [])], 5));
    Walk19(a1, b1, i, a2, a3, a4, a5, Tree(tr.scopes + [Scope(ForInit, Some(4))] + [Scope(ForLoop, Some(17))] + [Scope(EmbeddedBody, Some(18))], tr.events + [Declared(17, i, Pos(57, 18), Initialized, [])] + [Referenced(18, i, Pos(57, 25), false, false, [])] + [Declared(19, a4, Pos(58, 42), Initialized, [4])] + [OutAssigned(19, [], [4])] + [Referenced(18, i, Pos(57, 32), false, false, [4])] + [Declared(4, a5, Pos(60, 13), Initialized, [])], 5));
    assert WalkStmt(Exprs([Call([Argument([Use(a5, Pos(61, 34), false)])])]), Ctx(4, [], []), Tree(tr.scopes + [Scope(ForInit, Some(4))] + [Scope(ForLoop, Some(17))] + [Scope(EmbeddedBody, Some(18))], tr.events + [Declared(17, i, Pos(57, 18), Initialized, [])] + [Referenced(18, i, Pos(57, 25), false, false, [])] + [Declared(19, a4, Pos(58, 42), Initialized, [4])] + [OutAssigned(19, [], [4])] + [Referenced(18, i, Pos(57, 32), false, false, [4])] + [Declared(4, a5, Pos(60, 13), Initialized, [])], 5)) == Tree(tr.scopes + [Scope(ForInit, Some(4))] + [Scope(ForLoop, Some(17))] + [Scope(EmbeddedBody, Some(18))], tr.events + [Declared(17, i, Pos(57, 18), Initialized, [])] + [Referenced(18, i, Pos(57, 25), false, false, [])] + [Declared(19, a4, Pos(58, 42), Initialized, [4])] + [OutAssigned(19, [], [4])] + [Referenced(18, i, Pos(57, 32), false, false, [4])] + [Declared(4, a5, Pos(60, 13), Initialized, [])] + [Referenced(4, a5, Pos(61, 34), false, false, [])] + [OutAssigned(4, [], [])], 5);
    WalkStmtsOne(For([Declare(i, Pos(62, 18), Initialized)], [Use(i, Pos(62, 25), false)], [Use(i, Pos(62, 32), false)], Block([Exprs([Call([Argument([Declare(a5, Pos(64, 42), Initialized)])])])])), Ctx(4, [], []), Tree(tr.scopes + [Scope(ForInit, Some(4))] + [Scope(ForLoop, Some(17))] + [Scope(EmbeddedBody, Some(18))], tr.events + [Declared(17, i, Pos(57, 18), Initialized, [])] + [Referenced(18, i, Pos(57, 25), false, false, [])] + [Declared(19, a4, Pos(58, 42), Initialized, [4])] + [OutAssigned(19, [], [4])] + [Referenced(18, i, Pos(57, 32), false, false, [4])] + [Declared(4, a5, Pos(60, 13), Initialized, [])] + [Referenced(4, a5, Pos(61, 34), false, false, [])] + [OutAssigned(4, [], [])], 5));
    Walk20(a1, b1, i, a2, a3, a4, a5, Tree(tr.scopes + [Scope(ForInit, Some(4))] + [Scope(ForLoop, Some(17))] + [Scope(EmbeddedBody, Some(18))], tr.events + [Declared(17, i, Pos(57, 18), Initialized, [])] + [Referenced(18, i, Pos(57, 25), false, false, [])] + [Declared(19, a4, Pos(58, 42), Initialized, [4])] + [OutAssigned(19, [], [4])] + [Referenced(18, i, Pos(57, 32), false, false, [4])] + [Declared(4, a5, Pos(60, 13), Initialized, [])] + [Referenced(4, a5, Pos(61, 34), false, false, [])] + [OutAssigned(4, [], [])], 5));
    assert WalkStmt(For([Declare(i, Pos(62, 18), Initialized)], [Use(i, Pos(62, 25), false)], [Use(i, Pos(62, 32), false)], Block([Exprs([Call([Argument([Declare(a5, Pos(64, 42), Initialized)])])])])), Ctx(4, [], []), Tree(tr.scopes + [Scope(ForInit, Some(4))] + [Scope(ForLoop, Some(17))] + [Scope(EmbeddedBody, Some(18))], tr.events + [Declared(17, i, Pos(57, 18), Initialized, [])] + [Referenced(18, i, Pos(57, 25), false, false, [])] + [Declared(19, a4, Pos(58, 42), Initialized, [4])] + [OutAssigned(19, [], [4])] + [Referenced(18, i, Pos(57, 32), false, false, [4])] + [Declared(4, a5, Pos(60, 13), Initialized, [])] + [Referenced(4, a5, Pos(61, 34), false, false, [])] + [OutAssigned(4, [], [])], 5)) == Tree(tr.scopes + [Scope(ForInit, Some(4))] + [Scope(ForLoop, Some(17))] + [Scope(EmbeddedBody, Some(18))] + [Scope(ForInit, Some(4))] + [Scope(ForLoop, Some(20))] + [Scope(BlockBody, Some(21))], tr.events + [Declared(17, i, Pos(57, 18), Initialized, [])] + [Referenced(18, i, Pos(57, 25), false, false, [])] + [Declared(19, a4, Pos(58, 42), Initialized, [4])] + [OutAssigned(19, [], [4])] + [Referenced(18, i, Pos(57, 32), false, false, [4])] + [Declared(4, a5, Pos(60, 13), Initialized, [])] + [Referenced(4, a5, Pos(61, 34), false, false, [])] + [OutAssigned(4, [], [])] + [Declared(20, i, Pos(62, 18), Initialized, [])] + [Referenced(21, i, Pos(62, 25), false, false, [])] + [Declared(22, a5, Pos(64, 42), Initialized, [5])] + [OutAssigned(22, [], [5])] + [Referenced(21, i, Pos(62, 32), false, false, [5])], 6);
  }

  lemma {:induction false} Join0(a1: string, b1: string, i: string, a2: string, a3: string, a4: string, a5: string, evs: seq<Event>)
    ensures evs + Chunk0(a1, b1, i, a2, a3, a4, a5) == evs + [Declared(4, a1, Pos(41, 13), Initialized, [])] + [Declared(4, b1, Pos(42, 39), Initialized, [])] + [Referenced(4, a1, Pos(42, 49), false, false, [])] + [OutAssigned(4, [], [])] + [Declared(5, i, Pos(44, 18), Initialized, [])] + [Declared(5, a1, Pos(44, 27), Initialized, [])] + [Referenced(6, i, Pos(44, 36), false, false, [])] + [Declared(8, i, Pos(45, 18), Initialized, [])]
  {
  }

  lemma {:induction false} Join1(a1: string, b1: string, i: string, a2: string, a3: string, a4: string, a5: string, evs: seq<Event>)
    ensures evs + Chunk1(a1, b1, i, a2, a3, a4, a5) == evs + [Declared(8, b1, Pos(45, 27), Initialized, [])] + [Referenced(9, i, Pos(45, 36), false, false, [])] + [Declared(4, a2, Pos(47, 13), Initialized, [])] + [Referenced(4, a2, Pos(48, 34), false, false, [])] + [OutAssigned(4, [], [])] + [Declared(11, i, Pos(49, 18), Initialized, [])] + [Referenced(12, i, Pos(49, 25), false, false, [])] + [Declared(12, a2, Pos(49, 34), Initialized, [])]
  {
  }

  lemma {:induction false} Join2(a1: string, b1: string, i: string, a2: string, a3: string, a4: string, a5: string, evs: seq<Event>)
    ensures evs + Chunk2(a1, b1, i, a2, a3, a4, a5) == evs + [Declared(4, a3, Pos(51, 13), Initialized, [])] + [Referenced(4, a3, Pos(52, 34), false, false, [])] + [OutAssigned(4, [], [])] + [Declared(14, i, Pos(53, 18), Initialized, [])] + [Referenced(15, i, Pos(53, 25), false, false, [])] + [Referenced(15, i, Pos(53, 32), false, false, [3])] + [Declared(15, a3, Pos(53, 41), Initialized, [3])] + [Declared(4, a4, Pos(55, 13), Initialized, [])]
  {
  }

  lemma {:induction false} Join3(a1: string, b1: string, i: string, a2: string, a3: string, a4: string, a5: string, evs: seq<Event>)
    ensures evs + Chunk3(a1, b1, i, a2, a3, a4, a5) == evs + [Referenced(4, a4, Pos(56, 34), false, false, [])] + [OutAssigned(4, [], [])] + [Declared(17, i, Pos(57, 18), Initialized, [])] + [Referenced(18, i, Pos(57, 25), false, false, [])] + [Declared(19, a4, Pos(58, 42), Initialized, [4])] + [OutAssigned(19, [], [4])] + [Referenced(18, i, Pos(57, 32), false, false, [4])] + [Declared(4, a5, Pos(60, 13), Initialized, [])]
  {
  }

  lemma {:induction false} Join4(a1: string, b1: string, i: string, a2: string, a3: string, a4: string, a5: string, evs: seq<Event>)
    ensures evs + Chunk4(a1, b1, i, a2, a3, a4, a5) == evs + [Referenced(4, a5, Pos(61, 34), false, false, [])] + [OutAssigned(4, [], [])] + [Declared(20, i, Pos(62, 18), Initialized, [])] + [Referenced(21, i, Pos(62, 25), false, false, [])] + [Declared(22, a5, Pos(64, 42), Initialized, [5])] + [OutAssigned(22, [], [5])] + [Referenced(21, i, Pos(62, 32), false, false, [5])]
  {
  }

  /** The trace, event by event. */
  lemma {:induction false} Flat(a1: string, b1: string, i: string, a2: string, a3: string, a4: string, a5: string)
    ensures [] + [Declared(4, a1, Pos(41, 13), Initialized, [])] + [Declared(4, b1, Pos(42, 39), Initialized, [])] + [Referenced(4, a1, Pos(42, 49), false, false, [])] + [OutAssigned(4, [], [])] + [Declared(5, i, Pos(44, 18), Initialized, [])] + [Declared(5, a1, Pos(44, 27), Initialized, [])] + [Referenced(6, i, Pos(44, 36), false, false, [])] + [Declared(8, i, Pos(45, 18), Initialized, [])] + [Declared(8, b1, Pos(45, 27), Initialized, [])] + [Referenced(9, i, Pos(45, 36), false, false, [])] + [Declared(4, a2, Pos(47, 13), Initialized, [])] + [Referenced(4, a2, Pos(48, 34), false, false, [])] + [OutAssigned(4, [], [])] + [Declared(11, i, Pos(49, 18), Initialized, [])] + [Referenced(12, i, Pos(49, 25), false, false, [])] + [Declared(12, a2, Pos(49, 34), Initialized, [])] + [Declared(4, a3, Pos(51, 13), Initialized, [])] + [Referenced(4, a3, Pos(52, 34), false, false, [])] + [OutAssigned(4, [], [])] + [Declared(14, i, Pos(53, 18), Initialized, [])] + [Referenced(15, i, Pos(53, 25), false, false, [])] + [Referenced(15, i, Pos(53, 32), false, false, [3])] + [Declared(15, a3, Pos(53, 41), Initialized, [3])] + [Declared(4, a4, Pos(55, 13), Initialized, [])] + [Referenced(4, a4, Pos(56, 34), false, false, [])] + [OutAssigned(4, [], [])] + [Declared(17, i, Pos(57, 18), Initialized, [])] + [Referenced(18, i, Pos(57, 25), false, false, [])] + [Declared(19, a4, Pos(58, 42), Initialized, [4])] + [OutAssigned(19, [], [4])] + [Referenced(18, i, Pos(57, 32), false, false, [4])] + [Declared(4, a5, Pos(60, 13), Initialized, [])] + [Referenced(4, a5, Pos(61, 34), false, false, [])] + [OutAssigned(4, [], [])] + [Declared(20, i, Pos(62, 18), Initialized, [])] + [Referenced(21, i, Pos(62, 25), false, false, [])] + [Declared(22, a5, Pos(64, 42), Initialized, [5])] + [OutAssigned(22, [], [5])] + [Referenced(21, i, Pos(62, 32), false, false, [5])] == Trace(a1, b1, i, a2, a3, a4, a5)
  {
    Join0(a1, b1, i, a2, a3, a4, a5, []);
    Join1(a1, b1, i, a2, a3, a4, a5, [] + Chunk0(a1, b1, i, a2, a3, a4, a5));
    Join2(a1, b1, i, a2, a3, a4, a5, [] + Chunk0(a1, b1, i, a2, a3, a4, a5) + Chunk1(a1, b1, i, a2, a3, a4, a5));
    Join3(a1, b1, i, a2, a3, a4, a5, [] + Chunk0(a1, b1, i, a2, a3, a4, a5) + Chunk1(a1, b1, i, a2, a3, a4, a5) + Chunk2(a1, b1, i, a2, a3, a4, a5));
    Join4(a1, b1, i, a2, a3, a4, a5, [] + Chunk0(a1, b1, i, a2, a3, a4, a5) + Chunk1(a1, b1, i, a2, a3, a4, a5) + Chunk2(a1, b1, i, a2, a3, a4, a5) + Chunk3(a1, b1, i, a2, a3, a4, a5));
  }

  lemma {:induction false} Walked(a1: string, b1: string, i: string, a2: string, a3: string, a4: string, a5: string)
    ensures Build(Program(a1, b1, i, a2, a3, a4, a5)) == Tree(Layout(), Trace(a1, b1, i, a2, a3, a4, a5), 6)
  {
    MainBuild(Body(a1, b1, i, a2, a3, a4, a5));
    Stmts1(a1, b1, i, a2, a3, a4, a5, MainHead(), [Exprs([Declare(a2, Pos(47, 13), Initialized)])] + ([Exprs([Call([Argument([Use(a2, Pos(48, 34), false)])])])] + ([For([Declare(i, Pos(49, 18), Initialized)], [Use(i, Pos(49, 25), false)] + ([Declare(a2, Pos(49, 34), Initialized)]), [], Exprs([]))] + ([Exprs([Declare(a3, Pos(51, 13), Initialized)])] + ([Exprs([Call([Argument([Use(a3, Pos(52, 34), false)])])])] + ([For([Declare(i, Pos(53, 18), Initialized)], [Use(i, Pos(53, 25), false)], [Use(i, Pos(53, 32), false)] + ([Declare(a3, Pos(53, 41), Initialized)]), Exprs([]))] + ([Exprs([Declare(a4, Pos(55, 13), Initialized)])] + ([Exprs([Call([Argument([Use(a4, Pos(56, 34), false)])])])] + ([For([Declare(i, Pos(57, 18), Initialized)], [Use(i, Pos(57, 25), false)], [Use(i, Pos(57, 32), false)], Exprs([Call([Argument([Declare(a4, Pos(58, 42), Initialized)])])]))] + ([Exprs([Declare(a5, Pos(60, 13), Initialized)])] + ([Exprs([Call([Argument([Use(a5, Pos(61, 34), false)])])])] + ([For([Declare(i, Pos(62, 18), Initialized)], [Use(i, Pos(62, 25), false)], [Use(i, Pos(62, 32), false)], Block([Exprs([Call([Argument([Declare(a5, Pos(64, 42), Initialized)])])])]))]))))))))))));
    Stmts6(a1, b1, i, a2, a3, a4, a5, Tree(MainHead().scopes + [Scope(ForInit, Some(4))] + [Scope(ForLoop, Some(5))] + [Scope(EmbeddedBody, Some(6))] + [Scope(ForInit, Some(4))] + [Scope(ForLoop, Some(8))] + [Scope(EmbeddedBody, Some(9))], MainHead().events + [Declared(4, a1, Pos(41, 13), Initialized, [])] + [Declared(4, b1, Pos(42, 39), Initialized, [])] + [Referenced(4, a1, Pos(42, 49), false, false, [])] + [OutAssigned(4, [], [])] + [Declared(5, i, Pos(44, 18), Initialized, [])] + [Declared(5, a1, Pos(44, 27), Initialized, [])] + [Referenced(6, i, Pos(44, 36), false, false, [])] + [Declared(8, i, Pos(45, 18), Initialized, [])] + [Declared(8, b1, Pos(45, 27), Initialized, [])] + [Referenced(9, i, Pos(45, 36), false, false, [])], 2), [Exprs([Call([Argument([Use(a3, Pos(52, 34), false)])])])] + ([For([Declare(i, Pos(53, 18), Initialized)], [Use(i, Pos(53, 25), false)], [Use(i, Pos(53, 32), false)] + ([Declare(a3, Pos(53, 41), Initialized)]), Exprs([]))] + ([Exprs([Declare(a4, Pos(55, 13), Initialized)])] + ([Exprs([Call([Argument([Use(a4, Pos(56, 34), false)])])])] + ([For([Declare(i, Pos(57, 18), Initialized)], [Use(i, Pos(57, 25), false)], [Use(i, Pos(57, 32), false)], Exprs([Call([Argument([Declare(a4, Pos(58, 42), Initialized)])])]))] + ([Exprs([Declare(a5, Pos(60, 13), Initialized)])] + ([Exprs([Call([Argument([Use(a5, Pos(61, 34), false)])])])] + ([For([Declare(i, Pos(62, 18), Initialized)], [Use(i, Pos(62, 25), false)], [Use(i, Pos(62, 32), false)], Block([Exprs([Call([Argument([Declare(a5, Pos(64, 42), Initialized)])])])]))]))))))));
    Stmts11(a1, b1, i, a2, a3, a4, a5, Tree(MainHead().scopes + [Scope(ForInit, Some(4))] + [Scope(ForLoop, Some(5))] + [Scope(EmbeddedBody, Some(6))] + [Scope(ForInit, Some(4))] + [Scope(ForLoop, Some(8))] + [Scope(EmbeddedBody, Some(9))] + [Scope(ForInit, Some(4))] + [Scope(ForLoop, Some(11))] + [Scope(EmbeddedBody, Some(12))], MainHead().events + [Declared(4, a1, Pos(41, 13), Initialized, [])] + [Declared(4, b1, Pos(42, 39), Initialized, [])] + [Referenced(4, a1, Pos(42, 49), false, false, [])] + [OutAssigned(4, [], [])] + [Declared(5, i, Pos(44, 18), Initialized, [])] + [Declared(5, a1, Pos(44, 27), Initialized, [])] + [Referenced(6, i, Pos(44, 36), false, false, [])] + [Declared(8, i, Pos(45, 18), Initialized, [])] + [Declared(8, b1, Pos(45, 27), Initialized, [])] + [Referenced(9, i, Pos(45, 36), false, false, [])] + [Declared(4, a2, Pos(47, 13), Initialized, [])] + [Referenced(4, a2, Pos(48, 34), false, false, [])] + [OutAssigned(4, [], [])] + [Declared(11, i, Pos(49, 18), Initialized, [])] + [Referenced(12, i, Pos(49, 25), false, false, [])] + [Declared(12, a2, Pos(49, 34), Initialized, [])] + [Declared(4, a3, Pos(51, 13), Initialized, [])], 3), [For([Declare(i, Pos(57, 18), Initialized)], [Use(i, Pos(57, 25), false)], [Use(i, Pos(57, 32), false)], Exprs([Call([Argument([Declare(a4, Pos(58, 42), Initialized)])])]))] + ([Exprs([Declare(a5, Pos(60, 13), Initialized)])] + ([Exprs([Call([Argument([Use(a5, Pos(61, 34), false)])])])] + ([For([Declare(i, Pos(62, 18), Initialized)], [Use(i, Pos(62, 25), false)], [Use(i, Pos(62, 32), false)], Block([Exprs([Call([Argument([Declare(a5, Pos(64, 42), Initialized)])])])]))]))));
    Stmts16(a1, b1, i, a2, a3, a4, a5, Tree(MainHead().scopes + [Scope(ForInit, Some(4))] + [Scope(ForLoop, Some(5))] + [Scope(EmbeddedBody, Some(6))] + [Scope(ForInit, Some(4))] + [Scope(ForLoop, Some(8))] + [Scope(EmbeddedBody, Some(9))] + [Scope(ForInit, Some(4))] + [Scope(ForLoop, Some(11))] + [Scope(EmbeddedBody, Some(12))] + [Scope(ForInit, Some(4))] + [Scope(ForLoop, Some(14))] + [Scope(EmbeddedBody, Some(15))], MainHead().events + [Declared(4, a1, Pos(41, 13), Initialized, [])] + [Declared(4, b1, Pos(42, 39), Initialized, [])] + [Referenced(4, a1, Pos(42, 49), false, false, [])] + [OutAssigned(4, [], [])] + [Declared(5, i, Pos(44, 18), Initialized, [])] + [Declared(5, a1, Pos(44, 27), Initialized, [])] + [Referenced(6, i, Pos(44, 36), false, false, [])] + [Declared(8, i, Pos(45, 18), Initialized, [])] + [Declared(8, b1, Pos(45, 27), Initialized, [])] + [Referenced(9, i, Pos(45, 36), false, false, [])] + [Declared(4, a2, Pos(47, 13), Initialized, [])] + [Referenced(4, a2, Pos(48, 34), false, false, [])] + [OutAssigned(4, [], [])] + [Declared(11, i, Pos(49, 18), Initialized, [])] + [Referenced(12, i, Pos(49, 25), false, false, [])] + [Declared(12, a2, Pos(49, 34), Initialized, [])] + [Declared(4, a3, Pos(51, 13), Initialized, [])] + [Referenced(4, a3, Pos(52, 34), false, false, [])] + [OutAssigned(4, [], [])] + [Declared(14, i, Pos(53, 18), Initialized, [])] + [Referenced(15, i, Pos(53, 25), false, false, [])] + [Referenced(15, i, Pos(53, 32), false, false, [3])] + [Declared(15, a3, Pos(53, 41), Initialized, [3])] + [Declared(4, a4, Pos(55, 13), Initialized, [])] + [Referenced(4, a4, Pos(56, 34), false, false, [])] + [OutAssigned(4, [], [])], 4));
    LayoutFlat();
    Flat(a1, b1, i, a2, a3, a4, a5);
  }

  /** The locals events of chunk `ck` declare in scope `sc`, in order. */
  function NewIn(a1: string, b1: string, i: string, a2: string, a3: string, a4: string, a5: string, ck: nat, sc: nat): seq<Local> {
    if ck == 0 then
      if sc == 4 then [] + [Local(a1, Pos(41, 13))] + [Local(b1, Pos(42, 39))]
      else if sc == 5 then [] + [Local(i, Pos(44, 18))] + [Local(a1, Pos(44, 27))]
      else if sc == 8 then [] + [Local(i, Pos(45, 18))]
      else []
    else if ck == 1 then
      if sc == 8 then [] + [Local(b1, Pos(45, 27))]
      else if sc == 4 then [] + [Local(a2, Pos(47, 13))]
      else if sc == 11 then [] + [Local(i, Pos(49, 18))]
      else if sc == 12 then [] + [Local(a2, Pos(49, 34))]
      else []
    else if ck == 2 then
      if sc == 4 then [] + [Local(a3, Pos(51, 13))] + [Local(a4, Pos(55, 13))]
      else if sc == 14 then [] + [Local(i, Pos(53, 18))]
      else if sc == 15 then [] + [Local(a3, Pos(53, 41))]
      else []
    else if ck == 3 then
      if sc == 17 then [] + [Local(i, Pos(57, 18))]
      else if sc == 19 then [] + [Local(a4, Pos(58, 42))]
      else if sc == 4 then [] + [Local(a5, Pos(60, 13))]
      else []
    else if ck == 4 then
      if sc == 20 then [] + [Local(i, Pos(62, 18))]
      else if sc == 22 then [] + [Local(a5, Pos(64, 42))]
      else []
    else []
  }

  /** The locals the first `ck` chunks declare in scope `sc`, in order. */
  function DeclaredBy(a1: string, b1: string, i: string, a2: string, a3: string, a4: string, a5: string, ck: nat, sc: nat): seq<Local>
    decreases ck
  {
    if ck == 0 then [] else DeclaredBy(a1, b1, i, a2, a3, a4, a5, ck - 1, sc) + NewIn(a1, b1, i, a2, a3, a4, a5, ck - 1, sc)
  }

  /** The locals declared once events 0 to 7 follow some events. */
  lemma {:induction false} Decls0(a1: string, b1: string, i: string, a2: string, a3: string, a4: string, a5: string, evs: seq<Event>, sc: nat)
    requires DeclsIn(evs, sc) == DeclaredBy(a1, b1, i, a2, a3, a4, a5, 0, sc)
    ensures DeclsIn(evs + Chunk0(a1, b1, i, a2, a3, a4, a5), sc) == DeclaredBy(a1, b1, i, a2, a3, a4, a5, 1, sc)
  {
    DeclsInAppend(evs, Chunk0(a1, b1, i, a2, a3, a4, a5), sc);
    assert DeclsIn([], sc) == [];
    if sc == 4 {
      DeclsInAdd([], Declared(4, a1, Pos(41, 13), Initialized, []), 4);
      DeclsInAdd([] + [Declared(4, a1, Pos(41, 13), Initialized, [])], Declared(4, b1, Pos(42, 39), Initialized, []), 4);
      DeclsInSkip([] + [Declared(4, a1, Pos(41, 13), Initialized, [])] + [Declared(4, b1, Pos(42, 39), Initialized, [])], Referenced(4, a1, Pos(42, 49), false, false, []), 4);
      DeclsInSkip([] + [Declared(4, a1, Pos(41, 13), Initialized, [])] + [Declared(4, b1, Pos(42, 39), Initialized, [])] + [Referenced(4, a1, Pos(42, 49), false, false, [])], OutAssigned(4, [], []), 4);
      DeclsInSkip([] + [Declared(4, a1, Pos(41, 13), Initialized, [])] + [Declared(4, b1, Pos(42, 39), Initialized, [])] + [Referenced(4, a1, Pos(42, 49), false, false, [])] + [OutAssigned(4, [], [])], Declared(5, i, Pos(44, 18), Initialized, []), 4);
      DeclsInSkip([] + [Declared(4, a1, Pos(41, 13), Initialized, [])] + [Declared(4, b1, Pos(42, 39), Initialized, [])] + [Referenced(4, a1, Pos(42, 49), false, false, [])] + [OutAssigned(4, [], [])] + [Declared(5, i, Pos(44, 18), Initialized, [])], Declared(5, a1, Pos(44, 27), Initialized, []), 4);
      DeclsInSkip([] + [Declared(4, a1, Pos(41, 13), Initialized, [])] + [Declared(4, b1, Pos(42, 39), Initialized, [])] + [Referenced(4, a1, Pos(42, 49), false, false, [])] + [OutAssigned(4, [], [])] + [Declared(5, i, Pos(44, 18), Initialized, [])] + [Declared(5, a1, Pos(44, 27), Initialized, [])], Referenced(6, i, Pos(44, 36), false, false, []), 4);
      DeclsInSkip([] + [Declared(4, a1, Pos(41, 13), Initialized, [])] + [Declared(4, b1, Pos(42, 39), Initialized, [])] + [Referenced(4, a1, Pos(42, 49), false, false, [])] + [OutAssigned(4, [], [])] + [Declared(5, i, Pos(44, 18), Initialized, [])] + [Declared(5, a1, Pos(44, 27), Initialized, [])] + [Referenced(6, i, Pos(44, 36), false, false, [])], Declared(8, i, Pos(45, 18), Initialized, []), 4);
    } else if sc == 5 {
      DeclsInSkip([], Declared(4, a1, Pos(41, 13), Initialized, []), 5);
      DeclsInSkip([] + [Declared(4, a1, Pos(41, 13), Initialized, [])], Declared(4, b1, Pos(42, 39), Initialized, []), 5);
      DeclsInSkip([] + [Declared(4, a1, Pos(41, 13), Initialized, [])] + [Declared(4, b1, Pos(42, 39), Initialized, [])], Referenced(4, a1, Pos(42, 49), false, false, []), 5);
      DeclsInSkip([] + [Declared(4, a1, Pos(41, 13), Initialized, [])] + [Declared(4, b1, Pos(42, 39), Initialized, [])] + [Referenced(4, a1, Pos(42, 49), false, false, [])], OutAssigned(4, [], []), 5);
      DeclsInAdd([] + [Declared(4, a1, Pos(41, 13), Initialized, [])] + [Declared(4, b1, Pos(42, 39), Initialized, [])] + [Referenced(4, a1, Pos(42, 49), false, false, [])] + [OutAssigned(4, [], [])], Declared(5, i, Pos(44, 18), Initialized, []), 5);
      DeclsInAdd([] + [Declared(4, a1, Pos(41, 13), Initialized, [])] + [Declared(4, b1, Pos(42, 39), Initialized, [])] + [Referenced(4, a1, Pos(42, 49), false, false, [])] + [OutAssigned(4, [], [])] + [Declared(5, i, Pos(44, 18), Initialized, [])], Declared(5, a1, Pos(44, 27), Initialized, []), 5);
      DeclsInSkip([] + [Declared(4, a1, Pos(41, 13), Initialized, [])] + [Declared(4, b1, Pos(42, 39), Initialized, [])] + [Referenced(4, a1, Pos(42, 49), false, false, [])] + [OutAssigned(4, [], [])] + [Declared(5, i, Pos(44, 18), Initialized, [])] + [Declared(5, a1, Pos(44, 27), Initialized, [])], Referenced(6, i, Pos(44, 36), false, false, []), 5);
      DeclsInSkip([] + [Declared(4, a1, Pos(41, 13), Initialized, [])] + [Declared(4, b1, Pos(42, 39), Initialized, [])] + [Referenced(4, a1, Pos(42, 49), false, false, [])] + [OutAssigned(4, [], [])] + [Declared(5, i, Pos(44, 18), Initialized, [])] + [Declared(5, a1, Pos(44, 27), Initialized, [])] + [Referenced(6, i, Pos(44, 36), false, false, [])], Declared(8, i, Pos(45, 18), Initialized, []), 5);
    } else if sc == 8 {
      DeclsInSkip([], Declared(4, a1, Pos(41, 13), Initialized, []), 8);
      DeclsInSkip([] + [Declared(4, a1, Pos(41, 13), Initialized, [])], Declared(4, b1, Pos(42, 39), Initialized, []), 8);
      DeclsInSkip([] + [Declared(4, a1, Pos(41, 13), Initialized, [])] + [Declared(4, b1, Pos(42, 39), Initialized, [])], Referenced(4, a1, Pos(42, 49), false, false, []), 8);
      DeclsInSkip([] + [Declared(4, a1, Pos(41, 13), Initialized, [])] + [Declared(4, b1, Pos(42, 39), Initialized, [])] + [Referenced(4, a1, Pos(42, 49), false, false, [])], OutAssigned(4, [], []), 8);
      DeclsInSkip([] + [Declared(4, a1, Pos(41, 13), Initialized, [])] + [Declared(4, b1, Pos(42, 39), Initialized, [])] + [Referenced(4, a1, Pos(42, 49), false, false, [])] + [OutAssigned(4, [], [])], Declared(5, i, Pos(44, 18), Initialized, []), 8);
      DeclsInSkip([] + [Declared(4, a1, Pos(41, 13), Initialized, [])] + [Declared(4, b1, Pos(42, 39), Initialized, [])] + [Referenced(4, a1, Pos(42, 49), false, false, [])] + [OutAssigned(4, [], [])] + [Declared(5, i, Pos(44, 18), Initialized, [])], Declared(5, a1, Pos(44, 27), Initialized, []), 8);
      DeclsInSkip([] + [Declared(4, a1, Pos(41, 13), Initialized, [])] + [Declared(4, b1, Pos(42, 39), Initialized, [])] + [Referenced(4, a1, Pos(42, 49), false, false, [])] + [OutAssigned(4, [], [])] + [Declared(5, i, Pos(44, 18), Initialized, [])] + [Declared(5, a1, Pos(44, 27), Initialized, [])], Referenced(6, i, Pos(44, 36), false, false, []), 8);
      DeclsInAdd([] + [Declared(4, a1, Pos(41, 13), Initialized, [])] + [Declared(4, b1, Pos(42, 39), Initialized, [])] + [Referenced(4, a1, Pos(42, 49), false, false, [])] + [OutAssigned(4, [], [])] + [Declared(5, i, Pos(44, 18), Initialized, [])] + [Declared(5, a1, Pos(44, 27), Initialized, [])] + [Referenced(6, i, Pos(44, 36), false, false, [])], Declared(8, i, Pos(45, 18), Initialized, []), 8);
    } else {
      DeclsInSkip([], Declared(4, a1, Pos(41, 13), Initialized, []), sc);
      DeclsInSkip([] + [Declared(4, a1, Pos(41, 13), Initialized, [])], Declared(4, b1, Pos(42, 39), Initialized, []), sc);
      DeclsInSkip([] + [Declared(4, a1, Pos(41, 13), Initialized, [])] + [Declared(4, b1, Pos(42, 39), Initialized, [])], Referenced(4, a1, Pos(42, 49), false, false, []), sc);
      DeclsInSkip([] + [Declared(4, a1, Pos(41, 13), Initialized, [])] + [Declared(4, b1, Pos(42, 39), Initialized, [])] + [Referenced(4, a1, Pos(42, 49), false, false, [])], OutAssigned(4, [], []), sc);
      DeclsInSkip([] + [Declared(4, a1, Pos(41, 13), Initialized, [])] + [Declared(4, b1, Pos(42, 39), Initialized, [])] + [Referenced(4, a1, Pos(42, 49), false, false, [])] + [OutAssigned(4, [], [])], Declared(5, i, Pos(44, 18), Initialized, []), sc);
      DeclsInSkip([] + [Declared(4, a1, Pos(41, 13), Initialized, [])] + [Declared(4, b1, Pos(42, 39), Initialized, [])] + [Referenced(4, a1, Pos(42, 49), false, false, [])] + [OutAssigned(4, [], [])] + [Declared(5, i, Pos(44, 18), Initialized, [])], Declared(5, a1, Pos(44, 27), Initialized, []), sc);
      DeclsInSkip([] + [Declared(4, a1, Pos(41, 13), Initialized, [])] + [Declared(4, b1, Pos(42, 39), Initialized, [])] + [Referenced(4, a1, Pos(42, 49), false, false, [])] + [OutAssigned(4, [], [])] + [Declared(5, i, Pos(44, 18), Initialized, [])] + [Declared(5, a1, Pos(44, 27), Initialized, [])], Referenced(6, i, Pos(44, 36), false, false, []), sc);
      DeclsInSkip([] + [Declared(4, a1, Pos(41, 13), Initialized, [])] + [Declared(4, b1, Pos(42, 39), Initialized, [])] + [Referenced(4, a1, Pos(42, 49), false, false, [])] + [OutAssigned(4, [], [])] + [Declared(5, i, Pos(44, 18), Initialized, [])] + [Declared(5, a1, Pos(44, 27), Initialized, [])] + [Referenced(6, i, Pos(44, 36), false, false, [])], Declared(8, i, Pos(45, 18), Initialized, []), sc);
      AppendNil(DeclsIn(evs, sc));
    }
  }

  /** The locals declared once events 8 to 15 follow some events. */
  lemma {:induction false} Decls1(a1: string, b1: string, i: string, a2: string, a3: string, a4: string, a5: string, evs: seq<Event>, sc: nat)
    requires DeclsIn(evs, sc) == DeclaredBy(a1, b1, i, a2, a3, a4, a5, 1, sc)
    ensures DeclsIn(evs + Chunk1(a1, b1, i, a2, a3, a4, a5), sc) == DeclaredBy(a1, b1, i, a2, a3, a4, a5, 2, sc)
  {
    DeclsInAppend(evs, Chunk1(a1, b1, i, a2, a3, a4, a5), sc);
    assert DeclsIn([], sc) == [];
    if sc == 8 {
      DeclsInAdd([], Declared(8, b1, Pos(45, 27), Initialized, []), 8);
      DeclsInSkip([] + [Declared(8, b1, Pos(45, 27), Initialized, [])], Referenced(9, i, Pos(45, 36), false, false, []), 8);
      DeclsInSkip([] + [Declared(8, b1, Pos(45, 27), Initialized, [])] + [Referenced(9, i, Pos(45, 36), false, false, [])], Declared(4, a2, Pos(47, 13), Initialized, []), 8);
      DeclsInSkip([] + [Declared(8, b1, Pos(45, 27), Initialized, [])] + [Referenced(9, i, Pos(45, 36), false, false, [])] + [Declared(4, a2, Pos(47, 13), Initialized, [])], Referenced(4, a2, Pos(48, 34), false, false, []), 8);
      DeclsInSkip([] + [Declared(8, b1, Pos(45, 27), Initialized, [])] + [Referenced(9, i, Pos(45, 36), false, false, [])] + [Declared(4, a2, Pos(47, 13), Initialized, [])] + [Referenced(4, a2, Pos(48, 34), false, false, [])], OutAssigned(4, [], []), 8);
      DeclsInSkip([] + [Declared(8, b1, Pos(45, 27), Initialized, [])] + [Referenced(9, i, Pos(45, 36), false, false, [])] + [Declared(4, a2, Pos(47, 13), Initialized, [])] + [Referenced(4, a2, Pos(48, 34), false, false, [])] + [OutAssigned(4, [], [])], Declared(11, i, Pos(49, 18), Initialized, []), 8);
      DeclsInSkip([] + [Declared(8, b1, Pos(45, 27), Initialized, [])] + [Referenced(9, i, Pos(45, 36), false, false, [])] + [Declared(4, a2, Pos(47, 13), Initialized, [])] + [Referenced(4, a2, Pos(48, 34), false, false, [])] + [OutAssigned(4, [], [])] + [Declared(11, i, Pos(49, 18), Initialized, [])], Referenced(12, i, Pos(49, 25), false, false, []), 8);
      DeclsInSkip([] + [Declared(8, b1, Pos(45, 27), Initialized, [])] + [Referenced(9, i, Pos(45, 36), false, false, [])] + [Declared(4, a2, Pos(47, 13), Initialized, [])] + [Referenced(4, a2, Pos(48, 34), false, false, [])] + [OutAssigned(4, [], [])] + [Declared(11, i, Pos(49, 18), Initialized, [])] + [Referenced(12, i, Pos(49, 25), false, false, [])], Declared(12, a2, Pos(49, 34), Initialized, []), 8);
    } else if sc == 4 {
      DeclsInSkip([], Declared(8, b1, Pos(45, 27), Initialized, []), 4);
      DeclsInSkip([] + [Declared(8, b1, Pos(45, 27), Initialized, [])], Referenced(9, i, Pos(45, 36), false, false, []), 4);
      DeclsInAdd([] + [Declared(8, b1, Pos(45, 27), Initialized, [])] + [Referenced(9, i, Pos(45, 36), false, false, [])], Declared(4, a2, Pos(47, 13), Initialized, []), 4);
      DeclsInSkip([] + [Declared(8, b1, Pos(45, 27), Initialized, [])] + [Referenced(9, i, Pos(45, 36), false, false, [])] + [Declared(4, a2, Pos(47, 13), Initialized, [])], Referenced(4, a2, Pos(48, 34), false, false, []), 4);
      DeclsInSkip([] + [Declared(8, b1, Pos(45, 27), Initialized, [])] + [Referenced(9, i, Pos(45, 36), false, false, [])] + [Declared(4, a2, Pos(47, 13), Initialized, [])] + [Referenced(4, a2, Pos(48, 34), false, false, [])], OutAssigned(4, [], []), 4);
      DeclsInSkip([] + [Declared(8, b1, Pos(45, 27), Initialized, [])] + [Referenced(9, i, Pos(45, 36), false, false, [])] + [Declared(4, a2, Pos(47, 13), Initialized, [])] + [Referenced(4, a2, Pos(48, 34), false, false, [])] + [OutAssigned(4, [], [])], Declared(11, i, Pos(49, 18), Initialized, []), 4);
      DeclsInSkip([] + [Declared(8, b1, Pos(45, 27), Initialized, [])] + [Referenced(9, i, Pos(45, 36), false, false, [])] + [Declared(4, a2, Pos(47, 13), Initialized, [])] + [Referenced(4, a2, Pos(48, 34), false, false, [])] + [OutAssigned(4, [], [])] + [Declared(11, i, Pos(49, 18), Initialized, [])], Referenced(12, i, Pos(49, 25), false, false, []), 4);
      DeclsInSkip([] + [Declared(8, b1, Pos(45, 27), Initialized, [])] + [Referenced(9, i, Pos(45, 36), false, false, [])] + [Declared(4, a2, Pos(47, 13), Initialized, [])] + [Referenced(4, a2, Pos(48, 34), false, false, [])] + [OutAssigned(4, [], [])] + [Declared(11, i, Pos(49, 18), Initialized, [])] + [Referenced(12, i, Pos(49, 25), false, false, [])], Declared(12, a2, Pos(49, 34), Initialized, []), 4);
    } else if sc == 11 {
      DeclsInSkip([], Declared(8, b1, Pos(45, 27), Initialized, []), 11);
      DeclsInSkip([] + [Declared(8, b1, Pos(45, 27), Initialized, [])], Referenced(9, i, Pos(45, 36), false, false, []), 11);
      DeclsInSkip([] + [Declared(8, b1, Pos(45, 27), Initialized, [])] + [Referenced(9, i, Pos(45, 36), false, false, [])], Declared(4, a2, Pos(47, 13), Initialized, []), 11);
      DeclsInSkip([] + [Declared(8, b1, Pos(45, 27), Initialized, [])] + [Referenced(9, i, Pos(45, 36), false, false, [])] + [Declared(4, a2, Pos(47, 13), Initialized, [])], Referenced(4, a2, Pos(48, 34), false, false, []), 11);
      DeclsInSkip([] + [Declared(8, b1, Pos(45, 27), Initialized, [])] + [Referenced(9, i, Pos(45, 36), false, false, [])] + [Declared(4, a2, Pos(47, 13), Initialized, [])] + [Referenced(4, a2, Pos(48, 34), false, false, [])], OutAssigned(4, [], []), 11);
      DeclsInAdd([] + [Declared(8, b1, Pos(45, 27), Initialized, [])] + [Referenced(9, i, Pos(45, 36), false, false, [])] + [Declared(4, a2, Pos(47, 13), Initialized, [])] + [Referenced(4, a2, Pos(48, 34), false, false, [])] + [OutAssigned(4, [], [])], Declared(11, i, Pos(49, 18), Initialized, []), 11);
      DeclsInSkip([] + [Declared(8, b1, Pos(45, 27), Initialized, [])] + [Referenced(9, i, Pos(45, 36), false, false, [])] + [Declared(4, a2, Pos(47, 13), Initialized, [])] + [Referenced(4, a2, Pos(48, 34), false, false, [])] + [OutAssigned(4, [], [])] + [Declared(11, i, Pos(49, 18), Initialized, [])], Referenced(12, i, Pos(49, 25), false, false, []), 11);
      DeclsInSkip([] + [Declared(8, b1, Pos(45, 27), Initialized, [])] + [Referenced(9, i, Pos(45, 36), false, false, [])] + [Declared(4, a2, Pos(47, 13), Initialized, [])] + [Referenced(4, a2, Pos(48, 34), false, false, [])] + [OutAssigned(4, [], [])] + [Declared(11, i, Pos(49, 18), Initialized, [])] + [Referenced(12, i, Pos(49, 25), false, false, [])], Declared(12, a2, Pos(49, 34), Initialized, []), 11);
    } else if sc == 12 {
      DeclsInSkip([], Declared(8, b1, Pos(45, 27), Initialized, []), 12);
      DeclsInSkip([] + [Declared(8, b1, Pos(45, 27), Initialized, [])], Referenced(9, i, Pos(45, 36), false, false, []), 12);
      DeclsInSkip([] + [Declared(8, b1, Pos(45, 27), Initialized, [])] + [Referenced(9, i, Pos(45, 36), false, false, [])], Declared(4, a2, Pos(47, 13), Initialized, []), 12);
      DeclsInSkip([] + [Declared(8, b1, Pos(45, 27), Initialized, [])] + [Referenced(9, i, Pos(45, 36), false, false, [])] + [Declared(4, a2, Pos(47, 13), Initialized, [])], Referenced(4, a2, Pos(48, 34), false, false, []), 12);
      DeclsInSkip([] + [Declared(8, b1, Pos(45, 27), Initialized, [])] + [Referenced(9, i, Pos(45, 36), false, false, [])] + [Declared(4, a2, Pos(47, 13), Initialized, [])] + [Referenced(4, a2, Pos(48, 34), false, false, [])], OutAssigned(4, [], []), 12);
      DeclsInSkip([] + [Declared(8, b1, Pos(45, 27), Initialized, [])] + [Referenced(9, i, Pos(45, 36), false, false, [])] + [Declared(4, a2, Pos(47, 13), Initialized, [])] + [Referenced(4, a2, Pos(48, 34), false, false, [])] + [OutAssigned(4, [], [])], Declared(11, i, Pos(49, 18), Initialized, []), 12);
      DeclsInSkip([] + [Declared(8, b1, Pos(45, 27), Initialized, [])] + [Referenced(9, i, Pos(45, 36), false, false, [])] + [Declared(4, a2, Pos(47, 13), Initialized, [])] + [Referenced(4, a2, Pos(48, 34), false, false, [])] + [OutAssigned(4, [], [])] + [Declared(11, i, Pos(49, 18), Initialized, [])], Referenced(12, i, Pos(49, 25), false, false, []), 12);
      DeclsInAdd([] + [Declared(8, b1, Pos(45, 27), Initialized, [])] + [Referenced(9, i, Pos(45, 36), false, false, [])] + [Declared(4, a2, Pos(47, 13), Initialized, [])] + [Referenced(4, a2, Pos(48, 34), false, false, [])] + [OutAssigned(4, [], [])] + [Declared(11, i, Pos(49, 18), Initialized, [])] + [Referenced(12, i, Pos(49, 25), false, false, [])], Declared(12, a2, Pos(49, 34), Initialized, []), 12);
    } else {
      DeclsInSkip([], Declared(8, b1, Pos(45, 27), Initialized, []), sc);
      DeclsInSkip([] + [Declared(8, b1, Pos(45, 27), Initialized, [])], Referenced(9, i, Pos(45, 36), false, false, []), sc);
      DeclsInSkip([] + [Declared(8, b1, Pos(45, 27), Initialized, [])] + [Referenced(9, i, Pos(45, 36), false, false, [])], Declared(4, a2, Pos(47, 13), Initialized, []), sc);
      DeclsInSkip([] + [Declared(8, b1, Pos(45, 27), Initialized, [])] + [Referenced(9, i, Pos(45, 36), false, false, [])] + [Declared(4, a2, Pos(47, 13), Initialized, [])], Referenced(4, a2, Pos(48, 34), false, false, []), sc);
      DeclsInSkip([] + [Declared(8, b1, Pos(45, 27), Initialized, [])] + [Referenced(9, i, Pos(45, 36), false, false, [])] + [Declared(4, a2, Pos(47, 13), Initialized, [])] + [Referenced(4, a2, Pos(48, 34), false, false, [])], OutAssigned(4, [], []), sc);
      DeclsInSkip([] + [Declared(8, b1, Pos(45, 27), Initialized, [])] + [Referenced(9, i, Pos(45, 36), false, false, [])] + [Declared(4, a2, Pos(47, 13), Initialized, [])] + [Referenced(4, a2, Pos(48, 34), false, false, [])] + [OutAssigned(4, [], [])], Declared(11, i, Pos(49, 18), Initialized, []), sc);
      DeclsInSkip([] + [Declared(8, b1, Pos(45, 27), Initialized, [])] + [Referenced(9, i, Pos(45, 36), false, false, [])] + [Declared(4, a2, Pos(47, 13), Initialized, [])] + [Referenced(4, a2, Pos(48, 34), false, false, [])] + [OutAssigned(4, [], [])] + [Declared(11, i, Pos(49, 18), Initialized, [])], Referenced(12, i, Pos(49, 25), false, false, []), sc);
      DeclsInSkip([] + [Declared(8, b1, Pos(45, 27), Initialized, [])] + [Referenced(9, i, Pos(45, 36), false, false, [])] + [Declared(4, a2, Pos(47, 13), Initialized, [])] + [Referenced(4, a2, Pos(48, 34), false, false, [])] + [OutAssigned(4, [], [])] + [Declared(11, i, Pos(49, 18), Initialized, [])] + [Referenced(12, i, Pos(49, 25), false, false, [])], Declared(12, a2, Pos(49, 34), Initialized, []), sc);
      AppendNil(DeclsIn(evs, sc));
    }
  }

  /** The locals declared once events 16 to 23 follow some events. */
  lemma {:induction false} Decls2(a1: string, b1: string, i: string, a2: string, a3: string, a4: string, a5: string, evs: seq<Event>, sc: nat)
    requires DeclsIn(evs, sc) == DeclaredBy(a1, b1, i, a2, a3, a4, a5, 2, sc)
    ensures DeclsIn(evs + Chunk2(a1, b1, i, a2, a3, a4, a5), sc) == DeclaredBy(a1, b1, i, a2, a3, a4, a5, 3, sc)
  {
    DeclsInAppend(evs, Chunk2(a1, b1, i, a2, a3, a4, a5), sc);
    assert DeclsIn([], sc) == [];
    if sc == 4 {
      DeclsInAdd([], Declared(4, a3, Pos(51, 13), Initialized, []), 4);
      DeclsInSkip([] + [Declared(4, a3, Pos(51, 13), Initialized, [])], Referenced(4, a3, Pos(52, 34), false, false, []), 4);
      DeclsInSkip([] + [Declared(4, a3, Pos(51, 13), Initialized, [])] + [Referenced(4, a3, Pos(52, 34), false, false, [])], OutAssigned(4, [], []), 4);
      DeclsInSkip([] + [Declared(4, a3, Pos(51, 13), Initialized, [])] + [Referenced(4, a3, Pos(52, 34), false, false, [])] + [OutAssigned(4, [], [])], Declared(14, i, Pos(53, 18), Initialized, []), 4);
      DeclsInSkip([] + [Declared(4, a3, Pos(51, 13), Initialized, [])] + [Referenced(4, a3, Pos(52, 34), false, false, [])] + [OutAssigned(4, [], [])] + [Declared(14, i, Pos(53, 18), Initialized, [])], Referenced(15, i, Pos(53, 25), false, false, []), 4);
      DeclsInSkip([] + [Declared(4, a3, Pos(51, 13), Initialized, [])] + [Referenced(4, a3, Pos(52, 34), false, false, [])] + [OutAssigned(4, [], [])] + [Declared(14, i, Pos(53, 18), Initialized, [])] + [Referenced(15, i, Pos(53, 25), false, false, [])], Referenced(15, i, Pos(53, 32), false, false, [3]), 4);
      DeclsInSkip([] + [Declared(4, a3, Pos(51, 13), Initialized, [])] + [Referenced(4, a3, Pos(52, 34), false, false, [])] + [OutAssigned(4, [], [])] + [Declared(14, i, Pos(53, 18), Initialized, [])] + [Referenced(15, i, Pos(53, 25), false, false, [])] + [Referenced(15, i, Pos(53, 32), false, false, [3])], Declared(15, a3, Pos(53, 41), Initialized, [3]), 4);
      DeclsInAdd([] + [Declared(4, a3, Pos(51, 13), Initialized, [])] + [Referenced(4, a3, Pos(52, 34), false, false, [])] + [OutAssigned(4, [], [])] + [Declared(14, i, Pos(53, 18), Initialized, [])] + [Referenced(15, i, Pos(53, 25), false, false, [])] + [Referenced(15, i, Pos(53, 32), false, false, [3])] + [Declared(15, a3, Pos(53, 41), Initialized, [3])], Declared(4, a4, Pos(55, 13), Initialized, []), 4);
    } else if sc == 14 {
      DeclsInSkip([], Declared(4, a3, Pos(51, 13), Initialized, []), 14);
      DeclsInSkip([] + [Declared(4, a3, Pos(51, 13), Initialized, [])], Referenced(4, a3, Pos(52, 34), false, false, []), 14);
      DeclsInSkip([] + [Declared(4, a3, Pos(51, 13), Initialized, [])] + [Referenced(4, a3, Pos(52, 34), false, false, [])], OutAssigned(4, [], []), 14);
      DeclsInAdd([] + [Declared(4, a3, Pos(51, 13), Initialized, [])] + [Referenced(4, a3, Pos(52, 34), false, false, [])] + [OutAssigned(4, [], [])], Declared(14, i, Pos(53, 18), Initialized, []), 14);
      DeclsInSkip([] + [Declared(4, a3, Pos(51, 13), Initialized, [])] + [Referenced(4, a3, Pos(52, 34), false, false, [])] + [OutAssigned(4, [], [])] + [Declared(14, i, Pos(53, 18), Initialized, [])], Referenced(15, i, Pos(53, 25), false, false, []), 14);
      DeclsInSkip([] + [Declared(4, a3, Pos(51, 13), Initialized, [])] + [Referenced(4, a3, Pos(52, 34), false, false, [])] + [OutAssigned(4, [], [])] + [Declared(14, i, Pos(53, 18), Initialized, [])] + [Referenced(15, i, Pos(53, 25), false, false, [])], Referenced(15, i, Pos(53, 32), false, false, [3]), 14);
      DeclsInSkip([] + [Declared(4, a3, Pos(51, 13), Initialized, [])] + [Referenced(4, a3, Pos(52, 34), false, false, [])] + [OutAssigned(4, [], [])] + [Declared(14, i, Pos(53, 18), Initialized, [])] + [Referenced(15, i, Pos(53, 25), false, false, [])] + [Referenced(15, i, Pos(53, 32), false, false, [3])], Declared(15, a3, Pos(53, 41), Initialized, [3]), 14);
      DeclsInSkip([] + [Declared(4, a3, Pos(51, 13), Initialized, [])] + [Referenced(4, a3, Pos(52, 34), false, false, [])] + [OutAssigned(4, [], [])] + [Declared(14, i, Pos(53, 18), Initialized, [])] + [Referenced(15, i, Pos(53, 25), false, false, [])] + [Referenced(15, i, Pos(53, 32), false, false, [3])] + [Declared(15, a3, Pos(53, 41), Initialized, [3])], Declared(4, a4, Pos(55, 13), Initialized, []), 14);
    } else if sc == 15 {
      DeclsInSkip([], Declared(4, a3, Pos(51, 13), Initialized, []), 15);
      DeclsInSkip([] + [Declared(4, a3, Pos(51, 13), Initialized, [])], Referenced(4, a3, Pos(52, 34), false, false, []), 15);
      DeclsInSkip([] + [Declared(4, a3, Pos(51, 13), Initialized, [])] + [Referenced(4, a3, Pos(52, 34), false, false, [])], OutAssigned(4, [], []), 15);
      DeclsInSkip([] + [Declared(4, a3, Pos(51, 13), Initialized, [])] + [Referenced(4, a3, Pos(52, 34), false, false, [])] + [OutAssigned(4, [], [])], Declared(14, i, Pos(53, 18), Initialized, []), 15);
      DeclsInSkip([] + [Declared(4, a3, Pos(51, 13), Initialized, [])] + [Referenced(4, a3, Pos(52, 34), false, false, [])] + [OutAssigned(4, [], [])] + [Declared(14, i, Pos(53, 18), Initialized, [])], Referenced(15, i, Pos(53, 25), false, false, []), 15);
      DeclsInSkip([] + [Declared(4, a3, Pos(51, 13), Initialized, [])] + [Referenced(4, a3, Pos(52, 34), false, false, [])] + [OutAssigned(4, [], [])] + [Declared(14, i, Pos(53, 18), Initialized, [])] + [Referenced(15, i, Pos(53, 25), false, false, [])], Referenced(15, i, Pos(53, 32), false, false, [3]), 15);
      DeclsInAdd([] + [Declared(4, a3, Pos(51, 13), Initialized, [])] + [Referenced(4, a3, Pos(52, 34), false, false, [])] + [OutAssigned(4, [], [])] + [Declared(14, i, Pos(53, 18), Initialized, [])] + [Referenced(15, i, Pos(53, 25), false, false, [])] + [Referenced(15, i, Pos(53, 32), false, false, [3])], Declared(15, a3, Pos(53, 41), Initialized, [3]), 15);
      DeclsInSkip([] + [Declared(4, a3, Pos(51, 13), Initialized, [])] + [Referenced(4, a3, Pos(52, 34), false, false, [])] + [OutAssigned(4, [], [])] + [Declared(14, i, Pos(53, 18), Initialized, [])] + [Referenced(15, i, Pos(53, 25), false, false, [])] + [Referenced(15, i, Pos(53, 32), false, false, [3])] + [Declared(15, a3, Pos(53, 41), Initialized, [3])], Declared(4, a4, Pos(55, 13), Initialized, []), 15);
    } else {
      DeclsInSkip([], Declared(4, a3, Pos(51, 13), Initialized, []), sc);
      DeclsInSkip([] + [Declared(4, a3, Pos(51, 13), Initialized, [])], Referenced(4, a3, Pos(52, 34), false, false, []), sc);
      DeclsInSkip([] + [Declared(4, a3, Pos(51, 13), Initialized, [])] + [Referenced(4, a3, Pos(52, 34), false, false, [])], OutAssigned(4, [], []), sc);
      DeclsInSkip([] + [Declared(4, a3, Pos(51, 13), Initialized, [])] + [Referenced(4, a3, Pos(52, 34), false, false, [])] + [OutAssigned(4, [], [])], Declared(14, i, Pos(53, 18), Initialized, []), sc);
      DeclsInSkip([] + [Declared(4, a3, Pos(51, 13), Initialized, [])] + [Referenced(4, a3, Pos(52, 34), false, false, [])] + [OutAssigned(4, [], [])] + [Declared(14, i, Pos(53, 18), Initialized, [])], Referenced(15, i, Pos(53, 25), false, false, []), sc);
      DeclsInSkip([] + [Declared(4, a3, Pos(51, 13), Initialized, [])] + [Referenced(4, a3, Pos(52, 34), false, false, [])] + [OutAssigned(4, [], [])] + [Declared(14, i, Pos(53, 18), Initialized, [])] + [Referenced(15, i, Pos(53, 25), false, false, [])], Referenced(15, i, Pos(53, 32), false, false, [3]), sc);
      DeclsInSkip([] + [Declared(4, a3, Pos(51, 13), Initialized, [])] + [Referenced(4, a3, Pos(52, 34), false, false, [])] + [OutAssigned(4, [], [])] + [Declared(14, i, Pos(53, 18), Initialized, [])] + [Referenced(15, i, Pos(53, 25), false, false, [])] + [Referenced(15, i, Pos(53, 32), false, false, [3])], Declared(15, a3, Pos(53, 41), Initialized, [3]), sc);
      DeclsInSkip([] + [Declared(4, a3, Pos(51, 13), Initialized, [])] + [Referenced(4, a3, Pos(52, 34), false, false, [])] + [OutAssigned(4, [], [])] + [Declared(14, i, Pos(53, 18), Initialized, [])] + [Referenced(15, i, Pos(53, 25), false, false, [])] + [Referenced(15, i, Pos(53, 32), false, false, [3])] + [Declared(15, a3, Pos(53, 41), Initialized, [3])], Declared(4, a4, Pos(55, 13), Initialized, []), sc);
      AppendNil(DeclsIn(evs, sc));
    }
  }

  /** The locals declared once events 24 to 31 follow some events. */
  lemma {:induction false} Decls3(a1: string, b1: string, i: string, a2: string, a3: string, a4: string, a5: string, evs: seq<Event>, sc: nat)
    requires DeclsIn(evs, sc) == DeclaredBy(a1, b1, i, a2, a3, a4, a5, 3, sc)
    ensures DeclsIn(evs + Chunk3(a1, b1, i, a2, a3, a4, a5), sc) == DeclaredBy(a1, b1, i, a2, a3, a4, a5, 4, sc)
  {
    DeclsInAppend(evs, Chunk3(a1, b1, i, a2, a3, a4, a5), sc);
    assert DeclsIn([], sc) == [];
    if sc == 17 {
      DeclsInSkip([], Referenced(4, a4, Pos(56, 34), false, false, []), 17);
      DeclsInSkip([] + [Referenced(4, a4, Pos(56, 34), false, false, [])], OutAssigned(4, [], []), 17);
      DeclsInAdd([] + [Referenced(4, a4, Pos(56, 34), false, false, [])] + [OutAssigned(4, [], [])], Declared(17, i, Pos(57, 18), Initialized, []), 17);
      DeclsInSkip([] + [Referenced(4, a4, Pos(56, 34), false, false, [])] + [OutAssigned(4, [], [])] + [Declared(17, i, Pos(57, 18), Initialized, [])], Referenced(18, i, Pos(57, 25), false, false, []), 17);
      DeclsInSkip([] + [Referenced(4, a4, Pos(56, 34), false, false, [])] + [OutAssigned(4, [], [])] + [Declared(17, i, Pos(57, 18), Initialized, [])] + [Referenced(18, i, Pos(57, 25), false, false, [])], Declared(19, a4, Pos(58, 42), Initialized, [4]), 17);
      DeclsInSkip([] + [Referenced(4, a4, Pos(56, 34), false, false, [])] + [OutAssigned(4, [], [])] + [Declared(17, i, Pos(57, 18), Initialized, [])] + [Referenced(18, i, Pos(57, 25), false, false, [])] + [Declared(19, a4, Pos(58, 42), Initialized, [4])], OutAssigned(19, [], [4]), 17);
      DeclsInSkip([] + [Referenced(4, a4, Pos(56, 34), false, false, [])] + [OutAssigned(4, [], [])] + [Declared(17, i, Pos(57, 18), Initialized, [])] + [Referenced(18, i, Pos(57, 25), false, false, [])] + [Declared(19, a4, Pos(58, 42), Initialized, [4])] + [OutAssigned(19, [], [4])], Referenced(18, i, Pos(57, 32), false, false, [4]), 17);
      DeclsInSkip([] + [Referenced(4, a4, Pos(56, 34), false, false, [])] + [OutAssigned(4, [], [])] + [Declared(17, i, Pos(57, 18), Initialized, [])] + [Referenced(18, i, Pos(57, 25), false, false, [])] + [Declared(19, a4, Pos(58, 42), Initialized, [4])] + [OutAssigned(19, [], [4])] + [Referenced(18, i, Pos(57, 32), false, false, [4])], Declared(4, a5, Pos(60, 13), Initialized, []), 17);
    } else if sc == 19 {
      DeclsInSkip([], Referenced(4, a4, Pos(56, 34), false, false, []), 19);
      DeclsInSkip([] + [Referenced(4, a4, Pos(56, 34), false, false, [])], OutAssigned(4, [], []), 19);
      DeclsInSkip([] + [Referenced(4, a4, Pos(56, 34), false, false, [])] + [OutAssigned(4, [], [])], Declared(17, i, Pos(57, 18), Initialized, []), 19);
      DeclsInSkip([] + [Referenced(4, a4, Pos(56, 34), false, false, [])] + [OutAssigned(4, [], [])] + [Declared(17, i, Pos(57, 18), Initialized, [])], Referenced(18, i, Pos(57, 25), false, false, []), 19);
      DeclsInAdd([] + [Referenced(4, a4, Pos(56, 34), false, false, [])] + [OutAssigned(4, [], [])] + [Declared(17, i, Pos(57, 18), Initialized, [])] + [Referenced(18, i, Pos(57, 25), false, false, [])], Declared(19, a4, Pos(58, 42), Initialized, [4]), 19);
      DeclsInSkip([] + [Referenced(4, a4, Pos(56, 34), false, false, [])] + [OutAssigned(4, [], [])] + [Declared(17, i, Pos(57, 18), Initialized, [])] + [Referenced(18, i, Pos(57, 25), false, false, [])] + [Declared(19, a4, Pos(58, 42), Initialized, [4])], OutAssigned(19, [], [4]), 19);
      DeclsInSkip([] + [Referenced(4, a4, Pos(56, 34), false, false, [])] + [OutAssigned(4, [], [])] + [Declared(17, i, Pos(57, 18), Initialized, [])] + [Referenced(18, i, Pos(57, 25), false, false, [])] + [Declared(19, a4, Pos(58, 42), Initialized, [4])] + [OutAssigned(19, [], [4])], Referenced(18, i, Pos(57, 32), false, false, [4]), 19);
      DeclsInSkip([] + [Referenced(4, a4, Pos(56, 34), false, false, [])] + [OutAssigned(4, [], [])] + [Declared(17, i, Pos(57, 18), Initialized, [])] + [Referenced(18, i, Pos(57, 25), false, false, [])] + [Declared(19, a4, Pos(58, 42), Initialized, [4])] + [OutAssigned(19, [], [4])] + [Referenced(18, i, Pos(57, 32), false, false, [4])], Declared(4, a5, Pos(60, 13), Initialized, []), 19);
    } else if sc == 4 {
      DeclsInSkip([], Referenced(4, a4, Pos(56, 34), false, false, []), 4);
      DeclsInSkip([] + [Referenced(4, a4, Pos(56, 34), false, false, [])], OutAssigned(4, [], []), 4);
      DeclsInSkip([] + [Referenced(4, a4, Pos(56, 34), false, false, [])] + [OutAssigned(4, [], [])], Declared(17, i, Pos(57, 18), Initialized, []), 4);
      DeclsInSkip([] + [Referenced(4, a4, Pos(56, 34), false, false, [])] + [OutAssigned(4, [], [])] + [Declared(17, i, Pos(57, 18), Initialized, [])], Referenced(18, i, Pos(57, 25), false, false, []), 4);
      DeclsInSkip([] + [Referenced(4, a4, Pos(56, 34), false, false, [])] + [OutAssigned(4, [], [])] + [Declared(17, i, Pos(57, 18), Initialized, [])] + [Referenced(18, i, Pos(57, 25), false, false, [])], Declared(19, a4, Pos(58, 42), Initialized, [4]), 4);
      DeclsInSkip([] + [Referenced(4, a4, Pos(56, 34), false, false, [])] + [OutAssigned(4, [], [])] + [Declared(17, i, Pos(57, 18), Initialized, [])] + [Referenced(18, i, Pos(57, 25), false, false, [])] + [Declared(19, a4, Pos(58, 42), Initialized, [4])], OutAssigned(19, [], [4]), 4);
      DeclsInSkip([] + [Referenced(4, a4, Pos(56, 34), false, false, [])] + [OutAssigned(4, [], [])] + [Declared(17, i, Pos(57, 18), Initialized, [])] + [Referenced(18, i, Pos(57, 25), false, false, [])] + [Declared(19, a4, Pos(58, 42), Initialized, [4])] + [OutAssigned(19, [], [4])], Referenced(18, i, Pos(57, 32), false, false, [4]), 4);
      DeclsInAdd([] + [Referenced(4, a4, Pos(56, 34), false, false, [])] + [OutAssigned(4, [], [])] + [Declared(17, i, Pos(57, 18), Initialized, [])] + [Referenced(18, i, Pos(57, 25), false, false, [])] + [Declared(19, a4, Pos(58, 42), Initialized, [4])] + [OutAssigned(19, [], [4])] + [Referenced(18, i, Pos(57, 32), false, false, [4])], Declared(4, a5, Pos(60, 13), Initialized, []), 4);
    } else {
      DeclsInSkip([], Referenced(4, a4, Pos(56, 34), false, false, []), sc);
      DeclsInSkip([] + [Referenced(4, a4, Pos(56, 34), false, false, [])], OutAssigned(4, [], []), sc);
      DeclsInSkip([] + [Referenced(4, a4, Pos(56, 34), false, false, [])] + [OutAssigned(4, [], [])], Declared(17, i, Pos(57, 18), Initialized, []), sc);
      DeclsInSkip([] + [Referenced(4, a4, Pos(56, 34), false, false, [])] + [OutAssigned(4, [], [])] + [Declared(17, i, Pos(57, 18), Initialized, [])], Referenced(18, i, Pos(57, 25), false, false, []), sc);
      DeclsInSkip([] + [Referenced(4, a4, Pos(56, 34), false, false, [])] + [OutAssigned(4, [], [])] + [Declared(17, i, Pos(57, 18), Initialized, [])] + [Referenced(18, i, Pos(57, 25), false, false, [])], Declared(19, a4, Pos(58, 42), Initialized, [4]), sc);
      DeclsInSkip([] + [Referenced(4, a4, Pos(56, 34), false, false, [])] + [OutAssigned(4, [], [])] + [Declared(17, i, Pos(57, 18), Initialized, [])] + [Referenced(18, i, Pos(57, 25), false, false, [])] + [Declared(19, a4, Pos(58, 42), Initialized, [4])], OutAssigned(19, [], [4]), sc);
      DeclsInSkip([] + [Referenced(4, a4, Pos(56, 34), false, false, [])] + [OutAssigned(4, [], [])] + [Declared(17, i, Pos(57, 18), Initialized, [])] + [Referenced(18, i, Pos(57, 25), false, false, [])] + [Declared(19, a4, Pos(58, 42), Initialized, [4])] + [OutAssigned(19, [], [4])], Referenced(18, i, Pos(57, 32), false, false, [4]), sc);
      DeclsInSkip([] + [Referenced(4, a4, Pos(56, 34), false, false, [])] + [OutAssigned(4, [], [])] + [Declared(17, i, Pos(57, 18), Initialized, [])] + [Referenced(18, i, Pos(57, 25), false, false, [])] + [Declared(19, a4, Pos(58, 42), Initialized, [4])] + [OutAssigned(19, [], [4])] + [Referenced(18, i, Pos(57, 32), false, false, [4])], Declared(4, a5, Pos(60, 13), Initialized, []), sc);
      AppendNil(DeclsIn(evs, sc));
    }
  }

  /** The locals declared once events 32 to 38 follow some events. */
  lemma {:induction false} Decls4(a1: string, b1: string, i: string, a2: string, a3: string, a4: string, a5: string, evs: seq<Event>, sc: nat)
    requires DeclsIn(evs, sc) == DeclaredBy(a1, b1, i, a2, a3, a4, a5, 4, sc)
    ensures DeclsIn(evs + Chunk4(a1, b1, i, a2, a3, a4, a5), sc) == DeclaredBy(a1, b1, i, a2, a3, a4, a5, 5, sc)
  {
    DeclsInAppend(evs, Chunk4(a1, b1, i, a2, a3, a4, a5), sc);
    assert DeclsIn([], sc) == [];
    if sc == 20 {
      DeclsInSkip([], Referenced(4, a5, Pos(61, 34), false, false, []), 20);
      DeclsInSkip([] + [Referenced(4, a5, Pos(61, 34), false, false, [])], OutAssigned(4, [], []), 20);
      DeclsInAdd([] + [Referenced(4, a5, Pos(61, 34), false, false, [])] + [OutAssigned(4, [], [])], Declared(20, i, Pos(62, 18), Initialized, []), 20);
      DeclsInSkip([] + [Referenced(4, a5, Pos(61, 34), false, false, [])] + [OutAssigned(4, [], [])] + [Declared(20, i, Pos(62, 18), Initialized, [])], Referenced(21, i, Pos(62, 25), false, false, []), 20);
      DeclsInSkip([] + [Referenced(4, a5, Pos(61, 34), false, false, [])] + [OutAssigned(4, [], [])] + [Declared(20, i, Pos(62, 18), Initialized, [])] + [Referenced(21, i, Pos(62, 25), false, false, [])], Declared(22, a5, Pos(64, 42), Initialized, [5]), 20);
      DeclsInSkip([] + [Referenced(4, a5, Pos(61, 34), false, false, [])] + [OutAssigned(4, [], [])] + [Declared(20, i, Pos(62, 18), Initialized, [])] + [Referenced(21, i, Pos(62, 25), false, false, [])] + [Declared(22, a5, Pos(64, 42), Initialized, [5])], OutAssigned(22, [], [5]), 20);
      DeclsInSkip([] + [Referenced(4, a5, Pos(61, 34), false, false, [])] + [OutAssigned(4, [], [])] + [Declared(20, i, Pos(62, 18), Initialized, [])] + [Referenced(21, i, Pos(62, 25), false, false, [])] + [Declared(22, a5, Pos(64, 42), Initialized, [5])] + [OutAssigned(22, [], [5])], Referenced(21, i, Pos(62, 32), false, false, [5]), 20);
    } else if sc == 22 {
      DeclsInSkip([], Referenced(4, a5, Pos(61, 34), false, false, []), 22);
      DeclsInSkip([] + [Referenced(4, a5, Pos(61, 34), false, false, [])], OutAssigned(4, [], []), 22);
      DeclsInSkip([] + [Referenced(4, a5, Pos(61, 34), false, false, [])] + [OutAssigned(4, [], [])], Declared(20, i, Pos(62, 18), Initialized, []), 22);
      DeclsInSkip([] + [Referenced(4, a5, Pos(61, 34), false, false, [])] + [OutAssigned(4, [], [])] + [Declared(20, i, Pos(62, 18), Initialized, [])], Referenced(21, i, Pos(62, 25), false, false, []), 22);
      DeclsInAdd([] + [Referenced(4, a5, Pos(61, 34), false, false, [])] + [OutAssigned(4, [], [])] + [Declared(20, i, Pos(62, 18), Initialized, [])] + [Referenced(21, i, Pos(62, 25), false, false, [])], Declared(22, a5, Pos(64, 42), Initialized, [5]), 22);
      DeclsInSkip([] + [Referenced(4, a5, Pos(61, 34), false, false, [])] + [OutAssigned(4, [], [])] + [Declared(20, i, Pos(62, 18), Initialized, [])] + [Referenced(21, i, Pos(62, 25), false, false, [])] + [Declared(22, a5, Pos(64, 42), Initialized, [5])], OutAssigned(22, [], [5]), 22);
      DeclsInSkip([] + [Referenced(4, a5, Pos(61, 34), false, false, [])] + [OutAssigned(4, [], [])] + [Declared(20, i, Pos(62, 18), Initialized, [])] + [Referenced(21, i, Pos(62, 25), false, false, [])] + [Declared(22, a5, Pos(64, 42), Initialized, [5])] + [OutAssigned(22, [], [5])], Referenced(21, i, Pos(62, 32), false, false, [5]), 22);
    } else {
      DeclsInSkip([], Referenced(4, a5, Pos(61, 34), false, false, []), sc);
      DeclsInSkip([] + [Referenced(4, a5, Pos(61, 34), false, false, [])], OutAssigned(4, [], []), sc);
      DeclsInSkip([] + [Referenced(4, a5, Pos(61, 34), false, false, [])] + [OutAssigned(4, [], [])], Declared(20, i, Pos(62, 18), Initialized, []), sc);
      DeclsInSkip([] + [Referenced(4, a5, Pos(61, 34), false, false, [])] + [OutAssigned(4, [], [])] + [Declared(20, i, Pos(62, 18), Initialized, [])], Referenced(21, i, Pos(62, 25), false, false, []), sc);
      DeclsInSkip([] + [Referenced(4, a5, Pos(61, 34), false, false, [])] + [OutAssigned(4, [], [])] + [Declared(20, i, Pos(62, 18), Initialized, [])] + [Referenced(21, i, Pos(62, 25), false, false, [])], Declared(22, a5, Pos(64, 42), Initialized, [5]), sc);
      DeclsInSkip([] + [Referenced(4, a5, Pos(61, 34), false, false, [])] + [OutAssigned(4, [], [])] + [Declared(20, i, Pos(62, 18), Initialized, [])] + [Referenced(21, i, Pos(62, 25), false, false, [])] + [Declared(22, a5, Pos(64, 42), Initialized, [5])], OutAssigned(22, [], [5]), sc);
      DeclsInSkip([] + [Referenced(4, a5, Pos(61, 34), false, false, [])] + [OutAssigned(4, [], [])] + [Declared(20, i, Pos(62, 18), Initialized, [])] + [Referenced(21, i, Pos(62, 25), false, false, [])] + [Declared(22, a5, Pos(64, 42), Initialized, [5])] + [OutAssigned(22, [], [5])], Referenced(21, i, Pos(62, 32), false, false, [5]), sc);
      AppendNil(DeclsIn(evs, sc));
    }
  }

  lemma {:induction false} DeclsStage0(a1: string, b1: string, i: string, a2: string, a3: string, a4: string, a5: string, evs: seq<Event>, sc: nat)
    requires DeclsIn(evs, sc) == DeclaredBy(a1, b1, i, a2, a3, a4, a5, 0, sc)
    ensures DeclsIn(evs + Chunk0(a1, b1, i, a2, a3, a4, a5) + Chunk1(a1, b1, i, a2, a3, a4, a5) + Chunk2(a1, b1, i, a2, a3, a4, a5) + Chunk3(a1, b1, i, a2, a3, a4, a5) + Chunk4(a1, b1, i, a2, a3, a4, a5), sc) == DeclaredBy(a1, b1, i, a2, a3, a4, a5, 5, sc)
  {
    Decls0(a1, b1, i, a2, a3, a4, a5, evs, sc);
    Decls1(a1, b1, i, a2, a3, a4, a5, evs + Chunk0(a1, b1, i, a2, a3, a4, a5), sc);
    Decls2(a1, b1, i, a2, a3, a4, a5, evs + Chunk0(a1, b1, i, a2, a3, a4, a5) + Chunk1(a1, b1, i, a2, a3, a4, a5), sc);
    Decls3(a1, b1, i, a2, a3, a4, a5, evs + Chunk0(a1, b1, i, a2, a3, a4, a5) + Chunk1(a1, b1, i, a2, a3, a4, a5) + Chunk2(a1, b1, i, a2, a3, a4, a5), sc);
    Decls4(a1, b1, i, a2, a3, a4, a5, evs + Chunk0(a1, b1, i, a2, a3, a4, a5) + Chunk1(a1, b1, i, a2, a3, a4, a5) + Chunk2(a1, b1, i, a2, a3, a4, a5) + Chunk3(a1, b1, i, a2, a3, a4, a5), sc);
  }

  /** The locals of every scope of a tree whose events are the test's, as the table gives them. */
  ghost predicate LocalsFit(a1: string, b1: string, i: string, a2: string, a3: string, a4: string, a5: string, tr: Tree) {
    forall sc: nat {:trigger DeclaredBy(a1, b1, i, a2, a3, a4, a5, 5, sc)} :: LocalsOf(tr, sc) == DeclaredBy(a1, b1, i, a2, a3, a4, a5, 5, sc)
  }

  /** The locals of every scope. */
  lemma {:induction false} LocalsAll(a1: string, b1: string, i: string, a2: string, a3: string, a4: string, a5: string, tr: Tree)
    requires tr.events == Trace(a1, b1, i, a2, a3, a4, a5)
    ensures LocalsFit(a1, b1, i, a2, a3, a4, a5, tr)
  {
    forall sc: nat
      ensures LocalsOf(tr, sc) == DeclaredBy(a1, b1, i, a2, a3, a4, a5, 5, sc)
    {
      assert DeclsIn([], sc) == [] == DeclaredBy(a1, b1, i, a2, a3, a4, a5, 0, sc);
      DeclsStage0(a1, b1, i, a2, a3, a4, a5, [], sc);
    }
  }

  /** The locals scope 0 declares, in order. */
  lemma {:induction false} Locals0(a1: string, b1: string, i: string, a2: string, a3: string, a4: string, a5: string)
    ensures DeclaredBy(a1, b1, i, a2, a3, a4, a5, 5, 0) == []
  {
    AppendNil([]);
    assert DeclaredBy(a1, b1, i, a2, a3, a4, a5, 1, 0) == [];
    assert DeclaredBy(a1, b1, i, a2, a3, a4, a5, 2, 0) == [];
    assert DeclaredBy(a1, b1, i, a2, a3, a4, a5, 3, 0) == [];
    assert DeclaredBy(a1, b1, i, a2, a3, a4, a5, 4, 0) == [];
    assert DeclaredBy(a1, b1, i, a2, a3, a4, a5, 5, 0) == [];
  }

  /** The locals scope 3 declares, in order. */
  lemma {:induction false} Locals3(a1: string, b1: string, i: string, a2: string, a3: string, a4: string, a5: string)
    ensures DeclaredBy(a1, b1, i, a2, a3, a4, a5, 5, 3) == []
  {
    AppendNil([]);
    assert DeclaredBy(a1, b1, i, a2, a3, a4, a5, 1, 3) == [];
    assert DeclaredBy(a1, b1, i, a2, a3, a4, a5, 2, 3) == [];
    assert DeclaredBy(a1, b1, i, a2, a3, a4, a5, 3, 3) == [];
    assert DeclaredBy(a1, b1, i, a2, a3, a4, a5, 4, 3) == [];
    assert DeclaredBy(a1, b1, i, a2, a3, a4, a5, 5, 3) == [];
  }

  /** The locals scope 4 declares, in order. */
  lemma {:induction false} Locals4(a1: string, b1: string, i: string, a2: string, a3: string, a4: string, a5: string)
    ensures DeclaredBy(a1, b1, i, a2, a3, a4, a5, 5, 4) == [Local(a1, Pos(41, 13)), Local(b1, Pos(42, 39)), Local(a2, Pos(47, 13)), Local(a3, Pos(51, 13)), Local(a4, Pos(55, 13)), Local(a5, Pos(60, 13))]
  {
    assert DeclaredBy(a1, b1, i, a2, a3, a4, a5, 1, 4) == [Local(a1, Pos(41, 13)), Local(b1, Pos(42, 39))];
    assert DeclaredBy(a1, b1, i, a2, a3, a4, a5, 2, 4) == [Local(a1, Pos(41, 13)), Local(b1, Pos(42, 39)), Local(a2, Pos(47, 13))];
    assert DeclaredBy(a1, b1, i, a2, a3, a4, a5, 3, 4) == [Local(a1, Pos(41, 13)), Local(b1, Pos(42, 39)), Local(a2, Pos(47, 13)), Local(a3, Pos(51, 13)), Local(a4, Pos(55, 13))];
    assert DeclaredBy(a1, b1, i, a2, a3, a4, a5, 4, 4) == [Local(a1, Pos(41, 13)), Local(b1, Pos(42, 39)), Local(a2, Pos(47, 13)), Local(a3, Pos(51, 13)), Local(a4, Pos(55, 13)), Local(a5, Pos(60, 13))];
    AppendNil([Local(a1, Pos(41, 13)), Local(b1, Pos(42, 39)), Local(a2, Pos(47, 13)), Local(a3, Pos(51, 13)), Local(a4, Pos(55, 13)), Local(a5, Pos(60, 13))]);
    assert DeclaredBy(a1, b1, i, a2, a3, a4, a5, 5, 4) == [Local(a1, Pos(41, 13)), Local(b1, Pos(42, 39)), Local(a2, Pos(47, 13)), Local(a3, Pos(51, 13)), Local(a4, Pos(55, 13)), Local(a5, Pos(60, 13))];
  }

  /** The locals scope 5 declares, in order. */
  lemma {:induction false} Locals5(a1: string, b1: string, i: string, a2: string, a3: string, a4: string, a5: string)
    ensures DeclaredBy(a1, b1, i, a2, a3, a4, a5, 5, 5) == [Local(i, Pos(44, 18)), Local(a1, Pos(44, 27))]
  {
    assert DeclaredBy(a1, b1, i, a2, a3, a4, a5, 1, 5) == [Local(i, Pos(44, 18)), Local(a1, Pos(44, 27))];
    AppendNil([Local(i, Pos(44, 18)), Local(a1, Pos(44, 27))]);
    assert DeclaredBy(a1, b1, i, a2, a3, a4, a5, 2, 5) == [Local(i, Pos(44, 18)), Local(a1, Pos(44, 27))];
    assert DeclaredBy(a1, b1, i, a2, a3, a4, a5, 3, 5) == [Local(i, Pos(44, 18)), Local(a1, Pos(44, 27))];
    assert DeclaredBy(a1, b1, i, a2, a3, a4, a5, 4, 5) == [Local(i, Pos(44, 18)), Local(a1, Pos(44, 27))];
    assert DeclaredBy(a1, b1, i, a2, a3, a4, a5, 5, 5) == [Local(i, Pos(44, 18)), Local(a1, Pos(44, 27))];
  }

  /** The locals scope 6 declares, in order. */
  lemma {:induction false} Locals6(a1: string, b1: string, i: string, a2: string, a3: string, a4: string, a5: string)
    ensures DeclaredBy(a1, b1, i, a2, a3, a4, a5, 5, 6) == []
  {
    AppendNil([]);
    assert DeclaredBy(a1, b1, i, a2, a3, a4, a5, 1, 6) == [];
    assert DeclaredBy(a1, b1, i, a2, a3, a4, a5, 2, 6) == [];
    assert DeclaredBy(a1, b1, i, a2, a3, a4, a5, 3, 6) == [];
    assert DeclaredBy(a1, b1, i, a2, a3, a4, a5, 4, 6) == [];
    assert DeclaredBy(a1, b1, i, a2, a3, a4, a5, 5, 6) == [];
  }

  /** The locals scope 8 declares, in order. */
  lemma {:induction false} Locals8(a1: string, b1: string, i: string, a2: string, a3: string, a4: string, a5: string)
    ensures DeclaredBy(a1, b1, i, a2, a3, a4, a5, 5, 8) == [Local(i, Pos(45, 18)), Local(b1, Pos(45, 27))]
  {
    assert DeclaredBy(a1, b1, i, a2, a3, a4, a5, 1, 8) == [Local(i, Pos(45, 18))];
    assert DeclaredBy(a1, b1, i, a2, a3, a4, a5, 2, 8) == [Local(i, Pos(45, 18)), Local(b1, Pos(45, 27))];
    AppendNil([Local(i, Pos(45, 18)), Local(b1, Pos(45, 27))]);
    assert DeclaredBy(a1, b1, i, a2, a3, a4, a5, 3, 8) == [Local(i, Pos(45, 18)), Local(b1, Pos(45, 27))];
    assert DeclaredBy(a1, b1, i, a2, a3, a4, a5, 4, 8) == [Local(i, Pos(45, 18)), Local(b1, Pos(45, 27))];
    assert DeclaredBy(a1, b1, i, a2, a3, a4, a5, 5, 8) == [Local(i, Pos(45, 18)), Local(b1, Pos(45, 27))];
  }

  /** The locals scope 9 declares, in order. */
  lemma {:induction false} Locals9(a1: string, b1: string, i: string, a2: string, a3: string, a4: string, a5: string)
    ensures DeclaredBy(a1, b1, i, a2, a3, a4, a5, 5, 9) == []
  {
    AppendNil([]);
    assert DeclaredBy(a1, b1, i, a2, a3, a4, a5, 1, 9) == [];
    assert DeclaredBy(a1, b1, i, a2, a3, a4, a5, 2, 9) == [];
    assert DeclaredBy(a1, b1, i, a2, a3, a4, a5, 3, 9) == [];
    assert DeclaredBy(a1, b1, i, a2, a3, a4, a5, 4, 9) == [];
    assert DeclaredBy(a1, b1, i, a2, a3, a4, a5, 5, 9) == [];
  }

  /** The locals scope 11 declares, in order. */
  lemma {:induction false} Locals11(a1: string, b1: string, i: string, a2: string, a3: string, a4: string, a5: string)
    ensures DeclaredBy(a1, b1, i, a2, a3, a4, a5, 5, 11) == [Local(i, Pos(49, 18))]
  {
    AppendNil([]);
    assert DeclaredBy(a1, b1, i, a2, a3, a4, a5, 1, 11) == [];
    assert DeclaredBy(a1, b1, i, a2, a3, a4, a5, 2, 11) == [Local(i, Pos(49, 18))];
    AppendNil([Local(i, Pos(49, 18))]);
    assert DeclaredBy(a1, b1, i, a2, a3, a4, a5, 3, 11) == [Local(i, Pos(49, 18))];
    assert DeclaredBy(a1, b1, i, a2, a3, a4, a5, 4, 11) == [Local(i, Pos(49, 18))];
    assert DeclaredBy(a1, b1, i, a2, a3, a4, a5, 5, 11) == [Local(i, Pos(49, 18))];
  }

  /** The locals scope 12 declares, in order. */
  lemma {:induction false} Locals12(a1: string, b1: string, i: string, a2: string, a3: string, a4: string, a5: string)
    ensures DeclaredBy(a1, b1, i, a2, a3, a4, a5, 5, 12) == [Local(a2, Pos(49, 34))]
  {
    AppendNil([]);
    assert DeclaredBy(a1, b1, i, a2, a3, a4, a5, 1, 12) == [];
    assert DeclaredBy(a1, b1, i, a2, a3, a4, a5, 2, 12) == [Local(a2, Pos(49, 34))];
    AppendNil([Local(a2, Pos(49, 34))]);
    assert DeclaredBy(a1, b1, i, a2, a3, a4, a5, 3, 12) == [Local(a2, Pos(49, 34))];
    assert DeclaredBy(a1, b1, i, a2, a3, a4, a5, 4, 12) == [Local(a2, Pos(49, 34))];
    assert DeclaredBy(a1, b1, i, a2, a3, a4, a5, 5, 12) == [Local(a2, Pos(49, 34))];
  }

  /** The locals scope 14 declares, in order. */
  lemma {:induction false} Locals14(a1: string, b1: string, i: string, a2: string, a3: string, a4: string, a5: string)
    ensures DeclaredBy(a1, b1, i, a2, a3, a4, a5, 5, 14) == [Local(i, Pos(53, 18))]
  {
    AppendNil([]);
    assert DeclaredBy(a1, b1, i, a2, a3, a4, a5, 1, 14) == [];
    assert DeclaredBy(a1, b1, i, a2, a3, a4, a5, 2, 14) == [];
    assert DeclaredBy(a1, b1, i, a2, a3, a4, a5, 3, 14) == [Local(i, Pos(53, 18))];
    AppendNil([Local(i, Pos(53, 18))]);
    assert DeclaredBy(a1, b1, i, a2, a3, a4, a5, 4, 14) == [Local(i, Pos(53, 18))];
    assert DeclaredBy(a1, b1, i, a2, a3, a4, a5, 5, 14) == [Local(i, Pos(53, 18))];
  }

  /** The locals scope 15 declares, in order. */
  lemma {:induction false} Locals15(a1: string, b1: string, i: string, a2: string, a3: string, a4: string, a5: string)
    ensures DeclaredBy(a1, b1, i, a2, a3, a4, a5, 5, 15) == [Local(a3, Pos(53, 41))]
  {
    AppendNil([]);
    assert DeclaredBy(a1, b1, i, a2, a3, a4, a5, 1, 15) == [];
    assert DeclaredBy(a1, b1, i, a2, a3, a4, a5, 2, 15) == [];
    assert DeclaredBy(a1, b1, i, a2, a3, a4, a5, 3, 15) == [Local(a3, Pos(53, 41))];
    AppendNil([Local(a3, Pos(53, 41))]);
    assert DeclaredBy(a1, b1, i, a2, a3, a4, a5, 4, 15) == [Local(a3, Pos(53, 41))];
    assert DeclaredBy(a1, b1, i, a2, a3, a4, a5, 5, 15) == [Local(a3, Pos(53, 41))];
  }

  /** The locals scope 17 declares, in order. */
  lemma {:induction false} Locals17(a1: string, b1: string, i: string, a2: string, a3: string, a4: string, a5: string)
    ensures DeclaredBy(a1, b1, i, a2, a3, a4, a5, 5, 17) == [Local(i, Pos(57, 18))]
  {
    AppendNil([]);
    assert DeclaredBy(a1, b1, i, a2, a3, a4, a5, 1, 17) == [];
    assert DeclaredBy(a1, b1, i, a2, a3, a4, a5, 2, 17) == [];
    assert DeclaredBy(a1, b1, i, a2, a3, a4, a5, 3, 17) == [];
    assert DeclaredBy(a1, b1, i, a2, a3, a4, a5, 4, 17) == [Local(i, Pos(57, 18))];
    AppendNil([Local(i, Pos(57, 18))]);
    assert DeclaredBy(a1, b1, i, a2, a3, a4, a5, 5, 17) == [Local(i, Pos(57, 18))];
  }

  /** The locals scope 18 declares, in order. */
  lemma {:induction false} Locals18(a1: string, b1: string, i: string, a2: string, a3: string, a4: string, a5: string)
    ensures DeclaredBy(a1, b1, i, a2, a3, a4, a5, 5, 18) == []
  {
    AppendNil([]);
    assert DeclaredBy(a1, b1, i, a2, a3, a4, a5, 1, 18) == [];
    assert DeclaredBy(a1, b1, i, a2, a3, a4, a5, 2, 18) == [];
    assert DeclaredBy(a1, b1, i, a2, a3, a4, a5, 3, 18) == [];
    assert DeclaredBy(a1, b1, i, a2, a3, a4, a5, 4, 18) == [];
    assert DeclaredBy(a1, b1, i, a2, a3, a4, a5, 5, 18) == [];
  }

  /** The locals scope 19 declares, in order. */
  lemma {:induction false} Locals19(a1: string, b1: string, i: string, a2: string, a3: string, a4: string, a5: string)
    ensures DeclaredBy(a1, b1, i, a2, a3, a4, a5, 5, 19) == [Local(a4, Pos(58, 42))]
  {
    AppendNil([]);
    assert DeclaredBy(a1, b1, i, a2, a3, a4, a5, 1, 19) == [];
    assert DeclaredBy(a1, b1, i, a2, a3, a4, a5, 2, 19) == [];
    assert DeclaredBy(a1, b1, i, a2, a3, a4, a5, 3, 19) == [];
    assert DeclaredBy(a1, b1, i, a2, a3, a4, a5, 4, 19) == [Local(a4, Pos(58, 42))];
    AppendNil([Local(a4, Pos(58, 42))]);
    assert DeclaredBy(a1, b1, i, a2, a3, a4, a5, 5, 19) == [Local(a4, Pos(58, 42))];
  }

  /** The locals scope 20 declares, in order. */
  lemma {:induction false} Locals20(a1: string, b1: string, i: string, a2: string, a3: string, a4: string, a5: string)
    ensures DeclaredBy(a1, b1, i, a2, a3, a4, a5, 5, 20) == [Local(i, Pos(62, 18))]
  {
    AppendNil([]);
    assert DeclaredBy(a1, b1, i, a2, a3, a4, a5, 1, 20) == [];
    assert DeclaredBy(a1, b1, i, a2, a3, a4, a5, 2, 20) == [];
    assert DeclaredBy(a1, b1, i, a2, a3, a4, a5, 3, 20) == [];
    assert DeclaredBy(a1, b1, i, a2, a3, a4, a5, 4, 20) == [];
    assert DeclaredBy(a1, b1, i, a2, a3, a4, a5, 5, 20) == [Local(i, Pos(62, 18))];
  }

  /** The locals scope 21 declares, in order. */
  lemma {:induction false} Locals21(a1: string, b1: string, i: string, a2: string, a3: string, a4: string, a5: string)
    ensures DeclaredBy(a1, b1, i, a2, a3, a4, a5, 5, 21) == []
  {
    AppendNil([]);
    assert DeclaredBy(a1, b1, i, a2, a3, a4, a5, 1, 21) == [];
    assert DeclaredBy(a1, b1, i, a2, a3, a4, a5, 2, 21) == [];
    assert DeclaredBy(a1, b1, i, a2, a3, a4, a5, 3, 21) == [];
    assert DeclaredBy(a1, b1, i, a2, a3, a4, a5, 4, 21) == [];
    assert DeclaredBy(a1, b1, i, a2, a3, a4, a5, 5, 21) == [];
  }

  /** The locals scope 22 declares, in order. */
  lemma {:induction false} Locals22(a1: string, b1: string, i: string, a2: string, a3: string, a4: string, a5: string)
    ensures DeclaredBy(a1, b1, i, a2, a3, a4, a5, 5, 22) == [Local(a5, Pos(64, 42))]
  {
    AppendNil([]);
    assert DeclaredBy(a1, b1, i, a2, a3, a4, a5, 1, 22) == [];
    assert DeclaredBy(a1, b1, i, a2, a3, a4, a5, 2, 22) == [];
    assert DeclaredBy(a1, b1, i, a2, a3, a4, a5, 3, 22) == [];
    assert DeclaredBy(a1, b1, i, a2, a3, a4, a5, 4, 22) == [];
    assert DeclaredBy(a1, b1, i, a2, a3, a4, a5, 5, 22) == [Local(a5, Pos(64, 42))];
  }

  /** The assignments known after event 7. */
  function Known0(a1: string, b1: string, i: string, a2: string, a3: string, a4: string, a5: string): seq<Fact> {
    []
      + [Fact(4, a1, [])]
      + [Fact(4, b1, [])]
      + [Fact(5, i, [])]
      + [Fact(5, a1, [])]
      + [Fact(8, i, [])]
  }

  /** Whether a local is assigned after the assignments of events 0 to 7. */
  lemma {:induction false} Assigned0(a1: string, b1: string, i: string, a2: string, a3: string, a4: string, a5: string, fs: seq<Fact>, sc: nat, nm: string, pth: seq<nat>)
    ensures Assigned(fs + [Fact(4, a1, [])] + [Fact(4, b1, [])] + [Fact(5, i, [])] + [Fact(5, a1, [])] + [Fact(8, i, [])], sc, nm, pth) == (
      Assigned(fs, sc, nm, pth) ||
      (4 == sc && a1 == nm && [] <= pth) ||
      (4 == sc && b1 == nm && [] <= pth) ||
      (5 == sc && i == nm && [] <= pth) ||
      (5 == sc && a1 == nm && [] <= pth) ||
      (8 == sc && i == nm && [] <= pth))
  {
    AssignedSnoc(fs, Fact(4, a1, []), sc, nm, pth);
    AssignedSnoc(fs + [Fact(4, a1, [])], Fact(4, b1, []), sc, nm, pth);
    AssignedSnoc(fs + [Fact(4, a1, [])] + [Fact(4, b1, [])], Fact(5, i, []), sc, nm, pth);
    AssignedSnoc(fs + [Fact(4, a1, [])] + [Fact(4, b1, [])] + [Fact(5, i, [])], Fact(5, a1, []), sc, nm, pth);
    AssignedSnoc(fs + [Fact(4, a1, [])] + [Fact(4, b1, [])] + [Fact(5, i, [])] + [Fact(5, a1, [])], Fact(8, i, []), sc, nm, pth);
  }

  /** The assignments known after event 15. */
  function Known1(a1: string, b1: string, i: string, a2: string, a3: string, a4: string, a5: string): seq<Fact> {
    Known0(a1, b1, i, a2, a3, a4, a5)
      + [Fact(8, b1, [])]
      + [Fact(4, a2, [])]
      + [Fact(11, i, [])]
      + [Fact(12, a2, [])]
  }

  /** Whether a local is assigned after the assignments of events 8 to 15. */
  lemma {:induction false} Assigned1(a1: string, b1: string, i: string, a2: string, a3: string, a4: string, a5: string, fs: seq<Fact>, sc: nat, nm: string, pth: seq<nat>)
    ensures Assigned(fs + [Fact(8, b1, [])] + [Fact(4, a2, [])] + [Fact(11, i, [])] + [Fact(12, a2, [])], sc, nm, pth) == (
      Assigned(fs, sc, nm, pth) ||
      (8 == sc && b1 == nm && [] <= pth) ||
      (4 == sc && a2 == nm && [] <= pth) ||
      (11 == sc && i == nm && [] <= pth) ||
      (12 == sc && a2 == nm && [] <= pth))
  {
    AssignedSnoc(fs, Fact(8, b1, []), sc, nm, pth);
    AssignedSnoc(fs + [Fact(8, b1, [])], Fact(4, a2, []), sc, nm, pth);
    AssignedSnoc(fs + [Fact(8, b1, [])] + [Fact(4, a2, [])], Fact(11, i, []), sc, nm, pth);
    AssignedSnoc(fs + [Fact(8, b1, [])] + [Fact(4, a2, [])] + [Fact(11, i, [])], Fact(12, a2, []), sc, nm, pth);
  }

  /** The assignments known after event 23. */
  function Known2(a1: string, b1: string, i: string, a2: string, a3: string, a4: string, a5: string): seq<Fact> {
    Known1(a1, b1, i, a2, a3, a4, a5)
      + [Fact(4, a3, [])]
      + [Fact(14, i, [])]
      + [Fact(15, a3, [3])]
      + [Fact(4, a4, [])]
  }

  /** Whether a local is assigned after the assignments of events 16 to 23. */
  lemma {:induction false} Assigned2(a1: string, b1: string, i: string, a2: string, a3: string, a4: string, a5: string, fs: seq<Fact>, sc: nat, nm: string, pth: seq<nat>)
    ensures Assigned(fs + [Fact(4, a3, [])] + [Fact(14, i, [])] + [Fact(15, a3, [3])] + [Fact(4, a4, [])], sc, nm, pth) == (
      Assigned(fs, sc, nm, pth) ||
      (4 == sc && a3 == nm && [] <= pth) ||
      (14 == sc && i == nm && [] <= pth) ||
      (15 == sc && a3 == nm && [3] <= pth) ||
      (4 == sc && a4 == nm && [] <= pth))
  {
    AssignedSnoc(fs, Fact(4, a3, []), sc, nm, pth);
    AssignedSnoc(fs + [Fact(4, a3, [])], Fact(14, i, []), sc, nm, pth);
    AssignedSnoc(fs + [Fact(4, a3, [])] + [Fact(14, i, [])], Fact(15, a3, [3]), sc, nm, pth);
    AssignedSnoc(fs + [Fact(4, a3, [])] + [Fact(14, i, [])] + [Fact(15, a3, [3])], Fact(4, a4, []), sc, nm, pth);
  }

  /** The assignments known after event 31. */
  function Known3(a1: string, b1: string, i: string, a2: string, a3: string, a4: string, a5: string): seq<Fact> {
    Known2(a1, b1, i, a2, a3, a4, a5)
      + [Fact(17, i, [])]
      + [Fact(19, a4, [4])]
      + [Fact(4, a5, [])]
  }

  /** Whether a local is assigned after the assignments of events 24 to 31. */
  lemma {:induction false} Assigned3(a1: string, b1: string, i: string, a2: string, a3: string, a4: string, a5: string, fs: seq<Fact>, sc: nat, nm: string, pth: seq<nat>)
    ensures Assigned(fs + [Fact(17, i, [])] + [Fact(19, a4, [4])] + [Fact(4, a5, [])], sc, nm, pth) == (
      Assigned(fs, sc, nm, pth) ||
      (17 == sc && i == nm && [] <= pth) ||
      (19 == sc && a4 == nm && [4] <= pth) ||
      (4 == sc && a5 == nm && [] <= pth))
  {
    AssignedSnoc(fs, Fact(17, i, []), sc, nm, pth);
    AssignedSnoc(fs + [Fact(17, i, [])], Fact(19, a4, [4]), sc, nm, pth);
    AssignedSnoc(fs + [Fact(17, i, [])] + [Fact(19, a4, [4])], Fact(4, a5, []), sc, nm, pth);
  }

  /** The assignments known after event 38. */
  function Known4(a1: string, b1: string, i: string, a2: string, a3: string, a4: string, a5: string): seq<Fact> {
    Known3(a1, b1, i, a2, a3, a4, a5)
      + [Fact(20, i, [])]
      + [Fact(22, a5, [5])]
  }

  /** Whether a local is assigned after the assignments of events 32 to 38. */
  lemma {:induction false} Assigned4(a1: string, b1: string, i: string, a2: string, a3: string, a4: string, a5: string, fs: seq<Fact>, sc: nat, nm: string, pth: seq<nat>)
    ensures Assigned(fs + [Fact(20, i, [])] + [Fact(22, a5, [5])], sc, nm, pth) == (
      Assigned(fs, sc, nm, pth) ||
      (20 == sc && i == nm && [] <= pth) ||
      (22 == sc && a5 == nm && [5] <= pth))
  {
    AssignedSnoc(fs, Fact(20, i, []), sc, nm, pth);
    AssignedSnoc(fs + [Fact(20, i, [])], Fact(22, a5, [5]), sc, nm, pth);
  }

  /** Event 0: its diagnostics and the assignments after it. */
  lemma {:induction false} Event0(a1: string, b1: string, i: string, a2: string, a3: string, a4: string, a5: string, tr: Tree, fs: seq<Fact>)
    requires |tr.scopes| == 23
    requires Parent(tr, 0) == None
    requires Parent(tr, 3) == Some(0)
    requires Parent(tr, 4) == Some(3)
    requires LocalsOf(tr, 4) == [Local(a1, Pos(41, 13)), Local(b1, Pos(42, 39)), Local(a2, Pos(47, 13)), Local(a3, Pos(51, 13)), Local(a4, Pos(55, 13)), Local(a5, Pos(60, 13))]
    requires LocalsOf(tr, 3) == []
    requires LocalsOf(tr, 0) == []
    requires a1 != b1 && a1 != a2 && a1 != a3 && a1 != a4 && a1 != a5
    ensures EventDiags(tr, Declared(4, a1, Pos(41, 13), Initialized, []), fs) == []
    ensures Step(tr, Declared(4, a1, Pos(41, 13), Initialized, []), fs) == fs + [Fact(4, a1, [])]
  {
    assert Lookup(tr, 0, a1) == None;
    assert Lookup(tr, 3, a1) == None;
  }

  /** Event 1: its diagnostics and the assignments after it. */
  lemma {:induction false} Event1(a1: string, b1: string, i: string, a2: string, a3: string, a4: string, a5: string, tr: Tree, fs: seq<Fact>)
    requires |tr.scopes| == 23
    requires Parent(tr, 0) == None
    requires Parent(tr, 3) == Some(0)
    requires Parent(tr, 4) == Some(3)
    requires LocalsOf(tr, 4) == [Local(a1, Pos(41, 13)), Local(b1, Pos(42, 39)), Local(a2, Pos(47, 13)), Local(a3, Pos(51, 13)), Local(a4, Pos(55, 13)), Local(a5, Pos(60, 13))]
    requires LocalsOf(tr, 3) == []
    requires LocalsOf(tr, 0) == []
    requires a1 != b1 && b1 != a2 && b1 != a3 && b1 != a4 && b1 != a5
    ensures EventDiags(tr, Declared(4, b1, Pos(42, 39), Initialized, []), fs) == []
    ensures Step(tr, Declared(4, b1, Pos(42, 39), Initialized, []), fs) == fs + [Fact(4, b1, [])]
  {
    assert Lookup(tr, 0, b1) == None;
    assert Lookup(tr, 3, b1) == None;
  }

  /** Event 2: its diagnostics and the assignments after it. */
  lemma {:induction false} Event2(a1: string, b1: string, i: string, a2: string, a3: string, a4: string, a5: string, tr: Tree, fs: seq<Fact>)
    requires |tr.scopes| == 23
    requires Parent(tr, 4) == Some(3)
    requires LocalsOf(tr, 4) == [Local(a1, Pos(41, 13)), Local(b1, Pos(42, 39)), Local(a2, Pos(47, 13)), Local(a3, Pos(51, 13)), Local(a4, Pos(55, 13)), Local(a5, Pos(60, 13))]
    requires a1 != b1 && a1 != a2 && a1 != a3 && a1 != a4 && a1 != a5
    requires Assigned(fs, 4, a1, [])
    ensures EventDiags(tr, Referenced(4, a1, Pos(42, 49), false, false, []), fs) == []
    ensures Step(tr, Referenced(4, a1, Pos(42, 49), false, false, []), fs) == fs
  {
    assert Local(a1, Pos(41, 13)) in LocalsOf(tr, 4);
    assert Lookup(tr, 4, a1) == Some(4);
  }

  /** Event 3: its diagnostics and the assignments after it. */
  lemma {:induction false} Event3(a1: string, b1: string, i: string, a2: string, a3: string, a4: string, a5: string, tr: Tree, fs: seq<Fact>)
    ensures EventDiags(tr, OutAssigned(4, [], []), fs) == []
    ensures Step(tr, OutAssigned(4, [], []), fs) == fs
  {
    assert OutFacts(4, [], []) == [];
    FactsNil(fs);
  }

  /** Event 4: its diagnostics and the assignments after it. */
  lemma {:induction false} Event4(a1: string, b1: string, i: string, a2: string, a3: string, a4: string, a5: string, tr: Tree, fs: seq<Fact>)
    requires |tr.scopes| == 23
    requires Parent(tr, 0) == None
    requires Parent(tr, 3) == Some(0)
    requires Parent(tr, 4) == Some(3)
    requires Parent(tr, 5) == Some(4)
    requires LocalsOf(tr, 5) == [Local(i, Pos(44, 18)), Local(a1, Pos(44, 27))]
    requires LocalsOf(tr, 4) == [Local(a1, Pos(41, 13)), Local(b1, Pos(42, 39)), Local(a2, Pos(47, 13)), Local(a3, Pos(51, 13)), Local(a4, Pos(55, 13)), Local(a5, Pos(60, 13))]
    requires LocalsOf(tr, 3) == []
    requires LocalsOf(tr, 0) == []
    requires a1 != i && b1 != i && i != a2 && i != a3 && i != a4 && i != a5
    ensures EventDiags(tr, Declared(5, i, Pos(44, 18), Initialized, []), fs) == []
    ensures Step(tr, Declared(5, i, Pos(44, 18), Initialized, []), fs) == fs + [Fact(5, i, [])]
  {
    assert Lookup(tr, 0, i) == None;
    assert Lookup(tr, 3, i) == None;
    assert Lookup(tr, 4, i) == None;
  }

  /** Event 5: its diagnostics and the assignments after it. */
  lemma {:induction false} Event5(a1: string, b1: string, i: string, a2: string, a3: string, a4: string, a5: string, tr: Tree, fs: seq<Fact>)
    requires |tr.scopes| == 23
    requires Parent(tr, 4) == Some(3)
    requires Parent(tr, 5) == Some(4)
    requires LocalsOf(tr, 5) == [Local(i, Pos(44, 18)), Local(a1, Pos(44, 27))]
    requires LocalsOf(tr, 4) == [Local(a1, Pos(41, 13)), Local(b1, Pos(42, 39)), Local(a2, Pos(47, 13)), Local(a3, Pos(51, 13)), Local(a4, Pos(55, 13)), Local(a5, Pos(60, 13))]
    requires a1 != b1 && a1 != i && a1 != a2 && a1 != a3 && a1 != a4 && a1 != a5
    ensures EventDiags(tr, Declared(5, a1, Pos(44, 27), Initialized, []), fs) == [Diag(Shadow, a1, Pos(44, 27))]
    ensures Step(tr, Declared(5, a1, Pos(44, 27), Initialized, []), fs) == fs + [Fact(5, a1, [])]
  {
    assert Local(a1, Pos(41, 13)) in LocalsOf(tr, 4);
    assert Lookup(tr, 4, a1) == Some(4);
  }

  /** Event 6: its diagnostics and the assignments after it. */
  lemma {:induction false} Event6(a1: string, b1: string, i: string, a2: string, a3: string, a4: string, a5: string, tr: Tree, fs: seq<Fact>)
    requires |tr.scopes| == 23
    requires Parent(tr, 5) == Some(4)
    requires Parent(tr, 6) == Some(5)
    requires LocalsOf(tr, 6) == []
    requires LocalsOf(tr, 5) == [Local(i, Pos(44, 18)), Local(a1, Pos(44, 27))]
    requires a1 != i
    requires Assigned(fs, 5, i, [])
    ensures EventDiags(tr, Referenced(6, i, Pos(44, 36), false, false, []), fs) == []
    ensures Step(tr, Referenced(6, i, Pos(44, 36), false, false, []), fs) == fs
  {
    assert Local(i, Pos(44, 18)) in LocalsOf(tr, 5);
    assert Lookup(tr, 5, i) == Some(5);
    assert Lookup(tr, 6, i) == Some(5);
  }

  /** Event 7: its diagnostics and the assignments after it. */
  lemma {:induction false} Event7(a1: string, b1: string, i: string, a2: string, a3: string, a4: string, a5: string, tr: Tree, fs: seq<Fact>)
    requires |tr.scopes| == 23
    requires Parent(tr, 0) == None
    requires Parent(tr, 3) == Some(0)
    requires Parent(tr, 4) == Some(3)
    requires Parent(tr, 8) == Some(4)
    requires LocalsOf(tr, 8) == [Local(i, Pos(45, 18)), Local(b1, Pos(45, 27))]
    requires LocalsOf(tr, 4) == [Local(a1, Pos(41, 13)), Local(b1, Pos(42, 39)), Local(a2, Pos(47, 13)), Local(a3, Pos(51, 13)), Local(a4, Pos(55, 13)), Local(a5, Pos(60, 13))]
    requires LocalsOf(tr, 3) == []
    requires LocalsOf(tr, 0) == []
    requires a1 != i && b1 != i && i != a2 && i != a3 && i != a4 && i != a5
    ensures EventDiags(tr, Declared(8, i, Pos(45, 18), Initialized, []), fs) == []
    ensures Step(tr, Declared(8, i, Pos(45, 18), Initialized, []), fs) == fs + [Fact(8, i, [])]
  {
    assert Lookup(tr, 0, i) == None;
    assert Lookup(tr, 3, i) == None;
    assert Lookup(tr, 4, i) == None;
  }

  /** Event 8: its diagnostics and the assignments after it. */
  lemma {:induction false} Event8(a1: string, b1: string, i: string, a2: string, a3: string, a4: string, a5: string, tr: Tree, fs: seq<Fact>)
    requires |tr.scopes| == 23
    requires Parent(tr, 4) == Some(3)
    requires Parent(tr, 8) == Some(4)
    requires LocalsOf(tr, 8) == [Local(i, Pos(45, 18)), Local(b1, Pos(45, 27))]
    requires LocalsOf(tr, 4) == [Local(a1, Pos(41, 13)), Local(b1, Pos(42, 39)), Local(a2, Pos(47, 13)), Local(a3, Pos(51, 13)), Local(a4, Pos(55, 13)), Local(a5, Pos(60, 13))]
    requires a1 != b1 && b1 != i && b1 != a2 && b1 != a3 && b1 != a4 && b1 != a5
    ensures EventDiags(tr, Declared(8, b1, Pos(45, 27), Initialized, []), fs) == [Diag(Shadow, b1, Pos(45, 27))]
    ensures Step(tr, Declared(8, b1, Pos(45, 27), Initialized, []), fs) == fs + [Fact(8, b1, [])]
  {
    assert Local(b1, Pos(42, 39)) in LocalsOf(tr, 4);
    assert Lookup(tr, 4, b1) == Some(4);
  }

  /** Event 9: its diagnostics and the assignments after it. */
  lemma {:induction false} Event9(a1: string, b1: string, i: string, a2: string, a3: string, a4: string, a5: string, tr: Tree, fs: seq<Fact>)
    requires |tr.scopes| == 23
    requires Parent(tr, 8) == Some(4)
    requires Parent(tr, 9) == Some(8)
    requires LocalsOf(tr, 9) == []
    requires LocalsOf(tr, 8) == [Local(i, Pos(45, 18)), Local(b1, Pos(45, 27))]
    requires b1 != i
    requires Assigned(fs, 8, i, [])
    ensures EventDiags(tr, Referenced(9, i, Pos(45, 36), false, false, []), fs) == []
    ensures Step(tr, Referenced(9, i, Pos(45, 36), false, false, []), fs) == fs
  {
    assert Local(i, Pos(45, 18)) in LocalsOf(tr, 8);
    assert Lookup(tr, 8, i) == Some(8);
    assert Lookup(tr, 9, i) == Some(8);
  }

  /** Event 10: its diagnostics and the assignments after it. */
  lemma {:induction false} Event10(a1: string, b1: string, i: string, a2: string, a3: string, a4: string, a5: string, tr: Tree, fs: seq<Fact>)
    requires |tr.scopes| == 23
    requires Parent(tr, 0) == None
    requires Parent(tr, 3) == Some(0)
    requires Parent(tr, 4) == Some(3)
    requires LocalsOf(tr, 4) == [Local(a1, Pos(41, 13)), Local(b1, Pos(42, 39)), Local(a2, Pos(47, 13)), Local(a3, Pos(51, 13)), Local(a4, Pos(55, 13)), Local(a5, Pos(60, 13))]
    requires LocalsOf(tr, 3) == []
    requires LocalsOf(tr, 0) == []
    requires a1 != a2 && b1 != a2 && a2 != a3 && a2 != a4 && a2 != a5
    ensures EventDiags(tr, Declared(4, a2, Pos(47, 13), Initialized, []), fs) == []
    ensures Step(tr, Declared(4, a2, Pos(47, 13), Initialized, []), fs) == fs + [Fact(4, a2, [])]
  {
    assert Lookup(tr, 0, a2) == None;
    assert Lookup(tr, 3, a2) == None;
  }

  /** Event 11: its diagnostics and the assignments after it. */
  lemma {:induction false} Event11(a1: string, b1: string, i: string, a2: string, a3: string, a4: string, a5: string, tr: Tree, fs: seq<Fact>)
    requires |tr.scopes| == 23
    requires Parent(tr, 4) == Some(3)
    requires LocalsOf(tr, 4) == [Local(a1, Pos(41, 13)), Local(b1, Pos(42, 39)), Local(a2, Pos(47, 13)), Local(a3, Pos(51, 13)), Local(a4, Pos(55, 13)), Local(a5, Pos(60, 13))]
    requires a1 != a2 && b1 != a2 && a2 != a3 && a2 != a4 && a2 != a5
    requires Assigned(fs, 4, a2, [])
    ensures EventDiags(tr, Referenced(4, a2, Pos(48, 34), false, false, []), fs) == []
    ensures Step(tr, Referenced(4, a2, Pos(48, 34), false, false, []), fs) == fs
  {
    assert Local(a2, Pos(47, 13)) in LocalsOf(tr, 4);
    assert Lookup(tr, 4, a2) == Some(4);
  }

  /** Event 12: its diagnostics and the assignments after it. */
  lemma {:induction false} Event12(a1: string, b1: string, i: string, a2: string, a3: string, a4: string, a5: string, tr: Tree, fs: seq<Fact>)
    ensures EventDiags(tr, OutAssigned(4, [], []), fs) == []
    ensures Step(tr, OutAssigned(4, [], []), fs) == fs
  {
    assert OutFacts(4, [], []) == [];
    FactsNil(fs);
  }

  /** Event 13: its diagnostics and the assignments after it. */
  lemma {:induction false} Event13(a1: string, b1: string, i: string, a2: string, a3: string, a4: string, a5: string, tr: Tree, fs: seq<Fact>)
    requires |tr.scopes| == 23
    requires Parent(tr, 0) == None
    requires Parent(tr, 3) == Some(0)
    requires Parent(tr, 4) == Some(3)
    requires Parent(tr, 11) == Some(4)
    requires LocalsOf(tr, 11) == [Local(i, Pos(49, 18))]
    requires LocalsOf(tr, 4) == [Local(a1, Pos(41, 13)), Local(b1, Pos(42, 39)), Local(a2, Pos(47, 13)), Local(a3, Pos(51, 13)), Local(a4, Pos(55, 13)), Local(a5, Pos(60, 13))]
    requires LocalsOf(tr, 3) == []
    requires LocalsOf(tr, 0) == []
    requires a1 != i && b1 != i && i != a2 && i != a3 && i != a4 && i != a5
    ensures EventDiags(tr, Declared(11, i, Pos(49, 18), Initialized, []), fs) == []
    ensures Step(tr, Declared(11, i, Pos(49, 18), Initialized, []), fs) == fs + [Fact(11, i, [])]
  {
    assert Lookup(tr, 0, i) == None;
    assert Lookup(tr, 3, i) == None;
    assert Lookup(tr, 4, i) == None;
  }

  /** Event 14: its diagnostics and the assignments after it. */
  lemma {:induction false} Event14(a1: string, b1: string, i: string, a2: string, a3: string, a4: string, a5: string, tr: Tree, fs: seq<Fact>)
    requires |tr.scopes| == 23
    requires Parent(tr, 11) == Some(4)
    requires Parent(tr, 12) == Some(11)
    requires LocalsOf(tr, 12) == [Local(a2, Pos(49, 34))]
    requires LocalsOf(tr, 11) == [Local(i, Pos(49, 18))]
    requires i != a2
    requires Assigned(fs, 11, i, [])
    ensures EventDiags(tr, Referenced(12, i, Pos(49, 25), false, false, []), fs) == []
    ensures Step(tr, Referenced(12, i, Pos(49, 25), false, false, []), fs) == fs
  {
    assert Local(i, Pos(49, 18)) in LocalsOf(tr, 11);
    assert Lookup(tr, 11, i) == Some(11);
    assert Lookup(tr, 12, i) == Some(11);
  }

  /** Event 15: its diagnostics and the assignments after it. */
  lemma {:induction false} Event15(a1: string, b1: string, i: string, a2: string, a3: string, a4: string, a5: string, tr: Tree, fs: seq<Fact>)
    requires |tr.scopes| == 23
    requires Parent(tr, 4) == Some(3)
    requires Parent(tr, 11) == Some(4)
    requires Parent(tr, 12) == Some(11)
    requires LocalsOf(tr, 12) == [Local(a2, Pos(49, 34))]
    requires LocalsOf(tr, 11) == [Local(i, Pos(49, 18))]
    requires LocalsOf(tr, 4) == [Local(a1, Pos(41, 13)), Local(b1, Pos(42, 39)), Local(a2, Pos(47, 13)), Local(a3, Pos(51, 13)), Local(a4, Pos(55, 13)), Local(a5, Pos(60, 13))]
    requires a1 != a2 && b1 != a2 && i != a2 && a2 != a3 && a2 != a4 && a2 != a5
    ensures EventDiags(tr, Declared(12, a2, Pos(49, 34), Initialized, []), fs) == [Diag(Shadow, a2, Pos(49, 34))]
    ensures Step(tr, Declared(12, a2, Pos(49, 34), Initialized, []), fs) == fs + [Fact(12, a2, [])]
  {
    assert Local(a2, Pos(47, 13)) in LocalsOf(tr, 4);
    assert Lookup(tr, 4, a2) == Some(4);
    assert Lookup(tr, 11, a2) == Some(4);
  }

  /** Event 16: its diagnostics and the assignments after it. */
  lemma {:induction false} Event16(a1: string, b1: string, i: string, a2: string, a3: string, a4: string, a5: string, tr: Tree, fs: seq<Fact>)
    requires |tr.scopes| == 23
    requires Parent(tr, 0) == None
    requires Parent(tr, 3) == Some(0)
    requires Parent(tr, 4) == Some(3)
    requires LocalsOf(tr, 4) == [Local(a1, Pos(41, 13)), Local(b1, Pos(42, 39)), Local(a2, Pos(47, 13)), Local(a3, Pos(51, 13)), Local(a4, Pos(55, 13)), Local(a5, Pos(60, 13))]
    requires LocalsOf(tr, 3) == []
    requires LocalsOf(tr, 0) == []
    requires a1 != a3 && b1 != a3 && a2 != a3 && a3 != a4 && a3 != a5
    ensures EventDiags(tr, Declared(4, a3, Pos(51, 13), Initialized, []), fs) == []
    ensures Step(tr, Declared(4, a3, Pos(51, 13), Initialized, []), fs) == fs + [Fact(4, a3, [])]
  {
    assert Lookup(tr, 0, a3) == None;
    assert Lookup(tr, 3, a3) == None;
  }

  /** Event 17: its diagnostics and the assignments after it. */
  lemma {:induction false} Event17(a1: string, b1: string, i: string, a2: string, a3: string, a4: string, a5: string, tr: Tree, fs: seq<Fact>)
    requires |tr.scopes| == 23
    requires Parent(tr, 4) == Some(3)
    requires LocalsOf(tr, 4) == [Local(a1, Pos(41, 13)), Local(b1, Pos(42, 39)), Local(a2, Pos(47, 13)), Local(a3, Pos(51, 13)), Local(a4, Pos(55, 13)), Local(a5, Pos(60, 13))]
    requires a1 != a3 && b1 != a3 && a2 != a3 && a3 != a4 && a3 != a5
    requires Assigned(fs, 4, a3, [])
    ensures EventDiags(tr, Referenced(4, a3, Pos(52, 34), false, false, []), fs) == []
    ensures Step(tr, Referenced(4, a3, Pos(52, 34), false, false, []), fs) == fs
  {
    assert Local(a3, Pos(51, 13)) in LocalsOf(tr, 4);
    assert Lookup(tr, 4, a3) == Some(4);
  }

  /** Event 18: its diagnostics and the assignments after it. */
  lemma {:induction false} Event18(a1: string, b1: string, i: string, a2: string, a3: string, a4: string, a5: string, tr: Tree, fs: seq<Fact>)
    ensures EventDiags(tr, OutAssigned(4, [], []), fs) == []
    ensures Step(tr, OutAssigned(4, [], []), fs) == fs
  {
    assert OutFacts(4, [], []) == [];
    FactsNil(fs);
  }

  /** Event 19: its diagnostics and the assignments after it. */
  lemma {:induction false} Event19(a1: string, b1: string, i: string, a2: string, a3: string, a4: string, a5: string, tr: Tree, fs: seq<Fact>)
    requires |tr.scopes| == 23
    requires Parent(tr, 0) == None
    requires Parent(tr, 3) == Some(0)
    requires Parent(tr, 4) == Some(3)
    requires Parent(tr, 14) == Some(4)
    requires LocalsOf(tr, 14) == [Local(i, Pos(53, 18))]
    requires LocalsOf(tr, 4) == [Local(a1, Pos(41, 13)), Local(b1, Pos(42, 39)), Local(a2, Pos(47, 13)), Local(a3, Pos(51, 13)), Local(a4, Pos(55, 13)), Local(a5, Pos(60, 13))]
    requires LocalsOf(tr, 3) == []
    requires LocalsOf(tr, 0) == []
    requires a1 != i && b1 != i && i != a2 && i != a3 && i != a4 && i != a5
    ensures EventDiags(tr, Declared(14, i, Pos(53, 18), Initialized, []), fs) == []
    ensures Step(tr, Declared(14, i, Pos(53, 18), Initialized, []), fs) == fs + [Fact(14, i, [])]
  {
    assert Lookup(tr, 0, i) == None;
    assert Lookup(tr, 3, i) == None;
    assert Lookup(tr, 4, i) == None;
  }

  /** Event 20: its diagnostics and the assignments after it. */
  lemma {:induction false} Event20(a1: string, b1: string, i: string, a2: string, a3: string, a4: string, a5: string, tr: Tree, fs: seq<Fact>)
    requires |tr.scopes| == 23
    requires Parent(tr, 14) == Some(4)
    requires Parent(tr, 15) == Some(14)
    requires LocalsOf(tr, 15) == [Local(a3, Pos(53, 41))]
    requires LocalsOf(tr, 14) == [Local(i, Pos(53, 18))]
    requires i != a3
    requires Assigned(fs, 14, i, [])
    ensures EventDiags(tr, Referenced(15, i, Pos(53, 25), false, false, []), fs) == []
    ensures Step(tr, Referenced(15, i, Pos(53, 25), false, false, []), fs) == fs
  {
    assert Local(i, Pos(53, 18)) in LocalsOf(tr, 14);
    assert Lookup(tr, 14, i) == Some(14);
    assert Lookup(tr, 15, i) == Some(14);
  }

  /** Event 21: its diagnostics and the assignments after it. */
  lemma {:induction false} Event21(a1: string, b1: string, i: string, a2: string, a3: string, a4: string, a5: string, tr: Tree, fs: seq<Fact>)
    requires |tr.scopes| == 23
    requires Parent(tr, 14) == Some(4)
    requires Parent(tr, 15) == Some(14)
    requires LocalsOf(tr, 15) == [Local(a3, Pos(53, 41))]
    requires LocalsOf(tr, 14) == [Local(i, Pos(53, 18))]
    requires i != a3
    requires Assigned(fs, 14, i, [3])
    ensures EventDiags(tr, Referenced(15, i, Pos(53, 32), false, false, [3]), fs) == []
    ensures Step(tr, Referenced(15, i, Pos(53, 32), false, false, [3]), fs) == fs
  {
    assert Local(i, Pos(53, 18)) in LocalsOf(tr, 14);
    assert Lookup(tr, 14, i) == Some(14);
    assert Lookup(tr, 15, i) == Some(14);
  }

  /** Event 22: its diagnostics and the assignments after it. */
  lemma {:induction false} Event22(a1: string, b1: string, i: string, a2: string, a3: string, a4: string, a5: string, tr: Tree, fs: seq<Fact>)
    requires |tr.scopes| == 23
    requires Parent(tr, 4) == Some(3)
    requires Parent(tr, 14) == Some(4)
    requires Parent(tr, 15) == Some(14)
    requires LocalsOf(tr, 15) == [Local(a3, Pos(53, 41))]
    requires LocalsOf(tr, 14) == [Local(i, Pos(53, 18))]
    requires LocalsOf(tr, 4) == [Local(a1, Pos(41, 13)), Local(b1, Pos(42, 39)), Local(a2, Pos(47, 13)), Local(a3, Pos(51, 13)), Local(a4, Pos(55, 13)), Local(a5, Pos(60, 13))]
    requires a1 != a3 && b1 != a3 && i != a3 && a2 != a3 && a3 != a4 && a3 != a5
    ensures EventDiags(tr, Declared(15, a3, Pos(53, 41), Initialized, [3]), fs) == [Diag(Shadow, a3, Pos(53, 41))]
    ensures Step(tr, Declared(15, a3, Pos(53, 41), Initialized, [3]), fs) == fs + [Fact(15, a3, [3])]
  {
    assert Local(a3, Pos(51, 13)) in LocalsOf(tr, 4);
    assert Lookup(tr, 4, a3) == Some(4);
    assert Lookup(tr, 14, a3) == Some(4);
  }

  /** Event 23: its diagnostics and the assignments after it. */
  lemma {:induction false} Event23(a1: string, b1: string, i: string, a2: string, a3: string, a4: string, a5: string, tr: Tree, fs: seq<Fact>)
    requires |tr.scopes| == 23
    requires Parent(tr, 0) == None
    requires Parent(tr, 3) == Some(0)
    requires Parent(tr, 4) == Some(3)
    requires LocalsOf(tr, 4) == [Local(a1, Pos(41, 13)), Local(b1, Pos(42, 39)), Local(a2, Pos(47, 13)), Local(a3, Pos(51, 13)), Local(a4, Pos(55, 13)), Local(a5, Pos(60, 13))]
    requires LocalsOf(tr, 3) == []
    requires LocalsOf(tr, 0) == []
    requires a1 != a4 && b1 != a4 && a2 != a4 && a3 != a4 && a4 != a5
    ensures EventDiags(tr, Declared(4, a4, Pos(55, 13), Initialized, []), fs) == []
    ensures Step(tr, Declared(4, a4, Pos(55, 13), Initialized, []), fs) == fs + [Fact(4, a4, [])]
  {
    assert Lookup(tr, 0, a4) == None;
    assert Lookup(tr, 3, a4) == None;
  }

  /** Event 24: its diagnostics and the assignments after it. */
  lemma {:induction false} Event24(a1: string, b1: string, i: string, a2: string, a3: string, a4: string, a5: string, tr: Tree, fs: seq<Fact>)
    requires |tr.scopes| == 23
    requires Parent(tr, 4) == Some(3)
    requires LocalsOf(tr, 4) == [Local(a1, Pos(41, 13)), Local(b1, Pos(42, 39)), Local(a2, Pos(47, 13)), Local(a3, Pos(51, 13)), Local(a4, Pos(55, 13)), Local(a5, Pos(60, 13))]
    requires a1 != a4 && b1 != a4 && a2 != a4 && a3 != a4 && a4 != a5
    requires Assigned(fs, 4, a4, [])
    ensures EventDiags(tr, Referenced(4, a4, Pos(56, 34), false, false, []), fs) == []
    ensures Step(tr, Referenced(4, a4, Pos(56, 34), false, false, []), fs) == fs
  {
    assert Local(a4, Pos(55, 13)) in LocalsOf(tr, 4);
    assert Lookup(tr, 4, a4) == Some(4);
  }

  /** Event 25: its diagnostics and the assignments after it. */
  lemma {:induction false} Event25(a1: string, b1: string, i: string, a2: string, a3: string, a4: string, a5: string, tr: Tree, fs: seq<Fact>)
    ensures EventDiags(tr, OutAssigned(4, [], []), fs) == []
    ensures Step(tr, OutAssigned(4, [], []), fs) == fs
  {
    assert OutFacts(4, [], []) == [];
    FactsNil(fs);
  }

  /** Event 26: its diagnostics and the assignments after it. */
  lemma {:induction false} Event26(a1: string, b1: string, i: string, a2: string, a3: string, a4: string, a5: string, tr: Tree, fs: seq<Fact>)
    requires |tr.scopes| == 23
    requires Parent(tr, 0) == None
    requires Parent(tr, 3) == Some(0)
    requires Parent(tr, 4) == Some(3)
    requires Parent(tr, 17) == Some(4)
    requires LocalsOf(tr, 17) == [Local(i, Pos(57, 18))]
    requires LocalsOf(tr, 4) == [Local(a1, Pos(41, 13)), Local(b1, Pos(42, 39)), Local(a2, Pos(47, 13)), Local(a3, Pos(51, 13)), Local(a4, Pos(55, 13)), Local(a5, Pos(60, 13))]
    requires LocalsOf(tr, 3) == []
    requires LocalsOf(tr, 0) == []
    requires a1 != i && b1 != i && i != a2 && i != a3 && i != a4 && i != a5
    ensures EventDiags(tr, Declared(17, i, Pos(57, 18), Initialized, []), fs) == []
    ensures Step(tr, Declared(17, i, Pos(57, 18), Initialized, []), fs) == fs + [Fact(17, i, [])]
  {
    assert Lookup(tr, 0, i) == None;
    assert Lookup(tr, 3, i) == None;
    assert Lookup(tr, 4, i) == None;
  }

  /** Event 27: its diagnostics and the assignments after it. */
  lemma {:induction false} Event27(a1: string, b1: string, i: string, a2: string, a3: string, a4: string, a5: string, tr: Tree, fs: seq<Fact>)
    requires |tr.scopes| == 23
    requires Parent(tr, 17) == Some(4)
    requires Parent(tr, 18) == Some(17)
    requires LocalsOf(tr, 18) == []
    requires LocalsOf(tr, 17) == [Local(i, Pos(57, 18))]
    requires Assigned(fs, 17, i, [])
    ensures EventDiags(tr, Referenced(18, i, Pos(57, 25), false, false, []), fs) == []
    ensures Step(tr, Referenced(18, i, Pos(57, 25), false, false, []), fs) == fs
  {
    assert Local(i, Pos(57, 18)) in LocalsOf(tr, 17);
    assert Lookup(tr, 17, i) == Some(17);
    assert Lookup(tr, 18, i) == Some(17);
  }

  /** Event 28: its diagnostics and the assignments after it. */
  lemma {:induction false} Event28(a1: string, b1: string, i: string, a2: string, a3: string, a4: string, a5: string, tr: Tree, fs: seq<Fact>)
    requires |tr.scopes| == 23
    requires Parent(tr, 4) == Some(3)
    requires Parent(tr, 17) == Some(4)
    requires Parent(tr, 18) == Some(17)
    requires Parent(tr, 19) == Some(18)
    requires LocalsOf(tr, 19) == [Local(a4, Pos(58, 42))]
    requires LocalsOf(tr, 18) == []
    requires LocalsOf(tr, 17) == [Local(i, Pos(57, 18))]
    requires LocalsOf(tr, 4) == [Local(a1, Pos(41, 13)), Local(b1, Pos(42, 39)), Local(a2, Pos(47, 13)), Local(a3, Pos(51, 13)), Local(a4, Pos(55, 13)), Local(a5, Pos(60, 13))]
    requires a1 != a4 && b1 != a4 && i != a4 && a2 != a4 && a3 != a4 && a4 != a5
    ensures EventDiags(tr, Declared(19, a4, Pos(58, 42), Initialized, [4]), fs) == [Diag(Shadow, a4, Pos(58, 42))]
    ensures Step(tr, Declared(19, a4, Pos(58, 42), Initialized, [4]), fs) == fs + [Fact(19, a4, [4])]
  {
    assert Local(a4, Pos(55, 13)) in LocalsOf(tr, 4);
    assert Lookup(tr, 4, a4) == Some(4);
    assert Lookup(tr, 17, a4) == Some(4);
    assert Lookup(tr, 18, a4) == Some(4);
  }

  /** Event 29: its diagnostics and the assignments after it. */
  lemma {:induction false} Event29(a1: string, b1: string, i: string, a2: string, a3: string, a4: string, a5: string, tr: Tree, fs: seq<Fact>)
    ensures EventDiags(tr, OutAssigned(19, [], [4]), fs) == []
    ensures Step(tr, OutAssigned(19, [], [4]), fs) == fs
  {
    assert OutFacts(19, [], [4]) == [];
    FactsNil(fs);
  }

  /** Event 30: its diagnostics and the assignments after it. */
  lemma {:induction false} Event30(a1: string, b1: string, i: string, a2: string, a3: string, a4: string, a5: string, tr: Tree, fs: seq<Fact>)
    requires |tr.scopes| == 23
    requires Parent(tr, 17) == Some(4)
    requires Parent(tr, 18) == Some(17)
    requires LocalsOf(tr, 18) == []
    requires LocalsOf(tr, 17) == [Local(i, Pos(57, 18))]
    requires Assigned(fs, 17, i, [4])
    ensures EventDiags(tr, Referenced(18, i, Pos(57, 32), false, false, [4]), fs) == []
    ensures Step(tr, Referenced(18, i, Pos(57, 32), false, false, [4]), fs) == fs
  {
    assert Local(i, Pos(57, 18)) in LocalsOf(tr, 17);
    assert Lookup(tr, 17, i) == Some(17);
    assert Lookup(tr, 18, i) == Some(17);
  }

  /** Event 31: its diagnostics and the assignments after it. */
  lemma {:induction false} Event31(a1: string, b1: string, i: string, a2: string, a3: string, a4: string, a5: string, tr: Tree, fs: seq<Fact>)
    requires |tr.scopes| == 23
    requires Parent(tr, 0) == None
    requires Parent(tr, 3) == Some(0)
    requires Parent(tr, 4) == Some(3)
    requires LocalsOf(tr, 4) == [Local(a1, Pos(41, 13)), Local(b1, Pos(42, 39)), Local(a2, Pos(47, 13)), Local(a3, Pos(51, 13)), Local(a4, Pos(55, 13)), Local(a5, Pos(60, 13))]
    requires LocalsOf(tr, 3) == []
    requires LocalsOf(tr, 0) == []
    requires a1 != a5 && b1 != a5 && a2 != a5 && a3 != a5 && a4 != a5
    ensures EventDiags(tr, Declared(4, a5, Pos(60, 13), Initialized, []), fs) == []
    ensures Step(tr, Declared(4, a5, Pos(60, 13), Initialized, []), fs) == fs + [Fact(4, a5, [])]
  {
    assert Lookup(tr, 0, a5) == None;
    assert Lookup(tr, 3, a5) == None;
  }

  /** Event 32: its diagnostics and the assignments after it. */
  lemma {:induction false} Event32(a1: string, b1: string, i: string, a2: string, a3: string, a4: string, a5: string, tr: Tree, fs: seq<Fact>)
    requires |tr.scopes| == 23
    requires Parent(tr, 4) == Some(3)
    requires LocalsOf(tr, 4) == [Local(a1, Pos(41, 13)), Local(b1, Pos(42, 39)), Local(a2, Pos(47, 13)), Local(a3, Pos(51, 13)), Local(a4, Pos(55, 13)), Local(a5, Pos(60, 13))]
    requires a1 != a5 && b1 != a5 && a2 != a5 && a3 != a5 && a4 != a5
    requires Assigned(fs, 4, a5, [])
    ensures EventDiags(tr, Referenced(4, a5, Pos(61, 34), false, false, []), fs) == []
    ensures Step(tr, Referenced(4, a5, Pos(61, 34), false, false, []), fs) == fs
  {
    assert Local(a5, Pos(60, 13)) in LocalsOf(tr, 4);
    assert Lookup(tr, 4, a5) == Some(4);
  }

  /** Event 33: its diagnostics and the assignments after it. */
  lemma {:induction false} Event33(a1: string, b1: string, i: string, a2: string, a3: string, a4: string, a5: string, tr: Tree, fs: seq<Fact>)
    ensures EventDiags(tr, OutAssigned(4, [], []), fs) == []
    ensures Step(tr, OutAssigned(4, [], []), fs) == fs
  {
    assert OutFacts(4, [], []) == [];
    FactsNil(fs);
  }

  /** Event 34: its diagnostics and the assignments after it. */
  lemma {:induction false} Event34(a1: string, b1: string, i: string, a2: string, a3: string, a4: string, a5: string, tr: Tree, fs: seq<Fact>)
    requires |tr.scopes| == 23
    requires Parent(tr, 0) == None
    requires Parent(tr, 3) == Some(0)
    requires Parent(tr, 4) == Some(3)
    requires Parent(tr, 20) == Some(4)
    requires LocalsOf(tr, 20) == [Local(i, Pos(62, 18))]
    requires LocalsOf(tr, 4) == [Local(a1, Pos(41, 13)), Local(b1, Pos(42, 39)), Local(a2, Pos(47, 13)), Local(a3, Pos(51, 13)), Local(a4, Pos(55, 13)), Local(a5, Pos(60, 13))]
    requires LocalsOf(tr, 3) == []
    requires LocalsOf(tr, 0) == []
    requires a1 != i && b1 != i && i != a2 && i != a3 && i != a4 && i != a5
    ensures EventDiags(tr, Declared(20, i, Pos(62, 18), Initialized, []), fs) == []
    ensures Step(tr, Declared(20, i, Pos(62, 18), Initialized, []), fs) == fs + [Fact(20, i, [])]
  {
    assert Lookup(tr, 0, i) == None;
    assert Lookup(tr, 3, i) == None;
    assert Lookup(tr, 4, i) == None;
  }

  /** Event 35: its diagnostics and the assignments after it. */
  lemma {:induction false} Event35(a1: string, b1: string, i: string, a2: string, a3: string, a4: string, a5: string, tr: Tree, fs: seq<Fact>)
    requires |tr.scopes| == 23
    requires Parent(tr, 20) == Some(4)
    requires Parent(tr, 21) == Some(20)
    requires LocalsOf(tr, 21) == []
    requires LocalsOf(tr, 20) == [Local(i, Pos(62, 18))]
    requires Assigned(fs, 20, i, [])
    ensures EventDiags(tr, Referenced(21, i, Pos(62, 25), false, false, []), fs) == []
    ensures Step(tr, Referenced(21, i, Pos(62, 25), false, false, []), fs) == fs
  {
    assert Local(i, Pos(62, 18)) in LocalsOf(tr, 20);
    assert Lookup(tr, 20, i) == Some(20);
    assert Lookup(tr, 21, i) == Some(20);
  }

  /** Event 36: its diagnostics and the assignments after it. */
  lemma {:induction false} Event36(a1: string, b1: string, i: string, a2: string, a3: string, a4: string, a5: string, tr: Tree, fs: seq<Fact>)
    requires |tr.scopes| == 23
    requires Parent(tr, 4) == Some(3)
    requires Parent(tr, 20) == Some(4)
    requires Parent(tr, 21) == Some(20)
    requires Parent(tr, 22) == Some(21)
    requires LocalsOf(tr, 22) == [Local(a5, Pos(64, 42))]
    requires LocalsOf(tr, 21) == []
    requires LocalsOf(tr, 20) == [Local(i, Pos(62, 18))]
    requires LocalsOf(tr, 4) == [Local(a1, Pos(41, 13)), Local(b1, Pos(42, 39)), Local(a2, Pos(47, 13)), Local(a3, Pos(51, 13)), Local(a4, Pos(55, 13)), Local(a5, Pos(60, 13))]
    requires a1 != a5 && b1 != a5 && i != a5 && a2 != a5 && a3 != a5 && a4 != a5
    ensures EventDiags(tr, Declared(22, a5, Pos(64, 42), Initialized, [5]), fs) == [Diag(Shadow, a5, Pos(64, 42))]
    ensures Step(tr, Declared(22, a5, Pos(64, 42), Initialized, [5]), fs) == fs + [Fact(22, a5, [5])]
  {
    assert Local(a5, Pos(60, 13)) in LocalsOf(tr, 4);
    assert Lookup(tr, 4, a5) == Some(4);
    assert Lookup(tr, 20, a5) == Some(4);
    assert Lookup(tr, 21, a5) == Some(4);
  }

  /** Event 37: its diagnostics and the assignments after it. */
  lemma {:induction false} Event37(a1: string, b1: string, i: string, a2: string, a3: string, a4: string, a5: string, tr: Tree, fs: seq<Fact>)
    ensures EventDiags(tr, OutAssigned(22, [], [5]), fs) == []
    ensures Step(tr, OutAssigned(22, [], [5]), fs) == fs
  {
    assert OutFacts(22, [], [5]) == [];
    FactsNil(fs);
  }

  /** Event 38: its diagnostics and the assignments after it. */
  lemma {:induction false} Event38(a1: string, b1: string, i: string, a2: string, a3: string, a4: string, a5: string, tr: Tree, fs: seq<Fact>)
    requires |tr.scopes| == 23
    requires Parent(tr, 20) == Some(4)
    requires Parent(tr, 21) == Some(20)
    requires LocalsOf(tr, 21) == []
    requires LocalsOf(tr, 20) == [Local(i, Pos(62, 18))]
    requires Assigned(fs, 20, i, [5])
    ensures EventDiags(tr, Referenced(21, i, Pos(62, 32), false, false, [5]), fs) == []
    ensures Step(tr, Referenced(21, i, Pos(62, 32), false, false, [5]), fs) == fs
  {
    assert Local(i, Pos(62, 18)) in LocalsOf(tr, 20);
    assert Lookup(tr, 20, i) == Some(20);
    assert Lookup(tr, 21, i) == Some(20);
  }

  /** What a read of i in scope 8 finds assigned before event 8. */
  lemma {:induction false} Read0(a1: string, b1: string, i: string, a2: string, a3: string, a4: string, a5: string)
    ensures Assigned(Known0(a1, b1, i, a2, a3, a4, a5), 8, i, [])
  {
    Assigned0(a1, b1, i, a2, a3, a4, a5, [], 8, i, []);
    assert !Assigned([], 8, i, []);
  }

  /** What a read of a2 in scope 4 finds assigned before event 8. */
  lemma {:induction false} Read1(a1: string, b1: string, i: string, a2: string, a3: string, a4: string, a5: string)
    requires a1 != a2 && b1 != a2
    ensures !Assigned(Known0(a1, b1, i, a2, a3, a4, a5), 4, a2, [])
  {
    Assigned0(a1, b1, i, a2, a3, a4, a5, [], 4, a2, []);
    assert !Assigned([], 4, a2, []);
  }

  /** What a read of i in scope 11 finds assigned before event 8. */
  lemma {:induction false} Read2(a1: string, b1: string, i: string, a2: string, a3: string, a4: string, a5: string)
    ensures !Assigned(Known0(a1, b1, i, a2, a3, a4, a5), 11, i, [])
  {
    Assigned0(a1, b1, i, a2, a3, a4, a5, [], 11, i, []);
    assert !Assigned([], 11, i, []);
  }

  /** What a read of a3 in scope 4 finds assigned before event 16. */
  lemma {:induction false} Read3(a1: string, b1: string, i: string, a2: string, a3: string, a4: string, a5: string)
    requires a1 != a3 && b1 != a3 && a2 != a3
    ensures !Assigned(Known1(a1, b1, i, a2, a3, a4, a5), 4, a3, [])
  {
    Assigned0(a1, b1, i, a2, a3, a4, a5, [], 4, a3, []);
    Assigned1(a1, b1, i, a2, a3, a4, a5, Known0(a1, b1, i, a2, a3, a4, a5), 4, a3, []);
    assert !Assigned([], 4, a3, []);
  }

  /** What a read of i in scope 14 finds assigned before event 16. */
  lemma {:induction false} Read4(a1: string, b1: string, i: string, a2: string, a3: string, a4: string, a5: string)
    ensures !Assigned(Known1(a1, b1, i, a2, a3, a4, a5), 14, i, [])
  {
    Assigned0(a1, b1, i, a2, a3, a4, a5, [], 14, i, []);
    Assigned1(a1, b1, i, a2, a3, a4, a5, Known0(a1, b1, i, a2, a3, a4, a5), 14, i, []);
    assert !Assigned([], 14, i, []);
  }

  /** What a read of i in scope 14 finds assigned before event 16. */
  lemma {:induction false} Read5(a1: string, b1: string, i: string, a2: string, a3: string, a4: string, a5: string)
    ensures !Assigned(Known1(a1, b1, i, a2, a3, a4, a5), 14, i, [3])
  {
    Assigned0(a1, b1, i, a2, a3, a4, a5, [], 14, i, [3]);
    Assigned1(a1, b1, i, a2, a3, a4, a5, Known0(a1, b1, i, a2, a3, a4, a5), 14, i, [3]);
    assert !Assigned([], 14, i, [3]);
  }

  /** What a read of a4 in scope 4 finds assigned before event 24. */
  lemma {:induction false} Read6(a1: string, b1: string, i: string, a2: string, a3: string, a4: string, a5: string)
    ensures Assigned(Known2(a1, b1, i, a2, a3, a4, a5), 4, a4, [])
  {
    Assigned0(a1, b1, i, a2, a3, a4, a5, [], 4, a4, []);
    Assigned1(a1, b1, i, a2, a3, a4, a5, Known0(a1, b1, i, a2, a3, a4, a5), 4, a4, []);
    Assigned2(a1, b1, i, a2, a3, a4, a5, Known1(a1, b1, i, a2, a3, a4, a5), 4, a4, []);
    assert !Assigned([], 4, a4, []);
  }

  /** What a read of i in scope 17 finds assigned before event 24. */
  lemma {:induction false} Read7(a1: string, b1: string, i: string, a2: string, a3: string, a4: string, a5: string)
    ensures !Assigned(Known2(a1, b1, i, a2, a3, a4, a5), 17, i, [])
  {
    Assigned0(a1, b1, i, a2, a3, a4, a5, [], 17, i, []);
    Assigned1(a1, b1, i, a2, a3, a4, a5, Known0(a1, b1, i, a2, a3, a4, a5), 17, i, []);
    Assigned2(a1, b1, i, a2, a3, a4, a5, Known1(a1, b1, i, a2, a3, a4, a5), 17, i, []);
    assert !Assigned([], 17, i, []);
  }

  /** What a read of i in scope 17 finds assigned before event 24. */
  lemma {:induction false} Read8(a1: string, b1: string, i: string, a2: string, a3: string, a4: string, a5: string)
    ensures !Assigned(Known2(a1, b1, i, a2, a3, a4, a5), 17, i, [4])
  {
    Assigned0(a1, b1, i, a2, a3, a4, a5, [], 17, i, [4]);
    Assigned1(a1, b1, i, a2, a3, a4, a5, Known0(a1, b1, i, a2, a3, a4, a5), 17, i, [4]);
    Assigned2(a1, b1, i, a2, a3, a4, a5, Known1(a1, b1, i, a2, a3, a4, a5), 17, i, [4]);
    assert !Assigned([], 17, i, [4]);
  }

  /** What a read of a5 in scope 4 finds assigned before event 32. */
  lemma {:induction false} Read9(a1: string, b1: string, i: string, a2: string, a3: string, a4: string, a5: string)
    ensures Assigned(Known3(a1, b1, i, a2, a3, a4, a5), 4, a5, [])
  {
    Assigned0(a1, b1, i, a2, a3, a4, a5, [], 4, a5, []);
    Assigned1(a1, b1, i, a2, a3, a4, a5, Known0(a1, b1, i, a2, a3, a4, a5), 4, a5, []);
    Assigned2(a1, b1, i, a2, a3, a4, a5, Known1(a1, b1, i, a2, a3, a4, a5), 4, a5, []);
    Assigned3(a1, b1, i, a2, a3, a4, a5, Known2(a1, b1, i, a2, a3, a4, a5), 4, a5, []);
    assert !Assigned([], 4, a5, []);
  }

  /** What a read of i in scope 20 finds assigned before event 32. */
  lemma {:induction false} Read10(a1: string, b1: string, i: string, a2: string, a3: string, a4: string, a5: string)
    ensures !Assigned(Known3(a1, b1, i, a2, a3, a4, a5), 20, i, [])
  {
    Assigned0(a1, b1, i, a2, a3, a4, a5, [], 20, i, []);
    Assigned1(a1, b1, i, a2, a3, a4, a5, Known0(a1, b1, i, a2, a3, a4, a5), 20, i, []);
    Assigned2(a1, b1, i, a2, a3, a4, a5, Known1(a1, b1, i, a2, a3, a4, a5), 20, i, []);
    Assigned3(a1, b1, i, a2, a3, a4, a5, Known2(a1, b1, i, a2, a3, a4, a5), 20, i, []);
    assert !Assigned([], 20, i, []);
  }

  /** What a read of i in scope 20 finds assigned before event 32. */
  lemma {:induction false} Read11(a1: string, b1: string, i: string, a2: string, a3: string, a4: string, a5: string)
    ensures !Assigned(Known3(a1, b1, i, a2, a3, a4, a5), 20, i, [5])
  {
    Assigned0(a1, b1, i, a2, a3, a4, a5, [], 20, i, [5]);
    Assigned1(a1, b1, i, a2, a3, a4, a5, Known0(a1, b1, i, a2, a3, a4, a5), 20, i, [5]);
    Assigned2(a1, b1, i, a2, a3, a4, a5, Known1(a1, b1, i, a2, a3, a4, a5), 20, i, [5]);
    Assigned3(a1, b1, i, a2, a3, a4, a5, Known2(a1, b1, i, a2, a3, a4, a5), 20, i, [5]);
    assert !Assigned([], 20, i, [5]);
  }

  /** The parent and the locals of scope 0. */
  lemma {:induction false} Scope0(a1: string, b1: string, i: string, a2: string, a3: string, a4: string, a5: string, tr: Tree)
    requires ScopesAre(tr, Layout())
    requires LocalsFit(a1, b1, i, a2, a3, a4, a5, tr)
    ensures |tr.scopes| == 23
    ensures Parent(tr, 0) == None
    ensures LocalsOf(tr, 0) == []
  {
    assert tr.scopes[0] == Layout()[0];
    Locals0(a1, b1, i, a2, a3, a4, a5);
    assert LocalsOf(tr, 0) == DeclaredBy(a1, b1, i, a2, a3, a4, a5, 5, 0);
  }

  /** The parent and the locals of scope 3. */
  lemma {:induction false} Scope3(a1: string, b1: string, i: string, a2: string, a3: string, a4: string, a5: string, tr: Tree)
    requires ScopesAre(tr, Layout())
    requires LocalsFit(a1, b1, i, a2, a3, a4, a5, tr)
    ensures |tr.scopes| == 23
    ensures Parent(tr, 3) == Some(0)
    ensures LocalsOf(tr, 3) == []
  {
    assert tr.scopes[3] == Layout()[3];
    Locals3(a1, b1, i, a2, a3, a4, a5);
    assert LocalsOf(tr, 3) == DeclaredBy(a1, b1, i, a2, a3, a4, a5, 5, 3);
  }

  /** The parent and the locals of scope 4. */
  lemma {:induction false} Scope4(a1: string, b1: string, i: string, a2: string, a3: string, a4: string, a5: string, tr: Tree)
    requires ScopesAre(tr, Layout())
    requires LocalsFit(a1, b1, i, a2, a3, a4, a5, tr)
    ensures |tr.scopes| == 23
    ensures Parent(tr, 4) == Some(3)
    ensures LocalsOf(tr, 4) == [Local(a1, Pos(41, 13)), Local(b1, Pos(42, 39)), Local(a2, Pos(47, 13)), Local(a3, Pos(51, 13)), Local(a4, Pos(55, 13)), Local(a5, Pos(60, 13))]
  {
    assert tr.scopes[4] == Layout()[4];
    Locals4(a1, b1, i, a2, a3, a4, a5);
    assert LocalsOf(tr, 4) == DeclaredBy(a1, b1, i, a2, a3, a4, a5, 5, 4);
  }

  /** The parent and the locals of scope 5. */
  lemma {:induction false} Scope5(a1: string, b1: string, i: string, a2: string, a3: string, a4: string, a5: string, tr: Tree)
    requires ScopesAre(tr, Layout())
    requires LocalsFit(a1, b1, i, a2, a3, a4, a5, tr)
    ensures |tr.scopes| == 23
    ensures Parent(tr, 5) == Some(4)
    ensures LocalsOf(tr, 5) == [Local(i, Pos(44, 18)), Local(a1, Pos(44, 27))]
  {
    assert tr.scopes[5] == Layout()[5];
    Locals5(a1, b1, i, a2, a3, a4, a5);
    assert LocalsOf(tr, 5) == DeclaredBy(a1, b1, i, a2, a3, a4, a5, 5, 5);
  }

  /** The parent and the locals of scope 6. */
  lemma {:induction false} Scope6(a1: string, b1: string, i: string, a2: string, a3: string, a4: string, a5: string, tr: Tree)
    requires ScopesAre(tr, Layout())
    requires LocalsFit(a1, b1, i, a2, a3, a4, a5, tr)
    ensures |tr.scopes| == 23
    ensures Parent(tr, 6) == Some(5)
    ensures LocalsOf(tr, 6) == []
  {
    assert tr.scopes[6] == Layout()[6];
    Locals6(a1, b1, i, a2, a3, a4, a5);
    assert LocalsOf(tr, 6) == DeclaredBy(a1, b1, i, a2, a3, a4, a5, 5, 6);
  }

  /** The parent and the locals of scope 8. */
  lemma {:induction false} Scope8(a1: string, b1: string, i: string, a2: string, a3: string, a4: string, a5: string, tr: Tree)
    requires ScopesAre(tr, Layout())
    requires LocalsFit(a1, b1, i, a2, a3, a4, a5, tr)
    ensures |tr.scopes| == 23
    ensures Parent(tr, 8) == Some(4)
    ensures LocalsOf(tr, 8) == [Local(i, Pos(45, 18)), Local(b1, Pos(45, 27))]
  {
    assert tr.scopes[8] == Layout()[8];
    Locals8(a1, b1, i, a2, a3, a4, a5);
    assert LocalsOf(tr, 8) == DeclaredBy(a1, b1, i, a2, a3, a4, a5, 5, 8);
  }

  /** The parent and the locals of scope 9. */
  lemma {:induction false} Scope9(a1: string, b1: string, i: string, a2: string, a3: string, a4: string, a5: string, tr: Tree)
    requires ScopesAre(tr, Layout())
    requires LocalsFit(a1, b1, i, a2, a3, a4, a5, tr)
    ensures |tr.scopes| == 23
    ensures Parent(tr, 9) == Some(8)
    ensures LocalsOf(tr, 9) == []
  {
    assert tr.scopes[9] == Layout()[9];
    Locals9(a1, b1, i, a2, a3, a4, a5);
    assert LocalsOf(tr, 9) == DeclaredBy(a1, b1, i, a2, a3, a4, a5, 5, 9);
  }

  /** The parent and the locals of scope 11. */
  lemma {:induction false} Scope11(a1: string, b1: string, i: string, a2: string, a3: string, a4: string, a5: string, tr: Tree)
    requires ScopesAre(tr, Layout())
    requires LocalsFit(a1, b1, i, a2, a3, a4, a5, tr)
    ensures |tr.scopes| == 23
    ensures Parent(tr, 11) == Some(4)
    ensures LocalsOf(tr, 11) == [Local(i, Pos(49, 18))]
  {
    assert tr.scopes[11] == Layout()[11];
    Locals11(a1, b1, i, a2, a3, a4, a5);
    assert LocalsOf(tr, 11) == DeclaredBy(a1, b1, i, a2, a3, a4, a5, 5, 11);
  }

  /** The parent and the locals of scope 12. */
  lemma {:induction false} Scope12(a1: string, b1: string, i: string, a2: string, a3: string, a4: string, a5: string, tr: Tree)
    requires ScopesAre(tr, Layout())
    requires LocalsFit(a1, b1, i, a2, a3, a4, a5, tr)
    ensures |tr.scopes| == 23
    ensures Parent(tr, 12) == Some(11)
    ensures LocalsOf(tr, 12) == [Local(a2, Pos(49, 34))]
  {
    assert tr.scopes[12] == Layout()[12];
    Locals12(a1, b1, i, a2, a3, a4, a5);
    assert LocalsOf(tr, 12) == DeclaredBy(a1, b1, i, a2, a3, a4, a5, 5, 12);
  }

  /** The parent and the locals of scope 14. */
  lemma {:induction false} Scope14(a1: string, b1: string, i: string, a2: string, a3: string, a4: string, a5: string, tr: Tree)
    requires ScopesAre(tr, Layout())
    requires LocalsFit(a1, b1, i, a2, a3, a4, a5, tr)
    ensures |tr.scopes| == 23
    ensures Parent(tr, 14) == Some(4)
    ensures LocalsOf(tr, 14) == [Local(i, Pos(53, 18))]
  {
    assert tr.scopes[14] == Layout()[14];
    Locals14(a1, b1, i, a2, a3, a4, a5);
    assert LocalsOf(tr, 14) == DeclaredBy(a1, b1, i, a2, a3, a4, a5, 5, 14);
  }

  /** The parent and the locals of scope 15. */
  lemma {:induction false} Scope15(a1: string, b1: string, i: string, a2: string, a3: string, a4: string, a5: string, tr: Tree)
    requires ScopesAre(tr, Layout())
    requires LocalsFit(a1, b1, i, a2, a3, a4, a5, tr)
    ensures |tr.scopes| == 23
    ensures Parent(tr, 15) == Some(14)
    ensures LocalsOf(tr, 15) == [Local(a3, Pos(53, 41))]
  {
    assert tr.scopes[15] == Layout()[15];
    Locals15(a1, b1, i, a2, a3, a4, a5);
    assert LocalsOf(tr, 15) == DeclaredBy(a1, b1, i, a2, a3, a4, a5, 5, 15);
  }

  /** The parent and the locals of scope 17. */
  lemma {:induction false} Scope17(a1: string, b1: string, i: string, a2: string, a3: string, a4: string, a5: string, tr: Tree)
    requires ScopesAre(tr, Layout())
    requires LocalsFit(a1, b1, i, a2, a3, a4, a5, tr)
    ensures |tr.scopes| == 23
    ensures Parent(tr, 17) == Some(4)
    ensures LocalsOf(tr, 17) == [Local(i, Pos(57, 18))]
  {
    assert tr.scopes[17] == Layout()[17];
    Locals17(a1, b1, i, a2, a3, a4, a5);
    assert LocalsOf(tr, 17) == DeclaredBy(a1, b1, i, a2, a3, a4, a5, 5, 17);
  }

  /** The parent and the locals of scope 18. */
  lemma {:induction false} Scope18(a1: string, b1: string, i: string, a2: string, a3: string, a4: string, a5: string, tr: Tree)
    requires ScopesAre(tr, Layout())
    requires LocalsFit(a1, b1, i, a2, a3, a4, a5, tr)
    ensures |tr.scopes| == 23
    ensures Parent(tr, 18) == Some(17)
    ensures LocalsOf(tr, 18) == []
  {
    assert tr.scopes[18] == Layout()[18];
    Locals18(a1, b1, i, a2, a3, a4, a5);
    assert LocalsOf(tr, 18) == DeclaredBy(a1, b1, i, a2, a3, a4, a5, 5, 18);
  }

  /** The parent and the locals of scope 19. */
  lemma {:induction false} Scope19(a1: string, b1: string, i: string, a2: string, a3: string, a4: string, a5: string, tr: Tree)
    requires ScopesAre(tr, Layout())
    requires LocalsFit(a1, b1, i, a2, a3, a4, a5, tr)
    ensures |tr.scopes| == 23
    ensures Parent(tr, 19) == Some(18)
    ensures LocalsOf(tr, 19) == [Local(a4, Pos(58, 42))]
  {
    assert tr.scopes[19] == Layout()[19];
    Locals19(a1, b1, i, a2, a3, a4, a5);
    assert LocalsOf(tr, 19) == DeclaredBy(a1, b1, i, a2, a3, a4, a5, 5, 19);
  }

  /** The parent and the locals of scope 20. */
  lemma {:induction false} Scope20(a1: string, b1: string, i: string, a2: string, a3: string, a4: string, a5: string, tr: Tree)
    requires ScopesAre(tr, Layout())
    requires LocalsFit(a1, b1, i, a2, a3, a4, a5, tr)
    ensures |tr.scopes| == 23
    ensures Parent(tr, 20) == Some(4)
    ensures LocalsOf(tr, 20) == [Local(i, Pos(62, 18))]
  {
    assert tr.scopes[20] == Layout()[20];
    Locals20(a1, b1, i, a2, a3, a4, a5);
    assert LocalsOf(tr, 20) == DeclaredBy(a1, b1, i, a2, a3, a4, a5, 5, 20);
  }

  /** The parent and the locals of scope 21. */
  lemma {:induction false} Scope21(a1: string, b1: string, i: string, a2: string, a3: string, a4: string, a5: string, tr: Tree)
    requires ScopesAre(tr, Layout())
    requires LocalsFit(a1, b1, i, a2, a3, a4, a5, tr)
    ensures |tr.scopes| == 23
    ensures Parent(tr, 21) == Some(20)
    ensures LocalsOf(tr, 21) == []
  {
    assert tr.scopes[21] == Layout()[21];
    Locals21(a1, b1, i, a2, a3, a4, a5);
    assert LocalsOf(tr, 21) == DeclaredBy(a1, b1, i, a2, a3, a4, a5, 5, 21);
  }

  /** The parent and the locals of scope 22. */
  lemma {:induction false} Scope22(a1: string, b1: string, i: string, a2: string, a3: string, a4: string, a5: string, tr: Tree)
    requires ScopesAre(tr, Layout())
    requires LocalsFit(a1, b1, i, a2, a3, a4, a5, tr)
    ensures |tr.scopes| == 23
    ensures Parent(tr, 22) == Some(21)
    ensures LocalsOf(tr, 22) == [Local(a5, Pos(64, 42))]
  {
    assert tr.scopes[22] == Layout()[22];
    Locals22(a1, b1, i, a2, a3, a4, a5);
    assert LocalsOf(tr, 22) == DeclaredBy(a1, b1, i, a2, a3, a4, a5, 5, 22);
  }

  /** The analysis of events 0 to 7, after the events before them. */
  lemma {:induction false} Analysed0(a1: string, b1: string, i: string, a2: string, a3: string, a4: string, a5: string, tr: Tree, evs: seq<Event>, fs: seq<Fact>, rs: seq<Diag>)
    requires |tr.scopes| == 23
    requires Parent(tr, 0) == None
    requires Parent(tr, 3) == Some(0)
    requires Parent(tr, 4) == Some(3)
    requires Parent(tr, 5) == Some(4)
    requires Parent(tr, 6) == Some(5)
    requires Parent(tr, 8) == Some(4)
    requires LocalsOf(tr, 0) == []
    requires LocalsOf(tr, 3) == []
    requires LocalsOf(tr, 4) == [Local(a1, Pos(41, 13)), Local(b1, Pos(42, 39)), Local(a2, Pos(47, 13)), Local(a3, Pos(51, 13)), Local(a4, Pos(55, 13)), Local(a5, Pos(60, 13))]
    requires LocalsOf(tr, 5) == [Local(i, Pos(44, 18)), Local(a1, Pos(44, 27))]
    requires LocalsOf(tr, 6) == []
    requires LocalsOf(tr, 8) == [Local(i, Pos(45, 18)), Local(b1, Pos(45, 27))]
    requires a1 != b1 && a1 != i && a1 != a2 && a1 != a3 && a1 != a4 && a1 != a5 && b1 != i && b1 != a2 && b1 != a3 && b1 != a4 && b1 != a5 && i != a2 && i != a3 && i != a4 && i != a5
    requires Analyse(tr, evs, []) == rs
    requires Replay(tr, evs, []) == fs
    requires !Assigned(fs, 4, a1, [])
    requires !Assigned(fs, 5, i, [])
    ensures Analyse(tr, evs + Chunk0(a1, b1, i, a2, a3, a4, a5), []) == rs + ([] + [] + [] + [] + [] + [] + [Diag(Shadow, a1, Pos(44, 27))] + [] + [])
    ensures Replay(tr, evs + Chunk0(a1, b1, i, a2, a3, a4, a5), []) == fs + [Fact(4, a1, [])] + [Fact(4, b1, [])] + [Fact(5, i, [])] + [Fact(5, a1, [])] + [Fact(8, i, [])]
  {
    assert Analyse(tr, [], fs) == [] && Replay(tr, [], fs) == fs;
    Event0(a1, b1, i, a2, a3, a4, a5, tr, fs);
    AnalyseSnoc(tr, [], Declared(4, a1, Pos(41, 13), Initialized, []), fs);
    assert Analyse(tr, [] + [Declared(4, a1, Pos(41, 13), Initialized, [])], fs) == [] + [];
    assert Replay(tr, [] + [Declared(4, a1, Pos(41, 13), Initialized, [])], fs) == fs + [Fact(4, a1, [])];
    Event1(a1, b1, i, a2, a3, a4, a5, tr, fs + [Fact(4, a1, [])]);
    AnalyseSnoc(tr, [] + [Declared(4, a1, Pos(41, 13), Initialized, [])], Declared(4, b1, Pos(42, 39), Initialized, []), fs);
    assert Analyse(tr, [] + [Declared(4, a1, Pos(41, 13), Initialized, [])] + [Declared(4, b1, Pos(42, 39), Initialized, [])], fs) == [] + [] + [];
    assert Replay(tr, [] + [Declared(4, a1, Pos(41, 13), Initialized, [])] + [Declared(4, b1, Pos(42, 39), Initialized, [])], fs) == fs + [Fact(4, a1, [])] + [Fact(4, b1, [])];
    AssignedSnoc(fs, Fact(4, a1, []), 4, a1, []);
    AssignedSnoc(fs + [Fact(4, a1, [])], Fact(4, b1, []), 4, a1, []);
    Event2(a1, b1, i, a2, a3, a4, a5, tr, fs + [Fact(4, a1, [])] + [Fact(4, b1, [])]);
    AnalyseSnoc(tr, [] + [Declared(4, a1, Pos(41, 13), Initialized, [])] + [Declared(4, b1, Pos(42, 39), Initialized, [])], Referenced(4, a1, Pos(42, 49), false, false, []), fs);
    assert Analyse(tr, [] + [Declared(4, a1, Pos(41, 13), Initialized, [])] + [Declared(4, b1, Pos(42, 39), Initialized, [])] + [Referenced(4, a1, Pos(42, 49), false, false, [])], fs) == [] + [] + [] + [];
    assert Replay(tr, [] + [Declared(4, a1, Pos(41, 13), Initialized, [])] + [Declared(4, b1, Pos(42, 39), Initialized, [])] + [Referenced(4, a1, Pos(42, 49), false, false, [])], fs) == fs + [Fact(4, a1, [])] + [Fact(4, b1, [])];
    Event3(a1, b1, i, a2, a3, a4, a5, tr, fs + [Fact(4, a1, [])] + [Fact(4, b1, [])]);
    AnalyseSnoc(tr, [] + [Declared(4, a1, Pos(41, 13), Initialized, [])] + [Declared(4, b1, Pos(42, 39), Initialized, [])] + [Referenced(4, a1, Pos(42, 49), false, false, [])], OutAssigned(4, [], []), fs);
    assert Analyse(tr, [] + [Declared(4, a1, Pos(41, 13), Initialized, [])] + [Declared(4, b1, Pos(42, 39), Initialized, [])] + [Referenced(4, a1, Pos(42, 49), false, false, [])] + [OutAssigned(4, [], [])], fs) == [] + [] + [] + [] + [];
    assert Replay(tr, [] + [Declared(4, a1, Pos(41, 13), Initialized, [])] + [Declared(4, b1, Pos(42, 39), Initialized, [])] + [Referenced(4, a1, Pos(42, 49), false, false, [])] + [OutAssigned(4, [], [])], fs) == fs + [Fact(4, a1, [])] + [Fact(4, b1, [])];
    Event4(a1, b1, i, a2, a3, a4, a5, tr, fs + [Fact(4, a1, [])] + [Fact(4, b1, [])]);
    AnalyseSnoc(tr, [] + [Declared(4, a1, Pos(41, 13), Initialized, [])] + [Declared(4, b1, Pos(42, 39), Initialized, [])] + [Referenced(4, a1, Pos(42, 49), false, false, [])] + [OutAssigned(4, [], [])], Declared(5, i, Pos(44, 18), Initialized, []), fs);
    assert Analyse(tr, [] + [Declared(4, a1, Pos(41, 13), Initialized, [])] + [Declared(4, b1, Pos(42, 39), Initialized, [])] + [Referenced(4, a1, Pos(42, 49), false, false, [])] + [OutAssigned(4, [], [])] + [Declared(5, i, Pos(44, 18), Initialized, [])], fs) == [] + [] + [] + [] + [] + [];
    assert Replay(tr, [] + [Declared(4, a1, Pos(41, 13), Initialized, [])] + [Declared(4, b1, Pos(42, 39), Initialized, [])] + [Referenced(4, a1, Pos(42, 49), false, false, [])] + [OutAssigned(4, [], [])] + [Declared(5, i, Pos(44, 18), Initialized, [])], fs) == fs + [Fact(4, a1, [])] + [Fact(4, b1, [])] + [Fact(5, i, [])];
    Event5(a1, b1, i, a2, a3, a4, a5, tr, fs + [Fact(4, a1, [])] + [Fact(4, b1, [])] + [Fact(5, i, [])]);
    AnalyseSnoc(tr, [] + [Declared(4, a1, Pos(41, 13), Initialized, [])] + [Declared(4, b1, Pos(42, 39), Initialized, [])] + [Referenced(4, a1, Pos(42, 49), false, false, [])] + [OutAssigned(4, [], [])] + [Declared(5, i, Pos(44, 18), Initialized, [])], Declared(5, a1, Pos(44, 27), Initialized, []), fs);
    assert Analyse(tr, [] + [Declared(4, a1, Pos(41, 13), Initialized, [])] + [Declared(4, b1, Pos(42, 39), Initialized, [])] + [Referenced(4, a1, Pos(42, 49), false, false, [])] + [OutAssigned(4, [], [])] + [Declared(5, i, Pos(44, 18), Initialized, [])] + [Declared(5, a1, Pos(44, 27), Initialized, [])], fs) == [] + [] + [] + [] + [] + [] + [Diag(Shadow, a1, Pos(44, 27))];
    assert Replay(tr, [] + [Declared(4, a1, Pos(41, 13), Initialized, [])] + [Declared(4, b1, Pos(42, 39), Initialized, [])] + [Referenced(4, a1, Pos(42, 49), false, false, [])] + [OutAssigned(4, [], [])] + [Declared(5, i, Pos(44, 18), Initialized, [])] + [Declared(5, a1, Pos(44, 27), Initialized, [])], fs) == fs + [Fact(4, a1, [])] + [Fact(4, b1, [])] + [Fact(5, i, [])] + [Fact(5, a1, [])];
    AssignedSnoc(fs, Fact(4, a1, []), 5, i, []);
    AssignedSnoc(fs + [Fact(4, a1, [])], Fact(4, b1, []), 5, i, []);
    AssignedSnoc(fs + [Fact(4, a1, [])] + [Fact(4, b1, [])], Fact(5, i, []), 5, i, []);
    AssignedSnoc(fs + [Fact(4, a1, [])] + [Fact(4, b1, [])] + [Fact(5, i, [])], Fact(5, a1, []), 5, i, []);
    Event6(a1, b1, i, a2, a3, a4, a5, tr, fs + [Fact(4, a1, [])] + [Fact(4, b1, [])] + [Fact(5, i, [])] + [Fact(5, a1, [])]);
    AnalyseSnoc(tr, [] + [Declared(4, a1, Pos(41, 13), Initialized, [])] + [Declared(4, b1, Pos(42, 39), Initialized, [])] + [Referenced(4, a1, Pos(42, 49), false, false, [])] + [OutAssigned(4, [], [])] + [Declared(5, i, Pos(44, 18), Initialized, [])] + [Declared(5, a1, Pos(44, 27), Initialized, [])], Referenced(6, i, Pos(44, 36), false, false, []), fs);
    assert Analyse(tr, [] + [Declared(4, a1, Pos(41, 13), Initialized, [])] + [Declared(4, b1, Pos(42, 39), Initialized, [])] + [Referenced(4, a1, Pos(42, 49), false, false, [])] + [OutAssigned(4, [], [])] + [Declared(5, i, Pos(44, 18), Initialized, [])] + [Declared(5, a1, Pos(44, 27), Initialized, [])] + [Referenced(6, i, Pos(44, 36), false, false, [])], fs) == [] + [] + [] + [] + [] + [] + [Diag(Shadow, a1, Pos(44, 27))] + [];
    assert Replay(tr, [] + [Declared(4, a1, Pos(41, 13), Initialized, [])] + [Declared(4, b1, Pos(42, 39), Initialized, [])] + [Referenced(4, a1, Pos(42, 49), false, false, [])] + [OutAssigned(4, [], [])] + [Declared(5, i, Pos(44, 18), Initialized, [])] + [Declared(5, a1, Pos(44, 27), Initialized, [])] + [Referenced(6, i, Pos(44, 36), false, false, [])], fs) == fs + [Fact(4, a1, [])] + [Fact(4, b1, [])] + [Fact(5, i, [])] + [Fact(5, a1, [])];
    Event7(a1, b1, i, a2, a3, a4, a5, tr, fs + [Fact(4, a1, [])] + [Fact(4, b1, [])] + [Fact(5, i, [])] + [Fact(5, a1, [])]);
    AnalyseSnoc(tr, [] + [Declared(4, a1, Pos(41, 13), Initialized, [])] + [Declared(4, b1, Pos(42, 39), Initialized, [])] + [Referenced(4, a1, Pos(42, 49), false, false, [])] + [OutAssigned(4, [], [])] + [Declared(5, i, Pos(44, 18), Initialized, [])] + [Declared(5, a1, Pos(44, 27), Initialized, [])] + [Referenced(6, i, Pos(44, 36), false, false, [])], Declared(8, i, Pos(45, 18), Initialized, []), fs);
    AnalyseSplit(tr, evs, Chunk0(a1, b1, i, a2, a3, a4, a5), []);
  }

  /** The analysis of events 8 to 15, after the events before them. */
  lemma {:induction false} Analysed1(a1: string, b1: string, i: string, a2: string, a3: string, a4: string, a5: string, tr: Tree, evs: seq<Event>, fs: seq<Fact>, rs: seq<Diag>)
    requires |tr.scopes| == 23
    requires Parent(tr, 0) == None
    requires Parent(tr, 3) == Some(0)
    requires Parent(tr, 4) == Some(3)
    requires Parent(tr, 8) == Some(4)
    requires Parent(tr, 9) == Some(8)
    requires Parent(tr, 11) == Some(4)
    requires Parent(tr, 12) == Some(11)
    requires LocalsOf(tr, 0) == []
    requires LocalsOf(tr, 3) == []
    requires LocalsOf(tr, 4) == [Local(a1, Pos(41, 13)), Local(b1, Pos(42, 39)), Local(a2, Pos(47, 13)), Local(a3, Pos(51, 13)), Local(a4, Pos(55, 13)), Local(a5, Pos(60, 13))]
    requires LocalsOf(tr, 8) == [Local(i, Pos(45, 18)), Local(b1, Pos(45, 27))]
    requires LocalsOf(tr, 9) == []
    requires LocalsOf(tr, 11) == [Local(i, Pos(49, 18))]
    requires LocalsOf(tr, 12) == [Local(a2, Pos(49, 34))]
    requires a1 != b1 && a1 != i && a1 != a2 && b1 != i && b1 != a2 && b1 != a3 && b1 != a4 && b1 != a5 && i != a2 && i != a3 && i != a4 && i != a5 && a2 != a3 && a2 != a4 && a2 != a5
    requires Analyse(tr, evs, []) == rs
    requires Replay(tr, evs, []) == fs
    requires Assigned(fs, 8, i, [])
    requires !Assigned(fs, 4, a2, [])
    requires !Assigned(fs, 11, i, [])
    ensures Analyse(tr, evs + Chunk1(a1, b1, i, a2, a3, a4, a5), []) == rs + ([] + [Diag(Shadow, b1, Pos(45, 27))] + [] + [] + [] + [] + [] + [] + [Diag(Shadow, a2, Pos(49, 34))])
    ensures Replay(tr, evs + Chunk1(a1, b1, i, a2, a3, a4, a5), []) == fs + [Fact(8, b1, [])] + [Fact(4, a2, [])] + [Fact(11, i, [])] + [Fact(12, a2, [])]
  {
    assert Analyse(tr, [], fs) == [] && Replay(tr, [], fs) == fs;
    Event8(a1, b1, i, a2, a3, a4, a5, tr, fs);
    AnalyseSnoc(tr, [], Declared(8, b1, Pos(45, 27), Initialized, []), fs);
    assert Analyse(tr, [] + [Declared(8, b1, Pos(45, 27), Initialized, [])], fs) == [] + [Diag(Shadow, b1, Pos(45, 27))];
    assert Replay(tr, [] + [Declared(8, b1, Pos(45, 27), Initialized, [])], fs) == fs + [Fact(8, b1, [])];
    AssignedSnoc(fs, Fact(8, b1, []), 8, i, []);
    Event9(a1, b1, i, a2, a3, a4, a5, tr, fs + [Fact(8, b1, [])]);
    AnalyseSnoc(tr, [] + [Declared(8, b1, Pos(45, 27), Initialized, [])], Referenced(9, i, Pos(45, 36), false, false, []), fs);
    assert Analyse(tr, [] + [Declared(8, b1, Pos(45, 27), Initialized, [])] + [Referenced(9, i, Pos(45, 36), false, false, [])], fs) == [] + [Diag(Shadow, b1, Pos(45, 27))] + [];
    assert Replay(tr, [] + [Declared(8, b1, Pos(45, 27), Initialized, [])] + [Referenced(9, i, Pos(45, 36), false, false, [])], fs) == fs + [Fact(8, b1, [])];
    Event10(a1, b1, i, a2, a3, a4, a5, tr, fs + [Fact(8, b1, [])]);
    AnalyseSnoc(tr, [] + [Declared(8, b1, Pos(45, 27), Initialized, [])] + [Referenced(9, i, Pos(45, 36), false, false, [])], Declared(4, a2, Pos(47, 13), Initialized, []), fs);
    assert Analyse(tr, [] + [Declared(8, b1, Pos(45, 27), Initialized, [])] + [Referenced(9, i, Pos(45, 36), false, false, [])] + [Declared(4, a2, Pos(47, 13), Initialized, [])], fs) == [] + [Diag(Shadow, b1, Pos(45, 27))] + [] + [];
    assert Replay(tr, [] + [Declared(8, b1, Pos(45, 27), Initialized, [])] + [Referenced(9, i, Pos(45, 36), false, false, [])] + [Declared(4, a2, Pos(47, 13), Initialized, [])], fs) == fs + [Fact(8, b1, [])] + [Fact(4, a2, [])];
    AssignedSnoc(fs, Fact(8, b1, []), 4, a2, []);
    AssignedSnoc(fs + [Fact(8, b1, [])], Fact(4, a2, []), 4, a2, []);
    Event11(a1, b1, i, a2, a3, a4, a5, tr, fs + [Fact(8, b1, [])] + [Fact(4, a2, [])]);
    AnalyseSnoc(tr, [] + [Declared(8, b1, Pos(45, 27), Initialized, [])] + [Referenced(9, i, Pos(45, 36), false, false, [])] + [Declared(4, a2, Pos(47, 13), Initialized, [])], Referenced(4, a2, Pos(48, 34), false, false, []), fs);
    assert Analyse(tr, [] + [Declared(8, b1, Pos(45, 27), Initialized, [])] + [Referenced(9, i, Pos(45, 36), false, false, [])] + [Declared(4, a2, Pos(47, 13), Initialized, [])] + [Referenced(4, a2, Pos(48, 34), false, false, [])], fs) == [] + [Diag(Shadow, b1, Pos(45, 27))] + [] + [] + [];
    assert Replay(tr, [] + [Declared(8, b1, Pos(45, 27), Initialized, [])] + [Referenced(9, i, Pos(45, 36), false, false, [])] + [Declared(4, a2, Pos(47, 13), Initialized, [])] + [Referenced(4, a2, Pos(48, 34), false, false, [])], fs) == fs + [Fact(8, b1, [])] + [Fact(4, a2, [])];
    Event12(a1, b1, i, a2, a3, a4, a5, tr, fs + [Fact(8, b1, [])] + [Fact(4, a2, [])]);
    AnalyseSnoc(tr, [] + [Declared(8, b1, Pos(45, 27), Initialized, [])] + [Referenced(9, i, Pos(45, 36), false, false, [])] + [Declared(4, a2, Pos(47, 13), Initialized, [])] + [Referenced(4, a2, Pos(48, 34), false, false, [])], OutAssigned(4, [], []), fs);
    assert Analyse(tr, [] + [Declared(8, b1, Pos(45, 27), Initialized, [])] + [Referenced(9, i, Pos(45, 36), false, false, [])] + [Declared(4, a2, Pos(47, 13), Initialized, [])] + [Referenced(4, a2, Pos(48, 34), false, false, [])] + [OutAssigned(4, [], [])], fs) == [] + [Diag(Shadow, b1, Pos(45, 27))] + [] + [] + [] + [];
    assert Replay(tr, [] + [Declared(8, b1, Pos(45, 27), Initialized, [])] + [Referenced(9, i, Pos(45, 36), false, false, [])] + [Declared(4, a2, Pos(47, 13), Initialized, [])] + [Referenced(4, a2, Pos(48, 34), false, false, [])] + [OutAssigned(4, [], [])], fs) == fs + [Fact(8, b1, [])] + [Fact(4, a2, [])];
    Event13(a1, b1, i, a2, a3, a4, a5, tr, fs + [Fact(8, b1, [])] + [Fact(4, a2, [])]);
    AnalyseSnoc(tr, [] + [Declared(8, b1, Pos(45, 27), Initialized, [])] + [Referenced(9, i, Pos(45, 36), false, false, [])] + [Declared(4, a2, Pos(47, 13), Initialized, [])] + [Referenced(4, a2, Pos(48, 34), false, false, [])] + [OutAssigned(4, [], [])], Declared(11, i, Pos(49, 18), Initialized, []), fs);
    assert Analyse(tr, [] + [Declared(8, b1, Pos(45, 27), Initialized, [])] + [Referenced(9, i, Pos(45, 36), false, false, [])] + [Declared(4, a2, Pos(47, 13), Initialized, [])] + [Referenced(4, a2, Pos(48, 34), false, false, [])] + [OutAssigned(4, [], [])] + [Declared(11, i, Pos(49, 18), Initialized, [])], fs) == [] + [Diag(Shadow, b1, Pos(45, 27))] + [] + [] + [] + [] + [];
    assert Replay(tr, [] + [Declared(8, b1, Pos(45, 27), Initialized, [])] + [Referenced(9, i, Pos(45, 36), false, false, [])] + [Declared(4, a2, Pos(47, 13), Initialized, [])] + [Referenced(4, a2, Pos(48, 34), false, false, [])] + [OutAssigned(4, [], [])] + [Declared(11, i, Pos(49, 18), Initialized, [])], fs) == fs + [Fact(8, b1, [])] + [Fact(4, a2, [])] + [Fact(11, i, [])];
    AssignedSnoc(fs, Fact(8, b1, []), 11, i, []);
    AssignedSnoc(fs + [Fact(8, b1, [])], Fact(4, a2, []), 11, i, []);
    AssignedSnoc(fs + [Fact(8, b1, [])] + [Fact(4, a2, [])], Fact(11, i, []), 11, i, []);
    Event14(a1, b1, i, a2, a3, a4, a5, tr, fs + [Fact(8, b1, [])] + [Fact(4, a2, [])] + [Fact(11, i, [])]);
    AnalyseSnoc(tr, [] + [Declared(8, b1, Pos(45, 27), Initialized, [])] + [Referenced(9, i, Pos(45, 36), false, false, [])] + [Declared(4, a2, Pos(47, 13), Initialized, [])] + [Referenced(4, a2, Pos(48, 34), false, false, [])] + [OutAssigned(4, [], [])] + [Declared(11, i, Pos(49, 18), Initialized, [])], Referenced(12, i, Pos(49, 25), false, false, []), fs);
    assert Analyse(tr, [] + [Declared(8, b1, Pos(45, 27), Initialized, [])] + [Referenced(9, i, Pos(45, 36), false, false, [])] + [Declared(4, a2, Pos(47, 13), Initialized, [])] + [Referenced(4, a2, Pos(48, 34), false, false, [])] + [OutAssigned(4, [], [])] + [Declared(11, i, Pos(49, 18), Initialized, [])] + [Referenced(12, i, Pos(49, 25), false, false, [])], fs) == [] + [Diag(Shadow, b1, Pos(45, 27))] + [] + [] + [] + [] + [] + [];
    assert Replay(tr, [] + [Declared(8, b1, Pos(45, 27), Initialized, [])] + [Referenced(9, i, Pos(45, 36), false, false, [])] + [Declared(4, a2, Pos(47, 13), Initialized, [])] + [Referenced(4, a2, Pos(48, 34), false, false, [])] + [OutAssigned(4, [], [])] + [Declared(11, i, Pos(49, 18), Initialized, [])] + [Referenced(12, i, Pos(49, 25), false, false, [])], fs) == fs + [Fact(8, b1, [])] + [Fact(4, a2, [])] + [Fact(11, i, [])];
    Event15(a1, b1, i, a2, a3, a4, a5, tr, fs + [Fact(8, b1, [])] + [Fact(4, a2, [])] + [Fact(11, i, [])]);
    AnalyseSnoc(tr, [] + [Declared(8, b1, Pos(45, 27), Initialized, [])] + [Referenced(9, i, Pos(45, 36), false, false, [])] + [Declared(4, a2, Pos(47, 13), Initialized, [])] + [Referenced(4, a2, Pos(48, 34), false, false, [])] + [OutAssigned(4, [], [])] + [Declared(11, i, Pos(49, 18), Initialized, [])] + [Referenced(12, i, Pos(49, 25), false, false, [])], Declared(12, a2, Pos(49, 34), Initialized, []), fs);
    AnalyseSplit(tr, evs, Chunk1(a1, b1, i, a2, a3, a4, a5), []);
  }

  /** The analysis of events 16 to 23, after the events before them. */
  lemma {:induction false} Analysed2(a1: string, b1: string, i: string, a2: string, a3: string, a4: string, a5: string, tr: Tree, evs: seq<Event>, fs: seq<Fact>, rs: seq<Diag>)
    requires |tr.scopes| == 23
    requires Parent(tr, 0) == None
    requires Parent(tr, 3) == Some(0)
    requires Parent(tr, 4) == Some(3)
    requires Parent(tr, 14) == Some(4)
    requires Parent(tr, 15) == Some(14)
    requires LocalsOf(tr, 0) == []
    requires LocalsOf(tr, 3) == []
    requires LocalsOf(tr, 4) == [Local(a1, Pos(41, 13)), Local(b1, Pos(42, 39)), Local(a2, Pos(47, 13)), Local(a3, Pos(51, 13)), Local(a4, Pos(55, 13)), Local(a5, Pos(60, 13))]
    requires LocalsOf(tr, 14) == [Local(i, Pos(53, 18))]
    requires LocalsOf(tr, 15) == [Local(a3, Pos(53, 41))]
    requires a1 != i && a1 != a3 && a1 != a4 && b1 != i && b1 != a3 && b1 != a4 && i != a2 && i != a3 && i != a4 && i != a5 && a2 != a3 && a2 != a4 && a3 != a4 && a3 != a5 && a4 != a5
    requires Analyse(tr, evs, []) == rs
    requires Replay(tr, evs, []) == fs
    requires !Assigned(fs, 4, a3, [])
    requires !Assigned(fs, 14, i, [])
    requires !Assigned(fs, 14, i, [3])
    ensures Analyse(tr, evs + Chunk2(a1, b1, i, a2, a3, a4, a5), []) == rs + ([] + [] + [] + [] + [] + [] + [] + [Diag(Shadow, a3, Pos(53, 41))] + [])
    ensures Replay(tr, evs + Chunk2(a1, b1, i, a2, a3, a4, a5), []) == fs + [Fact(4, a3, [])] + [Fact(14, i, [])] + [Fact(15, a3, [3])] + [Fact(4, a4, [])]
  {
    assert Analyse(tr, [], fs) == [] && Replay(tr, [], fs) == fs;
    Event16(a1, b1, i, a2, a3, a4, a5, tr, fs);
    AnalyseSnoc(tr, [], Declared(4, a3, Pos(51, 13), Initialized, []), fs);
    assert Analyse(tr, [] + [Declared(4, a3, Pos(51, 13), Initialized, [])], fs) == [] + [];
    assert Replay(tr, [] + [Declared(4, a3, Pos(51, 13), Initialized, [])], fs) == fs + [Fact(4, a3, [])];
    AssignedSnoc(fs, Fact(4, a3, []), 4, a3, []);
    Event17(a1, b1, i, a2, a3, a4, a5, tr, fs + [Fact(4, a3, [])]);
    AnalyseSnoc(tr, [] + [Declared(4, a3, Pos(51, 13), Initialized, [])], Referenced(4, a3, Pos(52, 34), false, false, []), fs);
    assert Analyse(tr, [] + [Declared(4, a3, Pos(51, 13), Initialized, [])] + [Referenced(4, a3, Pos(52, 34), false, false, [])], fs) == [] + [] + [];
    assert Replay(tr, [] + [Declared(4, a3, Pos(51, 13), Initialized, [])] + [Referenced(4, a3, Pos(52, 34), false, false, [])], fs) == fs + [Fact(4, a3, [])];
    Event18(a1, b1, i, a2, a3, a4, a5, tr, fs + [Fact(4, a3, [])]);
    AnalyseSnoc(tr, [] + [Declared(4, a3, Pos(51, 13), Initialized, [])] + [Referenced(4, a3, Pos(52, 34), false, false, [])], OutAssigned(4, [], []), fs);
    assert Analyse(tr, [] + [Declared(4, a3, Pos(51, 13), Initialized, [])] + [Referenced(4, a3, Pos(52, 34), false, false, [])] + [OutAssigned(4, [], [])], fs) == [] + [] + [] + [];
    assert Replay(tr, [] + [Declared(4, a3, Pos(51, 13), Initialized, [])] + [Referenced(4, a3, Pos(52, 34), false, false, [])] + [OutAssigned(4, [], [])], fs) == fs + [Fact(4, a3, [])];
    Event19(a1, b1, i, a2, a3, a4, a5, tr, fs + [Fact(4, a3, [])]);
    AnalyseSnoc(tr, [] + [Declared(4, a3, Pos(51, 13), Initialized, [])] + [Referenced(4, a3, Pos(52, 34), false, false, [])] + [OutAssigned(4, [], [])], Declared(14, i, Pos(53, 18), Initialized, []), fs);
    assert Analyse(tr, [] + [Declared(4, a3, Pos(51, 13), Initialized, [])] + [Referenced(4, a3, Pos(52, 34), false, false, [])] + [OutAssigned(4, [], [])] + [Declared(14, i, Pos(53, 18), Initialized, [])], fs) == [] + [] + [] + [] + [];
    assert Replay(tr, [] + [Declared(4, a3, Pos(51, 13), Initialized, [])] + [Referenced(4, a3, Pos(52, 34), false, false, [])] + [OutAssigned(4, [], [])] + [Declared(14, i, Pos(53, 18), Initialized, [])], fs) == fs + [Fact(4, a3, [])] + [Fact(14, i, [])];
    AssignedSnoc(fs, Fact(4, a3, []), 14, i, []);
    AssignedSnoc(fs + [Fact(4, a3, [])], Fact(14, i, []), 14, i, []);
    Event20(a1, b1, i, a2, a3, a4, a5, tr, fs + [Fact(4, a3, [])] + [Fact(14, i, [])]);
    AnalyseSnoc(tr, [] + [Declared(4, a3, Pos(51, 13), Initialized, [])] + [Referenced(4, a3, Pos(52, 34), false, false, [])] + [OutAssigned(4, [], [])] + [Declared(14, i, Pos(53, 18), Initialized, [])], Referenced(15, i, Pos(53, 25), false, false, []), fs);
    assert Analyse(tr, [] + [Declared(4, a3, Pos(51, 13), Initialized, [])] + [Referenced(4, a3, Pos(52, 34), false, false, [])] + [OutAssigned(4, [], [])] + [Declared(14, i, Pos(53, 18), Initialized, [])] + [Referenced(15, i, Pos(53, 25), false, false, [])], fs) == [] + [] + [] + [] + [] + [];
    assert Replay(tr, [] + [Declared(4, a3, Pos(51, 13), Initialized, [])] + [Referenced(4, a3, Pos(52, 34), false, false, [])] + [OutAssigned(4, [], [])] + [Declared(14, i, Pos(53, 18), Initialized, [])] + [Referenced(15, i, Pos(53, 25), false, false, [])], fs) == fs + [Fact(4, a3, [])] + [Fact(14, i, [])];
    AssignedSnoc(fs, Fact(4, a3, []), 14, i, [3]);
    AssignedSnoc(fs + [Fact(4, a3, [])], Fact(14, i, []), 14, i, [3]);
    Event21(a1, b1, i, a2, a3, a4, a5, tr, fs + [Fact(4, a3, [])] + [Fact(14, i, [])]);
    AnalyseSnoc(tr, [] + [Declared(4, a3, Pos(51, 13), Initialized, [])] + [Referenced(4, a3, Pos(52, 34), false, false, [])] + [OutAssigned(4, [], [])] + [Declared(14, i, Pos(53, 18), Initialized, [])] + [Referenced(15, i, Pos(53, 25), false, false, [])], Referenced(15, i, Pos(53, 32), false, false, [3]), fs);
    assert Analyse(tr, [] + [Declared(4, a3, Pos(51, 13), Initialized, [])] + [Referenced(4, a3, Pos(52, 34), false, false, [])] + [OutAssigned(4, [], [])] + [Declared(14, i, Pos(53, 18), Initialized, [])] + [Referenced(15, i, Pos(53, 25), false, false, [])] + [Referenced(15, i, Pos(53, 32), false, false, [3])], fs) == [] + [] + [] + [] + [] + [] + [];
    assert Replay(tr, [] + [Declared(4, a3, Pos(51, 13), Initialized, [])] + [Referenced(4, a3, Pos(52, 34), false, false, [])] + [OutAssigned(4, [], [])] + [Declared(14, i, Pos(53, 18), Initialized, [])] + [Referenced(15, i, Pos(53, 25), false, false, [])] + [Referenced(15, i, Pos(53, 32), false, false, [3])], fs) == fs + [Fact(4, a3, [])] + [Fact(14, i, [])];
    Event22(a1, b1, i, a2, a3, a4, a5, tr, fs + [Fact(4, a3, [])] + [Fact(14, i, [])]);
    AnalyseSnoc(tr, [] + [Declared(4, a3, Pos(51, 13), Initialized, [])] + [Referenced(4, a3, Pos(52, 34), false, false, [])] + [OutAssigned(4, [], [])] + [Declared(14, i, Pos(53, 18), Initialized, [])] + [Referenced(15, i, Pos(53, 25), false, false, [])] + [Referenced(15, i, Pos(53, 32), false, false, [3])], Declared(15, a3, Pos(53, 41), Initialized, [3]), fs);
    assert Analyse(tr, [] + [Declared(4, a3, Pos(51, 13), Initialized, [])] + [Referenced(4, a3, Pos(52, 34), false, false, [])] + [OutAssigned(4, [], [])] + [Declared(14, i, Pos(53, 18), Initialized, [])] + [Referenced(15, i, Pos(53, 25), false, false, [])] + [Referenced(15, i, Pos(53, 32), false, false, [3])] + [Declared(15, a3, Pos(53, 41), Initialized, [3])], fs) == [] + [] + [] + [] + [] + [] + [] + [Diag(Shadow, a3, Pos(53, 41))];
    assert Replay(tr, [] + [Declared(4, a3, Pos(51, 13), Initialized, [])] + [Referenced(4, a3, Pos(52, 34), false, false, [])] + [OutAssigned(4, [], [])] + [Declared(14, i, Pos(53, 18), Initialized, [])] + [Referenced(15, i, Pos(53, 25), false, false, [])] + [Referenced(15, i, Pos(53, 32), false, false, [3])] + [Declared(15, a3, Pos(53, 41), Initialized, [3])], fs) == fs + [Fact(4, a3, [])] + [Fact(14, i, [])] + [Fact(15, a3, [3])];
    Event23(a1, b1, i, a2, a3, a4, a5, tr, fs + [Fact(4, a3, [])] + [Fact(14, i, [])] + [Fact(15, a3, [3])]);
    AnalyseSnoc(tr, [] + [Declared(4, a3, Pos(51, 13), Initialized, [])] + [Referenced(4, a3, Pos(52, 34), false, false, [])] + [OutAssigned(4, [], [])] + [Declared(14, i, Pos(53, 18), Initialized, [])] + [Referenced(15, i, Pos(53, 25), false, false, [])] + [Referenced(15, i, Pos(53, 32), false, false, [3])] + [Declared(15, a3, Pos(53, 41), Initialized, [3])], Declared(4, a4, Pos(55, 13), Initialized, []), fs);
    AnalyseSplit(tr, evs, Chunk2(a1, b1, i, a2, a3, a4, a5), []);
  }

  /** The analysis of events 24 to 31, after the events before them. */
  lemma {:induction false} Analysed3(a1: string, b1: string, i: string, a2: string, a3: string, a4: string, a5: string, tr: Tree, evs: seq<Event>, fs: seq<Fact>, rs: seq<Diag>)
    requires |tr.scopes| == 23
    requires Parent(tr, 0) == None
    requires Parent(tr, 3) == Some(0)
    requires Parent(tr, 4) == Some(3)
    requires Parent(tr, 17) == Some(4)
    requires Parent(tr, 18) == Some(17)
    requires Parent(tr, 19) == Some(18)
    requires LocalsOf(tr, 0) == []
    requires LocalsOf(tr, 3) == []
    requires LocalsOf(tr, 4) == [Local(a1, Pos(41, 13)), Local(b1, Pos(42, 39)), Local(a2, Pos(47, 13)), Local(a3, Pos(51, 13)), Local(a4, Pos(55, 13)), Local(a5, Pos(60, 13))]
    requires LocalsOf(tr, 17) == [Local(i, Pos(57, 18))]
    requires LocalsOf(tr, 18) == []
    requires LocalsOf(tr, 19) == [Local(a4, Pos(58, 42))]
    requires a1 != i && a1 != a4 && a1 != a5 && b1 != i && b1 != a4 && b1 != a5 && i != a2 && i != a3 && i != a4 && i != a5 && a2 != a4 && a2 != a5 && a3 != a4 && a3 != a5 && a4 != a5
    requires Analyse(tr, evs, []) == rs
    requires Replay(tr, evs, []) == fs
    requires Assigned(fs, 4, a4, [])
    requires !Assigned(fs, 17, i, [])
    requires !Assigned(fs, 17, i, [4])
    ensures Analyse(tr, evs + Chunk3(a1, b1, i, a2, a3, a4, a5), []) == rs + ([] + [] + [] + [] + [] + [Diag(Shadow, a4, Pos(58, 42))] + [] + [] + [])
    ensures Replay(tr, evs + Chunk3(a1, b1, i, a2, a3, a4, a5), []) == fs + [Fact(17, i, [])] + [Fact(19, a4, [4])] + [Fact(4, a5, [])]
  {
    assert Analyse(tr, [], fs) == [] && Replay(tr, [], fs) == fs;
    Event24(a1, b1, i, a2, a3, a4, a5, tr, fs);
    AnalyseSnoc(tr, [], Referenced(4, a4, Pos(56, 34), false, false, []), fs);
    assert Analyse(tr, [] + [Referenced(4, a4, Pos(56, 34), false, false, [])], fs) == [] + [];
    assert Replay(tr, [] + [Referenced(4, a4, Pos(56, 34), false, false, [])], fs) == fs;
    Event25(a1, b1, i, a2, a3, a4, a5, tr, fs);
    AnalyseSnoc(tr, [] + [Referenced(4, a4, Pos(56, 34), false, false, [])], OutAssigned(4, [], []), fs);
    assert Analyse(tr, [] + [Referenced(4, a4, Pos(56, 34), false, false, [])] + [OutAssigned(4, [], [])], fs) == [] + [] + [];
    assert Replay(tr, [] + [Referenced(4, a4, Pos(56, 34), false, false, [])] + [OutAssigned(4, [], [])], fs) == fs;
    Event26(a1, b1, i, a2, a3, a4, a5, tr, fs);
    AnalyseSnoc(tr, [] + [Referenced(4, a4, Pos(56, 34), false, false, [])] + [OutAssigned(4, [], [])], Declared(17, i, Pos(57, 18), Initialized, []), fs);
    assert Analyse(tr, [] + [Referenced(4, a4, Pos(56, 34), false, false, [])] + [OutAssigned(4, [], [])] + [Declared(17, i, Pos(57, 18), Initialized, [])], fs) == [] + [] + [] + [];
    assert Replay(tr, [] + [Referenced(4, a4, Pos(56, 34), false, false, [])] + [OutAssigned(4, [], [])] + [Declared(17, i, Pos(57, 18), Initialized, [])], fs) == fs + [Fact(17, i, [])];
    AssignedSnoc(fs, Fact(17, i, []), 17, i, []);
    Event27(a1, b1, i, a2, a3, a4, a5, tr, fs + [Fact(17, i, [])]);
    AnalyseSnoc(tr, [] + [Referenced(4, a4, Pos(56, 34), false, false, [])] + [OutAssigned(4, [], [])] + [Declared(17, i, Pos(57, 18), Initialized, [])], Referenced(18, i, Pos(57, 25), false, false, []), fs);
    assert Analyse(tr, [] + [Referenced(4, a4, Pos(56, 34), false, false, [])] + [OutAssigned(4, [], [])] + [Declared(17, i, Pos(57, 18), Initialized, [])] + [Referenced(18, i, Pos(57, 25), false, false, [])], fs) == [] + [] + [] + [] + [];
    assert Replay(tr, [] + [Referenced(4, a4, Pos(56, 34), false, false, [])] + [OutAssigned(4, [], [])] + [Declared(17, i, Pos(57, 18), Initialized, [])] + [Referenced(18, i, Pos(57, 25), false, false, [])], fs) == fs + [Fact(17, i, [])];
    Event28(a1, b1, i, a2, a3, a4, a5, tr, fs + [Fact(17, i, [])]);
    AnalyseSnoc(tr, [] + [Referenced(4, a4, Pos(56, 34), false, false, [])] + [OutAssigned(4, [], [])] + [Declared(17, i, Pos(57, 18), Initialized, [])] + [Referenced(18, i, Pos(57, 25), false, false, [])], Declared(19, a4, Pos(58, 42), Initialized, [4]), fs);
    assert Analyse(tr, [] + [Referenced(4, a4, Pos(56, 34), false, false, [])] + [OutAssigned(4, [], [])] + [Declared(17, i, Pos(57, 18), Initialized, [])] + [Referenced(18, i, Pos(57, 25), false, false, [])] + [Declared(19, a4, Pos(58, 42), Initialized, [4])], fs) == [] + [] + [] + [] + [] + [Diag(Shadow, a4, Pos(58, 42))];
    assert Replay(tr, [] + [Referenced(4, a4, Pos(56, 34), false, false, [])] + [OutAssigned(4, [], [])] + [Declared(17, i, Pos(57, 18), Initialized, [])] + [Referenced(18, i, Pos(57, 25), false, false, [])] + [Declared(19, a4, Pos(58, 42), Initialized, [4])], fs) == fs + [Fact(17, i, [])] + [Fact(19, a4, [4])];
    Event29(a1, b1, i, a2, a3, a4, a5, tr, fs + [Fact(17, i, [])] + [Fact(19, a4, [4])]);
    AnalyseSnoc(tr, [] + [Referenced(4, a4, Pos(56, 34), false, false, [])] + [OutAssigned(4, [], [])] + [Declared(17, i, Pos(57, 18), Initialized, [])] + [Referenced(18, i, Pos(57, 25), false, false, [])] + [Declared(19, a4, Pos(58, 42), Initialized, [4])], OutAssigned(19, [], [4]), fs);
    assert Analyse(tr, [] + [Referenced(4, a4, Pos(56, 34), false, false, [])] + [OutAssigned(4, [], [])] + [Declared(17, i, Pos(57, 18), Initialized, [])] + [Referenced(18, i, Pos(57, 25), false, false, [])] + [Declared(19, a4, Pos(58, 42), Initialized, [4])] + [OutAssigned(19, [], [4])], fs) == [] + [] + [] + [] + [] + [Diag(Shadow, a4, Pos(58, 42))] + [];
    assert Replay(tr, [] + [Referenced(4, a4, Pos(56, 34), false, false, [])] + [OutAssigned(4, [], [])] + [Declared(17, i, Pos(57, 18), Initialized, [])] + [Referenced(18, i, Pos(57, 25), false, false, [])] + [Declared(19, a4, Pos(58, 42), Initialized, [4])] + [OutAssigned(19, [], [4])], fs) == fs + [Fact(17, i, [])] + [Fact(19, a4, [4])];
    AssignedSnoc(fs, Fact(17, i, []), 17, i, [4]);
    AssignedSnoc(fs + [Fact(17, i, [])], Fact(19, a4, [4]), 17, i, [4]);
    Event30(a1, b1, i, a2, a3, a4, a5, tr, fs + [Fact(17, i, [])] + [Fact(19, a4, [4])]);
    AnalyseSnoc(tr, [] + [Referenced(4, a4, Pos(56, 34), false, false, [])] + [OutAssigned(4, [], [])] + [Declared(17, i, Pos(57, 18), Initialized, [])] + [Referenced(18, i, Pos(57, 25), false, false, [])] + [Declared(19, a4, Pos(58, 42), Initialized, [4])] + [OutAssigned(19, [], [4])], Referenced(18, i, Pos(57, 32), false, false, [4]), fs);
    assert Analyse(tr, [] + [Referenced(4, a4, Pos(56, 34), false, false, [])] + [OutAssigned(4, [], [])] + [Declared(17, i, Pos(57, 18), Initialized, [])] + [Referenced(18, i, Pos(57, 25), false, false, [])] + [Declared(19, a4, Pos(58, 42), Initialized, [4])] + [OutAssigned(19, [], [4])] + [Referenced(18, i, Pos(57, 32), false, false, [4])], fs) == [] + [] + [] + [] + [] + [Diag(Shadow, a4, Pos(58, 42))] + [] + [];
    assert Replay(tr, [] + [Referenced(4, a4, Pos(56, 34), false, false, [])] + [OutAssigned(4, [], [])] + [Declared(17, i, Pos(57, 18), Initialized, [])] + [Referenced(18, i, Pos(57, 25), false, false, [])] + [Declared(19, a4, Pos(58, 42), Initialized, [4])] + [OutAssigned(19, [], [4])] + [Referenced(18, i, Pos(57, 32), false, false, [4])], fs) == fs + [Fact(17, i, [])] + [Fact(19, a4, [4])];
    Event31(a1, b1, i, a2, a3, a4, a5, tr, fs + [Fact(17, i, [])] + [Fact(19, a4, [4])]);
    AnalyseSnoc(tr, [] + [Referenced(4, a4, Pos(56, 34), false, false, [])] + [OutAssigned(4, [], [])] + [Declared(17, i, Pos(57, 18), Initialized, [])] + [Referenced(18, i, Pos(57, 25), false, false, [])] + [Declared(19, a4, Pos(58, 42), Initialized, [4])] + [OutAssigned(19, [], [4])] + [Referenced(18, i, Pos(57, 32), false, false, [4])], Declared(4, a5, Pos(60, 13), Initialized, []), fs);
    AnalyseSplit(tr, evs, Chunk3(a1, b1, i, a2, a3, a4, a5), []);
  }

  /** The analysis of events 32 to 38, after the events before them. */
  lemma {:induction false} Analysed4(a1: string, b1: string, i: string, a2: string, a3: string, a4: string, a5: string, tr: Tree, evs: seq<Event>, fs: seq<Fact>, rs: seq<Diag>)
    requires |tr.scopes| == 23
    requires Parent(tr, 0) == None
    requires Parent(tr, 3) == Some(0)
    requires Parent(tr, 4) == Some(3)
    requires Parent(tr, 20) == Some(4)
    requires Parent(tr, 21) == Some(20)
    requires Parent(tr, 22) == Some(21)
    requires LocalsOf(tr, 0) == []
    requires LocalsOf(tr, 3) == []
    requires LocalsOf(tr, 4) == [Local(a1, Pos(41, 13)), Local(b1, Pos(42, 39)), Local(a2, Pos(47, 13)), Local(a3, Pos(51, 13)), Local(a4, Pos(55, 13)), Local(a5, Pos(60, 13))]
    requires LocalsOf(tr, 20) == [Local(i, Pos(62, 18))]
    requires LocalsOf(tr, 21) == []
    requires LocalsOf(tr, 22) == [Local(a5, Pos(64, 42))]
    requires a1 != i && a1 != a5 && b1 != i && b1 != a5 && i != a2 && i != a3 && i != a4 && i != a5 && a2 != a5 && a3 != a5 && a4 != a5
    requires Analyse(tr, evs, []) == rs
    requires Replay(tr, evs, []) == fs
    requires Assigned(fs, 4, a5, [])
    requires !Assigned(fs, 20, i, [])
    requires !Assigned(fs, 20, i, [5])
    ensures Analyse(tr, evs + Chunk4(a1, b1, i, a2, a3, a4, a5), []) == rs + ([] + [] + [] + [] + [] + [Diag(Shadow, a5, Pos(64, 42))] + [] + [])
    ensures Replay(tr, evs + Chunk4(a1, b1, i, a2, a3, a4, a5), []) == fs + [Fact(20, i, [])] + [Fact(22, a5, [5])]
  {
    assert Analyse(tr, [], fs) == [] && Replay(tr, [], fs) == fs;
    Event32(a1, b1, i, a2, a3, a4, a5, tr, fs);
    AnalyseSnoc(tr, [], Referenced(4, a5, Pos(61, 34), false, false, []), fs);
    assert Analyse(tr, [] + [Referenced(4, a5, Pos(61, 34), false, false, [])], fs) == [] + [];
    assert Replay(tr, [] + [Referenced(4, a5, Pos(61, 34), false, false, [])], fs) == fs;
    Event33(a1, b1, i, a2, a3, a4, a5, tr, fs);
    AnalyseSnoc(tr, [] + [Referenced(4, a5, Pos(61, 34), false, false, [])], OutAssigned(4, [], []), fs);
    assert Analyse(tr, [] + [Referenced(4, a5, Pos(61, 34), false, false, [])] + [OutAssigned(4, [], [])], fs) == [] + [] + [];
    assert Replay(tr, [] + [Referenced(4, a5, Pos(61, 34), false, false, [])] + [OutAssigned(4, [], [])], fs) == fs;
    Event34(a1, b1, i, a2, a3, a4, a5, tr, fs);
    AnalyseSnoc(tr, [] + [Referenced(4, a5, Pos(61, 34), false, false, [])] + [OutAssigned(4, [], [])], Declared(20, i, Pos(62, 18), Initialized, []), fs);
    assert Analyse(tr, [] + [Referenced(4, a5, Pos(61, 34), false, false, [])] + [OutAssigned(4, [], [])] + [Declared(20, i, Pos(62, 18), Initialized, [])], fs) == [] + [] + [] + [];
    assert Replay(tr, [] + [Referenced(4, a5, Pos(61, 34), false, false, [])] + [OutAssigned(4, [], [])] + [Declared(20, i, Pos(62, 18), Initialized, [])], fs) == fs + [Fact(20, i, [])];
    AssignedSnoc(fs, Fact(20, i, []), 20, i, []);
    Event35(a1, b1, i, a2, a3, a4, a5, tr, fs + [Fact(20, i, [])]);
    AnalyseSnoc(tr, [] + [Referenced(4, a5, Pos(61, 34), false, false, [])] + [OutAssigned(4, [], [])] + [Declared(20, i, Pos(62, 18), Initialized, [])], Referenced(21, i, Pos(62, 25), false, false, []), fs);
    assert Analyse(tr, [] + [Referenced(4, a5, Pos(61, 34), false, false, [])] + [OutAssigned(4, [], [])] + [Declared(20, i, Pos(62, 18), Initialized, [])] + [Referenced(21, i, Pos(62, 25), false, false, [])], fs) == [] + [] + [] + [] + [];
    assert Replay(tr, [] + [Referenced(4, a5, Pos(61, 34), false, false, [])] + [OutAssigned(4, [], [])] + [Declared(20, i, Pos(62, 18), Initialized, [])] + [Referenced(21, i, Pos(62, 25), false, false, [])], fs) == fs + [Fact(20, i, [])];
    Event36(a1, b1, i, a2, a3, a4, a5, tr, fs + [Fact(20, i, [])]);
    AnalyseSnoc(tr, [] + [Referenced(4, a5, Pos(61, 34), false, false, [])] + [OutAssigned(4, [], [])] + [Declared(20, i, Pos(62, 18), Initialized, [])] + [Referenced(21, i, Pos(62, 25), false, false, [])], Declared(22, a5, Pos(64, 42), Initialized, [5]), fs);
    assert Analyse(tr, [] + [Referenced(4, a5, Pos(61, 34), false, false, [])] + [OutAssigned(4, [], [])] + [Declared(20, i, Pos(62, 18), Initialized, [])] + [Referenced(21, i, Pos(62, 25), false, false, [])] + [Declared(22, a5, Pos(64, 42), Initialized, [5])], fs) == [] + [] + [] + [] + [] + [Diag(Shadow, a5, Pos(64, 42))];
    assert Replay(tr, [] + [Referenced(4, a5, Pos(61, 34), false, false, [])] + [OutAssigned(4, [], [])] + [Declared(20, i, Pos(62, 18), Initialized, [])] + [Referenced(21, i, Pos(62, 25), false, false, [])] + [Declared(22, a5, Pos(64, 42), Initialized, [5])], fs) == fs + [Fact(20, i, [])] + [Fact(22, a5, [5])];
    Event37(a1, b1, i, a2, a3, a4, a5, tr, fs + [Fact(20, i, [])] + [Fact(22, a5, [5])]);
    AnalyseSnoc(tr, [] + [Referenced(4, a5, Pos(61, 34), false, false, [])] + [OutAssigned(4, [], [])] + [Declared(20, i, Pos(62, 18), Initialized, [])] + [Referenced(21, i, Pos(62, 25), false, false, [])] + [Declared(22, a5, Pos(64, 42), Initialized, [5])], OutAssigned(22, [], [5]), fs);
    assert Analyse(tr, [] + [Referenced(4, a5, Pos(61, 34), false, false, [])] + [OutAssigned(4, [], [])] + [Declared(20, i, Pos(62, 18), Initialized, [])] + [Referenced(21, i, Pos(62, 25), false, false, [])] + [Declared(22, a5, Pos(64, 42), Initialized, [5])] + [OutAssigned(22, [], [5])], fs) == [] + [] + [] + [] + [] + [Diag(Shadow, a5, Pos(64, 42))] + [];
    assert Replay(tr, [] + [Referenced(4, a5, Pos(61, 34), false, false, [])] + [OutAssigned(4, [], [])] + [Declared(20, i, Pos(62, 18), Initialized, [])] + [Referenced(21, i, Pos(62, 25), false, false, [])] + [Declared(22, a5, Pos(64, 42), Initialized, [5])] + [OutAssigned(22, [], [5])], fs) == fs + [Fact(20, i, [])] + [Fact(22, a5, [5])];
    AssignedSnoc(fs, Fact(20, i, []), 20, i, [5]);
    AssignedSnoc(fs + [Fact(20, i, [])], Fact(22, a5, [5]), 20, i, [5]);
    Event38(a1, b1, i, a2, a3, a4, a5, tr, fs + [Fact(20, i, [])] + [Fact(22, a5, [5])]);
    AnalyseSnoc(tr, [] + [Referenced(4, a5, Pos(61, 34), false, false, [])] + [OutAssigned(4, [], [])] + [Declared(20, i, Pos(62, 18), Initialized, [])] + [Referenced(21, i, Pos(62, 25), false, false, [])] + [Declared(22, a5, Pos(64, 42), Initialized, [5])] + [OutAssigned(22, [], [5])], Referenced(21, i, Pos(62, 32), false, false, [5]), fs);
    AnalyseSplit(tr, evs, Chunk4(a1, b1, i, a2, a3, a4, a5), []);
  }

  lemma {:induction false} Glue0(a1: string, b1: string, i: string, a2: string, a3: string, a4: string, a5: string, rs: seq<Diag>)
    requires rs == []
    ensures rs + ([] + [] + [] + [] + [] + [] + [Diag(Shadow, a1, Pos(44, 27))] + [] + []) == [Diag(Shadow, a1, Pos(44, 27))]
  {
  }

  lemma {:induction false} Glue1(a1: string, b1: string, i: string, a2: string, a3: string, a4: string, a5: string, rs: seq<Diag>)
    requires rs == [Diag(Shadow, a1, Pos(44, 27))]
    ensures rs + ([] + [Diag(Shadow, b1, Pos(45, 27))] + [] + [] + [] + [] + [] + [] + [Diag(Shadow, a2, Pos(49, 34))]) == [Diag(Shadow, a1, Pos(44, 27)), Diag(Shadow, b1, Pos(45, 27)), Diag(Shadow, a2, Pos(49, 34))]
  {
  }

  lemma {:induction false} Glue2(a1: string, b1: string, i: string, a2: string, a3: string, a4: string, a5: string, rs: seq<Diag>)
    requires rs == [Diag(Shadow, a1, Pos(44, 27)), Diag(Shadow, b1, Pos(45, 27)), Diag(Shadow, a2, Pos(49, 34))]
    ensures rs + ([] + [] + [] + [] + [] + [] + [] + [Diag(Shadow, a3, Pos(53, 41))] + []) == [Diag(Shadow, a1, Pos(44, 27)), Diag(Shadow, b1, Pos(45, 27)), Diag(Shadow, a2, Pos(49, 34)), Diag(Shadow, a3, Pos(53, 41))]
  {
  }

  lemma {:induction false} Glue3(a1: string, b1: string, i: string, a2: string, a3: string, a4: string, a5: string, rs: seq<Diag>)
    requires rs == [Diag(Shadow, a1, Pos(44, 27)), Diag(Shadow, b1, Pos(45, 27)), Diag(Shadow, a2, Pos(49, 34)), Diag(Shadow, a3, Pos(53, 41))]
    ensures rs + ([] + [] + [] + [] + [] + [Diag(Shadow, a4, Pos(58, 42))] + [] + [] + []) == [Diag(Shadow, a1, Pos(44, 27)), Diag(Shadow, b1, Pos(45, 27)), Diag(Shadow, a2, Pos(49, 34)), Diag(Shadow, a3, Pos(53, 41)), Diag(Shadow, a4, Pos(58, 42))]
  {
  }

  lemma {:induction false} Glue4(a1: string, b1: string, i: string, a2: string, a3: string, a4: string, a5: string, rs: seq<Diag>)
    requires rs == [Diag(Shadow, a1, Pos(44, 27)), Diag(Shadow, b1, Pos(45, 27)), Diag(Shadow, a2, Pos(49, 34)), Diag(Shadow, a3, Pos(53, 41)), Diag(Shadow, a4, Pos(58, 42))]
    ensures rs + ([] + [] + [] + [] + [] + [Diag(Shadow, a5, Pos(64, 42))] + [] + []) == [Diag(Shadow, a1, Pos(44, 27)), Diag(Shadow, b1, Pos(45, 27)), Diag(Shadow, a2, Pos(49, 34)), Diag(Shadow, a3, Pos(53, 41)), Diag(Shadow, a4, Pos(58, 42)), Diag(Shadow, a5, Pos(64, 42))]
  {
  }

  /** The analysis of events 0 to 38, after the events before them. */
  lemma {:induction false} Stage0(a1: string, b1: string, i: string, a2: string, a3: string, a4: string, a5: string, tr: Tree, evs: seq<Event>)
    requires ScopesAre(tr, Layout())
    requires LocalsFit(a1, b1, i, a2, a3, a4, a5, tr)
    requires a1 != b1 && a1 != i && a1 != a2 && a1 != a3 && a1 != a4 && a1 != a5 && b1 != i && b1 != a2 && b1 != a3 && b1 != a4 && b1 != a5 && i != a2 && i != a3 && i != a4 && i != a5 && a2 != a3 && a2 != a4 && a2 != a5 && a3 != a4 && a3 != a5 && a4 != a5
    requires Analyse(tr, evs, []) == []
    requires Replay(tr, evs, []) == []
    ensures Analyse(tr, evs + Chunk0(a1, b1, i, a2, a3, a4, a5) + Chunk1(a1, b1, i, a2, a3, a4, a5) + Chunk2(a1, b1, i, a2, a3, a4, a5) + Chunk3(a1, b1, i, a2, a3, a4, a5) + Chunk4(a1, b1, i, a2, a3, a4, a5), []) == [Diag(Shadow, a1, Pos(44, 27)), Diag(Shadow, b1, Pos(45, 27)), Diag(Shadow, a2, Pos(49, 34)), Diag(Shadow, a3, Pos(53, 41)), Diag(Shadow, a4, Pos(58, 42)), Diag(Shadow, a5, Pos(64, 42))]
    ensures Replay(tr, evs + Chunk0(a1, b1, i, a2, a3, a4, a5) + Chunk1(a1, b1, i, a2, a3, a4, a5) + Chunk2(a1, b1, i, a2, a3, a4, a5) + Chunk3(a1, b1, i, a2, a3, a4, a5) + Chunk4(a1, b1, i, a2, a3, a4, a5), []) == Known4(a1, b1, i, a2, a3, a4, a5)
  {
    assert !Assigned([], 4, a1, []);
    assert !Assigned([], 5, i, []);
    Scope0(a1, b1, i, a2, a3, a4, a5, tr);
    Scope3(a1, b1, i, a2, a3, a4, a5, tr);
    Scope4(a1, b1, i, a2, a3, a4, a5, tr);
    Scope5(a1, b1, i, a2, a3, a4, a5, tr);
    Scope6(a1, b1, i, a2, a3, a4, a5, tr);
    Scope8(a1, b1, i, a2, a3, a4, a5, tr);
    Analysed0(a1, b1, i, a2, a3, a4, a5, tr, evs, [], []);
    Glue0(a1, b1, i, a2, a3, a4, a5, []);
    Read0(a1, b1, i, a2, a3, a4, a5);
    Read1(a1, b1, i, a2, a3, a4, a5);
    Read2(a1, b1, i, a2, a3, a4, a5);
    Scope9(a1, b1, i, a2, a3, a4, a5, tr);
    Scope11(a1, b1, i, a2, a3, a4, a5, tr);
    Scope12(a1, b1, i, a2, a3, a4, a5, tr);
    Analysed1(a1, b1, i, a2, a3, a4, a5, tr, evs + Chunk0(a1, b1, i, a2, a3, a4, a5), Known0(a1, b1, i, a2, a3, a4, a5), [Diag(Shadow, a1, Pos(44, 27))]);
    Glue1(a1, b1, i, a2, a3, a4, a5, [Diag(Shadow, a1, Pos(44, 27))]);
    Read3(a1, b1, i, a2, a3, a4, a5);
    Read4(a1, b1, i, a2, a3, a4, a5);
    Read5(a1, b1, i, a2, a3, a4, a5);
    Scope14(a1, b1, i, a2, a3, a4, a5, tr);
    Scope15(a1, b1, i, a2, a3, a4, a5, tr);
    Analysed2(a1, b1, i, a2, a3, a4, a5, tr, evs + Chunk0(a1, b1, i, a2, a3, a4, a5) + Chunk1(a1, b1, i, a2, a3, a4, a5), Known1(a1, b1, i, a2, a3, a4, a5), [Diag(Shadow, a1, Pos(44, 27)), Diag(Shadow, b1, Pos(45, 27)), Diag(Shadow, a2, Pos(49, 34))]);
    Glue2(a1, b1, i, a2, a3, a4, a5, [Diag(Shadow, a1, Pos(44, 27)), Diag(Shadow, b1, Pos(45, 27)), Diag(Shadow, a2, Pos(49, 34))]);
    Read6(a1, b1, i, a2, a3, a4, a5);
    Read7(a1, b1, i, a2, a3, a4, a5);
    Read8(a1, b1, i, a2, a3, a4, a5);
    Scope17(a1, b1, i, a2, a3, a4, a5, tr);
    Scope18(a1, b1, i, a2, a3, a4, a5, tr);
    Scope19(a1, b1, i, a2, a3, a4, a5, tr);
    Analysed3(a1, b1, i, a2, a3, a4, a5, tr, evs + Chunk0(a1, b1, i, a2, a3, a4, a5) + Chunk1(a1, b1, i, a2, a3, a4, a5) + Chunk2(a1, b1, i, a2, a3, a4, a5), Known2(a1, b1, i, a2, a3, a4, a5), [Diag(Shadow, a1, Pos(44, 27)), Diag(Shadow, b1, Pos(45, 27)), Diag(Shadow, a2, Pos(49, 34)), Diag(Shadow, a3, Pos(53, 41))]);
    Glue3(a1, b1, i, a2, a3, a4, a5, [Diag(Shadow, a1, Pos(44, 27)), Diag(Shadow, b1, Pos(45, 27)), Diag(Shadow, a2, Pos(49, 34)), Diag(Shadow, a3, Pos(53, 41))]);
    Read9(a1, b1, i, a2, a3, a4, a5);
    Read10(a1, b1, i, a2, a3, a4, a5);
    Read11(a1, b1, i, a2, a3, a4, a5);
    Scope20(a1, b1, i, a2, a3, a4, a5, tr);
    Scope21(a1, b1, i, a2, a3, a4, a5, tr);
    Scope22(a1, b1, i, a2, a3, a4, a5, tr);
    Analysed4(a1, b1, i, a2, a3, a4, a5, tr, evs + Chunk0(a1, b1, i, a2, a3, a4, a5) + Chunk1(a1, b1, i, a2, a3, a4, a5) + Chunk2(a1, b1, i, a2, a3, a4, a5) + Chunk3(a1, b1, i, a2, a3, a4, a5), Known3(a1, b1, i, a2, a3, a4, a5), [Diag(Shadow, a1, Pos(44, 27)), Diag(Shadow, b1, Pos(45, 27)), Diag(Shadow, a2, Pos(49, 34)), Diag(Shadow, a3, Pos(53, 41)), Diag(Shadow, a4, Pos(58, 42))]);
    Glue4(a1, b1, i, a2, a3, a4, a5, [Diag(Shadow, a1, Pos(44, 27)), Diag(Shadow, b1, Pos(45, 27)), Diag(Shadow, a2, Pos(49, 34)), Diag(Shadow, a3, Pos(53, 41)), Diag(Shadow, a4, Pos(58, 42))]);
  }

  /** The analysis of a tree with the test's scopes and events. */
  lemma {:induction false} Result(a1: string, b1: string, i: string, a2: string, a3: string, a4: string, a5: string, tr: Tree)
    requires ScopesAre(tr, Layout()) && LocalsFit(a1, b1, i, a2, a3, a4, a5, tr) && tr.events == Trace(a1, b1, i, a2, a3, a4, a5)
    requires a1 != b1 && a1 != i && a1 != a2 && a1 != a3 && a1 != a4 && a1 != a5 && b1 != i && b1 != a2 && b1 != a3 && b1 != a4 && b1 != a5 && i != a2 && i != a3 && i != a4 && i != a5 && a2 != a3 && a2 != a4 && a2 != a5 && a3 != a4 && a3 != a5 && a4 != a5
    ensures Analyse(tr, tr.events, []) == [Diag(Shadow, a1, Pos(44, 27)), Diag(Shadow, b1, Pos(45, 27)), Diag(Shadow, a2, Pos(49, 34)), Diag(Shadow, a3, Pos(53, 41)), Diag(Shadow, a4, Pos(58, 42)), Diag(Shadow, a5, Pos(64, 42))]
  {
    assert Analyse(tr, [], []) == [] && Replay(tr, [], []) == [];
    Stage0(a1, b1, i, a2, a3, a4, a5, tr, []);
  }

  /** The diagnostics the test expects, in the order the analysis reports them. */
  lemma {:induction false} Outcome(a1: string, b1: string, i: string, a2: string, a3: string, a4: string, a5: string)
    requires a1 != b1 && a1 != i && a1 != a2 && a1 != a3 && a1 != a4 && a1 != a5 && b1 != i && b1 != a2 && b1 != a3 && b1 != a4 && b1 != a5 && i != a2 && i != a3 && i != a4 && i != a5 && a2 != a3 && a2 != a4 && a2 != a5 && a3 != a4 && a3 != a5 && a4 != a5
    ensures Check(Program(a1, b1, i, a2, a3, a4, a5)) == [Diag(Shadow, a1, Pos(44, 27)), Diag(Shadow, b1, Pos(45, 27)), Diag(Shadow, a2, Pos(49, 34)), Diag(Shadow, a3, Pos(53, 41)), Diag(Shadow, a4, Pos(58, 42)), Diag(Shadow, a5, Pos(64, 42))]
  {
    Walked(a1, b1, i, a2, a3, a4, a5);
    LocalsAll(a1, b1, i, a2, a3, a4, a5, Build(Program(a1, b1, i, a2, a3, a4, a5)));
    Result(a1, b1, i, a2, a3, a4, a5, Build(Program(a1, b1, i, a2, a3, a4, a5)));
  }
}

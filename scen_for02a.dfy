/**
 * The statements on lines 6 to 37 of the program of the test For_02
 * (DeclarationExpressionsTests.cs, lines 428 to 658).
 * They share no name with the test's other statements outside their own `for`
 * statements: every part declares `i`, but only in a `for` initializer, a scope no
 * other part can see. So their diagnostics are the test's diagnostics on those lines.
 *
 * Its program, with its local names left as parameters, is walked into a scope tree and
 * analysed; Outcome states the exact list of diagnostics Check reports, for any names that
 * differ where the outcome depends on it.
 */
module ScenFor02a {
  import opened Syntax
  import opened Scopes
  import opened Binding
  import opened Reporting
  import opened Frames
  import opened Units
  import opened Traces

  /** The statements of the test's method, its names left as parameters. */
  function Body(i: string, j: string, k: string, l: string, m: string, n: string, o: string, p: string, q: string, r: string): seq<Stmt> {
    [For([Declare(i, Pos(6, 18), Initialized)], [Use(i, Pos(6, 25), false)], [Use(i, Pos(6, 32), true)] + ([Declare(j, Pos(6, 41), Initialized)] + ([Use(i, Pos(6, 45), false)] + ([Use(j, Pos(6, 54), false)]))), Block([Exprs([Call([Argument([Use(j, Pos(8, 38), false)])])])]))] + ([For([Declare(i, Pos(11, 18), Initialized)] + ([Declare(j, Pos(11, 36), Initialized)] + ([Use(j, Pos(11, 46), false)])), [Use(j, Pos(11, 51), true)] + ([Use(i, Pos(11, 55), false)]), [Use(i, Pos(11, 64), false)], Exprs([Call([Argument([Use(j, Pos(12, 38), false)] + ([Declare(k, Pos(12, 47), Initialized)] + ([Use(i, Pos(12, 55), false)])))])]))] + ([Exprs([Use(j, Pos(14, 9), true)])] + ([Exprs([Use(k, Pos(15, 9), true)])] + ([For([Declare(i, Pos(17, 18), Initialized)] + ([Use(l, Pos(17, 22), false)]), [Use(i, Pos(17, 25), false)] + ([Declare(l, Pos(17, 34), Initialized)]), [Use(i, Pos(17, 43), false)], Block([]))] + ([For([Declare(i, Pos(19, 18), Initialized)], [Use(i, Pos(19, 25), false)] + ([Use(m, Pos(19, 29), false)]), [Use(i, Pos(19, 32), true)] + ([Declare(m, Pos(19, 41), Initialized)] + ([Use(m, Pos(19, 51), false)])), Block([]))] + ([For([Declare(i, Pos(21, 18), Initialized)] + ([Use(n, Pos(21, 22), false)]), [Use(i, Pos(21, 25), false)], [Use(i, Pos(21, 32), false)], Exprs([Call([Argument([Declare(n, Pos(22, 43), Initialized)] + ([Use(n, Pos(22, 52), false)]))])]))] + ([For([Declare(i, Pos(24, 18), Initialized)], [Use(i, Pos(24, 25), false)] + ([Use(o, Pos(24, 29), false)]), [Use(i, Pos(24, 32), false)], Exprs([Call([Argument([Declare(o, Pos(25, 42), Initialized)])])]))] + ([For([Declare(i, Pos(27, 18), Initialized)], [Use(i, Pos(27, 25), false)], [Use(i, Pos(27, 32), true)] + ([Use(p, Pos(27, 36), false)]), Exprs([Call([Argument([Declare(p, Pos(28, 42), Initialized)])])]))] + ([For([Declare(i, Pos(30, 18), Initialized)], [Use(i, Pos(30, 25), false)] + ([Use(q, Pos(30, 29), false)]), [Use(i, Pos(30, 32), false)], Block([Exprs([Call([Argument([Declare(q, Pos(32, 43), Initialized)] + ([Use(q, Pos(32, 52), false)]))])])]))] + ([For([Declare(i, Pos(35, 18), Initialized)], [Use(i, Pos(35, 25), false)], [Use(i, Pos(35, 32), true)] + ([Use(r, Pos(35, 36), false)]), Block([Exprs([Call([Argument([Declare(r, Pos(37, 42), Initialized)])])])]))]))))))))))
  }

  /** The program of the test: one method holding those statements. */
  function Program(i: string, j: string, k: string, l: string, m: string, n: string, o: string, p: string, q: string, r: string): seq<Fragment> {
    MainUnit(Body(i, j, k, l, m, n, o, p, q, r))
  }

  /** Scopes 0 to 7, in the order the walk opens them. */
  function Layout0(): seq<Scope> {
    [Scope(Unit, None),
     Scope(InstanceInitializers, Some(0)),
     Scope(StaticInitializers, Some(0)),
     Scope(MethodBody, Some(0)),
     Scope(BlockBody, Some(3)),
     Scope(ForInit, Some(4)),
     Scope(ForLoop, Some(5)),
     Scope(BlockBody, Some(6))]
  }

  /** Scopes 8 to 15, in the order the walk opens them. */
  function Layout1(): seq<Scope> {
    [Scope(ForInit, Some(4)),
     Scope(ForLoop, Some(8)),
     Scope(EmbeddedBody, Some(9)),
     Scope(ForInit, Some(4)),
     Scope(ForLoop, Some(11)),
     Scope(BlockBody, Some(12)),
     Scope(ForInit, Some(4)),
     Scope(ForLoop, Some(14))]
  }

  /** Scopes 16 to 23, in the order the walk opens them. */
  function Layout2(): seq<Scope> {
    [Scope(BlockBody, Some(15)),
     Scope(ForInit, Some(4)),
     Scope(ForLoop, Some(17)),
     Scope(EmbeddedBody, Some(18)),
     Scope(ForInit, Some(4)),
     Scope(ForLoop, Some(20)),
     Scope(EmbeddedBody, Some(21)),
     Scope(ForInit, Some(4))]
  }

  /** Scopes 24 to 31, in the order the walk opens them. */
  function Layout3(): seq<Scope> {
    [Scope(ForLoop, Some(23)),
     Scope(EmbeddedBody, Some(24)),
     Scope(ForInit, Some(4)),
     Scope(ForLoop, Some(26)),
     Scope(BlockBody, Some(27)),
     Scope(ForInit, Some(4)),
     Scope(ForLoop, Some(29)),
     Scope(BlockBody, Some(30))]
  }

  /** Its scopes, in the order the walk opens them. */
  function Layout(): seq<Scope> {
    Layout0() + Layout1() + Layout2() + Layout3()
  }

  lemma {:induction false} LayoutJoin0()
    ensures [Scope(Unit, None), Scope(InstanceInitializers, Some(0)), Scope(StaticInitializers, Some(0)), Scope(MethodBody, Some(0)), Scope(BlockBody, Some(3))] + [Scope(ForInit, Some(4))] + [Scope(ForLoop, Some(5))] + [Scope(BlockBody, Some(6))] == Layout0()
  {
  }

  lemma {:induction false} LayoutJoin1(pre: seq<Scope>)
    ensures pre + Layout1() == pre + [Scope(ForInit, Some(4))] + [Scope(ForLoop, Some(8))] + [Scope(EmbeddedBody, Some(9))] + [Scope(ForInit, Some(4))] + [Scope(ForLoop, Some(11))] + [Scope(BlockBody, Some(12))] + [Scope(ForInit, Some(4))] + [Scope(ForLoop, Some(14))]
  {
  }

  lemma {:induction false} LayoutJoin2(pre: seq<Scope>)
    ensures pre + Layout2() == pre + [Scope(BlockBody, Some(15))] + [Scope(ForInit, Some(4))] + [Scope(ForLoop, Some(17))] + [Scope(EmbeddedBody, Some(18))] + [Scope(ForInit, Some(4))] + [Scope(ForLoop, Some(20))] + [Scope(EmbeddedBody, Some(21))] + [Scope(ForInit, Some(4))]
  {
  }

  lemma {:induction false} LayoutJoin3(pre: seq<Scope>)
    ensures pre + Layout3() == pre + [Scope(ForLoop, Some(23))] + [Scope(EmbeddedBody, Some(24))] + [Scope(ForInit, Some(4))] + [Scope(ForLoop, Some(26))] + [Scope(BlockBody, Some(27))] + [Scope(ForInit, Some(4))] + [Scope(ForLoop, Some(29))] + [Scope(BlockBody, Some(30))]
  {
  }

  /** The layout, scope by scope. */
  lemma {:induction false} LayoutFlat()
    ensures [Scope(Unit, None), Scope(InstanceInitializers, Some(0)), Scope(StaticInitializers, Some(0)), Scope(MethodBody, Some(0)), Scope(BlockBody, Some(3))] + [Scope(ForInit, Some(4))] + [Scope(ForLoop, Some(5))] + [Scope(BlockBody, Some(6))] + [Scope(ForInit, Some(4))] + [Scope(ForLoop, Some(8))] + [Scope(EmbeddedBody, Some(9))] + [Scope(ForInit, Some(4))] + [Scope(ForLoop, Some(11))] + [Scope(BlockBody, Some(12))] + [Scope(ForInit, Some(4))] + [Scope(ForLoop, Some(14))] + [Scope(BlockBody, Some(15))] + [Scope(ForInit, Some(4))] + [Scope(ForLoop, Some(17))] + [Scope(EmbeddedBody, Some(18))] + [Scope(ForInit, Some(4))] + [Scope(ForLoop, Some(20))] + [Scope(EmbeddedBody, Some(21))] + [Scope(ForInit, Some(4))] + [Scope(ForLoop, Some(23))] + [Scope(EmbeddedBody, Some(24))] + [Scope(ForInit, Some(4))] + [Scope(ForLoop, Some(26))] + [Scope(BlockBody, Some(27))] + [Scope(ForInit, Some(4))] + [Scope(ForLoop, Some(29))] + [Scope(BlockBody, Some(30))] == Layout()
  {
    LayoutJoin0();
    LayoutJoin1(Layout0());
    LayoutJoin2(Layout0() + Layout1());
    LayoutJoin3(Layout0() + Layout1() + Layout2());
  }

  /** Events 0 to 7 of the test, in evaluation order. */
  function Chunk0(i: string, j: string, k: string, l: string, m: string, n: string, o: string, p: string, q: string, r: string): seq<Event> {
    []
      + [Declared(5, i, Pos(6, 18), Initialized, [])]
      + [Referenced(6, i, Pos(6, 25), false, false, [])]
      + [Referenced(7, j, Pos(8, 38), false, false, [0])]
      + [OutAssigned(7, [], [0])]
      + [Referenced(6, i, Pos(6, 32), true, false, [0])]
      + [Declared(6, j, Pos(6, 41), Initialized, [0])]
      + [Referenced(6, i, Pos(6, 45), false, false, [0])]
      + [Referenced(6, j, Pos(6, 54), false, false, [0])]
  }

  /** Events 8 to 15 of the test, in evaluation order. */
  function Chunk1(i: string, j: string, k: string, l: string, m: string, n: string, o: string, p: string, q: string, r: string): seq<Event> {
    []
      + [Declared(8, i, Pos(11, 18), Initialized, [])]
      + [Declared(8, j, Pos(11, 36), Initialized, [])]
      + [Referenced(8, j, Pos(11, 46), false, false, [])]
      + [Referenced(9, j, Pos(11, 51), true, false, [])]
      + [Referenced(9, i, Pos(11, 55), false, false, [])]
      + [Referenced(10, j, Pos(12, 38), false, false, [1])]
      + [Declared(10, k, Pos(12, 47), Initialized, [1])]
      + [Referenced(10, i, Pos(12, 55), false, false, [1])]
  }

  /** Events 16 to 23 of the test, in evaluation order. */
  function Chunk2(i: string, j: string, k: string, l: string, m: string, n: string, o: string, p: string, q: string, r: string): seq<Event> {
    []
      + [OutAssigned(10, [], [1])]
      + [Referenced(9, i, Pos(11, 64), false, false, [1])]
      + [Referenced(4, j, Pos(14, 9), true, false, [])]
      + [Referenced(4, k, Pos(15, 9), true, false, [])]
      + [Declared(11, i, Pos(17, 18), Initialized, [])]
      + [Referenced(11, l, Pos(17, 22), false, false, [])]
      + [Referenced(12, i, Pos(17, 25), false, false, [])]
      + [Declared(12, l, Pos(17, 34), Initialized, [])]
  }

  /** Events 24 to 31 of the test, in evaluation order. */
  function Chunk3(i: string, j: string, k: string, l: string, m: string, n: string, o: string, p: string, q: string, r: string): seq<Event> {
    []
      + [Referenced(12, i, Pos(17, 43), false, false, [2])]
      + [Declared(14, i, Pos(19, 18), Initialized, [])]
      + [Referenced(15, i, Pos(19, 25), false, false, [])]
      + [Referenced(15, m, Pos(19, 29), false, false, [])]
      + [Referenced(15, i, Pos(19, 32), true, false, [3])]
      + [Declared(15, m, Pos(19, 41), Initialized, [3])]
      + [Referenced(15, m, Pos(19, 51), false, false, [3])]
      + [Declared(17, i, Pos(21, 18), Initialized, [])]
  }

  /** Events 32 to 39 of the test, in evaluation order. */
  function Chunk4(i: string, j: string, k: string, l: string, m: string, n: string, o: string, p: string, q: string, r: string): seq<Event> {
    []
      + [Referenced(17, n, Pos(21, 22), false, false, [])]
      + [Referenced(18, i, Pos(21, 25), false, false, [])]
      + [Declared(19, n, Pos(22, 43), Initialized, [4])]
      + [Referenced(19, n, Pos(22, 52), false, false, [4])]
      + [OutAssigned(19, [], [4])]
      + [Referenced(18, i, Pos(21, 32), false, false, [4])]
      + [Declared(20, i, Pos(24, 18), Initialized, [])]
      + [Referenced(21, i, Pos(24, 25), false, false, [])]
  }

  /** Events 40 to 47 of the test, in evaluation order. */
  function Chunk5(i: string, j: string, k: string, l: string, m: string, n: string, o: string, p: string, q: string, r: string): seq<Event> {
    []
      + [Referenced(21, o, Pos(24, 29), false, false, [])]
      + [Declared(22, o, Pos(25, 42), Initialized, [5])]
      + [OutAssigned(22, [], [5])]
      + [Referenced(21, i, Pos(24, 32), false, false, [5])]
      + [Declared(23, i, Pos(27, 18), Initialized, [])]
      + [Referenced(24, i, Pos(27, 25), false, false, [])]
      + [Declared(25, p, Pos(28, 42), Initialized, [6])]
      + [OutAssigned(25, [], [6])]
  }

  /** Events 48 to 55 of the test, in evaluation order. */
  function Chunk6(i: string, j: string, k: string, l: string, m: string, n: string, o: string, p: string, q: string, r: string): seq<Event> {
    []
      + [Referenced(24, i, Pos(27, 32), true, false, [6])]
      + [Referenced(24, p, Pos(27, 36), false, false, [6])]
      + [Declared(26, i, Pos(30, 18), Initialized, [])]
      + [Referenced(27, i, Pos(30, 25), false, false, [])]
      + [Referenced(27, q, Pos(30, 29), false, false, [])]
      + [Declared(28, q, Pos(32, 43), Initialized, [7])]
      + [Referenced(28, q, Pos(32, 52), false, false, [7])]
      + [OutAssigned(28, [], [7])]
  }

  /** Events 56 to 62 of the test, in evaluation order. */
  function Chunk7(i: string, j: string, k: string, l: string, m: string, n: string, o: string, p: string, q: string, r: string): seq<Event> {
    []
      + [Referenced(27, i, Pos(30, 32), false, false, [7])]
      + [Declared(29, i, Pos(35, 18), Initialized, [])]
      + [Referenced(30, i, Pos(35, 25), false, false, [])]
      + [Declared(31, r, Pos(37, 42), Initialized, [8])]
      + [OutAssigned(31, [], [8])]
      + [Referenced(30, i, Pos(35, 32), true, false, [8])]
      + [Referenced(30, r, Pos(35, 36), false, false, [8])]
  }

  /** The events of the test, in evaluation order. */
  function Trace(i: string, j: string, k: string, l: string, m: string, n: string, o: string, p: string, q: string, r: string): seq<Event> {
    []
      + Chunk0(i, j, k, l, m, n, o, p, q, r)
      + Chunk1(i, j, k, l, m, n, o, p, q, r)
      + Chunk2(i, j, k, l, m, n, o, p, q, r)
      + Chunk3(i, j, k, l, m, n, o, p, q, r)
      + Chunk4(i, j, k, l, m, n, o, p, q, r)
      + Chunk5(i, j, k, l, m, n, o, p, q, r)
      + Chunk6(i, j, k, l, m, n, o, p, q, r)
      + Chunk7(i, j, k, l, m, n, o, p, q, r)
  }

  lemma {:induction false} Walk3(i: string, j: string, k: string, l: string, m: string, n: string, o: string, p: string, q: string, r: string, tr: Tree)
    requires |tr.scopes| == 8 && tr.arms == 1
    ensures WalkStmt(Exprs([Call([Argument([Use(j, Pos(8, 38), false)])])]), Ctx(7, [0], []), tr) == Tree(tr.scopes, tr.events + [Referenced(7, j, Pos(8, 38), false, false, [0])] + [OutAssigned(7, [], [0])], 1)
  {
    WalkExprsOne(Call([Argument([Use(j, Pos(8, 38), false)])]), Ctx(7, [0], []), tr);
    assert OutNames([]) == [];
    WalkArgsOne(Argument([Use(j, Pos(8, 38), false)]), [], Ctx(7, [0], []), tr);
    WalkExprsOne(Use(j, Pos(8, 38), false), Ctx(7, [0], []), tr);
    assert WalkExpr(Use(j, Pos(8, 38), false), Ctx(7, [0], []), tr) == Tree(tr.scopes, tr.events + [Referenced(7, j, Pos(8, 38), false, false, [0])], 1);
    assert WalkExprs([Use(j, Pos(8, 38), false)], Ctx(7, [0], []), tr) == Tree(tr.scopes, tr.events + [Referenced(7, j, Pos(8, 38), false, false, [0])], 1);
    OutNamesOfOne(Use(j, Pos(8, 38), false));
    OutNamesSnoc([], Argument([Use(j, Pos(8, 38), false)]));
    assert WalkArgs([Argument([Use(j, Pos(8, 38), false)])], [], Ctx(7, [0], []), tr) == Tree(tr.scopes, tr.events + [Referenced(7, j, Pos(8, 38), false, false, [0])], 1);
    assert OutNames([Argument([Use(j, Pos(8, 38), false)])]) == [];
    assert WalkExpr(Call([Argument([Use(j, Pos(8, 38), false)])]), Ctx(7, [0], []), tr) == Tree(tr.scopes, tr.events + [Referenced(7, j, Pos(8, 38), false, false, [0])] + [OutAssigned(7, [], [0])], 1);
    assert WalkExprs([Call([Argument([Use(j, Pos(8, 38), false)])])], Ctx(7, [0], []), tr) == Tree(tr.scopes, tr.events + [Referenced(7, j, Pos(8, 38), false, false, [0])] + [OutAssigned(7, [], [0])], 1);
    assert WalkStmt(Exprs([Call([Argument([Use(j, Pos(8, 38), false)])])]), Ctx(7, [0], []), tr) == Tree(tr.scopes, tr.events + [Referenced(7, j, Pos(8, 38), false, false, [0])] + [OutAssigned(7, [], [0])], 1);
  }

  lemma {:induction false} Walk2(i: string, j: string, k: string, l: string, m: string, n: string, o: string, p: string, q: string, r: string, tr: Tree)
    requires |tr.scopes| == 5 && tr.arms == 0
    ensures WalkStmt(For([Declare(i, Pos(6, 18), Initialized)], [Use(i, Pos(6, 25), false)], [Use(i, Pos(6, 32), true)] + ([Declare(j, Pos(6, 41), Initialized)] + ([Use(i, Pos(6, 45), false)] + ([Use(j, Pos(6, 54), false)]))), Block([Exprs([Call([Argument([Use(j, Pos(8, 38), false)])])])])), Ctx(4, [], []), tr) == Tree(tr.scopes + [Scope(ForInit, Some(4))] + [Scope(ForLoop, Some(5))] + [Scope(BlockBody, Some(6))], tr.events + [Declared(5, i, Pos(6, 18), Initialized, [])] + [Referenced(6, i, Pos(6, 25), false, false, [])] + [Referenced(7, j, Pos(8, 38), false, false, [0])] + [OutAssigned(7, [], [0])] + [Referenced(6, i, Pos(6, 32), true, false, [0])] + [Declared(6, j, Pos(6, 41), Initialized, [0])] + [Referenced(6, i, Pos(6, 45), false, false, [0])] + [Referenced(6, j, Pos(6, 54), false, false, [0])], 1)
  {
    WalkExprsOne(Declare(i, Pos(6, 18), Initialized), Ctx(5, [], []), Tree(tr.scopes + [Scope(ForInit, Some(4))] + [Scope(ForLoop, Some(5))], tr.events, 0));
    assert WalkExpr(Declare(i, Pos(6, 18), Initialized), Ctx(5, [], []), Tree(tr.scopes + [Scope(ForInit, Some(4))] + [Scope(ForLoop, Some(5))], tr.events, 0)) == Tree(tr.scopes + [Scope(ForInit, Some(4))] + [Scope(ForLoop, Some(5))], tr.events + [Declared(5, i, Pos(6, 18), Initialized, [])], 0);
    assert WalkExprs([Declare(i, Pos(6, 18), Initialized)], Ctx(5, [], []), Tree(tr.scopes + [Scope(ForInit, Some(4))] + [Scope(ForLoop, Some(5))], tr.events, 0)) == Tree(tr.scopes + [Scope(ForInit, Some(4))] + [Scope(ForLoop, Some(5))], tr.events + [Declared(5, i, Pos(6, 18), Initialized, [])], 0);
    WalkExprsOne(Use(i, Pos(6, 25), false), Ctx(6, [], []), Tree(tr.scopes + [Scope(ForInit, Some(4))] + [Scope(ForLoop, Some(5))], tr.events + [Declared(5, i, Pos(6, 18), Initialized, [])], 0));
    assert WalkExpr(Use(i, Pos(6, 25), false), Ctx(6, [], []), Tree(tr.scopes + [Scope(ForInit, Some(4))] + [Scope(ForLoop, Some(5))], tr.events + [Declared(5, i, Pos(6, 18), Initialized, [])], 0)) == Tree(tr.scopes + [Scope(ForInit, Some(4))] + [Scope(ForLoop, Some(5))], tr.events + [Declared(5, i, Pos(6, 18), Initialized, [])] + [Referenced(6, i, Pos(6, 25), false, false, [])], 0);
    assert WalkExprs([Use(i, Pos(6, 25), false)], Ctx(6, [], []), Tree(tr.scopes + [Scope(ForInit, Some(4))] + [Scope(ForLoop, Some(5))], tr.events + [Declared(5, i, Pos(6, 18), Initialized, [])], 0)) == Tree(tr.scopes + [Scope(ForInit, Some(4))] + [Scope(ForLoop, Some(5))], tr.events + [Declared(5, i, Pos(6, 18), Initialized, [])] + [Referenced(6, i, Pos(6, 25), false, false, [])], 0);
    assert [] + [0] == [0];
    WalkStmtsOne(Exprs([Call([Argument([Use(j, Pos(8, 38), false)])])]), Ctx(7, [0], []), Tree(tr.scopes + [Scope(ForInit, Some(4))] + [Scope(ForLoop, Some(5))] + [Scope(BlockBody, Some(6))], tr.events + [Declared(5, i, Pos(6, 18), Initialized, [])] + [Referenced(6, i, Pos(6, 25), false, false, [])], 1));
    Walk3(i, j, k, l, m, n, o, p, q, r, Tree(tr.scopes + [Scope(ForInit, Some(4))] + [Scope(ForLoop, Some(5))] + [Scope(BlockBody, Some(6))], tr.events + [Declared(5, i, Pos(6, 18), Initialized, [])] + [Referenced(6, i, Pos(6, 25), false, false, [])], 1));
    assert WalkStmt(Exprs([Call([Argument([Use(j, Pos(8, 38), false)])])]), Ctx(7, [0], []), Tree(tr.scopes + [Scope(ForInit, Some(4))] + [Scope(ForLoop, Some(5))] + [Scope(BlockBody, Some(6))], tr.events + [Declared(5, i, Pos(6, 18), Initialized, [])] + [Referenced(6, i, Pos(6, 25), false, false, [])], 1)) == Tree(tr.scopes + [Scope(ForInit, Some(4))] + [Scope(ForLoop, Some(5))] + [Scope(BlockBody, Some(6))], tr.events + [Declared(5, i, Pos(6, 18), Initialized, [])] + [Referenced(6, i, Pos(6, 25), false, false, [])] + [Referenced(7, j, Pos(8, 38), false, false, [0])] + [OutAssigned(7, [], [0])], 1);
    assert WalkEmbedded(Block([Exprs([Call([Argument([Use(j, Pos(8, 38), false)])])])]), Ctx(6, [0], []), Tree(tr.scopes + [Scope(ForInit, Some(4))] + [Scope(ForLoop, Some(5))], tr.events + [Declared(5, i, Pos(6, 18), Initialized, [])] + [Referenced(6, i, Pos(6, 25), false, false, [])], 1)) == Tree(tr.scopes + [Scope(ForInit, Some(4))] + [Scope(ForLoop, Some(5))] + [Scope(BlockBody, Some(6))], tr.events + [Declared(5, i, Pos(6, 18), Initialized, [])] + [Referenced(6, i, Pos(6, 25), false, false, [])] + [Referenced(7, j, Pos(8, 38), false, false, [0])] + [OutAssigned(7, [], [0])], 1);
    WalkExprsCons(Use(i, Pos(6, 32), true), [Declare(j, Pos(6, 41), Initialized)] + ([Use(i, Pos(6, 45), false)] + ([Use(j, Pos(6, 54), false)])), Ctx(6, [0], []), Tree(tr.scopes + [Scope(ForInit, Some(4))] + [Scope(ForLoop, Some(5))] + [Scope(BlockBody, Some(6))], tr.events + [Declared(5, i, Pos(6, 18), Initialized, [])] + [Referenced(6, i, Pos(6, 25), false, false, [])] + [Referenced(7, j, Pos(8, 38), false, false, [0])] + [OutAssigned(7, [], [0])], 1));
    assert WalkExpr(Use(i, Pos(6, 32), true), Ctx(6, [0], []), Tree(tr.scopes + [Scope(ForInit, Some(4))] + [Scope(ForLoop, Some(5))] + [Scope(BlockBody, Some(6))], tr.events + [Declared(5, i, Pos(6, 18), Initialized, [])] + [Referenced(6, i, Pos(6, 25), false, false, [])] + [Referenced(7, j, Pos(8, 38), false, false, [0])] + [OutAssigned(7, [], [0])], 1)) == Tree(tr.scopes + [Scope(ForInit, Some(4))] + [Scope(ForLoop, Some(5))] + [Scope(BlockBody, Some(6))], tr.events + [Declared(5, i, Pos(6, 18), Initialized, [])] + [Referenced(6, i, Pos(6, 25), false, false, [])] + [Referenced(7, j, Pos(8, 38), false, false, [0])] + [OutAssigned(7, [], [0])] + [Referenced(6, i, Pos(6, 32), true, false, [0])], 1);
    WalkExprsCons(Declare(j, Pos(6, 41), Initialized), [Use(i, Pos(6, 45), false)] + ([Use(j, Pos(6, 54), false)]), Ctx(6, [0], []), Tree(tr.scopes + [Scope(ForInit, Some(4))] + [Scope(ForLoop, Some(5))] + [Scope(BlockBody, Some(6))], tr.events + [Declared(5, i, Pos(6, 18), Initialized, [])] + [Referenced(6, i, Pos(6, 25), false, false, [])] + [Referenced(7, j, Pos(8, 38), false, false, [0])] + [OutAssigned(7, [], [0])] + [Referenced(6, i, Pos(6, 32), true, false, [0])], 1));
    assert WalkExpr(Declare(j, Pos(6, 41), Initialized), Ctx(6, [0], []), Tree(tr.scopes + [Scope(ForInit, Some(4))] + [Scope(ForLoop, Some(5))] + [Scope(BlockBody, Some(6))], tr.events + [Declared(5, i, Pos(6, 18), Initialized, [])] + [Referenced(6, i, Pos(6, 25), false, false, [])] + [Referenced(7, j, Pos(8, 38), false, false, [0])] + [OutAssigned(7, [], [0])] + [Referenced(6, i, Pos(6, 32), true, false, [0])], 1)) == Tree(tr.scopes + [Scope(ForInit, Some(4))] + [Scope(ForLoop, Some(5))] + [Scope(BlockBody, Some(6))], tr.events + [Declared(5, i, Pos(6, 18), Initialized, [])] + [Referenced(6, i, Pos(6, 25), false, false, [])] + [Referenced(7, j, Pos(8, 38), false, false, [0])] + [OutAssigned(7, [], [0])] + [Referenced(6, i, Pos(6, 32), true, false, [0])] + [Declared(6, j, Pos(6, 41), Initialized, [0])], 1);
    WalkExprsCons(Use(i, Pos(6, 45), false), [Use(j, Pos(6, 54), false)], Ctx(6, [0], []), Tree(tr.scopes + [Scope(ForInit, Some(4))] + [Scope(ForLoop, Some(5))] + [Scope(BlockBody, Some(6))], tr.events + [Declared(5, i, Pos(6, 18), Initialized, [])] + [Referenced(6, i, Pos(6, 25), false, false, [])] + [Referenced(7, j, Pos(8, 38), false, false, [0])] + [OutAssigned(7, [], [0])] + [Referenced(6, i, Pos(6, 32), true, false, [0])] + [Declared(6, j, Pos(6, 41), Initialized, [0])], 1));
    assert WalkExpr(Use(i, Pos(6, 45), false), Ctx(6, [0], []), Tree(tr.scopes + [Scope(ForInit, Some(4))] + [Scope(ForLoop, Some(5))] + [Scope(BlockBody, Some(6))], tr.events + [Declared(5, i, Pos(6, 18), Initialized, [])] + [Referenced(6, i, Pos(6, 25), false, false, [])] + [Referenced(7, j, Pos(8, 38), false, false, [0])] + [OutAssigned(7, [], [0])] + [Referenced(6, i, Pos(6, 32), true, false, [0])] + [Declared(6, j, Pos(6, 41), Initialized, [0])], 1)) == Tree(tr.scopes + [Scope(ForInit, Some(4))] + [Scope(ForLoop, Some(5))] + [Scope(BlockBody, Some(6))], tr.events + [Declared(5, i, Pos(6, 18), Initialized, [])] + [Referenced(6, i, Pos(6, 25), false, false, [])] + [Referenced(7, j, Pos(8, 38), false, false, [0])] + [OutAssigned(7, [], [0])] + [Referenced(6, i, Pos(6, 32), true, false, [0])] + [Declared(6, j, Pos(6, 41), Initialized, [0])] + [Referenced(6, i, Pos(6, 45), false, false, [0])], 1);
    WalkExprsOne(Use(j, Pos(6, 54), false), Ctx(6, [0], []), Tree(tr.scopes + [Scope(ForInit, Some(4))] + [Scope(ForLoop, Some(5))] + [Scope(BlockBody, Some(6))], tr.events + [Declared(5, i, Pos(6, 18), Initialized, [])] + [Referenced(6, i, Pos(6, 25), false, false, [])] + [Referenced(7, j, Pos(8, 38), false, false, [0])] + [OutAssigned(7, [], [0])] + [Referenced(6, i, Pos(6, 32), true, false, [0])] + [Declared(6, j, Pos(6, 41), Initialized, [0])] + [Referenced(6, i, Pos(6, 45), false, false, [0])], 1));
    assert WalkExpr(Use(j, Pos(6, 54), false), Ctx(6, [0], []), Tree(tr.scopes + [Scope(ForInit, Some(4))] + [Scope(ForLoop, Some(5))] + [Scope(BlockBody, Some(6))], tr.events + [Declared(5, i, Pos(6, 18), Initialized, [])] + [Referenced(6, i, Pos(6, 25), false, false, [])] + [Referenced(7, j, Pos(8, 38), false, false, [0])] + [OutAssigned(7, [], [0])] + [Referenced(6, i, Pos(6, 32), true, false, [0])] + [Declared(6, j, Pos(6, 41), Initialized, [0])] + [Referenced(6, i, Pos(6, 45), false, false, [0])], 1)) == Tree(tr.scopes + [Scope(ForInit, Some(4))] + [Scope(ForLoop, Some(5))] + [Scope(BlockBody, Some(6))], tr.events + [Declared(5, i, Pos(6, 18), Initialized, [])] + [Referenced(6, i, Pos(6, 25), false, false, [])] + [Referenced(7, j, Pos(8, 38), false, false, [0])] + [OutAssigned(7, [], [0])] + [Referenced(6, i, Pos(6, 32), true, false, [0])] + [Declared(6, j, Pos(6, 41), Initialized, [0])] + [Referenced(6, i, Pos(6, 45), false, false, [0])] + [Referenced(6, j, Pos(6, 54), false, false, [0])], 1);
    assert WalkExprs([Use(i, Pos(6, 32), true)] + ([Declare(j, Pos(6, 41), Initialized)] + ([Use(i, Pos(6, 45), false)] + ([Use(j, Pos(6, 54), false)]))), Ctx(6, [0], []), Tree(tr.scopes + [Scope(ForInit, Some(4))] + [Scope(ForLoop, Some(5))] + [Scope(BlockBody, Some(6))], tr.events + [Declared(5, i, Pos(6, 18), Initialized, [])] + [Referenced(6, i, Pos(6, 25), false, false, [])] + [Referenced(7, j, Pos(8, 38), false, false, [0])] + [OutAssigned(7, [], [0])], 1)) == Tree(tr.scopes + [Scope(ForInit, Some(4))] + [Scope(ForLoop, Some(5))] + [Scope(BlockBody, Some(6))], tr.events + [Declared(5, i, Pos(6, 18), Initialized, [])] + [Referenced(6, i, Pos(6, 25), false, false, [])] + [Referenced(7, j, Pos(8, 38), false, false, [0])] + [OutAssigned(7, [], [0])] + [Referenced(6, i, Pos(6, 32), true, false, [0])] + [Declared(6, j, Pos(6, 41), Initialized, [0])] + [Referenced(6, i, Pos(6, 45), false, false, [0])] + [Referenced(6, j, Pos(6, 54), false, false, [0])], 1);
    assert WalkStmt(For([Declare(i, Pos(6, 18), Initialized)], [Use(i, Pos(6, 25), false)], [Use(i, Pos(6, 32), true)] + ([Declare(j, Pos(6, 41), Initialized)] + ([Use(i, Pos(6, 45), false)] + ([Use(j, Pos(6, 54), false)]))), Block([Exprs([Call([Argument([Use(j, Pos(8, 38), false)])])])])), Ctx(4, [], []), tr) == Tree(tr.scopes + [Scope(ForInit, Some(4))] + [Scope(ForLoop, Some(5))] + [Scope(BlockBody, Some(6))], tr.events + [Declared(5, i, Pos(6, 18), Initialized, [])] + [Referenced(6, i, Pos(6, 25), false, false, [])] + [Referenced(7, j, Pos(8, 38), false, false, [0])] + [OutAssigned(7, [], [0])] + [Referenced(6, i, Pos(6, 32), true, false, [0])] + [Declared(6, j, Pos(6, 41), Initialized, [0])] + [Referenced(6, i, Pos(6, 45), false, false, [0])] + [Referenced(6, j, Pos(6, 54), false, false, [0])], 1);
  }

  lemma {:induction false} Walk4(i: string, j: string, k: string, l: string, m: string, n: string, o: string, p: string, q: string, r: string, tr: Tree)
    requires |tr.scopes| == 8 && tr.arms == 1
    ensures WalkStmt(For([Declare(i, Pos(11, 18), Initialized)] + ([Declare(j, Pos(11, 36), Initialized)] + ([Use(j, Pos(11, 46), false)])), [Use(j, Pos(11, 51), true)] + ([Use(i, Pos(11, 55), false)]), [Use(i, Pos(11, 64), false)], Exprs([Call([Argument([Use(j, Pos(12, 38), false)] + ([Declare(k, Pos(12, 47), Initialized)] + ([Use(i, Pos(12, 55), false)])))])])), Ctx(4, [], []), tr) == Tree(tr.scopes + [Scope(ForInit, Some(4))] + [Scope(ForLoop, Some(8))] + [Scope(EmbeddedBody, Some(9))], tr.events + [Declared(8, i, Pos(11, 18), Initialized, [])] + [Declared(8, j, Pos(11, 36), Initialized, [])] + [Referenced(8, j, Pos(11, 46), false, false, [])] + [Referenced(9, j, Pos(11, 51), true, false, [])] + [Referenced(9, i, Pos(11, 55), false, false, [])] + [Referenced(10, j, Pos(12, 38), false, false, [1])] + [Declared(10, k, Pos(12, 47), Initialized, [1])] + [Referenced(10, i, Pos(12, 55), false, false, [1])] + [OutAssigned(10, [], [1])] + [Referenced(9, i, Pos(11, 64), false, false, [1])], 2)
  {
    WalkExprsCons(Declare(i, Pos(11, 18), Initialized), [Declare(j, Pos(11, 36), Initialized)] + ([Use(j, Pos(11, 46), false)]), Ctx(8, [], []), Tree(tr.scopes + [Scope(ForInit, Some(4))] + [Scope(ForLoop, Some(8))], tr.events, 1));
    assert WalkExpr(Declare(i, Pos(11, 18), Initialized), Ctx(8, [], []), Tree(tr.scopes + [Scope(ForInit, Some(4))] + [Scope(ForLoop, Some(8))], tr.events, 1)) == Tree(tr.scopes + [Scope(ForInit, Some(4))] + [Scope(ForLoop, Some(8))], tr.events + [Declared(8, i, Pos(11, 18), Initialized, [])], 1);
    WalkExprsCons(Declare(j, Pos(11, 36), Initialized), [Use(j, Pos(11, 46), false)], Ctx(8, [], []), Tree(tr.scopes + [Scope(ForInit, Some(4))] + [Scope(ForLoop, Some(8))], tr.events + [Declared(8, i, Pos(11, 18), Initialized, [])], 1));
    assert WalkExpr(Declare(j, Pos(11, 36), Initialized), Ctx(8, [], []), Tree(tr.scopes + [Scope(ForInit, Some(4))] + [Scope(ForLoop, Some(8))], tr.events + [Declared(8, i, Pos(11, 18), Initialized, [])], 1)) == Tree(tr.scopes + [Scope(ForInit, Some(4))] + [Scope(ForLoop, Some(8))], tr.events + [Declared(8, i, Pos(11, 18), Initialized, [])] + [Declared(8, j, Pos(11, 36), Initialized, [])], 1);
    WalkExprsOne(Use(j, Pos(11, 46), false), Ctx(8, [], []), Tree(tr.scopes + [Scope(ForInit, Some(4))] + [Scope(ForLoop, Some(8))], tr.events + [Declared(8, i, Pos(11, 18), Initialized, [])] + [Declared(8, j, Pos(11, 36), Initialized, [])], 1));
    assert WalkExpr(Use(j, Pos(11, 46), false), Ctx(8, [], []), Tree(tr.scopes + [Scope(ForInit, Some(4))] + [Scope(ForLoop, Some(8))], tr.events + [Declared(8, i, Pos(11, 18), Initialized, [])] + [Declared(8, j, Pos(11, 36), Initialized, [])], 1)) == Tree(tr.scopes + [Scope(ForInit, Some(4))] + [Scope(ForLoop, Some(8))], tr.events + [Declared(8, i, Pos(11, 18), Initialized, [])] + [Declared(8, j, Pos(11, 36), Initialized, [])] + [Referenced(8, j, Pos(11, 46), false, false, [])], 1);
    assert WalkExprs([Declare(i, Pos(11, 18), Initialized)] + ([Declare(j, Pos(11, 36), Initialized)] + ([Use(j, Pos(11, 46), false)])), Ctx(8, [], []), Tree(tr.scopes + [Scope(ForInit, Some(4))] + [Scope(ForLoop, Some(8))], tr.events, 1)) == Tree(tr.scopes + [Scope(ForInit, Some(4))] + [Scope(ForLoop, Some(8))], tr.events + [Declared(8, i, Pos(11, 18), Initialized, [])] + [Declared(8, j, Pos(11, 36), Initialized, [])] + [Referenced(8, j, Pos(11, 46), false, false, [])], 1);
    WalkExprsCons(Use(j, Pos(11, 51), true), [Use(i, Pos(11, 55), false)], Ctx(9, [], []), Tree(tr.scopes + [Scope(ForInit, Some(4))] + [Scope(ForLoop, Some(8))], tr.events + [Declared(8, i, Pos(11, 18), Initialized, [])] + [Declared(8, j, Pos(11, 36), Initialized, [])] + [Referenced(8, j, Pos(11, 46), false, false, [])], 1));
    assert WalkExpr(Use(j, Pos(11, 51), true), Ctx(9, [], []), Tree(tr.scopes + [Scope(ForInit, Some(4))] + [Scope(ForLoop, Some(8))], tr.events + [Declared(8, i, Pos(11, 18), Initialized, [])] + [Declared(8, j, Pos(11, 36), Initialized, [])] + [Referenced(8, j, Pos(11, 46), false, false, [])], 1)) == Tree(tr.scopes + [Scope(ForInit, Some(4))] + [Scope(ForLoop, Some(8))], tr.events + [Declared(8, i, Pos(11, 18), Initialized, [])] + [Declared(8, j, Pos(11, 36), Initialized, [])] + [Referenced(8, j, Pos(11, 46), false, false, [])] + [Referenced(9, j, Pos(11, 51), true, false, [])], 1);
    WalkExprsOne(Use(i, Pos(11, 55), false), Ctx(9, [], []), Tree(tr.scopes + [Scope(ForInit, Some(4))] + [Scope(ForLoop, Some(8))], tr.events + [Declared(8, i, Pos(11, 18), Initialized, [])] + [Declared(8, j, Pos(11, 36), Initialized, [])] + [Referenced(8, j, Pos(11, 46), false, false, [])] + [Referenced(9, j, Pos(11, 51), true, false, [])], 1));
    assert WalkExpr(Use(i, Pos(11, 55), false), Ctx(9, [], []), Tree(tr.scopes + [Scope(ForInit, Some(4))] + [Scope(ForLoop, Some(8))], tr.events + [Declared(8, i, Pos(11, 18), Initialized, [])] + [Declared(8, j, Pos(11, 36), Initialized, [])] + [Referenced(8, j, Pos(11, 46), false, false, [])] + [Referenced(9, j, Pos(11, 51), true, false, [])], 1)) == Tree(tr.scopes + [Scope(ForInit, Some(4))] + [Scope(ForLoop, Some(8))], tr.events + [Declared(8, i, Pos(11, 18), Initialized, [])] + [Declared(8, j, Pos(11, 36), Initialized, [])] + [Referenced(8, j, Pos(11, 46), false, false, [])] + [Referenced(9, j, Pos(11, 51), true, false, [])] + [Referenced(9, i, Pos(11, 55), false, false, [])], 1);
    assert WalkExprs([Use(j, Pos(11, 51), true)] + ([Use(i, Pos(11, 55), false)]), Ctx(9, [], []), Tree(tr.scopes + [Scope(ForInit, Some(4))] + [Scope(ForLoop, Some(8))], tr.events + [Declared(8, i, Pos(11, 18), Initialized, [])] + [Declared(8, j, Pos(11, 36), Initialized, [])] + [Referenced(8, j, Pos(11, 46), false, false, [])], 1)) == Tree(tr.scopes + [Scope(ForInit, Some(4))] + [Scope(ForLoop, Some(8))], tr.events + [Declared(8, i, Pos(11, 18), Initialized, [])] + [Declared(8, j, Pos(11, 36), Initialized, [])] + [Referenced(8, j, Pos(11, 46), false, false, [])] + [Referenced(9, j, Pos(11, 51), true, false, [])] + [Referenced(9, i, Pos(11, 55), false, false, [])], 1);
    assert [] + [1] == [1];
    WalkExprsOne(Call([Argument([Use(j, Pos(12, 38), false)] + ([Declare(k, Pos(12, 47), Initialized)] + ([Use(i, Pos(12, 55), false)])))]), Ctx(10, [1], []), Tree(tr.scopes + [Scope(ForInit, Some(4))] + [Scope(ForLoop, Some(8))] + [Scope(EmbeddedBody, Some(9))], tr.events + [Declared(8, i, Pos(11, 18), Initialized, [])] + [Declared(8, j, Pos(11, 36), Initialized, [])] + [Referenced(8, j, Pos(11, 46), false, false, [])] + [Referenced(9, j, Pos(11, 51), true, false, [])] + [Referenced(9, i, Pos(11, 55), false, false, [])], 2));
    assert OutNames([]) == [];
    WalkArgsOne(Argument([Use(j, Pos(12, 38), false)] + ([Declare(k, Pos(12, 47), Initialized)] + ([Use(i, Pos(12, 55), false)]))), [], Ctx(10, [1], []), Tree(tr.scopes + [Scope(ForInit, Some(4))] + [Scope(ForLoop, Some(8))] + [Scope(EmbeddedBody, Some(9))], tr.events + [Declared(8, i, Pos(11, 18), Initialized, [])] + [Declared(8, j, Pos(11, 36), Initialized, [])] + [Referenced(8, j, Pos(11, 46), false, false, [])] + [Referenced(9, j, Pos(11, 51), true, false, [])] + [Referenced(9, i, Pos(11, 55), false, false, [])], 2));
    WalkExprsCons(Use(j, Pos(12, 38), false), [Declare(k, Pos(12, 47), Initialized)] + ([Use(i, Pos(12, 55), false)]), Ctx(10, [1], []), Tree(tr.scopes + [Scope(ForInit, Some(4))] + [Scope(ForLoop, Some(8))] + [Scope(EmbeddedBody, Some(9))], tr.events + [Declared(8, i, Pos(11, 18), Initialized, [])] + [Declared(8, j, Pos(11, 36), Initialized, [])] + [Referenced(8, j, Pos(11, 46), false, false, [])] + [Referenced(9, j, Pos(11, 51), true, false, [])] + [Referenced(9, i, Pos(11, 55), false, false, [])], 2));
    assert WalkExpr(Use(j, Pos(12, 38), false), Ctx(10, [1], []), Tree(tr.scopes + [Scope(ForInit, Some(4))] + [Scope(ForLoop, Some(8))] + [Scope(EmbeddedBody, Some(9))], tr.events + [Declared(8, i, Pos(11, 18), Initialized, [])] + [Declared(8, j, Pos(11, 36), Initialized, [])] + [Referenced(8, j, Pos(11, 46), false, false, [])] + [Referenced(9, j, Pos(11, 51), true, false, [])] + [Referenced(9, i, Pos(11, 55), false, false, [])], 2)) == Tree(tr.scopes + [Scope(ForInit, Some(4))] + [Scope(ForLoop, Some(8))] + [Scope(EmbeddedBody, Some(9))], tr.events + [Declared(8, i, Pos(11, 18), Initialized, [])] + [Declared(8, j, Pos(11, 36), Initialized, [])] + [Referenced(8, j, Pos(11, 46), false, false, [])] + [Referenced(9, j, Pos(11, 51), true, false, [])] + [Referenced(9, i, Pos(11, 55), false, false, [])] + [Referenced(10, j, Pos(12, 38), false, false, [1])], 2);
    WalkExprsCons(Declare(k, Pos(12, 47), Initialized), [Use(i, Pos(12, 55), false)], Ctx(10, [1], []), Tree(tr.scopes + [Scope(ForInit, Some(4))] + [Scope(ForLoop, Some(8))] + [Scope(EmbeddedBody, Some(9))], tr.events + [Declared(8, i, Pos(11, 18), Initialized, [])] + [Declared(8, j, Pos(11, 36), Initialized, [])] + [Referenced(8, j, Pos(11, 46), false, false, [])] + [Referenced(9, j, Pos(11, 51), true, false, [])] + [Referenced(9, i, Pos(11, 55), false, false, [])] + [Referenced(10, j, Pos(12, 38), false, false, [1])], 2));
    assert WalkExpr(Declare(k, Pos(12, 47), Initialized), Ctx(10, [1], []), Tree(tr.scopes + [Scope(ForInit, Some(4))] + [Scope(ForLoop, Some(8))] + [Scope(EmbeddedBody, Some(9))], tr.events + [Declared(8, i, Pos(11, 18), Initialized, [])] + [Declared(8, j, Pos(11, 36), Initialized, [])] + [Referenced(8, j, Pos(11, 46), false, false, [])] + [Referenced(9, j, Pos(11, 51), true, false, [])] + [Referenced(9, i, Pos(11, 55), false, false, [])] + [Referenced(10, j, Pos(12, 38), false, false, [1])], 2)) == Tree(tr.scopes + [Scope(ForInit, Some(4))] + [Scope(ForLoop, Some(8))] + [Scope(EmbeddedBody, Some(9))], tr.events + [Declared(8, i, Pos(11, 18), Initialized, [])] + [Declared(8, j, Pos(11, 36), Initialized, [])] + [Referenced(8, j, Pos(11, 46), false, false, [])] + [Referenced(9, j, Pos(11, 51), true, false, [])] + [Referenced(9, i, Pos(11, 55), false, false, [])] + [Referenced(10, j, Pos(12, 38), false, false, [1])] + [Declared(10, k, Pos(12, 47), Initialized, [1])], 2);
    WalkExprsOne(Use(i, Pos(12, 55), false), Ctx(10, [1], []), Tree(tr.scopes + [Scope(ForInit, Some(4))] + [Scope(ForLoop, Some(8))] + [Scope(EmbeddedBody, Some(9))], tr.events + [Declared(8, i, Pos(11, 18), Initialized, [])] + [Declared(8, j, Pos(11, 36), Initialized, [])] + [Referenced(8, j, Pos(11, 46), false, false, [])] + [Referenced(9, j, Pos(11, 51), true, false, [])] + [Referenced(9, i, Pos(11, 55), false, false, [])] + [Referenced(10, j, Pos(12, 38), false, false, [1])] + [Declared(10, k, Pos(12, 47), Initialized, [1])], 2));
    assert WalkExpr(Use(i, Pos(12, 55), false), Ctx(10, [1], []), Tree(tr.scopes + [Scope(ForInit, Some(4))] + [Scope(ForLoop, Some(8))] + [Scope(EmbeddedBody, Some(9))], tr.events + [Declared(8, i, Pos(11, 18), Initialized, [])] + [Declared(8, j, Pos(11, 36), Initialized, [])] + [Referenced(8, j, Pos(11, 46), false, false, [])] + [Referenced(9, j, Pos(11, 51), true, false, [])] + [Referenced(9, i, Pos(11, 55), false, false, [])] + [Referenced(10, j, Pos(12, 38), false, false, [1])] + [Declared(10, k, Pos(12, 47), Initialized, [1])], 2)) == Tree(tr.scopes + [Scope(ForInit, Some(4))] + [Scope(ForLoop, Some(8))] + [Scope(EmbeddedBody, Some(9))], tr.events + [Declared(8, i, Pos(11, 18), Initialized, [])] + [Declared(8, j, Pos(11, 36), Initialized, [])] + [Referenced(8, j, Pos(11, 46), false, false, [])] + [Referenced(9, j, Pos(11, 51), true, false, [])] + [Referenced(9, i, Pos(11, 55), false, false, [])] + [Referenced(10, j, Pos(12, 38), false, false, [1])] + [Declared(10, k, Pos(12, 47), Initialized, [1])] + [Referenced(10, i, Pos(12, 55), false, false, [1])], 2);
    assert WalkExprs([Use(j, Pos(12, 38), false)] + ([Declare(k, Pos(12, 47), Initialized)] + ([Use(i, Pos(12, 55), false)])), Ctx(10, [1], []), Tree(tr.scopes + [Scope(ForInit, Some(4))] + [Scope(ForLoop, Some(8))] + [Scope(EmbeddedBody, Some(9))], tr.events + [Declared(8, i, Pos(11, 18), Initialized, [])] + [Declared(8, j, Pos(11, 36), Initialized, [])] + [Referenced(8, j, Pos(11, 46), false, false, [])] + [Referenced(9, j, Pos(11, 51), true, false, [])] + [Referenced(9, i, Pos(11, 55), false, false, [])], 2)) == Tree(tr.scopes + [Scope(ForInit, Some(4))] + [Scope(ForLoop, Some(8))] + [Scope(EmbeddedBody, Some(9))], tr.events + [Declared(8, i, Pos(11, 18), Initialized, [])] + [Declared(8, j, Pos(11, 36), Initialized, [])] + [Referenced(8, j, Pos(11, 46), false, false, [])] + [Referenced(9, j, Pos(11, 51), true, false, [])] + [Referenced(9, i, Pos(11, 55), false, false, [])] + [Referenced(10, j, Pos(12, 38), false, false, [1])] + [Declared(10, k, Pos(12, 47), Initialized, [1])] + [Referenced(10, i, Pos(12, 55), false, false, [1])], 2);
    OutNamesOfCons(Use(j, Pos(12, 38), false), [Declare(k, Pos(12, 47), Initialized)] + ([Use(i, Pos(12, 55), false)]));
    OutNamesOfCons(Declare(k, Pos(12, 47), Initialized), [Use(i, Pos(12, 55), false)]);
    OutNamesOfOne(Use(i, Pos(12, 55), false));
    OutNamesSnoc([], Argument([Use(j, Pos(12, 38), false)] + ([Declare(k, Pos(12, 47), Initialized)] + ([Use(i, Pos(12, 55), false)]))));
    assert WalkArgs([Argument([Use(j, Pos(12, 38), false)] + ([Declare(k, Pos(12, 47), Initialized)] + ([Use(i, Pos(12, 55), false)])))], [], Ctx(10, [1], []), Tree(tr.scopes + [Scope(ForInit, Some(4))] + [Scope(ForLoop, Some(8))] + [Scope(EmbeddedBody, Some(9))], tr.events + [Declared(8, i, Pos(11, 18), Initialized, [])] + [Declared(8, j, Pos(11, 36), Initialized, [])] + [Referenced(8, j, Pos(11, 46), false, false, [])] + [Referenced(9, j, Pos(11, 51), true, false, [])] + [Referenced(9, i, Pos(11, 55), false, false, [])], 2)) == Tree(tr.scopes + [Scope(ForInit, Some(4))] + [Scope(ForLoop, Some(8))] + [Scope(EmbeddedBody, Some(9))], tr.events + [Declared(8, i, Pos(11, 18), Initialized, [])] + [Declared(8, j, Pos(11, 36), Initialized, [])] + [Referenced(8, j, Pos(11, 46), false, false, [])] + [Referenced(9, j, Pos(11, 51), true, false, [])] + [Referenced(9, i, Pos(11, 55), false, false, [])] + [Referenced(10, j, Pos(12, 38), false, false, [1])] + [Declared(10, k, Pos(12, 47), Initialized, [1])] + [Referenced(10, i, Pos(12, 55), false, false, [1])], 2);
    assert OutNames([Argument([Use(j, Pos(12, 38), false)] + ([Declare(k, Pos(12, 47), Initialized)] + ([Use(i, Pos(12, 55), false)])))]) == [];
    assert WalkExpr(Call([Argument([Use(j, Pos(12, 38), false)] + ([Declare(k, Pos(12, 47), Initialized)] + ([Use(i, Pos(12, 55), false)])))]), Ctx(10, [1], []), Tree(tr.scopes + [Scope(ForInit, Some(4))] + [Scope(ForLoop, Some(8))] + [Scope(EmbeddedBody, Some(9))], tr.events + [Declared(8, i, Pos(11, 18), Initialized, [])] + [Declared(8, j, Pos(11, 36), Initialized, [])] + [Referenced(8, j, Pos(11, 46), false, false, [])] + [Referenced(9, j, Pos(11, 51), true, false, [])] + [Referenced(9, i, Pos(11, 55), false, false, [])], 2)) == Tree(tr.scopes + [Scope(ForInit, Some(4))] + [Scope(ForLoop, Some(8))] + [Scope(EmbeddedBody, Some(9))], tr.events + [Declared(8, i, Pos(11, 18), Initialized, [])] + [Declared(8, j, Pos(11, 36), Initialized, [])] + [Referenced(8, j, Pos(11, 46), false, false, [])] + [Referenced(9, j, Pos(11, 51), true, false, [])] + [Referenced(9, i, Pos(11, 55), false, false, [])] + [Referenced(10, j, Pos(12, 38), false, false, [1])] + [Declared(10, k, Pos(12, 47), Initialized, [1])] + [Referenced(10, i, Pos(12, 55), false, false, [1])] + [OutAssigned(10, [], [1])], 2);
    assert WalkExprs([Call([Argument([Use(j, Pos(12, 38), false)] + ([Declare(k, Pos(12, 47), Initialized)] + ([Use(i, Pos(12, 55), false)])))])], Ctx(10, [1], []), Tree(tr.scopes + [Scope(ForInit, Some(4))] + [Scope(ForLoop, Some(8))] + [Scope(EmbeddedBody, Some(9))], tr.events + [Declared(8, i, Pos(11, 18), Initialized, [])] + [Declared(8, j, Pos(11, 36), Initialized, [])] + [Referenced(8, j, Pos(11, 46), false, false, [])] + [Referenced(9, j, Pos(11, 51), true, false, [])] + [Referenced(9, i, Pos(11, 55), false, false, [])], 2)) == Tree(tr.scopes + [Scope(ForInit, Some(4))] + [Scope(ForLoop, Some(8))] + [Scope(EmbeddedBody, Some(9))], tr.events + [Declared(8, i, Pos(11, 18), Initialized, [])] + [Declared(8, j, Pos(11, 36), Initialized, [])] + [Referenced(8, j, Pos(11, 46), false, false, [])] + [Referenced(9, j, Pos(11, 51), true, false, [])] + [Referenced(9, i, Pos(11, 55), false, false, [])] + [Referenced(10, j, Pos(12, 38), false, false, [1])] + [Declared(10, k, Pos(12, 47), Initialized, [1])] + [Referenced(10, i, Pos(12, 55), false, false, [1])] + [OutAssigned(10, [], [1])], 2);
    assert WalkStmt(Exprs([Call([Argument([Use(j, Pos(12, 38), false)] + ([Declare(k, Pos(12, 47), Initialized)] + ([Use(i, Pos(12, 55), false)])))])]), Ctx(10, [1], []), Tree(tr.scopes + [Scope(ForInit, Some(4))] + [Scope(ForLoop, Some(8))] + [Scope(EmbeddedBody, Some(9))], tr.events + [Declared(8, i, Pos(11, 18), Initialized, [])] + [Declared(8, j, Pos(11, 36), Initialized, [])] + [Referenced(8, j, Pos(11, 46), false, false, [])] + [Referenced(9, j, Pos(11, 51), true, false, [])] + [Referenced(9, i, Pos(11, 55), false, false, [])], 2)) == Tree(tr.scopes + [Scope(ForInit, Some(4))] + [Scope(ForLoop, Some(8))] + [Scope(EmbeddedBody, Some(9))], tr.events + [Declared(8, i, Pos(11, 18), Initialized, [])] + [Declared(8, j, Pos(11, 36), Initialized, [])] + [Referenced(8, j, Pos(11, 46), false, false, [])] + [Referenced(9, j, Pos(11, 51), true, false, [])] + [Referenced(9, i, Pos(11, 55), false, false, [])] + [Referenced(10, j, Pos(12, 38), false, false, [1])] + [Declared(10, k, Pos(12, 47), Initialized, [1])] + [Referenced(10, i, Pos(12, 55), false, false, [1])] + [OutAssigned(10, [], [1])], 2);
    assert WalkEmbedded(Exprs([Call([Argument([Use(j, Pos(12, 38), false)] + ([Declare(k, Pos(12, 47), Initialized)] + ([Use(i, Pos(12, 55), false)])))])]), Ctx(9, [1], []), Tree(tr.scopes + [Scope(ForInit, Some(4))] + [Scope(ForLoop, Some(8))], tr.events + [Declared(8, i, Pos(11, 18), Initialized, [])] + [Declared(8, j, Pos(11, 36), Initialized, [])] + [Referenced(8, j, Pos(11, 46), false, false, [])] + [Referenced(9, j, Pos(11, 51), true, false, [])] + [Referenced(9, i, Pos(11, 55), false, false, [])], 2)) == Tree(tr.scopes + [Scope(ForInit, Some(4))] + [Scope(ForLoop, Some(8))] + [Scope(EmbeddedBody, Some(9))], tr.events + [Declared(8, i, Pos(11, 18), Initialized, [])] + [Declared(8, j, Pos(11, 36), Initialized, [])] + [Referenced(8, j, Pos(11, 46), false, false, [])] + [Referenced(9, j, Pos(11, 51), true, false, [])] + [Referenced(9, i, Pos(11, 55), false, false, [])] + [Referenced(10, j, Pos(12, 38), false, false, [1])] + [Declared(10, k, Pos(12, 47), Initialized, [1])] + [Referenced(10, i, Pos(12, 55), false, false, [1])] + [OutAssigned(10, [], [1])], 2);
    WalkExprsOne(Use(i, Pos(11, 64), false), Ctx(9, [1], []), Tree(tr.scopes + [Scope(ForInit, Some(4))] + [Scope(ForLoop, Some(8))] + [Scope(EmbeddedBody, Some(9))], tr.events + [Declared(8, i, Pos(11, 18), Initialized, [])] + [Declared(8, j, Pos(11, 36), Initialized, [])] + [Referenced(8, j, Pos(11, 46), false, false, [])] + [Referenced(9, j, Pos(11, 51), true, false, [])] + [Referenced(9, i, Pos(11, 55), false, false, [])] + [Referenced(10, j, Pos(12, 38), false, false, [1])] + [Declared(10, k, Pos(12, 47), Initialized, [1])] + [Referenced(10, i, Pos(12, 55), false, false, [1])] + [OutAssigned(10, [], [1])], 2));
    assert WalkExpr(Use(i, Pos(11, 64), false), Ctx(9, [1], []), Tree(tr.scopes + [Scope(ForInit, Some(4))] + [Scope(ForLoop, Some(8))] + [Scope(EmbeddedBody, Some(9))], tr.events + [Declared(8, i, Pos(11, 18), Initialized, [])] + [Declared(8, j, Pos(11, 36), Initialized, [])] + [Referenced(8, j, Pos(11, 46), false, false, [])] + [Referenced(9, j, Pos(11, 51), true, false, [])] + [Referenced(9, i, Pos(11, 55), false, false, [])] + [Referenced(10, j, Pos(12, 38), false, false, [1])] + [Declared(10, k, Pos(12, 47), Initialized, [1])] + [Referenced(10, i, Pos(12, 55), false, false, [1])] + [OutAssigned(10, [], [1])], 2)) == Tree(tr.scopes + [Scope(ForInit, Some(4))] + [Scope(ForLoop, Some(8))] + [Scope(EmbeddedBody, Some(9))], tr.events + [Declared(8, i, Pos(11, 18), Initialized, [])] + [Declared(8, j, Pos(11, 36), Initialized, [])] + [Referenced(8, j, Pos(11, 46), false, false, [])] + [Referenced(9, j, Pos(11, 51), true, false, [])] + [Referenced(9, i, Pos(11, 55), false, false, [])] + [Referenced(10, j, Pos(12, 38), false, false, [1])] + [Declared(10, k, Pos(12, 47), Initialized, [1])] + [Referenced(10, i, Pos(12, 55), false, false, [1])] + [OutAssigned(10, [], [1])] + [Referenced(9, i, Pos(11, 64), false, false, [1])], 2);
    assert WalkExprs([Use(i, Pos(11, 64), false)], Ctx(9, [1], []), Tree(tr.scopes + [Scope(ForInit, Some(4))] + [Scope(ForLoop, Some(8))] + [Scope(EmbeddedBody, Some(9))], tr.events + [Declared(8, i, Pos(11, 18), Initialized, [])] + [Declared(8, j, Pos(11, 36), Initialized, [])] + [Referenced(8, j, Pos(11, 46), false, false, [])] + [Referenced(9, j, Pos(11, 51), true, false, [])] + [Referenced(9, i, Pos(11, 55), false, false, [])] + [Referenced(10, j, Pos(12, 38), false, false, [1])] + [Declared(10, k, Pos(12, 47), Initialized, [1])] + [Referenced(10, i, Pos(12, 55), false, false, [1])] + [OutAssigned(10, [], [1])], 2)) == Tree(tr.scopes + [Scope(ForInit, Some(4))] + [Scope(ForLoop, Some(8))] + [Scope(EmbeddedBody, Some(9))], tr.events + [Declared(8, i, Pos(11, 18), Initialized, [])] + [Declared(8, j, Pos(11, 36), Initialized, [])] + [Referenced(8, j, Pos(11, 46), false, false, [])] + [Referenced(9, j, Pos(11, 51), true, false, [])] + [Referenced(9, i, Pos(11, 55), false, false, [])] + [Referenced(10, j, Pos(12, 38), false, false, [1])] + [Declared(10, k, Pos(12, 47), Initialized, [1])] + [Referenced(10, i, Pos(12, 55), false, false, [1])] + [OutAssigned(10, [], [1])] + [Referenced(9, i, Pos(11, 64), false, false, [1])], 2);
    assert WalkStmt(For([Declare(i, Pos(11, 18), Initialized)] + ([Declare(j, Pos(11, 36), Initialized)] + ([Use(j, Pos(11, 46), false)])), [Use(j, Pos(11, 51), true)] + ([Use(i, Pos(11, 55), false)]), [Use(i, Pos(11, 64), false)], Exprs([Call([Argument([Use(j, Pos(12, 38), false)] + ([Declare(k, Pos(12, 47), Initialized)] + ([Use(i, Pos(12, 55), false)])))])])), Ctx(4, [], []), tr) == Tree(tr.scopes + [Scope(ForInit, Some(4))] + [Scope(ForLoop, Some(8))] + [Scope(EmbeddedBody, Some(9))], tr.events + [Declared(8, i, Pos(11, 18), Initialized, [])] + [Declared(8, j, Pos(11, 36), Initialized, [])] + [Referenced(8, j, Pos(11, 46), false, false, [])] + [Referenced(9, j, Pos(11, 51), true, false, [])] + [Referenced(9, i, Pos(11, 55), false, false, [])] + [Referenced(10, j, Pos(12, 38), false, false, [1])] + [Declared(10, k, Pos(12, 47), Initialized, [1])] + [Referenced(10, i, Pos(12, 55), false, false, [1])] + [OutAssigned(10, [], [1])] + [Referenced(9, i, Pos(11, 64), false, false, [1])], 2);
  }

  lemma {:induction false} Walk5(i: string, j: string, k: string, l: string, m: string, n: string, o: string, p: string, q: string, r: string, tr: Tree)
    requires |tr.scopes| == 11 && tr.arms == 2
    ensures WalkStmt(Exprs([Use(j, Pos(14, 9), true)]), Ctx(4, [], []), tr) == Tree(tr.scopes, tr.events + [Referenced(4, j, Pos(14, 9), true, false, [])], 2)
  {
    WalkExprsOne(Use(j, Pos(14, 9), true), Ctx(4, [], []), tr);
    assert WalkExpr(Use(j, Pos(14, 9), true), Ctx(4, [], []), tr) == Tree(tr.scopes, tr.events + [Referenced(4, j, Pos(14, 9), true, false, [])], 2);
    assert WalkExprs([Use(j, Pos(14, 9), true)], Ctx(4, [], []), tr) == Tree(tr.scopes, tr.events + [Referenced(4, j, Pos(14, 9), true, false, [])], 2);
    assert WalkStmt(Exprs([Use(j, Pos(14, 9), true)]), Ctx(4, [], []), tr) == Tree(tr.scopes, tr.events + [Referenced(4, j, Pos(14, 9), true, false, [])], 2);
  }

  lemma {:induction false} Walk6(i: string, j: string, k: string, l: string, m: string, n: string, o: string, p: string, q: string, r: string, tr: Tree)
    requires |tr.scopes| == 11 && tr.arms == 2
    ensures WalkStmt(Exprs([Use(k, Pos(15, 9), true)]), Ctx(4, [], []), tr) == Tree(tr.scopes, tr.events + [Referenced(4, k, Pos(15, 9), true, false, [])], 2)
  {
    WalkExprsOne(Use(k, Pos(15, 9), true), Ctx(4, [], []), tr);
    assert WalkExpr(Use(k, Pos(15, 9), true), Ctx(4, [], []), tr) == Tree(tr.scopes, tr.events + [Referenced(4, k, Pos(15, 9), true, false, [])], 2);
    assert WalkExprs([Use(k, Pos(15, 9), true)], Ctx(4, [], []), tr) == Tree(tr.scopes, tr.events + [Referenced(4, k, Pos(15, 9), true, false, [])], 2);
    assert WalkStmt(Exprs([Use(k, Pos(15, 9), true)]), Ctx(4, [], []), tr) == Tree(tr.scopes, tr.events + [Referenced(4, k, Pos(15, 9), true, false, [])], 2);
  }

  lemma {:induction false} Stmts1(i: string, j: string, k: string, l: string, m: string, n: string, o: string, p: string, q: string, r: string, tr: Tree, rest: seq<Stmt>)
    requires |tr.scopes| == 5 && tr.arms == 0
    ensures WalkStmts([For([Declare(i, Pos(6, 18), Initialized)], [Use(i, Pos(6, 25), false)], [Use(i, Pos(6, 32), true)] + ([Declare(j, Pos(6, 41), Initialized)] + ([Use(i, Pos(6, 45), false)] + ([Use(j, Pos(6, 54), false)]))), Block([Exprs([Call([Argument([Use(j, Pos(8, 38), false)])])])]))] + ([For([Declare(i, Pos(11, 18), Initialized)] + ([Declare(j, Pos(11, 36), Initialized)] + ([Use(j, Pos(11, 46), false)])), [Use(j, Pos(11, 51), true)] + ([Use(i, Pos(11, 55), false)]), [Use(i, Pos(11, 64), false)], Exprs([Call([Argument([Use(j, Pos(12, 38), false)] + ([Declare(k, Pos(12, 47), Initialized)] + ([Use(i, Pos(12, 55), false)])))])]))] + ([Exprs([Use(j, Pos(14, 9), true)])] + ([Exprs([Use(k, Pos(15, 9), true)])] + (rest)))), Ctx(4, [], []), tr) == WalkStmts(rest, Ctx(4, [], []), Tree(tr.scopes + [Scope(ForInit, Some(4))] + [Scope(ForLoop, Some(5))] + [Scope(BlockBody, Some(6))] + [Scope(ForInit, Some(4))] + [Scope(ForLoop, Some(8))] + [Scope(EmbeddedBody, Some(9))], tr.events + [Declared(5, i, Pos(6, 18), Initialized, [])] + [Referenced(6, i, Pos(6, 25), false, false, [])] + [Referenced(7, j, Pos(8, 38), false, false, [0])] + [OutAssigned(7, [], [0])] + [Referenced(6, i, Pos(6, 32), true, false, [0])] + [Declared(6, j, Pos(6, 41), Initialized, [0])] + [Referenced(6, i, Pos(6, 45), false, false, [0])] + [Referenced(6, j, Pos(6, 54), false, false, [0])] + [Declared(8, i, Pos(11, 18), Initialized, [])] + [Declared(8, j, Pos(11, 36), Initialized, [])] + [Referenced(8, j, Pos(11, 46), false, false, [])] + [Referenced(9, j, Pos(11, 51), true, false, [])] + [Referenced(9, i, Pos(11, 55), false, false, [])] + [Referenced(10, j, Pos(12, 38), false, false, [1])] + [Declared(10, k, Pos(12, 47), Initialized, [1])] + [Referenced(10, i, Pos(12, 55), false, false, [1])] + [OutAssigned(10, [], [1])] + [Referenced(9, i, Pos(11, 64), false, false, [1])] + [Referenced(4, j, Pos(14, 9), true, false, [])] + [Referenced(4, k, Pos(15, 9), true, false, [])], 2))
  {
    WalkStmtsCons(For([Declare(i, Pos(6, 18), Initialized)], [Use(i, Pos(6, 25), false)], [Use(i, Pos(6, 32), true)] + ([Declare(j, Pos(6, 41), Initialized)] + ([Use(i, Pos(6, 45), false)] + ([Use(j, Pos(6, 54), false)]))), Block([Exprs([Call([Argument([Use(j, Pos(8, 38), false)])])])])), [For([Declare(i, Pos(11, 18), Initialized)] + ([Declare(j, Pos(11, 36), Initialized)] + ([Use(j, Pos(11, 46), false)])), [Use(j, Pos(11, 51), true)] + ([Use(i, Pos(11, 55), false)]), [Use(i, Pos(11, 64), false)], Exprs([Call([Argument([Use(j, Pos(12, 38), false)] + ([Declare(k, Pos(12, 47), Initialized)] + ([Use(i, Pos(12, 55), false)])))])]))] + ([Exprs([Use(j, Pos(14, 9), true)])] + ([Exprs([Use(k, Pos(15, 9), true)])] + (rest))), Ctx(4, [], []), tr);
    Walk2(i, j, k, l, m, n, o, p, q, r, tr);
    assert WalkStmt(For([Declare(i, Pos(6, 18), Initialized)], [Use(i, Pos(6, 25), false)], [Use(i, Pos(6, 32), true)] + ([Declare(j, Pos(6, 41), Initialized)] + ([Use(i, Pos(6, 45), false)] + ([Use(j, Pos(6, 54), false)]))), Block([Exprs([Call([Argument([Use(j, Pos(8, 38), false)])])])])), Ctx(4, [], []), tr) == Tree(tr.scopes + [Scope(ForInit, Some(4))] + [Scope(ForLoop, Some(5))] + [Scope(BlockBody, Some(6))], tr.events + [Declared(5, i, Pos(6, 18), Initialized, [])] + [Referenced(6, i, Pos(6, 25), false, false, [])] + [Referenced(7, j, Pos(8, 38), false, false, [0])] + [OutAssigned(7, [], [0])] + [Referenced(6, i, Pos(6, 32), true, false, [0])] + [Declared(6, j, Pos(6, 41), Initialized, [0])] + [Referenced(6, i, Pos(6, 45), false, false, [0])] + [Referenced(6, j, Pos(6, 54), false, false, [0])], 1);
    WalkStmtsCons(For([Declare(i, Pos(11, 18), Initialized)] + ([Declare(j, Pos(11, 36), Initialized)] + ([Use(j, Pos(11, 46), false)])), [Use(j, Pos(11, 51), true)] + ([Use(i, Pos(11, 55), false)]), [Use(i, Pos(11, 64), false)], Exprs([Call([Argument([Use(j, Pos(12, 38), false)] + ([Declare(k, Pos(12, 47), Initialized)] + ([Use(i, Pos(12, 55), false)])))])])), [Exprs([Use(j, Pos(14, 9), true)])] + ([Exprs([Use(k, Pos(15, 9), true)])] + (rest)), Ctx(4, [], []), Tree(tr.scopes + [Scope(ForInit, Some(4))] + [Scope(ForLoop, Some(5))] + [Scope(BlockBody, Some(6))], tr.events + [Declared(5, i, Pos(6, 18), Initialized, [])] + [Referenced(6, i, Pos(6, 25), false, false, [])] + [Referenced(7, j, Pos(8, 38), false, false, [0])] + [OutAssigned(7, [], [0])] + [Referenced(6, i, Pos(6, 32), true, false, [0])] + [Declared(6, j, Pos(6, 41), Initialized, [0])] + [Referenced(6, i, Pos(6, 45), false, false, [0])] + [Referenced(6, j, Pos(6, 54), false, false, [0])], 1));
    Walk4(i, j, k, l, m, n, o, p, q, r, Tree(tr.scopes + [Scope(ForInit, Some(4))] + [Scope(ForLoop, Some(5))] + [Scope(BlockBody, Some(6))], tr.events + [Declared(5, i, Pos(6, 18), Initialized, [])] + [Referenced(6, i, Pos(6, 25), false, false, [])] + [Referenced(7, j, Pos(8, 38), false, false, [0])] + [OutAssigned(7, [], [0])] + [Referenced(6, i, Pos(6, 32), true, false, [0])] + [Declared(6, j, Pos(6, 41), Initialized, [0])] + [Referenced(6, i, Pos(6, 45), false, false, [0])] + [Referenced(6, j, Pos(6, 54), false, false, [0])], 1));
    assert WalkStmt(For([Declare(i, Pos(11, 18), Initialized)] + ([Declare(j, Pos(11, 36), Initialized)] + ([Use(j, Pos(11, 46), false)])), [Use(j, Pos(11, 51), true)] + ([Use(i, Pos(11, 55), false)]), [Use(i, Pos(11, 64), false)], Exprs([Call([Argument([Use(j, Pos(12, 38), false)] + ([Declare(k, Pos(12, 47), Initialized)] + ([Use(i, Pos(12, 55), false)])))])])), Ctx(4, [], []), Tree(tr.scopes + [Scope(ForInit, Some(4))] + [Scope(ForLoop, Some(5))] + [Scope(BlockBody, Some(6))], tr.events + [Declared(5, i, Pos(6, 18), Initialized, [])] + [Referenced(6, i, Pos(6, 25), false, false, [])] + [Referenced(7, j, Pos(8, 38), false, false, [0])] + [OutAssigned(7, [], [0])] + [Referenced(6, i, Pos(6, 32), true, false, [0])] + [Declared(6, j, Pos(6, 41), Initialized, [0])] + [Referenced(6, i, Pos(6, 45), false, false, [0])] + [Referenced(6, j, Pos(6, 54), false, false, [0])], 1)) == Tree(tr.scopes + [Scope(ForInit, Some(4))] + [Scope(ForLoop, Some(5))] + [Scope(BlockBody, Some(6))] + [Scope(ForInit, Some(4))] + [Scope(ForLoop, Some(8))] + [Scope(EmbeddedBody, Some(9))], tr.events + [Declared(5, i, Pos(6, 18), Initialized, [])] + [Referenced(6, i, Pos(6, 25), false, false, [])] + [Referenced(7, j, Pos(8, 38), false, false, [0])] + [OutAssigned(7, [], [0])] + [Referenced(6, i, Pos(6, 32), true, false, [0])] + [Declared(6, j, Pos(6, 41), Initialized, [0])] + [Referenced(6, i, Pos(6, 45), false, false, [0])] + [Referenced(6, j, Pos(6, 54), false, false, [0])] + [Declared(8, i, Pos(11, 18), Initialized, [])] + [Declared(8, j, Pos(11, 36), Initialized, [])] + [Referenced(8, j, Pos(11, 46), false, false, [])] + [Referenced(9, j, Pos(11, 51), true, false, [])] + [Referenced(9, i, Pos(11, 55), false, false, [])] + [Referenced(10, j, Pos(12, 38), false, false, [1])] + [Declared(10, k, Pos(12, 47), Initialized, [1])] + [Referenced(10, i, Pos(12, 55), false, false, [1])] + [OutAssigned(10, [], [1])] + [Referenced(9, i, Pos(11, 64), false, false, [1])], 2);
    WalkStmtsCons(Exprs([Use(j, Pos(14, 9), true)]), [Exprs([Use(k, Pos(15, 9), true)])] + (rest), Ctx(4, [], []), Tree(tr.scopes + [Scope(ForInit, Some(4))] + [Scope(ForLoop, Some(5))] + [Scope(BlockBody, Some(6))] + [Scope(ForInit, Some(4))] + [Scope(ForLoop, Some(8))] + [Scope(EmbeddedBody, Some(9))], tr.events + [Declared(5, i, Pos(6, 18), Initialized, [])] + [Referenced(6, i, Pos(6, 25), false, false, [])] + [Referenced(7, j, Pos(8, 38), false, false, [0])] + [OutAssigned(7, [], [0])] + [Referenced(6, i, Pos(6, 32), true, false, [0])] + [Declared(6, j, Pos(6, 41), Initialized, [0])] + [Referenced(6, i, Pos(6, 45), false, false, [0])] + [Referenced(6, j, Pos(6, 54), false, false, [0])] + [Declared(8, i, Pos(11, 18), Initialized, [])] + [Declared(8, j, Pos(11, 36), Initialized, [])] + [Referenced(8, j, Pos(11, 46), false, false, [])] + [Referenced(9, j, Pos(11, 51), true, false, [])] + [Referenced(9, i, Pos(11, 55), false, false, [])] + [Referenced(10, j, Pos(12, 38), false, false, [1])] + [Declared(10, k, Pos(12, 47), Initialized, [1])] + [Referenced(10, i, Pos(12, 55), false, false, [1])] + [OutAssigned(10, [], [1])] + [Referenced(9, i, Pos(11, 64), false, false, [1])], 2));
    Walk5(i, j, k, l, m, n, o, p, q, r, Tree(tr.scopes + [Scope(ForInit, Some(4))] + [Scope(ForLoop, Some(5))] + [Scope(BlockBody, Some(6))] + [Scope(ForInit, Some(4))] + [Scope(ForLoop, Some(8))] + [Scope(EmbeddedBody, Some(9))], tr.events + [Declared(5, i, Pos(6, 18), Initialized, [])] + [Referenced(6, i, Pos(6, 25), false, false, [])] + [Referenced(7, j, Pos(8, 38), false, false, [0])] + [OutAssigned(7, [], [0])] + [Referenced(6, i, Pos(6, 32), true, false, [0])] + [Declared(6, j, Pos(6, 41), Initialized, [0])] + [Referenced(6, i, Pos(6, 45), false, false, [0])] + [Referenced(6, j, Pos(6, 54), false, false, [0])] + [Declared(8, i, Pos(11, 18), Initialized, [])] + [Declared(8, j, Pos(11, 36), Initialized, [])] + [Referenced(8, j, Pos(11, 46), false, false, [])] + [Referenced(9, j, Pos(11, 51), true, false, [])] + [Referenced(9, i, Pos(11, 55), false, false, [])] + [Referenced(10, j, Pos(12, 38), false, false, [1])] + [Declared(10, k, Pos(12, 47), Initialized, [1])] + [Referenced(10, i, Pos(12, 55), false, false, [1])] + [OutAssigned(10, [], [1])] + [Referenced(9, i, Pos(11, 64), false, false, [1])], 2));
    assert WalkStmt(Exprs([Use(j, Pos(14, 9), true)]), Ctx(4, [], []), Tree(tr.scopes + [Scope(ForInit, Some(4))] + [Scope(ForLoop, Some(5))] + [Scope(BlockBody, Some(6))] + [Scope(ForInit, Some(4))] + [Scope(ForLoop, Some(8))] + [Scope(EmbeddedBody, Some(9))], tr.events + [Declared(5, i, Pos(6, 18), Initialized, [])] + [Referenced(6, i, Pos(6, 25), false, false, [])] + [Referenced(7, j, Pos(8, 38), false, false, [0])] + [OutAssigned(7, [], [0])] + [Referenced(6, i, Pos(6, 32), true, false, [0])] + [Declared(6, j, Pos(6, 41), Initialized, [0])] + [Referenced(6, i, Pos(6, 45), false, false, [0])] + [Referenced(6, j, Pos(6, 54), false, false, [0])] + [Declared(8, i, Pos(11, 18), Initialized, [])] + [Declared(8, j, Pos(11, 36), Initialized, [])] + [Referenced(8, j, Pos(11, 46), false, false, [])] + [Referenced(9, j, Pos(11, 51), true, false, [])] + [Referenced(9, i, Pos(11, 55), false, false, [])] + [Referenced(10, j, Pos(12, 38), false, false, [1])] + [Declared(10, k, Pos(12, 47), Initialized, [1])] + [Referenced(10, i, Pos(12, 55), false, false, [1])] + [OutAssigned(10, [], [1])] + [Referenced(9, i, Pos(11, 64), false, false, [1])], 2)) == Tree(tr.scopes + [Scope(ForInit, Some(4))] + [Scope(ForLoop, Some(5))] + [Scope(BlockBody, Some(6))] + [Scope(ForInit, Some(4))] + [Scope(ForLoop, Some(8))] + [Scope(EmbeddedBody, Some(9))], tr.events + [Declared(5, i, Pos(6, 18), Initialized, [])] + [Referenced(6, i, Pos(6, 25), false, false, [])] + [Referenced(7, j, Pos(8, 38), false, false, [0])] + [OutAssigned(7, [], [0])] + [Referenced(6, i, Pos(6, 32), true, false, [0])] + [Declared(6, j, Pos(6, 41), Initialized, [0])] + [Referenced(6, i, Pos(6, 45), false, false, [0])] + [Referenced(6, j, Pos(6, 54), false, false, [0])] + [Declared(8, i, Pos(11, 18), Initialized, [])] + [Declared(8, j, Pos(11, 36), Initialized, [])] + [Referenced(8, j, Pos(11, 46), false, false, [])] + [Referenced(9, j, Pos(11, 51), true, false, [])] + [Referenced(9, i, Pos(11, 55), false, false, [])] + [Referenced(10, j, Pos(12, 38), false, false, [1])] + [Declared(10, k, Pos(12, 47), Initialized, [1])] + [Referenced(10, i, Pos(12, 55), false, false, [1])] + [OutAssigned(10, [], [1])] + [Referenced(9, i, Pos(11, 64), false, false, [1])] + [Referenced(4, j, Pos(14, 9), true, false, [])], 2);
    WalkStmtsCons(Exprs([Use(k, Pos(15, 9), true)]), rest, Ctx(4, [], []), Tree(tr.scopes + [Scope(ForInit, Some(4))] + [Scope(ForLoop, Some(5))] + [Scope(BlockBody, Some(6))] + [Scope(ForInit, Some(4))] + [Scope(ForLoop, Some(8))] + [Scope(EmbeddedBody, Some(9))], tr.events + [Declared(5, i, Pos(6, 18), Initialized, [])] + [Referenced(6, i, Pos(6, 25), false, false, [])] + [Referenced(7, j, Pos(8, 38), false, false, [0])] + [OutAssigned(7, [], [0])] + [Referenced(6, i, Pos(6, 32), true, false, [0])] + [Declared(6, j, Pos(6, 41), Initialized, [0])] + [Referenced(6, i, Pos(6, 45), false, false, [0])] + [Referenced(6, j, Pos(6, 54), false, false, [0])] + [Declared(8, i, Pos(11, 18), Initialized, [])] + [Declared(8, j, Pos(11, 36), Initialized, [])] + [Referenced(8, j, Pos(11, 46), false, false, [])] + [Referenced(9, j, Pos(11, 51), true, false, [])] + [Referenced(9, i, Pos(11, 55), false, false, [])] + [Referenced(10, j, Pos(12, 38), false, false, [1])] + [Declared(10, k, Pos(12, 47), Initialized, [1])] + [Referenced(10, i, Pos(12, 55), false, false, [1])] + [OutAssigned(10, [], [1])] + [Referenced(9, i, Pos(11, 64), false, false, [1])] + [Referenced(4, j, Pos(14, 9), true, false, [])], 2));
    Walk6(i, j, k, l, m, n, o, p, q, r, Tree(tr.scopes + [Scope(ForInit, Some(4))] + [Scope(ForLoop, Some(5))] + [Scope(BlockBody, Some(6))] + [Scope(ForInit, Some(4))] + [Scope(ForLoop, Some(8))] + [Scope(EmbeddedBody, Some(9))], tr.events + [Declared(5, i, Pos(6, 18), Initialized, [])] + [Referenced(6, i, Pos(6, 25), false, false, [])] + [Referenced(7, j, Pos(8, 38), false, false, [0])] + [OutAssigned(7, [], [0])] + [Referenced(6, i, Pos(6, 32), true, false, [0])] + [Declared(6, j, Pos(6, 41), Initialized, [0])] + [Referenced(6, i, Pos(6, 45), false, false, [0])] + [Referenced(6, j, Pos(6, 54), false, false, [0])] + [Declared(8, i, Pos(11, 18), Initialized, [])] + [Declared(8, j, Pos(11, 36), Initialized, [])] + [Referenced(8, j, Pos(11, 46), false, false, [])] + [Referenced(9, j, Pos(11, 51), true, false, [])] + [Referenced(9, i, Pos(11, 55), false, false, [])] + [Referenced(10, j, Pos(12, 38), false, false, [1])] + [Declared(10, k, Pos(12, 47), Initialized, [1])] + [Referenced(10, i, Pos(12, 55), false, false, [1])] + [OutAssigned(10, [], [1])] + [Referenced(9, i, Pos(11, 64), false, false, [1])] + [Referenced(4, j, Pos(14, 9), true, false, [])], 2));
    assert WalkStmt(Exprs([Use(k, Pos(15, 9), true)]), Ctx(4, [], []), Tree(tr.scopes + [Scope(ForInit, Some(4))] + [Scope(ForLoop, Some(5))] + [Scope(BlockBody, Some(6))] + [Scope(ForInit, Some(4))] + [Scope(ForLoop, Some(8))] + [Scope(EmbeddedBody, Some(9))], tr.events + [Declared(5, i, Pos(6, 18), Initialized, [])] + [Referenced(6, i, Pos(6, 25), false, false, [])] + [Referenced(7, j, Pos(8, 38), false, false, [0])] + [OutAssigned(7, [], [0])] + [Referenced(6, i, Pos(6, 32), true, false, [0])] + [Declared(6, j, Pos(6, 41), Initialized, [0])] + [Referenced(6, i, Pos(6, 45), false, false, [0])] + [Referenced(6, j, Pos(6, 54), false, false, [0])] + [Declared(8, i, Pos(11, 18), Initialized, [])] + [Declared(8, j, Pos(11, 36), Initialized, [])] + [Referenced(8, j, Pos(11, 46), false, false, [])] + [Referenced(9, j, Pos(11, 51), true, false, [])] + [Referenced(9, i, Pos(11, 55), false, false, [])] + [Referenced(10, j, Pos(12, 38), false, false, [1])] + [Declared(10, k, Pos(12, 47), Initialized, [1])] + [Referenced(10, i, Pos(12, 55), false, false, [1])] + [OutAssigned(10, [], [1])] + [Referenced(9, i, Pos(11, 64), false, false, [1])] + [Referenced(4, j, Pos(14, 9), true, false, [])], 2)) == Tree(tr.scopes + [Scope(ForInit, Some(4))] + [Scope(ForLoop, Some(5))] + [Scope(BlockBody, Some(6))] + [Scope(ForInit, Some(4))] + [Scope(ForLoop, Some(8))] + [Scope(EmbeddedBody, Some(9))], tr.events + [Declared(5, i, Pos(6, 18), Initialized, [])] + [Referenced(6, i, Pos(6, 25), false, false, [])] + [Referenced(7, j, Pos(8, 38), false, false, [0])] + [OutAssigned(7, [], [0])] + [Referenced(6, i, Pos(6, 32), true, false, [0])] + [Declared(6, j, Pos(6, 41), Initialized, [0])] + [Referenced(6, i, Pos(6, 45), false, false, [0])] + [Referenced(6, j, Pos(6, 54), false, false, [0])] + [Declared(8, i, Pos(11, 18), Initialized, [])] + [Declared(8, j, Pos(11, 36), Initialized, [])] + [Referenced(8, j, Pos(11, 46), false, false, [])] + [Referenced(9, j, Pos(11, 51), true, false, [])] + [Referenced(9, i, Pos(11, 55), false, false, [])] + [Referenced(10, j, Pos(12, 38), false, false, [1])] + [Declared(10, k, Pos(12, 47), Initialized, [1])] + [Referenced(10, i, Pos(12, 55), false, false, [1])] + [OutAssigned(10, [], [1])] + [Referenced(9, i, Pos(11, 64), false, false, [1])] + [Referenced(4, j, Pos(14, 9), true, false, [])] + [Referenced(4, k, Pos(15, 9), true, false, [])], 2);
  }

  lemma {:induction false} Walk8(i: string, j: string, k: string, l: string, m: string, n: string, o: string, p: string, q: string, r: string, tr: Tree)
    requires |tr.scopes| == 11 && tr.arms == 2
    ensures WalkStmt(For([Declare(i, Pos(17, 18), Initialized)] + ([Use(l, Pos(17, 22), false)]), [Use(i, Pos(17, 25), false)] + ([Declare(l, Pos(17, 34), Initialized)]), [Use(i, Pos(17, 43), false)], Block([])), Ctx(4, [], []), tr) == Tree(tr.scopes + [Scope(ForInit, Some(4))] + [Scope(ForLoop, Some(11))] + [Scope(BlockBody, Some(12))], tr.events + [Declared(11, i, Pos(17, 18), Initialized, [])] + [Referenced(11, l, Pos(17, 22), false, false, [])] + [Referenced(12, i, Pos(17, 25), false, false, [])] + [Declared(12, l, Pos(17, 34), Initialized, [])] + [Referenced(12, i, Pos(17, 43), false, false, [2])], 3)
  {
    WalkExprsCons(Declare(i, Pos(17, 18), Initialized), [Use(l, Pos(17, 22), false)], Ctx(11, [], []), Tree(tr.scopes + [Scope(ForInit, Some(4))] + [Scope(ForLoop, Some(11))], tr.events, 2));
    assert WalkExpr(Declare(i, Pos(17, 18), Initialized), Ctx(11, [], []), Tree(tr.scopes + [Scope(ForInit, Some(4))] + [Scope(ForLoop, Some(11))], tr.events, 2)) == Tree(tr.scopes + [Scope(ForInit, Some(4))] + [Scope(ForLoop, Some(11))], tr.events + [Declared(11, i, Pos(17, 18), Initialized, [])], 2);
    WalkExprsOne(Use(l, Pos(17, 22), false), Ctx(11, [], []), Tree(tr.scopes + [Scope(ForInit, Some(4))] + [Scope(ForLoop, Some(11))], tr.events + [Declared(11, i, Pos(17, 18), Initialized, [])], 2));
    assert WalkExpr(Use(l, Pos(17, 22), false), Ctx(11, [], []), Tree(tr.scopes + [Scope(ForInit, Some(4))] + [Scope(ForLoop, Some(11))], tr.events + [Declared(11, i, Pos(17, 18), Initialized, [])], 2)) == Tree(tr.scopes + [Scope(ForInit, Some(4))] + [Scope(ForLoop, Some(11))], tr.events + [Declared(11, i, Pos(17, 18), Initialized, [])] + [Referenced(11, l, Pos(17, 22), false, false, [])], 2);
    assert WalkExprs([Declare(i, Pos(17, 18), Initialized)] + ([Use(l, Pos(17, 22), false)]), Ctx(11, [], []), Tree(tr.scopes + [Scope(ForInit, Some(4))] + [Scope(ForLoop, Some(11))], tr.events, 2)) == Tree(tr.scopes + [Scope(ForInit, Some(4))] + [Scope(ForLoop, Some(11))], tr.events + [Declared(11, i, Pos(17, 18), Initialized, [])] + [Referenced(11, l, Pos(17, 22), false, false, [])], 2);
    WalkExprsCons(Use(i, Pos(17, 25), false), [Declare(l, Pos(17, 34), Initialized)], Ctx(12, [], []), Tree(tr.scopes + [Scope(ForInit, Some(4))] + [Scope(ForLoop, Some(11))], tr.events + [Declared(11, i, Pos(17, 18), Initialized, [])] + [Referenced(11, l, Pos(17, 22), false, false, [])], 2));
    assert WalkExpr(Use(i, Pos(17, 25), false), Ctx(12, [], []), Tree(tr.scopes + [Scope(ForInit, Some(4))] + [Scope(ForLoop, Some(11))], tr.events + [Declared(11, i, Pos(17, 18), Initialized, [])] + [Referenced(11, l, Pos(17, 22), false, false, [])], 2)) == Tree(tr.scopes + [Scope(ForInit, Some(4))] + [Scope(ForLoop, Some(11))], tr.events + [Declared(11, i, Pos(17, 18), Initialized, [])] + [Referenced(11, l, Pos(17, 22), false, false, [])] + [Referenced(12, i, Pos(17, 25), false, false, [])], 2);
    WalkExprsOne(Declare(l, Pos(17, 34), Initialized), Ctx(12, [], []), Tree(tr.scopes + [Scope(ForInit, Some(4))] + [Scope(ForLoop, Some(11))], tr.events + [Declared(11, i, Pos(17, 18), Initialized, [])] + [Referenced(11, l, Pos(17, 22), false, false, [])] + [Referenced(12, i, Pos(17, 25), false, false, [])], 2));
    assert WalkExpr(Declare(l, Pos(17, 34), Initialized), Ctx(12, [], []), Tree(tr.scopes + [Scope(ForInit, Some(4))] + [Scope(ForLoop, Some(11))], tr.events + [Declared(11, i, Pos(17, 18), Initialized, [])] + [Referenced(11, l, Pos(17, 22), false, false, [])] + [Referenced(12, i, Pos(17, 25), false, false, [])], 2)) == Tree(tr.scopes + [Scope(ForInit, Some(4))] + [Scope(ForLoop, Some(11))], tr.events + [Declared(11, i, Pos(17, 18), Initialized, [])] + [Referenced(11, l, Pos(17, 22), false, false, [])] + [Referenced(12, i, Pos(17, 25), false, false, [])] + [Declared(12, l, Pos(17, 34), Initialized, [])], 2);
    assert WalkExprs([Use(i, Pos(17, 25), false)] + ([Declare(l, Pos(17, 34), Initialized)]), Ctx(12, [], []), Tree(tr.scopes + [Scope(ForInit, Some(4))] + [Scope(ForLoop, Some(11))], tr.events + [Declared(11, i, Pos(17, 18), Initialized, [])] + [Referenced(11, l, Pos(17, 22), false, false, [])], 2)) == Tree(tr.scopes + [Scope(ForInit, Some(4))] + [Scope(ForLoop, Some(11))], tr.events + [Declared(11, i, Pos(17, 18), Initialized, [])] + [Referenced(11, l, Pos(17, 22), false, false, [])] + [Referenced(12, i, Pos(17, 25), false, false, [])] + [Declared(12, l, Pos(17, 34), Initialized, [])], 2);
    assert [] + [2] == [2];
    assert WalkEmbedded(Block([]), Ctx(12, [2], []), Tree(tr.scopes + [Scope(ForInit, Some(4))] + [Scope(ForLoop, Some(11))], tr.events + [Declared(11, i, Pos(17, 18), Initialized, [])] + [Referenced(11, l, Pos(17, 22), false, false, [])] + [Referenced(12, i, Pos(17, 25), false, false, [])] + [Declared(12, l, Pos(17, 34), Initialized, [])], 3)) == Tree(tr.scopes + [Scope(ForInit, Some(4))] + [Scope(ForLoop, Some(11))] + [Scope(BlockBody, Some(12))], tr.events + [Declared(11, i, Pos(17, 18), Initialized, [])] + [Referenced(11, l, Pos(17, 22), false, false, [])] + [Referenced(12, i, Pos(17, 25), false, false, [])] + [Declared(12, l, Pos(17, 34), Initialized, [])], 3);
    WalkExprsOne(Use(i, Pos(17, 43), false), Ctx(12, [2], []), Tree(tr.scopes + [Scope(ForInit, Some(4))] + [Scope(ForLoop, Some(11))] + [Scope(BlockBody, Some(12))], tr.events + [Declared(11, i, Pos(17, 18), Initialized, [])] + [Referenced(11, l, Pos(17, 22), false, false, [])] + [Referenced(12, i, Pos(17, 25), false, false, [])] + [Declared(12, l, Pos(17, 34), Initialized, [])], 3));
    assert WalkExpr(Use(i, Pos(17, 43), false), Ctx(12, [2], []), Tree(tr.scopes + [Scope(ForInit, Some(4))] + [Scope(ForLoop, Some(11))] + [Scope(BlockBody, Some(12))], tr.events + [Declared(11, i, Pos(17, 18), Initialized, [])] + [Referenced(11, l, Pos(17, 22), false, false, [])] + [Referenced(12, i, Pos(17, 25), false, false, [])] + [Declared(12, l, Pos(17, 34), Initialized, [])], 3)) == Tree(tr.scopes + [Scope(ForInit, Some(4))] + [Scope(ForLoop, Some(11))] + [Scope(BlockBody, Some(12))], tr.events + [Declared(11, i, Pos(17, 18), Initialized, [])] + [Referenced(11, l, Pos(17, 22), false, false, [])] + [Referenced(12, i, Pos(17, 25), false, false, [])] + [Declared(12, l, Pos(17, 34), Initialized, [])] + [Referenced(12, i, Pos(17, 43), false, false, [2])], 3);
    assert WalkExprs([Use(i, Pos(17, 43), false)], Ctx(12, [2], []), Tree(tr.scopes + [Scope(ForInit, Some(4))] + [Scope(ForLoop, Some(11))] + [Scope(BlockBody, Some(12))], tr.events + [Declared(11, i, Pos(17, 18), Initialized, [])] + [Referenced(11, l, Pos(17, 22), false, false, [])] + [Referenced(12, i, Pos(17, 25), false, false, [])] + [Declared(12, l, Pos(17, 34), Initialized, [])], 3)) == Tree(tr.scopes + [Scope(ForInit, Some(4))] + [Scope(ForLoop, Some(11))] + [Scope(BlockBody, Some(12))], tr.events + [Declared(11, i, Pos(17, 18), Initialized, [])] + [Referenced(11, l, Pos(17, 22), false, false, [])] + [Referenced(12, i, Pos(17, 25), false, false, [])] + [Declared(12, l, Pos(17, 34), Initialized, [])] + [Referenced(12, i, Pos(17, 43), false, false, [2])], 3);
    assert WalkStmt(For([Declare(i, Pos(17, 18), Initialized)] + ([Use(l, Pos(17, 22), false)]), [Use(i, Pos(17, 25), false)] + ([Declare(l, Pos(17, 34), Initialized)]), [Use(i, Pos(17, 43), false)], Block([])), Ctx(4, [], []), tr) == Tree(tr.scopes + [Scope(ForInit, Some(4))] + [Scope(ForLoop, Some(11))] + [Scope(BlockBody, Some(12))], tr.events + [Declared(11, i, Pos(17, 18), Initialized, [])] + [Referenced(11, l, Pos(17, 22), false, false, [])] + [Referenced(12, i, Pos(17, 25), false, false, [])] + [Declared(12, l, Pos(17, 34), Initialized, [])] + [Referenced(12, i, Pos(17, 43), false, false, [2])], 3);
  }

  lemma {:induction false} Walk9(i: string, j: string, k: string, l: string, m: string, n: string, o: string, p: string, q: string, r: string, tr: Tree)
    requires |tr.scopes| == 14 && tr.arms == 3
    ensures WalkStmt(For([Declare(i, Pos(19, 18), Initialized)], [Use(i, Pos(19, 25), false)] + ([Use(m, Pos(19, 29), false)]), [Use(i, Pos(19, 32), true)] + ([Declare(m, Pos(19, 41), Initialized)] + ([Use(m, Pos(19, 51), false)])), Block([])), Ctx(4, [], []), tr) == Tree(tr.scopes + [Scope(ForInit, Some(4))] + [Scope(ForLoop, Some(14))] + [Scope(BlockBody, Some(15))], tr.events + [Declared(14, i, Pos(19, 18), Initialized, [])] + [Referenced(15, i, Pos(19, 25), false, false, [])] + [Referenced(15, m, Pos(19, 29), false, false, [])] + [Referenced(15, i, Pos(19, 32), true, false, [3])] + [Declared(15, m, Pos(19, 41), Initialized, [3])] + [Referenced(15, m, Pos(19, 51), false, false, [3])], 4)
  {
    WalkExprsOne(Declare(i, Pos(19, 18), Initialized), Ctx(14, [], []), Tree(tr.scopes + [Scope(ForInit, Some(4))] + [Scope(ForLoop, Some(14))], tr.events, 3));
    assert WalkExpr(Declare(i, Pos(19, 18), Initialized), Ctx(14, [], []), Tree(tr.scopes + [Scope(ForInit, Some(4))] + [Scope(ForLoop, Some(14))], tr.events, 3)) == Tree(tr.scopes + [Scope(ForInit, Some(4))] + [Scope(ForLoop, Some(14))], tr.events + [Declared(14, i, Pos(19, 18), Initialized, [])], 3);
    assert WalkExprs([Declare(i, Pos(19, 18), Initialized)], Ctx(14, [], []), Tree(tr.scopes + [Scope(ForInit, Some(4))] + [Scope(ForLoop, Some(14))], tr.events, 3)) == Tree(tr.scopes + [Scope(ForInit, Some(4))] + [Scope(ForLoop, Some(14))], tr.events + [Declared(14, i, Pos(19, 18), Initialized, [])], 3);
    WalkExprsCons(Use(i, Pos(19, 25), false), [Use(m, Pos(19, 29), false)], Ctx(15, [], []), Tree(tr.scopes + [Scope(ForInit, Some(4))] + [Scope(ForLoop, Some(14))], tr.events + [Declared(14, i, Pos(19, 18), Initialized, [])], 3));
    assert WalkExpr(Use(i, Pos(19, 25), false), Ctx(15, [], []), Tree(tr.scopes + [Scope(ForInit, Some(4))] + [Scope(ForLoop, Some(14))], tr.events + [Declared(14, i, Pos(19, 18), Initialized, [])], 3)) == Tree(tr.scopes + [Scope(ForInit, Some(4))] + [Scope(ForLoop, Some(14))], tr.events + [Declared(14, i, Pos(19, 18), Initialized, [])] + [Referenced(15, i, Pos(19, 25), false, false, [])], 3);
    WalkExprsOne(Use(m, Pos(19, 29), false), Ctx(15, [], []), Tree(tr.scopes + [Scope(ForInit, Some(4))] + [Scope(ForLoop, Some(14))], tr.events + [Declared(14, i, Pos(19, 18), Initialized, [])] + [Referenced(15, i, Pos(19, 25), false, false, [])], 3));
    assert WalkExpr(Use(m, Pos(19, 29), false), Ctx(15, [], []), Tree(tr.scopes + [Scope(ForInit, Some(4))] + [Scope(ForLoop, Some(14))], tr.events + [Declared(14, i, Pos(19, 18), Initialized, [])] + [Referenced(15, i, Pos(19, 25), false, false, [])], 3)) == Tree(tr.scopes + [Scope(ForInit, Some(4))] + [Scope(ForLoop, Some(14))], tr.events + [Declared(14, i, Pos(19, 18), Initialized, [])] + [Referenced(15, i, Pos(19, 25), false, false, [])] + [Referenced(15, m, Pos(19, 29), false, false, [])], 3);
    assert WalkExprs([Use(i, Pos(19, 25), false)] + ([Use(m, Pos(19, 29), false)]), Ctx(15, [], []), Tree(tr.scopes + [Scope(ForInit, Some(4))] + [Scope(ForLoop, Some(14))], tr.events + [Declared(14, i, Pos(19, 18), Initialized, [])], 3)) == Tree(tr.scopes + [Scope(ForInit, Some(4))] + [Scope(ForLoop, Some(14))], tr.events + [Declared(14, i, Pos(19, 18), Initialized, [])] + [Referenced(15, i, Pos(19, 25), false, false, [])] + [Referenced(15, m, Pos(19, 29), false, false, [])], 3);
    assert [] + [3] == [3];
    assert WalkEmbedded(Block([]), Ctx(15, [3], []), Tree(tr.scopes + [Scope(ForInit, Some(4))] + [Scope(ForLoop, Some(14))], tr.events + [Declared(14, i, Pos(19, 18), Initialized, [])] + [Referenced(15, i, Pos(19, 25), false, false, [])] + [Referenced(15, m, Pos(19, 29), false, false, [])], 4)) == Tree(tr.scopes + [Scope(ForInit, Some(4))] + [Scope(ForLoop, Some(14))] + [Scope(BlockBody, Some(15))], tr.events + [Declared(14, i, Pos(19, 18), Initialized, [])] + [Referenced(15, i, Pos(19, 25), false, false, [])] + [Referenced(15, m, Pos(19, 29), false, false, [])], 4);
    WalkExprsCons(Use(i, Pos(19, 32), true), [Declare(m, Pos(19, 41), Initialized)] + ([Use(m, Pos(19, 51), false)]), Ctx(15, [3], []), Tree(tr.scopes + [Scope(ForInit, Some(4))] + [Scope(ForLoop, Some(14))] + [Scope(BlockBody, Some(15))], tr.events + [Declared(14, i, Pos(19, 18), Initialized, [])] + [Referenced(15, i, Pos(19, 25), false, false, [])] + [Referenced(15, m, Pos(19, 29), false, false, [])], 4));
    assert WalkExpr(Use(i, Pos(19, 32), true), Ctx(15, [3], []), Tree(tr.scopes + [Scope(ForInit, Some(4))] + [Scope(ForLoop, Some(14))] + [Scope(BlockBody, Some(15))], tr.events + [Declared(14, i, Pos(19, 18), Initialized, [])] + [Referenced(15, i, Pos(19, 25), false, false, [])] + [Referenced(15, m, Pos(19, 29), false, false, [])], 4)) == Tree(tr.scopes + [Scope(ForInit, Some(4))] + [Scope(ForLoop, Some(14))] + [Scope(BlockBody, Some(15))], tr.events + [Declared(14, i, Pos(19, 18), Initialized, [])] + [Referenced(15, i, Pos(19, 25), false, false, [])] + [Referenced(15, m, Pos(19, 29), false, false, [])] + [Referenced(15, i, Pos(19, 32), true, false, [3])], 4);
    WalkExprsCons(Declare(m, Pos(19, 41), Initialized), [Use(m, Pos(19, 51), false)], Ctx(15, [3], []), Tree(tr.scopes + [Scope(ForInit, Some(4))] + [Scope(ForLoop, Some(14))] + [Scope(BlockBody, Some(15))], tr.events + [Declared(14, i, Pos(19, 18), Initialized, [])] + [Referenced(15, i, Pos(19, 25), false, false, [])] + [Referenced(15, m, Pos(19, 29), false, false, [])] + [Referenced(15, i, Pos(19, 32), true, false, [3])], 4));
    assert WalkExpr(Declare(m, Pos(19, 41), Initialized), Ctx(15, [3], []), Tree(tr.scopes + [Scope(ForInit, Some(4))] + [Scope(ForLoop, Some(14))] + [Scope(BlockBody, Some(15))], tr.events + [Declared(14, i, Pos(19, 18), Initialized, [])] + [Referenced(15, i, Pos(19, 25), false, false, [])] + [Referenced(15, m, Pos(19, 29), false, false, [])] + [Referenced(15, i, Pos(19, 32), true, false, [3])], 4)) == Tree(tr.scopes + [Scope(ForInit, Some(4))] + [Scope(ForLoop, Some(14))] + [Scope(BlockBody, Some(15))], tr.events + [Declared(14, i, Pos(19, 18), Initialized, [])] + [Referenced(15, i, Pos(19, 25), false, false, [])] + [Referenced(15, m, Pos(19, 29), false, false, [])] + [Referenced(15, i, Pos(19, 32), true, false, [3])] + [Declared(15, m, Pos(19, 41), Initialized, [3])], 4);
    WalkExprsOne(Use(m, Pos(19, 51), false), Ctx(15, [3], []), Tree(tr.scopes + [Scope(ForInit, Some(4))] + [Scope(ForLoop, Some(14))] + [Scope(BlockBody, Some(15))], tr.events + [Declared(14, i, Pos(19, 18), Initialized, [])] + [Referenced(15, i, Pos(19, 25), false, false, [])] + [Referenced(15, m, Pos(19, 29), false, false, [])] + [Referenced(15, i, Pos(19, 32), true, false, [3])] + [Declared(15, m, Pos(19, 41), Initialized, [3])], 4));
    assert WalkExpr(Use(m, Pos(19, 51), false), Ctx(15, [3], []), Tree(tr.scopes + [Scope(ForInit, Some(4))] + [Scope(ForLoop, Some(14))] + [Scope(BlockBody, Some(15))], tr.events + [Declared(14, i, Pos(19, 18), Initialized, [])] + [Referenced(15, i, Pos(19, 25), false, false, [])] + [Referenced(15, m, Pos(19, 29), false, false, [])] + [Referenced(15, i, Pos(19, 32), true, false, [3])] + [Declared(15, m, Pos(19, 41), Initialized, [3])], 4)) == Tree(tr.scopes + [Scope(ForInit, Some(4))] + [Scope(ForLoop, Some(14))] + [Scope(BlockBody, Some(15))], tr.events + [Declared(14, i, Pos(19, 18), Initialized, [])] + [Referenced(15, i, Pos(19, 25), false, false, [])] + [Referenced(15, m, Pos(19, 29), false, false, [])] + [Referenced(15, i, Pos(19, 32), true, false, [3])] + [Declared(15, m, Pos(19, 41), Initialized, [3])] + [Referenced(15, m, Pos(19, 51), false, false, [3])], 4);
    assert WalkExprs([Use(i, Pos(19, 32), true)] + ([Declare(m, Pos(19, 41), Initialized)] + ([Use(m, Pos(19, 51), false)])), Ctx(15, [3], []), Tree(tr.scopes + [Scope(ForInit, Some(4))] + [Scope(ForLoop, Some(14))] + [Scope(BlockBody, Some(15))], tr.events + [Declared(14, i, Pos(19, 18), Initialized, [])] + [Referenced(15, i, Pos(19, 25), false, false, [])] + [Referenced(15, m, Pos(19, 29), false, false, [])], 4)) == Tree(tr.scopes + [Scope(ForInit, Some(4))] + [Scope(ForLoop, Some(14))] + [Scope(BlockBody, Some(15))], tr.events + [Declared(14, i, Pos(19, 18), Initialized, [])] + [Referenced(15, i, Pos(19, 25), false, false, [])] + [Referenced(15, m, Pos(19, 29), false, false, [])] + [Referenced(15, i, Pos(19, 32), true, false, [3])] + [Declared(15, m, Pos(19, 41), Initialized, [3])] + [Referenced(15, m, Pos(19, 51), false, false, [3])], 4);
    assert WalkStmt(For([Declare(i, Pos(19, 18), Initialized)], [Use(i, Pos(19, 25), false)] + ([Use(m, Pos(19, 29), false)]), [Use(i, Pos(19, 32), true)] + ([Declare(m, Pos(19, 41), Initialized)] + ([Use(m, Pos(19, 51), false)])), Block([])), Ctx(4, [], []), tr) == Tree(tr.scopes + [Scope(ForInit, Some(4))] + [Scope(ForLoop, Some(14))] + [Scope(BlockBody, Some(15))], tr.events + [Declared(14, i, Pos(19, 18), Initialized, [])] + [Referenced(15, i, Pos(19, 25), false, false, [])] + [Referenced(15, m, Pos(19, 29), false, false, [])] + [Referenced(15, i, Pos(19, 32), true, false, [3])] + [Declared(15, m, Pos(19, 41), Initialized, [3])] + [Referenced(15, m, Pos(19, 51), false, false, [3])], 4);
  }

  lemma {:induction false} Walk10(i: string, j: string, k: string, l: string, m: string, n: string, o: string, p: string, q: string, r: string, tr: Tree)
    requires |tr.scopes| == 17 && tr.arms == 4
    ensures WalkStmt(For([Declare(i, Pos(21, 18), Initialized)] + ([Use(n, Pos(21, 22), false)]), [Use(i, Pos(21, 25), false)], [Use(i, Pos(21, 32), false)], Exprs([Call([Argument([Declare(n, Pos(22, 43), Initialized)] + ([Use(n, Pos(22, 52), false)]))])])), Ctx(4, [], []), tr) == Tree(tr.scopes + [Scope(ForInit, Some(4))] + [Scope(ForLoop, Some(17))] + [Scope(EmbeddedBody, Some(18))], tr.events + [Declared(17, i, Pos(21, 18), Initialized, [])] + [Referenced(17, n, Pos(21, 22), false, false, [])] + [Referenced(18, i, Pos(21, 25), false, false, [])] + [Declared(19, n, Pos(22, 43), Initialized, [4])] + [Referenced(19, n, Pos(22, 52), false, false, [4])] + [OutAssigned(19, [], [4])] + [Referenced(18, i, Pos(21, 32), false, false, [4])], 5)
  {
    WalkExprsCons(Declare(i, Pos(21, 18), Initialized), [Use(n, Pos(21, 22), false)], Ctx(17, [], []), Tree(tr.scopes + [Scope(ForInit, Some(4))] + [Scope(ForLoop, Some(17))], tr.events, 4));
    assert WalkExpr(Declare(i, Pos(21, 18), Initialized), Ctx(17, [], []), Tree(tr.scopes + [Scope(ForInit, Some(4))] + [Scope(ForLoop, Some(17))], tr.events, 4)) == Tree(tr.scopes + [Scope(ForInit, Some(4))] + [Scope(ForLoop, Some(17))], tr.events + [Declared(17, i, Pos(21, 18), Initialized, [])], 4);
    WalkExprsOne(Use(n, Pos(21, 22), false), Ctx(17, [], []), Tree(tr.scopes + [Scope(ForInit, Some(4))] + [Scope(ForLoop, Some(17))], tr.events + [Declared(17, i, Pos(21, 18), Initialized, [])], 4));
    assert WalkExpr(Use(n, Pos(21, 22), false), Ctx(17, [], []), Tree(tr.scopes + [Scope(ForInit, Some(4))] + [Scope(ForLoop, Some(17))], tr.events + [Declared(17, i, Pos(21, 18), Initialized, [])], 4)) == Tree(tr.scopes + [Scope(ForInit, Some(4))] + [Scope(ForLoop, Some(17))], tr.events + [Declared(17, i, Pos(21, 18), Initialized, [])] + [Referenced(17, n, Pos(21, 22), false, false, [])], 4);
    assert WalkExprs([Declare(i, Pos(21, 18), Initialized)] + ([Use(n, Pos(21, 22), false)]), Ctx(17, [], []), Tree(tr.scopes + [Scope(ForInit, Some(4))] + [Scope(ForLoop, Some(17))], tr.events, 4)) == Tree(tr.scopes + [Scope(ForInit, Some(4))] + [Scope(ForLoop, Some(17))], tr.events + [Declared(17, i, Pos(21, 18), Initialized, [])] + [Referenced(17, n, Pos(21, 22), false, false, [])], 4);
    WalkExprsOne(Use(i, Pos(21, 25), false), Ctx(18, [], []), Tree(tr.scopes + [Scope(ForInit, Some(4))] + [Scope(ForLoop, Some(17))], tr.events + [Declared(17, i, Pos(21, 18), Initialized, [])] + [Referenced(17, n, Pos(21, 22), false, false, [])], 4));
    assert WalkExpr(Use(i, Pos(21, 25), false), Ctx(18, [], []), Tree(tr.scopes + [Scope(ForInit, Some(4))] + [Scope(ForLoop, Some(17))], tr.events + [Declared(17, i, Pos(21, 18), Initialized, [])] + [Referenced(17, n, Pos(21, 22), false, false, [])], 4)) == Tree(tr.scopes + [Scope(ForInit, Some(4))] + [Scope(ForLoop, Some(17))], tr.events + [Declared(17, i, Pos(21, 18), Initialized, [])] + [Referenced(17, n, Pos(21, 22), false, false, [])] + [Referenced(18, i, Pos(21, 25), false, false, [])], 4);
    assert WalkExprs([Use(i, Pos(21, 25), false)], Ctx(18, [], []), Tree(tr.scopes + [Scope(ForInit, Some(4))] + [Scope(ForLoop, Some(17))], tr.events + [Declared(17, i, Pos(21, 18), Initialized, [])] + [Referenced(17, n, Pos(21, 22), false, false, [])], 4)) == Tree(tr.scopes + [Scope(ForInit, Some(4))] + [Scope(ForLoop, Some(17))], tr.events + [Declared(17, i, Pos(21, 18), Initialized, [])] + [Referenced(17, n, Pos(21, 22), false, false, [])] + [Referenced(18, i, Pos(21, 25), false, false, [])], 4);
    assert [] + [4] == [4];
    WalkExprsOne(Call([Argument([Declare(n, Pos(22, 43), Initialized)] + ([Use(n, Pos(22, 52), false)]))]), Ctx(19, [4], []), Tree(tr.scopes + [Scope(ForInit, Some(4))] + [Scope(ForLoop, Some(17))] + [Scope(EmbeddedBody, Some(18))], tr.events + [Declared(17, i, Pos(21, 18), Initialized, [])] + [Referenced(17, n, Pos(21, 22), false, false, [])] + [Referenced(18, i, Pos(21, 25), false, false, [])], 5));
    assert OutNames([]) == [];
    WalkArgsOne(Argument([Declare(n, Pos(22, 43), Initialized)] + ([Use(n, Pos(22, 52), false)])), [], Ctx(19, [4], []), Tree(tr.scopes + [Scope(ForInit, Some(4))] + [Scope(ForLoop, Some(17))] + [Scope(EmbeddedBody, Some(18))], tr.events + [Declared(17, i, Pos(21, 18), Initialized, [])] + [Referenced(17, n, Pos(21, 22), false, false, [])] + [Referenced(18, i, Pos(21, 25), false, false, [])], 5));
    WalkExprsCons(Declare(n, Pos(22, 43), Initialized), [Use(n, Pos(22, 52), false)], Ctx(19, [4], []), Tree(tr.scopes + [Scope(ForInit, Some(4))] + [Scope(ForLoop, Some(17))] + [Scope(EmbeddedBody, Some(18))], tr.events + [Declared(17, i, Pos(21, 18), Initialized, [])] + [Referenced(17, n, Pos(21, 22), false, false, [])] + [Referenced(18, i, Pos(21, 25), false, false, [])], 5));
    assert WalkExpr(Declare(n, Pos(22, 43), Initialized), Ctx(19, [4], []), Tree(tr.scopes + [Scope(ForInit, Some(4))] + [Scope(ForLoop, Some(17))] + [Scope(EmbeddedBody, Some(18))], tr.events + [Declared(17, i, Pos(21, 18), Initialized, [])] + [Referenced(17, n, Pos(21, 22), false, false, [])] + [Referenced(18, i, Pos(21, 25), false, false, [])], 5)) == Tree(tr.scopes + [Scope(ForInit, Some(4))] + [Scope(ForLoop, Some(17))] + [Scope(EmbeddedBody, Some(18))], tr.events + [Declared(17, i, Pos(21, 18), Initialized, [])] + [Referenced(17, n, Pos(21, 22), false, false, [])] + [Referenced(18, i, Pos(21, 25), false, false, [])] + [Declared(19, n, Pos(22, 43), Initialized, [4])], 5);
    WalkExprsOne(Use(n, Pos(22, 52), false), Ctx(19, [4], []), Tree(tr.scopes + [Scope(ForInit, Some(4))] + [Scope(ForLoop, Some(17))] + [Scope(EmbeddedBody, Some(18))], tr.events + [Declared(17, i, Pos(21, 18), Initialized, [])] + [Referenced(17, n, Pos(21, 22), false, false, [])] + [Referenced(18, i, Pos(21, 25), false, false, [])] + [Declared(19, n, Pos(22, 43), Initialized, [4])], 5));
    assert WalkExpr(Use(n, Pos(22, 52), false), Ctx(19, [4], []), Tree(tr.scopes + [Scope(ForInit, Some(4))] + [Scope(ForLoop, Some(17))] + [Scope(EmbeddedBody, Some(18))], tr.events + [Declared(17, i, Pos(21, 18), Initialized, [])] + [Referenced(17, n, Pos(21, 22), false, false, [])] + [Referenced(18, i, Pos(21, 25), false, false, [])] + [Declared(19, n, Pos(22, 43), Initialized, [4])], 5)) == Tree(tr.scopes + [Scope(ForInit, Some(4))] + [Scope(ForLoop, Some(17))] + [Scope(EmbeddedBody, Some(18))], tr.events + [Declared(17, i, Pos(21, 18), Initialized, [])] + [Referenced(17, n, Pos(21, 22), false, false, [])] + [Referenced(18, i, Pos(21, 25), false, false, [])] + [Declared(19, n, Pos(22, 43), Initialized, [4])] + [Referenced(19, n, Pos(22, 52), false, false, [4])], 5);
    assert WalkExprs([Declare(n, Pos(22, 43), Initialized)] + ([Use(n, Pos(22, 52), false)]), Ctx(19, [4], []), Tree(tr.scopes + [Scope(ForInit, Some(4))] + [Scope(ForLoop, Some(17))] + [Scope(EmbeddedBody, Some(18))], tr.events + [Declared(17, i, Pos(21, 18), Initialized, [])] + [Referenced(17, n, Pos(21, 22), false, false, [])] + [Referenced(18, i, Pos(21, 25), false, false, [])], 5)) == Tree(tr.scopes + [Scope(ForInit, Some(4))] + [Scope(ForLoop, Some(17))] + [Scope(EmbeddedBody, Some(18))], tr.events + [Declared(17, i, Pos(21, 18), Initialized, [])] + [Referenced(17, n, Pos(21, 22), false, false, [])] + [Referenced(18, i, Pos(21, 25), false, false, [])] + [Declared(19, n, Pos(22, 43), Initialized, [4])] + [Referenced(19, n, Pos(22, 52), false, false, [4])], 5);
    OutNamesOfCons(Declare(n, Pos(22, 43), Initialized), [Use(n, Pos(22, 52), false)]);
    OutNamesOfOne(Use(n, Pos(22, 52), false));
    OutNamesSnoc([], Argument([Declare(n, Pos(22, 43), Initialized)] + ([Use(n, Pos(22, 52), false)])));
    assert WalkArgs([Argument([Declare(n, Pos(22, 43), Initialized)] + ([Use(n, Pos(22, 52), false)]))], [], Ctx(19, [4], []), Tree(tr.scopes + [Scope(ForInit, Some(4))] + [Scope(ForLoop, Some(17))] + [Scope(EmbeddedBody, Some(18))], tr.events + [Declared(17, i, Pos(21, 18), Initialized, [])] + [Referenced(17, n, Pos(21, 22), false, false, [])] + [Referenced(18, i, Pos(21, 25), false, false, [])], 5)) == Tree(tr.scopes + [Scope(ForInit, Some(4))] + [Scope(ForLoop, Some(17))] + [Scope(EmbeddedBody, Some(18))], tr.events + [Declared(17, i, Pos(21, 18), Initialized, [])] + [Referenced(17, n, Pos(21, 22), false, false, [])] + [Referenced(18, i, Pos(21, 25), false, false, [])] + [Declared(19, n, Pos(22, 43), Initialized, [4])] + [Referenced(19, n, Pos(22, 52), false, false, [4])], 5);
    assert OutNames([Argument([Declare(n, Pos(22, 43), Initialized)] + ([Use(n, Pos(22, 52), false)]))]) == [];
    assert WalkExpr(Call([Argument([Declare(n, Pos(22, 43), Initialized)] + ([Use(n, Pos(22, 52), false)]))]), Ctx(19, [4], []), Tree(tr.scopes + [Scope(ForInit, Some(4))] + [Scope(ForLoop, Some(17))] + [Scope(EmbeddedBody, Some(18))], tr.events + [Declared(17, i, Pos(21, 18), Initialized, [])] + [Referenced(17, n, Pos(21, 22), false, false, [])] + [Referenced(18, i, Pos(21, 25), false, false, [])], 5)) == Tree(tr.scopes + [Scope(ForInit, Some(4))] + [Scope(ForLoop, Some(17))] + [Scope(EmbeddedBody, Some(18))], tr.events + [Declared(17, i, Pos(21, 18), Initialized, [])] + [Referenced(17, n, Pos(21, 22), false, false, [])] + [Referenced(18, i, Pos(21, 25), false, false, [])] + [Declared(19, n, Pos(22, 43), Initialized, [4])] + [Referenced(19, n, Pos(22, 52), false, false, [4])] + [OutAssigned(19, [], [4])], 5);
    assert WalkExprs([Call([Argument([Declare(n, Pos(22, 43), Initialized)] + ([Use(n, Pos(22, 52), false)]))])], Ctx(19, [4], []), Tree(tr.scopes + [Scope(ForInit, Some(4))] + [Scope(ForLoop, Some(17))] + [Scope(EmbeddedBody, Some(18))], tr.events + [Declared(17, i, Pos(21, 18), Initialized, [])] + [Referenced(17, n, Pos(21, 22), false, false, [])] + [Referenced(18, i, Pos(21, 25), false, false, [])], 5)) == Tree(tr.scopes + [Scope(ForInit, Some(4))] + [Scope(ForLoop, Some(17))] + [Scope(EmbeddedBody, Some(18))], tr.events + [Declared(17, i, Pos(21, 18), Initialized, [])] + [Referenced(17, n, Pos(21, 22), false, false, [])] + [Referenced(18, i, Pos(21, 25), false, false, [])] + [Declared(19, n, Pos(22, 43), Initialized, [4])] + [Referenced(19, n, Pos(22, 52), false, false, [4])] + [OutAssigned(19, [], [4])], 5);
    assert WalkStmt(Exprs([Call([Argument([Declare(n, Pos(22, 43), Initialized)] + ([Use(n, Pos(22, 52), false)]))])]), Ctx(19, [4], []), Tree(tr.scopes + [Scope(ForInit, Some(4))] + [Scope(ForLoop, Some(17))] + [Scope(EmbeddedBody, Some(18))], tr.events + [Declared(17, i, Pos(21, 18), Initialized, [])] + [Referenced(17, n, Pos(21, 22), false, false, [])] + [Referenced(18, i, Pos(21, 25), false, false, [])], 5)) == Tree(tr.scopes + [Scope(ForInit, Some(4))] + [Scope(ForLoop, Some(17))] + [Scope(EmbeddedBody, Some(18))], tr.events + [Declared(17, i, Pos(21, 18), Initialized, [])] + [Referenced(17, n, Pos(21, 22), false, false, [])] + [Referenced(18, i, Pos(21, 25), false, false, [])] + [Declared(19, n, Pos(22, 43), Initialized, [4])] + [Referenced(19, n, Pos(22, 52), false, false, [4])] + [OutAssigned(19, [], [4])], 5);
    assert WalkEmbedded(Exprs([Call([Argument([Declare(n, Pos(22, 43), Initialized)] + ([Use(n, Pos(22, 52), false)]))])]), Ctx(18, [4], []), Tree(tr.scopes + [Scope(ForInit, Some(4))] + [Scope(ForLoop, Some(17))], tr.events + [Declared(17, i, Pos(21, 18), Initialized, [])] + [Referenced(17, n, Pos(21, 22), false, false, [])] + [Referenced(18, i, Pos(21, 25), false, false, [])], 5)) == Tree(tr.scopes + [Scope(ForInit, Some(4))] + [Scope(ForLoop, Some(17))] + [Scope(EmbeddedBody, Some(18))], tr.events + [Declared(17, i, Pos(21, 18), Initialized, [])] + [Referenced(17, n, Pos(21, 22), false, false, [])] + [Referenced(18, i, Pos(21, 25), false, false, [])] + [Declared(19, n, Pos(22, 43), Initialized, [4])] + [Referenced(19, n, Pos(22, 52), false, false, [4])] + [OutAssigned(19, [], [4])], 5);
    WalkExprsOne(Use(i, Pos(21, 32), false), Ctx(18, [4], []), Tree(tr.scopes + [Scope(ForInit, Some(4))] + [Scope(ForLoop, Some(17))] + [Scope(EmbeddedBody, Some(18))], tr.events + [Declared(17, i, Pos(21, 18), Initialized, [])] + [Referenced(17, n, Pos(21, 22), false, false, [])] + [Referenced(18, i, Pos(21, 25), false, false, [])] + [Declared(19, n, Pos(22, 43), Initialized, [4])] + [Referenced(19, n, Pos(22, 52), false, false, [4])] + [OutAssigned(19, [], [4])], 5));
    assert WalkExpr(Use(i, Pos(21, 32), false), Ctx(18, [4], []), Tree(tr.scopes + [Scope(ForInit, Some(4))] + [Scope(ForLoop, Some(17))] + [Scope(EmbeddedBody, Some(18))], tr.events + [Declared(17, i, Pos(21, 18), Initialized, [])] + [Referenced(17, n, Pos(21, 22), false, false, [])] + [Referenced(18, i, Pos(21, 25), false, false, [])] + [Declared(19, n, Pos(22, 43), Initialized, [4])] + [Referenced(19, n, Pos(22, 52), false, false, [4])] + [OutAssigned(19, [], [4])], 5)) == Tree(tr.scopes + [Scope(ForInit, Some(4))] + [Scope(ForLoop, Some(17))] + [Scope(EmbeddedBody, Some(18))], tr.events + [Declared(17, i, Pos(21, 18), Initialized, [])] + [Referenced(17, n, Pos(21, 22), false, false, [])] + [Referenced(18, i, Pos(21, 25), false, false, [])] + [Declared(19, n, Pos(22, 43), Initialized, [4])] + [Referenced(19, n, Pos(22, 52), false, false, [4])] + [OutAssigned(19, [], [4])] + [Referenced(18, i, Pos(21, 32), false, false, [4])], 5);
    assert WalkExprs([Use(i, Pos(21, 32), false)], Ctx(18, [4], []), Tree(tr.scopes + [Scope(ForInit, Some(4))] + [Scope(ForLoop, Some(17))] + [Scope(EmbeddedBody, Some(18))], tr.events + [Declared(17, i, Pos(21, 18), Initialized, [])] + [Referenced(17, n, Pos(21, 22), false, false, [])] + [Referenced(18, i, Pos(21, 25), false, false, [])] + [Declared(19, n, Pos(22, 43), Initialized, [4])] + [Referenced(19, n, Pos(22, 52), false, false, [4])] + [OutAssigned(19, [], [4])], 5)) == Tree(tr.scopes + [Scope(ForInit, Some(4))] + [Scope(ForLoop, Some(17))] + [Scope(EmbeddedBody, Some(18))], tr.events + [Declared(17, i, Pos(21, 18), Initialized, [])] + [Referenced(17, n, Pos(21, 22), false, false, [])] + [Referenced(18, i, Pos(21, 25), false, false, [])] + [Declared(19, n, Pos(22, 43), Initialized, [4])] + [Referenced(19, n, Pos(22, 52), false, false, [4])] + [OutAssigned(19, [], [4])] + [Referenced(18, i, Pos(21, 32), false, false, [4])], 5);
    assert WalkStmt(For([Declare(i, Pos(21, 18), Initialized)] + ([Use(n, Pos(21, 22), false)]), [Use(i, Pos(21, 25), false)], [Use(i, Pos(21, 32), false)], Exprs([Call([Argument([Declare(n, Pos(22, 43), Initialized)] + ([Use(n, Pos(22, 52), false)]))])])), Ctx(4, [], []), tr) == Tree(tr.scopes + [Scope(ForInit, Some(4))] + [Scope(ForLoop, Some(17))] + [Scope(EmbeddedBody, Some(18))], tr.events + [Declared(17, i, Pos(21, 18), Initialized, [])] + [Referenced(17, n, Pos(21, 22), false, false, [])] + [Referenced(18, i, Pos(21, 25), false, false, [])] + [Declared(19, n, Pos(22, 43), Initialized, [4])] + [Referenced(19, n, Pos(22, 52), false, false, [4])] + [OutAssigned(19, [], [4])] + [Referenced(18, i, Pos(21, 32), false, false, [4])], 5);
  }

  lemma {:induction false} Walk11(i: string, j: string, k: string, l: string, m: string, n: string, o: string, p: string, q: string, r: string, tr: Tree)
    requires |tr.scopes| == 20 && tr.arms == 5
    ensures WalkStmt(For([Declare(i, Pos(24, 18), Initialized)], [Use(i, Pos(24, 25), false)] + ([Use(o, Pos(24, 29), false)]), [Use(i, Pos(24, 32), false)], Exprs([Call([Argument([Declare(o, Pos(25, 42), Initialized)])])])), Ctx(4, [], []), tr) == Tree(tr.scopes + [Scope(ForInit, Some(4))] + [Scope(ForLoop, Some(20))] + [Scope(EmbeddedBody, Some(21))], tr.events + [Declared(20, i, Pos(24, 18), Initialized, [])] + [Referenced(21, i, Pos(24, 25), false, false, [])] + [Referenced(21, o, Pos(24, 29), false, false, [])] + [Declared(22, o, Pos(25, 42), Initialized, [5])] + [OutAssigned(22, [], [5])] + [Referenced(21, i, Pos(24, 32), false, false, [5])], 6)
  {
    WalkExprsOne(Declare(i, Pos(24, 18), Initialized), Ctx(20, [], []), Tree(tr.scopes + [Scope(ForInit, Some(4))] + [Scope(ForLoop, Some(20))], tr.events, 5));
    assert WalkExpr(Declare(i, Pos(24, 18), Initialized), Ctx(20, [], []), Tree(tr.scopes + [Scope(ForInit, Some(4))] + [Scope(ForLoop, Some(20))], tr.events, 5)) == Tree(tr.scopes + [Scope(ForInit, Some(4))] + [Scope(ForLoop, Some(20))], tr.events + [Declared(20, i, Pos(24, 18), Initialized, [])], 5);
    assert WalkExprs([Declare(i, Pos(24, 18), Initialized)], Ctx(20, [], []), Tree(tr.scopes + [Scope(ForInit, Some(4))] + [Scope(ForLoop, Some(20))], tr.events, 5)) == Tree(tr.scopes + [Scope(ForInit, Some(4))] + [Scope(ForLoop, Some(20))], tr.events + [Declared(20, i, Pos(24, 18), Initialized, [])], 5);
    WalkExprsCons(Use(i, Pos(24, 25), false), [Use(o, Pos(24, 29), false)], Ctx(21, [], []), Tree(tr.scopes + [Scope(ForInit, Some(4))] + [Scope(ForLoop, Some(20))], tr.events + [Declared(20, i, Pos(24, 18), Initialized, [])], 5));
    assert WalkExpr(Use(i, Pos(24, 25), false), Ctx(21, [], []), Tree(tr.scopes + [Scope(ForInit, Some(4))] + [Scope(ForLoop, Some(20))], tr.events + [Declared(20, i, Pos(24, 18), Initialized, [])], 5)) == Tree(tr.scopes + [Scope(ForInit, Some(4))] + [Scope(ForLoop, Some(20))], tr.events + [Declared(20, i, Pos(24, 18), Initialized, [])] + [Referenced(21, i, Pos(24, 25), false, false, [])], 5);
    WalkExprsOne(Use(o, Pos(24, 29), false), Ctx(21, [], []), Tree(tr.scopes + [Scope(ForInit, Some(4))] + [Scope(ForLoop, Some(20))], tr.events + [Declared(20, i, Pos(24, 18), Initialized, [])] + [Referenced(21, i, Pos(24, 25), false, false, [])], 5));
    assert WalkExpr(Use(o, Pos(24, 29), false), Ctx(21, [], []), Tree(tr.scopes + [Scope(ForInit, Some(4))] + [Scope(ForLoop, Some(20))], tr.events + [Declared(20, i, Pos(24, 18), Initialized, [])] + [Referenced(21, i, Pos(24, 25), false, false, [])], 5)) == Tree(tr.scopes + [Scope(ForInit, Some(4))] + [Scope(ForLoop, Some(20))], tr.events + [Declared(20, i, Pos(24, 18), Initialized, [])] + [Referenced(21, i, Pos(24, 25), false, false, [])] + [Referenced(21, o, Pos(24, 29), false, false, [])], 5);
    assert WalkExprs([Use(i, Pos(24, 25), false)] + ([Use(o, Pos(24, 29), false)]), Ctx(21, [], []), Tree(tr.scopes + [Scope(ForInit, Some(4))] + [Scope(ForLoop, Some(20))], tr.events + [Declared(20, i, Pos(24, 18), Initialized, [])], 5)) == Tree(tr.scopes + [Scope(ForInit, Some(4))] + [Scope(ForLoop, Some(20))], tr.events + [Declared(20, i, Pos(24, 18), Initialized, [])] + [Referenced(21, i, Pos(24, 25), false, false, [])] + [Referenced(21, o, Pos(24, 29), false, false, [])], 5);
    assert [] + [5] == [5];
    WalkExprsOne(Call([Argument([Declare(o, Pos(25, 42), Initialized)])]), Ctx(22, [5], []), Tree(tr.scopes + [Scope(ForInit, Some(4))] + [Scope(ForLoop, Some(20))] + [Scope(EmbeddedBody, Some(21))], tr.events + [Declared(20, i, Pos(24, 18), Initialized, [])] + [Referenced(21, i, Pos(24, 25), false, false, [])] + [Referenced(21, o, Pos(24, 29), false, false, [])], 6));
    assert OutNames([]) == [];
    WalkArgsOne(Argument([Declare(o, Pos(25, 42), Initialized)]), [], Ctx(22, [5], []), Tree(tr.scopes + [Scope(ForInit, Some(4))] + [Scope(ForLoop, Some(20))] + [Scope(EmbeddedBody, Some(21))], tr.events + [Declared(20, i, Pos(24, 18), Initialized, [])] + [Referenced(21, i, Pos(24, 25), false, false, [])] + [Referenced(21, o, Pos(24, 29), false, false, [])], 6));
    WalkExprsOne(Declare(o, Pos(25, 42), Initialized), Ctx(22, [5], []), Tree(tr.scopes + [Scope(ForInit, Some(4))] + [Scope(ForLoop, Some(20))] + [Scope(EmbeddedBody, Some(21))], tr.events + [Declared(20, i, Pos(24, 18), Initialized, [])] + [Referenced(21, i, Pos(24, 25), false, false, [])] + [Referenced(21, o, Pos(24, 29), false, false, [])], 6));
    assert WalkExpr(Declare(o, Pos(25, 42), Initialized), Ctx(22, [5], []), Tree(tr.scopes + [Scope(ForInit, Some(4))] + [Scope(ForLoop, Some(20))] + [Scope(EmbeddedBody, Some(21))], tr.events + [Declared(20, i, Pos(24, 18), Initialized, [])] + [Referenced(21, i, Pos(24, 25), false, false, [])] + [Referenced(21, o, Pos(24, 29), false, false, [])], 6)) == Tree(tr.scopes + [Scope(ForInit, Some(4))] + [Scope(ForLoop, Some(20))] + [Scope(EmbeddedBody, Some(21))], tr.events + [Declared(20, i, Pos(24, 18), Initialized, [])] + [Referenced(21, i, Pos(24, 25), false, false, [])] + [Referenced(21, o, Pos(24, 29), false, false, [])] + [Declared(22, o, Pos(25, 42), Initialized, [5])], 6);
    assert WalkExprs([Declare(o, Pos(25, 42), Initialized)], Ctx(22, [5], []), Tree(tr.scopes + [Scope(ForInit, Some(4))] + [Scope(ForLoop, Some(20))] + [Scope(EmbeddedBody, Some(21))], tr.events + [Declared(20, i, Pos(24, 18), Initialized, [])] + [Referenced(21, i, Pos(24, 25), false, false, [])] + [Referenced(21, o, Pos(24, 29), false, false, [])], 6)) == Tree(tr.scopes + [Scope(ForInit, Some(4))] + [Scope(ForLoop, Some(20))] + [Scope(EmbeddedBody, Some(21))], tr.events + [Declared(20, i, Pos(24, 18), Initialized, [])] + [Referenced(21, i, Pos(24, 25), false, false, [])] + [Referenced(21, o, Pos(24, 29), false, false, [])] + [Declared(22, o, Pos(25, 42), Initialized, [5])], 6);
    OutNamesOfOne(Declare(o, Pos(25, 42), Initialized));
    OutNamesSnoc([], Argument([Declare(o, Pos(25, 42), Initialized)]));
    assert WalkArgs([Argument([Declare(o, Pos(25, 42), Initialized)])], [], Ctx(22, [5], []), Tree(tr.scopes + [Scope(ForInit, Some(4))] + [Scope(ForLoop, Some(20))] + [Scope(EmbeddedBody, Some(21))], tr.events + [Declared(20, i, Pos(24, 18), Initialized, [])] + [Referenced(21, i, Pos(24, 25), false, false, [])] + [Referenced(21, o, Pos(24, 29), false, false, [])], 6)) == Tree(tr.scopes + [Scope(ForInit, Some(4))] + [Scope(ForLoop, Some(20))] + [Scope(EmbeddedBody, Some(21))], tr.events + [Declared(20, i, Pos(24, 18), Initialized, [])] + [Referenced(21, i, Pos(24, 25), false, false, [])] + [Referenced(21, o, Pos(24, 29), false, false, [])] + [Declared(22, o, Pos(25, 42), Initialized, [5])], 6);
    assert OutNames([Argument([Declare(o, Pos(25, 42), Initialized)])]) == [];
    assert WalkExpr(Call([Argument([Declare(o, Pos(25, 42), Initialized)])]), Ctx(22, [5], []), Tree(tr.scopes + [Scope(ForInit, Some(4))] + [Scope(ForLoop, Some(20))] + [Scope(EmbeddedBody, Some(21))], tr.events + [Declared(20, i, Pos(24, 18), Initialized, [])] + [Referenced(21, i, Pos(24, 25), false, false, [])] + [Referenced(21, o, Pos(24, 29), false, false, [])], 6)) == Tree(tr.scopes + [Scope(ForInit, Some(4))] + [Scope(ForLoop, Some(20))] + [Scope(EmbeddedBody, Some(21))], tr.events + [Declared(20, i, Pos(24, 18), Initialized, [])] + [Referenced(21, i, Pos(24, 25), false, false, [])] + [Referenced(21, o, Pos(24, 29), false, false, [])] + [Declared(22, o, Pos(25, 42), Initialized, [5])] + [OutAssigned(22, [], [5])], 6);
    assert WalkExprs([Call([Argument([Declare(o, Pos(25, 42), Initialized)])])], Ctx(22, [5], []), Tree(tr.scopes + [Scope(ForInit, Some(4))] + [Scope(ForLoop, Some(20))] + [Scope(EmbeddedBody, Some(21))], tr.events + [Declared(20, i, Pos(24, 18), Initialized, [])] + [Referenced(21, i, Pos(24, 25), false, false, [])] + [Referenced(21, o, Pos(24, 29), false, false, [])], 6)) == Tree(tr.scopes + [Scope(ForInit, Some(4))] + [Scope(ForLoop, Some(20))] + [Scope(EmbeddedBody, Some(21))], tr.events + [Declared(20, i, Pos(24, 18), Initialized, [])] + [Referenced(21, i, Pos(24, 25), false, false, [])] + [Referenced(21, o, Pos(24, 29), false, false, [])] + [Declared(22, o, Pos(25, 42), Initialized, [5])] + [OutAssigned(22, [], [5])], 6);
    assert WalkStmt(Exprs([Call([Argument([Declare(o, Pos(25, 42), Initialized)])])]), Ctx(22, [5], []), Tree(tr.scopes + [Scope(ForInit, Some(4))] + [Scope(ForLoop, Some(20))] + [Scope(EmbeddedBody, Some(21))], tr.events + [Declared(20, i, Pos(24, 18), Initialized, [])] + [Referenced(21, i, Pos(24, 25), false, false, [])] + [Referenced(21, o, Pos(24, 29), false, false, [])], 6)) == Tree(tr.scopes + [Scope(ForInit, Some(4))] + [Scope(ForLoop, Some(20))] + [Scope(EmbeddedBody, Some(21))], tr.events + [Declared(20, i, Pos(24, 18), Initialized, [])] + [Referenced(21, i, Pos(24, 25), false, false, [])] + [Referenced(21, o, Pos(24, 29), false, false, [])] + [Declared(22, o, Pos(25, 42), Initialized, [5])] + [OutAssigned(22, [], [5])], 6);
    assert WalkEmbedded(Exprs([Call([Argument([Declare(o, Pos(25, 42), Initialized)])])]), Ctx(21, [5], []), Tree(tr.scopes + [Scope(ForInit, Some(4))] + [Scope(ForLoop, Some(20))], tr.events + [Declared(20, i, Pos(24, 18), Initialized, [])] + [Referenced(21, i, Pos(24, 25), false, false, [])] + [Referenced(21, o, Pos(24, 29), false, false, [])], 6)) == Tree(tr.scopes + [Scope(ForInit, Some(4))] + [Scope(ForLoop, Some(20))] + [Scope(EmbeddedBody, Some(21))], tr.events + [Declared(20, i, Pos(24, 18), Initialized, [])] + [Referenced(21, i, Pos(24, 25), false, false, [])] + [Referenced(21, o, Pos(24, 29), false, false, [])] + [Declared(22, o, Pos(25, 42), Initialized, [5])] + [OutAssigned(22, [], [5])], 6);
    WalkExprsOne(Use(i, Pos(24, 32), false), Ctx(21, [5], []), Tree(tr.scopes + [Scope(ForInit, Some(4))] + [Scope(ForLoop, Some(20))] + [Scope(EmbeddedBody, Some(21))], tr.events + [Declared(20, i, Pos(24, 18), Initialized, [])] + [Referenced(21, i, Pos(24, 25), false, false, [])] + [Referenced(21, o, Pos(24, 29), false, false, [])] + [Declared(22, o, Pos(25, 42), Initialized, [5])] + [OutAssigned(22, [], [5])], 6));
    assert WalkExpr(Use(i, Pos(24, 32), false), Ctx(21, [5], []), Tree(tr.scopes + [Scope(ForInit, Some(4))] + [Scope(ForLoop, Some(20))] + [Scope(EmbeddedBody, Some(21))], tr.events + [Declared(20, i, Pos(24, 18), Initialized, [])] + [Referenced(21, i, Pos(24, 25), false, false, [])] + [Referenced(21, o, Pos(24, 29), false, false, [])] + [Declared(22, o, Pos(25, 42), Initialized, [5])] + [OutAssigned(22, [], [5])], 6)) == Tree(tr.scopes + [Scope(ForInit, Some(4))] + [Scope(ForLoop, Some(20))] + [Scope(EmbeddedBody, Some(21))], tr.events + [Declared(20, i, Pos(24, 18), Initialized, [])] + [Referenced(21, i, Pos(24, 25), false, false, [])] + [Referenced(21, o, Pos(24, 29), false, false, [])] + [Declared(22, o, Pos(25, 42), Initialized, [5])] + [OutAssigned(22, [], [5])] + [Referenced(21, i, Pos(24, 32), false, false, [5])], 6);
    assert WalkExprs([Use(i, Pos(24, 32), false)], Ctx(21, [5], []), Tree(tr.scopes + [Scope(ForInit, Some(4))] + [Scope(ForLoop, Some(20))] + [Scope(EmbeddedBody, Some(21))], tr.events + [Declared(20, i, Pos(24, 18), Initialized, [])] + [Referenced(21, i, Pos(24, 25), false, false, [])] + [Referenced(21, o, Pos(24, 29), false, false, [])] + [Declared(22, o, Pos(25, 42), Initialized, [5])] + [OutAssigned(22, [], [5])], 6)) == Tree(tr.scopes + [Scope(ForInit, Some(4))] + [Scope(ForLoop, Some(20))] + [Scope(EmbeddedBody, Some(21))], tr.events + [Declared(20, i, Pos(24, 18), Initialized, [])] + [Referenced(21, i, Pos(24, 25), false, false, [])] + [Referenced(21, o, Pos(24, 29), false, false, [])] + [Declared(22, o, Pos(25, 42), Initialized, [5])] + [OutAssigned(22, [], [5])] + [Referenced(21, i, Pos(24, 32), false, false, [5])], 6);
    assert WalkStmt(For([Declare(i, Pos(24, 18), Initialized)], [Use(i, Pos(24, 25), false)] + ([Use(o, Pos(24, 29), false)]), [Use(i, Pos(24, 32), false)], Exprs([Call([Argument([Declare(o, Pos(25, 42), Initialized)])])])), Ctx(4, [], []), tr) == Tree(tr.scopes + [Scope(ForInit, Some(4))] + [Scope(ForLoop, Some(20))] + [Scope(EmbeddedBody, Some(21))], tr.events + [Declared(20, i, Pos(24, 18), Initialized, [])] + [Referenced(21, i, Pos(24, 25), false, false, [])] + [Referenced(21, o, Pos(24, 29), false, false, [])] + [Declared(22, o, Pos(25, 42), Initialized, [5])] + [OutAssigned(22, [], [5])] + [Referenced(21, i, Pos(24, 32), false, false, [5])], 6);
  }

  lemma {:induction false} Stmts7(i: string, j: string, k: string, l: string, m: string, n: string, o: string, p: string, q: string, r: string, tr: Tree, rest: seq<Stmt>)
    requires |tr.scopes| == 11 && tr.arms == 2
    ensures WalkStmts([For([Declare(i, Pos(17, 18), Initialized)] + ([Use(l, Pos(17, 22), false)]), [Use(i, Pos(17, 25), false)] + ([Declare(l, Pos(17, 34), Initialized)]), [Use(i, Pos(17, 43), false)], Block([]))] + ([For([Declare(i, Pos(19, 18), Initialized)], [Use(i, Pos(19, 25), false)] + ([Use(m, Pos(19, 29), false)]), [Use(i, Pos(19, 32), true)] + ([Declare(m, Pos(19, 41), Initialized)] + ([Use(m, Pos(19, 51), false)])), Block([]))] + ([For([Declare(i, Pos(21, 18), Initialized)] + ([Use(n, Pos(21, 22), false)]), [Use(i, Pos(21, 25), false)], [Use(i, Pos(21, 32), false)], Exprs([Call([Argument([Declare(n, Pos(22, 43), Initialized)] + ([Use(n, Pos(22, 52), false)]))])]))] + ([For([Declare(i, Pos(24, 18), Initialized)], [Use(i, Pos(24, 25), false)] + ([Use(o, Pos(24, 29), false)]), [Use(i, Pos(24, 32), false)], Exprs([Call([Argument([Declare(o, Pos(25, 42), Initialized)])])]))] + (rest)))), Ctx(4, [], []), tr) == WalkStmts(rest, Ctx(4, [], []), Tree(tr.scopes + [Scope(ForInit, Some(4))] + [Scope(ForLoop, Some(11))] + [Scope(BlockBody, Some(12))] + [Scope(ForInit, Some(4))] + [Scope(ForLoop, Some(14))] + [Scope(BlockBody, Some(15))] + [Scope(ForInit, Some(4))] + [Scope(ForLoop, Some(17))] + [Scope(EmbeddedBody, Some(18))] + [Scope(ForInit, Some(4))] + [Scope(ForLoop, Some(20))] + [Scope(EmbeddedBody, Some(21))], tr.events + [Declared(11, i, Pos(17, 18), Initialized, [])] + [Referenced(11, l, Pos(17, 22), false, false, [])] + [Referenced(12, i, Pos(17, 25), false, false, [])] + [Declared(12, l, Pos(17, 34), Initialized, [])] + [Referenced(12, i, Pos(17, 43), false, false, [2])] + [Declared(14, i, Pos(19, 18), Initialized, [])] + [Referenced(15, i, Pos(19, 25), false, false, [])] + [Referenced(15, m, Pos(19, 29), false, false, [])] + [Referenced(15, i, Pos(19, 32), true, false, [3])] + [Declared(15, m, Pos(19, 41), Initialized, [3])] + [Referenced(15, m, Pos(19, 51), false, false, [3])] + [Declared(17, i, Pos(21, 18), Initialized, [])] + [Referenced(17, n, Pos(21, 22), false, false, [])] + [Referenced(18, i, Pos(21, 25), false, false, [])] + [Declared(19, n, Pos(22, 43), Initialized, [4])] + [Referenced(19, n, Pos(22, 52), false, false, [4])] + [OutAssigned(19, [], [4])] + [Referenced(18, i, Pos(21, 32), false, false, [4])] + [Declared(20, i, Pos(24, 18), Initialized, [])] + [Referenced(21, i, Pos(24, 25), false, false, [])] + [Referenced(21, o, Pos(24, 29), false, false, [])] + [Declared(22, o, Pos(25, 42), Initialized, [5])] + [OutAssigned(22, [], [5])] + [Referenced(21, i, Pos(24, 32), false, false, [5])], 6))
  {
    WalkStmtsCons(For([Declare(i, Pos(17, 18), Initialized)] + ([Use(l, Pos(17, 22), false)]), [Use(i, Pos(17, 25), false)] + ([Declare(l, Pos(17, 34), Initialized)]), [Use(i, Pos(17, 43), false)], Block([])), [For([Declare(i, Pos(19, 18), Initialized)], [Use(i, Pos(19, 25), false)] + ([Use(m, Pos(19, 29), false)]), [Use(i, Pos(19, 32), true)] + ([Declare(m, Pos(19, 41), Initialized)] + ([Use(m, Pos(19, 51), false)])), Block([]))] + ([For([Declare(i, Pos(21, 18), Initialized)] + ([Use(n, Pos(21, 22), false)]), [Use(i, Pos(21, 25), false)], [Use(i, Pos(21, 32), false)], Exprs([Call([Argument([Declare(n, Pos(22, 43), Initialized)] + ([Use(n, Pos(22, 52), false)]))])]))] + ([For([Declare(i, Pos(24, 18), Initialized)], [Use(i, Pos(24, 25), false)] + ([Use(o, Pos(24, 29), false)]), [Use(i, Pos(24, 32), false)], Exprs([Call([Argument([Declare(o, Pos(25, 42), Initialized)])])]))] + (rest))), Ctx(4, [], []), tr);
    Walk8(i, j, k, l, m, n, o, p, q, r, tr);
    assert WalkStmt(For([Declare(i, Pos(17, 18), Initialized)] + ([Use(l, Pos(17, 22), false)]), [Use(i, Pos(17, 25), false)] + ([Declare(l, Pos(17, 34), Initialized)]), [Use(i, Pos(17, 43), false)], Block([])), Ctx(4, [], []), tr) == Tree(tr.scopes + [Scope(ForInit, Some(4))] + [Scope(ForLoop, Some(11))] + [Scope(BlockBody, Some(12))], tr.events + [Declared(11, i, Pos(17, 18), Initialized, [])] + [Referenced(11, l, Pos(17, 22), false, false, [])] + [Referenced(12, i, Pos(17, 25), false, false, [])] + [Declared(12, l, Pos(17, 34), Initialized, [])] + [Referenced(12, i, Pos(17, 43), false, false, [2])], 3);
    WalkStmtsCons(For([Declare(i, Pos(19, 18), Initialized)], [Use(i, Pos(19, 25), false)] + ([Use(m, Pos(19, 29), false)]), [Use(i, Pos(19, 32), true)] + ([Declare(m, Pos(19, 41), Initialized)] + ([Use(m, Pos(19, 51), false)])), Block([])), [For([Declare(i, Pos(21, 18), Initialized)] + ([Use(n, Pos(21, 22), false)]), [Use(i, Pos(21, 25), false)], [Use(i, Pos(21, 32), false)], Exprs([Call([Argument([Declare(n, Pos(22, 43), Initialized)] + ([Use(n, Pos(22, 52), false)]))])]))] + ([For([Declare(i, Pos(24, 18), Initialized)], [Use(i, Pos(24, 25), false)] + ([Use(o, Pos(24, 29), false)]), [Use(i, Pos(24, 32), false)], Exprs([Call([Argument([Declare(o, Pos(25, 42), Initialized)])])]))] + (rest)), Ctx(4, [], []), Tree(tr.scopes + [Scope(ForInit, Some(4))] + [Scope(ForLoop, Some(11))] + [Scope(BlockBody, Some(12))], tr.events + [Declared(11, i, Pos(17, 18), Initialized, [])] + [Referenced(11, l, Pos(17, 22), false, false, [])] + [Referenced(12, i, Pos(17, 25), false, false, [])] + [Declared(12, l, Pos(17, 34), Initialized, [])] + [Referenced(12, i, Pos(17, 43), false, false, [2])], 3));
    Walk9(i, j, k, l, m, n, o, p, q, r, Tree(tr.scopes + [Scope(ForInit, Some(4))] + [Scope(ForLoop, Some(11))] + [Scope(BlockBody, Some(12))], tr.events + [Declared(11, i, Pos(17, 18), Initialized, [])] + [Referenced(11, l, Pos(17, 22), false, false, [])] + [Referenced(12, i, Pos(17, 25), false, false, [])] + [Declared(12, l, Pos(17, 34), Initialized, [])] + [Referenced(12, i, Pos(17, 43), false, false, [2])], 3));
    assert WalkStmt(For([Declare(i, Pos(19, 18), Initialized)], [Use(i, Pos(19, 25), false)] + ([Use(m, Pos(19, 29), false)]), [Use(i, Pos(19, 32), true)] + ([Declare(m, Pos(19, 41), Initialized)] + ([Use(m, Pos(19, 51), false)])), Block([])), Ctx(4, [], []), Tree(tr.scopes + [Scope(ForInit, Some(4))] + [Scope(ForLoop, Some(11))] + [Scope(BlockBody, Some(12))], tr.events + [Declared(11, i, Pos(17, 18), Initialized, [])] + [Referenced(11, l, Pos(17, 22), false, false, [])] + [Referenced(12, i, Pos(17, 25), false, false, [])] + [Declared(12, l, Pos(17, 34), Initialized, [])] + [Referenced(12, i, Pos(17, 43), false, false, [2])], 3)) == Tree(tr.scopes + [Scope(ForInit, Some(4))] + [Scope(ForLoop, Some(11))] + [Scope(BlockBody, Some(12))] + [Scope(ForInit, Some(4))] + [Scope(ForLoop, Some(14))] + [Scope(BlockBody, Some(15))], tr.events + [Declared(11, i, Pos(17, 18), Initialized, [])] + [Referenced(11, l, Pos(17, 22), false, false, [])] + [Referenced(12, i, Pos(17, 25), false, false, [])] + [Declared(12, l, Pos(17, 34), Initialized, [])] + [Referenced(12, i, Pos(17, 43), false, false, [2])] + [Declared(14, i, Pos(19, 18), Initialized, [])] + [Referenced(15, i, Pos(19, 25), false, false, [])] + [Referenced(15, m, Pos(19, 29), false, false, [])] + [Referenced(15, i, Pos(19, 32), true, false, [3])] + [Declared(15, m, Pos(19, 41), Initialized, [3])] + [Referenced(15, m, Pos(19, 51), false, false, [3])], 4);
    WalkStmtsCons(For([Declare(i, Pos(21, 18), Initialized)] + ([Use(n, Pos(21, 22), false)]), [Use(i, Pos(21, 25), false)], [Use(i, Pos(21, 32), false)], Exprs([Call([Argument([Declare(n, Pos(22, 43), Initialized)] + ([Use(n, Pos(22, 52), false)]))])])), [For([Declare(i, Pos(24, 18), Initialized)], [Use(i, Pos(24, 25), false)] + ([Use(o, Pos(24, 29), false)]), [Use(i, Pos(24, 32), false)], Exprs([Call([Argument([Declare(o, Pos(25, 42), Initialized)])])]))] + (rest), Ctx(4, [], []), Tree(tr.scopes + [Scope(ForInit, Some(4))] + [Scope(ForLoop, Some(11))] + [Scope(BlockBody, Some(12))] + [Scope(ForInit, Some(4))] + [Scope(ForLoop, Some(14))] + [Scope(BlockBody, Some(15))], tr.events + [Declared(11, i, Pos(17, 18), Initialized, [])] + [Referenced(11, l, Pos(17, 22), false, false, [])] + [Referenced(12, i, Pos(17, 25), false, false, [])] + [Declared(12, l, Pos(17, 34), Initialized, [])] + [Referenced(12, i, Pos(17, 43), false, false, [2])] + [Declared(14, i, Pos(19, 18), Initialized, [])] + [Referenced(15, i, Pos(19, 25), false, false, [])] + [Referenced(15, m, Pos(19, 29), false, false, [])] + [Referenced(15, i, Pos(19, 32), true, false, [3])] + [Declared(15, m, Pos(19, 41), Initialized, [3])] + [Referenced(15, m, Pos(19, 51), false, false, [3])], 4));
    Walk10(i, j, k, l, m, n, o, p, q, r, Tree(tr.scopes + [Scope(ForInit, Some(4))] + [Scope(ForLoop, Some(11))] + [Scope(BlockBody, Some(12))] + [Scope(ForInit, Some(4))] + [Scope(ForLoop, Some(14))] + [Scope(BlockBody, Some(15))], tr.events + [Declared(11, i, Pos(17, 18), Initialized, [])] + [Referenced(11, l, Pos(17, 22), false, false, [])] + [Referenced(12, i, Pos(17, 25), false, false, [])] + [Declared(12, l, Pos(17, 34), Initialized, [])] + [Referenced(12, i, Pos(17, 43), false, false, [2])] + [Declared(14, i, Pos(19, 18), Initialized, [])] + [Referenced(15, i, Pos(19, 25), false, false, [])] + [Referenced(15, m, Pos(19, 29), false, false, [])] + [Referenced(15, i, Pos(19, 32), true, false, [3])] + [Declared(15, m, Pos(19, 41), Initialized, [3])] + [Referenced(15, m, Pos(19, 51), false, false, [3])], 4));
    assert WalkStmt(For([Declare(i, Pos(21, 18), Initialized)] + ([Use(n, Pos(21, 22), false)]), [Use(i, Pos(21, 25), false)], [Use(i, Pos(21, 32), false)], Exprs([Call([Argument([Declare(n, Pos(22, 43), Initialized)] + ([Use(n, Pos(22, 52), false)]))])])), Ctx(4, [], []), Tree(tr.scopes + [Scope(ForInit, Some(4))] + [Scope(ForLoop, Some(11))] + [Scope(BlockBody, Some(12))] + [Scope(ForInit, Some(4))] + [Scope(ForLoop, Some(14))] + [Scope(BlockBody, Some(15))], tr.events + [Declared(11, i, Pos(17, 18), Initialized, [])] + [Referenced(11, l, Pos(17, 22), false, false, [])] + [Referenced(12, i, Pos(17, 25), false, false, [])] + [Declared(12, l, Pos(17, 34), Initialized, [])] + [Referenced(12, i, Pos(17, 43), false, false, [2])] + [Declared(14, i, Pos(19, 18), Initialized, [])] + [Referenced(15, i, Pos(19, 25), false, false, [])] + [Referenced(15, m, Pos(19, 29), false, false, [])] + [Referenced(15, i, Pos(19, 32), true, false, [3])] + [Declared(15, m, Pos(19, 41), Initialized, [3])] + [Referenced(15, m, Pos(19, 51), false, false, [3])], 4)) == Tree(tr.scopes + [Scope(ForInit, Some(4))] + [Scope(ForLoop, Some(11))] + [Scope(BlockBody, Some(12))] + [Scope(ForInit, Some(4))] + [Scope(ForLoop, Some(14))] + [Scope(BlockBody, Some(15))] + [Scope(ForInit, Some(4))] + [Scope(ForLoop, Some(17))] + [Scope(EmbeddedBody, Some(18))], tr.events + [Declared(11, i, Pos(17, 18), Initialized, [])] + [Referenced(11, l, Pos(17, 22), false, false, [])] + [Referenced(12, i, Pos(17, 25), false, false, [])] + [Declared(12, l, Pos(17, 34), Initialized, [])] + [Referenced(12, i, Pos(17, 43), false, false, [2])] + [Declared(14, i, Pos(19, 18), Initialized, [])] + [Referenced(15, i, Pos(19, 25), false, false, [])] + [Referenced(15, m, Pos(19, 29), false, false, [])] + [Referenced(15, i, Pos(19, 32), true, false, [3])] + [Declared(15, m, Pos(19, 41), Initialized, [3])] + [Referenced(15, m, Pos(19, 51), false, false, [3])] + [Declared(17, i, Pos(21, 18), Initialized, [])] + [Referenced(17, n, Pos(21, 22), false, false, [])] + [Referenced(18, i, Pos(21, 25), false, false, [])] + [Declared(19, n, Pos(22, 43), Initialized, [4])] + [Referenced(19, n, Pos(22, 52), false, false, [4])] + [OutAssigned(19, [], [4])] + [Referenced(18, i, Pos(21, 32), false, false, [4])], 5);
    WalkStmtsCons(For([Declare(i, Pos(24, 18), Initialized)], [Use(i, Pos(24, 25), false)] + ([Use(o, Pos(24, 29), false)]), [Use(i, Pos(24, 32), false)], Exprs([Call([Argument([Declare(o, Pos(25, 42), Initialized)])])])), rest, Ctx(4, [], []), Tree(tr.scopes + [Scope(ForInit, Some(4))] + [Scope(ForLoop, Some(11))] + [Scope(BlockBody, Some(12))] + [Scope(ForInit, Some(4))] + [Scope(ForLoop, Some(14))] + [Scope(BlockBody, Some(15))] + [Scope(ForInit, Some(4))] + [Scope(ForLoop, Some(17))] + [Scope(EmbeddedBody, Some(18))], tr.events + [Declared(11, i, Pos(17, 18), Initialized, [])] + [Referenced(11, l, Pos(17, 22), false, false, [])] + [Referenced(12, i, Pos(17, 25), false, false, [])] + [Declared(12, l, Pos(17, 34), Initialized, [])] + [Referenced(12, i, Pos(17, 43), false, false, [2])] + [Declared(14, i, Pos(19, 18), Initialized, [])] + [Referenced(15, i, Pos(19, 25), false, false, [])] + [Referenced(15, m, Pos(19, 29), false, false, [])] + [Referenced(15, i, Pos(19, 32), true, false, [3])] + [Declared(15, m, Pos(19, 41), Initialized, [3])] + [Referenced(15, m, Pos(19, 51), false, false, [3])] + [Declared(17, i, Pos(21, 18), Initialized, [])] + [Referenced(17, n, Pos(21, 22), false, false, [])] + [Referenced(18, i, Pos(21, 25), false, false, [])] + [Declared(19, n, Pos(22, 43), Initialized, [4])] + [Referenced(19, n, Pos(22, 52), false, false, [4])] + [OutAssigned(19, [], [4])] + [Referenced(18, i, Pos(21, 32), false, false, [4])], 5));
    Walk11(i, j, k, l, m, n, o, p, q, r, Tree(tr.scopes + [Scope(ForInit, Some(4))] + [Scope(ForLoop, Some(11))] + [Scope(BlockBody, Some(12))] + [Scope(ForInit, Some(4))] + [Scope(ForLoop, Some(14))] + [Scope(BlockBody, Some(15))] + [Scope(ForInit, Some(4))] + [Scope(ForLoop, Some(17))] + [Scope(EmbeddedBody, Some(18))], tr.events + [Declared(11, i, Pos(17, 18), Initialized, [])] + [Referenced(11, l, Pos(17, 22), false, false, [])] + [Referenced(12, i, Pos(17, 25), false, false, [])] + [Declared(12, l, Pos(17, 34), Initialized, [])] + [Referenced(12, i, Pos(17, 43), false, false, [2])] + [Declared(14, i, Pos(19, 18), Initialized, [])] + [Referenced(15, i, Pos(19, 25), false, false, [])] + [Referenced(15, m, Pos(19, 29), false, false, [])] + [Referenced(15, i, Pos(19, 32), true, false, [3])] + [Declared(15, m, Pos(19, 41), Initialized, [3])] + [Referenced(15, m, Pos(19, 51), false, false, [3])] + [Declared(17, i, Pos(21, 18), Initialized, [])] + [Referenced(17, n, Pos(21, 22), false, false, [])] + [Referenced(18, i, Pos(21, 25), false, false, [])] + [Declared(19, n, Pos(22, 43), Initialized, [4])] + [Referenced(19, n, Pos(22, 52), false, false, [4])] + [OutAssigned(19, [], [4])] + [Referenced(18, i, Pos(21, 32), false, false, [4])], 5));
    assert WalkStmt(For([Declare(i, Pos(24, 18), Initialized)], [Use(i, Pos(24, 25), false)] + ([Use(o, Pos(24, 29), false)]), [Use(i, Pos(24, 32), false)], Exprs([Call([Argument([Declare(o, Pos(25, 42), Initialized)])])])), Ctx(4, [], []), Tree(tr.scopes + [Scope(ForInit, Some(4))] + [Scope(ForLoop, Some(11))] + [Scope(BlockBody, Some(12))] + [Scope(ForInit, Some(4))] + [Scope(ForLoop, Some(14))] + [Scope(BlockBody, Some(15))] + [Scope(ForInit, Some(4))] + [Scope(ForLoop, Some(17))] + [Scope(EmbeddedBody, Some(18))], tr.events + [Declared(11, i, Pos(17, 18), Initialized, [])] + [Referenced(11, l, Pos(17, 22), false, false, [])] + [Referenced(12, i, Pos(17, 25), false, false, [])] + [Declared(12, l, Pos(17, 34), Initialized, [])] + [Referenced(12, i, Pos(17, 43), false, false, [2])] + [Declared(14, i, Pos(19, 18), Initialized, [])] + [Referenced(15, i, Pos(19, 25), false, false, [])] + [Referenced(15, m, Pos(19, 29), false, false, [])] + [Referenced(15, i, Pos(19, 32), true, false, [3])] + [Declared(15, m, Pos(19, 41), Initialized, [3])] + [Referenced(15, m, Pos(19, 51), false, false, [3])] + [Declared(17, i, Pos(21, 18), Initialized, [])] + [Referenced(17, n, Pos(21, 22), false, false, [])] + [Referenced(18, i, Pos(21, 25), false, false, [])] + [Declared(19, n, Pos(22, 43), Initialized, [4])] + [Referenced(19, n, Pos(22, 52), false, false, [4])] + [OutAssigned(19, [], [4])] + [Referenced(18, i, Pos(21, 32), false, false, [4])], 5)) == Tree(tr.scopes + [Scope(ForInit, Some(4))] + [Scope(ForLoop, Some(11))] + [Scope(BlockBody, Some(12))] + [Scope(ForInit, Some(4))] + [Scope(ForLoop, Some(14))] + [Scope(BlockBody, Some(15))] + [Scope(ForInit, Some(4))] + [Scope(ForLoop, Some(17))] + [Scope(EmbeddedBody, Some(18))] + [Scope(ForInit, Some(4))] + [Scope(ForLoop, Some(20))] + [Scope(EmbeddedBody, Some(21))], tr.events + [Declared(11, i, Pos(17, 18), Initialized, [])] + [Referenced(11, l, Pos(17, 22), false, false, [])] + [Referenced(12, i, Pos(17, 25), false, false, [])] + [Declared(12, l, Pos(17, 34), Initialized, [])] + [Referenced(12, i, Pos(17, 43), false, false, [2])] + [Declared(14, i, Pos(19, 18), Initialized, [])] + [Referenced(15, i, Pos(19, 25), false, false, [])] + [Referenced(15, m, Pos(19, 29), false, false, [])] + [Referenced(15, i, Pos(19, 32), true, false, [3])] + [Declared(15, m, Pos(19, 41), Initialized, [3])] + [Referenced(15, m, Pos(19, 51), false, false, [3])] + [Declared(17, i, Pos(21, 18), Initialized, [])] + [Referenced(17, n, Pos(21, 22), false, false, [])] + [Referenced(18, i, Pos(21, 25), false, false, [])] + [Declared(19, n, Pos(22, 43), Initialized, [4])] + [Referenced(19, n, Pos(22, 52), false, false, [4])] + [OutAssigned(19, [], [4])] + [Referenced(18, i, Pos(21, 32), false, false, [4])] + [Declared(20, i, Pos(24, 18), Initialized, [])] + [Referenced(21, i, Pos(24, 25), false, false, [])] + [Referenced(21, o, Pos(24, 29), false, false, [])] + [Declared(22, o, Pos(25, 42), Initialized, [5])] + [OutAssigned(22, [], [5])] + [Referenced(21, i, Pos(24, 32), false, false, [5])], 6);
  }

  lemma {:induction false} Walk13(i: string, j: string, k: string, l: string, m: string, n: string, o: string, p: string, q: string, r: string, tr: Tree)
    requires |tr.scopes| == 23 && tr.arms == 6
    ensures WalkStmt(For([Declare(i, Pos(27, 18), Initialized)], [Use(i, Pos(27, 25), false)], [Use(i, Pos(27, 32), true)] + ([Use(p, Pos(27, 36), false)]), Exprs([Call([Argument([Declare(p, Pos(28, 42), Initialized)])])])), Ctx(4, [], []), tr) == Tree(tr.scopes + [Scope(ForInit, Some(4))] + [Scope(ForLoop, Some(23))] + [Scope(EmbeddedBody, Some(24))], tr.events + [Declared(23, i, Pos(27, 18), Initialized, [])] + [Referenced(24, i, Pos(27, 25), false, false, [])] + [Declared(25, p, Pos(28, 42), Initialized, [6])] + [OutAssigned(25, [], [6])] + [Referenced(24, i, Pos(27, 32), true, false, [6])] + [Referenced(24, p, Pos(27, 36), false, false, [6])], 7)
  {
    WalkExprsOne(Declare(i, Pos(27, 18), Initialized), Ctx(23, [], []), Tree(tr.scopes + [Scope(ForInit, Some(4))] + [Scope(ForLoop, Some(23))], tr.events, 6));
    assert WalkExpr(Declare(i, Pos(27, 18), Initialized), Ctx(23, [], []), Tree(tr.scopes + [Scope(ForInit, Some(4))] + [Scope(ForLoop, Some(23))], tr.events, 6)) == Tree(tr.scopes + [Scope(ForInit, Some(4))] + [Scope(ForLoop, Some(23))], tr.events + [Declared(23, i, Pos(27, 18), Initialized, [])], 6);
    assert WalkExprs([Declare(i, Pos(27, 18), Initialized)], Ctx(23, [], []), Tree(tr.scopes + [Scope(ForInit, Some(4))] + [Scope(ForLoop, Some(23))], tr.events, 6)) == Tree(tr.scopes + [Scope(ForInit, Some(4))] + [Scope(ForLoop, Some(23))], tr.events + [Declared(23, i, Pos(27, 18), Initialized, [])], 6);
    WalkExprsOne(Use(i, Pos(27, 25), false), Ctx(24, [], []), Tree(tr.scopes + [Scope(ForInit, Some(4))] + [Scope(ForLoop, Some(23))], tr.events + [Declared(23, i, Pos(27, 18), Initialized, [])], 6));
    assert WalkExpr(Use(i, Pos(27, 25), false), Ctx(24, [], []), Tree(tr.scopes + [Scope(ForInit, Some(4))] + [Scope(ForLoop, Some(23))], tr.events + [Declared(23, i, Pos(27, 18), Initialized, [])], 6)) == Tree(tr.scopes + [Scope(ForInit, Some(4))] + [Scope(ForLoop, Some(23))], tr.events + [Declared(23, i, Pos(27, 18), Initialized, [])] + [Referenced(24, i, Pos(27, 25), false, false, [])], 6);
    assert WalkExprs([Use(i, Pos(27, 25), false)], Ctx(24, [], []), Tree(tr.scopes + [Scope(ForInit, Some(4))] + [Scope(ForLoop, Some(23))], tr.events + [Declared(23, i, Pos(27, 18), Initialized, [])], 6)) == Tree(tr.scopes + [Scope(ForInit, Some(4))] + [Scope(ForLoop, Some(23))], tr.events + [Declared(23, i, Pos(27, 18), Initialized, [])] + [Referenced(24, i, Pos(27, 25), false, false, [])], 6);
    assert [] + [6] == [6];
    WalkExprsOne(Call([Argument([Declare(p, Pos(28, 42), Initialized)])]), Ctx(25, [6], []), Tree(tr.scopes + [Scope(ForInit, Some(4))] + [Scope(ForLoop, Some(23))] + [Scope(EmbeddedBody, Some(24))], tr.events + [Declared(23, i, Pos(27, 18), Initialized, [])] + [Referenced(24, i, Pos(27, 25), false, false, [])], 7));
    assert OutNames([]) == [];
    WalkArgsOne(Argument([Declare(p, Pos(28, 42), Initialized)]), [], Ctx(25, [6], []), Tree(tr.scopes + [Scope(ForInit, Some(4))] + [Scope(ForLoop, Some(23))] + [Scope(EmbeddedBody, Some(24))], tr.events + [Declared(23, i, Pos(27, 18), Initialized, [])] + [Referenced(24, i, Pos(27, 25), false, false, [])], 7));
    WalkExprsOne(Declare(p, Pos(28, 42), Initialized), Ctx(25, [6], []), Tree(tr.scopes + [Scope(ForInit, Some(4))] + [Scope(ForLoop, Some(23))] + [Scope(EmbeddedBody, Some(24))], tr.events + [Declared(23, i, Pos(27, 18), Initialized, [])] + [Referenced(24, i, Pos(27, 25), false, false, [])], 7));
    assert WalkExpr(Declare(p, Pos(28, 42), Initialized), Ctx(25, [6], []), Tree(tr.scopes + [Scope(ForInit, Some(4))] + [Scope(ForLoop, Some(23))] + [Scope(EmbeddedBody, Some(24))], tr.events + [Declared(23, i, Pos(27, 18), Initialized, [])] + [Referenced(24, i, Pos(27, 25), false, false, [])], 7)) == Tree(tr.scopes + [Scope(ForInit, Some(4))] + [Scope(ForLoop, Some(23))] + [Scope(EmbeddedBody, Some(24))], tr.events + [Declared(23, i, Pos(27, 18), Initialized, [])] + [Referenced(24, i, Pos(27, 25), false, false, [])] + [Declared(25, p, Pos(28, 42), Initialized, [6])], 7);
    assert WalkExprs([Declare(p, Pos(28, 42), Initialized)], Ctx(25, [6], []), Tree(tr.scopes + [Scope(ForInit, Some(4))] + [Scope(ForLoop, Some(23))] + [Scope(EmbeddedBody, Some(24))], tr.events + [Declared(23, i, Pos(27, 18), Initialized, [])] + [Referenced(24, i, Pos(27, 25), false, false, [])], 7)) == Tree(tr.scopes + [Scope(ForInit, Some(4))] + [Scope(ForLoop, Some(23))] + [Scope(EmbeddedBody, Some(24))], tr.events + [Declared(23, i, Pos(27, 18), Initialized, [])] + [Referenced(24, i, Pos(27, 25), false, false, [])] + [Declared(25, p, Pos(28, 42), Initialized, [6])], 7);
    OutNamesOfOne(Declare(p, Pos(28, 42), Initialized));
    OutNamesSnoc([], Argument([Declare(p, Pos(28, 42), Initialized)]));
    assert WalkArgs([Argument([Declare(p, Pos(28, 42), Initialized)])], [], Ctx(25, [6], []), Tree(tr.scopes + [Scope(ForInit, Some(4))] + [Scope(ForLoop, Some(23))] + [Scope(EmbeddedBody, Some(24))], tr.events + [Declared(23, i, Pos(27, 18), Initialized, [])] + [Referenced(24, i, Pos(27, 25), false, false, [])], 7)) == Tree(tr.scopes + [Scope(ForInit, Some(4))] + [Scope(ForLoop, Some(23))] + [Scope(EmbeddedBody, Some(24))], tr.events + [Declared(23, i, Pos(27, 18), Initialized, [])] + [Referenced(24, i, Pos(27, 25), false, false, [])] + [Declared(25, p, Pos(28, 42), Initialized, [6])], 7);
    assert OutNames([Argument([Declare(p, Pos(28, 42), Initialized)])]) == [];
    assert WalkExpr(Call([Argument([Declare(p, Pos(28, 42), Initialized)])]), Ctx(25, [6], []), Tree(tr.scopes + [Scope(ForInit, Some(4))] + [Scope(ForLoop, Some(23))] + [Scope(EmbeddedBody, Some(24))], tr.events + [Declared(23, i, Pos(27, 18), Initialized, [])] + [Referenced(24, i, Pos(27, 25), false, false, [])], 7)) == Tree(tr.scopes + [Scope(ForInit, Some(4))] + [Scope(ForLoop, Some(23))] + [Scope(EmbeddedBody, Some(24))], tr.events + [Declared(23, i, Pos(27, 18), Initialized, [])] + [Referenced(24, i, Pos(27, 25), false, false, [])] + [Declared(25, p, Pos(28, 42), Initialized, [6])] + [OutAssigned(25, [], [6])], 7);
    assert WalkExprs([Call([Argument([Declare(p, Pos(28, 42), Initialized)])])], Ctx(25, [6], []), Tree(tr.scopes + [Scope(ForInit, Some(4))] + [Scope(ForLoop, Some(23))] + [Scope(EmbeddedBody, Some(24))], tr.events + [Declared(23, i, Pos(27, 18), Initialized, [])] + [Referenced(24, i, Pos(27, 25), false, false, [])], 7)) == Tree(tr.scopes + [Scope(ForInit, Some(4))] + [Scope(ForLoop, Some(23))] + [Scope(EmbeddedBody, Some(24))], tr.events + [Declared(23, i, Pos(27, 18), Initialized, [])] + [Referenced(24, i, Pos(27, 25), false, false, [])] + [Declared(25, p, Pos(28, 42), Initialized, [6])] + [OutAssigned(25, [], [6])], 7);
    assert WalkStmt(Exprs([Call([Argument([Declare(p, Pos(28, 42), Initialized)])])]), Ctx(25, [6], []), Tree(tr.scopes + [Scope(ForInit, Some(4))] + [Scope(ForLoop, Some(23))] + [Scope(EmbeddedBody, Some(24))], tr.events + [Declared(23, i, Pos(27, 18), Initialized, [])] + [Referenced(24, i, Pos(27, 25), false, false, [])], 7)) == Tree(tr.scopes + [Scope(ForInit, Some(4))] + [Scope(ForLoop, Some(23))] + [Scope(EmbeddedBody, Some(24))], tr.events + [Declared(23, i, Pos(27, 18), Initialized, [])] + [Referenced(24, i, Pos(27, 25), false, false, [])] + [Declared(25, p, Pos(28, 42), Initialized, [6])] + [OutAssigned(25, [], [6])], 7);
    assert WalkEmbedded(Exprs([Call([Argument([Declare(p, Pos(28, 42), Initialized)])])]), Ctx(24, [6], []), Tree(tr.scopes + [Scope(ForInit, Some(4))] + [Scope(ForLoop, Some(23))], tr.events + [Declared(23, i, Pos(27, 18), Initialized, [])] + [Referenced(24, i, Pos(27, 25), false, false, [])], 7)) == Tree(tr.scopes + [Scope(ForInit, Some(4))] + [Scope(ForLoop, Some(23))] + [Scope(EmbeddedBody, Some(24))], tr.events + [Declared(23, i, Pos(27, 18), Initialized, [])] + [Referenced(24, i, Pos(27, 25), false, false, [])] + [Declared(25, p, Pos(28, 42), Initialized, [6])] + [OutAssigned(25, [], [6])], 7);
    WalkExprsCons(Use(i, Pos(27, 32), true), [Use(p, Pos(27, 36), false)], Ctx(24, [6], []), Tree(tr.scopes + [Scope(ForInit, Some(4))] + [Scope(ForLoop, Some(23))] + [Scope(EmbeddedBody, Some(24))], tr.events + [Declared(23, i, Pos(27, 18), Initialized, [])] + [Referenced(24, i, Pos(27, 25), false, false, [])] + [Declared(25, p, Pos(28, 42), Initialized, [6])] + [OutAssigned(25, [], [6])], 7));
    assert WalkExpr(Use(i, Pos(27, 32), true), Ctx(24, [6], []), Tree(tr.scopes + [Scope(ForInit, Some(4))] + [Scope(ForLoop, Some(23))] + [Scope(EmbeddedBody, Some(24))], tr.events + [Declared(23, i, Pos(27, 18), Initialized, [])] + [Referenced(24, i, Pos(27, 25), false, false, [])] + [Declared(25, p, Pos(28, 42), Initialized, [6])] + [OutAssigned(25, [], [6])], 7)) == Tree(tr.scopes + [Scope(ForInit, Some(4))] + [Scope(ForLoop, Some(23))] + [Scope(EmbeddedBody, Some(24))], tr.events + [Declared(23, i, Pos(27, 18), Initialized, [])] + [Referenced(24, i, Pos(27, 25), false, false, [])] + [Declared(25, p, Pos(28, 42), Initialized, [6])] + [OutAssigned(25, [], [6])] + [Referenced(24, i, Pos(27, 32), true, false, [6])], 7);
    WalkExprsOne(Use(p, Pos(27, 36), false), Ctx(24, [6], []), Tree(tr.scopes + [Scope(ForInit, Some(4))] + [Scope(ForLoop, Some(23))] + [Scope(EmbeddedBody, Some(24))], tr.events + [Declared(23, i, Pos(27, 18), Initialized, [])] + [Referenced(24, i, Pos(27, 25), false, false, [])] + [Declared(25, p, Pos(28, 42), Initialized, [6])] + [OutAssigned(25, [], [6])] + [Referenced(24, i, Pos(27, 32), true, false, [6])], 7));
    assert WalkExpr(Use(p, Pos(27, 36), false), Ctx(24, [6], []), Tree(tr.scopes + [Scope(ForInit, Some(4))] + [Scope(ForLoop, Some(23))] + [Scope(EmbeddedBody, Some(24))], tr.events + [Declared(23, i, Pos(27, 18), Initialized, [])] + [Referenced(24, i, Pos(27, 25), false, false, [])] + [Declared(25, p, Pos(28, 42), Initialized, [6])] + [OutAssigned(25, [], [6])] + [Referenced(24, i, Pos(27, 32), true, false, [6])], 7)) == Tree(tr.scopes + [Scope(ForInit, Some(4))] + [Scope(ForLoop, Some(23))] + [Scope(EmbeddedBody, Some(24))], tr.events + [Declared(23, i, Pos(27, 18), Initialized, [])] + [Referenced(24, i, Pos(27, 25), false, false, [])] + [Declared(25, p, Pos(28, 42), Initialized, [6])] + [OutAssigned(25, [], [6])] + [Referenced(24, i, Pos(27, 32), true, false, [6])] + [Referenced(24, p, Pos(27, 36), false, false, [6])], 7);
    assert WalkExprs([Use(i, Pos(27, 32), true)] + ([Use(p, Pos(27, 36), false)]), Ctx(24, [6], []), Tree(tr.scopes + [Scope(ForInit, Some(4))] + [Scope(ForLoop, Some(23))] + [Scope(EmbeddedBody, Some(24))], tr.events + [Declared(23, i, Pos(27, 18), Initialized, [])] + [Referenced(24, i, Pos(27, 25), false, false, [])] + [Declared(25, p, Pos(28, 42), Initialized, [6])] + [OutAssigned(25, [], [6])], 7)) == Tree(tr.scopes + [Scope(ForInit, Some(4))] + [Scope(ForLoop, Some(23))] + [Scope(EmbeddedBody, Some(24))], tr.events + [Declared(23, i, Pos(27, 18), Initialized, [])] + [Referenced(24, i, Pos(27, 25), false, false, [])] + [Declared(25, p, Pos(28, 42), Initialized, [6])] + [OutAssigned(25, [], [6])] + [Referenced(24, i, Pos(27, 32), true, false, [6])] + [Referenced(24, p, Pos(27, 36), false, false, [6])], 7);
    assert WalkStmt(For([Declare(i, Pos(27, 18), Initialized)], [Use(i, Pos(27, 25), false)], [Use(i, Pos(27, 32), true)] + ([Use(p, Pos(27, 36), false)]), Exprs([Call([Argument([Declare(p, Pos(28, 42), Initialized)])])])), Ctx(4, [], []), tr) == Tree(tr.scopes + [Scope(ForInit, Some(4))] + [Scope(ForLoop, Some(23))] + [Scope(EmbeddedBody, Some(24))], tr.events + [Declared(23, i, Pos(27, 18), Initialized, [])] + [Referenced(24, i, Pos(27, 25), false, false, [])] + [Declared(25, p, Pos(28, 42), Initialized, [6])] + [OutAssigned(25, [], [6])] + [Referenced(24, i, Pos(27, 32), true, false, [6])] + [Referenced(24, p, Pos(27, 36), false, false, [6])], 7);
  }

  lemma {:induction false} Walk15(i: string, j: string, k: string, l: string, m: string, n: string, o: string, p: string, q: string, r: string, tr: Tree)
    requires |tr.scopes| == 29 && tr.arms == 8
    ensures WalkStmt(Exprs([Call([Argument([Declare(q, Pos(32, 43), Initialized)] + ([Use(q, Pos(32, 52), false)]))])]), Ctx(28, [7], []), tr) == Tree(tr.scopes, tr.events + [Declared(28, q, Pos(32, 43), Initialized, [7])] + [Referenced(28, q, Pos(32, 52), false, false, [7])] + [OutAssigned(28, [], [7])], 8)
  {
    WalkExprsOne(Call([Argument([Declare(q, Pos(32, 43), Initialized)] + ([Use(q, Pos(32, 52), false)]))]), Ctx(28, [7], []), tr);
    assert OutNames([]) == [];
    WalkArgsOne(Argument([Declare(q, Pos(32, 43), Initialized)] + ([Use(q, Pos(32, 52), false)])), [], Ctx(28, [7], []), tr);
    WalkExprsCons(Declare(q, Pos(32, 43), Initialized), [Use(q, Pos(32, 52), false)], Ctx(28, [7], []), tr);
    assert WalkExpr(Declare(q, Pos(32, 43), Initialized), Ctx(28, [7], []), tr) == Tree(tr.scopes, tr.events + [Declared(28, q, Pos(32, 43), Initialized, [7])], 8);
    WalkExprsOne(Use(q, Pos(32, 52), false), Ctx(28, [7], []), Tree(tr.scopes, tr.events + [Declared(28, q, Pos(32, 43), Initialized, [7])], 8));
    assert WalkExpr(Use(q, Pos(32, 52), false), Ctx(28, [7], []), Tree(tr.scopes, tr.events + [Declared(28, q, Pos(32, 43), Initialized, [7])], 8)) == Tree(tr.scopes, tr.events + [Declared(28, q, Pos(32, 43), Initialized, [7])] + [Referenced(28, q, Pos(32, 52), false, false, [7])], 8);
    assert WalkExprs([Declare(q, Pos(32, 43), Initialized)] + ([Use(q, Pos(32, 52), false)]), Ctx(28, [7], []), tr) == Tree(tr.scopes, tr.events + [Declared(28, q, Pos(32, 43), Initialized, [7])] + [Referenced(28, q, Pos(32, 52), false, false, [7])], 8);
    OutNamesOfCons(Declare(q, Pos(32, 43), Initialized), [Use(q, Pos(32, 52), false)]);
    OutNamesOfOne(Use(q, Pos(32, 52), false));
    OutNamesSnoc([], Argument([Declare(q, Pos(32, 43), Initialized)] + ([Use(q, Pos(32, 52), false)])));
    assert WalkArgs([Argument([Declare(q, Pos(32, 43), Initialized)] + ([Use(q, Pos(32, 52), false)]))], [], Ctx(28, [7], []), tr) == Tree(tr.scopes, tr.events + [Declared(28, q, Pos(32, 43), Initialized, [7])] + [Referenced(28, q, Pos(32, 52), false, false, [7])], 8);
    assert OutNames([Argument([Declare(q, Pos(32, 43), Initialized)] + ([Use(q, Pos(32, 52), false)]))]) == [];
    assert WalkExpr(Call([Argument([Declare(q, Pos(32, 43), Initialized)] + ([Use(q, Pos(32, 52), false)]))]), Ctx(28, [7], []), tr) == Tree(tr.scopes, tr.events + [Declared(28, q, Pos(32, 43), Initialized, [7])] + [Referenced(28, q, Pos(32, 52), false, false, [7])] + [OutAssigned(28, [], [7])], 8);
    assert WalkExprs([Call([Argument([Declare(q, Pos(32, 43), Initialized)] + ([Use(q, Pos(32, 52), false)]))])], Ctx(28, [7], []), tr) == Tree(tr.scopes, tr.events + [Declared(28, q, Pos(32, 43), Initialized, [7])] + [Referenced(28, q, Pos(32, 52), false, false, [7])] + [OutAssigned(28, [], [7])], 8);
    assert WalkStmt(Exprs([Call([Argument([Declare(q, Pos(32, 43), Initialized)] + ([Use(q, Pos(32, 52), false)]))])]), Ctx(28, [7], []), tr) == Tree(tr.scopes, tr.events + [Declared(28, q, Pos(32, 43), Initialized, [7])] + [Referenced(28, q, Pos(32, 52), false, false, [7])] + [OutAssigned(28, [], [7])], 8);
  }

  lemma {:induction false} Walk14(i: string, j: string, k: string, l: string, m: string, n: string, o: string, p: string, q: string, r: string, tr: Tree)
    requires |tr.scopes| == 26 && tr.arms == 7
    ensures WalkStmt(For([Declare(i, Pos(30, 18), Initialized)], [Use(i, Pos(30, 25), false)] + ([Use(q, Pos(30, 29), false)]), [Use(i, Pos(30, 32), false)], Block([Exprs([Call([Argument([Declare(q, Pos(32, 43), Initialized)] + ([Use(q, Pos(32, 52), false)]))])])])), Ctx(4, [], []), tr) == Tree(tr.scopes + [Scope(ForInit, Some(4))] + [Scope(ForLoop, Some(26))] + [Scope(BlockBody, Some(27))], tr.events + [Declared(26, i, Pos(30, 18), Initialized, [])] + [Referenced(27, i, Pos(30, 25), false, false, [])] + [Referenced(27, q, Pos(30, 29), false, false, [])] + [Declared(28, q, Pos(32, 43), Initialized, [7])] + [Referenced(28, q, Pos(32, 52), false, false, [7])] + [OutAssigned(28, [], [7])] + [Referenced(27, i, Pos(30, 32), false, false, [7])], 8)
  {
    WalkExprsOne(Declare(i, Pos(30, 18), Initialized), Ctx(26, [], []), Tree(tr.scopes + [Scope(ForInit, Some(4))] + [Scope(ForLoop, Some(26))], tr.events, 7));
    assert WalkExpr(Declare(i, Pos(30, 18), Initialized), Ctx(26, [], []), Tree(tr.scopes + [Scope(ForInit, Some(4))] + [Scope(ForLoop, Some(26))], tr.events, 7)) == Tree(tr.scopes + [Scope(ForInit, Some(4))] + [Scope(ForLoop, Some(26))], tr.events + [Declared(26, i, Pos(30, 18), Initialized, [])], 7);
    assert WalkExprs([Declare(i, Pos(30, 18), Initialized)], Ctx(26, [], []), Tree(tr.scopes + [Scope(ForInit, Some(4))] + [Scope(ForLoop, Some(26))], tr.events, 7)) == Tree(tr.scopes + [Scope(ForInit, Some(4))] + [Scope(ForLoop, Some(26))], tr.events + [Declared(26, i, Pos(30, 18), Initialized, [])], 7);
    WalkExprsCons(Use(i, Pos(30, 25), false), [Use(q, Pos(30, 29), false)], Ctx(27, [], []), Tree(tr.scopes + [Scope(ForInit, Some(4))] + [Scope(ForLoop, Some(26))], tr.events + [Declared(26, i, Pos(30, 18), Initialized, [])], 7));
    assert WalkExpr(Use(i, Pos(30, 25), false), Ctx(27, [], []), Tree(tr.scopes + [Scope(ForInit, Some(4))] + [Scope(ForLoop, Some(26))], tr.events + [Declared(26, i, Pos(30, 18), Initialized, [])], 7)) == Tree(tr.scopes + [Scope(ForInit, Some(4))] + [Scope(ForLoop, Some(26))], tr.events + [Declared(26, i, Pos(30, 18), Initialized, [])] + [Referenced(27, i, Pos(30, 25), false, false, [])], 7);
    WalkExprsOne(Use(q, Pos(30, 29), false), Ctx(27, [], []), Tree(tr.scopes + [Scope(ForInit, Some(4))] + [Scope(ForLoop, Some(26))], tr.events + [Declared(26, i, Pos(30, 18), Initialized, [])] + [Referenced(27, i, Pos(30, 25), false, false, [])], 7));
    assert WalkExpr(Use(q, Pos(30, 29), false), Ctx(27, [], []), Tree(tr.scopes + [Scope(ForInit, Some(4))] + [Scope(ForLoop, Some(26))], tr.events + [Declared(26, i, Pos(30, 18), Initialized, [])] + [Referenced(27, i, Pos(30, 25), false, false, [])], 7)) == Tree(tr.scopes + [Scope(ForInit, Some(4))] + [Scope(ForLoop, Some(26))], tr.events + [Declared(26, i, Pos(30, 18), Initialized, [])] + [Referenced(27, i, Pos(30, 25), false, false, [])] + [Referenced(27, q, Pos(30, 29), false, false, [])], 7);
    assert WalkExprs([Use(i, Pos(30, 25), false)] + ([Use(q, Pos(30, 29), false)]), Ctx(27, [], []), Tree(tr.scopes + [Scope(ForInit, Some(4))] + [Scope(ForLoop, Some(26))], tr.events + [Declared(26, i, Pos(30, 18), Initialized, [])], 7)) == Tree(tr.scopes + [Scope(ForInit, Some(4))] + [Scope(ForLoop, Some(26))], tr.events + [Declared(26, i, Pos(30, 18), Initialized, [])] + [Referenced(27, i, Pos(30, 25), false, false, [])] + [Referenced(27, q, Pos(30, 29), false, false, [])], 7);
    assert [] + [7] == [7];
    WalkStmtsOne(Exprs([Call([Argument([Declare(q, Pos(32, 43), Initialized)] + ([Use(q, Pos(32, 52), false)]))])]), Ctx(28, [7], []), Tree(tr.scopes + [Scope(ForInit, Some(4))] + [Scope(ForLoop, Some(26))] + [Scope(BlockBody, Some(27))], tr.events + [Declared(26, i, Pos(30, 18), Initialized, [])] + [Referenced(27, i, Pos(30, 25), false, false, [])] + [Referenced(27, q, Pos(30, 29), false, false, [])], 8));
    Walk15(i, j, k, l, m, n, o, p, q, r, Tree(tr.scopes + [Scope(ForInit, Some(4))] + [Scope(ForLoop, Some(26))] + [Scope(BlockBody, Some(27))], tr.events + [Declared(26, i, Pos(30, 18), Initialized, [])] + [Referenced(27, i, Pos(30, 25), false, false, [])] + [Referenced(27, q, Pos(30, 29), false, false, [])], 8));
    assert WalkStmt(Exprs([Call([Argument([Declare(q, Pos(32, 43), Initialized)] + ([Use(q, Pos(32, 52), false)]))])]), Ctx(28, [7], []), Tree(tr.scopes + [Scope(ForInit, Some(4))] + [Scope(ForLoop, Some(26))] + [Scope(BlockBody, Some(27))], tr.events + [Declared(26, i, Pos(30, 18), Initialized, [])] + [Referenced(27, i, Pos(30, 25), false, false, [])] + [Referenced(27, q, Pos(30, 29), false, false, [])], 8)) == Tree(tr.scopes + [Scope(ForInit, Some(4))] + [Scope(ForLoop, Some(26))] + [Scope(BlockBody, Some(27))], tr.events + [Declared(26, i, Pos(30, 18), Initialized, [])] + [Referenced(27, i, Pos(30, 25), false, false, [])] + [Referenced(27, q, Pos(30, 29), false, false, [])] + [Declared(28, q, Pos(32, 43), Initialized, [7])] + [Referenced(28, q, Pos(32, 52), false, false, [7])] + [OutAssigned(28, [], [7])], 8);
    assert WalkEmbedded(Block([Exprs([Call([Argument([Declare(q, Pos(32, 43), Initialized)] + ([Use(q, Pos(32, 52), false)]))])])]), Ctx(27, [7], []), Tree(tr.scopes + [Scope(ForInit, Some(4))] + [Scope(ForLoop, Some(26))], tr.events + [Declared(26, i, Pos(30, 18), Initialized, [])] + [Referenced(27, i, Pos(30, 25), false, false, [])] + [Referenced(27, q, Pos(30, 29), false, false, [])], 8)) == Tree(tr.scopes + [Scope(ForInit, Some(4))] + [Scope(ForLoop, Some(26))] + [Scope(BlockBody, Some(27))], tr.events + [Declared(26, i, Pos(30, 18), Initialized, [])] + [Referenced(27, i, Pos(30, 25), false, false, [])] + [Referenced(27, q, Pos(30, 29), false, false, [])] + [Declared(28, q, Pos(32, 43), Initialized, [7])] + [Referenced(28, q, Pos(32, 52), false, false, [7])] + [OutAssigned(28, [], [7])], 8);
    WalkExprsOne(Use(i, Pos(30, 32), false), Ctx(27, [7], []), Tree(tr.scopes + [Scope(ForInit, Some(4))] + [Scope(ForLoop, Some(26))] + [Scope(BlockBody, Some(27))], tr.events + [Declared(26, i, Pos(30, 18), Initialized, [])] + [Referenced(27, i, Pos(30, 25), false, false, [])] + [Referenced(27, q, Pos(30, 29), false, false, [])] + [Declared(28, q, Pos(32, 43), Initialized, [7])] + [Referenced(28, q, Pos(32, 52), false, false, [7])] + [OutAssigned(28, [], [7])], 8));
    assert WalkExpr(Use(i, Pos(30, 32), false), Ctx(27, [7], []), Tree(tr.scopes + [Scope(ForInit, Some(4))] + [Scope(ForLoop, Some(26))] + [Scope(BlockBody, Some(27))], tr.events + [Declared(26, i, Pos(30, 18), Initialized, [])] + [Referenced(27, i, Pos(30, 25), false, false, [])] + [Referenced(27, q, Pos(30, 29), false, false, [])] + [Declared(28, q, Pos(32, 43), Initialized, [7])] + [Referenced(28, q, Pos(32, 52), false, false, [7])] + [OutAssigned(28, [], [7])], 8)) == Tree(tr.scopes + [Scope(ForInit, Some(4))] + [Scope(ForLoop, Some(26))] + [Scope(BlockBody, Some(27))], tr.events + [Declared(26, i, Pos(30, 18), Initialized, [])] + [Referenced(27, i, Pos(30, 25), false, false, [])] + [Referenced(27, q, Pos(30, 29), false, false, [])] + [Declared(28, q, Pos(32, 43), Initialized, [7])] + [Referenced(28, q, Pos(32, 52), false, false, [7])] + [OutAssigned(28, [], [7])] + [Referenced(27, i, Pos(30, 32), false, false, [7])], 8);
    assert WalkExprs([Use(i, Pos(30, 32), false)], Ctx(27, [7], []), Tree(tr.scopes + [Scope(ForInit, Some(4))] + [Scope(ForLoop, Some(26))] + [Scope(BlockBody, Some(27))], tr.events + [Declared(26, i, Pos(30, 18), Initialized, [])] + [Referenced(27, i, Pos(30, 25), false, false, [])] + [Referenced(27, q, Pos(30, 29), false, false, [])] + [Declared(28, q, Pos(32, 43), Initialized, [7])] + [Referenced(28, q, Pos(32, 52), false, false, [7])] + [OutAssigned(28, [], [7])], 8)) == Tree(tr.scopes + [Scope(ForInit, Some(4))] + [Scope(ForLoop, Some(26))] + [Scope(BlockBody, Some(27))], tr.events + [Declared(26, i, Pos(30, 18), Initialized, [])] + [Referenced(27, i, Pos(30, 25), false, false, [])] + [Referenced(27, q, Pos(30, 29), false, false, [])] + [Declared(28, q, Pos(32, 43), Initialized, [7])] + [Referenced(28, q, Pos(32, 52), false, false, [7])] + [OutAssigned(28, [], [7])] + [Referenced(27, i, Pos(30, 32), false, false, [7])], 8);
    assert WalkStmt(For([Declare(i, Pos(30, 18), Initialized)], [Use(i, Pos(30, 25), false)] + ([Use(q, Pos(30, 29), false)]), [Use(i, Pos(30, 32), false)], Block([Exprs([Call([Argument([Declare(q, Pos(32, 43), Initialized)] + ([Use(q, Pos(32, 52), false)]))])])])), Ctx(4, [], []), tr) == Tree(tr.scopes + [Scope(ForInit, Some(4))] + [Scope(ForLoop, Some(26))] + [Scope(BlockBody, Some(27))], tr.events + [Declared(26, i, Pos(30, 18), Initialized, [])] + [Referenced(27, i, Pos(30, 25), false, false, [])] + [Referenced(27, q, Pos(30, 29), false, false, [])] + [Declared(28, q, Pos(32, 43), Initialized, [7])] + [Referenced(28, q, Pos(32, 52), false, false, [7])] + [OutAssigned(28, [], [7])] + [Referenced(27, i, Pos(30, 32), false, false, [7])], 8);
  }

  lemma {:induction false} Walk17(i: string, j: string, k: string, l: string, m: string, n: string, o: string, p: string, q: string, r: string, tr: Tree)
    requires |tr.scopes| == 32 && tr.arms == 9
    ensures WalkStmt(Exprs([Call([Argument([Declare(r, Pos(37, 42), Initialized)])])]), Ctx(31, [8], []), tr) == Tree(tr.scopes, tr.events + [Declared(31, r, Pos(37, 42), Initialized, [8])] + [OutAssigned(31, [], [8])], 9)
  {
    WalkExprsOne(Call([Argument([Declare(r, Pos(37, 42), Initialized)])]), Ctx(31, [8], []), tr);
    assert OutNames([]) == [];
    WalkArgsOne(Argument([Declare(r, Pos(37, 42), Initialized)]), [], Ctx(31, [8], []), tr);
    WalkExprsOne(Declare(r, Pos(37, 42), Initialized), Ctx(31, [8], []), tr);
    assert WalkExpr(Declare(r, Pos(37, 42), Initialized), Ctx(31, [8], []), tr) == Tree(tr.scopes, tr.events + [Declared(31, r, Pos(37, 42), Initialized, [8])], 9);
    assert WalkExprs([Declare(r, Pos(37, 42), Initialized)], Ctx(31, [8], []), tr) == Tree(tr.scopes, tr.events + [Declared(31, r, Pos(37, 42), Initialized, [8])], 9);
    OutNamesOfOne(Declare(r, Pos(37, 42), Initialized));
    OutNamesSnoc([], Argument([Declare(r, Pos(37, 42), Initialized)]));
    assert WalkArgs([Argument([Declare(r, Pos(37, 42), Initialized)])], [], Ctx(31, [8], []), tr) == Tree(tr.scopes, tr.events + [Declared(31, r, Pos(37, 42), Initialized, [8])], 9);
    assert OutNames([Argument([Declare(r, Pos(37, 42), Initialized)])]) == [];
    assert WalkExpr(Call([Argument([Declare(r, Pos(37, 42), Initialized)])]), Ctx(31, [8], []), tr) == Tree(tr.scopes, tr.events + [Declared(31, r, Pos(37, 42), Initialized, [8])] + [OutAssigned(31, [], [8])], 9);
    assert WalkExprs([Call([Argument([Declare(r, Pos(37, 42), Initialized)])])], Ctx(31, [8], []), tr) == Tree(tr.scopes, tr.events + [Declared(31, r, Pos(37, 42), Initialized, [8])] + [OutAssigned(31, [], [8])], 9);
    assert WalkStmt(Exprs([Call([Argument([Declare(r, Pos(37, 42), Initialized)])])]), Ctx(31, [8], []), tr) == Tree(tr.scopes, tr.events + [Declared(31, r, Pos(37, 42), Initialized, [8])] + [OutAssigned(31, [], [8])], 9);
  }

  lemma {:induction false} Walk16(i: string, j: string, k: string, l: string, m: string, n: string, o: string, p: string, q: string, r: string, tr: Tree)
    requires |tr.scopes| == 29 && tr.arms == 8
    ensures WalkStmt(For([Declare(i, Pos(35, 18), Initialized)], [Use(i, Pos(35, 25), false)], [Use(i, Pos(35, 32), true)] + ([Use(r, Pos(35, 36), false)]), Block([Exprs([Call([Argument([Declare(r, Pos(37, 42), Initialized)])])])])), Ctx(4, [], []), tr) == Tree(tr.scopes + [Scope(ForInit, Some(4))] + [Scope(ForLoop, Some(29))] + [Scope(BlockBody, Some(30))], tr.events + [Declared(29, i, Pos(35, 18), Initialized, [])] + [Referenced(30, i, Pos(35, 25), false, false, [])] + [Declared(31, r, Pos(37, 42), Initialized, [8])] + [OutAssigned(31, [], [8])] + [Referenced(30, i, Pos(35, 32), true, false, [8])] + [Referenced(30, r, Pos(35, 36), false, false, [8])], 9)
  {
    WalkExprsOne(Declare(i, Pos(35, 18), Initialized), Ctx(29, [], []), Tree(tr.scopes + [Scope(ForInit, Some(4))] + [Scope(ForLoop, Some(29))], tr.events, 8));
    assert WalkExpr(Declare(i, Pos(35, 18), Initialized), Ctx(29, [], []), Tree(tr.scopes + [Scope(ForInit, Some(4))] + [Scope(ForLoop, Some(29))], tr.events, 8)) == Tree(tr.scopes + [Scope(ForInit, Some(4))] + [Scope(ForLoop, Some(29))], tr.events + [Declared(29, i, Pos(35, 18), Initialized, [])], 8);
    assert WalkExprs([Declare(i, Pos(35, 18), Initialized)], Ctx(29, [], []), Tree(tr.scopes + [Scope(ForInit, Some(4))] + [Scope(ForLoop, Some(29))], tr.events, 8)) == Tree(tr.scopes + [Scope(ForInit, Some(4))] + [Scope(ForLoop, Some(29))], tr.events + [Declared(29, i, Pos(35, 18), Initialized, [])], 8);
    WalkExprsOne(Use(i, Pos(35, 25), false), Ctx(30, [], []), Tree(tr.scopes + [Scope(ForInit, Some(4))] + [Scope(ForLoop, Some(29))], tr.events + [Declared(29, i, Pos(35, 18), Initialized, [])], 8));
    assert WalkExpr(Use(i, Pos(35, 25), false), Ctx(30, [], []), Tree(tr.scopes + [Scope(ForInit, Some(4))] + [Scope(ForLoop, Some(29))], tr.events + [Declared(29, i, Pos(35, 18), Initialized, [])], 8)) == Tree(tr.scopes + [Scope(ForInit, Some(4))] + [Scope(ForLoop, Some(29))], tr.events + [Declared(29, i, Pos(35, 18), Initialized, [])] + [Referenced(30, i, Pos(35, 25), false, false, [])], 8);
    assert WalkExprs([Use(i, Pos(35, 25), false)], Ctx(30, [], []), Tree(tr.scopes + [Scope(ForInit, Some(4))] + [Scope(ForLoop, Some(29))], tr.events + [Declared(29, i, Pos(35, 18), Initialized, [])], 8)) == Tree(tr.scopes + [Scope(ForInit, Some(4))] + [Scope(ForLoop, Some(29))], tr.events + [Declared(29, i, Pos(35, 18), Initialized, [])] + [Referenced(30, i, Pos(35, 25), false, false, [])], 8);
    assert [] + [8] == [8];
    WalkStmtsOne(Exprs([Call([Argument([Declare(r, Pos(37, 42), Initialized)])])]), Ctx(31, [8], []), Tree(tr.scopes + [Scope(ForInit, Some(4))] + [Scope(ForLoop, Some(29))] + [Scope(BlockBody, Some(30))], tr.events + [Declared(29, i, Pos(35, 18), Initialized, [])] + [Referenced(30, i, Pos(35, 25), false, false, [])], 9));
    Walk17(i, j, k, l, m, n, o, p, q, r, Tree(tr.scopes + [Scope(ForInit, Some(4))] + [Scope(ForLoop, Some(29))] + [Scope(BlockBody, Some(30))], tr.events + [Declared(29, i, Pos(35, 18), Initialized, [])] + [Referenced(30, i, Pos(35, 25), false, false, [])], 9));
    assert WalkStmt(Exprs([Call([Argument([Declare(r, Pos(37, 42), Initialized)])])]), Ctx(31, [8], []), Tree(tr.scopes + [Scope(ForInit, Some(4))] + [Scope(ForLoop, Some(29))] + [Scope(BlockBody, Some(30))], tr.events + [Declared(29, i, Pos(35, 18), Initialized, [])] + [Referenced(30, i, Pos(35, 25), false, false, [])], 9)) == Tree(tr.scopes + [Scope(ForInit, Some(4))] + [Scope(ForLoop, Some(29))] + [Scope(BlockBody, Some(30))], tr.events + [Declared(29, i, Pos(35, 18), Initialized, [])] + [Referenced(30, i, Pos(35, 25), false, false, [])] + [Declared(31, r, Pos(37, 42), Initialized, [8])] + [OutAssigned(31, [], [8])], 9);
    assert WalkEmbedded(Block([Exprs([Call([Argument([Declare(r, Pos(37, 42), Initialized)])])])]), Ctx(30, [8], []), Tree(tr.scopes + [Scope(ForInit, Some(4))] + [Scope(ForLoop, Some(29))], tr.events + [Declared(29, i, Pos(35, 18), Initialized, [])] + [Referenced(30, i, Pos(35, 25), false, false, [])], 9)) == Tree(tr.scopes + [Scope(ForInit, Some(4))] + [Scope(ForLoop, Some(29))] + [Scope(BlockBody, Some(30))], tr.events + [Declared(29, i, Pos(35, 18), Initialized, [])] + [Referenced(30, i, Pos(35, 25), false, false, [])] + [Declared(31, r, Pos(37, 42), Initialized, [8])] + [OutAssigned(31, [], [8])], 9);
    WalkExprsCons(Use(i, Pos(35, 32), true), [Use(r, Pos(35, 36), false)], Ctx(30, [8], []), Tree(tr.scopes + [Scope(ForInit, Some(4))] + [Scope(ForLoop, Some(29))] + [Scope(BlockBody, Some(30))], tr.events + [Declared(29, i, Pos(35, 18), Initialized, [])] + [Referenced(30, i, Pos(35, 25), false, false, [])] + [Declared(31, r, Pos(37, 42), Initialized, [8])] + [OutAssigned(31, [], [8])], 9));
    assert WalkExpr(Use(i, Pos(35, 32), true), Ctx(30, [8], []), Tree(tr.scopes + [Scope(ForInit, Some(4))] + [Scope(ForLoop, Some(29))] + [Scope(BlockBody, Some(30))], tr.events + [Declared(29, i, Pos(35, 18), Initialized, [])] + [Referenced(30, i, Pos(35, 25), false, false, [])] + [Declared(31, r, Pos(37, 42), Initialized, [8])] + [OutAssigned(31, [], [8])], 9)) == Tree(tr.scopes + [Scope(ForInit, Some(4))] + [Scope(ForLoop, Some(29))] + [Scope(BlockBody, Some(30))], tr.events + [Declared(29, i, Pos(35, 18), Initialized, [])] + [Referenced(30, i, Pos(35, 25), false, false, [])] + [Declared(31, r, Pos(37, 42), Initialized, [8])] + [OutAssigned(31, [], [8])] + [Referenced(30, i, Pos(35, 32), true, false, [8])], 9);
    WalkExprsOne(Use(r, Pos(35, 36), false), Ctx(30, [8], []), Tree(tr.scopes + [Scope(ForInit, Some(4))] + [Scope(ForLoop, Some(29))] + [Scope(BlockBody, Some(30))], tr.events + [Declared(29, i, Pos(35, 18), Initialized, [])] + [Referenced(30, i, Pos(35, 25), false, false, [])] + [Declared(31, r, Pos(37, 42), Initialized, [8])] + [OutAssigned(31, [], [8])] + [Referenced(30, i, Pos(35, 32), true, false, [8])], 9));
    assert WalkExpr(Use(r, Pos(35, 36), false), Ctx(30, [8], []), Tree(tr.scopes + [Scope(ForInit, Some(4))] + [Scope(ForLoop, Some(29))] + [Scope(BlockBody, Some(30))], tr.events + [Declared(29, i, Pos(35, 18), Initialized, [])] + [Referenced(30, i, Pos(35, 25), false, false, [])] + [Declared(31, r, Pos(37, 42), Initialized, [8])] + [OutAssigned(31, [], [8])] + [Referenced(30, i, Pos(35, 32), true, false, [8])], 9)) == Tree(tr.scopes + [Scope(ForInit, Some(4))] + [Scope(ForLoop, Some(29))] + [Scope(BlockBody, Some(30))], tr.events + [Declared(29, i, Pos(35, 18), Initialized, [])] + [Referenced(30, i, Pos(35, 25), false, false, [])] + [Declared(31, r, Pos(37, 42), Initialized, [8])] + [OutAssigned(31, [], [8])] + [Referenced(30, i, Pos(35, 32), true, false, [8])] + [Referenced(30, r, Pos(35, 36), false, false, [8])], 9);
    assert WalkExprs([Use(i, Pos(35, 32), true)] + ([Use(r, Pos(35, 36), false)]), Ctx(30, [8], []), Tree(tr.scopes + [Scope(ForInit, Some(4))] + [Scope(ForLoop, Some(29))] + [Scope(BlockBody, Some(30))], tr.events + [Declared(29, i, Pos(35, 18), Initialized, [])] + [Referenced(30, i, Pos(35, 25), false, false, [])] + [Declared(31, r, Pos(37, 42), Initialized, [8])] + [OutAssigned(31, [], [8])], 9)) == Tree(tr.scopes + [Scope(ForInit, Some(4))] + [Scope(ForLoop, Some(29))] + [Scope(BlockBody, Some(30))], tr.events + [Declared(29, i, Pos(35, 18), Initialized, [])] + [Referenced(30, i, Pos(35, 25), false, false, [])] + [Declared(31, r, Pos(37, 42), Initialized, [8])] + [OutAssigned(31, [], [8])] + [Referenced(30, i, Pos(35, 32), true, false, [8])] + [Referenced(30, r, Pos(35, 36), false, false, [8])], 9);
    assert WalkStmt(For([Declare(i, Pos(35, 18), Initialized)], [Use(i, Pos(35, 25), false)], [Use(i, Pos(35, 32), true)] + ([Use(r, Pos(35, 36), false)]), Block([Exprs([Call([Argument([Declare(r, Pos(37, 42), Initialized)])])])])), Ctx(4, [], []), tr) == Tree(tr.scopes + [Scope(ForInit, Some(4))] + [Scope(ForLoop, Some(29))] + [Scope(BlockBody, Some(30))], tr.events + [Declared(29, i, Pos(35, 18), Initialized, [])] + [Referenced(30, i, Pos(35, 25), false, false, [])] + [Declared(31, r, Pos(37, 42), Initialized, [8])] + [OutAssigned(31, [], [8])] + [Referenced(30, i, Pos(35, 32), true, false, [8])] + [Referenced(30, r, Pos(35, 36), false, false, [8])], 9);
  }

  lemma {:induction false} Stmts12(i: string, j: string, k: string, l: string, m: string, n: string, o: string, p: string, q: string, r: string, tr: Tree)
    requires |tr.scopes| == 23 && tr.arms == 6
    ensures WalkStmts([For([Declare(i, Pos(27, 18), Initialized)], [Use(i, Pos(27, 25), false)], [Use(i, Pos(27, 32), true)] + ([Use(p, Pos(27, 36), false)]), Exprs([Call([Argument([Declare(p, Pos(28, 42), Initialized)])])]))] + ([For([Declare(i, Pos(30, 18), Initialized)], [Use(i, Pos(30, 25), false)] + ([Use(q, Pos(30, 29), false)]), [Use(i, Pos(30, 32), false)], Block([Exprs([Call([Argument([Declare(q, Pos(32, 43), Initialized)] + ([Use(q, Pos(32, 52), false)]))])])]))] + ([For([Declare(i, Pos(35, 18), Initialized)], [Use(i, Pos(35, 25), false)], [Use(i, Pos(35, 32), true)] + ([Use(r, Pos(35, 36), false)]), Block([Exprs([Call([Argument([Declare(r, Pos(37, 42), Initialized)])])])]))])), Ctx(4, [], []), tr) == Tree(tr.scopes + [Scope(ForInit, Some(4))] + [Scope(ForLoop, Some(23))] + [Scope(EmbeddedBody, Some(24))] + [Scope(ForInit, Some(4))] + [Scope(ForLoop, Some(26))] + [Scope(BlockBody, Some(27))] + [Scope(ForInit, Some(4))] + [Scope(ForLoop, Some(29))] + [Scope(BlockBody, Some(30))], tr.events + [Declared(23, i, Pos(27, 18), Initialized, [])] + [Referenced(24, i, Pos(27, 25), false, false, [])] + [Declared(25, p, Pos(28, 42), Initialized, [6])] + [OutAssigned(25, [], [6])] + [Referenced(24, i, Pos(27, 32), true, false, [6])] + [Referenced(24, p, Pos(27, 36), false, false, [6])] + [Declared(26, i, Pos(30, 18), Initialized, [])] + [Referenced(27, i, Pos(30, 25), false, false, [])] + [Referenced(27, q, Pos(30, 29), false, false, [])] + [Declared(28, q, Pos(32, 43), Initialized, [7])] + [Referenced(28, q, Pos(32, 52), false, false, [7])] + [OutAssigned(28, [], [7])] + [Referenced(27, i, Pos(30, 32), false, false, [7])] + [Declared(29, i, Pos(35, 18), Initialized, [])] + [Referenced(30, i, Pos(35, 25), false, false, [])] + [Declared(31, r, Pos(37, 42), Initialized, [8])] + [OutAssigned(31, [], [8])] + [Referenced(30, i, Pos(35, 32), true, false, [8])] + [Referenced(30, r, Pos(35, 36), false, false, [8])], 9)
  {
    WalkStmtsCons(For([Declare(i, Pos(27, 18), Initialized)], [Use(i, Pos(27, 25), false)], [Use(i, Pos(27, 32), true)] + ([Use(p, Pos(27, 36), false)]), Exprs([Call([Argument([Declare(p, Pos(28, 42), Initialized)])])])), [For([Declare(i, Pos(30, 18), Initialized)], [Use(i, Pos(30, 25), false)] + ([Use(q, Pos(30, 29), false)]), [Use(i, Pos(30, 32), false)], Block([Exprs([Call([Argument([Declare(q, Pos(32, 43), Initialized)] + ([Use(q, Pos(32, 52), false)]))])])]))] + ([For([Declare(i, Pos(35, 18), Initialized)], [Use(i, Pos(35, 25), false)], [Use(i, Pos(35, 32), true)] + ([Use(r, Pos(35, 36), false)]), Block([Exprs([Call([Argument([Declare(r, Pos(37, 42), Initialized)])])])]))]), Ctx(4, [], []), tr);
    Walk13(i, j, k, l, m, n, o, p, q, r, tr);
    assert WalkStmt(For([Declare(i, Pos(27, 18), Initialized)], [Use(i, Pos(27, 25), false)], [Use(i, Pos(27, 32), true)] + ([Use(p, Pos(27, 36), false)]), Exprs([Call([Argument([Declare(p, Pos(28, 42), Initialized)])])])), Ctx(4, [], []), tr) == Tree(tr.scopes + [Scope(ForInit, Some(4))] + [Scope(ForLoop, Some(23))] + [Scope(EmbeddedBody, Some(24))], tr.events + [Declared(23, i, Pos(27, 18), Initialized, [])] + [Referenced(24, i, Pos(27, 25), false, false, [])] + [Declared(25, p, Pos(28, 42), Initialized, [6])] + [OutAssigned(25, [], [6])] + [Referenced(24, i, Pos(27, 32), true, false, [6])] + [Referenced(24, p, Pos(27, 36), false, false, [6])], 7);
    WalkStmtsCons(For([Declare(i, Pos(30, 18), Initialized)], [Use(i, Pos(30, 25), false)] + ([Use(q, Pos(30, 29), false)]), [Use(i, Pos(30, 32), false)], Block([Exprs([Call([Argument([Declare(q, Pos(32, 43), Initialized)] + ([Use(q, Pos(32, 52), false)]))])])])), [For([Declare(i, Pos(35, 18), Initialized)], [Use(i, Pos(35, 25), false)], [Use(i, Pos(35, 32), true)] + ([Use(r, Pos(35, 36), false)]), Block([Exprs([Call([Argument([Declare(r, Pos(37, 42), Initialized)])])])]))], Ctx(4, [], []), Tree(tr.scopes + [Scope(ForInit, Some(4))] + [Scope(ForLoop, Some(23))] + [Scope(EmbeddedBody, Some(24))], tr.events + [Declared(23, i, Pos(27, 18), Initialized, [])] + [Referenced(24, i, Pos(27, 25), false, false, [])] + [Declared(25, p, Pos(28, 42), Initialized, [6])] + [OutAssigned(25, [], [6])] + [Referenced(24, i, Pos(27, 32), true, false, [6])] + [Referenced(24, p, Pos(27, 36), false, false, [6])], 7));
    Walk14(i, j, k, l, m, n, o, p, q, r, Tree(tr.scopes + [Scope(ForInit, Some(4))] + [Scope(ForLoop, Some(23))] + [Scope(EmbeddedBody, Some(24))], tr.events + [Declared(23, i, Pos(27, 18), Initialized, [])] + [Referenced(24, i, Pos(27, 25), false, false, [])] + [Declared(25, p, Pos(28, 42), Initialized, [6])] + [OutAssigned(25, [], [6])] + [Referenced(24, i, Pos(27, 32), true, false, [6])] + [Referenced(24, p, Pos(27, 36), false, false, [6])], 7));
    assert WalkStmt(For([Declare(i, Pos(30, 18), Initialized)], [Use(i, Pos(30, 25), false)] + ([Use(q, Pos(30, 29), false)]), [Use(i, Pos(30, 32), false)], Block([Exprs([Call([Argument([Declare(q, Pos(32, 43), Initialized)] + ([Use(q, Pos(32, 52), false)]))])])])), Ctx(4, [], []), Tree(tr.scopes + [Scope(ForInit, Some(4))] + [Scope(ForLoop, Some(23))] + [Scope(EmbeddedBody, Some(24))], tr.events + [Declared(23, i, Pos(27, 18), Initialized, [])] + [Referenced(24, i, Pos(27, 25), false, false, [])] + [Declared(25, p, Pos(28, 42), Initialized, [6])] + [OutAssigned(25, [], [6])] + [Referenced(24, i, Pos(27, 32), true, false, [6])] + [Referenced(24, p, Pos(27, 36), false, false, [6])], 7)) == Tree(tr.scopes + [Scope(ForInit, Some(4))] + [Scope(ForLoop, Some(23))] + [Scope(EmbeddedBody, Some(24))] + [Scope(ForInit, Some(4))] + [Scope(ForLoop, Some(26))] + [Scope(BlockBody, Some(27))], tr.events + [Declared(23, i, Pos(27, 18), Initialized, [])] + [Referenced(24, i, Pos(27, 25), false, false, [])] + [Declared(25, p, Pos(28, 42), Initialized, [6])] + [OutAssigned(25, [], [6])] + [Referenced(24, i, Pos(27, 32), true, false, [6])] + [Referenced(24, p, Pos(27, 36), false, false, [6])] + [Declared(26, i, Pos(30, 18), Initialized, [])] + [Referenced(27, i, Pos(30, 25), false, false, [])] + [Referenced(27, q, Pos(30, 29), false, false, [])] + [Declared(28, q, Pos(32, 43), Initialized, [7])] + [Referenced(28, q, Pos(32, 52), false, false, [7])] + [OutAssigned(28, [], [7])] + [Referenced(27, i, Pos(30, 32), false, false, [7])], 8);
    WalkStmtsOne(For([Declare(i, Pos(35, 18), Initialized)], [Use(i, Pos(35, 25), false)], [Use(i, Pos(35, 32), true)] + ([Use(r, Pos(35, 36), false)]), Block([Exprs([Call([Argument([Declare(r, Pos(37, 42), Initialized)])])])])), Ctx(4, [], []), Tree(tr.scopes + [Scope(ForInit, Some(4))] + [Scope(ForLoop, Some(23))] + [Scope(EmbeddedBody, Some(24))] + [Scope(ForInit, Some(4))] + [Scope(ForLoop, Some(26))] + [Scope(BlockBody, Some(27))], tr.events + [Declared(23, i, Pos(27, 18), Initialized, [])] + [Referenced(24, i, Pos(27, 25), false, false, [])] + [Declared(25, p, Pos(28, 42), Initialized, [6])] + [OutAssigned(25, [], [6])] + [Referenced(24, i, Pos(27, 32), true, false, [6])] + [Referenced(24, p, Pos(27, 36), false, false, [6])] + [Declared(26, i, Pos(30, 18), Initialized, [])] + [Referenced(27, i, Pos(30, 25), false, false, [])] + [Referenced(27, q, Pos(30, 29), false, false, [])] + [Declared(28, q, Pos(32, 43), Initialized, [7])] + [Referenced(28, q, Pos(32, 52), false, false, [7])] + [OutAssigned(28, [], [7])] + [Referenced(27, i, Pos(30, 32), false, false, [7])], 8));
    Walk16(i, j, k, l, m, n, o, p, q, r, Tree(tr.scopes + [Scope(ForInit, Some(4))] + [Scope(ForLoop, Some(23))] + [Scope(EmbeddedBody, Some(24))] + [Scope(ForInit, Some(4))] + [Scope(ForLoop, Some(26))] + [Scope(BlockBody, Some(27))], tr.events + [Declared(23, i, Pos(27, 18), Initialized, [])] + [Referenced(24, i, Pos(27, 25), false, false, [])] + [Declared(25, p, Pos(28, 42), Initialized, [6])] + [OutAssigned(25, [], [6])] + [Referenced(24, i, Pos(27, 32), true, false, [6])] + [Referenced(24, p, Pos(27, 36), false, false, [6])] + [Declared(26, i, Pos(30, 18), Initialized, [])] + [Referenced(27, i, Pos(30, 25), false, false, [])] + [Referenced(27, q, Pos(30, 29), false, false, [])] + [Declared(28, q, Pos(32, 43), Initialized, [7])] + [Referenced(28, q, Pos(32, 52), false, false, [7])] + [OutAssigned(28, [], [7])] + [Referenced(27, i, Pos(30, 32), false, false, [7])], 8));
    assert WalkStmt(For([Declare(i, Pos(35, 18), Initialized)], [Use(i, Pos(35, 25), false)], [Use(i, Pos(35, 32), true)] + ([Use(r, Pos(35, 36), false)]), Block([Exprs([Call([Argument([Declare(r, Pos(37, 42), Initialized)])])])])), Ctx(4, [], []), Tree(tr.scopes + [Scope(ForInit, Some(4))] + [Scope(ForLoop, Some(23))] + [Scope(EmbeddedBody, Some(24))] + [Scope(ForInit, Some(4))] + [Scope(ForLoop, Some(26))] + [Scope(BlockBody, Some(27))], tr.events + [Declared(23, i, Pos(27, 18), Initialized, [])] + [Referenced(24, i, Pos(27, 25), false, false, [])] + [Declared(25, p, Pos(28, 42), Initialized, [6])] + [OutAssigned(25, [], [6])] + [Referenced(24, i, Pos(27, 32), true, false, [6])] + [Referenced(24, p, Pos(27, 36), false, false, [6])] + [Declared(26, i, Pos(30, 18), Initialized, [])] + [Referenced(27, i, Pos(30, 25), false, false, [])] + [Referenced(27, q, Pos(30, 29), false, false, [])] + [Declared(28, q, Pos(32, 43), Initialized, [7])] + [Referenced(28, q, Pos(32, 52), false, false, [7])] + [OutAssigned(28, [], [7])] + [Referenced(27, i, Pos(30, 32), false, false, [7])], 8)) == Tree(tr.scopes + [Scope(ForInit, Some(4))] + [Scope(ForLoop, Some(23))] + [Scope(EmbeddedBody, Some(24))] + [Scope(ForInit, Some(4))] + [Scope(ForLoop, Some(26))] + [Scope(BlockBody, Some(27))] + [Scope(ForInit, Some(4))] + [Scope(ForLoop, Some(29))] + [Scope(BlockBody, Some(30))], tr.events + [Declared(23, i, Pos(27, 18), Initialized, [])] + [Referenced(24, i, Pos(27, 25), false, false, [])] + [Declared(25, p, Pos(28, 42), Initialized, [6])] + [OutAssigned(25, [], [6])] + [Referenced(24, i, Pos(27, 32), true, false, [6])] + [Referenced(24, p, Pos(27, 36), false, false, [6])] + [Declared(26, i, Pos(30, 18), Initialized, [])] + [Referenced(27, i, Pos(30, 25), false, false, [])] + [Referenced(27, q, Pos(30, 29), false, false, [])] + [Declared(28, q, Pos(32, 43), Initialized, [7])] + [Referenced(28, q, Pos(32, 52), false, false, [7])] + [OutAssigned(28, [], [7])] + [Referenced(27, i, Pos(30, 32), false, false, [7])] + [Declared(29, i, Pos(35, 18), Initialized, [])] + [Referenced(30, i, Pos(35, 25), false, false, [])] + [Declared(31, r, Pos(37, 42), Initialized, [8])] + [OutAssigned(31, [], [8])] + [Referenced(30, i, Pos(35, 32), true, false, [8])] + [Referenced(30, r, Pos(35, 36), false, false, [8])], 9);
  }

  lemma {:induction false} Join0(i: string, j: string, k: string, l: string, m: string, n: string, o: string, p: string, q: string, r: string, evs: seq<Event>)
    ensures evs + Chunk0(i, j, k, l, m, n, o, p, q, r) == evs + [Declared(5, i, Pos(6, 18), Initialized, [])] + [Referenced(6, i, Pos(6, 25), false, false, [])] + [Referenced(7, j, Pos(8, 38), false, false, [0])] + [OutAssigned(7, [], [0])] + [Referenced(6, i, Pos(6, 32), true, false, [0])] + [Declared(6, j, Pos(6, 41), Initialized, [0])] + [Referenced(6, i, Pos(6, 45), false, false, [0])] + [Referenced(6, j, Pos(6, 54), false, false, [0])]
  {
  }

  lemma {:induction false} Join1(i: string, j: string, k: string, l: string, m: string, n: string, o: string, p: string, q: string, r: string, evs: seq<Event>)
    ensures evs + Chunk1(i, j, k, l, m, n, o, p, q, r) == evs + [Declared(8, i, Pos(11, 18), Initialized, [])] + [Declared(8, j, Pos(11, 36), Initialized, [])] + [Referenced(8, j, Pos(11, 46), false, false, [])] + [Referenced(9, j, Pos(11, 51), true, false, [])] + [Referenced(9, i, Pos(11, 55), false, false, [])] + [Referenced(10, j, Pos(12, 38), false, false, [1])] + [Declared(10, k, Pos(12, 47), Initialized, [1])] + [Referenced(10, i, Pos(12, 55), false, false, [1])]
  {
  }

  lemma {:induction false} Join2(i: string, j: string, k: string, l: string, m: string, n: string, o: string, p: string, q: string, r: string, evs: seq<Event>)
    ensures evs + Chunk2(i, j, k, l, m, n, o, p, q, r) == evs + [OutAssigned(10, [], [1])] + [Referenced(9, i, Pos(11, 64), false, false, [1])] + [Referenced(4, j, Pos(14, 9), true, false, [])] + [Referenced(4, k, Pos(15, 9), true, false, [])] + [Declared(11, i, Pos(17, 18), Initialized, [])] + [Referenced(11, l, Pos(17, 22), false, false, [])] + [Referenced(12, i, Pos(17, 25), false, false, [])] + [Declared(12, l, Pos(17, 34), Initialized, [])]
  {
  }

  lemma {:induction false} Join3(i: string, j: string, k: string, l: string, m: string, n: string, o: string, p: string, q: string, r: string, evs: seq<Event>)
    ensures evs + Chunk3(i, j, k, l, m, n, o, p, q, r) == evs + [Referenced(12, i, Pos(17, 43), false, false, [2])] + [Declared(14, i, Pos(19, 18), Initialized, [])] + [Referenced(15, i, Pos(19, 25), false, false, [])] + [Referenced(15, m, Pos(19, 29), false, false, [])] + [Referenced(15, i, Pos(19, 32), true, false, [3])] + [Declared(15, m, Pos(19, 41), Initialized, [3])] + [Referenced(15, m, Pos(19, 51), false, false, [3])] + [Declared(17, i, Pos(21, 18), Initialized, [])]
  {
  }

  lemma {:induction false} Join4(i: string, j: string, k: string, l: string, m: string, n: string, o: string, p: string, q: string, r: string, evs: seq<Event>)
    ensures evs + Chunk4(i, j, k, l, m, n, o, p, q, r) == evs + [Referenced(17, n, Pos(21, 22), false, false, [])] + [Referenced(18, i, Pos(21, 25), false, false, [])] + [Declared(19, n, Pos(22, 43), Initialized, [4])] + [Referenced(19, n, Pos(22, 52), false, false, [4])] + [OutAssigned(19, [], [4])] + [Referenced(18, i, Pos(21, 32), false, false, [4])] + [Declared(20, i, Pos(24, 18), Initialized, [])] + [Referenced(21, i, Pos(24, 25), false, false, [])]
  {
  }

  lemma {:induction false} Join5(i: string, j: string, k: string, l: string, m: string, n: string, o: string, p: string, q: string, r: string, evs: seq<Event>)
    ensures evs + Chunk5(i, j, k, l, m, n, o, p, q, r) == evs + [Referenced(21, o, Pos(24, 29), false, false, [])] + [Declared(22, o, Pos(25, 42), Initialized, [5])] + [OutAssigned(22, [], [5])] + [Referenced(21, i, Pos(24, 32), false, false, [5])] + [Declared(23, i, Pos(27, 18), Initialized, [])] + [Referenced(24, i, Pos(27, 25), false, false, [])] + [Declared(25, p, Pos(28, 42), Initialized, [6])] + [OutAssigned(25, [], [6])]
  {
  }

  lemma {:induction false} Join6(i: string, j: string, k: string, l: string, m: string, n: string, o: string, p: string, q: string, r: string, evs: seq<Event>)
    ensures evs + Chunk6(i, j, k, l, m, n, o, p, q, r) == evs + [Referenced(24, i, Pos(27, 32), true, false, [6])] + [Referenced(24, p, Pos(27, 36), false, false, [6])] + [Declared(26, i, Pos(30, 18), Initialized, [])] + [Referenced(27, i, Pos(30, 25), false, false, [])] + [Referenced(27, q, Pos(30, 29), false, false, [])] + [Declared(28, q, Pos(32, 43), Initialized, [7])] + [Referenced(28, q, Pos(32, 52), false, false, [7])] + [OutAssigned(28, [], [7])]
  {
  }

  lemma {:induction false} Join7(i: string, j: string, k: string, l: string, m: string, n: string, o: string, p: string, q: string, r: string, evs: seq<Event>)
    ensures evs + Chunk7(i, j, k, l, m, n, o, p, q, r) == evs + [Referenced(27, i, Pos(30, 32), false, false, [7])] + [Declared(29, i, Pos(35, 18), Initialized, [])] + [Referenced(30, i, Pos(35, 25), false, false, [])] + [Declared(31, r, Pos(37, 42), Initialized, [8])] + [OutAssigned(31, [], [8])] + [Referenced(30, i, Pos(35, 32), true, false, [8])] + [Referenced(30, r, Pos(35, 36), false, false, [8])]
  {
  }

  /** The trace, event by event. */
  lemma {:induction false} Flat(i: string, j: string, k: string, l: string, m: string, n: string, o: string, p: string, q: string, r: string)
    ensures [] + [Declared(5, i, Pos(6, 18), Initialized, [])] + [Referenced(6, i, Pos(6, 25), false, false, [])] + [Referenced(7, j, Pos(8, 38), false, false, [0])] + [OutAssigned(7, [], [0])] + [Referenced(6, i, Pos(6, 32), true, false, [0])] + [Declared(6, j, Pos(6, 41), Initialized, [0])] + [Referenced(6, i, Pos(6, 45), false, false, [0])] + [Referenced(6, j, Pos(6, 54), false, false, [0])] + [Declared(8, i, Pos(11, 18), Initialized, [])] + [Declared(8, j, Pos(11, 36), Initialized, [])] + [Referenced(8, j, Pos(11, 46), false, false, [])] + [Referenced(9, j, Pos(11, 51), true, false, [])] + [Referenced(9, i, Pos(11, 55), false, false, [])] + [Referenced(10, j, Pos(12, 38), false, false, [1])] + [Declared(10, k, Pos(12, 47), Initialized, [1])] + [Referenced(10, i, Pos(12, 55), false, false, [1])] + [OutAssigned(10, [], [1])] + [Referenced(9, i, Pos(11, 64), false, false, [1])] + [Referenced(4, j, Pos(14, 9), true, false, [])] + [Referenced(4, k, Pos(15, 9), true, false, [])] + [Declared(11, i, Pos(17, 18), Initialized, [])] + [Referenced(11, l, Pos(17, 22), false, false, [])] + [Referenced(12, i, Pos(17, 25), false, false, [])] + [Declared(12, l, Pos(17, 34), Initialized, [])] + [Referenced(12, i, Pos(17, 43), false, false, [2])] + [Declared(14, i, Pos(19, 18), Initialized, [])] + [Referenced(15, i, Pos(19, 25), false, false, [])] + [Referenced(15, m, Pos(19, 29), false, false, [])] + [Referenced(15, i, Pos(19, 32), true, false, [3])] + [Declared(15, m, Pos(19, 41), Initialized, [3])] + [Referenced(15, m, Pos(19, 51), false, false, [3])] + [Declared(17, i, Pos(21, 18), Initialized, [])] + [Referenced(17, n, Pos(21, 22), false, false, [])] + [Referenced(18, i, Pos(21, 25), false, false, [])] + [Declared(19, n, Pos(22, 43), Initialized, [4])] + [Referenced(19, n, Pos(22, 52), false, false, [4])] + [OutAssigned(19, [], [4])] + [Referenced(18, i, Pos(21, 32), false, false, [4])] + [Declared(20, i, Pos(24, 18), Initialized, [])] + [Referenced(21, i, Pos(24, 25), false, false, [])] + [Referenced(21, o, Pos(24, 29), false, false, [])] + [Declared(22, o, Pos(25, 42), Initialized, [5])] + [OutAssigned(22, [], [5])] + [Referenced(21, i, Pos(24, 32), false, false, [5])] + [Declared(23, i, Pos(27, 18), Initialized, [])] + [Referenced(24, i, Pos(27, 25), false, false, [])] + [Declared(25, p, Pos(28, 42), Initialized, [6])] + [OutAssigned(25, [], [6])] + [Referenced(24, i, Pos(27, 32), true, false, [6])] + [Referenced(24, p, Pos(27, 36), false, false, [6])] + [Declared(26, i, Pos(30, 18), Initialized, [])] + [Referenced(27, i, Pos(30, 25), false, false, [])] + [Referenced(27, q, Pos(30, 29), false, false, [])] + [Declared(28, q, Pos(32, 43), Initialized, [7])] + [Referenced(28, q, Pos(32, 52), false, false, [7])] + [OutAssigned(28, [], [7])] + [Referenced(27, i, Pos(30, 32), false, false, [7])] + [Declared(29, i, Pos(35, 18), Initialized, [])] + [Referenced(30, i, Pos(35, 25), false, false, [])] + [Declared(31, r, Pos(37, 42), Initialized, [8])] + [OutAssigned(31, [], [8])] + [Referenced(30, i, Pos(35, 32), true, false, [8])] + [Referenced(30, r, Pos(35, 36), false, false, [8])] == Trace(i, j, k, l, m, n, o, p, q, r)
  {
    Join0(i, j, k, l, m, n, o, p, q, r, []);
    Join1(i, j, k, l, m, n, o, p, q, r, [] + Chunk0(i, j, k, l, m, n, o, p, q, r));
    Join2(i, j, k, l, m, n, o, p, q, r, [] + Chunk0(i, j, k, l, m, n, o, p, q, r) + Chunk1(i, j, k, l, m, n, o, p, q, r));
    Join3(i, j, k, l, m, n, o, p, q, r, [] + Chunk0(i, j, k, l, m, n, o, p, q, r) + Chunk1(i, j, k, l, m, n, o, p, q, r) + Chunk2(i, j, k, l, m, n, o, p, q, r));
    Join4(i, j, k, l, m, n, o, p, q, r, [] + Chunk0(i, j, k, l, m, n, o, p, q, r) + Chunk1(i, j, k, l, m, n, o, p, q, r) + Chunk2(i, j, k, l, m, n, o, p, q, r) + Chunk3(i, j, k, l, m, n, o, p, q, r));
    Join5(i, j, k, l, m, n, o, p, q, r, [] + Chunk0(i, j, k, l, m, n, o, p, q, r) + Chunk1(i, j, k, l, m, n, o, p, q, r) + Chunk2(i, j, k, l, m, n, o, p, q, r) + Chunk3(i, j, k, l, m, n, o, p, q, r) + Chunk4(i, j, k, l, m, n, o, p, q, r));
    Join6(i, j, k, l, m, n, o, p, q, r, [] + Chunk0(i, j, k, l, m, n, o, p, q, r) + Chunk1(i, j, k, l, m, n, o, p, q, r) + Chunk2(i, j, k, l, m, n, o, p, q, r) + Chunk3(i, j, k, l, m, n, o, p, q, r) + Chunk4(i, j, k, l, m, n, o, p, q, r) + Chunk5(i, j, k, l, m, n, o, p, q, r));
    Join7(i, j, k, l, m, n, o, p, q, r, [] + Chunk0(i, j, k, l, m, n, o, p, q, r) + Chunk1(i, j, k, l, m, n, o, p, q, r) + Chunk2(i, j, k, l, m, n, o, p, q, r) + Chunk3(i, j, k, l, m, n, o, p, q, r) + Chunk4(i, j, k, l, m, n, o, p, q, r) + Chunk5(i, j, k, l, m, n, o, p, q, r) + Chunk6(i, j, k, l, m, n, o, p, q, r));
  }

  lemma {:induction false} Walked(i: string, j: string, k: string, l: string, m: string, n: string, o: string, p: string, q: string, r: string)
    ensures Build(Program(i, j, k, l, m, n, o, p, q, r)) == Tree(Layout(), Trace(i, j, k, l, m, n, o, p, q, r), 9)
  {
    MainBuild(Body(i, j, k, l, m, n, o, p, q, r));
    Stmts1(i, j, k, l, m, n, o, p, q, r, MainHead(), [For([Declare(i, Pos(17, 18), Initialized)] + ([Use(l, Pos(17, 22), false)]), [Use(i, Pos(17, 25), false)] + ([Declare(l, Pos(17, 34), Initialized)]), [Use(i, Pos(17, 43), false)], Block([]))] + ([For([Declare(i, Pos(19, 18), Initialized)], [Use(i, Pos(19, 25), false)] + ([Use(m, Pos(19, 29), false)]), [Use(i, Pos(19, 32), true)] + ([Declare(m, Pos(19, 41), Initialized)] + ([Use(m, Pos(19, 51), false)])), Block([]))] + ([For([Declare(i, Pos(21, 18), Initialized)] + ([Use(n, Pos(21, 22), false)]), [Use(i, Pos(21, 25), false)], [Use(i, Pos(21, 32), false)], Exprs([Call([Argument([Declare(n, Pos(22, 43), Initialized)] + ([Use(n, Pos(22, 52), false)]))])]))] + ([For([Declare(i, Pos(24, 18), Initialized)], [Use(i, Pos(24, 25), false)] + ([Use(o, Pos(24, 29), false)]), [Use(i, Pos(24, 32), false)], Exprs([Call([Argument([Declare(o, Pos(25, 42), Initialized)])])]))] + ([For([Declare(i, Pos(27, 18), Initialized)], [Use(i, Pos(27, 25), false)], [Use(i, Pos(27, 32), true)] + ([Use(p, Pos(27, 36), false)]), Exprs([Call([Argument([Declare(p, Pos(28, 42), Initialized)])])]))] + ([For([Declare(i, Pos(30, 18), Initialized)], [Use(i, Pos(30, 25), false)] + ([Use(q, Pos(30, 29), false)]), [Use(i, Pos(30, 32), false)], Block([Exprs([Call([Argument([Declare(q, Pos(32, 43), Initialized)] + ([Use(q, Pos(32, 52), false)]))])])]))] + ([For([Declare(i, Pos(35, 18), Initialized)], [Use(i, Pos(35, 25), false)], [Use(i, Pos(35, 32), true)] + ([Use(r, Pos(35, 36), false)]), Block([Exprs([Call([Argument([Declare(r, Pos(37, 42), Initialized)])])])]))])))))));
    Stmts7(i, j, k, l, m, n, o, p, q, r, Tree(MainHead().scopes + [Scope(ForInit, Some(4))] + [Scope(ForLoop, Some(5))] + [Scope(BlockBody, Some(6))] + [Scope(ForInit, Some(4))] + [Scope(ForLoop, Some(8))] + [Scope(EmbeddedBody, Some(9))], MainHead().events + [Declared(5, i, Pos(6, 18), Initialized, [])] + [Referenced(6, i, Pos(6, 25), false, false, [])] + [Referenced(7, j, Pos(8, 38), false, false, [0])] + [OutAssigned(7, [], [0])] + [Referenced(6, i, Pos(6, 32), true, false, [0])] + [Declared(6, j, Pos(6, 41), Initialized, [0])] + [Referenced(6, i, Pos(6, 45), false, false, [0])] + [Referenced(6, j, Pos(6, 54), false, false, [0])] + [Declared(8, i, Pos(11, 18), Initialized, [])] + [Declared(8, j, Pos(11, 36), Initialized, [])] + [Referenced(8, j, Pos(11, 46), false, false, [])] + [Referenced(9, j, Pos(11, 51), true, false, [])] + [Referenced(9, i, Pos(11, 55), false, false, [])] + [Referenced(10, j, Pos(12, 38), false, false, [1])] + [Declared(10, k, Pos(12, 47), Initialized, [1])] + [Referenced(10, i, Pos(12, 55), false, false, [1])] + [OutAssigned(10, [], [1])] + [Referenced(9, i, Pos(11, 64), false, false, [1])] + [Referenced(4, j, Pos(14, 9), true, false, [])] + [Referenced(4, k, Pos(15, 9), true, false, [])], 2), [For([Declare(i, Pos(27, 18), Initialized)], [Use(i, Pos(27, 25), false)], [Use(i, Pos(27, 32), true)] + ([Use(p, Pos(27, 36), false)]), Exprs([Call([Argument([Declare(p, Pos(28, 42), Initialized)])])]))] + ([For([Declare(i, Pos(30, 18), Initialized)], [Use(i, Pos(30, 25), false)] + ([Use(q, Pos(30, 29), false)]), [Use(i, Pos(30, 32), false)], Block([Exprs([Call([Argument([Declare(q, Pos(32, 43), Initialized)] + ([Use(q, Pos(32, 52), false)]))])])]))] + ([For([Declare(i, Pos(35, 18), Initialized)], [Use(i, Pos(35, 25), false)], [Use(i, Pos(35, 32), true)] + ([Use(r, Pos(35, 36), false)]), Block([Exprs([Call([Argument([Declare(r, Pos(37, 42), Initialized)])])])]))])));
    Stmts12(i, j, k, l, m, n, o, p, q, r, Tree(MainHead().scopes + [Scope(ForInit, Some(4))] + [Scope(ForLoop, Some(5))] + [Scope(BlockBody, Some(6))] + [Scope(ForInit, Some(4))] + [Scope(ForLoop, Some(8))] + [Scope(EmbeddedBody, Some(9))] + [Scope(ForInit, Some(4))] + [Scope(ForLoop, Some(11))] + [Scope(BlockBody, Some(12))] + [Scope(ForInit, Some(4))] + [Scope(ForLoop, Some(14))] + [Scope(BlockBody, Some(15))] + [Scope(ForInit, Some(4))] + [Scope(ForLoop, Some(17))] + [Scope(EmbeddedBody, Some(18))] + [Scope(ForInit, Some(4))] + [Scope(ForLoop, Some(20))] + [Scope(EmbeddedBody, Some(21))], MainHead().events + [Declared(5, i, Pos(6, 18), Initialized, [])] + [Referenced(6, i, Pos(6, 25), false, false, [])] + [Referenced(7, j, Pos(8, 38), false, false, [0])] + [OutAssigned(7, [], [0])] + [Referenced(6, i, Pos(6, 32), true, false, [0])] + [Declared(6, j, Pos(6, 41), Initialized, [0])] + [Referenced(6, i, Pos(6, 45), false, false, [0])] + [Referenced(6, j, Pos(6, 54), false, false, [0])] + [Declared(8, i, Pos(11, 18), Initialized, [])] + [Declared(8, j, Pos(11, 36), Initialized, [])] + [Referenced(8, j, Pos(11, 46), false, false, [])] + [Referenced(9, j, Pos(11, 51), true, false, [])] + [Referenced(9, i, Pos(11, 55), false, false, [])] + [Referenced(10, j, Pos(12, 38), false, false, [1])] + [Declared(10, k, Pos(12, 47), Initialized, [1])] + [Referenced(10, i, Pos(12, 55), false, false, [1])] + [OutAssigned(10, [], [1])] + [Referenced(9, i, Pos(11, 64), false, false, [1])] + [Referenced(4, j, Pos(14, 9), true, false, [])] + [Referenced(4, k, Pos(15, 9), true, false, [])] + [Declared(11, i, Pos(17, 18), Initialized, [])] + [Referenced(11, l, Pos(17, 22), false, false, [])] + [Referenced(12, i, Pos(17, 25), false, false, [])] + [Declared(12, l, Pos(17, 34), Initialized, [])] + [Referenced(12, i, Pos(17, 43), false, false, [2])] + [Declared(14, i, Pos(19, 18), Initialized, [])] + [Referenced(15, i, Pos(19, 25), false, false, [])] + [Referenced(15, m, Pos(19, 29), false, false, [])] + [Referenced(15, i, Pos(19, 32), true, false, [3])] + [Declared(15, m, Pos(19, 41), Initialized, [3])] + [Referenced(15, m, Pos(19, 51), false, false, [3])] + [Declared(17, i, Pos(21, 18), Initialized, [])] + [Referenced(17, n, Pos(21, 22), false, false, [])] + [Referenced(18, i, Pos(21, 25), false, false, [])] + [Declared(19, n, Pos(22, 43), Initialized, [4])] + [Referenced(19, n, Pos(22, 52), false, false, [4])] + [OutAssigned(19, [], [4])] + [Referenced(18, i, Pos(21, 32), false, false, [4])] + [Declared(20, i, Pos(24, 18), Initialized, [])] + [Referenced(21, i, Pos(24, 25), false, false, [])] + [Referenced(21, o, Pos(24, 29), false, false, [])] + [Declared(22, o, Pos(25, 42), Initialized, [5])] + [OutAssigned(22, [], [5])] + [Referenced(21, i, Pos(24, 32), false, false, [5])], 6));
    LayoutFlat();
    Flat(i, j, k, l, m, n, o, p, q, r);
  }

  /** The locals events of chunk `ck` declare in scope `sc`, in order. */
  function NewIn(i: string, j: string, k: string, l: string, m: string, n: string, o: string, p: string, q: string, r: string, ck: nat, sc: nat): seq<Local> {
    if ck == 0 then
      if sc == 5 then [] + [Local(i, Pos(6, 18))]
      else if sc == 6 then [] + [Local(j, Pos(6, 41))]
      else []
    else if ck == 1 then
      if sc == 8 then [] + [Local(i, Pos(11, 18))] + [Local(j, Pos(11, 36))]
      else if sc == 10 then [] + [Local(k, Pos(12, 47))]
      else []
    else if ck == 2 then
      if sc == 11 then [] + [Local(i, Pos(17, 18))]
      else if sc == 12 then [] + [Local(l, Pos(17, 34))]
      else []
    else if ck == 3 then
      if sc == 14 then [] + [Local(i, Pos(19, 18))]
      else if sc == 15 then [] + [Local(m, Pos(19, 41))]
      else if sc == 17 then [] + [Local(i, Pos(21, 18))]
      else []
    else if ck == 4 then
      if sc == 19 then [] + [Local(n, Pos(22, 43))]
      else if sc == 20 then [] + [Local(i, Pos(24, 18))]
      else []
    else if ck == 5 then
      if sc == 22 then [] + [Local(o, Pos(25, 42))]
      else if sc == 23 then [] + [Local(i, Pos(27, 18))]
      else if sc == 25 then [] + [Local(p, Pos(28, 42))]
      else []
    else if ck == 6 then
      if sc == 26 then [] + [Local(i, Pos(30, 18))]
      else if sc == 28 then [] + [Local(q, Pos(32, 43))]
      else []
    else if ck == 7 then
      if sc == 29 then [] + [Local(i, Pos(35, 18))]
      else if sc == 31 then [] + [Local(r, Pos(37, 42))]
      else []
    else []
  }

  /** The locals the first `ck` chunks declare in scope `sc`, in order. */
  function DeclaredBy(i: string, j: string, k: string, l: string, m: string, n: string, o: string, p: string, q: string, r: string, ck: nat, sc: nat): seq<Local>
    decreases ck
  {
    if ck == 0 then [] else DeclaredBy(i, j, k, l, m, n, o, p, q, r, ck - 1, sc) + NewIn(i, j, k, l, m, n, o, p, q, r, ck - 1, sc)
  }

  /** The locals declared once events 0 to 7 follow some events. */
  lemma {:induction false} Decls0(i: string, j: string, k: string, l: string, m: string, n: string, o: string, p: string, q: string, r: string, evs: seq<Event>, sc: nat)
    requires DeclsIn(evs, sc) == DeclaredBy(i, j, k, l, m, n, o, p, q, r, 0, sc)
    ensures DeclsIn(evs + Chunk0(i, j, k, l, m, n, o, p, q, r), sc) == DeclaredBy(i, j, k, l, m, n, o, p, q, r, 1, sc)
  {
    DeclsInAppend(evs, Chunk0(i, j, k, l, m, n, o, p, q, r), sc);
    assert DeclsIn([], sc) == [];
    if sc == 5 {
      DeclsInAdd([], Declared(5, i, Pos(6, 18), Initialized, []), 5);
      DeclsInSkip([] + [Declared(5, i, Pos(6, 18), Initialized, [])], Referenced(6, i, Pos(6, 25), false, false, []), 5);
      DeclsInSkip([] + [Declared(5, i, Pos(6, 18), Initialized, [])] + [Referenced(6, i, Pos(6, 25), false, false, [])], Referenced(7, j, Pos(8, 38), false, false, [0]), 5);
      DeclsInSkip([] + [Declared(5, i, Pos(6, 18), Initialized, [])] + [Referenced(6, i, Pos(6, 25), false, false, [])] + [Referenced(7, j, Pos(8, 38), false, false, [0])], OutAssigned(7, [], [0]), 5);
      DeclsInSkip([] + [Declared(5, i, Pos(6, 18), Initialized, [])] + [Referenced(6, i, Pos(6, 25), false, false, [])] + [Referenced(7, j, Pos(8, 38), false, false, [0])] + [OutAssigned(7, [], [0])], Referenced(6, i, Pos(6, 32), true, false, [0]), 5);
      DeclsInSkip([] + [Declared(5, i, Pos(6, 18), Initialized, [])] + [Referenced(6, i, Pos(6, 25), false, false, [])] + [Referenced(7, j, Pos(8, 38), false, false, [0])] + [OutAssigned(7, [], [0])] + [Referenced(6, i, Pos(6, 32), true, false, [0])], Declared(6, j, Pos(6, 41), Initialized, [0]), 5);
      DeclsInSkip([] + [Declared(5, i, Pos(6, 18), Initialized, [])] + [Referenced(6, i, Pos(6, 25), false, false, [])] + [Referenced(7, j, Pos(8, 38), false, false, [0])] + [OutAssigned(7, [], [0])] + [Referenced(6, i, Pos(6, 32), true, false, [0])] + [Declared(6, j, Pos(6, 41), Initialized, [0])], Referenced(6, i, Pos(6, 45), false, false, [0]), 5);
      DeclsInSkip([] + [Declared(5, i, Pos(6, 18), Initialized, [])] + [Referenced(6, i, Pos(6, 25), false, false, [])] + [Referenced(7, j, Pos(8, 38), false, false, [0])] + [OutAssigned(7, [], [0])] + [Referenced(6, i, Pos(6, 32), true, false, [0])] + [Declared(6, j, Pos(6, 41), Initialized, [0])] + [Referenced(6, i, Pos(6, 45), false, false, [0])], Referenced(6, j, Pos(6, 54), false, false, [0]), 5);
    } else if sc == 6 {
      DeclsInSkip([], Declared(5, i, Pos(6, 18), Initialized, []), 6);
      DeclsInSkip([] + [Declared(5, i, Pos(6, 18), Initialized, [])], Referenced(6, i, Pos(6, 25), false, false, []), 6);
      DeclsInSkip([] + [Declared(5, i, Pos(6, 18), Initialized, [])] + [Referenced(6, i, Pos(6, 25), false, false, [])], Referenced(7, j, Pos(8, 38), false, false, [0]), 6);
      DeclsInSkip([] + [Declared(5, i, Pos(6, 18), Initialized, [])] + [Referenced(6, i, Pos(6, 25), false, false, [])] + [Referenced(7, j, Pos(8, 38), false, false, [0])], OutAssigned(7, [], [0]), 6);
      DeclsInSkip([] + [Declared(5, i, Pos(6, 18), Initialized, [])] + [Referenced(6, i, Pos(6, 25), false, false, [])] + [Referenced(7, j, Pos(8, 38), false, false, [0])] + [OutAssigned(7, [], [0])], Referenced(6, i, Pos(6, 32), true, false, [0]), 6);
      DeclsInAdd([] + [Declared(5, i, Pos(6, 18), Initialized, [])] + [Referenced(6, i, Pos(6, 25), false, false, [])] + [Referenced(7, j, Pos(8, 38), false, false, [0])] + [OutAssigned(7, [], [0])] + [Referenced(6, i, Pos(6, 32), true, false, [0])], Declared(6, j, Pos(6, 41), Initialized, [0]), 6);
      DeclsInSkip([] + [Declared(5, i, Pos(6, 18), Initialized, [])] + [Referenced(6, i, Pos(6, 25), false, false, [])] + [Referenced(7, j, Pos(8, 38), false, false, [0])] + [OutAssigned(7, [], [0])] + [Referenced(6, i, Pos(6, 32), true, false, [0])] + [Declared(6, j, Pos(6, 41), Initialized, [0])], Referenced(6, i, Pos(6, 45), false, false, [0]), 6);
      DeclsInSkip([] + [Declared(5, i, Pos(6, 18), Initialized, [])] + [Referenced(6, i, Pos(6, 25), false, false, [])] + [Referenced(7, j, Pos(8, 38), false, false, [0])] + [OutAssigned(7, [], [0])] + [Referenced(6, i, Pos(6, 32), true, false, [0])] + [Declared(6, j, Pos(6, 41), Initialized, [0])] + [Referenced(6, i, Pos(6, 45), false, false, [0])], Referenced(6, j, Pos(6, 54), false, false, [0]), 6);
    } else {
      DeclsInSkip([], Declared(5, i, Pos(6, 18), Initialized, []), sc);
      DeclsInSkip([] + [Declared(5, i, Pos(6, 18), Initialized, [])], Referenced(6, i, Pos(6, 25), false, false, []), sc);
      DeclsInSkip([] + [Declared(5, i, Pos(6, 18), Initialized, [])] + [Referenced(6, i, Pos(6, 25), false, false, [])], Referenced(7, j, Pos(8, 38), false, false, [0]), sc);
      DeclsInSkip([] + [Declared(5, i, Pos(6, 18), Initialized, [])] + [Referenced(6, i, Pos(6, 25), false, false, [])] + [Referenced(7, j, Pos(8, 38), false, false, [0])], OutAssigned(7, [], [0]), sc);
      DeclsInSkip([] + [Declared(5, i, Pos(6, 18), Initialized, [])] + [Referenced(6, i, Pos(6, 25), false, false, [])] + [Referenced(7, j, Pos(8, 38), false, false, [0])] + [OutAssigned(7, [], [0])], Referenced(6, i, Pos(6, 32), true, false, [0]), sc);
      DeclsInSkip([] + [Declared(5, i, Pos(6, 18), Initialized, [])] + [Referenced(6, i, Pos(6, 25), false, false, [])] + [Referenced(7, j, Pos(8, 38), false, false, [0])] + [OutAssigned(7, [], [0])] + [Referenced(6, i, Pos(6, 32), true, false, [0])], Declared(6, j, Pos(6, 41), Initialized, [0]), sc);
      DeclsInSkip([] + [Declared(5, i, Pos(6, 18), Initialized, [])] + [Referenced(6, i, Pos(6, 25), false, false, [])] + [Referenced(7, j, Pos(8, 38), false, false, [0])] + [OutAssigned(7, [], [0])] + [Referenced(6, i, Pos(6, 32), true, false, [0])] + [Declared(6, j, Pos(6, 41), Initialized, [0])], Referenced(6, i, Pos(6, 45), false, false, [0]), sc);
      DeclsInSkip([] + [Declared(5, i, Pos(6, 18), Initialized, [])] + [Referenced(6, i, Pos(6, 25), false, false, [])] + [Referenced(7, j, Pos(8, 38), false, false, [0])] + [OutAssigned(7, [], [0])] + [Referenced(6, i, Pos(6, 32), true, false, [0])] + [Declared(6, j, Pos(6, 41), Initialized, [0])] + [Referenced(6, i, Pos(6, 45), false, false, [0])], Referenced(6, j, Pos(6, 54), false, false, [0]), sc);
      AppendNil(DeclsIn(evs, sc));
    }
  }

  /** The locals declared once events 8 to 15 follow some events. */
  lemma {:induction false} Decls1(i: string, j: string, k: string, l: string, m: string, n: string, o: string, p: string, q: string, r: string, evs: seq<Event>, sc: nat)
    requires DeclsIn(evs, sc) == DeclaredBy(i, j, k, l, m, n, o, p, q, r, 1, sc)
    ensures DeclsIn(evs + Chunk1(i, j, k, l, m, n, o, p, q, r), sc) == DeclaredBy(i, j, k, l, m, n, o, p, q, r, 2, sc)
  {
    DeclsInAppend(evs, Chunk1(i, j, k, l, m, n, o, p, q, r), sc);
    assert DeclsIn([], sc) == [];
    if sc == 8 {
      DeclsInAdd([], Declared(8, i, Pos(11, 18), Initialized, []), 8);
      DeclsInAdd([] + [Declared(8, i, Pos(11, 18), Initialized, [])], Declared(8, j, Pos(11, 36), Initialized, []), 8);
      DeclsInSkip([] + [Declared(8, i, Pos(11, 18), Initialized, [])] + [Declared(8, j, Pos(11, 36), Initialized, [])], Referenced(8, j, Pos(11, 46), false, false, []), 8);
      DeclsInSkip([] + [Declared(8, i, Pos(11, 18), Initialized, [])] + [Declared(8, j, Pos(11, 36), Initialized, [])] + [Referenced(8, j, Pos(11, 46), false, false, [])], Referenced(9, j, Pos(11, 51), true, false, []), 8);
      DeclsInSkip([] + [Declared(8, i, Pos(11, 18), Initialized, [])] + [Declared(8, j, Pos(11, 36), Initialized, [])] + [Referenced(8, j, Pos(11, 46), false, false, [])] + [Referenced(9, j, Pos(11, 51), true, false, [])], Referenced(9, i, Pos(11, 55), false, false, []), 8);
      DeclsInSkip([] + [Declared(8, i, Pos(11, 18), Initialized, [])] + [Declared(8, j, Pos(11, 36), Initialized, [])] + [Referenced(8, j, Pos(11, 46), false, false, [])] + [Referenced(9, j, Pos(11, 51), true, false, [])] + [Referenced(9, i, Pos(11, 55), false, false, [])], Referenced(10, j, Pos(12, 38), false, false, [1]), 8);
      DeclsInSkip([] + [Declared(8, i, Pos(11, 18), Initialized, [])] + [Declared(8, j, Pos(11, 36), Initialized, [])] + [Referenced(8, j, Pos(11, 46), false, false, [])] + [Referenced(9, j, Pos(11, 51), true, false, [])] + [Referenced(9, i, Pos(11, 55), false, false, [])] + [Referenced(10, j, Pos(12, 38), false, false, [1])], Declared(10, k, Pos(12, 47), Initialized, [1]), 8);
      DeclsInSkip([] + [Declared(8, i, Pos(11, 18), Initialized, [])] + [Declared(8, j, Pos(11, 36), Initialized, [])] + [Referenced(8, j, Pos(11, 46), false, false, [])] + [Referenced(9, j, Pos(11, 51), true, false, [])] + [Referenced(9, i, Pos(11, 55), false, false, [])] + [Referenced(10, j, Pos(12, 38), false, false, [1])] + [Declared(10, k, Pos(12, 47), Initialized, [1])], Referenced(10, i, Pos(12, 55), false, false, [1]), 8);
    } else if sc == 10 {
      DeclsInSkip([], Declared(8, i, Pos(11, 18), Initialized, []), 10);
      DeclsInSkip([] + [Declared(8, i, Pos(11, 18), Initialized, [])], Declared(8, j, Pos(11, 36), Initialized, []), 10);
      DeclsInSkip([] + [Declared(8, i, Pos(11, 18), Initialized, [])] + [Declared(8, j, Pos(11, 36), Initialized, [])], Referenced(8, j, Pos(11, 46), false, false, []), 10);
      DeclsInSkip([] + [Declared(8, i, Pos(11, 18), Initialized, [])] + [Declared(8, j, Pos(11, 36), Initialized, [])] + [Referenced(8, j, Pos(11, 46), false, false, [])], Referenced(9, j, Pos(11, 51), true, false, []), 10);
      DeclsInSkip([] + [Declared(8, i, Pos(11, 18), Initialized, [])] + [Declared(8, j, Pos(11, 36), Initialized, [])] + [Referenced(8, j, Pos(11, 46), false, false, [])] + [Referenced(9, j, Pos(11, 51), true, false, [])], Referenced(9, i, Pos(11, 55), false, false, []), 10);
      DeclsInSkip([] + [Declared(8, i, Pos(11, 18), Initialized, [])] + [Declared(8, j, Pos(11, 36), Initialized, [])] + [Referenced(8, j, Pos(11, 46), false, false, [])] + [Referenced(9, j, Pos(11, 51), true, false, [])] + [Referenced(9, i, Pos(11, 55), false, false, [])], Referenced(10, j, Pos(12, 38), false, false, [1]), 10);
      DeclsInAdd([] + [Declared(8, i, Pos(11, 18), Initialized, [])] + [Declared(8, j, Pos(11, 36), Initialized, [])] + [Referenced(8, j, Pos(11, 46), false, false, [])] + [Referenced(9, j, Pos(11, 51), true, false, [])] + [Referenced(9, i, Pos(11, 55), false, false, [])] + [Referenced(10, j, Pos(12, 38), false, false, [1])], Declared(10, k, Pos(12, 47), Initialized, [1]), 10);
      DeclsInSkip([] + [Declared(8, i, Pos(11, 18), Initialized, [])] + [Declared(8, j, Pos(11, 36), Initialized, [])] + [Referenced(8, j, Pos(11, 46), false, false, [])] + [Referenced(9, j, Pos(11, 51), true, false, [])] + [Referenced(9, i, Pos(11, 55), false, false, [])] + [Referenced(10, j, Pos(12, 38), false, false, [1])] + [Declared(10, k, Pos(12, 47), Initialized, [1])], Referenced(10, i, Pos(12, 55), false, false, [1]), 10);
    } else {
      DeclsInSkip([], Declared(8, i, Pos(11, 18), Initialized, []), sc);
      DeclsInSkip([] + [Declared(8, i, Pos(11, 18), Initialized, [])], Declared(8, j, Pos(11, 36), Initialized, []), sc);
      DeclsInSkip([] + [Declared(8, i, Pos(11, 18), Initialized, [])] + [Declared(8, j, Pos(11, 36), Initialized, [])], Referenced(8, j, Pos(11, 46), false, false, []), sc);
      DeclsInSkip([] + [Declared(8, i, Pos(11, 18), Initialized, [])] + [Declared(8, j, Pos(11, 36), Initialized, [])] + [Referenced(8, j, Pos(11, 46), false, false, [])], Referenced(9, j, Pos(11, 51), true, false, []), sc);
      DeclsInSkip([] + [Declared(8, i, Pos(11, 18), Initialized, [])] + [Declared(8, j, Pos(11, 36), Initialized, [])] + [Referenced(8, j, Pos(11, 46), false, false, [])] + [Referenced(9, j, Pos(11, 51), true, false, [])], Referenced(9, i, Pos(11, 55), false, false, []), sc);
      DeclsInSkip([] + [Declared(8, i, Pos(11, 18), Initialized, [])] + [Declared(8, j, Pos(11, 36), Initialized, [])] + [Referenced(8, j, Pos(11, 46), false, false, [])] + [Referenced(9, j, Pos(11, 51), true, false, [])] + [Referenced(9, i, Pos(11, 55), false, false, [])], Referenced(10, j, Pos(12, 38), false, false, [1]), sc);
      DeclsInSkip([] + [Declared(8, i, Pos(11, 18), Initialized, [])] + [Declared(8, j, Pos(11, 36), Initialized, [])] + [Referenced(8, j, Pos(11, 46), false, false, [])] + [Referenced(9, j, Pos(11, 51), true, false, [])] + [Referenced(9, i, Pos(11, 55), false, false, [])] + [Referenced(10, j, Pos(12, 38), false, false, [1])], Declared(10, k, Pos(12, 47), Initialized, [1]), sc);
      DeclsInSkip([] + [Declared(8, i, Pos(11, 18), Initialized, [])] + [Declared(8, j, Pos(11, 36), Initialized, [])] + [Referenced(8, j, Pos(11, 46), false, false, [])] + [Referenced(9, j, Pos(11, 51), true, false, [])] + [Referenced(9, i, Pos(11, 55), false, false, [])] + [Referenced(10, j, Pos(12, 38), false, false, [1])] + [Declared(10, k, Pos(12, 47), Initialized, [1])], Referenced(10, i, Pos(12, 55), false, false, [1]), sc);
      AppendNil(DeclsIn(evs, sc));
    }
  }

  /** The locals declared once events 16 to 23 follow some events. */
  lemma {:induction false} Decls2(i: string, j: string, k: string, l: string, m: string, n: string, o: string, p: string, q: string, r: string, evs: seq<Event>, sc: nat)
    requires DeclsIn(evs, sc) == DeclaredBy(i, j, k, l, m, n, o, p, q, r, 2, sc)
    ensures DeclsIn(evs + Chunk2(i, j, k, l, m, n, o, p, q, r), sc) == DeclaredBy(i, j, k, l, m, n, o, p, q, r, 3, sc)
  {
    DeclsInAppend(evs, Chunk2(i, j, k, l, m, n, o, p, q, r), sc);
    assert DeclsIn([], sc) == [];
    if sc == 11 {
      DeclsInSkip([], OutAssigned(10, [], [1]), 11);
      DeclsInSkip([] + [OutAssigned(10, [], [1])], Referenced(9, i, Pos(11, 64), false, false, [1]), 11);
      DeclsInSkip([] + [OutAssigned(10, [], [1])] + [Referenced(9, i, Pos(11, 64), false, false, [1])], Referenced(4, j, Pos(14, 9), true, false, []), 11);
      DeclsInSkip([] + [OutAssigned(10, [], [1])] + [Referenced(9, i, Pos(11, 64), false, false, [1])] + [Referenced(4, j, Pos(14, 9), true, false, [])], Referenced(4, k, Pos(15, 9), true, false, []), 11);
      DeclsInAdd([] + [OutAssigned(10, [], [1])] + [Referenced(9, i, Pos(11, 64), false, false, [1])] + [Referenced(4, j, Pos(14, 9), true, false, [])] + [Referenced(4, k, Pos(15, 9), true, false, [])], Declared(11, i, Pos(17, 18), Initialized, []), 11);
      DeclsInSkip([] + [OutAssigned(10, [], [1])] + [Referenced(9, i, Pos(11, 64), false, false, [1])] + [Referenced(4, j, Pos(14, 9), true, false, [])] + [Referenced(4, k, Pos(15, 9), true, false, [])] + [Declared(11, i, Pos(17, 18), Initialized, [])], Referenced(11, l, Pos(17, 22), false, false, []), 11);
      DeclsInSkip([] + [OutAssigned(10, [], [1])] + [Referenced(9, i, Pos(11, 64), false, false, [1])] + [Referenced(4, j, Pos(14, 9), true, false, [])] + [Referenced(4, k, Pos(15, 9), true, false, [])] + [Declared(11, i, Pos(17, 18), Initialized, [])] + [Referenced(11, l, Pos(17, 22), false, false, [])], Referenced(12, i, Pos(17, 25), false, false, []), 11);
      DeclsInSkip([] + [OutAssigned(10, [], [1])] + [Referenced(9, i, Pos(11, 64), false, false, [1])] + [Referenced(4, j, Pos(14, 9), true, false, [])] + [Referenced(4, k, Pos(15, 9), true, false, [])] + [Declared(11, i, Pos(17, 18), Initialized, [])] + [Referenced(11, l, Pos(17, 22), false, false, [])] + [Referenced(12, i, Pos(17, 25), false, false, [])], Declared(12, l, Pos(17, 34), Initialized, []), 11);
    } else if sc == 12 {
      DeclsInSkip([], OutAssigned(10, [], [1]), 12);
      DeclsInSkip([] + [OutAssigned(10, [], [1])], Referenced(9, i, Pos(11, 64), false, false, [1]), 12);
      DeclsInSkip([] + [OutAssigned(10, [], [1])] + [Referenced(9, i, Pos(11, 64), false, false, [1])], Referenced(4, j, Pos(14, 9), true, false, []), 12);
      DeclsInSkip([] + [OutAssigned(10, [], [1])] + [Referenced(9, i, Pos(11, 64), false, false, [1])] + [Referenced(4, j, Pos(14, 9), true, false, [])], Referenced(4, k, Pos(15, 9), true, false, []), 12);
      DeclsInSkip([] + [OutAssigned(10, [], [1])] + [Referenced(9, i, Pos(11, 64), false, false, [1])] + [Referenced(4, j, Pos(14, 9), true, false, [])] + [Referenced(4, k, Pos(15, 9), true, false, [])], Declared(11, i, Pos(17, 18), Initialized, []), 12);
      DeclsInSkip([] + [OutAssigned(10, [], [1])] + [Referenced(9, i, Pos(11, 64), false, false, [1])] + [Referenced(4, j, Pos(14, 9), true, false, [])] + [Referenced(4, k, Pos(15, 9), true, false, [])] + [Declared(11, i, Pos(17, 18), Initialized, [])], Referenced(11, l, Pos(17, 22), false, false, []), 12);
      DeclsInSkip([] + [OutAssigned(10, [], [1])] + [Referenced(9, i, Pos(11, 64), false, false, [1])] + [Referenced(4, j, Pos(14, 9), true, false, [])] + [Referenced(4, k, Pos(15, 9), true, false, [])] + [Declared(11, i, Pos(17, 18), Initialized, [])] + [Referenced(11, l, Pos(17, 22), false, false, [])], Referenced(12, i, Pos(17, 25), false, false, []), 12);
      DeclsInAdd([] + [OutAssigned(10, [], [1])] + [Referenced(9, i, Pos(11, 64), false, false, [1])] + [Referenced(4, j, Pos(14, 9), true, false, [])] + [Referenced(4, k, Pos(15, 9), true, false, [])] + [Declared(11, i, Pos(17, 18), Initialized, [])] + [Referenced(11, l, Pos(17, 22), false, false, [])] + [Referenced(12, i, Pos(17, 25), false, false, [])], Declared(12, l, Pos(17, 34), Initialized, []), 12);
    } else {
      DeclsInSkip([], OutAssigned(10, [], [1]), sc);
      DeclsInSkip([] + [OutAssigned(10, [], [1])], Referenced(9, i, Pos(11, 64), false, false, [1]), sc);
      DeclsInSkip([] + [OutAssigned(10, [], [1])] + [Referenced(9, i, Pos(11, 64), false, false, [1])], Referenced(4, j, Pos(14, 9), true, false, []), sc);
      DeclsInSkip([] + [OutAssigned(10, [], [1])] + [Referenced(9, i, Pos(11, 64), false, false, [1])] + [Referenced(4, j, Pos(14, 9), true, false, [])], Referenced(4, k, Pos(15, 9), true, false, []), sc);
      DeclsInSkip([] + [OutAssigned(10, [], [1])] + [Referenced(9, i, Pos(11, 64), false, false, [1])] + [Referenced(4, j, Pos(14, 9), true, false, [])] + [Referenced(4, k, Pos(15, 9), true, false, [])], Declared(11, i, Pos(17, 18), Initialized, []), sc);
      DeclsInSkip([] + [OutAssigned(10, [], [1])] + [Referenced(9, i, Pos(11, 64), false, false, [1])] + [Referenced(4, j, Pos(14, 9), true, false, [])] + [Referenced(4, k, Pos(15, 9), true, false, [])] + [Declared(11, i, Pos(17, 18), Initialized, [])], Referenced(11, l, Pos(17, 22), false, false, []), sc);
      DeclsInSkip([] + [OutAssigned(10, [], [1])] + [Referenced(9, i, Pos(11, 64), false, false, [1])] + [Referenced(4, j, Pos(14, 9), true, false, [])] + [Referenced(4, k, Pos(15, 9), true, false, [])] + [Declared(11, i, Pos(17, 18), Initialized, [])] + [Referenced(11, l, Pos(17, 22), false, false, [])], Referenced(12, i, Pos(17, 25), false, false, []), sc);
      DeclsInSkip([] + [OutAssigned(10, [], [1])] + [Referenced(9, i, Pos(11, 64), false, false, [1])] + [Referenced(4, j, Pos(14, 9), true, false, [])] + [Referenced(4, k, Pos(15, 9), true, false, [])] + [Declared(11, i, Pos(17, 18), Initialized, [])] + [Referenced(11, l, Pos(17, 22), false, false, [])] + [Referenced(12, i, Pos(17, 25), false, false, [])], Declared(12, l, Pos(17, 34), Initialized, []), sc);
      AppendNil(DeclsIn(evs, sc));
    }
  }

  /** The locals declared once events 24 to 31 follow some events. */
  lemma {:induction false} Decls3(i: string, j: string, k: string, l: string, m: string, n: string, o: string, p: string, q: string, r: string, evs: seq<Event>, sc: nat)
    requires DeclsIn(evs, sc) == DeclaredBy(i, j, k, l, m, n, o, p, q, r, 3, sc)
    ensures DeclsIn(evs + Chunk3(i, j, k, l, m, n, o, p, q, r), sc) == DeclaredBy(i, j, k, l, m, n, o, p, q, r, 4, sc)
  {
    DeclsInAppend(evs, Chunk3(i, j, k, l, m, n, o, p, q, r), sc);
    assert DeclsIn([], sc) == [];
    if sc == 14 {
      DeclsInSkip([], Referenced(12, i, Pos(17, 43), false, false, [2]), 14);
      DeclsInAdd([] + [Referenced(12, i, Pos(17, 43), false, false, [2])], Declared(14, i, Pos(19, 18), Initialized, []), 14);
      DeclsInSkip([] + [Referenced(12, i, Pos(17, 43), false, false, [2])] + [Declared(14, i, Pos(19, 18), Initialized, [])], Referenced(15, i, Pos(19, 25), false, false, []), 14);
      DeclsInSkip([] + [Referenced(12, i, Pos(17, 43), false, false, [2])] + [Declared(14, i, Pos(19, 18), Initialized, [])] + [Referenced(15, i, Pos(19, 25), false, false, [])], Referenced(15, m, Pos(19, 29), false, false, []), 14);
      DeclsInSkip([] + [Referenced(12, i, Pos(17, 43), false, false, [2])] + [Declared(14, i, Pos(19, 18), Initialized, [])] + [Referenced(15, i, Pos(19, 25), false, false, [])] + [Referenced(15, m, Pos(19, 29), false, false, [])], Referenced(15, i, Pos(19, 32), true, false, [3]), 14);
      DeclsInSkip([] + [Referenced(12, i, Pos(17, 43), false, false, [2])] + [Declared(14, i, Pos(19, 18), Initialized, [])] + [Referenced(15, i, Pos(19, 25), false, false, [])] + [Referenced(15, m, Pos(19, 29), false, false, [])] + [Referenced(15, i, Pos(19, 32), true, false, [3])], Declared(15, m, Pos(19, 41), Initialized, [3]), 14);
      DeclsInSkip([] + [Referenced(12, i, Pos(17, 43), false, false, [2])] + [Declared(14, i, Pos(19, 18), Initialized, [])] + [Referenced(15, i, Pos(19, 25), false, false, [])] + [Referenced(15, m, Pos(19, 29), false, false, [])] + [Referenced(15, i, Pos(19, 32), true, false, [3])] + [Declared(15, m, Pos(19, 41), Initialized, [3])], Referenced(15, m, Pos(19, 51), false, false, [3]), 14);
      DeclsInSkip([] + [Referenced(12, i, Pos(17, 43), false, false, [2])] + [Declared(14, i, Pos(19, 18), Initialized, [])] + [Referenced(15, i, Pos(19, 25), false, false, [])] + [Referenced(15, m, Pos(19, 29), false, false, [])] + [Referenced(15, i, Pos(19, 32), true, false, [3])] + [Declared(15, m, Pos(19, 41), Initialized, [3])] + [Referenced(15, m, Pos(19, 51), false, false, [3])], Declared(17, i, Pos(21, 18), Initialized, []), 14);
    } else if sc == 15 {
      DeclsInSkip([], Referenced(12, i, Pos(17, 43), false, false, [2]), 15);
      DeclsInSkip([] + [Referenced(12, i, Pos(17, 43), false, false, [2])], Declared(14, i, Pos(19, 18), Initialized, []), 15);
      DeclsInSkip([] + [Referenced(12, i, Pos(17, 43), false, false, [2])] + [Declared(14, i, Pos(19, 18), Initialized, [])], Referenced(15, i, Pos(19, 25), false, false, []), 15);
      DeclsInSkip([] + [Referenced(12, i, Pos(17, 43), false, false, [2])] + [Declared(14, i, Pos(19, 18), Initialized, [])] + [Referenced(15, i, Pos(19, 25), false, false, [])], Referenced(15, m, Pos(19, 29), false, false, []), 15);
      DeclsInSkip([] + [Referenced(12, i, Pos(17, 43), false, false, [2])] + [Declared(14, i, Pos(19, 18), Initialized, [])] + [Referenced(15, i, Pos(19, 25), false, false, [])] + [Referenced(15, m, Pos(19, 29), false, false, [])], Referenced(15, i, Pos(19, 32), true, false, [3]), 15);
      DeclsInAdd([] + [Referenced(12, i, Pos(17, 43), false, false, [2])] + [Declared(14, i, Pos(19, 18), Initialized, [])] + [Referenced(15, i, Pos(19, 25), false, false, [])] + [Referenced(15, m, Pos(19, 29), false, false, [])] + [Referenced(15, i, Pos(19, 32), true, false, [3])], Declared(15, m, Pos(19, 41), Initialized, [3]), 15);
      DeclsInSkip([] + [Referenced(12, i, Pos(17, 43), false, false, [2])] + [Declared(14, i, Pos(19, 18), Initialized, [])] + [Referenced(15, i, Pos(19, 25), false, false, [])] + [Referenced(15, m, Pos(19, 29), false, false, [])] + [Referenced(15, i, Pos(19, 32), true, false, [3])] + [Declared(15, m, Pos(19, 41), Initialized, [3])], Referenced(15, m, Pos(19, 51), false, false, [3]), 15);
      DeclsInSkip([] + [Referenced(12, i, Pos(17, 43), false, false, [2])] + [Declared(14, i, Pos(19, 18), Initialized, [])] + [Referenced(15, i, Pos(19, 25), false, false, [])] + [Referenced(15, m, Pos(19, 29), false, false, [])] + [Referenced(15, i, Pos(19, 32), true, false, [3])] + [Declared(15, m, Pos(19, 41), Initialized, [3])] + [Referenced(15, m, Pos(19, 51), false, false, [3])], Declared(17, i, Pos(21, 18), Initialized, []), 15);
    } else if sc == 17 {
      DeclsInSkip([], Referenced(12, i, Pos(17, 43), false, false, [2]), 17);
      DeclsInSkip([] + [Referenced(12, i, Pos(17, 43), false, false, [2])], Declared(14, i, Pos(19, 18), Initialized, []), 17);
      DeclsInSkip([] + [Referenced(12, i, Pos(17, 43), false, false, [2])] + [Declared(14, i, Pos(19, 18), Initialized, [])], Referenced(15, i, Pos(19, 25), false, false, []), 17);
      DeclsInSkip([] + [Referenced(12, i, Pos(17, 43), false, false, [2])] + [Declared(14, i, Pos(19, 18), Initialized, [])] + [Referenced(15, i, Pos(19, 25), false, false, [])], Referenced(15, m, Pos(19, 29), false, false, []), 17);
      DeclsInSkip([] + [Referenced(12, i, Pos(17, 43), false, false, [2])] + [Declared(14, i, Pos(19, 18), Initialized, [])] + [Referenced(15, i, Pos(19, 25), false, false, [])] + [Referenced(15, m, Pos(19, 29), false, false, [])], Referenced(15, i, Pos(19, 32), true, false, [3]), 17);
      DeclsInSkip([] + [Referenced(12, i, Pos(17, 43), false, false, [2])] + [Declared(14, i, Pos(19, 18), Initialized, [])] + [Referenced(15, i, Pos(19, 25), false, false, [])] + [Referenced(15, m, Pos(19, 29), false, false, [])] + [Referenced(15, i, Pos(19, 32), true, false, [3])], Declared(15, m, Pos(19, 41), Initialized, [3]), 17);
      DeclsInSkip([] + [Referenced(12, i, Pos(17, 43), false, false, [2])] + [Declared(14, i, Pos(19, 18), Initialized, [])] + [Referenced(15, i, Pos(19, 25), false, false, [])] + [Referenced(15, m, Pos(19, 29), false, false, [])] + [Referenced(15, i, Pos(19, 32), true, false, [3])] + [Declared(15, m, Pos(19, 41), Initialized, [3])], Referenced(15, m, Pos(19, 51), false, false, [3]), 17);
      DeclsInAdd([] + [Referenced(12, i, Pos(17, 43), false, false, [2])] + [Declared(14, i, Pos(19, 18), Initialized, [])] + [Referenced(15, i, Pos(19, 25), false, false, [])] + [Referenced(15, m, Pos(19, 29), false, false, [])] + [Referenced(15, i, Pos(19, 32), true, false, [3])] + [Declared(15, m, Pos(19, 41), Initialized, [3])] + [Referenced(15, m, Pos(19, 51), false, false, [3])], Declared(17, i, Pos(21, 18), Initialized, []), 17);
    } else {
      DeclsInSkip([], Referenced(12, i, Pos(17, 43), false, false, [2]), sc);
      DeclsInSkip([] + [Referenced(12, i, Pos(17, 43), false, false, [2])], Declared(14, i, Pos(19, 18), Initialized, []), sc);
      DeclsInSkip([] + [Referenced(12, i, Pos(17, 43), false, false, [2])] + [Declared(14, i, Pos(19, 18), Initialized, [])], Referenced(15, i, Pos(19, 25), false, false, []), sc);
      DeclsInSkip([] + [Referenced(12, i, Pos(17, 43), false, false, [2])] + [Declared(14, i, Pos(19, 18), Initialized, [])] + [Referenced(15, i, Pos(19, 25), false, false, [])], Referenced(15, m, Pos(19, 29), false, false, []), sc);
      DeclsInSkip([] + [Referenced(12, i, Pos(17, 43), false, false, [2])] + [Declared(14, i, Pos(19, 18), Initialized, [])] + [Referenced(15, i, Pos(19, 25), false, false, [])] + [Referenced(15, m, Pos(19, 29), false, false, [])], Referenced(15, i, Pos(19, 32), true, false, [3]), sc);
      DeclsInSkip([] + [Referenced(12, i, Pos(17, 43), false, false, [2])] + [Declared(14, i, Pos(19, 18), Initialized, [])] + [Referenced(15, i, Pos(19, 25), false, false, [])] + [Referenced(15, m, Pos(19, 29), false, false, [])] + [Referenced(15, i, Pos(19, 32), true, false, [3])], Declared(15, m, Pos(19, 41), Initialized, [3]), sc);
      DeclsInSkip([] + [Referenced(12, i, Pos(17, 43), false, false, [2])] + [Declared(14, i, Pos(19, 18), Initialized, [])] + [Referenced(15, i, Pos(19, 25), false, false, [])] + [Referenced(15, m, Pos(19, 29), false, false, [])] + [Referenced(15, i, Pos(19, 32), true, false, [3])] + [Declared(15, m, Pos(19, 41), Initialized, [3])], Referenced(15, m, Pos(19, 51), false, false, [3]), sc);
      DeclsInSkip([] + [Referenced(12, i, Pos(17, 43), false, false, [2])] + [Declared(14, i, Pos(19, 18), Initialized, [])] + [Referenced(15, i, Pos(19, 25), false, false, [])] + [Referenced(15, m, Pos(19, 29), false, false, [])] + [Referenced(15, i, Pos(19, 32), true, false, [3])] + [Declared(15, m, Pos(19, 41), Initialized, [3])] + [Referenced(15, m, Pos(19, 51), false, false, [3])], Declared(17, i, Pos(21, 18), Initialized, []), sc);
      AppendNil(DeclsIn(evs, sc));
    }
  }

  /** The locals declared once events 32 to 39 follow some events. */
  lemma {:induction false} Decls4(i: string, j: string, k: string, l: string, m: string, n: string, o: string, p: string, q: string, r: string, evs: seq<Event>, sc: nat)
    requires DeclsIn(evs, sc) == DeclaredBy(i, j, k, l, m, n, o, p, q, r, 4, sc)
    ensures DeclsIn(evs + Chunk4(i, j, k, l, m, n, o, p, q, r), sc) == DeclaredBy(i, j, k, l, m, n, o, p, q, r, 5, sc)
  {
    DeclsInAppend(evs, Chunk4(i, j, k, l, m, n, o, p, q, r), sc);
    assert DeclsIn([], sc) == [];
    if sc == 19 {
      DeclsInSkip([], Referenced(17, n, Pos(21, 22), false, false, []), 19);
      DeclsInSkip([] + [Referenced(17, n, Pos(21, 22), false, false, [])], Referenced(18, i, Pos(21, 25), false, false, []), 19);
      DeclsInAdd([] + [Referenced(17, n, Pos(21, 22), false, false, [])] + [Referenced(18, i, Pos(21, 25), false, false, [])], Declared(19, n, Pos(22, 43), Initialized, [4]), 19);
      DeclsInSkip([] + [Referenced(17, n, Pos(21, 22), false, false, [])] + [Referenced(18, i, Pos(21, 25), false, false, [])] + [Declared(19, n, Pos(22, 43), Initialized, [4])], Referenced(19, n, Pos(22, 52), false, false, [4]), 19);
      DeclsInSkip([] + [Referenced(17, n, Pos(21, 22), false, false, [])] + [Referenced(18, i, Pos(21, 25), false, false, [])] + [Declared(19, n, Pos(22, 43), Initialized, [4])] + [Referenced(19, n, Pos(22, 52), false, false, [4])], OutAssigned(19, [], [4]), 19);
      DeclsInSkip([] + [Referenced(17, n, Pos(21, 22), false, false, [])] + [Referenced(18, i, Pos(21, 25), false, false, [])] + [Declared(19, n, Pos(22, 43), Initialized, [4])] + [Referenced(19, n, Pos(22, 52), false, false, [4])] + [OutAssigned(19, [], [4])], Referenced(18, i, Pos(21, 32), false, false, [4]), 19);
      DeclsInSkip([] + [Referenced(17, n, Pos(21, 22), false, false, [])] + [Referenced(18, i, Pos(21, 25), false, false, [])] + [Declared(19, n, Pos(22, 43), Initialized, [4])] + [Referenced(19, n, Pos(22, 52), false, false, [4])] + [OutAssigned(19, [], [4])] + [Referenced(18, i, Pos(21, 32), false, false, [4])], Declared(20, i, Pos(24, 18), Initialized, []), 19);
      DeclsInSkip([] + [Referenced(17, n, Pos(21, 22), false, false, [])] + [Referenced(18, i, Pos(21, 25), false, false, [])] + [Declared(19, n, Pos(22, 43), Initialized, [4])] + [Referenced(19, n, Pos(22, 52), false, false, [4])] + [OutAssigned(19, [], [4])] + [Referenced(18, i, Pos(21, 32), false, false, [4])] + [Declared(20, i, Pos(24, 18), Initialized, [])], Referenced(21, i, Pos(24, 25), false, false, []), 19);
    } else if sc == 20 {
      DeclsInSkip([], Referenced(17, n, Pos(21, 22), false, false, []), 20);
      DeclsInSkip([] + [Referenced(17, n, Pos(21, 22), false, false, [])], Referenced(18, i, Pos(21, 25), false, false, []), 20);
      DeclsInSkip([] + [Referenced(17, n, Pos(21, 22), false, false, [])] + [Referenced(18, i, Pos(21, 25), false, false, [])], Declared(19, n, Pos(22, 43), Initialized, [4]), 20);
      DeclsInSkip([] + [Referenced(17, n, Pos(21, 22), false, false, [])] + [Referenced(18, i, Pos(21, 25), false, false, [])] + [Declared(19, n, Pos(22, 43), Initialized, [4])], Referenced(19, n, Pos(22, 52), false, false, [4]), 20);
      DeclsInSkip([] + [Referenced(17, n, Pos(21, 22), false, false, [])] + [Referenced(18, i, Pos(21, 25), false, false, [])] + [Declared(19, n, Pos(22, 43), Initialized, [4])] + [Referenced(19, n, Pos(22, 52), false, false, [4])], OutAssigned(19, [], [4]), 20);
      DeclsInSkip([] + [Referenced(17, n, Pos(21, 22), false, false, [])] + [Referenced(18, i, Pos(21, 25), false, false, [])] + [Declared(19, n, Pos(22, 43), Initialized, [4])] + [Referenced(19, n, Pos(22, 52), false, false, [4])] + [OutAssigned(19, [], [4])], Referenced(18, i, Pos(21, 32), false, false, [4]), 20);
      DeclsInAdd([] + [Referenced(17, n, Pos(21, 22), false, false, [])] + [Referenced(18, i, Pos(21, 25), false, false, [])] + [Declared(19, n, Pos(22, 43), Initialized, [4])] + [Referenced(19, n, Pos(22, 52), false, false, [4])] + [OutAssigned(19, [], [4])] + [Referenced(18, i, Pos(21, 32), false, false, [4])], Declared(20, i, Pos(24, 18), Initialized, []), 20);
      DeclsInSkip([] + [Referenced(17, n, Pos(21, 22), false, false, [])] + [Referenced(18, i, Pos(21, 25), false, false, [])] + [Declared(19, n, Pos(22, 43), Initialized, [4])] + [Referenced(19, n, Pos(22, 52), false, false, [4])] + [OutAssigned(19, [], [4])] + [Referenced(18, i, Pos(21, 32), false, false, [4])] + [Declared(20, i, Pos(24, 18), Initialized, [])], Referenced(21, i, Pos(24, 25), false, false, []), 20);
    } else {
      DeclsInSkip([], Referenced(17, n, Pos(21, 22), false, false, []), sc);
      DeclsInSkip([] + [Referenced(17, n, Pos(21, 22), false, false, [])], Referenced(18, i, Pos(21, 25), false, false, []), sc);
      DeclsInSkip([] + [Referenced(17, n, Pos(21, 22), false, false, [])] + [Referenced(18, i, Pos(21, 25), false, false, [])], Declared(19, n, Pos(22, 43), Initialized, [4]), sc);
      DeclsInSkip([] + [Referenced(17, n, Pos(21, 22), false, false, [])] + [Referenced(18, i, Pos(21, 25), false, false, [])] + [Declared(19, n, Pos(22, 43), Initialized, [4])], Referenced(19, n, Pos(22, 52), false, false, [4]), sc);
      DeclsInSkip([] + [Referenced(17, n, Pos(21, 22), false, false, [])] + [Referenced(18, i, Pos(21, 25), false, false, [])] + [Declared(19, n, Pos(22, 43), Initialized, [4])] + [Referenced(19, n, Pos(22, 52), false, false, [4])], OutAssigned(19, [], [4]), sc);
      DeclsInSkip([] + [Referenced(17, n, Pos(21, 22), false, false, [])] + [Referenced(18, i, Pos(21, 25), false, false, [])] + [Declared(19, n, Pos(22, 43), Initialized, [4])] + [Referenced(19, n, Pos(22, 52), false, false, [4])] + [OutAssigned(19, [], [4])], Referenced(18, i, Pos(21, 32), false, false, [4]), sc);
      DeclsInSkip([] + [Referenced(17, n, Pos(21, 22), false, false, [])] + [Referenced(18, i, Pos(21, 25), false, false, [])] + [Declared(19, n, Pos(22, 43), Initialized, [4])] + [Referenced(19, n, Pos(22, 52), false, false, [4])] + [OutAssigned(19, [], [4])] + [Referenced(18, i, Pos(21, 32), false, false, [4])], Declared(20, i, Pos(24, 18), Initialized, []), sc);
      DeclsInSkip([] + [Referenced(17, n, Pos(21, 22), false, false, [])] + [Referenced(18, i, Pos(21, 25), false, false, [])] + [Declared(19, n, Pos(22, 43), Initialized, [4])] + [Referenced(19, n, Pos(22, 52), false, false, [4])] + [OutAssigned(19, [], [4])] + [Referenced(18, i, Pos(21, 32), false, false, [4])] + [Declared(20, i, Pos(24, 18), Initialized, [])], Referenced(21, i, Pos(24, 25), false, false, []), sc);
      AppendNil(DeclsIn(evs, sc));
    }
  }

  /** The locals declared once events 40 to 47 follow some events. */
  lemma {:induction false} Decls5(i: string, j: string, k: string, l: string, m: string, n: string, o: string, p: string, q: string, r: string, evs: seq<Event>, sc: nat)
    requires DeclsIn(evs, sc) == DeclaredBy(i, j, k, l, m, n, o, p, q, r, 5, sc)
    ensures DeclsIn(evs + Chunk5(i, j, k, l, m, n, o, p, q, r), sc) == DeclaredBy(i, j, k, l, m, n, o, p, q, r, 6, sc)
  {
    DeclsInAppend(evs, Chunk5(i, j, k, l, m, n, o, p, q, r), sc);
    assert DeclsIn([], sc) == [];
    if sc == 22 {
      DeclsInSkip([], Referenced(21, o, Pos(24, 29), false, false, []), 22);
      DeclsInAdd([] + [Referenced(21, o, Pos(24, 29), false, false, [])], Declared(22, o, Pos(25, 42), Initialized, [5]), 22);
      DeclsInSkip([] + [Referenced(21, o, Pos(24, 29), false, false, [])] + [Declared(22, o, Pos(25, 42), Initialized, [5])], OutAssigned(22, [], [5]), 22);
      DeclsInSkip([] + [Referenced(21, o, Pos(24, 29), false, false, [])] + [Declared(22, o, Pos(25, 42), Initialized, [5])] + [OutAssigned(22, [], [5])], Referenced(21, i, Pos(24, 32), false, false, [5]), 22);
      DeclsInSkip([] + [Referenced(21, o, Pos(24, 29), false, false, [])] + [Declared(22, o, Pos(25, 42), Initialized, [5])] + [OutAssigned(22, [], [5])] + [Referenced(21, i, Pos(24, 32), false, false, [5])], Declared(23, i, Pos(27, 18), Initialized, []), 22);
      DeclsInSkip([] + [Referenced(21, o, Pos(24, 29), false, false, [])] + [Declared(22, o, Pos(25, 42), Initialized, [5])] + [OutAssigned(22, [], [5])] + [Referenced(21, i, Pos(24, 32), false, false, [5])] + [Declared(23, i, Pos(27, 18), Initialized, [])], Referenced(24, i, Pos(27, 25), false, false, []), 22);
      DeclsInSkip([] + [Referenced(21, o, Pos(24, 29), false, false, [])] + [Declared(22, o, Pos(25, 42), Initialized, [5])] + [OutAssigned(22, [], [5])] + [Referenced(21, i, Pos(24, 32), false, false, [5])] + [Declared(23, i, Pos(27, 18), Initialized, [])] + [Referenced(24, i, Pos(27, 25), false, false, [])], Declared(25, p, Pos(28, 42), Initialized, [6]), 22);
      DeclsInSkip([] + [Referenced(21, o, Pos(24, 29), false, false, [])] + [Declared(22, o, Pos(25, 42), Initialized, [5])] + [OutAssigned(22, [], [5])] + [Referenced(21, i, Pos(24, 32), false, false, [5])] + [Declared(23, i, Pos(27, 18), Initialized, [])] + [Referenced(24, i, Pos(27, 25), false, false, [])] + [Declared(25, p, Pos(28, 42), Initialized, [6])], OutAssigned(25, [], [6]), 22);
    } else if sc == 23 {
      DeclsInSkip([], Referenced(21, o, Pos(24, 29), false, false, []), 23);
      DeclsInSkip([] + [Referenced(21, o, Pos(24, 29), false, false, [])], Declared(22, o, Pos(25, 42), Initialized, [5]), 23);
      DeclsInSkip([] + [Referenced(21, o, Pos(24, 29), false, false, [])] + [Declared(22, o, Pos(25, 42), Initialized, [5])], OutAssigned(22, [], [5]), 23);
      DeclsInSkip([] + [Referenced(21, o, Pos(24, 29), false, false, [])] + [Declared(22, o, Pos(25, 42), Initialized, [5])] + [OutAssigned(22, [], [5])], Referenced(21, i, Pos(24, 32), false, false, [5]), 23);
      DeclsInAdd([] + [Referenced(21, o, Pos(24, 29), false, false, [])] + [Declared(22, o, Pos(25, 42), Initialized, [5])] + [OutAssigned(22, [], [5])] + [Referenced(21, i, Pos(24, 32), false, false, [5])], Declared(23, i, Pos(27, 18), Initialized, []), 23);
      DeclsInSkip([] + [Referenced(21, o, Pos(24, 29), false, false, [])] + [Declared(22, o, Pos(25, 42), Initialized, [5])] + [OutAssigned(22, [], [5])] + [Referenced(21, i, Pos(24, 32), false, false, [5])] + [Declared(23, i, Pos(27, 18), Initialized, [])], Referenced(24, i, Pos(27, 25), false, false, []), 23);
      DeclsInSkip([] + [Referenced(21, o, Pos(24, 29), false, false, [])] + [Declared(22, o, Pos(25, 42), Initialized, [5])] + [OutAssigned(22, [], [5])] + [Referenced(21, i, Pos(24, 32), false, false, [5])] + [Declared(23, i, Pos(27, 18), Initialized, [])] + [Referenced(24, i, Pos(27, 25), false, false, [])], Declared(25, p, Pos(28, 42), Initialized, [6]), 23);
      DeclsInSkip([] + [Referenced(21, o, Pos(24, 29), false, false, [])] + [Declared(22, o, Pos(25, 42), Initialized, [5])] + [OutAssigned(22, [], [5])] + [Referenced(21, i, Pos(24, 32), false, false, [5])] + [Declared(23, i, Pos(27, 18), Initialized, [])] + [Referenced(24, i, Pos(27, 25), false, false, [])] + [Declared(25, p, Pos(28, 42), Initialized, [6])], OutAssigned(25, [], [6]), 23);
    } else if sc == 25 {
      DeclsInSkip([], Referenced(21, o, Pos(24, 29), false, false, []), 25);
      DeclsInSkip([] + [Referenced(21, o, Pos(24, 29), false, false, [])], Declared(22, o, Pos(25, 42), Initialized, [5]), 25);
      DeclsInSkip([] + [Referenced(21, o, Pos(24, 29), false, false, [])] + [Declared(22, o, Pos(25, 42), Initialized, [5])], OutAssigned(22, [], [5]), 25);
      DeclsInSkip([] + [Referenced(21, o, Pos(24, 29), false, false, [])] + [Declared(22, o, Pos(25, 42), Initialized, [5])] + [OutAssigned(22, [], [5])], Referenced(21, i, Pos(24, 32), false, false, [5]), 25);
      DeclsInSkip([] + [Referenced(21, o, Pos(24, 29), false, false, [])] + [Declared(22, o, Pos(25, 42), Initialized, [5])] + [OutAssigned(22, [], [5])] + [Referenced(21, i, Pos(24, 32), false, false, [5])], Declared(23, i, Pos(27, 18), Initialized, []), 25);
      DeclsInSkip([] + [Referenced(21, o, Pos(24, 29), false, false, [])] + [Declared(22, o, Pos(25, 42), Initialized, [5])] + [OutAssigned(22, [], [5])] + [Referenced(21, i, Pos(24, 32), false, false, [5])] + [Declared(23, i, Pos(27, 18), Initialized, [])], Referenced(24, i, Pos(27, 25), false, false, []), 25);
      DeclsInAdd([] + [Referenced(21, o, Pos(24, 29), false, false, [])] + [Declared(22, o, Pos(25, 42), Initialized, [5])] + [OutAssigned(22, [], [5])] + [Referenced(21, i, Pos(24, 32), false, false, [5])] + [Declared(23, i, Pos(27, 18), Initialized, [])] + [Referenced(24, i, Pos(27, 25), false, false, [])], Declared(25, p, Pos(28, 42), Initialized, [6]), 25);
      DeclsInSkip([] + [Referenced(21, o, Pos(24, 29), false, false, [])] + [Declared(22, o, Pos(25, 42), Initialized, [5])] + [OutAssigned(22, [], [5])] + [Referenced(21, i, Pos(24, 32), false, false, [5])] + [Declared(23, i, Pos(27, 18), Initialized, [])] + [Referenced(24, i, Pos(27, 25), false, false, [])] + [Declared(25, p, Pos(28, 42), Initialized, [6])], OutAssigned(25, [], [6]), 25);
    } else {
      DeclsInSkip([], Referenced(21, o, Pos(24, 29), false, false, []), sc);
      DeclsInSkip([] + [Referenced(21, o, Pos(24, 29), false, false, [])], Declared(22, o, Pos(25, 42), Initialized, [5]), sc);
      DeclsInSkip([] + [Referenced(21, o, Pos(24, 29), false, false, [])] + [Declared(22, o, Pos(25, 42), Initialized, [5])], OutAssigned(22, [], [5]), sc);
      DeclsInSkip([] + [Referenced(21, o, Pos(24, 29), false, false, [])] + [Declared(22, o, Pos(25, 42), Initialized, [5])] + [OutAssigned(22, [], [5])], Referenced(21, i, Pos(24, 32), false, false, [5]), sc);
      DeclsInSkip([] + [Referenced(21, o, Pos(24, 29), false, false, [])] + [Declared(22, o, Pos(25, 42), Initialized, [5])] + [OutAssigned(22, [], [5])] + [Referenced(21, i, Pos(24, 32), false, false, [5])], Declared(23, i, Pos(27, 18), Initialized, []), sc);
      DeclsInSkip([] + [Referenced(21, o, Pos(24, 29), false, false, [])] + [Declared(22, o, Pos(25, 42), Initialized, [5])] + [OutAssigned(22, [], [5])] + [Referenced(21, i, Pos(24, 32), false, false, [5])] + [Declared(23, i, Pos(27, 18), Initialized, [])], Referenced(24, i, Pos(27, 25), false, false, []), sc);
      DeclsInSkip([] + [Referenced(21, o, Pos(24, 29), false, false, [])] + [Declared(22, o, Pos(25, 42), Initialized, [5])] + [OutAssigned(22, [], [5])] + [Referenced(21, i, Pos(24, 32), false, false, [5])] + [Declared(23, i, Pos(27, 18), Initialized, [])] + [Referenced(24, i, Pos(27, 25), false, false, [])], Declared(25, p, Pos(28, 42), Initialized, [6]), sc);
      DeclsInSkip([] + [Referenced(21, o, Pos(24, 29), false, false, [])] + [Declared(22, o, Pos(25, 42), Initialized, [5])] + [OutAssigned(22, [], [5])] + [Referenced(21, i, Pos(24, 32), false, false, [5])] + [Declared(23, i, Pos(27, 18), Initialized, [])] + [Referenced(24, i, Pos(27, 25), false, false, [])] + [Declared(25, p, Pos(28, 42), Initialized, [6])], OutAssigned(25, [], [6]), sc);
      AppendNil(DeclsIn(evs, sc));
    }
  }

  /** The locals declared once events 48 to 55 follow some events. */
  lemma {:induction false} Decls6(i: string, j: string, k: string, l: string, m: string, n: string, o: string, p: string, q: string, r: string, evs: seq<Event>, sc: nat)
    requires DeclsIn(evs, sc) == DeclaredBy(i, j, k, l, m, n, o, p, q, r, 6, sc)
    ensures DeclsIn(evs + Chunk6(i, j, k, l, m, n, o, p, q, r), sc) == DeclaredBy(i, j, k, l, m, n, o, p, q, r, 7, sc)
  {
    DeclsInAppend(evs, Chunk6(i, j, k, l, m, n, o, p, q, r), sc);
    assert DeclsIn([], sc) == [];
    if sc == 26 {
      DeclsInSkip([], Referenced(24, i, Pos(27, 32), true, false, [6]), 26);
      DeclsInSkip([] + [Referenced(24, i, Pos(27, 32), true, false, [6])], Referenced(24, p, Pos(27, 36), false, false, [6]), 26);
      DeclsInAdd([] + [Referenced(24, i, Pos(27, 32), true, false, [6])] + [Referenced(24, p, Pos(27, 36), false, false, [6])], Declared(26, i, Pos(30, 18), Initialized, []), 26);
      DeclsInSkip([] + [Referenced(24, i, Pos(27, 32), true, false, [6])] + [Referenced(24, p, Pos(27, 36), false, false, [6])] + [Declared(26, i, Pos(30, 18), Initialized, [])], Referenced(27, i, Pos(30, 25), false, false, []), 26);
      DeclsInSkip([] + [Referenced(24, i, Pos(27, 32), true, false, [6])] + [Referenced(24, p, Pos(27, 36), false, false, [6])] + [Declared(26, i, Pos(30, 18), Initialized, [])] + [Referenced(27, i, Pos(30, 25), false, false, [])], Referenced(27, q, Pos(30, 29), false, false, []), 26);
      DeclsInSkip([] + [Referenced(24, i, Pos(27, 32), true, false, [6])] + [Referenced(24, p, Pos(27, 36), false, false, [6])] + [Declared(26, i, Pos(30, 18), Initialized, [])] + [Referenced(27, i, Pos(30, 25), false, false, [])] + [Referenced(27, q, Pos(30, 29), false, false, [])], Declared(28, q, Pos(32, 43), Initialized, [7]), 26);
      DeclsInSkip([] + [Referenced(24, i, Pos(27, 32), true, false, [6])] + [Referenced(24, p, Pos(27, 36), false, false, [6])] + [Declared(26, i, Pos(30, 18), Initialized, [])] + [Referenced(27, i, Pos(30, 25), false, false, [])] + [Referenced(27, q, Pos(30, 29), false, false, [])] + [Declared(28, q, Pos(32, 43), Initialized, [7])], Referenced(28, q, Pos(32, 52), false, false, [7]), 26);
      DeclsInSkip([] + [Referenced(24, i, Pos(27, 32), true, false, [6])] + [Referenced(24, p, Pos(27, 36), false, false, [6])] + [Declared(26, i, Pos(30, 18), Initialized, [])] + [Referenced(27, i, Pos(30, 25), false, false, [])] + [Referenced(27, q, Pos(30, 29), false, false, [])] + [Declared(28, q, Pos(32, 43), Initialized, [7])] + [Referenced(28, q, Pos(32, 52), false, false, [7])], OutAssigned(28, [], [7]), 26);
    } else if sc == 28 {
      DeclsInSkip([], Referenced(24, i, Pos(27, 32), true, false, [6]), 28);
      DeclsInSkip([] + [Referenced(24, i, Pos(27, 32), true, false, [6])], Referenced(24, p, Pos(27, 36), false, false, [6]), 28);
      DeclsInSkip([] + [Referenced(24, i, Pos(27, 32), true, false, [6])] + [Referenced(24, p, Pos(27, 36), false, false, [6])], Declared(26, i, Pos(30, 18), Initialized, []), 28);
      DeclsInSkip([] + [Referenced(24, i, Pos(27, 32), true, false, [6])] + [Referenced(24, p, Pos(27, 36), false, false, [6])] + [Declared(26, i, Pos(30, 18), Initialized, [])], Referenced(27, i, Pos(30, 25), false, false, []), 28);
      DeclsInSkip([] + [Referenced(24, i, Pos(27, 32), true, false, [6])] + [Referenced(24, p, Pos(27, 36), false, false, [6])] + [Declared(26, i, Pos(30, 18), Initialized, [])] + [Referenced(27, i, Pos(30, 25), false, false, [])], Referenced(27, q, Pos(30, 29), false, false, []), 28);
      DeclsInAdd([] + [Referenced(24, i, Pos(27, 32), true, false, [6])] + [Referenced(24, p, Pos(27, 36), false, false, [6])] + [Declared(26, i, Pos(30, 18), Initialized, [])] + [Referenced(27, i, Pos(30, 25), false, false, [])] + [Referenced(27, q, Pos(30, 29), false, false, [])], Declared(28, q, Pos(32, 43), Initialized, [7]), 28);
      DeclsInSkip([] + [Referenced(24, i, Pos(27, 32), true, false, [6])] + [Referenced(24, p, Pos(27, 36), false, false, [6])] + [Declared(26, i, Pos(30, 18), Initialized, [])] + [Referenced(27, i, Pos(30, 25), false, false, [])] + [Referenced(27, q, Pos(30, 29), false, false, [])] + [Declared(28, q, Pos(32, 43), Initialized, [7])], Referenced(28, q, Pos(32, 52), false, false, [7]), 28);
      DeclsInSkip([] + [Referenced(24, i, Pos(27, 32), true, false, [6])] + [Referenced(24, p, Pos(27, 36), false, false, [6])] + [Declared(26, i, Pos(30, 18), Initialized, [])] + [Referenced(27, i, Pos(30, 25), false, false, [])] + [Referenced(27, q, Pos(30, 29), false, false, [])] + [Declared(28, q, Pos(32, 43), Initialized, [7])] + [Referenced(28, q, Pos(32, 52), false, false, [7])], OutAssigned(28, [], [7]), 28);
    } else {
      DeclsInSkip([], Referenced(24, i, Pos(27, 32), true, false, [6]), sc);
      DeclsInSkip([] + [Referenced(24, i, Pos(27, 32), true, false, [6])], Referenced(24, p, Pos(27, 36), false, false, [6]), sc);
      DeclsInSkip([] + [Referenced(24, i, Pos(27, 32), true, false, [6])] + [Referenced(24, p, Pos(27, 36), false, false, [6])], Declared(26, i, Pos(30, 18), Initialized, []), sc);
      DeclsInSkip([] + [Referenced(24, i, Pos(27, 32), true, false, [6])] + [Referenced(24, p, Pos(27, 36), false, false, [6])] + [Declared(26, i, Pos(30, 18), Initialized, [])], Referenced(27, i, Pos(30, 25), false, false, []), sc);
      DeclsInSkip([] + [Referenced(24, i, Pos(27, 32), true, false, [6])] + [Referenced(24, p, Pos(27, 36), false, false, [6])] + [Declared(26, i, Pos(30, 18), Initialized, [])] + [Referenced(27, i, Pos(30, 25), false, false, [])], Referenced(27, q, Pos(30, 29), false, false, []), sc);
      DeclsInSkip([] + [Referenced(24, i, Pos(27, 32), true, false, [6])] + [Referenced(24, p, Pos(27, 36), false, false, [6])] + [Declared(26, i, Pos(30, 18), Initialized, [])] + [Referenced(27, i, Pos(30, 25), false, false, [])] + [Referenced(27, q, Pos(30, 29), false, false, [])], Declared(28, q, Pos(32, 43), Initialized, [7]), sc);
      DeclsInSkip([] + [Referenced(24, i, Pos(27, 32), true, false, [6])] + [Referenced(24, p, Pos(27, 36), false, false, [6])] + [Declared(26, i, Pos(30, 18), Initialized, [])] + [Referenced(27, i, Pos(30, 25), false, false, [])] + [Referenced(27, q, Pos(30, 29), false, false, [])] + [Declared(28, q, Pos(32, 43), Initialized, [7])], Referenced(28, q, Pos(32, 52), false, false, [7]), sc);
      DeclsInSkip([] + [Referenced(24, i, Pos(27, 32), true, false, [6])] + [Referenced(24, p, Pos(27, 36), false, false, [6])] + [Declared(26, i, Pos(30, 18), Initialized, [])] + [Referenced(27, i, Pos(30, 25), false, false, [])] + [Referenced(27, q, Pos(30, 29), false, false, [])] + [Declared(28, q, Pos(32, 43), Initialized, [7])] + [Referenced(28, q, Pos(32, 52), false, false, [7])], OutAssigned(28, [], [7]), sc);
      AppendNil(DeclsIn(evs, sc));
    }
  }

  /** The locals declared once events 56 to 62 follow some events. */
  lemma {:induction false} Decls7(i: string, j: string, k: string, l: string, m: string, n: string, o: string, p: string, q: string, r: string, evs: seq<Event>, sc: nat)
    requires DeclsIn(evs, sc) == DeclaredBy(i, j, k, l, m, n, o, p, q, r, 7, sc)
    ensures DeclsIn(evs + Chunk7(i, j, k, l, m, n, o, p, q, r), sc) == DeclaredBy(i, j, k, l, m, n, o, p, q, r, 8, sc)
  {
    DeclsInAppend(evs, Chunk7(i, j, k, l, m, n, o, p, q, r), sc);
    assert DeclsIn([], sc) == [];
    if sc == 29 {
      DeclsInSkip([], Referenced(27, i, Pos(30, 32), false, false, [7]), 29);
      DeclsInAdd([] + [Referenced(27, i, Pos(30, 32), false, false, [7])], Declared(29, i, Pos(35, 18), Initialized, []), 29);
      DeclsInSkip([] + [Referenced(27, i, Pos(30, 32), false, false, [7])] + [Declared(29, i, Pos(35, 18), Initialized, [])], Referenced(30, i, Pos(35, 25), false, false, []), 29);
      DeclsInSkip([] + [Referenced(27, i, Pos(30, 32), false, false, [7])] + [Declared(29, i, Pos(35, 18), Initialized, [])] + [Referenced(30, i, Pos(35, 25), false, false, [])], Declared(31, r, Pos(37, 42), Initialized, [8]), 29);
      DeclsInSkip([] + [Referenced(27, i, Pos(30, 32), false, false, [7])] + [Declared(29, i, Pos(35, 18), Initialized, [])] + [Referenced(30, i, Pos(35, 25), false, false, [])] + [Declared(31, r, Pos(37, 42), Initialized, [8])], OutAssigned(31, [], [8]), 29);
      DeclsInSkip([] + [Referenced(27, i, Pos(30, 32), false, false, [7])] + [Declared(29, i, Pos(35, 18), Initialized, [])] + [Referenced(30, i, Pos(35, 25), false, false, [])] + [Declared(31, r, Pos(37, 42), Initialized, [8])] + [OutAssigned(31, [], [8])], Referenced(30, i, Pos(35, 32), true, false, [8]), 29);
      DeclsInSkip([] + [Referenced(27, i, Pos(30, 32), false, false, [7])] + [Declared(29, i, Pos(35, 18), Initialized, [])] + [Referenced(30, i, Pos(35, 25), false, false, [])] + [Declared(31, r, Pos(37, 42), Initialized, [8])] + [OutAssigned(31, [], [8])] + [Referenced(30, i, Pos(35, 32), true, false, [8])], Referenced(30, r, Pos(35, 36), false, false, [8]), 29);
    } else if sc == 31 {
      DeclsInSkip([], Referenced(27, i, Pos(30, 32), false, false, [7]), 31);
      DeclsInSkip([] + [Referenced(27, i, Pos(30, 32), false, false, [7])], Declared(29, i, Pos(35, 18), Initialized, []), 31);
      DeclsInSkip([] + [Referenced(27, i, Pos(30, 32), false, false, [7])] + [Declared(29, i, Pos(35, 18), Initialized, [])], Referenced(30, i, Pos(35, 25), false, false, []), 31);
      DeclsInAdd([] + [Referenced(27, i, Pos(30, 32), false, false, [7])] + [Declared(29, i, Pos(35, 18), Initialized, [])] + [Referenced(30, i, Pos(35, 25), false, false, [])], Declared(31, r, Pos(37, 42), Initialized, [8]), 31);
      DeclsInSkip([] + [Referenced(27, i, Pos(30, 32), false, false, [7])] + [Declared(29, i, Pos(35, 18), Initialized, [])] + [Referenced(30, i, Pos(35, 25), false, false, [])] + [Declared(31, r, Pos(37, 42), Initialized, [8])], OutAssigned(31, [], [8]), 31);
      DeclsInSkip([] + [Referenced(27, i, Pos(30, 32), false, false, [7])] + [Declared(29, i, Pos(35, 18), Initialized, [])] + [Referenced(30, i, Pos(35, 25), false, false, [])] + [Declared(31, r, Pos(37, 42), Initialized, [8])] + [OutAssigned(31, [], [8])], Referenced(30, i, Pos(35, 32), true, false, [8]), 31);
      DeclsInSkip([] + [Referenced(27, i, Pos(30, 32), false, false, [7])] + [Declared(29, i, Pos(35, 18), Initialized, [])] + [Referenced(30, i, Pos(35, 25), false, false, [])] + [Declared(31, r, Pos(37, 42), Initialized, [8])] + [OutAssigned(31, [], [8])] + [Referenced(30, i, Pos(35, 32), true, false, [8])], Referenced(30, r, Pos(35, 36), false, false, [8]), 31);
    } else {
      DeclsInSkip([], Referenced(27, i, Pos(30, 32), false, false, [7]), sc);
      DeclsInSkip([] + [Referenced(27, i, Pos(30, 32), false, false, [7])], Declared(29, i, Pos(35, 18), Initialized, []), sc);
      DeclsInSkip([] + [Referenced(27, i, Pos(30, 32), false, false, [7])] + [Declared(29, i, Pos(35, 18), Initialized, [])], Referenced(30, i, Pos(35, 25), false, false, []), sc);
      DeclsInSkip([] + [Referenced(27, i, Pos(30, 32), false, false, [7])] + [Declared(29, i, Pos(35, 18), Initialized, [])] + [Referenced(30, i, Pos(35, 25), false, false, [])], Declared(31, r, Pos(37, 42), Initialized, [8]), sc);
      DeclsInSkip([] + [Referenced(27, i, Pos(30, 32), false, false, [7])] + [Declared(29, i, Pos(35, 18), Initialized, [])] + [Referenced(30, i, Pos(35, 25), false, false, [])] + [Declared(31, r, Pos(37, 42), Initialized, [8])], OutAssigned(31, [], [8]), sc);
      DeclsInSkip([] + [Referenced(27, i, Pos(30, 32), false, false, [7])] + [Declared(29, i, Pos(35, 18), Initialized, [])] + [Referenced(30, i, Pos(35, 25), false, false, [])] + [Declared(31, r, Pos(37, 42), Initialized, [8])] + [OutAssigned(31, [], [8])], Referenced(30, i, Pos(35, 32), true, false, [8]), sc);
      DeclsInSkip([] + [Referenced(27, i, Pos(30, 32), false, false, [7])] + [Declared(29, i, Pos(35, 18), Initialized, [])] + [Referenced(30, i, Pos(35, 25), false, false, [])] + [Declared(31, r, Pos(37, 42), Initialized, [8])] + [OutAssigned(31, [], [8])] + [Referenced(30, i, Pos(35, 32), true, false, [8])], Referenced(30, r, Pos(35, 36), false, false, [8]), sc);
      AppendNil(DeclsIn(evs, sc));
    }
  }

  lemma {:induction false} DeclsStage0(i: string, j: string, k: string, l: string, m: string, n: string, o: string, p: string, q: string, r: string, evs: seq<Event>, sc: nat)
    requires DeclsIn(evs, sc) == DeclaredBy(i, j, k, l, m, n, o, p, q, r, 0, sc)
    ensures DeclsIn(evs + Chunk0(i, j, k, l, m, n, o, p, q, r) + Chunk1(i, j, k, l, m, n, o, p, q, r) + Chunk2(i, j, k, l, m, n, o, p, q, r) + Chunk3(i, j, k, l, m, n, o, p, q, r) + Chunk4(i, j, k, l, m, n, o, p, q, r) + Chunk5(i, j, k, l, m, n, o, p, q, r), sc) == DeclaredBy(i, j, k, l, m, n, o, p, q, r, 6, sc)
  {
    Decls0(i, j, k, l, m, n, o, p, q, r, evs, sc);
    Decls1(i, j, k, l, m, n, o, p, q, r, evs + Chunk0(i, j, k, l, m, n, o, p, q, r), sc);
    Decls2(i, j, k, l, m, n, o, p, q, r, evs + Chunk0(i, j, k, l, m, n, o, p, q, r) + Chunk1(i, j, k, l, m, n, o, p, q, r), sc);
    Decls3(i, j, k, l, m, n, o, p, q, r, evs + Chunk0(i, j, k, l, m, n, o, p, q, r) + Chunk1(i, j, k, l, m, n, o, p, q, r) + Chunk2(i, j, k, l, m, n, o, p, q, r), sc);
    Decls4(i, j, k, l, m, n, o, p, q, r, evs + Chunk0(i, j, k, l, m, n, o, p, q, r) + Chunk1(i, j, k, l, m, n, o, p, q, r) + Chunk2(i, j, k, l, m, n, o, p, q, r) + Chunk3(i, j, k, l, m, n, o, p, q, r), sc);
    Decls5(i, j, k, l, m, n, o, p, q, r, evs + Chunk0(i, j, k, l, m, n, o, p, q, r) + Chunk1(i, j, k, l, m, n, o, p, q, r) + Chunk2(i, j, k, l, m, n, o, p, q, r) + Chunk3(i, j, k, l, m, n, o, p, q, r) + Chunk4(i, j, k, l, m, n, o, p, q, r), sc);
  }

  lemma {:induction false} DeclsStage1(i: string, j: string, k: string, l: string, m: string, n: string, o: string, p: string, q: string, r: string, evs: seq<Event>, sc: nat)
    requires DeclsIn(evs, sc) == DeclaredBy(i, j, k, l, m, n, o, p, q, r, 6, sc)
    ensures DeclsIn(evs + Chunk6(i, j, k, l, m, n, o, p, q, r) + Chunk7(i, j, k, l, m, n, o, p, q, r), sc) == DeclaredBy(i, j, k, l, m, n, o, p, q, r, 8, sc)
  {
    Decls6(i, j, k, l, m, n, o, p, q, r, evs, sc);
    Decls7(i, j, k, l, m, n, o, p, q, r, evs + Chunk6(i, j, k, l, m, n, o, p, q, r), sc);
  }

  /** The locals of every scope of a tree whose events are the test's, as the table gives them. */
  ghost predicate LocalsFit(i: string, j: string, k: string, l: string, m: string, n: string, o: string, p: string, q: string, r: string, tr: Tree) {
    forall sc: nat {:trigger DeclaredBy(i, j, k, l, m, n, o, p, q, r, 8, sc)} :: LocalsOf(tr, sc) == DeclaredBy(i, j, k, l, m, n, o, p, q, r, 8, sc)
  }

  /** The locals of every scope. */
  lemma {:induction false} LocalsAll(i: string, j: string, k: string, l: string, m: string, n: string, o: string, p: string, q: string, r: string, tr: Tree)
    requires tr.events == Trace(i, j, k, l, m, n, o, p, q, r)
    ensures LocalsFit(i, j, k, l, m, n, o, p, q, r, tr)
  {
    forall sc: nat
      ensures LocalsOf(tr, sc) == DeclaredBy(i, j, k, l, m, n, o, p, q, r, 8, sc)
    {
      assert DeclsIn([], sc) == [] == DeclaredBy(i, j, k, l, m, n, o, p, q, r, 0, sc);
      DeclsStage0(i, j, k, l, m, n, o, p, q, r, [], sc);
      DeclsStage1(i, j, k, l, m, n, o, p, q, r, [] + Chunk0(i, j, k, l, m, n, o, p, q, r) + Chunk1(i, j, k, l, m, n, o, p, q, r) + Chunk2(i, j, k, l, m, n, o, p, q, r) + Chunk3(i, j, k, l, m, n, o, p, q, r) + Chunk4(i, j, k, l, m, n, o, p, q, r) + Chunk5(i, j, k, l, m, n, o, p, q, r), sc);
    }
  }

  /** The locals scope 0 declares, in order. */
  lemma {:induction false} Locals0(i: string, j: string, k: string, l: string, m: string, n: string, o: string, p: string, q: string, r: string)
    ensures DeclaredBy(i, j, k, l, m, n, o, p, q, r, 8, 0) == []
  {
    AppendNil([]);
    assert DeclaredBy(i, j, k, l, m, n, o, p, q, r, 1, 0) == [];
    assert DeclaredBy(i, j, k, l, m, n, o, p, q, r, 2, 0) == [];
    assert DeclaredBy(i, j, k, l, m, n, o, p, q, r, 3, 0) == [];
    assert DeclaredBy(i, j, k, l, m, n, o, p, q, r, 4, 0) == [];
    assert DeclaredBy(i, j, k, l, m, n, o, p, q, r, 5, 0) == [];
    assert DeclaredBy(i, j, k, l, m, n, o, p, q, r, 6, 0) == [];
    assert DeclaredBy(i, j, k, l, m, n, o, p, q, r, 7, 0) == [];
    assert DeclaredBy(i, j, k, l, m, n, o, p, q, r, 8, 0) == [];
  }

  /** The locals scope 3 declares, in order. */
  lemma {:induction false} Locals3(i: string, j: string, k: string, l: string, m: string, n: string, o: string, p: string, q: string, r: string)
    ensures DeclaredBy(i, j, k, l, m, n, o, p, q, r, 8, 3) == []
  {
    AppendNil([]);
    assert DeclaredBy(i, j, k, l, m, n, o, p, q, r, 1, 3) == [];
    assert DeclaredBy(i, j, k, l, m, n, o, p, q, r, 2, 3) == [];
    assert DeclaredBy(i, j, k, l, m, n, o, p, q, r, 3, 3) == [];
    assert DeclaredBy(i, j, k, l, m, n, o, p, q, r, 4, 3) == [];
    assert DeclaredBy(i, j, k, l, m, n, o, p, q, r, 5, 3) == [];
    assert DeclaredBy(i, j, k, l, m, n, o, p, q, r, 6, 3) == [];
    assert DeclaredBy(i, j, k, l, m, n, o, p, q, r, 7, 3) == [];
    assert DeclaredBy(i, j, k, l, m, n, o, p, q, r, 8, 3) == [];
  }

  /** The locals scope 4 declares, in order. */
  lemma {:induction false} Locals4(i: string, j: string, k: string, l: string, m: string, n: string, o: string, p: string, q: string, r: string)
    ensures DeclaredBy(i, j, k, l, m, n, o, p, q, r, 8, 4) == []
  {
    AppendNil([]);
    assert DeclaredBy(i, j, k, l, m, n, o, p, q, r, 1, 4) == [];
    assert DeclaredBy(i, j, k, l, m, n, o, p, q, r, 2, 4) == [];
    assert DeclaredBy(i, j, k, l, m, n, o, p, q, r, 3, 4) == [];
    assert DeclaredBy(i, j, k, l, m, n, o, p, q, r, 4, 4) == [];
    assert DeclaredBy(i, j, k, l, m, n, o, p, q, r, 5, 4) == [];
    assert DeclaredBy(i, j, k, l, m, n, o, p, q, r, 6, 4) == [];
    assert DeclaredBy(i, j, k, l, m, n, o, p, q, r, 7, 4) == [];
    assert DeclaredBy(i, j, k, l, m, n, o, p, q, r, 8, 4) == [];
  }

  /** The locals scope 5 declares, in order. */
  lemma {:induction false} Locals5(i: string, j: string, k: string, l: string, m: string, n: string, o: string, p: string, q: string, r: string)
    ensures DeclaredBy(i, j, k, l, m, n, o, p, q, r, 8, 5) == [Local(i, Pos(6, 18))]
  {
    assert DeclaredBy(i, j, k, l, m, n, o, p, q, r, 1, 5) == [Local(i, Pos(6, 18))];
    AppendNil([Local(i, Pos(6, 18))]);
    assert DeclaredBy(i, j, k, l, m, n, o, p, q, r, 2, 5) == [Local(i, Pos(6, 18))];
    assert DeclaredBy(i, j, k, l, m, n, o, p, q, r, 3, 5) == [Local(i, Pos(6, 18))];
    assert DeclaredBy(i, j, k, l, m, n, o, p, q, r, 4, 5) == [Local(i, Pos(6, 18))];
    assert DeclaredBy(i, j, k, l, m, n, o, p, q, r, 5, 5) == [Local(i, Pos(6, 18))];
    assert DeclaredBy(i, j, k, l, m, n, o, p, q, r, 6, 5) == [Local(i, Pos(6, 18))];
    assert DeclaredBy(i, j, k, l, m, n, o, p, q, r, 7, 5) == [Local(i, Pos(6, 18))];
    assert DeclaredBy(i, j, k, l, m, n, o, p, q, r, 8, 5) == [Local(i, Pos(6, 18))];
  }

  /** The locals scope 6 declares, in order. */
  lemma {:induction false} Locals6(i: string, j: string, k: string, l: string, m: string, n: string, o: string, p: string, q: string, r: string)
    ensures DeclaredBy(i, j, k, l, m, n, o, p, q, r, 8, 6) == [Local(j, Pos(6, 41))]
  {
    assert DeclaredBy(i, j, k, l, m, n, o, p, q, r, 1, 6) == [Local(j, Pos(6, 41))];
    AppendNil([Local(j, Pos(6, 41))]);
    assert DeclaredBy(i, j, k, l, m, n, o, p, q, r, 2, 6) == [Local(j, Pos(6, 41))];
    assert DeclaredBy(i, j, k, l, m, n, o, p, q, r, 3, 6) == [Local(j, Pos(6, 41))];
    assert DeclaredBy(i, j, k, l, m, n, o, p, q, r, 4, 6) == [Local(j, Pos(6, 41))];
    assert DeclaredBy(i, j, k, l, m, n, o, p, q, r, 5, 6) == [Local(j, Pos(6, 41))];
    assert DeclaredBy(i, j, k, l, m, n, o, p, q, r, 6, 6) == [Local(j, Pos(6, 41))];
    assert DeclaredBy(i, j, k, l, m, n, o, p, q, r, 7, 6) == [Local(j, Pos(6, 41))];
    assert DeclaredBy(i, j, k, l, m, n, o, p, q, r, 8, 6) == [Local(j, Pos(6, 41))];
  }

  /** The locals scope 7 declares, in order. */
  lemma {:induction false} Locals7(i: string, j: string, k: string, l: string, m: string, n: string, o: string, p: string, q: string, r: string)
    ensures DeclaredBy(i, j, k, l, m, n, o, p, q, r, 8, 7) == []
  {
    AppendNil([]);
    assert DeclaredBy(i, j, k, l, m, n, o, p, q, r, 1, 7) == [];
    assert DeclaredBy(i, j, k, l, m, n, o, p, q, r, 2, 7) == [];
    assert DeclaredBy(i, j, k, l, m, n, o, p, q, r, 3, 7) == [];
    assert DeclaredBy(i, j, k, l, m, n, o, p, q, r, 4, 7) == [];
    assert DeclaredBy(i, j, k, l, m, n, o, p, q, r, 5, 7) == [];
    assert DeclaredBy(i, j, k, l, m, n, o, p, q, r, 6, 7) == [];
    assert DeclaredBy(i, j, k, l, m, n, o, p, q, r, 7, 7) == [];
    assert DeclaredBy(i, j, k, l, m, n, o, p, q, r, 8, 7) == [];
  }

  /** The locals scope 8 declares, in order. */
  lemma {:induction false} Locals8(i: string, j: string, k: string, l: string, m: string, n: string, o: string, p: string, q: string, r: string)
    ensures DeclaredBy(i, j, k, l, m, n, o, p, q, r, 8, 8) == [Local(i, Pos(11, 18)), Local(j, Pos(11, 36))]
  {
    AppendNil([]);
    assert DeclaredBy(i, j, k, l, m, n, o, p, q, r, 1, 8) == [];
    assert DeclaredBy(i, j, k, l, m, n, o, p, q, r, 2, 8) == [Local(i, Pos(11, 18)), Local(j, Pos(11, 36))];
    AppendNil([Local(i, Pos(11, 18)), Local(j, Pos(11, 36))]);
    assert DeclaredBy(i, j, k, l, m, n, o, p, q, r, 3, 8) == [Local(i, Pos(11, 18)), Local(j, Pos(11, 36))];
    assert DeclaredBy(i, j, k, l, m, n, o, p, q, r, 4, 8) == [Local(i, Pos(11, 18)), Local(j, Pos(11, 36))];
    assert DeclaredBy(i, j, k, l, m, n, o, p, q, r, 5, 8) == [Local(i, Pos(11, 18)), Local(j, Pos(11, 36))];
    assert DeclaredBy(i, j, k, l, m, n, o, p, q, r, 6, 8) == [Local(i, Pos(11, 18)), Local(j, Pos(11, 36))];
    assert DeclaredBy(i, j, k, l, m, n, o, p, q, r, 7, 8) == [Local(i, Pos(11, 18)), Local(j, Pos(11, 36))];
    assert DeclaredBy(i, j, k, l, m, n, o, p, q, r, 8, 8) == [Local(i, Pos(11, 18)), Local(j, Pos(11, 36))];
  }

  /** The locals scope 9 declares, in order. */
  lemma {:induction false} Locals9(i: string, j: string, k: string, l: string, m: string, n: string, o: string, p: string, q: string, r: string)
    ensures DeclaredBy(i, j, k, l, m, n, o, p, q, r, 8, 9) == []
  {
    AppendNil([]);
    assert DeclaredBy(i, j, k, l, m, n, o, p, q, r, 1, 9) == [];
    assert DeclaredBy(i, j, k, l, m, n, o, p, q, r, 2, 9) == [];
    assert DeclaredBy(i, j, k, l, m, n, o, p, q, r, 3, 9) == [];
    assert DeclaredBy(i, j, k, l, m, n, o, p, q, r, 4, 9) == [];
    assert DeclaredBy(i, j, k, l, m, n, o, p, q, r, 5, 9) == [];
    assert DeclaredBy(i, j, k, l, m, n, o, p, q, r, 6, 9) == [];
    assert DeclaredBy(i, j, k, l, m, n, o, p, q, r, 7, 9) == [];
    assert DeclaredBy(i, j, k, l, m, n, o, p, q, r, 8, 9) == [];
  }

  /** The locals scope 10 declares, in order. */
  lemma {:induction false} Locals10(i: string, j: string, k: string, l: string, m: string, n: string, o: string, p: string, q: string, r: string)
    ensures DeclaredBy(i, j, k, l, m, n, o, p, q, r, 8, 10) == [Local(k, Pos(12, 47))]
  {
    AppendNil([]);
    assert DeclaredBy(i, j, k, l, m, n, o, p, q, r, 1, 10) == [];
    assert DeclaredBy(i, j, k, l, m, n, o, p, q, r, 2, 10) == [Local(k, Pos(12, 47))];
    AppendNil([Local(k, Pos(12, 47))]);
    assert DeclaredBy(i, j, k, l, m, n, o, p, q, r, 3, 10) == [Local(k, Pos(12, 47))];
    assert DeclaredBy(i, j, k, l, m, n, o, p, q, r, 4, 10) == [Local(k, Pos(12, 47))];
    assert DeclaredBy(i, j, k, l, m, n, o, p, q, r, 5, 10) == [Local(k, Pos(12, 47))];
    assert DeclaredBy(i, j, k, l, m, n, o, p, q, r, 6, 10) == [Local(k, Pos(12, 47))];
    assert DeclaredBy(i, j, k, l, m, n, o, p, q, r, 7, 10) == [Local(k, Pos(12, 47))];
    assert DeclaredBy(i, j, k, l, m, n, o, p, q, r, 8, 10) == [Local(k, Pos(12, 47))];
  }

  /** The locals scope 11 declares, in order. */
  lemma {:induction false} Locals11(i: string, j: string, k: string, l: string, m: string, n: string, o: string, p: string, q: string, r: string)
    ensures DeclaredBy(i, j, k, l, m, n, o, p, q, r, 8, 11) == [Local(i, Pos(17, 18))]
  {
    AppendNil([]);
    assert DeclaredBy(i, j, k, l, m, n, o, p, q, r, 1, 11) == [];
    assert DeclaredBy(i, j, k, l, m, n, o, p, q, r, 2, 11) == [];
    assert DeclaredBy(i, j, k, l, m, n, o, p, q, r, 3, 11) == [Local(i, Pos(17, 18))];
    AppendNil([Local(i, Pos(17, 18))]);
    assert DeclaredBy(i, j, k, l, m, n, o, p, q, r, 4, 11) == [Local(i, Pos(17, 18))];
    assert DeclaredBy(i, j, k, l, m, n, o, p, q, r, 5, 11) == [Local(i, Pos(17, 18))];
    assert DeclaredBy(i, j, k, l, m, n, o, p, q, r, 6, 11) == [Local(i, Pos(17, 18))];
    assert DeclaredBy(i, j, k, l, m, n, o, p, q, r, 7, 11) == [Local(i, Pos(17, 18))];
    assert DeclaredBy(i, j, k, l, m, n, o, p, q, r, 8, 11) == [Local(i, Pos(17, 18))];
  }

  /** The locals scope 12 declares, in order. */
  lemma {:induction false} Locals12(i: string, j: string, k: string, l: string, m: string, n: string, o: string, p: string, q: string, r: string)
    ensures DeclaredBy(i, j, k, l, m, n, o, p, q, r, 8, 12) == [Local(l, Pos(17, 34))]
  {
    AppendNil([]);
    assert DeclaredBy(i, j, k, l, m, n, o, p, q, r, 1, 12) == [];
    assert DeclaredBy(i, j, k, l, m, n, o, p, q, r, 2, 12) == [];
    assert DeclaredBy(i, j, k, l, m, n, o, p, q, r, 3, 12) == [Local(l, Pos(17, 34))];
    AppendNil([Local(l, Pos(17, 34))]);
    assert DeclaredBy(i, j, k, l, m, n, o, p, q, r, 4, 12) == [Local(l, Pos(17, 34))];
    assert DeclaredBy(i, j, k, l, m, n, o, p, q, r, 5, 12) == [Local(l, Pos(17, 34))];
    assert DeclaredBy(i, j, k, l, m, n, o, p, q, r, 6, 12) == [Local(l, Pos(17, 34))];
    assert DeclaredBy(i, j, k, l, m, n, o, p, q, r, 7, 12) == [Local(l, Pos(17, 34))];
    assert DeclaredBy(i, j, k, l, m, n, o, p, q, r, 8, 12) == [Local(l, Pos(17, 34))];
  }

  /** The locals scope 14 declares, in order. */
  lemma {:induction false} Locals14(i: string, j: string, k: string, l: string, m: string, n: string, o: string, p: string, q: string, r: string)
    ensures DeclaredBy(i, j, k, l, m, n, o, p, q, r, 8, 14) == [Local(i, Pos(19, 18))]
  {
    AppendNil([]);
    assert DeclaredBy(i, j, k, l, m, n, o, p, q, r, 1, 14) == [];
    assert DeclaredBy(i, j, k, l, m, n, o, p, q, r, 2, 14) == [];
    assert DeclaredBy(i, j, k, l, m, n, o, p, q, r, 3, 14) == [];
    assert DeclaredBy(i, j, k, l, m, n, o, p, q, r, 4, 14) == [Local(i, Pos(19, 18))];
    AppendNil([Local(i, Pos(19, 18))]);
    assert DeclaredBy(i, j, k, l, m, n, o, p, q, r, 5, 14) == [Local(i, Pos(19, 18))];
    assert DeclaredBy(i, j, k, l, m, n, o, p, q, r, 6, 14) == [Local(i, Pos(19, 18))];
    assert DeclaredBy(i, j, k, l, m, n, o, p, q, r, 7, 14) == [Local(i, Pos(19, 18))];
    assert DeclaredBy(i, j, k, l, m, n, o, p, q, r, 8, 14) == [Local(i, Pos(19, 18))];
  }

  /** The locals scope 15 declares, in order. */
  lemma {:induction false} Locals15(i: string, j: string, k: string, l: string, m: string, n: string, o: string, p: string, q: string, r: string)
    ensures DeclaredBy(i, j, k, l, m, n, o, p, q, r, 8, 15) == [Local(m, Pos(19, 41))]
  {
    AppendNil([]);
    assert DeclaredBy(i, j, k, l, m, n, o, p, q, r, 1, 15) == [];
    assert DeclaredBy(i, j, k, l, m, n, o, p, q, r, 2, 15) == [];
    assert DeclaredBy(i, j, k, l, m, n, o, p, q, r, 3, 15) == [];
    assert DeclaredBy(i, j, k, l, m, n, o, p, q, r, 4, 15) == [Local(m, Pos(19, 41))];
    AppendNil([Local(m, Pos(19, 41))]);
    assert DeclaredBy(i, j, k, l, m, n, o, p, q, r, 5, 15) == [Local(m, Pos(19, 41))];
    assert DeclaredBy(i, j, k, l, m, n, o, p, q, r, 6, 15) == [Local(m, Pos(19, 41))];
    assert DeclaredBy(i, j, k, l, m, n, o, p, q, r, 7, 15) == [Local(m, Pos(19, 41))];
    assert DeclaredBy(i, j, k, l, m, n, o, p, q, r, 8, 15) == [Local(m, Pos(19, 41))];
  }

  /** The locals scope 17 declares, in order. */
  lemma {:induction false} Locals17(i: string, j: string, k: string, l: string, m: string, n: string, o: string, p: string, q: string, r: string)
    ensures DeclaredBy(i, j, k, l, m, n, o, p, q, r, 8, 17) == [Local(i, Pos(21, 18))]
  {
    AppendNil([]);
    assert DeclaredBy(i, j, k, l, m, n, o, p, q, r, 1, 17) == [];
    assert DeclaredBy(i, j, k, l, m, n, o, p, q, r, 2, 17) == [];
    assert DeclaredBy(i, j, k, l, m, n, o, p, q, r, 3, 17) == [];
    assert DeclaredBy(i, j, k, l, m, n, o, p, q, r, 4, 17) == [Local(i, Pos(21, 18))];
    AppendNil([Local(i, Pos(21, 18))]);
    assert DeclaredBy(i, j, k, l, m, n, o, p, q, r, 5, 17) == [Local(i, Pos(21, 18))];
    assert DeclaredBy(i, j, k, l, m, n, o, p, q, r, 6, 17) == [Local(i, Pos(21, 18))];
    assert DeclaredBy(i, j, k, l, m, n, o, p, q, r, 7, 17) == [Local(i, Pos(21, 18))];
    assert DeclaredBy(i, j, k, l, m, n, o, p, q, r, 8, 17) == [Local(i, Pos(21, 18))];
  }

  /** The locals scope 18 declares, in order. */
  lemma {:induction false} Locals18(i: string, j: string, k: string, l: string, m: string, n: string, o: string, p: string, q: string, r: string)
    ensures DeclaredBy(i, j, k, l, m, n, o, p, q, r, 8, 18) == []
  {
    AppendNil([]);
    assert DeclaredBy(i, j, k, l, m, n, o, p, q, r, 1, 18) == [];
    assert DeclaredBy(i, j, k, l, m, n, o, p, q, r, 2, 18) == [];
    assert DeclaredBy(i, j, k, l, m, n, o, p, q, r, 3, 18) == [];
    assert DeclaredBy(i, j, k, l, m, n, o, p, q, r, 4, 18) == [];
    assert DeclaredBy(i, j, k, l, m, n, o, p, q, r, 5, 18) == [];
    assert DeclaredBy(i, j, k, l, m, n, o, p, q, r, 6, 18) == [];
    assert DeclaredBy(i, j, k, l, m, n, o, p, q, r, 7, 18) == [];
    assert DeclaredBy(i, j, k, l, m, n, o, p, q, r, 8, 18) == [];
  }

  /** The locals scope 19 declares, in order. */
  lemma {:induction false} Locals19(i: string, j: string, k: string, l: string, m: string, n: string, o: string, p: string, q: string, r: string)
    ensures DeclaredBy(i, j, k, l, m, n, o, p, q, r, 8, 19) == [Local(n, Pos(22, 43))]
  {
    AppendNil([]);
    assert DeclaredBy(i, j, k, l, m, n, o, p, q, r, 1, 19) == [];
    assert DeclaredBy(i, j, k, l, m, n, o, p, q, r, 2, 19) == [];
    assert DeclaredBy(i, j, k, l, m, n, o, p, q, r, 3, 19) == [];
    assert DeclaredBy(i, j, k, l, m, n, o, p, q, r, 4, 19) == [];
    assert DeclaredBy(i, j, k, l, m, n, o, p, q, r, 5, 19) == [Local(n, Pos(22, 43))];
    AppendNil([Local(n, Pos(22, 43))]);
    assert DeclaredBy(i, j, k, l, m, n, o, p, q, r, 6, 19) == [Local(n, Pos(22, 43))];
    assert DeclaredBy(i, j, k, l, m, n, o, p, q, r, 7, 19) == [Local(n, Pos(22, 43))];
    assert DeclaredBy(i, j, k, l, m, n, o, p, q, r, 8, 19) == [Local(n, Pos(22, 43))];
  }

  /** The locals scope 20 declares, in order. */
  lemma {:induction false} Locals20(i: string, j: string, k: string, l: string, m: string, n: string, o: string, p: string, q: string, r: string)
    ensures DeclaredBy(i, j, k, l, m, n, o, p, q, r, 8, 20) == [Local(i, Pos(24, 18))]
  {
    AppendNil([]);
    assert DeclaredBy(i, j, k, l, m, n, o, p, q, r, 1, 20) == [];
    assert DeclaredBy(i, j, k, l, m, n, o, p, q, r, 2, 20) == [];
    assert DeclaredBy(i, j, k, l, m, n, o, p, q, r, 3, 20) == [];
    assert DeclaredBy(i, j, k, l, m, n, o, p, q, r, 4, 20) == [];
    assert DeclaredBy(i, j, k, l, m, n, o, p, q, r, 5, 20) == [Local(i, Pos(24, 18))];
    AppendNil([Local(i, Pos(24, 18))]);
    assert DeclaredBy(i, j, k, l, m, n, o, p, q, r, 6, 20) == [Local(i, Pos(24, 18))];
    assert DeclaredBy(i, j, k, l, m, n, o, p, q, r, 7, 20) == [Local(i, Pos(24, 18))];
    assert DeclaredBy(i, j, k, l, m, n, o, p, q, r, 8, 20) == [Local(i, Pos(24, 18))];
  }

  /** The locals scope 21 declares, in order. */
  lemma {:induction false} Locals21(i: string, j: string, k: string, l: string, m: string, n: string, o: string, p: string, q: string, r: string)
    ensures DeclaredBy(i, j, k, l, m, n, o, p, q, r, 8, 21) == []
  {
    AppendNil([]);
    assert DeclaredBy(i, j, k, l, m, n, o, p, q, r, 1, 21) == [];
    assert DeclaredBy(i, j, k, l, m, n, o, p, q, r, 2, 21) == [];
    assert DeclaredBy(i, j, k, l, m, n, o, p, q, r, 3, 21) == [];
    assert DeclaredBy(i, j, k, l, m, n, o, p, q, r, 4, 21) == [];
    assert DeclaredBy(i, j, k, l, m, n, o, p, q, r, 5, 21) == [];
    assert DeclaredBy(i, j, k, l, m, n, o, p, q, r, 6, 21) == [];
    assert DeclaredBy(i, j, k, l, m, n, o, p, q, r, 7, 21) == [];
    assert DeclaredBy(i, j, k, l, m, n, o, p, q, r, 8, 21) == [];
  }

  /** The locals scope 22 declares, in order. */
  lemma {:induction false} Locals22(i: string, j: string, k: string, l: string, m: string, n: string, o: string, p: string, q: string, r: string)
    ensures DeclaredBy(i, j, k, l, m, n, o, p, q, r, 8, 22) == [Local(o, Pos(25, 42))]
  {
    AppendNil([]);
    assert DeclaredBy(i, j, k, l, m, n, o, p, q, r, 1, 22) == [];
    assert DeclaredBy(i, j, k, l, m, n, o, p, q, r, 2, 22) == [];
    assert DeclaredBy(i, j, k, l, m, n, o, p, q, r, 3, 22) == [];
    assert DeclaredBy(i, j, k, l, m, n, o, p, q, r, 4, 22) == [];
    assert DeclaredBy(i, j, k, l, m, n, o, p, q, r, 5, 22) == [];
    assert DeclaredBy(i, j, k, l, m, n, o, p, q, r, 6, 22) == [Local(o, Pos(25, 42))];
    AppendNil([Local(o, Pos(25, 42))]);
    assert DeclaredBy(i, j, k, l, m, n, o, p, q, r, 7, 22) == [Local(o, Pos(25, 42))];
    assert DeclaredBy(i, j, k, l, m, n, o, p, q, r, 8, 22) == [Local(o, Pos(25, 42))];
  }

  /** The locals scope 23 declares, in order. */
  lemma {:induction false} Locals23(i: string, j: string, k: string, l: string, m: string, n: string, o: string, p: string, q: string, r: string)
    ensures DeclaredBy(i, j, k, l, m, n, o, p, q, r, 8, 23) == [Local(i, Pos(27, 18))]
  {
    AppendNil([]);
    assert DeclaredBy(i, j, k, l, m, n, o, p, q, r, 1, 23) == [];
    assert DeclaredBy(i, j, k, l, m, n, o, p, q, r, 2, 23) == [];
    assert DeclaredBy(i, j, k, l, m, n, o, p, q, r, 3, 23) == [];
    assert DeclaredBy(i, j, k, l, m, n, o, p, q, r, 4, 23) == [];
    assert DeclaredBy(i, j, k, l, m, n, o, p, q, r, 5, 23) == [];
    assert DeclaredBy(i, j, k, l, m, n, o, p, q, r, 6, 23) == [Local(i, Pos(27, 18))];
    AppendNil([Local(i, Pos(27, 18))]);
    assert DeclaredBy(i, j, k, l, m, n, o, p, q, r, 7, 23) == [Local(i, Pos(27, 18))];
    assert DeclaredBy(i, j, k, l, m, n, o, p, q, r, 8, 23) == [Local(i, Pos(27, 18))];
  }

  /** The locals scope 24 declares, in order. */
  lemma {:induction false} Locals24(i: string, j: string, k: string, l: string, m: string, n: string, o: string, p: string, q: string, r: string)
    ensures DeclaredBy(i, j, k, l, m, n, o, p, q, r, 8, 24) == []
  {
    AppendNil([]);
    assert DeclaredBy(i, j, k, l, m, n, o, p, q, r, 1, 24) == [];
    assert DeclaredBy(i, j, k, l, m, n, o, p, q, r, 2, 24) == [];
    assert DeclaredBy(i, j, k, l, m, n, o, p, q, r, 3, 24) == [];
    assert DeclaredBy(i, j, k, l, m, n, o, p, q, r, 4, 24) == [];
    assert DeclaredBy(i, j, k, l, m, n, o, p, q, r, 5, 24) == [];
    assert DeclaredBy(i, j, k, l, m, n, o, p, q, r, 6, 24) == [];
    assert DeclaredBy(i, j, k, l, m, n, o, p, q, r, 7, 24) == [];
    assert DeclaredBy(i, j, k, l, m, n, o, p, q, r, 8, 24) == [];
  }

  /** The locals scope 25 declares, in order. */
  lemma {:induction false} Locals25(i: string, j: string, k: string, l: string, m: string, n: string, o: string, p: string, q: string, r: string)
    ensures DeclaredBy(i, j, k, l, m, n, o, p, q, r, 8, 25) == [Local(p, Pos(28, 42))]
  {
    AppendNil([]);
    assert DeclaredBy(i, j, k, l, m, n, o, p, q, r, 1, 25) == [];
    assert DeclaredBy(i, j, k, l, m, n, o, p, q, r, 2, 25) == [];
    assert DeclaredBy(i, j, k, l, m, n, o, p, q, r, 3, 25) == [];
    assert DeclaredBy(i, j, k, l, m, n, o, p, q, r, 4, 25) == [];
    assert DeclaredBy(i, j, k, l, m, n, o, p, q, r, 5, 25) == [];
    assert DeclaredBy(i, j, k, l, m, n, o, p, q, r, 6, 25) == [Local(p, Pos(28, 42))];
    AppendNil([Local(p, Pos(28, 42))]);
    assert DeclaredBy(i, j, k, l, m, n, o, p, q, r, 7, 25) == [Local(p, Pos(28, 42))];
    assert DeclaredBy(i, j, k, l, m, n, o, p, q, r, 8, 25) == [Local(p, Pos(28, 42))];
  }

  /** The locals scope 26 declares, in order. */
  lemma {:induction false} Locals26(i: string, j: string, k: string, l: string, m: string, n: string, o: string, p: string, q: string, r: string)
    ensures DeclaredBy(i, j, k, l, m, n, o, p, q, r, 8, 26) == [Local(i, Pos(30, 18))]
  {
    AppendNil([]);
    assert DeclaredBy(i, j, k, l, m, n, o, p, q, r, 1, 26) == [];
    assert DeclaredBy(i, j, k, l, m, n, o, p, q, r, 2, 26) == [];
    assert DeclaredBy(i, j, k, l, m, n, o, p, q, r, 3, 26) == [];
    assert DeclaredBy(i, j, k, l, m, n, o, p, q, r, 4, 26) == [];
    assert DeclaredBy(i, j, k, l, m, n, o, p, q, r, 5, 26) == [];
    assert DeclaredBy(i, j, k, l, m, n, o, p, q, r, 6, 26) == [];
    assert DeclaredBy(i, j, k, l, m, n, o, p, q, r, 7, 26) == [Local(i, Pos(30, 18))];
    AppendNil([Local(i, Pos(30, 18))]);
    assert DeclaredBy(i, j, k, l, m, n, o, p, q, r, 8, 26) == [Local(i, Pos(30, 18))];
  }

  /** The locals scope 27 declares, in order. */
  lemma {:induction false} Locals27(i: string, j: string, k: string, l: string, m: string, n: string, o: string, p: string, q: string, r: string)
    ensures DeclaredBy(i, j, k, l, m, n, o, p, q, r, 8, 27) == []
  {
    AppendNil([]);
    assert DeclaredBy(i, j, k, l, m, n, o, p, q, r, 1, 27) == [];
    assert DeclaredBy(i, j, k, l, m, n, o, p, q, r, 2, 27) == [];
    assert DeclaredBy(i, j, k, l, m, n, o, p, q, r, 3, 27) == [];
    assert DeclaredBy(i, j, k, l, m, n, o, p, q, r, 4, 27) == [];
    assert DeclaredBy(i, j, k, l, m, n, o, p, q, r, 5, 27) == [];
    assert DeclaredBy(i, j, k, l, m, n, o, p, q, r, 6, 27) == [];
    assert DeclaredBy(i, j, k, l, m, n, o, p, q, r, 7, 27) == [];
    assert DeclaredBy(i, j, k, l, m, n, o, p, q, r, 8, 27) == [];
  }

  /** The locals scope 28 declares, in order. */
  lemma {:induction false} Locals28(i: string, j: string, k: string, l: string, m: string, n: string, o: string, p: string, q: string, r: string)
    ensures DeclaredBy(i, j, k, l, m, n, o, p, q, r, 8, 28) == [Local(q, Pos(32, 43))]
  {
    AppendNil([]);
    assert DeclaredBy(i, j, k, l, m, n, o, p, q, r, 1, 28) == [];
    assert DeclaredBy(i, j, k, l, m, n, o, p, q, r, 2, 28) == [];
    assert DeclaredBy(i, j, k, l, m, n, o, p, q, r, 3, 28) == [];
    assert DeclaredBy(i, j, k, l, m, n, o, p, q, r, 4, 28) == [];
    assert DeclaredBy(i, j, k, l, m, n, o, p, q, r, 5, 28) == [];
    assert DeclaredBy(i, j, k, l, m, n, o, p, q, r, 6, 28) == [];
    assert DeclaredBy(i, j, k, l, m, n, o, p, q, r, 7, 28) == [Local(q, Pos(32, 43))];
    AppendNil([Local(q, Pos(32, 43))]);
    assert DeclaredBy(i, j, k, l, m, n, o, p, q, r, 8, 28) == [Local(q, Pos(32, 43))];
  }

  /** The locals scope 29 declares, in order. */
  lemma {:induction false} Locals29(i: string, j: string, k: string, l: string, m: string, n: string, o: string, p: string, q: string, r: string)
    ensures DeclaredBy(i, j, k, l, m, n, o, p, q, r, 8, 29) == [Local(i, Pos(35, 18))]
  {
    AppendNil([]);
    assert DeclaredBy(i, j, k, l, m, n, o, p, q, r, 1, 29) == [];
    assert DeclaredBy(i, j, k, l, m, n, o, p, q, r, 2, 29) == [];
    assert DeclaredBy(i, j, k, l, m, n, o, p, q, r, 3, 29) == [];
    assert DeclaredBy(i, j, k, l, m, n, o, p, q, r, 4, 29) == [];
    assert DeclaredBy(i, j, k, l, m, n, o, p, q, r, 5, 29) == [];
    assert DeclaredBy(i, j, k, l, m, n, o, p, q, r, 6, 29) == [];
    assert DeclaredBy(i, j, k, l, m, n, o, p, q, r, 7, 29) == [];
    assert DeclaredBy(i, j, k, l, m, n, o, p, q, r, 8, 29) == [Local(i, Pos(35, 18))];
  }

  /** The locals scope 30 declares, in order. */
  lemma {:induction false} Locals30(i: string, j: string, k: string, l: string, m: string, n: string, o: string, p: string, q: string, r: string)
    ensures DeclaredBy(i, j, k, l, m, n, o, p, q, r, 8, 30) == []
  {
    AppendNil([]);
    assert DeclaredBy(i, j, k, l, m, n, o, p, q, r, 1, 30) == [];
    assert DeclaredBy(i, j, k, l, m, n, o, p, q, r, 2, 30) == [];
    assert DeclaredBy(i, j, k, l, m, n, o, p, q, r, 3, 30) == [];
    assert DeclaredBy(i, j, k, l, m, n, o, p, q, r, 4, 30) == [];
    assert DeclaredBy(i, j, k, l, m, n, o, p, q, r, 5, 30) == [];
    assert DeclaredBy(i, j, k, l, m, n, o, p, q, r, 6, 30) == [];
    assert DeclaredBy(i, j, k, l, m, n, o, p, q, r, 7, 30) == [];
    assert DeclaredBy(i, j, k, l, m, n, o, p, q, r, 8, 30) == [];
  }

  /** The locals scope 31 declares, in order. */
  lemma {:induction false} Locals31(i: string, j: string, k: string, l: string, m: string, n: string, o: string, p: string, q: string, r: string)
    ensures DeclaredBy(i, j, k, l, m, n, o, p, q, r, 8, 31) == [Local(r, Pos(37, 42))]
  {
    AppendNil([]);
    assert DeclaredBy(i, j, k, l, m, n, o, p, q, r, 1, 31) == [];
    assert DeclaredBy(i, j, k, l, m, n, o, p, q, r, 2, 31) == [];
    assert DeclaredBy(i, j, k, l, m, n, o, p, q, r, 3, 31) == [];
    assert DeclaredBy(i, j, k, l, m, n, o, p, q, r, 4, 31) == [];
    assert DeclaredBy(i, j, k, l, m, n, o, p, q, r, 5, 31) == [];
    assert DeclaredBy(i, j, k, l, m, n, o, p, q, r, 6, 31) == [];
    assert DeclaredBy(i, j, k, l, m, n, o, p, q, r, 7, 31) == [];
    assert DeclaredBy(i, j, k, l, m, n, o, p, q, r, 8, 31) == [Local(r, Pos(37, 42))];
  }

  /** The assignments known after event 7. */
  function Known0(i: string, j: string, k: string, l: string, m: string, n: string, o: string, p: string, q: string, r: string): seq<Fact> {
    []
      + [Fact(5, i, [])]
      + [Fact(5, i, [0])]
      + [Fact(6, j, [0])]
  }

  /** Whether a local is assigned after the assignments of events 0 to 7. */
  lemma {:induction false} Assigned0(i: string, j: string, k: string, l: string, m: string, n: string, o: string, p: string, q: string, r: string, fs: seq<Fact>, sc: nat, nm: string, pth: seq<nat>)
    ensures Assigned(fs + [Fact(5, i, [])] + [Fact(5, i, [0])] + [Fact(6, j, [0])], sc, nm, pth) == (
      Assigned(fs, sc, nm, pth) ||
      (5 == sc && i == nm && [] <= pth) ||
      (5 == sc && i == nm && [0] <= pth) ||
      (6 == sc && j == nm && [0] <= pth))
  {
    AssignedSnoc(fs, Fact(5, i, []), sc, nm, pth);
    AssignedSnoc(fs + [Fact(5, i, [])], Fact(5, i, [0]), sc, nm, pth);
    AssignedSnoc(fs + [Fact(5, i, [])] + [Fact(5, i, [0])], Fact(6, j, [0]), sc, nm, pth);
  }

  /** The assignments known after event 15. */
  function Known1(i: string, j: string, k: string, l: string, m: string, n: string, o: string, p: string, q: string, r: string): seq<Fact> {
    Known0(i, j, k, l, m, n, o, p, q, r)
      + [Fact(8, i, [])]
      + [Fact(8, j, [])]
      + [Fact(8, j, [])]
      + [Fact(10, k, [1])]
  }

  /** Whether a local is assigned after the assignments of events 8 to 15. */
  lemma {:induction false} Assigned1(i: string, j: string, k: string, l: string, m: string, n: string, o: string, p: string, q: string, r: string, fs: seq<Fact>, sc: nat, nm: string, pth: seq<nat>)
    ensures Assigned(fs + [Fact(8, i, [])] + [Fact(8, j, [])] + [Fact(8, j, [])] + [Fact(10, k, [1])], sc, nm, pth) == (
      Assigned(fs, sc, nm, pth) ||
      (8 == sc && i == nm && [] <= pth) ||
      (8 == sc && j == nm && [] <= pth) ||
      (8 == sc && j == nm && [] <= pth) ||
      (10 == sc && k == nm && [1] <= pth))
  {
    AssignedSnoc(fs, Fact(8, i, []), sc, nm, pth);
    AssignedSnoc(fs + [Fact(8, i, [])], Fact(8, j, []), sc, nm, pth);
    AssignedSnoc(fs + [Fact(8, i, [])] + [Fact(8, j, [])], Fact(8, j, []), sc, nm, pth);
    AssignedSnoc(fs + [Fact(8, i, [])] + [Fact(8, j, [])] + [Fact(8, j, [])], Fact(10, k, [1]), sc, nm, pth);
  }

  /** The assignments known after event 23. */
  function Known2(i: string, j: string, k: string, l: string, m: string, n: string, o: string, p: string, q: string, r: string): seq<Fact> {
    Known1(i, j, k, l, m, n, o, p, q, r)
      + [Fact(11, i, [])]
      + [Fact(12, l, [])]
  }

  /** Whether a local is assigned after the assignments of events 16 to 23. */
  lemma {:induction false} Assigned2(i: string, j: string, k: string, l: string, m: string, n: string, o: string, p: string, q: string, r: string, fs: seq<Fact>, sc: nat, nm: string, pth: seq<nat>)
    ensures Assigned(fs + [Fact(11, i, [])] + [Fact(12, l, [])], sc, nm, pth) == (
      Assigned(fs, sc, nm, pth) ||
      (11 == sc && i == nm && [] <= pth) ||
      (12 == sc && l == nm && [] <= pth))
  {
    AssignedSnoc(fs, Fact(11, i, []), sc, nm, pth);
    AssignedSnoc(fs + [Fact(11, i, [])], Fact(12, l, []), sc, nm, pth);
  }

  /** The assignments known after event 31. */
  function Known3(i: string, j: string, k: string, l: string, m: string, n: string, o: string, p: string, q: string, r: string): seq<Fact> {
    Known2(i, j, k, l, m, n, o, p, q, r)
      + [Fact(14, i, [])]
      + [Fact(14, i, [3])]
      + [Fact(15, m, [3])]
      + [Fact(17, i, [])]
  }

  /** Whether a local is assigned after the assignments of events 24 to 31. */
  lemma {:induction false} Assigned3(i: string, j: string, k: string, l: string, m: string, n: string, o: string, p: string, q: string, r: string, fs: seq<Fact>, sc: nat, nm: string, pth: seq<nat>)
    ensures Assigned(fs + [Fact(14, i, [])] + [Fact(14, i, [3])] + [Fact(15, m, [3])] + [Fact(17, i, [])], sc, nm, pth) == (
      Assigned(fs, sc, nm, pth) ||
      (14 == sc && i == nm && [] <= pth) ||
      (14 == sc && i == nm && [3] <= pth) ||
      (15 == sc && m == nm && [3] <= pth) ||
      (17 == sc && i == nm && [] <= pth))
  {
    AssignedSnoc(fs, Fact(14, i, []), sc, nm, pth);
    AssignedSnoc(fs + [Fact(14, i, [])], Fact(14, i, [3]), sc, nm, pth);
    AssignedSnoc(fs + [Fact(14, i, [])] + [Fact(14, i, [3])], Fact(15, m, [3]), sc, nm, pth);
    AssignedSnoc(fs + [Fact(14, i, [])] + [Fact(14, i, [3])] + [Fact(15, m, [3])], Fact(17, i, []), sc, nm, pth);
  }

  /** The assignments known after event 39. */
  function Known4(i: string, j: string, k: string, l: string, m: string, n: string, o: string, p: string, q: string, r: string): seq<Fact> {
    Known3(i, j, k, l, m, n, o, p, q, r)
      + [Fact(19, n, [4])]
      + [Fact(20, i, [])]
  }

  /** Whether a local is assigned after the assignments of events 32 to 39. */
  lemma {:induction false} Assigned4(i: string, j: string, k: string, l: string, m: string, n: string, o: string, p: string, q: string, r: string, fs: seq<Fact>, sc: nat, nm: string, pth: seq<nat>)
    ensures Assigned(fs + [Fact(19, n, [4])] + [Fact(20, i, [])], sc, nm, pth) == (
      Assigned(fs, sc, nm, pth) ||
      (19 == sc && n == nm && [4] <= pth) ||
      (20 == sc && i == nm && [] <= pth))
  {
    AssignedSnoc(fs, Fact(19, n, [4]), sc, nm, pth);
    AssignedSnoc(fs + [Fact(19, n, [4])], Fact(20, i, []), sc, nm, pth);
  }

  /** The assignments known after event 47. */
  function Known5(i: string, j: string, k: string, l: string, m: string, n: string, o: string, p: string, q: string, r: string): seq<Fact> {
    Known4(i, j, k, l, m, n, o, p, q, r)
      + [Fact(22, o, [5])]
      + [Fact(23, i, [])]
      + [Fact(25, p, [6])]
  }

  /** Whether a local is assigned after the assignments of events 40 to 47. */
  lemma {:induction false} Assigned5(i: string, j: string, k: string, l: string, m: string, n: string, o: string, p: string, q: string, r: string, fs: seq<Fact>, sc: nat, nm: string, pth: seq<nat>)
    ensures Assigned(fs + [Fact(22, o, [5])] + [Fact(23, i, [])] + [Fact(25, p, [6])], sc, nm, pth) == (
      Assigned(fs, sc, nm, pth) ||
      (22 == sc && o == nm && [5] <= pth) ||
      (23 == sc && i == nm && [] <= pth) ||
      (25 == sc && p == nm && [6] <= pth))
  {
    AssignedSnoc(fs, Fact(22, o, [5]), sc, nm, pth);
    AssignedSnoc(fs + [Fact(22, o, [5])], Fact(23, i, []), sc, nm, pth);
    AssignedSnoc(fs + [Fact(22, o, [5])] + [Fact(23, i, [])], Fact(25, p, [6]), sc, nm, pth);
  }

  /** The assignments known after event 55. */
  function Known6(i: string, j: string, k: string, l: string, m: string, n: string, o: string, p: string, q: string, r: string): seq<Fact> {
    Known5(i, j, k, l, m, n, o, p, q, r)
      + [Fact(23, i, [6])]
      + [Fact(26, i, [])]
      + [Fact(28, q, [7])]
  }

  /** Whether a local is assigned after the assignments of events 48 to 55. */
  lemma {:induction false} Assigned6(i: string, j: string, k: string, l: string, m: string, n: string, o: string, p: string, q: string, r: string, fs: seq<Fact>, sc: nat, nm: string, pth: seq<nat>)
    ensures Assigned(fs + [Fact(23, i, [6])] + [Fact(26, i, [])] + [Fact(28, q, [7])], sc, nm, pth) == (
      Assigned(fs, sc, nm, pth) ||
      (23 == sc && i == nm && [6] <= pth) ||
      (26 == sc && i == nm && [] <= pth) ||
      (28 == sc && q == nm && [7] <= pth))
  {
    AssignedSnoc(fs, Fact(23, i, [6]), sc, nm, pth);
    AssignedSnoc(fs + [Fact(23, i, [6])], Fact(26, i, []), sc, nm, pth);
    AssignedSnoc(fs + [Fact(23, i, [6])] + [Fact(26, i, [])], Fact(28, q, [7]), sc, nm, pth);
  }

  /** The assignments known after event 62. */
  function Known7(i: string, j: string, k: string, l: string, m: string, n: string, o: string, p: string, q: string, r: string): seq<Fact> {
    Known6(i, j, k, l, m, n, o, p, q, r)
      + [Fact(29, i, [])]
      + [Fact(31, r, [8])]
      + [Fact(29, i, [8])]
  }

  /** Whether a local is assigned after the assignments of events 56 to 62. */
  lemma {:induction false} Assigned7(i: string, j: string, k: string, l: string, m: string, n: string, o: string, p: string, q: string, r: string, fs: seq<Fact>, sc: nat, nm: string, pth: seq<nat>)
    ensures Assigned(fs + [Fact(29, i, [])] + [Fact(31, r, [8])] + [Fact(29, i, [8])], sc, nm, pth) == (
      Assigned(fs, sc, nm, pth) ||
      (29 == sc && i == nm && [] <= pth) ||
      (31 == sc && r == nm && [8] <= pth) ||
      (29 == sc && i == nm && [8] <= pth))
  {
    AssignedSnoc(fs, Fact(29, i, []), sc, nm, pth);
    AssignedSnoc(fs + [Fact(29, i, [])], Fact(31, r, [8]), sc, nm, pth);
    AssignedSnoc(fs + [Fact(29, i, [])] + [Fact(31, r, [8])], Fact(29, i, [8]), sc, nm, pth);
  }

  /** Event 0: its diagnostics and the assignments after it. */
  lemma {:induction false} Event0(i: string, j: string, k: string, l: string, m: string, n: string, o: string, p: string, q: string, r: string, tr: Tree, fs: seq<Fact>)
    requires |tr.scopes| == 32
    requires Parent(tr, 0) == None
    requires Parent(tr, 3) == Some(0)
    requires Parent(tr, 4) == Some(3)
    requires Parent(tr, 5) == Some(4)
    requires LocalsOf(tr, 5) == [Local(i, Pos(6, 18))]
    requires LocalsOf(tr, 4) == []
    requires LocalsOf(tr, 3) == []
    requires LocalsOf(tr, 0) == []
    ensures EventDiags(tr, Declared(5, i, Pos(6, 18), Initialized, []), fs) == []
    ensures Step(tr, Declared(5, i, Pos(6, 18), Initialized, []), fs) == fs + [Fact(5, i, [])]
  {
    assert Lookup(tr, 0, i) == None;
    assert Lookup(tr, 3, i) == None;
    assert Lookup(tr, 4, i) == None;
  }

  /** Event 1: its diagnostics and the assignments after it. */
  lemma {:induction false} Event1(i: string, j: string, k: string, l: string, m: string, n: string, o: string, p: string, q: string, r: string, tr: Tree, fs: seq<Fact>)
    requires |tr.scopes| == 32
    requires Parent(tr, 5) == Some(4)
    requires Parent(tr, 6) == Some(5)
    requires LocalsOf(tr, 6) == [Local(j, Pos(6, 41))]
    requires LocalsOf(tr, 5) == [Local(i, Pos(6, 18))]
    requires i != j
    requires Assigned(fs, 5, i, [])
    ensures EventDiags(tr, Referenced(6, i, Pos(6, 25), false, false, []), fs) == []
    ensures Step(tr, Referenced(6, i, Pos(6, 25), false, false, []), fs) == fs
  {
    assert Local(i, Pos(6, 18)) in LocalsOf(tr, 5);
    assert Lookup(tr, 5, i) == Some(5);
    assert Lookup(tr, 6, i) == Some(5);
  }

  /** Event 2: its diagnostics and the assignments after it. */
  lemma {:induction false} Event2(i: string, j: string, k: string, l: string, m: string, n: string, o: string, p: string, q: string, r: string, tr: Tree, fs: seq<Fact>)
    requires |tr.scopes| == 32
    requires Parent(tr, 6) == Some(5)
    requires Parent(tr, 7) == Some(6)
    requires LocalsOf(tr, 7) == []
    requires LocalsOf(tr, 6) == [Local(j, Pos(6, 41))]
    requires !Assigned(fs, 6, j, [0])
    ensures EventDiags(tr, Referenced(7, j, Pos(8, 38), false, false, [0]), fs) == [Diag(Unassigned, j, Pos(8, 38))]
    ensures Step(tr, Referenced(7, j, Pos(8, 38), false, false, [0]), fs) == fs
  {
    assert Local(j, Pos(6, 41)) in LocalsOf(tr, 6);
    assert Lookup(tr, 6, j) == Some(6);
    assert Lookup(tr, 7, j) == Some(6);
  }

  /** Event 3: its diagnostics and the assignments after it. */
  lemma {:induction false} Event3(i: string, j: string, k: string, l: string, m: string, n: string, o: string, p: string, q: string, r: string, tr: Tree, fs: seq<Fact>)
    ensures EventDiags(tr, OutAssigned(7, [], [0]), fs) == []
    ensures Step(tr, OutAssigned(7, [], [0]), fs) == fs
  {
    assert OutFacts(7, [], [0]) == [];
    FactsNil(fs);
  }

  /** Event 4: its diagnostics and the assignments after it. */
  lemma {:induction false} Event4(i: string, j: string, k: string, l: string, m: string, n: string, o: string, p: string, q: string, r: string, tr: Tree, fs: seq<Fact>)
    requires |tr.scopes| == 32
    requires Parent(tr, 5) == Some(4)
    requires Parent(tr, 6) == Some(5)
    requires LocalsOf(tr, 6) == [Local(j, Pos(6, 41))]
    requires LocalsOf(tr, 5) == [Local(i, Pos(6, 18))]
    requires i != j
    ensures EventDiags(tr, Referenced(6, i, Pos(6, 32), true, false, [0]), fs) == []
    ensures Step(tr, Referenced(6, i, Pos(6, 32), true, false, [0]), fs) == fs + [Fact(5, i, [0])]
  {
    assert Local(i, Pos(6, 18)) in LocalsOf(tr, 5);
    assert Lookup(tr, 5, i) == Some(5);
    assert Lookup(tr, 6, i) == Some(5);
  }

  /** Event 5: its diagnostics and the assignments after it. */
  lemma {:induction false} Event5(i: string, j: string, k: string, l: string, m: string, n: string, o: string, p: string, q: string, r: string, tr: Tree, fs: seq<Fact>)
    requires |tr.scopes| == 32
    requires Parent(tr, 0) == None
    requires Parent(tr, 3) == Some(0)
    requires Parent(tr, 4) == Some(3)
    requires Parent(tr, 5) == Some(4)
    requires Parent(tr, 6) == Some(5)
    requires LocalsOf(tr, 6) == [Local(j, Pos(6, 41))]
    requires LocalsOf(tr, 5) == [Local(i, Pos(6, 18))]
    requires LocalsOf(tr, 4) == []
    requires LocalsOf(tr, 3) == []
    requires LocalsOf(tr, 0) == []
    requires i != j
    ensures EventDiags(tr, Declared(6, j, Pos(6, 41), Initialized, [0]), fs) == []
    ensures Step(tr, Declared(6, j, Pos(6, 41), Initialized, [0]), fs) == fs + [Fact(6, j, [0])]
  {
    assert Lookup(tr, 0, j) == None;
    assert Lookup(tr, 3, j) == None;
    assert Lookup(tr, 4, j) == None;
    assert Lookup(tr, 5, j) == None;
  }

  /** Event 6: its diagnostics and the assignments after it. */
  lemma {:induction false} Event6(i: string, j: string, k: string, l: string, m: string, n: string, o: string, p: string, q: string, r: string, tr: Tree, fs: seq<Fact>)
    requires |tr.scopes| == 32
    requires Parent(tr, 5) == Some(4)
    requires Parent(tr, 6) == Some(5)
    requires LocalsOf(tr, 6) == [Local(j, Pos(6, 41))]
    requires LocalsOf(tr, 5) == [Local(i, Pos(6, 18))]
    requires i != j
    requires Assigned(fs, 5, i, [0])
    ensures EventDiags(tr, Referenced(6, i, Pos(6, 45), false, false, [0]), fs) == []
    ensures Step(tr, Referenced(6, i, Pos(6, 45), false, false, [0]), fs) == fs
  {
    assert Local(i, Pos(6, 18)) in LocalsOf(tr, 5);
    assert Lookup(tr, 5, i) == Some(5);
    assert Lookup(tr, 6, i) == Some(5);
  }

  /** Event 7: its diagnostics and the assignments after it. */
  lemma {:induction false} Event7(i: string, j: string, k: string, l: string, m: string, n: string, o: string, p: string, q: string, r: string, tr: Tree, fs: seq<Fact>)
    requires |tr.scopes| == 32
    requires Parent(tr, 6) == Some(5)
    requires LocalsOf(tr, 6) == [Local(j, Pos(6, 41))]
    requires Assigned(fs, 6, j, [0])
    ensures EventDiags(tr, Referenced(6, j, Pos(6, 54), false, false, [0]), fs) == []
    ensures Step(tr, Referenced(6, j, Pos(6, 54), false, false, [0]), fs) == fs
  {
    assert Local(j, Pos(6, 41)) in LocalsOf(tr, 6);
    assert Lookup(tr, 6, j) == Some(6);
  }

  /** Event 8: its diagnostics and the assignments after it. */
  lemma {:induction false} Event8(i: string, j: string, k: string, l: string, m: string, n: string, o: string, p: string, q: string, r: string, tr: Tree, fs: seq<Fact>)
    requires |tr.scopes| == 32
    requires Parent(tr, 0) == None
    requires Parent(tr, 3) == Some(0)
    requires Parent(tr, 4) == Some(3)
    requires Parent(tr, 8) == Some(4)
    requires LocalsOf(tr, 8) == [Local(i, Pos(11, 18)), Local(j, Pos(11, 36))]
    requires LocalsOf(tr, 4) == []
    requires LocalsOf(tr, 3) == []
    requires LocalsOf(tr, 0) == []
    requires i != j
    ensures EventDiags(tr, Declared(8, i, Pos(11, 18), Initialized, []), fs) == []
    ensures Step(tr, Declared(8, i, Pos(11, 18), Initialized, []), fs) == fs + [Fact(8, i, [])]
  {
    assert Lookup(tr, 0, i) == None;
    assert Lookup(tr, 3, i) == None;
    assert Lookup(tr, 4, i) == None;
  }

  /** Event 9: its diagnostics and the assignments after it. */
  lemma {:induction false} Event9(i: string, j: string, k: string, l: string, m: string, n: string, o: string, p: string, q: string, r: string, tr: Tree, fs: seq<Fact>)
    requires |tr.scopes| == 32
    requires Parent(tr, 0) == None
    requires Parent(tr, 3) == Some(0)
    requires Parent(tr, 4) == Some(3)
    requires Parent(tr, 8) == Some(4)
    requires LocalsOf(tr, 8) == [Local(i, Pos(11, 18)), Local(j, Pos(11, 36))]
    requires LocalsOf(tr, 4) == []
    requires LocalsOf(tr, 3) == []
    requires LocalsOf(tr, 0) == []
    requires i != j
    ensures EventDiags(tr, Declared(8, j, Pos(11, 36), Initialized, []), fs) == []
    ensures Step(tr, Declared(8, j, Pos(11, 36), Initialized, []), fs) == fs + [Fact(8, j, [])]
  {
    assert Lookup(tr, 0, j) == None;
    assert Lookup(tr, 3, j) == None;
    assert Lookup(tr, 4, j) == None;
  }

  /** Event 10: its diagnostics and the assignments after it. */
  lemma {:induction false} Event10(i: string, j: string, k: string, l: string, m: string, n: string, o: string, p: string, q: string, r: string, tr: Tree, fs: seq<Fact>)
    requires |tr.scopes| == 32
    requires Parent(tr, 8) == Some(4)
    requires LocalsOf(tr, 8) == [Local(i, Pos(11, 18)), Local(j, Pos(11, 36))]
    requires i != j
    requires Assigned(fs, 8, j, [])
    ensures EventDiags(tr, Referenced(8, j, Pos(11, 46), false, false, []), fs) == []
    ensures Step(tr, Referenced(8, j, Pos(11, 46), false, false, []), fs) == fs
  {
    assert Local(j, Pos(11, 36)) in LocalsOf(tr, 8);
    assert Lookup(tr, 8, j) == Some(8);
  }

  /** Event 11: its diagnostics and the assignments after it. */
  lemma {:induction false} Event11(i: string, j: string, k: string, l: string, m: string, n: string, o: string, p: string, q: string, r: string, tr: Tree, fs: seq<Fact>)
    requires |tr.scopes| == 32
    requires Parent(tr, 8) == Some(4)
    requires Parent(tr, 9) == Some(8)
    requires LocalsOf(tr, 9) == []
    requires LocalsOf(tr, 8) == [Local(i, Pos(11, 18)), Local(j, Pos(11, 36))]
    requires i != j
    ensures EventDiags(tr, Referenced(9, j, Pos(11, 51), true, false, []), fs) == []
    ensures Step(tr, Referenced(9, j, Pos(11, 51), true, false, []), fs) == fs + [Fact(8, j, [])]
  {
    assert Local(j, Pos(11, 36)) in LocalsOf(tr, 8);
    assert Lookup(tr, 8, j) == Some(8);
    assert Lookup(tr, 9, j) == Some(8);
  }

  /** Event 12: its diagnostics and the assignments after it. */
  lemma {:induction false} Event12(i: string, j: string, k: string, l: string, m: string, n: string, o: string, p: string, q: string, r: string, tr: Tree, fs: seq<Fact>)
    requires |tr.scopes| == 32
    requires Parent(tr, 8) == Some(4)
    requires Parent(tr, 9) == Some(8)
    requires LocalsOf(tr, 9) == []
    requires LocalsOf(tr, 8) == [Local(i, Pos(11, 18)), Local(j, Pos(11, 36))]
    requires i != j
    requires Assigned(fs, 8, i, [])
    ensures EventDiags(tr, Referenced(9, i, Pos(11, 55), false, false, []), fs) == []
    ensures Step(tr, Referenced(9, i, Pos(11, 55), false, false, []), fs) == fs
  {
    assert Local(i, Pos(11, 18)) in LocalsOf(tr, 8);
    assert Lookup(tr, 8, i) == Some(8);
    assert Lookup(tr, 9, i) == Some(8);
  }

  /** Event 13: its diagnostics and the assignments after it. */
  lemma {:induction false} Event13(i: string, j: string, k: string, l: string, m: string, n: string, o: string, p: string, q: string, r: string, tr: Tree, fs: seq<Fact>)
    requires |tr.scopes| == 32
    requires Parent(tr, 8) == Some(4)
    requires Parent(tr, 9) == Some(8)
    requires Parent(tr, 10) == Some(9)
    requires LocalsOf(tr, 10) == [Local(k, Pos(12, 47))]
    requires LocalsOf(tr, 9) == []
    requires LocalsOf(tr, 8) == [Local(i, Pos(11, 18)), Local(j, Pos(11, 36))]
    requires i != j && j != k
    requires Assigned(fs, 8, j, [1])
    ensures EventDiags(tr, Referenced(10, j, Pos(12, 38), false, false, [1]), fs) == []
    ensures Step(tr, Referenced(10, j, Pos(12, 38), false, false, [1]), fs) == fs
  {
    assert Local(j, Pos(11, 36)) in LocalsOf(tr, 8);
    assert Lookup(tr, 8, j) == Some(8);
    assert Lookup(tr, 9, j) == Some(8);
    assert Lookup(tr, 10, j) == Some(8);
  }

  /** Event 14: its diagnostics and the assignments after it. */
  lemma {:induction false} Event14(i: string, j: string, k: string, l: string, m: string, n: string, o: string, p: string, q: string, r: string, tr: Tree, fs: seq<Fact>)
    requires |tr.scopes| == 32
    requires Parent(tr, 0) == None
    requires Parent(tr, 3) == Some(0)
    requires Parent(tr, 4) == Some(3)
    requires Parent(tr, 8) == Some(4)
    requires Parent(tr, 9) == Some(8)
    requires Parent(tr, 10) == Some(9)
    requires LocalsOf(tr, 10) == [Local(k, Pos(12, 47))]
    requires LocalsOf(tr, 9) == []
    requires LocalsOf(tr, 8) == [Local(i, Pos(11, 18)), Local(j, Pos(11, 36))]
    requires LocalsOf(tr, 4) == []
    requires LocalsOf(tr, 3) == []
    requires LocalsOf(tr, 0) == []
    requires i != k && j != k
    ensures EventDiags(tr, Declared(10, k, Pos(12, 47), Initialized, [1]), fs) == []
    ensures Step(tr, Declared(10, k, Pos(12, 47), Initialized, [1]), fs) == fs + [Fact(10, k, [1])]
  {
    assert Lookup(tr, 0, k) == None;
    assert Lookup(tr, 3, k) == None;
    assert Lookup(tr, 4, k) == None;
    assert Lookup(tr, 8, k) == None;
    assert Lookup(tr, 9, k) == None;
  }

  /** Event 15: its diagnostics and the assignments after it. */
  lemma {:induction false} Event15(i: string, j: string, k: string, l: string, m: string, n: string, o: string, p: string, q: string, r: string, tr: Tree, fs: seq<Fact>)
    requires |tr.scopes| == 32
    requires Parent(tr, 8) == Some(4)
    requires Parent(tr, 9) == Some(8)
    requires Parent(tr, 10) == Some(9)
    requires LocalsOf(tr, 10) == [Local(k, Pos(12, 47))]
    requires LocalsOf(tr, 9) == []
    requires LocalsOf(tr, 8) == [Local(i, Pos(11, 18)), Local(j, Pos(11, 36))]
    requires i != j && i != k
    requires Assigned(fs, 8, i, [1])
    ensures EventDiags(tr, Referenced(10, i, Pos(12, 55), false, false, [1]), fs) == []
    ensures Step(tr, Referenced(10, i, Pos(12, 55), false, false, [1]), fs) == fs
  {
    assert Local(i, Pos(11, 18)) in LocalsOf(tr, 8);
    assert Lookup(tr, 8, i) == Some(8);
    assert Lookup(tr, 9, i) == Some(8);
    assert Lookup(tr, 10, i) == Some(8);
  }

  /** Event 16: its diagnostics and the assignments after it. */
  lemma {:induction false} Event16(i: string, j: string, k: string, l: string, m: string, n: string, o: string, p: string, q: string, r: string, tr: Tree, fs: seq<Fact>)
    ensures EventDiags(tr, OutAssigned(10, [], [1]), fs) == []
    ensures Step(tr, OutAssigned(10, [], [1]), fs) == fs
  {
    assert OutFacts(10, [], [1]) == [];
    FactsNil(fs);
  }

  /** Event 17: its diagnostics and the assignments after it. */
  lemma {:induction false} Event17(i: string, j: string, k: string, l: string, m: string, n: string, o: string, p: string, q: string, r: string, tr: Tree, fs: seq<Fact>)
    requires |tr.scopes| == 32
    requires Parent(tr, 8) == Some(4)
    requires Parent(tr, 9) == Some(8)
    requires LocalsOf(tr, 9) == []
    requires LocalsOf(tr, 8) == [Local(i, Pos(11, 18)), Local(j, Pos(11, 36))]
    requires i != j
    requires Assigned(fs, 8, i, [1])
    ensures EventDiags(tr, Referenced(9, i, Pos(11, 64), false, false, [1]), fs) == []
    ensures Step(tr, Referenced(9, i, Pos(11, 64), false, false, [1]), fs) == fs
  {
    assert Local(i, Pos(11, 18)) in LocalsOf(tr, 8);
    assert Lookup(tr, 8, i) == Some(8);
    assert Lookup(tr, 9, i) == Some(8);
  }

  /** Event 18: its diagnostics and the assignments after it. */
  lemma {:induction false} Event18(i: string, j: string, k: string, l: string, m: string, n: string, o: string, p: string, q: string, r: string, tr: Tree, fs: seq<Fact>)
    requires |tr.scopes| == 32
    requires Parent(tr, 0) == None
    requires Parent(tr, 3) == Some(0)
    requires Parent(tr, 4) == Some(3)
    requires LocalsOf(tr, 4) == []
    requires LocalsOf(tr, 3) == []
    requires LocalsOf(tr, 0) == []
    ensures EventDiags(tr, Referenced(4, j, Pos(14, 9), true, false, []), fs) == [Diag(NotInContext, j, Pos(14, 9))]
    ensures Step(tr, Referenced(4, j, Pos(14, 9), true, false, []), fs) == fs
  {
    assert Lookup(tr, 0, j) == None;
    assert Lookup(tr, 3, j) == None;
    assert Lookup(tr, 4, j) == None;
  }

  /** Event 19: its diagnostics and the assignments after it. */
  lemma {:induction false} Event19(i: string, j: string, k: string, l: string, m: string, n: string, o: string, p: string, q: string, r: string, tr: Tree, fs: seq<Fact>)
    requires |tr.scopes| == 32
    requires Parent(tr, 0) == None
    requires Parent(tr, 3) == Some(0)
    requires Parent(tr, 4) == Some(3)
    requires LocalsOf(tr, 4) == []
    requires LocalsOf(tr, 3) == []
    requires LocalsOf(tr, 0) == []
    ensures EventDiags(tr, Referenced(4, k, Pos(15, 9), true, false, []), fs) == [Diag(NotInContext, k, Pos(15, 9))]
    ensures Step(tr, Referenced(4, k, Pos(15, 9), true, false, []), fs) == fs
  {
    assert Lookup(tr, 0, k) == None;
    assert Lookup(tr, 3, k) == None;
    assert Lookup(tr, 4, k) == None;
  }

  /** Event 20: its diagnostics and the assignments after it. */
  lemma {:induction false} Event20(i: string, j: string, k: string, l: string, m: string, n: string, o: string, p: string, q: string, r: string, tr: Tree, fs: seq<Fact>)
    requires |tr.scopes| == 32
    requires Parent(tr, 0) == None
    requires Parent(tr, 3) == Some(0)
    requires Parent(tr, 4) == Some(3)
    requires Parent(tr, 11) == Some(4)
    requires LocalsOf(tr, 11) == [Local(i, Pos(17, 18))]
    requires LocalsOf(tr, 4) == []
    requires LocalsOf(tr, 3) == []
    requires LocalsOf(tr, 0) == []
    ensures EventDiags(tr, Declared(11, i, Pos(17, 18), Initialized, []), fs) == []
    ensures Step(tr, Declared(11, i, Pos(17, 18), Initialized, []), fs) == fs + [Fact(11, i, [])]
  {
    assert Lookup(tr, 0, i) == None;
    assert Lookup(tr, 3, i) == None;
    assert Lookup(tr, 4, i) == None;
  }

  /** Event 21: its diagnostics and the assignments after it. */
  lemma {:induction false} Event21(i: string, j: string, k: string, l: string, m: string, n: string, o: string, p: string, q: string, r: string, tr: Tree, fs: seq<Fact>)
    requires |tr.scopes| == 32
    requires Parent(tr, 0) == None
    requires Parent(tr, 3) == Some(0)
    requires Parent(tr, 4) == Some(3)
    requires Parent(tr, 11) == Some(4)
    requires LocalsOf(tr, 11) == [Local(i, Pos(17, 18))]
    requires LocalsOf(tr, 4) == []
    requires LocalsOf(tr, 3) == []
    requires LocalsOf(tr, 0) == []
    requires i != l
    ensures EventDiags(tr, Referenced(11, l, Pos(17, 22), false, false, []), fs) == [Diag(NotInContext, l, Pos(17, 22))]
    ensures Step(tr, Referenced(11, l, Pos(17, 22), false, false, []), fs) == fs
  {
    assert Lookup(tr, 0, l) == None;
    assert Lookup(tr, 3, l) == None;
    assert Lookup(tr, 4, l) == None;
    assert Lookup(tr, 11, l) == None;
  }

  /** Event 22: its diagnostics and the assignments after it. */
  lemma {:induction false} Event22(i: string, j: string, k: string, l: string, m: string, n: string, o: string, p: string, q: string, r: string, tr: Tree, fs: seq<Fact>)
    requires |tr.scopes| == 32
    requires Parent(tr, 11) == Some(4)
    requires Parent(tr, 12) == Some(11)
    requires LocalsOf(tr, 12) == [Local(l, Pos(17, 34))]
    requires LocalsOf(tr, 11) == [Local(i, Pos(17, 18))]
    requires i != l
    requires Assigned(fs, 11, i, [])
    ensures EventDiags(tr, Referenced(12, i, Pos(17, 25), false, false, []), fs) == []
    ensures Step(tr, Referenced(12, i, Pos(17, 25), false, false, []), fs) == fs
  {
    assert Local(i, Pos(17, 18)) in LocalsOf(tr, 11);
    assert Lookup(tr, 11, i) == Some(11);
    assert Lookup(tr, 12, i) == Some(11);
  }

  /** Event 23: its diagnostics and the assignments after it. */
  lemma {:induction false} Event23(i: string, j: string, k: string, l: string, m: string, n: string, o: string, p: string, q: string, r: string, tr: Tree, fs: seq<Fact>)
    requires |tr.scopes| == 32
    requires Parent(tr, 0) == None
    requires Parent(tr, 3) == Some(0)
    requires Parent(tr, 4) == Some(3)
    requires Parent(tr, 11) == Some(4)
    requires Parent(tr, 12) == Some(11)
    requires LocalsOf(tr, 12) == [Local(l, Pos(17, 34))]
    requires LocalsOf(tr, 11) == [Local(i, Pos(17, 18))]
    requires LocalsOf(tr, 4) == []
    requires LocalsOf(tr, 3) == []
    requires LocalsOf(tr, 0) == []
    requires i != l
    ensures EventDiags(tr, Declared(12, l, Pos(17, 34), Initialized, []), fs) == []
    ensures Step(tr, Declared(12, l, Pos(17, 34), Initialized, []), fs) == fs + [Fact(12, l, [])]
  {
    assert Lookup(tr, 0, l) == None;
    assert Lookup(tr, 3, l) == None;
    assert Lookup(tr, 4, l) == None;
    assert Lookup(tr, 11, l) == None;
  }

  /** Event 24: its diagnostics and the assignments after it. */
  lemma {:induction false} Event24(i: string, j: string, k: string, l: string, m: string, n: string, o: string, p: string, q: string, r: string, tr: Tree, fs: seq<Fact>)
    requires |tr.scopes| == 32
    requires Parent(tr, 11) == Some(4)
    requires Parent(tr, 12) == Some(11)
    requires LocalsOf(tr, 12) == [Local(l, Pos(17, 34))]
    requires LocalsOf(tr, 11) == [Local(i, Pos(17, 18))]
    requires i != l
    requires Assigned(fs, 11, i, [2])
    ensures EventDiags(tr, Referenced(12, i, Pos(17, 43), false, false, [2]), fs) == []
    ensures Step(tr, Referenced(12, i, Pos(17, 43), false, false, [2]), fs) == fs
  {
    assert Local(i, Pos(17, 18)) in LocalsOf(tr, 11);
    assert Lookup(tr, 11, i) == Some(11);
    assert Lookup(tr, 12, i) == Some(11);
  }

  /** Event 25: its diagnostics and the assignments after it. */
  lemma {:induction false} Event25(i: string, j: string, k: string, l: string, m: string, n: string, o: string, p: string, q: string, r: string, tr: Tree, fs: seq<Fact>)
    requires |tr.scopes| == 32
    requires Parent(tr, 0) == None
    requires Parent(tr, 3) == Some(0)
    requires Parent(tr, 4) == Some(3)
    requires Parent(tr, 14) == Some(4)
    requires LocalsOf(tr, 14) == [Local(i, Pos(19, 18))]
    requires LocalsOf(tr, 4) == []
    requires LocalsOf(tr, 3) == []
    requires LocalsOf(tr, 0) == []
    ensures EventDiags(tr, Declared(14, i, Pos(19, 18), Initialized, []), fs) == []
    ensures Step(tr, Declared(14, i, Pos(19, 18), Initialized, []), fs) == fs + [Fact(14, i, [])]
  {
    assert Lookup(tr, 0, i) == None;
    assert Lookup(tr, 3, i) == None;
    assert Lookup(tr, 4, i) == None;
  }

  /** Event 26: its diagnostics and the assignments after it. */
  lemma {:induction false} Event26(i: string, j: string, k: string, l: string, m: string, n: string, o: string, p: string, q: string, r: string, tr: Tree, fs: seq<Fact>)
    requires |tr.scopes| == 32
    requires Parent(tr, 14) == Some(4)
    requires Parent(tr, 15) == Some(14)
    requires LocalsOf(tr, 15) == [Local(m, Pos(19, 41))]
    requires LocalsOf(tr, 14) == [Local(i, Pos(19, 18))]
    requires i != m
    requires Assigned(fs, 14, i, [])
    ensures EventDiags(tr, Referenced(15, i, Pos(19, 25), false, false, []), fs) == []
    ensures Step(tr, Referenced(15, i, Pos(19, 25), false, false, []), fs) == fs
  {
    assert Local(i, Pos(19, 18)) in LocalsOf(tr, 14);
    assert Lookup(tr, 14, i) == Some(14);
    assert Lookup(tr, 15, i) == Some(14);
  }

  /** Event 27: its diagnostics and the assignments after it. */
  lemma {:induction false} Event27(i: string, j: string, k: string, l: string, m: string, n: string, o: string, p: string, q: string, r: string, tr: Tree, fs: seq<Fact>)
    requires |tr.scopes| == 32
    requires Parent(tr, 15) == Some(14)
    requires LocalsOf(tr, 15) == [Local(m, Pos(19, 41))]
    ensures EventDiags(tr, Referenced(15, m, Pos(19, 29), false, false, []), fs) == [Diag(UsedBeforeDeclared, m, Pos(19, 29))]
    ensures Step(tr, Referenced(15, m, Pos(19, 29), false, false, []), fs) == fs
  {
    assert Local(m, Pos(19, 41)) in LocalsOf(tr, 15);
    assert Lookup(tr, 15, m) == Some(15);
  }

  /** Event 28: its diagnostics and the assignments after it. */
  lemma {:induction false} Event28(i: string, j: string, k: string, l: string, m: string, n: string, o: string, p: string, q: string, r: string, tr: Tree, fs: seq<Fact>)
    requires |tr.scopes| == 32
    requires Parent(tr, 14) == Some(4)
    requires Parent(tr, 15) == Some(14)
    requires LocalsOf(tr, 15) == [Local(m, Pos(19, 41))]
    requires LocalsOf(tr, 14) == [Local(i, Pos(19, 18))]
    requires i != m
    ensures EventDiags(tr, Referenced(15, i, Pos(19, 32), true, false, [3]), fs) == []
    ensures Step(tr, Referenced(15, i, Pos(19, 32), true, false, [3]), fs) == fs + [Fact(14, i, [3])]
  {
    assert Local(i, Pos(19, 18)) in LocalsOf(tr, 14);
    assert Lookup(tr, 14, i) == Some(14);
    assert Lookup(tr, 15, i) == Some(14);
  }

  /** Event 29: its diagnostics and the assignments after it. */
  lemma {:induction false} Event29(i: string, j: string, k: string, l: string, m: string, n: string, o: string, p: string, q: string, r: string, tr: Tree, fs: seq<Fact>)
    requires |tr.scopes| == 32
    requires Parent(tr, 0) == None
    requires Parent(tr, 3) == Some(0)
    requires Parent(tr, 4) == Some(3)
    requires Parent(tr, 14) == Some(4)
    requires Parent(tr, 15) == Some(14)
    requires LocalsOf(tr, 15) == [Local(m, Pos(19, 41))]
    requires LocalsOf(tr, 14) == [Local(i, Pos(19, 18))]
    requires LocalsOf(tr, 4) == []
    requires LocalsOf(tr, 3) == []
    requires LocalsOf(tr, 0) == []
    requires i != m
    ensures EventDiags(tr, Declared(15, m, Pos(19, 41), Initialized, [3]), fs) == []
    ensures Step(tr, Declared(15, m, Pos(19, 41), Initialized, [3]), fs) == fs + [Fact(15, m, [3])]
  {
    assert Lookup(tr, 0, m) == None;
    assert Lookup(tr, 3, m) == None;
    assert Lookup(tr, 4, m) == None;
    assert Lookup(tr, 14, m) == None;
  }

  /** Event 30: its diagnostics and the assignments after it. */
  lemma {:induction false} Event30(i: string, j: string, k: string, l: string, m: string, n: string, o: string, p: string, q: string, r: string, tr: Tree, fs: seq<Fact>)
    requires |tr.scopes| == 32
    requires Parent(tr, 15) == Some(14)
    requires LocalsOf(tr, 15) == [Local(m, Pos(19, 41))]
    requires Assigned(fs, 15, m, [3])
    ensures EventDiags(tr, Referenced(15, m, Pos(19, 51), false, false, [3]), fs) == []
    ensures Step(tr, Referenced(15, m, Pos(19, 51), false, false, [3]), fs) == fs
  {
    assert Local(m, Pos(19, 41)) in LocalsOf(tr, 15);
    assert Lookup(tr, 15, m) == Some(15);
  }

  /** Event 31: its diagnostics and the assignments after it. */
  lemma {:induction false} Event31(i: string, j: string, k: string, l: string, m: string, n: string, o: string, p: string, q: string, r: string, tr: Tree, fs: seq<Fact>)
    requires |tr.scopes| == 32
    requires Parent(tr, 0) == None
    requires Parent(tr, 3) == Some(0)
    requires Parent(tr, 4) == Some(3)
    requires Parent(tr, 17) == Some(4)
    requires LocalsOf(tr, 17) == [Local(i, Pos(21, 18))]
    requires LocalsOf(tr, 4) == []
    requires LocalsOf(tr, 3) == []
    requires LocalsOf(tr, 0) == []
    ensures EventDiags(tr, Declared(17, i, Pos(21, 18), Initialized, []), fs) == []
    ensures Step(tr, Declared(17, i, Pos(21, 18), Initialized, []), fs) == fs + [Fact(17, i, [])]
  {
    assert Lookup(tr, 0, i) == None;
    assert Lookup(tr, 3, i) == None;
    assert Lookup(tr, 4, i) == None;
  }

  /** Event 32: its diagnostics and the assignments after it. */
  lemma {:induction false} Event32(i: string, j: string, k: string, l: string, m: string, n: string, o: string, p: string, q: string, r: string, tr: Tree, fs: seq<Fact>)
    requires |tr.scopes| == 32
    requires Parent(tr, 0) == None
    requires Parent(tr, 3) == Some(0)
    requires Parent(tr, 4) == Some(3)
    requires Parent(tr, 17) == Some(4)
    requires LocalsOf(tr, 17) == [Local(i, Pos(21, 18))]
    requires LocalsOf(tr, 4) == []
    requires LocalsOf(tr, 3) == []
    requires LocalsOf(tr, 0) == []
    requires i != n
    ensures EventDiags(tr, Referenced(17, n, Pos(21, 22), false, false, []), fs) == [Diag(NotInContext, n, Pos(21, 22))]
    ensures Step(tr, Referenced(17, n, Pos(21, 22), false, false, []), fs) == fs
  {
    assert Lookup(tr, 0, n) == None;
    assert Lookup(tr, 3, n) == None;
    assert Lookup(tr, 4, n) == None;
    assert Lookup(tr, 17, n) == None;
  }

  /** Event 33: its diagnostics and the assignments after it. */
  lemma {:induction false} Event33(i: string, j: string, k: string, l: string, m: string, n: string, o: string, p: string, q: string, r: string, tr: Tree, fs: seq<Fact>)
    requires |tr.scopes| == 32
    requires Parent(tr, 17) == Some(4)
    requires Parent(tr, 18) == Some(17)
    requires LocalsOf(tr, 18) == []
    requires LocalsOf(tr, 17) == [Local(i, Pos(21, 18))]
    requires Assigned(fs, 17, i, [])
    ensures EventDiags(tr, Referenced(18, i, Pos(21, 25), false, false, []), fs) == []
    ensures Step(tr, Referenced(18, i, Pos(21, 25), false, false, []), fs) == fs
  {
    assert Local(i, Pos(21, 18)) in LocalsOf(tr, 17);
    assert Lookup(tr, 17, i) == Some(17);
    assert Lookup(tr, 18, i) == Some(17);
  }

  /** Event 34: its diagnostics and the assignments after it. */
  lemma {:induction false} Event34(i: string, j: string, k: string, l: string, m: string, n: string, o: string, p: string, q: string, r: string, tr: Tree, fs: seq<Fact>)
    requires |tr.scopes| == 32
    requires Parent(tr, 0) == None
    requires Parent(tr, 3) == Some(0)
    requires Parent(tr, 4) == Some(3)
    requires Parent(tr, 17) == Some(4)
    requires Parent(tr, 18) == Some(17)
    requires Parent(tr, 19) == Some(18)
    requires LocalsOf(tr, 19) == [Local(n, Pos(22, 43))]
    requires LocalsOf(tr, 18) == []
    requires LocalsOf(tr, 17) == [Local(i, Pos(21, 18))]
    requires LocalsOf(tr, 4) == []
    requires LocalsOf(tr, 3) == []
    requires LocalsOf(tr, 0) == []
    requires i != n
    ensures EventDiags(tr, Declared(19, n, Pos(22, 43), Initialized, [4]), fs) == []
    ensures Step(tr, Declared(19, n, Pos(22, 43), Initialized, [4]), fs) == fs + [Fact(19, n, [4])]
  {
    assert Lookup(tr, 0, n) == None;
    assert Lookup(tr, 3, n) == None;
    assert Lookup(tr, 4, n) == None;
    assert Lookup(tr, 17, n) == None;
    assert Lookup(tr, 18, n) == None;
  }

  /** Event 35: its diagnostics and the assignments after it. */
  lemma {:induction false} Event35(i: string, j: string, k: string, l: string, m: string, n: string, o: string, p: string, q: string, r: string, tr: Tree, fs: seq<Fact>)
    requires |tr.scopes| == 32
    requires Parent(tr, 19) == Some(18)
    requires LocalsOf(tr, 19) == [Local(n, Pos(22, 43))]
    requires Assigned(fs, 19, n, [4])
    ensures EventDiags(tr, Referenced(19, n, Pos(22, 52), false, false, [4]), fs) == []
    ensures Step(tr, Referenced(19, n, Pos(22, 52), false, false, [4]), fs) == fs
  {
    assert Local(n, Pos(22, 43)) in LocalsOf(tr, 19);
    assert Lookup(tr, 19, n) == Some(19);
  }

  /** Event 36: its diagnostics and the assignments after it. */
  lemma {:induction false} Event36(i: string, j: string, k: string, l: string, m: string, n: string, o: string, p: string, q: string, r: string, tr: Tree, fs: seq<Fact>)
    ensures EventDiags(tr, OutAssigned(19, [], [4]), fs) == []
    ensures Step(tr, OutAssigned(19, [], [4]), fs) == fs
  {
    assert OutFacts(19, [], [4]) == [];
    FactsNil(fs);
  }

  /** Event 37: its diagnostics and the assignments after it. */
  lemma {:induction false} Event37(i: string, j: string, k: string, l: string, m: string, n: string, o: string, p: string, q: string, r: string, tr: Tree, fs: seq<Fact>)
    requires |tr.scopes| == 32
    requires Parent(tr, 17) == Some(4)
    requires Parent(tr, 18) == Some(17)
    requires LocalsOf(tr, 18) == []
    requires LocalsOf(tr, 17) == [Local(i, Pos(21, 18))]
    requires Assigned(fs, 17, i, [4])
    ensures EventDiags(tr, Referenced(18, i, Pos(21, 32), false, false, [4]), fs) == []
    ensures Step(tr, Referenced(18, i, Pos(21, 32), false, false, [4]), fs) == fs
  {
    assert Local(i, Pos(21, 18)) in LocalsOf(tr, 17);
    assert Lookup(tr, 17, i) == Some(17);
    assert Lookup(tr, 18, i) == Some(17);
  }

  /** Event 38: its diagnostics and the assignments after it. */
  lemma {:induction false} Event38(i: string, j: string, k: string, l: string, m: string, n: string, o: string, p: string, q: string, r: string, tr: Tree, fs: seq<Fact>)
    requires |tr.scopes| == 32
    requires Parent(tr, 0) == None
    requires Parent(tr, 3) == Some(0)
    requires Parent(tr, 4) == Some(3)
    requires Parent(tr, 20) == Some(4)
    requires LocalsOf(tr, 20) == [Local(i, Pos(24, 18))]
    requires LocalsOf(tr, 4) == []
    requires LocalsOf(tr, 3) == []
    requires LocalsOf(tr, 0) == []
    ensures EventDiags(tr, Declared(20, i, Pos(24, 18), Initialized, []), fs) == []
    ensures Step(tr, Declared(20, i, Pos(24, 18), Initialized, []), fs) == fs + [Fact(20, i, [])]
  {
    assert Lookup(tr, 0, i) == None;
    assert Lookup(tr, 3, i) == None;
    assert Lookup(tr, 4, i) == None;
  }

  /** Event 39: its diagnostics and the assignments after it. */
  lemma {:induction false} Event39(i: string, j: string, k: string, l: string, m: string, n: string, o: string, p: string, q: string, r: string, tr: Tree, fs: seq<Fact>)
    requires |tr.scopes| == 32
    requires Parent(tr, 20) == Some(4)
    requires Parent(tr, 21) == Some(20)
    requires LocalsOf(tr, 21) == []
    requires LocalsOf(tr, 20) == [Local(i, Pos(24, 18))]
    requires Assigned(fs, 20, i, [])
    ensures EventDiags(tr, Referenced(21, i, Pos(24, 25), false, false, []), fs) == []
    ensures Step(tr, Referenced(21, i, Pos(24, 25), false, false, []), fs) == fs
  {
    assert Local(i, Pos(24, 18)) in LocalsOf(tr, 20);
    assert Lookup(tr, 20, i) == Some(20);
    assert Lookup(tr, 21, i) == Some(20);
  }

  /** Event 40: its diagnostics and the assignments after it. */
  lemma {:induction false} Event40(i: string, j: string, k: string, l: string, m: string, n: string, o: string, p: string, q: string, r: string, tr: Tree, fs: seq<Fact>)
    requires |tr.scopes| == 32
    requires Parent(tr, 0) == None
    requires Parent(tr, 3) == Some(0)
    requires Parent(tr, 4) == Some(3)
    requires Parent(tr, 20) == Some(4)
    requires Parent(tr, 21) == Some(20)
    requires LocalsOf(tr, 21) == []
    requires LocalsOf(tr, 20) == [Local(i, Pos(24, 18))]
    requires LocalsOf(tr, 4) == []
    requires LocalsOf(tr, 3) == []
    requires LocalsOf(tr, 0) == []
    requires i != o
    ensures EventDiags(tr, Referenced(21, o, Pos(24, 29), false, false, []), fs) == [Diag(NotInContext, o, Pos(24, 29))]
    ensures Step(tr, Referenced(21, o, Pos(24, 29), false, false, []), fs) == fs
  {
    assert Lookup(tr, 0, o) == None;
    assert Lookup(tr, 3, o) == None;
    assert Lookup(tr, 4, o) == None;
    assert Lookup(tr, 20, o) == None;
    assert Lookup(tr, 21, o) == None;
  }

  /** Event 41: its diagnostics and the assignments after it. */
  lemma {:induction false} Event41(i: string, j: string, k: string, l: string, m: string, n: string, o: string, p: string, q: string, r: string, tr: Tree, fs: seq<Fact>)
    requires |tr.scopes| == 32
    requires Parent(tr, 0) == None
    requires Parent(tr, 3) == Some(0)
    requires Parent(tr, 4) == Some(3)
    requires Parent(tr, 20) == Some(4)
    requires Parent(tr, 21) == Some(20)
    requires Parent(tr, 22) == Some(21)
    requires LocalsOf(tr, 22) == [Local(o, Pos(25, 42))]
    requires LocalsOf(tr, 21) == []
    requires LocalsOf(tr, 20) == [Local(i, Pos(24, 18))]
    requires LocalsOf(tr, 4) == []
    requires LocalsOf(tr, 3) == []
    requires LocalsOf(tr, 0) == []
    requires i != o
    ensures EventDiags(tr, Declared(22, o, Pos(25, 42), Initialized, [5]), fs) == []
    ensures Step(tr, Declared(22, o, Pos(25, 42), Initialized, [5]), fs) == fs + [Fact(22, o, [5])]
  {
    assert Lookup(tr, 0, o) == None;
    assert Lookup(tr, 3, o) == None;
    assert Lookup(tr, 4, o) == None;
    assert Lookup(tr, 20, o) == None;
    assert Lookup(tr, 21, o) == None;
  }

  /** Event 42: its diagnostics and the assignments after it. */
  lemma {:induction false} Event42(i: string, j: string, k: string, l: string, m: string, n: string, o: string, p: string, q: string, r: string, tr: Tree, fs: seq<Fact>)
    ensures EventDiags(tr, OutAssigned(22, [], [5]), fs) == []
    ensures Step(tr, OutAssigned(22, [], [5]), fs) == fs
  {
    assert OutFacts(22, [], [5]) == [];
    FactsNil(fs);
  }

  /** Event 43: its diagnostics and the assignments after it. */
  lemma {:induction false} Event43(i: string, j: string, k: string, l: string, m: string, n: string, o: string, p: string, q: string, r: string, tr: Tree, fs: seq<Fact>)
    requires |tr.scopes| == 32
    requires Parent(tr, 20) == Some(4)
    requires Parent(tr, 21) == Some(20)
    requires LocalsOf(tr, 21) == []
    requires LocalsOf(tr, 20) == [Local(i, Pos(24, 18))]
    requires Assigned(fs, 20, i, [5])
    ensures EventDiags(tr, Referenced(21, i, Pos(24, 32), false, false, [5]), fs) == []
    ensures Step(tr, Referenced(21, i, Pos(24, 32), false, false, [5]), fs) == fs
  {
    assert Local(i, Pos(24, 18)) in LocalsOf(tr, 20);
    assert Lookup(tr, 20, i) == Some(20);
    assert Lookup(tr, 21, i) == Some(20);
  }

  /** Event 44: its diagnostics and the assignments after it. */
  lemma {:induction false} Event44(i: string, j: string, k: string, l: string, m: string, n: string, o: string, p: string, q: string, r: string, tr: Tree, fs: seq<Fact>)
    requires |tr.scopes| == 32
    requires Parent(tr, 0) == None
    requires Parent(tr, 3) == Some(0)
    requires Parent(tr, 4) == Some(3)
    requires Parent(tr, 23) == Some(4)
    requires LocalsOf(tr, 23) == [Local(i, Pos(27, 18))]
    requires LocalsOf(tr, 4) == []
    requires LocalsOf(tr, 3) == []
    requires LocalsOf(tr, 0) == []
    ensures EventDiags(tr, Declared(23, i, Pos(27, 18), Initialized, []), fs) == []
    ensures Step(tr, Declared(23, i, Pos(27, 18), Initialized, []), fs) == fs + [Fact(23, i, [])]
  {
    assert Lookup(tr, 0, i) == None;
    assert Lookup(tr, 3, i) == None;
    assert Lookup(tr, 4, i) == None;
  }

  /** Event 45: its diagnostics and the assignments after it. */
  lemma {:induction false} Event45(i: string, j: string, k: string, l: string, m: string, n: string, o: string, p: string, q: string, r: string, tr: Tree, fs: seq<Fact>)
    requires |tr.scopes| == 32
    requires Parent(tr, 23) == Some(4)
    requires Parent(tr, 24) == Some(23)
    requires LocalsOf(tr, 24) == []
    requires LocalsOf(tr, 23) == [Local(i, Pos(27, 18))]
    requires Assigned(fs, 23, i, [])
    ensures EventDiags(tr, Referenced(24, i, Pos(27, 25), false, false, []), fs) == []
    ensures Step(tr, Referenced(24, i, Pos(27, 25), false, false, []), fs) == fs
  {
    assert Local(i, Pos(27, 18)) in LocalsOf(tr, 23);
    assert Lookup(tr, 23, i) == Some(23);
    assert Lookup(tr, 24, i) == Some(23);
  }

  /** Event 46: its diagnostics and the assignments after it. */
  lemma {:induction false} Event46(i: string, j: string, k: string, l: string, m: string, n: string, o: string, p: string, q: string, r: string, tr: Tree, fs: seq<Fact>)
    requires |tr.scopes| == 32
    requires Parent(tr, 0) == None
    requires Parent(tr, 3) == Some(0)
    requires Parent(tr, 4) == Some(3)
    requires Parent(tr, 23) == Some(4)
    requires Parent(tr, 24) == Some(23)
    requires Parent(tr, 25) == Some(24)
    requires LocalsOf(tr, 25) == [Local(p, Pos(28, 42))]
    requires LocalsOf(tr, 24) == []
    requires LocalsOf(tr, 23) == [Local(i, Pos(27, 18))]
    requires LocalsOf(tr, 4) == []
    requires LocalsOf(tr, 3) == []
    requires LocalsOf(tr, 0) == []
    requires i != p
    ensures EventDiags(tr, Declared(25, p, Pos(28, 42), Initialized, [6]), fs) == []
    ensures Step(tr, Declared(25, p, Pos(28, 42), Initialized, [6]), fs) == fs + [Fact(25, p, [6])]
  {
    assert Lookup(tr, 0, p) == None;
    assert Lookup(tr, 3, p) == None;
    assert Lookup(tr, 4, p) == None;
    assert Lookup(tr, 23, p) == None;
    assert Lookup(tr, 24, p) == None;
  }

  /** Event 47: its diagnostics and the assignments after it. */
  lemma {:induction false} Event47(i: string, j: string, k: string, l: string, m: string, n: string, o: string, p: string, q: string, r: string, tr: Tree, fs: seq<Fact>)
    ensures EventDiags(tr, OutAssigned(25, [], [6]), fs) == []
    ensures Step(tr, OutAssigned(25, [], [6]), fs) == fs
  {
    assert OutFacts(25, [], [6]) == [];
    FactsNil(fs);
  }

  /** Event 48: its diagnostics and the assignments after it. */
  lemma {:induction false} Event48(i: string, j: string, k: string, l: string, m: string, n: string, o: string, p: string, q: string, r: string, tr: Tree, fs: seq<Fact>)
    requires |tr.scopes| == 32
    requires Parent(tr, 23) == Some(4)
    requires Parent(tr, 24) == Some(23)
    requires LocalsOf(tr, 24) == []
    requires LocalsOf(tr, 23) == [Local(i, Pos(27, 18))]
    ensures EventDiags(tr, Referenced(24, i, Pos(27, 32), true, false, [6]), fs) == []
    ensures Step(tr, Referenced(24, i, Pos(27, 32), true, false, [6]), fs) == fs + [Fact(23, i, [6])]
  {
    assert Local(i, Pos(27, 18)) in LocalsOf(tr, 23);
    assert Lookup(tr, 23, i) == Some(23);
    assert Lookup(tr, 24, i) == Some(23);
  }

  /** Event 49: its diagnostics and the assignments after it. */
  lemma {:induction false} Event49(i: string, j: string, k: string, l: string, m: string, n: string, o: string, p: string, q: string, r: string, tr: Tree, fs: seq<Fact>)
    requires |tr.scopes| == 32
    requires Parent(tr, 0) == None
    requires Parent(tr, 3) == Some(0)
    requires Parent(tr, 4) == Some(3)
    requires Parent(tr, 23) == Some(4)
    requires Parent(tr, 24) == Some(23)
    requires LocalsOf(tr, 24) == []
    requires LocalsOf(tr, 23) == [Local(i, Pos(27, 18))]
    requires LocalsOf(tr, 4) == []
    requires LocalsOf(tr, 3) == []
    requires LocalsOf(tr, 0) == []
    requires i != p
    ensures EventDiags(tr, Referenced(24, p, Pos(27, 36), false, false, [6]), fs) == [Diag(NotInContext, p, Pos(27, 36))]
    ensures Step(tr, Referenced(24, p, Pos(27, 36), false, false, [6]), fs) == fs
  {
    assert Lookup(tr, 0, p) == None;
    assert Lookup(tr, 3, p) == None;
    assert Lookup(tr, 4, p) == None;
    assert Lookup(tr, 23, p) == None;
    assert Lookup(tr, 24, p) == None;
  }

  /** Event 50: its diagnostics and the assignments after it. */
  lemma {:induction false} Event50(i: string, j: string, k: string, l: string, m: string, n: string, o: string, p: string, q: string, r: string, tr: Tree, fs: seq<Fact>)
    requires |tr.scopes| == 32
    requires Parent(tr, 0) == None
    requires Parent(tr, 3) == Some(0)
    requires Parent(tr, 4) == Some(3)
    requires Parent(tr, 26) == Some(4)
    requires LocalsOf(tr, 26) == [Local(i, Pos(30, 18))]
    requires LocalsOf(tr, 4) == []
    requires LocalsOf(tr, 3) == []
    requires LocalsOf(tr, 0) == []
    ensures EventDiags(tr, Declared(26, i, Pos(30, 18), Initialized, []), fs) == []
    ensures Step(tr, Declared(26, i, Pos(30, 18), Initialized, []), fs) == fs + [Fact(26, i, [])]
  {
    assert Lookup(tr, 0, i) == None;
    assert Lookup(tr, 3, i) == None;
    assert Lookup(tr, 4, i) == None;
  }

  /** Event 51: its diagnostics and the assignments after it. */
  lemma {:induction false} Event51(i: string, j: string, k: string, l: string, m: string, n: string, o: string, p: string, q: string, r: string, tr: Tree, fs: seq<Fact>)
    requires |tr.scopes| == 32
    requires Parent(tr, 26) == Some(4)
    requires Parent(tr, 27) == Some(26)
    requires LocalsOf(tr, 27) == []
    requires LocalsOf(tr, 26) == [Local(i, Pos(30, 18))]
    requires Assigned(fs, 26, i, [])
    ensures EventDiags(tr, Referenced(27, i, Pos(30, 25), false, false, []), fs) == []
    ensures Step(tr, Referenced(27, i, Pos(30, 25), false, false, []), fs) == fs
  {
    assert Local(i, Pos(30, 18)) in LocalsOf(tr, 26);
    assert Lookup(tr, 26, i) == Some(26);
    assert Lookup(tr, 27, i) == Some(26);
  }

  /** Event 52: its diagnostics and the assignments after it. */
  lemma {:induction false} Event52(i: string, j: string, k: string, l: string, m: string, n: string, o: string, p: string, q: string, r: string, tr: Tree, fs: seq<Fact>)
    requires |tr.scopes| == 32
    requires Parent(tr, 0) == None
    requires Parent(tr, 3) == Some(0)
    requires Parent(tr, 4) == Some(3)
    requires Parent(tr, 26) == Some(4)
    requires Parent(tr, 27) == Some(26)
    requires LocalsOf(tr, 27) == []
    requires LocalsOf(tr, 26) == [Local(i, Pos(30, 18))]
    requires LocalsOf(tr, 4) == []
    requires LocalsOf(tr, 3) == []
    requires LocalsOf(tr, 0) == []
    requires i != q
    ensures EventDiags(tr, Referenced(27, q, Pos(30, 29), false, false, []), fs) == [Diag(NotInContext, q, Pos(30, 29))]
    ensures Step(tr, Referenced(27, q, Pos(30, 29), false, false, []), fs) == fs
  {
    assert Lookup(tr, 0, q) == None;
    assert Lookup(tr, 3, q) == None;
    assert Lookup(tr, 4, q) == None;
    assert Lookup(tr, 26, q) == None;
    assert Lookup(tr, 27, q) == None;
  }

  /** Event 53: its diagnostics and the assignments after it. */
  lemma {:induction false} Event53(i: string, j: string, k: string, l: string, m: string, n: string, o: string, p: string, q: string, r: string, tr: Tree, fs: seq<Fact>)
    requires |tr.scopes| == 32
    requires Parent(tr, 0) == None
    requires Parent(tr, 3) == Some(0)
    requires Parent(tr, 4) == Some(3)
    requires Parent(tr, 26) == Some(4)
    requires Parent(tr, 27) == Some(26)
    requires Parent(tr, 28) == Some(27)
    requires LocalsOf(tr, 28) == [Local(q, Pos(32, 43))]
    requires LocalsOf(tr, 27) == []
    requires LocalsOf(tr, 26) == [Local(i, Pos(30, 18))]
    requires LocalsOf(tr, 4) == []
    requires LocalsOf(tr, 3) == []
    requires LocalsOf(tr, 0) == []
    requires i != q
    ensures EventDiags(tr, Declared(28, q, Pos(32, 43), Initialized, [7]), fs) == []
    ensures Step(tr, Declared(28, q, Pos(32, 43), Initialized, [7]), fs) == fs + [Fact(28, q, [7])]
  {
    assert Lookup(tr, 0, q) == None;
    assert Lookup(tr, 3, q) == None;
    assert Lookup(tr, 4, q) == None;
    assert Lookup(tr, 26, q) == None;
    assert Lookup(tr, 27, q) == None;
  }

  /** Event 54: its diagnostics and the assignments after it. */
  lemma {:induction false} Event54(i: string, j: string, k: string, l: string, m: string, n: string, o: string, p: string, q: string, r: string, tr: Tree, fs: seq<Fact>)
    requires |tr.scopes| == 32
    requires Parent(tr, 28) == Some(27)
    requires LocalsOf(tr, 28) == [Local(q, Pos(32, 43))]
    requires Assigned(fs, 28, q, [7])
    ensures EventDiags(tr, Referenced(28, q, Pos(32, 52), false, false, [7]), fs) == []
    ensures Step(tr, Referenced(28, q, Pos(32, 52), false, false, [7]), fs) == fs
  {
    assert Local(q, Pos(32, 43)) in LocalsOf(tr, 28);
    assert Lookup(tr, 28, q) == Some(28);
  }

  /** Event 55: its diagnostics and the assignments after it. */
  lemma {:induction false} Event55(i: string, j: string, k: string, l: string, m: string, n: string, o: string, p: string, q: string, r: string, tr: Tree, fs: seq<Fact>)
    ensures EventDiags(tr, OutAssigned(28, [], [7]), fs) == []
    ensures Step(tr, OutAssigned(28, [], [7]), fs) == fs
  {
    assert OutFacts(28, [], [7]) == [];
    FactsNil(fs);
  }

  /** Event 56: its diagnostics and the assignments after it. */
  lemma {:induction false} Event56(i: string, j: string, k: string, l: string, m: string, n: string, o: string, p: string, q: string, r: string, tr: Tree, fs: seq<Fact>)
    requires |tr.scopes| == 32
    requires Parent(tr, 26) == Some(4)
    requires Parent(tr, 27) == Some(26)
    requires LocalsOf(tr, 27) == []
    requires LocalsOf(tr, 26) == [Local(i, Pos(30, 18))]
    requires Assigned(fs, 26, i, [7])
    ensures EventDiags(tr, Referenced(27, i, Pos(30, 32), false, false, [7]), fs) == []
    ensures Step(tr, Referenced(27, i, Pos(30, 32), false, false, [7]), fs) == fs
  {
    assert Local(i, Pos(30, 18)) in LocalsOf(tr, 26);
    assert Lookup(tr, 26, i) == Some(26);
    assert Lookup(tr, 27, i) == Some(26);
  }

  /** Event 57: its diagnostics and the assignments after it. */
  lemma {:induction false} Event57(i: string, j: string, k: string, l: string, m: string, n: string, o: string, p: string, q: string, r: string, tr: Tree, fs: seq<Fact>)
    requires |tr.scopes| == 32
    requires Parent(tr, 0) == None
    requires Parent(tr, 3) == Some(0)
    requires Parent(tr, 4) == Some(3)
    requires Parent(tr, 29) == Some(4)
    requires LocalsOf(tr, 29) == [Local(i, Pos(35, 18))]
    requires LocalsOf(tr, 4) == []
    requires LocalsOf(tr, 3) == []
    requires LocalsOf(tr, 0) == []
    ensures EventDiags(tr, Declared(29, i, Pos(35, 18), Initialized, []), fs) == []
    ensures Step(tr, Declared(29, i, Pos(35, 18), Initialized, []), fs) == fs + [Fact(29, i, [])]
  {
    assert Lookup(tr, 0, i) == None;
    assert Lookup(tr, 3, i) == None;
    assert Lookup(tr, 4, i) == None;
  }

  /** Event 58: its diagnostics and the assignments after it. */
  lemma {:induction false} Event58(i: string, j: string, k: string, l: string, m: string, n: string, o: string, p: string, q: string, r: string, tr: Tree, fs: seq<Fact>)
    requires |tr.scopes| == 32
    requires Parent(tr, 29) == Some(4)
    requires Parent(tr, 30) == Some(29)
    requires LocalsOf(tr, 30) == []
    requires LocalsOf(tr, 29) == [Local(i, Pos(35, 18))]
    requires Assigned(fs, 29, i, [])
    ensures EventDiags(tr, Referenced(30, i, Pos(35, 25), false, false, []), fs) == []
    ensures Step(tr, Referenced(30, i, Pos(35, 25), false, false, []), fs) == fs
  {
    assert Local(i, Pos(35, 18)) in LocalsOf(tr, 29);
    assert Lookup(tr, 29, i) == Some(29);
    assert Lookup(tr, 30, i) == Some(29);
  }

  /** Event 59: its diagnostics and the assignments after it. */
  lemma {:induction false} Event59(i: string, j: string, k: string, l: string, m: string, n: string, o: string, p: string, q: string, r: string, tr: Tree, fs: seq<Fact>)
    requires |tr.scopes| == 32
    requires Parent(tr, 0) == None
    requires Parent(tr, 3) == Some(0)
    requires Parent(tr, 4) == Some(3)
    requires Parent(tr, 29) == Some(4)
    requires Parent(tr, 30) == Some(29)
    requires Parent(tr, 31) == Some(30)
    requires LocalsOf(tr, 31) == [Local(r, Pos(37, 42))]
    requires LocalsOf(tr, 30) == []
    requires LocalsOf(tr, 29) == [Local(i, Pos(35, 18))]
    requires LocalsOf(tr, 4) == []
    requires LocalsOf(tr, 3) == []
    requires LocalsOf(tr, 0) == []
    requires i != r
    ensures EventDiags(tr, Declared(31, r, Pos(37, 42), Initialized, [8]), fs) == []
    ensures Step(tr, Declared(31, r, Pos(37, 42), Initialized, [8]), fs) == fs + [Fact(31, r, [8])]
  {
    assert Lookup(tr, 0, r) == None;
    assert Lookup(tr, 3, r) == None;
    assert Lookup(tr, 4, r) == None;
    assert Lookup(tr, 29, r) == None;
    assert Lookup(tr, 30, r) == None;
  }

  /** Event 60: its diagnostics and the assignments after it. */
  lemma {:induction false} Event60(i: string, j: string, k: string, l: string, m: string, n: string, o: string, p: string, q: string, r: string, tr: Tree, fs: seq<Fact>)
    ensures EventDiags(tr, OutAssigned(31, [], [8]), fs) == []
    ensures Step(tr, OutAssigned(31, [], [8]), fs) == fs
  {
    assert OutFacts(31, [], [8]) == [];
    FactsNil(fs);
  }

  /** Event 61: its diagnostics and the assignments after it. */
  lemma {:induction false} Event61(i: string, j: string, k: string, l: string, m: string, n: string, o: string, p: string, q: string, r: string, tr: Tree, fs: seq<Fact>)
    requires |tr.scopes| == 32
    requires Parent(tr, 29) == Some(4)
    requires Parent(tr, 30) == Some(29)
    requires LocalsOf(tr, 30) == []
    requires LocalsOf(tr, 29) == [Local(i, Pos(35, 18))]
    ensures EventDiags(tr, Referenced(30, i, Pos(35, 32), true, false, [8]), fs) == []
    ensures Step(tr, Referenced(30, i, Pos(35, 32), true, false, [8]), fs) == fs + [Fact(29, i, [8])]
  {
    assert Local(i, Pos(35, 18)) in LocalsOf(tr, 29);
    assert Lookup(tr, 29, i) == Some(29);
    assert Lookup(tr, 30, i) == Some(29);
  }

  /** Event 62: its diagnostics and the assignments after it. */
  lemma {:induction false} Event62(i: string, j: string, k: string, l: string, m: string, n: string, o: string, p: string, q: string, r: string, tr: Tree, fs: seq<Fact>)
    requires |tr.scopes| == 32
    requires Parent(tr, 0) == None
    requires Parent(tr, 3) == Some(0)
    requires Parent(tr, 4) == Some(3)
    requires Parent(tr, 29) == Some(4)
    requires Parent(tr, 30) == Some(29)
    requires LocalsOf(tr, 30) == []
    requires LocalsOf(tr, 29) == [Local(i, Pos(35, 18))]
    requires LocalsOf(tr, 4) == []
    requires LocalsOf(tr, 3) == []
    requires LocalsOf(tr, 0) == []
    requires i != r
    ensures EventDiags(tr, Referenced(30, r, Pos(35, 36), false, false, [8]), fs) == [Diag(NotInContext, r, Pos(35, 36))]
    ensures Step(tr, Referenced(30, r, Pos(35, 36), false, false, [8]), fs) == fs
  {
    assert Lookup(tr, 0, r) == None;
    assert Lookup(tr, 3, r) == None;
    assert Lookup(tr, 4, r) == None;
    assert Lookup(tr, 29, r) == None;
    assert Lookup(tr, 30, r) == None;
  }

  /** What a read of j in scope 8 finds assigned before event 8. */
  lemma {:induction false} Read0(i: string, j: string, k: string, l: string, m: string, n: string, o: string, p: string, q: string, r: string)
    ensures !Assigned(Known0(i, j, k, l, m, n, o, p, q, r), 8, j, [])
  {
    Assigned0(i, j, k, l, m, n, o, p, q, r, [], 8, j, []);
    assert !Assigned([], 8, j, []);
  }

  /** What a read of i in scope 8 finds assigned before event 8. */
  lemma {:induction false} Read1(i: string, j: string, k: string, l: string, m: string, n: string, o: string, p: string, q: string, r: string)
    ensures !Assigned(Known0(i, j, k, l, m, n, o, p, q, r), 8, i, [])
  {
    Assigned0(i, j, k, l, m, n, o, p, q, r, [], 8, i, []);
    assert !Assigned([], 8, i, []);
  }

  /** What a read of j in scope 8 finds assigned before event 8. */
  lemma {:induction false} Read2(i: string, j: string, k: string, l: string, m: string, n: string, o: string, p: string, q: string, r: string)
    ensures !Assigned(Known0(i, j, k, l, m, n, o, p, q, r), 8, j, [1])
  {
    Assigned0(i, j, k, l, m, n, o, p, q, r, [], 8, j, [1]);
    assert !Assigned([], 8, j, [1]);
  }

  /** What a read of i in scope 8 finds assigned before event 8. */
  lemma {:induction false} Read3(i: string, j: string, k: string, l: string, m: string, n: string, o: string, p: string, q: string, r: string)
    ensures !Assigned(Known0(i, j, k, l, m, n, o, p, q, r), 8, i, [1])
  {
    Assigned0(i, j, k, l, m, n, o, p, q, r, [], 8, i, [1]);
    assert !Assigned([], 8, i, [1]);
  }

  /** What a read of i in scope 8 finds assigned before event 16. */
  lemma {:induction false} Read4(i: string, j: string, k: string, l: string, m: string, n: string, o: string, p: string, q: string, r: string)
    ensures Assigned(Known1(i, j, k, l, m, n, o, p, q, r), 8, i, [1])
  {
    Assigned0(i, j, k, l, m, n, o, p, q, r, [], 8, i, [1]);
    Assigned1(i, j, k, l, m, n, o, p, q, r, Known0(i, j, k, l, m, n, o, p, q, r), 8, i, [1]);
    assert !Assigned([], 8, i, [1]);
  }

  /** What a read of i in scope 11 finds assigned before event 16. */
  lemma {:induction false} Read5(i: string, j: string, k: string, l: string, m: string, n: string, o: string, p: string, q: string, r: string)
    ensures !Assigned(Known1(i, j, k, l, m, n, o, p, q, r), 11, i, [])
  {
    Assigned0(i, j, k, l, m, n, o, p, q, r, [], 11, i, []);
    Assigned1(i, j, k, l, m, n, o, p, q, r, Known0(i, j, k, l, m, n, o, p, q, r), 11, i, []);
    assert !Assigned([], 11, i, []);
  }

  /** What a read of i in scope 11 finds assigned before event 24. */
  lemma {:induction false} Read6(i: string, j: string, k: string, l: string, m: string, n: string, o: string, p: string, q: string, r: string)
    ensures Assigned(Known2(i, j, k, l, m, n, o, p, q, r), 11, i, [2])
  {
    Assigned0(i, j, k, l, m, n, o, p, q, r, [], 11, i, [2]);
    Assigned1(i, j, k, l, m, n, o, p, q, r, Known0(i, j, k, l, m, n, o, p, q, r), 11, i, [2]);
    Assigned2(i, j, k, l, m, n, o, p, q, r, Known1(i, j, k, l, m, n, o, p, q, r), 11, i, [2]);
    assert !Assigned([], 11, i, [2]);
  }

  /** What a read of i in scope 14 finds assigned before event 24. */
  lemma {:induction false} Read7(i: string, j: string, k: string, l: string, m: string, n: string, o: string, p: string, q: string, r: string)
    ensures !Assigned(Known2(i, j, k, l, m, n, o, p, q, r), 14, i, [])
  {
    Assigned0(i, j, k, l, m, n, o, p, q, r, [], 14, i, []);
    Assigned1(i, j, k, l, m, n, o, p, q, r, Known0(i, j, k, l, m, n, o, p, q, r), 14, i, []);
    Assigned2(i, j, k, l, m, n, o, p, q, r, Known1(i, j, k, l, m, n, o, p, q, r), 14, i, []);
    assert !Assigned([], 14, i, []);
  }

  /** What a read of m in scope 15 finds assigned before event 24. */
  lemma {:induction false} Read8(i: string, j: string, k: string, l: string, m: string, n: string, o: string, p: string, q: string, r: string)
    ensures !Assigned(Known2(i, j, k, l, m, n, o, p, q, r), 15, m, [3])
  {
    Assigned0(i, j, k, l, m, n, o, p, q, r, [], 15, m, [3]);
    Assigned1(i, j, k, l, m, n, o, p, q, r, Known0(i, j, k, l, m, n, o, p, q, r), 15, m, [3]);
    Assigned2(i, j, k, l, m, n, o, p, q, r, Known1(i, j, k, l, m, n, o, p, q, r), 15, m, [3]);
    assert !Assigned([], 15, m, [3]);
  }

  /** What a read of i in scope 17 finds assigned before event 32. */
  lemma {:induction false} Read9(i: string, j: string, k: string, l: string, m: string, n: string, o: string, p: string, q: string, r: string)
    ensures Assigned(Known3(i, j, k, l, m, n, o, p, q, r), 17, i, [])
  {
    Assigned0(i, j, k, l, m, n, o, p, q, r, [], 17, i, []);
    Assigned1(i, j, k, l, m, n, o, p, q, r, Known0(i, j, k, l, m, n, o, p, q, r), 17, i, []);
    Assigned2(i, j, k, l, m, n, o, p, q, r, Known1(i, j, k, l, m, n, o, p, q, r), 17, i, []);
    Assigned3(i, j, k, l, m, n, o, p, q, r, Known2(i, j, k, l, m, n, o, p, q, r), 17, i, []);
    assert !Assigned([], 17, i, []);
  }

  /** What a read of n in scope 19 finds assigned before event 32. */
  lemma {:induction false} Read10(i: string, j: string, k: string, l: string, m: string, n: string, o: string, p: string, q: string, r: string)
    ensures !Assigned(Known3(i, j, k, l, m, n, o, p, q, r), 19, n, [4])
  {
    Assigned0(i, j, k, l, m, n, o, p, q, r, [], 19, n, [4]);
    Assigned1(i, j, k, l, m, n, o, p, q, r, Known0(i, j, k, l, m, n, o, p, q, r), 19, n, [4]);
    Assigned2(i, j, k, l, m, n, o, p, q, r, Known1(i, j, k, l, m, n, o, p, q, r), 19, n, [4]);
    Assigned3(i, j, k, l, m, n, o, p, q, r, Known2(i, j, k, l, m, n, o, p, q, r), 19, n, [4]);
    assert !Assigned([], 19, n, [4]);
  }

  /** What a read of i in scope 17 finds assigned before event 32. */
  lemma {:induction false} Read11(i: string, j: string, k: string, l: string, m: string, n: string, o: string, p: string, q: string, r: string)
    ensures Assigned(Known3(i, j, k, l, m, n, o, p, q, r), 17, i, [4])
  {
    Assigned0(i, j, k, l, m, n, o, p, q, r, [], 17, i, [4]);
    Assigned1(i, j, k, l, m, n, o, p, q, r, Known0(i, j, k, l, m, n, o, p, q, r), 17, i, [4]);
    Assigned2(i, j, k, l, m, n, o, p, q, r, Known1(i, j, k, l, m, n, o, p, q, r), 17, i, [4]);
    Assigned3(i, j, k, l, m, n, o, p, q, r, Known2(i, j, k, l, m, n, o, p, q, r), 17, i, [4]);
    assert !Assigned([], 17, i, [4]);
  }

  /** What a read of i in scope 20 finds assigned before event 32. */
  lemma {:induction false} Read12(i: string, j: string, k: string, l: string, m: string, n: string, o: string, p: string, q: string, r: string)
    ensures !Assigned(Known3(i, j, k, l, m, n, o, p, q, r), 20, i, [])
  {
    Assigned0(i, j, k, l, m, n, o, p, q, r, [], 20, i, []);
    Assigned1(i, j, k, l, m, n, o, p, q, r, Known0(i, j, k, l, m, n, o, p, q, r), 20, i, []);
    Assigned2(i, j, k, l, m, n, o, p, q, r, Known1(i, j, k, l, m, n, o, p, q, r), 20, i, []);
    Assigned3(i, j, k, l, m, n, o, p, q, r, Known2(i, j, k, l, m, n, o, p, q, r), 20, i, []);
    assert !Assigned([], 20, i, []);
  }

  /** What a read of i in scope 20 finds assigned before event 40. */
  lemma {:induction false} Read13(i: string, j: string, k: string, l: string, m: string, n: string, o: string, p: string, q: string, r: string)
    ensures Assigned(Known4(i, j, k, l, m, n, o, p, q, r), 20, i, [5])
  {
    Assigned0(i, j, k, l, m, n, o, p, q, r, [], 20, i, [5]);
    Assigned1(i, j, k, l, m, n, o, p, q, r, Known0(i, j, k, l, m, n, o, p, q, r), 20, i, [5]);
    Assigned2(i, j, k, l, m, n, o, p, q, r, Known1(i, j, k, l, m, n, o, p, q, r), 20, i, [5]);
    Assigned3(i, j, k, l, m, n, o, p, q, r, Known2(i, j, k, l, m, n, o, p, q, r), 20, i, [5]);
    Assigned4(i, j, k, l, m, n, o, p, q, r, Known3(i, j, k, l, m, n, o, p, q, r), 20, i, [5]);
    assert !Assigned([], 20, i, [5]);
  }

  /** What a read of i in scope 23 finds assigned before event 40. */
  lemma {:induction false} Read14(i: string, j: string, k: string, l: string, m: string, n: string, o: string, p: string, q: string, r: string)
    ensures !Assigned(Known4(i, j, k, l, m, n, o, p, q, r), 23, i, [])
  {
    Assigned0(i, j, k, l, m, n, o, p, q, r, [], 23, i, []);
    Assigned1(i, j, k, l, m, n, o, p, q, r, Known0(i, j, k, l, m, n, o, p, q, r), 23, i, []);
    Assigned2(i, j, k, l, m, n, o, p, q, r, Known1(i, j, k, l, m, n, o, p, q, r), 23, i, []);
    Assigned3(i, j, k, l, m, n, o, p, q, r, Known2(i, j, k, l, m, n, o, p, q, r), 23, i, []);
    Assigned4(i, j, k, l, m, n, o, p, q, r, Known3(i, j, k, l, m, n, o, p, q, r), 23, i, []);
    assert !Assigned([], 23, i, []);
  }

  /** What a read of i in scope 26 finds assigned before event 48. */
  lemma {:induction false} Read15(i: string, j: string, k: string, l: string, m: string, n: string, o: string, p: string, q: string, r: string)
    ensures !Assigned(Known5(i, j, k, l, m, n, o, p, q, r), 26, i, [])
  {
    Assigned0(i, j, k, l, m, n, o, p, q, r, [], 26, i, []);
    Assigned1(i, j, k, l, m, n, o, p, q, r, Known0(i, j, k, l, m, n, o, p, q, r), 26, i, []);
    Assigned2(i, j, k, l, m, n, o, p, q, r, Known1(i, j, k, l, m, n, o, p, q, r), 26, i, []);
    Assigned3(i, j, k, l, m, n, o, p, q, r, Known2(i, j, k, l, m, n, o, p, q, r), 26, i, []);
    Assigned4(i, j, k, l, m, n, o, p, q, r, Known3(i, j, k, l, m, n, o, p, q, r), 26, i, []);
    Assigned5(i, j, k, l, m, n, o, p, q, r, Known4(i, j, k, l, m, n, o, p, q, r), 26, i, []);
    assert !Assigned([], 26, i, []);
  }

  /** What a read of q in scope 28 finds assigned before event 48. */
  lemma {:induction false} Read16(i: string, j: string, k: string, l: string, m: string, n: string, o: string, p: string, q: string, r: string)
    ensures !Assigned(Known5(i, j, k, l, m, n, o, p, q, r), 28, q, [7])
  {
    Assigned0(i, j, k, l, m, n, o, p, q, r, [], 28, q, [7]);
    Assigned1(i, j, k, l, m, n, o, p, q, r, Known0(i, j, k, l, m, n, o, p, q, r), 28, q, [7]);
    Assigned2(i, j, k, l, m, n, o, p, q, r, Known1(i, j, k, l, m, n, o, p, q, r), 28, q, [7]);
    Assigned3(i, j, k, l, m, n, o, p, q, r, Known2(i, j, k, l, m, n, o, p, q, r), 28, q, [7]);
    Assigned4(i, j, k, l, m, n, o, p, q, r, Known3(i, j, k, l, m, n, o, p, q, r), 28, q, [7]);
    Assigned5(i, j, k, l, m, n, o, p, q, r, Known4(i, j, k, l, m, n, o, p, q, r), 28, q, [7]);
    assert !Assigned([], 28, q, [7]);
  }

  /** What a read of i in scope 26 finds assigned before event 56. */
  lemma {:induction false} Read17(i: string, j: string, k: string, l: string, m: string, n: string, o: string, p: string, q: string, r: string)
    ensures Assigned(Known6(i, j, k, l, m, n, o, p, q, r), 26, i, [7])
  {
    Assigned0(i, j, k, l, m, n, o, p, q, r, [], 26, i, [7]);
    Assigned1(i, j, k, l, m, n, o, p, q, r, Known0(i, j, k, l, m, n, o, p, q, r), 26, i, [7]);
    Assigned2(i, j, k, l, m, n, o, p, q, r, Known1(i, j, k, l, m, n, o, p, q, r), 26, i, [7]);
    Assigned3(i, j, k, l, m, n, o, p, q, r, Known2(i, j, k, l, m, n, o, p, q, r), 26, i, [7]);
    Assigned4(i, j, k, l, m, n, o, p, q, r, Known3(i, j, k, l, m, n, o, p, q, r), 26, i, [7]);
    Assigned5(i, j, k, l, m, n, o, p, q, r, Known4(i, j, k, l, m, n, o, p, q, r), 26, i, [7]);
    Assigned6(i, j, k, l, m, n, o, p, q, r, Known5(i, j, k, l, m, n, o, p, q, r), 26, i, [7]);
    assert !Assigned([], 26, i, [7]);
  }

  /** What a read of i in scope 29 finds assigned before event 56. */
  lemma {:induction false} Read18(i: string, j: string, k: string, l: string, m: string, n: string, o: string, p: string, q: string, r: string)
    ensures !Assigned(Known6(i, j, k, l, m, n, o, p, q, r), 29, i, [])
  {
    Assigned0(i, j, k, l, m, n, o, p, q, r, [], 29, i, []);
    Assigned1(i, j, k, l, m, n, o, p, q, r, Known0(i, j, k, l, m, n, o, p, q, r), 29, i, []);
    Assigned2(i, j, k, l, m, n, o, p, q, r, Known1(i, j, k, l, m, n, o, p, q, r), 29, i, []);
    Assigned3(i, j, k, l, m, n, o, p, q, r, Known2(i, j, k, l, m, n, o, p, q, r), 29, i, []);
    Assigned4(i, j, k, l, m, n, o, p, q, r, Known3(i, j, k, l, m, n, o, p, q, r), 29, i, []);
    Assigned5(i, j, k, l, m, n, o, p, q, r, Known4(i, j, k, l, m, n, o, p, q, r), 29, i, []);
    Assigned6(i, j, k, l, m, n, o, p, q, r, Known5(i, j, k, l, m, n, o, p, q, r), 29, i, []);
    assert !Assigned([], 29, i, []);
  }

  /** The parent and the locals of scope 0. */
  lemma {:induction false} Scope0(i: string, j: string, k: string, l: string, m: string, n: string, o: string, p: string, q: string, r: string, tr: Tree)
    requires ScopesAre(tr, Layout())
    requires LocalsFit(i, j, k, l, m, n, o, p, q, r, tr)
    ensures |tr.scopes| == 32
    ensures Parent(tr, 0) == None
    ensures LocalsOf(tr, 0) == []
  {
    assert tr.scopes[0] == Layout()[0];
    Locals0(i, j, k, l, m, n, o, p, q, r);
    assert LocalsOf(tr, 0) == DeclaredBy(i, j, k, l, m, n, o, p, q, r, 8, 0);
  }

  /** The parent and the locals of scope 3. */
  lemma {:induction false} Scope3(i: string, j: string, k: string, l: string, m: string, n: string, o: string, p: string, q: string, r: string, tr: Tree)
    requires ScopesAre(tr, Layout())
    requires LocalsFit(i, j, k, l, m, n, o, p, q, r, tr)
    ensures |tr.scopes| == 32
    ensures Parent(tr, 3) == Some(0)
    ensures LocalsOf(tr, 3) == []
  {
    assert tr.scopes[3] == Layout()[3];
    Locals3(i, j, k, l, m, n, o, p, q, r);
    assert LocalsOf(tr, 3) == DeclaredBy(i, j, k, l, m, n, o, p, q, r, 8, 3);
  }

  /** The parent and the locals of scope 4. */
  lemma {:induction false} Scope4(i: string, j: string, k: string, l: string, m: string, n: string, o: string, p: string, q: string, r: string, tr: Tree)
    requires ScopesAre(tr, Layout())
    requires LocalsFit(i, j, k, l, m, n, o, p, q, r, tr)
    ensures |tr.scopes| == 32
    ensures Parent(tr, 4) == Some(3)
    ensures LocalsOf(tr, 4) == []
  {
    assert tr.scopes[4] == Layout()[4];
    Locals4(i, j, k, l, m, n, o, p, q, r);
    assert LocalsOf(tr, 4) == DeclaredBy(i, j, k, l, m, n, o, p, q, r, 8, 4);
  }

  /** The parent and the locals of scope 5. */
  lemma {:induction false} Scope5(i: string, j: string, k: string, l: string, m: string, n: string, o: string, p: string, q: string, r: string, tr: Tree)
    requires ScopesAre(tr, Layout())
    requires LocalsFit(i, j, k, l, m, n, o, p, q, r, tr)
    ensures |tr.scopes| == 32
    ensures Parent(tr, 5) == Some(4)
    ensures LocalsOf(tr, 5) == [Local(i, Pos(6, 18))]
  {
    assert tr.scopes[5] == Layout()[5];
    Locals5(i, j, k, l, m, n, o, p, q, r);
    assert LocalsOf(tr, 5) == DeclaredBy(i, j, k, l, m, n, o, p, q, r, 8, 5);
  }

  /** The parent and the locals of scope 6. */
  lemma {:induction false} Scope6(i: string, j: string, k: string, l: string, m: string, n: string, o: string, p: string, q: string, r: string, tr: Tree)
    requires ScopesAre(tr, Layout())
    requires LocalsFit(i, j, k, l, m, n, o, p, q, r, tr)
    ensures |tr.scopes| == 32
    ensures Parent(tr, 6) == Some(5)
    ensures LocalsOf(tr, 6) == [Local(j, Pos(6, 41))]
  {
    assert tr.scopes[6] == Layout()[6];
    Locals6(i, j, k, l, m, n, o, p, q, r);
    assert LocalsOf(tr, 6) == DeclaredBy(i, j, k, l, m, n, o, p, q, r, 8, 6);
  }

  /** The parent and the locals of scope 7. */
  lemma {:induction false} Scope7(i: string, j: string, k: string, l: string, m: string, n: string, o: string, p: string, q: string, r: string, tr: Tree)
    requires ScopesAre(tr, Layout())
    requires LocalsFit(i, j, k, l, m, n, o, p, q, r, tr)
    ensures |tr.scopes| == 32
    ensures Parent(tr, 7) == Some(6)
    ensures LocalsOf(tr, 7) == []
  {
    assert tr.scopes[7] == Layout()[7];
    Locals7(i, j, k, l, m, n, o, p, q, r);
    assert LocalsOf(tr, 7) == DeclaredBy(i, j, k, l, m, n, o, p, q, r, 8, 7);
  }

  /** The parent and the locals of scope 8. */
  lemma {:induction false} Scope8(i: string, j: string, k: string, l: string, m: string, n: string, o: string, p: string, q: string, r: string, tr: Tree)
    requires ScopesAre(tr, Layout())
    requires LocalsFit(i, j, k, l, m, n, o, p, q, r, tr)
    ensures |tr.scopes| == 32
    ensures Parent(tr, 8) == Some(4)
    ensures LocalsOf(tr, 8) == [Local(i, Pos(11, 18)), Local(j, Pos(11, 36))]
  {
    assert tr.scopes[8] == Layout()[8];
    Locals8(i, j, k, l, m, n, o, p, q, r);
    assert LocalsOf(tr, 8) == DeclaredBy(i, j, k, l, m, n, o, p, q, r, 8, 8);
  }

  /** The parent and the locals of scope 9. */
  lemma {:induction false} Scope9(i: string, j: string, k: string, l: string, m: string, n: string, o: string, p: string, q: string, r: string, tr: Tree)
    requires ScopesAre(tr, Layout())
    requires LocalsFit(i, j, k, l, m, n, o, p, q, r, tr)
    ensures |tr.scopes| == 32
    ensures Parent(tr, 9) == Some(8)
    ensures LocalsOf(tr, 9) == []
  {
    assert tr.scopes[9] == Layout()[9];
    Locals9(i, j, k, l, m, n, o, p, q, r);
    assert LocalsOf(tr, 9) == DeclaredBy(i, j, k, l, m, n, o, p, q, r, 8, 9);
  }

  /** The parent and the locals of scope 10. */
  lemma {:induction false} Scope10(i: string, j: string, k: string, l: string, m: string, n: string, o: string, p: string, q: string, r: string, tr: Tree)
    requires ScopesAre(tr, Layout())
    requires LocalsFit(i, j, k, l, m, n, o, p, q, r, tr)
    ensures |tr.scopes| == 32
    ensures Parent(tr, 10) == Some(9)
    ensures LocalsOf(tr, 10) == [Local(k, Pos(12, 47))]
  {
    assert tr.scopes[10] == Layout()[10];
    Locals10(i, j, k, l, m, n, o, p, q, r);
    assert LocalsOf(tr, 10) == DeclaredBy(i, j, k, l, m, n, o, p, q, r, 8, 10);
  }

  /** The parent and the locals of scope 11. */
  lemma {:induction false} Scope11(i: string, j: string, k: string, l: string, m: string, n: string, o: string, p: string, q: string, r: string, tr: Tree)
    requires ScopesAre(tr, Layout())
    requires LocalsFit(i, j, k, l, m, n, o, p, q, r, tr)
    ensures |tr.scopes| == 32
    ensures Parent(tr, 11) == Some(4)
    ensures LocalsOf(tr, 11) == [Local(i, Pos(17, 18))]
  {
    assert tr.scopes[11] == Layout()[11];
    Locals11(i, j, k, l, m, n, o, p, q, r);
    assert LocalsOf(tr, 11) == DeclaredBy(i, j, k, l, m, n, o, p, q, r, 8, 11);
  }

  /** The parent and the locals of scope 12. */
  lemma {:induction false} Scope12(i: string, j: string, k: string, l: string, m: string, n: string, o: string, p: string, q: string, r: string, tr: Tree)
    requires ScopesAre(tr, Layout())
    requires LocalsFit(i, j, k, l, m, n, o, p, q, r, tr)
    ensures |tr.scopes| == 32
    ensures Parent(tr, 12) == Some(11)
    ensures LocalsOf(tr, 12) == [Local(l, Pos(17, 34))]
  {
    assert tr.scopes[12] == Layout()[12];
    Locals12(i, j, k, l, m, n, o, p, q, r);
    assert LocalsOf(tr, 12) == DeclaredBy(i, j, k, l, m, n, o, p, q, r, 8, 12);
  }

  /** The parent and the locals of scope 14. */
  lemma {:induction false} Scope14(i: string, j: string, k: string, l: string, m: string, n: string, o: string, p: string, q: string, r: string, tr: Tree)
    requires ScopesAre(tr, Layout())
    requires LocalsFit(i, j, k, l, m, n, o, p, q, r, tr)
    ensures |tr.scopes| == 32
    ensures Parent(tr, 14) == Some(4)
    ensures LocalsOf(tr, 14) == [Local(i, Pos(19, 18))]
  {
    assert tr.scopes[14] == Layout()[14];
    Locals14(i, j, k, l, m, n, o, p, q, r);
    assert LocalsOf(tr, 14) == DeclaredBy(i, j, k, l, m, n, o, p, q, r, 8, 14);
  }

  /** The parent and the locals of scope 15. */
  lemma {:induction false} Scope15(i: string, j: string, k: string, l: string, m: string, n: string, o: string, p: string, q: string, r: string, tr: Tree)
    requires ScopesAre(tr, Layout())
    requires LocalsFit(i, j, k, l, m, n, o, p, q, r, tr)
    ensures |tr.scopes| == 32
    ensures Parent(tr, 15) == Some(14)
    ensures LocalsOf(tr, 15) == [Local(m, Pos(19, 41))]
  {
    assert tr.scopes[15] == Layout()[15];
    Locals15(i, j, k, l, m, n, o, p, q, r);
    assert LocalsOf(tr, 15) == DeclaredBy(i, j, k, l, m, n, o, p, q, r, 8, 15);
  }

  /** The parent and the locals of scope 17. */
  lemma {:induction false} Scope17(i: string, j: string, k: string, l: string, m: string, n: string, o: string, p: string, q: string, r: string, tr: Tree)
    requires ScopesAre(tr, Layout())
    requires LocalsFit(i, j, k, l, m, n, o, p, q, r, tr)
    ensures |tr.scopes| == 32
    ensures Parent(tr, 17) == Some(4)
    ensures LocalsOf(tr, 17) == [Local(i, Pos(21, 18))]
  {
    assert tr.scopes[17] == Layout()[17];
    Locals17(i, j, k, l, m, n, o, p, q, r);
    assert LocalsOf(tr, 17) == DeclaredBy(i, j, k, l, m, n, o, p, q, r, 8, 17);
  }

  /** The parent and the locals of scope 18. */
  lemma {:induction false} Scope18(i: string, j: string, k: string, l: string, m: string, n: string, o: string, p: string, q: string, r: string, tr: Tree)
    requires ScopesAre(tr, Layout())
    requires LocalsFit(i, j, k, l, m, n, o, p, q, r, tr)
    ensures |tr.scopes| == 32
    ensures Parent(tr, 18) == Some(17)
    ensures LocalsOf(tr, 18) == []
  {
    assert tr.scopes[18] == Layout()[18];
    Locals18(i, j, k, l, m, n, o, p, q, r);
    assert LocalsOf(tr, 18) == DeclaredBy(i, j, k, l, m, n, o, p, q, r, 8, 18);
  }

  /** The parent and the locals of scope 19. */
  lemma {:induction false} Scope19(i: string, j: string, k: string, l: string, m: string, n: string, o: string, p: string, q: string, r: string, tr: Tree)
    requires ScopesAre(tr, Layout())
    requires LocalsFit(i, j, k, l, m, n, o, p, q, r, tr)
    ensures |tr.scopes| == 32
    ensures Parent(tr, 19) == Some(18)
    ensures LocalsOf(tr, 19) == [Local(n, Pos(22, 43))]
  {
    assert tr.scopes[19] == Layout()[19];
    Locals19(i, j, k, l, m, n, o, p, q, r);
    assert LocalsOf(tr, 19) == DeclaredBy(i, j, k, l, m, n, o, p, q, r, 8, 19);
  }

  /** The parent and the locals of scope 20. */
  lemma {:induction false} Scope20(i: string, j: string, k: string, l: string, m: string, n: string, o: string, p: string, q: string, r: string, tr: Tree)
    requires ScopesAre(tr, Layout())
    requires LocalsFit(i, j, k, l, m, n, o, p, q, r, tr)
    ensures |tr.scopes| == 32
    ensures Parent(tr, 20) == Some(4)
    ensures LocalsOf(tr, 20) == [Local(i, Pos(24, 18))]
  {
    assert tr.scopes[20] == Layout()[20];
    Locals20(i, j, k, l, m, n, o, p, q, r);
    assert LocalsOf(tr, 20) == DeclaredBy(i, j, k, l, m, n, o, p, q, r, 8, 20);
  }

  /** The parent and the locals of scope 21. */
  lemma {:induction false} Scope21(i: string, j: string, k: string, l: string, m: string, n: string, o: string, p: string, q: string, r: string, tr: Tree)
    requires ScopesAre(tr, Layout())
    requires LocalsFit(i, j, k, l, m, n, o, p, q, r, tr)
    ensures |tr.scopes| == 32
    ensures Parent(tr, 21) == Some(20)
    ensures LocalsOf(tr, 21) == []
  {
    assert tr.scopes[21] == Layout()[21];
    Locals21(i, j, k, l, m, n, o, p, q, r);
    assert LocalsOf(tr, 21) == DeclaredBy(i, j, k, l, m, n, o, p, q, r, 8, 21);
  }

  /** The parent and the locals of scope 22. */
  lemma {:induction false} Scope22(i: string, j: string, k: string, l: string, m: string, n: string, o: string, p: string, q: string, r: string, tr: Tree)
    requires ScopesAre(tr, Layout())
    requires LocalsFit(i, j, k, l, m, n, o, p, q, r, tr)
    ensures |tr.scopes| == 32
    ensures Parent(tr, 22) == Some(21)
    ensures LocalsOf(tr, 22) == [Local(o, Pos(25, 42))]
  {
    assert tr.scopes[22] == Layout()[22];
    Locals22(i, j, k, l, m, n, o, p, q, r);
    assert LocalsOf(tr, 22) == DeclaredBy(i, j, k, l, m, n, o, p, q, r, 8, 22);
  }

  /** The parent and the locals of scope 23. */
  lemma {:induction false} Scope23(i: string, j: string, k: string, l: string, m: string, n: string, o: string, p: string, q: string, r: string, tr: Tree)
    requires ScopesAre(tr, Layout())
    requires LocalsFit(i, j, k, l, m, n, o, p, q, r, tr)
    ensures |tr.scopes| == 32
    ensures Parent(tr, 23) == Some(4)
    ensures LocalsOf(tr, 23) == [Local(i, Pos(27, 18))]
  {
    assert tr.scopes[23] == Layout()[23];
    Locals23(i, j, k, l, m, n, o, p, q, r);
    assert LocalsOf(tr, 23) == DeclaredBy(i, j, k, l, m, n, o, p, q, r, 8, 23);
  }

  /** The parent and the locals of scope 24. */
  lemma {:induction false} Scope24(i: string, j: string, k: string, l: string, m: string, n: string, o: string, p: string, q: string, r: string, tr: Tree)
    requires ScopesAre(tr, Layout())
    requires LocalsFit(i, j, k, l, m, n, o, p, q, r, tr)
    ensures |tr.scopes| == 32
    ensures Parent(tr, 24) == Some(23)
    ensures LocalsOf(tr, 24) == []
  {
    assert tr.scopes[24] == Layout()[24];
    Locals24(i, j, k, l, m, n, o, p, q, r);
    assert LocalsOf(tr, 24) == DeclaredBy(i, j, k, l, m, n, o, p, q, r, 8, 24);
  }

  /** The parent and the locals of scope 25. */
  lemma {:induction false} Scope25(i: string, j: string, k: string, l: string, m: string, n: string, o: string, p: string, q: string, r: string, tr: Tree)
    requires ScopesAre(tr, Layout())
    requires LocalsFit(i, j, k, l, m, n, o, p, q, r, tr)
    ensures |tr.scopes| == 32
    ensures Parent(tr, 25) == Some(24)
    ensures LocalsOf(tr, 25) == [Local(p, Pos(28, 42))]
  {
    assert tr.scopes[25] == Layout()[25];
    Locals25(i, j, k, l, m, n, o, p, q, r);
    assert LocalsOf(tr, 25) == DeclaredBy(i, j, k, l, m, n, o, p, q, r, 8, 25);
  }

  /** The parent and the locals of scope 26. */
  lemma {:induction false} Scope26(i: string, j: string, k: string, l: string, m: string, n: string, o: string, p: string, q: string, r: string, tr: Tree)
    requires ScopesAre(tr, Layout())
    requires LocalsFit(i, j, k, l, m, n, o, p, q, r, tr)
    ensures |tr.scopes| == 32
    ensures Parent(tr, 26) == Some(4)
    ensures LocalsOf(tr, 26) == [Local(i, Pos(30, 18))]
  {
    assert tr.scopes[26] == Layout()[26];
    Locals26(i, j, k, l, m, n, o, p, q, r);
    assert LocalsOf(tr, 26) == DeclaredBy(i, j, k, l, m, n, o, p, q, r, 8, 26);
  }

  /** The parent and the locals of scope 27. */
  lemma {:induction false} Scope27(i: string, j: string, k: string, l: string, m: string, n: string, o: string, p: string, q: string, r: string, tr: Tree)
    requires ScopesAre(tr, Layout())
    requires LocalsFit(i, j, k, l, m, n, o, p, q, r, tr)
    ensures |tr.scopes| == 32
    ensures Parent(tr, 27) == Some(26)
    ensures LocalsOf(tr, 27) == []
  {
    assert tr.scopes[27] == Layout()[27];
    Locals27(i, j, k, l, m, n, o, p, q, r);
    assert LocalsOf(tr, 27) == DeclaredBy(i, j, k, l, m, n, o, p, q, r, 8, 27);
  }

  /** The parent and the locals of scope 28. */
  lemma {:induction false} Scope28(i: string, j: string, k: string, l: string, m: string, n: string, o: string, p: string, q: string, r: string, tr: Tree)
    requires ScopesAre(tr, Layout())
    requires LocalsFit(i, j, k, l, m, n, o, p, q, r, tr)
    ensures |tr.scopes| == 32
    ensures Parent(tr, 28) == Some(27)
    ensures LocalsOf(tr, 28) == [Local(q, Pos(32, 43))]
  {
    assert tr.scopes[28] == Layout()[28];
    Locals28(i, j, k, l, m, n, o, p, q, r);
    assert LocalsOf(tr, 28) == DeclaredBy(i, j, k, l, m, n, o, p, q, r, 8, 28);
  }

  /** The parent and the locals of scope 29. */
  lemma {:induction false} Scope29(i: string, j: string, k: string, l: string, m: string, n: string, o: string, p: string, q: string, r: string, tr: Tree)
    requires ScopesAre(tr, Layout())
    requires LocalsFit(i, j, k, l, m, n, o, p, q, r, tr)
    ensures |tr.scopes| == 32
    ensures Parent(tr, 29) == Some(4)
    ensures LocalsOf(tr, 29) == [Local(i, Pos(35, 18))]
  {
    assert tr.scopes[29] == Layout()[29];
    Locals29(i, j, k, l, m, n, o, p, q, r);
    assert LocalsOf(tr, 29) == DeclaredBy(i, j, k, l, m, n, o, p, q, r, 8, 29);
  }

  /** The parent and the locals of scope 30. */
  lemma {:induction false} Scope30(i: string, j: string, k: string, l: string, m: string, n: string, o: string, p: string, q: string, r: string, tr: Tree)
    requires ScopesAre(tr, Layout())
    requires LocalsFit(i, j, k, l, m, n, o, p, q, r, tr)
    ensures |tr.scopes| == 32
    ensures Parent(tr, 30) == Some(29)
    ensures LocalsOf(tr, 30) == []
  {
    assert tr.scopes[30] == Layout()[30];
    Locals30(i, j, k, l, m, n, o, p, q, r);
    assert LocalsOf(tr, 30) == DeclaredBy(i, j, k, l, m, n, o, p, q, r, 8, 30);
  }

  /** The parent and the locals of scope 31. */
  lemma {:induction false} Scope31(i: string, j: string, k: string, l: string, m: string, n: string, o: string, p: string, q: string, r: string, tr: Tree)
    requires ScopesAre(tr, Layout())
    requires LocalsFit(i, j, k, l, m, n, o, p, q, r, tr)
    ensures |tr.scopes| == 32
    ensures Parent(tr, 31) == Some(30)
    ensures LocalsOf(tr, 31) == [Local(r, Pos(37, 42))]
  {
    assert tr.scopes[31] == Layout()[31];
    Locals31(i, j, k, l, m, n, o, p, q, r);
    assert LocalsOf(tr, 31) == DeclaredBy(i, j, k, l, m, n, o, p, q, r, 8, 31);
  }

  /** The analysis of events 0 to 7, after the events before them. */
  lemma {:induction false} Analysed0(i: string, j: string, k: string, l: string, m: string, n: string, o: string, p: string, q: string, r: string, tr: Tree, evs: seq<Event>, fs: seq<Fact>, rs: seq<Diag>)
    requires |tr.scopes| == 32
    requires Parent(tr, 0) == None
    requires Parent(tr, 3) == Some(0)
    requires Parent(tr, 4) == Some(3)
    requires Parent(tr, 5) == Some(4)
    requires Parent(tr, 6) == Some(5)
    requires Parent(tr, 7) == Some(6)
    requires LocalsOf(tr, 0) == []
    requires LocalsOf(tr, 3) == []
    requires LocalsOf(tr, 4) == []
    requires LocalsOf(tr, 5) == [Local(i, Pos(6, 18))]
    requires LocalsOf(tr, 6) == [Local(j, Pos(6, 41))]
    requires LocalsOf(tr, 7) == []
    requires i != j
    requires Analyse(tr, evs, []) == rs
    requires Replay(tr, evs, []) == fs
    requires !Assigned(fs, 5, i, [])
    requires !Assigned(fs, 6, j, [0])
    requires !Assigned(fs, 5, i, [0])
    ensures Analyse(tr, evs + Chunk0(i, j, k, l, m, n, o, p, q, r), []) == rs + ([] + [] + [] + [Diag(Unassigned, j, Pos(8, 38))] + [] + [] + [] + [] + [])
    ensures Replay(tr, evs + Chunk0(i, j, k, l, m, n, o, p, q, r), []) == fs + [Fact(5, i, [])] + [Fact(5, i, [0])] + [Fact(6, j, [0])]
  {
    assert Analyse(tr, [], fs) == [] && Replay(tr, [], fs) == fs;
    Event0(i, j, k, l, m, n, o, p, q, r, tr, fs);
    AnalyseSnoc(tr, [], Declared(5, i, Pos(6, 18), Initialized, []), fs);
    assert Analyse(tr, [] + [Declared(5, i, Pos(6, 18), Initialized, [])], fs) == [] + [];
    assert Replay(tr, [] + [Declared(5, i, Pos(6, 18), Initialized, [])], fs) == fs + [Fact(5, i, [])];
    AssignedSnoc(fs, Fact(5, i, []), 5, i, []);
    Event1(i, j, k, l, m, n, o, p, q, r, tr, fs + [Fact(5, i, [])]);
    AnalyseSnoc(tr, [] + [Declared(5, i, Pos(6, 18), Initialized, [])], Referenced(6, i, Pos(6, 25), false, false, []), fs);
    assert Analyse(tr, [] + [Declared(5, i, Pos(6, 18), Initialized, [])] + [Referenced(6, i, Pos(6, 25), false, false, [])], fs) == [] + [] + [];
    assert Replay(tr, [] + [Declared(5, i, Pos(6, 18), Initialized, [])] + [Referenced(6, i, Pos(6, 25), false, false, [])], fs) == fs + [Fact(5, i, [])];
    AssignedSnoc(fs, Fact(5, i, []), 6, j, [0]);
    Event2(i, j, k, l, m, n, o, p, q, r, tr, fs + [Fact(5, i, [])]);
    AnalyseSnoc(tr, [] + [Declared(5, i, Pos(6, 18), Initialized, [])] + [Referenced(6, i, Pos(6, 25), false, false, [])], Referenced(7, j, Pos(8, 38), false, false, [0]), fs);
    assert Analyse(tr, [] + [Declared(5, i, Pos(6, 18), Initialized, [])] + [Referenced(6, i, Pos(6, 25), false, false, [])] + [Referenced(7, j, Pos(8, 38), false, false, [0])], fs) == [] + [] + [] + [Diag(Unassigned, j, Pos(8, 38))];
    assert Replay(tr, [] + [Declared(5, i, Pos(6, 18), Initialized, [])] + [Referenced(6, i, Pos(6, 25), false, false, [])] + [Referenced(7, j, Pos(8, 38), false, false, [0])], fs) == fs + [Fact(5, i, [])];
    Event3(i, j, k, l, m, n, o, p, q, r, tr, fs + [Fact(5, i, [])]);
    AnalyseSnoc(tr, [] + [Declared(5, i, Pos(6, 18), Initialized, [])] + [Referenced(6, i, Pos(6, 25), false, false, [])] + [Referenced(7, j, Pos(8, 38), false, false, [0])], OutAssigned(7, [], [0]), fs);
    assert Analyse(tr, [] + [Declared(5, i, Pos(6, 18), Initialized, [])] + [Referenced(6, i, Pos(6, 25), false, false, [])] + [Referenced(7, j, Pos(8, 38), false, false, [0])] + [OutAssigned(7, [], [0])], fs) == [] + [] + [] + [Diag(Unassigned, j, Pos(8, 38))] + [];
    assert Replay(tr, [] + [Declared(5, i, Pos(6, 18), Initialized, [])] + [Referenced(6, i, Pos(6, 25), false, false, [])] + [Referenced(7, j, Pos(8, 38), false, false, [0])] + [OutAssigned(7, [], [0])], fs) == fs + [Fact(5, i, [])];
    Event4(i, j, k, l, m, n, o, p, q, r, tr, fs + [Fact(5, i, [])]);
    AnalyseSnoc(tr, [] + [Declared(5, i, Pos(6, 18), Initialized, [])] + [Referenced(6, i, Pos(6, 25), false, false, [])] + [Referenced(7, j, Pos(8, 38), false, false, [0])] + [OutAssigned(7, [], [0])], Referenced(6, i, Pos(6, 32), true, false, [0]), fs);
    assert Analyse(tr, [] + [Declared(5, i, Pos(6, 18), Initialized, [])] + [Referenced(6, i, Pos(6, 25), false, false, [])] + [Referenced(7, j, Pos(8, 38), false, false, [0])] + [OutAssigned(7, [], [0])] + [Referenced(6, i, Pos(6, 32), true, false, [0])], fs) == [] + [] + [] + [Diag(Unassigned, j, Pos(8, 38))] + [] + [];
    assert Replay(tr, [] + [Declared(5, i, Pos(6, 18), Initialized, [])] + [Referenced(6, i, Pos(6, 25), false, false, [])] + [Referenced(7, j, Pos(8, 38), false, false, [0])] + [OutAssigned(7, [], [0])] + [Referenced(6, i, Pos(6, 32), true, false, [0])], fs) == fs + [Fact(5, i, [])] + [Fact(5, i, [0])];
    Event5(i, j, k, l, m, n, o, p, q, r, tr, fs + [Fact(5, i, [])] + [Fact(5, i, [0])]);
    AnalyseSnoc(tr, [] + [Declared(5, i, Pos(6, 18), Initialized, [])] + [Referenced(6, i, Pos(6, 25), false, false, [])] + [Referenced(7, j, Pos(8, 38), false, false, [0])] + [OutAssigned(7, [], [0])] + [Referenced(6, i, Pos(6, 32), true, false, [0])], Declared(6, j, Pos(6, 41), Initialized, [0]), fs);
    assert Analyse(tr, [] + [Declared(5, i, Pos(6, 18), Initialized, [])] + [Referenced(6, i, Pos(6, 25), false, false, [])] + [Referenced(7, j, Pos(8, 38), false, false, [0])] + [OutAssigned(7, [], [0])] + [Referenced(6, i, Pos(6, 32), true, false, [0])] + [Declared(6, j, Pos(6, 41), Initialized, [0])], fs) == [] + [] + [] + [Diag(Unassigned, j, Pos(8, 38))] + [] + [] + [];
    assert Replay(tr, [] + [Declared(5, i, Pos(6, 18), Initialized, [])] + [Referenced(6, i, Pos(6, 25), false, false, [])] + [Referenced(7, j, Pos(8, 38), false, false, [0])] + [OutAssigned(7, [], [0])] + [Referenced(6, i, Pos(6, 32), true, false, [0])] + [Declared(6, j, Pos(6, 41), Initialized, [0])], fs) == fs + [Fact(5, i, [])] + [Fact(5, i, [0])] + [Fact(6, j, [0])];
    AssignedSnoc(fs, Fact(5, i, []), 5, i, [0]);
    AssignedSnoc(fs + [Fact(5, i, [])], Fact(5, i, [0]), 5, i, [0]);
    AssignedSnoc(fs + [Fact(5, i, [])] + [Fact(5, i, [0])], Fact(6, j, [0]), 5, i, [0]);
    Event6(i, j, k, l, m, n, o, p, q, r, tr, fs + [Fact(5, i, [])] + [Fact(5, i, [0])] + [Fact(6, j, [0])]);
    AnalyseSnoc(tr, [] + [Declared(5, i, Pos(6, 18), Initialized, [])] + [Referenced(6, i, Pos(6, 25), false, false, [])] + [Referenced(7, j, Pos(8, 38), false, false, [0])] + [OutAssigned(7, [], [0])] + [Referenced(6, i, Pos(6, 32), true, false, [0])] + [Declared(6, j, Pos(6, 41), Initialized, [0])], Referenced(6, i, Pos(6, 45), false, false, [0]), fs);
    assert Analyse(tr, [] + [Declared(5, i, Pos(6, 18), Initialized, [])] + [Referenced(6, i, Pos(6, 25), false, false, [])] + [Referenced(7, j, Pos(8, 38), false, false, [0])] + [OutAssigned(7, [], [0])] + [Referenced(6, i, Pos(6, 32), true, false, [0])] + [Declared(6, j, Pos(6, 41), Initialized, [0])] + [Referenced(6, i, Pos(6, 45), false, false, [0])], fs) == [] + [] + [] + [Diag(Unassigned, j, Pos(8, 38))] + [] + [] + [] + [];
    assert Replay(tr, [] + [Declared(5, i, Pos(6, 18), Initialized, [])] + [Referenced(6, i, Pos(6, 25), false, false, [])] + [Referenced(7, j, Pos(8, 38), false, false, [0])] + [OutAssigned(7, [], [0])] + [Referenced(6, i, Pos(6, 32), true, false, [0])] + [Declared(6, j, Pos(6, 41), Initialized, [0])] + [Referenced(6, i, Pos(6, 45), false, false, [0])], fs) == fs + [Fact(5, i, [])] + [Fact(5, i, [0])] + [Fact(6, j, [0])];
    AssignedSnoc(fs, Fact(5, i, []), 6, j, [0]);
    AssignedSnoc(fs + [Fact(5, i, [])], Fact(5, i, [0]), 6, j, [0]);
    AssignedSnoc(fs + [Fact(5, i, [])] + [Fact(5, i, [0])], Fact(6, j, [0]), 6, j, [0]);
    Event7(i, j, k, l, m, n, o, p, q, r, tr, fs + [Fact(5, i, [])] + [Fact(5, i, [0])] + [Fact(6, j, [0])]);
    AnalyseSnoc(tr, [] + [Declared(5, i, Pos(6, 18), Initialized, [])] + [Referenced(6, i, Pos(6, 25), false, false, [])] + [Referenced(7, j, Pos(8, 38), false, false, [0])] + [OutAssigned(7, [], [0])] + [Referenced(6, i, Pos(6, 32), true, false, [0])] + [Declared(6, j, Pos(6, 41), Initialized, [0])] + [Referenced(6, i, Pos(6, 45), false, false, [0])], Referenced(6, j, Pos(6, 54), false, false, [0]), fs);
    AnalyseSplit(tr, evs, Chunk0(i, j, k, l, m, n, o, p, q, r), []);
  }

  /** The analysis of events 8 to 15, after the events before them. */
  lemma {:induction false} Analysed1(i: string, j: string, k: string, l: string, m: string, n: string, o: string, p: string, q: string, r: string, tr: Tree, evs: seq<Event>, fs: seq<Fact>, rs: seq<Diag>)
    requires |tr.scopes| == 32
    requires Parent(tr, 0) == None
    requires Parent(tr, 3) == Some(0)
    requires Parent(tr, 4) == Some(3)
    requires Parent(tr, 8) == Some(4)
    requires Parent(tr, 9) == Some(8)
    requires Parent(tr, 10) == Some(9)
    requires LocalsOf(tr, 0) == []
    requires LocalsOf(tr, 3) == []
    requires LocalsOf(tr, 4) == []
    requires LocalsOf(tr, 8) == [Local(i, Pos(11, 18)), Local(j, Pos(11, 36))]
    requires LocalsOf(tr, 9) == []
    requires LocalsOf(tr, 10) == [Local(k, Pos(12, 47))]
    requires i != j && i != k && j != k
    requires Analyse(tr, evs, []) == rs
    requires Replay(tr, evs, []) == fs
    requires !Assigned(fs, 8, j, [])
    requires !Assigned(fs, 8, i, [])
    requires !Assigned(fs, 8, j, [1])
    requires !Assigned(fs, 8, i, [1])
    ensures Analyse(tr, evs + Chunk1(i, j, k, l, m, n, o, p, q, r), []) == rs + ([] + [] + [] + [] + [] + [] + [] + [] + [])
    ensures Replay(tr, evs + Chunk1(i, j, k, l, m, n, o, p, q, r), []) == fs + [Fact(8, i, [])] + [Fact(8, j, [])] + [Fact(8, j, [])] + [Fact(10, k, [1])]
  {
    assert Analyse(tr, [], fs) == [] && Replay(tr, [], fs) == fs;
    Event8(i, j, k, l, m, n, o, p, q, r, tr, fs);
    AnalyseSnoc(tr, [], Declared(8, i, Pos(11, 18), Initialized, []), fs);
    assert Analyse(tr, [] + [Declared(8, i, Pos(11, 18), Initialized, [])], fs) == [] + [];
    assert Replay(tr, [] + [Declared(8, i, Pos(11, 18), Initialized, [])], fs) == fs + [Fact(8, i, [])];
    Event9(i, j, k, l, m, n, o, p, q, r, tr, fs + [Fact(8, i, [])]);
    AnalyseSnoc(tr, [] + [Declared(8, i, Pos(11, 18), Initialized, [])], Declared(8, j, Pos(11, 36), Initialized, []), fs);
    assert Analyse(tr, [] + [Declared(8, i, Pos(11, 18), Initialized, [])] + [Declared(8, j, Pos(11, 36), Initialized, [])], fs) == [] + [] + [];
    assert Replay(tr, [] + [Declared(8, i, Pos(11, 18), Initialized, [])] + [Declared(8, j, Pos(11, 36), Initialized, [])], fs) == fs + [Fact(8, i, [])] + [Fact(8, j, [])];
    AssignedSnoc(fs, Fact(8, i, []), 8, j, []);
    AssignedSnoc(fs + [Fact(8, i, [])], Fact(8, j, []), 8, j, []);
    Event10(i, j, k, l, m, n, o, p, q, r, tr, fs + [Fact(8, i, [])] + [Fact(8, j, [])]);
    AnalyseSnoc(tr, [] + [Declared(8, i, Pos(11, 18), Initialized, [])] + [Declared(8, j, Pos(11, 36), Initialized, [])], Referenced(8, j, Pos(11, 46), false, false, []), fs);
    assert Analyse(tr, [] + [Declared(8, i, Pos(11, 18), Initialized, [])] + [Declared(8, j, Pos(11, 36), Initialized, [])] + [Referenced(8, j, Pos(11, 46), false, false, [])], fs) == [] + [] + [] + [];
    assert Replay(tr, [] + [Declared(8, i, Pos(11, 18), Initialized, [])] + [Declared(8, j, Pos(11, 36), Initialized, [])] + [Referenced(8, j, Pos(11, 46), false, false, [])], fs) == fs + [Fact(8, i, [])] + [Fact(8, j, [])];
    Event11(i, j, k, l, m, n, o, p, q, r, tr, fs + [Fact(8, i, [])] + [Fact(8, j, [])]);
    AnalyseSnoc(tr, [] + [Declared(8, i, Pos(11, 18), Initialized, [])] + [Declared(8, j, Pos(11, 36), Initialized, [])] + [Referenced(8, j, Pos(11, 46), false, false, [])], Referenced(9, j, Pos(11, 51), true, false, []), fs);
    assert Analyse(tr, [] + [Declared(8, i, Pos(11, 18), Initialized, [])] + [Declared(8, j, Pos(11, 36), Initialized, [])] + [Referenced(8, j, Pos(11, 46), false, false, [])] + [Referenced(9, j, Pos(11, 51), true, false, [])], fs) == [] + [] + [] + [] + [];
    assert Replay(tr, [] + [Declared(8, i, Pos(11, 18), Initialized, [])] + [Declared(8, j, Pos(11, 36), Initialized, [])] + [Referenced(8, j, Pos(11, 46), false, false, [])] + [Referenced(9, j, Pos(11, 51), true, false, [])], fs) == fs + [Fact(8, i, [])] + [Fact(8, j, [])] + [Fact(8, j, [])];
    AssignedSnoc(fs, Fact(8, i, []), 8, i, []);
    AssignedSnoc(fs + [Fact(8, i, [])], Fact(8, j, []), 8, i, []);
    AssignedSnoc(fs + [Fact(8, i, [])] + [Fact(8, j, [])], Fact(8, j, []), 8, i, []);
    Event12(i, j, k, l, m, n, o, p, q, r, tr, fs + [Fact(8, i, [])] + [Fact(8, j, [])] + [Fact(8, j, [])]);
    AnalyseSnoc(tr, [] + [Declared(8, i, Pos(11, 18), Initialized, [])] + [Declared(8, j, Pos(11, 36), Initialized, [])] + [Referenced(8, j, Pos(11, 46), false, false, [])] + [Referenced(9, j, Pos(11, 51), true, false, [])], Referenced(9, i, Pos(11, 55), false, false, []), fs);
    assert Analyse(tr, [] + [Declared(8, i, Pos(11, 18), Initialized, [])] + [Declared(8, j, Pos(11, 36), Initialized, [])] + [Referenced(8, j, Pos(11, 46), false, false, [])] + [Referenced(9, j, Pos(11, 51), true, false, [])] + [Referenced(9, i, Pos(11, 55), false, false, [])], fs) == [] + [] + [] + [] + [] + [];
    assert Replay(tr, [] + [Declared(8, i, Pos(11, 18), Initialized, [])] + [Declared(8, j, Pos(11, 36), Initialized, [])] + [Referenced(8, j, Pos(11, 46), false, false, [])] + [Referenced(9, j, Pos(11, 51), true, false, [])] + [Referenced(9, i, Pos(11, 55), false, false, [])], fs) == fs + [Fact(8, i, [])] + [Fact(8, j, [])] + [Fact(8, j, [])];
    AssignedSnoc(fs, Fact(8, i, []), 8, j, [1]);
    AssignedSnoc(fs + [Fact(8, i, [])], Fact(8, j, []), 8, j, [1]);
    AssignedSnoc(fs + [Fact(8, i, [])] + [Fact(8, j, [])], Fact(8, j, []), 8, j, [1]);
    Event13(i, j, k, l, m, n, o, p, q, r, tr, fs + [Fact(8, i, [])] + [Fact(8, j, [])] + [Fact(8, j, [])]);
    AnalyseSnoc(tr, [] + [Declared(8, i, Pos(11, 18), Initialized, [])] + [Declared(8, j, Pos(11, 36), Initialized, [])] + [Referenced(8, j, Pos(11, 46), false, false, [])] + [Referenced(9, j, Pos(11, 51), true, false, [])] + [Referenced(9, i, Pos(11, 55), false, false, [])], Referenced(10, j, Pos(12, 38), false, false, [1]), fs);
    assert Analyse(tr, [] + [Declared(8, i, Pos(11, 18), Initialized, [])] + [Declared(8, j, Pos(11, 36), Initialized, [])] + [Referenced(8, j, Pos(11, 46), false, false, [])] + [Referenced(9, j, Pos(11, 51), true, false, [])] + [Referenced(9, i, Pos(11, 55), false, false, [])] + [Referenced(10, j, Pos(12, 38), false, false, [1])], fs) == [] + [] + [] + [] + [] + [] + [];
    assert Replay(tr, [] + [Declared(8, i, Pos(11, 18), Initialized, [])] + [Declared(8, j, Pos(11, 36), Initialized, [])] + [Referenced(8, j, Pos(11, 46), false, false, [])] + [Referenced(9, j, Pos(11, 51), true, false, [])] + [Referenced(9, i, Pos(11, 55), false, false, [])] + [Referenced(10, j, Pos(12, 38), false, false, [1])], fs) == fs + [Fact(8, i, [])] + [Fact(8, j, [])] + [Fact(8, j, [])];
    Event14(i, j, k, l, m, n, o, p, q, r, tr, fs + [Fact(8, i, [])] + [Fact(8, j, [])] + [Fact(8, j, [])]);
    AnalyseSnoc(tr, [] + [Declared(8, i, Pos(11, 18), Initialized, [])] + [Declared(8, j, Pos(11, 36), Initialized, [])] + [Referenced(8, j, Pos(11, 46), false, false, [])] + [Referenced(9, j, Pos(11, 51), true, false, [])] + [Referenced(9, i, Pos(11, 55), false, false, [])] + [Referenced(10, j, Pos(12, 38), false, false, [1])], Declared(10, k, Pos(12, 47), Initialized, [1]), fs);
    assert Analyse(tr, [] + [Declared(8, i, Pos(11, 18), Initialized, [])] + [Declared(8, j, Pos(11, 36), Initialized, [])] + [Referenced(8, j, Pos(11, 46), false, false, [])] + [Referenced(9, j, Pos(11, 51), true, false, [])] + [Referenced(9, i, Pos(11, 55), false, false, [])] + [Referenced(10, j, Pos(12, 38), false, false, [1])] + [Declared(10, k, Pos(12, 47), Initialized, [1])], fs) == [] + [] + [] + [] + [] + [] + [] + [];
    assert Replay(tr, [] + [Declared(8, i, Pos(11, 18), Initialized, [])] + [Declared(8, j, Pos(11, 36), Initialized, [])] + [Referenced(8, j, Pos(11, 46), false, false, [])] + [Referenced(9, j, Pos(11, 51), true, false, [])] + [Referenced(9, i, Pos(11, 55), false, false, [])] + [Referenced(10, j, Pos(12, 38), false, false, [1])] + [Declared(10, k, Pos(12, 47), Initialized, [1])], fs) == fs + [Fact(8, i, [])] + [Fact(8, j, [])] + [Fact(8, j, [])] + [Fact(10, k, [1])];
    AssignedSnoc(fs, Fact(8, i, []), 8, i, [1]);
    AssignedSnoc(fs + [Fact(8, i, [])], Fact(8, j, []), 8, i, [1]);
    AssignedSnoc(fs + [Fact(8, i, [])] + [Fact(8, j, [])], Fact(8, j, []), 8, i, [1]);
    AssignedSnoc(fs + [Fact(8, i, [])] + [Fact(8, j, [])] + [Fact(8, j, [])], Fact(10, k, [1]), 8, i, [1]);
    Event15(i, j, k, l, m, n, o, p, q, r, tr, fs + [Fact(8, i, [])] + [Fact(8, j, [])] + [Fact(8, j, [])] + [Fact(10, k, [1])]);
    AnalyseSnoc(tr, [] + [Declared(8, i, Pos(11, 18), Initialized, [])] + [Declared(8, j, Pos(11, 36), Initialized, [])] + [Referenced(8, j, Pos(11, 46), false, false, [])] + [Referenced(9, j, Pos(11, 51), true, false, [])] + [Referenced(9, i, Pos(11, 55), false, false, [])] + [Referenced(10, j, Pos(12, 38), false, false, [1])] + [Declared(10, k, Pos(12, 47), Initialized, [1])], Referenced(10, i, Pos(12, 55), false, false, [1]), fs);
    AnalyseSplit(tr, evs, Chunk1(i, j, k, l, m, n, o, p, q, r), []);
  }

  /** The analysis of events 16 to 23, after the events before them. */
  lemma {:induction false} Analysed2(i: string, j: string, k: string, l: string, m: string, n: string, o: string, p: string, q: string, r: string, tr: Tree, evs: seq<Event>, fs: seq<Fact>, rs: seq<Diag>)
    requires |tr.scopes| == 32
    requires Parent(tr, 0) == None
    requires Parent(tr, 3) == Some(0)
    requires Parent(tr, 4) == Some(3)
    requires Parent(tr, 8) == Some(4)
    requires Parent(tr, 9) == Some(8)
    requires Parent(tr, 11) == Some(4)
    requires Parent(tr, 12) == Some(11)
    requires LocalsOf(tr, 0) == []
    requires LocalsOf(tr, 3) == []
    requires LocalsOf(tr, 4) == []
    requires LocalsOf(tr, 8) == [Local(i, Pos(11, 18)), Local(j, Pos(11, 36))]
    requires LocalsOf(tr, 9) == []
    requires LocalsOf(tr, 11) == [Local(i, Pos(17, 18))]
    requires LocalsOf(tr, 12) == [Local(l, Pos(17, 34))]
    requires i != j && i != l
    requires Analyse(tr, evs, []) == rs
    requires Replay(tr, evs, []) == fs
    requires Assigned(fs, 8, i, [1])
    requires !Assigned(fs, 11, i, [])
    ensures Analyse(tr, evs + Chunk2(i, j, k, l, m, n, o, p, q, r), []) == rs + ([] + [] + [] + [Diag(NotInContext, j, Pos(14, 9))] + [Diag(NotInContext, k, Pos(15, 9))] + [] + [Diag(NotInContext, l, Pos(17, 22))] + [] + [])
    ensures Replay(tr, evs + Chunk2(i, j, k, l, m, n, o, p, q, r), []) == fs + [Fact(11, i, [])] + [Fact(12, l, [])]
  {
    assert Analyse(tr, [], fs) == [] && Replay(tr, [], fs) == fs;
    Event16(i, j, k, l, m, n, o, p, q, r, tr, fs);
    AnalyseSnoc(tr, [], OutAssigned(10, [], [1]), fs);
    assert Analyse(tr, [] + [OutAssigned(10, [], [1])], fs) == [] + [];
    assert Replay(tr, [] + [OutAssigned(10, [], [1])], fs) == fs;
    Event17(i, j, k, l, m, n, o, p, q, r, tr, fs);
    AnalyseSnoc(tr, [] + [OutAssigned(10, [], [1])], Referenced(9, i, Pos(11, 64), false, false, [1]), fs);
    assert Analyse(tr, [] + [OutAssigned(10, [], [1])] + [Referenced(9, i, Pos(11, 64), false, false, [1])], fs) == [] + [] + [];
    assert Replay(tr, [] + [OutAssigned(10, [], [1])] + [Referenced(9, i, Pos(11, 64), false, false, [1])], fs) == fs;
    Event18(i, j, k, l, m, n, o, p, q, r, tr, fs);
    AnalyseSnoc(tr, [] + [OutAssigned(10, [], [1])] + [Referenced(9, i, Pos(11, 64), false, false, [1])], Referenced(4, j, Pos(14, 9), true, false, []), fs);
    assert Analyse(tr, [] + [OutAssigned(10, [], [1])] + [Referenced(9, i, Pos(11, 64), false, false, [1])] + [Referenced(4, j, Pos(14, 9), true, false, [])], fs) == [] + [] + [] + [Diag(NotInContext, j, Pos(14, 9))];
    assert Replay(tr, [] + [OutAssigned(10, [], [1])] + [Referenced(9, i, Pos(11, 64), false, false, [1])] + [Referenced(4, j, Pos(14, 9), true, false, [])], fs) == fs;
    Event19(i, j, k, l, m, n, o, p, q, r, tr, fs);
    AnalyseSnoc(tr, [] + [OutAssigned(10, [], [1])] + [Referenced(9, i, Pos(11, 64), false, false, [1])] + [Referenced(4, j, Pos(14, 9), true, false, [])], Referenced(4, k, Pos(15, 9), true, false, []), fs);
    assert Analyse(tr, [] + [OutAssigned(10, [], [1])] + [Referenced(9, i, Pos(11, 64), false, false, [1])] + [Referenced(4, j, Pos(14, 9), true, false, [])] + [Referenced(4, k, Pos(15, 9), true, false, [])], fs) == [] + [] + [] + [Diag(NotInContext, j, Pos(14, 9))] + [Diag(NotInContext, k, Pos(15, 9))];
    assert Replay(tr, [] + [OutAssigned(10, [], [1])] + [Referenced(9, i, Pos(11, 64), false, false, [1])] + [Referenced(4, j, Pos(14, 9), true, false, [])] + [Referenced(4, k, Pos(15, 9), true, false, [])], fs) == fs;
    Event20(i, j, k, l, m, n, o, p, q, r, tr, fs);
    AnalyseSnoc(tr, [] + [OutAssigned(10, [], [1])] + [Referenced(9, i, Pos(11, 64), false, false, [1])] + [Referenced(4, j, Pos(14, 9), true, false, [])] + [Referenced(4, k, Pos(15, 9), true, false, [])], Declared(11, i, Pos(17, 18), Initialized, []), fs);
    assert Analyse(tr, [] + [OutAssigned(10, [], [1])] + [Referenced(9, i, Pos(11, 64), false, false, [1])] + [Referenced(4, j, Pos(14, 9), true, false, [])] + [Referenced(4, k, Pos(15, 9), true, false, [])] + [Declared(11, i, Pos(17, 18), Initialized, [])], fs) == [] + [] + [] + [Diag(NotInContext, j, Pos(14, 9))] + [Diag(NotInContext, k, Pos(15, 9))] + [];
    assert Replay(tr, [] + [OutAssigned(10, [], [1])] + [Referenced(9, i, Pos(11, 64), false, false, [1])] + [Referenced(4, j, Pos(14, 9), true, false, [])] + [Referenced(4, k, Pos(15, 9), true, false, [])] + [Declared(11, i, Pos(17, 18), Initialized, [])], fs) == fs + [Fact(11, i, [])];
    Event21(i, j, k, l, m, n, o, p, q, r, tr, fs + [Fact(11, i, [])]);
    AnalyseSnoc(tr, [] + [OutAssigned(10, [], [1])] + [Referenced(9, i, Pos(11, 64), false, false, [1])] + [Referenced(4, j, Pos(14, 9), true, false, [])] + [Referenced(4, k, Pos(15, 9), true, false, [])] + [Declared(11, i, Pos(17, 18), Initialized, [])], Referenced(11, l, Pos(17, 22), false, false, []), fs);
    assert Analyse(tr, [] + [OutAssigned(10, [], [1])] + [Referenced(9, i, Pos(11, 64), false, false, [1])] + [Referenced(4, j, Pos(14, 9), true, false, [])] + [Referenced(4, k, Pos(15, 9), true, false, [])] + [Declared(11, i, Pos(17, 18), Initialized, [])] + [Referenced(11, l, Pos(17, 22), false, false, [])], fs) == [] + [] + [] + [Diag(NotInContext, j, Pos(14, 9))] + [Diag(NotInContext, k, Pos(15, 9))] + [] + [Diag(NotInContext, l, Pos(17, 22))];
    assert Replay(tr, [] + [OutAssigned(10, [], [1])] + [Referenced(9, i, Pos(11, 64), false, false, [1])] + [Referenced(4, j, Pos(14, 9), true, false, [])] + [Referenced(4, k, Pos(15, 9), true, false, [])] + [Declared(11, i, Pos(17, 18), Initialized, [])] + [Referenced(11, l, Pos(17, 22), false, false, [])], fs) == fs + [Fact(11, i, [])];
    AssignedSnoc(fs, Fact(11, i, []), 11, i, []);
    Event22(i, j, k, l, m, n, o, p, q, r, tr, fs + [Fact(11, i, [])]);
    AnalyseSnoc(tr, [] + [OutAssigned(10, [], [1])] + [Referenced(9, i, Pos(11, 64), false, false, [1])] + [Referenced(4, j, Pos(14, 9), true, false, [])] + [Referenced(4, k, Pos(15, 9), true, false, [])] + [Declared(11, i, Pos(17, 18), Initialized, [])] + [Referenced(11, l, Pos(17, 22), false, false, [])], Referenced(12, i, Pos(17, 25), false, false, []), fs);
    assert Analyse(tr, [] + [OutAssigned(10, [], [1])] + [Referenced(9, i, Pos(11, 64), false, false, [1])] + [Referenced(4, j, Pos(14, 9), true, false, [])] + [Referenced(4, k, Pos(15, 9), true, false, [])] + [Declared(11, i, Pos(17, 18), Initialized, [])] + [Referenced(11, l, Pos(17, 22), false, false, [])] + [Referenced(12, i, Pos(17, 25), false, false, [])], fs) == [] + [] + [] + [Diag(NotInContext, j, Pos(14, 9))] + [Diag(NotInContext, k, Pos(15, 9))] + [] + [Diag(NotInContext, l, Pos(17, 22))] + [];
    assert Replay(tr, [] + [OutAssigned(10, [], [1])] + [Referenced(9, i, Pos(11, 64), false, false, [1])] + [Referenced(4, j, Pos(14, 9), true, false, [])] + [Referenced(4, k, Pos(15, 9), true, false, [])] + [Declared(11, i, Pos(17, 18), Initialized, [])] + [Referenced(11, l, Pos(17, 22), false, false, [])] + [Referenced(12, i, Pos(17, 25), false, false, [])], fs) == fs + [Fact(11, i, [])];
    Event23(i, j, k, l, m, n, o, p, q, r, tr, fs + [Fact(11, i, [])]);
    AnalyseSnoc(tr, [] + [OutAssigned(10, [], [1])] + [Referenced(9, i, Pos(11, 64), false, false, [1])] + [Referenced(4, j, Pos(14, 9), true, false, [])] + [Referenced(4, k, Pos(15, 9), true, false, [])] + [Declared(11, i, Pos(17, 18), Initialized, [])] + [Referenced(11, l, Pos(17, 22), false, false, [])] + [Referenced(12, i, Pos(17, 25), false, false, [])], Declared(12, l, Pos(17, 34), Initialized, []), fs);
    AnalyseSplit(tr, evs, Chunk2(i, j, k, l, m, n, o, p, q, r), []);
  }

  /** The analysis of events 24 to 31, after the events before them. */
  lemma {:induction false} Analysed3(i: string, j: string, k: string, l: string, m: string, n: string, o: string, p: string, q: string, r: string, tr: Tree, evs: seq<Event>, fs: seq<Fact>, rs: seq<Diag>)
    requires |tr.scopes| == 32
    requires Parent(tr, 0) == None
    requires Parent(tr, 3) == Some(0)
    requires Parent(tr, 4) == Some(3)
    requires Parent(tr, 11) == Some(4)
    requires Parent(tr, 12) == Some(11)
    requires Parent(tr, 14) == Some(4)
    requires Parent(tr, 15) == Some(14)
    requires Parent(tr, 17) == Some(4)
    requires LocalsOf(tr, 0) == []
    requires LocalsOf(tr, 3) == []
    requires LocalsOf(tr, 4) == []
    requires LocalsOf(tr, 11) == [Local(i, Pos(17, 18))]
    requires LocalsOf(tr, 12) == [Local(l, Pos(17, 34))]
    requires LocalsOf(tr, 14) == [Local(i, Pos(19, 18))]
    requires LocalsOf(tr, 15) == [Local(m, Pos(19, 41))]
    requires LocalsOf(tr, 17) == [Local(i, Pos(21, 18))]
    requires i != l && i != m
    requires Analyse(tr, evs, []) == rs
    requires Replay(tr, evs, []) == fs
    requires Assigned(fs, 11, i, [2])
    requires !Assigned(fs, 14, i, [])
    requires !Assigned(fs, 15, m, [3])
    ensures Analyse(tr, evs + Chunk3(i, j, k, l, m, n, o, p, q, r), []) == rs + ([] + [] + [] + [] + [Diag(UsedBeforeDeclared, m, Pos(19, 29))] + [] + [] + [] + [])
    ensures Replay(tr, evs + Chunk3(i, j, k, l, m, n, o, p, q, r), []) == fs + [Fact(14, i, [])] + [Fact(14, i, [3])] + [Fact(15, m, [3])] + [Fact(17, i, [])]
  {
    assert Analyse(tr, [], fs) == [] && Replay(tr, [], fs) == fs;
    Event24(i, j, k, l, m, n, o, p, q, r, tr, fs);
    AnalyseSnoc(tr, [], Referenced(12, i, Pos(17, 43), false, false, [2]), fs);
    assert Analyse(tr, [] + [Referenced(12, i, Pos(17, 43), false, false, [2])], fs) == [] + [];
    assert Replay(tr, [] + [Referenced(12, i, Pos(17, 43), false, false, [2])], fs) == fs;
    Event25(i, j, k, l, m, n, o, p, q, r, tr, fs);
    AnalyseSnoc(tr, [] + [Referenced(12, i, Pos(17, 43), false, false, [2])], Declared(14, i, Pos(19, 18), Initialized, []), fs);
    assert Analyse(tr, [] + [Referenced(12, i, Pos(17, 43), false, false, [2])] + [Declared(14, i, Pos(19, 18), Initialized, [])], fs) == [] + [] + [];
    assert Replay(tr, [] + [Referenced(12, i, Pos(17, 43), false, false, [2])] + [Declared(14, i, Pos(19, 18), Initialized, [])], fs) == fs + [Fact(14, i, [])];
    AssignedSnoc(fs, Fact(14, i, []), 14, i, []);
    Event26(i, j, k, l, m, n, o, p, q, r, tr, fs + [Fact(14, i, [])]);
    AnalyseSnoc(tr, [] + [Referenced(12, i, Pos(17, 43), false, false, [2])] + [Declared(14, i, Pos(19, 18), Initialized, [])], Referenced(15, i, Pos(19, 25), false, false, []), fs);
    assert Analyse(tr, [] + [Referenced(12, i, Pos(17, 43), false, false, [2])] + [Declared(14, i, Pos(19, 18), Initialized, [])] + [Referenced(15, i, Pos(19, 25), false, false, [])], fs) == [] + [] + [] + [];
    assert Replay(tr, [] + [Referenced(12, i, Pos(17, 43), false, false, [2])] + [Declared(14, i, Pos(19, 18), Initialized, [])] + [Referenced(15, i, Pos(19, 25), false, false, [])], fs) == fs + [Fact(14, i, [])];
    Event27(i, j, k, l, m, n, o, p, q, r, tr, fs + [Fact(14, i, [])]);
    AnalyseSnoc(tr, [] + [Referenced(12, i, Pos(17, 43), false, false, [2])] + [Declared(14, i, Pos(19, 18), Initialized, [])] + [Referenced(15, i, Pos(19, 25), false, false, [])], Referenced(15, m, Pos(19, 29), false, false, []), fs);
    assert Analyse(tr, [] + [Referenced(12, i, Pos(17, 43), false, false, [2])] + [Declared(14, i, Pos(19, 18), Initialized, [])] + [Referenced(15, i, Pos(19, 25), false, false, [])] + [Referenced(15, m, Pos(19, 29), false, false, [])], fs) == [] + [] + [] + [] + [Diag(UsedBeforeDeclared, m, Pos(19, 29))];
    assert Replay(tr, [] + [Referenced(12, i, Pos(17, 43), false, false, [2])] + [Declared(14, i, Pos(19, 18), Initialized, [])] + [Referenced(15, i, Pos(19, 25), false, false, [])] + [Referenced(15, m, Pos(19, 29), false, false, [])], fs) == fs + [Fact(14, i, [])];
    Event28(i, j, k, l, m, n, o, p, q, r, tr, fs + [Fact(14, i, [])]);
    AnalyseSnoc(tr, [] + [Referenced(12, i, Pos(17, 43), false, false, [2])] + [Declared(14, i, Pos(19, 18), Initialized, [])] + [Referenced(15, i, Pos(19, 25), false, false, [])] + [Referenced(15, m, Pos(19, 29), false, false, [])], Referenced(15, i, Pos(19, 32), true, false, [3]), fs);
    assert Analyse(tr, [] + [Referenced(12, i, Pos(17, 43), false, false, [2])] + [Declared(14, i, Pos(19, 18), Initialized, [])] + [Referenced(15, i, Pos(19, 25), false, false, [])] + [Referenced(15, m, Pos(19, 29), false, false, [])] + [Referenced(15, i, Pos(19, 32), true, false, [3])], fs) == [] + [] + [] + [] + [Diag(UsedBeforeDeclared, m, Pos(19, 29))] + [];
    assert Replay(tr, [] + [Referenced(12, i, Pos(17, 43), false, false, [2])] + [Declared(14, i, Pos(19, 18), Initialized, [])] + [Referenced(15, i, Pos(19, 25), false, false, [])] + [Referenced(15, m, Pos(19, 29), false, false, [])] + [Referenced(15, i, Pos(19, 32), true, false, [3])], fs) == fs + [Fact(14, i, [])] + [Fact(14, i, [3])];
    Event29(i, j, k, l, m, n, o, p, q, r, tr, fs + [Fact(14, i, [])] + [Fact(14, i, [3])]);
    AnalyseSnoc(tr, [] + [Referenced(12, i, Pos(17, 43), false, false, [2])] + [Declared(14, i, Pos(19, 18), Initialized, [])] + [Referenced(15, i, Pos(19, 25), false, false, [])] + [Referenced(15, m, Pos(19, 29), false, false, [])] + [Referenced(15, i, Pos(19, 32), true, false, [3])], Declared(15, m, Pos(19, 41), Initialized, [3]), fs);
    assert Analyse(tr, [] + [Referenced(12, i, Pos(17, 43), false, false, [2])] + [Declared(14, i, Pos(19, 18), Initialized, [])] + [Referenced(15, i, Pos(19, 25), false, false, [])] + [Referenced(15, m, Pos(19, 29), false, false, [])] + [Referenced(15, i, Pos(19, 32), true, false, [3])] + [Declared(15, m, Pos(19, 41), Initialized, [3])], fs) == [] + [] + [] + [] + [Diag(UsedBeforeDeclared, m, Pos(19, 29))] + [] + [];
    assert Replay(tr, [] + [Referenced(12, i, Pos(17, 43), false, false, [2])] + [Declared(14, i, Pos(19, 18), Initialized, [])] + [Referenced(15, i, Pos(19, 25), false, false, [])] + [Referenced(15, m, Pos(19, 29), false, false, [])] + [Referenced(15, i, Pos(19, 32), true, false, [3])] + [Declared(15, m, Pos(19, 41), Initialized, [3])], fs) == fs + [Fact(14, i, [])] + [Fact(14, i, [3])] + [Fact(15, m, [3])];
    AssignedSnoc(fs, Fact(14, i, []), 15, m, [3]);
    AssignedSnoc(fs + [Fact(14, i, [])], Fact(14, i, [3]), 15, m, [3]);
    AssignedSnoc(fs + [Fact(14, i, [])] + [Fact(14, i, [3])], Fact(15, m, [3]), 15, m, [3]);
    Event30(i, j, k, l, m, n, o, p, q, r, tr, fs + [Fact(14, i, [])] + [Fact(14, i, [3])] + [Fact(15, m, [3])]);
    AnalyseSnoc(tr, [] + [Referenced(12, i, Pos(17, 43), false, false, [2])] + [Declared(14, i, Pos(19, 18), Initialized, [])] + [Referenced(15, i, Pos(19, 25), false, false, [])] + [Referenced(15, m, Pos(19, 29), false, false, [])] + [Referenced(15, i, Pos(19, 32), true, false, [3])] + [Declared(15, m, Pos(19, 41), Initialized, [3])], Referenced(15, m, Pos(19, 51), false, false, [3]), fs);
    assert Analyse(tr, [] + [Referenced(12, i, Pos(17, 43), false, false, [2])] + [Declared(14, i, Pos(19, 18), Initialized, [])] + [Referenced(15, i, Pos(19, 25), false, false, [])] + [Referenced(15, m, Pos(19, 29), false, false, [])] + [Referenced(15, i, Pos(19, 32), true, false, [3])] + [Declared(15, m, Pos(19, 41), Initialized, [3])] + [Referenced(15, m, Pos(19, 51), false, false, [3])], fs) == [] + [] + [] + [] + [Diag(UsedBeforeDeclared, m, Pos(19, 29))] + [] + [] + [];
    assert Replay(tr, [] + [Referenced(12, i, Pos(17, 43), false, false, [2])] + [Declared(14, i, Pos(19, 18), Initialized, [])] + [Referenced(15, i, Pos(19, 25), false, false, [])] + [Referenced(15, m, Pos(19, 29), false, false, [])] + [Referenced(15, i, Pos(19, 32), true, false, [3])] + [Declared(15, m, Pos(19, 41), Initialized, [3])] + [Referenced(15, m, Pos(19, 51), false, false, [3])], fs) == fs + [Fact(14, i, [])] + [Fact(14, i, [3])] + [Fact(15, m, [3])];
    Event31(i, j, k, l, m, n, o, p, q, r, tr, fs + [Fact(14, i, [])] + [Fact(14, i, [3])] + [Fact(15, m, [3])]);
    AnalyseSnoc(tr, [] + [Referenced(12, i, Pos(17, 43), false, false, [2])] + [Declared(14, i, Pos(19, 18), Initialized, [])] + [Referenced(15, i, Pos(19, 25), false, false, [])] + [Referenced(15, m, Pos(19, 29), false, false, [])] + [Referenced(15, i, Pos(19, 32), true, false, [3])] + [Declared(15, m, Pos(19, 41), Initialized, [3])] + [Referenced(15, m, Pos(19, 51), false, false, [3])], Declared(17, i, Pos(21, 18), Initialized, []), fs);
    AnalyseSplit(tr, evs, Chunk3(i, j, k, l, m, n, o, p, q, r), []);
  }

  /** The analysis of events 32 to 39, after the events before them. */
  lemma {:induction false} Analysed4(i: string, j: string, k: string, l: string, m: string, n: string, o: string, p: string, q: string, r: string, tr: Tree, evs: seq<Event>, fs: seq<Fact>, rs: seq<Diag>)
    requires |tr.scopes| == 32
    requires Parent(tr, 0) == None
    requires Parent(tr, 3) == Some(0)
    requires Parent(tr, 4) == Some(3)
    requires Parent(tr, 17) == Some(4)
    requires Parent(tr, 18) == Some(17)
    requires Parent(tr, 19) == Some(18)
    requires Parent(tr, 20) == Some(4)
    requires Parent(tr, 21) == Some(20)
    requires LocalsOf(tr, 0) == []
    requires LocalsOf(tr, 3) == []
    requires LocalsOf(tr, 4) == []
    requires LocalsOf(tr, 17) == [Local(i, Pos(21, 18))]
    requires LocalsOf(tr, 18) == []
    requires LocalsOf(tr, 19) == [Local(n, Pos(22, 43))]
    requires LocalsOf(tr, 20) == [Local(i, Pos(24, 18))]
    requires LocalsOf(tr, 21) == []
    requires i != n
    requires Analyse(tr, evs, []) == rs
    requires Replay(tr, evs, []) == fs
    requires Assigned(fs, 17, i, [])
    requires !Assigned(fs, 19, n, [4])
    requires Assigned(fs, 17, i, [4])
    requires !Assigned(fs, 20, i, [])
    ensures Analyse(tr, evs + Chunk4(i, j, k, l, m, n, o, p, q, r), []) == rs + ([] + [Diag(NotInContext, n, Pos(21, 22))] + [] + [] + [] + [] + [] + [] + [])
    ensures Replay(tr, evs + Chunk4(i, j, k, l, m, n, o, p, q, r), []) == fs + [Fact(19, n, [4])] + [Fact(20, i, [])]
  {
    assert Analyse(tr, [], fs) == [] && Replay(tr, [], fs) == fs;
    Event32(i, j, k, l, m, n, o, p, q, r, tr, fs);
    AnalyseSnoc(tr, [], Referenced(17, n, Pos(21, 22), false, false, []), fs);
    assert Analyse(tr, [] + [Referenced(17, n, Pos(21, 22), false, false, [])], fs) == [] + [Diag(NotInContext, n, Pos(21, 22))];
    assert Replay(tr, [] + [Referenced(17, n, Pos(21, 22), false, false, [])], fs) == fs;
    Event33(i, j, k, l, m, n, o, p, q, r, tr, fs);
    AnalyseSnoc(tr, [] + [Referenced(17, n, Pos(21, 22), false, false, [])], Referenced(18, i, Pos(21, 25), false, false, []), fs);
    assert Analyse(tr, [] + [Referenced(17, n, Pos(21, 22), false, false, [])] + [Referenced(18, i, Pos(21, 25), false, false, [])], fs) == [] + [Diag(NotInContext, n, Pos(21, 22))] + [];
    assert Replay(tr, [] + [Referenced(17, n, Pos(21, 22), false, false, [])] + [Referenced(18, i, Pos(21, 25), false, false, [])], fs) == fs;
    Event34(i, j, k, l, m, n, o, p, q, r, tr, fs);
    AnalyseSnoc(tr, [] + [Referenced(17, n, Pos(21, 22), false, false, [])] + [Referenced(18, i, Pos(21, 25), false, false, [])], Declared(19, n, Pos(22, 43), Initialized, [4]), fs);
    assert Analyse(tr, [] + [Referenced(17, n, Pos(21, 22), false, false, [])] + [Referenced(18, i, Pos(21, 25), false, false, [])] + [Declared(19, n, Pos(22, 43), Initialized, [4])], fs) == [] + [Diag(NotInContext, n, Pos(21, 22))] + [] + [];
    assert Replay(tr, [] + [Referenced(17, n, Pos(21, 22), false, false, [])] + [Referenced(18, i, Pos(21, 25), false, false, [])] + [Declared(19, n, Pos(22, 43), Initialized, [4])], fs) == fs + [Fact(19, n, [4])];
    AssignedSnoc(fs, Fact(19, n, [4]), 19, n, [4]);
    Event35(i, j, k, l, m, n, o, p, q, r, tr, fs + [Fact(19, n, [4])]);
    AnalyseSnoc(tr, [] + [Referenced(17, n, Pos(21, 22), false, false, [])] + [Referenced(18, i, Pos(21, 25), false, false, [])] + [Declared(19, n, Pos(22, 43), Initialized, [4])], Referenced(19, n, Pos(22, 52), false, false, [4]), fs);
    assert Analyse(tr, [] + [Referenced(17, n, Pos(21, 22), false, false, [])] + [Referenced(18, i, Pos(21, 25), false, false, [])] + [Declared(19, n, Pos(22, 43), Initialized, [4])] + [Referenced(19, n, Pos(22, 52), false, false, [4])], fs) == [] + [Diag(NotInContext, n, Pos(21, 22))] + [] + [] + [];
    assert Replay(tr, [] + [Referenced(17, n, Pos(21, 22), false, false, [])] + [Referenced(18, i, Pos(21, 25), false, false, [])] + [Declared(19, n, Pos(22, 43), Initialized, [4])] + [Referenced(19, n, Pos(22, 52), false, false, [4])], fs) == fs + [Fact(19, n, [4])];
    Event36(i, j, k, l, m, n, o, p, q, r, tr, fs + [Fact(19, n, [4])]);
    AnalyseSnoc(tr, [] + [Referenced(17, n, Pos(21, 22), false, false, [])] + [Referenced(18, i, Pos(21, 25), false, false, [])] + [Declared(19, n, Pos(22, 43), Initialized, [4])] + [Referenced(19, n, Pos(22, 52), false, false, [4])], OutAssigned(19, [], [4]), fs);
    assert Analyse(tr, [] + [Referenced(17, n, Pos(21, 22), false, false, [])] + [Referenced(18, i, Pos(21, 25), false, false, [])] + [Declared(19, n, Pos(22, 43), Initialized, [4])] + [Referenced(19, n, Pos(22, 52), false, false, [4])] + [OutAssigned(19, [], [4])], fs) == [] + [Diag(NotInContext, n, Pos(21, 22))] + [] + [] + [] + [];
    assert Replay(tr, [] + [Referenced(17, n, Pos(21, 22), false, false, [])] + [Referenced(18, i, Pos(21, 25), false, false, [])] + [Declared(19, n, Pos(22, 43), Initialized, [4])] + [Referenced(19, n, Pos(22, 52), false, false, [4])] + [OutAssigned(19, [], [4])], fs) == fs + [Fact(19, n, [4])];
    AssignedSnoc(fs, Fact(19, n, [4]), 17, i, [4]);
    Event37(i, j, k, l, m, n, o, p, q, r, tr, fs + [Fact(19, n, [4])]);
    AnalyseSnoc(tr, [] + [Referenced(17, n, Pos(21, 22), false, false, [])] + [Referenced(18, i, Pos(21, 25), false, false, [])] + [Declared(19, n, Pos(22, 43), Initialized, [4])] + [Referenced(19, n, Pos(22, 52), false, false, [4])] + [OutAssigned(19, [], [4])], Referenced(18, i, Pos(21, 32), false, false, [4]), fs);
    assert Analyse(tr, [] + [Referenced(17, n, Pos(21, 22), false, false, [])] + [Referenced(18, i, Pos(21, 25), false, false, [])] + [Declared(19, n, Pos(22, 43), Initialized, [4])] + [Referenced(19, n, Pos(22, 52), false, false, [4])] + [OutAssigned(19, [], [4])] + [Referenced(18, i, Pos(21, 32), false, false, [4])], fs) == [] + [Diag(NotInContext, n, Pos(21, 22))] + [] + [] + [] + [] + [];
    assert Replay(tr, [] + [Referenced(17, n, Pos(21, 22), false, false, [])] + [Referenced(18, i, Pos(21, 25), false, false, [])] + [Declared(19, n, Pos(22, 43), Initialized, [4])] + [Referenced(19, n, Pos(22, 52), false, false, [4])] + [OutAssigned(19, [], [4])] + [Referenced(18, i, Pos(21, 32), false, false, [4])], fs) == fs + [Fact(19, n, [4])];
    Event38(i, j, k, l, m, n, o, p, q, r, tr, fs + [Fact(19, n, [4])]);
    AnalyseSnoc(tr, [] + [Referenced(17, n, Pos(21, 22), false, false, [])] + [Referenced(18, i, Pos(21, 25), false, false, [])] + [Declared(19, n, Pos(22, 43), Initialized, [4])] + [Referenced(19, n, Pos(22, 52), false, false, [4])] + [OutAssigned(19, [], [4])] + [Referenced(18, i, Pos(21, 32), false, false, [4])], Declared(20, i, Pos(24, 18), Initialized, []), fs);
    assert Analyse(tr, [] + [Referenced(17, n, Pos(21, 22), false, false, [])] + [Referenced(18, i, Pos(21, 25), false, false, [])] + [Declared(19, n, Pos(22, 43), Initialized, [4])] + [Referenced(19, n, Pos(22, 52), false, false, [4])] + [OutAssigned(19, [], [4])] + [Referenced(18, i, Pos(21, 32), false, false, [4])] + [Declared(20, i, Pos(24, 18), Initialized, [])], fs) == [] + [Diag(NotInContext, n, Pos(21, 22))] + [] + [] + [] + [] + [] + [];
    assert Replay(tr, [] + [Referenced(17, n, Pos(21, 22), false, false, [])] + [Referenced(18, i, Pos(21, 25), false, false, [])] + [Declared(19, n, Pos(22, 43), Initialized, [4])] + [Referenced(19, n, Pos(22, 52), false, false, [4])] + [OutAssigned(19, [], [4])] + [Referenced(18, i, Pos(21, 32), false, false, [4])] + [Declared(20, i, Pos(24, 18), Initialized, [])], fs) == fs + [Fact(19, n, [4])] + [Fact(20, i, [])];
    AssignedSnoc(fs, Fact(19, n, [4]), 20, i, []);
    AssignedSnoc(fs + [Fact(19, n, [4])], Fact(20, i, []), 20, i, []);
    Event39(i, j, k, l, m, n, o, p, q, r, tr, fs + [Fact(19, n, [4])] + [Fact(20, i, [])]);
    AnalyseSnoc(tr, [] + [Referenced(17, n, Pos(21, 22), false, false, [])] + [Referenced(18, i, Pos(21, 25), false, false, [])] + [Declared(19, n, Pos(22, 43), Initialized, [4])] + [Referenced(19, n, Pos(22, 52), false, false, [4])] + [OutAssigned(19, [], [4])] + [Referenced(18, i, Pos(21, 32), false, false, [4])] + [Declared(20, i, Pos(24, 18), Initialized, [])], Referenced(21, i, Pos(24, 25), false, false, []), fs);
    AnalyseSplit(tr, evs, Chunk4(i, j, k, l, m, n, o, p, q, r), []);
  }

  /** The analysis of events 40 to 47, after the events before them. */
  lemma {:induction false} Analysed5(i: string, j: string, k: string, l: string, m: string, n: string, o: string, p: string, q: string, r: string, tr: Tree, evs: seq<Event>, fs: seq<Fact>, rs: seq<Diag>)
    requires |tr.scopes| == 32
    requires Parent(tr, 0) == None
    requires Parent(tr, 3) == Some(0)
    requires Parent(tr, 4) == Some(3)
    requires Parent(tr, 20) == Some(4)
    requires Parent(tr, 21) == Some(20)
    requires Parent(tr, 22) == Some(21)
    requires Parent(tr, 23) == Some(4)
    requires Parent(tr, 24) == Some(23)
    requires Parent(tr, 25) == Some(24)
    requires LocalsOf(tr, 0) == []
    requires LocalsOf(tr, 3) == []
    requires LocalsOf(tr, 4) == []
    requires LocalsOf(tr, 20) == [Local(i, Pos(24, 18))]
    requires LocalsOf(tr, 21) == []
    requires LocalsOf(tr, 22) == [Local(o, Pos(25, 42))]
    requires LocalsOf(tr, 23) == [Local(i, Pos(27, 18))]
    requires LocalsOf(tr, 24) == []
    requires LocalsOf(tr, 25) == [Local(p, Pos(28, 42))]
    requires i != o && i != p
    requires Analyse(tr, evs, []) == rs
    requires Replay(tr, evs, []) == fs
    requires Assigned(fs, 20, i, [5])
    requires !Assigned(fs, 23, i, [])
    ensures Analyse(tr, evs + Chunk5(i, j, k, l, m, n, o, p, q, r), []) == rs + ([] + [Diag(NotInContext, o, Pos(24, 29))] + [] + [] + [] + [] + [] + [] + [])
    ensures Replay(tr, evs + Chunk5(i, j, k, l, m, n, o, p, q, r), []) == fs + [Fact(22, o, [5])] + [Fact(23, i, [])] + [Fact(25, p, [6])]
  {
    assert Analyse(tr, [], fs) == [] && Replay(tr, [], fs) == fs;
    Event40(i, j, k, l, m, n, o, p, q, r, tr, fs);
    AnalyseSnoc(tr, [], Referenced(21, o, Pos(24, 29), false, false, []), fs);
    assert Analyse(tr, [] + [Referenced(21, o, Pos(24, 29), false, false, [])], fs) == [] + [Diag(NotInContext, o, Pos(24, 29))];
    assert Replay(tr, [] + [Referenced(21, o, Pos(24, 29), false, false, [])], fs) == fs;
    Event41(i, j, k, l, m, n, o, p, q, r, tr, fs);
    AnalyseSnoc(tr, [] + [Referenced(21, o, Pos(24, 29), false, false, [])], Declared(22, o, Pos(25, 42), Initialized, [5]), fs);
    assert Analyse(tr, [] + [Referenced(21, o, Pos(24, 29), false, false, [])] + [Declared(22, o, Pos(25, 42), Initialized, [5])], fs) == [] + [Diag(NotInContext, o, Pos(24, 29))] + [];
    assert Replay(tr, [] + [Referenced(21, o, Pos(24, 29), false, false, [])] + [Declared(22, o, Pos(25, 42), Initialized, [5])], fs) == fs + [Fact(22, o, [5])];
    Event42(i, j, k, l, m, n, o, p, q, r, tr, fs + [Fact(22, o, [5])]);
    AnalyseSnoc(tr, [] + [Referenced(21, o, Pos(24, 29), false, false, [])] + [Declared(22, o, Pos(25, 42), Initialized, [5])], OutAssigned(22, [], [5]), fs);
    assert Analyse(tr, [] + [Referenced(21, o, Pos(24, 29), false, false, [])] + [Declared(22, o, Pos(25, 42), Initialized, [5])] + [OutAssigned(22, [], [5])], fs) == [] + [Diag(NotInContext, o, Pos(24, 29))] + [] + [];
    assert Replay(tr, [] + [Referenced(21, o, Pos(24, 29), false, false, [])] + [Declared(22, o, Pos(25, 42), Initialized, [5])] + [OutAssigned(22, [], [5])], fs) == fs + [Fact(22, o, [5])];
    AssignedSnoc(fs, Fact(22, o, [5]), 20, i, [5]);
    Event43(i, j, k, l, m, n, o, p, q, r, tr, fs + [Fact(22, o, [5])]);
    AnalyseSnoc(tr, [] + [Referenced(21, o, Pos(24, 29), false, false, [])] + [Declared(22, o, Pos(25, 42), Initialized, [5])] + [OutAssigned(22, [], [5])], Referenced(21, i, Pos(24, 32), false, false, [5]), fs);
    assert Analyse(tr, [] + [Referenced(21, o, Pos(24, 29), false, false, [])] + [Declared(22, o, Pos(25, 42), Initialized, [5])] + [OutAssigned(22, [], [5])] + [Referenced(21, i, Pos(24, 32), false, false, [5])], fs) == [] + [Diag(NotInContext, o, Pos(24, 29))] + [] + [] + [];
    assert Replay(tr, [] + [Referenced(21, o, Pos(24, 29), false, false, [])] + [Declared(22, o, Pos(25, 42), Initialized, [5])] + [OutAssigned(22, [], [5])] + [Referenced(21, i, Pos(24, 32), false, false, [5])], fs) == fs + [Fact(22, o, [5])];
    Event44(i, j, k, l, m, n, o, p, q, r, tr, fs + [Fact(22, o, [5])]);
    AnalyseSnoc(tr, [] + [Referenced(21, o, Pos(24, 29), false, false, [])] + [Declared(22, o, Pos(25, 42), Initialized, [5])] + [OutAssigned(22, [], [5])] + [Referenced(21, i, Pos(24, 32), false, false, [5])], Declared(23, i, Pos(27, 18), Initialized, []), fs);
    assert Analyse(tr, [] + [Referenced(21, o, Pos(24, 29), false, false, [])] + [Declared(22, o, Pos(25, 42), Initialized, [5])] + [OutAssigned(22, [], [5])] + [Referenced(21, i, Pos(24, 32), false, false, [5])] + [Declared(23, i, Pos(27, 18), Initialized, [])], fs) == [] + [Diag(NotInContext, o, Pos(24, 29))] + [] + [] + [] + [];
    assert Replay(tr, [] + [Referenced(21, o, Pos(24, 29), false, false, [])] + [Declared(22, o, Pos(25, 42), Initialized, [5])] + [OutAssigned(22, [], [5])] + [Referenced(21, i, Pos(24, 32), false, false, [5])] + [Declared(23, i, Pos(27, 18), Initialized, [])], fs) == fs + [Fact(22, o, [5])] + [Fact(23, i, [])];
    AssignedSnoc(fs, Fact(22, o, [5]), 23, i, []);
    AssignedSnoc(fs + [Fact(22, o, [5])], Fact(23, i, []), 23, i, []);
    Event45(i, j, k, l, m, n, o, p, q, r, tr, fs + [Fact(22, o, [5])] + [Fact(23, i, [])]);
    AnalyseSnoc(tr, [] + [Referenced(21, o, Pos(24, 29), false, false, [])] + [Declared(22, o, Pos(25, 42), Initialized, [5])] + [OutAssigned(22, [], [5])] + [Referenced(21, i, Pos(24, 32), false, false, [5])] + [Declared(23, i, Pos(27, 18), Initialized, [])], Referenced(24, i, Pos(27, 25), false, false, []), fs);
    assert Analyse(tr, [] + [Referenced(21, o, Pos(24, 29), false, false, [])] + [Declared(22, o, Pos(25, 42), Initialized, [5])] + [OutAssigned(22, [], [5])] + [Referenced(21, i, Pos(24, 32), false, false, [5])] + [Declared(23, i, Pos(27, 18), Initialized, [])] + [Referenced(24, i, Pos(27, 25), false, false, [])], fs) == [] + [Diag(NotInContext, o, Pos(24, 29))] + [] + [] + [] + [] + [];
    assert Replay(tr, [] + [Referenced(21, o, Pos(24, 29), false, false, [])] + [Declared(22, o, Pos(25, 42), Initialized, [5])] + [OutAssigned(22, [], [5])] + [Referenced(21, i, Pos(24, 32), false, false, [5])] + [Declared(23, i, Pos(27, 18), Initialized, [])] + [Referenced(24, i, Pos(27, 25), false, false, [])], fs) == fs + [Fact(22, o, [5])] + [Fact(23, i, [])];
    Event46(i, j, k, l, m, n, o, p, q, r, tr, fs + [Fact(22, o, [5])] + [Fact(23, i, [])]);
    AnalyseSnoc(tr, [] + [Referenced(21, o, Pos(24, 29), false, false, [])] + [Declared(22, o, Pos(25, 42), Initialized, [5])] + [OutAssigned(22, [], [5])] + [Referenced(21, i, Pos(24, 32), false, false, [5])] + [Declared(23, i, Pos(27, 18), Initialized, [])] + [Referenced(24, i, Pos(27, 25), false, false, [])], Declared(25, p, Pos(28, 42), Initialized, [6]), fs);
    assert Analyse(tr, [] + [Referenced(21, o, Pos(24, 29), false, false, [])] + [Declared(22, o, Pos(25, 42), Initialized, [5])] + [OutAssigned(22, [], [5])] + [Referenced(21, i, Pos(24, 32), false, false, [5])] + [Declared(23, i, Pos(27, 18), Initialized, [])] + [Referenced(24, i, Pos(27, 25), false, false, [])] + [Declared(25, p, Pos(28, 42), Initialized, [6])], fs) == [] + [Diag(NotInContext, o, Pos(24, 29))] + [] + [] + [] + [] + [] + [];
    assert Replay(tr, [] + [Referenced(21, o, Pos(24, 29), false, false, [])] + [Declared(22, o, Pos(25, 42), Initialized, [5])] + [OutAssigned(22, [], [5])] + [Referenced(21, i, Pos(24, 32), false, false, [5])] + [Declared(23, i, Pos(27, 18), Initialized, [])] + [Referenced(24, i, Pos(27, 25), false, false, [])] + [Declared(25, p, Pos(28, 42), Initialized, [6])], fs) == fs + [Fact(22, o, [5])] + [Fact(23, i, [])] + [Fact(25, p, [6])];
    Event47(i, j, k, l, m, n, o, p, q, r, tr, fs + [Fact(22, o, [5])] + [Fact(23, i, [])] + [Fact(25, p, [6])]);
    AnalyseSnoc(tr, [] + [Referenced(21, o, Pos(24, 29), false, false, [])] + [Declared(22, o, Pos(25, 42), Initialized, [5])] + [OutAssigned(22, [], [5])] + [Referenced(21, i, Pos(24, 32), false, false, [5])] + [Declared(23, i, Pos(27, 18), Initialized, [])] + [Referenced(24, i, Pos(27, 25), false, false, [])] + [Declared(25, p, Pos(28, 42), Initialized, [6])], OutAssigned(25, [], [6]), fs);
    AnalyseSplit(tr, evs, Chunk5(i, j, k, l, m, n, o, p, q, r), []);
  }

  /** The analysis of events 48 to 55, after the events before them. */
  lemma {:induction false} Analysed6(i: string, j: string, k: string, l: string, m: string, n: string, o: string, p: string, q: string, r: string, tr: Tree, evs: seq<Event>, fs: seq<Fact>, rs: seq<Diag>)
    requires |tr.scopes| == 32
    requires Parent(tr, 0) == None
    requires Parent(tr, 3) == Some(0)
    requires Parent(tr, 4) == Some(3)
    requires Parent(tr, 23) == Some(4)
    requires Parent(tr, 24) == Some(23)
    requires Parent(tr, 26) == Some(4)
    requires Parent(tr, 27) == Some(26)
    requires Parent(tr, 28) == Some(27)
    requires LocalsOf(tr, 0) == []
    requires LocalsOf(tr, 3) == []
    requires LocalsOf(tr, 4) == []
    requires LocalsOf(tr, 23) == [Local(i, Pos(27, 18))]
    requires LocalsOf(tr, 24) == []
    requires LocalsOf(tr, 26) == [Local(i, Pos(30, 18))]
    requires LocalsOf(tr, 27) == []
    requires LocalsOf(tr, 28) == [Local(q, Pos(32, 43))]
    requires i != p && i != q
    requires Analyse(tr, evs, []) == rs
    requires Replay(tr, evs, []) == fs
    requires !Assigned(fs, 26, i, [])
    requires !Assigned(fs, 28, q, [7])
    ensures Analyse(tr, evs + Chunk6(i, j, k, l, m, n, o, p, q, r), []) == rs + ([] + [] + [Diag(NotInContext, p, Pos(27, 36))] + [] + [] + [Diag(NotInContext, q, Pos(30, 29))] + [] + [] + [])
    ensures Replay(tr, evs + Chunk6(i, j, k, l, m, n, o, p, q, r), []) == fs + [Fact(23, i, [6])] + [Fact(26, i, [])] + [Fact(28, q, [7])]
  {
    assert Analyse(tr, [], fs) == [] && Replay(tr, [], fs) == fs;
    Event48(i, j, k, l, m, n, o, p, q, r, tr, fs);
    AnalyseSnoc(tr, [], Referenced(24, i, Pos(27, 32), true, false, [6]), fs);
    assert Analyse(tr, [] + [Referenced(24, i, Pos(27, 32), true, false, [6])], fs) == [] + [];
    assert Replay(tr, [] + [Referenced(24, i, Pos(27, 32), true, false, [6])], fs) == fs + [Fact(23, i, [6])];
    Event49(i, j, k, l, m, n, o, p, q, r, tr, fs + [Fact(23, i, [6])]);
    AnalyseSnoc(tr, [] + [Referenced(24, i, Pos(27, 32), true, false, [6])], Referenced(24, p, Pos(27, 36), false, false, [6]), fs);
    assert Analyse(tr, [] + [Referenced(24, i, Pos(27, 32), true, false, [6])] + [Referenced(24, p, Pos(27, 36), false, false, [6])], fs) == [] + [] + [Diag(NotInContext, p, Pos(27, 36))];
    assert Replay(tr, [] + [Referenced(24, i, Pos(27, 32), true, false, [6])] + [Referenced(24, p, Pos(27, 36), false, false, [6])], fs) == fs + [Fact(23, i, [6])];
    Event50(i, j, k, l, m, n, o, p, q, r, tr, fs + [Fact(23, i, [6])]);
    AnalyseSnoc(tr, [] + [Referenced(24, i, Pos(27, 32), true, false, [6])] + [Referenced(24, p, Pos(27, 36), false, false, [6])], Declared(26, i, Pos(30, 18), Initialized, []), fs);
    assert Analyse(tr, [] + [Referenced(24, i, Pos(27, 32), true, false, [6])] + [Referenced(24, p, Pos(27, 36), false, false, [6])] + [Declared(26, i, Pos(30, 18), Initialized, [])], fs) == [] + [] + [Diag(NotInContext, p, Pos(27, 36))] + [];
    assert Replay(tr, [] + [Referenced(24, i, Pos(27, 32), true, false, [6])] + [Referenced(24, p, Pos(27, 36), false, false, [6])] + [Declared(26, i, Pos(30, 18), Initialized, [])], fs) == fs + [Fact(23, i, [6])] + [Fact(26, i, [])];
    AssignedSnoc(fs, Fact(23, i, [6]), 26, i, []);
    AssignedSnoc(fs + [Fact(23, i, [6])], Fact(26, i, []), 26, i, []);
    Event51(i, j, k, l, m, n, o, p, q, r, tr, fs + [Fact(23, i, [6])] + [Fact(26, i, [])]);
    AnalyseSnoc(tr, [] + [Referenced(24, i, Pos(27, 32), true, false, [6])] + [Referenced(24, p, Pos(27, 36), false, false, [6])] + [Declared(26, i, Pos(30, 18), Initialized, [])], Referenced(27, i, Pos(30, 25), false, false, []), fs);
    assert Analyse(tr, [] + [Referenced(24, i, Pos(27, 32), true, false, [6])] + [Referenced(24, p, Pos(27, 36), false, false, [6])] + [Declared(26, i, Pos(30, 18), Initialized, [])] + [Referenced(27, i, Pos(30, 25), false, false, [])], fs) == [] + [] + [Diag(NotInContext, p, Pos(27, 36))] + [] + [];
    assert Replay(tr, [] + [Referenced(24, i, Pos(27, 32), true, false, [6])] + [Referenced(24, p, Pos(27, 36), false, false, [6])] + [Declared(26, i, Pos(30, 18), Initialized, [])] + [Referenced(27, i, Pos(30, 25), false, false, [])], fs) == fs + [Fact(23, i, [6])] + [Fact(26, i, [])];
    Event52(i, j, k, l, m, n, o, p, q, r, tr, fs + [Fact(23, i, [6])] + [Fact(26, i, [])]);
    AnalyseSnoc(tr, [] + [Referenced(24, i, Pos(27, 32), true, false, [6])] + [Referenced(24, p, Pos(27, 36), false, false, [6])] + [Declared(26, i, Pos(30, 18), Initialized, [])] + [Referenced(27, i, Pos(30, 25), false, false, [])], Referenced(27, q, Pos(30, 29), false, false, []), fs);
    assert Analyse(tr, [] + [Referenced(24, i, Pos(27, 32), true, false, [6])] + [Referenced(24, p, Pos(27, 36), false, false, [6])] + [Declared(26, i, Pos(30, 18), Initialized, [])] + [Referenced(27, i, Pos(30, 25), false, false, [])] + [Referenced(27, q, Pos(30, 29), false, false, [])], fs) == [] + [] + [Diag(NotInContext, p, Pos(27, 36))] + [] + [] + [Diag(NotInContext, q, Pos(30, 29))];
    assert Replay(tr, [] + [Referenced(24, i, Pos(27, 32), true, false, [6])] + [Referenced(24, p, Pos(27, 36), false, false, [6])] + [Declared(26, i, Pos(30, 18), Initialized, [])] + [Referenced(27, i, Pos(30, 25), false, false, [])] + [Referenced(27, q, Pos(30, 29), false, false, [])], fs) == fs + [Fact(23, i, [6])] + [Fact(26, i, [])];
    Event53(i, j, k, l, m, n, o, p, q, r, tr, fs + [Fact(23, i, [6])] + [Fact(26, i, [])]);
    AnalyseSnoc(tr, [] + [Referenced(24, i, Pos(27, 32), true, false, [6])] + [Referenced(24, p, Pos(27, 36), false, false, [6])] + [Declared(26, i, Pos(30, 18), Initialized, [])] + [Referenced(27, i, Pos(30, 25), false, false, [])] + [Referenced(27, q, Pos(30, 29), false, false, [])], Declared(28, q, Pos(32, 43), Initialized, [7]), fs);
    assert Analyse(tr, [] + [Referenced(24, i, Pos(27, 32), true, false, [6])] + [Referenced(24, p, Pos(27, 36), false, false, [6])] + [Declared(26, i, Pos(30, 18), Initialized, [])] + [Referenced(27, i, Pos(30, 25), false, false, [])] + [Referenced(27, q, Pos(30, 29), false, false, [])] + [Declared(28, q, Pos(32, 43), Initialized, [7])], fs) == [] + [] + [Diag(NotInContext, p, Pos(27, 36))] + [] + [] + [Diag(NotInContext, q, Pos(30, 29))] + [];
    assert Replay(tr, [] + [Referenced(24, i, Pos(27, 32), true, false, [6])] + [Referenced(24, p, Pos(27, 36), false, false, [6])] + [Declared(26, i, Pos(30, 18), Initialized, [])] + [Referenced(27, i, Pos(30, 25), false, false, [])] + [Referenced(27, q, Pos(30, 29), false, false, [])] + [Declared(28, q, Pos(32, 43), Initialized, [7])], fs) == fs + [Fact(23, i, [6])] + [Fact(26, i, [])] + [Fact(28, q, [7])];
    AssignedSnoc(fs, Fact(23, i, [6]), 28, q, [7]);
    AssignedSnoc(fs + [Fact(23, i, [6])], Fact(26, i, []), 28, q, [7]);
    AssignedSnoc(fs + [Fact(23, i, [6])] + [Fact(26, i, [])], Fact(28, q, [7]), 28, q, [7]);
    Event54(i, j, k, l, m, n, o, p, q, r, tr, fs + [Fact(23, i, [6])] + [Fact(26, i, [])] + [Fact(28, q, [7])]);
    AnalyseSnoc(tr, [] + [Referenced(24, i, Pos(27, 32), true, false, [6])] + [Referenced(24, p, Pos(27, 36), false, false, [6])] + [Declared(26, i, Pos(30, 18), Initialized, [])] + [Referenced(27, i, Pos(30, 25), false, false, [])] + [Referenced(27, q, Pos(30, 29), false, false, [])] + [Declared(28, q, Pos(32, 43), Initialized, [7])], Referenced(28, q, Pos(32, 52), false, false, [7]), fs);
    assert Analyse(tr, [] + [Referenced(24, i, Pos(27, 32), true, false, [6])] + [Referenced(24, p, Pos(27, 36), false, false, [6])] + [Declared(26, i, Pos(30, 18), Initialized, [])] + [Referenced(27, i, Pos(30, 25), false, false, [])] + [Referenced(27, q, Pos(30, 29), false, false, [])] + [Declared(28, q, Pos(32, 43), Initialized, [7])] + [Referenced(28, q, Pos(32, 52), false, false, [7])], fs) == [] + [] + [Diag(NotInContext, p, Pos(27, 36))] + [] + [] + [Diag(NotInContext, q, Pos(30, 29))] + [] + [];
    assert Replay(tr, [] + [Referenced(24, i, Pos(27, 32), true, false, [6])] + [Referenced(24, p, Pos(27, 36), false, false, [6])] + [Declared(26, i, Pos(30, 18), Initialized, [])] + [Referenced(27, i, Pos(30, 25), false, false, [])] + [Referenced(27, q, Pos(30, 29), false, false, [])] + [Declared(28, q, Pos(32, 43), Initialized, [7])] + [Referenced(28, q, Pos(32, 52), false, false, [7])], fs) == fs + [Fact(23, i, [6])] + [Fact(26, i, [])] + [Fact(28, q, [7])];
    Event55(i, j, k, l, m, n, o, p, q, r, tr, fs + [Fact(23, i, [6])] + [Fact(26, i, [])] + [Fact(28, q, [7])]);
    AnalyseSnoc(tr, [] + [Referenced(24, i, Pos(27, 32), true, false, [6])] + [Referenced(24, p, Pos(27, 36), false, false, [6])] + [Declared(26, i, Pos(30, 18), Initialized, [])] + [Referenced(27, i, Pos(30, 25), false, false, [])] + [Referenced(27, q, Pos(30, 29), false, false, [])] + [Declared(28, q, Pos(32, 43), Initialized, [7])] + [Referenced(28, q, Pos(32, 52), false, false, [7])], OutAssigned(28, [], [7]), fs);
    AnalyseSplit(tr, evs, Chunk6(i, j, k, l, m, n, o, p, q, r), []);
  }

  /** The analysis of events 56 to 62, after the events before them. */
  lemma {:induction false} Analysed7(i: string, j: string, k: string, l: string, m: string, n: string, o: string, p: string, q: string, r: string, tr: Tree, evs: seq<Event>, fs: seq<Fact>, rs: seq<Diag>)
    requires |tr.scopes| == 32
    requires Parent(tr, 0) == None
    requires Parent(tr, 3) == Some(0)
    requires Parent(tr, 4) == Some(3)
    requires Parent(tr, 26) == Some(4)
    requires Parent(tr, 27) == Some(26)
    requires Parent(tr, 29) == Some(4)
    requires Parent(tr, 30) == Some(29)
    requires Parent(tr, 31) == Some(30)
    requires LocalsOf(tr, 0) == []
    requires LocalsOf(tr, 3) == []
    requires LocalsOf(tr, 4) == []
    requires LocalsOf(tr, 26) == [Local(i, Pos(30, 18))]
    requires LocalsOf(tr, 27) == []
    requires LocalsOf(tr, 29) == [Local(i, Pos(35, 18))]
    requires LocalsOf(tr, 30) == []
    requires LocalsOf(tr, 31) == [Local(r, Pos(37, 42))]
    requires i != r
    requires Analyse(tr, evs, []) == rs
    requires Replay(tr, evs, []) == fs
    requires Assigned(fs, 26, i, [7])
    requires !Assigned(fs, 29, i, [])
    ensures Analyse(tr, evs + Chunk7(i, j, k, l, m, n, o, p, q, r), []) == rs + ([] + [] + [] + [] + [] + [] + [] + [Diag(NotInContext, r, Pos(35, 36))])
    ensures Replay(tr, evs + Chunk7(i, j, k, l, m, n, o, p, q, r), []) == fs + [Fact(29, i, [])] + [Fact(31, r, [8])] + [Fact(29, i, [8])]
  {
    assert Analyse(tr, [], fs) == [] && Replay(tr, [], fs) == fs;
    Event56(i, j, k, l, m, n, o, p, q, r, tr, fs);
    AnalyseSnoc(tr, [], Referenced(27, i, Pos(30, 32), false, false, [7]), fs);
    assert Analyse(tr, [] + [Referenced(27, i, Pos(30, 32), false, false, [7])], fs) == [] + [];
    assert Replay(tr, [] + [Referenced(27, i, Pos(30, 32), false, false, [7])], fs) == fs;
    Event57(i, j, k, l, m, n, o, p, q, r, tr, fs);
    AnalyseSnoc(tr, [] + [Referenced(27, i, Pos(30, 32), false, false, [7])], Declared(29, i, Pos(35, 18), Initialized, []), fs);
    assert Analyse(tr, [] + [Referenced(27, i, Pos(30, 32), false, false, [7])] + [Declared(29, i, Pos(35, 18), Initialized, [])], fs) == [] + [] + [];
    assert Replay(tr, [] + [Referenced(27, i, Pos(30, 32), false, false, [7])] + [Declared(29, i, Pos(35, 18), Initialized, [])], fs) == fs + [Fact(29, i, [])];
    AssignedSnoc(fs, Fact(29, i, []), 29, i, []);
    Event58(i, j, k, l, m, n, o, p, q, r, tr, fs + [Fact(29, i, [])]);
    AnalyseSnoc(tr, [] + [Referenced(27, i, Pos(30, 32), false, false, [7])] + [Declared(29, i, Pos(35, 18), Initialized, [])], Referenced(30, i, Pos(35, 25), false, false, []), fs);
    assert Analyse(tr, [] + [Referenced(27, i, Pos(30, 32), false, false, [7])] + [Declared(29, i, Pos(35, 18), Initialized, [])] + [Referenced(30, i, Pos(35, 25), false, false, [])], fs) == [] + [] + [] + [];
    assert Replay(tr, [] + [Referenced(27, i, Pos(30, 32), false, false, [7])] + [Declared(29, i, Pos(35, 18), Initialized, [])] + [Referenced(30, i, Pos(35, 25), false, false, [])], fs) == fs + [Fact(29, i, [])];
    Event59(i, j, k, l, m, n, o, p, q, r, tr, fs + [Fact(29, i, [])]);
    AnalyseSnoc(tr, [] + [Referenced(27, i, Pos(30, 32), false, false, [7])] + [Declared(29, i, Pos(35, 18), Initialized, [])] + [Referenced(30, i, Pos(35, 25), false, false, [])], Declared(31, r, Pos(37, 42), Initialized, [8]), fs);
    assert Analyse(tr, [] + [Referenced(27, i, Pos(30, 32), false, false, [7])] + [Declared(29, i, Pos(35, 18), Initialized, [])] + [Referenced(30, i, Pos(35, 25), false, false, [])] + [Declared(31, r, Pos(37, 42), Initialized, [8])], fs) == [] + [] + [] + [] + [];
    assert Replay(tr, [] + [Referenced(27, i, Pos(30, 32), false, false, [7])] + [Declared(29, i, Pos(35, 18), Initialized, [])] + [Referenced(30, i, Pos(35, 25), false, false, [])] + [Declared(31, r, Pos(37, 42), Initialized, [8])], fs) == fs + [Fact(29, i, [])] + [Fact(31, r, [8])];
    Event60(i, j, k, l, m, n, o, p, q, r, tr, fs + [Fact(29, i, [])] + [Fact(31, r, [8])]);
    AnalyseSnoc(tr, [] + [Referenced(27, i, Pos(30, 32), false, false, [7])] + [Declared(29, i, Pos(35, 18), Initialized, [])] + [Referenced(30, i, Pos(35, 25), false, false, [])] + [Declared(31, r, Pos(37, 42), Initialized, [8])], OutAssigned(31, [], [8]), fs);
    assert Analyse(tr, [] + [Referenced(27, i, Pos(30, 32), false, false, [7])] + [Declared(29, i, Pos(35, 18), Initialized, [])] + [Referenced(30, i, Pos(35, 25), false, false, [])] + [Declared(31, r, Pos(37, 42), Initialized, [8])] + [OutAssigned(31, [], [8])], fs) == [] + [] + [] + [] + [] + [];
    assert Replay(tr, [] + [Referenced(27, i, Pos(30, 32), false, false, [7])] + [Declared(29, i, Pos(35, 18), Initialized, [])] + [Referenced(30, i, Pos(35, 25), false, false, [])] + [Declared(31, r, Pos(37, 42), Initialized, [8])] + [OutAssigned(31, [], [8])], fs) == fs + [Fact(29, i, [])] + [Fact(31, r, [8])];
    Event61(i, j, k, l, m, n, o, p, q, r, tr, fs + [Fact(29, i, [])] + [Fact(31, r, [8])]);
    AnalyseSnoc(tr, [] + [Referenced(27, i, Pos(30, 32), false, false, [7])] + [Declared(29, i, Pos(35, 18), Initialized, [])] + [Referenced(30, i, Pos(35, 25), false, false, [])] + [Declared(31, r, Pos(37, 42), Initialized, [8])] + [OutAssigned(31, [], [8])], Referenced(30, i, Pos(35, 32), true, false, [8]), fs);
    assert Analyse(tr, [] + [Referenced(27, i, Pos(30, 32), false, false, [7])] + [Declared(29, i, Pos(35, 18), Initialized, [])] + [Referenced(30, i, Pos(35, 25), false, false, [])] + [Declared(31, r, Pos(37, 42), Initialized, [8])] + [OutAssigned(31, [], [8])] + [Referenced(30, i, Pos(35, 32), true, false, [8])], fs) == [] + [] + [] + [] + [] + [] + [];
    assert Replay(tr, [] + [Referenced(27, i, Pos(30, 32), false, false, [7])] + [Declared(29, i, Pos(35, 18), Initialized, [])] + [Referenced(30, i, Pos(35, 25), false, false, [])] + [Declared(31, r, Pos(37, 42), Initialized, [8])] + [OutAssigned(31, [], [8])] + [Referenced(30, i, Pos(35, 32), true, false, [8])], fs) == fs + [Fact(29, i, [])] + [Fact(31, r, [8])] + [Fact(29, i, [8])];
    Event62(i, j, k, l, m, n, o, p, q, r, tr, fs + [Fact(29, i, [])] + [Fact(31, r, [8])] + [Fact(29, i, [8])]);
    AnalyseSnoc(tr, [] + [Referenced(27, i, Pos(30, 32), false, false, [7])] + [Declared(29, i, Pos(35, 18), Initialized, [])] + [Referenced(30, i, Pos(35, 25), false, false, [])] + [Declared(31, r, Pos(37, 42), Initialized, [8])] + [OutAssigned(31, [], [8])] + [Referenced(30, i, Pos(35, 32), true, false, [8])], Referenced(30, r, Pos(35, 36), false, false, [8]), fs);
    AnalyseSplit(tr, evs, Chunk7(i, j, k, l, m, n, o, p, q, r), []);
  }

  lemma {:induction false} Glue0(i: string, j: string, k: string, l: string, m: string, n: string, o: string, p: string, q: string, r: string, rs: seq<Diag>)
    requires rs == []
    ensures rs + ([] + [] + [] + [Diag(Unassigned, j, Pos(8, 38))] + [] + [] + [] + [] + []) == [Diag(Unassigned, j, Pos(8, 38))]
  {
  }

  lemma {:induction false} Glue1(i: string, j: string, k: string, l: string, m: string, n: string, o: string, p: string, q: string, r: string, rs: seq<Diag>)
    requires rs == [Diag(Unassigned, j, Pos(8, 38))]
    ensures rs + ([] + [] + [] + [] + [] + [] + [] + [] + []) == [Diag(Unassigned, j, Pos(8, 38))]
  {
  }

  lemma {:induction false} Glue2(i: string, j: string, k: string, l: string, m: string, n: string, o: string, p: string, q: string, r: string, rs: seq<Diag>)
    requires rs == [Diag(Unassigned, j, Pos(8, 38))]
    ensures rs + ([] + [] + [] + [Diag(NotInContext, j, Pos(14, 9))] + [Diag(NotInContext, k, Pos(15, 9))] + [] + [Diag(NotInContext, l, Pos(17, 22))] + [] + []) == [Diag(Unassigned, j, Pos(8, 38)), Diag(NotInContext, j, Pos(14, 9)), Diag(NotInContext, k, Pos(15, 9)), Diag(NotInContext, l, Pos(17, 22))]
  {
  }

  lemma {:induction false} Glue3(i: string, j: string, k: string, l: string, m: string, n: string, o: string, p: string, q: string, r: string, rs: seq<Diag>)
    requires rs == [Diag(Unassigned, j, Pos(8, 38)), Diag(NotInContext, j, Pos(14, 9)), Diag(NotInContext, k, Pos(15, 9)), Diag(NotInContext, l, Pos(17, 22))]
    ensures rs + ([] + [] + [] + [] + [Diag(UsedBeforeDeclared, m, Pos(19, 29))] + [] + [] + [] + []) == [Diag(Unassigned, j, Pos(8, 38)), Diag(NotInContext, j, Pos(14, 9)), Diag(NotInContext, k, Pos(15, 9)), Diag(NotInContext, l, Pos(17, 22)), Diag(UsedBeforeDeclared, m, Pos(19, 29))]
  {
  }

  lemma {:induction false} Glue4(i: string, j: string, k: string, l: string, m: string, n: string, o: string, p: string, q: string, r: string, rs: seq<Diag>)
    requires rs == [Diag(Unassigned, j, Pos(8, 38)), Diag(NotInContext, j, Pos(14, 9)), Diag(NotInContext, k, Pos(15, 9)), Diag(NotInContext, l, Pos(17, 22)), Diag(UsedBeforeDeclared, m, Pos(19, 29))]
    ensures rs + ([] + [Diag(NotInContext, n, Pos(21, 22))] + [] + [] + [] + [] + [] + [] + []) == [Diag(Unassigned, j, Pos(8, 38)), Diag(NotInContext, j, Pos(14, 9)), Diag(NotInContext, k, Pos(15, 9)), Diag(NotInContext, l, Pos(17, 22)), Diag(UsedBeforeDeclared, m, Pos(19, 29)), Diag(NotInContext, n, Pos(21, 22))]
  {
  }

  lemma {:induction false} Glue5(i: string, j: string, k: string, l: string, m: string, n: string, o: string, p: string, q: string, r: string, rs: seq<Diag>)
    requires rs == [Diag(Unassigned, j, Pos(8, 38)), Diag(NotInContext, j, Pos(14, 9)), Diag(NotInContext, k, Pos(15, 9)), Diag(NotInContext, l, Pos(17, 22)), Diag(UsedBeforeDeclared, m, Pos(19, 29)), Diag(NotInContext, n, Pos(21, 22))]
    ensures rs + ([] + [Diag(NotInContext, o, Pos(24, 29))] + [] + [] + [] + [] + [] + [] + []) == [Diag(Unassigned, j, Pos(8, 38)), Diag(NotInContext, j, Pos(14, 9)), Diag(NotInContext, k, Pos(15, 9)), Diag(NotInContext, l, Pos(17, 22)), Diag(UsedBeforeDeclared, m, Pos(19, 29)), Diag(NotInContext, n, Pos(21, 22)), Diag(NotInContext, o, Pos(24, 29))]
  {
  }

  /** The analysis of events 0 to 47, after the events before them. */
  lemma {:induction false} Stage0(i: string, j: string, k: string, l: string, m: string, n: string, o: string, p: string, q: string, r: string, tr: Tree, evs: seq<Event>)
    requires ScopesAre(tr, Layout())
    requires LocalsFit(i, j, k, l, m, n, o, p, q, r, tr)
    requires i != j && i != k && i != l && i != m && i != n && i != o && i != p && j != k
    requires Analyse(tr, evs, []) == []
    requires Replay(tr, evs, []) == []
    ensures Analyse(tr, evs + Chunk0(i, j, k, l, m, n, o, p, q, r) + Chunk1(i, j, k, l, m, n, o, p, q, r) + Chunk2(i, j, k, l, m, n, o, p, q, r) + Chunk3(i, j, k, l, m, n, o, p, q, r) + Chunk4(i, j, k, l, m, n, o, p, q, r) + Chunk5(i, j, k, l, m, n, o, p, q, r), []) == [Diag(Unassigned, j, Pos(8, 38)), Diag(NotInContext, j, Pos(14, 9)), Diag(NotInContext, k, Pos(15, 9)), Diag(NotInContext, l, Pos(17, 22)), Diag(UsedBeforeDeclared, m, Pos(19, 29)), Diag(NotInContext, n, Pos(21, 22)), Diag(NotInContext, o, Pos(24, 29))]
    ensures Replay(tr, evs + Chunk0(i, j, k, l, m, n, o, p, q, r) + Chunk1(i, j, k, l, m, n, o, p, q, r) + Chunk2(i, j, k, l, m, n, o, p, q, r) + Chunk3(i, j, k, l, m, n, o, p, q, r) + Chunk4(i, j, k, l, m, n, o, p, q, r) + Chunk5(i, j, k, l, m, n, o, p, q, r), []) == Known5(i, j, k, l, m, n, o, p, q, r)
  {
    assert !Assigned([], 5, i, []);
    assert !Assigned([], 6, j, [0]);
    assert !Assigned([], 5, i, [0]);
    Scope0(i, j, k, l, m, n, o, p, q, r, tr);
    Scope3(i, j, k, l, m, n, o, p, q, r, tr);
    Scope4(i, j, k, l, m, n, o, p, q, r, tr);
    Scope5(i, j, k, l, m, n, o, p, q, r, tr);
    Scope6(i, j, k, l, m, n, o, p, q, r, tr);
    Scope7(i, j, k, l, m, n, o, p, q, r, tr);
    Analysed0(i, j, k, l, m, n, o, p, q, r, tr, evs, [], []);
    Glue0(i, j, k, l, m, n, o, p, q, r, []);
    Read0(i, j, k, l, m, n, o, p, q, r);
    Read1(i, j, k, l, m, n, o, p, q, r);
    Read2(i, j, k, l, m, n, o, p, q, r);
    Read3(i, j, k, l, m, n, o, p, q, r);
    Scope8(i, j, k, l, m, n, o, p, q, r, tr);
    Scope9(i, j, k, l, m, n, o, p, q, r, tr);
    Scope10(i, j, k, l, m, n, o, p, q, r, tr);
    Analysed1(i, j, k, l, m, n, o, p, q, r, tr, evs + Chunk0(i, j, k, l, m, n, o, p, q, r), Known0(i, j, k, l, m, n, o, p, q, r), [Diag(Unassigned, j, Pos(8, 38))]);
    Glue1(i, j, k, l, m, n, o, p, q, r, [Diag(Unassigned, j, Pos(8, 38))]);
    Read4(i, j, k, l, m, n, o, p, q, r);
    Read5(i, j, k, l, m, n, o, p, q, r);
    Scope11(i, j, k, l, m, n, o, p, q, r, tr);
    Scope12(i, j, k, l, m, n, o, p, q, r, tr);
    Analysed2(i, j, k, l, m, n, o, p, q, r, tr, evs + Chunk0(i, j, k, l, m, n, o, p, q, r) + Chunk1(i, j, k, l, m, n, o, p, q, r), Known1(i, j, k, l, m, n, o, p, q, r), [Diag(Unassigned, j, Pos(8, 38))]);
    Glue2(i, j, k, l, m, n, o, p, q, r, [Diag(Unassigned, j, Pos(8, 38))]);
    Read6(i, j, k, l, m, n, o, p, q, r);
    Read7(i, j, k, l, m, n, o, p, q, r);
    Read8(i, j, k, l, m, n, o, p, q, r);
    Scope14(i, j, k, l, m, n, o, p, q, r, tr);
    Scope15(i, j, k, l, m, n, o, p, q, r, tr);
    Scope17(i, j, k, l, m, n, o, p, q, r, tr);
    Analysed3(i, j, k, l, m, n, o, p, q, r, tr, evs + Chunk0(i, j, k, l, m, n, o, p, q, r) + Chunk1(i, j, k, l, m, n, o, p, q, r) + Chunk2(i, j, k, l, m, n, o, p, q, r), Known2(i, j, k, l, m, n, o, p, q, r), [Diag(Unassigned, j, Pos(8, 38)), Diag(NotInContext, j, Pos(14, 9)), Diag(NotInContext, k, Pos(15, 9)), Diag(NotInContext, l, Pos(17, 22))]);
    Glue3(i, j, k, l, m, n, o, p, q, r, [Diag(Unassigned, j, Pos(8, 38)), Diag(NotInContext, j, Pos(14, 9)), Diag(NotInContext, k, Pos(15, 9)), Diag(NotInContext, l, Pos(17, 22))]);
    Read9(i, j, k, l, m, n, o, p, q, r);
    Read10(i, j, k, l, m, n, o, p, q, r);
    Read11(i, j, k, l, m, n, o, p, q, r);
    Read12(i, j, k, l, m, n, o, p, q, r);
    Scope18(i, j, k, l, m, n, o, p, q, r, tr);
    Scope19(i, j, k, l, m, n, o, p, q, r, tr);
    Scope20(i, j, k, l, m, n, o, p, q, r, tr);
    Scope21(i, j, k, l, m, n, o, p, q, r, tr);
    Analysed4(i, j, k, l, m, n, o, p, q, r, tr, evs + Chunk0(i, j, k, l, m, n, o, p, q, r) + Chunk1(i, j, k, l, m, n, o, p, q, r) + Chunk2(i, j, k, l, m, n, o, p, q, r) + Chunk3(i, j, k, l, m, n, o, p, q, r), Known3(i, j, k, l, m, n, o, p, q, r), [Diag(Unassigned, j, Pos(8, 38)), Diag(NotInContext, j, Pos(14, 9)), Diag(NotInContext, k, Pos(15, 9)), Diag(NotInContext, l, Pos(17, 22)), Diag(UsedBeforeDeclared, m, Pos(19, 29))]);
    Glue4(i, j, k, l, m, n, o, p, q, r, [Diag(Unassigned, j, Pos(8, 38)), Diag(NotInContext, j, Pos(14, 9)), Diag(NotInContext, k, Pos(15, 9)), Diag(NotInContext, l, Pos(17, 22)), Diag(UsedBeforeDeclared, m, Pos(19, 29))]);
    Read13(i, j, k, l, m, n, o, p, q, r);
    Read14(i, j, k, l, m, n, o, p, q, r);
    Scope22(i, j, k, l, m, n, o, p, q, r, tr);
    Scope23(i, j, k, l, m, n, o, p, q, r, tr);
    Scope24(i, j, k, l, m, n, o, p, q, r, tr);
    Scope25(i, j, k, l, m, n, o, p, q, r, tr);
    Analysed5(i, j, k, l, m, n, o, p, q, r, tr, evs + Chunk0(i, j, k, l, m, n, o, p, q, r) + Chunk1(i, j, k, l, m, n, o, p, q, r) + Chunk2(i, j, k, l, m, n, o, p, q, r) + Chunk3(i, j, k, l, m, n, o, p, q, r) + Chunk4(i, j, k, l, m, n, o, p, q, r), Known4(i, j, k, l, m, n, o, p, q, r), [Diag(Unassigned, j, Pos(8, 38)), Diag(NotInContext, j, Pos(14, 9)), Diag(NotInContext, k, Pos(15, 9)), Diag(NotInContext, l, Pos(17, 22)), Diag(UsedBeforeDeclared, m, Pos(19, 29)), Diag(NotInContext, n, Pos(21, 22))]);
    Glue5(i, j, k, l, m, n, o, p, q, r, [Diag(Unassigned, j, Pos(8, 38)), Diag(NotInContext, j, Pos(14, 9)), Diag(NotInContext, k, Pos(15, 9)), Diag(NotInContext, l, Pos(17, 22)), Diag(UsedBeforeDeclared, m, Pos(19, 29)), Diag(NotInContext, n, Pos(21, 22))]);
  }

  lemma {:induction false} Glue6(i: string, j: string, k: string, l: string, m: string, n: string, o: string, p: string, q: string, r: string, rs: seq<Diag>)
    requires rs == [Diag(Unassigned, j, Pos(8, 38)), Diag(NotInContext, j, Pos(14, 9)), Diag(NotInContext, k, Pos(15, 9)), Diag(NotInContext, l, Pos(17, 22)), Diag(UsedBeforeDeclared, m, Pos(19, 29)), Diag(NotInContext, n, Pos(21, 22)), Diag(NotInContext, o, Pos(24, 29))]
    ensures rs + ([] + [] + [Diag(NotInContext, p, Pos(27, 36))] + [] + [] + [Diag(NotInContext, q, Pos(30, 29))] + [] + [] + []) == [Diag(Unassigned, j, Pos(8, 38)), Diag(NotInContext, j, Pos(14, 9)), Diag(NotInContext, k, Pos(15, 9)), Diag(NotInContext, l, Pos(17, 22)), Diag(UsedBeforeDeclared, m, Pos(19, 29)), Diag(NotInContext, n, Pos(21, 22)), Diag(NotInContext, o, Pos(24, 29)), Diag(NotInContext, p, Pos(27, 36)), Diag(NotInContext, q, Pos(30, 29))]
  {
  }

  lemma {:induction false} Glue7(i: string, j: string, k: string, l: string, m: string, n: string, o: string, p: string, q: string, r: string, rs: seq<Diag>)
    requires rs == [Diag(Unassigned, j, Pos(8, 38)), Diag(NotInContext, j, Pos(14, 9)), Diag(NotInContext, k, Pos(15, 9)), Diag(NotInContext, l, Pos(17, 22)), Diag(UsedBeforeDeclared, m, Pos(19, 29)), Diag(NotInContext, n, Pos(21, 22)), Diag(NotInContext, o, Pos(24, 29)), Diag(NotInContext, p, Pos(27, 36)), Diag(NotInContext, q, Pos(30, 29))]
    ensures rs + ([] + [] + [] + [] + [] + [] + [] + [Diag(NotInContext, r, Pos(35, 36))]) == [Diag(Unassigned, j, Pos(8, 38)), Diag(NotInContext, j, Pos(14, 9)), Diag(NotInContext, k, Pos(15, 9)), Diag(NotInContext, l, Pos(17, 22)), Diag(UsedBeforeDeclared, m, Pos(19, 29)), Diag(NotInContext, n, Pos(21, 22)), Diag(NotInContext, o, Pos(24, 29)), Diag(NotInContext, p, Pos(27, 36)), Diag(NotInContext, q, Pos(30, 29)), Diag(NotInContext, r, Pos(35, 36))]
  {
  }

  /** The analysis of events 48 to 62, after the events before them. */
  lemma {:induction false} Stage1(i: string, j: string, k: string, l: string, m: string, n: string, o: string, p: string, q: string, r: string, tr: Tree, evs: seq<Event>)
    requires ScopesAre(tr, Layout())
    requires LocalsFit(i, j, k, l, m, n, o, p, q, r, tr)
    requires i != p && i != q && i != r
    requires Analyse(tr, evs, []) == [Diag(Unassigned, j, Pos(8, 38)), Diag(NotInContext, j, Pos(14, 9)), Diag(NotInContext, k, Pos(15, 9)), Diag(NotInContext, l, Pos(17, 22)), Diag(UsedBeforeDeclared, m, Pos(19, 29)), Diag(NotInContext, n, Pos(21, 22)), Diag(NotInContext, o, Pos(24, 29))]
    requires Replay(tr, evs, []) == Known5(i, j, k, l, m, n, o, p, q, r)
    ensures Analyse(tr, evs + Chunk6(i, j, k, l, m, n, o, p, q, r) + Chunk7(i, j, k, l, m, n, o, p, q, r), []) == [Diag(Unassigned, j, Pos(8, 38)), Diag(NotInContext, j, Pos(14, 9)), Diag(NotInContext, k, Pos(15, 9)), Diag(NotInContext, l, Pos(17, 22)), Diag(UsedBeforeDeclared, m, Pos(19, 29)), Diag(NotInContext, n, Pos(21, 22)), Diag(NotInContext, o, Pos(24, 29)), Diag(NotInContext, p, Pos(27, 36)), Diag(NotInContext, q, Pos(30, 29)), Diag(NotInContext, r, Pos(35, 36))]
    ensures Replay(tr, evs + Chunk6(i, j, k, l, m, n, o, p, q, r) + Chunk7(i, j, k, l, m, n, o, p, q, r), []) == Known7(i, j, k, l, m, n, o, p, q, r)
  {
    Read15(i, j, k, l, m, n, o, p, q, r);
    Read16(i, j, k, l, m, n, o, p, q, r);
    Scope0(i, j, k, l, m, n, o, p, q, r, tr);
    Scope3(i, j, k, l, m, n, o, p, q, r, tr);
    Scope4(i, j, k, l, m, n, o, p, q, r, tr);
    Scope23(i, j, k, l, m, n, o, p, q, r, tr);
    Scope24(i, j, k, l, m, n, o, p, q, r, tr);
    Scope26(i, j, k, l, m, n, o, p, q, r, tr);
    Scope27(i, j, k, l, m, n, o, p, q, r, tr);
    Scope28(i, j, k, l, m, n, o, p, q, r, tr);
    Analysed6(i, j, k, l, m, n, o, p, q, r, tr, evs, Known5(i, j, k, l, m, n, o, p, q, r), [Diag(Unassigned, j, Pos(8, 38)), Diag(NotInContext, j, Pos(14, 9)), Diag(NotInContext, k, Pos(15, 9)), Diag(NotInContext, l, Pos(17, 22)), Diag(UsedBeforeDeclared, m, Pos(19, 29)), Diag(NotInContext, n, Pos(21, 22)), Diag(NotInContext, o, Pos(24, 29))]);
    Glue6(i, j, k, l, m, n, o, p, q, r, [Diag(Unassigned, j, Pos(8, 38)), Diag(NotInContext, j, Pos(14, 9)), Diag(NotInContext, k, Pos(15, 9)), Diag(NotInContext, l, Pos(17, 22)), Diag(UsedBeforeDeclared, m, Pos(19, 29)), Diag(NotInContext, n, Pos(21, 22)), Diag(NotInContext, o, Pos(24, 29))]);
    Read17(i, j, k, l, m, n, o, p, q, r);
    Read18(i, j, k, l, m, n, o, p, q, r);
    Scope29(i, j, k, l, m, n, o, p, q, r, tr);
    Scope30(i, j, k, l, m, n, o, p, q, r, tr);
    Scope31(i, j, k, l, m, n, o, p, q, r, tr);
    Analysed7(i, j, k, l, m, n, o, p, q, r, tr, evs + Chunk6(i, j, k, l, m, n, o, p, q, r), Known6(i, j, k, l, m, n, o, p, q, r), [Diag(Unassigned, j, Pos(8, 38)), Diag(NotInContext, j, Pos(14, 9)), Diag(NotInContext, k, Pos(15, 9)), Diag(NotInContext, l, Pos(17, 22)), Diag(UsedBeforeDeclared, m, Pos(19, 29)), Diag(NotInContext, n, Pos(21, 22)), Diag(NotInContext, o, Pos(24, 29)), Diag(NotInContext, p, Pos(27, 36)), Diag(NotInContext, q, Pos(30, 29))]);
    Glue7(i, j, k, l, m, n, o, p, q, r, [Diag(Unassigned, j, Pos(8, 38)), Diag(NotInContext, j, Pos(14, 9)), Diag(NotInContext, k, Pos(15, 9)), Diag(NotInContext, l, Pos(17, 22)), Diag(UsedBeforeDeclared, m, Pos(19, 29)), Diag(NotInContext, n, Pos(21, 22)), Diag(NotInContext, o, Pos(24, 29)), Diag(NotInContext, p, Pos(27, 36)), Diag(NotInContext, q, Pos(30, 29))]);
  }

  /** The analysis of a tree with the test's scopes and events. */
  lemma {:induction false} Result(i: string, j: string, k: string, l: string, m: string, n: string, o: string, p: string, q: string, r: string, tr: Tree)
    requires ScopesAre(tr, Layout()) && LocalsFit(i, j, k, l, m, n, o, p, q, r, tr) && tr.events == Trace(i, j, k, l, m, n, o, p, q, r)
    requires i != j && i != k && i != l && i != m && i != n && i != o && i != p && i != q && i != r && j != k
    ensures Analyse(tr, tr.events, []) == [Diag(Unassigned, j, Pos(8, 38)), Diag(NotInContext, j, Pos(14, 9)), Diag(NotInContext, k, Pos(15, 9)), Diag(NotInContext, l, Pos(17, 22)), Diag(UsedBeforeDeclared, m, Pos(19, 29)), Diag(NotInContext, n, Pos(21, 22)), Diag(NotInContext, o, Pos(24, 29)), Diag(NotInContext, p, Pos(27, 36)), Diag(NotInContext, q, Pos(30, 29)), Diag(NotInContext, r, Pos(35, 36))]
  {
    assert Analyse(tr, [], []) == [] && Replay(tr, [], []) == [];
    Stage0(i, j, k, l, m, n, o, p, q, r, tr, []);
    Stage1(i, j, k, l, m, n, o, p, q, r, tr, [] + Chunk0(i, j, k, l, m, n, o, p, q, r) + Chunk1(i, j, k, l, m, n, o, p, q, r) + Chunk2(i, j, k, l, m, n, o, p, q, r) + Chunk3(i, j, k, l, m, n, o, p, q, r) + Chunk4(i, j, k, l, m, n, o, p, q, r) + Chunk5(i, j, k, l, m, n, o, p, q, r));
  }

  /** The diagnostics the test expects, in the order the analysis reports them. */
  lemma {:induction false} Outcome(i: string, j: string, k: string, l: string, m: string, n: string, o: string, p: string, q: string, r: string)
    requires i != j && i != k && i != l && i != m && i != n && i != o && i != p && i != q && i != r && j != k
    ensures Check(Program(i, j, k, l, m, n, o, p, q, r)) == [Diag(Unassigned, j, Pos(8, 38)), Diag(NotInContext, j, Pos(14, 9)), Diag(NotInContext, k, Pos(15, 9)), Diag(NotInContext, l, Pos(17, 22)), Diag(UsedBeforeDeclared, m, Pos(19, 29)), Diag(NotInContext, n, Pos(21, 22)), Diag(NotInContext, o, Pos(24, 29)), Diag(NotInContext, p, Pos(27, 36)), Diag(NotInContext, q, Pos(30, 29)), Diag(NotInContext, r, Pos(35, 36))]
  {
    Walked(i, j, k, l, m, n, o, p, q, r);
    LocalsAll(i, j, k, l, m, n, o, p, q, r, Build(Program(i, j, k, l, m, n, o, p, q, r)));
    Result(i, j, k, l, m, n, o, p, q, r, Build(Program(i, j, k, l, m, n, o, p, q, r)));
  }
}

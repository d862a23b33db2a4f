/**
 * The test InWhere_02 (DeclarationExpressionsTests.cs, lines 4969 to 4996).
 *
 * Its program, with its local names left as parameters, is walked into a scope tree and
 * analysed; Outcome states the exact list of diagnostics Check reports, for any names that
 * differ where the outcome depends on it.
 */
module ScenInWhere02 {
  import opened Syntax
  import opened Scopes
  import opened Binding
  import opened Reporting
  import opened Frames
  import opened Units
  import opened Traces

  /** The statements of the test's method, its names left as parameters. */
  function Body(res: string, x: string, y: string): seq<Stmt> {
    [Exprs([Declare(res, Pos(8, 13), Initialized)] + ([Query([], Param(x, Pos(8, 24)), [Clause([Call([Argument([Use(x, Pos(9, 38), false)])] + ([Argument([Declare(y, Pos(9, 49), Out)])]))])] + ([Clause([Use(y, Pos(10, 26), false)])]))]))] + ([Exprs([Call([Argument([Use(y, Pos(12, 34), false)])])])])
  }

  /** The program of the test: one method holding those statements. */
  function Program(res: string, x: string, y: string): seq<Fragment> {
    MainUnit(Body(res, x, y))
  }

  /** Scopes 0 to 6, in the order the walk opens them. */
  function Layout0(): seq<Scope> {
    [Scope(Unit, None),
     Scope(InstanceInitializers, Some(0)),
     Scope(StaticInitializers, Some(0)),
     Scope(MethodBody, Some(0)),
     Scope(BlockBody, Some(3)),
     Scope(QueryClause, Some(4)),
     Scope(QueryClause, Some(4))]
  }

  /** Its scopes, in the order the walk opens them. */
  function Layout(): seq<Scope> {
    Layout0()
  }

  lemma {:induction false} LayoutJoin0()
    ensures [Scope(Unit, None), Scope(InstanceInitializers, Some(0)), Scope(StaticInitializers, Some(0)), Scope(MethodBody, Some(0)), Scope(BlockBody, Some(3))] + [Scope(QueryClause, Some(4))] + [Scope(QueryClause, Some(4))] == Layout0()
  {
  }

  /** The layout, scope by scope. */
  lemma {:induction false} LayoutFlat()
    ensures [Scope(Unit, None), Scope(InstanceInitializers, Some(0)), Scope(StaticInitializers, Some(0)), Scope(MethodBody, Some(0)), Scope(BlockBody, Some(3))] + [Scope(QueryClause, Some(4))] + [Scope(QueryClause, Some(4))] == Layout()
  {
    LayoutJoin0();
  }

  /** Events 0 to 7 of the test, in evaluation order. */
  function Chunk0(res: string, x: string, y: string): seq<Event> {
    []
      + [Declared(4, res, Pos(8, 13), Initialized, [])]
      + [Declared(5, x, Pos(8, 24), Initialized, [0])]
      + [Referenced(5, x, Pos(9, 38), false, false, [0])]
      + [Declared(5, y, Pos(9, 49), Out, [0])]
      + [OutAssigned(5, [y], [0])]
      + [Declared(6, x, Pos(8, 24), Initialized, [1])]
      + [Referenced(6, y, Pos(10, 26), false, false, [1])]
      + [Referenced(4, y, Pos(12, 34), false, false, [])]
  }

  /** Events 8 to 8 of the test, in evaluation order. */
  function Chunk1(res: string, x: string, y: string): seq<Event> {
    []
      + [OutAssigned(4, [], [])]
  }

  /** The events of the test, in evaluation order. */
  function Trace(res: string, x: string, y: string): seq<Event> {
    []
      + Chunk0(res, x, y)
      + Chunk1(res, x, y)
  }

  lemma {:induction false} Walk1(res: string, x: string, y: string, tr: Tree)
    requires |tr.scopes| == 5 && tr.arms == 0
    ensures WalkStmt(Exprs([Declare(res, Pos(8, 13), Initialized)] + ([Query([], Param(x, Pos(8, 24)), [Clause([Call([Argument([Use(x, Pos(9, 38), false)])] + ([Argument([Declare(y, Pos(9, 49), Out)])]))])] + ([Clause([Use(y, Pos(10, 26), false)])]))])), Ctx(4, [], []), tr) == Tree(tr.scopes + [Scope(QueryClause, Some(4))] + [Scope(QueryClause, Some(4))], tr.events + [Declared(4, res, Pos(8, 13), Initialized, [])] + [Declared(5, x, Pos(8, 24), Initialized, [0])] + [Referenced(5, x, Pos(9, 38), false, false, [0])] + [Declared(5, y, Pos(9, 49), Out, [0])] + [OutAssigned(5, [y], [0])] + [Declared(6, x, Pos(8, 24), Initialized, [1])] + [Referenced(6, y, Pos(10, 26), false, false, [1])], 2)
  {
    WalkExprsCons(Declare(res, Pos(8, 13), Initialized), [Query([], Param(x, Pos(8, 24)), [Clause([Call([Argument([Use(x, Pos(9, 38), false)])] + ([Argument([Declare(y, Pos(9, 49), Out)])]))])] + ([Clause([Use(y, Pos(10, 26), false)])]))], Ctx(4, [], []), tr);
    assert WalkExpr(Declare(res, Pos(8, 13), Initialized), Ctx(4, [], []), tr) == Tree(tr.scopes, tr.events + [Declared(4, res, Pos(8, 13), Initialized, [])], 0);
    WalkExprsOne(Query([], Param(x, Pos(8, 24)), [Clause([Call([Argument([Use(x, Pos(9, 38), false)])] + ([Argument([Declare(y, Pos(9, 49), Out)])]))])] + ([Clause([Use(y, Pos(10, 26), false)])])), Ctx(4, [], []), Tree(tr.scopes, tr.events + [Declared(4, res, Pos(8, 13), Initialized, [])], 0));
    WalkClausesCons(Clause([Call([Argument([Use(x, Pos(9, 38), false)])] + ([Argument([Declare(y, Pos(9, 49), Out)])]))]), [Clause([Use(y, Pos(10, 26), false)])], Param(x, Pos(8, 24)), Ctx(4, [], []), Tree(tr.scopes, tr.events + [Declared(4, res, Pos(8, 13), Initialized, [])], 0));
    assert [] + [0] == [0];
    WalkExprsOne(Call([Argument([Use(x, Pos(9, 38), false)])] + ([Argument([Declare(y, Pos(9, 49), Out)])])), Ctx(5, [0], []), Tree(tr.scopes + [Scope(QueryClause, Some(4))], tr.events + [Declared(4, res, Pos(8, 13), Initialized, [])] + [Declared(5, x, Pos(8, 24), Initialized, [0])], 1));
    assert OutNames([]) == [];
    WalkArgsCons(Argument([Use(x, Pos(9, 38), false)]), [Argument([Declare(y, Pos(9, 49), Out)])], [], Ctx(5, [0], []), Tree(tr.scopes + [Scope(QueryClause, Some(4))], tr.events + [Declared(4, res, Pos(8, 13), Initialized, [])] + [Declared(5, x, Pos(8, 24), Initialized, [0])], 1));
    WalkExprsOne(Use(x, Pos(9, 38), false), Ctx(5, [0], []), Tree(tr.scopes + [Scope(QueryClause, Some(4))], tr.events + [Declared(4, res, Pos(8, 13), Initialized, [])] + [Declared(5, x, Pos(8, 24), Initialized, [0])], 1));
    assert WalkExpr(Use(x, Pos(9, 38), false), Ctx(5, [0], []), Tree(tr.scopes + [Scope(QueryClause, Some(4))], tr.events + [Declared(4, res, Pos(8, 13), Initialized, [])] + [Declared(5, x, Pos(8, 24), Initialized, [0])], 1)) == Tree(tr.scopes + [Scope(QueryClause, Some(4))], tr.events + [Declared(4, res, Pos(8, 13), Initialized, [])] + [Declared(5, x, Pos(8, 24), Initialized, [0])] + [Referenced(5, x, Pos(9, 38), false, false, [0])], 1);
    assert WalkExprs([Use(x, Pos(9, 38), false)], Ctx(5, [0], []), Tree(tr.scopes + [Scope(QueryClause, Some(4))], tr.events + [Declared(4, res, Pos(8, 13), Initialized, [])] + [Declared(5, x, Pos(8, 24), Initialized, [0])], 1)) == Tree(tr.scopes + [Scope(QueryClause, Some(4))], tr.events + [Declared(4, res, Pos(8, 13), Initialized, [])] + [Declared(5, x, Pos(8, 24), Initialized, [0])] + [Referenced(5, x, Pos(9, 38), false, false, [0])], 1);
    assert [] + [Argument([Use(x, Pos(9, 38), false)])] == [Argument([Use(x, Pos(9, 38), false)])];
    assert WalkArgs([Argument([Use(x, Pos(9, 38), false)])] + ([Argument([Declare(y, Pos(9, 49), Out)])]), [], Ctx(5, [0], []), Tree(tr.scopes + [Scope(QueryClause, Some(4))], tr.events + [Declared(4, res, Pos(8, 13), Initialized, [])] + [Declared(5, x, Pos(8, 24), Initialized, [0])], 1)) == WalkArgs([Argument([Declare(y, Pos(9, 49), Out)])], [Argument([Use(x, Pos(9, 38), false)])], Ctx(5, [0], []), Tree(tr.scopes + [Scope(QueryClause, Some(4))], tr.events + [Declared(4, res, Pos(8, 13), Initialized, [])] + [Declared(5, x, Pos(8, 24), Initialized, [0])] + [Referenced(5, x, Pos(9, 38), false, false, [0])], 1));
    OutNamesOfOne(Use(x, Pos(9, 38), false));
    OutNamesSnoc([], Argument([Use(x, Pos(9, 38), false)]));
    assert OutNames([Argument([Use(x, Pos(9, 38), false)])]) == [];
    WalkArgsOne(Argument([Declare(y, Pos(9, 49), Out)]), [Argument([Use(x, Pos(9, 38), false)])], Ctx(5, [0], []), Tree(tr.scopes + [Scope(QueryClause, Some(4))], tr.events + [Declared(4, res, Pos(8, 13), Initialized, [])] + [Declared(5, x, Pos(8, 24), Initialized, [0])] + [Referenced(5, x, Pos(9, 38), false, false, [0])], 1));
    WalkExprsOne(Declare(y, Pos(9, 49), Out), Ctx(5, [0], []), Tree(tr.scopes + [Scope(QueryClause, Some(4))], tr.events + [Declared(4, res, Pos(8, 13), Initialized, [])] + [Declared(5, x, Pos(8, 24), Initialized, [0])] + [Referenced(5, x, Pos(9, 38), false, false, [0])], 1));
    assert WalkExpr(Declare(y, Pos(9, 49), Out), Ctx(5, [0], []), Tree(tr.scopes + [Scope(QueryClause, Some(4))], tr.events + [Declared(4, res, Pos(8, 13), Initialized, [])] + [Declared(5, x, Pos(8, 24), Initialized, [0])] + [Referenced(5, x, Pos(9, 38), false, false, [0])], 1)) == Tree(tr.scopes + [Scope(QueryClause, Some(4))], tr.events + [Declared(4, res, Pos(8, 13), Initialized, [])] + [Declared(5, x, Pos(8, 24), Initialized, [0])] + [Referenced(5, x, Pos(9, 38), false, false, [0])] + [Declared(5, y, Pos(9, 49), Out, [0])], 1);
    assert WalkExprs([Declare(y, Pos(9, 49), Out)], Ctx(5, [0], []), Tree(tr.scopes + [Scope(QueryClause, Some(4))], tr.events + [Declared(4, res, Pos(8, 13), Initialized, [])] + [Declared(5, x, Pos(8, 24), Initialized, [0])] + [Referenced(5, x, Pos(9, 38), false, false, [0])], 1)) == Tree(tr.scopes + [Scope(QueryClause, Some(4))], tr.events + [Declared(4, res, Pos(8, 13), Initialized, [])] + [Declared(5, x, Pos(8, 24), Initialized, [0])] + [Referenced(5, x, Pos(9, 38), false, false, [0])] + [Declared(5, y, Pos(9, 49), Out, [0])], 1);
    OutNamesOfOne(Declare(y, Pos(9, 49), Out));
    OutNamesSnoc([Argument([Use(x, Pos(9, 38), false)])], Argument([Declare(y, Pos(9, 49), Out)]));
    assert WalkArgs([Argument([Use(x, Pos(9, 38), false)])] + ([Argument([Declare(y, Pos(9, 49), Out)])]), [], Ctx(5, [0], []), Tree(tr.scopes + [Scope(QueryClause, Some(4))], tr.events + [Declared(4, res, Pos(8, 13), Initialized, [])] + [Declared(5, x, Pos(8, 24), Initialized, [0])], 1)) == Tree(tr.scopes + [Scope(QueryClause, Some(4))], tr.events + [Declared(4, res, Pos(8, 13), Initialized, [])] + [Declared(5, x, Pos(8, 24), Initialized, [0])] + [Referenced(5, x, Pos(9, 38), false, false, [0])] + [Declared(5, y, Pos(9, 49), Out, [0])], 1);
    assert OutNames([Argument([Use(x, Pos(9, 38), false)])] + ([Argument([Declare(y, Pos(9, 49), Out)])])) == [y];
    assert WalkExpr(Call([Argument([Use(x, Pos(9, 38), false)])] + ([Argument([Declare(y, Pos(9, 49), Out)])])), Ctx(5, [0], []), Tree(tr.scopes + [Scope(QueryClause, Some(4))], tr.events + [Declared(4, res, Pos(8, 13), Initialized, [])] + [Declared(5, x, Pos(8, 24), Initialized, [0])], 1)) == Tree(tr.scopes + [Scope(QueryClause, Some(4))], tr.events + [Declared(4, res, Pos(8, 13), Initialized, [])] + [Declared(5, x, Pos(8, 24), Initialized, [0])] + [Referenced(5, x, Pos(9, 38), false, false, [0])] + [Declared(5, y, Pos(9, 49), Out, [0])] + [OutAssigned(5, [y], [0])], 1);
    assert WalkExprs([Call([Argument([Use(x, Pos(9, 38), false)])] + ([Argument([Declare(y, Pos(9, 49), Out)])]))], Ctx(5, [0], []), Tree(tr.scopes + [Scope(QueryClause, Some(4))], tr.events + [Declared(4, res, Pos(8, 13), Initialized, [])] + [Declared(5, x, Pos(8, 24), Initialized, [0])], 1)) == Tree(tr.scopes + [Scope(QueryClause, Some(4))], tr.events + [Declared(4, res, Pos(8, 13), Initialized, [])] + [Declared(5, x, Pos(8, 24), Initialized, [0])] + [Referenced(5, x, Pos(9, 38), false, false, [0])] + [Declared(5, y, Pos(9, 49), Out, [0])] + [OutAssigned(5, [y], [0])], 1);
    WalkClausesOne(Clause([Use(y, Pos(10, 26), false)]), Param(x, Pos(8, 24)), Ctx(4, [], []), Tree(tr.scopes + [Scope(QueryClause, Some(4))], tr.events + [Declared(4, res, Pos(8, 13), Initialized, [])] + [Declared(5, x, Pos(8, 24), Initialized, [0])] + [Referenced(5, x, Pos(9, 38), false, false, [0])] + [Declared(5, y, Pos(9, 49), Out, [0])] + [OutAssigned(5, [y], [0])], 1));
    assert [] + [1] == [1];
    WalkExprsOne(Use(y, Pos(10, 26), false), Ctx(6, [1], []), Tree(tr.scopes + [Scope(QueryClause, Some(4))] + [Scope(QueryClause, Some(4))], tr.events + [Declared(4, res, Pos(8, 13), Initialized, [])] + [Declared(5, x, Pos(8, 24), Initialized, [0])] + [Referenced(5, x, Pos(9, 38), false, false, [0])] + [Declared(5, y, Pos(9, 49), Out, [0])] + [OutAssigned(5, [y], [0])] + [Declared(6, x, Pos(8, 24), Initialized, [1])], 2));
    assert WalkExpr(Use(y, Pos(10, 26), false), Ctx(6, [1], []), Tree(tr.scopes + [Scope(QueryClause, Some(4))] + [Scope(QueryClause, Some(4))], tr.events + [Declared(4, res, Pos(8, 13), Initialized, [])] + [Declared(5, x, Pos(8, 24), Initialized, [0])] + [Referenced(5, x, Pos(9, 38), false, false, [0])] + [Declared(5, y, Pos(9, 49), Out, [0])] + [OutAssigned(5, [y], [0])] + [Declared(6, x, Pos(8, 24), Initialized, [1])], 2)) == Tree(tr.scopes + [Scope(QueryClause, Some(4))] + [Scope(QueryClause, Some(4))], tr.events + [Declared(4, res, Pos(8, 13), Initialized, [])] + [Declared(5, x, Pos(8, 24), Initialized, [0])] + [Referenced(5, x, Pos(9, 38), false, false, [0])] + [Declared(5, y, Pos(9, 49), Out, [0])] + [OutAssigned(5, [y], [0])] + [Declared(6, x, Pos(8, 24), Initialized, [1])] + [Referenced(6, y, Pos(10, 26), false, false, [1])], 2);
    assert WalkExprs([Use(y, Pos(10, 26), false)], Ctx(6, [1], []), Tree(tr.scopes + [Scope(QueryClause, Some(4))] + [Scope(QueryClause, Some(4))], tr.events + [Declared(4, res, Pos(8, 13), Initialized, [])] + [Declared(5, x, Pos(8, 24), Initialized, [0])] + [Referenced(5, x, Pos(9, 38), false, false, [0])] + [Declared(5, y, Pos(9, 49), Out, [0])] + [OutAssigned(5, [y], [0])] + [Declared(6, x, Pos(8, 24), Initialized, [1])], 2)) == Tree(tr.scopes + [Scope(QueryClause, Some(4))] + [Scope(QueryClause, Some(4))], tr.events + [Declared(4, res, Pos(8, 13), Initialized, [])] + [Declared(5, x, Pos(8, 24), Initialized, [0])] + [Referenced(5, x, Pos(9, 38), false, false, [0])] + [Declared(5, y, Pos(9, 49), Out, [0])] + [OutAssigned(5, [y], [0])] + [Declared(6, x, Pos(8, 24), Initialized, [1])] + [Referenced(6, y, Pos(10, 26), false, false, [1])], 2);
    assert WalkExpr(Query([], Param(x, Pos(8, 24)), [Clause([Call([Argument([Use(x, Pos(9, 38), false)])] + ([Argument([Declare(y, Pos(9, 49), Out)])]))])] + ([Clause([Use(y, Pos(10, 26), false)])])), Ctx(4, [], []), Tree(tr.scopes, tr.events + [Declared(4, res, Pos(8, 13), Initialized, [])], 0)) == Tree(tr.scopes + [Scope(QueryClause, Some(4))] + [Scope(QueryClause, Some(4))], tr.events + [Declared(4, res, Pos(8, 13), Initialized, [])] + [Declared(5, x, Pos(8, 24), Initialized, [0])] + [Referenced(5, x, Pos(9, 38), false, false, [0])] + [Declared(5, y, Pos(9, 49), Out, [0])] + [OutAssigned(5, [y], [0])] + [Declared(6, x, Pos(8, 24), Initialized, [1])] + [Referenced(6, y, Pos(10, 26), false, false, [1])], 2);
    assert WalkExprs([Declare(res, Pos(8, 13), Initialized)] + ([Query([], Param(x, Pos(8, 24)), [Clause([Call([Argument([Use(x, Pos(9, 38), false)])] + ([Argument([Declare(y, Pos(9, 49), Out)])]))])] + ([Clause([Use(y, Pos(10, 26), false)])]))]), Ctx(4, [], []), tr) == Tree(tr.scopes + [Scope(QueryClause, Some(4))] + [Scope(QueryClause, Some(4))], tr.events + [Declared(4, res, Pos(8, 13), Initialized, [])] + [Declared(5, x, Pos(8, 24), Initialized, [0])] + [Referenced(5, x, Pos(9, 38), false, false, [0])] + [Declared(5, y, Pos(9, 49), Out, [0])] + [OutAssigned(5, [y], [0])] + [Declared(6, x, Pos(8, 24), Initialized, [1])] + [Referenced(6, y, Pos(10, 26), false, false, [1])], 2);
    assert WalkStmt(Exprs([Declare(res, Pos(8, 13), Initialized)] + ([Query([], Param(x, Pos(8, 24)), [Clause([Call([Argument([Use(x, Pos(9, 38), false)])] + ([Argument([Declare(y, Pos(9, 49), Out)])]))])] + ([Clause([Use(y, Pos(10, 26), false)])]))])), Ctx(4, [], []), tr) == Tree(tr.scopes + [Scope(QueryClause, Some(4))] + [Scope(QueryClause, Some(4))], tr.events + [Declared(4, res, Pos(8, 13), Initialized, [])] + [Declared(5, x, Pos(8, 24), Initialized, [0])] + [Referenced(5, x, Pos(9, 38), false, false, [0])] + [Declared(5, y, Pos(9, 49), Out, [0])] + [OutAssigned(5, [y], [0])] + [Declared(6, x, Pos(8, 24), Initialized, [1])] + [Referenced(6, y, Pos(10, 26), false, false, [1])], 2);
  }

  lemma {:induction false} Walk2(res: string, x: string, y: string, tr: Tree)
    requires |tr.scopes| == 7 && tr.arms == 2
    ensures WalkStmt(Exprs([Call([Argument([Use(y, Pos(12, 34), false)])])]), Ctx(4, [], []), tr) == Tree(tr.scopes, tr.events + [Referenced(4, y, Pos(12, 34), false, false, [])] + [OutAssigned(4, [], [])], 2)
  {
    WalkExprsOne(Call([Argument([Use(y, Pos(12, 34), false)])]), Ctx(4, [], []), tr);
    assert OutNames([]) == [];
    WalkArgsOne(Argument([Use(y, Pos(12, 34), false)]), [], Ctx(4, [], []), tr);
    WalkExprsOne(Use(y, Pos(12, 34), false), Ctx(4, [], []), tr);
    assert WalkExpr(Use(y, Pos(12, 34), false), Ctx(4, [], []), tr) == Tree(tr.scopes, tr.events + [Referenced(4, y, Pos(12, 34), false, false, [])], 2);
    assert WalkExprs([Use(y, Pos(12, 34), false)], Ctx(4, [], []), tr) == Tree(tr.scopes, tr.events + [Referenced(4, y, Pos(12, 34), false, false, [])], 2);
    OutNamesOfOne(Use(y, Pos(12, 34), false));
    OutNamesSnoc([], Argument([Use(y, Pos(12, 34), false)]));
    assert WalkArgs([Argument([Use(y, Pos(12, 34), false)])], [], Ctx(4, [], []), tr) == Tree(tr.scopes, tr.events + [Referenced(4, y, Pos(12, 34), false, false, [])], 2);
    assert OutNames([Argument([Use(y, Pos(12, 34), false)])]) == [];
    assert WalkExpr(Call([Argument([Use(y, Pos(12, 34), false)])]), Ctx(4, [], []), tr) == Tree(tr.scopes, tr.events + [Referenced(4, y, Pos(12, 34), false, false, [])] + [OutAssigned(4, [], [])], 2);
    assert WalkExprs([Call([Argument([Use(y, Pos(12, 34), false)])])], Ctx(4, [], []), tr) == Tree(tr.scopes, tr.events + [Referenced(4, y, Pos(12, 34), false, false, [])] + [OutAssigned(4, [], [])], 2);
    assert WalkStmt(Exprs([Call([Argument([Use(y, Pos(12, 34), false)])])]), Ctx(4, [], []), tr) == Tree(tr.scopes, tr.events + [Referenced(4, y, Pos(12, 34), false, false, [])] + [OutAssigned(4, [], [])], 2);
  }

  lemma {:induction false} Join0(res: string, x: string, y: string, evs: seq<Event>)
    ensures evs + Chunk0(res, x, y) == evs + [Declared(4, res, Pos(8, 13), Initialized, [])] + [Declared(5, x, Pos(8, 24), Initialized, [0])] + [Referenced(5, x, Pos(9, 38), false, false, [0])] + [Declared(5, y, Pos(9, 49), Out, [0])] + [OutAssigned(5, [y], [0])] + [Declared(6, x, Pos(8, 24), Initialized, [1])] + [Referenced(6, y, Pos(10, 26), false, false, [1])] + [Referenced(4, y, Pos(12, 34), false, false, [])]
  {
  }

  lemma {:induction false} Join1(res: string, x: string, y: string, evs: seq<Event>)
    ensures evs + Chunk1(res, x, y) == evs + [OutAssigned(4, [], [])]
  {
  }

  /** The trace, event by event. */
  lemma {:induction false} Flat(res: string, x: string, y: string)
    ensures [] + [Declared(4, res, Pos(8, 13), Initialized, [])] + [Declared(5, x, Pos(8, 24), Initialized, [0])] + [Referenced(5, x, Pos(9, 38), false, false, [0])] + [Declared(5, y, Pos(9, 49), Out, [0])] + [OutAssigned(5, [y], [0])] + [Declared(6, x, Pos(8, 24), Initialized, [1])] + [Referenced(6, y, Pos(10, 26), false, false, [1])] + [Referenced(4, y, Pos(12, 34), false, false, [])] + [OutAssigned(4, [], [])] == Trace(res, x, y)
  {
    Join0(res, x, y, []);
    Join1(res, x, y, [] + Chunk0(res, x, y));
  }

  lemma {:induction false} Walked(res: string, x: string, y: string)
    ensures Build(Program(res, x, y)) == Tree(Layout(), Trace(res, x, y), 2)
  {
    MainBuild(Body(res, x, y));
    WalkStmtsCons(Exprs([Declare(res, Pos(8, 13), Initialized)] + ([Query([], Param(x, Pos(8, 24)), [Clause([Call([Argument([Use(x, Pos(9, 38), false)])] + ([Argument([Declare(y, Pos(9, 49), Out)])]))])] + ([Clause([Use(y, Pos(10, 26), false)])]))])), [Exprs([Call([Argument([Use(y, Pos(12, 34), false)])])])], Ctx(4, [], []), MainHead());
    Walk1(res, x, y, MainHead());
    assert WalkStmt(Exprs([Declare(res, Pos(8, 13), Initialized)] + ([Query([], Param(x, Pos(8, 24)), [Clause([Call([Argument([Use(x, Pos(9, 38), false)])] + ([Argument([Declare(y, Pos(9, 49), Out)])]))])] + ([Clause([Use(y, Pos(10, 26), false)])]))])), Ctx(4, [], []), MainHead()) == Tree(MainHead().scopes + [Scope(QueryClause, Some(4))] + [Scope(QueryClause, Some(4))], MainHead().events + [Declared(4, res, Pos(8, 13), Initialized, [])] + [Declared(5, x, Pos(8, 24), Initialized, [0])] + [Referenced(5, x, Pos(9, 38), false, false, [0])] + [Declared(5, y, Pos(9, 49), Out, [0])] + [OutAssigned(5, [y], [0])] + [Declared(6, x, Pos(8, 24), Initialized, [1])] + [Referenced(6, y, Pos(10, 26), false, false, [1])], 2);
    WalkStmtsOne(Exprs([Call([Argument([Use(y, Pos(12, 34), false)])])]), Ctx(4, [], []), Tree(MainHead().scopes + [Scope(QueryClause, Some(4))] + [Scope(QueryClause, Some(4))], MainHead().events + [Declared(4, res, Pos(8, 13), Initialized, [])] + [Declared(5, x, Pos(8, 24), Initialized, [0])] + [Referenced(5, x, Pos(9, 38), false, false, [0])] + [Declared(5, y, Pos(9, 49), Out, [0])] + [OutAssigned(5, [y], [0])] + [Declared(6, x, Pos(8, 24), Initialized, [1])] + [Referenced(6, y, Pos(10, 26), false, false, [1])], 2));
    Walk2(res, x, y, Tree(MainHead().scopes + [Scope(QueryClause, Some(4))] + [Scope(QueryClause, Some(4))], MainHead().events + [Declared(4, res, Pos(8, 13), Initialized, [])] + [Declared(5, x, Pos(8, 24), Initialized, [0])] + [Referenced(5, x, Pos(9, 38), false, false, [0])] + [Declared(5, y, Pos(9, 49), Out, [0])] + [OutAssigned(5, [y], [0])] + [Declared(6, x, Pos(8, 24), Initialized, [1])] + [Referenced(6, y, Pos(10, 26), false, false, [1])], 2));
    assert WalkStmt(Exprs([Call([Argument([Use(y, Pos(12, 34), false)])])]), Ctx(4, [], []), Tree(MainHead().scopes + [Scope(QueryClause, Some(4))] + [Scope(QueryClause, Some(4))], MainHead().events + [Declared(4, res, Pos(8, 13), Initialized, [])] + [Declared(5, x, Pos(8, 24), Initialized, [0])] + [Referenced(5, x, Pos(9, 38), false, false, [0])] + [Declared(5, y, Pos(9, 49), Out, [0])] + [OutAssigned(5, [y], [0])] + [Declared(6, x, Pos(8, 24), Initialized, [1])] + [Referenced(6, y, Pos(10, 26), false, false, [1])], 2)) == Tree(MainHead().scopes + [Scope(QueryClause, Some(4))] + [Scope(QueryClause, Some(4))], MainHead().events + [Declared(4, res, Pos(8, 13), Initialized, [])] + [Declared(5, x, Pos(8, 24), Initialized, [0])] + [Referenced(5, x, Pos(9, 38), false, false, [0])] + [Declared(5, y, Pos(9, 49), Out, [0])] + [OutAssigned(5, [y], [0])] + [Declared(6, x, Pos(8, 24), Initialized, [1])] + [Referenced(6, y, Pos(10, 26), false, false, [1])] + [Referenced(4, y, Pos(12, 34), false, false, [])] + [OutAssigned(4, [], [])], 2);
    LayoutFlat();
    Flat(res, x, y);
  }

  /** The locals events of chunk `ck` declare in scope `sc`, in order. */
  function NewIn(res: string, x: string, y: string, ck: nat, sc: nat): seq<Local> {
    if ck == 0 then
      if sc == 4 then [] + [Local(res, Pos(8, 13))]
      else if sc == 5 then [] + [Local(x, Pos(8, 24))] + [Local(y, Pos(9, 49))]
      else if sc == 6 then [] + [Local(x, Pos(8, 24))]
      else []
    else []
  }

  /** The locals the first `ck` chunks declare in scope `sc`, in order. */
  function DeclaredBy(res: string, x: string, y: string, ck: nat, sc: nat): seq<Local>
    decreases ck
  {
    if ck == 0 then [] else DeclaredBy(res, x, y, ck - 1, sc) + NewIn(res, x, y, ck - 1, sc)
  }

  /** The locals declared once events 0 to 7 follow some events. */
  lemma {:induction false} Decls0(res: string, x: string, y: string, evs: seq<Event>, sc: nat)
    requires DeclsIn(evs, sc) == DeclaredBy(res, x, y, 0, sc)
    ensures DeclsIn(evs + Chunk0(res, x, y), sc) == DeclaredBy(res, x, y, 1, sc)
  {
    DeclsInAppend(evs, Chunk0(res, x, y), sc);
    assert DeclsIn([], sc) == [];
    if sc == 4 {
      DeclsInAdd([], Declared(4, res, Pos(8, 13), Initialized, []), 4);
      DeclsInSkip([] + [Declared(4, res, Pos(8, 13), Initialized, [])], Declared(5, x, Pos(8, 24), Initialized, [0]), 4);
      DeclsInSkip([] + [Declared(4, res, Pos(8, 13), Initialized, [])] + [Declared(5, x, Pos(8, 24), Initialized, [0])], Referenced(5, x, Pos(9, 38), false, false, [0]), 4);
      DeclsInSkip([] + [Declared(4, res, Pos(8, 13), Initialized, [])] + [Declared(5, x, Pos(8, 24), Initialized, [0])] + [Referenced(5, x, Pos(9, 38), false, false, [0])], Declared(5, y, Pos(9, 49), Out, [0]), 4);
      DeclsInSkip([] + [Declared(4, res, Pos(8, 13), Initialized, [])] + [Declared(5, x, Pos(8, 24), Initialized, [0])] + [Referenced(5, x, Pos(9, 38), false, false, [0])] + [Declared(5, y, Pos(9, 49), Out, [0])], OutAssigned(5, [y], [0]), 4);
      DeclsInSkip([] + [Declared(4, res, Pos(8, 13), Initialized, [])] + [Declared(5, x, Pos(8, 24), Initialized, [0])] + [Referenced(5, x, Pos(9, 38), false, false, [0])] + [Declared(5, y, Pos(9, 49), Out, [0])] + [OutAssigned(5, [y], [0])], Declared(6, x, Pos(8, 24), Initialized, [1]), 4);
      DeclsInSkip([] + [Declared(4, res, Pos(8, 13), Initialized, [])] + [Declared(5, x, Pos(8, 24), Initialized, [0])] + [Referenced(5, x, Pos(9, 38), false, false, [0])] + [Declared(5, y, Pos(9, 49), Out, [0])] + [OutAssigned(5, [y], [0])] + [Declared(6, x, Pos(8, 24), Initialized, [1])], Referenced(6, y, Pos(10, 26), false, false, [1]), 4);
      DeclsInSkip([] + [Declared(4, res, Pos(8, 13), Initialized, [])] + [Declared(5, x, Pos(8, 24), Initialized, [0])] + [Referenced(5, x, Pos(9, 38), false, false, [0])] + [Declared(5, y, Pos(9, 49), Out, [0])] + [OutAssigned(5, [y], [0])] + [Declared(6, x, Pos(8, 24), Initialized, [1])] + [Referenced(6, y, Pos(10, 26), false, false, [1])], Referenced(4, y, Pos(12, 34), false, false, []), 4);
    } else if sc == 5 {
      DeclsInSkip([], Declared(4, res, Pos(8, 13), Initialized, []), 5);
      DeclsInAdd([] + [Declared(4, res, Pos(8, 13), Initialized, [])], Declared(5, x, Pos(8, 24), Initialized, [0]), 5);
      DeclsInSkip([] + [Declared(4, res, Pos(8, 13), Initialized, [])] + [Declared(5, x, Pos(8, 24), Initialized, [0])], Referenced(5, x, Pos(9, 38), false, false, [0]), 5);
      DeclsInAdd([] + [Declared(4, res, Pos(8, 13), Initialized, [])] + [Declared(5, x, Pos(8, 24), Initialized, [0])] + [Referenced(5, x, Pos(9, 38), false, false, [0])], Declared(5, y, Pos(9, 49), Out, [0]), 5);
      DeclsInSkip([] + [Declared(4, res, Pos(8, 13), Initialized, [])] + [Declared(5, x, Pos(8, 24), Initialized, [0])] + [Referenced(5, x, Pos(9, 38), false, false, [0])] + [Declared(5, y, Pos(9, 49), Out, [0])], OutAssigned(5, [y], [0]), 5);
      DeclsInSkip([] + [Declared(4, res, Pos(8, 13), Initialized, [])] + [Declared(5, x, Pos(8, 24), Initialized, [0])] + [Referenced(5, x, Pos(9, 38), false, false, [0])] + [Declared(5, y, Pos(9, 49), Out, [0])] + [OutAssigned(5, [y], [0])], Declared(6, x, Pos(8, 24), Initialized, [1]), 5);
      DeclsInSkip([] + [Declared(4, res, Pos(8, 13), Initialized, [])] + [Declared(5, x, Pos(8, 24), Initialized, [0])] + [Referenced(5, x, Pos(9, 38), false, false, [0])] + [Declared(5, y, Pos(9, 49), Out, [0])] + [OutAssigned(5, [y], [0])] + [Declared(6, x, Pos(8, 24), Initialized, [1])], Referenced(6, y, Pos(10, 26), false, false, [1]), 5);
      DeclsInSkip([] + [Declared(4, res, Pos(8, 13), Initialized, [])] + [Declared(5, x, Pos(8, 24), Initialized, [0])] + [Referenced(5, x, Pos(9, 38), false, false, [0])] + [Declared(5, y, Pos(9, 49), Out, [0])] + [OutAssigned(5, [y], [0])] + [Declared(6, x, Pos(8, 24), Initialized, [1])] + [Referenced(6, y, Pos(10, 26), false, false, [1])], Referenced(4, y, Pos(12, 34), false, false, []), 5);
    } else if sc == 6 {
      DeclsInSkip([], Declared(4, res, Pos(8, 13), Initialized, []), 6);
      DeclsInSkip([] + [Declared(4, res, Pos(8, 13), Initialized, [])], Declared(5, x, Pos(8, 24), Initialized, [0]), 6);
      DeclsInSkip([] + [Declared(4, res, Pos(8, 13), Initialized, [])] + [Declared(5, x, Pos(8, 24), Initialized, [0])], Referenced(5, x, Pos(9, 38), false, false, [0]), 6);
      DeclsInSkip([] + [Declared(4, res, Pos(8, 13), Initialized, [])] + [Declared(5, x, Pos(8, 24), Initialized, [0])] + [Referenced(5, x, Pos(9, 38), false, false, [0])], Declared(5, y, Pos(9, 49), Out, [0]), 6);
      DeclsInSkip([] + [Declared(4, res, Pos(8, 13), Initialized, [])] + [Declared(5, x, Pos(8, 24), Initialized, [0])] + [Referenced(5, x, Pos(9, 38), false, false, [0])] + [Declared(5, y, Pos(9, 49), Out, [0])], OutAssigned(5, [y], [0]), 6);
      DeclsInAdd([] + [Declared(4, res, Pos(8, 13), Initialized, [])] + [Declared(5, x, Pos(8, 24), Initialized, [0])] + [Referenced(5, x, Pos(9, 38), false, false, [0])] + [Declared(5, y, Pos(9, 49), Out, [0])] + [OutAssigned(5, [y], [0])], Declared(6, x, Pos(8, 24), Initialized, [1]), 6);
      DeclsInSkip([] + [Declared(4, res, Pos(8, 13), Initialized, [])] + [Declared(5, x, Pos(8, 24), Initialized, [0])] + [Referenced(5, x, Pos(9, 38), false, false, [0])] + [Declared(5, y, Pos(9, 49), Out, [0])] + [OutAssigned(5, [y], [0])] + [Declared(6, x, Pos(8, 24), Initialized, [1])], Referenced(6, y, Pos(10, 26), false, false, [1]), 6);
      DeclsInSkip([] + [Declared(4, res, Pos(8, 13), Initialized, [])] + [Declared(5, x, Pos(8, 24), Initialized, [0])] + [Referenced(5, x, Pos(9, 38), false, false, [0])] + [Declared(5, y, Pos(9, 49), Out, [0])] + [OutAssigned(5, [y], [0])] + [Declared(6, x, Pos(8, 24), Initialized, [1])] + [Referenced(6, y, Pos(10, 26), false, false, [1])], Referenced(4, y, Pos(12, 34), false, false, []), 6);
    } else {
      DeclsInSkip([], Declared(4, res, Pos(8, 13), Initialized, []), sc);
      DeclsInSkip([] + [Declared(4, res, Pos(8, 13), Initialized, [])], Declared(5, x, Pos(8, 24), Initialized, [0]), sc);
      DeclsInSkip([] + [Declared(4, res, Pos(8, 13), Initialized, [])] + [Declared(5, x, Pos(8, 24), Initialized, [0])], Referenced(5, x, Pos(9, 38), false, false, [0]), sc);
      DeclsInSkip([] + [Declared(4, res, Pos(8, 13), Initialized, [])] + [Declared(5, x, Pos(8, 24), Initialized, [0])] + [Referenced(5, x, Pos(9, 38), false, false, [0])], Declared(5, y, Pos(9, 49), Out, [0]), sc);
      DeclsInSkip([] + [Declared(4, res, Pos(8, 13), Initialized, [])] + [Declared(5, x, Pos(8, 24), Initialized, [0])] + [Referenced(5, x, Pos(9, 38), false, false, [0])] + [Declared(5, y, Pos(9, 49), Out, [0])], OutAssigned(5, [y], [0]), sc);
      DeclsInSkip([] + [Declared(4, res, Pos(8, 13), Initialized, [])] + [Declared(5, x, Pos(8, 24), Initialized, [0])] + [Referenced(5, x, Pos(9, 38), false, false, [0])] + [Declared(5, y, Pos(9, 49), Out, [0])] + [OutAssigned(5, [y], [0])], Declared(6, x, Pos(8, 24), Initialized, [1]), sc);
      DeclsInSkip([] + [Declared(4, res, Pos(8, 13), Initialized, [])] + [Declared(5, x, Pos(8, 24), Initialized, [0])] + [Referenced(5, x, Pos(9, 38), false, false, [0])] + [Declared(5, y, Pos(9, 49), Out, [0])] + [OutAssigned(5, [y], [0])] + [Declared(6, x, Pos(8, 24), Initialized, [1])], Referenced(6, y, Pos(10, 26), false, false, [1]), sc);
      DeclsInSkip([] + [Declared(4, res, Pos(8, 13), Initialized, [])] + [Declared(5, x, Pos(8, 24), Initialized, [0])] + [Referenced(5, x, Pos(9, 38), false, false, [0])] + [Declared(5, y, Pos(9, 49), Out, [0])] + [OutAssigned(5, [y], [0])] + [Declared(6, x, Pos(8, 24), Initialized, [1])] + [Referenced(6, y, Pos(10, 26), false, false, [1])], Referenced(4, y, Pos(12, 34), false, false, []), sc);
      AppendNil(DeclsIn(evs, sc));
    }
  }

  /** The locals declared once events 8 to 8 follow some events. */
  lemma {:induction false} Decls1(res: string, x: string, y: string, evs: seq<Event>, sc: nat)
    requires DeclsIn(evs, sc) == DeclaredBy(res, x, y, 1, sc)
    ensures DeclsIn(evs + Chunk1(res, x, y), sc) == DeclaredBy(res, x, y, 2, sc)
  {
    DeclsInAppend(evs, Chunk1(res, x, y), sc);
    assert DeclsIn([], sc) == [];
    DeclsInSkip([], OutAssigned(4, [], []), sc);
    AppendNil(DeclsIn(evs, sc));
  }

  lemma {:induction false} DeclsStage0(res: string, x: string, y: string, evs: seq<Event>, sc: nat)
    requires DeclsIn(evs, sc) == DeclaredBy(res, x, y, 0, sc)
    ensures DeclsIn(evs + Chunk0(res, x, y) + Chunk1(res, x, y), sc) == DeclaredBy(res, x, y, 2, sc)
  {
    Decls0(res, x, y, evs, sc);
    Decls1(res, x, y, evs + Chunk0(res, x, y), sc);
  }

  /** The locals of every scope of a tree whose events are the test's, as the table gives them. */
  ghost predicate LocalsFit(res: string, x: string, y: string, tr: Tree) {
    forall sc: nat {:trigger DeclaredBy(res, x, y, 2, sc)} :: LocalsOf(tr, sc) == DeclaredBy(res, x, y, 2, sc)
  }

  /** The locals of every scope. */
  lemma {:induction false} LocalsAll(res: string, x: string, y: string, tr: Tree)
    requires tr.events == Trace(res, x, y)
    ensures LocalsFit(res, x, y, tr)
  {
    forall sc: nat
      ensures LocalsOf(tr, sc) == DeclaredBy(res, x, y, 2, sc)
    {
      assert DeclsIn([], sc) == [] == DeclaredBy(res, x, y, 0, sc);
      DeclsStage0(res, x, y, [], sc);
    }
  }

  /** The locals scope 0 declares, in order. */
  lemma {:induction false} Locals0(res: string, x: string, y: string)
    ensures DeclaredBy(res, x, y, 2, 0) == []
  {
    AppendNil([]);
    assert DeclaredBy(res, x, y, 1, 0) == [];
    assert DeclaredBy(res, x, y, 2, 0) == [];
  }

  /** The locals scope 3 declares, in order. */
  lemma {:induction false} Locals3(res: string, x: string, y: string)
    ensures DeclaredBy(res, x, y, 2, 3) == []
  {
    AppendNil([]);
    assert DeclaredBy(res, x, y, 1, 3) == [];
    assert DeclaredBy(res, x, y, 2, 3) == [];
  }

  /** The locals scope 4 declares, in order. */
  lemma {:induction false} Locals4(res: string, x: string, y: string)
    ensures DeclaredBy(res, x, y, 2, 4) == [Local(res, Pos(8, 13))]
  {
    assert DeclaredBy(res, x, y, 1, 4) == [Local(res, Pos(8, 13))];
    AppendNil([Local(res, Pos(8, 13))]);
    assert DeclaredBy(res, x, y, 2, 4) == [Local(res, Pos(8, 13))];
  }

  /** The locals scope 5 declares, in order. */
  lemma {:induction false} Locals5(res: string, x: string, y: string)
    ensures DeclaredBy(res, x, y, 2, 5) == [Local(x, Pos(8, 24)), Local(y, Pos(9, 49))]
  {
    assert DeclaredBy(res, x, y, 1, 5) == [Local(x, Pos(8, 24)), Local(y, Pos(9, 49))];
    AppendNil([Local(x, Pos(8, 24)), Local(y, Pos(9, 49))]);
    assert DeclaredBy(res, x, y, 2, 5) == [Local(x, Pos(8, 24)), Local(y, Pos(9, 49))];
  }

  /** The locals scope 6 declares, in order. */
  lemma {:induction false} Locals6(res: string, x: string, y: string)
    ensures DeclaredBy(res, x, y, 2, 6) == [Local(x, Pos(8, 24))]
  {
    assert DeclaredBy(res, x, y, 1, 6) == [Local(x, Pos(8, 24))];
    AppendNil([Local(x, Pos(8, 24))]);
    assert DeclaredBy(res, x, y, 2, 6) == [Local(x, Pos(8, 24))];
  }

  /** The assignments known after event 7. */
  function Known0(res: string, x: string, y: string): seq<Fact> {
    []
      + [Fact(4, res, [])]
      + [Fact(5, x, [0])]
      + [Fact(5, y, [0])]
      + [Fact(6, x, [1])]
  }

  /** Whether a local is assigned after the assignments of events 0 to 7. */
  lemma {:induction false} Assigned0(res: string, x: string, y: string, fs: seq<Fact>, sc: nat, nm: string, pth: seq<nat>)
    ensures Assigned(fs + [Fact(4, res, [])] + [Fact(5, x, [0])] + [Fact(5, y, [0])] + [Fact(6, x, [1])], sc, nm, pth) == (
      Assigned(fs, sc, nm, pth) ||
      (4 == sc && res == nm && [] <= pth) ||
      (5 == sc && x == nm && [0] <= pth) ||
      (5 == sc && y == nm && [0] <= pth) ||
      (6 == sc && x == nm && [1] <= pth))
  {
    AssignedSnoc(fs, Fact(4, res, []), sc, nm, pth);
    AssignedSnoc(fs + [Fact(4, res, [])], Fact(5, x, [0]), sc, nm, pth);
    AssignedSnoc(fs + [Fact(4, res, [])] + [Fact(5, x, [0])], Fact(5, y, [0]), sc, nm, pth);
    AssignedSnoc(fs + [Fact(4, res, [])] + [Fact(5, x, [0])] + [Fact(5, y, [0])], Fact(6, x, [1]), sc, nm, pth);
  }

  /** Event 0: its diagnostics and the assignments after it. */
  lemma {:induction false} Event0(res: string, x: string, y: string, tr: Tree, fs: seq<Fact>)
    requires |tr.scopes| == 7
    requires Parent(tr, 0) == None
    requires Parent(tr, 3) == Some(0)
    requires Parent(tr, 4) == Some(3)
    requires LocalsOf(tr, 4) == [Local(res, Pos(8, 13))]
    requires LocalsOf(tr, 3) == []
    requires LocalsOf(tr, 0) == []
    ensures EventDiags(tr, Declared(4, res, Pos(8, 13), Initialized, []), fs) == []
    ensures Step(tr, Declared(4, res, Pos(8, 13), Initialized, []), fs) == fs + [Fact(4, res, [])]
  {
    assert Lookup(tr, 0, res) == None;
    assert Lookup(tr, 3, res) == None;
  }

  /** Event 1: its diagnostics and the assignments after it. */
  lemma {:induction false} Event1(res: string, x: string, y: string, tr: Tree, fs: seq<Fact>)
    requires |tr.scopes| == 7
    requires Parent(tr, 0) == None
    requires Parent(tr, 3) == Some(0)
    requires Parent(tr, 4) == Some(3)
    requires Parent(tr, 5) == Some(4)
    requires LocalsOf(tr, 5) == [Local(x, Pos(8, 24)), Local(y, Pos(9, 49))]
    requires LocalsOf(tr, 4) == [Local(res, Pos(8, 13))]
    requires LocalsOf(tr, 3) == []
    requires LocalsOf(tr, 0) == []
    requires res != x && x != y
    ensures EventDiags(tr, Declared(5, x, Pos(8, 24), Initialized, [0]), fs) == []
    ensures Step(tr, Declared(5, x, Pos(8, 24), Initialized, [0]), fs) == fs + [Fact(5, x, [0])]
  {
    assert Lookup(tr, 0, x) == None;
    assert Lookup(tr, 3, x) == None;
    assert Lookup(tr, 4, x) == None;
  }

  /** Event 2: its diagnostics and the assignments after it. */
  lemma {:induction false} Event2(res: string, x: string, y: string, tr: Tree, fs: seq<Fact>)
    requires |tr.scopes| == 7
    requires Parent(tr, 5) == Some(4)
    requires LocalsOf(tr, 5) == [Local(x, Pos(8, 24)), Local(y, Pos(9, 49))]
    requires x != y
    requires Assigned(fs, 5, x, [0])
    ensures EventDiags(tr, Referenced(5, x, Pos(9, 38), false, false, [0]), fs) == []
    ensures Step(tr, Referenced(5, x, Pos(9, 38), false, false, [0]), fs) == fs
  {
    assert Local(x, Pos(8, 24)) in LocalsOf(tr, 5);
    assert Lookup(tr, 5, x) == Some(5);
  }

  /** Event 3: its diagnostics and the assignments after it. */
  lemma {:induction false} Event3(res: string, x: string, y: string, tr: Tree, fs: seq<Fact>)
    requires |tr.scopes| == 7
    requires Parent(tr, 0) == None
    requires Parent(tr, 3) == Some(0)
    requires Parent(tr, 4) == Some(3)
    requires Parent(tr, 5) == Some(4)
    requires LocalsOf(tr, 5) == [Local(x, Pos(8, 24)), Local(y, Pos(9, 49))]
    requires LocalsOf(tr, 4) == [Local(res, Pos(8, 13))]
    requires LocalsOf(tr, 3) == []
    requires LocalsOf(tr, 0) == []
    requires res != y && x != y
    ensures EventDiags(tr, Declared(5, y, Pos(9, 49), Out, [0]), fs) == []
    ensures Step(tr, Declared(5, y, Pos(9, 49), Out, [0]), fs) == fs
  {
    assert Lookup(tr, 0, y) == None;
    assert Lookup(tr, 3, y) == None;
    assert Lookup(tr, 4, y) == None;
  }

  /** Event 4: its diagnostics and the assignments after it. */
  lemma {:induction false} Event4(res: string, x: string, y: string, tr: Tree, fs: seq<Fact>)
    ensures EventDiags(tr, OutAssigned(5, [y], [0]), fs) == []
    ensures Step(tr, OutAssigned(5, [y], [0]), fs) == fs + [Fact(5, y, [0])]
  {
    OutFactsOne(5, y, [0]);
  }

  /** Event 5: its diagnostics and the assignments after it. */
  lemma {:induction false} Event5(res: string, x: string, y: string, tr: Tree, fs: seq<Fact>)
    requires |tr.scopes| == 7
    requires Parent(tr, 0) == None
    requires Parent(tr, 3) == Some(0)
    requires Parent(tr, 4) == Some(3)
    requires Parent(tr, 6) == Some(4)
    requires LocalsOf(tr, 6) == [Local(x, Pos(8, 24))]
    requires LocalsOf(tr, 4) == [Local(res, Pos(8, 13))]
    requires LocalsOf(tr, 3) == []
    requires LocalsOf(tr, 0) == []
    requires res != x
    ensures EventDiags(tr, Declared(6, x, Pos(8, 24), Initialized, [1]), fs) == []
    ensures Step(tr, Declared(6, x, Pos(8, 24), Initialized, [1]), fs) == fs + [Fact(6, x, [1])]
  {
    assert Lookup(tr, 0, x) == None;
    assert Lookup(tr, 3, x) == None;
    assert Lookup(tr, 4, x) == None;
  }

  /** Event 6: its diagnostics and the assignments after it. */
  lemma {:induction false} Event6(res: string, x: string, y: string, tr: Tree, fs: seq<Fact>)
    requires |tr.scopes| == 7
    requires Parent(tr, 0) == None
    requires Parent(tr, 3) == Some(0)
    requires Parent(tr, 4) == Some(3)
    requires Parent(tr, 6) == Some(4)
    requires LocalsOf(tr, 6) == [Local(x, Pos(8, 24))]
    requires LocalsOf(tr, 4) == [Local(res, Pos(8, 13))]
    requires LocalsOf(tr, 3) == []
    requires LocalsOf(tr, 0) == []
    requires res != y && x != y
    ensures EventDiags(tr, Referenced(6, y, Pos(10, 26), false, false, [1]), fs) == [Diag(NotInContext, y, Pos(10, 26))]
    ensures Step(tr, Referenced(6, y, Pos(10, 26), false, false, [1]), fs) == fs
  {
    assert Lookup(tr, 0, y) == None;
    assert Lookup(tr, 3, y) == None;
    assert Lookup(tr, 4, y) == None;
    assert Lookup(tr, 6, y) == None;
  }

  /** Event 7: its diagnostics and the assignments after it. */
  lemma {:induction false} Event7(res: string, x: string, y: string, tr: Tree, fs: seq<Fact>)
    requires |tr.scopes| == 7
    requires Parent(tr, 0) == None
    requires Parent(tr, 3) == Some(0)
    requires Parent(tr, 4) == Some(3)
    requires LocalsOf(tr, 4) == [Local(res, Pos(8, 13))]
    requires LocalsOf(tr, 3) == []
    requires LocalsOf(tr, 0) == []
    requires res != y
    ensures EventDiags(tr, Referenced(4, y, Pos(12, 34), false, false, []), fs) == [Diag(NotInContext, y, Pos(12, 34))]
    ensures Step(tr, Referenced(4, y, Pos(12, 34), false, false, []), fs) == fs
  {
    assert Lookup(tr, 0, y) == None;
    assert Lookup(tr, 3, y) == None;
    assert Lookup(tr, 4, y) == None;
  }

  /** Event 8: its diagnostics and the assignments after it. */
  lemma {:induction false} Event8(res: string, x: string, y: string, tr: Tree, fs: seq<Fact>)
    ensures EventDiags(tr, OutAssigned(4, [], []), fs) == []
    ensures Step(tr, OutAssigned(4, [], []), fs) == fs
  {
    assert OutFacts(4, [], []) == [];
    FactsNil(fs);
  }

  /** The parent and the locals of scope 0. */
  lemma {:induction false} Scope0(res: string, x: string, y: string, tr: Tree)
    requires ScopesAre(tr, Layout())
    requires LocalsFit(res, x, y, tr)
    ensures |tr.scopes| == 7
    ensures Parent(tr, 0) == None
    ensures LocalsOf(tr, 0) == []
  {
    assert tr.scopes[0] == Layout()[0];
    Locals0(res, x, y);
    assert LocalsOf(tr, 0) == DeclaredBy(res, x, y, 2, 0);
  }

  /** The parent and the locals of scope 3. */
  lemma {:induction false} Scope3(res: string, x: string, y: string, tr: Tree)
    requires ScopesAre(tr, Layout())
    requires LocalsFit(res, x, y, tr)
    ensures |tr.scopes| == 7
    ensures Parent(tr, 3) == Some(0)
    ensures LocalsOf(tr, 3) == []
  {
    assert tr.scopes[3] == Layout()[3];
    Locals3(res, x, y);
    assert LocalsOf(tr, 3) == DeclaredBy(res, x, y, 2, 3);
  }

  /** The parent and the locals of scope 4. */
  lemma {:induction false} Scope4(res: string, x: string, y: string, tr: Tree)
    requires ScopesAre(tr, Layout())
    requires LocalsFit(res, x, y, tr)
    ensures |tr.scopes| == 7
    ensures Parent(tr, 4) == Some(3)
    ensures LocalsOf(tr, 4) == [Local(res, Pos(8, 13))]
  {
    assert tr.scopes[4] == Layout()[4];
    Locals4(res, x, y);
    assert LocalsOf(tr, 4) == DeclaredBy(res, x, y, 2, 4);
  }

  /** The parent and the locals of scope 5. */
  lemma {:induction false} Scope5(res: string, x: string, y: string, tr: Tree)
    requires ScopesAre(tr, Layout())
    requires LocalsFit(res, x, y, tr)
    ensures |tr.scopes| == 7
    ensures Parent(tr, 5) == Some(4)
    ensures LocalsOf(tr, 5) == [Local(x, Pos(8, 24)), Local(y, Pos(9, 49))]
  {
    assert tr.scopes[5] == Layout()[5];
    Locals5(res, x, y);
    assert LocalsOf(tr, 5) == DeclaredBy(res, x, y, 2, 5);
  }

  /** The parent and the locals of scope 6. */
  lemma {:induction false} Scope6(res: string, x: string, y: string, tr: Tree)
    requires ScopesAre(tr, Layout())
    requires LocalsFit(res, x, y, tr)
    ensures |tr.scopes| == 7
    ensures Parent(tr, 6) == Some(4)
    ensures LocalsOf(tr, 6) == [Local(x, Pos(8, 24))]
  {
    assert tr.scopes[6] == Layout()[6];
    Locals6(res, x, y);
    assert LocalsOf(tr, 6) == DeclaredBy(res, x, y, 2, 6);
  }

  /** The analysis of events 0 to 7, after the events before them. */
  lemma {:induction false} Analysed0(res: string, x: string, y: string, tr: Tree, evs: seq<Event>, fs: seq<Fact>, rs: seq<Diag>)
    requires |tr.scopes| == 7
    requires Parent(tr, 0) == None
    requires Parent(tr, 3) == Some(0)
    requires Parent(tr, 4) == Some(3)
    requires Parent(tr, 5) == Some(4)
    requires Parent(tr, 6) == Some(4)
    requires LocalsOf(tr, 0) == []
    requires LocalsOf(tr, 3) == []
    requires LocalsOf(tr, 4) == [Local(res, Pos(8, 13))]
    requires LocalsOf(tr, 5) == [Local(x, Pos(8, 24)), Local(y, Pos(9, 49))]
    requires LocalsOf(tr, 6) == [Local(x, Pos(8, 24))]
    requires res != x && res != y && x != y
    requires Analyse(tr, evs, []) == rs
    requires Replay(tr, evs, []) == fs
    requires !Assigned(fs, 5, x, [0])
    ensures Analyse(tr, evs + Chunk0(res, x, y), []) == rs + ([] + [] + [] + [] + [] + [] + [] + [Diag(NotInContext, y, Pos(10, 26))] + [Diag(NotInContext, y, Pos(12, 34))])
    ensures Replay(tr, evs + Chunk0(res, x, y), []) == fs + [Fact(4, res, [])] + [Fact(5, x, [0])] + [Fact(5, y, [0])] + [Fact(6, x, [1])]
  {
    assert Analyse(tr, [], fs) == [] && Replay(tr, [], fs) == fs;
    Event0(res, x, y, tr, fs);
    AnalyseSnoc(tr, [], Declared(4, res, Pos(8, 13), Initialized, []), fs);
    assert Analyse(tr, [] + [Declared(4, res, Pos(8, 13), Initialized, [])], fs) == [] + [];
    assert Replay(tr, [] + [Declared(4, res, Pos(8, 13), Initialized, [])], fs) == fs + [Fact(4, res, [])];
    Event1(res, x, y, tr, fs + [Fact(4, res, [])]);
    AnalyseSnoc(tr, [] + [Declared(4, res, Pos(8, 13), Initialized, [])], Declared(5, x, Pos(8, 24), Initialized, [0]), fs);
    assert Analyse(tr, [] + [Declared(4, res, Pos(8, 13), Initialized, [])] + [Declared(5, x, Pos(8, 24), Initialized, [0])], fs) == [] + [] + [];
    assert Replay(tr, [] + [Declared(4, res, Pos(8, 13), Initialized, [])] + [Declared(5, x, Pos(8, 24), Initialized, [0])], fs) == fs + [Fact(4, res, [])] + [Fact(5, x, [0])];
    AssignedSnoc(fs, Fact(4, res, []), 5, x, [0]);
    AssignedSnoc(fs + [Fact(4, res, [])], Fact(5, x, [0]), 5, x, [0]);
    Event2(res, x, y, tr, fs + [Fact(4, res, [])] + [Fact(5, x, [0])]);
    AnalyseSnoc(tr, [] + [Declared(4, res, Pos(8, 13), Initialized, [])] + [Declared(5, x, Pos(8, 24), Initialized, [0])], Referenced(5, x, Pos(9, 38), false, false, [0]), fs);
    assert Analyse(tr, [] + [Declared(4, res, Pos(8, 13), Initialized, [])] + [Declared(5, x, Pos(8, 24), Initialized, [0])] + [Referenced(5, x, Pos(9, 38), false, false, [0])], fs) == [] + [] + [] + [];
    assert Replay(tr, [] + [Declared(4, res, Pos(8, 13), Initialized, [])] + [Declared(5, x, Pos(8, 24), Initialized, [0])] + [Referenced(5, x, Pos(9, 38), false, false, [0])], fs) == fs + [Fact(4, res, [])] + [Fact(5, x, [0])];
    Event3(res, x, y, tr, fs + [Fact(4, res, [])] + [Fact(5, x, [0])]);
    AnalyseSnoc(tr, [] + [Declared(4, res, Pos(8, 13), Initialized, [])] + [Declared(5, x, Pos(8, 24), Initialized, [0])] + [Referenced(5, x, Pos(9, 38), false, false, [0])], Declared(5, y, Pos(9, 49), Out, [0]), fs);
    assert Analyse(tr, [] + [Declared(4, res, Pos(8, 13), Initialized, [])] + [Declared(5, x, Pos(8, 24), Initialized, [0])] + [Referenced(5, x, Pos(9, 38), false, false, [0])] + [Declared(5, y, Pos(9, 49), Out, [0])], fs) == [] + [] + [] + [] + [];
    assert Replay(tr, [] + [Declared(4, res, Pos(8, 13), Initialized, [])] + [Declared(5, x, Pos(8, 24), Initialized, [0])] + [Referenced(5, x, Pos(9, 38), false, false, [0])] + [Declared(5, y, Pos(9, 49), Out, [0])], fs) == fs + [Fact(4, res, [])] + [Fact(5, x, [0])];
    Event4(res, x, y, tr, fs + [Fact(4, res, [])] + [Fact(5, x, [0])]);
    AnalyseSnoc(tr, [] + [Declared(4, res, Pos(8, 13), Initialized, [])] + [Declared(5, x, Pos(8, 24), Initialized, [0])] + [Referenced(5, x, Pos(9, 38), false, false, [0])] + [Declared(5, y, Pos(9, 49), Out, [0])], OutAssigned(5, [y], [0]), fs);
    assert Analyse(tr, [] + [Declared(4, res, Pos(8, 13), Initialized, [])] + [Declared(5, x, Pos(8, 24), Initialized, [0])] + [Referenced(5, x, Pos(9, 38), false, false, [0])] + [Declared(5, y, Pos(9, 49), Out, [0])] + [OutAssigned(5, [y], [0])], fs) == [] + [] + [] + [] + [] + [];
    assert Replay(tr, [] + [Declared(4, res, Pos(8, 13), Initialized, [])] + [Declared(5, x, Pos(8, 24), Initialized, [0])] + [Referenced(5, x, Pos(9, 38), false, false, [0])] + [Declared(5, y, Pos(9, 49), Out, [0])] + [OutAssigned(5, [y], [0])], fs) == fs + [Fact(4, res, [])] + [Fact(5, x, [0])] + [Fact(5, y, [0])];
    Event5(res, x, y, tr, fs + [Fact(4, res, [])] + [Fact(5, x, [0])] + [Fact(5, y, [0])]);
    AnalyseSnoc(tr, [] + [Declared(4, res, Pos(8, 13), Initialized, [])] + [Declared(5, x, Pos(8, 24), Initialized, [0])] + [Referenced(5, x, Pos(9, 38), false, false, [0])] + [Declared(5, y, Pos(9, 49), Out, [0])] + [OutAssigned(5, [y], [0])], Declared(6, x, Pos(8, 24), Initialized, [1]), fs);
    assert Analyse(tr, [] + [Declared(4, res, Pos(8, 13), Initialized, [])] + [Declared(5, x, Pos(8, 24), Initialized, [0])] + [Referenced(5, x, Pos(9, 38), false, false, [0])] + [Declared(5, y, Pos(9, 49), Out, [0])] + [OutAssigned(5, [y], [0])] + [Declared(6, x, Pos(8, 24), Initialized, [1])], fs) == [] + [] + [] + [] + [] + [] + [];
    assert Replay(tr, [] + [Declared(4, res, Pos(8, 13), Initialized, [])] + [Declared(5, x, Pos(8, 24), Initialized, [0])] + [Referenced(5, x, Pos(9, 38), false, false, [0])] + [Declared(5, y, Pos(9, 49), Out, [0])] + [OutAssigned(5, [y], [0])] + [Declared(6, x, Pos(8, 24), Initialized, [1])], fs) == fs + [Fact(4, res, [])] + [Fact(5, x, [0])] + [Fact(5, y, [0])] + [Fact(6, x, [1])];
    Event6(res, x, y, tr, fs + [Fact(4, res, [])] + [Fact(5, x, [0])] + [Fact(5, y, [0])] + [Fact(6, x, [1])]);
    AnalyseSnoc(tr, [] + [Declared(4, res, Pos(8, 13), Initialized, [])] + [Declared(5, x, Pos(8, 24), Initialized, [0])] + [Referenced(5, x, Pos(9, 38), false, false, [0])] + [Declared(5, y, Pos(9, 49), Out, [0])] + [OutAssigned(5, [y], [0])] + [Declared(6, x, Pos(8, 24), Initialized, [1])], Referenced(6, y, Pos(10, 26), false, false, [1]), fs);
    assert Analyse(tr, [] + [Declared(4, res, Pos(8, 13), Initialized, [])] + [Declared(5, x, Pos(8, 24), Initialized, [0])] + [Referenced(5, x, Pos(9, 38), false, false, [0])] + [Declared(5, y, Pos(9, 49), Out, [0])] + [OutAssigned(5, [y], [0])] + [Declared(6, x, Pos(8, 24), Initialized, [1])] + [Referenced(6, y, Pos(10, 26), false, false, [1])], fs) == [] + [] + [] + [] + [] + [] + [] + [Diag(NotInContext, y, Pos(10, 26))];
    assert Replay(tr, [] + [Declared(4, res, Pos(8, 13), Initialized, [])] + [Declared(5, x, Pos(8, 24), Initialized, [0])] + [Referenced(5, x, Pos(9, 38), false, false, [0])] + [Declared(5, y, Pos(9, 49), Out, [0])] + [OutAssigned(5, [y], [0])] + [Declared(6, x, Pos(8, 24), Initialized, [1])] + [Referenced(6, y, Pos(10, 26), false, false, [1])], fs) == fs + [Fact(4, res, [])] + [Fact(5, x, [0])] + [Fact(5, y, [0])] + [Fact(6, x, [1])];
    Event7(res, x, y, tr, fs + [Fact(4, res, [])] + [Fact(5, x, [0])] + [Fact(5, y, [0])] + [Fact(6, x, [1])]);
    AnalyseSnoc(tr, [] + [Declared(4, res, Pos(8, 13), Initialized, [])] + [Declared(5, x, Pos(8, 24), Initialized, [0])] + [Referenced(5, x, Pos(9, 38), false, false, [0])] + [Declared(5, y, Pos(9, 49), Out, [0])] + [OutAssigned(5, [y], [0])] + [Declared(6, x, Pos(8, 24), Initialized, [1])] + [Referenced(6, y, Pos(10, 26), false, false, [1])], Referenced(4, y, Pos(12, 34), false, false, []), fs);
    AnalyseSplit(tr, evs, Chunk0(res, x, y), []);
  }

  /** The analysis of events 8 to 8, after the events before them. */
  lemma {:induction false} Analysed1(res: string, x: string, y: string, tr: Tree, evs: seq<Event>, fs: seq<Fact>, rs: seq<Diag>)
    requires Analyse(tr, evs, []) == rs
    requires Replay(tr, evs, []) == fs
    ensures Analyse(tr, evs + Chunk1(res, x, y), []) == rs + ([] + [])
    ensures Replay(tr, evs + Chunk1(res, x, y), []) == fs
  {
    assert Analyse(tr, [], fs) == [] && Replay(tr, [], fs) == fs;
    Event8(res, x, y, tr, fs);
    AnalyseSnoc(tr, [], OutAssigned(4, [], []), fs);
    AnalyseSplit(tr, evs, Chunk1(res, x, y), []);
  }

  lemma {:induction false} Glue0(res: string, x: string, y: string, rs: seq<Diag>)
    requires rs == []
    ensures rs + ([] + [] + [] + [] + [] + [] + [] + [Diag(NotInContext, y, Pos(10, 26))] + [Diag(NotInContext, y, Pos(12, 34))]) == [Diag(NotInContext, y, Pos(10, 26)), Diag(NotInContext, y, Pos(12, 34))]
  {
  }

  lemma {:induction false} Glue1(res: string, x: string, y: string, rs: seq<Diag>)
    requires rs == [Diag(NotInContext, y, Pos(10, 26)), Diag(NotInContext, y, Pos(12, 34))]
    ensures rs + ([] + []) == [Diag(NotInContext, y, Pos(10, 26)), Diag(NotInContext, y, Pos(12, 34))]
  {
  }

  /** The analysis of events 0 to 8, after the events before them. */
  lemma {:induction false} Stage0(res: string, x: string, y: string, tr: Tree, evs: seq<Event>)
    requires ScopesAre(tr, Layout())
    requires LocalsFit(res, x, y, tr)
    requires res != x && res != y && x != y
    requires Analyse(tr, evs, []) == []
    requires Replay(tr, evs, []) == []
    ensures Analyse(tr, evs + Chunk0(res, x, y) + Chunk1(res, x, y), []) == [Diag(NotInContext, y, Pos(10, 26)), Diag(NotInContext, y, Pos(12, 34))]
    ensures Replay(tr, evs + Chunk0(res, x, y) + Chunk1(res, x, y), []) == Known0(res, x, y)
  {
    assert !Assigned([], 5, x, [0]);
    Scope0(res, x, y, tr);
    Scope3(res, x, y, tr);
    Scope4(res, x, y, tr);
    Scope5(res, x, y, tr);
    Scope6(res, x, y, tr);
    Analysed0(res, x, y, tr, evs, [], []);
    Glue0(res, x, y, []);
    Analysed1(res, x, y, tr, evs + Chunk0(res, x, y), Known0(res, x, y), [Diag(NotInContext, y, Pos(10, 26)), Diag(NotInContext, y, Pos(12, 34))]);
    Glue1(res, x, y, [Diag(NotInContext, y, Pos(10, 26)), Diag(NotInContext, y, Pos(12, 34))]);
  }

  /** The analysis of a tree with the test's scopes and events. */
  lemma {:induction false} Result(res: string, x: string, y: string, tr: Tree)
    requires ScopesAre(tr, Layout()) && LocalsFit(res, x, y, tr) && tr.events == Trace(res, x, y)
    requires res != x && res != y && x != y
    ensures Analyse(tr, tr.events, []) == [Diag(NotInContext, y, Pos(10, 26)), Diag(NotInContext, y, Pos(12, 34))]
  {
    assert Analyse(tr, [], []) == [] && Replay(tr, [], []) == [];
    Stage0(res, x, y, tr, []);
  }

  /** The diagnostics the test expects, in the order the analysis reports them. */
  lemma {:induction false} Outcome(res: string, x: string, y: string)
    requires res != x && res != y && x != y
    ensures Check(Program(res, x, y)) == [Diag(NotInContext, y, Pos(10, 26)), Diag(NotInContext, y, Pos(12, 34))]
  {
    Walked(res, x, y);
    LocalsAll(res, x, y, Build(Program(res, x, y)));
    Result(res, x, y, Build(Program(res, x, y)));
  }
}

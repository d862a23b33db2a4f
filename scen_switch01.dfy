/**
 * The test switch_01 (DeclarationExpressionsTests.cs, lines 1142 to 1172).
 *
 * Its program, with its local names left as parameters, is walked into a scope tree and
 * analysed; Outcome states the exact list of diagnostics Check reports, for any names that
 * differ where the outcome depends on it.
 */
module Scenswitch01 {
  import opened Syntax
  import opened Scopes
  import opened Binding
  import opened Reporting
  import opened Frames
  import opened Units
  import opened Traces

  /** The statements of the test's method, its names left as parameters. */
  function Body(j: string, k: string): seq<Stmt> {
    [Switch([Declare(j, Pos(6, 22), Initialized)], [Section([Exprs([Call([Argument([Use(j, Pos(9, 42), false)])])])])])] + ([Switch([Declare(j, Pos(13, 22), Initialized)], [Section([Exprs([Call([Argument([Use(j, Pos(16, 42), false)] + ([Declare(k, Pos(16, 51), Initialized)] + ([Use(k, Pos(16, 60), false)])))])])])] + ([Section([Exprs([Use(k, Pos(19, 17), true)])] + ([Exprs([Call([Argument([Use(k, Pos(20, 42), false)])])])]))]))])
  }

  /** The program of the test: one method holding those statements. */
  function Program(j: string, k: string): seq<Fragment> {
    MainUnit(Body(j, k))
  }

  /** Scopes 0 to 7, in the order the walk opens them. */
  function Layout0(): seq<Scope> {
    [Scope(Unit, None),
     Scope(InstanceInitializers, Some(0)),
     Scope(StaticInitializers, Some(0)),
     Scope(MethodBody, Some(0)),
     Scope(BlockBody, Some(3)),
     Scope(SwitchGoverning, Some(4)),
     Scope(SwitchSections, Some(5)),
     Scope(SwitchGoverning, Some(4))]
  }

  /** Scopes 8 to 8, in the order the walk opens them. */
  function Layout1(): seq<Scope> {
    [Scope(SwitchSections, Some(7))]
  }

  /** Its scopes, in the order the walk opens them. */
  function Layout(): seq<Scope> {
    Layout0() + Layout1()
  }

  lemma {:induction false} LayoutJoin0()
    ensures [Scope(Unit, None), Scope(InstanceInitializers, Some(0)), Scope(StaticInitializers, Some(0)), Scope(MethodBody, Some(0)), Scope(BlockBody, Some(3))] + [Scope(SwitchGoverning, Some(4))] + [Scope(SwitchSections, Some(5))] + [Scope(SwitchGoverning, Some(4))] == Layout0()
  {
  }

  lemma {:induction false} LayoutJoin1(pre: seq<Scope>)
    ensures pre + Layout1() == pre + [Scope(SwitchSections, Some(7))]
  {
  }

  /** The layout, scope by scope. */
  lemma {:induction false} LayoutFlat()
    ensures [Scope(Unit, None), Scope(InstanceInitializers, Some(0)), Scope(StaticInitializers, Some(0)), Scope(MethodBody, Some(0)), Scope(BlockBody, Some(3))] + [Scope(SwitchGoverning, Some(4))] + [Scope(SwitchSections, Some(5))] + [Scope(SwitchGoverning, Some(4))] + [Scope(SwitchSections, Some(7))] == Layout()
  {
    LayoutJoin0();
    LayoutJoin1(Layout0());
  }

  /** Events 0 to 7 of the test, in evaluation order. */
  function Chunk0(j: string, k: string): seq<Event> {
    []
      + [Declared(5, j, Pos(6, 22), Initialized, [])]
      + [Referenced(6, j, Pos(9, 42), false, false, [0])]
      + [OutAssigned(6, [], [0])]
      + [Declared(7, j, Pos(13, 22), Initialized, [])]
      + [Referenced(8, j, Pos(16, 42), false, false, [1])]
      + [Declared(8, k, Pos(16, 51), Initialized, [1])]
      + [Referenced(8, k, Pos(16, 60), false, false, [1])]
      + [OutAssigned(8, [], [1])]
  }

  /** Events 8 to 10 of the test, in evaluation order. */
  function Chunk1(j: string, k: string): seq<Event> {
    []
      + [Referenced(8, k, Pos(19, 17), true, false, [2])]
      + [Referenced(8, k, Pos(20, 42), false, false, [2])]
      + [OutAssigned(8, [], [2])]
  }

  /** The events of the test, in evaluation order. */
  function Trace(j: string, k: string): seq<Event> {
    []
      + Chunk0(j, k)
      + Chunk1(j, k)
  }

  lemma {:induction false} Walk2(j: string, k: string, tr: Tree)
    requires |tr.scopes| == 7 && tr.arms == 1
    ensures WalkStmt(Exprs([Call([Argument([Use(j, Pos(9, 42), false)])])]), Ctx(6, [0], []), tr) == Tree(tr.scopes, tr.events + [Referenced(6, j, Pos(9, 42), false, false, [0])] + [OutAssigned(6, [], [0])], 1)
  {
    WalkExprsOne(Call([Argument([Use(j, Pos(9, 42), false)])]), Ctx(6, [0], []), tr);
    assert OutNames([]) == [];
    WalkArgsOne(Argument([Use(j, Pos(9, 42), false)]), [], Ctx(6, [0], []), tr);
    WalkExprsOne(Use(j, Pos(9, 42), false), Ctx(6, [0], []), tr);
    assert WalkExpr(Use(j, Pos(9, 42), false), Ctx(6, [0], []), tr) == Tree(tr.scopes, tr.events + [Referenced(6, j, Pos(9, 42), false, false, [0])], 1);
    assert WalkExprs([Use(j, Pos(9, 42), false)], Ctx(6, [0], []), tr) == Tree(tr.scopes, tr.events + [Referenced(6, j, Pos(9, 42), false, false, [0])], 1);
    OutNamesOfOne(Use(j, Pos(9, 42), false));
    OutNamesSnoc([], Argument([Use(j, Pos(9, 42), false)]));
    assert WalkArgs([Argument([Use(j, Pos(9, 42), false)])], [], Ctx(6, [0], []), tr) == Tree(tr.scopes, tr.events + [Referenced(6, j, Pos(9, 42), false, false, [0])], 1);
    assert OutNames([Argument([Use(j, Pos(9, 42), false)])]) == [];
    assert WalkExpr(Call([Argument([Use(j, Pos(9, 42), false)])]), Ctx(6, [0], []), tr) == Tree(tr.scopes, tr.events + [Referenced(6, j, Pos(9, 42), false, false, [0])] + [OutAssigned(6, [], [0])], 1);
    assert WalkExprs([Call([Argument([Use(j, Pos(9, 42), false)])])], Ctx(6, [0], []), tr) == Tree(tr.scopes, tr.events + [Referenced(6, j, Pos(9, 42), false, false, [0])] + [OutAssigned(6, [], [0])], 1);
    assert WalkStmt(Exprs([Call([Argument([Use(j, Pos(9, 42), false)])])]), Ctx(6, [0], []), tr) == Tree(tr.scopes, tr.events + [Referenced(6, j, Pos(9, 42), false, false, [0])] + [OutAssigned(6, [], [0])], 1);
  }

  lemma {:induction false} Walk1(j: string, k: string, tr: Tree)
    requires |tr.scopes| == 5 && tr.arms == 0
    ensures WalkStmt(Switch([Declare(j, Pos(6, 22), Initialized)], [Section([Exprs([Call([Argument([Use(j, Pos(9, 42), false)])])])])]), Ctx(4, [], []), tr) == Tree(tr.scopes + [Scope(SwitchGoverning, Some(4))] + [Scope(SwitchSections, Some(5))], tr.events + [Declared(5, j, Pos(6, 22), Initialized, [])] + [Referenced(6, j, Pos(9, 42), false, false, [0])] + [OutAssigned(6, [], [0])], 1)
  {
    WalkExprsOne(Declare(j, Pos(6, 22), Initialized), Ctx(5, [], []), Tree(tr.scopes + [Scope(SwitchGoverning, Some(4))], tr.events, 0));
    assert WalkExpr(Declare(j, Pos(6, 22), Initialized), Ctx(5, [], []), Tree(tr.scopes + [Scope(SwitchGoverning, Some(4))], tr.events, 0)) == Tree(tr.scopes + [Scope(SwitchGoverning, Some(4))], tr.events + [Declared(5, j, Pos(6, 22), Initialized, [])], 0);
    assert WalkExprs([Declare(j, Pos(6, 22), Initialized)], Ctx(5, [], []), Tree(tr.scopes + [Scope(SwitchGoverning, Some(4))], tr.events, 0)) == Tree(tr.scopes + [Scope(SwitchGoverning, Some(4))], tr.events + [Declared(5, j, Pos(6, 22), Initialized, [])], 0);
    WalkSectionsOne(Section([Exprs([Call([Argument([Use(j, Pos(9, 42), false)])])])]), Ctx(6, [], []), Tree(tr.scopes + [Scope(SwitchGoverning, Some(4))] + [Scope(SwitchSections, Some(5))], tr.events + [Declared(5, j, Pos(6, 22), Initialized, [])], 0));
    assert [] + [0] == [0];
    WalkStmtsOne(Exprs([Call([Argument([Use(j, Pos(9, 42), false)])])]), Ctx(6, [0], []), Tree(tr.scopes + [Scope(SwitchGoverning, Some(4))] + [Scope(SwitchSections, Some(5))], tr.events + [Declared(5, j, Pos(6, 22), Initialized, [])], 1));
    Walk2(j, k, Tree(tr.scopes + [Scope(SwitchGoverning, Some(4))] + [Scope(SwitchSections, Some(5))], tr.events + [Declared(5, j, Pos(6, 22), Initialized, [])], 1));
    assert WalkStmt(Exprs([Call([Argument([Use(j, Pos(9, 42), false)])])]), Ctx(6, [0], []), Tree(tr.scopes + [Scope(SwitchGoverning, Some(4))] + [Scope(SwitchSections, Some(5))], tr.events + [Declared(5, j, Pos(6, 22), Initialized, [])], 1)) == Tree(tr.scopes + [Scope(SwitchGoverning, Some(4))] + [Scope(SwitchSections, Some(5))], tr.events + [Declared(5, j, Pos(6, 22), Initialized, [])] + [Referenced(6, j, Pos(9, 42), false, false, [0])] + [OutAssigned(6, [], [0])], 1);
    assert WalkStmts([Exprs([Call([Argument([Use(j, Pos(9, 42), false)])])])], Ctx(6, [0], []), Tree(tr.scopes + [Scope(SwitchGoverning, Some(4))] + [Scope(SwitchSections, Some(5))], tr.events + [Declared(5, j, Pos(6, 22), Initialized, [])], 1)) == Tree(tr.scopes + [Scope(SwitchGoverning, Some(4))] + [Scope(SwitchSections, Some(5))], tr.events + [Declared(5, j, Pos(6, 22), Initialized, [])] + [Referenced(6, j, Pos(9, 42), false, false, [0])] + [OutAssigned(6, [], [0])], 1);
    assert WalkStmt(Switch([Declare(j, Pos(6, 22), Initialized)], [Section([Exprs([Call([Argument([Use(j, Pos(9, 42), false)])])])])]), Ctx(4, [], []), tr) == Tree(tr.scopes + [Scope(SwitchGoverning, Some(4))] + [Scope(SwitchSections, Some(5))], tr.events + [Declared(5, j, Pos(6, 22), Initialized, [])] + [Referenced(6, j, Pos(9, 42), false, false, [0])] + [OutAssigned(6, [], [0])], 1);
  }

  lemma {:induction false} Walk4(j: string, k: string, tr: Tree)
    requires |tr.scopes| == 9 && tr.arms == 2
    ensures WalkStmt(Exprs([Call([Argument([Use(j, Pos(16, 42), false)] + ([Declare(k, Pos(16, 51), Initialized)] + ([Use(k, Pos(16, 60), false)])))])]), Ctx(8, [1], []), tr) == Tree(tr.scopes, tr.events + [Referenced(8, j, Pos(16, 42), false, false, [1])] + [Declared(8, k, Pos(16, 51), Initialized, [1])] + [Referenced(8, k, Pos(16, 60), false, false, [1])] + [OutAssigned(8, [], [1])], 2)
  {
    WalkExprsOne(Call([Argument([Use(j, Pos(16, 42), false)] + ([Declare(k, Pos(16, 51), Initialized)] + ([Use(k, Pos(16, 60), false)])))]), Ctx(8, [1], []), tr);
    assert OutNames([]) == [];
    WalkArgsOne(Argument([Use(j, Pos(16, 42), false)] + ([Declare(k, Pos(16, 51), Initialized)] + ([Use(k, Pos(16, 60), false)]))), [], Ctx(8, [1], []), tr);
    WalkExprsCons(Use(j, Pos(16, 42), false), [Declare(k, Pos(16, 51), Initialized)] + ([Use(k, Pos(16, 60), false)]), Ctx(8, [1], []), tr);
    assert WalkExpr(Use(j, Pos(16, 42), false), Ctx(8, [1], []), tr) == Tree(tr.scopes, tr.events + [Referenced(8, j, Pos(16, 42), false, false, [1])], 2);
    WalkExprsCons(Declare(k, Pos(16, 51), Initialized), [Use(k, Pos(16, 60), false)], Ctx(8, [1], []), Tree(tr.scopes, tr.events + [Referenced(8, j, Pos(16, 42), false, false, [1])], 2));
    assert WalkExpr(Declare(k, Pos(16, 51), Initialized), Ctx(8, [1], []), Tree(tr.scopes, tr.events + [Referenced(8, j, Pos(16, 42), false, false, [1])], 2)) == Tree(tr.scopes, tr.events + [Referenced(8, j, Pos(16, 42), false, false, [1])] + [Declared(8, k, Pos(16, 51), Initialized, [1])], 2);
    WalkExprsOne(Use(k, Pos(16, 60), false), Ctx(8, [1], []), Tree(tr.scopes, tr.events + [Referenced(8, j, Pos(16, 42), false, false, [1])] + [Declared(8, k, Pos(16, 51), Initialized, [1])], 2));
    assert WalkExpr(Use(k, Pos(16, 60), false), Ctx(8, [1], []), Tree(tr.scopes, tr.events + [Referenced(8, j, Pos(16, 42), false, false, [1])] + [Declared(8, k, Pos(16, 51), Initialized, [1])], 2)) == Tree(tr.scopes, tr.events + [Referenced(8, j, Pos(16, 42), false, false, [1])] + [Declared(8, k, Pos(16, 51), Initialized, [1])] + [Referenced(8, k, Pos(16, 60), false, false, [1])], 2);
    assert WalkExprs([Use(j, Pos(16, 42), false)] + ([Declare(k, Pos(16, 51), Initialized)] + ([Use(k, Pos(16, 60), false)])), Ctx(8, [1], []), tr) == Tree(tr.scopes, tr.events + [Referenced(8, j, Pos(16, 42), false, false, [1])] + [Declared(8, k, Pos(16, 51), Initialized, [1])] + [Referenced(8, k, Pos(16, 60), false, false, [1])], 2);
    OutNamesOfCons(Use(j, Pos(16, 42), false), [Declare(k, Pos(16, 51), Initialized)] + ([Use(k, Pos(16, 60), false)]));
    OutNamesOfCons(Declare(k, Pos(16, 51), Initialized), [Use(k, Pos(16, 60), false)]);
    OutNamesOfOne(Use(k, Pos(16, 60), false));
    OutNamesSnoc([], Argument([Use(j, Pos(16, 42), false)] + ([Declare(k, Pos(16, 51), Initialized)] + ([Use(k, Pos(16, 60), false)]))));
    assert WalkArgs([Argument([Use(j, Pos(16, 42), false)] + ([Declare(k, Pos(16, 51), Initialized)] + ([Use(k, Pos(16, 60), false)])))], [], Ctx(8, [1], []), tr) == Tree(tr.scopes, tr.events + [Referenced(8, j, Pos(16, 42), false, false, [1])] + [Declared(8, k, Pos(16, 51), Initialized, [1])] + [Referenced(8, k, Pos(16, 60), false, false, [1])], 2);
    assert OutNames([Argument([Use(j, Pos(16, 42), false)] + ([Declare(k, Pos(16, 51), Initialized)] + ([Use(k, Pos(16, 60), false)])))]) == [];
    assert WalkExpr(Call([Argument([Use(j, Pos(16, 42), false)] + ([Declare(k, Pos(16, 51), Initialized)] + ([Use(k, Pos(16, 60), false)])))]), Ctx(8, [1], []), tr) == Tree(tr.scopes, tr.events + [Referenced(8, j, Pos(16, 42), false, false, [1])] + [Declared(8, k, Pos(16, 51), Initialized, [1])] + [Referenced(8, k, Pos(16, 60), false, false, [1])] + [OutAssigned(8, [], [1])], 2);
    assert WalkExprs([Call([Argument([Use(j, Pos(16, 42), false)] + ([Declare(k, Pos(16, 51), Initialized)] + ([Use(k, Pos(16, 60), false)])))])], Ctx(8, [1], []), tr) == Tree(tr.scopes, tr.events + [Referenced(8, j, Pos(16, 42), false, false, [1])] + [Declared(8, k, Pos(16, 51), Initialized, [1])] + [Referenced(8, k, Pos(16, 60), false, false, [1])] + [OutAssigned(8, [], [1])], 2);
    assert WalkStmt(Exprs([Call([Argument([Use(j, Pos(16, 42), false)] + ([Declare(k, Pos(16, 51), Initialized)] + ([Use(k, Pos(16, 60), false)])))])]), Ctx(8, [1], []), tr) == Tree(tr.scopes, tr.events + [Referenced(8, j, Pos(16, 42), false, false, [1])] + [Declared(8, k, Pos(16, 51), Initialized, [1])] + [Referenced(8, k, Pos(16, 60), false, false, [1])] + [OutAssigned(8, [], [1])], 2);
  }

  lemma {:induction false} Walk5(j: string, k: string, tr: Tree)
    requires |tr.scopes| == 9 && tr.arms == 3
    ensures WalkStmt(Exprs([Use(k, Pos(19, 17), true)]), Ctx(8, [2], []), tr) == Tree(tr.scopes, tr.events + [Referenced(8, k, Pos(19, 17), true, false, [2])], 3)
  {
    WalkExprsOne(Use(k, Pos(19, 17), true), Ctx(8, [2], []), tr);
    assert WalkExpr(Use(k, Pos(19, 17), true), Ctx(8, [2], []), tr) == Tree(tr.scopes, tr.events + [Referenced(8, k, Pos(19, 17), true, false, [2])], 3);
    assert WalkExprs([Use(k, Pos(19, 17), true)], Ctx(8, [2], []), tr) == Tree(tr.scopes, tr.events + [Referenced(8, k, Pos(19, 17), true, false, [2])], 3);
    assert WalkStmt(Exprs([Use(k, Pos(19, 17), true)]), Ctx(8, [2], []), tr) == Tree(tr.scopes, tr.events + [Referenced(8, k, Pos(19, 17), true, false, [2])], 3);
  }

  lemma {:induction false} Walk6(j: string, k: string, tr: Tree)
    requires |tr.scopes| == 9 && tr.arms == 3
    ensures WalkStmt(Exprs([Call([Argument([Use(k, Pos(20, 42), false)])])]), Ctx(8, [2], []), tr) == Tree(tr.scopes, tr.events + [Referenced(8, k, Pos(20, 42), false, false, [2])] + [OutAssigned(8, [], [2])], 3)
  {
    WalkExprsOne(Call([Argument([Use(k, Pos(20, 42), false)])]), Ctx(8, [2], []), tr);
    assert OutNames([]) == [];
    WalkArgsOne(Argument([Use(k, Pos(20, 42), false)]), [], Ctx(8, [2], []), tr);
    WalkExprsOne(Use(k, Pos(20, 42), false), Ctx(8, [2], []), tr);
    assert WalkExpr(Use(k, Pos(20, 42), false), Ctx(8, [2], []), tr) == Tree(tr.scopes, tr.events + [Referenced(8, k, Pos(20, 42), false, false, [2])], 3);
    assert WalkExprs([Use(k, Pos(20, 42), false)], Ctx(8, [2], []), tr) == Tree(tr.scopes, tr.events + [Referenced(8, k, Pos(20, 42), false, false, [2])], 3);
    OutNamesOfOne(Use(k, Pos(20, 42), false));
    OutNamesSnoc([], Argument([Use(k, Pos(20, 42), false)]));
    assert WalkArgs([Argument([Use(k, Pos(20, 42), false)])], [], Ctx(8, [2], []), tr) == Tree(tr.scopes, tr.events + [Referenced(8, k, Pos(20, 42), false, false, [2])], 3);
    assert OutNames([Argument([Use(k, Pos(20, 42), false)])]) == [];
    assert WalkExpr(Call([Argument([Use(k, Pos(20, 42), false)])]), Ctx(8, [2], []), tr) == Tree(tr.scopes, tr.events + [Referenced(8, k, Pos(20, 42), false, false, [2])] + [OutAssigned(8, [], [2])], 3);
    assert WalkExprs([Call([Argument([Use(k, Pos(20, 42), false)])])], Ctx(8, [2], []), tr) == Tree(tr.scopes, tr.events + [Referenced(8, k, Pos(20, 42), false, false, [2])] + [OutAssigned(8, [], [2])], 3);
    assert WalkStmt(Exprs([Call([Argument([Use(k, Pos(20, 42), false)])])]), Ctx(8, [2], []), tr) == Tree(tr.scopes, tr.events + [Referenced(8, k, Pos(20, 42), false, false, [2])] + [OutAssigned(8, [], [2])], 3);
  }

  lemma {:induction false} Walk3(j: string, k: string, tr: Tree)
    requires |tr.scopes| == 7 && tr.arms == 1
    ensures WalkStmt(Switch([Declare(j, Pos(13, 22), Initialized)], [Section([Exprs([Call([Argument([Use(j, Pos(16, 42), false)] + ([Declare(k, Pos(16, 51), Initialized)] + ([Use(k, Pos(16, 60), false)])))])])])] + ([Section([Exprs([Use(k, Pos(19, 17), true)])] + ([Exprs([Call([Argument([Use(k, Pos(20, 42), false)])])])]))])), Ctx(4, [], []), tr) == Tree(tr.scopes + [Scope(SwitchGoverning, Some(4))] + [Scope(SwitchSections, Some(7))], tr.events + [Declared(7, j, Pos(13, 22), Initialized, [])] + [Referenced(8, j, Pos(16, 42), false, false, [1])] + [Declared(8, k, Pos(16, 51), Initialized, [1])] + [Referenced(8, k, Pos(16, 60), false, false, [1])] + [OutAssigned(8, [], [1])] + [Referenced(8, k, Pos(19, 17), true, false, [2])] + [Referenced(8, k, Pos(20, 42), false, false, [2])] + [OutAssigned(8, [], [2])], 3)
  {
    WalkExprsOne(Declare(j, Pos(13, 22), Initialized), Ctx(7, [], []), Tree(tr.scopes + [Scope(SwitchGoverning, Some(4))], tr.events, 1));
    assert WalkExpr(Declare(j, Pos(13, 22), Initialized), Ctx(7, [], []), Tree(tr.scopes + [Scope(SwitchGoverning, Some(4))], tr.events, 1)) == Tree(tr.scopes + [Scope(SwitchGoverning, Some(4))], tr.events + [Declared(7, j, Pos(13, 22), Initialized, [])], 1);
    assert WalkExprs([Declare(j, Pos(13, 22), Initialized)], Ctx(7, [], []), Tree(tr.scopes + [Scope(SwitchGoverning, Some(4))], tr.events, 1)) == Tree(tr.scopes + [Scope(SwitchGoverning, Some(4))], tr.events + [Declared(7, j, Pos(13, 22), Initialized, [])], 1);
    WalkSectionsCons(Section([Exprs([Call([Argument([Use(j, Pos(16, 42), false)] + ([Declare(k, Pos(16, 51), Initialized)] + ([Use(k, Pos(16, 60), false)])))])])]), [Section([Exprs([Use(k, Pos(19, 17), true)])] + ([Exprs([Call([Argument([Use(k, Pos(20, 42), false)])])])]))], Ctx(8, [], []), Tree(tr.scopes + [Scope(SwitchGoverning, Some(4))] + [Scope(SwitchSections, Some(7))], tr.events + [Declared(7, j, Pos(13, 22), Initialized, [])], 1));
    assert [] + [1] == [1];
    WalkStmtsOne(Exprs([Call([Argument([Use(j, Pos(16, 42), false)] + ([Declare(k, Pos(16, 51), Initialized)] + ([Use(k, Pos(16, 60), false)])))])]), Ctx(8, [1], []), Tree(tr.scopes + [Scope(SwitchGoverning, Some(4))] + [Scope(SwitchSections, Some(7))], tr.events + [Declared(7, j, Pos(13, 22), Initialized, [])], 2));
    Walk4(j, k, Tree(tr.scopes + [Scope(SwitchGoverning, Some(4))] + [Scope(SwitchSections, Some(7))], tr.events + [Declared(7, j, Pos(13, 22), Initialized, [])], 2));
    assert WalkStmt(Exprs([Call([Argument([Use(j, Pos(16, 42), false)] + ([Declare(k, Pos(16, 51), Initialized)] + ([Use(k, Pos(16, 60), false)])))])]), Ctx(8, [1], []), Tree(tr.scopes + [Scope(SwitchGoverning, Some(4))] + [Scope(SwitchSections, Some(7))], tr.events + [Declared(7, j, Pos(13, 22), Initialized, [])], 2)) == Tree(tr.scopes + [Scope(SwitchGoverning, Some(4))] + [Scope(SwitchSections, Some(7))], tr.events + [Declared(7, j, Pos(13, 22), Initialized, [])] + [Referenced(8, j, Pos(16, 42), false, false, [1])] + [Declared(8, k, Pos(16, 51), Initialized, [1])] + [Referenced(8, k, Pos(16, 60), false, false, [1])] + [OutAssigned(8, [], [1])], 2);
    assert WalkStmts([Exprs([Call([Argument([Use(j, Pos(16, 42), false)] + ([Declare(k, Pos(16, 51), Initialized)] + ([Use(k, Pos(16, 60), false)])))])])], Ctx(8, [1], []), Tree(tr.scopes + [Scope(SwitchGoverning, Some(4))] + [Scope(SwitchSections, Some(7))], tr.events + [Declared(7, j, Pos(13, 22), Initialized, [])], 2)) == Tree(tr.scopes + [Scope(SwitchGoverning, Some(4))] + [Scope(SwitchSections, Some(7))], tr.events + [Declared(7, j, Pos(13, 22), Initialized, [])] + [Referenced(8, j, Pos(16, 42), false, false, [1])] + [Declared(8, k, Pos(16, 51), Initialized, [1])] + [Referenced(8, k, Pos(16, 60), false, false, [1])] + [OutAssigned(8, [], [1])], 2);
    WalkSectionsOne(Section([Exprs([Use(k, Pos(19, 17), true)])] + ([Exprs([Call([Argument([Use(k, Pos(20, 42), false)])])])])), Ctx(8, [], []), Tree(tr.scopes + [Scope(SwitchGoverning, Some(4))] + [Scope(SwitchSections, Some(7))], tr.events + [Declared(7, j, Pos(13, 22), Initialized, [])] + [Referenced(8, j, Pos(16, 42), false, false, [1])] + [Declared(8, k, Pos(16, 51), Initialized, [1])] + [Referenced(8, k, Pos(16, 60), false, false, [1])] + [OutAssigned(8, [], [1])], 2));
    assert [] + [2] == [2];
    WalkStmtsCons(Exprs([Use(k, Pos(19, 17), true)]), [Exprs([Call([Argument([Use(k, Pos(20, 42), false)])])])], Ctx(8, [2], []), Tree(tr.scopes + [Scope(SwitchGoverning, Some(4))] + [Scope(SwitchSections, Some(7))], tr.events + [Declared(7, j, Pos(13, 22), Initialized, [])] + [Referenced(8, j, Pos(16, 42), false, false, [1])] + [Declared(8, k, Pos(16, 51), Initialized, [1])] + [Referenced(8, k, Pos(16, 60), false, false, [1])] + [OutAssigned(8, [], [1])], 3));
    Walk5(j, k, Tree(tr.scopes + [Scope(SwitchGoverning, Some(4))] + [Scope(SwitchSections, Some(7))], tr.events + [Declared(7, j, Pos(13, 22), Initialized, [])] + [Referenced(8, j, Pos(16, 42), false, false, [1])] + [Declared(8, k, Pos(16, 51), Initialized, [1])] + [Referenced(8, k, Pos(16, 60), false, false, [1])] + [OutAssigned(8, [], [1])], 3));
    assert WalkStmt(Exprs([Use(k, Pos(19, 17), true)]), Ctx(8, [2], []), Tree(tr.scopes + [Scope(SwitchGoverning, Some(4))] + [Scope(SwitchSections, Some(7))], tr.events + [Declared(7, j, Pos(13, 22), Initialized, [])] + [Referenced(8, j, Pos(16, 42), false, false, [1])] + [Declared(8, k, Pos(16, 51), Initialized, [1])] + [Referenced(8, k, Pos(16, 60), false, false, [1])] + [OutAssigned(8, [], [1])], 3)) == Tree(tr.scopes + [Scope(SwitchGoverning, Some(4))] + [Scope(SwitchSections, Some(7))], tr.events + [Declared(7, j, Pos(13, 22), Initialized, [])] + [Referenced(8, j, Pos(16, 42), false, false, [1])] + [Declared(8, k, Pos(16, 51), Initialized, [1])] + [Referenced(8, k, Pos(16, 60), false, false, [1])] + [OutAssigned(8, [], [1])] + [Referenced(8, k, Pos(19, 17), true, false, [2])], 3);
    WalkStmtsOne(Exprs([Call([Argument([Use(k, Pos(20, 42), false)])])]), Ctx(8, [2], []), Tree(tr.scopes + [Scope(SwitchGoverning, Some(4))] + [Scope(SwitchSections, Some(7))], tr.events + [Declared(7, j, Pos(13, 22), Initialized, [])] + [Referenced(8, j, Pos(16, 42), false, false, [1])] + [Declared(8, k, Pos(16, 51), Initialized, [1])] + [Referenced(8, k, Pos(16, 60), false, false, [1])] + [OutAssigned(8, [], [1])] + [Referenced(8, k, Pos(19, 17), true, false, [2])], 3));
    Walk6(j, k, Tree(tr.scopes + [Scope(SwitchGoverning, Some(4))] + [Scope(SwitchSections, Some(7))], tr.events + [Declared(7, j, Pos(13, 22), Initialized, [])] + [Referenced(8, j, Pos(16, 42), false, false, [1])] + [Declared(8, k, Pos(16, 51), Initialized, [1])] + [Referenced(8, k, Pos(16, 60), false, false, [1])] + [OutAssigned(8, [], [1])] + [Referenced(8, k, Pos(19, 17), true, false, [2])], 3));
    assert WalkStmt(Exprs([Call([Argument([Use(k, Pos(20, 42), false)])])]), Ctx(8, [2], []), Tree(tr.scopes + [Scope(SwitchGoverning, Some(4))] + [Scope(SwitchSections, Some(7))], tr.events + [Declared(7, j, Pos(13, 22), Initialized, [])] + [Referenced(8, j, Pos(16, 42), false, false, [1])] + [Declared(8, k, Pos(16, 51), Initialized, [1])] + [Referenced(8, k, Pos(16, 60), false, false, [1])] + [OutAssigned(8, [], [1])] + [Referenced(8, k, Pos(19, 17), true, false, [2])], 3)) == Tree(tr.scopes + [Scope(SwitchGoverning, Some(4))] + [Scope(SwitchSections, Some(7))], tr.events + [Declared(7, j, Pos(13, 22), Initialized, [])] + [Referenced(8, j, Pos(16, 42), false, false, [1])] + [Declared(8, k, Pos(16, 51), Initialized, [1])] + [Referenced(8, k, Pos(16, 60), false, false, [1])] + [OutAssigned(8, [], [1])] + [Referenced(8, k, Pos(19, 17), true, false, [2])] + [Referenced(8, k, Pos(20, 42), false, false, [2])] + [OutAssigned(8, [], [2])], 3);
    assert WalkStmts([Exprs([Use(k, Pos(19, 17), true)])] + ([Exprs([Call([Argument([Use(k, Pos(20, 42), false)])])])]), Ctx(8, [2], []), Tree(tr.scopes + [Scope(SwitchGoverning, Some(4))] + [Scope(SwitchSections, Some(7))], tr.events + [Declared(7, j, Pos(13, 22), Initialized, [])] + [Referenced(8, j, Pos(16, 42), false, false, [1])] + [Declared(8, k, Pos(16, 51), Initialized, [1])] + [Referenced(8, k, Pos(16, 60), false, false, [1])] + [OutAssigned(8, [], [1])], 3)) == Tree(tr.scopes + [Scope(SwitchGoverning, Some(4))] + [Scope(SwitchSections, Some(7))], tr.events + [Declared(7, j, Pos(13, 22), Initialized, [])] + [Referenced(8, j, Pos(16, 42), false, false, [1])] + [Declared(8, k, Pos(16, 51), Initialized, [1])] + [Referenced(8, k, Pos(16, 60), false, false, [1])] + [OutAssigned(8, [], [1])] + [Referenced(8, k, Pos(19, 17), true, false, [2])] + [Referenced(8, k, Pos(20, 42), false, false, [2])] + [OutAssigned(8, [], [2])], 3);
    assert WalkStmt(Switch([Declare(j, Pos(13, 22), Initialized)], [Section([Exprs([Call([Argument([Use(j, Pos(16, 42), false)] + ([Declare(k, Pos(16, 51), Initialized)] + ([Use(k, Pos(16, 60), false)])))])])])] + ([Section([Exprs([Use(k, Pos(19, 17), true)])] + ([Exprs([Call([Argument([Use(k, Pos(20, 42), false)])])])]))])), Ctx(4, [], []), tr) == Tree(tr.scopes + [Scope(SwitchGoverning, Some(4))] + [Scope(SwitchSections, Some(7))], tr.events + [Declared(7, j, Pos(13, 22), Initialized, [])] + [Referenced(8, j, Pos(16, 42), false, false, [1])] + [Declared(8, k, Pos(16, 51), Initialized, [1])] + [Referenced(8, k, Pos(16, 60), false, false, [1])] + [OutAssigned(8, [], [1])] + [Referenced(8, k, Pos(19, 17), true, false, [2])] + [Referenced(8, k, Pos(20, 42), false, false, [2])] + [OutAssigned(8, [], [2])], 3);
  }

  lemma {:induction false} Join0(j: string, k: string, evs: seq<Event>)
    ensures evs + Chunk0(j, k) == evs + [Declared(5, j, Pos(6, 22), Initialized, [])] + [Referenced(6, j, Pos(9, 42), false, false, [0])] + [OutAssigned(6, [], [0])] + [Declared(7, j, Pos(13, 22), Initialized, [])] + [Referenced(8, j, Pos(16, 42), false, false, [1])] + [Declared(8, k, Pos(16, 51), Initialized, [1])] + [Referenced(8, k, Pos(16, 60), false, false, [1])] + [OutAssigned(8, [], [1])]
  {
  }

  lemma {:induction false} Join1(j: string, k: string, evs: seq<Event>)
    ensures evs + Chunk1(j, k) == evs + [Referenced(8, k, Pos(19, 17), true, false, [2])] + [Referenced(8, k, Pos(20, 42), false, false, [2])] + [OutAssigned(8, [], [2])]
  {
  }

  /** The trace, event by event. */
  lemma {:induction false} Flat(j: string, k: string)
    ensures [] + [Declared(5, j, Pos(6, 22), Initialized, [])] + [Referenced(6, j, Pos(9, 42), false, false, [0])] + [OutAssigned(6, [], [0])] + [Declared(7, j, Pos(13, 22), Initialized, [])] + [Referenced(8, j, Pos(16, 42), false, false, [1])] + [Declared(8, k, Pos(16, 51), Initialized, [1])] + [Referenced(8, k, Pos(16, 60), false, false, [1])] + [OutAssigned(8, [], [1])] + [Referenced(8, k, Pos(19, 17), true, false, [2])] + [Referenced(8, k, Pos(20, 42), false, false, [2])] + [OutAssigned(8, [], [2])] == Trace(j, k)
  {
    Join0(j, k, []);
    Join1(j, k, [] + Chunk0(j, k));
  }

  lemma {:induction false} Walked(j: string, k: string)
    ensures Build(Program(j, k)) == Tree(Layout(), Trace(j, k), 3)
  {
    MainBuild(Body(j, k));
    WalkStmtsCons(Switch([Declare(j, Pos(6, 22), Initialized)], [Section([Exprs([Call([Argument([Use(j, Pos(9, 42), false)])])])])]), [Switch([Declare(j, Pos(13, 22), Initialized)], [Section([Exprs([Call([Argument([Use(j, Pos(16, 42), false)] + ([Declare(k, Pos(16, 51), Initialized)] + ([Use(k, Pos(16, 60), false)])))])])])] + ([Section([Exprs([Use(k, Pos(19, 17), true)])] + ([Exprs([Call([Argument([Use(k, Pos(20, 42), false)])])])]))]))], Ctx(4, [], []), MainHead());
    Walk1(j, k, MainHead());
    assert WalkStmt(Switch([Declare(j, Pos(6, 22), Initialized)], [Section([Exprs([Call([Argument([Use(j, Pos(9, 42), false)])])])])]), Ctx(4, [], []), MainHead()) == Tree(MainHead().scopes + [Scope(SwitchGoverning, Some(4))] + [Scope(SwitchSections, Some(5))], MainHead().events + [Declared(5, j, Pos(6, 22), Initialized, [])] + [Referenced(6, j, Pos(9, 42), false, false, [0])] + [OutAssigned(6, [], [0])], 1);
    WalkStmtsOne(Switch([Declare(j, Pos(13, 22), Initialized)], [Section([Exprs([Call([Argument([Use(j, Pos(16, 42), false)] + ([Declare(k, Pos(16, 51), Initialized)] + ([Use(k, Pos(16, 60), false)])))])])])] + ([Section([Exprs([Use(k, Pos(19, 17), true)])] + ([Exprs([Call([Argument([Use(k, Pos(20, 42), false)])])])]))])), Ctx(4, [], []), Tree(MainHead().scopes + [Scope(SwitchGoverning, Some(4))] + [Scope(SwitchSections, Some(5))], MainHead().events + [Declared(5, j, Pos(6, 22), Initialized, [])] + [Referenced(6, j, Pos(9, 42), false, false, [0])] + [OutAssigned(6, [], [0])], 1));
    Walk3(j, k, Tree(MainHead().scopes + [Scope(SwitchGoverning, Some(4))] + [Scope(SwitchSections, Some(5))], MainHead().events + [Declared(5, j, Pos(6, 22), Initialized, [])] + [Referenced(6, j, Pos(9, 42), false, false, [0])] + [OutAssigned(6, [], [0])], 1));
    assert WalkStmt(Switch([Declare(j, Pos(13, 22), Initialized)], [Section([Exprs([Call([Argument([Use(j, Pos(16, 42), false)] + ([Declare(k, Pos(16, 51), Initialized)] + ([Use(k, Pos(16, 60), false)])))])])])] + ([Section([Exprs([Use(k, Pos(19, 17), true)])] + ([Exprs([Call([Argument([Use(k, Pos(20, 42), false)])])])]))])), Ctx(4, [], []), Tree(MainHead().scopes + [Scope(SwitchGoverning, Some(4))] + [Scope(SwitchSections, Some(5))], MainHead().events + [Declared(5, j, Pos(6, 22), Initialized, [])] + [Referenced(6, j, Pos(9, 42), false, false, [0])] + [OutAssigned(6, [], [0])], 1)) == Tree(MainHead().scopes + [Scope(SwitchGoverning, Some(4))] + [Scope(SwitchSections, Some(5))] + [Scope(SwitchGoverning, Some(4))] + [Scope(SwitchSections, Some(7))], MainHead().events + [Declared(5, j, Pos(6, 22), Initialized, [])] + [Referenced(6, j, Pos(9, 42), false, false, [0])] + [OutAssigned(6, [], [0])] + [Declared(7, j, Pos(13, 22), Initialized, [])] + [Referenced(8, j, Pos(16, 42), false, false, [1])] + [Declared(8, k, Pos(16, 51), Initialized, [1])] + [Referenced(8, k, Pos(16, 60), false, false, [1])] + [OutAssigned(8, [], [1])] + [Referenced(8, k, Pos(19, 17), true, false, [2])] + [Referenced(8, k, Pos(20, 42), false, false, [2])] + [OutAssigned(8, [], [2])], 3);
    LayoutFlat();
    Flat(j, k);
  }

  /** The locals events of chunk `ck` declare in scope `sc`, in order. */
  function NewIn(j: string, k: string, ck: nat, sc: nat): seq<Local> {
    if ck == 0 then
      if sc == 5 then [] + [Local(j, Pos(6, 22))]
      else if sc == 7 then [] + [Local(j, Pos(13, 22))]
      else if sc == 8 then [] + [Local(k, Pos(16, 51))]
      else []
    else []
  }

  /** The locals the first `ck` chunks declare in scope `sc`, in order. */
  function DeclaredBy(j: string, k: string, ck: nat, sc: nat): seq<Local>
    decreases ck
  {
    if ck == 0 then [] else DeclaredBy(j, k, ck - 1, sc) + NewIn(j, k, ck - 1, sc)
  }

  /** The locals declared once events 0 to 7 follow some events. */
  lemma {:induction false} Decls0(j: string, k: string, evs: seq<Event>, sc: nat)
    requires DeclsIn(evs, sc) == DeclaredBy(j, k, 0, sc)
    ensures DeclsIn(evs + Chunk0(j, k), sc) == DeclaredBy(j, k, 1, sc)
  {
    DeclsInAppend(evs, Chunk0(j, k), sc);
    assert DeclsIn([], sc) == [];
    if sc == 5 {
      DeclsInAdd([], Declared(5, j, Pos(6, 22), Initialized, []), 5);
      DeclsInSkip([] + [Declared(5, j, Pos(6, 22), Initialized, [])], Referenced(6, j, Pos(9, 42), false, false, [0]), 5);
      DeclsInSkip([] + [Declared(5, j, Pos(6, 22), Initialized, [])] + [Referenced(6, j, Pos(9, 42), false, false, [0])], OutAssigned(6, [], [0]), 5);
      DeclsInSkip([] + [Declared(5, j, Pos(6, 22), Initialized, [])] + [Referenced(6, j, Pos(9, 42), false, false, [0])] + [OutAssigned(6, [], [0])], Declared(7, j, Pos(13, 22), Initialized, []), 5);
      DeclsInSkip([] + [Declared(5, j, Pos(6, 22), Initialized, [])] + [Referenced(6, j, Pos(9, 42), false, false, [0])] + [OutAssigned(6, [], [0])] + [Declared(7, j, Pos(13, 22), Initialized, [])], Referenced(8, j, Pos(16, 42), false, false, [1]), 5);
      DeclsInSkip([] + [Declared(5, j, Pos(6, 22), Initialized, [])] + [Referenced(6, j, Pos(9, 42), false, false, [0])] + [OutAssigned(6, [], [0])] + [Declared(7, j, Pos(13, 22), Initialized, [])] + [Referenced(8, j, Pos(16, 42), false, false, [1])], Declared(8, k, Pos(16, 51), Initialized, [1]), 5);
      DeclsInSkip([] + [Declared(5, j, Pos(6, 22), Initialized, [])] + [Referenced(6, j, Pos(9, 42), false, false, [0])] + [OutAssigned(6, [], [0])] + [Declared(7, j, Pos(13, 22), Initialized, [])] + [Referenced(8, j, Pos(16, 42), false, false, [1])] + [Declared(8, k, Pos(16, 51), Initialized, [1])], Referenced(8, k, Pos(16, 60), false, false, [1]), 5);
      DeclsInSkip([] + [Declared(5, j, Pos(6, 22), Initialized, [])] + [Referenced(6, j, Pos(9, 42), false, false, [0])] + [OutAssigned(6, [], [0])] + [Declared(7, j, Pos(13, 22), Initialized, [])] + [Referenced(8, j, Pos(16, 42), false, false, [1])] + [Declared(8, k, Pos(16, 51), Initialized, [1])] + [Referenced(8, k, Pos(16, 60), false, false, [1])], OutAssigned(8, [], [1]), 5);
    } else if sc == 7 {
      DeclsInSkip([], Declared(5, j, Pos(6, 22), Initialized, []), 7);
      DeclsInSkip([] + [Declared(5, j, Pos(6, 22), Initialized, [])], Referenced(6, j, Pos(9, 42), false, false, [0]), 7);
      DeclsInSkip([] + [Declared(5, j, Pos(6, 22), Initialized, [])] + [Referenced(6, j, Pos(9, 42), false, false, [0])], OutAssigned(6, [], [0]), 7);
      DeclsInAdd([] + [Declared(5, j, Pos(6, 22), Initialized, [])] + [Referenced(6, j, Pos(9, 42), false, false, [0])] + [OutAssigned(6, [], [0])], Declared(7, j, Pos(13, 22), Initialized, []), 7);
      DeclsInSkip([] + [Declared(5, j, Pos(6, 22), Initialized, [])] + [Referenced(6, j, Pos(9, 42), false, false, [0])] + [OutAssigned(6, [], [0])] + [Declared(7, j, Pos(13, 22), Initialized, [])], Referenced(8, j, Pos(16, 42), false, false, [1]), 7);
      DeclsInSkip([] + [Declared(5, j, Pos(6, 22), Initialized, [])] + [Referenced(6, j, Pos(9, 42), false, false, [0])] + [OutAssigned(6, [], [0])] + [Declared(7, j, Pos(13, 22), Initialized, [])] + [Referenced(8, j, Pos(16, 42), false, false, [1])], Declared(8, k, Pos(16, 51), Initialized, [1]), 7);
      DeclsInSkip([] + [Declared(5, j, Pos(6, 22), Initialized, [])] + [Referenced(6, j, Pos(9, 42), false, false, [0])] + [OutAssigned(6, [], [0])] + [Declared(7, j, Pos(13, 22), Initialized, [])] + [Referenced(8, j, Pos(16, 42), false, false, [1])] + [Declared(8, k, Pos(16, 51), Initialized, [1])], Referenced(8, k, Pos(16, 60), false, false, [1]), 7);
      DeclsInSkip([] + [Declared(5, j, Pos(6, 22), Initialized, [])] + [Referenced(6, j, Pos(9, 42), false, false, [0])] + [OutAssigned(6, [], [0])] + [Declared(7, j, Pos(13, 22), Initialized, [])] + [Referenced(8, j, Pos(16, 42), false, false, [1])] + [Declared(8, k, Pos(16, 51), Initialized, [1])] + [Referenced(8, k, Pos(16, 60), false, false, [1])], OutAssigned(8, [], [1]), 7);
    } else if sc == 8 {
      DeclsInSkip([], Declared(5, j, Pos(6, 22), Initialized, []), 8);
      DeclsInSkip([] + [Declared(5, j, Pos(6, 22), Initialized, [])], Referenced(6, j, Pos(9, 42), false, false, [0]), 8);
      DeclsInSkip([] + [Declared(5, j, Pos(6, 22), Initialized, [])] + [Referenced(6, j, Pos(9, 42), false, false, [0])], OutAssigned(6, [], [0]), 8);
      DeclsInSkip([] + [Declared(5, j, Pos(6, 22), Initialized, [])] + [Referenced(6, j, Pos(9, 42), false, false, [0])] + [OutAssigned(6, [], [0])], Declared(7, j, Pos(13, 22), Initialized, []), 8);
      DeclsInSkip([] + [Declared(5, j, Pos(6, 22), Initialized, [])] + [Referenced(6, j, Pos(9, 42), false, false, [0])] + [OutAssigned(6, [], [0])] + [Declared(7, j, Pos(13, 22), Initialized, [])], Referenced(8, j, Pos(16, 42), false, false, [1]), 8);
      DeclsInAdd([] + [Declared(5, j, Pos(6, 22), Initialized, [])] + [Referenced(6, j, Pos(9, 42), false, false, [0])] + [OutAssigned(6, [], [0])] + [Declared(7, j, Pos(13, 22), Initialized, [])] + [Referenced(8, j, Pos(16, 42), false, false, [1])], Declared(8, k, Pos(16, 51), Initialized, [1]), 8);
      DeclsInSkip([] + [Declared(5, j, Pos(6, 22), Initialized, [])] + [Referenced(6, j, Pos(9, 42), false, false, [0])] + [OutAssigned(6, [], [0])] + [Declared(7, j, Pos(13, 22), Initialized, [])] + [Referenced(8, j, Pos(16, 42), false, false, [1])] + [Declared(8, k, Pos(16, 51), Initialized, [1])], Referenced(8, k, Pos(16, 60), false, false, [1]), 8);
      DeclsInSkip([] + [Declared(5, j, Pos(6, 22), Initialized, [])] + [Referenced(6, j, Pos(9, 42), false, false, [0])] + [OutAssigned(6, [], [0])] + [Declared(7, j, Pos(13, 22), Initialized, [])] + [Referenced(8, j, Pos(16, 42), false, false, [1])] + [Declared(8, k, Pos(16, 51), Initialized, [1])] + [Referenced(8, k, Pos(16, 60), false, false, [1])], OutAssigned(8, [], [1]), 8);
    } else {
      DeclsInSkip([], Declared(5, j, Pos(6, 22), Initialized, []), sc);
      DeclsInSkip([] + [Declared(5, j, Pos(6, 22), Initialized, [])], Referenced(6, j, Pos(9, 42), false, false, [0]), sc);
      DeclsInSkip([] + [Declared(5, j, Pos(6, 22), Initialized, [])] + [Referenced(6, j, Pos(9, 42), false, false, [0])], OutAssigned(6, [], [0]), sc);
      DeclsInSkip([] + [Declared(5, j, Pos(6, 22), Initialized, [])] + [Referenced(6, j, Pos(9, 42), false, false, [0])] + [OutAssigned(6, [], [0])], Declared(7, j, Pos(13, 22), Initialized, []), sc);
      DeclsInSkip([] + [Declared(5, j, Pos(6, 22), Initialized, [])] + [Referenced(6, j, Pos(9, 42), false, false, [0])] + [OutAssigned(6, [], [0])] + [Declared(7, j, Pos(13, 22), Initialized, [])], Referenced(8, j, Pos(16, 42), false, false, [1]), sc);
      DeclsInSkip([] + [Declared(5, j, Pos(6, 22), Initialized, [])] + [Referenced(6, j, Pos(9, 42), false, false, [0])] + [OutAssigned(6, [], [0])] + [Declared(7, j, Pos(13, 22), Initialized, [])] + [Referenced(8, j, Pos(16, 42), false, false, [1])], Declared(8, k, Pos(16, 51), Initialized, [1]), sc);
      DeclsInSkip([] + [Declared(5, j, Pos(6, 22), Initialized, [])] + [Referenced(6, j, Pos(9, 42), false, false, [0])] + [OutAssigned(6, [], [0])] + [Declared(7, j, Pos(13, 22), Initialized, [])] + [Referenced(8, j, Pos(16, 42), false, false, [1])] + [Declared(8, k, Pos(16, 51), Initialized, [1])], Referenced(8, k, Pos(16, 60), false, false, [1]), sc);
      DeclsInSkip([] + [Declared(5, j, Pos(6, 22), Initialized, [])] + [Referenced(6, j, Pos(9, 42), false, false, [0])] + [OutAssigned(6, [], [0])] + [Declared(7, j, Pos(13, 22), Initialized, [])] + [Referenced(8, j, Pos(16, 42), false, false, [1])] + [Declared(8, k, Pos(16, 51), Initialized, [1])] + [Referenced(8, k, Pos(16, 60), false, false, [1])], OutAssigned(8, [], [1]), sc);
      AppendNil(DeclsIn(evs, sc));
    }
  }

  /** The locals declared once events 8 to 10 follow some events. */
  lemma {:induction false} Decls1(j: string, k: string, evs: seq<Event>, sc: nat)
    requires DeclsIn(evs, sc) == DeclaredBy(j, k, 1, sc)
    ensures DeclsIn(evs + Chunk1(j, k), sc) == DeclaredBy(j, k, 2, sc)
  {
    DeclsInAppend(evs, Chunk1(j, k), sc);
    assert DeclsIn([], sc) == [];
    DeclsInSkip([], Referenced(8, k, Pos(19, 17), true, false, [2]), sc);
    DeclsInSkip([] + [Referenced(8, k, Pos(19, 17), true, false, [2])], Referenced(8, k, Pos(20, 42), false, false, [2]), sc);
    DeclsInSkip([] + [Referenced(8, k, Pos(19, 17), true, false, [2])] + [Referenced(8, k, Pos(20, 42), false, false, [2])], OutAssigned(8, [], [2]), sc);
    AppendNil(DeclsIn(evs, sc));
  }

  lemma {:induction false} DeclsStage0(j: string, k: string, evs: seq<Event>, sc: nat)
    requires DeclsIn(evs, sc) == DeclaredBy(j, k, 0, sc)
    ensures DeclsIn(evs + Chunk0(j, k) + Chunk1(j, k), sc) == DeclaredBy(j, k, 2, sc)
  {
    Decls0(j, k, evs, sc);
    Decls1(j, k, evs + Chunk0(j, k), sc);
  }

  /** The locals of every scope of a tree whose events are the test's, as the table gives them. */
  ghost predicate LocalsFit(j: string, k: string, tr: Tree) {
    forall sc: nat {:trigger DeclaredBy(j, k, 2, sc)} :: LocalsOf(tr, sc) == DeclaredBy(j, k, 2, sc)
  }

  /** The locals of every scope. */
  lemma {:induction false} LocalsAll(j: string, k: string, tr: Tree)
    requires tr.events == Trace(j, k)
    ensures LocalsFit(j, k, tr)
  {
    forall sc: nat
      ensures LocalsOf(tr, sc) == DeclaredBy(j, k, 2, sc)
    {
      assert DeclsIn([], sc) == [] == DeclaredBy(j, k, 0, sc);
      DeclsStage0(j, k, [], sc);
    }
  }

  /** The locals scope 0 declares, in order. */
  lemma {:induction false} Locals0(j: string, k: string)
    ensures DeclaredBy(j, k, 2, 0) == []
  {
    AppendNil([]);
    assert DeclaredBy(j, k, 1, 0) == [];
    assert DeclaredBy(j, k, 2, 0) == [];
  }

  /** The locals scope 3 declares, in order. */
  lemma {:induction false} Locals3(j: string, k: string)
    ensures DeclaredBy(j, k, 2, 3) == []
  {
    AppendNil([]);
    assert DeclaredBy(j, k, 1, 3) == [];
    assert DeclaredBy(j, k, 2, 3) == [];
  }

  /** The locals scope 4 declares, in order. */
  lemma {:induction false} Locals4(j: string, k: string)
    ensures DeclaredBy(j, k, 2, 4) == []
  {
    AppendNil([]);
    assert DeclaredBy(j, k, 1, 4) == [];
    assert DeclaredBy(j, k, 2, 4) == [];
  }

  /** The locals scope 5 declares, in order. */
  lemma {:induction false} Locals5(j: string, k: string)
    ensures DeclaredBy(j, k, 2, 5) == [Local(j, Pos(6, 22))]
  {
    assert DeclaredBy(j, k, 1, 5) == [Local(j, Pos(6, 22))];
    AppendNil([Local(j, Pos(6, 22))]);
    assert DeclaredBy(j, k, 2, 5) == [Local(j, Pos(6, 22))];
  }

  /** The locals scope 6 declares, in order. */
  lemma {:induction false} Locals6(j: string, k: string)
    ensures DeclaredBy(j, k, 2, 6) == []
  {
    AppendNil([]);
    assert DeclaredBy(j, k, 1, 6) == [];
    assert DeclaredBy(j, k, 2, 6) == [];
  }

  /** The locals scope 7 declares, in order. */
  lemma {:induction false} Locals7(j: string, k: string)
    ensures DeclaredBy(j, k, 2, 7) == [Local(j, Pos(13, 22))]
  {
    assert DeclaredBy(j, k, 1, 7) == [Local(j, Pos(13, 22))];
    AppendNil([Local(j, Pos(13, 22))]);
    assert DeclaredBy(j, k, 2, 7) == [Local(j, Pos(13, 22))];
  }

  /** The locals scope 8 declares, in order. */
  lemma {:induction false} Locals8(j: string, k: string)
    ensures DeclaredBy(j, k, 2, 8) == [Local(k, Pos(16, 51))]
  {
    assert DeclaredBy(j, k, 1, 8) == [Local(k, Pos(16, 51))];
    AppendNil([Local(k, Pos(16, 51))]);
    assert DeclaredBy(j, k, 2, 8) == [Local(k, Pos(16, 51))];
  }

  /** The assignments known after event 7. */
  function Known0(j: string, k: string): seq<Fact> {
    []
      + [Fact(5, j, [])]
      + [Fact(7, j, [])]
      + [Fact(8, k, [1])]
  }

  /** Whether a local is assigned after the assignments of events 0 to 7. */
  lemma {:induction false} Assigned0(j: string, k: string, fs: seq<Fact>, sc: nat, nm: string, pth: seq<nat>)
    ensures Assigned(fs + [Fact(5, j, [])] + [Fact(7, j, [])] + [Fact(8, k, [1])], sc, nm, pth) == (
      Assigned(fs, sc, nm, pth) ||
      (5 == sc && j == nm && [] <= pth) ||
      (7 == sc && j == nm && [] <= pth) ||
      (8 == sc && k == nm && [1] <= pth))
  {
    AssignedSnoc(fs, Fact(5, j, []), sc, nm, pth);
    AssignedSnoc(fs + [Fact(5, j, [])], Fact(7, j, []), sc, nm, pth);
    AssignedSnoc(fs + [Fact(5, j, [])] + [Fact(7, j, [])], Fact(8, k, [1]), sc, nm, pth);
  }

  /** The assignments known after event 10. */
  function Known1(j: string, k: string): seq<Fact> {
    Known0(j, k)
      + [Fact(8, k, [2])]
  }

  /** Whether a local is assigned after the assignments of events 8 to 10. */
  lemma {:induction false} Assigned1(j: string, k: string, fs: seq<Fact>, sc: nat, nm: string, pth: seq<nat>)
    ensures Assigned(fs + [Fact(8, k, [2])], sc, nm, pth) == (
      Assigned(fs, sc, nm, pth) ||
      (8 == sc && k == nm && [2] <= pth))
  {
    AssignedSnoc(fs, Fact(8, k, [2]), sc, nm, pth);
  }

  /** Event 0: its diagnostics and the assignments after it. */
  lemma {:induction false} Event0(j: string, k: string, tr: Tree, fs: seq<Fact>)
    requires |tr.scopes| == 9
    requires Parent(tr, 0) == None
    requires Parent(tr, 3) == Some(0)
    requires Parent(tr, 4) == Some(3)
    requires Parent(tr, 5) == Some(4)
    requires LocalsOf(tr, 5) == [Local(j, Pos(6, 22))]
    requires LocalsOf(tr, 4) == []
    requires LocalsOf(tr, 3) == []
    requires LocalsOf(tr, 0) == []
    ensures EventDiags(tr, Declared(5, j, Pos(6, 22), Initialized, []), fs) == []
    ensures Step(tr, Declared(5, j, Pos(6, 22), Initialized, []), fs) == fs + [Fact(5, j, [])]
  {
    assert Lookup(tr, 0, j) == None;
    assert Lookup(tr, 3, j) == None;
    assert Lookup(tr, 4, j) == None;
  }

  /** Event 1: its diagnostics and the assignments after it. */
  lemma {:induction false} Event1(j: string, k: string, tr: Tree, fs: seq<Fact>)
    requires |tr.scopes| == 9
    requires Parent(tr, 5) == Some(4)
    requires Parent(tr, 6) == Some(5)
    requires LocalsOf(tr, 6) == []
    requires LocalsOf(tr, 5) == [Local(j, Pos(6, 22))]
    requires Assigned(fs, 5, j, [0])
    ensures EventDiags(tr, Referenced(6, j, Pos(9, 42), false, false, [0]), fs) == []
    ensures Step(tr, Referenced(6, j, Pos(9, 42), false, false, [0]), fs) == fs
  {
    assert Local(j, Pos(6, 22)) in LocalsOf(tr, 5);
    assert Lookup(tr, 5, j) == Some(5);
    assert Lookup(tr, 6, j) == Some(5);
  }

  /** Event 2: its diagnostics and the assignments after it. */
  lemma {:induction false} Event2(j: string, k: string, tr: Tree, fs: seq<Fact>)
    ensures EventDiags(tr, OutAssigned(6, [], [0]), fs) == []
    ensures Step(tr, OutAssigned(6, [], [0]), fs) == fs
  {
    assert OutFacts(6, [], [0]) == [];
    FactsNil(fs);
  }

  /** Event 3: its diagnostics and the assignments after it. */
  lemma {:induction false} Event3(j: string, k: string, tr: Tree, fs: seq<Fact>)
    requires |tr.scopes| == 9
    requires Parent(tr, 0) == None
    requires Parent(tr, 3) == Some(0)
    requires Parent(tr, 4) == Some(3)
    requires Parent(tr, 7) == Some(4)
    requires LocalsOf(tr, 7) == [Local(j, Pos(13, 22))]
    requires LocalsOf(tr, 4) == []
    requires LocalsOf(tr, 3) == []
    requires LocalsOf(tr, 0) == []
    ensures EventDiags(tr, Declared(7, j, Pos(13, 22), Initialized, []), fs) == []
    ensures Step(tr, Declared(7, j, Pos(13, 22), Initialized, []), fs) == fs + [Fact(7, j, [])]
  {
    assert Lookup(tr, 0, j) == None;
    assert Lookup(tr, 3, j) == None;
    assert Lookup(tr, 4, j) == None;
  }

  /** Event 4: its diagnostics and the assignments after it. */
  lemma {:induction false} Event4(j: string, k: string, tr: Tree, fs: seq<Fact>)
    requires |tr.scopes| == 9
    requires Parent(tr, 7) == Some(4)
    requires Parent(tr, 8) == Some(7)
    requires LocalsOf(tr, 8) == [Local(k, Pos(16, 51))]
    requires LocalsOf(tr, 7) == [Local(j, Pos(13, 22))]
    requires j != k
    requires Assigned(fs, 7, j, [1])
    ensures EventDiags(tr, Referenced(8, j, Pos(16, 42), false, false, [1]), fs) == []
    ensures Step(tr, Referenced(8, j, Pos(16, 42), false, false, [1]), fs) == fs
  {
    assert Local(j, Pos(13, 22)) in LocalsOf(tr, 7);
    assert Lookup(tr, 7, j) == Some(7);
    assert Lookup(tr, 8, j) == Some(7);
  }

  /** Event 5: its diagnostics and the assignments after it. */
  lemma {:induction false} Event5(j: string, k: string, tr: Tree, fs: seq<Fact>)
    requires |tr.scopes| == 9
    requires Parent(tr, 0) == None
    requires Parent(tr, 3) == Some(0)
    requires Parent(tr, 4) == Some(3)
    requires Parent(tr, 7) == Some(4)
    requires Parent(tr, 8) == Some(7)
    requires LocalsOf(tr, 8) == [Local(k, Pos(16, 51))]
    requires LocalsOf(tr, 7) == [Local(j, Pos(13, 22))]
    requires LocalsOf(tr, 4) == []
    requires LocalsOf(tr, 3) == []
    requires LocalsOf(tr, 0) == []
    requires j != k
    ensures EventDiags(tr, Declared(8, k, Pos(16, 51), Initialized, [1]), fs) == []
    ensures Step(tr, Declared(8, k, Pos(16, 51), Initialized, [1]), fs) == fs + [Fact(8, k, [1])]
  {
    assert Lookup(tr, 0, k) == None;
    assert Lookup(tr, 3, k) == None;
    assert Lookup(tr, 4, k) == None;
    assert Lookup(tr, 7, k) == None;
  }

  /** Event 6: its diagnostics and the assignments after it. */
  lemma {:induction false} Event6(j: string, k: string, tr: Tree, fs: seq<Fact>)
    requires |tr.scopes| == 9
    requires Parent(tr, 8) == Some(7)
    requires LocalsOf(tr, 8) == [Local(k, Pos(16, 51))]
    requires Assigned(fs, 8, k, [1])
    ensures EventDiags(tr, Referenced(8, k, Pos(16, 60), false, false, [1]), fs) == []
    ensures Step(tr, Referenced(8, k, Pos(16, 60), false, false, [1]), fs) == fs
  {
    assert Local(k, Pos(16, 51)) in LocalsOf(tr, 8);
    assert Lookup(tr, 8, k) == Some(8);
  }

  /** Event 7: its diagnostics and the assignments after it. */
  lemma {:induction false} Event7(j: string, k: string, tr: Tree, fs: seq<Fact>)
    ensures EventDiags(tr, OutAssigned(8, [], [1]), fs) == []
    ensures Step(tr, OutAssigned(8, [], [1]), fs) == fs
  {
    assert OutFacts(8, [], [1]) == [];
    FactsNil(fs);
  }

  /** Event 8: its diagnostics and the assignments after it. */
  lemma {:induction false} Event8(j: string, k: string, tr: Tree, fs: seq<Fact>)
    requires |tr.scopes| == 9
    requires Parent(tr, 8) == Some(7)
    requires LocalsOf(tr, 8) == [Local(k, Pos(16, 51))]
    ensures EventDiags(tr, Referenced(8, k, Pos(19, 17), true, false, [2]), fs) == []
    ensures Step(tr, Referenced(8, k, Pos(19, 17), true, false, [2]), fs) == fs + [Fact(8, k, [2])]
  {
    assert Local(k, Pos(16, 51)) in LocalsOf(tr, 8);
    assert Lookup(tr, 8, k) == Some(8);
  }

  /** Event 9: its diagnostics and the assignments after it. */
  lemma {:induction false} Event9(j: string, k: string, tr: Tree, fs: seq<Fact>)
    requires |tr.scopes| == 9
    requires Parent(tr, 8) == Some(7)
    requires LocalsOf(tr, 8) == [Local(k, Pos(16, 51))]
    requires Assigned(fs, 8, k, [2])
    ensures EventDiags(tr, Referenced(8, k, Pos(20, 42), false, false, [2]), fs) == []
    ensures Step(tr, Referenced(8, k, Pos(20, 42), false, false, [2]), fs) == fs
  {
    assert Local(k, Pos(16, 51)) in LocalsOf(tr, 8);
    assert Lookup(tr, 8, k) == Some(8);
  }

  /** Event 10: its diagnostics and the assignments after it. */
  lemma {:induction false} Event10(j: string, k: string, tr: Tree, fs: seq<Fact>)
    ensures EventDiags(tr, OutAssigned(8, [], [2]), fs) == []
    ensures Step(tr, OutAssigned(8, [], [2]), fs) == fs
  {
    assert OutFacts(8, [], [2]) == [];
    FactsNil(fs);
  }

  /** What a read of k in scope 8 finds assigned before event 8. */
  lemma {:induction false} Read0(j: string, k: string)
    ensures !Assigned(Known0(j, k), 8, k, [2])
  {
    Assigned0(j, k, [], 8, k, [2]);
    assert !Assigned([], 8, k, [2]);
    assert [1][0] != [2][0];
  }

  /** The parent and the locals of scope 0. */
  lemma {:induction false} Scope0(j: string, k: string, tr: Tree)
    requires ScopesAre(tr, Layout())
    requires LocalsFit(j, k, tr)
    ensures |tr.scopes| == 9
    ensures Parent(tr, 0) == None
    ensures LocalsOf(tr, 0) == []
  {
    assert tr.scopes[0] == Layout()[0];
    Locals0(j, k);
    assert LocalsOf(tr, 0) == DeclaredBy(j, k, 2, 0);
  }

  /** The parent and the locals of scope 3. */
  lemma {:induction false} Scope3(j: string, k: string, tr: Tree)
    requires ScopesAre(tr, Layout())
    requires LocalsFit(j, k, tr)
    ensures |tr.scopes| == 9
    ensures Parent(tr, 3) == Some(0)
    ensures LocalsOf(tr, 3) == []
  {
    assert tr.scopes[3] == Layout()[3];
    Locals3(j, k);
    assert LocalsOf(tr, 3) == DeclaredBy(j, k, 2, 3);
  }

  /** The parent and the locals of scope 4. */
  lemma {:induction false} Scope4(j: string, k: string, tr: Tree)
    requires ScopesAre(tr, Layout())
    requires LocalsFit(j, k, tr)
    ensures |tr.scopes| == 9
    ensures Parent(tr, 4) == Some(3)
    ensures LocalsOf(tr, 4) == []
  {
    assert tr.scopes[4] == Layout()[4];
    Locals4(j, k);
    assert LocalsOf(tr, 4) == DeclaredBy(j, k, 2, 4);
  }

  /** The parent and the locals of scope 5. */
  lemma {:induction false} Scope5(j: string, k: string, tr: Tree)
    requires ScopesAre(tr, Layout())
    requires LocalsFit(j, k, tr)
    ensures |tr.scopes| == 9
    ensures Parent(tr, 5) == Some(4)
    ensures LocalsOf(tr, 5) == [Local(j, Pos(6, 22))]
  {
    assert tr.scopes[5] == Layout()[5];
    Locals5(j, k);
    assert LocalsOf(tr, 5) == DeclaredBy(j, k, 2, 5);
  }

  /** The parent and the locals of scope 6. */
  lemma {:induction false} Scope6(j: string, k: string, tr: Tree)
    requires ScopesAre(tr, Layout())
    requires LocalsFit(j, k, tr)
    ensures |tr.scopes| == 9
    ensures Parent(tr, 6) == Some(5)
    ensures LocalsOf(tr, 6) == []
  {
    assert tr.scopes[6] == Layout()[6];
    Locals6(j, k);
    assert LocalsOf(tr, 6) == DeclaredBy(j, k, 2, 6);
  }

  /** The parent and the locals of scope 7. */
  lemma {:induction false} Scope7(j: string, k: string, tr: Tree)
    requires ScopesAre(tr, Layout())
    requires LocalsFit(j, k, tr)
    ensures |tr.scopes| == 9
    ensures Parent(tr, 7) == Some(4)
    ensures LocalsOf(tr, 7) == [Local(j, Pos(13, 22))]
  {
    assert tr.scopes[7] == Layout()[7];
    Locals7(j, k);
    assert LocalsOf(tr, 7) == DeclaredBy(j, k, 2, 7);
  }

  /** The parent and the locals of scope 8. */
  lemma {:induction false} Scope8(j: string, k: string, tr: Tree)
    requires ScopesAre(tr, Layout())
    requires LocalsFit(j, k, tr)
    ensures |tr.scopes| == 9
    ensures Parent(tr, 8) == Some(7)
    ensures LocalsOf(tr, 8) == [Local(k, Pos(16, 51))]
  {
    assert tr.scopes[8] == Layout()[8];
    Locals8(j, k);
    assert LocalsOf(tr, 8) == DeclaredBy(j, k, 2, 8);
  }

  /** The analysis of events 0 to 7, after the events before them. */
  lemma {:induction false} Analysed0(j: string, k: string, tr: Tree, evs: seq<Event>, fs: seq<Fact>, rs: seq<Diag>)
    requires |tr.scopes| == 9
    requires Parent(tr, 0) == None
    requires Parent(tr, 3) == Some(0)
    requires Parent(tr, 4) == Some(3)
    requires Parent(tr, 5) == Some(4)
    requires Parent(tr, 6) == Some(5)
    requires Parent(tr, 7) == Some(4)
    requires Parent(tr, 8) == Some(7)
    requires LocalsOf(tr, 0) == []
    requires LocalsOf(tr, 3) == []
    requires LocalsOf(tr, 4) == []
    requires LocalsOf(tr, 5) == [Local(j, Pos(6, 22))]
    requires LocalsOf(tr, 6) == []
    requires LocalsOf(tr, 7) == [Local(j, Pos(13, 22))]
    requires LocalsOf(tr, 8) == [Local(k, Pos(16, 51))]
    requires j != k
    requires Analyse(tr, evs, []) == rs
    requires Replay(tr, evs, []) == fs
    requires !Assigned(fs, 5, j, [0])
    requires !Assigned(fs, 7, j, [1])
    requires !Assigned(fs, 8, k, [1])
    ensures Analyse(tr, evs + Chunk0(j, k), []) == rs + ([] + [] + [] + [] + [] + [] + [] + [] + [])
    ensures Replay(tr, evs + Chunk0(j, k), []) == fs + [Fact(5, j, [])] + [Fact(7, j, [])] + [Fact(8, k, [1])]
  {
    assert Analyse(tr, [], fs) == [] && Replay(tr, [], fs) == fs;
    Event0(j, k, tr, fs);
    AnalyseSnoc(tr, [], Declared(5, j, Pos(6, 22), Initialized, []), fs);
    assert Analyse(tr, [] + [Declared(5, j, Pos(6, 22), Initialized, [])], fs) == [] + [];
    assert Replay(tr, [] + [Declared(5, j, Pos(6, 22), Initialized, [])], fs) == fs + [Fact(5, j, [])];
    AssignedSnoc(fs, Fact(5, j, []), 5, j, [0]);
    Event1(j, k, tr, fs + [Fact(5, j, [])]);
    AnalyseSnoc(tr, [] + [Declared(5, j, Pos(6, 22), Initialized, [])], Referenced(6, j, Pos(9, 42), false, false, [0]), fs);
    assert Analyse(tr, [] + [Declared(5, j, Pos(6, 22), Initialized, [])] + [Referenced(6, j, Pos(9, 42), false, false, [0])], fs) == [] + [] + [];
    assert Replay(tr, [] + [Declared(5, j, Pos(6, 22), Initialized, [])] + [Referenced(6, j, Pos(9, 42), false, false, [0])], fs) == fs + [Fact(5, j, [])];
    Event2(j, k, tr, fs + [Fact(5, j, [])]);
    AnalyseSnoc(tr, [] + [Declared(5, j, Pos(6, 22), Initialized, [])] + [Referenced(6, j, Pos(9, 42), false, false, [0])], OutAssigned(6, [], [0]), fs);
    assert Analyse(tr, [] + [Declared(5, j, Pos(6, 22), Initialized, [])] + [Referenced(6, j, Pos(9, 42), false, false, [0])] + [OutAssigned(6, [], [0])], fs) == [] + [] + [] + [];
    assert Replay(tr, [] + [Declared(5, j, Pos(6, 22), Initialized, [])] + [Referenced(6, j, Pos(9, 42), false, false, [0])] + [OutAssigned(6, [], [0])], fs) == fs + [Fact(5, j, [])];
    Event3(j, k, tr, fs + [Fact(5, j, [])]);
    AnalyseSnoc(tr, [] + [Declared(5, j, Pos(6, 22), Initialized, [])] + [Referenced(6, j, Pos(9, 42), false, false, [0])] + [OutAssigned(6, [], [0])], Declared(7, j, Pos(13, 22), Initialized, []), fs);
    assert Analyse(tr, [] + [Declared(5, j, Pos(6, 22), Initialized, [])] + [Referenced(6, j, Pos(9, 42), false, false, [0])] + [OutAssigned(6, [], [0])] + [Declared(7, j, Pos(13, 22), Initialized, [])], fs) == [] + [] + [] + [] + [];
    assert Replay(tr, [] + [Declared(5, j, Pos(6, 22), Initialized, [])] + [Referenced(6, j, Pos(9, 42), false, false, [0])] + [OutAssigned(6, [], [0])] + [Declared(7, j, Pos(13, 22), Initialized, [])], fs) == fs + [Fact(5, j, [])] + [Fact(7, j, [])];
    AssignedSnoc(fs, Fact(5, j, []), 7, j, [1]);
    AssignedSnoc(fs + [Fact(5, j, [])], Fact(7, j, []), 7, j, [1]);
    Event4(j, k, tr, fs + [Fact(5, j, [])] + [Fact(7, j, [])]);
    AnalyseSnoc(tr, [] + [Declared(5, j, Pos(6, 22), Initialized, [])] + [Referenced(6, j, Pos(9, 42), false, false, [0])] + [OutAssigned(6, [], [0])] + [Declared(7, j, Pos(13, 22), Initialized, [])], Referenced(8, j, Pos(16, 42), false, false, [1]), fs);
    assert Analyse(tr, [] + [Declared(5, j, Pos(6, 22), Initialized, [])] + [Referenced(6, j, Pos(9, 42), false, false, [0])] + [OutAssigned(6, [], [0])] + [Declared(7, j, Pos(13, 22), Initialized, [])] + [Referenced(8, j, Pos(16, 42), false, false, [1])], fs) == [] + [] + [] + [] + [] + [];
    assert Replay(tr, [] + [Declared(5, j, Pos(6, 22), Initialized, [])] + [Referenced(6, j, Pos(9, 42), false, false, [0])] + [OutAssigned(6, [], [0])] + [Declared(7, j, Pos(13, 22), Initialized, [])] + [Referenced(8, j, Pos(16, 42), false, false, [1])], fs) == fs + [Fact(5, j, [])] + [Fact(7, j, [])];
    Event5(j, k, tr, fs + [Fact(5, j, [])] + [Fact(7, j, [])]);
    AnalyseSnoc(tr, [] + [Declared(5, j, Pos(6, 22), Initialized, [])] + [Referenced(6, j, Pos(9, 42), false, false, [0])] + [OutAssigned(6, [], [0])] + [Declared(7, j, Pos(13, 22), Initialized, [])] + [Referenced(8, j, Pos(16, 42), false, false, [1])], Declared(8, k, Pos(16, 51), Initialized, [1]), fs);
    assert Analyse(tr, [] + [Declared(5, j, Pos(6, 22), Initialized, [])] + [Referenced(6, j, Pos(9, 42), false, false, [0])] + [OutAssigned(6, [], [0])] + [Declared(7, j, Pos(13, 22), Initialized, [])] + [Referenced(8, j, Pos(16, 42), false, false, [1])] + [Declared(8, k, Pos(16, 51), Initialized, [1])], fs) == [] + [] + [] + [] + [] + [] + [];
    assert Replay(tr, [] + [Declared(5, j, Pos(6, 22), Initialized, [])] + [Referenced(6, j, Pos(9, 42), false, false, [0])] + [OutAssigned(6, [], [0])] + [Declared(7, j, Pos(13, 22), Initialized, [])] + [Referenced(8, j, Pos(16, 42), false, false, [1])] + [Declared(8, k, Pos(16, 51), Initialized, [1])], fs) == fs + [Fact(5, j, [])] + [Fact(7, j, [])] + [Fact(8, k, [1])];
    AssignedSnoc(fs, Fact(5, j, []), 8, k, [1]);
    AssignedSnoc(fs + [Fact(5, j, [])], Fact(7, j, []), 8, k, [1]);
    AssignedSnoc(fs + [Fact(5, j, [])] + [Fact(7, j, [])], Fact(8, k, [1]), 8, k, [1]);
    Event6(j, k, tr, fs + [Fact(5, j, [])] + [Fact(7, j, [])] + [Fact(8, k, [1])]);
    AnalyseSnoc(tr, [] + [Declared(5, j, Pos(6, 22), Initialized, [])] + [Referenced(6, j, Pos(9, 42), false, false, [0])] + [OutAssigned(6, [], [0])] + [Declared(7, j, Pos(13, 22), Initialized, [])] + [Referenced(8, j, Pos(16, 42), false, false, [1])] + [Declared(8, k, Pos(16, 51), Initialized, [1])], Referenced(8, k, Pos(16, 60), false, false, [1]), fs);
    assert Analyse(tr, [] + [Declared(5, j, Pos(6, 22), Initialized, [])] + [Referenced(6, j, Pos(9, 42), false, false, [0])] + [OutAssigned(6, [], [0])] + [Declared(7, j, Pos(13, 22), Initialized, [])] + [Referenced(8, j, Pos(16, 42), false, false, [1])] + [Declared(8, k, Pos(16, 51), Initialized, [1])] + [Referenced(8, k, Pos(16, 60), false, false, [1])], fs) == [] + [] + [] + [] + [] + [] + [] + [];
    assert Replay(tr, [] + [Declared(5, j, Pos(6, 22), Initialized, [])] + [Referenced(6, j, Pos(9, 42), false, false, [0])] + [OutAssigned(6, [], [0])] + [Declared(7, j, Pos(13, 22), Initialized, [])] + [Referenced(8, j, Pos(16, 42), false, false, [1])] + [Declared(8, k, Pos(16, 51), Initialized, [1])] + [Referenced(8, k, Pos(16, 60), false, false, [1])], fs) == fs + [Fact(5, j, [])] + [Fact(7, j, [])] + [Fact(8, k, [1])];
    Event7(j, k, tr, fs + [Fact(5, j, [])] + [Fact(7, j, [])] + [Fact(8, k, [1])]);
    AnalyseSnoc(tr, [] + [Declared(5, j, Pos(6, 22), Initialized, [])] + [Referenced(6, j, Pos(9, 42), false, false, [0])] + [OutAssigned(6, [], [0])] + [Declared(7, j, Pos(13, 22), Initialized, [])] + [Referenced(8, j, Pos(16, 42), false, false, [1])] + [Declared(8, k, Pos(16, 51), Initialized, [1])] + [Referenced(8, k, Pos(16, 60), false, false, [1])], OutAssigned(8, [], [1]), fs);
    AnalyseSplit(tr, evs, Chunk0(j, k), []);
  }

  /** The analysis of events 8 to 10, after the events before them. */
  lemma {:induction false} Analysed1(j: string, k: string, tr: Tree, evs: seq<Event>, fs: seq<Fact>, rs: seq<Diag>)
    requires |tr.scopes| == 9
    requires Parent(tr, 8) == Some(7)
    requires LocalsOf(tr, 8) == [Local(k, Pos(16, 51))]
    requires Analyse(tr, evs, []) == rs
    requires Replay(tr, evs, []) == fs
    requires !Assigned(fs, 8, k, [2])
    ensures Analyse(tr, evs + Chunk1(j, k), []) == rs + ([] + [] + [] + [])
    ensures Replay(tr, evs + Chunk1(j, k), []) == fs + [Fact(8, k, [2])]
  {
    assert Analyse(tr, [], fs) == [] && Replay(tr, [], fs) == fs;
    Event8(j, k, tr, fs);
    AnalyseSnoc(tr, [], Referenced(8, k, Pos(19, 17), true, false, [2]), fs);
    assert Analyse(tr, [] + [Referenced(8, k, Pos(19, 17), true, false, [2])], fs) == [] + [];
    assert Replay(tr, [] + [Referenced(8, k, Pos(19, 17), true, false, [2])], fs) == fs + [Fact(8, k, [2])];
    AssignedSnoc(fs, Fact(8, k, [2]), 8, k, [2]);
    Event9(j, k, tr, fs + [Fact(8, k, [2])]);
    AnalyseSnoc(tr, [] + [Referenced(8, k, Pos(19, 17), true, false, [2])], Referenced(8, k, Pos(20, 42), false, false, [2]), fs);
    assert Analyse(tr, [] + [Referenced(8, k, Pos(19, 17), true, false, [2])] + [Referenced(8, k, Pos(20, 42), false, false, [2])], fs) == [] + [] + [];
    assert Replay(tr, [] + [Referenced(8, k, Pos(19, 17), true, false, [2])] + [Referenced(8, k, Pos(20, 42), false, false, [2])], fs) == fs + [Fact(8, k, [2])];
    Event10(j, k, tr, fs + [Fact(8, k, [2])]);
    AnalyseSnoc(tr, [] + [Referenced(8, k, Pos(19, 17), true, false, [2])] + [Referenced(8, k, Pos(20, 42), false, false, [2])], OutAssigned(8, [], [2]), fs);
    AnalyseSplit(tr, evs, Chunk1(j, k), []);
  }

  lemma {:induction false} Glue0(j: string, k: string, rs: seq<Diag>)
    requires rs == []
    ensures rs + ([] + [] + [] + [] + [] + [] + [] + [] + []) == []
  {
  }

  lemma {:induction false} Glue1(j: string, k: string, rs: seq<Diag>)
    requires rs == []
    ensures rs + ([] + [] + [] + []) == []
  {
  }

  /** The analysis of events 0 to 10, after the events before them. */
  lemma {:induction false} Stage0(j: string, k: string, tr: Tree, evs: seq<Event>)
    requires ScopesAre(tr, Layout())
    requires LocalsFit(j, k, tr)
    requires j != k
    requires Analyse(tr, evs, []) == []
    requires Replay(tr, evs, []) == []
    ensures Analyse(tr, evs + Chunk0(j, k) + Chunk1(j, k), []) == []
    ensures Replay(tr, evs + Chunk0(j, k) + Chunk1(j, k), []) == Known1(j, k)
  {
    assert !Assigned([], 5, j, [0]);
    assert !Assigned([], 7, j, [1]);
    assert !Assigned([], 8, k, [1]);
    Scope0(j, k, tr);
    Scope3(j, k, tr);
    Scope4(j, k, tr);
    Scope5(j, k, tr);
    Scope6(j, k, tr);
    Scope7(j, k, tr);
    Scope8(j, k, tr);
    Analysed0(j, k, tr, evs, [], []);
    Glue0(j, k, []);
    Read0(j, k);
    Analysed1(j, k, tr, evs + Chunk0(j, k), Known0(j, k), []);
    Glue1(j, k, []);
  }

  /** The analysis of a tree with the test's scopes and events. */
  lemma {:induction false} Result(j: string, k: string, tr: Tree)
    requires ScopesAre(tr, Layout()) && LocalsFit(j, k, tr) && tr.events == Trace(j, k)
    requires j != k
    ensures Analyse(tr, tr.events, []) == []
  {
    assert Analyse(tr, [], []) == [] && Replay(tr, [], []) == [];
    Stage0(j, k, tr, []);
  }

  /** The diagnostics the test expects, in the order the analysis reports them. */
  lemma {:induction false} Outcome(j: string, k: string)
    requires j != k
    ensures Check(Program(j, k)) == []
  {
    Walked(j, k);
    LocalsAll(j, k, Build(Program(j, k)));
    Result(j, k, Build(Program(j, k)));
  }
}

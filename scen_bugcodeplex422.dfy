/**
 * The test BugCodePlex_42_2 (DeclarationExpressionsTests.cs, lines 4094 to 4116).
 *
 * Its program, with its local names left as parameters, is walked into a scope tree and
 * analysed; Outcome states the exact list of diagnostics Check reports, for any names that
 * differ where the outcome depends on it.
 */
module ScenBugCodePlex422 {
  import opened Syntax
  import opened Scopes
  import opened Binding
  import opened Reporting
  import opened Frames
  import opened Units
  import opened Traces

  /** The statements of the test's method, its names left as parameters. */
  function Body(n7: string): seq<Stmt> {
    [Exprs([Declare(n7, Pos(6, 13), Initialized)])] + ([If([Call([Argument([Declare(n7, Pos(7, 40), Out)])])], Block([Exprs([Call([Argument([Use(n7, Pos(9, 38), false)])])])]), None)] + ([Exprs([Call([Argument([Use(n7, Pos(11, 34), false)])])])]))
  }

  /** The program of the test: one method holding those statements. */
  function Program(n7: string): seq<Fragment> {
    MainUnit(Body(n7))
  }

  /** Scopes 0 to 6, in the order the walk opens them. */
  function Layout0(): seq<Scope> {
    [Scope(Unit, None),
     Scope(InstanceInitializers, Some(0)),
     Scope(StaticInitializers, Some(0)),
     Scope(MethodBody, Some(0)),
     Scope(BlockBody, Some(3)),
     Scope(IfCondition, Some(4)),
     Scope(BlockBody, Some(5))]
  }

  /** Its scopes, in the order the walk opens them. */
  function Layout(): seq<Scope> {
    Layout0()
  }

  lemma {:induction false} LayoutJoin0()
    ensures [Scope(Unit, None), Scope(InstanceInitializers, Some(0)), Scope(StaticInitializers, Some(0)), Scope(MethodBody, Some(0)), Scope(BlockBody, Some(3))] + [Scope(IfCondition, Some(4))] + [Scope(BlockBody, Some(5))] == Layout0()
  {
  }

  /** The layout, scope by scope. */
  lemma {:induction false} LayoutFlat()
    ensures [Scope(Unit, None), Scope(InstanceInitializers, Some(0)), Scope(StaticInitializers, Some(0)), Scope(MethodBody, Some(0)), Scope(BlockBody, Some(3))] + [Scope(IfCondition, Some(4))] + [Scope(BlockBody, Some(5))] == Layout()
  {
    LayoutJoin0();
  }

  /** Events 0 to 6 of the test, in evaluation order. */
  function Chunk0(n7: string): seq<Event> {
    []
      + [Declared(4, n7, Pos(6, 13), Initialized, [])]
      + [Declared(5, n7, Pos(7, 40), Out, [])]
      + [OutAssigned(5, [n7], [])]
      + [Referenced(6, n7, Pos(9, 38), false, false, [0])]
      + [OutAssigned(6, [], [0])]
      + [Referenced(4, n7, Pos(11, 34), false, false, [])]
      + [OutAssigned(4, [], [])]
  }

  /** The events of the test, in evaluation order. */
  function Trace(n7: string): seq<Event> {
    []
      + Chunk0(n7)
  }

  lemma {:induction false} Walk1(n7: string, tr: Tree)
    requires |tr.scopes| == 5 && tr.arms == 0
    ensures WalkStmt(Exprs([Declare(n7, Pos(6, 13), Initialized)]), Ctx(4, [], []), tr) == Tree(tr.scopes, tr.events + [Declared(4, n7, Pos(6, 13), Initialized, [])], 0)
  {
    WalkExprsOne(Declare(n7, Pos(6, 13), Initialized), Ctx(4, [], []), tr);
    assert WalkExpr(Declare(n7, Pos(6, 13), Initialized), Ctx(4, [], []), tr) == Tree(tr.scopes, tr.events + [Declared(4, n7, Pos(6, 13), Initialized, [])], 0);
    assert WalkExprs([Declare(n7, Pos(6, 13), Initialized)], Ctx(4, [], []), tr) == Tree(tr.scopes, tr.events + [Declared(4, n7, Pos(6, 13), Initialized, [])], 0);
    assert WalkStmt(Exprs([Declare(n7, Pos(6, 13), Initialized)]), Ctx(4, [], []), tr) == Tree(tr.scopes, tr.events + [Declared(4, n7, Pos(6, 13), Initialized, [])], 0);
  }

  lemma {:induction false} Walk3(n7: string, tr: Tree)
    requires |tr.scopes| == 7 && tr.arms == 1
    ensures WalkStmt(Exprs([Call([Argument([Use(n7, Pos(9, 38), false)])])]), Ctx(6, [0], []), tr) == Tree(tr.scopes, tr.events + [Referenced(6, n7, Pos(9, 38), false, false, [0])] + [OutAssigned(6, [], [0])], 1)
  {
    WalkExprsOne(Call([Argument([Use(n7, Pos(9, 38), false)])]), Ctx(6, [0], []), tr);
    assert OutNames([]) == [];
    WalkArgsOne(Argument([Use(n7, Pos(9, 38), false)]), [], Ctx(6, [0], []), tr);
    WalkExprsOne(Use(n7, Pos(9, 38), false), Ctx(6, [0], []), tr);
    assert WalkExpr(Use(n7, Pos(9, 38), false), Ctx(6, [0], []), tr) == Tree(tr.scopes, tr.events + [Referenced(6, n7, Pos(9, 38), false, false, [0])], 1);
    assert WalkExprs([Use(n7, Pos(9, 38), false)], Ctx(6, [0], []), tr) == Tree(tr.scopes, tr.events + [Referenced(6, n7, Pos(9, 38), false, false, [0])], 1);
    OutNamesOfOne(Use(n7, Pos(9, 38), false));
    OutNamesSnoc([], Argument([Use(n7, Pos(9, 38), false)]));
    assert WalkArgs([Argument([Use(n7, Pos(9, 38), false)])], [], Ctx(6, [0], []), tr) == Tree(tr.scopes, tr.events + [Referenced(6, n7, Pos(9, 38), false, false, [0])], 1);
    assert OutNames([Argument([Use(n7, Pos(9, 38), false)])]) == [];
    assert WalkExpr(Call([Argument([Use(n7, Pos(9, 38), false)])]), Ctx(6, [0], []), tr) == Tree(tr.scopes, tr.events + [Referenced(6, n7, Pos(9, 38), false, false, [0])] + [OutAssigned(6, [], [0])], 1);
    assert WalkExprs([Call([Argument([Use(n7, Pos(9, 38), false)])])], Ctx(6, [0], []), tr) == Tree(tr.scopes, tr.events + [Referenced(6, n7, Pos(9, 38), false, false, [0])] + [OutAssigned(6, [], [0])], 1);
    assert WalkStmt(Exprs([Call([Argument([Use(n7, Pos(9, 38), false)])])]), Ctx(6, [0], []), tr) == Tree(tr.scopes, tr.events + [Referenced(6, n7, Pos(9, 38), false, false, [0])] + [OutAssigned(6, [], [0])], 1);
  }

  lemma {:induction false} Walk2(n7: string, tr: Tree)
    requires |tr.scopes| == 5 && tr.arms == 0
    ensures WalkStmt(If([Call([Argument([Declare(n7, Pos(7, 40), Out)])])], Block([Exprs([Call([Argument([Use(n7, Pos(9, 38), false)])])])]), None), Ctx(4, [], []), tr) == Tree(tr.scopes + [Scope(IfCondition, Some(4))] + [Scope(BlockBody, Some(5))], tr.events + [Declared(5, n7, Pos(7, 40), Out, [])] + [OutAssigned(5, [n7], [])] + [Referenced(6, n7, Pos(9, 38), false, false, [0])] + [OutAssigned(6, [], [0])], 1)
  {
    WalkExprsOne(Call([Argument([Declare(n7, Pos(7, 40), Out)])]), Ctx(5, [], []), Tree(tr.scopes + [Scope(IfCondition, Some(4))], tr.events, 0));
    assert OutNames([]) == [];
    WalkArgsOne(Argument([Declare(n7, Pos(7, 40), Out)]), [], Ctx(5, [], []), Tree(tr.scopes + [Scope(IfCondition, Some(4))], tr.events, 0));
    WalkExprsOne(Declare(n7, Pos(7, 40), Out), Ctx(5, [], []), Tree(tr.scopes + [Scope(IfCondition, Some(4))], tr.events, 0));
    assert WalkExpr(Declare(n7, Pos(7, 40), Out), Ctx(5, [], []), Tree(tr.scopes + [Scope(IfCondition, Some(4))], tr.events, 0)) == Tree(tr.scopes + [Scope(IfCondition, Some(4))], tr.events + [Declared(5, n7, Pos(7, 40), Out, [])], 0);
    assert WalkExprs([Declare(n7, Pos(7, 40), Out)], Ctx(5, [], []), Tree(tr.scopes + [Scope(IfCondition, Some(4))], tr.events, 0)) == Tree(tr.scopes + [Scope(IfCondition, Some(4))], tr.events + [Declared(5, n7, Pos(7, 40), Out, [])], 0);
    OutNamesOfOne(Declare(n7, Pos(7, 40), Out));
    OutNamesSnoc([], Argument([Declare(n7, Pos(7, 40), Out)]));
    assert WalkArgs([Argument([Declare(n7, Pos(7, 40), Out)])], [], Ctx(5, [], []), Tree(tr.scopes + [Scope(IfCondition, Some(4))], tr.events, 0)) == Tree(tr.scopes + [Scope(IfCondition, Some(4))], tr.events + [Declared(5, n7, Pos(7, 40), Out, [])], 0);
    assert OutNames([Argument([Declare(n7, Pos(7, 40), Out)])]) == [n7];
    assert WalkExpr(Call([Argument([Declare(n7, Pos(7, 40), Out)])]), Ctx(5, [], []), Tree(tr.scopes + [Scope(IfCondition, Some(4))], tr.events, 0)) == Tree(tr.scopes + [Scope(IfCondition, Some(4))], tr.events + [Declared(5, n7, Pos(7, 40), Out, [])] + [OutAssigned(5, [n7], [])], 0);
    assert WalkExprs([Call([Argument([Declare(n7, Pos(7, 40), Out)])])], Ctx(5, [], []), Tree(tr.scopes + [Scope(IfCondition, Some(4))], tr.events, 0)) == Tree(tr.scopes + [Scope(IfCondition, Some(4))], tr.events + [Declared(5, n7, Pos(7, 40), Out, [])] + [OutAssigned(5, [n7], [])], 0);
    assert [] + [0] == [0];
    WalkStmtsOne(Exprs([Call([Argument([Use(n7, Pos(9, 38), false)])])]), Ctx(6, [0], []), Tree(tr.scopes + [Scope(IfCondition, Some(4))] + [Scope(BlockBody, Some(5))], tr.events + [Declared(5, n7, Pos(7, 40), Out, [])] + [OutAssigned(5, [n7], [])], 1));
    Walk3(n7, Tree(tr.scopes + [Scope(IfCondition, Some(4))] + [Scope(BlockBody, Some(5))], tr.events + [Declared(5, n7, Pos(7, 40), Out, [])] + [OutAssigned(5, [n7], [])], 1));
    assert WalkStmt(Exprs([Call([Argument([Use(n7, Pos(9, 38), false)])])]), Ctx(6, [0], []), Tree(tr.scopes + [Scope(IfCondition, Some(4))] + [Scope(BlockBody, Some(5))], tr.events + [Declared(5, n7, Pos(7, 40), Out, [])] + [OutAssigned(5, [n7], [])], 1)) == Tree(tr.scopes + [Scope(IfCondition, Some(4))] + [Scope(BlockBody, Some(5))], tr.events + [Declared(5, n7, Pos(7, 40), Out, [])] + [OutAssigned(5, [n7], [])] + [Referenced(6, n7, Pos(9, 38), false, false, [0])] + [OutAssigned(6, [], [0])], 1);
    assert WalkEmbedded(Block([Exprs([Call([Argument([Use(n7, Pos(9, 38), false)])])])]), Ctx(5, [0], []), Tree(tr.scopes + [Scope(IfCondition, Some(4))], tr.events + [Declared(5, n7, Pos(7, 40), Out, [])] + [OutAssigned(5, [n7], [])], 1)) == Tree(tr.scopes + [Scope(IfCondition, Some(4))] + [Scope(BlockBody, Some(5))], tr.events + [Declared(5, n7, Pos(7, 40), Out, [])] + [OutAssigned(5, [n7], [])] + [Referenced(6, n7, Pos(9, 38), false, false, [0])] + [OutAssigned(6, [], [0])], 1);
    assert WalkStmt(If([Call([Argument([Declare(n7, Pos(7, 40), Out)])])], Block([Exprs([Call([Argument([Use(n7, Pos(9, 38), false)])])])]), None), Ctx(4, [], []), tr) == Tree(tr.scopes + [Scope(IfCondition, Some(4))] + [Scope(BlockBody, Some(5))], tr.events + [Declared(5, n7, Pos(7, 40), Out, [])] + [OutAssigned(5, [n7], [])] + [Referenced(6, n7, Pos(9, 38), false, false, [0])] + [OutAssigned(6, [], [0])], 1);
  }

  lemma {:induction false} Walk4(n7: string, tr: Tree)
    requires |tr.scopes| == 7 && tr.arms == 1
    ensures WalkStmt(Exprs([Call([Argument([Use(n7, Pos(11, 34), false)])])]), Ctx(4, [], []), tr) == Tree(tr.scopes, tr.events + [Referenced(4, n7, Pos(11, 34), false, false, [])] + [OutAssigned(4, [], [])], 1)
  {
    WalkExprsOne(Call([Argument([Use(n7, Pos(11, 34), false)])]), Ctx(4, [], []), tr);
    assert OutNames([]) == [];
    WalkArgsOne(Argument([Use(n7, Pos(11, 34), false)]), [], Ctx(4, [], []), tr);
    WalkExprsOne(Use(n7, Pos(11, 34), false), Ctx(4, [], []), tr);
    assert WalkExpr(Use(n7, Pos(11, 34), false), Ctx(4, [], []), tr) == Tree(tr.scopes, tr.events + [Referenced(4, n7, Pos(11, 34), false, false, [])], 1);
    assert WalkExprs([Use(n7, Pos(11, 34), false)], Ctx(4, [], []), tr) == Tree(tr.scopes, tr.events + [Referenced(4, n7, Pos(11, 34), false, false, [])], 1);
    OutNamesOfOne(Use(n7, Pos(11, 34), false));
    OutNamesSnoc([], Argument([Use(n7, Pos(11, 34), false)]));
    assert WalkArgs([Argument([Use(n7, Pos(11, 34), false)])], [], Ctx(4, [], []), tr) == Tree(tr.scopes, tr.events + [Referenced(4, n7, Pos(11, 34), false, false, [])], 1);
    assert OutNames([Argument([Use(n7, Pos(11, 34), false)])]) == [];
    assert WalkExpr(Call([Argument([Use(n7, Pos(11, 34), false)])]), Ctx(4, [], []), tr) == Tree(tr.scopes, tr.events + [Referenced(4, n7, Pos(11, 34), false, false, [])] + [OutAssigned(4, [], [])], 1);
    assert WalkExprs([Call([Argument([Use(n7, Pos(11, 34), false)])])], Ctx(4, [], []), tr) == Tree(tr.scopes, tr.events + [Referenced(4, n7, Pos(11, 34), false, false, [])] + [OutAssigned(4, [], [])], 1);
    assert WalkStmt(Exprs([Call([Argument([Use(n7, Pos(11, 34), false)])])]), Ctx(4, [], []), tr) == Tree(tr.scopes, tr.events + [Referenced(4, n7, Pos(11, 34), false, false, [])] + [OutAssigned(4, [], [])], 1);
  }

  lemma {:induction false} Join0(n7: string, evs: seq<Event>)
    ensures evs + Chunk0(n7) == evs + [Declared(4, n7, Pos(6, 13), Initialized, [])] + [Declared(5, n7, Pos(7, 40), Out, [])] + [OutAssigned(5, [n7], [])] + [Referenced(6, n7, Pos(9, 38), false, false, [0])] + [OutAssigned(6, [], [0])] + [Referenced(4, n7, Pos(11, 34), false, false, [])] + [OutAssigned(4, [], [])]
  {
  }

  /** The trace, event by event. */
  lemma {:induction false} Flat(n7: string)
    ensures [] + [Declared(4, n7, Pos(6, 13), Initialized, [])] + [Declared(5, n7, Pos(7, 40), Out, [])] + [OutAssigned(5, [n7], [])] + [Referenced(6, n7, Pos(9, 38), false, false, [0])] + [OutAssigned(6, [], [0])] + [Referenced(4, n7, Pos(11, 34), false, false, [])] + [OutAssigned(4, [], [])] == Trace(n7)
  {
    Join0(n7, []);
  }

  lemma {:induction false} Walked(n7: string)
    ensures Build(Program(n7)) == Tree(Layout(), Trace(n7), 1)
  {
    MainBuild(Body(n7));
    WalkStmtsCons(Exprs([Declare(n7, Pos(6, 13), Initialized)]), [If([Call([Argument([Declare(n7, Pos(7, 40), Out)])])], Block([Exprs([Call([Argument([Use(n7, Pos(9, 38), false)])])])]), None)] + ([Exprs([Call([Argument([Use(n7, Pos(11, 34), false)])])])]), Ctx(4, [], []), MainHead());
    Walk1(n7, MainHead());
    assert WalkStmt(Exprs([Declare(n7, Pos(6, 13), Initialized)]), Ctx(4, [], []), MainHead()) == Tree(MainHead().scopes, MainHead().events + [Declared(4, n7, Pos(6, 13), Initialized, [])], 0);
    WalkStmtsCons(If([Call([Argument([Declare(n7, Pos(7, 40), Out)])])], Block([Exprs([Call([Argument([Use(n7, Pos(9, 38), false)])])])]), None), [Exprs([Call([Argument([Use(n7, Pos(11, 34), false)])])])], Ctx(4, [], []), Tree(MainHead().scopes, MainHead().events + [Declared(4, n7, Pos(6, 13), Initialized, [])], 0));
    Walk2(n7, Tree(MainHead().scopes, MainHead().events + [Declared(4, n7, Pos(6, 13), Initialized, [])], 0));
    assert WalkStmt(If([Call([Argument([Declare(n7, Pos(7, 40), Out)])])], Block([Exprs([Call([Argument([Use(n7, Pos(9, 38), false)])])])]), None), Ctx(4, [], []), Tree(MainHead().scopes, MainHead().events + [Declared(4, n7, Pos(6, 13), Initialized, [])], 0)) == Tree(MainHead().scopes + [Scope(IfCondition, Some(4))] + [Scope(BlockBody, Some(5))], MainHead().events + [Declared(4, n7, Pos(6, 13), Initialized, [])] + [Declared(5, n7, Pos(7, 40), Out, [])] + [OutAssigned(5, [n7], [])] + [Referenced(6, n7, Pos(9, 38), false, false, [0])] + [OutAssigned(6, [], [0])], 1);
    WalkStmtsOne(Exprs([Call([Argument([Use(n7, Pos(11, 34), false)])])]), Ctx(4, [], []), Tree(MainHead().scopes + [Scope(IfCondition, Some(4))] + [Scope(BlockBody, Some(5))], MainHead().events + [Declared(4, n7, Pos(6, 13), Initialized, [])] + [Declared(5, n7, Pos(7, 40), Out, [])] + [OutAssigned(5, [n7], [])] + [Referenced(6, n7, Pos(9, 38), false, false, [0])] + [OutAssigned(6, [], [0])], 1));
    Walk4(n7, Tree(MainHead().scopes + [Scope(IfCondition, Some(4))] + [Scope(BlockBody, Some(5))], MainHead().events + [Declared(4, n7, Pos(6, 13), Initialized, [])] + [Declared(5, n7, Pos(7, 40), Out, [])] + [OutAssigned(5, [n7], [])] + [Referenced(6, n7, Pos(9, 38), false, false, [0])] + [OutAssigned(6, [], [0])], 1));
    assert WalkStmt(Exprs([Call([Argument([Use(n7, Pos(11, 34), false)])])]), Ctx(4, [], []), Tree(MainHead().scopes + [Scope(IfCondition, Some(4))] + [Scope(BlockBody, Some(5))], MainHead().events + [Declared(4, n7, Pos(6, 13), Initialized, [])] + [Declared(5, n7, Pos(7, 40), Out, [])] + [OutAssigned(5, [n7], [])] + [Referenced(6, n7, Pos(9, 38), false, false, [0])] + [OutAssigned(6, [], [0])], 1)) == Tree(MainHead().scopes + [Scope(IfCondition, Some(4))] + [Scope(BlockBody, Some(5))], MainHead().events + [Declared(4, n7, Pos(6, 13), Initialized, [])] + [Declared(5, n7, Pos(7, 40), Out, [])] + [OutAssigned(5, [n7], [])] + [Referenced(6, n7, Pos(9, 38), false, false, [0])] + [OutAssigned(6, [], [0])] + [Referenced(4, n7, Pos(11, 34), false, false, [])] + [OutAssigned(4, [], [])], 1);
    LayoutFlat();
    Flat(n7);
  }

  /** The locals events of chunk `ck` declare in scope `sc`, in order. */
  function NewIn(n7: string, ck: nat, sc: nat): seq<Local> {
    if ck == 0 then
      if sc == 4 then [] + [Local(n7, Pos(6, 13))]
      else if sc == 5 then [] + [Local(n7, Pos(7, 40))]
      else []
    else []
  }

  /** The locals the first `ck` chunks declare in scope `sc`, in order. */
  function DeclaredBy(n7: string, ck: nat, sc: nat): seq<Local>
    decreases ck
  {
    if ck == 0 then [] else DeclaredBy(n7, ck - 1, sc) + NewIn(n7, ck - 1, sc)
  }

  /** The locals declared once events 0 to 6 follow some events. */
  lemma {:induction false} Decls0(n7: string, evs: seq<Event>, sc: nat)
    requires DeclsIn(evs, sc) == DeclaredBy(n7, 0, sc)
    ensures DeclsIn(evs + Chunk0(n7), sc) == DeclaredBy(n7, 1, sc)
  {
    DeclsInAppend(evs, Chunk0(n7), sc);
    assert DeclsIn([], sc) == [];
    if sc == 4 {
      DeclsInAdd([], Declared(4, n7, Pos(6, 13), Initialized, []), 4);
      DeclsInSkip([] + [Declared(4, n7, Pos(6, 13), Initialized, [])], Declared(5, n7, Pos(7, 40), Out, []), 4);
      DeclsInSkip([] + [Declared(4, n7, Pos(6, 13), Initialized, [])] + [Declared(5, n7, Pos(7, 40), Out, [])], OutAssigned(5, [n7], []), 4);
      DeclsInSkip([] + [Declared(4, n7, Pos(6, 13), Initialized, [])] + [Declared(5, n7, Pos(7, 40), Out, [])] + [OutAssigned(5, [n7], [])], Referenced(6, n7, Pos(9, 38), false, false, [0]), 4);
      DeclsInSkip([] + [Declared(4, n7, Pos(6, 13), Initialized, [])] + [Declared(5, n7, Pos(7, 40), Out, [])] + [OutAssigned(5, [n7], [])] + [Referenced(6, n7, Pos(9, 38), false, false, [0])], OutAssigned(6, [], [0]), 4);
      DeclsInSkip([] + [Declared(4, n7, Pos(6, 13), Initialized, [])] + [Declared(5, n7, Pos(7, 40), Out, [])] + [OutAssigned(5, [n7], [])] + [Referenced(6, n7, Pos(9, 38), false, false, [0])] + [OutAssigned(6, [], [0])], Referenced(4, n7, Pos(11, 34), false, false, []), 4);
      DeclsInSkip([] + [Declared(4, n7, Pos(6, 13), Initialized, [])] + [Declared(5, n7, Pos(7, 40), Out, [])] + [OutAssigned(5, [n7], [])] + [Referenced(6, n7, Pos(9, 38), false, false, [0])] + [OutAssigned(6, [], [0])] + [Referenced(4, n7, Pos(11, 34), false, false, [])], OutAssigned(4, [], []), 4);
    } else if sc == 5 {
      DeclsInSkip([], Declared(4, n7, Pos(6, 13), Initialized, []), 5);
      DeclsInAdd([] + [Declared(4, n7, Pos(6, 13), Initialized, [])], Declared(5, n7, Pos(7, 40), Out, []), 5);
      DeclsInSkip([] + [Declared(4, n7, Pos(6, 13), Initialized, [])] + [Declared(5, n7, Pos(7, 40), Out, [])], OutAssigned(5, [n7], []), 5);
      DeclsInSkip([] + [Declared(4, n7, Pos(6, 13), Initialized, [])] + [Declared(5, n7, Pos(7, 40), Out, [])] + [OutAssigned(5, [n7], [])], Referenced(6, n7, Pos(9, 38), false, false, [0]), 5);
      DeclsInSkip([] + [Declared(4, n7, Pos(6, 13), Initialized, [])] + [Declared(5, n7, Pos(7, 40), Out, [])] + [OutAssigned(5, [n7], [])] + [Referenced(6, n7, Pos(9, 38), false, false, [0])], OutAssigned(6, [], [0]), 5);
      DeclsInSkip([] + [Declared(4, n7, Pos(6, 13), Initialized, [])] + [Declared(5, n7, Pos(7, 40), Out, [])] + [OutAssigned(5, [n7], [])] + [Referenced(6, n7, Pos(9, 38), false, false, [0])] + [OutAssigned(6, [], [0])], Referenced(4, n7, Pos(11, 34), false, false, []), 5);
      DeclsInSkip([] + [Declared(4, n7, Pos(6, 13), Initialized, [])] + [Declared(5, n7, Pos(7, 40), Out, [])] + [OutAssigned(5, [n7], [])] + [Referenced(6, n7, Pos(9, 38), false, false, [0])] + [OutAssigned(6, [], [0])] + [Referenced(4, n7, Pos(11, 34), false, false, [])], OutAssigned(4, [], []), 5);
    } else {
      DeclsInSkip([], Declared(4, n7, Pos(6, 13), Initialized, []), sc);
      DeclsInSkip([] + [Declared(4, n7, Pos(6, 13), Initialized, [])], Declared(5, n7, Pos(7, 40), Out, []), sc);
      DeclsInSkip([] + [Declared(4, n7, Pos(6, 13), Initialized, [])] + [Declared(5, n7, Pos(7, 40), Out, [])], OutAssigned(5, [n7], []), sc);
      DeclsInSkip([] + [Declared(4, n7, Pos(6, 13), Initialized, [])] + [Declared(5, n7, Pos(7, 40), Out, [])] + [OutAssigned(5, [n7], [])], Referenced(6, n7, Pos(9, 38), false, false, [0]), sc);
      DeclsInSkip([] + [Declared(4, n7, Pos(6, 13), Initialized, [])] + [Declared(5, n7, Pos(7, 40), Out, [])] + [OutAssigned(5, [n7], [])] + [Referenced(6, n7, Pos(9, 38), false, false, [0])], OutAssigned(6, [], [0]), sc);
      DeclsInSkip([] + [Declared(4, n7, Pos(6, 13), Initialized, [])] + [Declared(5, n7, Pos(7, 40), Out, [])] + [OutAssigned(5, [n7], [])] + [Referenced(6, n7, Pos(9, 38), false, false, [0])] + [OutAssigned(6, [], [0])], Referenced(4, n7, Pos(11, 34), false, false, []), sc);
      DeclsInSkip([] + [Declared(4, n7, Pos(6, 13), Initialized, [])] + [Declared(5, n7, Pos(7, 40), Out, [])] + [OutAssigned(5, [n7], [])] + [Referenced(6, n7, Pos(9, 38), false, false, [0])] + [OutAssigned(6, [], [0])] + [Referenced(4, n7, Pos(11, 34), false, false, [])], OutAssigned(4, [], []), sc);
      AppendNil(DeclsIn(evs, sc));
    }
  }

  lemma {:induction false} DeclsStage0(n7: string, evs: seq<Event>, sc: nat)
    requires DeclsIn(evs, sc) == DeclaredBy(n7, 0, sc)
    ensures DeclsIn(evs + Chunk0(n7), sc) == DeclaredBy(n7, 1, sc)
  {
    Decls0(n7, evs, sc);
  }

  /** The locals of every scope of a tree whose events are the test's, as the table gives them. */
  ghost predicate LocalsFit(n7: string, tr: Tree) {
    forall sc: nat {:trigger DeclaredBy(n7, 1, sc)} :: LocalsOf(tr, sc) == DeclaredBy(n7, 1, sc)
  }

  /** The locals of every scope. */
  lemma {:induction false} LocalsAll(n7: string, tr: Tree)
    requires tr.events == Trace(n7)
    ensures LocalsFit(n7, tr)
  {
    forall sc: nat
      ensures LocalsOf(tr, sc) == DeclaredBy(n7, 1, sc)
    {
      assert DeclsIn([], sc) == [] == DeclaredBy(n7, 0, sc);
      DeclsStage0(n7, [], sc);
    }
  }

  /** The locals scope 0 declares, in order. */
  lemma {:induction false} Locals0(n7: string)
    ensures DeclaredBy(n7, 1, 0) == []
  {
    AppendNil([]);
    assert DeclaredBy(n7, 1, 0) == [];
  }

  /** The locals scope 3 declares, in order. */
  lemma {:induction false} Locals3(n7: string)
    ensures DeclaredBy(n7, 1, 3) == []
  {
    AppendNil([]);
    assert DeclaredBy(n7, 1, 3) == [];
  }

  /** The locals scope 4 declares, in order. */
  lemma {:induction false} Locals4(n7: string)
    ensures DeclaredBy(n7, 1, 4) == [Local(n7, Pos(6, 13))]
  {
    assert DeclaredBy(n7, 1, 4) == [Local(n7, Pos(6, 13))];
  }

  /** The locals scope 5 declares, in order. */
  lemma {:induction false} Locals5(n7: string)
    ensures DeclaredBy(n7, 1, 5) == [Local(n7, Pos(7, 40))]
  {
    assert DeclaredBy(n7, 1, 5) == [Local(n7, Pos(7, 40))];
  }

  /** The locals scope 6 declares, in order. */
  lemma {:induction false} Locals6(n7: string)
    ensures DeclaredBy(n7, 1, 6) == []
  {
    AppendNil([]);
    assert DeclaredBy(n7, 1, 6) == [];
  }

  /** The assignments known after event 6. */
  function Known0(n7: string): seq<Fact> {
    []
      + [Fact(4, n7, [])]
      + [Fact(5, n7, [])]
  }

  /** Whether a local is assigned after the assignments of events 0 to 6. */
  lemma {:induction false} Assigned0(n7: string, fs: seq<Fact>, sc: nat, nm: string, pth: seq<nat>)
    ensures Assigned(fs + [Fact(4, n7, [])] + [Fact(5, n7, [])], sc, nm, pth) == (
      Assigned(fs, sc, nm, pth) ||
      (4 == sc && n7 == nm && [] <= pth) ||
      (5 == sc && n7 == nm && [] <= pth))
  {
    AssignedSnoc(fs, Fact(4, n7, []), sc, nm, pth);
    AssignedSnoc(fs + [Fact(4, n7, [])], Fact(5, n7, []), sc, nm, pth);
  }

  /** Event 0: its diagnostics and the assignments after it. */
  lemma {:induction false} Event0(n7: string, tr: Tree, fs: seq<Fact>)
    requires |tr.scopes| == 7
    requires Parent(tr, 0) == None
    requires Parent(tr, 3) == Some(0)
    requires Parent(tr, 4) == Some(3)
    requires LocalsOf(tr, 4) == [Local(n7, Pos(6, 13))]
    requires LocalsOf(tr, 3) == []
    requires LocalsOf(tr, 0) == []
    ensures EventDiags(tr, Declared(4, n7, Pos(6, 13), Initialized, []), fs) == []
    ensures Step(tr, Declared(4, n7, Pos(6, 13), Initialized, []), fs) == fs + [Fact(4, n7, [])]
  {
    assert Lookup(tr, 0, n7) == None;
    assert Lookup(tr, 3, n7) == None;
  }

  /** Event 1: its diagnostics and the assignments after it. */
  lemma {:induction false} Event1(n7: string, tr: Tree, fs: seq<Fact>)
    requires |tr.scopes| == 7
    requires Parent(tr, 4) == Some(3)
    requires Parent(tr, 5) == Some(4)
    requires LocalsOf(tr, 5) == [Local(n7, Pos(7, 40))]
    requires LocalsOf(tr, 4) == [Local(n7, Pos(6, 13))]
    ensures EventDiags(tr, Declared(5, n7, Pos(7, 40), Out, []), fs) == [Diag(Shadow, n7, Pos(7, 40))]
    ensures Step(tr, Declared(5, n7, Pos(7, 40), Out, []), fs) == fs
  {
    assert Local(n7, Pos(6, 13)) in LocalsOf(tr, 4);
    assert Lookup(tr, 4, n7) == Some(4);
  }

  /** Event 2: its diagnostics and the assignments after it. */
  lemma {:induction false} Event2(n7: string, tr: Tree, fs: seq<Fact>)
    ensures EventDiags(tr, OutAssigned(5, [n7], []), fs) == []
    ensures Step(tr, OutAssigned(5, [n7], []), fs) == fs + [Fact(5, n7, [])]
  {
    OutFactsOne(5, n7, []);
  }

  /** Event 3: its diagnostics and the assignments after it. */
  lemma {:induction false} Event3(n7: string, tr: Tree, fs: seq<Fact>)
    requires |tr.scopes| == 7
    requires Parent(tr, 5) == Some(4)
    requires Parent(tr, 6) == Some(5)
    requires LocalsOf(tr, 6) == []
    requires LocalsOf(tr, 5) == [Local(n7, Pos(7, 40))]
    requires Assigned(fs, 5, n7, [0])
    ensures EventDiags(tr, Referenced(6, n7, Pos(9, 38), false, false, [0]), fs) == []
    ensures Step(tr, Referenced(6, n7, Pos(9, 38), false, false, [0]), fs) == fs
  {
    assert Local(n7, Pos(7, 40)) in LocalsOf(tr, 5);
    assert Lookup(tr, 5, n7) == Some(5);
    assert Lookup(tr, 6, n7) == Some(5);
  }

  /** Event 4: its diagnostics and the assignments after it. */
  lemma {:induction false} Event4(n7: string, tr: Tree, fs: seq<Fact>)
    ensures EventDiags(tr, OutAssigned(6, [], [0]), fs) == []
    ensures Step(tr, OutAssigned(6, [], [0]), fs) == fs
  {
    assert OutFacts(6, [], [0]) == [];
    FactsNil(fs);
  }

  /** Event 5: its diagnostics and the assignments after it. */
  lemma {:induction false} Event5(n7: string, tr: Tree, fs: seq<Fact>)
    requires |tr.scopes| == 7
    requires Parent(tr, 4) == Some(3)
    requires LocalsOf(tr, 4) == [Local(n7, Pos(6, 13))]
    requires Assigned(fs, 4, n7, [])
    ensures EventDiags(tr, Referenced(4, n7, Pos(11, 34), false, false, []), fs) == []
    ensures Step(tr, Referenced(4, n7, Pos(11, 34), false, false, []), fs) == fs
  {
    assert Local(n7, Pos(6, 13)) in LocalsOf(tr, 4);
    assert Lookup(tr, 4, n7) == Some(4);
  }

  /** Event 6: its diagnostics and the assignments after it. */
  lemma {:induction false} Event6(n7: string, tr: Tree, fs: seq<Fact>)
    ensures EventDiags(tr, OutAssigned(4, [], []), fs) == []
    ensures Step(tr, OutAssigned(4, [], []), fs) == fs
  {
    assert OutFacts(4, [], []) == [];
    FactsNil(fs);
  }

  /** The parent and the locals of scope 0. */
  lemma {:induction false} Scope0(n7: string, tr: Tree)
    requires ScopesAre(tr, Layout())
    requires LocalsFit(n7, tr)
    ensures |tr.scopes| == 7
    ensures Parent(tr, 0) == None
    ensures LocalsOf(tr, 0) == []
  {
    assert tr.scopes[0] == Layout()[0];
    Locals0(n7);
    assert LocalsOf(tr, 0) == DeclaredBy(n7, 1, 0);
  }

  /** The parent and the locals of scope 3. */
  lemma {:induction false} Scope3(n7: string, tr: Tree)
    requires ScopesAre(tr, Layout())
    requires LocalsFit(n7, tr)
    ensures |tr.scopes| == 7
    ensures Parent(tr, 3) == Some(0)
    ensures LocalsOf(tr, 3) == []
  {
    assert tr.scopes[3] == Layout()[3];
    Locals3(n7);
    assert LocalsOf(tr, 3) == DeclaredBy(n7, 1, 3);
  }

  /** The parent and the locals of scope 4. */
  lemma {:induction false} Scope4(n7: string, tr: Tree)
    requires ScopesAre(tr, Layout())
    requires LocalsFit(n7, tr)
    ensures |tr.scopes| == 7
    ensures Parent(tr, 4) == Some(3)
    ensures LocalsOf(tr, 4) == [Local(n7, Pos(6, 13))]
  {
    assert tr.scopes[4] == Layout()[4];
    Locals4(n7);
    assert LocalsOf(tr, 4) == DeclaredBy(n7, 1, 4);
  }

  /** The parent and the locals of scope 5. */
  lemma {:induction false} Scope5(n7: string, tr: Tree)
    requires ScopesAre(tr, Layout())
    requires LocalsFit(n7, tr)
    ensures |tr.scopes| == 7
    ensures Parent(tr, 5) == Some(4)
    ensures LocalsOf(tr, 5) == [Local(n7, Pos(7, 40))]
  {
    assert tr.scopes[5] == Layout()[5];
    Locals5(n7);
    assert LocalsOf(tr, 5) == DeclaredBy(n7, 1, 5);
  }

  /** The parent and the locals of scope 6. */
  lemma {:induction false} Scope6(n7: string, tr: Tree)
    requires ScopesAre(tr, Layout())
    requires LocalsFit(n7, tr)
    ensures |tr.scopes| == 7
    ensures Parent(tr, 6) == Some(5)
    ensures LocalsOf(tr, 6) == []
  {
    assert tr.scopes[6] == Layout()[6];
    Locals6(n7);
    assert LocalsOf(tr, 6) == DeclaredBy(n7, 1, 6);
  }

  /** The analysis of events 0 to 6, after the events before them. */
  lemma {:induction false} Analysed0(n7: string, tr: Tree, evs: seq<Event>, fs: seq<Fact>, rs: seq<Diag>)
    requires |tr.scopes| == 7
    requires Parent(tr, 0) == None
    requires Parent(tr, 3) == Some(0)
    requires Parent(tr, 4) == Some(3)
    requires Parent(tr, 5) == Some(4)
    requires Parent(tr, 6) == Some(5)
    requires LocalsOf(tr, 0) == []
    requires LocalsOf(tr, 3) == []
    requires LocalsOf(tr, 4) == [Local(n7, Pos(6, 13))]
    requires LocalsOf(tr, 5) == [Local(n7, Pos(7, 40))]
    requires LocalsOf(tr, 6) == []
    requires Analyse(tr, evs, []) == rs
    requires Replay(tr, evs, []) == fs
    requires !Assigned(fs, 5, n7, [0])
    requires !Assigned(fs, 4, n7, [])
    ensures Analyse(tr, evs + Chunk0(n7), []) == rs + ([] + [] + [Diag(Shadow, n7, Pos(7, 40))] + [] + [] + [] + [] + [])
    ensures Replay(tr, evs + Chunk0(n7), []) == fs + [Fact(4, n7, [])] + [Fact(5, n7, [])]
  {
    assert Analyse(tr, [], fs) == [] && Replay(tr, [], fs) == fs;
    Event0(n7, tr, fs);
    AnalyseSnoc(tr, [], Declared(4, n7, Pos(6, 13), Initialized, []), fs);
    assert Analyse(tr, [] + [Declared(4, n7, Pos(6, 13), Initialized, [])], fs) == [] + [];
    assert Replay(tr, [] + [Declared(4, n7, Pos(6, 13), Initialized, [])], fs) == fs + [Fact(4, n7, [])];
    Event1(n7, tr, fs + [Fact(4, n7, [])]);
    AnalyseSnoc(tr, [] + [Declared(4, n7, Pos(6, 13), Initialized, [])], Declared(5, n7, Pos(7, 40), Out, []), fs);
    assert Analyse(tr, [] + [Declared(4, n7, Pos(6, 13), Initialized, [])] + [Declared(5, n7, Pos(7, 40), Out, [])], fs) == [] + [] + [Diag(Shadow, n7, Pos(7, 40))];
    assert Replay(tr, [] + [Declared(4, n7, Pos(6, 13), Initialized, [])] + [Declared(5, n7, Pos(7, 40), Out, [])], fs) == fs + [Fact(4, n7, [])];
    Event2(n7, tr, fs + [Fact(4, n7, [])]);
    AnalyseSnoc(tr, [] + [Declared(4, n7, Pos(6, 13), Initialized, [])] + [Declared(5, n7, Pos(7, 40), Out, [])], OutAssigned(5, [n7], []), fs);
    assert Analyse(tr, [] + [Declared(4, n7, Pos(6, 13), Initialized, [])] + [Declared(5, n7, Pos(7, 40), Out, [])] + [OutAssigned(5, [n7], [])], fs) == [] + [] + [Diag(Shadow, n7, Pos(7, 40))] + [];
    assert Replay(tr, [] + [Declared(4, n7, Pos(6, 13), Initialized, [])] + [Declared(5, n7, Pos(7, 40), Out, [])] + [OutAssigned(5, [n7], [])], fs) == fs + [Fact(4, n7, [])] + [Fact(5, n7, [])];
    AssignedSnoc(fs, Fact(4, n7, []), 5, n7, [0]);
    AssignedSnoc(fs + [Fact(4, n7, [])], Fact(5, n7, []), 5, n7, [0]);
    Event3(n7, tr, fs + [Fact(4, n7, [])] + [Fact(5, n7, [])]);
    AnalyseSnoc(tr, [] + [Declared(4, n7, Pos(6, 13), Initialized, [])] + [Declared(5, n7, Pos(7, 40), Out, [])] + [OutAssigned(5, [n7], [])], Referenced(6, n7, Pos(9, 38), false, false, [0]), fs);
    assert Analyse(tr, [] + [Declared(4, n7, Pos(6, 13), Initialized, [])] + [Declared(5, n7, Pos(7, 40), Out, [])] + [OutAssigned(5, [n7], [])] + [Referenced(6, n7, Pos(9, 38), false, false, [0])], fs) == [] + [] + [Diag(Shadow, n7, Pos(7, 40))] + [] + [];
    assert Replay(tr, [] + [Declared(4, n7, Pos(6, 13), Initialized, [])] + [Declared(5, n7, Pos(7, 40), Out, [])] + [OutAssigned(5, [n7], [])] + [Referenced(6, n7, Pos(9, 38), false, false, [0])], fs) == fs + [Fact(4, n7, [])] + [Fact(5, n7, [])];
    Event4(n7, tr, fs + [Fact(4, n7, [])] + [Fact(5, n7, [])]);
    AnalyseSnoc(tr, [] + [Declared(4, n7, Pos(6, 13), Initialized, [])] + [Declared(5, n7, Pos(7, 40), Out, [])] + [OutAssigned(5, [n7], [])] + [Referenced(6, n7, Pos(9, 38), false, false, [0])], OutAssigned(6, [], [0]), fs);
    assert Analyse(tr, [] + [Declared(4, n7, Pos(6, 13), Initialized, [])] + [Declared(5, n7, Pos(7, 40), Out, [])] + [OutAssigned(5, [n7], [])] + [Referenced(6, n7, Pos(9, 38), false, false, [0])] + [OutAssigned(6, [], [0])], fs) == [] + [] + [Diag(Shadow, n7, Pos(7, 40))] + [] + [] + [];
    assert Replay(tr, [] + [Declared(4, n7, Pos(6, 13), Initialized, [])] + [Declared(5, n7, Pos(7, 40), Out, [])] + [OutAssigned(5, [n7], [])] + [Referenced(6, n7, Pos(9, 38), false, false, [0])] + [OutAssigned(6, [], [0])], fs) == fs + [Fact(4, n7, [])] + [Fact(5, n7, [])];
    AssignedSnoc(fs, Fact(4, n7, []), 4, n7, []);
    AssignedSnoc(fs + [Fact(4, n7, [])], Fact(5, n7, []), 4, n7, []);
    Event5(n7, tr, fs + [Fact(4, n7, [])] + [Fact(5, n7, [])]);
    AnalyseSnoc(tr, [] + [Declared(4, n7, Pos(6, 13), Initialized, [])] + [Declared(5, n7, Pos(7, 40), Out, [])] + [OutAssigned(5, [n7], [])] + [Referenced(6, n7, Pos(9, 38), false, false, [0])] + [OutAssigned(6, [], [0])], Referenced(4, n7, Pos(11, 34), false, false, []), fs);
    assert Analyse(tr, [] + [Declared(4, n7, Pos(6, 13), Initialized, [])] + [Declared(5, n7, Pos(7, 40), Out, [])] + [OutAssigned(5, [n7], [])] + [Referenced(6, n7, Pos(9, 38), false, false, [0])] + [OutAssigned(6, [], [0])] + [Referenced(4, n7, Pos(11, 34), false, false, [])], fs) == [] + [] + [Diag(Shadow, n7, Pos(7, 40))] + [] + [] + [] + [];
    assert Replay(tr, [] + [Declared(4, n7, Pos(6, 13), Initialized, [])] + [Declared(5, n7, Pos(7, 40), Out, [])] + [OutAssigned(5, [n7], [])] + [Referenced(6, n7, Pos(9, 38), false, false, [0])] + [OutAssigned(6, [], [0])] + [Referenced(4, n7, Pos(11, 34), false, false, [])], fs) == fs + [Fact(4, n7, [])] + [Fact(5, n7, [])];
    Event6(n7, tr, fs + [Fact(4, n7, [])] + [Fact(5, n7, [])]);
    AnalyseSnoc(tr, [] + [Declared(4, n7, Pos(6, 13), Initialized, [])] + [Declared(5, n7, Pos(7, 40), Out, [])] + [OutAssigned(5, [n7], [])] + [Referenced(6, n7, Pos(9, 38), false, false, [0])] + [OutAssigned(6, [], [0])] + [Referenced(4, n7, Pos(11, 34), false, false, [])], OutAssigned(4, [], []), fs);
    AnalyseSplit(tr, evs, Chunk0(n7), []);
  }

  lemma {:induction false} Glue0(n7: string, rs: seq<Diag>)
    requires rs == []
    ensures rs + ([] + [] + [Diag(Shadow, n7, Pos(7, 40))] + [] + [] + [] + [] + []) == [Diag(Shadow, n7, Pos(7, 40))]
  {
  }

  /** The analysis of events 0 to 6, after the events before them. */
  lemma {:induction false} Stage0(n7: string, tr: Tree, evs: seq<Event>)
    requires ScopesAre(tr, Layout())
    requires LocalsFit(n7, tr)
    requires Analyse(tr, evs, []) == []
    requires Replay(tr, evs, []) == []
    ensures Analyse(tr, evs + Chunk0(n7), []) == [Diag(Shadow, n7, Pos(7, 40))]
    ensures Replay(tr, evs + Chunk0(n7), []) == Known0(n7)
  {
    assert !Assigned([], 5, n7, [0]);
    assert !Assigned([], 4, n7, []);
    Scope0(n7, tr);
    Scope3(n7, tr);
    Scope4(n7, tr);
    Scope5(n7, tr);
    Scope6(n7, tr);
    Analysed0(n7, tr, evs, [], []);
    Glue0(n7, []);
  }

  /** The analysis of a tree with the test's scopes and events. */
  lemma {:induction false} Result(n7: string, tr: Tree)
    requires ScopesAre(tr, Layout()) && LocalsFit(n7, tr) && tr.events == Trace(n7)
    ensures Analyse(tr, tr.events, []) == [Diag(Shadow, n7, Pos(7, 40))]
  {
    assert Analyse(tr, [], []) == [] && Replay(tr, [], []) == [];
    Stage0(n7, tr, []);
  }

  /** The diagnostics the test expects, in the order the analysis reports them. */
  lemma {:induction false} Outcome(n7: string)
    ensures Check(Program(n7)) == [Diag(Shadow, n7, Pos(7, 40))]
  {
    Walked(n7);
    LocalsAll(n7, Build(Program(n7)));
    Result(n7, Build(Program(n7)));
  }
}

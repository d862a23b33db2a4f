/**
 * The test InitializationScope_10 (DeclarationExpressionsTests.cs, lines 5967 to 5992).
 *
 * Its program, with its local names left as parameters, is walked into a scope tree and
 * analysed; Outcome states the exact list of diagnostics Check reports, for any names that
 * differ where the outcome depends on it.
 */
module ScenInitializationScope10 {
  import opened Syntax
  import opened Scopes
  import opened Binding
  import opened Reporting
  import opened Frames
  import opened Units
  import opened Traces

  /** The program of the test, its names left as parameters. */
  function Program(t1: string, x: string): seq<Fragment> {
    [Fragment(None, [Method([], [Exprs([Declare(t1, Pos(6, 13), Initialized)])] + ([Exprs([Call([Argument([Use(t1, Pos(7, 61), false)])] + ([Argument([Use(t1, Pos(7, 68), false)])] + ([Argument([Use(t1, Pos(7, 75), false)])])))])]))])] + ([Fragment(None, [Field(false, [Declare(x, Pos(13, 26), Initialized)])] + ([Field(true, [Declare(x, Pos(14, 33), Initialized)])] + ([Field(false, [Use(x, Pos(15, 23), false)])] + ([Field(true, [Use(x, Pos(16, 30), false)])] + ([Field(false, [Use(x, Pos(17, 21), false)])] + ([Field(true, [Use(x, Pos(18, 28), false)])]))))))])
  }

  /** Scopes 0 to 6, in the order the walk opens them. */
  function Layout0(): seq<Scope> {
    [Scope(Unit, None),
     Scope(InstanceInitializers, Some(0)),
     Scope(StaticInitializers, Some(0)),
     Scope(MethodBody, Some(0)),
     Scope(BlockBody, Some(3)),
     Scope(InstanceInitializers, Some(0)),
     Scope(StaticInitializers, Some(0))]
  }

  /** Its scopes, in the order the walk opens them. */
  function Layout(): seq<Scope> {
    Layout0()
  }

  lemma {:induction false} LayoutJoin0()
    ensures [Scope(Unit, None)] + [Scope(InstanceInitializers, Some(0))] + [Scope(StaticInitializers, Some(0))] + [Scope(MethodBody, Some(0))] + [Scope(BlockBody, Some(3))] + [Scope(InstanceInitializers, Some(0))] + [Scope(StaticInitializers, Some(0))] == Layout0()
  {
  }

  /** The layout, scope by scope. */
  lemma {:induction false} LayoutFlat()
    ensures [Scope(Unit, None)] + [Scope(InstanceInitializers, Some(0))] + [Scope(StaticInitializers, Some(0))] + [Scope(MethodBody, Some(0))] + [Scope(BlockBody, Some(3))] + [Scope(InstanceInitializers, Some(0))] + [Scope(StaticInitializers, Some(0))] == Layout()
  {
    LayoutJoin0();
  }

  /** Events 0 to 7 of the test, in evaluation order. */
  function Chunk0(t1: string, x: string): seq<Event> {
    []
      + [Declared(4, t1, Pos(6, 13), Initialized, [])]
      + [Referenced(4, t1, Pos(7, 61), false, false, [])]
      + [Referenced(4, t1, Pos(7, 68), false, false, [])]
      + [Referenced(4, t1, Pos(7, 75), false, false, [])]
      + [OutAssigned(4, [], [])]
      + [Declared(5, x, Pos(13, 26), Initialized, [])]
      + [Declared(6, x, Pos(14, 33), Initialized, [])]
      + [Referenced(5, x, Pos(15, 23), false, false, [])]
  }

  /** Events 8 to 10 of the test, in evaluation order. */
  function Chunk1(t1: string, x: string): seq<Event> {
    []
      + [Referenced(6, x, Pos(16, 30), false, false, [])]
      + [Referenced(5, x, Pos(17, 21), false, false, [])]
      + [Referenced(6, x, Pos(18, 28), false, false, [])]
  }

  /** The events of the test, in evaluation order. */
  function Trace(t1: string, x: string): seq<Event> {
    []
      + Chunk0(t1, x)
      + Chunk1(t1, x)
  }

  lemma {:induction false} Walk3(t1: string, x: string, tr: Tree)
    requires |tr.scopes| == 5 && tr.arms == 0
    ensures WalkStmt(Exprs([Declare(t1, Pos(6, 13), Initialized)]), Ctx(4, [], []), tr) == Tree(tr.scopes, tr.events + [Declared(4, t1, Pos(6, 13), Initialized, [])], 0)
  {
    WalkExprsOne(Declare(t1, Pos(6, 13), Initialized), Ctx(4, [], []), tr);
    assert WalkExpr(Declare(t1, Pos(6, 13), Initialized), Ctx(4, [], []), tr) == Tree(tr.scopes, tr.events + [Declared(4, t1, Pos(6, 13), Initialized, [])], 0);
    assert WalkExprs([Declare(t1, Pos(6, 13), Initialized)], Ctx(4, [], []), tr) == Tree(tr.scopes, tr.events + [Declared(4, t1, Pos(6, 13), Initialized, [])], 0);
    assert WalkStmt(Exprs([Declare(t1, Pos(6, 13), Initialized)]), Ctx(4, [], []), tr) == Tree(tr.scopes, tr.events + [Declared(4, t1, Pos(6, 13), Initialized, [])], 0);
  }

  lemma {:induction false} Walk4(t1: string, x: string, tr: Tree)
    requires |tr.scopes| == 5 && tr.arms == 0
    ensures WalkStmt(Exprs([Call([Argument([Use(t1, Pos(7, 61), false)])] + ([Argument([Use(t1, Pos(7, 68), false)])] + ([Argument([Use(t1, Pos(7, 75), false)])])))]), Ctx(4, [], []), tr) == Tree(tr.scopes, tr.events + [Referenced(4, t1, Pos(7, 61), false, false, [])] + [Referenced(4, t1, Pos(7, 68), false, false, [])] + [Referenced(4, t1, Pos(7, 75), false, false, [])] + [OutAssigned(4, [], [])], 0)
  {
    WalkExprsOne(Call([Argument([Use(t1, Pos(7, 61), false)])] + ([Argument([Use(t1, Pos(7, 68), false)])] + ([Argument([Use(t1, Pos(7, 75), false)])]))), Ctx(4, [], []), tr);
    assert OutNames([]) == [];
    WalkArgsCons(Argument([Use(t1, Pos(7, 61), false)]), [Argument([Use(t1, Pos(7, 68), false)])] + ([Argument([Use(t1, Pos(7, 75), false)])]), [], Ctx(4, [], []), tr);
    WalkExprsOne(Use(t1, Pos(7, 61), false), Ctx(4, [], []), tr);
    assert WalkExpr(Use(t1, Pos(7, 61), false), Ctx(4, [], []), tr) == Tree(tr.scopes, tr.events + [Referenced(4, t1, Pos(7, 61), false, false, [])], 0);
    assert WalkExprs([Use(t1, Pos(7, 61), false)], Ctx(4, [], []), tr) == Tree(tr.scopes, tr.events + [Referenced(4, t1, Pos(7, 61), false, false, [])], 0);
    assert [] + [Argument([Use(t1, Pos(7, 61), false)])] == [Argument([Use(t1, Pos(7, 61), false)])];
    assert WalkArgs([Argument([Use(t1, Pos(7, 61), false)])] + ([Argument([Use(t1, Pos(7, 68), false)])] + ([Argument([Use(t1, Pos(7, 75), false)])])), [], Ctx(4, [], []), tr) == WalkArgs([Argument([Use(t1, Pos(7, 68), false)])] + ([Argument([Use(t1, Pos(7, 75), false)])]), [Argument([Use(t1, Pos(7, 61), false)])], Ctx(4, [], []), Tree(tr.scopes, tr.events + [Referenced(4, t1, Pos(7, 61), false, false, [])], 0));
    OutNamesOfOne(Use(t1, Pos(7, 61), false));
    OutNamesSnoc([], Argument([Use(t1, Pos(7, 61), false)]));
    assert OutNames([Argument([Use(t1, Pos(7, 61), false)])]) == [];
    WalkArgsCons(Argument([Use(t1, Pos(7, 68), false)]), [Argument([Use(t1, Pos(7, 75), false)])], [Argument([Use(t1, Pos(7, 61), false)])], Ctx(4, [], []), Tree(tr.scopes, tr.events + [Referenced(4, t1, Pos(7, 61), false, false, [])], 0));
    WalkExprsOne(Use(t1, Pos(7, 68), false), Ctx(4, [], []), Tree(tr.scopes, tr.events + [Referenced(4, t1, Pos(7, 61), false, false, [])], 0));
    assert WalkExpr(Use(t1, Pos(7, 68), false), Ctx(4, [], []), Tree(tr.scopes, tr.events + [Referenced(4, t1, Pos(7, 61), false, false, [])], 0)) == Tree(tr.scopes, tr.events + [Referenced(4, t1, Pos(7, 61), false, false, [])] + [Referenced(4, t1, Pos(7, 68), false, false, [])], 0);
    assert WalkExprs([Use(t1, Pos(7, 68), false)], Ctx(4, [], []), Tree(tr.scopes, tr.events + [Referenced(4, t1, Pos(7, 61), false, false, [])], 0)) == Tree(tr.scopes, tr.events + [Referenced(4, t1, Pos(7, 61), false, false, [])] + [Referenced(4, t1, Pos(7, 68), false, false, [])], 0);
    assert WalkArgs([Argument([Use(t1, Pos(7, 68), false)])] + ([Argument([Use(t1, Pos(7, 75), false)])]), [Argument([Use(t1, Pos(7, 61), false)])], Ctx(4, [], []), Tree(tr.scopes, tr.events + [Referenced(4, t1, Pos(7, 61), false, false, [])], 0)) == WalkArgs([Argument([Use(t1, Pos(7, 75), false)])], [Argument([Use(t1, Pos(7, 61), false)])] + [Argument([Use(t1, Pos(7, 68), false)])], Ctx(4, [], []), Tree(tr.scopes, tr.events + [Referenced(4, t1, Pos(7, 61), false, false, [])] + [Referenced(4, t1, Pos(7, 68), false, false, [])], 0));
    OutNamesOfOne(Use(t1, Pos(7, 68), false));
    OutNamesSnoc([Argument([Use(t1, Pos(7, 61), false)])], Argument([Use(t1, Pos(7, 68), false)]));
    assert OutNames([Argument([Use(t1, Pos(7, 61), false)])] + [Argument([Use(t1, Pos(7, 68), false)])]) == [];
    WalkArgsOne(Argument([Use(t1, Pos(7, 75), false)]), [Argument([Use(t1, Pos(7, 61), false)])] + [Argument([Use(t1, Pos(7, 68), false)])], Ctx(4, [], []), Tree(tr.scopes, tr.events + [Referenced(4, t1, Pos(7, 61), false, false, [])] + [Referenced(4, t1, Pos(7, 68), false, false, [])], 0));
    WalkExprsOne(Use(t1, Pos(7, 75), false), Ctx(4, [], []), Tree(tr.scopes, tr.events + [Referenced(4, t1, Pos(7, 61), false, false, [])] + [Referenced(4, t1, Pos(7, 68), false, false, [])], 0));
    assert WalkExpr(Use(t1, Pos(7, 75), false), Ctx(4, [], []), Tree(tr.scopes, tr.events + [Referenced(4, t1, Pos(7, 61), false, false, [])] + [Referenced(4, t1, Pos(7, 68), false, false, [])], 0)) == Tree(tr.scopes, tr.events + [Referenced(4, t1, Pos(7, 61), false, false, [])] + [Referenced(4, t1, Pos(7, 68), false, false, [])] + [Referenced(4, t1, Pos(7, 75), false, false, [])], 0);
    assert WalkExprs([Use(t1, Pos(7, 75), false)], Ctx(4, [], []), Tree(tr.scopes, tr.events + [Referenced(4, t1, Pos(7, 61), false, false, [])] + [Referenced(4, t1, Pos(7, 68), false, false, [])], 0)) == Tree(tr.scopes, tr.events + [Referenced(4, t1, Pos(7, 61), false, false, [])] + [Referenced(4, t1, Pos(7, 68), false, false, [])] + [Referenced(4, t1, Pos(7, 75), false, false, [])], 0);
    OutNamesOfOne(Use(t1, Pos(7, 75), false));
    OutNamesSnoc([Argument([Use(t1, Pos(7, 61), false)])] + [Argument([Use(t1, Pos(7, 68), false)])], Argument([Use(t1, Pos(7, 75), false)]));
    assert WalkArgs([Argument([Use(t1, Pos(7, 61), false)])] + ([Argument([Use(t1, Pos(7, 68), false)])] + ([Argument([Use(t1, Pos(7, 75), false)])])), [], Ctx(4, [], []), tr) == Tree(tr.scopes, tr.events + [Referenced(4, t1, Pos(7, 61), false, false, [])] + [Referenced(4, t1, Pos(7, 68), false, false, [])] + [Referenced(4, t1, Pos(7, 75), false, false, [])], 0);
    assert OutNames([Argument([Use(t1, Pos(7, 61), false)])] + ([Argument([Use(t1, Pos(7, 68), false)])] + ([Argument([Use(t1, Pos(7, 75), false)])]))) == [];
    assert WalkExpr(Call([Argument([Use(t1, Pos(7, 61), false)])] + ([Argument([Use(t1, Pos(7, 68), false)])] + ([Argument([Use(t1, Pos(7, 75), false)])]))), Ctx(4, [], []), tr) == Tree(tr.scopes, tr.events + [Referenced(4, t1, Pos(7, 61), false, false, [])] + [Referenced(4, t1, Pos(7, 68), false, false, [])] + [Referenced(4, t1, Pos(7, 75), false, false, [])] + [OutAssigned(4, [], [])], 0);
    assert WalkExprs([Call([Argument([Use(t1, Pos(7, 61), false)])] + ([Argument([Use(t1, Pos(7, 68), false)])] + ([Argument([Use(t1, Pos(7, 75), false)])])))], Ctx(4, [], []), tr) == Tree(tr.scopes, tr.events + [Referenced(4, t1, Pos(7, 61), false, false, [])] + [Referenced(4, t1, Pos(7, 68), false, false, [])] + [Referenced(4, t1, Pos(7, 75), false, false, [])] + [OutAssigned(4, [], [])], 0);
    assert WalkStmt(Exprs([Call([Argument([Use(t1, Pos(7, 61), false)])] + ([Argument([Use(t1, Pos(7, 68), false)])] + ([Argument([Use(t1, Pos(7, 75), false)])])))]), Ctx(4, [], []), tr) == Tree(tr.scopes, tr.events + [Referenced(4, t1, Pos(7, 61), false, false, [])] + [Referenced(4, t1, Pos(7, 68), false, false, [])] + [Referenced(4, t1, Pos(7, 75), false, false, [])] + [OutAssigned(4, [], [])], 0);
  }

  lemma {:induction false} Member2(t1: string, x: string, tr: Tree)
    requires |tr.scopes| == 3 && tr.arms == 0
    ensures WalkMember(Method([], [Exprs([Declare(t1, Pos(6, 13), Initialized)])] + ([Exprs([Call([Argument([Use(t1, Pos(7, 61), false)])] + ([Argument([Use(t1, Pos(7, 68), false)])] + ([Argument([Use(t1, Pos(7, 75), false)])])))])])), 1, tr) == Tree(tr.scopes + [Scope(MethodBody, Some(0))] + [Scope(BlockBody, Some(3))], tr.events + [Declared(4, t1, Pos(6, 13), Initialized, [])] + [Referenced(4, t1, Pos(7, 61), false, false, [])] + [Referenced(4, t1, Pos(7, 68), false, false, [])] + [Referenced(4, t1, Pos(7, 75), false, false, [])] + [OutAssigned(4, [], [])], 0)
  {
    WalkStmtsCons(Exprs([Declare(t1, Pos(6, 13), Initialized)]), [Exprs([Call([Argument([Use(t1, Pos(7, 61), false)])] + ([Argument([Use(t1, Pos(7, 68), false)])] + ([Argument([Use(t1, Pos(7, 75), false)])])))])], Ctx(4, [], []), Tree(tr.scopes + [Scope(MethodBody, Some(0))] + [Scope(BlockBody, Some(3))], tr.events, 0));
    Walk3(t1, x, Tree(tr.scopes + [Scope(MethodBody, Some(0))] + [Scope(BlockBody, Some(3))], tr.events, 0));
    assert WalkStmt(Exprs([Declare(t1, Pos(6, 13), Initialized)]), Ctx(4, [], []), Tree(tr.scopes + [Scope(MethodBody, Some(0))] + [Scope(BlockBody, Some(3))], tr.events, 0)) == Tree(tr.scopes + [Scope(MethodBody, Some(0))] + [Scope(BlockBody, Some(3))], tr.events + [Declared(4, t1, Pos(6, 13), Initialized, [])], 0);
    WalkStmtsOne(Exprs([Call([Argument([Use(t1, Pos(7, 61), false)])] + ([Argument([Use(t1, Pos(7, 68), false)])] + ([Argument([Use(t1, Pos(7, 75), false)])])))]), Ctx(4, [], []), Tree(tr.scopes + [Scope(MethodBody, Some(0))] + [Scope(BlockBody, Some(3))], tr.events + [Declared(4, t1, Pos(6, 13), Initialized, [])], 0));
    Walk4(t1, x, Tree(tr.scopes + [Scope(MethodBody, Some(0))] + [Scope(BlockBody, Some(3))], tr.events + [Declared(4, t1, Pos(6, 13), Initialized, [])], 0));
    assert WalkStmt(Exprs([Call([Argument([Use(t1, Pos(7, 61), false)])] + ([Argument([Use(t1, Pos(7, 68), false)])] + ([Argument([Use(t1, Pos(7, 75), false)])])))]), Ctx(4, [], []), Tree(tr.scopes + [Scope(MethodBody, Some(0))] + [Scope(BlockBody, Some(3))], tr.events + [Declared(4, t1, Pos(6, 13), Initialized, [])], 0)) == Tree(tr.scopes + [Scope(MethodBody, Some(0))] + [Scope(BlockBody, Some(3))], tr.events + [Declared(4, t1, Pos(6, 13), Initialized, [])] + [Referenced(4, t1, Pos(7, 61), false, false, [])] + [Referenced(4, t1, Pos(7, 68), false, false, [])] + [Referenced(4, t1, Pos(7, 75), false, false, [])] + [OutAssigned(4, [], [])], 0);
    assert WalkMember(Method([], [Exprs([Declare(t1, Pos(6, 13), Initialized)])] + ([Exprs([Call([Argument([Use(t1, Pos(7, 61), false)])] + ([Argument([Use(t1, Pos(7, 68), false)])] + ([Argument([Use(t1, Pos(7, 75), false)])])))])])), 1, tr) == Tree(tr.scopes + [Scope(MethodBody, Some(0))] + [Scope(BlockBody, Some(3))], tr.events + [Declared(4, t1, Pos(6, 13), Initialized, [])] + [Referenced(4, t1, Pos(7, 61), false, false, [])] + [Referenced(4, t1, Pos(7, 68), false, false, [])] + [Referenced(4, t1, Pos(7, 75), false, false, [])] + [OutAssigned(4, [], [])], 0);
  }

  lemma {:induction false} Fragment1(t1: string, x: string, tr: Tree)
    requires |tr.scopes| == 1 && tr.arms == 0
    ensures WalkFragment(Fragment(None, [Method([], [Exprs([Declare(t1, Pos(6, 13), Initialized)])] + ([Exprs([Call([Argument([Use(t1, Pos(7, 61), false)])] + ([Argument([Use(t1, Pos(7, 68), false)])] + ([Argument([Use(t1, Pos(7, 75), false)])])))])]))]), tr) == Tree(tr.scopes + [Scope(InstanceInitializers, Some(0))] + [Scope(StaticInitializers, Some(0))] + [Scope(MethodBody, Some(0))] + [Scope(BlockBody, Some(3))], tr.events + [Declared(4, t1, Pos(6, 13), Initialized, [])] + [Referenced(4, t1, Pos(7, 61), false, false, [])] + [Referenced(4, t1, Pos(7, 68), false, false, [])] + [Referenced(4, t1, Pos(7, 75), false, false, [])] + [OutAssigned(4, [], [])], 0)
  {
    WalkMembersOne(Method([], [Exprs([Declare(t1, Pos(6, 13), Initialized)])] + ([Exprs([Call([Argument([Use(t1, Pos(7, 61), false)])] + ([Argument([Use(t1, Pos(7, 68), false)])] + ([Argument([Use(t1, Pos(7, 75), false)])])))])])), 1, Tree(tr.scopes + [Scope(InstanceInitializers, Some(0))] + [Scope(StaticInitializers, Some(0))], tr.events, 0));
    Member2(t1, x, Tree(tr.scopes + [Scope(InstanceInitializers, Some(0))] + [Scope(StaticInitializers, Some(0))], tr.events, 0));
    assert WalkMembers([Method([], [Exprs([Declare(t1, Pos(6, 13), Initialized)])] + ([Exprs([Call([Argument([Use(t1, Pos(7, 61), false)])] + ([Argument([Use(t1, Pos(7, 68), false)])] + ([Argument([Use(t1, Pos(7, 75), false)])])))])]))], 1, Tree(tr.scopes + [Scope(InstanceInitializers, Some(0))] + [Scope(StaticInitializers, Some(0))], tr.events, 0)) == Tree(tr.scopes + [Scope(InstanceInitializers, Some(0))] + [Scope(StaticInitializers, Some(0))] + [Scope(MethodBody, Some(0))] + [Scope(BlockBody, Some(3))], tr.events + [Declared(4, t1, Pos(6, 13), Initialized, [])] + [Referenced(4, t1, Pos(7, 61), false, false, [])] + [Referenced(4, t1, Pos(7, 68), false, false, [])] + [Referenced(4, t1, Pos(7, 75), false, false, [])] + [OutAssigned(4, [], [])], 0);
    assert WalkFragment(Fragment(None, [Method([], [Exprs([Declare(t1, Pos(6, 13), Initialized)])] + ([Exprs([Call([Argument([Use(t1, Pos(7, 61), false)])] + ([Argument([Use(t1, Pos(7, 68), false)])] + ([Argument([Use(t1, Pos(7, 75), false)])])))])]))]), tr) == Tree(tr.scopes + [Scope(InstanceInitializers, Some(0))] + [Scope(StaticInitializers, Some(0))] + [Scope(MethodBody, Some(0))] + [Scope(BlockBody, Some(3))], tr.events + [Declared(4, t1, Pos(6, 13), Initialized, [])] + [Referenced(4, t1, Pos(7, 61), false, false, [])] + [Referenced(4, t1, Pos(7, 68), false, false, [])] + [Referenced(4, t1, Pos(7, 75), false, false, [])] + [OutAssigned(4, [], [])], 0);
  }

  lemma {:induction false} Member6(t1: string, x: string, tr: Tree)
    requires |tr.scopes| == 7 && tr.arms == 0
    ensures WalkMember(Field(false, [Declare(x, Pos(13, 26), Initialized)]), 5, tr) == Tree(tr.scopes, tr.events + [Declared(5, x, Pos(13, 26), Initialized, [])], 0)
  {
    WalkExprsOne(Declare(x, Pos(13, 26), Initialized), Ctx(5, [], []), tr);
    assert WalkExpr(Declare(x, Pos(13, 26), Initialized), Ctx(5, [], []), tr) == Tree(tr.scopes, tr.events + [Declared(5, x, Pos(13, 26), Initialized, [])], 0);
    assert WalkExprs([Declare(x, Pos(13, 26), Initialized)], Ctx(5, [], []), tr) == Tree(tr.scopes, tr.events + [Declared(5, x, Pos(13, 26), Initialized, [])], 0);
    assert WalkMember(Field(false, [Declare(x, Pos(13, 26), Initialized)]), 5, tr) == Tree(tr.scopes, tr.events + [Declared(5, x, Pos(13, 26), Initialized, [])], 0);
  }

  lemma {:induction false} Member7(t1: string, x: string, tr: Tree)
    requires |tr.scopes| == 7 && tr.arms == 0
    ensures WalkMember(Field(true, [Declare(x, Pos(14, 33), Initialized)]), 5, tr) == Tree(tr.scopes, tr.events + [Declared(6, x, Pos(14, 33), Initialized, [])], 0)
  {
    WalkExprsOne(Declare(x, Pos(14, 33), Initialized), Ctx(6, [], []), tr);
    assert WalkExpr(Declare(x, Pos(14, 33), Initialized), Ctx(6, [], []), tr) == Tree(tr.scopes, tr.events + [Declared(6, x, Pos(14, 33), Initialized, [])], 0);
    assert WalkExprs([Declare(x, Pos(14, 33), Initialized)], Ctx(6, [], []), tr) == Tree(tr.scopes, tr.events + [Declared(6, x, Pos(14, 33), Initialized, [])], 0);
    assert WalkMember(Field(true, [Declare(x, Pos(14, 33), Initialized)]), 5, tr) == Tree(tr.scopes, tr.events + [Declared(6, x, Pos(14, 33), Initialized, [])], 0);
  }

  lemma {:induction false} Member8(t1: string, x: string, tr: Tree)
    requires |tr.scopes| == 7 && tr.arms == 0
    ensures WalkMember(Field(false, [Use(x, Pos(15, 23), false)]), 5, tr) == Tree(tr.scopes, tr.events + [Referenced(5, x, Pos(15, 23), false, false, [])], 0)
  {
    WalkExprsOne(Use(x, Pos(15, 23), false), Ctx(5, [], []), tr);
    assert WalkExpr(Use(x, Pos(15, 23), false), Ctx(5, [], []), tr) == Tree(tr.scopes, tr.events + [Referenced(5, x, Pos(15, 23), false, false, [])], 0);
    assert WalkExprs([Use(x, Pos(15, 23), false)], Ctx(5, [], []), tr) == Tree(tr.scopes, tr.events + [Referenced(5, x, Pos(15, 23), false, false, [])], 0);
    assert WalkMember(Field(false, [Use(x, Pos(15, 23), false)]), 5, tr) == Tree(tr.scopes, tr.events + [Referenced(5, x, Pos(15, 23), false, false, [])], 0);
  }

  lemma {:induction false} Member9(t1: string, x: string, tr: Tree)
    requires |tr.scopes| == 7 && tr.arms == 0
    ensures WalkMember(Field(true, [Use(x, Pos(16, 30), false)]), 5, tr) == Tree(tr.scopes, tr.events + [Referenced(6, x, Pos(16, 30), false, false, [])], 0)
  {
    WalkExprsOne(Use(x, Pos(16, 30), false), Ctx(6, [], []), tr);
    assert WalkExpr(Use(x, Pos(16, 30), false), Ctx(6, [], []), tr) == Tree(tr.scopes, tr.events + [Referenced(6, x, Pos(16, 30), false, false, [])], 0);
    assert WalkExprs([Use(x, Pos(16, 30), false)], Ctx(6, [], []), tr) == Tree(tr.scopes, tr.events + [Referenced(6, x, Pos(16, 30), false, false, [])], 0);
    assert WalkMember(Field(true, [Use(x, Pos(16, 30), false)]), 5, tr) == Tree(tr.scopes, tr.events + [Referenced(6, x, Pos(16, 30), false, false, [])], 0);
  }

  lemma {:induction false} Member10(t1: string, x: string, tr: Tree)
    requires |tr.scopes| == 7 && tr.arms == 0
    ensures WalkMember(Field(false, [Use(x, Pos(17, 21), false)]), 5, tr) == Tree(tr.scopes, tr.events + [Referenced(5, x, Pos(17, 21), false, false, [])], 0)
  {
    WalkExprsOne(Use(x, Pos(17, 21), false), Ctx(5, [], []), tr);
    assert WalkExpr(Use(x, Pos(17, 21), false), Ctx(5, [], []), tr) == Tree(tr.scopes, tr.events + [Referenced(5, x, Pos(17, 21), false, false, [])], 0);
    assert WalkExprs([Use(x, Pos(17, 21), false)], Ctx(5, [], []), tr) == Tree(tr.scopes, tr.events + [Referenced(5, x, Pos(17, 21), false, false, [])], 0);
    assert WalkMember(Field(false, [Use(x, Pos(17, 21), false)]), 5, tr) == Tree(tr.scopes, tr.events + [Referenced(5, x, Pos(17, 21), false, false, [])], 0);
  }

  lemma {:induction false} Member11(t1: string, x: string, tr: Tree)
    requires |tr.scopes| == 7 && tr.arms == 0
    ensures WalkMember(Field(true, [Use(x, Pos(18, 28), false)]), 5, tr) == Tree(tr.scopes, tr.events + [Referenced(6, x, Pos(18, 28), false, false, [])], 0)
  {
    WalkExprsOne(Use(x, Pos(18, 28), false), Ctx(6, [], []), tr);
    assert WalkExpr(Use(x, Pos(18, 28), false), Ctx(6, [], []), tr) == Tree(tr.scopes, tr.events + [Referenced(6, x, Pos(18, 28), false, false, [])], 0);
    assert WalkExprs([Use(x, Pos(18, 28), false)], Ctx(6, [], []), tr) == Tree(tr.scopes, tr.events + [Referenced(6, x, Pos(18, 28), false, false, [])], 0);
    assert WalkMember(Field(true, [Use(x, Pos(18, 28), false)]), 5, tr) == Tree(tr.scopes, tr.events + [Referenced(6, x, Pos(18, 28), false, false, [])], 0);
  }

  lemma {:induction false} Fragment5(t1: string, x: string, tr: Tree)
    requires |tr.scopes| == 5 && tr.arms == 0
    ensures WalkFragment(Fragment(None, [Field(false, [Declare(x, Pos(13, 26), Initialized)])] + ([Field(true, [Declare(x, Pos(14, 33), Initialized)])] + ([Field(false, [Use(x, Pos(15, 23), false)])] + ([Field(true, [Use(x, Pos(16, 30), false)])] + ([Field(false, [Use(x, Pos(17, 21), false)])] + ([Field(true, [Use(x, Pos(18, 28), false)])])))))), tr) == Tree(tr.scopes + [Scope(InstanceInitializers, Some(0))] + [Scope(StaticInitializers, Some(0))], tr.events + [Declared(5, x, Pos(13, 26), Initialized, [])] + [Declared(6, x, Pos(14, 33), Initialized, [])] + [Referenced(5, x, Pos(15, 23), false, false, [])] + [Referenced(6, x, Pos(16, 30), false, false, [])] + [Referenced(5, x, Pos(17, 21), false, false, [])] + [Referenced(6, x, Pos(18, 28), false, false, [])], 0)
  {
    WalkMembersCons(Field(false, [Declare(x, Pos(13, 26), Initialized)]), [Field(true, [Declare(x, Pos(14, 33), Initialized)])] + ([Field(false, [Use(x, Pos(15, 23), false)])] + ([Field(true, [Use(x, Pos(16, 30), false)])] + ([Field(false, [Use(x, Pos(17, 21), false)])] + ([Field(true, [Use(x, Pos(18, 28), false)])])))), 5, Tree(tr.scopes + [Scope(InstanceInitializers, Some(0))] + [Scope(StaticInitializers, Some(0))], tr.events, 0));
    Member6(t1, x, Tree(tr.scopes + [Scope(InstanceInitializers, Some(0))] + [Scope(StaticInitializers, Some(0))], tr.events, 0));
    WalkMembersCons(Field(true, [Declare(x, Pos(14, 33), Initialized)]), [Field(false, [Use(x, Pos(15, 23), false)])] + ([Field(true, [Use(x, Pos(16, 30), false)])] + ([Field(false, [Use(x, Pos(17, 21), false)])] + ([Field(true, [Use(x, Pos(18, 28), false)])]))), 5, Tree(tr.scopes + [Scope(InstanceInitializers, Some(0))] + [Scope(StaticInitializers, Some(0))], tr.events + [Declared(5, x, Pos(13, 26), Initialized, [])], 0));
    Member7(t1, x, Tree(tr.scopes + [Scope(InstanceInitializers, Some(0))] + [Scope(StaticInitializers, Some(0))], tr.events + [Declared(5, x, Pos(13, 26), Initialized, [])], 0));
    WalkMembersCons(Field(false, [Use(x, Pos(15, 23), false)]), [Field(true, [Use(x, Pos(16, 30), false)])] + ([Field(false, [Use(x, Pos(17, 21), false)])] + ([Field(true, [Use(x, Pos(18, 28), false)])])), 5, Tree(tr.scopes + [Scope(InstanceInitializers, Some(0))] + [Scope(StaticInitializers, Some(0))], tr.events + [Declared(5, x, Pos(13, 26), Initialized, [])] + [Declared(6, x, Pos(14, 33), Initialized, [])], 0));
    Member8(t1, x, Tree(tr.scopes + [Scope(InstanceInitializers, Some(0))] + [Scope(StaticInitializers, Some(0))], tr.events + [Declared(5, x, Pos(13, 26), Initialized, [])] + [Declared(6, x, Pos(14, 33), Initialized, [])], 0));
    WalkMembersCons(Field(true, [Use(x, Pos(16, 30), false)]), [Field(false, [Use(x, Pos(17, 21), false)])] + ([Field(true, [Use(x, Pos(18, 28), false)])]), 5, Tree(tr.scopes + [Scope(InstanceInitializers, Some(0))] + [Scope(StaticInitializers, Some(0))], tr.events + [Declared(5, x, Pos(13, 26), Initialized, [])] + [Declared(6, x, Pos(14, 33), Initialized, [])] + [Referenced(5, x, Pos(15, 23), false, false, [])], 0));
    Member9(t1, x, Tree(tr.scopes + [Scope(InstanceInitializers, Some(0))] + [Scope(StaticInitializers, Some(0))], tr.events + [Declared(5, x, Pos(13, 26), Initialized, [])] + [Declared(6, x, Pos(14, 33), Initialized, [])] + [Referenced(5, x, Pos(15, 23), false, false, [])], 0));
    WalkMembersCons(Field(false, [Use(x, Pos(17, 21), false)]), [Field(true, [Use(x, Pos(18, 28), false)])], 5, Tree(tr.scopes + [Scope(InstanceInitializers, Some(0))] + [Scope(StaticInitializers, Some(0))], tr.events + [Declared(5, x, Pos(13, 26), Initialized, [])] + [Declared(6, x, Pos(14, 33), Initialized, [])] + [Referenced(5, x, Pos(15, 23), false, false, [])] + [Referenced(6, x, Pos(16, 30), false, false, [])], 0));
    Member10(t1, x, Tree(tr.scopes + [Scope(InstanceInitializers, Some(0))] + [Scope(StaticInitializers, Some(0))], tr.events + [Declared(5, x, Pos(13, 26), Initialized, [])] + [Declared(6, x, Pos(14, 33), Initialized, [])] + [Referenced(5, x, Pos(15, 23), false, false, [])] + [Referenced(6, x, Pos(16, 30), false, false, [])], 0));
    WalkMembersOne(Field(true, [Use(x, Pos(18, 28), false)]), 5, Tree(tr.scopes + [Scope(InstanceInitializers, Some(0))] + [Scope(StaticInitializers, Some(0))], tr.events + [Declared(5, x, Pos(13, 26), Initialized, [])] + [Declared(6, x, Pos(14, 33), Initialized, [])] + [Referenced(5, x, Pos(15, 23), false, false, [])] + [Referenced(6, x, Pos(16, 30), false, false, [])] + [Referenced(5, x, Pos(17, 21), false, false, [])], 0));
    Member11(t1, x, Tree(tr.scopes + [Scope(InstanceInitializers, Some(0))] + [Scope(StaticInitializers, Some(0))], tr.events + [Declared(5, x, Pos(13, 26), Initialized, [])] + [Declared(6, x, Pos(14, 33), Initialized, [])] + [Referenced(5, x, Pos(15, 23), false, false, [])] + [Referenced(6, x, Pos(16, 30), false, false, [])] + [Referenced(5, x, Pos(17, 21), false, false, [])], 0));
    assert WalkMembers([Field(false, [Declare(x, Pos(13, 26), Initialized)])] + ([Field(true, [Declare(x, Pos(14, 33), Initialized)])] + ([Field(false, [Use(x, Pos(15, 23), false)])] + ([Field(true, [Use(x, Pos(16, 30), false)])] + ([Field(false, [Use(x, Pos(17, 21), false)])] + ([Field(true, [Use(x, Pos(18, 28), false)])]))))), 5, Tree(tr.scopes + [Scope(InstanceInitializers, Some(0))] + [Scope(StaticInitializers, Some(0))], tr.events, 0)) == Tree(tr.scopes + [Scope(InstanceInitializers, Some(0))] + [Scope(StaticInitializers, Some(0))], tr.events + [Declared(5, x, Pos(13, 26), Initialized, [])] + [Declared(6, x, Pos(14, 33), Initialized, [])] + [Referenced(5, x, Pos(15, 23), false, false, [])] + [Referenced(6, x, Pos(16, 30), false, false, [])] + [Referenced(5, x, Pos(17, 21), false, false, [])] + [Referenced(6, x, Pos(18, 28), false, false, [])], 0);
    assert WalkFragment(Fragment(None, [Field(false, [Declare(x, Pos(13, 26), Initialized)])] + ([Field(true, [Declare(x, Pos(14, 33), Initialized)])] + ([Field(false, [Use(x, Pos(15, 23), false)])] + ([Field(true, [Use(x, Pos(16, 30), false)])] + ([Field(false, [Use(x, Pos(17, 21), false)])] + ([Field(true, [Use(x, Pos(18, 28), false)])])))))), tr) == Tree(tr.scopes + [Scope(InstanceInitializers, Some(0))] + [Scope(StaticInitializers, Some(0))], tr.events + [Declared(5, x, Pos(13, 26), Initialized, [])] + [Declared(6, x, Pos(14, 33), Initialized, [])] + [Referenced(5, x, Pos(15, 23), false, false, [])] + [Referenced(6, x, Pos(16, 30), false, false, [])] + [Referenced(5, x, Pos(17, 21), false, false, [])] + [Referenced(6, x, Pos(18, 28), false, false, [])], 0);
  }

  lemma {:induction false} Join0(t1: string, x: string, evs: seq<Event>)
    ensures evs + Chunk0(t1, x) == evs + [Declared(4, t1, Pos(6, 13), Initialized, [])] + [Referenced(4, t1, Pos(7, 61), false, false, [])] + [Referenced(4, t1, Pos(7, 68), false, false, [])] + [Referenced(4, t1, Pos(7, 75), false, false, [])] + [OutAssigned(4, [], [])] + [Declared(5, x, Pos(13, 26), Initialized, [])] + [Declared(6, x, Pos(14, 33), Initialized, [])] + [Referenced(5, x, Pos(15, 23), false, false, [])]
  {
  }

  lemma {:induction false} Join1(t1: string, x: string, evs: seq<Event>)
    ensures evs + Chunk1(t1, x) == evs + [Referenced(6, x, Pos(16, 30), false, false, [])] + [Referenced(5, x, Pos(17, 21), false, false, [])] + [Referenced(6, x, Pos(18, 28), false, false, [])]
  {
  }

  /** The trace, event by event. */
  lemma {:induction false} Flat(t1: string, x: string)
    ensures [] + [Declared(4, t1, Pos(6, 13), Initialized, [])] + [Referenced(4, t1, Pos(7, 61), false, false, [])] + [Referenced(4, t1, Pos(7, 68), false, false, [])] + [Referenced(4, t1, Pos(7, 75), false, false, [])] + [OutAssigned(4, [], [])] + [Declared(5, x, Pos(13, 26), Initialized, [])] + [Declared(6, x, Pos(14, 33), Initialized, [])] + [Referenced(5, x, Pos(15, 23), false, false, [])] + [Referenced(6, x, Pos(16, 30), false, false, [])] + [Referenced(5, x, Pos(17, 21), false, false, [])] + [Referenced(6, x, Pos(18, 28), false, false, [])] == Trace(t1, x)
  {
    Join0(t1, x, []);
    Join1(t1, x, [] + Chunk0(t1, x));
  }

  lemma {:induction false} Walked(t1: string, x: string)
    ensures Build(Program(t1, x)) == Tree(Layout(), Trace(t1, x), 0)
  {
    WalkFragmentsCons(Fragment(None, [Method([], [Exprs([Declare(t1, Pos(6, 13), Initialized)])] + ([Exprs([Call([Argument([Use(t1, Pos(7, 61), false)])] + ([Argument([Use(t1, Pos(7, 68), false)])] + ([Argument([Use(t1, Pos(7, 75), false)])])))])]))]), [Fragment(None, [Field(false, [Declare(x, Pos(13, 26), Initialized)])] + ([Field(true, [Declare(x, Pos(14, 33), Initialized)])] + ([Field(false, [Use(x, Pos(15, 23), false)])] + ([Field(true, [Use(x, Pos(16, 30), false)])] + ([Field(false, [Use(x, Pos(17, 21), false)])] + ([Field(true, [Use(x, Pos(18, 28), false)])]))))))], Tree([Scope(Unit, None)], [], 0));
    Fragment1(t1, x, Tree([Scope(Unit, None)], [], 0));
    WalkFragmentsOne(Fragment(None, [Field(false, [Declare(x, Pos(13, 26), Initialized)])] + ([Field(true, [Declare(x, Pos(14, 33), Initialized)])] + ([Field(false, [Use(x, Pos(15, 23), false)])] + ([Field(true, [Use(x, Pos(16, 30), false)])] + ([Field(false, [Use(x, Pos(17, 21), false)])] + ([Field(true, [Use(x, Pos(18, 28), false)])])))))), Tree([Scope(Unit, None)] + [Scope(InstanceInitializers, Some(0))] + [Scope(StaticInitializers, Some(0))] + [Scope(MethodBody, Some(0))] + [Scope(BlockBody, Some(3))], [] + [Declared(4, t1, Pos(6, 13), Initialized, [])] + [Referenced(4, t1, Pos(7, 61), false, false, [])] + [Referenced(4, t1, Pos(7, 68), false, false, [])] + [Referenced(4, t1, Pos(7, 75), false, false, [])] + [OutAssigned(4, [], [])], 0));
    Fragment5(t1, x, Tree([Scope(Unit, None)] + [Scope(InstanceInitializers, Some(0))] + [Scope(StaticInitializers, Some(0))] + [Scope(MethodBody, Some(0))] + [Scope(BlockBody, Some(3))], [] + [Declared(4, t1, Pos(6, 13), Initialized, [])] + [Referenced(4, t1, Pos(7, 61), false, false, [])] + [Referenced(4, t1, Pos(7, 68), false, false, [])] + [Referenced(4, t1, Pos(7, 75), false, false, [])] + [OutAssigned(4, [], [])], 0));
    LayoutFlat();
    Flat(t1, x);
  }

  /** The locals events of chunk `ck` declare in scope `sc`, in order. */
  function NewIn(t1: string, x: string, ck: nat, sc: nat): seq<Local> {
    if ck == 0 then
      if sc == 4 then [] + [Local(t1, Pos(6, 13))]
      else if sc == 5 then [] + [Local(x, Pos(13, 26))]
      else if sc == 6 then [] + [Local(x, Pos(14, 33))]
      else []
    else []
  }

  /** The locals the first `ck` chunks declare in scope `sc`, in order. */
  function DeclaredBy(t1: string, x: string, ck: nat, sc: nat): seq<Local>
    decreases ck
  {
    if ck == 0 then [] else DeclaredBy(t1, x, ck - 1, sc) + NewIn(t1, x, ck - 1, sc)
  }

  /** The locals declared once events 0 to 7 follow some events. */
  lemma {:induction false} Decls0(t1: string, x: string, evs: seq<Event>, sc: nat)
    requires DeclsIn(evs, sc) == DeclaredBy(t1, x, 0, sc)
    ensures DeclsIn(evs + Chunk0(t1, x), sc) == DeclaredBy(t1, x, 1, sc)
  {
    DeclsInAppend(evs, Chunk0(t1, x), sc);
    assert DeclsIn([], sc) == [];
    if sc == 4 {
      DeclsInAdd([], Declared(4, t1, Pos(6, 13), Initialized, []), 4);
      DeclsInSkip([] + [Declared(4, t1, Pos(6, 13), Initialized, [])], Referenced(4, t1, Pos(7, 61), false, false, []), 4);
      DeclsInSkip([] + [Declared(4, t1, Pos(6, 13), Initialized, [])] + [Referenced(4, t1, Pos(7, 61), false, false, [])], Referenced(4, t1, Pos(7, 68), false, false, []), 4);
      DeclsInSkip([] + [Declared(4, t1, Pos(6, 13), Initialized, [])] + [Referenced(4, t1, Pos(7, 61), false, false, [])] + [Referenced(4, t1, Pos(7, 68), false, false, [])], Referenced(4, t1, Pos(7, 75), false, false, []), 4);
      DeclsInSkip([] + [Declared(4, t1, Pos(6, 13), Initialized, [])] + [Referenced(4, t1, Pos(7, 61), false, false, [])] + [Referenced(4, t1, Pos(7, 68), false, false, [])] + [Referenced(4, t1, Pos(7, 75), false, false, [])], OutAssigned(4, [], []), 4);
      DeclsInSkip([] + [Declared(4, t1, Pos(6, 13), Initialized, [])] + [Referenced(4, t1, Pos(7, 61), false, false, [])] + [Referenced(4, t1, Pos(7, 68), false, false, [])] + [Referenced(4, t1, Pos(7, 75), false, false, [])] + [OutAssigned(4, [], [])], Declared(5, x, Pos(13, 26), Initialized, []), 4);
      DeclsInSkip([] + [Declared(4, t1, Pos(6, 13), Initialized, [])] + [Referenced(4, t1, Pos(7, 61), false, false, [])] + [Referenced(4, t1, Pos(7, 68), false, false, [])] + [Referenced(4, t1, Pos(7, 75), false, false, [])] + [OutAssigned(4, [], [])] + [Declared(5, x, Pos(13, 26), Initialized, [])], Declared(6, x, Pos(14, 33), Initialized, []), 4);
      DeclsInSkip([] + [Declared(4, t1, Pos(6, 13), Initialized, [])] + [Referenced(4, t1, Pos(7, 61), false, false, [])] + [Referenced(4, t1, Pos(7, 68), false, false, [])] + [Referenced(4, t1, Pos(7, 75), false, false, [])] + [OutAssigned(4, [], [])] + [Declared(5, x, Pos(13, 26), Initialized, [])] + [Declared(6, x, Pos(14, 33), Initialized, [])], Referenced(5, x, Pos(15, 23), false, false, []), 4);
    } else if sc == 5 {
      DeclsInSkip([], Declared(4, t1, Pos(6, 13), Initialized, []), 5);
      DeclsInSkip([] + [Declared(4, t1, Pos(6, 13), Initialized, [])], Referenced(4, t1, Pos(7, 61), false, false, []), 5);
      DeclsInSkip([] + [Declared(4, t1, Pos(6, 13), Initialized, [])] + [Referenced(4, t1, Pos(7, 61), false, false, [])], Referenced(4, t1, Pos(7, 68), false, false, []), 5);
      DeclsInSkip([] + [Declared(4, t1, Pos(6, 13), Initialized, [])] + [Referenced(4, t1, Pos(7, 61), false, false, [])] + [Referenced(4, t1, Pos(7, 68), false, false, [])], Referenced(4, t1, Pos(7, 75), false, false, []), 5);
      DeclsInSkip([] + [Declared(4, t1, Pos(6, 13), Initialized, [])] + [Referenced(4, t1, Pos(7, 61), false, false, [])] + [Referenced(4, t1, Pos(7, 68), false, false, [])] + [Referenced(4, t1, Pos(7, 75), false, false, [])], OutAssigned(4, [], []), 5);
      DeclsInAdd([] + [Declared(4, t1, Pos(6, 13), Initialized, [])] + [Referenced(4, t1, Pos(7, 61), false, false, [])] + [Referenced(4, t1, Pos(7, 68), false, false, [])] + [Referenced(4, t1, Pos(7, 75), false, false, [])] + [OutAssigned(4, [], [])], Declared(5, x, Pos(13, 26), Initialized, []), 5);
      DeclsInSkip([] + [Declared(4, t1, Pos(6, 13), Initialized, [])] + [Referenced(4, t1, Pos(7, 61), false, false, [])] + [Referenced(4, t1, Pos(7, 68), false, false, [])] + [Referenced(4, t1, Pos(7, 75), false, false, [])] + [OutAssigned(4, [], [])] + [Declared(5, x, Pos(13, 26), Initialized, [])], Declared(6, x, Pos(14, 33), Initialized, []), 5);
      DeclsInSkip([] + [Declared(4, t1, Pos(6, 13), Initialized, [])] + [Referenced(4, t1, Pos(7, 61), false, false, [])] + [Referenced(4, t1, Pos(7, 68), false, false, [])] + [Referenced(4, t1, Pos(7, 75), false, false, [])] + [OutAssigned(4, [], [])] + [Declared(5, x, Pos(13, 26), Initialized, [])] + [Declared(6, x, Pos(14, 33), Initialized, [])], Referenced(5, x, Pos(15, 23), false, false, []), 5);
    } else if sc == 6 {
      DeclsInSkip([], Declared(4, t1, Pos(6, 13), Initialized, []), 6);
      DeclsInSkip([] + [Declared(4, t1, Pos(6, 13), Initialized, [])], Referenced(4, t1, Pos(7, 61), false, false, []), 6);
      DeclsInSkip([] + [Declared(4, t1, Pos(6, 13), Initialized, [])] + [Referenced(4, t1, Pos(7, 61), false, false, [])], Referenced(4, t1, Pos(7, 68), false, false, []), 6);
      DeclsInSkip([] + [Declared(4, t1, Pos(6, 13), Initialized, [])] + [Referenced(4, t1, Pos(7, 61), false, false, [])] + [Referenced(4, t1, Pos(7, 68), false, false, [])], Referenced(4, t1, Pos(7, 75), false, false, []), 6);
      DeclsInSkip([] + [Declared(4, t1, Pos(6, 13), Initialized, [])] + [Referenced(4, t1, Pos(7, 61), false, false, [])] + [Referenced(4, t1, Pos(7, 68), false, false, [])] + [Referenced(4, t1, Pos(7, 75), false, false, [])], OutAssigned(4, [], []), 6);
      DeclsInSkip([] + [Declared(4, t1, Pos(6, 13), Initialized, [])] + [Referenced(4, t1, Pos(7, 61), false, false, [])] + [Referenced(4, t1, Pos(7, 68), false, false, [])] + [Referenced(4, t1, Pos(7, 75), false, false, [])] + [OutAssigned(4, [], [])], Declared(5, x, Pos(13, 26), Initialized, []), 6);
      DeclsInAdd([] + [Declared(4, t1, Pos(6, 13), Initialized, [])] + [Referenced(4, t1, Pos(7, 61), false, false, [])] + [Referenced(4, t1, Pos(7, 68), false, false, [])] + [Referenced(4, t1, Pos(7, 75), false, false, [])] + [OutAssigned(4, [], [])] + [Declared(5, x, Pos(13, 26), Initialized, [])], Declared(6, x, Pos(14, 33), Initialized, []), 6);
      DeclsInSkip([] + [Declared(4, t1, Pos(6, 13), Initialized, [])] + [Referenced(4, t1, Pos(7, 61), false, false, [])] + [Referenced(4, t1, Pos(7, 68), false, false, [])] + [Referenced(4, t1, Pos(7, 75), false, false, [])] + [OutAssigned(4, [], [])] + [Declared(5, x, Pos(13, 26), Initialized, [])] + [Declared(6, x, Pos(14, 33), Initialized, [])], Referenced(5, x, Pos(15, 23), false, false, []), 6);
    } else {
      DeclsInSkip([], Declared(4, t1, Pos(6, 13), Initialized, []), sc);
      DeclsInSkip([] + [Declared(4, t1, Pos(6, 13), Initialized, [])], Referenced(4, t1, Pos(7, 61), false, false, []), sc);
      DeclsInSkip([] + [Declared(4, t1, Pos(6, 13), Initialized, [])] + [Referenced(4, t1, Pos(7, 61), false, false, [])], Referenced(4, t1, Pos(7, 68), false, false, []), sc);
      DeclsInSkip([] + [Declared(4, t1, Pos(6, 13), Initialized, [])] + [Referenced(4, t1, Pos(7, 61), false, false, [])] + [Referenced(4, t1, Pos(7, 68), false, false, [])], Referenced(4, t1, Pos(7, 75), false, false, []), sc);
      DeclsInSkip([] + [Declared(4, t1, Pos(6, 13), Initialized, [])] + [Referenced(4, t1, Pos(7, 61), false, false, [])] + [Referenced(4, t1, Pos(7, 68), false, false, [])] + [Referenced(4, t1, Pos(7, 75), false, false, [])], OutAssigned(4, [], []), sc);
      DeclsInSkip([] + [Declared(4, t1, Pos(6, 13), Initialized, [])] + [Referenced(4, t1, Pos(7, 61), false, false, [])] + [Referenced(4, t1, Pos(7, 68), false, false, [])] + [Referenced(4, t1, Pos(7, 75), false, false, [])] + [OutAssigned(4, [], [])], Declared(5, x, Pos(13, 26), Initialized, []), sc);
      DeclsInSkip([] + [Declared(4, t1, Pos(6, 13), Initialized, [])] + [Referenced(4, t1, Pos(7, 61), false, false, [])] + [Referenced(4, t1, Pos(7, 68), false, false, [])] + [Referenced(4, t1, Pos(7, 75), false, false, [])] + [OutAssigned(4, [], [])] + [Declared(5, x, Pos(13, 26), Initialized, [])], Declared(6, x, Pos(14, 33), Initialized, []), sc);
      DeclsInSkip([] + [Declared(4, t1, Pos(6, 13), Initialized, [])] + [Referenced(4, t1, Pos(7, 61), false, false, [])] + [Referenced(4, t1, Pos(7, 68), false, false, [])] + [Referenced(4, t1, Pos(7, 75), false, false, [])] + [OutAssigned(4, [], [])] + [Declared(5, x, Pos(13, 26), Initialized, [])] + [Declared(6, x, Pos(14, 33), Initialized, [])], Referenced(5, x, Pos(15, 23), false, false, []), sc);
      AppendNil(DeclsIn(evs, sc));
    }
  }

  /** The locals declared once events 8 to 10 follow some events. */
  lemma {:induction false} Decls1(t1: string, x: string, evs: seq<Event>, sc: nat)
    requires DeclsIn(evs, sc) == DeclaredBy(t1, x, 1, sc)
    ensures DeclsIn(evs + Chunk1(t1, x), sc) == DeclaredBy(t1, x, 2, sc)
  {
    DeclsInAppend(evs, Chunk1(t1, x), sc);
    assert DeclsIn([], sc) == [];
    DeclsInSkip([], Referenced(6, x, Pos(16, 30), false, false, []), sc);
    DeclsInSkip([] + [Referenced(6, x, Pos(16, 30), false, false, [])], Referenced(5, x, Pos(17, 21), false, false, []), sc);
    DeclsInSkip([] + [Referenced(6, x, Pos(16, 30), false, false, [])] + [Referenced(5, x, Pos(17, 21), false, false, [])], Referenced(6, x, Pos(18, 28), false, false, []), sc);
    AppendNil(DeclsIn(evs, sc));
  }

  lemma {:induction false} DeclsStage0(t1: string, x: string, evs: seq<Event>, sc: nat)
    requires DeclsIn(evs, sc) == DeclaredBy(t1, x, 0, sc)
    ensures DeclsIn(evs + Chunk0(t1, x) + Chunk1(t1, x), sc) == DeclaredBy(t1, x, 2, sc)
  {
    Decls0(t1, x, evs, sc);
    Decls1(t1, x, evs + Chunk0(t1, x), sc);
  }

  /** The locals of every scope of a tree whose events are the test's, as the table gives them. */
  ghost predicate LocalsFit(t1: string, x: string, tr: Tree) {
    forall sc: nat {:trigger DeclaredBy(t1, x, 2, sc)} :: LocalsOf(tr, sc) == DeclaredBy(t1, x, 2, sc)
  }

  /** The locals of every scope. */
  lemma {:induction false} LocalsAll(t1: string, x: string, tr: Tree)
    requires tr.events == Trace(t1, x)
    ensures LocalsFit(t1, x, tr)
  {
    forall sc: nat
      ensures LocalsOf(tr, sc) == DeclaredBy(t1, x, 2, sc)
    {
      assert DeclsIn([], sc) == [] == DeclaredBy(t1, x, 0, sc);
      DeclsStage0(t1, x, [], sc);
    }
  }

  /** The locals scope 0 declares, in order. */
  lemma {:induction false} Locals0(t1: string, x: string)
    ensures DeclaredBy(t1, x, 2, 0) == []
  {
    AppendNil([]);
    assert DeclaredBy(t1, x, 1, 0) == [];
    assert DeclaredBy(t1, x, 2, 0) == [];
  }

  /** The locals scope 3 declares, in order. */
  lemma {:induction false} Locals3(t1: string, x: string)
    ensures DeclaredBy(t1, x, 2, 3) == []
  {
    AppendNil([]);
    assert DeclaredBy(t1, x, 1, 3) == [];
    assert DeclaredBy(t1, x, 2, 3) == [];
  }

  /** The locals scope 4 declares, in order. */
  lemma {:induction false} Locals4(t1: string, x: string)
    ensures DeclaredBy(t1, x, 2, 4) == [Local(t1, Pos(6, 13))]
  {
    assert DeclaredBy(t1, x, 1, 4) == [Local(t1, Pos(6, 13))];
    AppendNil([Local(t1, Pos(6, 13))]);
    assert DeclaredBy(t1, x, 2, 4) == [Local(t1, Pos(6, 13))];
  }

  /** The locals scope 5 declares, in order. */
  lemma {:induction false} Locals5(t1: string, x: string)
    ensures DeclaredBy(t1, x, 2, 5) == [Local(x, Pos(13, 26))]
  {
    assert DeclaredBy(t1, x, 1, 5) == [Local(x, Pos(13, 26))];
    AppendNil([Local(x, Pos(13, 26))]);
    assert DeclaredBy(t1, x, 2, 5) == [Local(x, Pos(13, 26))];
  }

  /** The locals scope 6 declares, in order. */
  lemma {:induction false} Locals6(t1: string, x: string)
    ensures DeclaredBy(t1, x, 2, 6) == [Local(x, Pos(14, 33))]
  {
    assert DeclaredBy(t1, x, 1, 6) == [Local(x, Pos(14, 33))];
    AppendNil([Local(x, Pos(14, 33))]);
    assert DeclaredBy(t1, x, 2, 6) == [Local(x, Pos(14, 33))];
  }

  /** The assignments known after event 7. */
  function Known0(t1: string, x: string): seq<Fact> {
    []
      + [Fact(4, t1, [])]
      + [Fact(5, x, [])]
      + [Fact(6, x, [])]
  }

  /** Whether a local is assigned after the assignments of events 0 to 7. */
  lemma {:induction false} Assigned0(t1: string, x: string, fs: seq<Fact>, sc: nat, nm: string, pth: seq<nat>)
    ensures Assigned(fs + [Fact(4, t1, [])] + [Fact(5, x, [])] + [Fact(6, x, [])], sc, nm, pth) == (
      Assigned(fs, sc, nm, pth) ||
      (4 == sc && t1 == nm && [] <= pth) ||
      (5 == sc && x == nm && [] <= pth) ||
      (6 == sc && x == nm && [] <= pth))
  {
    AssignedSnoc(fs, Fact(4, t1, []), sc, nm, pth);
    AssignedSnoc(fs + [Fact(4, t1, [])], Fact(5, x, []), sc, nm, pth);
    AssignedSnoc(fs + [Fact(4, t1, [])] + [Fact(5, x, [])], Fact(6, x, []), sc, nm, pth);
  }

  /** Event 0: its diagnostics and the assignments after it. */
  lemma {:induction false} Event0(t1: string, x: string, tr: Tree, fs: seq<Fact>)
    requires |tr.scopes| == 7
    requires Parent(tr, 0) == None
    requires Parent(tr, 3) == Some(0)
    requires Parent(tr, 4) == Some(3)
    requires LocalsOf(tr, 4) == [Local(t1, Pos(6, 13))]
    requires LocalsOf(tr, 3) == []
    requires LocalsOf(tr, 0) == []
    ensures EventDiags(tr, Declared(4, t1, Pos(6, 13), Initialized, []), fs) == []
    ensures Step(tr, Declared(4, t1, Pos(6, 13), Initialized, []), fs) == fs + [Fact(4, t1, [])]
  {
    assert Lookup(tr, 0, t1) == None;
    assert Lookup(tr, 3, t1) == None;
  }

  /** Event 1: its diagnostics and the assignments after it. */
  lemma {:induction false} Event1(t1: string, x: string, tr: Tree, fs: seq<Fact>)
    requires |tr.scopes| == 7
    requires Parent(tr, 4) == Some(3)
    requires LocalsOf(tr, 4) == [Local(t1, Pos(6, 13))]
    requires Assigned(fs, 4, t1, [])
    ensures EventDiags(tr, Referenced(4, t1, Pos(7, 61), false, false, []), fs) == []
    ensures Step(tr, Referenced(4, t1, Pos(7, 61), false, false, []), fs) == fs
  {
    assert Local(t1, Pos(6, 13)) in LocalsOf(tr, 4);
    assert Lookup(tr, 4, t1) == Some(4);
  }

  /** Event 2: its diagnostics and the assignments after it. */
  lemma {:induction false} Event2(t1: string, x: string, tr: Tree, fs: seq<Fact>)
    requires |tr.scopes| == 7
    requires Parent(tr, 4) == Some(3)
    requires LocalsOf(tr, 4) == [Local(t1, Pos(6, 13))]
    requires Assigned(fs, 4, t1, [])
    ensures EventDiags(tr, Referenced(4, t1, Pos(7, 68), false, false, []), fs) == []
    ensures Step(tr, Referenced(4, t1, Pos(7, 68), false, false, []), fs) == fs
  {
    assert Local(t1, Pos(6, 13)) in LocalsOf(tr, 4);
    assert Lookup(tr, 4, t1) == Some(4);
  }

  /** Event 3: its diagnostics and the assignments after it. */
  lemma {:induction false} Event3(t1: string, x: string, tr: Tree, fs: seq<Fact>)
    requires |tr.scopes| == 7
    requires Parent(tr, 4) == Some(3)
    requires LocalsOf(tr, 4) == [Local(t1, Pos(6, 13))]
    requires Assigned(fs, 4, t1, [])
    ensures EventDiags(tr, Referenced(4, t1, Pos(7, 75), false, false, []), fs) == []
    ensures Step(tr, Referenced(4, t1, Pos(7, 75), false, false, []), fs) == fs
  {
    assert Local(t1, Pos(6, 13)) in LocalsOf(tr, 4);
    assert Lookup(tr, 4, t1) == Some(4);
  }

  /** Event 4: its diagnostics and the assignments after it. */
  lemma {:induction false} Event4(t1: string, x: string, tr: Tree, fs: seq<Fact>)
    ensures EventDiags(tr, OutAssigned(4, [], []), fs) == []
    ensures Step(tr, OutAssigned(4, [], []), fs) == fs
  {
    assert OutFacts(4, [], []) == [];
    FactsNil(fs);
  }

  /** Event 5: its diagnostics and the assignments after it. */
  lemma {:induction false} Event5(t1: string, x: string, tr: Tree, fs: seq<Fact>)
    requires |tr.scopes| == 7
    requires Parent(tr, 0) == None
    requires Parent(tr, 5) == Some(0)
    requires LocalsOf(tr, 5) == [Local(x, Pos(13, 26))]
    requires LocalsOf(tr, 0) == []
    ensures EventDiags(tr, Declared(5, x, Pos(13, 26), Initialized, []), fs) == []
    ensures Step(tr, Declared(5, x, Pos(13, 26), Initialized, []), fs) == fs + [Fact(5, x, [])]
  {
    assert Lookup(tr, 0, x) == None;
  }

  /** Event 6: its diagnostics and the assignments after it. */
  lemma {:induction false} Event6(t1: string, x: string, tr: Tree, fs: seq<Fact>)
    requires |tr.scopes| == 7
    requires Parent(tr, 0) == None
    requires Parent(tr, 6) == Some(0)
    requires LocalsOf(tr, 6) == [Local(x, Pos(14, 33))]
    requires LocalsOf(tr, 0) == []
    ensures EventDiags(tr, Declared(6, x, Pos(14, 33), Initialized, []), fs) == []
    ensures Step(tr, Declared(6, x, Pos(14, 33), Initialized, []), fs) == fs + [Fact(6, x, [])]
  {
    assert Lookup(tr, 0, x) == None;
  }

  /** Event 7: its diagnostics and the assignments after it. */
  lemma {:induction false} Event7(t1: string, x: string, tr: Tree, fs: seq<Fact>)
    requires |tr.scopes| == 7
    requires Parent(tr, 5) == Some(0)
    requires LocalsOf(tr, 5) == [Local(x, Pos(13, 26))]
    requires Assigned(fs, 5, x, [])
    ensures EventDiags(tr, Referenced(5, x, Pos(15, 23), false, false, []), fs) == []
    ensures Step(tr, Referenced(5, x, Pos(15, 23), false, false, []), fs) == fs
  {
    assert Local(x, Pos(13, 26)) in LocalsOf(tr, 5);
    assert Lookup(tr, 5, x) == Some(5);
  }

  /** Event 8: its diagnostics and the assignments after it. */
  lemma {:induction false} Event8(t1: string, x: string, tr: Tree, fs: seq<Fact>)
    requires |tr.scopes| == 7
    requires Parent(tr, 6) == Some(0)
    requires LocalsOf(tr, 6) == [Local(x, Pos(14, 33))]
    requires Assigned(fs, 6, x, [])
    ensures EventDiags(tr, Referenced(6, x, Pos(16, 30), false, false, []), fs) == []
    ensures Step(tr, Referenced(6, x, Pos(16, 30), false, false, []), fs) == fs
  {
    assert Local(x, Pos(14, 33)) in LocalsOf(tr, 6);
    assert Lookup(tr, 6, x) == Some(6);
  }

  /** Event 9: its diagnostics and the assignments after it. */
  lemma {:induction false} Event9(t1: string, x: string, tr: Tree, fs: seq<Fact>)
    requires |tr.scopes| == 7
    requires Parent(tr, 5) == Some(0)
    requires LocalsOf(tr, 5) == [Local(x, Pos(13, 26))]
    requires Assigned(fs, 5, x, [])
    ensures EventDiags(tr, Referenced(5, x, Pos(17, 21), false, false, []), fs) == []
    ensures Step(tr, Referenced(5, x, Pos(17, 21), false, false, []), fs) == fs
  {
    assert Local(x, Pos(13, 26)) in LocalsOf(tr, 5);
    assert Lookup(tr, 5, x) == Some(5);
  }

  /** Event 10: its diagnostics and the assignments after it. */
  lemma {:induction false} Event10(t1: string, x: string, tr: Tree, fs: seq<Fact>)
    requires |tr.scopes| == 7
    requires Parent(tr, 6) == Some(0)
    requires LocalsOf(tr, 6) == [Local(x, Pos(14, 33))]
    requires Assigned(fs, 6, x, [])
    ensures EventDiags(tr, Referenced(6, x, Pos(18, 28), false, false, []), fs) == []
    ensures Step(tr, Referenced(6, x, Pos(18, 28), false, false, []), fs) == fs
  {
    assert Local(x, Pos(14, 33)) in LocalsOf(tr, 6);
    assert Lookup(tr, 6, x) == Some(6);
  }

  /** What a read of x in scope 6 finds assigned before event 8. */
  lemma {:induction false} Read0(t1: string, x: string)
    ensures Assigned(Known0(t1, x), 6, x, [])
  {
    Assigned0(t1, x, [], 6, x, []);
    assert !Assigned([], 6, x, []);
  }

  /** What a read of x in scope 5 finds assigned before event 8. */
  lemma {:induction false} Read1(t1: string, x: string)
    ensures Assigned(Known0(t1, x), 5, x, [])
  {
    Assigned0(t1, x, [], 5, x, []);
    assert !Assigned([], 5, x, []);
  }

  /** The parent and the locals of scope 0. */
  lemma {:induction false} Scope0(t1: string, x: string, tr: Tree)
    requires ScopesAre(tr, Layout())
    requires LocalsFit(t1, x, tr)
    ensures |tr.scopes| == 7
    ensures Parent(tr, 0) == None
    ensures LocalsOf(tr, 0) == []
  {
    assert tr.scopes[0] == Layout()[0];
    Locals0(t1, x);
    assert LocalsOf(tr, 0) == DeclaredBy(t1, x, 2, 0);
  }

  /** The parent and the locals of scope 3. */
  lemma {:induction false} Scope3(t1: string, x: string, tr: Tree)
    requires ScopesAre(tr, Layout())
    requires LocalsFit(t1, x, tr)
    ensures |tr.scopes| == 7
    ensures Parent(tr, 3) == Some(0)
    ensures LocalsOf(tr, 3) == []
  {
    assert tr.scopes[3] == Layout()[3];
    Locals3(t1, x);
    assert LocalsOf(tr, 3) == DeclaredBy(t1, x, 2, 3);
  }

  /** The parent and the locals of scope 4. */
  lemma {:induction false} Scope4(t1: string, x: string, tr: Tree)
    requires ScopesAre(tr, Layout())
    requires LocalsFit(t1, x, tr)
    ensures |tr.scopes| == 7
    ensures Parent(tr, 4) == Some(3)
    ensures LocalsOf(tr, 4) == [Local(t1, Pos(6, 13))]
  {
    assert tr.scopes[4] == Layout()[4];
    Locals4(t1, x);
    assert LocalsOf(tr, 4) == DeclaredBy(t1, x, 2, 4);
  }

  /** The parent and the locals of scope 5. */
  lemma {:induction false} Scope5(t1: string, x: string, tr: Tree)
    requires ScopesAre(tr, Layout())
    requires LocalsFit(t1, x, tr)
    ensures |tr.scopes| == 7
    ensures Parent(tr, 5) == Some(0)
    ensures LocalsOf(tr, 5) == [Local(x, Pos(13, 26))]
  {
    assert tr.scopes[5] == Layout()[5];
    Locals5(t1, x);
    assert LocalsOf(tr, 5) == DeclaredBy(t1, x, 2, 5);
  }

  /** The parent and the locals of scope 6. */
  lemma {:induction false} Scope6(t1: string, x: string, tr: Tree)
    requires ScopesAre(tr, Layout())
    requires LocalsFit(t1, x, tr)
    ensures |tr.scopes| == 7
    ensures Parent(tr, 6) == Some(0)
    ensures LocalsOf(tr, 6) == [Local(x, Pos(14, 33))]
  {
    assert tr.scopes[6] == Layout()[6];
    Locals6(t1, x);
    assert LocalsOf(tr, 6) == DeclaredBy(t1, x, 2, 6);
  }

  /** The analysis of events 0 to 7, after the events before them. */
  lemma {:induction false} Analysed0(t1: string, x: string, tr: Tree, evs: seq<Event>, fs: seq<Fact>, rs: seq<Diag>)
    requires |tr.scopes| == 7
    requires Parent(tr, 0) == None
    requires Parent(tr, 3) == Some(0)
    requires Parent(tr, 4) == Some(3)
    requires Parent(tr, 5) == Some(0)
    requires Parent(tr, 6) == Some(0)
    requires LocalsOf(tr, 0) == []
    requires LocalsOf(tr, 3) == []
    requires LocalsOf(tr, 4) == [Local(t1, Pos(6, 13))]
    requires LocalsOf(tr, 5) == [Local(x, Pos(13, 26))]
    requires LocalsOf(tr, 6) == [Local(x, Pos(14, 33))]
    requires Analyse(tr, evs, []) == rs
    requires Replay(tr, evs, []) == fs
    requires !Assigned(fs, 4, t1, [])
    requires !Assigned(fs, 5, x, [])
    ensures Analyse(tr, evs + Chunk0(t1, x), []) == rs + ([] + [] + [] + [] + [] + [] + [] + [] + [])
    ensures Replay(tr, evs + Chunk0(t1, x), []) == fs + [Fact(4, t1, [])] + [Fact(5, x, [])] + [Fact(6, x, [])]
  {
    assert Analyse(tr, [], fs) == [] && Replay(tr, [], fs) == fs;
    Event0(t1, x, tr, fs);
    AnalyseSnoc(tr, [], Declared(4, t1, Pos(6, 13), Initialized, []), fs);
    assert Analyse(tr, [] + [Declared(4, t1, Pos(6, 13), Initialized, [])], fs) == [] + [];
    assert Replay(tr, [] + [Declared(4, t1, Pos(6, 13), Initialized, [])], fs) == fs + [Fact(4, t1, [])];
    AssignedSnoc(fs, Fact(4, t1, []), 4, t1, []);
    Event1(t1, x, tr, fs + [Fact(4, t1, [])]);
    AnalyseSnoc(tr, [] + [Declared(4, t1, Pos(6, 13), Initialized, [])], Referenced(4, t1, Pos(7, 61), false, false, []), fs);
    assert Analyse(tr, [] + [Declared(4, t1, Pos(6, 13), Initialized, [])] + [Referenced(4, t1, Pos(7, 61), false, false, [])], fs) == [] + [] + [];
    assert Replay(tr, [] + [Declared(4, t1, Pos(6, 13), Initialized, [])] + [Referenced(4, t1, Pos(7, 61), false, false, [])], fs) == fs + [Fact(4, t1, [])];
    AssignedSnoc(fs, Fact(4, t1, []), 4, t1, []);
    Event2(t1, x, tr, fs + [Fact(4, t1, [])]);
    AnalyseSnoc(tr, [] + [Declared(4, t1, Pos(6, 13), Initialized, [])] + [Referenced(4, t1, Pos(7, 61), false, false, [])], Referenced(4, t1, Pos(7, 68), false, false, []), fs);
    assert Analyse(tr, [] + [Declared(4, t1, Pos(6, 13), Initialized, [])] + [Referenced(4, t1, Pos(7, 61), false, false, [])] + [Referenced(4, t1, Pos(7, 68), false, false, [])], fs) == [] + [] + [] + [];
    assert Replay(tr, [] + [Declared(4, t1, Pos(6, 13), Initialized, [])] + [Referenced(4, t1, Pos(7, 61), false, false, [])] + [Referenced(4, t1, Pos(7, 68), false, false, [])], fs) == fs + [Fact(4, t1, [])];
    AssignedSnoc(fs, Fact(4, t1, []), 4, t1, []);
    Event3(t1, x, tr, fs + [Fact(4, t1, [])]);
    AnalyseSnoc(tr, [] + [Declared(4, t1, Pos(6, 13), Initialized, [])] + [Referenced(4, t1, Pos(7, 61), false, false, [])] + [Referenced(4, t1, Pos(7, 68), false, false, [])], Referenced(4, t1, Pos(7, 75), false, false, []), fs);
    assert Analyse(tr, [] + [Declared(4, t1, Pos(6, 13), Initialized, [])] + [Referenced(4, t1, Pos(7, 61), false, false, [])] + [Referenced(4, t1, Pos(7, 68), false, false, [])] + [Referenced(4, t1, Pos(7, 75), false, false, [])], fs) == [] + [] + [] + [] + [];
    assert Replay(tr, [] + [Declared(4, t1, Pos(6, 13), Initialized, [])] + [Referenced(4, t1, Pos(7, 61), false, false, [])] + [Referenced(4, t1, Pos(7, 68), false, false, [])] + [Referenced(4, t1, Pos(7, 75), false, false, [])], fs) == fs + [Fact(4, t1, [])];
    Event4(t1, x, tr, fs + [Fact(4, t1, [])]);
    AnalyseSnoc(tr, [] + [Declared(4, t1, Pos(6, 13), Initialized, [])] + [Referenced(4, t1, Pos(7, 61), false, false, [])] + [Referenced(4, t1, Pos(7, 68), false, false, [])] + [Referenced(4, t1, Pos(7, 75), false, false, [])], OutAssigned(4, [], []), fs);
    assert Analyse(tr, [] + [Declared(4, t1, Pos(6, 13), Initialized, [])] + [Referenced(4, t1, Pos(7, 61), false, false, [])] + [Referenced(4, t1, Pos(7, 68), false, false, [])] + [Referenced(4, t1, Pos(7, 75), false, false, [])] + [OutAssigned(4, [], [])], fs) == [] + [] + [] + [] + [] + [];
    assert Replay(tr, [] + [Declared(4, t1, Pos(6, 13), Initialized, [])] + [Referenced(4, t1, Pos(7, 61), false, false, [])] + [Referenced(4, t1, Pos(7, 68), false, false, [])] + [Referenced(4, t1, Pos(7, 75), false, false, [])] + [OutAssigned(4, [], [])], fs) == fs + [Fact(4, t1, [])];
    Event5(t1, x, tr, fs + [Fact(4, t1, [])]);
    AnalyseSnoc(tr, [] + [Declared(4, t1, Pos(6, 13), Initialized, [])] + [Referenced(4, t1, Pos(7, 61), false, false, [])] + [Referenced(4, t1, Pos(7, 68), false, false, [])] + [Referenced(4, t1, Pos(7, 75), false, false, [])] + [OutAssigned(4, [], [])], Declared(5, x, Pos(13, 26), Initialized, []), fs);
    assert Analyse(tr, [] + [Declared(4, t1, Pos(6, 13), Initialized, [])] + [Referenced(4, t1, Pos(7, 61), false, false, [])] + [Referenced(4, t1, Pos(7, 68), false, false, [])] + [Referenced(4, t1, Pos(7, 75), false, false, [])] + [OutAssigned(4, [], [])] + [Declared(5, x, Pos(13, 26), Initialized, [])], fs) == [] + [] + [] + [] + [] + [] + [];
    assert Replay(tr, [] + [Declared(4, t1, Pos(6, 13), Initialized, [])] + [Referenced(4, t1, Pos(7, 61), false, false, [])] + [Referenced(4, t1, Pos(7, 68), false, false, [])] + [Referenced(4, t1, Pos(7, 75), false, false, [])] + [OutAssigned(4, [], [])] + [Declared(5, x, Pos(13, 26), Initialized, [])], fs) == fs + [Fact(4, t1, [])] + [Fact(5, x, [])];
    Event6(t1, x, tr, fs + [Fact(4, t1, [])] + [Fact(5, x, [])]);
    AnalyseSnoc(tr, [] + [Declared(4, t1, Pos(6, 13), Initialized, [])] + [Referenced(4, t1, Pos(7, 61), false, false, [])] + [Referenced(4, t1, Pos(7, 68), false, false, [])] + [Referenced(4, t1, Pos(7, 75), false, false, [])] + [OutAssigned(4, [], [])] + [Declared(5, x, Pos(13, 26), Initialized, [])], Declared(6, x, Pos(14, 33), Initialized, []), fs);
    assert Analyse(tr, [] + [Declared(4, t1, Pos(6, 13), Initialized, [])] + [Referenced(4, t1, Pos(7, 61), false, false, [])] + [Referenced(4, t1, Pos(7, 68), false, false, [])] + [Referenced(4, t1, Pos(7, 75), false, false, [])] + [OutAssigned(4, [], [])] + [Declared(5, x, Pos(13, 26), Initialized, [])] + [Declared(6, x, Pos(14, 33), Initialized, [])], fs) == [] + [] + [] + [] + [] + [] + [] + [];
    assert Replay(tr, [] + [Declared(4, t1, Pos(6, 13), Initialized, [])] + [Referenced(4, t1, Pos(7, 61), false, false, [])] + [Referenced(4, t1, Pos(7, 68), false, false, [])] + [Referenced(4, t1, Pos(7, 75), false, false, [])] + [OutAssigned(4, [], [])] + [Declared(5, x, Pos(13, 26), Initialized, [])] + [Declared(6, x, Pos(14, 33), Initialized, [])], fs) == fs + [Fact(4, t1, [])] + [Fact(5, x, [])] + [Fact(6, x, [])];
    AssignedSnoc(fs, Fact(4, t1, []), 5, x, []);
    AssignedSnoc(fs + [Fact(4, t1, [])], Fact(5, x, []), 5, x, []);
    AssignedSnoc(fs + [Fact(4, t1, [])] + [Fact(5, x, [])], Fact(6, x, []), 5, x, []);
    Event7(t1, x, tr, fs + [Fact(4, t1, [])] + [Fact(5, x, [])] + [Fact(6, x, [])]);
    AnalyseSnoc(tr, [] + [Declared(4, t1, Pos(6, 13), Initialized, [])] + [Referenced(4, t1, Pos(7, 61), false, false, [])] + [Referenced(4, t1, Pos(7, 68), false, false, [])] + [Referenced(4, t1, Pos(7, 75), false, false, [])] + [OutAssigned(4, [], [])] + [Declared(5, x, Pos(13, 26), Initialized, [])] + [Declared(6, x, Pos(14, 33), Initialized, [])], Referenced(5, x, Pos(15, 23), false, false, []), fs);
    AnalyseSplit(tr, evs, Chunk0(t1, x), []);
  }

  /** The analysis of events 8 to 10, after the events before them. */
  lemma {:induction false} Analysed1(t1: string, x: string, tr: Tree, evs: seq<Event>, fs: seq<Fact>, rs: seq<Diag>)
    requires |tr.scopes| == 7
    requires Parent(tr, 5) == Some(0)
    requires Parent(tr, 6) == Some(0)
    requires LocalsOf(tr, 5) == [Local(x, Pos(13, 26))]
    requires LocalsOf(tr, 6) == [Local(x, Pos(14, 33))]
    requires Analyse(tr, evs, []) == rs
    requires Replay(tr, evs, []) == fs
    requires Assigned(fs, 6, x, [])
    requires Assigned(fs, 5, x, [])
    ensures Analyse(tr, evs + Chunk1(t1, x), []) == rs + ([] + [] + [] + [])
    ensures Replay(tr, evs + Chunk1(t1, x), []) == fs
  {
    assert Analyse(tr, [], fs) == [] && Replay(tr, [], fs) == fs;
    Event8(t1, x, tr, fs);
    AnalyseSnoc(tr, [], Referenced(6, x, Pos(16, 30), false, false, []), fs);
    assert Analyse(tr, [] + [Referenced(6, x, Pos(16, 30), false, false, [])], fs) == [] + [];
    assert Replay(tr, [] + [Referenced(6, x, Pos(16, 30), false, false, [])], fs) == fs;
    Event9(t1, x, tr, fs);
    AnalyseSnoc(tr, [] + [Referenced(6, x, Pos(16, 30), false, false, [])], Referenced(5, x, Pos(17, 21), false, false, []), fs);
    assert Analyse(tr, [] + [Referenced(6, x, Pos(16, 30), false, false, [])] + [Referenced(5, x, Pos(17, 21), false, false, [])], fs) == [] + [] + [];
    assert Replay(tr, [] + [Referenced(6, x, Pos(16, 30), false, false, [])] + [Referenced(5, x, Pos(17, 21), false, false, [])], fs) == fs;
    Event10(t1, x, tr, fs);
    AnalyseSnoc(tr, [] + [Referenced(6, x, Pos(16, 30), false, false, [])] + [Referenced(5, x, Pos(17, 21), false, false, [])], Referenced(6, x, Pos(18, 28), false, false, []), fs);
    AnalyseSplit(tr, evs, Chunk1(t1, x), []);
  }

  lemma {:induction false} Glue0(t1: string, x: string, rs: seq<Diag>)
    requires rs == []
    ensures rs + ([] + [] + [] + [] + [] + [] + [] + [] + []) == []
  {
  }

  lemma {:induction false} Glue1(t1: string, x: string, rs: seq<Diag>)
    requires rs == []
    ensures rs + ([] + [] + [] + []) == []
  {
  }

  /** The analysis of events 0 to 10, after the events before them. */
  lemma {:induction false} Stage0(t1: string, x: string, tr: Tree, evs: seq<Event>)
    requires ScopesAre(tr, Layout())
    requires LocalsFit(t1, x, tr)
    requires Analyse(tr, evs, []) == []
    requires Replay(tr, evs, []) == []
    ensures Analyse(tr, evs + Chunk0(t1, x) + Chunk1(t1, x), []) == []
    ensures Replay(tr, evs + Chunk0(t1, x) + Chunk1(t1, x), []) == Known0(t1, x)
  {
    assert !Assigned([], 4, t1, []);
    assert !Assigned([], 5, x, []);
    Scope0(t1, x, tr);
    Scope3(t1, x, tr);
    Scope4(t1, x, tr);
    Scope5(t1, x, tr);
    Scope6(t1, x, tr);
    Analysed0(t1, x, tr, evs, [], []);
    Glue0(t1, x, []);
    Read0(t1, x);
    Read1(t1, x);
    Analysed1(t1, x, tr, evs + Chunk0(t1, x), Known0(t1, x), []);
    Glue1(t1, x, []);
  }

  /** The analysis of a tree with the test's scopes and events. */
  lemma {:induction false} Result(t1: string, x: string, tr: Tree)
    requires ScopesAre(tr, Layout()) && LocalsFit(t1, x, tr) && tr.events == Trace(t1, x)
    ensures Analyse(tr, tr.events, []) == []
  {
    assert Analyse(tr, [], []) == [] && Replay(tr, [], []) == [];
    Stage0(t1, x, tr, []);
  }

  /** The diagnostics the test expects, in the order the analysis reports them. */
  lemma {:induction false} Outcome(t1: string, x: string)
    ensures Check(Program(t1, x)) == []
  {
    Walked(t1, x);
    LocalsAll(t1, x, Build(Program(t1, x)));
    Result(t1, x, Build(Program(t1, x)));
  }
}

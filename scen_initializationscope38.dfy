/**
 * The test InitializationScope_38 (DeclarationExpressionsTests.cs, lines 7483 to 7516).
 *
 * Its program, with its local names left as parameters, is walked into a scope tree and
 * analysed; Outcome states the exact list of diagnostics Check reports, for any names that
 * differ where the outcome depends on it.
 */
module ScenInitializationScope38 {
  import opened Syntax
  import opened Scopes
  import opened Binding
  import opened Reporting
  import opened Frames
  import opened Units
  import opened Traces

  /** The program of the test, its names left as parameters. */
  function Program(a: string, b: string): seq<Fragment> {
    [Fragment(None, [Method([], [])])] + ([Fragment(None, [Constructor(None, [])])] + ([Fragment(None, [Constructor(Some([Declare(a, Pos(17, 14), Initialized)] + ([Declare(b, Pos(18, 14), Initialized)])), [Exprs([Call([Argument([Use(a, Pos(20, 34), false)])])])] + ([Exprs([Call([Argument([Declare(b, Pos(21, 38), Initialized)])])])]))])]))
  }

  /** Scopes 0 to 7, in the order the walk opens them. */
  function Layout0(): seq<Scope> {
    [Scope(Unit, None),
     Scope(InstanceInitializers, Some(0)),
     Scope(StaticInitializers, Some(0)),
     Scope(MethodBody, Some(0)),
     Scope(BlockBody, Some(3)),
     Scope(InstanceInitializers, Some(0)),
     Scope(StaticInitializers, Some(0)),
     Scope(BlockBody, Some(0))]
  }

  /** Scopes 8 to 11, in the order the walk opens them. */
  function Layout1(): seq<Scope> {
    [Scope(InstanceInitializers, Some(0)),
     Scope(StaticInitializers, Some(0)),
     Scope(ConstructorInitializer, Some(0)),
     Scope(BlockBody, Some(10))]
  }

  /** Its scopes, in the order the walk opens them. */
  function Layout(): seq<Scope> {
    Layout0() + Layout1()
  }

  lemma {:induction false} LayoutJoin0()
    ensures [Scope(Unit, None)] + [Scope(InstanceInitializers, Some(0))] + [Scope(StaticInitializers, Some(0))] + [Scope(MethodBody, Some(0))] + [Scope(BlockBody, Some(3))] + [Scope(InstanceInitializers, Some(0))] + [Scope(StaticInitializers, Some(0))] + [Scope(BlockBody, Some(0))] == Layout0()
  {
  }

  lemma {:induction false} LayoutJoin1(pre: seq<Scope>)
    ensures pre + Layout1() == pre + [Scope(InstanceInitializers, Some(0))] + [Scope(StaticInitializers, Some(0))] + [Scope(ConstructorInitializer, Some(0))] + [Scope(BlockBody, Some(10))]
  {
  }

  /** The layout, scope by scope. */
  lemma {:induction false} LayoutFlat()
    ensures [Scope(Unit, None)] + [Scope(InstanceInitializers, Some(0))] + [Scope(StaticInitializers, Some(0))] + [Scope(MethodBody, Some(0))] + [Scope(BlockBody, Some(3))] + [Scope(InstanceInitializers, Some(0))] + [Scope(StaticInitializers, Some(0))] + [Scope(BlockBody, Some(0))] + [Scope(InstanceInitializers, Some(0))] + [Scope(StaticInitializers, Some(0))] + [Scope(ConstructorInitializer, Some(0))] + [Scope(BlockBody, Some(10))] == Layout()
  {
    LayoutJoin0();
    LayoutJoin1(Layout0());
  }

  /** Events 0 to 5 of the test, in evaluation order. */
  function Chunk0(a: string, b: string): seq<Event> {
    []
      + [Declared(10, a, Pos(17, 14), Initialized, [])]
      + [Declared(10, b, Pos(18, 14), Initialized, [])]
      + [Referenced(11, a, Pos(20, 34), false, false, [])]
      + [OutAssigned(11, [], [])]
      + [Declared(11, b, Pos(21, 38), Initialized, [])]
      + [OutAssigned(11, [], [])]
  }

  /** The events of the test, in evaluation order. */
  function Trace(a: string, b: string): seq<Event> {
    []
      + Chunk0(a, b)
  }

  lemma {:induction false} Member2(a: string, b: string, tr: Tree)
    requires |tr.scopes| == 3 && tr.arms == 0
    ensures WalkMember(Method([], []), 1, tr) == Tree(tr.scopes + [Scope(MethodBody, Some(0))] + [Scope(BlockBody, Some(3))], tr.events, 0)
  {
    assert WalkMember(Method([], []), 1, tr) == Tree(tr.scopes + [Scope(MethodBody, Some(0))] + [Scope(BlockBody, Some(3))], tr.events, 0);
  }

  lemma {:induction false} Fragment1(a: string, b: string, tr: Tree)
    requires |tr.scopes| == 1 && tr.arms == 0
    ensures WalkFragment(Fragment(None, [Method([], [])]), tr) == Tree(tr.scopes + [Scope(InstanceInitializers, Some(0))] + [Scope(StaticInitializers, Some(0))] + [Scope(MethodBody, Some(0))] + [Scope(BlockBody, Some(3))], tr.events, 0)
  {
    WalkMembersOne(Method([], []), 1, Tree(tr.scopes + [Scope(InstanceInitializers, Some(0))] + [Scope(StaticInitializers, Some(0))], tr.events, 0));
    Member2(a, b, Tree(tr.scopes + [Scope(InstanceInitializers, Some(0))] + [Scope(StaticInitializers, Some(0))], tr.events, 0));
    assert WalkMembers([Method([], [])], 1, Tree(tr.scopes + [Scope(InstanceInitializers, Some(0))] + [Scope(StaticInitializers, Some(0))], tr.events, 0)) == Tree(tr.scopes + [Scope(InstanceInitializers, Some(0))] + [Scope(StaticInitializers, Some(0))] + [Scope(MethodBody, Some(0))] + [Scope(BlockBody, Some(3))], tr.events, 0);
    assert WalkFragment(Fragment(None, [Method([], [])]), tr) == Tree(tr.scopes + [Scope(InstanceInitializers, Some(0))] + [Scope(StaticInitializers, Some(0))] + [Scope(MethodBody, Some(0))] + [Scope(BlockBody, Some(3))], tr.events, 0);
  }

  lemma {:induction false} Member4(a: string, b: string, tr: Tree)
    requires |tr.scopes| == 7 && tr.arms == 0
    ensures WalkMember(Constructor(None, []), 5, tr) == Tree(tr.scopes + [Scope(BlockBody, Some(0))], tr.events, 0)
  {
    assert WalkMember(Constructor(None, []), 5, tr) == Tree(tr.scopes + [Scope(BlockBody, Some(0))], tr.events, 0);
  }

  lemma {:induction false} Fragment3(a: string, b: string, tr: Tree)
    requires |tr.scopes| == 5 && tr.arms == 0
    ensures WalkFragment(Fragment(None, [Constructor(None, [])]), tr) == Tree(tr.scopes + [Scope(InstanceInitializers, Some(0))] + [Scope(StaticInitializers, Some(0))] + [Scope(BlockBody, Some(0))], tr.events, 0)
  {
    WalkMembersOne(Constructor(None, []), 5, Tree(tr.scopes + [Scope(InstanceInitializers, Some(0))] + [Scope(StaticInitializers, Some(0))], tr.events, 0));
    Member4(a, b, Tree(tr.scopes + [Scope(InstanceInitializers, Some(0))] + [Scope(StaticInitializers, Some(0))], tr.events, 0));
    assert WalkMembers([Constructor(None, [])], 5, Tree(tr.scopes + [Scope(InstanceInitializers, Some(0))] + [Scope(StaticInitializers, Some(0))], tr.events, 0)) == Tree(tr.scopes + [Scope(InstanceInitializers, Some(0))] + [Scope(StaticInitializers, Some(0))] + [Scope(BlockBody, Some(0))], tr.events, 0);
    assert WalkFragment(Fragment(None, [Constructor(None, [])]), tr) == Tree(tr.scopes + [Scope(InstanceInitializers, Some(0))] + [Scope(StaticInitializers, Some(0))] + [Scope(BlockBody, Some(0))], tr.events, 0);
  }

  lemma {:induction false} Walk7(a: string, b: string, tr: Tree)
    requires |tr.scopes| == 12 && tr.arms == 0
    ensures WalkStmt(Exprs([Call([Argument([Use(a, Pos(20, 34), false)])])]), Ctx(11, [], []), tr) == Tree(tr.scopes, tr.events + [Referenced(11, a, Pos(20, 34), false, false, [])] + [OutAssigned(11, [], [])], 0)
  {
    WalkExprsOne(Call([Argument([Use(a, Pos(20, 34), false)])]), Ctx(11, [], []), tr);
    assert OutNames([]) == [];
    WalkArgsOne(Argument([Use(a, Pos(20, 34), false)]), [], Ctx(11, [], []), tr);
    WalkExprsOne(Use(a, Pos(20, 34), false), Ctx(11, [], []), tr);
    assert WalkExpr(Use(a, Pos(20, 34), false), Ctx(11, [], []), tr) == Tree(tr.scopes, tr.events + [Referenced(11, a, Pos(20, 34), false, false, [])], 0);
    assert WalkExprs([Use(a, Pos(20, 34), false)], Ctx(11, [], []), tr) == Tree(tr.scopes, tr.events + [Referenced(11, a, Pos(20, 34), false, false, [])], 0);
    OutNamesOfOne(Use(a, Pos(20, 34), false));
    OutNamesSnoc([], Argument([Use(a, Pos(20, 34), false)]));
    assert WalkArgs([Argument([Use(a, Pos(20, 34), false)])], [], Ctx(11, [], []), tr) == Tree(tr.scopes, tr.events + [Referenced(11, a, Pos(20, 34), false, false, [])], 0);
    assert OutNames([Argument([Use(a, Pos(20, 34), false)])]) == [];
    assert WalkExpr(Call([Argument([Use(a, Pos(20, 34), false)])]), Ctx(11, [], []), tr) == Tree(tr.scopes, tr.events + [Referenced(11, a, Pos(20, 34), false, false, [])] + [OutAssigned(11, [], [])], 0);
    assert WalkExprs([Call([Argument([Use(a, Pos(20, 34), false)])])], Ctx(11, [], []), tr) == Tree(tr.scopes, tr.events + [Referenced(11, a, Pos(20, 34), false, false, [])] + [OutAssigned(11, [], [])], 0);
    assert WalkStmt(Exprs([Call([Argument([Use(a, Pos(20, 34), false)])])]), Ctx(11, [], []), tr) == Tree(tr.scopes, tr.events + [Referenced(11, a, Pos(20, 34), false, false, [])] + [OutAssigned(11, [], [])], 0);
  }

  lemma {:induction false} Walk8(a: string, b: string, tr: Tree)
    requires |tr.scopes| == 12 && tr.arms == 0
    ensures WalkStmt(Exprs([Call([Argument([Declare(b, Pos(21, 38), Initialized)])])]), Ctx(11, [], []), tr) == Tree(tr.scopes, tr.events + [Declared(11, b, Pos(21, 38), Initialized, [])] + [OutAssigned(11, [], [])], 0)
  {
    WalkExprsOne(Call([Argument([Declare(b, Pos(21, 38), Initialized)])]), Ctx(11, [], []), tr);
    assert OutNames([]) == [];
    WalkArgsOne(Argument([Declare(b, Pos(21, 38), Initialized)]), [], Ctx(11, [], []), tr);
    WalkExprsOne(Declare(b, Pos(21, 38), Initialized), Ctx(11, [], []), tr);
    assert WalkExpr(Declare(b, Pos(21, 38), Initialized), Ctx(11, [], []), tr) == Tree(tr.scopes, tr.events + [Declared(11, b, Pos(21, 38), Initialized, [])], 0);
    assert WalkExprs([Declare(b, Pos(21, 38), Initialized)], Ctx(11, [], []), tr) == Tree(tr.scopes, tr.events + [Declared(11, b, Pos(21, 38), Initialized, [])], 0);
    OutNamesOfOne(Declare(b, Pos(21, 38), Initialized));
    OutNamesSnoc([], Argument([Declare(b, Pos(21, 38), Initialized)]));
    assert WalkArgs([Argument([Declare(b, Pos(21, 38), Initialized)])], [], Ctx(11, [], []), tr) == Tree(tr.scopes, tr.events + [Declared(11, b, Pos(21, 38), Initialized, [])], 0);
    assert OutNames([Argument([Declare(b, Pos(21, 38), Initialized)])]) == [];
    assert WalkExpr(Call([Argument([Declare(b, Pos(21, 38), Initialized)])]), Ctx(11, [], []), tr) == Tree(tr.scopes, tr.events + [Declared(11, b, Pos(21, 38), Initialized, [])] + [OutAssigned(11, [], [])], 0);
    assert WalkExprs([Call([Argument([Declare(b, Pos(21, 38), Initialized)])])], Ctx(11, [], []), tr) == Tree(tr.scopes, tr.events + [Declared(11, b, Pos(21, 38), Initialized, [])] + [OutAssigned(11, [], [])], 0);
    assert WalkStmt(Exprs([Call([Argument([Declare(b, Pos(21, 38), Initialized)])])]), Ctx(11, [], []), tr) == Tree(tr.scopes, tr.events + [Declared(11, b, Pos(21, 38), Initialized, [])] + [OutAssigned(11, [], [])], 0);
  }

  lemma {:induction false} Member6(a: string, b: string, tr: Tree)
    requires |tr.scopes| == 10 && tr.arms == 0
    ensures WalkMember(Constructor(Some([Declare(a, Pos(17, 14), Initialized)] + ([Declare(b, Pos(18, 14), Initialized)])), [Exprs([Call([Argument([Use(a, Pos(20, 34), false)])])])] + ([Exprs([Call([Argument([Declare(b, Pos(21, 38), Initialized)])])])])), 8, tr) == Tree(tr.scopes + [Scope(ConstructorInitializer, Some(0))] + [Scope(BlockBody, Some(10))], tr.events + [Declared(10, a, Pos(17, 14), Initialized, [])] + [Declared(10, b, Pos(18, 14), Initialized, [])] + [Referenced(11, a, Pos(20, 34), false, false, [])] + [OutAssigned(11, [], [])] + [Declared(11, b, Pos(21, 38), Initialized, [])] + [OutAssigned(11, [], [])], 0)
  {
    WalkExprsCons(Declare(a, Pos(17, 14), Initialized), [Declare(b, Pos(18, 14), Initialized)], Ctx(10, [], []), Tree(tr.scopes + [Scope(ConstructorInitializer, Some(0))], tr.events, 0));
    assert WalkExpr(Declare(a, Pos(17, 14), Initialized), Ctx(10, [], []), Tree(tr.scopes + [Scope(ConstructorInitializer, Some(0))], tr.events, 0)) == Tree(tr.scopes + [Scope(ConstructorInitializer, Some(0))], tr.events + [Declared(10, a, Pos(17, 14), Initialized, [])], 0);
    WalkExprsOne(Declare(b, Pos(18, 14), Initialized), Ctx(10, [], []), Tree(tr.scopes + [Scope(ConstructorInitializer, Some(0))], tr.events + [Declared(10, a, Pos(17, 14), Initialized, [])], 0));
    assert WalkExpr(Declare(b, Pos(18, 14), Initialized), Ctx(10, [], []), Tree(tr.scopes + [Scope(ConstructorInitializer, Some(0))], tr.events + [Declared(10, a, Pos(17, 14), Initialized, [])], 0)) == Tree(tr.scopes + [Scope(ConstructorInitializer, Some(0))], tr.events + [Declared(10, a, Pos(17, 14), Initialized, [])] + [Declared(10, b, Pos(18, 14), Initialized, [])], 0);
    assert WalkExprs([Declare(a, Pos(17, 14), Initialized)] + ([Declare(b, Pos(18, 14), Initialized)]), Ctx(10, [], []), Tree(tr.scopes + [Scope(ConstructorInitializer, Some(0))], tr.events, 0)) == Tree(tr.scopes + [Scope(ConstructorInitializer, Some(0))], tr.events + [Declared(10, a, Pos(17, 14), Initialized, [])] + [Declared(10, b, Pos(18, 14), Initialized, [])], 0);
    WalkStmtsCons(Exprs([Call([Argument([Use(a, Pos(20, 34), false)])])]), [Exprs([Call([Argument([Declare(b, Pos(21, 38), Initialized)])])])], Ctx(11, [], []), Tree(tr.scopes + [Scope(ConstructorInitializer, Some(0))] + [Scope(BlockBody, Some(10))], tr.events + [Declared(10, a, Pos(17, 14), Initialized, [])] + [Declared(10, b, Pos(18, 14), Initialized, [])], 0));
    Walk7(a, b, Tree(tr.scopes + [Scope(ConstructorInitializer, Some(0))] + [Scope(BlockBody, Some(10))], tr.events + [Declared(10, a, Pos(17, 14), Initialized, [])] + [Declared(10, b, Pos(18, 14), Initialized, [])], 0));
    assert WalkStmt(Exprs([Call([Argument([Use(a, Pos(20, 34), false)])])]), Ctx(11, [], []), Tree(tr.scopes + [Scope(ConstructorInitializer, Some(0))] + [Scope(BlockBody, Some(10))], tr.events + [Declared(10, a, Pos(17, 14), Initialized, [])] + [Declared(10, b, Pos(18, 14), Initialized, [])], 0)) == Tree(tr.scopes + [Scope(ConstructorInitializer, Some(0))] + [Scope(BlockBody, Some(10))], tr.events + [Declared(10, a, Pos(17, 14), Initialized, [])] + [Declared(10, b, Pos(18, 14), Initialized, [])] + [Referenced(11, a, Pos(20, 34), false, false, [])] + [OutAssigned(11, [], [])], 0);
    WalkStmtsOne(Exprs([Call([Argument([Declare(b, Pos(21, 38), Initialized)])])]), Ctx(11, [], []), Tree(tr.scopes + [Scope(ConstructorInitializer, Some(0))] + [Scope(BlockBody, Some(10))], tr.events + [Declared(10, a, Pos(17, 14), Initialized, [])] + [Declared(10, b, Pos(18, 14), Initialized, [])] + [Referenced(11, a, Pos(20, 34), false, false, [])] + [OutAssigned(11, [], [])], 0));
    Walk8(a, b, Tree(tr.scopes + [Scope(ConstructorInitializer, Some(0))] + [Scope(BlockBody, Some(10))], tr.events + [Declared(10, a, Pos(17, 14), Initialized, [])] + [Declared(10, b, Pos(18, 14), Initialized, [])] + [Referenced(11, a, Pos(20, 34), false, false, [])] + [OutAssigned(11, [], [])], 0));
    assert WalkStmt(Exprs([Call([Argument([Declare(b, Pos(21, 38), Initialized)])])]), Ctx(11, [], []), Tree(tr.scopes + [Scope(ConstructorInitializer, Some(0))] + [Scope(BlockBody, Some(10))], tr.events + [Declared(10, a, Pos(17, 14), Initialized, [])] + [Declared(10, b, Pos(18, 14), Initialized, [])] + [Referenced(11, a, Pos(20, 34), false, false, [])] + [OutAssigned(11, [], [])], 0)) == Tree(tr.scopes + [Scope(ConstructorInitializer, Some(0))] + [Scope(BlockBody, Some(10))], tr.events + [Declared(10, a, Pos(17, 14), Initialized, [])] + [Declared(10, b, Pos(18, 14), Initialized, [])] + [Referenced(11, a, Pos(20, 34), false, false, [])] + [OutAssigned(11, [], [])] + [Declared(11, b, Pos(21, 38), Initialized, [])] + [OutAssigned(11, [], [])], 0);
    assert WalkMember(Constructor(Some([Declare(a, Pos(17, 14), Initialized)] + ([Declare(b, Pos(18, 14), Initialized)])), [Exprs([Call([Argument([Use(a, Pos(20, 34), false)])])])] + ([Exprs([Call([Argument([Declare(b, Pos(21, 38), Initialized)])])])])), 8, tr) == Tree(tr.scopes + [Scope(ConstructorInitializer, Some(0))] + [Scope(BlockBody, Some(10))], tr.events + [Declared(10, a, Pos(17, 14), Initialized, [])] + [Declared(10, b, Pos(18, 14), Initialized, [])] + [Referenced(11, a, Pos(20, 34), false, false, [])] + [OutAssigned(11, [], [])] + [Declared(11, b, Pos(21, 38), Initialized, [])] + [OutAssigned(11, [], [])], 0);
  }

  lemma {:induction false} Fragment5(a: string, b: string, tr: Tree)
    requires |tr.scopes| == 8 && tr.arms == 0
    ensures WalkFragment(Fragment(None, [Constructor(Some([Declare(a, Pos(17, 14), Initialized)] + ([Declare(b, Pos(18, 14), Initialized)])), [Exprs([Call([Argument([Use(a, Pos(20, 34), false)])])])] + ([Exprs([Call([Argument([Declare(b, Pos(21, 38), Initialized)])])])]))]), tr) == Tree(tr.scopes + [Scope(InstanceInitializers, Some(0))] + [Scope(StaticInitializers, Some(0))] + [Scope(ConstructorInitializer, Some(0))] + [Scope(BlockBody, Some(10))], tr.events + [Declared(10, a, Pos(17, 14), Initialized, [])] + [Declared(10, b, Pos(18, 14), Initialized, [])] + [Referenced(11, a, Pos(20, 34), false, false, [])] + [OutAssigned(11, [], [])] + [Declared(11, b, Pos(21, 38), Initialized, [])] + [OutAssigned(11, [], [])], 0)
  {
    WalkMembersOne(Constructor(Some([Declare(a, Pos(17, 14), Initialized)] + ([Declare(b, Pos(18, 14), Initialized)])), [Exprs([Call([Argument([Use(a, Pos(20, 34), false)])])])] + ([Exprs([Call([Argument([Declare(b, Pos(21, 38), Initialized)])])])])), 8, Tree(tr.scopes + [Scope(InstanceInitializers, Some(0))] + [Scope(StaticInitializers, Some(0))], tr.events, 0));
    Member6(a, b, Tree(tr.scopes + [Scope(InstanceInitializers, Some(0))] + [Scope(StaticInitializers, Some(0))], tr.events, 0));
    assert WalkMembers([Constructor(Some([Declare(a, Pos(17, 14), Initialized)] + ([Declare(b, Pos(18, 14), Initialized)])), [Exprs([Call([Argument([Use(a, Pos(20, 34), false)])])])] + ([Exprs([Call([Argument([Declare(b, Pos(21, 38), Initialized)])])])]))], 8, Tree(tr.scopes + [Scope(InstanceInitializers, Some(0))] + [Scope(StaticInitializers, Some(0))], tr.events, 0)) == Tree(tr.scopes + [Scope(InstanceInitializers, Some(0))] + [Scope(StaticInitializers, Some(0))] + [Scope(ConstructorInitializer, Some(0))] + [Scope(BlockBody, Some(10))], tr.events + [Declared(10, a, Pos(17, 14), Initialized, [])] + [Declared(10, b, Pos(18, 14), Initialized, [])] + [Referenced(11, a, Pos(20, 34), false, false, [])] + [OutAssigned(11, [], [])] + [Declared(11, b, Pos(21, 38), Initialized, [])] + [OutAssigned(11, [], [])], 0);
    assert WalkFragment(Fragment(None, [Constructor(Some([Declare(a, Pos(17, 14), Initialized)] + ([Declare(b, Pos(18, 14), Initialized)])), [Exprs([Call([Argument([Use(a, Pos(20, 34), false)])])])] + ([Exprs([Call([Argument([Declare(b, Pos(21, 38), Initialized)])])])]))]), tr) == Tree(tr.scopes + [Scope(InstanceInitializers, Some(0))] + [Scope(StaticInitializers, Some(0))] + [Scope(ConstructorInitializer, Some(0))] + [Scope(BlockBody, Some(10))], tr.events + [Declared(10, a, Pos(17, 14), Initialized, [])] + [Declared(10, b, Pos(18, 14), Initialized, [])] + [Referenced(11, a, Pos(20, 34), false, false, [])] + [OutAssigned(11, [], [])] + [Declared(11, b, Pos(21, 38), Initialized, [])] + [OutAssigned(11, [], [])], 0);
  }

  lemma {:induction false} Join0(a: string, b: string, evs: seq<Event>)
    ensures evs + Chunk0(a, b) == evs + [Declared(10, a, Pos(17, 14), Initialized, [])] + [Declared(10, b, Pos(18, 14), Initialized, [])] + [Referenced(11, a, Pos(20, 34), false, false, [])] + [OutAssigned(11, [], [])] + [Declared(11, b, Pos(21, 38), Initialized, [])] + [OutAssigned(11, [], [])]
  {
  }

  /** The trace, event by event. */
  lemma {:induction false} Flat(a: string, b: string)
    ensures [] + [Declared(10, a, Pos(17, 14), Initialized, [])] + [Declared(10, b, Pos(18, 14), Initialized, [])] + [Referenced(11, a, Pos(20, 34), false, false, [])] + [OutAssigned(11, [], [])] + [Declared(11, b, Pos(21, 38), Initialized, [])] + [OutAssigned(11, [], [])] == Trace(a, b)
  {
    Join0(a, b, []);
  }

  lemma {:induction false} Walked(a: string, b: string)
    ensures Build(Program(a, b)) == Tree(Layout(), Trace(a, b), 0)
  {
    WalkFragmentsCons(Fragment(None, [Method([], [])]), [Fragment(None, [Constructor(None, [])])] + ([Fragment(None, [Constructor(Some([Declare(a, Pos(17, 14), Initialized)] + ([Declare(b, Pos(18, 14), Initialized)])), [Exprs([Call([Argument([Use(a, Pos(20, 34), false)])])])] + ([Exprs([Call([Argument([Declare(b, Pos(21, 38), Initialized)])])])]))])]), Tree([Scope(Unit, None)], [], 0));
    Fragment1(a, b, Tree([Scope(Unit, None)], [], 0));
    WalkFragmentsCons(Fragment(None, [Constructor(None, [])]), [Fragment(None, [Constructor(Some([Declare(a, Pos(17, 14), Initialized)] + ([Declare(b, Pos(18, 14), Initialized)])), [Exprs([Call([Argument([Use(a, Pos(20, 34), false)])])])] + ([Exprs([Call([Argument([Declare(b, Pos(21, 38), Initialized)])])])]))])], Tree([Scope(Unit, None)] + [Scope(InstanceInitializers, Some(0))] + [Scope(StaticInitializers, Some(0))] + [Scope(MethodBody, Some(0))] + [Scope(BlockBody, Some(3))], [], 0));
    Fragment3(a, b, Tree([Scope(Unit, None)] + [Scope(InstanceInitializers, Some(0))] + [Scope(StaticInitializers, Some(0))] + [Scope(MethodBody, Some(0))] + [Scope(BlockBody, Some(3))], [], 0));
    WalkFragmentsOne(Fragment(None, [Constructor(Some([Declare(a, Pos(17, 14), Initialized)] + ([Declare(b, Pos(18, 14), Initialized)])), [Exprs([Call([Argument([Use(a, Pos(20, 34), false)])])])] + ([Exprs([Call([Argument([Declare(b, Pos(21, 38), Initialized)])])])]))]), Tree([Scope(Unit, None)] + [Scope(InstanceInitializers, Some(0))] + [Scope(StaticInitializers, Some(0))] + [Scope(MethodBody, Some(0))] + [Scope(BlockBody, Some(3))] + [Scope(InstanceInitializers, Some(0))] + [Scope(StaticInitializers, Some(0))] + [Scope(BlockBody, Some(0))], [], 0));
    Fragment5(a, b, Tree([Scope(Unit, None)] + [Scope(InstanceInitializers, Some(0))] + [Scope(StaticInitializers, Some(0))] + [Scope(MethodBody, Some(0))] + [Scope(BlockBody, Some(3))] + [Scope(InstanceInitializers, Some(0))] + [Scope(StaticInitializers, Some(0))] + [Scope(BlockBody, Some(0))], [], 0));
    LayoutFlat();
    Flat(a, b);
  }

  /** The locals events of chunk `ck` declare in scope `sc`, in order. */
  function NewIn(a: string, b: string, ck: nat, sc: nat): seq<Local> {
    if ck == 0 then
      if sc == 10 then [] + [Local(a, Pos(17, 14))] + [Local(b, Pos(18, 14))]
      else if sc == 11 then [] + [Local(b, Pos(21, 38))]
      else []
    else []
  }

  /** The locals the first `ck` chunks declare in scope `sc`, in order. */
  function DeclaredBy(a: string, b: string, ck: nat, sc: nat): seq<Local>
    decreases ck
  {
    if ck == 0 then [] else DeclaredBy(a, b, ck - 1, sc) + NewIn(a, b, ck - 1, sc)
  }

  /** The locals declared once events 0 to 5 follow some events. */
  lemma {:induction false} Decls0(a: string, b: string, evs: seq<Event>, sc: nat)
    requires DeclsIn(evs, sc) == DeclaredBy(a, b, 0, sc)
    ensures DeclsIn(evs + Chunk0(a, b), sc) == DeclaredBy(a, b, 1, sc)
  {
    DeclsInAppend(evs, Chunk0(a, b), sc);
    assert DeclsIn([], sc) == [];
    if sc == 10 {
      DeclsInAdd([], Declared(10, a, Pos(17, 14), Initialized, []), 10);
      DeclsInAdd([] + [Declared(10, a, Pos(17, 14), Initialized, [])], Declared(10, b, Pos(18, 14), Initialized, []), 10);
      DeclsInSkip([] + [Declared(10, a, Pos(17, 14), Initialized, [])] + [Declared(10, b, Pos(18, 14), Initialized, [])], Referenced(11, a, Pos(20, 34), false, false, []), 10);
      DeclsInSkip([] + [Declared(10, a, Pos(17, 14), Initialized, [])] + [Declared(10, b, Pos(18, 14), Initialized, [])] + [Referenced(11, a, Pos(20, 34), false, false, [])], OutAssigned(11, [], []), 10);
      DeclsInSkip([] + [Declared(10, a, Pos(17, 14), Initialized, [])] + [Declared(10, b, Pos(18, 14), Initialized, [])] + [Referenced(11, a, Pos(20, 34), false, false, [])] + [OutAssigned(11, [], [])], Declared(11, b, Pos(21, 38), Initialized, []), 10);
      DeclsInSkip([] + [Declared(10, a, Pos(17, 14), Initialized, [])] + [Declared(10, b, Pos(18, 14), Initialized, [])] + [Referenced(11, a, Pos(20, 34), false, false, [])] + [OutAssigned(11, [], [])] + [Declared(11, b, Pos(21, 38), Initialized, [])], OutAssigned(11, [], []), 10);
    } else if sc == 11 {
      DeclsInSkip([], Declared(10, a, Pos(17, 14), Initialized, []), 11);
      DeclsInSkip([] + [Declared(10, a, Pos(17, 14), Initialized, [])], Declared(10, b, Pos(18, 14), Initialized, []), 11);
      DeclsInSkip([] + [Declared(10, a, Pos(17, 14), Initialized, [])] + [Declared(10, b, Pos(18, 14), Initialized, [])], Referenced(11, a, Pos(20, 34), false, false, []), 11);
      DeclsInSkip([] + [Declared(10, a, Pos(17, 14), Initialized, [])] + [Declared(10, b, Pos(18, 14), Initialized, [])] + [Referenced(11, a, Pos(20, 34), false, false, [])], OutAssigned(11, [], []), 11);
      DeclsInAdd([] + [Declared(10, a, Pos(17, 14), Initialized, [])] + [Declared(10, b, Pos(18, 14), Initialized, [])] + [Referenced(11, a, Pos(20, 34), false, false, [])] + [OutAssigned(11, [], [])], Declared(11, b, Pos(21, 38), Initialized, []), 11);
      DeclsInSkip([] + [Declared(10, a, Pos(17, 14), Initialized, [])] + [Declared(10, b, Pos(18, 14), Initialized, [])] + [Referenced(11, a, Pos(20, 34), false, false, [])] + [OutAssigned(11, [], [])] + [Declared(11, b, Pos(21, 38), Initialized, [])], OutAssigned(11, [], []), 11);
    } else {
      DeclsInSkip([], Declared(10, a, Pos(17, 14), Initialized, []), sc);
      DeclsInSkip([] + [Declared(10, a, Pos(17, 14), Initialized, [])], Declared(10, b, Pos(18, 14), Initialized, []), sc);
      DeclsInSkip([] + [Declared(10, a, Pos(17, 14), Initialized, [])] + [Declared(10, b, Pos(18, 14), Initialized, [])], Referenced(11, a, Pos(20, 34), false, false, []), sc);
      DeclsInSkip([] + [Declared(10, a, Pos(17, 14), Initialized, [])] + [Declared(10, b, Pos(18, 14), Initialized, [])] + [Referenced(11, a, Pos(20, 34), false, false, [])], OutAssigned(11, [], []), sc);
      DeclsInSkip([] + [Declared(10, a, Pos(17, 14), Initialized, [])] + [Declared(10, b, Pos(18, 14), Initialized, [])] + [Referenced(11, a, Pos(20, 34), false, false, [])] + [OutAssigned(11, [], [])], Declared(11, b, Pos(21, 38), Initialized, []), sc);
      DeclsInSkip([] + [Declared(10, a, Pos(17, 14), Initialized, [])] + [Declared(10, b, Pos(18, 14), Initialized, [])] + [Referenced(11, a, Pos(20, 34), false, false, [])] + [OutAssigned(11, [], [])] + [Declared(11, b, Pos(21, 38), Initialized, [])], OutAssigned(11, [], []), sc);
      AppendNil(DeclsIn(evs, sc));
    }
  }

  lemma {:induction false} DeclsStage0(a: string, b: string, evs: seq<Event>, sc: nat)
    requires DeclsIn(evs, sc) == DeclaredBy(a, b, 0, sc)
    ensures DeclsIn(evs + Chunk0(a, b), sc) == DeclaredBy(a, b, 1, sc)
  {
    Decls0(a, b, evs, sc);
  }

  /** The locals of every scope of a tree whose events are the test's, as the table gives them. */
  ghost predicate LocalsFit(a: string, b: string, tr: Tree) {
    forall sc: nat {:trigger DeclaredBy(a, b, 1, sc)} :: LocalsOf(tr, sc) == DeclaredBy(a, b, 1, sc)
  }

  /** The locals of every scope. */
  lemma {:induction false} LocalsAll(a: string, b: string, tr: Tree)
    requires tr.events == Trace(a, b)
    ensures LocalsFit(a, b, tr)
  {
    forall sc: nat
      ensures LocalsOf(tr, sc) == DeclaredBy(a, b, 1, sc)
    {
      assert DeclsIn([], sc) == [] == DeclaredBy(a, b, 0, sc);
      DeclsStage0(a, b, [], sc);
    }
  }

  /** The locals scope 0 declares, in order. */
  lemma {:induction false} Locals0(a: string, b: string)
    ensures DeclaredBy(a, b, 1, 0) == []
  {
    AppendNil([]);
    assert DeclaredBy(a, b, 1, 0) == [];
  }

  /** The locals scope 10 declares, in order. */
  lemma {:induction false} Locals10(a: string, b: string)
    ensures DeclaredBy(a, b, 1, 10) == [Local(a, Pos(17, 14)), Local(b, Pos(18, 14))]
  {
    assert DeclaredBy(a, b, 1, 10) == [Local(a, Pos(17, 14)), Local(b, Pos(18, 14))];
  }

  /** The locals scope 11 declares, in order. */
  lemma {:induction false} Locals11(a: string, b: string)
    ensures DeclaredBy(a, b, 1, 11) == [Local(b, Pos(21, 38))]
  {
    assert DeclaredBy(a, b, 1, 11) == [Local(b, Pos(21, 38))];
  }

  /** The assignments known after event 5. */
  function Known0(a: string, b: string): seq<Fact> {
    []
      + [Fact(10, a, [])]
      + [Fact(10, b, [])]
      + [Fact(11, b, [])]
  }

  /** Whether a local is assigned after the assignments of events 0 to 5. */
  lemma {:induction false} Assigned0(a: string, b: string, fs: seq<Fact>, sc: nat, nm: string, pth: seq<nat>)
    ensures Assigned(fs + [Fact(10, a, [])] + [Fact(10, b, [])] + [Fact(11, b, [])], sc, nm, pth) == (
      Assigned(fs, sc, nm, pth) ||
      (10 == sc && a == nm && [] <= pth) ||
      (10 == sc && b == nm && [] <= pth) ||
      (11 == sc && b == nm && [] <= pth))
  {
    AssignedSnoc(fs, Fact(10, a, []), sc, nm, pth);
    AssignedSnoc(fs + [Fact(10, a, [])], Fact(10, b, []), sc, nm, pth);
    AssignedSnoc(fs + [Fact(10, a, [])] + [Fact(10, b, [])], Fact(11, b, []), sc, nm, pth);
  }

  /** Event 0: its diagnostics and the assignments after it. */
  lemma {:induction false} Event0(a: string, b: string, tr: Tree, fs: seq<Fact>)
    requires |tr.scopes| == 12
    requires Parent(tr, 0) == None
    requires Parent(tr, 10) == Some(0)
    requires LocalsOf(tr, 10) == [Local(a, Pos(17, 14)), Local(b, Pos(18, 14))]
    requires LocalsOf(tr, 0) == []
    requires a != b
    ensures EventDiags(tr, Declared(10, a, Pos(17, 14), Initialized, []), fs) == []
    ensures Step(tr, Declared(10, a, Pos(17, 14), Initialized, []), fs) == fs + [Fact(10, a, [])]
  {
    assert Lookup(tr, 0, a) == None;
  }

  /** Event 1: its diagnostics and the assignments after it. */
  lemma {:induction false} Event1(a: string, b: string, tr: Tree, fs: seq<Fact>)
    requires |tr.scopes| == 12
    requires Parent(tr, 0) == None
    requires Parent(tr, 10) == Some(0)
    requires LocalsOf(tr, 10) == [Local(a, Pos(17, 14)), Local(b, Pos(18, 14))]
    requires LocalsOf(tr, 0) == []
    requires a != b
    ensures EventDiags(tr, Declared(10, b, Pos(18, 14), Initialized, []), fs) == []
    ensures Step(tr, Declared(10, b, Pos(18, 14), Initialized, []), fs) == fs + [Fact(10, b, [])]
  {
    assert Lookup(tr, 0, b) == None;
  }

  /** Event 2: its diagnostics and the assignments after it. */
  lemma {:induction false} Event2(a: string, b: string, tr: Tree, fs: seq<Fact>)
    requires |tr.scopes| == 12
    requires Parent(tr, 10) == Some(0)
    requires Parent(tr, 11) == Some(10)
    requires LocalsOf(tr, 11) == [Local(b, Pos(21, 38))]
    requires LocalsOf(tr, 10) == [Local(a, Pos(17, 14)), Local(b, Pos(18, 14))]
    requires a != b
    requires Assigned(fs, 10, a, [])
    ensures EventDiags(tr, Referenced(11, a, Pos(20, 34), false, false, []), fs) == []
    ensures Step(tr, Referenced(11, a, Pos(20, 34), false, false, []), fs) == fs
  {
    assert Local(a, Pos(17, 14)) in LocalsOf(tr, 10);
    assert Lookup(tr, 10, a) == Some(10);
    assert Lookup(tr, 11, a) == Some(10);
  }

  /** Event 3: its diagnostics and the assignments after it. */
  lemma {:induction false} Event3(a: string, b: string, tr: Tree, fs: seq<Fact>)
    ensures EventDiags(tr, OutAssigned(11, [], []), fs) == []
    ensures Step(tr, OutAssigned(11, [], []), fs) == fs
  {
    assert OutFacts(11, [], []) == [];
    FactsNil(fs);
  }

  /** Event 4: its diagnostics and the assignments after it. */
  lemma {:induction false} Event4(a: string, b: string, tr: Tree, fs: seq<Fact>)
    requires |tr.scopes| == 12
    requires Parent(tr, 10) == Some(0)
    requires Parent(tr, 11) == Some(10)
    requires LocalsOf(tr, 11) == [Local(b, Pos(21, 38))]
    requires LocalsOf(tr, 10) == [Local(a, Pos(17, 14)), Local(b, Pos(18, 14))]
    requires a != b
    ensures EventDiags(tr, Declared(11, b, Pos(21, 38), Initialized, []), fs) == [Diag(Shadow, b, Pos(21, 38))]
    ensures Step(tr, Declared(11, b, Pos(21, 38), Initialized, []), fs) == fs + [Fact(11, b, [])]
  {
    assert Local(b, Pos(18, 14)) in LocalsOf(tr, 10);
    assert Lookup(tr, 10, b) == Some(10);
  }

  /** Event 5: its diagnostics and the assignments after it. */
  lemma {:induction false} Event5(a: string, b: string, tr: Tree, fs: seq<Fact>)
    ensures EventDiags(tr, OutAssigned(11, [], []), fs) == []
    ensures Step(tr, OutAssigned(11, [], []), fs) == fs
  {
    assert OutFacts(11, [], []) == [];
    FactsNil(fs);
  }

  /** The parent and the locals of scope 0. */
  lemma {:induction false} Scope0(a: string, b: string, tr: Tree)
    requires ScopesAre(tr, Layout())
    requires LocalsFit(a, b, tr)
    ensures |tr.scopes| == 12
    ensures Parent(tr, 0) == None
    ensures LocalsOf(tr, 0) == []
  {
    assert tr.scopes[0] == Layout()[0];
    Locals0(a, b);
    assert LocalsOf(tr, 0) == DeclaredBy(a, b, 1, 0);
  }

  /** The parent and the locals of scope 10. */
  lemma {:induction false} Scope10(a: string, b: string, tr: Tree)
    requires ScopesAre(tr, Layout())
    requires LocalsFit(a, b, tr)
    ensures |tr.scopes| == 12
    ensures Parent(tr, 10) == Some(0)
    ensures LocalsOf(tr, 10) == [Local(a, Pos(17, 14)), Local(b, Pos(18, 14))]
  {
    assert tr.scopes[10] == Layout()[10];
    Locals10(a, b);
    assert LocalsOf(tr, 10) == DeclaredBy(a, b, 1, 10);
  }

  /** The parent and the locals of scope 11. */
  lemma {:induction false} Scope11(a: string, b: string, tr: Tree)
    requires ScopesAre(tr, Layout())
    requires LocalsFit(a, b, tr)
    ensures |tr.scopes| == 12
    ensures Parent(tr, 11) == Some(10)
    ensures LocalsOf(tr, 11) == [Local(b, Pos(21, 38))]
  {
    assert tr.scopes[11] == Layout()[11];
    Locals11(a, b);
    assert LocalsOf(tr, 11) == DeclaredBy(a, b, 1, 11);
  }

  /** The analysis of events 0 to 5, after the events before them. */
  lemma {:induction false} Analysed0(a: string, b: string, tr: Tree, evs: seq<Event>, fs: seq<Fact>, rs: seq<Diag>)
    requires |tr.scopes| == 12
    requires Parent(tr, 0) == None
    requires Parent(tr, 10) == Some(0)
    requires Parent(tr, 11) == Some(10)
    requires LocalsOf(tr, 0) == []
    requires LocalsOf(tr, 10) == [Local(a, Pos(17, 14)), Local(b, Pos(18, 14))]
    requires LocalsOf(tr, 11) == [Local(b, Pos(21, 38))]
    requires a != b
    requires Analyse(tr, evs, []) == rs
    requires Replay(tr, evs, []) == fs
    requires !Assigned(fs, 10, a, [])
    ensures Analyse(tr, evs + Chunk0(a, b), []) == rs + ([] + [] + [] + [] + [] + [Diag(Shadow, b, Pos(21, 38))] + [])
    ensures Replay(tr, evs + Chunk0(a, b), []) == fs + [Fact(10, a, [])] + [Fact(10, b, [])] + [Fact(11, b, [])]
  {
    assert Analyse(tr, [], fs) == [] && Replay(tr, [], fs) == fs;
    Event0(a, b, tr, fs);
    AnalyseSnoc(tr, [], Declared(10, a, Pos(17, 14), Initialized, []), fs);
    assert Analyse(tr, [] + [Declared(10, a, Pos(17, 14), Initialized, [])], fs) == [] + [];
    assert Replay(tr, [] + [Declared(10, a, Pos(17, 14), Initialized, [])], fs) == fs + [Fact(10, a, [])];
    Event1(a, b, tr, fs + [Fact(10, a, [])]);
    AnalyseSnoc(tr, [] + [Declared(10, a, Pos(17, 14), Initialized, [])], Declared(10, b, Pos(18, 14), Initialized, []), fs);
    assert Analyse(tr, [] + [Declared(10, a, Pos(17, 14), Initialized, [])] + [Declared(10, b, Pos(18, 14), Initialized, [])], fs) == [] + [] + [];
    assert Replay(tr, [] + [Declared(10, a, Pos(17, 14), Initialized, [])] + [Declared(10, b, Pos(18, 14), Initialized, [])], fs) == fs + [Fact(10, a, [])] + [Fact(10, b, [])];
    AssignedSnoc(fs, Fact(10, a, []), 10, a, []);
    AssignedSnoc(fs + [Fact(10, a, [])], Fact(10, b, []), 10, a, []);
    Event2(a, b, tr, fs + [Fact(10, a, [])] + [Fact(10, b, [])]);
    AnalyseSnoc(tr, [] + [Declared(10, a, Pos(17, 14), Initialized, [])] + [Declared(10, b, Pos(18, 14), Initialized, [])], Referenced(11, a, Pos(20, 34), false, false, []), fs);
    assert Analyse(tr, [] + [Declared(10, a, Pos(17, 14), Initialized, [])] + [Declared(10, b, Pos(18, 14), Initialized, [])] + [Referenced(11, a, Pos(20, 34), false, false, [])], fs) == [] + [] + [] + [];
    assert Replay(tr, [] + [Declared(10, a, Pos(17, 14), Initialized, [])] + [Declared(10, b, Pos(18, 14), Initialized, [])] + [Referenced(11, a, Pos(20, 34), false, false, [])], fs) == fs + [Fact(10, a, [])] + [Fact(10, b, [])];
    Event3(a, b, tr, fs + [Fact(10, a, [])] + [Fact(10, b, [])]);
    AnalyseSnoc(tr, [] + [Declared(10, a, Pos(17, 14), Initialized, [])] + [Declared(10, b, Pos(18, 14), Initialized, [])] + [Referenced(11, a, Pos(20, 34), false, false, [])], OutAssigned(11, [], []), fs);
    assert Analyse(tr, [] + [Declared(10, a, Pos(17, 14), Initialized, [])] + [Declared(10, b, Pos(18, 14), Initialized, [])] + [Referenced(11, a, Pos(20, 34), false, false, [])] + [OutAssigned(11, [], [])], fs) == [] + [] + [] + [] + [];
    assert Replay(tr, [] + [Declared(10, a, Pos(17, 14), Initialized, [])] + [Declared(10, b, Pos(18, 14), Initialized, [])] + [Referenced(11, a, Pos(20, 34), false, false, [])] + [OutAssigned(11, [], [])], fs) == fs + [Fact(10, a, [])] + [Fact(10, b, [])];
    Event4(a, b, tr, fs + [Fact(10, a, [])] + [Fact(10, b, [])]);
    AnalyseSnoc(tr, [] + [Declared(10, a, Pos(17, 14), Initialized, [])] + [Declared(10, b, Pos(18, 14), Initialized, [])] + [Referenced(11, a, Pos(20, 34), false, false, [])] + [OutAssigned(11, [], [])], Declared(11, b, Pos(21, 38), Initialized, []), fs);
    assert Analyse(tr, [] + [Declared(10, a, Pos(17, 14), Initialized, [])] + [Declared(10, b, Pos(18, 14), Initialized, [])] + [Referenced(11, a, Pos(20, 34), false, false, [])] + [OutAssigned(11, [], [])] + [Declared(11, b, Pos(21, 38), Initialized, [])], fs) == [] + [] + [] + [] + [] + [Diag(Shadow, b, Pos(21, 38))];
    assert Replay(tr, [] + [Declared(10, a, Pos(17, 14), Initialized, [])] + [Declared(10, b, Pos(18, 14), Initialized, [])] + [Referenced(11, a, Pos(20, 34), false, false, [])] + [OutAssigned(11, [], [])] + [Declared(11, b, Pos(21, 38), Initialized, [])], fs) == fs + [Fact(10, a, [])] + [Fact(10, b, [])] + [Fact(11, b, [])];
    Event5(a, b, tr, fs + [Fact(10, a, [])] + [Fact(10, b, [])] + [Fact(11, b, [])]);
    AnalyseSnoc(tr, [] + [Declared(10, a, Pos(17, 14), Initialized, [])] + [Declared(10, b, Pos(18, 14), Initialized, [])] + [Referenced(11, a, Pos(20, 34), false, false, [])] + [OutAssigned(11, [], [])] + [Declared(11, b, Pos(21, 38), Initialized, [])], OutAssigned(11, [], []), fs);
    AnalyseSplit(tr, evs, Chunk0(a, b), []);
  }

  lemma {:induction false} Glue0(a: string, b: string, rs: seq<Diag>)
    requires rs == []
    ensures rs + ([] + [] + [] + [] + [] + [Diag(Shadow, b, Pos(21, 38))] + []) == [Diag(Shadow, b, Pos(21, 38))]
  {
  }

  /** The analysis of events 0 to 5, after the events before them. */
  lemma {:induction false} Stage0(a: string, b: string, tr: Tree, evs: seq<Event>)
    requires ScopesAre(tr, Layout())
    requires LocalsFit(a, b, tr)
    requires a != b
    requires Analyse(tr, evs, []) == []
    requires Replay(tr, evs, []) == []
    ensures Analyse(tr, evs + Chunk0(a, b), []) == [Diag(Shadow, b, Pos(21, 38))]
    ensures Replay(tr, evs + Chunk0(a, b), []) == Known0(a, b)
  {
    assert !Assigned([], 10, a, []);
    Scope0(a, b, tr);
    Scope10(a, b, tr);
    Scope11(a, b, tr);
    Analysed0(a, b, tr, evs, [], []);
    Glue0(a, b, []);
  }

  /** The analysis of a tree with the test's scopes and events. */
  lemma {:induction false} Result(a: string, b: string, tr: Tree)
    requires ScopesAre(tr, Layout()) && LocalsFit(a, b, tr) && tr.events == Trace(a, b)
    requires a != b
    ensures Analyse(tr, tr.events, []) == [Diag(Shadow, b, Pos(21, 38))]
  {
    assert Analyse(tr, [], []) == [] && Replay(tr, [], []) == [];
    Stage0(a, b, tr, []);
  }

  /** The diagnostics the test expects, in the order the analysis reports them. */
  lemma {:induction false} Outcome(a: string, b: string)
    requires a != b
    ensures Check(Program(a, b)) == [Diag(Shadow, b, Pos(21, 38))]
  {
    Walked(a, b);
    LocalsAll(a, b, Build(Program(a, b)));
    Result(a, b, Build(Program(a, b)));
  }
}

/**
 * The test InitializationScope_12 (DeclarationExpressionsTests.cs, lines 6085 to 6121).
 *
 * Its program, with its local names left as parameters, is walked into a scope tree and
 * analysed; Outcome states the exact list of diagnostics Check reports, for any names that
 * differ where the outcome depends on it.
 */
module ScenInitializationScope12 {
  import opened Syntax
  import opened Scopes
  import opened Binding
  import opened Reporting
  import opened Frames
  import opened Units
  import opened Traces

  /** The program of the test, its names left as parameters. */
  function Program(x: string, y: string): seq<Fragment> {
    [Fragment(None, [Method([], [])])] + ([Fragment(None, [Constructor(None, [])] + ([Constructor(None, [])]))] + ([Fragment(Some([Use(x, Pos(15, 30), false)] + ([Use(y, Pos(15, 33), false)])), [Field(false, [Declare(x, Pos(17, 26), Initialized)])])] + ([Fragment(None, [Field(false, [Declare(y, Pos(22, 26), Initialized)])])])))
  }

  /** Scopes 0 to 7, in the order the walk opens them. */
  function Layout0(): seq<Scope> {
    [Scope(Unit, None),
     Scope(InstanceInitializers, Some(0)),
     Scope(StaticInitializers, Some(0)),
     Scope(MethodBody, Some(0)),
     Scope(BlockBody, Some(3)),
     Scope(InstanceInitializers, Some(0)),
     Scope(StaticInitializers, Some(0)),
     Scope(BlockBody, Some(0))]
  }

  /** Scopes 8 to 13, in the order the walk opens them. */
  function Layout1(): seq<Scope> {
    [Scope(BlockBody, Some(0)),
     Scope(InstanceInitializers, Some(0)),
     Scope(StaticInitializers, Some(0)),
     Scope(PrimaryBaseArguments, Some(9)),
     Scope(InstanceInitializers, Some(0)),
     Scope(StaticInitializers, Some(0))]
  }

  /** Its scopes, in the order the walk opens them. */
  function Layout(): seq<Scope> {
    Layout0() + Layout1()
  }

  lemma {:induction false} LayoutJoin0()
    ensures [Scope(Unit, None)] + [Scope(InstanceInitializers, Some(0))] + [Scope(StaticInitializers, Some(0))] + [Scope(MethodBody, Some(0))] + [Scope(BlockBody, Some(3))] + [Scope(InstanceInitializers, Some(0))] + [Scope(StaticInitializers, Some(0))] + [Scope(BlockBody, Some(0))] == Layout0()
  {
  }

  lemma {:induction false} LayoutJoin1(pre: seq<Scope>)
    ensures pre + Layout1() == pre + [Scope(BlockBody, Some(0))] + [Scope(InstanceInitializers, Some(0))] + [Scope(StaticInitializers, Some(0))] + [Scope(PrimaryBaseArguments, Some(9))] + [Scope(InstanceInitializers, Some(0))] + [Scope(StaticInitializers, Some(0))]
  {
  }

  /** The layout, scope by scope. */
  lemma {:induction false} LayoutFlat()
    ensures [Scope(Unit, None)] + [Scope(InstanceInitializers, Some(0))] + [Scope(StaticInitializers, Some(0))] + [Scope(MethodBody, Some(0))] + [Scope(BlockBody, Some(3))] + [Scope(InstanceInitializers, Some(0))] + [Scope(StaticInitializers, Some(0))] + [Scope(BlockBody, Some(0))] + [Scope(BlockBody, Some(0))] + [Scope(InstanceInitializers, Some(0))] + [Scope(StaticInitializers, Some(0))] + [Scope(PrimaryBaseArguments, Some(9))] + [Scope(InstanceInitializers, Some(0))] + [Scope(StaticInitializers, Some(0))] == Layout()
  {
    LayoutJoin0();
    LayoutJoin1(Layout0());
  }

  /** Events 0 to 3 of the test, in evaluation order. */
  function Chunk0(x: string, y: string): seq<Event> {
    []
      + [Referenced(11, x, Pos(15, 30), false, false, [])]
      + [Referenced(11, y, Pos(15, 33), false, false, [])]
      + [Declared(9, x, Pos(17, 26), Initialized, [])]
      + [Declared(12, y, Pos(22, 26), Initialized, [])]
  }

  /** The events of the test, in evaluation order. */
  function Trace(x: string, y: string): seq<Event> {
    []
      + Chunk0(x, y)
  }

  lemma {:induction false} Member2(x: string, y: string, tr: Tree)
    requires |tr.scopes| == 3 && tr.arms == 0
    ensures WalkMember(Method([], []), 1, tr) == Tree(tr.scopes + [Scope(MethodBody, Some(0))] + [Scope(BlockBody, Some(3))], tr.events, 0)
  {
    assert WalkMember(Method([], []), 1, tr) == Tree(tr.scopes + [Scope(MethodBody, Some(0))] + [Scope(BlockBody, Some(3))], tr.events, 0);
  }

  lemma {:induction false} Fragment1(x: string, y: string, tr: Tree)
    requires |tr.scopes| == 1 && tr.arms == 0
    ensures WalkFragment(Fragment(None, [Method([], [])]), tr) == Tree(tr.scopes + [Scope(InstanceInitializers, Some(0))] + [Scope(StaticInitializers, Some(0))] + [Scope(MethodBody, Some(0))] + [Scope(BlockBody, Some(3))], tr.events, 0)
  {
    WalkMembersOne(Method([], []), 1, Tree(tr.scopes + [Scope(InstanceInitializers, Some(0))] + [Scope(StaticInitializers, Some(0))], tr.events, 0));
    Member2(x, y, Tree(tr.scopes + [Scope(InstanceInitializers, Some(0))] + [Scope(StaticInitializers, Some(0))], tr.events, 0));
    assert WalkMembers([Method([], [])], 1, Tree(tr.scopes + [Scope(InstanceInitializers, Some(0))] + [Scope(StaticInitializers, Some(0))], tr.events, 0)) == Tree(tr.scopes + [Scope(InstanceInitializers, Some(0))] + [Scope(StaticInitializers, Some(0))] + [Scope(MethodBody, Some(0))] + [Scope(BlockBody, Some(3))], tr.events, 0);
    assert WalkFragment(Fragment(None, [Method([], [])]), tr) == Tree(tr.scopes + [Scope(InstanceInitializers, Some(0))] + [Scope(StaticInitializers, Some(0))] + [Scope(MethodBody, Some(0))] + [Scope(BlockBody, Some(3))], tr.events, 0);
  }

  lemma {:induction false} Member4(x: string, y: string, tr: Tree)
    requires |tr.scopes| == 7 && tr.arms == 0
    ensures WalkMember(Constructor(None, []), 5, tr) == Tree(tr.scopes + [Scope(BlockBody, Some(0))], tr.events, 0)
  {
    assert WalkMember(Constructor(None, []), 5, tr) == Tree(tr.scopes + [Scope(BlockBody, Some(0))], tr.events, 0);
  }

  lemma {:induction false} Member5(x: string, y: string, tr: Tree)
    requires |tr.scopes| == 8 && tr.arms == 0
    ensures WalkMember(Constructor(None, []), 5, tr) == Tree(tr.scopes + [Scope(BlockBody, Some(0))], tr.events, 0)
  {
    assert WalkMember(Constructor(None, []), 5, tr) == Tree(tr.scopes + [Scope(BlockBody, Some(0))], tr.events, 0);
  }

  lemma {:induction false} Fragment3(x: string, y: string, tr: Tree)
    requires |tr.scopes| == 5 && tr.arms == 0
    ensures WalkFragment(Fragment(None, [Constructor(None, [])] + ([Constructor(None, [])])), tr) == Tree(tr.scopes + [Scope(InstanceInitializers, Some(0))] + [Scope(StaticInitializers, Some(0))] + [Scope(BlockBody, Some(0))] + [Scope(BlockBody, Some(0))], tr.events, 0)
  {
    WalkMembersCons(Constructor(None, []), [Constructor(None, [])], 5, Tree(tr.scopes + [Scope(InstanceInitializers, Some(0))] + [Scope(StaticInitializers, Some(0))], tr.events, 0));
    Member4(x, y, Tree(tr.scopes + [Scope(InstanceInitializers, Some(0))] + [Scope(StaticInitializers, Some(0))], tr.events, 0));
    WalkMembersOne(Constructor(None, []), 5, Tree(tr.scopes + [Scope(InstanceInitializers, Some(0))] + [Scope(StaticInitializers, Some(0))] + [Scope(BlockBody, Some(0))], tr.events, 0));
    Member5(x, y, Tree(tr.scopes + [Scope(InstanceInitializers, Some(0))] + [Scope(StaticInitializers, Some(0))] + [Scope(BlockBody, Some(0))], tr.events, 0));
    assert WalkMembers([Constructor(None, [])] + ([Constructor(None, [])]), 5, Tree(tr.scopes + [Scope(InstanceInitializers, Some(0))] + [Scope(StaticInitializers, Some(0))], tr.events, 0)) == Tree(tr.scopes + [Scope(InstanceInitializers, Some(0))] + [Scope(StaticInitializers, Some(0))] + [Scope(BlockBody, Some(0))] + [Scope(BlockBody, Some(0))], tr.events, 0);
    assert WalkFragment(Fragment(None, [Constructor(None, [])] + ([Constructor(None, [])])), tr) == Tree(tr.scopes + [Scope(InstanceInitializers, Some(0))] + [Scope(StaticInitializers, Some(0))] + [Scope(BlockBody, Some(0))] + [Scope(BlockBody, Some(0))], tr.events, 0);
  }

  lemma {:induction false} Member7(x: string, y: string, tr: Tree)
    requires |tr.scopes| == 12 && tr.arms == 0
    ensures WalkMember(Field(false, [Declare(x, Pos(17, 26), Initialized)]), 9, tr) == Tree(tr.scopes, tr.events + [Declared(9, x, Pos(17, 26), Initialized, [])], 0)
  {
    WalkExprsOne(Declare(x, Pos(17, 26), Initialized), Ctx(9, [], []), tr);
    assert WalkExpr(Declare(x, Pos(17, 26), Initialized), Ctx(9, [], []), tr) == Tree(tr.scopes, tr.events + [Declared(9, x, Pos(17, 26), Initialized, [])], 0);
    assert WalkExprs([Declare(x, Pos(17, 26), Initialized)], Ctx(9, [], []), tr) == Tree(tr.scopes, tr.events + [Declared(9, x, Pos(17, 26), Initialized, [])], 0);
    assert WalkMember(Field(false, [Declare(x, Pos(17, 26), Initialized)]), 9, tr) == Tree(tr.scopes, tr.events + [Declared(9, x, Pos(17, 26), Initialized, [])], 0);
  }

  lemma {:induction false} Fragment6(x: string, y: string, tr: Tree)
    requires |tr.scopes| == 9 && tr.arms == 0
    ensures WalkFragment(Fragment(Some([Use(x, Pos(15, 30), false)] + ([Use(y, Pos(15, 33), false)])), [Field(false, [Declare(x, Pos(17, 26), Initialized)])]), tr) == Tree(tr.scopes + [Scope(InstanceInitializers, Some(0))] + [Scope(StaticInitializers, Some(0))] + [Scope(PrimaryBaseArguments, Some(9))], tr.events + [Referenced(11, x, Pos(15, 30), false, false, [])] + [Referenced(11, y, Pos(15, 33), false, false, [])] + [Declared(9, x, Pos(17, 26), Initialized, [])], 0)
  {
    WalkExprsCons(Use(x, Pos(15, 30), false), [Use(y, Pos(15, 33), false)], Ctx(11, [], []), Tree(tr.scopes + [Scope(InstanceInitializers, Some(0))] + [Scope(StaticInitializers, Some(0))] + [Scope(PrimaryBaseArguments, Some(9))], tr.events, 0));
    assert WalkExpr(Use(x, Pos(15, 30), false), Ctx(11, [], []), Tree(tr.scopes + [Scope(InstanceInitializers, Some(0))] + [Scope(StaticInitializers, Some(0))] + [Scope(PrimaryBaseArguments, Some(9))], tr.events, 0)) == Tree(tr.scopes + [Scope(InstanceInitializers, Some(0))] + [Scope(StaticInitializers, Some(0))] + [Scope(PrimaryBaseArguments, Some(9))], tr.events + [Referenced(11, x, Pos(15, 30), false, false, [])], 0);
    WalkExprsOne(Use(y, Pos(15, 33), false), Ctx(11, [], []), Tree(tr.scopes + [Scope(InstanceInitializers, Some(0))] + [Scope(StaticInitializers, Some(0))] + [Scope(PrimaryBaseArguments, Some(9))], tr.events + [Referenced(11, x, Pos(15, 30), false, false, [])], 0));
    assert WalkExpr(Use(y, Pos(15, 33), false), Ctx(11, [], []), Tree(tr.scopes + [Scope(InstanceInitializers, Some(0))] + [Scope(StaticInitializers, Some(0))] + [Scope(PrimaryBaseArguments, Some(9))], tr.events + [Referenced(11, x, Pos(15, 30), false, false, [])], 0)) == Tree(tr.scopes + [Scope(InstanceInitializers, Some(0))] + [Scope(StaticInitializers, Some(0))] + [Scope(PrimaryBaseArguments, Some(9))], tr.events + [Referenced(11, x, Pos(15, 30), false, false, [])] + [Referenced(11, y, Pos(15, 33), false, false, [])], 0);
    assert WalkExprs([Use(x, Pos(15, 30), false)] + ([Use(y, Pos(15, 33), false)]), Ctx(11, [], []), Tree(tr.scopes + [Scope(InstanceInitializers, Some(0))] + [Scope(StaticInitializers, Some(0))] + [Scope(PrimaryBaseArguments, Some(9))], tr.events, 0)) == Tree(tr.scopes + [Scope(InstanceInitializers, Some(0))] + [Scope(StaticInitializers, Some(0))] + [Scope(PrimaryBaseArguments, Some(9))], tr.events + [Referenced(11, x, Pos(15, 30), false, false, [])] + [Referenced(11, y, Pos(15, 33), false, false, [])], 0);
    WalkMembersOne(Field(false, [Declare(x, Pos(17, 26), Initialized)]), 9, Tree(tr.scopes + [Scope(InstanceInitializers, Some(0))] + [Scope(StaticInitializers, Some(0))] + [Scope(PrimaryBaseArguments, Some(9))], tr.events + [Referenced(11, x, Pos(15, 30), false, false, [])] + [Referenced(11, y, Pos(15, 33), false, false, [])], 0));
    Member7(x, y, Tree(tr.scopes + [Scope(InstanceInitializers, Some(0))] + [Scope(StaticInitializers, Some(0))] + [Scope(PrimaryBaseArguments, Some(9))], tr.events + [Referenced(11, x, Pos(15, 30), false, false, [])] + [Referenced(11, y, Pos(15, 33), false, false, [])], 0));
    assert WalkMembers([Field(false, [Declare(x, Pos(17, 26), Initialized)])], 9, Tree(tr.scopes + [Scope(InstanceInitializers, Some(0))] + [Scope(StaticInitializers, Some(0))] + [Scope(PrimaryBaseArguments, Some(9))], tr.events + [Referenced(11, x, Pos(15, 30), false, false, [])] + [Referenced(11, y, Pos(15, 33), false, false, [])], 0)) == Tree(tr.scopes + [Scope(InstanceInitializers, Some(0))] + [Scope(StaticInitializers, Some(0))] + [Scope(PrimaryBaseArguments, Some(9))], tr.events + [Referenced(11, x, Pos(15, 30), false, false, [])] + [Referenced(11, y, Pos(15, 33), false, false, [])] + [Declared(9, x, Pos(17, 26), Initialized, [])], 0);
    assert WalkFragment(Fragment(Some([Use(x, Pos(15, 30), false)] + ([Use(y, Pos(15, 33), false)])), [Field(false, [Declare(x, Pos(17, 26), Initialized)])]), tr) == Tree(tr.scopes + [Scope(InstanceInitializers, Some(0))] + [Scope(StaticInitializers, Some(0))] + [Scope(PrimaryBaseArguments, Some(9))], tr.events + [Referenced(11, x, Pos(15, 30), false, false, [])] + [Referenced(11, y, Pos(15, 33), false, false, [])] + [Declared(9, x, Pos(17, 26), Initialized, [])], 0);
  }

  lemma {:induction false} Member9(x: string, y: string, tr: Tree)
    requires |tr.scopes| == 14 && tr.arms == 0
    ensures WalkMember(Field(false, [Declare(y, Pos(22, 26), Initialized)]), 12, tr) == Tree(tr.scopes, tr.events + [Declared(12, y, Pos(22, 26), Initialized, [])], 0)
  {
    WalkExprsOne(Declare(y, Pos(22, 26), Initialized), Ctx(12, [], []), tr);
    assert WalkExpr(Declare(y, Pos(22, 26), Initialized), Ctx(12, [], []), tr) == Tree(tr.scopes, tr.events + [Declared(12, y, Pos(22, 26), Initialized, [])], 0);
    assert WalkExprs([Declare(y, Pos(22, 26), Initialized)], Ctx(12, [], []), tr) == Tree(tr.scopes, tr.events + [Declared(12, y, Pos(22, 26), Initialized, [])], 0);
    assert WalkMember(Field(false, [Declare(y, Pos(22, 26), Initialized)]), 12, tr) == Tree(tr.scopes, tr.events + [Declared(12, y, Pos(22, 26), Initialized, [])], 0);
  }

  lemma {:induction false} Fragment8(x: string, y: string, tr: Tree)
    requires |tr.scopes| == 12 && tr.arms == 0
    ensures WalkFragment(Fragment(None, [Field(false, [Declare(y, Pos(22, 26), Initialized)])]), tr) == Tree(tr.scopes + [Scope(InstanceInitializers, Some(0))] + [Scope(StaticInitializers, Some(0))], tr.events + [Declared(12, y, Pos(22, 26), Initialized, [])], 0)
  {
    WalkMembersOne(Field(false, [Declare(y, Pos(22, 26), Initialized)]), 12, Tree(tr.scopes + [Scope(InstanceInitializers, Some(0))] + [Scope(StaticInitializers, Some(0))], tr.events, 0));
    Member9(x, y, Tree(tr.scopes + [Scope(InstanceInitializers, Some(0))] + [Scope(StaticInitializers, Some(0))], tr.events, 0));
    assert WalkMembers([Field(false, [Declare(y, Pos(22, 26), Initialized)])], 12, Tree(tr.scopes + [Scope(InstanceInitializers, Some(0))] + [Scope(StaticInitializers, Some(0))], tr.events, 0)) == Tree(tr.scopes + [Scope(InstanceInitializers, Some(0))] + [Scope(StaticInitializers, Some(0))], tr.events + [Declared(12, y, Pos(22, 26), Initialized, [])], 0);
    assert WalkFragment(Fragment(None, [Field(false, [Declare(y, Pos(22, 26), Initialized)])]), tr) == Tree(tr.scopes + [Scope(InstanceInitializers, Some(0))] + [Scope(StaticInitializers, Some(0))], tr.events + [Declared(12, y, Pos(22, 26), Initialized, [])], 0);
  }

  lemma {:induction false} Join0(x: string, y: string, evs: seq<Event>)
    ensures evs + Chunk0(x, y) == evs + [Referenced(11, x, Pos(15, 30), false, false, [])] + [Referenced(11, y, Pos(15, 33), false, false, [])] + [Declared(9, x, Pos(17, 26), Initialized, [])] + [Declared(12, y, Pos(22, 26), Initialized, [])]
  {
  }

  /** The trace, event by event. */
  lemma {:induction false} Flat(x: string, y: string)
    ensures [] + [Referenced(11, x, Pos(15, 30), false, false, [])] + [Referenced(11, y, Pos(15, 33), false, false, [])] + [Declared(9, x, Pos(17, 26), Initialized, [])] + [Declared(12, y, Pos(22, 26), Initialized, [])] == Trace(x, y)
  {
    Join0(x, y, []);
  }

  lemma {:induction false} Walked(x: string, y: string)
    ensures Build(Program(x, y)) == Tree(Layout(), Trace(x, y), 0)
  {
    WalkFragmentsCons(Fragment(None, [Method([], [])]), [Fragment(None, [Constructor(None, [])] + ([Constructor(None, [])]))] + ([Fragment(Some([Use(x, Pos(15, 30), false)] + ([Use(y, Pos(15, 33), false)])), [Field(false, [Declare(x, Pos(17, 26), Initialized)])])] + ([Fragment(None, [Field(false, [Declare(y, Pos(22, 26), Initialized)])])])), Tree([Scope(Unit, None)], [], 0));
    Fragment1(x, y, Tree([Scope(Unit, None)], [], 0));
    WalkFragmentsCons(Fragment(None, [Constructor(None, [])] + ([Constructor(None, [])])), [Fragment(Some([Use(x, Pos(15, 30), false)] + ([Use(y, Pos(15, 33), false)])), [Field(false, [Declare(x, Pos(17, 26), Initialized)])])] + ([Fragment(None, [Field(false, [Declare(y, Pos(22, 26), Initialized)])])]), Tree([Scope(Unit, None)] + [Scope(InstanceInitializers, Some(0))] + [Scope(StaticInitializers, Some(0))] + [Scope(MethodBody, Some(0))] + [Scope(BlockBody, Some(3))], [], 0));
    Fragment3(x, y, Tree([Scope(Unit, None)] + [Scope(InstanceInitializers, Some(0))] + [Scope(StaticInitializers, Some(0))] + [Scope(MethodBody, Some(0))] + [Scope(BlockBody, Some(3))], [], 0));
    WalkFragmentsCons(Fragment(Some([Use(x, Pos(15, 30), false)] + ([Use(y, Pos(15, 33), false)])), [Field(false, [Declare(x, Pos(17, 26), Initialized)])]), [Fragment(None, [Field(false, [Declare(y, Pos(22, 26), Initialized)])])], Tree([Scope(Unit, None)] + [Scope(InstanceInitializers, Some(0))] + [Scope(StaticInitializers, Some(0))] + [Scope(MethodBody, Some(0))] + [Scope(BlockBody, Some(3))] + [Scope(InstanceInitializers, Some(0))] + [Scope(StaticInitializers, Some(0))] + [Scope(BlockBody, Some(0))] + [Scope(BlockBody, Some(0))], [], 0));
    Fragment6(x, y, Tree([Scope(Unit, None)] + [Scope(InstanceInitializers, Some(0))] + [Scope(StaticInitializers, Some(0))] + [Scope(MethodBody, Some(0))] + [Scope(BlockBody, Some(3))] + [Scope(InstanceInitializers, Some(0))] + [Scope(StaticInitializers, Some(0))] + [Scope(BlockBody, Some(0))] + [Scope(BlockBody, Some(0))], [], 0));
    WalkFragmentsOne(Fragment(None, [Field(false, [Declare(y, Pos(22, 26), Initialized)])]), Tree([Scope(Unit, None)] + [Scope(InstanceInitializers, Some(0))] + [Scope(StaticInitializers, Some(0))] + [Scope(MethodBody, Some(0))] + [Scope(BlockBody, Some(3))] + [Scope(InstanceInitializers, Some(0))] + [Scope(StaticInitializers, Some(0))] + [Scope(BlockBody, Some(0))] + [Scope(BlockBody, Some(0))] + [Scope(InstanceInitializers, Some(0))] + [Scope(StaticInitializers, Some(0))] + [Scope(PrimaryBaseArguments, Some(9))], [] + [Referenced(11, x, Pos(15, 30), false, false, [])] + [Referenced(11, y, Pos(15, 33), false, false, [])] + [Declared(9, x, Pos(17, 26), Initialized, [])], 0));
    Fragment8(x, y, Tree([Scope(Unit, None)] + [Scope(InstanceInitializers, Some(0))] + [Scope(StaticInitializers, Some(0))] + [Scope(MethodBody, Some(0))] + [Scope(BlockBody, Some(3))] + [Scope(InstanceInitializers, Some(0))] + [Scope(StaticInitializers, Some(0))] + [Scope(BlockBody, Some(0))] + [Scope(BlockBody, Some(0))] + [Scope(InstanceInitializers, Some(0))] + [Scope(StaticInitializers, Some(0))] + [Scope(PrimaryBaseArguments, Some(9))], [] + [Referenced(11, x, Pos(15, 30), false, false, [])] + [Referenced(11, y, Pos(15, 33), false, false, [])] + [Declared(9, x, Pos(17, 26), Initialized, [])], 0));
    LayoutFlat();
    Flat(x, y);
  }

  /** The locals events of chunk `ck` declare in scope `sc`, in order. */
  function NewIn(x: string, y: string, ck: nat, sc: nat): seq<Local> {
    if ck == 0 then
      if sc == 9 then [] + [Local(x, Pos(17, 26))]
      else if sc == 12 then [] + [Local(y, Pos(22, 26))]
      else []
    else []
  }

  /** The locals the first `ck` chunks declare in scope `sc`, in order. */
  function DeclaredBy(x: string, y: string, ck: nat, sc: nat): seq<Local>
    decreases ck
  {
    if ck == 0 then [] else DeclaredBy(x, y, ck - 1, sc) + NewIn(x, y, ck - 1, sc)
  }

  /** The locals declared once events 0 to 3 follow some events. */
  lemma {:induction false} Decls0(x: string, y: string, evs: seq<Event>, sc: nat)
    requires DeclsIn(evs, sc) == DeclaredBy(x, y, 0, sc)
    ensures DeclsIn(evs + Chunk0(x, y), sc) == DeclaredBy(x, y, 1, sc)
  {
    DeclsInAppend(evs, Chunk0(x, y), sc);
    assert DeclsIn([], sc) == [];
    if sc == 9 {
      DeclsInSkip([], Referenced(11, x, Pos(15, 30), false, false, []), 9);
      DeclsInSkip([] + [Referenced(11, x, Pos(15, 30), false, false, [])], Referenced(11, y, Pos(15, 33), false, false, []), 9);
      DeclsInAdd([] + [Referenced(11, x, Pos(15, 30), false, false, [])] + [Referenced(11, y, Pos(15, 33), false, false, [])], Declared(9, x, Pos(17, 26), Initialized, []), 9);
      DeclsInSkip([] + [Referenced(11, x, Pos(15, 30), false, false, [])] + [Referenced(11, y, Pos(15, 33), false, false, [])] + [Declared(9, x, Pos(17, 26), Initialized, [])], Declared(12, y, Pos(22, 26), Initialized, []), 9);
    } else if sc == 12 {
      DeclsInSkip([], Referenced(11, x, Pos(15, 30), false, false, []), 12);
      DeclsInSkip([] + [Referenced(11, x, Pos(15, 30), false, false, [])], Referenced(11, y, Pos(15, 33), false, false, []), 12);
      DeclsInSkip([] + [Referenced(11, x, Pos(15, 30), false, false, [])] + [Referenced(11, y, Pos(15, 33), false, false, [])], Declared(9, x, Pos(17, 26), Initialized, []), 12);
      DeclsInAdd([] + [Referenced(11, x, Pos(15, 30), false, false, [])] + [Referenced(11, y, Pos(15, 33), false, false, [])] + [Declared(9, x, Pos(17, 26), Initialized, [])], Declared(12, y, Pos(22, 26), Initialized, []), 12);
    } else {
      DeclsInSkip([], Referenced(11, x, Pos(15, 30), false, false, []), sc);
      DeclsInSkip([] + [Referenced(11, x, Pos(15, 30), false, false, [])], Referenced(11, y, Pos(15, 33), false, false, []), sc);
      DeclsInSkip([] + [Referenced(11, x, Pos(15, 30), false, false, [])] + [Referenced(11, y, Pos(15, 33), false, false, [])], Declared(9, x, Pos(17, 26), Initialized, []), sc);
      DeclsInSkip([] + [Referenced(11, x, Pos(15, 30), false, false, [])] + [Referenced(11, y, Pos(15, 33), false, false, [])] + [Declared(9, x, Pos(17, 26), Initialized, [])], Declared(12, y, Pos(22, 26), Initialized, []), sc);
      AppendNil(DeclsIn(evs, sc));
    }
  }

  lemma {:induction false} DeclsStage0(x: string, y: string, evs: seq<Event>, sc: nat)
    requires DeclsIn(evs, sc) == DeclaredBy(x, y, 0, sc)
    ensures DeclsIn(evs + Chunk0(x, y), sc) == DeclaredBy(x, y, 1, sc)
  {
    Decls0(x, y, evs, sc);
  }

  /** The locals of every scope of a tree whose events are the test's, as the table gives them. */
  ghost predicate LocalsFit(x: string, y: string, tr: Tree) {
    forall sc: nat {:trigger DeclaredBy(x, y, 1, sc)} :: LocalsOf(tr, sc) == DeclaredBy(x, y, 1, sc)
  }

  /** The locals of every scope. */
  lemma {:induction false} LocalsAll(x: string, y: string, tr: Tree)
    requires tr.events == Trace(x, y)
    ensures LocalsFit(x, y, tr)
  {
    forall sc: nat
      ensures LocalsOf(tr, sc) == DeclaredBy(x, y, 1, sc)
    {
      assert DeclsIn([], sc) == [] == DeclaredBy(x, y, 0, sc);
      DeclsStage0(x, y, [], sc);
    }
  }

  /** The locals scope 0 declares, in order. */
  lemma {:induction false} Locals0(x: string, y: string)
    ensures DeclaredBy(x, y, 1, 0) == []
  {
    AppendNil([]);
    assert DeclaredBy(x, y, 1, 0) == [];
  }

  /** The locals scope 9 declares, in order. */
  lemma {:induction false} Locals9(x: string, y: string)
    ensures DeclaredBy(x, y, 1, 9) == [Local(x, Pos(17, 26))]
  {
    assert DeclaredBy(x, y, 1, 9) == [Local(x, Pos(17, 26))];
  }

  /** The locals scope 11 declares, in order. */
  lemma {:induction false} Locals11(x: string, y: string)
    ensures DeclaredBy(x, y, 1, 11) == []
  {
    AppendNil([]);
    assert DeclaredBy(x, y, 1, 11) == [];
  }

  /** The locals scope 12 declares, in order. */
  lemma {:induction false} Locals12(x: string, y: string)
    ensures DeclaredBy(x, y, 1, 12) == [Local(y, Pos(22, 26))]
  {
    assert DeclaredBy(x, y, 1, 12) == [Local(y, Pos(22, 26))];
  }

  /** The assignments known after event 3. */
  function Known0(x: string, y: string): seq<Fact> {
    []
      + [Fact(9, x, [])]
      + [Fact(12, y, [])]
  }

  /** Whether a local is assigned after the assignments of events 0 to 3. */
  lemma {:induction false} Assigned0(x: string, y: string, fs: seq<Fact>, sc: nat, nm: string, pth: seq<nat>)
    ensures Assigned(fs + [Fact(9, x, [])] + [Fact(12, y, [])], sc, nm, pth) == (
      Assigned(fs, sc, nm, pth) ||
      (9 == sc && x == nm && [] <= pth) ||
      (12 == sc && y == nm && [] <= pth))
  {
    AssignedSnoc(fs, Fact(9, x, []), sc, nm, pth);
    AssignedSnoc(fs + [Fact(9, x, [])], Fact(12, y, []), sc, nm, pth);
  }

  /** Event 0: its diagnostics and the assignments after it. */
  lemma {:induction false} Event0(x: string, y: string, tr: Tree, fs: seq<Fact>)
    requires |tr.scopes| == 14
    requires Parent(tr, 9) == Some(0)
    requires Parent(tr, 11) == Some(9)
    requires LocalsOf(tr, 11) == []
    requires LocalsOf(tr, 9) == [Local(x, Pos(17, 26))]
    ensures EventDiags(tr, Referenced(11, x, Pos(15, 30), false, false, []), fs) == [Diag(UsedBeforeDeclared, x, Pos(15, 30))]
    ensures Step(tr, Referenced(11, x, Pos(15, 30), false, false, []), fs) == fs
  {
    assert Local(x, Pos(17, 26)) in LocalsOf(tr, 9);
    assert Lookup(tr, 9, x) == Some(9);
    assert Lookup(tr, 11, x) == Some(9);
  }

  /** Event 1: its diagnostics and the assignments after it. */
  lemma {:induction false} Event1(x: string, y: string, tr: Tree, fs: seq<Fact>)
    requires |tr.scopes| == 14
    requires Parent(tr, 0) == None
    requires Parent(tr, 9) == Some(0)
    requires Parent(tr, 11) == Some(9)
    requires LocalsOf(tr, 11) == []
    requires LocalsOf(tr, 9) == [Local(x, Pos(17, 26))]
    requires LocalsOf(tr, 0) == []
    requires x != y
    ensures EventDiags(tr, Referenced(11, y, Pos(15, 33), false, false, []), fs) == [Diag(NotInContext, y, Pos(15, 33))]
    ensures Step(tr, Referenced(11, y, Pos(15, 33), false, false, []), fs) == fs
  {
    assert Lookup(tr, 0, y) == None;
    assert Lookup(tr, 9, y) == None;
    assert Lookup(tr, 11, y) == None;
  }

  /** Event 2: its diagnostics and the assignments after it. */
  lemma {:induction false} Event2(x: string, y: string, tr: Tree, fs: seq<Fact>)
    requires |tr.scopes| == 14
    requires Parent(tr, 0) == None
    requires Parent(tr, 9) == Some(0)
    requires LocalsOf(tr, 9) == [Local(x, Pos(17, 26))]
    requires LocalsOf(tr, 0) == []
    ensures EventDiags(tr, Declared(9, x, Pos(17, 26), Initialized, []), fs) == []
    ensures Step(tr, Declared(9, x, Pos(17, 26), Initialized, []), fs) == fs + [Fact(9, x, [])]
  {
    assert Lookup(tr, 0, x) == None;
  }

  /** Event 3: its diagnostics and the assignments after it. */
  lemma {:induction false} Event3(x: string, y: string, tr: Tree, fs: seq<Fact>)
    requires |tr.scopes| == 14
    requires Parent(tr, 0) == None
    requires Parent(tr, 12) == Some(0)
    requires LocalsOf(tr, 12) == [Local(y, Pos(22, 26))]
    requires LocalsOf(tr, 0) == []
    ensures EventDiags(tr, Declared(12, y, Pos(22, 26), Initialized, []), fs) == []
    ensures Step(tr, Declared(12, y, Pos(22, 26), Initialized, []), fs) == fs + [Fact(12, y, [])]
  {
    assert Lookup(tr, 0, y) == None;
  }

  /** The parent and the locals of scope 0. */
  lemma {:induction false} Scope0(x: string, y: string, tr: Tree)
    requires ScopesAre(tr, Layout())
    requires LocalsFit(x, y, tr)
    ensures |tr.scopes| == 14
    ensures Parent(tr, 0) == None
    ensures LocalsOf(tr, 0) == []
  {
    assert tr.scopes[0] == Layout()[0];
    Locals0(x, y);
    assert LocalsOf(tr, 0) == DeclaredBy(x, y, 1, 0);
  }

  /** The parent and the locals of scope 9. */
  lemma {:induction false} Scope9(x: string, y: string, tr: Tree)
    requires ScopesAre(tr, Layout())
    requires LocalsFit(x, y, tr)
    ensures |tr.scopes| == 14
    ensures Parent(tr, 9) == Some(0)
    ensures LocalsOf(tr, 9) == [Local(x, Pos(17, 26))]
  {
    assert tr.scopes[9] == Layout()[9];
    Locals9(x, y);
    assert LocalsOf(tr, 9) == DeclaredBy(x, y, 1, 9);
  }

  /** The parent and the locals of scope 11. */
  lemma {:induction false} Scope11(x: string, y: string, tr: Tree)
    requires ScopesAre(tr, Layout())
    requires LocalsFit(x, y, tr)
    ensures |tr.scopes| == 14
    ensures Parent(tr, 11) == Some(9)
    ensures LocalsOf(tr, 11) == []
  {
    assert tr.scopes[11] == Layout()[11];
    Locals11(x, y);
    assert LocalsOf(tr, 11) == DeclaredBy(x, y, 1, 11);
  }

  /** The parent and the locals of scope 12. */
  lemma {:induction false} Scope12(x: string, y: string, tr: Tree)
    requires ScopesAre(tr, Layout())
    requires LocalsFit(x, y, tr)
    ensures |tr.scopes| == 14
    ensures Parent(tr, 12) == Some(0)
    ensures LocalsOf(tr, 12) == [Local(y, Pos(22, 26))]
  {
    assert tr.scopes[12] == Layout()[12];
    Locals12(x, y);
    assert LocalsOf(tr, 12) == DeclaredBy(x, y, 1, 12);
  }

  /** The analysis of events 0 to 3, after the events before them. */
  lemma {:induction false} Analysed0(x: string, y: string, tr: Tree, evs: seq<Event>, fs: seq<Fact>, rs: seq<Diag>)
    requires |tr.scopes| == 14
    requires Parent(tr, 0) == None
    requires Parent(tr, 9) == Some(0)
    requires Parent(tr, 11) == Some(9)
    requires Parent(tr, 12) == Some(0)
    requires LocalsOf(tr, 0) == []
    requires LocalsOf(tr, 9) == [Local(x, Pos(17, 26))]
    requires LocalsOf(tr, 11) == []
    requires LocalsOf(tr, 12) == [Local(y, Pos(22, 26))]
    requires x != y
    requires Analyse(tr, evs, []) == rs
    requires Replay(tr, evs, []) == fs
    ensures Analyse(tr, evs + Chunk0(x, y), []) == rs + ([] + [Diag(UsedBeforeDeclared, x, Pos(15, 30))] + [Diag(NotInContext, y, Pos(15, 33))] + [] + [])
    ensures Replay(tr, evs + Chunk0(x, y), []) == fs + [Fact(9, x, [])] + [Fact(12, y, [])]
  {
    assert Analyse(tr, [], fs) == [] && Replay(tr, [], fs) == fs;
    Event0(x, y, tr, fs);
    AnalyseSnoc(tr, [], Referenced(11, x, Pos(15, 30), false, false, []), fs);
    assert Analyse(tr, [] + [Referenced(11, x, Pos(15, 30), false, false, [])], fs) == [] + [Diag(UsedBeforeDeclared, x, Pos(15, 30))];
    assert Replay(tr, [] + [Referenced(11, x, Pos(15, 30), false, false, [])], fs) == fs;
    Event1(x, y, tr, fs);
    AnalyseSnoc(tr, [] + [Referenced(11, x, Pos(15, 30), false, false, [])], Referenced(11, y, Pos(15, 33), false, false, []), fs);
    assert Analyse(tr, [] + [Referenced(11, x, Pos(15, 30), false, false, [])] + [Referenced(11, y, Pos(15, 33), false, false, [])], fs) == [] + [Diag(UsedBeforeDeclared, x, Pos(15, 30))] + [Diag(NotInContext, y, Pos(15, 33))];
    assert Replay(tr, [] + [Referenced(11, x, Pos(15, 30), false, false, [])] + [Referenced(11, y, Pos(15, 33), false, false, [])], fs) == fs;
    Event2(x, y, tr, fs);
    AnalyseSnoc(tr, [] + [Referenced(11, x, Pos(15, 30), false, false, [])] + [Referenced(11, y, Pos(15, 33), false, false, [])], Declared(9, x, Pos(17, 26), Initialized, []), fs);
    assert Analyse(tr, [] + [Referenced(11, x, Pos(15, 30), false, false, [])] + [Referenced(11, y, Pos(15, 33), false, false, [])] + [Declared(9, x, Pos(17, 26), Initialized, [])], fs) == [] + [Diag(UsedBeforeDeclared, x, Pos(15, 30))] + [Diag(NotInContext, y, Pos(15, 33))] + [];
    assert Replay(tr, [] + [Referenced(11, x, Pos(15, 30), false, false, [])] + [Referenced(11, y, Pos(15, 33), false, false, [])] + [Declared(9, x, Pos(17, 26), Initialized, [])], fs) == fs + [Fact(9, x, [])];
    Event3(x, y, tr, fs + [Fact(9, x, [])]);
    AnalyseSnoc(tr, [] + [Referenced(11, x, Pos(15, 30), false, false, [])] + [Referenced(11, y, Pos(15, 33), false, false, [])] + [Declared(9, x, Pos(17, 26), Initialized, [])], Declared(12, y, Pos(22, 26), Initialized, []), fs);
    AnalyseSplit(tr, evs, Chunk0(x, y), []);
  }

  lemma {:induction false} Glue0(x: string, y: string, rs: seq<Diag>)
    requires rs == []
    ensures rs + ([] + [Diag(UsedBeforeDeclared, x, Pos(15, 30))] + [Diag(NotInContext, y, Pos(15, 33))] + [] + []) == [Diag(UsedBeforeDeclared, x, Pos(15, 30)), Diag(NotInContext, y, Pos(15, 33))]
  {
  }

  /** The analysis of events 0 to 3, after the events before them. */
  lemma {:induction false} Stage0(x: string, y: string, tr: Tree, evs: seq<Event>)
    requires ScopesAre(tr, Layout())
    requires LocalsFit(x, y, tr)
    requires x != y
    requires Analyse(tr, evs, []) == []
    requires Replay(tr, evs, []) == []
    ensures Analyse(tr, evs + Chunk0(x, y), []) == [Diag(UsedBeforeDeclared, x, Pos(15, 30)), Diag(NotInContext, y, Pos(15, 33))]
    ensures Replay(tr, evs + Chunk0(x, y), []) == Known0(x, y)
  {
    Scope0(x, y, tr);
    Scope9(x, y, tr);
    Scope11(x, y, tr);
    Scope12(x, y, tr);
    Analysed0(x, y, tr, evs, [], []);
    Glue0(x, y, []);
  }

  /** The analysis of a tree with the test's scopes and events. */
  lemma {:induction false} Result(x: string, y: string, tr: Tree)
    requires ScopesAre(tr, Layout()) && LocalsFit(x, y, tr) && tr.events == Trace(x, y)
    requires x != y
    ensures Analyse(tr, tr.events, []) == [Diag(UsedBeforeDeclared, x, Pos(15, 30)), Diag(NotInContext, y, Pos(15, 33))]
  {
    assert Analyse(tr, [], []) == [] && Replay(tr, [], []) == [];
    Stage0(x, y, tr, []);
  }

  /** The diagnostics the test expects, in the order the analysis reports them. */
  lemma {:induction false} Outcome(x: string, y: string)
    requires x != y
    ensures Check(Program(x, y)) == [Diag(UsedBeforeDeclared, x, Pos(15, 30)), Diag(NotInContext, y, Pos(15, 33))]
  {
    Walked(x, y);
    LocalsAll(x, y, Build(Program(x, y)));
    Result(x, y, Build(Program(x, y)));
  }
}

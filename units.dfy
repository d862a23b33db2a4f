/**
 * A whole compilation unit: the walk over its type fragments and members keeps
 * the tree well formed, so its scope diagnostics are exactly the reports of its
 * scopes; and the layout of a unit made of one parameterless method, the form
 * of most of the scenarios.
 */
module Units {
  import opened Syntax
  import opened Scopes
  import opened Binding
  import opened Frames
  import opened Shapes
  import opened Placement
  import opened Reporting

  /** One member, walked after the fragment's two initializer scopes, keeps the tree well formed. */
  lemma {:induction false} MemberWf(m: Member, inst: nat, t: Tree)
    requires Wf(t) && inst + 1 < |t.scopes|
    ensures Wf(WalkMember(m, inst, t)) && |t.scopes| <= |WalkMember(m, inst, t).scopes|
  {
    match m
    case Field(isStatic, init) =>
      var c := Ctx(if isStatic then inst + 1 else inst, [], []);
      ExprsWalked(init, c, t);
      GrowsPreservesWf(t, WalkExprs(init, c, t), c.scope);
    case Const(init) =>
      var t0 := Open(t, ConstInitializer, 0);
      WfOpen(t, ConstInitializer, 0);
      ExprsWalked(init, Ctx(|t.scopes|, [], []), t0);
      GrowsPreservesWf(t0, WalkExprs(init, Ctx(|t.scopes|, [], []), t0), |t.scopes|);
    case Constructor(None, body) =>
      var t0 := Open(t, BlockBody, 0);
      WfOpen(t, BlockBody, 0);
      StmtsWalked(body, Ctx(|t.scopes|, [], []), t0);
      GrowsPreservesWf(t0, WalkStmts(body, Ctx(|t.scopes|, [], []), t0), |t.scopes|);
    case Constructor(Some(args), body) =>
      CtorWf(args, body, t);
    case Method(ps, body) =>
      MethodWf(ps, body, t);
  }

  lemma {:induction false} CtorWf(args: seq<Expr>, body: seq<Stmt>, t: Tree)
    requires Wf(t) && 0 < |t.scopes|
    ensures var u := WalkMember(Constructor(Some(args), body), 0, t); Wf(u) && |t.scopes| <= |u.scopes|
  {
    var ca := Ctx(|t.scopes|, [], []);
    var t0 := Open(t, ConstructorInitializer, 0);
    var ta := WalkExprs(args, ca, t0);
    var tb := Open(ta, BlockBody, ca.scope);
    WfOpen(t, ConstructorInitializer, 0);
    ExprsWalked(args, ca, t0);
    GrowsPreservesWf(t0, ta, ca.scope);
    WfOpen(ta, BlockBody, ca.scope);
    StmtsWalked(body, Ctx(|ta.scopes|, [], []), tb);
    GrowsPreservesWf(tb, WalkStmts(body, Ctx(|ta.scopes|, [], []), tb), |ta.scopes|);
  }

  lemma {:induction false} MethodWf(ps: seq<Param>, body: seq<Stmt>, t: Tree)
    requires Wf(t) && 0 < |t.scopes|
    ensures var u := WalkMember(Method(ps, body), 0, t); Wf(u) && |t.scopes| <= |u.scopes|
  {
    var cm := Ctx(|t.scopes|, [], []);
    var t0 := Open(t, MethodBody, 0);
    var tm := AddParams(ps, cm, t0);
    var tb := Open(tm, BlockBody, cm.scope);
    WfOpen(t, MethodBody, 0);
    ParamsWalked(ps, cm, t0);
    GrowsPreservesWf(t0, tm, cm.scope);
    WfOpen(tm, BlockBody, cm.scope);
    StmtsWalked(body, Ctx(|tm.scopes|, [], []), tb);
    GrowsPreservesWf(tb, WalkStmts(body, Ctx(|tm.scopes|, [], []), tb), |tm.scopes|);
  }

  lemma {:induction false} MembersWf(ms: seq<Member>, inst: nat, t: Tree)
    requires Wf(t) && inst + 1 < |t.scopes|
    ensures Wf(WalkMembers(ms, inst, t)) && |t.scopes| <= |WalkMembers(ms, inst, t).scopes|
    decreases ms
  {
    if ms != [] {
      MemberWf(ms[0], inst, t);
      MembersWf(ms[1..], inst, WalkMember(ms[0], inst, t));
    }
  }

  lemma {:induction false} FragmentWf(f: Fragment, t: Tree)
    requires Wf(t) && |t.scopes| > 0
    ensures Wf(WalkFragment(f, t)) && |t.scopes| < |WalkFragment(f, t).scopes|
  {
    var inst := |t.scopes|;
    var t1 := Open(Open(t, InstanceInitializers, 0), StaticInitializers, 0);
    WfOpen(t, InstanceInitializers, 0);
    WfOpen(Open(t, InstanceInitializers, 0), StaticInitializers, 0);
    match f.primaryBase
    case None =>
      MembersWf(f.members, inst, t1);
    case Some(args) =>
      var t0 := Open(t1, PrimaryBaseArguments, inst);
      var t2 := WalkExprs(args, Ctx(|t1.scopes|, [], []), t0);
      WfOpen(t1, PrimaryBaseArguments, inst);
      ExprsWalked(args, Ctx(|t1.scopes|, [], []), t0);
      GrowsPreservesWf(t0, t2, |t1.scopes|);
      MembersWf(f.members, inst, t2);
  }

  lemma {:induction false} FragmentsWf(fs: seq<Fragment>, t: Tree)
    requires Wf(t) && |t.scopes| > 0
    ensures Wf(WalkFragments(fs, t)) && |t.scopes| <= |WalkFragments(fs, t).scopes|
    decreases fs
  {
    if fs != [] {
      FragmentWf(fs[0], t);
      FragmentsWf(fs[1..], WalkFragment(fs[0], t));
    }
  }

  /** The scope tree of any compilation unit is well formed. */
  lemma BuildWf(unit: seq<Fragment>)
    ensures Wf(Build(unit))
  {
    FragmentsWf(unit, Tree([Scope(Unit, None)], [], 0));
  }

  /**
   * The diagnostics of a unit with a duplicate, shadow, not-in-context or
   * used-before-declared code are exactly those its scopes report.
   */
  lemma UnitReports(unit: seq<Fragment>, d: Diag)
    ensures (d in Check(unit) && Scoped(d.code)) <==> d in Reports(Build(unit), 0, |Build(unit).scopes|)
  {
    BuildWf(unit);
    ReportsExact(Build(unit), d);
  }

  // A unit made of one type with one parameterless method: a test's `Main`.

  function MainUnit(body: seq<Stmt>): seq<Fragment> {
    [Fragment(None, [Method([], body)])]
  }

  /** The tree in which the statements of a main-only unit are walked: unit, instance, static, method and body scopes. */
  function MainHead(): Tree {
    Tree([Scope(Unit, None), Scope(InstanceInitializers, Some(0)), Scope(StaticInitializers, Some(0)),
          Scope(MethodBody, Some(0)), Scope(BlockBody, Some(3))], [], 0)
  }

  lemma MainBuild(body: seq<Stmt>)
    ensures Build(MainUnit(body)) == WalkStmts(body, Ctx(4, [], []), MainHead())
  {
    var t0 := Tree([Scope(Unit, None)], [], 0);
    var t1 := Open(Open(t0, InstanceInitializers, 0), StaticInitializers, 0);
    var cm := Ctx(3, [], []);
    var tm := Open(t1, MethodBody, 0);
    assert AddParams([], cm, tm) == tm;
    assert Open(tm, BlockBody, 3) == MainHead();
    assert WalkMember(Method([], body), 1, t1) == WalkStmts(body, Ctx(4, [], []), MainHead());
    assert [Method([], body)][1..] == [];
    assert WalkMembers([Method([], body)], 1, t1) == WalkMember(Method([], body), 1, t1);
    assert WalkFragment(Fragment(None, [Method([], body)]), t0) == WalkMembers([Method([], body)], 1, t1);
    assert MainUnit(body)[1..] == [];
    assert WalkFragments(MainUnit(body), t0) == WalkFragments([], WalkFragment(MainUnit(body)[0], t0));
  }

  /** In a main-only unit, the method's statements are placed in the body scope 4, which holds their locals. */
  lemma MainPlaced(body: seq<Stmt>)
    ensures var T := Build(MainUnit(body));
      && ListPlaced(body, Ctx(4, [], []), MainHead(), T)
      && |T.scopes| == 5 + StmtsOpens(body)
      && ScopeIn(T, 4, 3, StmtsLocals(body), StmtsRefs(body))
  {
    var T := Build(MainUnit(body));
    MainBuild(body);
    StmtsWalked(body, Ctx(4, [], []), MainHead());
    ClosedNow(T, 5);
  }

  /** Scopes 0 to 3 of a main-only unit declare and reference nothing. */
  lemma MainQuiet(body: seq<Stmt>, x: nat)
    requires x < 4
    ensures LocalsOf(Build(MainUnit(body)), x) == [] && RefsIn(Build(MainUnit(body)).events, x) == []
  {
    MainBuild(body);
    StmtsWalked(body, Ctx(4, [], []), MainHead());
    Untouched(MainHead(), Build(MainUnit(body)), 4, x);
  }

  /** Scopes 0 to 3 of a main-only unit report nothing. */
  lemma MainHeadReports(body: seq<Stmt>)
    ensures Reports(Build(MainUnit(body)), 0, 4) == []
  {
    var T := Build(MainUnit(body));
    MainQuiet(body, 0);
    MainQuiet(body, 1);
    MainQuiet(body, 2);
    MainQuiet(body, 3);
    ReportsStep(T, 0, 4);
    ReportsStep(T, 1, 4);
    ReportsStep(T, 2, 4);
    ReportsStep(T, 3, 4);
    ReportsNone(T, 4);
  }

  /** No name is found from the method scope of a main-only unit: neither it nor the unit declares any. */
  lemma MainOutside(body: seq<Stmt>, n: string)
    ensures Lookup(Build(MainUnit(body)), 3, n) == None
  {
    var T := Build(MainUnit(body));
    MainQuiet(body, 3);
    MainQuiet(body, 0);
    MainBuild(body);
    StmtsWalked(body, Ctx(4, [], []), MainHead());
    assert Parent(T, 3) == Some(0);
  }
}

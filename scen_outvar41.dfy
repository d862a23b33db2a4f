/**
 * The test OutVar_41 (DeclarationExpressionsTests.cs, lines 3453 to 3478).
 *
 * Its program, with its local names left as parameters, is walked into a scope tree and
 * analysed; Outcome states the exact list of diagnostics Check reports, for any names that
 * differ where the outcome depends on it.
 */
module ScenOutVar41 {
  import opened Syntax
  import opened Scopes
  import opened Binding
  import opened Reporting
  import opened Frames
  import opened Units
  import opened Traces

  /** The statements of the test's method, its names left as parameters. */
  function Body(y: string): seq<Stmt> {
    [Exprs([Call([Argument([Declare(y, Pos(6, 22), Out)])] + ([Argument([Use(y, Pos(6, 25), false)])]))])]
  }

  /** The program of the test: one method holding those statements. */
  function Program(y: string): seq<Fragment> {
    MainUnit(Body(y))
  }

  /** Scopes 0 to 4, in the order the walk opens them. */
  function Layout0(): seq<Scope> {
    [Scope(Unit, None),
     Scope(InstanceInitializers, Some(0)),
     Scope(StaticInitializers, Some(0)),
     Scope(MethodBody, Some(0)),
     Scope(BlockBody, Some(3))]
  }

  /** Its scopes, in the order the walk opens them. */
  function Layout(): seq<Scope> {
    Layout0()
  }

  lemma {:induction false} LayoutJoin0()
    ensures [Scope(Unit, None), Scope(InstanceInitializers, Some(0)), Scope(StaticInitializers, Some(0)), Scope(MethodBody, Some(0)), Scope(BlockBody, Some(3))] == Layout0()
  {
  }

  /** The layout, scope by scope. */
  lemma {:induction false} LayoutFlat()
    ensures [Scope(Unit, None), Scope(InstanceInitializers, Some(0)), Scope(StaticInitializers, Some(0)), Scope(MethodBody, Some(0)), Scope(BlockBody, Some(3))] == Layout()
  {
    LayoutJoin0();
  }

  /** Events 0 to 2 of the test, in evaluation order. */
  function Chunk0(y: string): seq<Event> {
    []
      + [Declared(4, y, Pos(6, 22), Out, [])]
      + [Referenced(4, y, Pos(6, 25), false, true, [])]
      + [OutAssigned(4, [y], [])]
  }

  /** The events of the test, in evaluation order. */
  function Trace(y: string): seq<Event> {
    []
      + Chunk0(y)
  }

  lemma {:induction false} Walk1(y: string, tr: Tree)
    requires |tr.scopes| == 5 && tr.arms == 0
    ensures WalkStmt(Exprs([Call([Argument([Declare(y, Pos(6, 22), Out)])] + ([Argument([Use(y, Pos(6, 25), false)])]))]), Ctx(4, [], []), tr) == Tree(tr.scopes, tr.events + [Declared(4, y, Pos(6, 22), Out, [])] + [Referenced(4, y, Pos(6, 25), false, true, [])] + [OutAssigned(4, [y], [])], 0)
  {
    WalkExprsOne(Call([Argument([Declare(y, Pos(6, 22), Out)])] + ([Argument([Use(y, Pos(6, 25), false)])])), Ctx(4, [], []), tr);
    assert OutNames([]) == [];
    WalkArgsCons(Argument([Declare(y, Pos(6, 22), Out)]), [Argument([Use(y, Pos(6, 25), false)])], [], Ctx(4, [], []), tr);
    WalkExprsOne(Declare(y, Pos(6, 22), Out), Ctx(4, [], []), tr);
    assert WalkExpr(Declare(y, Pos(6, 22), Out), Ctx(4, [], []), tr) == Tree(tr.scopes, tr.events + [Declared(4, y, Pos(6, 22), Out, [])], 0);
    assert WalkExprs([Declare(y, Pos(6, 22), Out)], Ctx(4, [], []), tr) == Tree(tr.scopes, tr.events + [Declared(4, y, Pos(6, 22), Out, [])], 0);
    assert [] + [Argument([Declare(y, Pos(6, 22), Out)])] == [Argument([Declare(y, Pos(6, 22), Out)])];
    assert WalkArgs([Argument([Declare(y, Pos(6, 22), Out)])] + ([Argument([Use(y, Pos(6, 25), false)])]), [], Ctx(4, [], []), tr) == WalkArgs([Argument([Use(y, Pos(6, 25), false)])], [Argument([Declare(y, Pos(6, 22), Out)])], Ctx(4, [], []), Tree(tr.scopes, tr.events + [Declared(4, y, Pos(6, 22), Out, [])], 0));
    OutNamesOfOne(Declare(y, Pos(6, 22), Out));
    OutNamesSnoc([], Argument([Declare(y, Pos(6, 22), Out)]));
    assert OutNames([Argument([Declare(y, Pos(6, 22), Out)])]) == [y];
    WalkArgsOne(Argument([Use(y, Pos(6, 25), false)]), [Argument([Declare(y, Pos(6, 22), Out)])], Ctx(4, [], []), Tree(tr.scopes, tr.events + [Declared(4, y, Pos(6, 22), Out, [])], 0));
    WalkExprsOne(Use(y, Pos(6, 25), false), Ctx(4, [], [y]), Tree(tr.scopes, tr.events + [Declared(4, y, Pos(6, 22), Out, [])], 0));
    assert WalkExpr(Use(y, Pos(6, 25), false), Ctx(4, [], [y]), Tree(tr.scopes, tr.events + [Declared(4, y, Pos(6, 22), Out, [])], 0)) == Tree(tr.scopes, tr.events + [Declared(4, y, Pos(6, 22), Out, [])] + [Referenced(4, y, Pos(6, 25), false, true, [])], 0);
    assert WalkExprs([Use(y, Pos(6, 25), false)], Ctx(4, [], [y]), Tree(tr.scopes, tr.events + [Declared(4, y, Pos(6, 22), Out, [])], 0)) == Tree(tr.scopes, tr.events + [Declared(4, y, Pos(6, 22), Out, [])] + [Referenced(4, y, Pos(6, 25), false, true, [])], 0);
    OutNamesOfOne(Use(y, Pos(6, 25), false));
    OutNamesSnoc([Argument([Declare(y, Pos(6, 22), Out)])], Argument([Use(y, Pos(6, 25), false)]));
    assert WalkArgs([Argument([Declare(y, Pos(6, 22), Out)])] + ([Argument([Use(y, Pos(6, 25), false)])]), [], Ctx(4, [], []), tr) == Tree(tr.scopes, tr.events + [Declared(4, y, Pos(6, 22), Out, [])] + [Referenced(4, y, Pos(6, 25), false, true, [])], 0);
    assert OutNames([Argument([Declare(y, Pos(6, 22), Out)])] + ([Argument([Use(y, Pos(6, 25), false)])])) == [y];
    assert WalkExpr(Call([Argument([Declare(y, Pos(6, 22), Out)])] + ([Argument([Use(y, Pos(6, 25), false)])])), Ctx(4, [], []), tr) == Tree(tr.scopes, tr.events + [Declared(4, y, Pos(6, 22), Out, [])] + [Referenced(4, y, Pos(6, 25), false, true, [])] + [OutAssigned(4, [y], [])], 0);
    assert WalkExprs([Call([Argument([Declare(y, Pos(6, 22), Out)])] + ([Argument([Use(y, Pos(6, 25), false)])]))], Ctx(4, [], []), tr) == Tree(tr.scopes, tr.events + [Declared(4, y, Pos(6, 22), Out, [])] + [Referenced(4, y, Pos(6, 25), false, true, [])] + [OutAssigned(4, [y], [])], 0);
    assert WalkStmt(Exprs([Call([Argument([Declare(y, Pos(6, 22), Out)])] + ([Argument([Use(y, Pos(6, 25), false)])]))]), Ctx(4, [], []), tr) == Tree(tr.scopes, tr.events + [Declared(4, y, Pos(6, 22), Out, [])] + [Referenced(4, y, Pos(6, 25), false, true, [])] + [OutAssigned(4, [y], [])], 0);
  }

  lemma {:induction false} Join0(y: string, evs: seq<Event>)
    ensures evs + Chunk0(y) == evs + [Declared(4, y, Pos(6, 22), Out, [])] + [Referenced(4, y, Pos(6, 25), false, true, [])] + [OutAssigned(4, [y], [])]
  {
  }

  /** The trace, event by event. */
  lemma {:induction false} Flat(y: string)
    ensures [] + [Declared(4, y, Pos(6, 22), Out, [])] + [Referenced(4, y, Pos(6, 25), false, true, [])] + [OutAssigned(4, [y], [])] == Trace(y)
  {
    Join0(y, []);
  }

  lemma {:induction false} Walked(y: string)
    ensures Build(Program(y)) == Tree(Layout(), Trace(y), 0)
  {
    MainBuild(Body(y));
    WalkStmtsOne(Exprs([Call([Argument([Declare(y, Pos(6, 22), Out)])] + ([Argument([Use(y, Pos(6, 25), false)])]))]), Ctx(4, [], []), MainHead());
    Walk1(y, MainHead());
    assert WalkStmt(Exprs([Call([Argument([Declare(y, Pos(6, 22), Out)])] + ([Argument([Use(y, Pos(6, 25), false)])]))]), Ctx(4, [], []), MainHead()) == Tree(MainHead().scopes, MainHead().events + [Declared(4, y, Pos(6, 22), Out, [])] + [Referenced(4, y, Pos(6, 25), false, true, [])] + [OutAssigned(4, [y], [])], 0);
    LayoutFlat();
    Flat(y);
  }

  /** The locals events of chunk `ck` declare in scope `sc`, in order. */
  function NewIn(y: string, ck: nat, sc: nat): seq<Local> {
    if ck == 0 then
      if sc == 4 then [] + [Local(y, Pos(6, 22))]
      else []
    else []
  }

  /** The locals the first `ck` chunks declare in scope `sc`, in order. */
  function DeclaredBy(y: string, ck: nat, sc: nat): seq<Local>
    decreases ck
  {
    if ck == 0 then [] else DeclaredBy(y, ck - 1, sc) + NewIn(y, ck - 1, sc)
  }

  /** The locals declared once events 0 to 2 follow some events. */
  lemma {:induction false} Decls0(y: string, evs: seq<Event>, sc: nat)
    requires DeclsIn(evs, sc) == DeclaredBy(y, 0, sc)
    ensures DeclsIn(evs + Chunk0(y), sc) == DeclaredBy(y, 1, sc)
  {
    DeclsInAppend(evs, Chunk0(y), sc);
    assert DeclsIn([], sc) == [];
    if sc == 4 {
      DeclsInAdd([], Declared(4, y, Pos(6, 22), Out, []), 4);
      DeclsInSkip([] + [Declared(4, y, Pos(6, 22), Out, [])], Referenced(4, y, Pos(6, 25), false, true, []), 4);
      DeclsInSkip([] + [Declared(4, y, Pos(6, 22), Out, [])] + [Referenced(4, y, Pos(6, 25), false, true, [])], OutAssigned(4, [y], []), 4);
    } else {
      DeclsInSkip([], Declared(4, y, Pos(6, 22), Out, []), sc);
      DeclsInSkip([] + [Declared(4, y, Pos(6, 22), Out, [])], Referenced(4, y, Pos(6, 25), false, true, []), sc);
      DeclsInSkip([] + [Declared(4, y, Pos(6, 22), Out, [])] + [Referenced(4, y, Pos(6, 25), false, true, [])], OutAssigned(4, [y], []), sc);
      AppendNil(DeclsIn(evs, sc));
    }
  }

  lemma {:induction false} DeclsStage0(y: string, evs: seq<Event>, sc: nat)
    requires DeclsIn(evs, sc) == DeclaredBy(y, 0, sc)
    ensures DeclsIn(evs + Chunk0(y), sc) == DeclaredBy(y, 1, sc)
  {
    Decls0(y, evs, sc);
  }

  /** The locals of every scope of a tree whose events are the test's, as the table gives them. */
  ghost predicate LocalsFit(y: string, tr: Tree) {
    forall sc: nat {:trigger DeclaredBy(y, 1, sc)} :: LocalsOf(tr, sc) == DeclaredBy(y, 1, sc)
  }

  /** The locals of every scope. */
  lemma {:induction false} LocalsAll(y: string, tr: Tree)
    requires tr.events == Trace(y)
    ensures LocalsFit(y, tr)
  {
    forall sc: nat
      ensures LocalsOf(tr, sc) == DeclaredBy(y, 1, sc)
    {
      assert DeclsIn([], sc) == [] == DeclaredBy(y, 0, sc);
      DeclsStage0(y, [], sc);
    }
  }

  /** The locals scope 0 declares, in order. */
  lemma {:induction false} Locals0(y: string)
    ensures DeclaredBy(y, 1, 0) == []
  {
    AppendNil([]);
    assert DeclaredBy(y, 1, 0) == [];
  }

  /** The locals scope 3 declares, in order. */
  lemma {:induction false} Locals3(y: string)
    ensures DeclaredBy(y, 1, 3) == []
  {
    AppendNil([]);
    assert DeclaredBy(y, 1, 3) == [];
  }

  /** The locals scope 4 declares, in order. */
  lemma {:induction false} Locals4(y: string)
    ensures DeclaredBy(y, 1, 4) == [Local(y, Pos(6, 22))]
  {
    assert DeclaredBy(y, 1, 4) == [Local(y, Pos(6, 22))];
  }

  /** The assignments known after event 2. */
  function Known0(y: string): seq<Fact> {
    []
      + [Fact(4, y, [])]
  }

  /** Whether a local is assigned after the assignments of events 0 to 2. */
  lemma {:induction false} Assigned0(y: string, fs: seq<Fact>, sc: nat, nm: string, pth: seq<nat>)
    ensures Assigned(fs + [Fact(4, y, [])], sc, nm, pth) == (
      Assigned(fs, sc, nm, pth) ||
      (4 == sc && y == nm && [] <= pth))
  {
    AssignedSnoc(fs, Fact(4, y, []), sc, nm, pth);
  }

  /** Event 0: its diagnostics and the assignments after it. */
  lemma {:induction false} Event0(y: string, tr: Tree, fs: seq<Fact>)
    requires |tr.scopes| == 5
    requires Parent(tr, 0) == None
    requires Parent(tr, 3) == Some(0)
    requires Parent(tr, 4) == Some(3)
    requires LocalsOf(tr, 4) == [Local(y, Pos(6, 22))]
    requires LocalsOf(tr, 3) == []
    requires LocalsOf(tr, 0) == []
    ensures EventDiags(tr, Declared(4, y, Pos(6, 22), Out, []), fs) == []
    ensures Step(tr, Declared(4, y, Pos(6, 22), Out, []), fs) == fs
  {
    assert Lookup(tr, 0, y) == None;
    assert Lookup(tr, 3, y) == None;
  }

  /** Event 1: its diagnostics and the assignments after it. */
  lemma {:induction false} Event1(y: string, tr: Tree, fs: seq<Fact>)
    requires |tr.scopes| == 5
    requires Parent(tr, 4) == Some(3)
    requires LocalsOf(tr, 4) == [Local(y, Pos(6, 22))]
    requires !Assigned(fs, 4, y, [])
    ensures EventDiags(tr, Referenced(4, y, Pos(6, 25), false, true, []), fs) == [Diag(SameArgumentList, y, Pos(6, 25)), Diag(Unassigned, y, Pos(6, 25))]
    ensures Step(tr, Referenced(4, y, Pos(6, 25), false, true, []), fs) == fs
  {
    assert Local(y, Pos(6, 22)) in LocalsOf(tr, 4);
    assert Lookup(tr, 4, y) == Some(4);
  }

  /** Event 2: its diagnostics and the assignments after it. */
  lemma {:induction false} Event2(y: string, tr: Tree, fs: seq<Fact>)
    ensures EventDiags(tr, OutAssigned(4, [y], []), fs) == []
    ensures Step(tr, OutAssigned(4, [y], []), fs) == fs + [Fact(4, y, [])]
  {
    OutFactsOne(4, y, []);
  }

  /** The parent and the locals of scope 0. */
  lemma {:induction false} Scope0(y: string, tr: Tree)
    requires ScopesAre(tr, Layout())
    requires LocalsFit(y, tr)
    ensures |tr.scopes| == 5
    ensures Parent(tr, 0) == None
    ensures LocalsOf(tr, 0) == []
  {
    assert tr.scopes[0] == Layout()[0];
    Locals0(y);
    assert LocalsOf(tr, 0) == DeclaredBy(y, 1, 0);
  }

  /** The parent and the locals of scope 3. */
  lemma {:induction false} Scope3(y: string, tr: Tree)
    requires ScopesAre(tr, Layout())
    requires LocalsFit(y, tr)
    ensures |tr.scopes| == 5
    ensures Parent(tr, 3) == Some(0)
    ensures LocalsOf(tr, 3) == []
  {
    assert tr.scopes[3] == Layout()[3];
    Locals3(y);
    assert LocalsOf(tr, 3) == DeclaredBy(y, 1, 3);
  }

  /** The parent and the locals of scope 4. */
  lemma {:induction false} Scope4(y: string, tr: Tree)
    requires ScopesAre(tr, Layout())
    requires LocalsFit(y, tr)
    ensures |tr.scopes| == 5
    ensures Parent(tr, 4) == Some(3)
    ensures LocalsOf(tr, 4) == [Local(y, Pos(6, 22))]
  {
    assert tr.scopes[4] == Layout()[4];
    Locals4(y);
    assert LocalsOf(tr, 4) == DeclaredBy(y, 1, 4);
  }

  /** The analysis of events 0 to 2, after the events before them. */
  lemma {:induction false} Analysed0(y: string, tr: Tree, evs: seq<Event>, fs: seq<Fact>, rs: seq<Diag>)
    requires |tr.scopes| == 5
    requires Parent(tr, 0) == None
    requires Parent(tr, 3) == Some(0)
    requires Parent(tr, 4) == Some(3)
    requires LocalsOf(tr, 0) == []
    requires LocalsOf(tr, 3) == []
    requires LocalsOf(tr, 4) == [Local(y, Pos(6, 22))]
    requires Analyse(tr, evs, []) == rs
    requires Replay(tr, evs, []) == fs
    requires !Assigned(fs, 4, y, [])
    ensures Analyse(tr, evs + Chunk0(y), []) == rs + ([] + [] + [Diag(SameArgumentList, y, Pos(6, 25)), Diag(Unassigned, y, Pos(6, 25))] + [])
    ensures Replay(tr, evs + Chunk0(y), []) == fs + [Fact(4, y, [])]
  {
    assert Analyse(tr, [], fs) == [] && Replay(tr, [], fs) == fs;
    Event0(y, tr, fs);
    AnalyseSnoc(tr, [], Declared(4, y, Pos(6, 22), Out, []), fs);
    assert Analyse(tr, [] + [Declared(4, y, Pos(6, 22), Out, [])], fs) == [] + [];
    assert Replay(tr, [] + [Declared(4, y, Pos(6, 22), Out, [])], fs) == fs;
    Event1(y, tr, fs);
    AnalyseSnoc(tr, [] + [Declared(4, y, Pos(6, 22), Out, [])], Referenced(4, y, Pos(6, 25), false, true, []), fs);
    assert Analyse(tr, [] + [Declared(4, y, Pos(6, 22), Out, [])] + [Referenced(4, y, Pos(6, 25), false, true, [])], fs) == [] + [] + [Diag(SameArgumentList, y, Pos(6, 25)), Diag(Unassigned, y, Pos(6, 25))];
    assert Replay(tr, [] + [Declared(4, y, Pos(6, 22), Out, [])] + [Referenced(4, y, Pos(6, 25), false, true, [])], fs) == fs;
    Event2(y, tr, fs);
    AnalyseSnoc(tr, [] + [Declared(4, y, Pos(6, 22), Out, [])] + [Referenced(4, y, Pos(6, 25), false, true, [])], OutAssigned(4, [y], []), fs);
    AnalyseSplit(tr, evs, Chunk0(y), []);
  }

  lemma {:induction false} Glue0(y: string, rs: seq<Diag>)
    requires rs == []
    ensures rs + ([] + [] + [Diag(SameArgumentList, y, Pos(6, 25)), Diag(Unassigned, y, Pos(6, 25))] + []) == [Diag(SameArgumentList, y, Pos(6, 25)), Diag(Unassigned, y, Pos(6, 25))]
  {
  }

  /** The analysis of events 0 to 2, after the events before them. */
  lemma {:induction false} Stage0(y: string, tr: Tree, evs: seq<Event>)
    requires ScopesAre(tr, Layout())
    requires LocalsFit(y, tr)
    requires Analyse(tr, evs, []) == []
    requires Replay(tr, evs, []) == []
    ensures Analyse(tr, evs + Chunk0(y), []) == [Diag(SameArgumentList, y, Pos(6, 25)), Diag(Unassigned, y, Pos(6, 25))]
    ensures Replay(tr, evs + Chunk0(y), []) == Known0(y)
  {
    assert !Assigned([], 4, y, []);
    Scope0(y, tr);
    Scope3(y, tr);
    Scope4(y, tr);
    Analysed0(y, tr, evs, [], []);
    Glue0(y, []);
  }

  /** The analysis of a tree with the test's scopes and events. */
  lemma {:induction false} Result(y: string, tr: Tree)
    requires ScopesAre(tr, Layout()) && LocalsFit(y, tr) && tr.events == Trace(y)
    ensures Analyse(tr, tr.events, []) == [Diag(SameArgumentList, y, Pos(6, 25)), Diag(Unassigned, y, Pos(6, 25))]
  {
    assert Analyse(tr, [], []) == [] && Replay(tr, [], []) == [];
    Stage0(y, tr, []);
  }

  /** The diagnostics the test expects, in the order the analysis reports them. */
  lemma {:induction false} Outcome(y: string)
    ensures Check(Program(y)) == [Diag(SameArgumentList, y, Pos(6, 25)), Diag(Unassigned, y, Pos(6, 25))]
  {
    Walked(y);
    LocalsAll(y, Build(Program(y)));
    Result(y, Build(Program(y)));
  }
}

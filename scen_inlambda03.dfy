/**
 * The test InLambda_03 (DeclarationExpressionsTests.cs, lines 4533 to 4565).
 *
 * Its program, with its local names left as parameters, is walked into a scope tree and
 * analysed; Outcome states the exact list of diagnostics Check reports, for any names that
 * differ where the outcome depends on it.
 */
module ScenInLambda03 {
  import opened Syntax
  import opened Scopes
  import opened Binding
  import opened Reporting
  import opened Frames
  import opened Units
  import opened Traces

  /** The statements of the test's method, its names left as parameters. */
  function Body(f: string, y: string, g: string, z: string, h: string, w: string): seq<Stmt> {
    [Exprs([Declare(f, Pos(8, 20), Initialized)] + ([Lambda([], Exprs([Call([Argument([Declare(y, Pos(8, 57), Out)])])]))]))] + ([Exprs([Call([Argument([Use(y, Pos(9, 27), false)])])])] + ([Exprs([Declare(g, Pos(11, 20), Initialized)] + ([Lambda([], Block([Exprs([Call([Argument([Declare(z, Pos(11, 66), Out)])])])]))]))] + ([Exprs([Call([Argument([Use(z, Pos(12, 27), false)])])])] + ([Exprs([Declare(h, Pos(14, 20), Initialized)] + ([Lambda([], Block([Exprs([Call([Argument([Declare(w, Pos(14, 69), Out)])])])]))]))] + ([Exprs([Call([Argument([Use(w, Pos(15, 27), false)])])])])))))
  }

  /** The program of the test: one method holding those statements. */
  function Program(f: string, y: string, g: string, z: string, h: string, w: string): seq<Fragment> {
    MainUnit(Body(f, y, g, z, h, w))
  }

  /** Scopes 0 to 7, in the order the walk opens them. */
  function Layout0(): seq<Scope> {
    [Scope(Unit, None),
     Scope(InstanceInitializers, Some(0)),
     Scope(StaticInitializers, Some(0)),
     Scope(MethodBody, Some(0)),
     Scope(BlockBody, Some(3)),
     Scope(LambdaBody, Some(4)),
     Scope(LambdaBody, Some(4)),
     Scope(BlockBody, Some(6))]
  }

  /** Scopes 8 to 9, in the order the walk opens them. */
  function Layout1(): seq<Scope> {
    [Scope(LambdaBody, Some(4)),
     Scope(BlockBody, Some(8))]
  }

  /** Its scopes, in the order the walk opens them. */
  function Layout(): seq<Scope> {
    Layout0() + Layout1()
  }

  lemma {:induction false} LayoutJoin0()
    ensures [Scope(Unit, None), Scope(InstanceInitializers, Some(0)), Scope(StaticInitializers, Some(0)), Scope(MethodBody, Some(0)), Scope(BlockBody, Some(3))] + [Scope(LambdaBody, Some(4))] + [Scope(LambdaBody, Some(4))] + [Scope(BlockBody, Some(6))] == Layout0()
  {
  }

  lemma {:induction false} LayoutJoin1(pre: seq<Scope>)
    ensures pre + Layout1() == pre + [Scope(LambdaBody, Some(4))] + [Scope(BlockBody, Some(8))]
  {
  }

  /** The layout, scope by scope. */
  lemma {:induction false} LayoutFlat()
    ensures [Scope(Unit, None), Scope(InstanceInitializers, Some(0)), Scope(StaticInitializers, Some(0)), Scope(MethodBody, Some(0)), Scope(BlockBody, Some(3))] + [Scope(LambdaBody, Some(4))] + [Scope(LambdaBody, Some(4))] + [Scope(BlockBody, Some(6))] + [Scope(LambdaBody, Some(4))] + [Scope(BlockBody, Some(8))] == Layout()
  {
    LayoutJoin0();
    LayoutJoin1(Layout0());
  }

  /** Events 0 to 7 of the test, in evaluation order. */
  function Chunk0(f: string, y: string, g: string, z: string, h: string, w: string): seq<Event> {
    []
      + [Declared(4, f, Pos(8, 20), Initialized, [])]
      + [Declared(5, y, Pos(8, 57), Out, [0])]
      + [OutAssigned(5, [y], [0])]
      + [Referenced(4, y, Pos(9, 27), false, false, [])]
      + [OutAssigned(4, [], [])]
      + [Declared(4, g, Pos(11, 20), Initialized, [])]
      + [Declared(7, z, Pos(11, 66), Out, [1])]
      + [OutAssigned(7, [z], [1])]
  }

  /** Events 8 to 14 of the test, in evaluation order. */
  function Chunk1(f: string, y: string, g: string, z: string, h: string, w: string): seq<Event> {
    []
      + [Referenced(4, z, Pos(12, 27), false, false, [])]
      + [OutAssigned(4, [], [])]
      + [Declared(4, h, Pos(14, 20), Initialized, [])]
      + [Declared(9, w, Pos(14, 69), Out, [2])]
      + [OutAssigned(9, [w], [2])]
      + [Referenced(4, w, Pos(15, 27), false, false, [])]
      + [OutAssigned(4, [], [])]
  }

  /** The events of the test, in evaluation order. */
  function Trace(f: string, y: string, g: string, z: string, h: string, w: string): seq<Event> {
    []
      + Chunk0(f, y, g, z, h, w)
      + Chunk1(f, y, g, z, h, w)
  }

  lemma {:induction false} Walk2(f: string, y: string, g: string, z: string, h: string, w: string, tr: Tree)
    requires |tr.scopes| == 5 && tr.arms == 0
    ensures WalkStmt(Exprs([Declare(f, Pos(8, 20), Initialized)] + ([Lambda([], Exprs([Call([Argument([Declare(y, Pos(8, 57), Out)])])]))])), Ctx(4, [], []), tr) == Tree(tr.scopes + [Scope(LambdaBody, Some(4))], tr.events + [Declared(4, f, Pos(8, 20), Initialized, [])] + [Declared(5, y, Pos(8, 57), Out, [0])] + [OutAssigned(5, [y], [0])], 1)
  {
    WalkExprsCons(Declare(f, Pos(8, 20), Initialized), [Lambda([], Exprs([Call([Argument([Declare(y, Pos(8, 57), Out)])])]))], Ctx(4, [], []), tr);
    assert WalkExpr(Declare(f, Pos(8, 20), Initialized), Ctx(4, [], []), tr) == Tree(tr.scopes, tr.events + [Declared(4, f, Pos(8, 20), Initialized, [])], 0);
    WalkExprsOne(Lambda([], Exprs([Call([Argument([Declare(y, Pos(8, 57), Out)])])])), Ctx(4, [], []), Tree(tr.scopes, tr.events + [Declared(4, f, Pos(8, 20), Initialized, [])], 0));
    assert [] + [0] == [0];
    WalkExprsOne(Call([Argument([Declare(y, Pos(8, 57), Out)])]), Ctx(5, [0], []), Tree(tr.scopes + [Scope(LambdaBody, Some(4))], tr.events + [Declared(4, f, Pos(8, 20), Initialized, [])], 1));
    assert OutNames([]) == [];
    WalkArgsOne(Argument([Declare(y, Pos(8, 57), Out)]), [], Ctx(5, [0], []), Tree(tr.scopes + [Scope(LambdaBody, Some(4))], tr.events + [Declared(4, f, Pos(8, 20), Initialized, [])], 1));
    WalkExprsOne(Declare(y, Pos(8, 57), Out), Ctx(5, [0], []), Tree(tr.scopes + [Scope(LambdaBody, Some(4))], tr.events + [Declared(4, f, Pos(8, 20), Initialized, [])], 1));
    assert WalkExpr(Declare(y, Pos(8, 57), Out), Ctx(5, [0], []), Tree(tr.scopes + [Scope(LambdaBody, Some(4))], tr.events + [Declared(4, f, Pos(8, 20), Initialized, [])], 1)) == Tree(tr.scopes + [Scope(LambdaBody, Some(4))], tr.events + [Declared(4, f, Pos(8, 20), Initialized, [])] + [Declared(5, y, Pos(8, 57), Out, [0])], 1);
    assert WalkExprs([Declare(y, Pos(8, 57), Out)], Ctx(5, [0], []), Tree(tr.scopes + [Scope(LambdaBody, Some(4))], tr.events + [Declared(4, f, Pos(8, 20), Initialized, [])], 1)) == Tree(tr.scopes + [Scope(LambdaBody, Some(4))], tr.events + [Declared(4, f, Pos(8, 20), Initialized, [])] + [Declared(5, y, Pos(8, 57), Out, [0])], 1);
    OutNamesOfOne(Declare(y, Pos(8, 57), Out));
    OutNamesSnoc([], Argument([Declare(y, Pos(8, 57), Out)]));
    assert WalkArgs([Argument([Declare(y, Pos(8, 57), Out)])], [], Ctx(5, [0], []), Tree(tr.scopes + [Scope(LambdaBody, Some(4))], tr.events + [Declared(4, f, Pos(8, 20), Initialized, [])], 1)) == Tree(tr.scopes + [Scope(LambdaBody, Some(4))], tr.events + [Declared(4, f, Pos(8, 20), Initialized, [])] + [Declared(5, y, Pos(8, 57), Out, [0])], 1);
    assert OutNames([Argument([Declare(y, Pos(8, 57), Out)])]) == [y];
    assert WalkExpr(Call([Argument([Declare(y, Pos(8, 57), Out)])]), Ctx(5, [0], []), Tree(tr.scopes + [Scope(LambdaBody, Some(4))], tr.events + [Declared(4, f, Pos(8, 20), Initialized, [])], 1)) == Tree(tr.scopes + [Scope(LambdaBody, Some(4))], tr.events + [Declared(4, f, Pos(8, 20), Initialized, [])] + [Declared(5, y, Pos(8, 57), Out, [0])] + [OutAssigned(5, [y], [0])], 1);
    assert WalkExprs([Call([Argument([Declare(y, Pos(8, 57), Out)])])], Ctx(5, [0], []), Tree(tr.scopes + [Scope(LambdaBody, Some(4))], tr.events + [Declared(4, f, Pos(8, 20), Initialized, [])], 1)) == Tree(tr.scopes + [Scope(LambdaBody, Some(4))], tr.events + [Declared(4, f, Pos(8, 20), Initialized, [])] + [Declared(5, y, Pos(8, 57), Out, [0])] + [OutAssigned(5, [y], [0])], 1);
    assert WalkStmt(Exprs([Call([Argument([Declare(y, Pos(8, 57), Out)])])]), Ctx(5, [0], []), Tree(tr.scopes + [Scope(LambdaBody, Some(4))], tr.events + [Declared(4, f, Pos(8, 20), Initialized, [])], 1)) == Tree(tr.scopes + [Scope(LambdaBody, Some(4))], tr.events + [Declared(4, f, Pos(8, 20), Initialized, [])] + [Declared(5, y, Pos(8, 57), Out, [0])] + [OutAssigned(5, [y], [0])], 1);
    assert WalkExpr(Lambda([], Exprs([Call([Argument([Declare(y, Pos(8, 57), Out)])])])), Ctx(4, [], []), Tree(tr.scopes, tr.events + [Declared(4, f, Pos(8, 20), Initialized, [])], 0)) == Tree(tr.scopes + [Scope(LambdaBody, Some(4))], tr.events + [Declared(4, f, Pos(8, 20), Initialized, [])] + [Declared(5, y, Pos(8, 57), Out, [0])] + [OutAssigned(5, [y], [0])], 1);
    assert WalkExprs([Declare(f, Pos(8, 20), Initialized)] + ([Lambda([], Exprs([Call([Argument([Declare(y, Pos(8, 57), Out)])])]))]), Ctx(4, [], []), tr) == Tree(tr.scopes + [Scope(LambdaBody, Some(4))], tr.events + [Declared(4, f, Pos(8, 20), Initialized, [])] + [Declared(5, y, Pos(8, 57), Out, [0])] + [OutAssigned(5, [y], [0])], 1);
    assert WalkStmt(Exprs([Declare(f, Pos(8, 20), Initialized)] + ([Lambda([], Exprs([Call([Argument([Declare(y, Pos(8, 57), Out)])])]))])), Ctx(4, [], []), tr) == Tree(tr.scopes + [Scope(LambdaBody, Some(4))], tr.events + [Declared(4, f, Pos(8, 20), Initialized, [])] + [Declared(5, y, Pos(8, 57), Out, [0])] + [OutAssigned(5, [y], [0])], 1);
  }

  lemma {:induction false} Walk3(f: string, y: string, g: string, z: string, h: string, w: string, tr: Tree)
    requires |tr.scopes| == 6 && tr.arms == 1
    ensures WalkStmt(Exprs([Call([Argument([Use(y, Pos(9, 27), false)])])]), Ctx(4, [], []), tr) == Tree(tr.scopes, tr.events + [Referenced(4, y, Pos(9, 27), false, false, [])] + [OutAssigned(4, [], [])], 1)
  {
    WalkExprsOne(Call([Argument([Use(y, Pos(9, 27), false)])]), Ctx(4, [], []), tr);
    assert OutNames([]) == [];
    WalkArgsOne(Argument([Use(y, Pos(9, 27), false)]), [], Ctx(4, [], []), tr);
    WalkExprsOne(Use(y, Pos(9, 27), false), Ctx(4, [], []), tr);
    assert WalkExpr(Use(y, Pos(9, 27), false), Ctx(4, [], []), tr) == Tree(tr.scopes, tr.events + [Referenced(4, y, Pos(9, 27), false, false, [])], 1);
    assert WalkExprs([Use(y, Pos(9, 27), false)], Ctx(4, [], []), tr) == Tree(tr.scopes, tr.events + [Referenced(4, y, Pos(9, 27), false, false, [])], 1);
    OutNamesOfOne(Use(y, Pos(9, 27), false));
    OutNamesSnoc([], Argument([Use(y, Pos(9, 27), false)]));
    assert WalkArgs([Argument([Use(y, Pos(9, 27), false)])], [], Ctx(4, [], []), tr) == Tree(tr.scopes, tr.events + [Referenced(4, y, Pos(9, 27), false, false, [])], 1);
    assert OutNames([Argument([Use(y, Pos(9, 27), false)])]) == [];
    assert WalkExpr(Call([Argument([Use(y, Pos(9, 27), false)])]), Ctx(4, [], []), tr) == Tree(tr.scopes, tr.events + [Referenced(4, y, Pos(9, 27), false, false, [])] + [OutAssigned(4, [], [])], 1);
    assert WalkExprs([Call([Argument([Use(y, Pos(9, 27), false)])])], Ctx(4, [], []), tr) == Tree(tr.scopes, tr.events + [Referenced(4, y, Pos(9, 27), false, false, [])] + [OutAssigned(4, [], [])], 1);
    assert WalkStmt(Exprs([Call([Argument([Use(y, Pos(9, 27), false)])])]), Ctx(4, [], []), tr) == Tree(tr.scopes, tr.events + [Referenced(4, y, Pos(9, 27), false, false, [])] + [OutAssigned(4, [], [])], 1);
  }

  lemma {:induction false} Walk5(f: string, y: string, g: string, z: string, h: string, w: string, tr: Tree)
    requires |tr.scopes| == 8 && tr.arms == 2
    ensures WalkStmt(Exprs([Call([Argument([Declare(z, Pos(11, 66), Out)])])]), Ctx(7, [1], []), tr) == Tree(tr.scopes, tr.events + [Declared(7, z, Pos(11, 66), Out, [1])] + [OutAssigned(7, [z], [1])], 2)
  {
    WalkExprsOne(Call([Argument([Declare(z, Pos(11, 66), Out)])]), Ctx(7, [1], []), tr);
    assert OutNames([]) == [];
    WalkArgsOne(Argument([Declare(z, Pos(11, 66), Out)]), [], Ctx(7, [1], []), tr);
    WalkExprsOne(Declare(z, Pos(11, 66), Out), Ctx(7, [1], []), tr);
    assert WalkExpr(Declare(z, Pos(11, 66), Out), Ctx(7, [1], []), tr) == Tree(tr.scopes, tr.events + [Declared(7, z, Pos(11, 66), Out, [1])], 2);
    assert WalkExprs([Declare(z, Pos(11, 66), Out)], Ctx(7, [1], []), tr) == Tree(tr.scopes, tr.events + [Declared(7, z, Pos(11, 66), Out, [1])], 2);
    OutNamesOfOne(Declare(z, Pos(11, 66), Out));
    OutNamesSnoc([], Argument([Declare(z, Pos(11, 66), Out)]));
    assert WalkArgs([Argument([Declare(z, Pos(11, 66), Out)])], [], Ctx(7, [1], []), tr) == Tree(tr.scopes, tr.events + [Declared(7, z, Pos(11, 66), Out, [1])], 2);
    assert OutNames([Argument([Declare(z, Pos(11, 66), Out)])]) == [z];
    assert WalkExpr(Call([Argument([Declare(z, Pos(11, 66), Out)])]), Ctx(7, [1], []), tr) == Tree(tr.scopes, tr.events + [Declared(7, z, Pos(11, 66), Out, [1])] + [OutAssigned(7, [z], [1])], 2);
    assert WalkExprs([Call([Argument([Declare(z, Pos(11, 66), Out)])])], Ctx(7, [1], []), tr) == Tree(tr.scopes, tr.events + [Declared(7, z, Pos(11, 66), Out, [1])] + [OutAssigned(7, [z], [1])], 2);
    assert WalkStmt(Exprs([Call([Argument([Declare(z, Pos(11, 66), Out)])])]), Ctx(7, [1], []), tr) == Tree(tr.scopes, tr.events + [Declared(7, z, Pos(11, 66), Out, [1])] + [OutAssigned(7, [z], [1])], 2);
  }

  lemma {:induction false} Walk4(f: string, y: string, g: string, z: string, h: string, w: string, tr: Tree)
    requires |tr.scopes| == 6 && tr.arms == 1
    ensures WalkStmt(Exprs([Declare(g, Pos(11, 20), Initialized)] + ([Lambda([], Block([Exprs([Call([Argument([Declare(z, Pos(11, 66), Out)])])])]))])), Ctx(4, [], []), tr) == Tree(tr.scopes + [Scope(LambdaBody, Some(4))] + [Scope(BlockBody, Some(6))], tr.events + [Declared(4, g, Pos(11, 20), Initialized, [])] + [Declared(7, z, Pos(11, 66), Out, [1])] + [OutAssigned(7, [z], [1])], 2)
  {
    WalkExprsCons(Declare(g, Pos(11, 20), Initialized), [Lambda([], Block([Exprs([Call([Argument([Declare(z, Pos(11, 66), Out)])])])]))], Ctx(4, [], []), tr);
    assert WalkExpr(Declare(g, Pos(11, 20), Initialized), Ctx(4, [], []), tr) == Tree(tr.scopes, tr.events + [Declared(4, g, Pos(11, 20), Initialized, [])], 1);
    WalkExprsOne(Lambda([], Block([Exprs([Call([Argument([Declare(z, Pos(11, 66), Out)])])])])), Ctx(4, [], []), Tree(tr.scopes, tr.events + [Declared(4, g, Pos(11, 20), Initialized, [])], 1));
    assert [] + [1] == [1];
    WalkStmtsOne(Exprs([Call([Argument([Declare(z, Pos(11, 66), Out)])])]), Ctx(7, [1], []), Tree(tr.scopes + [Scope(LambdaBody, Some(4))] + [Scope(BlockBody, Some(6))], tr.events + [Declared(4, g, Pos(11, 20), Initialized, [])], 2));
    Walk5(f, y, g, z, h, w, Tree(tr.scopes + [Scope(LambdaBody, Some(4))] + [Scope(BlockBody, Some(6))], tr.events + [Declared(4, g, Pos(11, 20), Initialized, [])], 2));
    assert WalkStmt(Exprs([Call([Argument([Declare(z, Pos(11, 66), Out)])])]), Ctx(7, [1], []), Tree(tr.scopes + [Scope(LambdaBody, Some(4))] + [Scope(BlockBody, Some(6))], tr.events + [Declared(4, g, Pos(11, 20), Initialized, [])], 2)) == Tree(tr.scopes + [Scope(LambdaBody, Some(4))] + [Scope(BlockBody, Some(6))], tr.events + [Declared(4, g, Pos(11, 20), Initialized, [])] + [Declared(7, z, Pos(11, 66), Out, [1])] + [OutAssigned(7, [z], [1])], 2);
    assert WalkStmt(Block([Exprs([Call([Argument([Declare(z, Pos(11, 66), Out)])])])]), Ctx(6, [1], []), Tree(tr.scopes + [Scope(LambdaBody, Some(4))], tr.events + [Declared(4, g, Pos(11, 20), Initialized, [])], 2)) == Tree(tr.scopes + [Scope(LambdaBody, Some(4))] + [Scope(BlockBody, Some(6))], tr.events + [Declared(4, g, Pos(11, 20), Initialized, [])] + [Declared(7, z, Pos(11, 66), Out, [1])] + [OutAssigned(7, [z], [1])], 2);
    assert WalkExpr(Lambda([], Block([Exprs([Call([Argument([Declare(z, Pos(11, 66), Out)])])])])), Ctx(4, [], []), Tree(tr.scopes, tr.events + [Declared(4, g, Pos(11, 20), Initialized, [])], 1)) == Tree(tr.scopes + [Scope(LambdaBody, Some(4))] + [Scope(BlockBody, Some(6))], tr.events + [Declared(4, g, Pos(11, 20), Initialized, [])] + [Declared(7, z, Pos(11, 66), Out, [1])] + [OutAssigned(7, [z], [1])], 2);
    assert WalkExprs([Declare(g, Pos(11, 20), Initialized)] + ([Lambda([], Block([Exprs([Call([Argument([Declare(z, Pos(11, 66), Out)])])])]))]), Ctx(4, [], []), tr) == Tree(tr.scopes + [Scope(LambdaBody, Some(4))] + [Scope(BlockBody, Some(6))], tr.events + [Declared(4, g, Pos(11, 20), Initialized, [])] + [Declared(7, z, Pos(11, 66), Out, [1])] + [OutAssigned(7, [z], [1])], 2);
    assert WalkStmt(Exprs([Declare(g, Pos(11, 20), Initialized)] + ([Lambda([], Block([Exprs([Call([Argument([Declare(z, Pos(11, 66), Out)])])])]))])), Ctx(4, [], []), tr) == Tree(tr.scopes + [Scope(LambdaBody, Some(4))] + [Scope(BlockBody, Some(6))], tr.events + [Declared(4, g, Pos(11, 20), Initialized, [])] + [Declared(7, z, Pos(11, 66), Out, [1])] + [OutAssigned(7, [z], [1])], 2);
  }

  lemma {:induction false} Walk6(f: string, y: string, g: string, z: string, h: string, w: string, tr: Tree)
    requires |tr.scopes| == 8 && tr.arms == 2
    ensures WalkStmt(Exprs([Call([Argument([Use(z, Pos(12, 27), false)])])]), Ctx(4, [], []), tr) == Tree(tr.scopes, tr.events + [Referenced(4, z, Pos(12, 27), false, false, [])] + [OutAssigned(4, [], [])], 2)
  {
    WalkExprsOne(Call([Argument([Use(z, Pos(12, 27), false)])]), Ctx(4, [], []), tr);
    assert OutNames([]) == [];
    WalkArgsOne(Argument([Use(z, Pos(12, 27), false)]), [], Ctx(4, [], []), tr);
    WalkExprsOne(Use(z, Pos(12, 27), false), Ctx(4, [], []), tr);
    assert WalkExpr(Use(z, Pos(12, 27), false), Ctx(4, [], []), tr) == Tree(tr.scopes, tr.events + [Referenced(4, z, Pos(12, 27), false, false, [])], 2);
    assert WalkExprs([Use(z, Pos(12, 27), false)], Ctx(4, [], []), tr) == Tree(tr.scopes, tr.events + [Referenced(4, z, Pos(12, 27), false, false, [])], 2);
    OutNamesOfOne(Use(z, Pos(12, 27), false));
    OutNamesSnoc([], Argument([Use(z, Pos(12, 27), false)]));
    assert WalkArgs([Argument([Use(z, Pos(12, 27), false)])], [], Ctx(4, [], []), tr) == Tree(tr.scopes, tr.events + [Referenced(4, z, Pos(12, 27), false, false, [])], 2);
    assert OutNames([Argument([Use(z, Pos(12, 27), false)])]) == [];
    assert WalkExpr(Call([Argument([Use(z, Pos(12, 27), false)])]), Ctx(4, [], []), tr) == Tree(tr.scopes, tr.events + [Referenced(4, z, Pos(12, 27), false, false, [])] + [OutAssigned(4, [], [])], 2);
    assert WalkExprs([Call([Argument([Use(z, Pos(12, 27), false)])])], Ctx(4, [], []), tr) == Tree(tr.scopes, tr.events + [Referenced(4, z, Pos(12, 27), false, false, [])] + [OutAssigned(4, [], [])], 2);
    assert WalkStmt(Exprs([Call([Argument([Use(z, Pos(12, 27), false)])])]), Ctx(4, [], []), tr) == Tree(tr.scopes, tr.events + [Referenced(4, z, Pos(12, 27), false, false, [])] + [OutAssigned(4, [], [])], 2);
  }

  lemma {:induction false} Stmts1(f: string, y: string, g: string, z: string, h: string, w: string, tr: Tree, rest: seq<Stmt>)
    requires |tr.scopes| == 5 && tr.arms == 0
    ensures WalkStmts([Exprs([Declare(f, Pos(8, 20), Initialized)] + ([Lambda([], Exprs([Call([Argument([Declare(y, Pos(8, 57), Out)])])]))]))] + ([Exprs([Call([Argument([Use(y, Pos(9, 27), false)])])])] + ([Exprs([Declare(g, Pos(11, 20), Initialized)] + ([Lambda([], Block([Exprs([Call([Argument([Declare(z, Pos(11, 66), Out)])])])]))]))] + ([Exprs([Call([Argument([Use(z, Pos(12, 27), false)])])])] + (rest)))), Ctx(4, [], []), tr) == WalkStmts(rest, Ctx(4, [], []), Tree(tr.scopes + [Scope(LambdaBody, Some(4))] + [Scope(LambdaBody, Some(4))] + [Scope(BlockBody, Some(6))], tr.events + [Declared(4, f, Pos(8, 20), Initialized, [])] + [Declared(5, y, Pos(8, 57), Out, [0])] + [OutAssigned(5, [y], [0])] + [Referenced(4, y, Pos(9, 27), false, false, [])] + [OutAssigned(4, [], [])] + [Declared(4, g, Pos(11, 20), Initialized, [])] + [Declared(7, z, Pos(11, 66), Out, [1])] + [OutAssigned(7, [z], [1])] + [Referenced(4, z, Pos(12, 27), false, false, [])] + [OutAssigned(4, [], [])], 2))
  {
    WalkStmtsCons(Exprs([Declare(f, Pos(8, 20), Initialized)] + ([Lambda([], Exprs([Call([Argument([Declare(y, Pos(8, 57), Out)])])]))])), [Exprs([Call([Argument([Use(y, Pos(9, 27), false)])])])] + ([Exprs([Declare(g, Pos(11, 20), Initialized)] + ([Lambda([], Block([Exprs([Call([Argument([Declare(z, Pos(11, 66), Out)])])])]))]))] + ([Exprs([Call([Argument([Use(z, Pos(12, 27), false)])])])] + (rest))), Ctx(4, [], []), tr);
    Walk2(f, y, g, z, h, w, tr);
    assert WalkStmt(Exprs([Declare(f, Pos(8, 20), Initialized)] + ([Lambda([], Exprs([Call([Argument([Declare(y, Pos(8, 57), Out)])])]))])), Ctx(4, [], []), tr) == Tree(tr.scopes + [Scope(LambdaBody, Some(4))], tr.events + [Declared(4, f, Pos(8, 20), Initialized, [])] + [Declared(5, y, Pos(8, 57), Out, [0])] + [OutAssigned(5, [y], [0])], 1);
    WalkStmtsCons(Exprs([Call([Argument([Use(y, Pos(9, 27), false)])])]), [Exprs([Declare(g, Pos(11, 20), Initialized)] + ([Lambda([], Block([Exprs([Call([Argument([Declare(z, Pos(11, 66), Out)])])])]))]))] + ([Exprs([Call([Argument([Use(z, Pos(12, 27), false)])])])] + (rest)), Ctx(4, [], []), Tree(tr.scopes + [Scope(LambdaBody, Some(4))], tr.events + [Declared(4, f, Pos(8, 20), Initialized, [])] + [Declared(5, y, Pos(8, 57), Out, [0])] + [OutAssigned(5, [y], [0])], 1));
    Walk3(f, y, g, z, h, w, Tree(tr.scopes + [Scope(LambdaBody, Some(4))], tr.events + [Declared(4, f, Pos(8, 20), Initialized, [])] + [Declared(5, y, Pos(8, 57), Out, [0])] + [OutAssigned(5, [y], [0])], 1));
    assert WalkStmt(Exprs([Call([Argument([Use(y, Pos(9, 27), false)])])]), Ctx(4, [], []), Tree(tr.scopes + [Scope(LambdaBody, Some(4))], tr.events + [Declared(4, f, Pos(8, 20), Initialized, [])] + [Declared(5, y, Pos(8, 57), Out, [0])] + [OutAssigned(5, [y], [0])], 1)) == Tree(tr.scopes + [Scope(LambdaBody, Some(4))], tr.events + [Declared(4, f, Pos(8, 20), Initialized, [])] + [Declared(5, y, Pos(8, 57), Out, [0])] + [OutAssigned(5, [y], [0])] + [Referenced(4, y, Pos(9, 27), false, false, [])] + [OutAssigned(4, [], [])], 1);
    WalkStmtsCons(Exprs([Declare(g, Pos(11, 20), Initialized)] + ([Lambda([], Block([Exprs([Call([Argument([Declare(z, Pos(11, 66), Out)])])])]))])), [Exprs([Call([Argument([Use(z, Pos(12, 27), false)])])])] + (rest), Ctx(4, [], []), Tree(tr.scopes + [Scope(LambdaBody, Some(4))], tr.events + [Declared(4, f, Pos(8, 20), Initialized, [])] + [Declared(5, y, Pos(8, 57), Out, [0])] + [OutAssigned(5, [y], [0])] + [Referenced(4, y, Pos(9, 27), false, false, [])] + [OutAssigned(4, [], [])], 1));
    Walk4(f, y, g, z, h, w, Tree(tr.scopes + [Scope(LambdaBody, Some(4))], tr.events + [Declared(4, f, Pos(8, 20), Initialized, [])] + [Declared(5, y, Pos(8, 57), Out, [0])] + [OutAssigned(5, [y], [0])] + [Referenced(4, y, Pos(9, 27), false, false, [])] + [OutAssigned(4, [], [])], 1));
    assert WalkStmt(Exprs([Declare(g, Pos(11, 20), Initialized)] + ([Lambda([], Block([Exprs([Call([Argument([Declare(z, Pos(11, 66), Out)])])])]))])), Ctx(4, [], []), Tree(tr.scopes + [Scope(LambdaBody, Some(4))], tr.events + [Declared(4, f, Pos(8, 20), Initialized, [])] + [Declared(5, y, Pos(8, 57), Out, [0])] + [OutAssigned(5, [y], [0])] + [Referenced(4, y, Pos(9, 27), false, false, [])] + [OutAssigned(4, [], [])], 1)) == Tree(tr.scopes + [Scope(LambdaBody, Some(4))] + [Scope(LambdaBody, Some(4))] + [Scope(BlockBody, Some(6))], tr.events + [Declared(4, f, Pos(8, 20), Initialized, [])] + [Declared(5, y, Pos(8, 57), Out, [0])] + [OutAssigned(5, [y], [0])] + [Referenced(4, y, Pos(9, 27), false, false, [])] + [OutAssigned(4, [], [])] + [Declared(4, g, Pos(11, 20), Initialized, [])] + [Declared(7, z, Pos(11, 66), Out, [1])] + [OutAssigned(7, [z], [1])], 2);
    WalkStmtsCons(Exprs([Call([Argument([Use(z, Pos(12, 27), false)])])]), rest, Ctx(4, [], []), Tree(tr.scopes + [Scope(LambdaBody, Some(4))] + [Scope(LambdaBody, Some(4))] + [Scope(BlockBody, Some(6))], tr.events + [Declared(4, f, Pos(8, 20), Initialized, [])] + [Declared(5, y, Pos(8, 57), Out, [0])] + [OutAssigned(5, [y], [0])] + [Referenced(4, y, Pos(9, 27), false, false, [])] + [OutAssigned(4, [], [])] + [Declared(4, g, Pos(11, 20), Initialized, [])] + [Declared(7, z, Pos(11, 66), Out, [1])] + [OutAssigned(7, [z], [1])], 2));
    Walk6(f, y, g, z, h, w, Tree(tr.scopes + [Scope(LambdaBody, Some(4))] + [Scope(LambdaBody, Some(4))] + [Scope(BlockBody, Some(6))], tr.events + [Declared(4, f, Pos(8, 20), Initialized, [])] + [Declared(5, y, Pos(8, 57), Out, [0])] + [OutAssigned(5, [y], [0])] + [Referenced(4, y, Pos(9, 27), false, false, [])] + [OutAssigned(4, [], [])] + [Declared(4, g, Pos(11, 20), Initialized, [])] + [Declared(7, z, Pos(11, 66), Out, [1])] + [OutAssigned(7, [z], [1])], 2));
    assert WalkStmt(Exprs([Call([Argument([Use(z, Pos(12, 27), false)])])]), Ctx(4, [], []), Tree(tr.scopes + [Scope(LambdaBody, Some(4))] + [Scope(LambdaBody, Some(4))] + [Scope(BlockBody, Some(6))], tr.events + [Declared(4, f, Pos(8, 20), Initialized, [])] + [Declared(5, y, Pos(8, 57), Out, [0])] + [OutAssigned(5, [y], [0])] + [Referenced(4, y, Pos(9, 27), false, false, [])] + [OutAssigned(4, [], [])] + [Declared(4, g, Pos(11, 20), Initialized, [])] + [Declared(7, z, Pos(11, 66), Out, [1])] + [OutAssigned(7, [z], [1])], 2)) == Tree(tr.scopes + [Scope(LambdaBody, Some(4))] + [Scope(LambdaBody, Some(4))] + [Scope(BlockBody, Some(6))], tr.events + [Declared(4, f, Pos(8, 20), Initialized, [])] + [Declared(5, y, Pos(8, 57), Out, [0])] + [OutAssigned(5, [y], [0])] + [Referenced(4, y, Pos(9, 27), false, false, [])] + [OutAssigned(4, [], [])] + [Declared(4, g, Pos(11, 20), Initialized, [])] + [Declared(7, z, Pos(11, 66), Out, [1])] + [OutAssigned(7, [z], [1])] + [Referenced(4, z, Pos(12, 27), false, false, [])] + [OutAssigned(4, [], [])], 2);
  }

  lemma {:induction false} Walk9(f: string, y: string, g: string, z: string, h: string, w: string, tr: Tree)
    requires |tr.scopes| == 10 && tr.arms == 3
    ensures WalkStmt(Exprs([Call([Argument([Declare(w, Pos(14, 69), Out)])])]), Ctx(9, [2], []), tr) == Tree(tr.scopes, tr.events + [Declared(9, w, Pos(14, 69), Out, [2])] + [OutAssigned(9, [w], [2])], 3)
  {
    WalkExprsOne(Call([Argument([Declare(w, Pos(14, 69), Out)])]), Ctx(9, [2], []), tr);
    assert OutNames([]) == [];
    WalkArgsOne(Argument([Declare(w, Pos(14, 69), Out)]), [], Ctx(9, [2], []), tr);
    WalkExprsOne(Declare(w, Pos(14, 69), Out), Ctx(9, [2], []), tr);
    assert WalkExpr(Declare(w, Pos(14, 69), Out), Ctx(9, [2], []), tr) == Tree(tr.scopes, tr.events + [Declared(9, w, Pos(14, 69), Out, [2])], 3);
    assert WalkExprs([Declare(w, Pos(14, 69), Out)], Ctx(9, [2], []), tr) == Tree(tr.scopes, tr.events + [Declared(9, w, Pos(14, 69), Out, [2])], 3);
    OutNamesOfOne(Declare(w, Pos(14, 69), Out));
    OutNamesSnoc([], Argument([Declare(w, Pos(14, 69), Out)]));
    assert WalkArgs([Argument([Declare(w, Pos(14, 69), Out)])], [], Ctx(9, [2], []), tr) == Tree(tr.scopes, tr.events + [Declared(9, w, Pos(14, 69), Out, [2])], 3);
    assert OutNames([Argument([Declare(w, Pos(14, 69), Out)])]) == [w];
    assert WalkExpr(Call([Argument([Declare(w, Pos(14, 69), Out)])]), Ctx(9, [2], []), tr) == Tree(tr.scopes, tr.events + [Declared(9, w, Pos(14, 69), Out, [2])] + [OutAssigned(9, [w], [2])], 3);
    assert WalkExprs([Call([Argument([Declare(w, Pos(14, 69), Out)])])], Ctx(9, [2], []), tr) == Tree(tr.scopes, tr.events + [Declared(9, w, Pos(14, 69), Out, [2])] + [OutAssigned(9, [w], [2])], 3);
    assert WalkStmt(Exprs([Call([Argument([Declare(w, Pos(14, 69), Out)])])]), Ctx(9, [2], []), tr) == Tree(tr.scopes, tr.events + [Declared(9, w, Pos(14, 69), Out, [2])] + [OutAssigned(9, [w], [2])], 3);
  }

  lemma {:induction false} Walk8(f: string, y: string, g: string, z: string, h: string, w: string, tr: Tree)
    requires |tr.scopes| == 8 && tr.arms == 2
    ensures WalkStmt(Exprs([Declare(h, Pos(14, 20), Initialized)] + ([Lambda([], Block([Exprs([Call([Argument([Declare(w, Pos(14, 69), Out)])])])]))])), Ctx(4, [], []), tr) == Tree(tr.scopes + [Scope(LambdaBody, Some(4))] + [Scope(BlockBody, Some(8))], tr.events + [Declared(4, h, Pos(14, 20), Initialized, [])] + [Declared(9, w, Pos(14, 69), Out, [2])] + [OutAssigned(9, [w], [2])], 3)
  {
    WalkExprsCons(Declare(h, Pos(14, 20), Initialized), [Lambda([], Block([Exprs([Call([Argument([Declare(w, Pos(14, 69), Out)])])])]))], Ctx(4, [], []), tr);
    assert WalkExpr(Declare(h, Pos(14, 20), Initialized), Ctx(4, [], []), tr) == Tree(tr.scopes, tr.events + [Declared(4, h, Pos(14, 20), Initialized, [])], 2);
    WalkExprsOne(Lambda([], Block([Exprs([Call([Argument([Declare(w, Pos(14, 69), Out)])])])])), Ctx(4, [], []), Tree(tr.scopes, tr.events + [Declared(4, h, Pos(14, 20), Initialized, [])], 2));
    assert [] + [2] == [2];
    WalkStmtsOne(Exprs([Call([Argument([Declare(w, Pos(14, 69), Out)])])]), Ctx(9, [2], []), Tree(tr.scopes + [Scope(LambdaBody, Some(4))] + [Scope(BlockBody, Some(8))], tr.events + [Declared(4, h, Pos(14, 20), Initialized, [])], 3));
    Walk9(f, y, g, z, h, w, Tree(tr.scopes + [Scope(LambdaBody, Some(4))] + [Scope(BlockBody, Some(8))], tr.events + [Declared(4, h, Pos(14, 20), Initialized, [])], 3));
    assert WalkStmt(Exprs([Call([Argument([Declare(w, Pos(14, 69), Out)])])]), Ctx(9, [2], []), Tree(tr.scopes + [Scope(LambdaBody, Some(4))] + [Scope(BlockBody, Some(8))], tr.events + [Declared(4, h, Pos(14, 20), Initialized, [])], 3)) == Tree(tr.scopes + [Scope(LambdaBody, Some(4))] + [Scope(BlockBody, Some(8))], tr.events + [Declared(4, h, Pos(14, 20), Initialized, [])] + [Declared(9, w, Pos(14, 69), Out, [2])] + [OutAssigned(9, [w], [2])], 3);
    assert WalkStmt(Block([Exprs([Call([Argument([Declare(w, Pos(14, 69), Out)])])])]), Ctx(8, [2], []), Tree(tr.scopes + [Scope(LambdaBody, Some(4))], tr.events + [Declared(4, h, Pos(14, 20), Initialized, [])], 3)) == Tree(tr.scopes + [Scope(LambdaBody, Some(4))] + [Scope(BlockBody, Some(8))], tr.events + [Declared(4, h, Pos(14, 20), Initialized, [])] + [Declared(9, w, Pos(14, 69), Out, [2])] + [OutAssigned(9, [w], [2])], 3);
    assert WalkExpr(Lambda([], Block([Exprs([Call([Argument([Declare(w, Pos(14, 69), Out)])])])])), Ctx(4, [], []), Tree(tr.scopes, tr.events + [Declared(4, h, Pos(14, 20), Initialized, [])], 2)) == Tree(tr.scopes + [Scope(LambdaBody, Some(4))] + [Scope(BlockBody, Some(8))], tr.events + [Declared(4, h, Pos(14, 20), Initialized, [])] + [Declared(9, w, Pos(14, 69), Out, [2])] + [OutAssigned(9, [w], [2])], 3);
    assert WalkExprs([Declare(h, Pos(14, 20), Initialized)] + ([Lambda([], Block([Exprs([Call([Argument([Declare(w, Pos(14, 69), Out)])])])]))]), Ctx(4, [], []), tr) == Tree(tr.scopes + [Scope(LambdaBody, Some(4))] + [Scope(BlockBody, Some(8))], tr.events + [Declared(4, h, Pos(14, 20), Initialized, [])] + [Declared(9, w, Pos(14, 69), Out, [2])] + [OutAssigned(9, [w], [2])], 3);
    assert WalkStmt(Exprs([Declare(h, Pos(14, 20), Initialized)] + ([Lambda([], Block([Exprs([Call([Argument([Declare(w, Pos(14, 69), Out)])])])]))])), Ctx(4, [], []), tr) == Tree(tr.scopes + [Scope(LambdaBody, Some(4))] + [Scope(BlockBody, Some(8))], tr.events + [Declared(4, h, Pos(14, 20), Initialized, [])] + [Declared(9, w, Pos(14, 69), Out, [2])] + [OutAssigned(9, [w], [2])], 3);
  }

  lemma {:induction false} Walk10(f: string, y: string, g: string, z: string, h: string, w: string, tr: Tree)
    requires |tr.scopes| == 10 && tr.arms == 3
    ensures WalkStmt(Exprs([Call([Argument([Use(w, Pos(15, 27), false)])])]), Ctx(4, [], []), tr) == Tree(tr.scopes, tr.events + [Referenced(4, w, Pos(15, 27), false, false, [])] + [OutAssigned(4, [], [])], 3)
  {
    WalkExprsOne(Call([Argument([Use(w, Pos(15, 27), false)])]), Ctx(4, [], []), tr);
    assert OutNames([]) == [];
    WalkArgsOne(Argument([Use(w, Pos(15, 27), false)]), [], Ctx(4, [], []), tr);
    WalkExprsOne(Use(w, Pos(15, 27), false), Ctx(4, [], []), tr);
    assert WalkExpr(Use(w, Pos(15, 27), false), Ctx(4, [], []), tr) == Tree(tr.scopes, tr.events + [Referenced(4, w, Pos(15, 27), false, false, [])], 3);
    assert WalkExprs([Use(w, Pos(15, 27), false)], Ctx(4, [], []), tr) == Tree(tr.scopes, tr.events + [Referenced(4, w, Pos(15, 27), false, false, [])], 3);
    OutNamesOfOne(Use(w, Pos(15, 27), false));
    OutNamesSnoc([], Argument([Use(w, Pos(15, 27), false)]));
    assert WalkArgs([Argument([Use(w, Pos(15, 27), false)])], [], Ctx(4, [], []), tr) == Tree(tr.scopes, tr.events + [Referenced(4, w, Pos(15, 27), false, false, [])], 3);
    assert OutNames([Argument([Use(w, Pos(15, 27), false)])]) == [];
    assert WalkExpr(Call([Argument([Use(w, Pos(15, 27), false)])]), Ctx(4, [], []), tr) == Tree(tr.scopes, tr.events + [Referenced(4, w, Pos(15, 27), false, false, [])] + [OutAssigned(4, [], [])], 3);
    assert WalkExprs([Call([Argument([Use(w, Pos(15, 27), false)])])], Ctx(4, [], []), tr) == Tree(tr.scopes, tr.events + [Referenced(4, w, Pos(15, 27), false, false, [])] + [OutAssigned(4, [], [])], 3);
    assert WalkStmt(Exprs([Call([Argument([Use(w, Pos(15, 27), false)])])]), Ctx(4, [], []), tr) == Tree(tr.scopes, tr.events + [Referenced(4, w, Pos(15, 27), false, false, [])] + [OutAssigned(4, [], [])], 3);
  }

  lemma {:induction false} Stmts7(f: string, y: string, g: string, z: string, h: string, w: string, tr: Tree)
    requires |tr.scopes| == 8 && tr.arms == 2
    ensures WalkStmts([Exprs([Declare(h, Pos(14, 20), Initialized)] + ([Lambda([], Block([Exprs([Call([Argument([Declare(w, Pos(14, 69), Out)])])])]))]))] + ([Exprs([Call([Argument([Use(w, Pos(15, 27), false)])])])]), Ctx(4, [], []), tr) == Tree(tr.scopes + [Scope(LambdaBody, Some(4))] + [Scope(BlockBody, Some(8))], tr.events + [Declared(4, h, Pos(14, 20), Initialized, [])] + [Declared(9, w, Pos(14, 69), Out, [2])] + [OutAssigned(9, [w], [2])] + [Referenced(4, w, Pos(15, 27), false, false, [])] + [OutAssigned(4, [], [])], 3)
  {
    WalkStmtsCons(Exprs([Declare(h, Pos(14, 20), Initialized)] + ([Lambda([], Block([Exprs([Call([Argument([Declare(w, Pos(14, 69), Out)])])])]))])), [Exprs([Call([Argument([Use(w, Pos(15, 27), false)])])])], Ctx(4, [], []), tr);
    Walk8(f, y, g, z, h, w, tr);
    assert WalkStmt(Exprs([Declare(h, Pos(14, 20), Initialized)] + ([Lambda([], Block([Exprs([Call([Argument([Declare(w, Pos(14, 69), Out)])])])]))])), Ctx(4, [], []), tr) == Tree(tr.scopes + [Scope(LambdaBody, Some(4))] + [Scope(BlockBody, Some(8))], tr.events + [Declared(4, h, Pos(14, 20), Initialized, [])] + [Declared(9, w, Pos(14, 69), Out, [2])] + [OutAssigned(9, [w], [2])], 3);
    WalkStmtsOne(Exprs([Call([Argument([Use(w, Pos(15, 27), false)])])]), Ctx(4, [], []), Tree(tr.scopes + [Scope(LambdaBody, Some(4))] + [Scope(BlockBody, Some(8))], tr.events + [Declared(4, h, Pos(14, 20), Initialized, [])] + [Declared(9, w, Pos(14, 69), Out, [2])] + [OutAssigned(9, [w], [2])], 3));
    Walk10(f, y, g, z, h, w, Tree(tr.scopes + [Scope(LambdaBody, Some(4))] + [Scope(BlockBody, Some(8))], tr.events + [Declared(4, h, Pos(14, 20), Initialized, [])] + [Declared(9, w, Pos(14, 69), Out, [2])] + [OutAssigned(9, [w], [2])], 3));
    assert WalkStmt(Exprs([Call([Argument([Use(w, Pos(15, 27), false)])])]), Ctx(4, [], []), Tree(tr.scopes + [Scope(LambdaBody, Some(4))] + [Scope(BlockBody, Some(8))], tr.events + [Declared(4, h, Pos(14, 20), Initialized, [])] + [Declared(9, w, Pos(14, 69), Out, [2])] + [OutAssigned(9, [w], [2])], 3)) == Tree(tr.scopes + [Scope(LambdaBody, Some(4))] + [Scope(BlockBody, Some(8))], tr.events + [Declared(4, h, Pos(14, 20), Initialized, [])] + [Declared(9, w, Pos(14, 69), Out, [2])] + [OutAssigned(9, [w], [2])] + [Referenced(4, w, Pos(15, 27), false, false, [])] + [OutAssigned(4, [], [])], 3);
  }

  lemma {:induction false} Join0(f: string, y: string, g: string, z: string, h: string, w: string, evs: seq<Event>)
    ensures evs + Chunk0(f, y, g, z, h, w) == evs + [Declared(4, f, Pos(8, 20), Initialized, [])] + [Declared(5, y, Pos(8, 57), Out, [0])] + [OutAssigned(5, [y], [0])] + [Referenced(4, y, Pos(9, 27), false, false, [])] + [OutAssigned(4, [], [])] + [Declared(4, g, Pos(11, 20), Initialized, [])] + [Declared(7, z, Pos(11, 66), Out, [1])] + [OutAssigned(7, [z], [1])]
  {
  }

  lemma {:induction false} Join1(f: string, y: string, g: string, z: string, h: string, w: string, evs: seq<Event>)
    ensures evs + Chunk1(f, y, g, z, h, w) == evs + [Referenced(4, z, Pos(12, 27), false, false, [])] + [OutAssigned(4, [], [])] + [Declared(4, h, Pos(14, 20), Initialized, [])] + [Declared(9, w, Pos(14, 69), Out, [2])] + [OutAssigned(9, [w], [2])] + [Referenced(4, w, Pos(15, 27), false, false, [])] + [OutAssigned(4, [], [])]
  {
  }

  /** The trace, event by event. */
  lemma {:induction false} Flat(f: string, y: string, g: string, z: string, h: string, w: string)
    ensures [] + [Declared(4, f, Pos(8, 20), Initialized, [])] + [Declared(5, y, Pos(8, 57), Out, [0])] + [OutAssigned(5, [y], [0])] + [Referenced(4, y, Pos(9, 27), false, false, [])] + [OutAssigned(4, [], [])] + [Declared(4, g, Pos(11, 20), Initialized, [])] + [Declared(7, z, Pos(11, 66), Out, [1])] + [OutAssigned(7, [z], [1])] + [Referenced(4, z, Pos(12, 27), false, false, [])] + [OutAssigned(4, [], [])] + [Declared(4, h, Pos(14, 20), Initialized, [])] + [Declared(9, w, Pos(14, 69), Out, [2])] + [OutAssigned(9, [w], [2])] + [Referenced(4, w, Pos(15, 27), false, false, [])] + [OutAssigned(4, [], [])] == Trace(f, y, g, z, h, w)
  {
    Join0(f, y, g, z, h, w, []);
    Join1(f, y, g, z, h, w, [] + Chunk0(f, y, g, z, h, w));
  }

  lemma {:induction false} Walked(f: string, y: string, g: string, z: string, h: string, w: string)
    ensures Build(Program(f, y, g, z, h, w)) == Tree(Layout(), Trace(f, y, g, z, h, w), 3)
  {
    MainBuild(Body(f, y, g, z, h, w));
    Stmts1(f, y, g, z, h, w, MainHead(), [Exprs([Declare(h, Pos(14, 20), Initialized)] + ([Lambda([], Block([Exprs([Call([Argument([Declare(w, Pos(14, 69), Out)])])])]))]))] + ([Exprs([Call([Argument([Use(w, Pos(15, 27), false)])])])]));
    Stmts7(f, y, g, z, h, w, Tree(MainHead().scopes + [Scope(LambdaBody, Some(4))] + [Scope(LambdaBody, Some(4))] + [Scope(BlockBody, Some(6))], MainHead().events + [Declared(4, f, Pos(8, 20), Initialized, [])] + [Declared(5, y, Pos(8, 57), Out, [0])] + [OutAssigned(5, [y], [0])] + [Referenced(4, y, Pos(9, 27), false, false, [])] + [OutAssigned(4, [], [])] + [Declared(4, g, Pos(11, 20), Initialized, [])] + [Declared(7, z, Pos(11, 66), Out, [1])] + [OutAssigned(7, [z], [1])] + [Referenced(4, z, Pos(12, 27), false, false, [])] + [OutAssigned(4, [], [])], 2));
    LayoutFlat();
    Flat(f, y, g, z, h, w);
  }

  /** The locals events of chunk `ck` declare in scope `sc`, in order. */
  function NewIn(f: string, y: string, g: string, z: string, h: string, w: string, ck: nat, sc: nat): seq<Local> {
    if ck == 0 then
      if sc == 4 then [] + [Local(f, Pos(8, 20))] + [Local(g, Pos(11, 20))]
      else if sc == 5 then [] + [Local(y, Pos(8, 57))]
      else if sc == 7 then [] + [Local(z, Pos(11, 66))]
      else []
    else if ck == 1 then
      if sc == 4 then [] + [Local(h, Pos(14, 20))]
      else if sc == 9 then [] + [Local(w, Pos(14, 69))]
      else []
    else []
  }

  /** The locals the first `ck` chunks declare in scope `sc`, in order. */
  function DeclaredBy(f: string, y: string, g: string, z: string, h: string, w: string, ck: nat, sc: nat): seq<Local>
    decreases ck
  {
    if ck == 0 then [] else DeclaredBy(f, y, g, z, h, w, ck - 1, sc) + NewIn(f, y, g, z, h, w, ck - 1, sc)
  }

  /** The locals declared once events 0 to 7 follow some events. */
  lemma {:induction false} Decls0(f: string, y: string, g: string, z: string, h: string, w: string, evs: seq<Event>, sc: nat)
    requires DeclsIn(evs, sc) == DeclaredBy(f, y, g, z, h, w, 0, sc)
    ensures DeclsIn(evs + Chunk0(f, y, g, z, h, w), sc) == DeclaredBy(f, y, g, z, h, w, 1, sc)
  {
    DeclsInAppend(evs, Chunk0(f, y, g, z, h, w), sc);
    assert DeclsIn([], sc) == [];
    if sc == 4 {
      DeclsInAdd([], Declared(4, f, Pos(8, 20), Initialized, []), 4);
      DeclsInSkip([] + [Declared(4, f, Pos(8, 20), Initialized, [])], Declared(5, y, Pos(8, 57), Out, [0]), 4);
      DeclsInSkip([] + [Declared(4, f, Pos(8, 20), Initialized, [])] + [Declared(5, y, Pos(8, 57), Out, [0])], OutAssigned(5, [y], [0]), 4);
      DeclsInSkip([] + [Declared(4, f, Pos(8, 20), Initialized, [])] + [Declared(5, y, Pos(8, 57), Out, [0])] + [OutAssigned(5, [y], [0])], Referenced(4, y, Pos(9, 27), false, false, []), 4);
      DeclsInSkip([] + [Declared(4, f, Pos(8, 20), Initialized, [])] + [Declared(5, y, Pos(8, 57), Out, [0])] + [OutAssigned(5, [y], [0])] + [Referenced(4, y, Pos(9, 27), false, false, [])], OutAssigned(4, [], []), 4);
      DeclsInAdd([] + [Declared(4, f, Pos(8, 20), Initialized, [])] + [Declared(5, y, Pos(8, 57), Out, [0])] + [OutAssigned(5, [y], [0])] + [Referenced(4, y, Pos(9, 27), false, false, [])] + [OutAssigned(4, [], [])], Declared(4, g, Pos(11, 20), Initialized, []), 4);
      DeclsInSkip([] + [Declared(4, f, Pos(8, 20), Initialized, [])] + [Declared(5, y, Pos(8, 57), Out, [0])] + [OutAssigned(5, [y], [0])] + [Referenced(4, y, Pos(9, 27), false, false, [])] + [OutAssigned(4, [], [])] + [Declared(4, g, Pos(11, 20), Initialized, [])], Declared(7, z, Pos(11, 66), Out, [1]), 4);
      DeclsInSkip([] + [Declared(4, f, Pos(8, 20), Initialized, [])] + [Declared(5, y, Pos(8, 57), Out, [0])] + [OutAssigned(5, [y], [0])] + [Referenced(4, y, Pos(9, 27), false, false, [])] + [OutAssigned(4, [], [])] + [Declared(4, g, Pos(11, 20), Initialized, [])] + [Declared(7, z, Pos(11, 66), Out, [1])], OutAssigned(7, [z], [1]), 4);
    } else if sc == 5 {
      DeclsInSkip([], Declared(4, f, Pos(8, 20), Initialized, []), 5);
      DeclsInAdd([] + [Declared(4, f, Pos(8, 20), Initialized, [])], Declared(5, y, Pos(8, 57), Out, [0]), 5);
      DeclsInSkip([] + [Declared(4, f, Pos(8, 20), Initialized, [])] + [Declared(5, y, Pos(8, 57), Out, [0])], OutAssigned(5, [y], [0]), 5);
      DeclsInSkip([] + [Declared(4, f, Pos(8, 20), Initialized, [])] + [Declared(5, y, Pos(8, 57), Out, [0])] + [OutAssigned(5, [y], [0])], Referenced(4, y, Pos(9, 27), false, false, []), 5);
      DeclsInSkip([] + [Declared(4, f, Pos(8, 20), Initialized, [])] + [Declared(5, y, Pos(8, 57), Out, [0])] + [OutAssigned(5, [y], [0])] + [Referenced(4, y, Pos(9, 27), false, false, [])], OutAssigned(4, [], []), 5);
      DeclsInSkip([] + [Declared(4, f, Pos(8, 20), Initialized, [])] + [Declared(5, y, Pos(8, 57), Out, [0])] + [OutAssigned(5, [y], [0])] + [Referenced(4, y, Pos(9, 27), false, false, [])] + [OutAssigned(4, [], [])], Declared(4, g, Pos(11, 20), Initialized, []), 5);
      DeclsInSkip([] + [Declared(4, f, Pos(8, 20), Initialized, [])] + [Declared(5, y, Pos(8, 57), Out, [0])] + [OutAssigned(5, [y], [0])] + [Referenced(4, y, Pos(9, 27), false, false, [])] + [OutAssigned(4, [], [])] + [Declared(4, g, Pos(11, 20), Initialized, [])], Declared(7, z, Pos(11, 66), Out, [1]), 5);
      DeclsInSkip([] + [Declared(4, f, Pos(8, 20), Initialized, [])] + [Declared(5, y, Pos(8, 57), Out, [0])] + [OutAssigned(5, [y], [0])] + [Referenced(4, y, Pos(9, 27), false, false, [])] + [OutAssigned(4, [], [])] + [Declared(4, g, Pos(11, 20), Initialized, [])] + [Declared(7, z, Pos(11, 66), Out, [1])], OutAssigned(7, [z], [1]), 5);
    } else if sc == 7 {
      DeclsInSkip([], Declared(4, f, Pos(8, 20), Initialized, []), 7);
      DeclsInSkip([] + [Declared(4, f, Pos(8, 20), Initialized, [])], Declared(5, y, Pos(8, 57), Out, [0]), 7);
      DeclsInSkip([] + [Declared(4, f, Pos(8, 20), Initialized, [])] + [Declared(5, y, Pos(8, 57), Out, [0])], OutAssigned(5, [y], [0]), 7);
      DeclsInSkip([] + [Declared(4, f, Pos(8, 20), Initialized, [])] + [Declared(5, y, Pos(8, 57), Out, [0])] + [OutAssigned(5, [y], [0])], Referenced(4, y, Pos(9, 27), false, false, []), 7);
      DeclsInSkip([] + [Declared(4, f, Pos(8, 20), Initialized, [])] + [Declared(5, y, Pos(8, 57), Out, [0])] + [OutAssigned(5, [y], [0])] + [Referenced(4, y, Pos(9, 27), false, false, [])], OutAssigned(4, [], []), 7);
      DeclsInSkip([] + [Declared(4, f, Pos(8, 20), Initialized, [])] + [Declared(5, y, Pos(8, 57), Out, [0])] + [OutAssigned(5, [y], [0])] + [Referenced(4, y, Pos(9, 27), false, false, [])] + [OutAssigned(4, [], [])], Declared(4, g, Pos(11, 20), Initialized, []), 7);
      DeclsInAdd([] + [Declared(4, f, Pos(8, 20), Initialized, [])] + [Declared(5, y, Pos(8, 57), Out, [0])] + [OutAssigned(5, [y], [0])] + [Referenced(4, y, Pos(9, 27), false, false, [])] + [OutAssigned(4, [], [])] + [Declared(4, g, Pos(11, 20), Initialized, [])], Declared(7, z, Pos(11, 66), Out, [1]), 7);
      DeclsInSkip([] + [Declared(4, f, Pos(8, 20), Initialized, [])] + [Declared(5, y, Pos(8, 57), Out, [0])] + [OutAssigned(5, [y], [0])] + [Referenced(4, y, Pos(9, 27), false, false, [])] + [OutAssigned(4, [], [])] + [Declared(4, g, Pos(11, 20), Initialized, [])] + [Declared(7, z, Pos(11, 66), Out, [1])], OutAssigned(7, [z], [1]), 7);
    } else {
      DeclsInSkip([], Declared(4, f, Pos(8, 20), Initialized, []), sc);
      DeclsInSkip([] + [Declared(4, f, Pos(8, 20), Initialized, [])], Declared(5, y, Pos(8, 57), Out, [0]), sc);
      DeclsInSkip([] + [Declared(4, f, Pos(8, 20), Initialized, [])] + [Declared(5, y, Pos(8, 57), Out, [0])], OutAssigned(5, [y], [0]), sc);
      DeclsInSkip([] + [Declared(4, f, Pos(8, 20), Initialized, [])] + [Declared(5, y, Pos(8, 57), Out, [0])] + [OutAssigned(5, [y], [0])], Referenced(4, y, Pos(9, 27), false, false, []), sc);
      DeclsInSkip([] + [Declared(4, f, Pos(8, 20), Initialized, [])] + [Declared(5, y, Pos(8, 57), Out, [0])] + [OutAssigned(5, [y], [0])] + [Referenced(4, y, Pos(9, 27), false, false, [])], OutAssigned(4, [], []), sc);
      DeclsInSkip([] + [Declared(4, f, Pos(8, 20), Initialized, [])] + [Declared(5, y, Pos(8, 57), Out, [0])] + [OutAssigned(5, [y], [0])] + [Referenced(4, y, Pos(9, 27), false, false, [])] + [OutAssigned(4, [], [])], Declared(4, g, Pos(11, 20), Initialized, []), sc);
      DeclsInSkip([] + [Declared(4, f, Pos(8, 20), Initialized, [])] + [Declared(5, y, Pos(8, 57), Out, [0])] + [OutAssigned(5, [y], [0])] + [Referenced(4, y, Pos(9, 27), false, false, [])] + [OutAssigned(4, [], [])] + [Declared(4, g, Pos(11, 20), Initialized, [])], Declared(7, z, Pos(11, 66), Out, [1]), sc);
      DeclsInSkip([] + [Declared(4, f, Pos(8, 20), Initialized, [])] + [Declared(5, y, Pos(8, 57), Out, [0])] + [OutAssigned(5, [y], [0])] + [Referenced(4, y, Pos(9, 27), false, false, [])] + [OutAssigned(4, [], [])] + [Declared(4, g, Pos(11, 20), Initialized, [])] + [Declared(7, z, Pos(11, 66), Out, [1])], OutAssigned(7, [z], [1]), sc);
      AppendNil(DeclsIn(evs, sc));
    }
  }

  /** The locals declared once events 8 to 14 follow some events. */
  lemma {:induction false} Decls1(f: string, y: string, g: string, z: string, h: string, w: string, evs: seq<Event>, sc: nat)
    requires DeclsIn(evs, sc) == DeclaredBy(f, y, g, z, h, w, 1, sc)
    ensures DeclsIn(evs + Chunk1(f, y, g, z, h, w), sc) == DeclaredBy(f, y, g, z, h, w, 2, sc)
  {
    DeclsInAppend(evs, Chunk1(f, y, g, z, h, w), sc);
    assert DeclsIn([], sc) == [];
    if sc == 4 {
      DeclsInSkip([], Referenced(4, z, Pos(12, 27), false, false, []), 4);
      DeclsInSkip([] + [Referenced(4, z, Pos(12, 27), false, false, [])], OutAssigned(4, [], []), 4);
      DeclsInAdd([] + [Referenced(4, z, Pos(12, 27), false, false, [])] + [OutAssigned(4, [], [])], Declared(4, h, Pos(14, 20), Initialized, []), 4);
      DeclsInSkip([] + [Referenced(4, z, Pos(12, 27), false, false, [])] + [OutAssigned(4, [], [])] + [Declared(4, h, Pos(14, 20), Initialized, [])], Declared(9, w, Pos(14, 69), Out, [2]), 4);
      DeclsInSkip([] + [Referenced(4, z, Pos(12, 27), false, false, [])] + [OutAssigned(4, [], [])] + [Declared(4, h, Pos(14, 20), Initialized, [])] + [Declared(9, w, Pos(14, 69), Out, [2])], OutAssigned(9, [w], [2]), 4);
      DeclsInSkip([] + [Referenced(4, z, Pos(12, 27), false, false, [])] + [OutAssigned(4, [], [])] + [Declared(4, h, Pos(14, 20), Initialized, [])] + [Declared(9, w, Pos(14, 69), Out, [2])] + [OutAssigned(9, [w], [2])], Referenced(4, w, Pos(15, 27), false, false, []), 4);
      DeclsInSkip([] + [Referenced(4, z, Pos(12, 27), false, false, [])] + [OutAssigned(4, [], [])] + [Declared(4, h, Pos(14, 20), Initialized, [])] + [Declared(9, w, Pos(14, 69), Out, [2])] + [OutAssigned(9, [w], [2])] + [Referenced(4, w, Pos(15, 27), false, false, [])], OutAssigned(4, [], []), 4);
    } else if sc == 9 {
      DeclsInSkip([], Referenced(4, z, Pos(12, 27), false, false, []), 9);
      DeclsInSkip([] + [Referenced(4, z, Pos(12, 27), false, false, [])], OutAssigned(4, [], []), 9);
      DeclsInSkip([] + [Referenced(4, z, Pos(12, 27), false, false, [])] + [OutAssigned(4, [], [])], Declared(4, h, Pos(14, 20), Initialized, []), 9);
      DeclsInAdd([] + [Referenced(4, z, Pos(12, 27), false, false, [])] + [OutAssigned(4, [], [])] + [Declared(4, h, Pos(14, 20), Initialized, [])], Declared(9, w, Pos(14, 69), Out, [2]), 9);
      DeclsInSkip([] + [Referenced(4, z, Pos(12, 27), false, false, [])] + [OutAssigned(4, [], [])] + [Declared(4, h, Pos(14, 20), Initialized, [])] + [Declared(9, w, Pos(14, 69), Out, [2])], OutAssigned(9, [w], [2]), 9);
      DeclsInSkip([] + [Referenced(4, z, Pos(12, 27), false, false, [])] + [OutAssigned(4, [], [])] + [Declared(4, h, Pos(14, 20), Initialized, [])] + [Declared(9, w, Pos(14, 69), Out, [2])] + [OutAssigned(9, [w], [2])], Referenced(4, w, Pos(15, 27), false, false, []), 9);
      DeclsInSkip([] + [Referenced(4, z, Pos(12, 27), false, false, [])] + [OutAssigned(4, [], [])] + [Declared(4, h, Pos(14, 20), Initialized, [])] + [Declared(9, w, Pos(14, 69), Out, [2])] + [OutAssigned(9, [w], [2])] + [Referenced(4, w, Pos(15, 27), false, false, [])], OutAssigned(4, [], []), 9);
    } else {
      DeclsInSkip([], Referenced(4, z, Pos(12, 27), false, false, []), sc);
      DeclsInSkip([] + [Referenced(4, z, Pos(12, 27), false, false, [])], OutAssigned(4, [], []), sc);
      DeclsInSkip([] + [Referenced(4, z, Pos(12, 27), false, false, [])] + [OutAssigned(4, [], [])], Declared(4, h, Pos(14, 20), Initialized, []), sc);
      DeclsInSkip([] + [Referenced(4, z, Pos(12, 27), false, false, [])] + [OutAssigned(4, [], [])] + [Declared(4, h, Pos(14, 20), Initialized, [])], Declared(9, w, Pos(14, 69), Out, [2]), sc);
      DeclsInSkip([] + [Referenced(4, z, Pos(12, 27), false, false, [])] + [OutAssigned(4, [], [])] + [Declared(4, h, Pos(14, 20), Initialized, [])] + [Declared(9, w, Pos(14, 69), Out, [2])], OutAssigned(9, [w], [2]), sc);
      DeclsInSkip([] + [Referenced(4, z, Pos(12, 27), false, false, [])] + [OutAssigned(4, [], [])] + [Declared(4, h, Pos(14, 20), Initialized, [])] + [Declared(9, w, Pos(14, 69), Out, [2])] + [OutAssigned(9, [w], [2])], Referenced(4, w, Pos(15, 27), false, false, []), sc);
      DeclsInSkip([] + [Referenced(4, z, Pos(12, 27), false, false, [])] + [OutAssigned(4, [], [])] + [Declared(4, h, Pos(14, 20), Initialized, [])] + [Declared(9, w, Pos(14, 69), Out, [2])] + [OutAssigned(9, [w], [2])] + [Referenced(4, w, Pos(15, 27), false, false, [])], OutAssigned(4, [], []), sc);
      AppendNil(DeclsIn(evs, sc));
    }
  }

  lemma {:induction false} DeclsStage0(f: string, y: string, g: string, z: string, h: string, w: string, evs: seq<Event>, sc: nat)
    requires DeclsIn(evs, sc) == DeclaredBy(f, y, g, z, h, w, 0, sc)
    ensures DeclsIn(evs + Chunk0(f, y, g, z, h, w) + Chunk1(f, y, g, z, h, w), sc) == DeclaredBy(f, y, g, z, h, w, 2, sc)
  {
    Decls0(f, y, g, z, h, w, evs, sc);
    Decls1(f, y, g, z, h, w, evs + Chunk0(f, y, g, z, h, w), sc);
  }

  /** The locals of every scope of a tree whose events are the test's, as the table gives them. */
  ghost predicate LocalsFit(f: string, y: string, g: string, z: string, h: string, w: string, tr: Tree) {
    forall sc: nat {:trigger DeclaredBy(f, y, g, z, h, w, 2, sc)} :: LocalsOf(tr, sc) == DeclaredBy(f, y, g, z, h, w, 2, sc)
  }

  /** The locals of every scope. */
  lemma {:induction false} LocalsAll(f: string, y: string, g: string, z: string, h: string, w: string, tr: Tree)
    requires tr.events == Trace(f, y, g, z, h, w)
    ensures LocalsFit(f, y, g, z, h, w, tr)
  {
    forall sc: nat
      ensures LocalsOf(tr, sc) == DeclaredBy(f, y, g, z, h, w, 2, sc)
    {
      assert DeclsIn([], sc) == [] == DeclaredBy(f, y, g, z, h, w, 0, sc);
      DeclsStage0(f, y, g, z, h, w, [], sc);
    }
  }

  /** The locals scope 0 declares, in order. */
  lemma {:induction false} Locals0(f: string, y: string, g: string, z: string, h: string, w: string)
    ensures DeclaredBy(f, y, g, z, h, w, 2, 0) == []
  {
    AppendNil([]);
    assert DeclaredBy(f, y, g, z, h, w, 1, 0) == [];
    assert DeclaredBy(f, y, g, z, h, w, 2, 0) == [];
  }

  /** The locals scope 3 declares, in order. */
  lemma {:induction false} Locals3(f: string, y: string, g: string, z: string, h: string, w: string)
    ensures DeclaredBy(f, y, g, z, h, w, 2, 3) == []
  {
    AppendNil([]);
    assert DeclaredBy(f, y, g, z, h, w, 1, 3) == [];
    assert DeclaredBy(f, y, g, z, h, w, 2, 3) == [];
  }

  /** The locals scope 4 declares, in order. */
  lemma {:induction false} Locals4(f: string, y: string, g: string, z: string, h: string, w: string)
    ensures DeclaredBy(f, y, g, z, h, w, 2, 4) == [Local(f, Pos(8, 20)), Local(g, Pos(11, 20)), Local(h, Pos(14, 20))]
  {
    assert DeclaredBy(f, y, g, z, h, w, 1, 4) == [Local(f, Pos(8, 20)), Local(g, Pos(11, 20))];
    assert DeclaredBy(f, y, g, z, h, w, 2, 4) == [Local(f, Pos(8, 20)), Local(g, Pos(11, 20)), Local(h, Pos(14, 20))];
  }

  /** The locals scope 5 declares, in order. */
  lemma {:induction false} Locals5(f: string, y: string, g: string, z: string, h: string, w: string)
    ensures DeclaredBy(f, y, g, z, h, w, 2, 5) == [Local(y, Pos(8, 57))]
  {
    assert DeclaredBy(f, y, g, z, h, w, 1, 5) == [Local(y, Pos(8, 57))];
    AppendNil([Local(y, Pos(8, 57))]);
    assert DeclaredBy(f, y, g, z, h, w, 2, 5) == [Local(y, Pos(8, 57))];
  }

  /** The locals scope 6 declares, in order. */
  lemma {:induction false} Locals6(f: string, y: string, g: string, z: string, h: string, w: string)
    ensures DeclaredBy(f, y, g, z, h, w, 2, 6) == []
  {
    AppendNil([]);
    assert DeclaredBy(f, y, g, z, h, w, 1, 6) == [];
    assert DeclaredBy(f, y, g, z, h, w, 2, 6) == [];
  }

  /** The locals scope 7 declares, in order. */
  lemma {:induction false} Locals7(f: string, y: string, g: string, z: string, h: string, w: string)
    ensures DeclaredBy(f, y, g, z, h, w, 2, 7) == [Local(z, Pos(11, 66))]
  {
    assert DeclaredBy(f, y, g, z, h, w, 1, 7) == [Local(z, Pos(11, 66))];
    AppendNil([Local(z, Pos(11, 66))]);
    assert DeclaredBy(f, y, g, z, h, w, 2, 7) == [Local(z, Pos(11, 66))];
  }

  /** The locals scope 8 declares, in order. */
  lemma {:induction false} Locals8(f: string, y: string, g: string, z: string, h: string, w: string)
    ensures DeclaredBy(f, y, g, z, h, w, 2, 8) == []
  {
    AppendNil([]);
    assert DeclaredBy(f, y, g, z, h, w, 1, 8) == [];
    assert DeclaredBy(f, y, g, z, h, w, 2, 8) == [];
  }

  /** The locals scope 9 declares, in order. */
  lemma {:induction false} Locals9(f: string, y: string, g: string, z: string, h: string, w: string)
    ensures DeclaredBy(f, y, g, z, h, w, 2, 9) == [Local(w, Pos(14, 69))]
  {
    AppendNil([]);
    assert DeclaredBy(f, y, g, z, h, w, 1, 9) == [];
    assert DeclaredBy(f, y, g, z, h, w, 2, 9) == [Local(w, Pos(14, 69))];
  }

  /** The assignments known after event 7. */
  function Known0(f: string, y: string, g: string, z: string, h: string, w: string): seq<Fact> {
    []
      + [Fact(4, f, [])]
      + [Fact(5, y, [0])]
      + [Fact(4, g, [])]
      + [Fact(7, z, [1])]
  }

  /** Whether a local is assigned after the assignments of events 0 to 7. */
  lemma {:induction false} Assigned0(f: string, y: string, g: string, z: string, h: string, w: string, fs: seq<Fact>, sc: nat, nm: string, pth: seq<nat>)
    ensures Assigned(fs + [Fact(4, f, [])] + [Fact(5, y, [0])] + [Fact(4, g, [])] + [Fact(7, z, [1])], sc, nm, pth) == (
      Assigned(fs, sc, nm, pth) ||
      (4 == sc && f == nm && [] <= pth) ||
      (5 == sc && y == nm && [0] <= pth) ||
      (4 == sc && g == nm && [] <= pth) ||
      (7 == sc && z == nm && [1] <= pth))
  {
    AssignedSnoc(fs, Fact(4, f, []), sc, nm, pth);
    AssignedSnoc(fs + [Fact(4, f, [])], Fact(5, y, [0]), sc, nm, pth);
    AssignedSnoc(fs + [Fact(4, f, [])] + [Fact(5, y, [0])], Fact(4, g, []), sc, nm, pth);
    AssignedSnoc(fs + [Fact(4, f, [])] + [Fact(5, y, [0])] + [Fact(4, g, [])], Fact(7, z, [1]), sc, nm, pth);
  }

  /** The assignments known after event 14. */
  function Known1(f: string, y: string, g: string, z: string, h: string, w: string): seq<Fact> {
    Known0(f, y, g, z, h, w)
      + [Fact(4, h, [])]
      + [Fact(9, w, [2])]
  }

  /** Whether a local is assigned after the assignments of events 8 to 14. */
  lemma {:induction false} Assigned1(f: string, y: string, g: string, z: string, h: string, w: string, fs: seq<Fact>, sc: nat, nm: string, pth: seq<nat>)
    ensures Assigned(fs + [Fact(4, h, [])] + [Fact(9, w, [2])], sc, nm, pth) == (
      Assigned(fs, sc, nm, pth) ||
      (4 == sc && h == nm && [] <= pth) ||
      (9 == sc && w == nm && [2] <= pth))
  {
    AssignedSnoc(fs, Fact(4, h, []), sc, nm, pth);
    AssignedSnoc(fs + [Fact(4, h, [])], Fact(9, w, [2]), sc, nm, pth);
  }

  /** Event 0: its diagnostics and the assignments after it. */
  lemma {:induction false} Event0(f: string, y: string, g: string, z: string, h: string, w: string, tr: Tree, fs: seq<Fact>)
    requires |tr.scopes| == 10
    requires Parent(tr, 0) == None
    requires Parent(tr, 3) == Some(0)
    requires Parent(tr, 4) == Some(3)
    requires LocalsOf(tr, 4) == [Local(f, Pos(8, 20)), Local(g, Pos(11, 20)), Local(h, Pos(14, 20))]
    requires LocalsOf(tr, 3) == []
    requires LocalsOf(tr, 0) == []
    requires f != g && f != h
    ensures EventDiags(tr, Declared(4, f, Pos(8, 20), Initialized, []), fs) == []
    ensures Step(tr, Declared(4, f, Pos(8, 20), Initialized, []), fs) == fs + [Fact(4, f, [])]
  {
    assert Lookup(tr, 0, f) == None;
    assert Lookup(tr, 3, f) == None;
  }

  /** Event 1: its diagnostics and the assignments after it. */
  lemma {:induction false} Event1(f: string, y: string, g: string, z: string, h: string, w: string, tr: Tree, fs: seq<Fact>)
    requires |tr.scopes| == 10
    requires Parent(tr, 0) == None
    requires Parent(tr, 3) == Some(0)
    requires Parent(tr, 4) == Some(3)
    requires Parent(tr, 5) == Some(4)
    requires LocalsOf(tr, 5) == [Local(y, Pos(8, 57))]
    requires LocalsOf(tr, 4) == [Local(f, Pos(8, 20)), Local(g, Pos(11, 20)), Local(h, Pos(14, 20))]
    requires LocalsOf(tr, 3) == []
    requires LocalsOf(tr, 0) == []
    requires f != y && y != g && y != h
    ensures EventDiags(tr, Declared(5, y, Pos(8, 57), Out, [0]), fs) == []
    ensures Step(tr, Declared(5, y, Pos(8, 57), Out, [0]), fs) == fs
  {
    assert Lookup(tr, 0, y) == None;
    assert Lookup(tr, 3, y) == None;
    assert Lookup(tr, 4, y) == None;
  }

  /** Event 2: its diagnostics and the assignments after it. */
  lemma {:induction false} Event2(f: string, y: string, g: string, z: string, h: string, w: string, tr: Tree, fs: seq<Fact>)
    ensures EventDiags(tr, OutAssigned(5, [y], [0]), fs) == []
    ensures Step(tr, OutAssigned(5, [y], [0]), fs) == fs + [Fact(5, y, [0])]
  {
    OutFactsOne(5, y, [0]);
  }

  /** Event 3: its diagnostics and the assignments after it. */
  lemma {:induction false} Event3(f: string, y: string, g: string, z: string, h: string, w: string, tr: Tree, fs: seq<Fact>)
    requires |tr.scopes| == 10
    requires Parent(tr, 0) == None
    requires Parent(tr, 3) == Some(0)
    requires Parent(tr, 4) == Some(3)
    requires LocalsOf(tr, 4) == [Local(f, Pos(8, 20)), Local(g, Pos(11, 20)), Local(h, Pos(14, 20))]
    requires LocalsOf(tr, 3) == []
    requires LocalsOf(tr, 0) == []
    requires f != y && y != g && y != h
    ensures EventDiags(tr, Referenced(4, y, Pos(9, 27), false, false, []), fs) == [Diag(NotInContext, y, Pos(9, 27))]
    ensures Step(tr, Referenced(4, y, Pos(9, 27), false, false, []), fs) == fs
  {
    assert Lookup(tr, 0, y) == None;
    assert Lookup(tr, 3, y) == None;
    assert Lookup(tr, 4, y) == None;
  }

  /** Event 4: its diagnostics and the assignments after it. */
  lemma {:induction false} Event4(f: string, y: string, g: string, z: string, h: string, w: string, tr: Tree, fs: seq<Fact>)
    ensures EventDiags(tr, OutAssigned(4, [], []), fs) == []
    ensures Step(tr, OutAssigned(4, [], []), fs) == fs
  {
    assert OutFacts(4, [], []) == [];
    FactsNil(fs);
  }

  /** Event 5: its diagnostics and the assignments after it. */
  lemma {:induction false} Event5(f: string, y: string, g: string, z: string, h: string, w: string, tr: Tree, fs: seq<Fact>)
    requires |tr.scopes| == 10
    requires Parent(tr, 0) == None
    requires Parent(tr, 3) == Some(0)
    requires Parent(tr, 4) == Some(3)
    requires LocalsOf(tr, 4) == [Local(f, Pos(8, 20)), Local(g, Pos(11, 20)), Local(h, Pos(14, 20))]
    requires LocalsOf(tr, 3) == []
    requires LocalsOf(tr, 0) == []
    requires f != g && g != h
    ensures EventDiags(tr, Declared(4, g, Pos(11, 20), Initialized, []), fs) == []
    ensures Step(tr, Declared(4, g, Pos(11, 20), Initialized, []), fs) == fs + [Fact(4, g, [])]
  {
    assert Lookup(tr, 0, g) == None;
    assert Lookup(tr, 3, g) == None;
  }

  /** Event 6: its diagnostics and the assignments after it. */
  lemma {:induction false} Event6(f: string, y: string, g: string, z: string, h: string, w: string, tr: Tree, fs: seq<Fact>)
    requires |tr.scopes| == 10
    requires Parent(tr, 0) == None
    requires Parent(tr, 3) == Some(0)
    requires Parent(tr, 4) == Some(3)
    requires Parent(tr, 6) == Some(4)
    requires Parent(tr, 7) == Some(6)
    requires LocalsOf(tr, 7) == [Local(z, Pos(11, 66))]
    requires LocalsOf(tr, 6) == []
    requires LocalsOf(tr, 4) == [Local(f, Pos(8, 20)), Local(g, Pos(11, 20)), Local(h, Pos(14, 20))]
    requires LocalsOf(tr, 3) == []
    requires LocalsOf(tr, 0) == []
    requires f != z && g != z && z != h
    ensures EventDiags(tr, Declared(7, z, Pos(11, 66), Out, [1]), fs) == []
    ensures Step(tr, Declared(7, z, Pos(11, 66), Out, [1]), fs) == fs
  {
    assert Lookup(tr, 0, z) == None;
    assert Lookup(tr, 3, z) == None;
    assert Lookup(tr, 4, z) == None;
    assert Lookup(tr, 6, z) == None;
  }

  /** Event 7: its diagnostics and the assignments after it. */
  lemma {:induction false} Event7(f: string, y: string, g: string, z: string, h: string, w: string, tr: Tree, fs: seq<Fact>)
    ensures EventDiags(tr, OutAssigned(7, [z], [1]), fs) == []
    ensures Step(tr, OutAssigned(7, [z], [1]), fs) == fs + [Fact(7, z, [1])]
  {
    OutFactsOne(7, z, [1]);
  }

  /** Event 8: its diagnostics and the assignments after it. */
  lemma {:induction false} Event8(f: string, y: string, g: string, z: string, h: string, w: string, tr: Tree, fs: seq<Fact>)
    requires |tr.scopes| == 10
    requires Parent(tr, 0) == None
    requires Parent(tr, 3) == Some(0)
    requires Parent(tr, 4) == Some(3)
    requires LocalsOf(tr, 4) == [Local(f, Pos(8, 20)), Local(g, Pos(11, 20)), Local(h, Pos(14, 20))]
    requires LocalsOf(tr, 3) == []
    requires LocalsOf(tr, 0) == []
    requires f != z && g != z && z != h
    ensures EventDiags(tr, Referenced(4, z, Pos(12, 27), false, false, []), fs) == [Diag(NotInContext, z, Pos(12, 27))]
    ensures Step(tr, Referenced(4, z, Pos(12, 27), false, false, []), fs) == fs
  {
    assert Lookup(tr, 0, z) == None;
    assert Lookup(tr, 3, z) == None;
    assert Lookup(tr, 4, z) == None;
  }

  /** Event 9: its diagnostics and the assignments after it. */
  lemma {:induction false} Event9(f: string, y: string, g: string, z: string, h: string, w: string, tr: Tree, fs: seq<Fact>)
    ensures EventDiags(tr, OutAssigned(4, [], []), fs) == []
    ensures Step(tr, OutAssigned(4, [], []), fs) == fs
  {
    assert OutFacts(4, [], []) == [];
    FactsNil(fs);
  }

  /** Event 10: its diagnostics and the assignments after it. */
  lemma {:induction false} Event10(f: string, y: string, g: string, z: string, h: string, w: string, tr: Tree, fs: seq<Fact>)
    requires |tr.scopes| == 10
    requires Parent(tr, 0) == None
    requires Parent(tr, 3) == Some(0)
    requires Parent(tr, 4) == Some(3)
    requires LocalsOf(tr, 4) == [Local(f, Pos(8, 20)), Local(g, Pos(11, 20)), Local(h, Pos(14, 20))]
    requires LocalsOf(tr, 3) == []
    requires LocalsOf(tr, 0) == []
    requires f != h && g != h
    ensures EventDiags(tr, Declared(4, h, Pos(14, 20), Initialized, []), fs) == []
    ensures Step(tr, Declared(4, h, Pos(14, 20), Initialized, []), fs) == fs + [Fact(4, h, [])]
  {
    assert Lookup(tr, 0, h) == None;
    assert Lookup(tr, 3, h) == None;
  }

  /** Event 11: its diagnostics and the assignments after it. */
  lemma {:induction false} Event11(f: string, y: string, g: string, z: string, h: string, w: string, tr: Tree, fs: seq<Fact>)
    requires |tr.scopes| == 10
    requires Parent(tr, 0) == None
    requires Parent(tr, 3) == Some(0)
    requires Parent(tr, 4) == Some(3)
    requires Parent(tr, 8) == Some(4)
    requires Parent(tr, 9) == Some(8)
    requires LocalsOf(tr, 9) == [Local(w, Pos(14, 69))]
    requires LocalsOf(tr, 8) == []
    requires LocalsOf(tr, 4) == [Local(f, Pos(8, 20)), Local(g, Pos(11, 20)), Local(h, Pos(14, 20))]
    requires LocalsOf(tr, 3) == []
    requires LocalsOf(tr, 0) == []
    requires f != w && g != w && h != w
    ensures EventDiags(tr, Declared(9, w, Pos(14, 69), Out, [2]), fs) == []
    ensures Step(tr, Declared(9, w, Pos(14, 69), Out, [2]), fs) == fs
  {
    assert Lookup(tr, 0, w) == None;
    assert Lookup(tr, 3, w) == None;
    assert Lookup(tr, 4, w) == None;
    assert Lookup(tr, 8, w) == None;
  }

  /** Event 12: its diagnostics and the assignments after it. */
  lemma {:induction false} Event12(f: string, y: string, g: string, z: string, h: string, w: string, tr: Tree, fs: seq<Fact>)
    ensures EventDiags(tr, OutAssigned(9, [w], [2]), fs) == []
    ensures Step(tr, OutAssigned(9, [w], [2]), fs) == fs + [Fact(9, w, [2])]
  {
    OutFactsOne(9, w, [2]);
  }

  /** Event 13: its diagnostics and the assignments after it. */
  lemma {:induction false} Event13(f: string, y: string, g: string, z: string, h: string, w: string, tr: Tree, fs: seq<Fact>)
    requires |tr.scopes| == 10
    requires Parent(tr, 0) == None
    requires Parent(tr, 3) == Some(0)
    requires Parent(tr, 4) == Some(3)
    requires LocalsOf(tr, 4) == [Local(f, Pos(8, 20)), Local(g, Pos(11, 20)), Local(h, Pos(14, 20))]
    requires LocalsOf(tr, 3) == []
    requires LocalsOf(tr, 0) == []
    requires f != w && g != w && h != w
    ensures EventDiags(tr, Referenced(4, w, Pos(15, 27), false, false, []), fs) == [Diag(NotInContext, w, Pos(15, 27))]
    ensures Step(tr, Referenced(4, w, Pos(15, 27), false, false, []), fs) == fs
  {
    assert Lookup(tr, 0, w) == None;
    assert Lookup(tr, 3, w) == None;
    assert Lookup(tr, 4, w) == None;
  }

  /** Event 14: its diagnostics and the assignments after it. */
  lemma {:induction false} Event14(f: string, y: string, g: string, z: string, h: string, w: string, tr: Tree, fs: seq<Fact>)
    ensures EventDiags(tr, OutAssigned(4, [], []), fs) == []
    ensures Step(tr, OutAssigned(4, [], []), fs) == fs
  {
    assert OutFacts(4, [], []) == [];
    FactsNil(fs);
  }

  /** The parent and the locals of scope 0. */
  lemma {:induction false} Scope0(f: string, y: string, g: string, z: string, h: string, w: string, tr: Tree)
    requires ScopesAre(tr, Layout())
    requires LocalsFit(f, y, g, z, h, w, tr)
    ensures |tr.scopes| == 10
    ensures Parent(tr, 0) == None
    ensures LocalsOf(tr, 0) == []
  {
    assert tr.scopes[0] == Layout()[0];
    Locals0(f, y, g, z, h, w);
    assert LocalsOf(tr, 0) == DeclaredBy(f, y, g, z, h, w, 2, 0);
  }

  /** The parent and the locals of scope 3. */
  lemma {:induction false} Scope3(f: string, y: string, g: string, z: string, h: string, w: string, tr: Tree)
    requires ScopesAre(tr, Layout())
    requires LocalsFit(f, y, g, z, h, w, tr)
    ensures |tr.scopes| == 10
    ensures Parent(tr, 3) == Some(0)
    ensures LocalsOf(tr, 3) == []
  {
    assert tr.scopes[3] == Layout()[3];
    Locals3(f, y, g, z, h, w);
    assert LocalsOf(tr, 3) == DeclaredBy(f, y, g, z, h, w, 2, 3);
  }

  /** The parent and the locals of scope 4. */
  lemma {:induction false} Scope4(f: string, y: string, g: string, z: string, h: string, w: string, tr: Tree)
    requires ScopesAre(tr, Layout())
    requires LocalsFit(f, y, g, z, h, w, tr)
    ensures |tr.scopes| == 10
    ensures Parent(tr, 4) == Some(3)
    ensures LocalsOf(tr, 4) == [Local(f, Pos(8, 20)), Local(g, Pos(11, 20)), Local(h, Pos(14, 20))]
  {
    assert tr.scopes[4] == Layout()[4];
    Locals4(f, y, g, z, h, w);
    assert LocalsOf(tr, 4) == DeclaredBy(f, y, g, z, h, w, 2, 4);
  }

  /** The parent and the locals of scope 5. */
  lemma {:induction false} Scope5(f: string, y: string, g: string, z: string, h: string, w: string, tr: Tree)
    requires ScopesAre(tr, Layout())
    requires LocalsFit(f, y, g, z, h, w, tr)
    ensures |tr.scopes| == 10
    ensures Parent(tr, 5) == Some(4)
    ensures LocalsOf(tr, 5) == [Local(y, Pos(8, 57))]
  {
    assert tr.scopes[5] == Layout()[5];
    Locals5(f, y, g, z, h, w);
    assert LocalsOf(tr, 5) == DeclaredBy(f, y, g, z, h, w, 2, 5);
  }

  /** The parent and the locals of scope 6. */
  lemma {:induction false} Scope6(f: string, y: string, g: string, z: string, h: string, w: string, tr: Tree)
    requires ScopesAre(tr, Layout())
    requires LocalsFit(f, y, g, z, h, w, tr)
    ensures |tr.scopes| == 10
    ensures Parent(tr, 6) == Some(4)
    ensures LocalsOf(tr, 6) == []
  {
    assert tr.scopes[6] == Layout()[6];
    Locals6(f, y, g, z, h, w);
    assert LocalsOf(tr, 6) == DeclaredBy(f, y, g, z, h, w, 2, 6);
  }

  /** The parent and the locals of scope 7. */
  lemma {:induction false} Scope7(f: string, y: string, g: string, z: string, h: string, w: string, tr: Tree)
    requires ScopesAre(tr, Layout())
    requires LocalsFit(f, y, g, z, h, w, tr)
    ensures |tr.scopes| == 10
    ensures Parent(tr, 7) == Some(6)
    ensures LocalsOf(tr, 7) == [Local(z, Pos(11, 66))]
  {
    assert tr.scopes[7] == Layout()[7];
    Locals7(f, y, g, z, h, w);
    assert LocalsOf(tr, 7) == DeclaredBy(f, y, g, z, h, w, 2, 7);
  }

  /** The parent and the locals of scope 8. */
  lemma {:induction false} Scope8(f: string, y: string, g: string, z: string, h: string, w: string, tr: Tree)
    requires ScopesAre(tr, Layout())
    requires LocalsFit(f, y, g, z, h, w, tr)
    ensures |tr.scopes| == 10
    ensures Parent(tr, 8) == Some(4)
    ensures LocalsOf(tr, 8) == []
  {
    assert tr.scopes[8] == Layout()[8];
    Locals8(f, y, g, z, h, w);
    assert LocalsOf(tr, 8) == DeclaredBy(f, y, g, z, h, w, 2, 8);
  }

  /** The parent and the locals of scope 9. */
  lemma {:induction false} Scope9(f: string, y: string, g: string, z: string, h: string, w: string, tr: Tree)
    requires ScopesAre(tr, Layout())
    requires LocalsFit(f, y, g, z, h, w, tr)
    ensures |tr.scopes| == 10
    ensures Parent(tr, 9) == Some(8)
    ensures LocalsOf(tr, 9) == [Local(w, Pos(14, 69))]
  {
    assert tr.scopes[9] == Layout()[9];
    Locals9(f, y, g, z, h, w);
    assert LocalsOf(tr, 9) == DeclaredBy(f, y, g, z, h, w, 2, 9);
  }

  /** The analysis of events 0 to 7, after the events before them. */
  lemma {:induction false} Analysed0(f: string, y: string, g: string, z: string, h: string, w: string, tr: Tree, evs: seq<Event>, fs: seq<Fact>, rs: seq<Diag>)
    requires |tr.scopes| == 10
    requires Parent(tr, 0) == None
    requires Parent(tr, 3) == Some(0)
    requires Parent(tr, 4) == Some(3)
    requires Parent(tr, 5) == Some(4)
    requires Parent(tr, 6) == Some(4)
    requires Parent(tr, 7) == Some(6)
    requires LocalsOf(tr, 0) == []
    requires LocalsOf(tr, 3) == []
    requires LocalsOf(tr, 4) == [Local(f, Pos(8, 20)), Local(g, Pos(11, 20)), Local(h, Pos(14, 20))]
    requires LocalsOf(tr, 5) == [Local(y, Pos(8, 57))]
    requires LocalsOf(tr, 6) == []
    requires LocalsOf(tr, 7) == [Local(z, Pos(11, 66))]
    requires f != y && f != g && f != z && f != h && y != g && y != h && g != z && g != h && z != h
    requires Analyse(tr, evs, []) == rs
    requires Replay(tr, evs, []) == fs
    ensures Analyse(tr, evs + Chunk0(f, y, g, z, h, w), []) == rs + ([] + [] + [] + [] + [Diag(NotInContext, y, Pos(9, 27))] + [] + [] + [] + [])
    ensures Replay(tr, evs + Chunk0(f, y, g, z, h, w), []) == fs + [Fact(4, f, [])] + [Fact(5, y, [0])] + [Fact(4, g, [])] + [Fact(7, z, [1])]
  {
    assert Analyse(tr, [], fs) == [] && Replay(tr, [], fs) == fs;
    Event0(f, y, g, z, h, w, tr, fs);
    AnalyseSnoc(tr, [], Declared(4, f, Pos(8, 20), Initialized, []), fs);
    assert Analyse(tr, [] + [Declared(4, f, Pos(8, 20), Initialized, [])], fs) == [] + [];
    assert Replay(tr, [] + [Declared(4, f, Pos(8, 20), Initialized, [])], fs) == fs + [Fact(4, f, [])];
    Event1(f, y, g, z, h, w, tr, fs + [Fact(4, f, [])]);
    AnalyseSnoc(tr, [] + [Declared(4, f, Pos(8, 20), Initialized, [])], Declared(5, y, Pos(8, 57), Out, [0]), fs);
    assert Analyse(tr, [] + [Declared(4, f, Pos(8, 20), Initialized, [])] + [Declared(5, y, Pos(8, 57), Out, [0])], fs) == [] + [] + [];
    assert Replay(tr, [] + [Declared(4, f, Pos(8, 20), Initialized, [])] + [Declared(5, y, Pos(8, 57), Out, [0])], fs) == fs + [Fact(4, f, [])];
    Event2(f, y, g, z, h, w, tr, fs + [Fact(4, f, [])]);
    AnalyseSnoc(tr, [] + [Declared(4, f, Pos(8, 20), Initialized, [])] + [Declared(5, y, Pos(8, 57), Out, [0])], OutAssigned(5, [y], [0]), fs);
    assert Analyse(tr, [] + [Declared(4, f, Pos(8, 20), Initialized, [])] + [Declared(5, y, Pos(8, 57), Out, [0])] + [OutAssigned(5, [y], [0])], fs) == [] + [] + [] + [];
    assert Replay(tr, [] + [Declared(4, f, Pos(8, 20), Initialized, [])] + [Declared(5, y, Pos(8, 57), Out, [0])] + [OutAssigned(5, [y], [0])], fs) == fs + [Fact(4, f, [])] + [Fact(5, y, [0])];
    Event3(f, y, g, z, h, w, tr, fs + [Fact(4, f, [])] + [Fact(5, y, [0])]);
    AnalyseSnoc(tr, [] + [Declared(4, f, Pos(8, 20), Initialized, [])] + [Declared(5, y, Pos(8, 57), Out, [0])] + [OutAssigned(5, [y], [0])], Referenced(4, y, Pos(9, 27), false, false, []), fs);
    assert Analyse(tr, [] + [Declared(4, f, Pos(8, 20), Initialized, [])] + [Declared(5, y, Pos(8, 57), Out, [0])] + [OutAssigned(5, [y], [0])] + [Referenced(4, y, Pos(9, 27), false, false, [])], fs) == [] + [] + [] + [] + [Diag(NotInContext, y, Pos(9, 27))];
    assert Replay(tr, [] + [Declared(4, f, Pos(8, 20), Initialized, [])] + [Declared(5, y, Pos(8, 57), Out, [0])] + [OutAssigned(5, [y], [0])] + [Referenced(4, y, Pos(9, 27), false, false, [])], fs) == fs + [Fact(4, f, [])] + [Fact(5, y, [0])];
    Event4(f, y, g, z, h, w, tr, fs + [Fact(4, f, [])] + [Fact(5, y, [0])]);
    AnalyseSnoc(tr, [] + [Declared(4, f, Pos(8, 20), Initialized, [])] + [Declared(5, y, Pos(8, 57), Out, [0])] + [OutAssigned(5, [y], [0])] + [Referenced(4, y, Pos(9, 27), false, false, [])], OutAssigned(4, [], []), fs);
    assert Analyse(tr, [] + [Declared(4, f, Pos(8, 20), Initialized, [])] + [Declared(5, y, Pos(8, 57), Out, [0])] + [OutAssigned(5, [y], [0])] + [Referenced(4, y, Pos(9, 27), false, false, [])] + [OutAssigned(4, [], [])], fs) == [] + [] + [] + [] + [Diag(NotInContext, y, Pos(9, 27))] + [];
    assert Replay(tr, [] + [Declared(4, f, Pos(8, 20), Initialized, [])] + [Declared(5, y, Pos(8, 57), Out, [0])] + [OutAssigned(5, [y], [0])] + [Referenced(4, y, Pos(9, 27), false, false, [])] + [OutAssigned(4, [], [])], fs) == fs + [Fact(4, f, [])] + [Fact(5, y, [0])];
    Event5(f, y, g, z, h, w, tr, fs + [Fact(4, f, [])] + [Fact(5, y, [0])]);
    AnalyseSnoc(tr, [] + [Declared(4, f, Pos(8, 20), Initialized, [])] + [Declared(5, y, Pos(8, 57), Out, [0])] + [OutAssigned(5, [y], [0])] + [Referenced(4, y, Pos(9, 27), false, false, [])] + [OutAssigned(4, [], [])], Declared(4, g, Pos(11, 20), Initialized, []), fs);
    assert Analyse(tr, [] + [Declared(4, f, Pos(8, 20), Initialized, [])] + [Declared(5, y, Pos(8, 57), Out, [0])] + [OutAssigned(5, [y], [0])] + [Referenced(4, y, Pos(9, 27), false, false, [])] + [OutAssigned(4, [], [])] + [Declared(4, g, Pos(11, 20), Initialized, [])], fs) == [] + [] + [] + [] + [Diag(NotInContext, y, Pos(9, 27))] + [] + [];
    assert Replay(tr, [] + [Declared(4, f, Pos(8, 20), Initialized, [])] + [Declared(5, y, Pos(8, 57), Out, [0])] + [OutAssigned(5, [y], [0])] + [Referenced(4, y, Pos(9, 27), false, false, [])] + [OutAssigned(4, [], [])] + [Declared(4, g, Pos(11, 20), Initialized, [])], fs) == fs + [Fact(4, f, [])] + [Fact(5, y, [0])] + [Fact(4, g, [])];
    Event6(f, y, g, z, h, w, tr, fs + [Fact(4, f, [])] + [Fact(5, y, [0])] + [Fact(4, g, [])]);
    AnalyseSnoc(tr, [] + [Declared(4, f, Pos(8, 20), Initialized, [])] + [Declared(5, y, Pos(8, 57), Out, [0])] + [OutAssigned(5, [y], [0])] + [Referenced(4, y, Pos(9, 27), false, false, [])] + [OutAssigned(4, [], [])] + [Declared(4, g, Pos(11, 20), Initialized, [])], Declared(7, z, Pos(11, 66), Out, [1]), fs);
    assert Analyse(tr, [] + [Declared(4, f, Pos(8, 20), Initialized, [])] + [Declared(5, y, Pos(8, 57), Out, [0])] + [OutAssigned(5, [y], [0])] + [Referenced(4, y, Pos(9, 27), false, false, [])] + [OutAssigned(4, [], [])] + [Declared(4, g, Pos(11, 20), Initialized, [])] + [Declared(7, z, Pos(11, 66), Out, [1])], fs) == [] + [] + [] + [] + [Diag(NotInContext, y, Pos(9, 27))] + [] + [] + [];
    assert Replay(tr, [] + [Declared(4, f, Pos(8, 20), Initialized, [])] + [Declared(5, y, Pos(8, 57), Out, [0])] + [OutAssigned(5, [y], [0])] + [Referenced(4, y, Pos(9, 27), false, false, [])] + [OutAssigned(4, [], [])] + [Declared(4, g, Pos(11, 20), Initialized, [])] + [Declared(7, z, Pos(11, 66), Out, [1])], fs) == fs + [Fact(4, f, [])] + [Fact(5, y, [0])] + [Fact(4, g, [])];
    Event7(f, y, g, z, h, w, tr, fs + [Fact(4, f, [])] + [Fact(5, y, [0])] + [Fact(4, g, [])]);
    AnalyseSnoc(tr, [] + [Declared(4, f, Pos(8, 20), Initialized, [])] + [Declared(5, y, Pos(8, 57), Out, [0])] + [OutAssigned(5, [y], [0])] + [Referenced(4, y, Pos(9, 27), false, false, [])] + [OutAssigned(4, [], [])] + [Declared(4, g, Pos(11, 20), Initialized, [])] + [Declared(7, z, Pos(11, 66), Out, [1])], OutAssigned(7, [z], [1]), fs);
    AnalyseSplit(tr, evs, Chunk0(f, y, g, z, h, w), []);
  }

  /** The analysis of events 8 to 14, after the events before them. */
  lemma {:induction false} Analysed1(f: string, y: string, g: string, z: string, h: string, w: string, tr: Tree, evs: seq<Event>, fs: seq<Fact>, rs: seq<Diag>)
    requires |tr.scopes| == 10
    requires Parent(tr, 0) == None
    requires Parent(tr, 3) == Some(0)
    requires Parent(tr, 4) == Some(3)
    requires Parent(tr, 8) == Some(4)
    requires Parent(tr, 9) == Some(8)
    requires LocalsOf(tr, 0) == []
    requires LocalsOf(tr, 3) == []
    requires LocalsOf(tr, 4) == [Local(f, Pos(8, 20)), Local(g, Pos(11, 20)), Local(h, Pos(14, 20))]
    requires LocalsOf(tr, 8) == []
    requires LocalsOf(tr, 9) == [Local(w, Pos(14, 69))]
    requires f != z && f != h && f != w && g != z && g != h && g != w && z != h && h != w
    requires Analyse(tr, evs, []) == rs
    requires Replay(tr, evs, []) == fs
    ensures Analyse(tr, evs + Chunk1(f, y, g, z, h, w), []) == rs + ([] + [Diag(NotInContext, z, Pos(12, 27))] + [] + [] + [] + [] + [Diag(NotInContext, w, Pos(15, 27))] + [])
    ensures Replay(tr, evs + Chunk1(f, y, g, z, h, w), []) == fs + [Fact(4, h, [])] + [Fact(9, w, [2])]
  {
    assert Analyse(tr, [], fs) == [] && Replay(tr, [], fs) == fs;
    Event8(f, y, g, z, h, w, tr, fs);
    AnalyseSnoc(tr, [], Referenced(4, z, Pos(12, 27), false, false, []), fs);
    assert Analyse(tr, [] + [Referenced(4, z, Pos(12, 27), false, false, [])], fs) == [] + [Diag(NotInContext, z, Pos(12, 27))];
    assert Replay(tr, [] + [Referenced(4, z, Pos(12, 27), false, false, [])], fs) == fs;
    Event9(f, y, g, z, h, w, tr, fs);
    AnalyseSnoc(tr, [] + [Referenced(4, z, Pos(12, 27), false, false, [])], OutAssigned(4, [], []), fs);
    assert Analyse(tr, [] + [Referenced(4, z, Pos(12, 27), false, false, [])] + [OutAssigned(4, [], [])], fs) == [] + [Diag(NotInContext, z, Pos(12, 27))] + [];
    assert Replay(tr, [] + [Referenced(4, z, Pos(12, 27), false, false, [])] + [OutAssigned(4, [], [])], fs) == fs;
    Event10(f, y, g, z, h, w, tr, fs);
    AnalyseSnoc(tr, [] + [Referenced(4, z, Pos(12, 27), false, false, [])] + [OutAssigned(4, [], [])], Declared(4, h, Pos(14, 20), Initialized, []), fs);
    assert Analyse(tr, [] + [Referenced(4, z, Pos(12, 27), false, false, [])] + [OutAssigned(4, [], [])] + [Declared(4, h, Pos(14, 20), Initialized, [])], fs) == [] + [Diag(NotInContext, z, Pos(12, 27))] + [] + [];
    assert Replay(tr, [] + [Referenced(4, z, Pos(12, 27), false, false, [])] + [OutAssigned(4, [], [])] + [Declared(4, h, Pos(14, 20), Initialized, [])], fs) == fs + [Fact(4, h, [])];
    Event11(f, y, g, z, h, w, tr, fs + [Fact(4, h, [])]);
    AnalyseSnoc(tr, [] + [Referenced(4, z, Pos(12, 27), false, false, [])] + [OutAssigned(4, [], [])] + [Declared(4, h, Pos(14, 20), Initialized, [])], Declared(9, w, Pos(14, 69), Out, [2]), fs);
    assert Analyse(tr, [] + [Referenced(4, z, Pos(12, 27), false, false, [])] + [OutAssigned(4, [], [])] + [Declared(4, h, Pos(14, 20), Initialized, [])] + [Declared(9, w, Pos(14, 69), Out, [2])], fs) == [] + [Diag(NotInContext, z, Pos(12, 27))] + [] + [] + [];
    assert Replay(tr, [] + [Referenced(4, z, Pos(12, 27), false, false, [])] + [OutAssigned(4, [], [])] + [Declared(4, h, Pos(14, 20), Initialized, [])] + [Declared(9, w, Pos(14, 69), Out, [2])], fs) == fs + [Fact(4, h, [])];
    Event12(f, y, g, z, h, w, tr, fs + [Fact(4, h, [])]);
    AnalyseSnoc(tr, [] + [Referenced(4, z, Pos(12, 27), false, false, [])] + [OutAssigned(4, [], [])] + [Declared(4, h, Pos(14, 20), Initialized, [])] + [Declared(9, w, Pos(14, 69), Out, [2])], OutAssigned(9, [w], [2]), fs);
    assert Analyse(tr, [] + [Referenced(4, z, Pos(12, 27), false, false, [])] + [OutAssigned(4, [], [])] + [Declared(4, h, Pos(14, 20), Initialized, [])] + [Declared(9, w, Pos(14, 69), Out, [2])] + [OutAssigned(9, [w], [2])], fs) == [] + [Diag(NotInContext, z, Pos(12, 27))] + [] + [] + [] + [];
    assert Replay(tr, [] + [Referenced(4, z, Pos(12, 27), false, false, [])] + [OutAssigned(4, [], [])] + [Declared(4, h, Pos(14, 20), Initialized, [])] + [Declared(9, w, Pos(14, 69), Out, [2])] + [OutAssigned(9, [w], [2])], fs) == fs + [Fact(4, h, [])] + [Fact(9, w, [2])];
    Event13(f, y, g, z, h, w, tr, fs + [Fact(4, h, [])] + [Fact(9, w, [2])]);
    AnalyseSnoc(tr, [] + [Referenced(4, z, Pos(12, 27), false, false, [])] + [OutAssigned(4, [], [])] + [Declared(4, h, Pos(14, 20), Initialized, [])] + [Declared(9, w, Pos(14, 69), Out, [2])] + [OutAssigned(9, [w], [2])], Referenced(4, w, Pos(15, 27), false, false, []), fs);
    assert Analyse(tr, [] + [Referenced(4, z, Pos(12, 27), false, false, [])] + [OutAssigned(4, [], [])] + [Declared(4, h, Pos(14, 20), Initialized, [])] + [Declared(9, w, Pos(14, 69), Out, [2])] + [OutAssigned(9, [w], [2])] + [Referenced(4, w, Pos(15, 27), false, false, [])], fs) == [] + [Diag(NotInContext, z, Pos(12, 27))] + [] + [] + [] + [] + [Diag(NotInContext, w, Pos(15, 27))];
    assert Replay(tr, [] + [Referenced(4, z, Pos(12, 27), false, false, [])] + [OutAssigned(4, [], [])] + [Declared(4, h, Pos(14, 20), Initialized, [])] + [Declared(9, w, Pos(14, 69), Out, [2])] + [OutAssigned(9, [w], [2])] + [Referenced(4, w, Pos(15, 27), false, false, [])], fs) == fs + [Fact(4, h, [])] + [Fact(9, w, [2])];
    Event14(f, y, g, z, h, w, tr, fs + [Fact(4, h, [])] + [Fact(9, w, [2])]);
    AnalyseSnoc(tr, [] + [Referenced(4, z, Pos(12, 27), false, false, [])] + [OutAssigned(4, [], [])] + [Declared(4, h, Pos(14, 20), Initialized, [])] + [Declared(9, w, Pos(14, 69), Out, [2])] + [OutAssigned(9, [w], [2])] + [Referenced(4, w, Pos(15, 27), false, false, [])], OutAssigned(4, [], []), fs);
    AnalyseSplit(tr, evs, Chunk1(f, y, g, z, h, w), []);
  }

  lemma {:induction false} Glue0(f: string, y: string, g: string, z: string, h: string, w: string, rs: seq<Diag>)
    requires rs == []
    ensures rs + ([] + [] + [] + [] + [Diag(NotInContext, y, Pos(9, 27))] + [] + [] + [] + []) == [Diag(NotInContext, y, Pos(9, 27))]
  {
  }

  lemma {:induction false} Glue1(f: string, y: string, g: string, z: string, h: string, w: string, rs: seq<Diag>)
    requires rs == [Diag(NotInContext, y, Pos(9, 27))]
    ensures rs + ([] + [Diag(NotInContext, z, Pos(12, 27))] + [] + [] + [] + [] + [Diag(NotInContext, w, Pos(15, 27))] + []) == [Diag(NotInContext, y, Pos(9, 27)), Diag(NotInContext, z, Pos(12, 27)), Diag(NotInContext, w, Pos(15, 27))]
  {
  }

  /** The analysis of events 0 to 14, after the events before them. */
  lemma {:induction false} Stage0(f: string, y: string, g: string, z: string, h: string, w: string, tr: Tree, evs: seq<Event>)
    requires ScopesAre(tr, Layout())
    requires LocalsFit(f, y, g, z, h, w, tr)
    requires f != y && f != g && f != z && f != h && f != w && y != g && y != h && g != z && g != h && g != w && z != h && h != w
    requires Analyse(tr, evs, []) == []
    requires Replay(tr, evs, []) == []
    ensures Analyse(tr, evs + Chunk0(f, y, g, z, h, w) + Chunk1(f, y, g, z, h, w), []) == [Diag(NotInContext, y, Pos(9, 27)), Diag(NotInContext, z, Pos(12, 27)), Diag(NotInContext, w, Pos(15, 27))]
    ensures Replay(tr, evs + Chunk0(f, y, g, z, h, w) + Chunk1(f, y, g, z, h, w), []) == Known1(f, y, g, z, h, w)
  {
    Scope0(f, y, g, z, h, w, tr);
    Scope3(f, y, g, z, h, w, tr);
    Scope4(f, y, g, z, h, w, tr);
    Scope5(f, y, g, z, h, w, tr);
    Scope6(f, y, g, z, h, w, tr);
    Scope7(f, y, g, z, h, w, tr);
    Analysed0(f, y, g, z, h, w, tr, evs, [], []);
    Glue0(f, y, g, z, h, w, []);
    Scope8(f, y, g, z, h, w, tr);
    Scope9(f, y, g, z, h, w, tr);
    Analysed1(f, y, g, z, h, w, tr, evs + Chunk0(f, y, g, z, h, w), Known0(f, y, g, z, h, w), [Diag(NotInContext, y, Pos(9, 27))]);
    Glue1(f, y, g, z, h, w, [Diag(NotInContext, y, Pos(9, 27))]);
  }

  /** The analysis of a tree with the test's scopes and events. */
  lemma {:induction false} Result(f: string, y: string, g: string, z: string, h: string, w: string, tr: Tree)
    requires ScopesAre(tr, Layout()) && LocalsFit(f, y, g, z, h, w, tr) && tr.events == Trace(f, y, g, z, h, w)
    requires f != y && f != g && f != z && f != h && f != w && y != g && y != h && g != z && g != h && g != w && z != h && h != w
    ensures Analyse(tr, tr.events, []) == [Diag(NotInContext, y, Pos(9, 27)), Diag(NotInContext, z, Pos(12, 27)), Diag(NotInContext, w, Pos(15, 27))]
  {
    assert Analyse(tr, [], []) == [] && Replay(tr, [], []) == [];
    Stage0(f, y, g, z, h, w, tr, []);
  }

  /** The diagnostics the test expects, in the order the analysis reports them. */
  lemma {:induction false} Outcome(f: string, y: string, g: string, z: string, h: string, w: string)
    requires f != y && f != g && f != z && f != h && f != w && y != g && y != h && g != z && g != h && g != w && z != h && h != w
    ensures Check(Program(f, y, g, z, h, w)) == [Diag(NotInContext, y, Pos(9, 27)), Diag(NotInContext, z, Pos(12, 27)), Diag(NotInContext, w, Pos(15, 27))]
  {
    Walked(f, y, g, z, h, w);
    LocalsAll(f, y, g, z, h, w, Build(Program(f, y, g, z, h, w)));
    Result(f, y, g, z, h, w, Build(Program(f, y, g, z, h, w)));
  }
}

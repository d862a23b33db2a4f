/**
 * A statement in its surroundings: walked in some context of some tree, and
 * finished in the final tree of the compilation unit. What the statement's own
 * scopes hold in that final tree follows from the statement alone; what lies
 * outside it enters only through the names its enclosing scopes declare.
 */
module Placement {
  import opened Syntax
  import opened Scopes
  import opened Binding
  import opened Frames
  import opened Shapes

  /** Statement `s`, walked in context `c` of tree `t`, is finished in the final tree `T`. */
  ghost predicate Placed(s: Stmt, c: Ctx, t: Tree, T: Tree) {
    Wf(t) && c.scope < |t.scopes| && Closed(WalkStmt(s, c, t), T, |t.scopes|)
  }

  /**
   * Outside a placed statement, no lookup finds one of its locals: walking out
   * from a scope the statement did not open never enters a scope it opened, so
   * a name used after the statement resolves past it.
   */
  lemma UnseenLookup(s: Stmt, c: Ctx, t: Tree, T: Tree, y: nat, n: string)
    requires Placed(s, c, t, T) && !(|t.scopes| <= y < |WalkStmt(s, c, t).scopes|)
    ensures Lookup(T, y, n).Some? ==> !(|t.scopes| <= Lookup(T, y, n).value < |WalkStmt(s, c, t).scopes|)
  {
    LookupIsNearest(T, y, n);
    if Lookup(T, y, n).Some? {
      ClosedAvoids(WalkStmt(s, c, t), T, |t.scopes|, Lookup(T, y, n).value, y);
    }
  }

  /** A placed block has one scope, below the current one, holding the locals of its statements. */
  lemma BlockPlaced(s: Stmt, c: Ctx, t: Tree, T: Tree)
    requires s.Block? && Placed(s, c, t, T)
    ensures ScopeIn(T, |t.scopes|, c.scope, StmtsLocals(s.stmts), StmtsRefs(s.stmts))
    ensures Parent(T, |t.scopes|) == Some(c.scope) && LocalsOf(T, |t.scopes|) == StmtsLocals(s.stmts)
  {
    BlockShape(s, c, t);
    ScopeSettled(WalkStmt(s, c, t), T, |t.scopes|, |t.scopes|, c.scope, StmtsLocals(s.stmts), StmtsRefs(s.stmts));
  }

  /** The tree in which statement `j` of a block is walked: the block's scope opened and the statements before it walked. */
  function BlockBefore(s: Stmt, j: nat, c: Ctx, t: Tree): Tree
    requires s.Block? && j <= |s.stmts|
  {
    WalkStmts(s.stmts[..j], Into(c, |t.scopes|), Open(t, BlockBody, c.scope))
  }

  /** Each statement of a placed block is placed, in the block's scope, after the statements before it. */
  lemma InBlock(s: Stmt, j: nat, c: Ctx, t: Tree, T: Tree)
    requires s.Block? && Placed(s, c, t, T) && j < |s.stmts|
    ensures var tp := BlockBefore(s, j, c, t);
      && Placed(s.stmts[j], Into(c, |t.scopes|), tp, T)
      && |tp.scopes| == |t.scopes| + 1 + StmtsOpens(s.stmts[..j])
  {
    var b := |t.scopes|;
    var cb := Into(c, b);
    var t0 := Open(t, BlockBody, c.scope);
    var tp := BlockBefore(s, j, c, t);
    var v := WalkStmt(s.stmts[j], cb, tp);
    var u := WalkStmt(s, c, t);
    WfOpen(t, BlockBody, c.scope);
    StmtsWalked(s.stmts[..j], cb, t0);
    GrowsPreservesWf(t0, tp, b);
    assert s.stmts == s.stmts[..j] + [s.stmts[j]] + s.stmts[j + 1..];
    WalkStmtsAppend(s.stmts[..j] + [s.stmts[j]], s.stmts[j + 1..], cb, t0);
    WalkStmtsAppend(s.stmts[..j], [s.stmts[j]], cb, t0);
    assert WalkStmts([s.stmts[j]], cb, tp) == v;
    assert u == WalkStmts(s.stmts[j + 1..], cb, v);
    StmtWalked(s.stmts[j], cb, tp);
    GrowsPreservesWf(tp, v, b);
    StmtsWalked(s.stmts[j + 1..], cb, v);
    ClosedInner(v, u, T, b, |tp.scopes|, b);
  }

  /** The statements before statement `j` of a list open no more scopes than the list less statement `j`. */
  lemma OpensBefore(ss: seq<Stmt>, j: nat)
    requires j < |ss|
    ensures StmtsOpens(ss[..j]) + StmtOpens(ss[j]) <= StmtsOpens(ss)
  {
    assert ss == ss[..j] + ([ss[j]] + ss[j + 1..]);
    assert ([ss[j]] + ss[j + 1..])[1..] == ss[j + 1..];
    StmtsLocalsAppend(ss[..j], [ss[j]] + ss[j + 1..]);
  }

  /** A finished region stays finished when its lower bound is raised. */
  lemma ClosedAbove(u: Tree, T: Tree, lo: nat, lo2: nat)
    requires Closed(u, T, lo) && lo <= lo2
    ensures Closed(u, T, lo2)
  {
    forall i | |u.scopes| <= i < |T.scopes|
      ensures Apart(u, T, lo2, i)
    {
      assert Apart(u, T, lo, i);
    }
  }

  // Statement lists, one statement at a time.

  /** The statements `ss`, walked in context `c` of tree `t`, are finished in `T`. */
  ghost predicate ListPlaced(ss: seq<Stmt>, c: Ctx, t: Tree, T: Tree) {
    Wf(t) && c.scope < |t.scopes| && Closed(WalkStmts(ss, c, t), T, |t.scopes|)
  }

  /** The statements of a placed block are placed in the block's scope. */
  lemma BlockList(s: Stmt, c: Ctx, t: Tree, T: Tree)
    requires s.Block? && Placed(s, c, t, T)
    ensures ListPlaced(s.stmts, Into(c, |t.scopes|), Open(t, BlockBody, c.scope), T)
    ensures ScopeIn(T, |t.scopes|, c.scope, StmtsLocals(s.stmts), StmtsRefs(s.stmts))
  {
    WfOpen(t, BlockBody, c.scope);
    ClosedAbove(WalkStmt(s, c, t), T, |t.scopes|, |t.scopes| + 1);
    BlockPlaced(s, c, t, T);
  }

  /** Statement `j` of a placed list is placed, and the statements after it are placed in the tree it leaves. */
  lemma ListNext(ss: seq<Stmt>, j: nat, c: Ctx, t: Tree, T: Tree)
    requires j < |ss| && ListPlaced(ss[j..], c, t, T)
    ensures Placed(ss[j], c, t, T)
    ensures ListPlaced(ss[j + 1..], c, WalkStmt(ss[j], c, t), T)
    ensures |WalkStmt(ss[j], c, t).scopes| == |t.scopes| + StmtOpens(ss[j])
  {
    var v := WalkStmt(ss[j], c, t);
    var u := WalkStmts(ss[j..], c, t);
    assert ss[j..][0] == ss[j] && ss[j..][1..] == ss[j + 1..];
    assert u == WalkStmts(ss[j + 1..], c, v);
    StmtWalked(ss[j], c, t);
    GrowsPreservesWf(t, v, c.scope);
    StmtsWalked(ss[j + 1..], c, v);
    ClosedInner(v, u, T, |t.scopes|, |t.scopes|, c.scope);
    ClosedAbove(u, T, |t.scopes|, |v.scopes|);
  }

  /** The two halves of a placed list are placed, the second in the tree the first leaves. */
  lemma ListSplit(a: seq<Stmt>, b: seq<Stmt>, c: Ctx, t: Tree, T: Tree)
    requires ListPlaced(a + b, c, t, T)
    ensures ListPlaced(a, c, t, T) && ListPlaced(b, c, WalkStmts(a, c, t), T)
    ensures |WalkStmts(a, c, t).scopes| == |t.scopes| + StmtsOpens(a)
  {
    var v := WalkStmts(a, c, t);
    var u := WalkStmts(a + b, c, t);
    WalkStmtsAppend(a, b, c, t);
    StmtsWalked(a, c, t);
    GrowsPreservesWf(t, v, c.scope);
    StmtsWalked(b, c, v);
    ClosedInner(v, u, T, |t.scopes|, |t.scopes|, c.scope);
    ClosedAbove(u, T, |t.scopes|, |v.scopes|);
  }

  /** An embedded statement (a loop body, a branch), walked in context `c` of tree `t`, is finished in `T`. */
  ghost predicate EmbeddedPlaced(s: Stmt, c: Ctx, t: Tree, T: Tree) {
    Wf(t) && c.scope < |t.scopes| && Closed(WalkEmbedded(s, c, t), T, |t.scopes|)
  }

  /** Inside a placed embedded statement: a block's statements, or the statement itself, in the statement's own scope. */
  lemma EmbeddedInner(s: Stmt, c: Ctx, t: Tree, T: Tree)
    requires EmbeddedPlaced(s, c, t, T)
    ensures s.Block? ==> ListPlaced(s.stmts, Into(c, |t.scopes|), Open(t, BlockBody, c.scope), T)
    ensures !s.Block? ==> Placed(s, Into(c, |t.scopes|), Open(t, EmbeddedBody, c.scope), T)
  {
    WfOpen(t, BlockBody, c.scope);
    WfOpen(t, EmbeddedBody, c.scope);
    ClosedAbove(WalkEmbedded(s, c, t), T, |t.scopes|, |t.scopes| + 1);
  }

  // The scopes of each statement form, in the final tree.

  lemma ForPlaced(s: Stmt, c: Ctx, t: Tree, T: Tree)
    requires s.For? && Placed(s, c, t, T)
    ensures ScopeIn(T, |t.scopes|, c.scope, ExprsLocals(s.init), ExprsRefs(s.init))
    ensures ScopeIn(T, |t.scopes| + 1, |t.scopes|, ExprsLocals(s.cond) + ExprsLocals(s.incr), ExprsRefs(s.cond) + ExprsRefs(s.incr))
    ensures ScopeIn(T, ForBody(s, t), |t.scopes| + 1, EmbeddedLocals(s.body), EmbeddedRefs(s.body))
  {
    var f := |t.scopes|;
    var u := WalkStmt(s, c, t);
    ForShape(s, c, t);
    ScopeSettled(u, T, f, f, c.scope, ExprsLocals(s.init), ExprsRefs(s.init));
    ScopeSettled(u, T, f, f + 1, f, ExprsLocals(s.cond) + ExprsLocals(s.incr), ExprsRefs(s.cond) + ExprsRefs(s.incr));
    ScopeSettled(u, T, f, ForBody(s, t), f + 1, EmbeddedLocals(s.body), EmbeddedRefs(s.body));
  }

  lemma ForEachPlaced(s: Stmt, c: Ctx, t: Tree, T: Tree)
    requires s.ForEach? && Placed(s, c, t, T)
    ensures ScopeIn(T, |t.scopes|, c.scope, ExprsLocals(s.collection), ExprsRefs(s.collection))
    ensures ScopeIn(T, |t.scopes| + 1 + ExprsOpens(s.collection), |t.scopes|, [Local(s.variable.name, s.variable.at)], [])
    ensures ScopeIn(T, |t.scopes| + 2 + ExprsOpens(s.collection), |t.scopes| + 1 + ExprsOpens(s.collection),
                    EmbeddedLocals(s.body), EmbeddedRefs(s.body))
  {
    var f := |t.scopes|;
    var v := f + 1 + ExprsOpens(s.collection);
    var u := WalkStmt(s, c, t);
    ForEachShape(s, c, t);
    ScopeSettled(u, T, f, f, c.scope, ExprsLocals(s.collection), ExprsRefs(s.collection));
    ScopeSettled(u, T, f, v, f, [Local(s.variable.name, s.variable.at)], []);
    ScopeSettled(u, T, f, v + 1, v, EmbeddedLocals(s.body), EmbeddedRefs(s.body));
  }

  lemma WhilePlaced(s: Stmt, c: Ctx, t: Tree, T: Tree)
    requires s.While? && Placed(s, c, t, T)
    ensures ScopeIn(T, |t.scopes|, c.scope, ExprsLocals(s.cond), ExprsRefs(s.cond))
    ensures ScopeIn(T, |t.scopes| + 1 + ExprsOpens(s.cond), |t.scopes|, EmbeddedLocals(s.body), EmbeddedRefs(s.body))
  {
    var w := |t.scopes|;
    var u := WalkStmt(s, c, t);
    WhileShape(s, c, t);
    ScopeSettled(u, T, w, w, c.scope, ExprsLocals(s.cond), ExprsRefs(s.cond));
    ScopeSettled(u, T, w, w + 1 + ExprsOpens(s.cond), w, EmbeddedLocals(s.body), EmbeddedRefs(s.body));
  }

  lemma DoPlaced(s: Stmt, c: Ctx, t: Tree, T: Tree)
    requires s.Do? && Placed(s, c, t, T)
    ensures ScopeIn(T, |t.scopes|, c.scope, ExprsLocals(s.cond), ExprsRefs(s.cond))
    ensures ScopeIn(T, |t.scopes| + 1, |t.scopes|, EmbeddedLocals(s.body), EmbeddedRefs(s.body))
  {
    var w := |t.scopes|;
    var u := WalkStmt(s, c, t);
    DoShape(s, c, t);
    ScopeSettled(u, T, w, w, c.scope, ExprsLocals(s.cond), ExprsRefs(s.cond));
    ScopeSettled(u, T, w, w + 1, w, EmbeddedLocals(s.body), EmbeddedRefs(s.body));
  }

  lemma UsingPlaced(s: Stmt, c: Ctx, t: Tree, T: Tree)
    requires s.Using? && Placed(s, c, t, T)
    ensures ScopeIn(T, |t.scopes|, c.scope, ExprsLocals(s.resource), ExprsRefs(s.resource))
    ensures ScopeIn(T, |t.scopes| + 1 + ExprsOpens(s.resource), |t.scopes|, EmbeddedLocals(s.body), EmbeddedRefs(s.body))
    ensures EmbeddedPlaced(s.body, Into(c, |t.scopes|), HeaderHead(s, c, t), T)
    ensures |HeaderHead(s, c, t).scopes| == |t.scopes| + 1 + ExprsOpens(s.resource)
  {
    var h := |t.scopes|;
    var u := WalkStmt(s, c, t);
    UsingShape(s, c, t);
    ScopeSettled(u, T, h, h, c.scope, ExprsLocals(s.resource), ExprsRefs(s.resource));
    ScopeSettled(u, T, h, h + 1 + ExprsOpens(s.resource), h, EmbeddedLocals(s.body), EmbeddedRefs(s.body));
    HeadShape(s.resource, ResourceHeader, c, t);
    HeaderTreeIsWalk(s, c, t);
    ClosedAbove(u, T, h, h + 1 + ExprsOpens(s.resource));
  }

  lemma FixedPlaced(s: Stmt, c: Ctx, t: Tree, T: Tree)
    requires s.Fixed? && Placed(s, c, t, T)
    ensures ScopeIn(T, |t.scopes|, c.scope, ExprsLocals(s.decl), ExprsRefs(s.decl))
    ensures ScopeIn(T, |t.scopes| + 1 + ExprsOpens(s.decl), |t.scopes|, EmbeddedLocals(s.body), EmbeddedRefs(s.body))
    ensures EmbeddedPlaced(s.body, Into(c, |t.scopes|), HeaderHead(s, c, t), T)
    ensures |HeaderHead(s, c, t).scopes| == |t.scopes| + 1 + ExprsOpens(s.decl)
  {
    var h := |t.scopes|;
    var u := WalkStmt(s, c, t);
    FixedShape(s, c, t);
    ScopeSettled(u, T, h, h, c.scope, ExprsLocals(s.decl), ExprsRefs(s.decl));
    ScopeSettled(u, T, h, h + 1 + ExprsOpens(s.decl), h, EmbeddedLocals(s.body), EmbeddedRefs(s.body));
    HeadShape(s.decl, ResourceHeader, c, t);
    HeaderTreeIsWalk(s, c, t);
    ClosedAbove(u, T, h, h + 1 + ExprsOpens(s.decl));
  }

  lemma SwitchPlaced(s: Stmt, c: Ctx, t: Tree, T: Tree)
    requires s.Switch? && Placed(s, c, t, T)
    ensures ScopeIn(T, |t.scopes|, c.scope, ExprsLocals(s.governing), ExprsRefs(s.governing))
    ensures ScopeIn(T, |t.scopes| + 1 + ExprsOpens(s.governing), |t.scopes|, SectionLocals(s.sections), SectionRefs(s.sections))
  {
    var g := |t.scopes|;
    var u := WalkStmt(s, c, t);
    SwitchShape(s, c, t);
    ScopeSettled(u, T, g, g, c.scope, ExprsLocals(s.governing), ExprsRefs(s.governing));
    ScopeSettled(u, T, g, g + 1 + ExprsOpens(s.governing), g, SectionLocals(s.sections), SectionRefs(s.sections));
  }

  lemma IfPlaced(s: Stmt, c: Ctx, t: Tree, T: Tree)
    requires s.If? && Placed(s, c, t, T)
    ensures ScopeIn(T, |t.scopes|, c.scope, ExprsLocals(s.cond), ExprsRefs(s.cond))
    ensures ScopeIn(T, |t.scopes| + 1 + ExprsOpens(s.cond), |t.scopes|, EmbeddedLocals(s.thenBranch), EmbeddedRefs(s.thenBranch))
    ensures s.elseBranch.Some? ==>
              ScopeIn(T, |t.scopes| + 1 + ExprsOpens(s.cond) + EmbeddedOpens(s.thenBranch), |t.scopes|,
                      EmbeddedLocals(s.elseBranch.value), EmbeddedRefs(s.elseBranch.value))
  {
    var i := |t.scopes|;
    var b := i + 1 + ExprsOpens(s.cond);
    var u := WalkStmt(s, c, t);
    IfShape(s, c, t);
    ScopeSettled(u, T, i, i, c.scope, ExprsLocals(s.cond), ExprsRefs(s.cond));
    ScopeSettled(u, T, i, b, i, EmbeddedLocals(s.thenBranch), EmbeddedRefs(s.thenBranch));
    if s.elseBranch.Some? {
      ScopeSettled(u, T, i, b + EmbeddedOpens(s.thenBranch), i, EmbeddedLocals(s.elseBranch.value), EmbeddedRefs(s.elseBranch.value));
    }
  }

  /** The else branch of a placed `if` statement is placed after the then branch. */
  lemma ElsePlaced(s: Stmt, c: Ctx, t: Tree, T: Tree)
    requires s.If? && s.elseBranch.Some? && Placed(s, c, t, T)
    ensures EmbeddedPlaced(s.elseBranch.value, InArm(IfThen(s, c, t), Into(c, |t.scopes|)), NextArm(IfThen(s, c, t)), T)
    ensures |IfThen(s, c, t).scopes| == |t.scopes| + 1 + ExprsOpens(s.cond) + EmbeddedOpens(s.thenBranch)
  {
    IfTreeIsWalk(s, c, t);
    IfThenShape(s, c, t);
    ClosedAbove(WalkStmt(s, c, t), T, |t.scopes|, |IfThen(s, c, t).scopes|);
  }
}

/**
 * The scopes each statement form opens: for every form, which scope is the
 * parent of which, and exactly which locals and references each of its scopes
 * holds, stated in terms of the statement's syntax. Together with `Closed`, these
 * carry over to any later tree, in particular to the tree of the whole unit.
 */
module Shapes {
  import opened Syntax
  import opened Scopes
  import opened Binding
  import opened Frames

  /** In `t`, scope `x` is a child of `p` and holds exactly the locals `decls` and the references `refs`. */
  ghost predicate ScopeIn(t: Tree, x: nat, p: nat, decls: seq<Local>, refs: seq<Local>) {
    && p < x < |t.scopes| && t.scopes[x].parent == Some(p)
    && DeclsIn(t.events, x) == decls && RefsIn(t.events, x) == refs
  }

  /** A later walk in another scope leaves a scope as it is. */
  lemma ScopeKept(t: Tree, u: Tree, s: nat, x: nat, p: nat, decls: seq<Local>, refs: seq<Local>)
    requires ScopeIn(t, x, p, decls, refs) && Grows(t, u, s) && x != s
    ensures ScopeIn(u, x, p, decls, refs)
  {
    Untouched(t, u, s, x);
  }

  /** A finished scope is the same in every later tree, where `Parent` finds its parent. */
  lemma ScopeSettled(u: Tree, T: Tree, lo: nat, x: nat, p: nat, decls: seq<Local>, refs: seq<Local>)
    requires ScopeIn(u, x, p, decls, refs) && Closed(u, T, lo) && lo <= x
    ensures ScopeIn(T, x, p, decls, refs) && Parent(T, x) == Some(p)
    ensures LocalsOf(T, x) == decls
  {
    assert Kept(u, T, x);
  }

  /** Opening a scope below `p` and walking in it: the new scope holds what the walk recorded. */
  lemma FreshScope(t: Tree, kind: Kind, p: nat, u: Tree, opens: nat, decls: seq<Local>, refs: seq<Local>)
    requires Wf(t) && p < |t.scopes| && Walked(Open(t, kind, p), u, |t.scopes|, opens, decls, refs)
    ensures ScopeIn(u, |t.scopes|, p, decls, refs)
  {
    WfNothingIn(t, |t.scopes|);
    assert u.scopes[|t.scopes|] == Open(t, kind, p).scopes[|t.scopes|];
  }

  lemma WfOpen(t: Tree, kind: Kind, p: nat)
    requires Wf(t) && p < |t.scopes|
    ensures Wf(Open(t, kind, p)) && Wf(NextArm(t))
  {
  }

  /**
   * Inside a finished region, a scope's own region is finished once everything
   * walked after it, up to the end of the region, was walked in scope `s` outside it.
   */
  lemma ClosedInner(v: Tree, u: Tree, T: Tree, lo: nat, lo2: nat, s: nat)
    requires Closed(u, T, lo) && Grows(v, u, s) && lo <= lo2 <= |v.scopes| && !(lo2 <= s < |v.scopes|)
    requires v.scopes <= u.scopes && v.events <= u.events
    ensures Closed(v, T, lo2)
  {
    forall x | lo2 <= x < |v.scopes|
      ensures Kept(v, T, x)
    {
      assert Kept(u, T, x);
      Untouched(v, u, s, x);
    }
    forall i | |v.scopes| <= i < |T.scopes|
      ensures Apart(v, T, lo2, i)
    {
      if i < |u.scopes| {
        assert T.scopes[i] == u.scopes[i];
      } else {
        assert Apart(u, T, lo, i);
      }
    }
  }

  /**
   * The scopes a finished region opened enclose no scope outside it: walking out
   * from a scope outside the region never enters it.
   */
  lemma {:induction false} ClosedAvoids(u: Tree, T: Tree, lo: nat, a: nat, y: nat)
    requires Closed(u, T, lo) && Encloses(T, a, y) && !(lo <= y < |u.scopes|)
    ensures !(lo <= a < |u.scopes|)
    decreases y
  {
    if a != y {
      var p := Parent(T, y).value;
      if y < lo {
        EnclosesOrder(T, a, y);
      } else {
        assert Apart(u, T, lo, y);
        ClosedAvoids(u, T, lo, a, p);
      }
    }
  }

  lemma {:induction false} WalkStmtsAppend(a: seq<Stmt>, b: seq<Stmt>, c: Ctx, t: Tree)
    ensures WalkStmts(a + b, c, t) == WalkStmts(b, c, WalkStmts(a, c, t))
    decreases |a|
  {
    if a == [] {
      assert a + b == b;
    } else {
      assert (a + b)[1..] == a[1..] + b;
      WalkStmtsAppend(a[1..], b, c, WalkStmt(a[0], c, t));
    }
  }

  lemma StmtsLocalsAppend(a: seq<Stmt>, b: seq<Stmt>)
    ensures StmtsLocals(a + b) == StmtsLocals(a) + StmtsLocals(b)
    ensures StmtsRefs(a + b) == StmtsRefs(a) + StmtsRefs(b)
    ensures StmtsOpens(a + b) == StmtsOpens(a) + StmtsOpens(b)
  {
    StmtsDeclsAppend(a, b);
    StmtsRefsAppend(a, b);
    StmtsOpensAppend(a, b);
  }

  lemma {:induction false} StmtsDeclsAppend(a: seq<Stmt>, b: seq<Stmt>)
    ensures StmtsLocals(a + b) == StmtsLocals(a) + StmtsLocals(b)
    decreases |a|
  {
    if a == [] {
      assert a + b == b;
    } else {
      assert (a + b)[1..] == a[1..] + b;
      assert (a + b)[0] == a[0];
      StmtsDeclsAppend(a[1..], b);
    }
  }

  lemma {:induction false} StmtsRefsAppend(a: seq<Stmt>, b: seq<Stmt>)
    ensures StmtsRefs(a + b) == StmtsRefs(a) + StmtsRefs(b)
    decreases |a|
  {
    if a == [] {
      assert a + b == b;
    } else {
      assert (a + b)[1..] == a[1..] + b;
      assert (a + b)[0] == a[0];
      StmtsRefsAppend(a[1..], b);
    }
  }

  lemma {:induction false} StmtsOpensAppend(a: seq<Stmt>, b: seq<Stmt>)
    ensures StmtsOpens(a + b) == StmtsOpens(a) + StmtsOpens(b)
    decreases |a|
  {
    if a == [] {
      assert a + b == b;
    } else {
      assert (a + b)[1..] == a[1..] + b;
      assert (a + b)[0] == a[0];
      StmtsOpensAppend(a[1..], b);
    }
  }

  lemma {:induction false} ExprsLocalsAppend(a: seq<Expr>, b: seq<Expr>)
    ensures ExprsLocals(a + b) == ExprsLocals(a) + ExprsLocals(b)
    ensures ExprsRefs(a + b) == ExprsRefs(a) + ExprsRefs(b)
    decreases |a|
  {
    if a == [] {
      assert a + b == b;
    } else {
      assert (a + b)[1..] == a[1..] + b;
      assert (a + b)[0] == a[0];
      ExprsLocalsAppend(a[1..], b);
    }
  }

  lemma {:induction false} ExprsOpensAppend(a: seq<Expr>, b: seq<Expr>)
    ensures ExprsOpens(a + b) == ExprsOpens(a) + ExprsOpens(b)
    decreases |a|
  {
    if a == [] {
      assert a + b == b;
    } else {
      assert (a + b)[1..] == a[1..] + b;
      assert (a + b)[0] == a[0];
      ExprsOpensAppend(a[1..], b);
    }
  }

  lemma {:induction false} WalkExprsAppend(a: seq<Expr>, b: seq<Expr>, c: Ctx, t: Tree)
    ensures WalkExprs(a + b, c, t) == WalkExprs(b, c, WalkExprs(a, c, t))
    decreases |a|
  {
    if a == [] {
      assert a + b == b;
    } else {
      assert (a + b)[1..] == a[1..] + b;
      WalkExprsAppend(a[1..], b, c, WalkExpr(a[0], c, t));
    }
  }

  // The shape of each statement form.

  lemma EmbeddedShape(s: Stmt, c: Ctx, t: Tree)
    requires Wf(t) && c.scope < |t.scopes|
    ensures ScopeIn(WalkEmbedded(s, c, t), |t.scopes|, c.scope, EmbeddedLocals(s), EmbeddedRefs(s))
  {
    var inner := Into(c, |t.scopes|);
    if s.Block? {
      StmtsWalked(s.stmts, inner, Open(t, BlockBody, c.scope));
      FreshScope(t, BlockBody, c.scope, WalkEmbedded(s, c, t), StmtsOpens(s.stmts), StmtsLocals(s.stmts), StmtsRefs(s.stmts));
    } else {
      assert WalkEmbedded(s, c, t) == WalkStmt(s, inner, Open(t, EmbeddedBody, c.scope));
      StmtWalked(s, inner, Open(t, EmbeddedBody, c.scope));
      FreshScope(t, EmbeddedBody, c.scope, WalkEmbedded(s, c, t), StmtOpens(s), StmtLocals(s), StmtRefs(s));
    }
  }

  /** A block: one scope, child of the current one, holding the locals of its statements. */
  lemma BlockShape(s: Stmt, c: Ctx, t: Tree)
    requires s.Block? && Wf(t) && c.scope < |t.scopes|
    ensures ScopeIn(WalkStmt(s, c, t), |t.scopes|, c.scope, StmtsLocals(s.stmts), StmtsRefs(s.stmts))
  {
    StmtsWalked(s.stmts, Into(c, |t.scopes|), Open(t, BlockBody, c.scope));
    FreshScope(t, BlockBody, c.scope, WalkStmt(s, c, t), StmtsOpens(s.stmts), StmtsLocals(s.stmts), StmtsRefs(s.stmts));
  }

  /** The scope of a `for` loop's body. */
  function ForBody(s: Stmt, t: Tree): nat
    requires s.For?
  {
    |t.scopes| + 2 + ExprsOpens(s.init) + ExprsOpens(s.cond)
  }

  /**
   * A `for` loop: the initializer's scope; inside it one scope shared by the
   * condition and the increment; inside that, the body's scope.
   */
  lemma ForShape(s: Stmt, c: Ctx, t: Tree)
    requires s.For? && Wf(t) && c.scope < |t.scopes|
    ensures var u := WalkStmt(s, c, t); var f := |t.scopes|;
      && ScopeIn(u, f, c.scope, ExprsLocals(s.init), ExprsRefs(s.init))
      && ScopeIn(u, f + 1, f, ExprsLocals(s.cond) + ExprsLocals(s.incr), ExprsRefs(s.cond) + ExprsRefs(s.incr))
      && ScopeIn(u, ForBody(s, t), f + 1, EmbeddedLocals(s.body), EmbeddedRefs(s.body))
  {
    var f := |t.scopes|;
    ForTreeIsWalk(s, c, t);
    ForHeaderShape(s, c, t);
    ForRestShape(s, c, ForHead(s, c, t), f, c.scope, ExprsLocals(s.init), ExprsRefs(s.init), ExprsLocals(s.cond), ExprsRefs(s.cond));
  }

  /** The body and the increment leave the initializer's scope `f` alone and add to the loop scope `f + 1`. */
  lemma ForRestShape(s: Stmt, c: Ctx, t2: Tree, f: nat, p: nat, initDecls: seq<Local>, initRefs: seq<Local>,
                     condDecls: seq<Local>, condRefs: seq<Local>)
    requires s.For? && Wf(t2)
    requires ScopeIn(t2, f, p, initDecls, initRefs) && ScopeIn(t2, f + 1, f, condDecls, condRefs)
    ensures var u := ForRest(s, c, t2, f);
      && ScopeIn(u, f, p, initDecls, initRefs)
      && ScopeIn(u, f + 1, f, condDecls + ExprsLocals(s.incr), condRefs + ExprsRefs(s.incr))
      && ScopeIn(u, |t2.scopes|, f + 1, EmbeddedLocals(s.body), EmbeddedRefs(s.body))
  {
    var cb := InArm(t2, Into(c, f + 1));
    var t3 := NextArm(t2);
    assert Wf(t3) && ScopeIn(t3, f, p, initDecls, initRefs) && ScopeIn(t3, f + 1, f, condDecls, condRefs);
    BodyShape(s.body, cb, t3, f, condDecls, condRefs);
    var tb := WalkEmbedded(s.body, cb, t3);
    ScopeKept(t3, tb, f + 1, f, p, initDecls, initRefs);
    ForIncrShape(s.incr, cb, tb, f, p, initDecls, initRefs, condDecls, condRefs, |t2.scopes|,
                 EmbeddedLocals(s.body), EmbeddedRefs(s.body), ForRest(s, c, t2, f));
  }

  /** The increment of a `for` loop, walked in the loop scope `f + 1` after the body's scope `b`. */
  lemma ForIncrShape(incr: seq<Expr>, cb: Ctx, tb: Tree, f: nat, p: nat, initDecls: seq<Local>, initRefs: seq<Local>,
                     condDecls: seq<Local>, condRefs: seq<Local>, b: nat, bodyDecls: seq<Local>, bodyRefs: seq<Local>, u: Tree)
    requires cb.scope == f + 1 && u == WalkExprs(incr, cb, tb)
    requires ScopeIn(tb, f, p, initDecls, initRefs) && ScopeIn(tb, f + 1, f, condDecls, condRefs)
    requires ScopeIn(tb, b, f + 1, bodyDecls, bodyRefs)
    ensures ScopeIn(u, f, p, initDecls, initRefs)
    ensures ScopeIn(u, f + 1, f, condDecls + ExprsLocals(incr), condRefs + ExprsRefs(incr))
    ensures ScopeIn(u, b, f + 1, bodyDecls, bodyRefs)
  {
    ExprsWalked(incr, cb, tb);
    ScopeKept(tb, u, f + 1, f, p, initDecls, initRefs);
    ScopeKept(tb, u, f + 1, b, f + 1, bodyDecls, bodyRefs);
    ScopeAdds(tb, u, f + 1, ExprsOpens(incr), f, condDecls, condRefs, ExprsLocals(incr), ExprsRefs(incr));
  }

  /** The header of a `for` loop, once its initializer and condition are walked. */
  lemma ForHeaderShape(s: Stmt, c: Ctx, t: Tree)
    requires s.For? && Wf(t) && c.scope < |t.scopes|
    ensures var f := |t.scopes|; var t2 := ForHead(s, c, t);
      && Wf(t2) && |t2.scopes| == ForBody(s, t)
      && ScopeIn(t2, f, c.scope, ExprsLocals(s.init), ExprsRefs(s.init))
      && ScopeIn(t2, f + 1, f, ExprsLocals(s.cond), ExprsRefs(s.cond))
  {
    var f := |t.scopes|;
    var ti := WalkExprs(s.init, Into(c, f), Open(Open(t, ForInit, c.scope), ForLoop, f));
    var t2 := ForHead(s, c, t);
    ForInitShape(s, c, t);
    ExprsWalked(s.cond, Into(c, f + 1), ti);
    ScopeKept(ti, t2, f + 1, f, c.scope, ExprsLocals(s.init), ExprsRefs(s.init));
    assert t2.scopes[f + 1] == ti.scopes[f + 1];
    GrowsPreservesWf(ti, t2, f + 1);
  }

  /** The initializer of a `for` loop, walked in the first of its two scopes. */
  lemma ForInitShape(s: Stmt, c: Ctx, t: Tree)
    requires s.For? && Wf(t) && c.scope < |t.scopes|
    ensures var f := |t.scopes|;
      var ti := WalkExprs(s.init, Into(c, f), Open(Open(t, ForInit, c.scope), ForLoop, f));
      && Wf(ti) && |ti.scopes| == f + 2 + ExprsOpens(s.init)
      && ScopeIn(ti, f, c.scope, ExprsLocals(s.init), ExprsRefs(s.init))
      && ti.scopes[f + 1].parent == Some(f)
      && DeclsIn(ti.events, f + 1) == [] && RefsIn(ti.events, f + 1) == []
  {
    var f := |t.scopes|;
    var ta := Open(t, ForInit, c.scope);
    var t1 := Open(ta, ForLoop, f);
    var ti := WalkExprs(s.init, Into(c, f), t1);
    WfOpen(t, ForInit, c.scope);
    WfOpen(ta, ForLoop, f);
    WfNothingIn(t, f);
    WfNothingIn(t, f + 1);
    ExprsWalked(s.init, Into(c, f), t1);
    assert ti.scopes[f] == t1.scopes[f];
    assert ti.scopes[f + 1] == t1.scopes[f + 1];
    Untouched(t1, ti, f, f + 1);
    GrowsPreservesWf(t1, ti, f);
  }

  /** A walk in a scope adds its locals and references to that scope. */
  lemma ScopeAdds(t: Tree, u: Tree, x: nat, opens: nat, p: nat, decls: seq<Local>, refs: seq<Local>,
                  more: seq<Local>, moreRefs: seq<Local>)
    requires ScopeIn(t, x, p, decls, refs) && Walked(t, u, x, opens, more, moreRefs)
    ensures ScopeIn(u, x, p, decls + more, refs + moreRefs)
  {
    assert u.scopes[x] == t.scopes[x];
  }

  /** A walk in a scope that records nothing there (an embedded statement) leaves it as it is. */
  lemma ScopeStill(t: Tree, u: Tree, x: nat, opens: nat, p: nat, decls: seq<Local>, refs: seq<Local>)
    requires ScopeIn(t, x, p, decls, refs) && Walked(t, u, x, opens, [], [])
    ensures ScopeIn(u, x, p, decls, refs)
  {
    assert u.scopes[x] == t.scopes[x];
    assert decls + [] == decls && refs + [] == refs;
  }

  /** The tree after a `foreach` loop's collection and variable, before its body. */
  function ForEachHead(s: Stmt, c: Ctx, t: Tree): Tree
    requires s.ForEach?
  {
    var f := |t.scopes|;
    var t1 := WalkExprs(s.collection, Into(c, f), Open(t, ForEachCollection, c.scope));
    AddDecl(Open(t1, ForEachVariable, f), Into(c, |t1.scopes|), s.variable.name, s.variable.at, Initialized)
  }

  lemma ForEachTreeIsWalk(s: Stmt, c: Ctx, t: Tree)
    requires s.ForEach?
    ensures var f := |t.scopes|; var v := f + 1 + ExprsOpens(s.collection); var t2 := ForEachHead(s, c, t);
      c.scope < |t.scopes| ==>
        && |t2.scopes| == v + 1
        && WalkStmt(s, c, t) == WalkEmbedded(s.body, InArm(t2, Into(c, v)), NextArm(t2))
  {
    if c.scope < |t.scopes| {
      ExprsWalked(s.collection, Into(c, |t.scopes|), Open(t, ForEachCollection, c.scope));
    }
  }

  lemma ForEachHeadShape(s: Stmt, c: Ctx, t: Tree)
    requires s.ForEach? && Wf(t) && c.scope < |t.scopes|
    ensures var f := |t.scopes|; var v := f + 1 + ExprsOpens(s.collection); var t2 := ForEachHead(s, c, t);
      && Wf(t2) && |t2.scopes| == v + 1
      && ScopeIn(t2, f, c.scope, ExprsLocals(s.collection), ExprsRefs(s.collection))
      && ScopeIn(t2, v, f, [Local(s.variable.name, s.variable.at)], [])
  {
    var f := |t.scopes|;
    var t1 := WalkExprs(s.collection, Into(c, f), Open(t, ForEachCollection, c.scope));
    HeadShape(s.collection, ForEachCollection, c, t);
    VariableShape(t1, c, f, c.scope, ExprsLocals(s.collection), ExprsRefs(s.collection), s.variable);
  }

  /** The loop variable's scope, opened below the collection's scope `f`. */
  lemma VariableShape(t1: Tree, c: Ctx, f: nat, p: nat, decls: seq<Local>, refs: seq<Local>, v: Param)
    requires Wf(t1) && f < |t1.scopes| && ScopeIn(t1, f, p, decls, refs)
    ensures var x := |t1.scopes|; var t2 := AddDecl(Open(t1, ForEachVariable, f), Into(c, x), v.name, v.at, Initialized);
      && Wf(t2) && |t2.scopes| == x + 1
      && ScopeIn(t2, f, p, decls, refs)
      && ScopeIn(t2, x, f, [Local(v.name, v.at)], [])
  {
    var x := |t1.scopes|;
    var tv := Open(t1, ForEachVariable, f);
    var t2 := AddDecl(tv, Into(c, x), v.name, v.at, Initialized);
    EmitWalked(tv, Declared(x, v.name, v.at, Initialized, c.path));
    FreshScope(t1, ForEachVariable, f, t2, 0, [Local(v.name, v.at)], []);
    assert ScopeIn(tv, f, p, decls, refs) by {
      assert tv.scopes[f] == t1.scopes[f];
    }
    ScopeKept(tv, t2, x, f, p, decls, refs);
    WfOpen(t1, ForEachVariable, f);
    GrowsPreservesWf(tv, t2, x);
  }

  /**
   * A `foreach` loop: the collection's scope; inside it the loop variable's
   * scope; inside that, the body's scope.
   */
  lemma ForEachShape(s: Stmt, c: Ctx, t: Tree)
    requires s.ForEach? && Wf(t) && c.scope < |t.scopes|
    ensures ScopeIn(WalkStmt(s, c, t), |t.scopes|, c.scope, ExprsLocals(s.collection), ExprsRefs(s.collection))
    ensures ScopeIn(WalkStmt(s, c, t), |t.scopes| + 1 + ExprsOpens(s.collection), |t.scopes|, [Local(s.variable.name, s.variable.at)], [])
    ensures ScopeIn(WalkStmt(s, c, t), |t.scopes| + 2 + ExprsOpens(s.collection), |t.scopes| + 1 + ExprsOpens(s.collection),
                    EmbeddedLocals(s.body), EmbeddedRefs(s.body))
  {
    ForEachTreeIsWalk(s, c, t);
    ForEachShapeOf(s, c, t, ForEachHead(s, c, t), WalkStmt(s, c, t));
  }

  lemma ForEachShapeOf(s: Stmt, c: Ctx, t: Tree, t2: Tree, u: Tree)
    requires s.ForEach? && Wf(t) && c.scope < |t.scopes| && t2 == ForEachHead(s, c, t)
    requires u == WalkEmbedded(s.body, InArm(t2, Into(c, |t.scopes| + 1 + ExprsOpens(s.collection))), NextArm(t2))
    ensures ScopeIn(u, |t.scopes|, c.scope, ExprsLocals(s.collection), ExprsRefs(s.collection))
    ensures ScopeIn(u, |t.scopes| + 1 + ExprsOpens(s.collection), |t.scopes|, [Local(s.variable.name, s.variable.at)], [])
    ensures ScopeIn(u, |t.scopes| + 2 + ExprsOpens(s.collection), |t.scopes| + 1 + ExprsOpens(s.collection),
                    EmbeddedLocals(s.body), EmbeddedRefs(s.body))
  {
    var f := |t.scopes|;
    var v := f + 1 + ExprsOpens(s.collection);
    ForEachHeadShape(s, c, t);
    ForEachBodyShape(s.body, c, t2, f, v, ExprsLocals(s.collection), ExprsRefs(s.collection),
                     [Local(s.variable.name, s.variable.at)], u);
  }

  /** The body of a `foreach` loop, walked once the collection's scope `f` and the variable's scope `v` exist. */
  lemma ForEachBodyShape(body: Stmt, c: Ctx, t2: Tree, f: nat, v: nat, decls: seq<Local>, refs: seq<Local>,
                         vars: seq<Local>, u: Tree)
    requires Wf(t2) && c.scope < f && |t2.scopes| == v + 1 && f < v
    requires ScopeIn(t2, f, c.scope, decls, refs) && ScopeIn(t2, v, f, vars, [])
    requires u == WalkEmbedded(body, InArm(t2, Into(c, v)), NextArm(t2))
    ensures ScopeIn(u, f, c.scope, decls, refs) && ScopeIn(u, v, f, vars, [])
    ensures ScopeIn(u, v + 1, v, EmbeddedLocals(body), EmbeddedRefs(body))
  {
    var cb := InArm(t2, Into(c, v));
    EmbeddedWalked(body, cb, NextArm(t2));
    ScopeKept(NextArm(t2), u, v, f, c.scope, decls, refs);
    ScopeStill(NextArm(t2), u, v, EmbeddedOpens(body), f, vars, []);
    WfOpen(t2, ForEachVariable, f);
    EmbeddedShape(body, cb, NextArm(t2));
  }

  /** Opening a scope below the current one and walking `items` in it. */
  lemma HeadShape(items: seq<Expr>, kind: Kind, c: Ctx, t: Tree)
    requires Wf(t) && c.scope < |t.scopes|
    ensures var t1 := WalkExprs(items, Into(c, |t.scopes|), Open(t, kind, c.scope));
      && Wf(t1) && |t1.scopes| == |t.scopes| + 1 + ExprsOpens(items)
      && ScopeIn(t1, |t.scopes|, c.scope, ExprsLocals(items), ExprsRefs(items))
  {
    var t0 := Open(t, kind, c.scope);
    ExprsWalked(items, Into(c, |t.scopes|), t0);
    FreshScope(t, kind, c.scope, WalkExprs(items, Into(c, |t.scopes|), t0), ExprsOpens(items), ExprsLocals(items), ExprsRefs(items));
    WfOpen(t, kind, c.scope);
    GrowsPreservesWf(t0, WalkExprs(items, Into(c, |t.scopes|), t0), |t.scopes|);
  }

  /** An embedded statement walked in a header scope `x`: it gets the next scope, below `x`, and `x` stays as it is. */
  lemma BodyShape(body: Stmt, cb: Ctx, t: Tree, p: nat, decls: seq<Local>, refs: seq<Local>)
    requires Wf(t) && ScopeIn(t, cb.scope, p, decls, refs)
    ensures var u := WalkEmbedded(body, cb, t);
      && Wf(u) && |u.scopes| == |t.scopes| + EmbeddedOpens(body) && Grows(t, u, cb.scope)
      && ScopeIn(u, cb.scope, p, decls, refs)
      && ScopeIn(u, |t.scopes|, cb.scope, EmbeddedLocals(body), EmbeddedRefs(body))
  {
    EmbeddedWalked(body, cb, t);
    EmbeddedShape(body, cb, t);
    ScopeStill(t, WalkEmbedded(body, cb, t), cb.scope, EmbeddedOpens(body), p, decls, refs);
    GrowsPreservesWf(t, WalkEmbedded(body, cb, t), cb.scope);
  }

  /** A `while` loop: the condition's scope encloses the body's scope. */
  lemma WhileShape(s: Stmt, c: Ctx, t: Tree)
    requires s.While? && Wf(t) && c.scope < |t.scopes|
    ensures var u := WalkStmt(s, c, t); var w := |t.scopes|;
      && ScopeIn(u, w, c.scope, ExprsLocals(s.cond), ExprsRefs(s.cond))
      && ScopeIn(u, w + 1 + ExprsOpens(s.cond), w, EmbeddedLocals(s.body), EmbeddedRefs(s.body))
  {
    var cc := Into(c, |t.scopes|);
    var t1 := WalkExprs(s.cond, cc, Open(t, LoopCondition, c.scope));
    assert WalkStmt(s, c, t) == WalkEmbedded(s.body, InArm(t1, cc), NextArm(t1));
    HeadShape(s.cond, LoopCondition, c, t);
    WfOpen(t1, LoopCondition, c.scope);
    BodyShape(s.body, InArm(t1, cc), NextArm(t1), c.scope, ExprsLocals(s.cond), ExprsRefs(s.cond));
  }

  /** A `do` loop: the condition's scope encloses the body's scope, though the body comes first. */
  lemma DoShape(s: Stmt, c: Ctx, t: Tree)
    requires s.Do? && Wf(t) && c.scope < |t.scopes|
    ensures var u := WalkStmt(s, c, t); var w := |t.scopes|;
      && ScopeIn(u, w, c.scope, ExprsLocals(s.cond), ExprsRefs(s.cond))
      && ScopeIn(u, w + 1, w, EmbeddedLocals(s.body), EmbeddedRefs(s.body))
  {
    var cc := Into(c, |t.scopes|);
    var t0 := Open(t, LoopCondition, c.scope);
    assert WalkStmt(s, c, t) == WalkExprs(s.cond, cc, WalkEmbedded(s.body, cc, t0));
    DoShapeOf(s, c, t, WalkStmt(s, c, t));
  }

  lemma DoShapeOf(s: Stmt, c: Ctx, t: Tree, u: Tree)
    requires s.Do? && Wf(t) && c.scope < |t.scopes|
    requires u == WalkExprs(s.cond, Into(c, |t.scopes|), WalkEmbedded(s.body, Into(c, |t.scopes|), Open(t, LoopCondition, c.scope)))
    ensures var w := |t.scopes|;
      && ScopeIn(u, w, c.scope, ExprsLocals(s.cond), ExprsRefs(s.cond))
      && ScopeIn(u, w + 1, w, EmbeddedLocals(s.body), EmbeddedRefs(s.body))
  {
    var w := |t.scopes|;
    var cc := Into(c, w);
    var t0 := Open(t, LoopCondition, c.scope);
    var tb := WalkEmbedded(s.body, cc, t0);
    WfNothingIn(t, w);
    WfOpen(t, LoopCondition, c.scope);
    assert ScopeIn(t0, w, c.scope, [], []);
    BodyShape(s.body, cc, t0, c.scope, [], []);
    ExprsWalked(s.cond, cc, tb);
    ScopeAdds(tb, u, w, ExprsOpens(s.cond), c.scope, [], [], ExprsLocals(s.cond), ExprsRefs(s.cond));
    assert [] + ExprsLocals(s.cond) == ExprsLocals(s.cond) && [] + ExprsRefs(s.cond) == ExprsRefs(s.cond);
    ScopeKept(tb, u, w, w + 1, w, EmbeddedLocals(s.body), EmbeddedRefs(s.body));
  }

  /** The header of a `using` or `fixed` statement: the resource or the declaration. */
  function Header(s: Stmt): seq<Expr>
    requires s.Using? || s.Fixed?
  {
    if s.Using? then s.resource else s.decl
  }

  /** The tree after a `using` or `fixed` statement's header. */
  function HeaderHead(s: Stmt, c: Ctx, t: Tree): Tree
    requires s.Using? || s.Fixed?
  {
    WalkExprs(Header(s), Into(c, |t.scopes|), Open(t, ResourceHeader, c.scope))
  }

  lemma HeaderTreeIsWalk(s: Stmt, c: Ctx, t: Tree)
    requires s.Using? || s.Fixed?
    ensures WalkStmt(s, c, t) == WalkEmbedded(s.body, Into(c, |t.scopes|), HeaderHead(s, c, t))
  {
  }

  /** `using`: the header's scope, holding the resource, encloses the body's scope. */
  lemma UsingShape(s: Stmt, c: Ctx, t: Tree)
    requires s.Using? && Wf(t) && c.scope < |t.scopes|
    ensures ScopeIn(WalkStmt(s, c, t), |t.scopes|, c.scope, ExprsLocals(s.resource), ExprsRefs(s.resource))
    ensures ScopeIn(WalkStmt(s, c, t), |t.scopes| + 1 + ExprsOpens(s.resource), |t.scopes|, EmbeddedLocals(s.body), EmbeddedRefs(s.body))
  {
    var u := WalkStmt(s, c, t);
    HeaderTreeIsWalk(s, c, t);
    HeaderShapeOf(s, s.resource, c, t, u);
  }

  /** `fixed`: the header's scope, holding the pointer declaration, encloses the body's scope. */
  lemma FixedShape(s: Stmt, c: Ctx, t: Tree)
    requires s.Fixed? && Wf(t) && c.scope < |t.scopes|
    ensures ScopeIn(WalkStmt(s, c, t), |t.scopes|, c.scope, ExprsLocals(s.decl), ExprsRefs(s.decl))
    ensures ScopeIn(WalkStmt(s, c, t), |t.scopes| + 1 + ExprsOpens(s.decl), |t.scopes|, EmbeddedLocals(s.body), EmbeddedRefs(s.body))
  {
    var u := WalkStmt(s, c, t);
    HeaderTreeIsWalk(s, c, t);
    HeaderShapeOf(s, s.decl, c, t, u);
  }

  lemma HeaderShapeOf(s: Stmt, header: seq<Expr>, c: Ctx, t: Tree, u: Tree)
    requires (s.Using? || s.Fixed?) && Wf(t) && c.scope < |t.scopes|
    requires header == Header(s)
    requires u == WalkEmbedded(s.body, Into(c, |t.scopes|), HeaderHead(s, c, t))
    ensures ScopeIn(u, |t.scopes|, c.scope, ExprsLocals(header), ExprsRefs(header))
    ensures ScopeIn(u, |t.scopes| + 1 + ExprsOpens(header), |t.scopes|, EmbeddedLocals(s.body), EmbeddedRefs(s.body))
  {
    HeadShape(header, ResourceHeader, c, t);
    HeaderBodyShape(s.body, Into(c, |t.scopes|), HeaderHead(s, c, t), c.scope, ExprsLocals(header), ExprsRefs(header), u);
  }

  lemma HeaderBodyShape(body: Stmt, ch: Ctx, t1: Tree, p: nat, decls: seq<Local>, refs: seq<Local>, u: Tree)
    requires Wf(t1) && ScopeIn(t1, ch.scope, p, decls, refs) && u == WalkEmbedded(body, ch, t1)
    ensures ScopeIn(u, ch.scope, p, decls, refs) && ScopeIn(u, |t1.scopes|, ch.scope, EmbeddedLocals(body), EmbeddedRefs(body))
  {
    BodyShape(body, ch, t1, p, decls, refs);
  }

  /** The tree after an `if` statement's condition and then branch. */
  function IfThen(s: Stmt, c: Ctx, t: Tree): Tree
    requires s.If?
  {
    var cc := Into(c, |t.scopes|);
    var t1 := WalkExprs(s.cond, cc, Open(t, IfCondition, c.scope));
    WalkEmbedded(s.thenBranch, InArm(t1, cc), NextArm(t1))
  }

  lemma IfTreeIsWalk(s: Stmt, c: Ctx, t: Tree)
    requires s.If?
    ensures var t2 := IfThen(s, c, t);
      WalkStmt(s, c, t) == (match s.elseBranch
                             case None => t2
                             case Some(e) => WalkEmbedded(e, InArm(t2, Into(c, |t.scopes|)), NextArm(t2)))
  {
  }

  lemma IfThenShape(s: Stmt, c: Ctx, t: Tree)
    requires s.If? && Wf(t) && c.scope < |t.scopes|
    ensures var t2 := IfThen(s, c, t); var i := |t.scopes|; var b := i + 1 + ExprsOpens(s.cond);
      && Wf(t2) && |t2.scopes| == b + EmbeddedOpens(s.thenBranch)
      && ScopeIn(t2, i, c.scope, ExprsLocals(s.cond), ExprsRefs(s.cond))
      && ScopeIn(t2, b, i, EmbeddedLocals(s.thenBranch), EmbeddedRefs(s.thenBranch))
  {
    var cc := Into(c, |t.scopes|);
    var t1 := WalkExprs(s.cond, cc, Open(t, IfCondition, c.scope));
    HeadShape(s.cond, IfCondition, c, t);
    WfOpen(t1, IfCondition, c.scope);
    BodyShape(s.thenBranch, InArm(t1, cc), NextArm(t1), c.scope, ExprsLocals(s.cond), ExprsRefs(s.cond));
  }

  /**
   * An `if` statement: the condition's scope encloses the two branches' scopes,
   * which are siblings.
   */
  lemma IfShape(s: Stmt, c: Ctx, t: Tree)
    requires s.If? && Wf(t) && c.scope < |t.scopes|
    ensures var u := WalkStmt(s, c, t); var i := |t.scopes|; var b := i + 1 + ExprsOpens(s.cond);
      && ScopeIn(u, i, c.scope, ExprsLocals(s.cond), ExprsRefs(s.cond))
      && ScopeIn(u, b, i, EmbeddedLocals(s.thenBranch), EmbeddedRefs(s.thenBranch))
      && (s.elseBranch.Some? ==>
            ScopeIn(u, b + EmbeddedOpens(s.thenBranch), i, EmbeddedLocals(s.elseBranch.value), EmbeddedRefs(s.elseBranch.value)))
  {
    IfTreeIsWalk(s, c, t);
    IfShapeOf(s, c, t, WalkStmt(s, c, t));
  }

  lemma IfShapeOf(s: Stmt, c: Ctx, t: Tree, u: Tree)
    requires s.If? && Wf(t) && c.scope < |t.scopes|
    requires u == (match s.elseBranch
                   case None => IfThen(s, c, t)
                   case Some(e) => WalkEmbedded(e, InArm(IfThen(s, c, t), Into(c, |t.scopes|)), NextArm(IfThen(s, c, t))))
    ensures var i := |t.scopes|; var b := i + 1 + ExprsOpens(s.cond);
      && ScopeIn(u, i, c.scope, ExprsLocals(s.cond), ExprsRefs(s.cond))
      && ScopeIn(u, b, i, EmbeddedLocals(s.thenBranch), EmbeddedRefs(s.thenBranch))
      && (s.elseBranch.Some? ==>
            ScopeIn(u, b + EmbeddedOpens(s.thenBranch), i, EmbeddedLocals(s.elseBranch.value), EmbeddedRefs(s.elseBranch.value)))
  {
    var i := |t.scopes|;
    var t2 := IfThen(s, c, t);
    IfThenShape(s, c, t);
    if s.elseBranch.Some? {
      IfElseShape(s.elseBranch.value, InArm(t2, Into(c, i)), t2, c.scope, ExprsLocals(s.cond), ExprsRefs(s.cond),
                  i + 1 + ExprsOpens(s.cond), EmbeddedLocals(s.thenBranch), EmbeddedRefs(s.thenBranch));
    }
  }

  /** The else branch, walked in the condition's scope `cb.scope` after the then branch's scope `b`. */
  lemma IfElseShape(e: Stmt, cb: Ctx, t2: Tree, p: nat, decls: seq<Local>, refs: seq<Local>,
                    b: nat, thenDecls: seq<Local>, thenRefs: seq<Local>)
    requires Wf(t2) && ScopeIn(t2, cb.scope, p, decls, refs) && ScopeIn(t2, b, cb.scope, thenDecls, thenRefs)
    ensures var u := WalkEmbedded(e, cb, NextArm(t2));
      && ScopeIn(u, cb.scope, p, decls, refs)
      && ScopeIn(u, b, cb.scope, thenDecls, thenRefs)
      && ScopeIn(u, |t2.scopes|, cb.scope, EmbeddedLocals(e), EmbeddedRefs(e))
  {
    var t3 := NextArm(t2);
    assert ScopeIn(t3, cb.scope, p, decls, refs) && ScopeIn(t3, b, cb.scope, thenDecls, thenRefs) && Wf(t3);
    BodyShape(e, cb, t3, p, decls, refs);
    ScopeKept(t3, WalkEmbedded(e, cb, t3), cb.scope, b, cb.scope, thenDecls, thenRefs);
  }

  /** The tree after a `switch` statement's governing expression. */
  function SwitchHead(s: Stmt, c: Ctx, t: Tree): Tree
    requires s.Switch?
  {
    WalkExprs(s.governing, Into(c, |t.scopes|), Open(t, SwitchGoverning, c.scope))
  }

  lemma SwitchTreeIsWalk(s: Stmt, c: Ctx, t: Tree)
    requires s.Switch?
    ensures var t1 := SwitchHead(s, c, t);
      WalkStmt(s, c, t) == WalkSections(s.sections, Into(c, |t1.scopes|), Open(t1, SwitchSections, |t.scopes|))
  {
  }

  /**
   * A `switch` statement: the governing expression's scope encloses one scope
   * that all the sections share.
   */
  lemma SwitchShape(s: Stmt, c: Ctx, t: Tree)
    requires s.Switch? && Wf(t) && c.scope < |t.scopes|
    ensures var u := WalkStmt(s, c, t); var g := |t.scopes|;
      && ScopeIn(u, g, c.scope, ExprsLocals(s.governing), ExprsRefs(s.governing))
      && ScopeIn(u, g + 1 + ExprsOpens(s.governing), g, SectionLocals(s.sections), SectionRefs(s.sections))
  {
    var g := |t.scopes|;
    var t1 := SwitchHead(s, c, t);
    var ts := Open(t1, SwitchSections, g);
    var u := WalkSections(s.sections, Into(c, |t1.scopes|), ts);
    SwitchTreeIsWalk(s, c, t);
    HeadShape(s.governing, SwitchGoverning, c, t);
    SectionsWalked(s.sections, Into(c, |t1.scopes|), ts);
    FreshScope(t1, SwitchSections, g, u, SectionOpens(s.sections), SectionLocals(s.sections), SectionRefs(s.sections));
    assert ScopeIn(ts, g, c.scope, ExprsLocals(s.governing), ExprsRefs(s.governing)) by {
      assert ts.scopes[g] == t1.scopes[g];
    }
    ScopeKept(ts, u, |t1.scopes|, g, c.scope, ExprsLocals(s.governing), ExprsRefs(s.governing));
  }

  /** The locals a catch clause declares in its own scope: the exception variable, then the filter's. */
  function CatchLocals(k: Catch): seq<Local> {
    (match k.param case None => [] case Some(p) => [Local(p.name, p.at)]) + ExprsLocals(k.filter)
  }

  /** The tree after a catch clause's exception variable and filter, before its block. */
  function CatchHead(k: Catch, c: Ctx, t: Tree): Tree {
    var inner := InArm(t, Into(c, |t.scopes|));
    var t1 := NextArm(Open(t, CatchClause, c.scope));
    var t2 := match k.param
      case None => t1
      case Some(p) => AddDecl(t1, inner, p.name, p.at, Initialized);
    WalkExprs(k.filter, inner, t2)
  }

  lemma CatchTreeIsHead(k: Catch, c: Ctx, t: Tree)
    ensures var t3 := CatchHead(k, c, t);
      WalkCatch(k, c, t) == WalkStmts(k.block, Ctx(|t3.scopes|, c.path + [t.arms], c.pending), Open(t3, BlockBody, |t.scopes|))
  {
  }

  lemma CatchParamShape(k: Catch, c: Ctx, t: Tree)
    requires Wf(t) && c.scope < |t.scopes|
    ensures var inner := InArm(t, Into(c, |t.scopes|));
      var t1 := NextArm(Open(t, CatchClause, c.scope));
      var t2 := match k.param
        case None => t1
        case Some(p) => AddDecl(t1, inner, p.name, p.at, Initialized);
      && Wf(t2) && |t2.scopes| == |t.scopes| + 1
      && ScopeIn(t2, |t.scopes|, c.scope, match k.param case None => [] case Some(p) => [Local(p.name, p.at)], [])
  {
    var x := |t.scopes|;
    var inner := InArm(t, Into(c, x));
    var t1 := NextArm(Open(t, CatchClause, c.scope));
    WfNothingIn(t, x);
    WfOpen(t, CatchClause, c.scope);
    WfOpen(Open(t, CatchClause, c.scope), CatchClause, c.scope);
    assert ScopeIn(t1, x, c.scope, [], []);
    match k.param {
      case None =>
      case Some(p) =>
        var t2 := AddDecl(t1, inner, p.name, p.at, Initialized);
        EmitWalked(t1, Declared(x, p.name, p.at, Initialized, inner.path));
        ScopeAdds(t1, t2, x, 0, c.scope, [], [], [Local(p.name, p.at)], []);
        assert [] + [Local(p.name, p.at)] == [Local(p.name, p.at)];
        GrowsPreservesWf(t1, t2, x);
    }
  }

  lemma CatchHeadShape(k: Catch, c: Ctx, t: Tree)
    requires Wf(t) && c.scope < |t.scopes|
    ensures var t3 := CatchHead(k, c, t);
      && Wf(t3) && |t3.scopes| == |t.scopes| + 1 + ExprsOpens(k.filter)
      && ScopeIn(t3, |t.scopes|, c.scope, CatchLocals(k), ExprsRefs(k.filter))
  {
    var x := |t.scopes|;
    var inner := InArm(t, Into(c, x));
    var t1 := NextArm(Open(t, CatchClause, c.scope));
    var t2 := match k.param
      case None => t1
      case Some(p) => AddDecl(t1, inner, p.name, p.at, Initialized);
    var pl := match k.param case None => [] case Some(p) => [Local(p.name, p.at)];
    CatchParamShape(k, c, t);
    ExprsWalked(k.filter, inner, t2);
    ScopeAdds(t2, CatchHead(k, c, t), x, ExprsOpens(k.filter), c.scope, pl, [], ExprsLocals(k.filter), ExprsRefs(k.filter));
    assert [] + ExprsRefs(k.filter) == ExprsRefs(k.filter);
    GrowsPreservesWf(t2, CatchHead(k, c, t), x);
  }

  /**
   * A catch clause: one scope for the exception variable and the filter, below
   * the statement's scope, enclosing the scope of the clause's block.
   */
  lemma CatchShape(k: Catch, c: Ctx, t: Tree)
    requires Wf(t) && c.scope < |t.scopes|
    ensures var u := WalkCatch(k, c, t); var x := |t.scopes|;
      && Wf(u) && |u.scopes| == x + 2 + ExprsOpens(k.filter) + StmtsOpens(k.block)
      && ScopeIn(u, x, c.scope, CatchLocals(k), ExprsRefs(k.filter))
      && ScopeIn(u, x + 1 + ExprsOpens(k.filter), x, StmtsLocals(k.block), StmtsRefs(k.block))
  {
    var x := |t.scopes|;
    var t3 := CatchHead(k, c, t);
    var tb := Open(t3, BlockBody, x);
    var cb := Ctx(|t3.scopes|, c.path + [t.arms], c.pending);
    var u := WalkStmts(k.block, cb, tb);
    CatchTreeIsHead(k, c, t);
    CatchHeadShape(k, c, t);
    StmtsWalked(k.block, cb, tb);
    FreshScope(t3, BlockBody, x, u, StmtsOpens(k.block), StmtsLocals(k.block), StmtsRefs(k.block));
    assert ScopeIn(tb, x, c.scope, CatchLocals(k), ExprsRefs(k.filter)) by {
      assert tb.scopes[x] == t3.scopes[x];
    }
    ScopeKept(tb, u, |t3.scopes|, x, c.scope, CatchLocals(k), ExprsRefs(k.filter));
    WfOpen(t3, BlockBody, x);
    GrowsPreservesWf(tb, u, |t3.scopes|);
  }

  /** Where the catch clause numbered `i` of a `try` statement starts numbering its scopes. */
  function CatchStart(catches: seq<Catch>, i: nat, t: Tree): nat
    requires i <= |catches|
  {
    |t.scopes| + CatchOpens(catches[..i])
  }

  lemma CatchSize(k: Catch, c: Ctx, t: Tree)
    requires Wf(t) && c.scope < |t.scopes|
    ensures var u := WalkCatch(k, c, t);
      Wf(u) && c.scope < |u.scopes| == |t.scopes| + 2 + ExprsOpens(k.filter) + StmtsOpens(k.block)
  {
    CatchWalked(k, c, t);
    GrowsPreservesWf(t, WalkCatch(k, c, t), c.scope);
  }

  lemma CatchesUnfold(catches: seq<Catch>, c: Ctx, t: Tree)
    requires catches != []
    ensures WalkCatches(catches, c, t) == WalkCatches(catches[1..], c, WalkCatch(catches[0], c, t))
  {
  }

  lemma CatchOpensUnfold(catches: seq<Catch>, i: nat)
    requires 0 < i <= |catches|
    ensures CatchOpens(catches[..i])
      == 2 + ExprsOpens(catches[0].filter) + StmtsOpens(catches[0].block) + CatchOpens(catches[1..][..i - 1])
  {
    assert catches[..i][0] == catches[0];
    assert catches[..i][1..] == catches[1..][..i - 1];
  }

  /** The first catch clause's scopes survive the clauses after it. */
  lemma FirstCatchKept(catches: seq<Catch>, c: Ctx, t: Tree)
    requires Wf(t) && c.scope < |t.scopes| && catches != []
    ensures ScopeIn(WalkCatches(catches, c, t), |t.scopes|, c.scope, CatchLocals(catches[0]), ExprsRefs(catches[0].filter))
    ensures ScopeIn(WalkCatches(catches, c, t), |t.scopes| + 1 + ExprsOpens(catches[0].filter), |t.scopes|,
                    StmtsLocals(catches[0].block), StmtsRefs(catches[0].block))
  {
    var k := catches[0];
    var t1 := WalkCatch(k, c, t);
    var u := WalkCatches(catches, c, t);
    CatchesUnfold(catches, c, t);
    CatchShape(k, c, t);
    BothKept(catches[1..], c, t1, |t.scopes|, |t.scopes| + 1 + ExprsOpens(k.filter), CatchLocals(k), ExprsRefs(k.filter),
             StmtsLocals(k.block), StmtsRefs(k.block), u);
  }

  /** Two scopes of a clause, the second inside the first, survive the clauses after it. */
  lemma BothKept(catches: seq<Catch>, c: Ctx, t1: Tree, x: nat, y: nat, d1: seq<Local>, r1: seq<Local>,
                 d2: seq<Local>, r2: seq<Local>, u: Tree)
    requires Wf(t1) && c.scope < x < y < |t1.scopes|
    requires ScopeIn(t1, x, c.scope, d1, r1) && ScopeIn(t1, y, x, d2, r2)
    requires u == WalkCatches(catches, c, t1)
    ensures ScopeIn(u, x, c.scope, d1, r1) && ScopeIn(u, y, x, d2, r2)
  {
    CatchesAfter(catches, c, t1, x, c.scope, d1, r1);
    CatchesAfter(catches, c, t1, y, x, d2, r2);
  }

  /** Catch clauses walked after a scope `x` other than the statement's leave `x` as it is. */
  lemma CatchesAfter(catches: seq<Catch>, c: Ctx, t: Tree, x: nat, p: nat, decls: seq<Local>, refs: seq<Local>)
    requires Wf(t) && c.scope < |t.scopes| && ScopeIn(t, x, p, decls, refs) && x != c.scope
    ensures ScopeIn(WalkCatches(catches, c, t), x, p, decls, refs)
  {
    CatchesWalked(catches, c, t);
    ScopeKept(t, WalkCatches(catches, c, t), c.scope, x, p, decls, refs);
  }

  /** The catch clauses of a `try` statement are siblings: each has its own scopes, below the statement's. */
  lemma {:induction false} CatchesShape(catches: seq<Catch>, c: Ctx, t: Tree, i: nat)
    requires Wf(t) && c.scope < |t.scopes| && i < |catches|
    ensures ScopeIn(WalkCatches(catches, c, t), CatchStart(catches, i, t), c.scope, CatchLocals(catches[i]), ExprsRefs(catches[i].filter))
    ensures ScopeIn(WalkCatches(catches, c, t), CatchStart(catches, i, t) + 1 + ExprsOpens(catches[i].filter), CatchStart(catches, i, t),
                    StmtsLocals(catches[i].block), StmtsRefs(catches[i].block))
    decreases catches
  {
    if i == 0 {
      assert catches[..0] == [];
      FirstCatchKept(catches, c, t);
    } else {
      var t1 := WalkCatch(catches[0], c, t);
      var u := WalkCatches(catches, c, t);
      CatchSize(catches[0], c, t);
      CatchesUnfold(catches, c, t);
      CatchesShape(catches[1..], c, t1, i - 1);
      CatchStep(catches, c, t, i, t1, u);
    }
  }

  /** The numbering of a later catch clause's scopes, seen from the statement and from the clause after the first. */
  lemma CatchStep(catches: seq<Catch>, c: Ctx, t: Tree, i: nat, t1: Tree, u: Tree)
    requires 0 < i < |catches|
    requires |t1.scopes| == |t.scopes| + 2 + ExprsOpens(catches[0].filter) + StmtsOpens(catches[0].block)
    requires ScopeIn(u, CatchStart(catches[1..], i - 1, t1), c.scope, CatchLocals(catches[1..][i - 1]), ExprsRefs(catches[1..][i - 1].filter))
    requires ScopeIn(u, CatchStart(catches[1..], i - 1, t1) + 1 + ExprsOpens(catches[1..][i - 1].filter), CatchStart(catches[1..], i - 1, t1),
                     StmtsLocals(catches[1..][i - 1].block), StmtsRefs(catches[1..][i - 1].block))
    ensures ScopeIn(u, CatchStart(catches, i, t), c.scope, CatchLocals(catches[i]), ExprsRefs(catches[i].filter))
    ensures ScopeIn(u, CatchStart(catches, i, t) + 1 + ExprsOpens(catches[i].filter), CatchStart(catches, i, t),
                    StmtsLocals(catches[i].block), StmtsRefs(catches[i].block))
  {
    CatchOpensUnfold(catches, i);
    assert CatchStart(catches, i, t) == CatchStart(catches[1..], i - 1, t1);
    assert catches[1..][i - 1] == catches[i];
  }

  /** The tree after a `try` statement's try block, before its catch clauses. */
  function TryBody(s: Stmt, c: Ctx, t: Tree): Tree
    requires s.Try?
  {
    WalkStmts(s.tryBlock, InArm(t, Into(c, |t.scopes|)), Open(NextArm(t), BlockBody, c.scope))
  }

  lemma TryTreeIsWalk(s: Stmt, c: Ctx, t: Tree)
    requires s.Try?
    ensures s.finallyBlock.None? ==> WalkStmt(s, c, t) == WalkCatches(s.catches, c, TryBody(s, c, t))
    ensures s.finallyBlock.Some? ==> WalkStmt(s, c, t) == WalkEmbedded(s.finallyBlock.value, c, WalkCatches(s.catches, c, TryBody(s, c, t)))
  {
  }

  lemma TryBodyShape(s: Stmt, c: Ctx, t: Tree)
    requires s.Try? && Wf(t) && c.scope < |t.scopes|
    ensures var t1 := TryBody(s, c, t);
      && Wf(t1) && |t1.scopes| == |t.scopes| + 1 + StmtsOpens(s.tryBlock)
      && ScopeIn(t1, |t.scopes|, c.scope, StmtsLocals(s.tryBlock), StmtsRefs(s.tryBlock))
  {
    var x := |t.scopes|;
    var cb := InArm(t, Into(c, x));
    var t0 := Open(NextArm(t), BlockBody, c.scope);
    WfOpen(t, BlockBody, c.scope);
    WfOpen(NextArm(t), BlockBody, c.scope);
    StmtsWalked(s.tryBlock, cb, t0);
    FreshScope(NextArm(t), BlockBody, c.scope, TryBody(s, c, t), StmtsOpens(s.tryBlock), StmtsLocals(s.tryBlock), StmtsRefs(s.tryBlock));
    GrowsPreservesWf(t0, TryBody(s, c, t), x);
  }

  /**
   * A `try` statement: the try block's scope, the catch clauses' scopes and the
   * finally block's scope are siblings below the statement's scope.
   */
  lemma TryShape(s: Stmt, c: Ctx, t: Tree)
    requires s.Try? && Wf(t) && c.scope < |t.scopes|
    ensures ScopeIn(WalkStmt(s, c, t), |t.scopes|, c.scope, StmtsLocals(s.tryBlock), StmtsRefs(s.tryBlock))
    ensures s.finallyBlock.Some? ==>
              ScopeIn(WalkStmt(s, c, t), |t.scopes| + 1 + StmtsOpens(s.tryBlock) + CatchOpens(s.catches), c.scope,
                      EmbeddedLocals(s.finallyBlock.value), EmbeddedRefs(s.finallyBlock.value))
  {
    TryTreeIsWalk(s, c, t);
    TryBodyShape(s, c, t);
    TryShapeOf(s, c, t, TryBody(s, c, t), WalkCatches(s.catches, c, TryBody(s, c, t)), WalkStmt(s, c, t));
  }

  lemma TryShapeOf(s: Stmt, c: Ctx, t: Tree, t1: Tree, t2: Tree, u: Tree)
    requires s.Try? && Wf(t) && c.scope < |t.scopes|
    requires Wf(t1) && |t1.scopes| == |t.scopes| + 1 + StmtsOpens(s.tryBlock)
    requires ScopeIn(t1, |t.scopes|, c.scope, StmtsLocals(s.tryBlock), StmtsRefs(s.tryBlock))
    requires t2 == WalkCatches(s.catches, c, t1)
    requires s.finallyBlock.None? ==> u == t2
    requires s.finallyBlock.Some? ==> u == WalkEmbedded(s.finallyBlock.value, c, t2)
    ensures ScopeIn(u, |t.scopes|, c.scope, StmtsLocals(s.tryBlock), StmtsRefs(s.tryBlock))
    ensures s.finallyBlock.Some? ==>
              ScopeIn(u, |t.scopes| + 1 + StmtsOpens(s.tryBlock) + CatchOpens(s.catches), c.scope,
                      EmbeddedLocals(s.finallyBlock.value), EmbeddedRefs(s.finallyBlock.value))
  {
    CatchesKeep(s.catches, c, t1, |t.scopes|, c.scope, StmtsLocals(s.tryBlock), StmtsRefs(s.tryBlock), t2);
    if s.finallyBlock.Some? {
      assert |t2.scopes| == |t.scopes| + 1 + StmtsOpens(s.tryBlock) + CatchOpens(s.catches);
      FinallyShape(s.finallyBlock.value, c, t2, |t.scopes|, c.scope, StmtsLocals(s.tryBlock), StmtsRefs(s.tryBlock), u);
    }
  }

  /** The catch clauses, walked after the try block's scope `x`, leave it as it is. */
  lemma CatchesKeep(catches: seq<Catch>, c: Ctx, t1: Tree, x: nat, p: nat, decls: seq<Local>, refs: seq<Local>, t2: Tree)
    requires Wf(t1) && c.scope < |t1.scopes| && ScopeIn(t1, x, p, decls, refs) && x != c.scope
    requires t2 == WalkCatches(catches, c, t1)
    ensures Wf(t2) && |t2.scopes| == |t1.scopes| + CatchOpens(catches) && ScopeIn(t2, x, p, decls, refs)
  {
    CatchesWalked(catches, c, t1);
    ScopeKept(t1, t2, c.scope, x, p, decls, refs);
    GrowsPreservesWf(t1, t2, c.scope);
  }

  /** The finally block, walked after the catch clauses: its own scope, and `x` left as it is. */
  lemma FinallyShape(f: Stmt, c: Ctx, t2: Tree, x: nat, p: nat, decls: seq<Local>, refs: seq<Local>, u: Tree)
    requires Wf(t2) && c.scope < |t2.scopes| && ScopeIn(t2, x, p, decls, refs) && x != c.scope
    requires u == WalkEmbedded(f, c, t2)
    ensures ScopeIn(u, x, p, decls, refs) && ScopeIn(u, |t2.scopes|, c.scope, EmbeddedLocals(f), EmbeddedRefs(f))
  {
    EmbeddedAfter(f, c, t2, x, p, decls, refs);
  }

  /** An embedded statement walked after a scope `x` other than the current one leaves `x` as it is. */
  lemma EmbeddedAfter(f: Stmt, c: Ctx, t: Tree, x: nat, p: nat, decls: seq<Local>, refs: seq<Local>)
    requires Wf(t) && c.scope < |t.scopes| && ScopeIn(t, x, p, decls, refs) && x != c.scope
    ensures var u := WalkEmbedded(f, c, t);
      && ScopeIn(u, x, p, decls, refs)
      && ScopeIn(u, |t.scopes|, c.scope, EmbeddedLocals(f), EmbeddedRefs(f))
  {
    EmbeddedWalked(f, c, t);
    EmbeddedShape(f, c, t);
    ScopeKept(t, WalkEmbedded(f, c, t), c.scope, x, p, decls, refs);
  }

  /**
   * A lambda: one scope below the current one holding its parameters (and, for an
   * expression body, the body's locals); a block body gets the next scope, below it.
   */
  lemma LambdaShape(e: Expr, c: Ctx, t: Tree)
    requires e.Lambda? && Wf(t) && c.scope < |t.scopes|
    ensures var u := WalkExpr(e, c, t); var l := |t.scopes|;
      && ScopeIn(u, l, c.scope, ParamLocals(e.params) + StmtLocals(e.body), StmtRefs(e.body))
      && (e.body.Block? ==> ScopeIn(u, l + 1, l, StmtsLocals(e.body.stmts), StmtsRefs(e.body.stmts)))
  {
    var l := |t.scopes|;
    var inner := InArm(t, Into(c, l));
    var t0 := Open(t, LambdaBody, c.scope);
    var t1 := NextArm(t0);
    var t2 := AddParams(e.params, inner, t1);
    WfNothingIn(t, l);
    WfOpen(t, LambdaBody, c.scope);
    assert ScopeIn(t1, l, c.scope, [], []);
    ParamsWalked(e.params, inner, t1);
    ScopeAdds(t1, t2, l, 0, c.scope, [], [], ParamLocals(e.params), []);
    assert [] + ParamLocals(e.params) == ParamLocals(e.params);
    GrowsPreservesWf(t1, t2, l);
    StmtWalked(e.body, inner, t2);
    ScopeAdds(t2, WalkExpr(e, c, t), l, StmtOpens(e.body), c.scope, ParamLocals(e.params), [], StmtLocals(e.body), StmtRefs(e.body));
    assert [] + StmtRefs(e.body) == StmtRefs(e.body);
    if e.body.Block? {
      BlockShape(e.body, inner, t2);
    }
  }

  /** The tree after a query's source and its first clause. */
  function QueryHead(e: Expr, c: Ctx, t: Tree): Tree
    requires e.Query? && e.clauses != []
  {
    var t1 := WalkExprs(e.source, c, t);
    var inner := InArm(t1, Into(c, |t1.scopes|));
    var ta := AddDecl(NextArm(Open(t1, QueryClause, c.scope)), inner, e.range.name, e.range.at, Initialized);
    WalkExprs(e.clauses[0].items, inner, ta)
  }

  lemma QueryTreeIsHead(e: Expr, c: Ctx, t: Tree)
    requires e.Query? && e.clauses != []
    ensures WalkExpr(e, c, t) == WalkClauses(e.clauses[1..], e.range, c, QueryHead(e, c, t))
  {
  }

  /** The first clause's scope, as the source and the clause leave it. */
  lemma QueryHeadShape(e: Expr, c: Ctx, t1: Tree)
    requires e.Query? && e.clauses != [] && Wf(t1) && c.scope < |t1.scopes|
    ensures var q := |t1.scopes|; var inner := InArm(t1, Into(c, q));
      var ta := AddDecl(NextArm(Open(t1, QueryClause, c.scope)), inner, e.range.name, e.range.at, Initialized);
      var t2 := WalkExprs(e.clauses[0].items, inner, ta);
      && Wf(t2) && |t2.scopes| == q + 1 + ExprsOpens(e.clauses[0].items)
      && ScopeIn(t2, q, c.scope, [Local(e.range.name, e.range.at)] + ExprsLocals(e.clauses[0].items), ExprsRefs(e.clauses[0].items))
  {
    var q := |t1.scopes|;
    var inner := InArm(t1, Into(c, q));
    var t0 := NextArm(Open(t1, QueryClause, c.scope));
    var ta := AddDecl(t0, inner, e.range.name, e.range.at, Initialized);
    var t2 := WalkExprs(e.clauses[0].items, inner, ta);
    var r := [Local(e.range.name, e.range.at)];
    WfNothingIn(t1, q);
    WfOpen(t1, QueryClause, c.scope);
    WfOpen(Open(t1, QueryClause, c.scope), QueryClause, c.scope);
    assert ScopeIn(t0, q, c.scope, [], []);
    EmitWalked(t0, Declared(q, e.range.name, e.range.at, Initialized, inner.path));
    ScopeAdds(t0, ta, q, 0, c.scope, [], [], r, []);
    assert [] + r == r;
    GrowsPreservesWf(t0, ta, q);
    ExprsWalked(e.clauses[0].items, inner, ta);
    ScopeAdds(ta, t2, q, ExprsOpens(e.clauses[0].items), c.scope, r, [], ExprsLocals(e.clauses[0].items), ExprsRefs(e.clauses[0].items));
    assert [] + ExprsRefs(e.clauses[0].items) == ExprsRefs(e.clauses[0].items);
    GrowsPreservesWf(ta, t2, q);
  }

  /**
   * A query: its first clause gets a scope below the current one, after those of
   * the source expression, holding the range variable and the clause's locals.
   */
  lemma QueryShape(e: Expr, c: Ctx, t: Tree)
    requires e.Query? && e.clauses != [] && Wf(t) && c.scope < |t.scopes|
    ensures var u := WalkExpr(e, c, t); var q := |t.scopes| + ExprsOpens(e.source);
      ScopeIn(u, q, c.scope, [Local(e.range.name, e.range.at)] + ExprsLocals(e.clauses[0].items), ExprsRefs(e.clauses[0].items))
  {
    QueryTreeIsHead(e, c, t);
    QueryShapeOf(e, c, t, WalkExpr(e, c, t));
  }

  lemma QueryShapeOf(e: Expr, c: Ctx, t: Tree, u: Tree)
    requires e.Query? && e.clauses != [] && Wf(t) && c.scope < |t.scopes|
    requires u == WalkClauses(e.clauses[1..], e.range, c, QueryHead(e, c, t))
    ensures var q := |t.scopes| + ExprsOpens(e.source);
      ScopeIn(u, q, c.scope, [Local(e.range.name, e.range.at)] + ExprsLocals(e.clauses[0].items), ExprsRefs(e.clauses[0].items))
  {
    var t1 := WalkExprs(e.source, c, t);
    ExprsWalked(e.source, c, t);
    GrowsPreservesWf(t, t1, c.scope);
    QueryHeadShape(e, c, t1);
    QueryRestShape(e, c, QueryHead(e, c, t), |t1.scopes|,
                   [Local(e.range.name, e.range.at)] + ExprsLocals(e.clauses[0].items), ExprsRefs(e.clauses[0].items), u);
  }

  /** The clauses after the first leave the first clause's scope as it was. */
  lemma QueryRestShape(e: Expr, c: Ctx, t2: Tree, q: nat, decls: seq<Local>, refs: seq<Local>, u: Tree)
    requires e.Query? && e.clauses != [] && Wf(t2) && c.scope < q
    requires ScopeIn(t2, q, c.scope, decls, refs)
    requires u == WalkClauses(e.clauses[1..], e.range, c, t2)
    ensures ScopeIn(u, q, c.scope, decls, refs)
  {
    ClausesWalked(e.clauses[1..], e.range, c, t2);
    ScopeKept(t2, u, c.scope, q, c.scope, decls, refs);
  }
}

/**
 * What every walk does to the tree: it only appends (scopes, events, arm
 * numbers); the scopes it opens hang below the scope it walks in; its events
 * land in that scope or in scopes it opened; it opens as many scopes as the
 * syntax says; and the locals and references it records in its own scope are
 * exactly the syntactic ones of the construct walked.
 */
module Frames {
  import opened Syntax
  import opened Scopes

  /** How many scopes walking an expression opens. */
  function ExprOpens(e: Expr): nat
    decreases e, 1
  {
    match e
    case Declare(_, _, _) => 0
    case Use(_, _, _) => 0
    case Call(args) => ArgOpens(args)
    case Lambda(_, body) => 1 + StmtOpens(body)
    case Query(source, _, clauses) => ExprsOpens(source) + ClauseOpens(clauses)
  }

  function ExprsOpens(items: seq<Expr>): nat
    decreases items, 0
  {
    if items == [] then 0 else ExprOpens(items[0]) + ExprsOpens(items[1..])
  }

  function ArgOpens(args: seq<Argument>): nat
    decreases args, 0
  {
    if args == [] then 0 else ExprsOpens(args[0].items) + ArgOpens(args[1..])
  }

  function ClauseOpens(clauses: seq<Clause>): nat
    decreases clauses, 0
  {
    if clauses == [] then 0 else 1 + ExprsOpens(clauses[0].items) + ClauseOpens(clauses[1..])
  }

  function EmbeddedOpens(s: Stmt): nat
    decreases s, 2
  {
    1 + (match s case Block(body) => StmtsOpens(body) case _ => StmtOpens(s))
  }

  function StmtOpens(s: Stmt): nat
    decreases s, 1
  {
    match s
    case Exprs(items) => ExprsOpens(items)
    case Block(body) => 1 + StmtsOpens(body)
    case For(init, cond, incr, body) => 2 + ExprsOpens(init) + ExprsOpens(cond) + EmbeddedOpens(body) + ExprsOpens(incr)
    case ForEach(_, coll, body) => 2 + ExprsOpens(coll) + EmbeddedOpens(body)
    case While(cond, body) => 1 + ExprsOpens(cond) + EmbeddedOpens(body)
    case Do(body, cond) => 1 + EmbeddedOpens(body) + ExprsOpens(cond)
    case Using(resource, body) => 1 + ExprsOpens(resource) + EmbeddedOpens(body)
    case Fixed(decl, body) => 1 + ExprsOpens(decl) + EmbeddedOpens(body)
    case Switch(gov, sections) => 2 + ExprsOpens(gov) + SectionOpens(sections)
    case If(cond, thn, els) =>
      1 + ExprsOpens(cond) + EmbeddedOpens(thn) + (match els case None => 0 case Some(e) => EmbeddedOpens(e))
    case Try(body, catches, fin) =>
      1 + StmtsOpens(body) + CatchOpens(catches) + (match fin case None => 0 case Some(f) => EmbeddedOpens(f))
  }

  function StmtsOpens(ss: seq<Stmt>): nat
    decreases ss, 0
  {
    if ss == [] then 0 else StmtOpens(ss[0]) + StmtsOpens(ss[1..])
  }

  function SectionOpens(sections: seq<Section>): nat
    decreases sections, 0
  {
    if sections == [] then 0 else StmtsOpens(sections[0].stmts) + SectionOpens(sections[1..])
  }

  function CatchOpens(catches: seq<Catch>): nat
    decreases catches, 0
  {
    if catches == [] then 0
    else 2 + ExprsOpens(catches[0].filter) + StmtsOpens(catches[0].block) + CatchOpens(catches[1..])
  }

  /** The locals a statement list declares in the switch-sections scope. */
  function SectionLocals(sections: seq<Section>): seq<Local> {
    if sections == [] then [] else StmtsLocals(sections[0].stmts) + SectionLocals(sections[1..])
  }

  function SectionRefs(sections: seq<Section>): seq<Local> {
    if sections == [] then [] else StmtsRefs(sections[0].stmts) + SectionRefs(sections[1..])
  }

  /** The locals an embedded statement declares in the scope of its own that it gets. */
  function EmbeddedLocals(s: Stmt): seq<Local> {
    if s.Block? then StmtsLocals(s.stmts) else StmtLocals(s)
  }

  function EmbeddedRefs(s: Stmt): seq<Local> {
    if s.Block? then StmtsRefs(s.stmts) else StmtRefs(s)
  }

  /**
   * `u` continues `t` by a walk in scope `s`: it keeps what `t` has; each scope it
   * adds hangs below `s` or below a scope added before it; each event it adds is in
   * `s` or in an added scope.
   */
  ghost predicate Grows(t: Tree, u: Tree, s: nat) {
    && t.scopes <= u.scopes && t.events <= u.events && t.arms <= u.arms
    && (forall i :: |t.scopes| <= i < |u.scopes| ==>
          u.scopes[i].parent.Some? && (u.scopes[i].parent.value == s || |t.scopes| <= u.scopes[i].parent.value < i))
    && (forall k :: |t.events| <= k < |u.events| ==>
          u.events[k].scope == s || |t.scopes| <= u.events[k].scope < |u.scopes|)
  }

  /**
   * A walk in scope `s` from `t` to `u` that opened `opens` scopes and recorded in
   * `s` the locals `decls` and the references `refs`.
   */
  ghost predicate Walked(t: Tree, u: Tree, s: nat, opens: nat, decls: seq<Local>, refs: seq<Local>) {
    && Grows(t, u, s)
    && |u.scopes| == |t.scopes| + opens
    && DeclsIn(u.events, s) == DeclsIn(t.events, s) + decls
    && RefsIn(u.events, s) == RefsIn(t.events, s) + refs
  }

  lemma DeclsInAppend(a: seq<Event>, b: seq<Event>, s: nat)
    ensures DeclsIn(a + b, s) == DeclsIn(a, s) + DeclsIn(b, s)
    ensures RefsIn(a + b, s) == RefsIn(a, s) + RefsIn(b, s)
  {
    DeclsOnlyAppend(a, b, s);
    RefsOnlyAppend(a, b, s);
  }

  lemma {:induction false} DeclsOnlyAppend(a: seq<Event>, b: seq<Event>, s: nat)
    ensures DeclsIn(a + b, s) == DeclsIn(a, s) + DeclsIn(b, s)
    decreases |a|
  {
    if a == [] {
      assert a + b == b;
    } else {
      assert (a + b)[1..] == a[1..] + b;
      assert (a + b)[0] == a[0];
      DeclsOnlyAppend(a[1..], b, s);
    }
  }

  lemma {:induction false} RefsOnlyAppend(a: seq<Event>, b: seq<Event>, s: nat)
    ensures RefsIn(a + b, s) == RefsIn(a, s) + RefsIn(b, s)
    decreases |a|
  {
    if a == [] {
      assert a + b == b;
    } else {
      assert (a + b)[1..] == a[1..] + b;
      assert (a + b)[0] == a[0];
      RefsOnlyAppend(a[1..], b, s);
    }
  }

  lemma {:induction false} DeclsInNone(es: seq<Event>, s: nat)
    requires forall k :: 0 <= k < |es| ==> es[k].scope != s
    ensures DeclsIn(es, s) == [] && RefsIn(es, s) == []
    decreases |es|
  {
    if es != [] {
      DeclsInNone(es[1..], s);
    }
  }

  /** A well-formed tree has no events in scopes it does not have yet. */
  lemma WfNothingIn(t: Tree, s: nat)
    requires Wf(t) && s >= |t.scopes|
    ensures DeclsIn(t.events, s) == [] && RefsIn(t.events, s) == []
  {
    DeclsInNone(t.events, s);
  }

  /** Walking in scope `s` leaves the locals and references of every other existing scope as they were. */
  lemma Untouched(t: Tree, u: Tree, s: nat, x: nat)
    requires Grows(t, u, s) && x < |t.scopes| && x != s
    ensures DeclsIn(u.events, x) == DeclsIn(t.events, x) && RefsIn(u.events, x) == RefsIn(t.events, x)
  {
    var rest := u.events[|t.events|..];
    assert u.events == t.events + rest;
    forall k | 0 <= k < |rest|
      ensures rest[k].scope != x
    {
      assert rest[k] == u.events[|t.events| + k];
    }
    DeclsInNone(rest, x);
    DeclsInAppend(t.events, rest, x);
  }

  lemma GrowsPreservesWf(t: Tree, u: Tree, s: nat)
    requires Wf(t) && s < |t.scopes| && Grows(t, u, s)
    ensures Wf(u)
  {
    forall k | 0 <= k < |u.events|
      ensures u.events[k].scope < |u.scopes|
    {
      if k < |t.events| {
        assert u.events[k] == t.events[k];
      }
    }
    forall i | 0 <= i < |u.scopes| && u.scopes[i].parent.Some?
      ensures u.scopes[i].parent.value < i
    {
      if i < |t.scopes| {
        assert u.scopes[i] == t.scopes[i];
      }
    }
  }

  lemma WalkedNone(t: Tree, s: nat)
    ensures Walked(t, t, s, 0, [], [])
  {
  }

  /** Two walks in the same scope, one after the other. */
  lemma WalkedThen(t: Tree, u: Tree, v: Tree, s: nat, a: nat, b: nat,
                   d1: seq<Local>, r1: seq<Local>, d2: seq<Local>, r2: seq<Local>)
    requires Walked(t, u, s, a, d1, r1) && Walked(u, v, s, b, d2, r2)
    ensures Walked(t, v, s, a + b, d1 + d2, r1 + r2)
  {
    forall i | |t.scopes| <= i < |v.scopes|
      ensures v.scopes[i].parent.Some? && (v.scopes[i].parent.value == s || |t.scopes| <= v.scopes[i].parent.value < i)
    {
      if i < |u.scopes| {
        assert v.scopes[i] == u.scopes[i];
      }
    }
    forall k | |t.events| <= k < |v.events|
      ensures v.events[k].scope == s || |t.scopes| <= v.events[k].scope < |v.scopes|
    {
      if k < |u.events| {
        assert v.events[k] == u.events[k];
      }
    }
  }

  /**
   * A walk in scope `s` followed by a walk in a scope `x` the first one opened: the
   * second records nothing in `s`.
   */
  lemma WalkedInside(t: Tree, u: Tree, v: Tree, s: nat, x: nat, a: nat, b: nat,
                     d1: seq<Local>, r1: seq<Local>, d2: seq<Local>, r2: seq<Local>)
    requires s < |t.scopes| && |t.scopes| <= x < |u.scopes|
    requires Walked(t, u, s, a, d1, r1) && Walked(u, v, x, b, d2, r2)
    ensures Walked(t, v, s, a + b, d1, r1)
  {
    Untouched(u, v, x, s);
    forall i | |t.scopes| <= i < |v.scopes|
      ensures v.scopes[i].parent.Some? && (v.scopes[i].parent.value == s || |t.scopes| <= v.scopes[i].parent.value < i)
    {
      if i < |u.scopes| {
        assert v.scopes[i] == u.scopes[i];
      }
    }
    forall k | |t.events| <= k < |v.events|
      ensures v.events[k].scope == s || |t.scopes| <= v.events[k].scope < |v.scopes|
    {
      if k < |u.events| {
        assert v.events[k] == u.events[k];
      }
    }
  }

  lemma OpenWalked(t: Tree, kind: Kind, s: nat)
    ensures Walked(t, Open(t, kind, s), s, 1, [], [])
  {
  }

  lemma NextArmWalked(t: Tree, s: nat)
    ensures Walked(t, NextArm(t), s, 0, [], [])
  {
  }

  lemma EmitWalked(t: Tree, e: Event)
    ensures Walked(t, Emit(t, e), e.scope, 0,
                   if e.Declared? then [Local(e.name, e.at)] else [],
                   if e.Referenced? then [Local(e.name, e.at)] else [])
  {
    DeclsInAppend(t.events, [e], e.scope);
  }

  lemma {:induction false} ParamsWalked(ps: seq<Param>, c: Ctx, t: Tree)
    ensures Walked(t, AddParams(ps, c, t), c.scope, 0, ParamLocals(ps), [])
    decreases ps
  {
    if ps == [] {
    } else {
      var t1 := AddDecl(t, c, ps[0].name, ps[0].at, Initialized);
      EmitWalked(t, Declared(c.scope, ps[0].name, ps[0].at, Initialized, c.path));
      ParamsWalked(ps[1..], c, t1);
      WalkedThen(t, t1, AddParams(ps[1..], c, t1), c.scope, 0, 0, [Local(ps[0].name, ps[0].at)], [], ParamLocals(ps[1..]), []);
    }
  }

  /** The locals that parameters (of a lambda or a method) declare. */
  function ParamLocals(ps: seq<Param>): seq<Local> {
    if ps == [] then [] else [Local(ps[0].name, ps[0].at)] + ParamLocals(ps[1..])
  }

  // The walk of each construct, by induction on the syntax.

  lemma {:induction false} ExprWalked(e: Expr, c: Ctx, t: Tree)
    requires c.scope < |t.scopes|
    ensures Walked(t, WalkExpr(e, c, t), c.scope, ExprOpens(e), ExprLocals(e), ExprRefs(e))
    decreases e, 1, 0
  {
    match e
    case Declare(n, at, m) =>
      EmitWalked(t, Declared(c.scope, n, at, m, c.path));
    case Use(n, at, w) =>
      EmitWalked(t, Referenced(c.scope, n, at, w, n in c.pending, c.path));
    case Call(args) =>
      var t1 := WalkArgs(args, [], c, t);
      ArgsWalked(args, [], c, t);
      EmitWalked(t1, OutAssigned(c.scope, OutNames(args), c.path));
      WalkedThen(t, t1, WalkExpr(e, c, t), c.scope, ArgOpens(args), 0, ArgLocals(args), ArgRefs(args), [], []);
    case Lambda(ps, body) =>
      var inner := InArm(t, Into(c, |t.scopes|));
      var t1 := NextArm(Open(t, LambdaBody, c.scope));
      var t2 := AddParams(ps, inner, t1);
      OpenWalked(t, LambdaBody, c.scope);
      NextArmWalked(Open(t, LambdaBody, c.scope), c.scope);
      WalkedThen(t, Open(t, LambdaBody, c.scope), t1, c.scope, 1, 0, [], [], [], []);
      ParamsWalked(ps, inner, t1);
      WalkedInside(t, t1, t2, c.scope, inner.scope, 1, 0, [], [], ParamLocals(ps), []);
      StmtWalked(body, inner, t2);
      WalkedInside(t, t2, WalkExpr(e, c, t), c.scope, inner.scope, 1, StmtOpens(body), [], [], StmtLocals(body), StmtRefs(body));
    case Query(source, range, clauses) =>
      var t1 := WalkExprs(source, c, t);
      ExprsWalked(source, c, t);
      ClausesWalked(clauses, range, c, t1);
      WalkedThen(t, t1, WalkExpr(e, c, t), c.scope, ExprsOpens(source), ClauseOpens(clauses),
                 ExprsLocals(source), ExprsRefs(source), [], []);
  }

  lemma {:induction false} ExprsWalked(items: seq<Expr>, c: Ctx, t: Tree)
    requires c.scope < |t.scopes|
    ensures Walked(t, WalkExprs(items, c, t), c.scope, ExprsOpens(items), ExprsLocals(items), ExprsRefs(items))
    decreases items, 0, 0
  {
    if items != [] {
      var t1 := WalkExpr(items[0], c, t);
      ExprWalked(items[0], c, t);
      ExprsWalked(items[1..], c, t1);
      WalkedThen(t, t1, WalkExprs(items, c, t), c.scope, ExprOpens(items[0]), ExprsOpens(items[1..]),
                 ExprLocals(items[0]), ExprRefs(items[0]), ExprsLocals(items[1..]), ExprsRefs(items[1..]));
    }
  }

  lemma {:induction false} ArgsWalked(args: seq<Argument>, earlier: seq<Argument>, c: Ctx, t: Tree)
    requires c.scope < |t.scopes|
    ensures Walked(t, WalkArgs(args, earlier, c, t), c.scope, ArgOpens(args), ArgLocals(args), ArgRefs(args))
    decreases args, 0, 0
  {
    if args != [] {
      var ca := Ctx(c.scope, c.path, c.pending + OutNames(earlier));
      var t1 := WalkExprs(args[0].items, ca, t);
      ExprsWalked(args[0].items, ca, t);
      ArgsWalked(args[1..], earlier + [args[0]], c, t1);
      WalkedThen(t, t1, WalkArgs(args, earlier, c, t), c.scope, ExprsOpens(args[0].items), ArgOpens(args[1..]),
                 ExprsLocals(args[0].items), ExprsRefs(args[0].items), ArgLocals(args[1..]), ArgRefs(args[1..]));
    }
  }

  lemma {:induction false} ClausesWalked(clauses: seq<Clause>, range: Param, c: Ctx, t: Tree)
    requires c.scope < |t.scopes|
    ensures Walked(t, WalkClauses(clauses, range, c, t), c.scope, ClauseOpens(clauses), [], [])
    decreases clauses, 0, 0
  {
    if clauses != [] {
      var inner := InArm(t, Into(c, |t.scopes|));
      var t0 := NextArm(Open(t, QueryClause, c.scope));
      var t1 := AddDecl(t0, inner, range.name, range.at, Initialized);
      var t2 := WalkExprs(clauses[0].items, inner, t1);
      OpenWalked(t, QueryClause, c.scope);
      NextArmWalked(Open(t, QueryClause, c.scope), c.scope);
      WalkedThen(t, Open(t, QueryClause, c.scope), t0, c.scope, 1, 0, [], [], [], []);
      EmitWalked(t0, Declared(inner.scope, range.name, range.at, Initialized, inner.path));
      WalkedInside(t, t0, t1, c.scope, inner.scope, 1, 0, [], [], [Local(range.name, range.at)], []);
      ExprsWalked(clauses[0].items, inner, t1);
      WalkedInside(t, t1, t2, c.scope, inner.scope, 1, ExprsOpens(clauses[0].items), [], [],
                   ExprsLocals(clauses[0].items), ExprsRefs(clauses[0].items));
      ClausesWalked(clauses[1..], range, c, t2);
      WalkedThen(t, t2, WalkClauses(clauses, range, c, t), c.scope, 1 + ExprsOpens(clauses[0].items),
                 ClauseOpens(clauses[1..]), [], [], [], []);
    }
  }

  lemma {:induction false} EmbeddedWalked(s: Stmt, c: Ctx, t: Tree)
    requires c.scope < |t.scopes|
    ensures Walked(t, WalkEmbedded(s, c, t), c.scope, EmbeddedOpens(s), [], [])
    decreases s, 2, 0
  {
    var inner := Into(c, |t.scopes|);
    var kind := if s.Block? then BlockBody else EmbeddedBody;
    var t1 := Open(t, kind, c.scope);
    OpenWalked(t, kind, c.scope);
    match s
    case Block(body) =>
      StmtsWalked(body, inner, t1);
      WalkedInside(t, t1, WalkEmbedded(s, c, t), c.scope, inner.scope, 1, StmtsOpens(body), [], [],
                   StmtsLocals(body), StmtsRefs(body));
    case _ =>
      StmtWalked(s, inner, t1);
      WalkedInside(t, t1, WalkEmbedded(s, c, t), c.scope, inner.scope, 1, StmtOpens(s), [], [],
                   StmtLocals(s), StmtRefs(s));
  }

  lemma {:induction false} StmtWalked(s: Stmt, c: Ctx, t: Tree)
    requires c.scope < |t.scopes|
    ensures Walked(t, WalkStmt(s, c, t), c.scope, StmtOpens(s), StmtLocals(s), StmtRefs(s))
    decreases s, 1, 1
  {
    match s
    case Exprs(items) =>
      ExprsWalked(items, c, t);
    case Block(body) =>
      var t1 := Open(t, BlockBody, c.scope);
      OpenWalked(t, BlockBody, c.scope);
      StmtsWalked(body, Into(c, |t.scopes|), t1);
      WalkedInside(t, t1, WalkStmt(s, c, t), c.scope, |t.scopes|, 1, StmtsOpens(body), [], [],
                   StmtsLocals(body), StmtsRefs(body));
    case For(_, _, _, _) => ForWalked(s, c, t);
    case ForEach(_, _, _) => ForEachWalked(s, c, t);
    case While(cond, body) =>
      var cc := Into(c, |t.scopes|);
      var t0 := Open(t, LoopCondition, c.scope);
      var t1 := WalkExprs(cond, cc, t0);
      OpenWalked(t, LoopCondition, c.scope);
      ExprsWalked(cond, cc, t0);
      WalkedInside(t, t0, t1, c.scope, cc.scope, 1, ExprsOpens(cond), [], [], ExprsLocals(cond), ExprsRefs(cond));
      NextArmWalked(t1, c.scope);
      WalkedThen(t, t1, NextArm(t1), c.scope, 1 + ExprsOpens(cond), 0, [], [], [], []);
      EmbeddedWalked(body, InArm(t1, cc), NextArm(t1));
      WalkedInside(t, NextArm(t1), WalkStmt(s, c, t), c.scope, cc.scope, 1 + ExprsOpens(cond), EmbeddedOpens(body),
                   [], [], [], []);
    case Do(body, cond) =>
      var cc := Into(c, |t.scopes|);
      var t0 := Open(t, LoopCondition, c.scope);
      var t1 := WalkEmbedded(body, cc, t0);
      OpenWalked(t, LoopCondition, c.scope);
      EmbeddedWalked(body, cc, t0);
      WalkedInside(t, t0, t1, c.scope, cc.scope, 1, EmbeddedOpens(body), [], [], [], []);
      ExprsWalked(cond, cc, t1);
      WalkedInside(t, t1, WalkStmt(s, c, t), c.scope, cc.scope, 1 + EmbeddedOpens(body), ExprsOpens(cond),
                   [], [], ExprsLocals(cond), ExprsRefs(cond));
    case Using(_, _) => HeaderWalked(s, c, t);
    case Fixed(_, _) => HeaderWalked(s, c, t);
    case Switch(_, _) => SwitchWalked(s, c, t);
    case If(_, _, _) => IfWalked(s, c, t);
    case Try(_, _, _) => TryWalked(s, c, t);
  }

  /** `using` and `fixed`: one header scope for the resource, enclosing the body. */
  lemma {:induction false} HeaderWalked(s: Stmt, c: Ctx, t: Tree)
    requires (s.Using? || s.Fixed?) && c.scope < |t.scopes|
    ensures Walked(t, WalkStmt(s, c, t), c.scope, StmtOpens(s), [], [])
    decreases s, 1, 0
  {
    var header := if s.Using? then s.resource else s.decl;
    var ch := Into(c, |t.scopes|);
    var t0 := Open(t, ResourceHeader, c.scope);
    var t1 := WalkExprs(header, ch, t0);
    assert WalkStmt(s, c, t) == WalkEmbedded(s.body, ch, t1);
    OpenWalked(t, ResourceHeader, c.scope);
    ExprsWalked(header, ch, t0);
    WalkedInside(t, t0, t1, c.scope, ch.scope, 1, ExprsOpens(header), [], [], ExprsLocals(header), ExprsRefs(header));
    EmbeddedWalked(s.body, ch, t1);
    WalkedInside(t, t1, WalkEmbedded(s.body, ch, t1), c.scope, ch.scope, 1 + ExprsOpens(header), EmbeddedOpens(s.body),
                 [], [], [], []);
  }

  /** The tree after a `for` loop's initializer and condition. */
  function ForHead(s: Stmt, c: Ctx, t: Tree): Tree
    requires s.For?
  {
    var f := |t.scopes|;
    WalkExprs(s.cond, Into(c, f + 1), WalkExprs(s.init, Into(c, f), Open(Open(t, ForInit, c.scope), ForLoop, f)))
  }

  /** The rest of a `for` loop, the body then the increment, walked after its header `t2`. */
  function ForRest(s: Stmt, c: Ctx, t2: Tree, f: nat): Tree
    requires s.For?
  {
    var cb := InArm(t2, Into(c, f + 1));
    WalkExprs(s.incr, cb, WalkEmbedded(s.body, cb, NextArm(t2)))
  }

  lemma ForTreeIsWalk(s: Stmt, c: Ctx, t: Tree)
    requires s.For?
    ensures WalkStmt(s, c, t) == ForRest(s, c, ForHead(s, c, t), |t.scopes|)
  {
  }

  /** The header of a `for` loop: its two scopes, the initializer and the condition. */
  lemma {:induction false} ForHeaderWalked(s: Stmt, c: Ctx, t: Tree)
    requires s.For? && c.scope < |t.scopes|
    ensures Walked(t, ForHead(s, c, t), c.scope, 2 + ExprsOpens(s.init) + ExprsOpens(s.cond), [], [])
    decreases s, 0, 0
  {
    var f := |t.scopes|;
    var ta := Open(t, ForInit, c.scope);
    var t1 := Open(ta, ForLoop, f);
    var ti := WalkExprs(s.init, Into(c, f), t1);
    OpenWalked(t, ForInit, c.scope);
    OpenWalked(ta, ForLoop, f);
    WalkedInside(t, ta, t1, c.scope, f, 1, 1, [], [], [], []);
    ExprsWalked(s.init, Into(c, f), t1);
    WalkedInside(t, t1, ti, c.scope, f, 2, ExprsOpens(s.init), [], [], ExprsLocals(s.init), ExprsRefs(s.init));
    ExprsWalked(s.cond, Into(c, f + 1), ti);
    WalkedInside(t, ti, ForHead(s, c, t), c.scope, f + 1, 2 + ExprsOpens(s.init),
                 ExprsOpens(s.cond), [], [], ExprsLocals(s.cond), ExprsRefs(s.cond));
  }

  /** The body of a `for` loop, walked in the loop scope after the header `t2`. */
  lemma {:induction false} ForBodyWalked(s: Stmt, c: Ctx, t: Tree, t2: Tree)
    requires s.For? && c.scope < |t.scopes|
    requires Walked(t, t2, c.scope, 2 + ExprsOpens(s.init) + ExprsOpens(s.cond), [], [])
    ensures var cb := InArm(t2, Into(c, |t.scopes| + 1));
      Walked(t, WalkEmbedded(s.body, cb, NextArm(t2)), c.scope,
             2 + ExprsOpens(s.init) + ExprsOpens(s.cond) + EmbeddedOpens(s.body), [], [])
    decreases s, 0, 0
  {
    var f := |t.scopes|;
    var cb := InArm(t2, Into(c, f + 1));
    var h := 2 + ExprsOpens(s.init) + ExprsOpens(s.cond);
    NextArmWalked(t2, c.scope);
    WalkedThen(t, t2, NextArm(t2), c.scope, h, 0, [], [], [], []);
    EmbeddedWalked(s.body, cb, NextArm(t2));
    WalkedInside(t, NextArm(t2), WalkEmbedded(s.body, cb, NextArm(t2)), c.scope, f + 1, h, EmbeddedOpens(s.body), [], [], [], []);
  }

  /** The body and the increment of a `for` loop, walked in the loop scope after the header `t2`. */
  lemma {:induction false} ForRestWalked(s: Stmt, c: Ctx, t: Tree, t2: Tree)
    requires s.For? && c.scope < |t.scopes|
    requires Walked(t, t2, c.scope, 2 + ExprsOpens(s.init) + ExprsOpens(s.cond), [], [])
    ensures Walked(t, ForRest(s, c, t2, |t.scopes|), c.scope, StmtOpens(s), [], [])
    decreases s, 0, 1
  {
    var f := |t.scopes|;
    var cb := InArm(t2, Into(c, f + 1));
    var tb := WalkEmbedded(s.body, cb, NextArm(t2));
    ForBodyWalked(s, c, t, t2);
    ExprsWalked(s.incr, cb, tb);
    WalkedInside(t, tb, ForRest(s, c, t2, f), c.scope, f + 1, 2 + ExprsOpens(s.init) + ExprsOpens(s.cond) + EmbeddedOpens(s.body),
                 ExprsOpens(s.incr), [], [], ExprsLocals(s.incr), ExprsRefs(s.incr));
  }

  lemma {:induction false} ForWalked(s: Stmt, c: Ctx, t: Tree)
    requires s.For? && c.scope < |t.scopes|
    ensures Walked(t, WalkStmt(s, c, t), c.scope, StmtOpens(s), [], [])
    decreases s, 1, 0
  {
    ForTreeIsWalk(s, c, t);
    ForHeaderWalked(s, c, t);
    ForRestWalked(s, c, t, ForHead(s, c, t));
  }

  lemma {:induction false} ForEachWalked(s: Stmt, c: Ctx, t: Tree)
    requires s.ForEach? && c.scope < |t.scopes|
    ensures Walked(t, WalkStmt(s, c, t), c.scope, StmtOpens(s), [], [])
    decreases s, 1, 0
  {
    var f := |t.scopes|;
    var t0 := Open(t, ForEachCollection, c.scope);
    var t1 := WalkExprs(s.collection, Into(c, f), t0);
    var cv := Into(c, |t1.scopes|);
    var tv := Open(t1, ForEachVariable, f);
    var t2 := AddDecl(tv, cv, s.variable.name, s.variable.at, Initialized);
    OpenWalked(t, ForEachCollection, c.scope);
    ExprsWalked(s.collection, Into(c, f), t0);
    WalkedInside(t, t0, t1, c.scope, f, 1, ExprsOpens(s.collection), [], [],
                 ExprsLocals(s.collection), ExprsRefs(s.collection));
    OpenWalked(t1, ForEachVariable, f);
    WalkedInside(t, t1, tv, c.scope, f, 1 + ExprsOpens(s.collection), 1, [], [], [], []);
    EmitWalked(tv, Declared(cv.scope, s.variable.name, s.variable.at, Initialized, cv.path));
    WalkedInside(t, tv, t2, c.scope, cv.scope, 2 + ExprsOpens(s.collection), 0, [], [],
                 [Local(s.variable.name, s.variable.at)], []);
    NextArmWalked(t2, c.scope);
    WalkedThen(t, t2, NextArm(t2), c.scope, 2 + ExprsOpens(s.collection), 0, [], [], [], []);
    EmbeddedWalked(s.body, InArm(t2, cv), NextArm(t2));
    WalkedInside(t, NextArm(t2), WalkStmt(s, c, t), c.scope, cv.scope, 2 + ExprsOpens(s.collection),
                 EmbeddedOpens(s.body), [], [], [], []);
  }

  lemma {:induction false} SwitchWalked(s: Stmt, c: Ctx, t: Tree)
    requires s.Switch? && c.scope < |t.scopes|
    ensures Walked(t, WalkStmt(s, c, t), c.scope, StmtOpens(s), [], [])
    decreases s, 1, 0
  {
    var g := |t.scopes|;
    var t0 := Open(t, SwitchGoverning, c.scope);
    var t1 := WalkExprs(s.governing, Into(c, g), t0);
    var ts := Open(t1, SwitchSections, g);
    OpenWalked(t, SwitchGoverning, c.scope);
    ExprsWalked(s.governing, Into(c, g), t0);
    WalkedInside(t, t0, t1, c.scope, g, 1, ExprsOpens(s.governing), [], [],
                 ExprsLocals(s.governing), ExprsRefs(s.governing));
    OpenWalked(t1, SwitchSections, g);
    WalkedInside(t, t1, ts, c.scope, g, 1 + ExprsOpens(s.governing), 1, [], [], [], []);
    SectionsWalked(s.sections, Into(c, |t1.scopes|), ts);
    WalkedInside(t, ts, WalkStmt(s, c, t), c.scope, |t1.scopes|, 2 + ExprsOpens(s.governing),
                 SectionOpens(s.sections), [], [], SectionLocals(s.sections), SectionRefs(s.sections));
  }

  lemma {:induction false} IfWalked(s: Stmt, c: Ctx, t: Tree)
    requires s.If? && c.scope < |t.scopes|
    ensures Walked(t, WalkStmt(s, c, t), c.scope, StmtOpens(s), [], [])
    decreases s, 1, 0
  {
    var cc := Into(c, |t.scopes|);
    var t0 := Open(t, IfCondition, c.scope);
    var t1 := WalkExprs(s.cond, cc, t0);
    var t2 := WalkEmbedded(s.thenBranch, InArm(t1, cc), NextArm(t1));
    OpenWalked(t, IfCondition, c.scope);
    ExprsWalked(s.cond, cc, t0);
    WalkedInside(t, t0, t1, c.scope, cc.scope, 1, ExprsOpens(s.cond), [], [], ExprsLocals(s.cond), ExprsRefs(s.cond));
    NextArmWalked(t1, c.scope);
    WalkedThen(t, t1, NextArm(t1), c.scope, 1 + ExprsOpens(s.cond), 0, [], [], [], []);
    EmbeddedWalked(s.thenBranch, InArm(t1, cc), NextArm(t1));
    WalkedInside(t, NextArm(t1), t2, c.scope, cc.scope, 1 + ExprsOpens(s.cond), EmbeddedOpens(s.thenBranch),
                 [], [], [], []);
    match s.elseBranch
    case None =>
    case Some(e) =>
      NextArmWalked(t2, c.scope);
      WalkedThen(t, t2, NextArm(t2), c.scope, 1 + ExprsOpens(s.cond) + EmbeddedOpens(s.thenBranch), 0, [], [], [], []);
      EmbeddedWalked(e, InArm(t2, cc), NextArm(t2));
      WalkedInside(t, NextArm(t2), WalkStmt(s, c, t), c.scope, cc.scope,
                   1 + ExprsOpens(s.cond) + EmbeddedOpens(s.thenBranch), EmbeddedOpens(e), [], [], [], []);
  }

  lemma {:induction false} TryWalked(s: Stmt, c: Ctx, t: Tree)
    requires s.Try? && c.scope < |t.scopes|
    ensures Walked(t, WalkStmt(s, c, t), c.scope, StmtOpens(s), [], [])
    decreases s, 1, 0
  {
    var cb := InArm(t, Into(c, |t.scopes|));
    var t0 := Open(NextArm(t), BlockBody, c.scope);
    var t1 := WalkStmts(s.tryBlock, cb, t0);
    var t2 := WalkCatches(s.catches, c, t1);
    NextArmWalked(t, c.scope);
    OpenWalked(NextArm(t), BlockBody, c.scope);
    WalkedThen(t, NextArm(t), t0, c.scope, 0, 1, [], [], [], []);
    StmtsWalked(s.tryBlock, cb, t0);
    WalkedInside(t, t0, t1, c.scope, cb.scope, 1, StmtsOpens(s.tryBlock), [], [],
                 StmtsLocals(s.tryBlock), StmtsRefs(s.tryBlock));
    CatchesWalked(s.catches, c, t1);
    WalkedThen(t, t1, t2, c.scope, 1 + StmtsOpens(s.tryBlock), CatchOpens(s.catches), [], [], [], []);
    match s.finallyBlock
    case None =>
    case Some(f) =>
      EmbeddedWalked(f, c, t2);
      WalkedThen(t, t2, WalkStmt(s, c, t), c.scope, 1 + StmtsOpens(s.tryBlock) + CatchOpens(s.catches),
                 EmbeddedOpens(f), [], [], [], []);
  }

  lemma {:induction false} StmtsWalked(ss: seq<Stmt>, c: Ctx, t: Tree)
    requires c.scope < |t.scopes|
    ensures Walked(t, WalkStmts(ss, c, t), c.scope, StmtsOpens(ss), StmtsLocals(ss), StmtsRefs(ss))
    decreases ss, 0, 0
  {
    if ss != [] {
      var t1 := WalkStmt(ss[0], c, t);
      StmtWalked(ss[0], c, t);
      StmtsWalked(ss[1..], c, t1);
      WalkedThen(t, t1, WalkStmts(ss, c, t), c.scope, StmtOpens(ss[0]), StmtsOpens(ss[1..]),
                 StmtLocals(ss[0]), StmtRefs(ss[0]), StmtsLocals(ss[1..]), StmtsRefs(ss[1..]));
    }
  }

  lemma {:induction false} SectionsWalked(sections: seq<Section>, c: Ctx, t: Tree)
    requires c.scope < |t.scopes|
    ensures Walked(t, WalkSections(sections, c, t), c.scope, SectionOpens(sections),
                   SectionLocals(sections), SectionRefs(sections))
    decreases sections, 0, 0
  {
    if sections != [] {
      var t0 := NextArm(t);
      var t1 := WalkStmts(sections[0].stmts, InArm(t, c), t0);
      NextArmWalked(t, c.scope);
      StmtsWalked(sections[0].stmts, InArm(t, c), t0);
      WalkedThen(t, t0, t1, c.scope, 0, StmtsOpens(sections[0].stmts), [], [],
                 StmtsLocals(sections[0].stmts), StmtsRefs(sections[0].stmts));
      SectionsWalked(sections[1..], c, t1);
      WalkedThen(t, t1, WalkSections(sections, c, t), c.scope, StmtsOpens(sections[0].stmts),
                 SectionOpens(sections[1..]), StmtsLocals(sections[0].stmts), StmtsRefs(sections[0].stmts),
                 SectionLocals(sections[1..]), SectionRefs(sections[1..]));
    }
  }

  lemma {:induction false} CatchesWalked(catches: seq<Catch>, c: Ctx, t: Tree)
    requires c.scope < |t.scopes|
    ensures Walked(t, WalkCatches(catches, c, t), c.scope, CatchOpens(catches), [], [])
    decreases catches, 1, 0
  {
    if catches != [] {
      var t4 := WalkCatch(catches[0], c, t);
      CatchWalked(catches[0], c, t);
      CatchesWalked(catches[1..], c, t4);
      WalkedThen(t, t4, WalkCatches(catches, c, t), c.scope, 2 + ExprsOpens(catches[0].filter) + StmtsOpens(catches[0].block),
                 CatchOpens(catches[1..]), [], [], [], []);
    }
  }

  lemma {:induction false} CatchWalked(k: Catch, c: Ctx, t: Tree)
    requires c.scope < |t.scopes|
    ensures Walked(t, WalkCatch(k, c, t), c.scope, 2 + ExprsOpens(k.filter) + StmtsOpens(k.block), [], [])
    decreases k, 0, 0
  {
    var inner := InArm(t, Into(c, |t.scopes|));
    var t0 := Open(t, CatchClause, c.scope);
    var t1 := NextArm(t0);
    var t2 := match k.param
      case None => t1
      case Some(p) => AddDecl(t1, inner, p.name, p.at, Initialized);
    var t3 := WalkExprs(k.filter, inner, t2);
    var tb := Open(t3, BlockBody, inner.scope);
    OpenWalked(t, CatchClause, c.scope);
    NextArmWalked(t0, c.scope);
    WalkedThen(t, t0, t1, c.scope, 1, 0, [], [], [], []);
    var pl := match k.param case None => [] case Some(p) => [Local(p.name, p.at)];
    match k.param {
      case None =>
        WalkedNone(t1, inner.scope);
      case Some(p) =>
        EmitWalked(t1, Declared(inner.scope, p.name, p.at, Initialized, inner.path));
    }
    WalkedInside(t, t1, t2, c.scope, inner.scope, 1, 0, [], [], pl, []);
    ExprsWalked(k.filter, inner, t2);
    WalkedInside(t, t2, t3, c.scope, inner.scope, 1, ExprsOpens(k.filter), [], [],
                 ExprsLocals(k.filter), ExprsRefs(k.filter));
    OpenWalked(t3, BlockBody, inner.scope);
    WalkedInside(t, t3, tb, c.scope, inner.scope, 1 + ExprsOpens(k.filter), 1, [], [], [], []);
    StmtsWalked(k.block, Into(inner, |t3.scopes|), tb);
    WalkedInside(t, tb, WalkCatch(k, c, t), c.scope, |t3.scopes|, 2 + ExprsOpens(k.filter),
                 StmtsOpens(k.block), [], [], StmtsLocals(k.block), StmtsRefs(k.block));
  }

  /**
   * `T` is a later tree than `u` in which the scopes numbered from `lo` up to
   * `|u.scopes|` are finished: it keeps what `u` has, adds no local or reference to
   * those scopes, and opens no scope below them.
   */
  ghost predicate Closed(u: Tree, T: Tree, lo: nat) {
    && u.scopes <= T.scopes && u.events <= T.events
    && (forall x :: lo <= x < |u.scopes| ==> Kept(u, T, x))
    && (forall i :: |u.scopes| <= i < |T.scopes| ==> Apart(u, T, lo, i))
  }

  /** Scope `x` holds the same locals and references in `T` as in `u`. */
  ghost predicate Kept(u: Tree, T: Tree, x: nat) {
    DeclsIn(T.events, x) == DeclsIn(u.events, x) && RefsIn(T.events, x) == RefsIn(u.events, x)
  }

  /** Scope `i` of `T` does not hang below any of the scopes from `lo` up to `|u.scopes|`. */
  ghost predicate Apart(u: Tree, T: Tree, lo: nat, i: nat) {
    i < |T.scopes| && T.scopes[i].parent.Some? ==> !(lo <= T.scopes[i].parent.value < |u.scopes|)
  }

  lemma ClosedNow(u: Tree, lo: nat)
    ensures Closed(u, u, lo)
  {
  }

  /** A later walk in a scope other than the finished ones keeps them finished. */
  lemma ClosedByWalk(u: Tree, T: Tree, T2: Tree, lo: nat, s: nat)
    requires Closed(u, T, lo) && Grows(T, T2, s) && s < |T.scopes| && !(lo <= s < |u.scopes|)
    ensures Closed(u, T2, lo)
  {
    forall x | lo <= x < |u.scopes|
      ensures Kept(u, T2, x)
    {
      assert Kept(u, T, x);
      Untouched(T, T2, s, x);
    }
    forall i | |u.scopes| <= i < |T2.scopes|
      ensures Apart(u, T2, lo, i)
    {
      if i < |T.scopes| {
        assert Apart(u, T, lo, i);
        assert T2.scopes[i] == T.scopes[i];
      }
    }
  }
}

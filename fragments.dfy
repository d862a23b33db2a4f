/**
 * The type fragments of a compilation unit are checked independently: walking a
 * fragment after others gives the tree it would give on its own, with its scopes
 * and arms renumbered past theirs, and the diagnostics of a unit are those of its
 * fragments one after the other. Hence neither the order of partial declarations
 * nor the other fragments change what one fragment reports. The second half
 * states the layout of one fragment: the instance and static initializer scopes
 * are siblings below the unit, each constant has a scope of its own, a primary
 * constructor's base arguments lie below the instance initializers, and a
 * constructor's body sees its initializer's scope but no field initializer's.
 */
module Fragments {
  import opened Syntax
  import opened Scopes
  import opened Binding
  import opened Frames
  import opened Reporting
  import opened Shapes
  import opened Units

  /** How a tree walked on its own is placed behind another one: its scopes and arms renumbered. */
  datatype Shift = Shift(scopes: nat, arms: nat)

  /** The shift that places a tree behind `t`: every scope but the unit moves past `t`'s scopes. */
  function ShiftOf(t: Tree): Shift {
    Shift(if |t.scopes| == 0 then 0 else |t.scopes| - 1, t.arms)
  }

  /** The unit scope stays the unit scope; every other scope moves by the shift. */
  function RS(h: Shift, s: nat): nat {
    if s == 0 then 0 else s + h.scopes
  }

  function RPath(h: Shift, p: seq<nat>): seq<nat> {
    seq<nat>(|p|, i requires 0 <= i < |p| => (p[i] + h.arms) as nat)
  }

  function RParent(h: Shift, p: Option<nat>): Option<nat> {
    match p
    case None => None
    case Some(q) => Some(RS(h, q))
  }

  function RScopes(h: Shift, ss: seq<Scope>): seq<Scope> {
    seq(|ss|, i requires 0 <= i < |ss| => Scope(ss[i].kind, RParent(h, ss[i].parent)))
  }

  function REvent(h: Shift, e: Event): Event {
    match e
    case Declared(s, n, at, m, p) => Declared(RS(h, s), n, at, m, RPath(h, p))
    case Referenced(s, n, at, w, same, p) => Referenced(RS(h, s), n, at, w, same, RPath(h, p))
    case OutAssigned(s, names, p) => OutAssigned(RS(h, s), names, RPath(h, p))
  }

  function REvents(h: Shift, es: seq<Event>): seq<Event> {
    seq(|es|, i requires 0 <= i < |es| => REvent(h, es[i]))
  }

  function RCtx(h: Shift, c: Ctx): Ctx {
    Ctx(RS(h, c.scope), RPath(h, c.path), c.pending)
  }

  /** The tree `t`, walked from a unit scope of its own, placed behind `T` and sharing `T`'s unit scope. */
  function Merge(T: Tree, t: Tree): Tree {
    var h := ShiftOf(T);
    Tree(T.scopes + RScopes(h, if t.scopes == [] then [] else t.scopes[1..]),
         T.events + REvents(h, t.events), T.arms + t.arms)
  }

  // The walk commutes with the renumbering, one step at a time.

  lemma MergeSize(T: Tree, t: Tree)
    requires |T.scopes| >= 1 && |t.scopes| >= 1
    ensures |Merge(T, t).scopes| == RS(ShiftOf(T), |t.scopes|)
  {
  }

  lemma MergeOpen(T: Tree, t: Tree, kind: Kind, p: nat)
    requires |T.scopes| >= 1 && |t.scopes| >= 1
    ensures Open(Merge(T, t), kind, RS(ShiftOf(T), p)) == Merge(T, Open(t, kind, p))
  {
    var h := ShiftOf(T);
    assert Open(t, kind, p).scopes[1..] == t.scopes[1..] + [Scope(kind, Some(p))];
    assert RScopes(h, t.scopes[1..] + [Scope(kind, Some(p))])
        == RScopes(h, t.scopes[1..]) + [Scope(kind, Some(RS(h, p)))];
  }

  lemma MergeNextArm(T: Tree, t: Tree)
    ensures NextArm(Merge(T, t)) == Merge(T, NextArm(t))
  {
  }

  lemma MergeEmit(T: Tree, t: Tree, e: Event)
    ensures Emit(Merge(T, t), REvent(ShiftOf(T), e)) == Merge(T, Emit(t, e))
  {
    var h := ShiftOf(T);
    assert REvents(h, t.events + [e]) == REvents(h, t.events) + [REvent(h, e)];
  }

  lemma MergeInArm(T: Tree, t: Tree, c: Ctx)
    ensures InArm(Merge(T, t), RCtx(ShiftOf(T), c)) == RCtx(ShiftOf(T), InArm(t, c))
  {
    var h := ShiftOf(T);
    assert RPath(h, c.path + [t.arms]) == RPath(h, c.path) + [T.arms + t.arms];
  }

  lemma {:induction false} ParamsMerge(T: Tree, ps: seq<Param>, c: Ctx, t: Tree)
    requires |T.scopes| >= 1 && c.scope < |t.scopes|
    ensures AddParams(ps, RCtx(ShiftOf(T), c), Merge(T, t)) == Merge(T, AddParams(ps, c, t))
    decreases ps
  {
    if ps != [] {
      MergeEmit(T, t, Declared(c.scope, ps[0].name, ps[0].at, Initialized, c.path));
      ParamsMerge(T, ps[1..], c, AddDecl(t, c, ps[0].name, ps[0].at, Initialized));
    }
  }

  lemma {:induction false} ExprMerge(T: Tree, e: Expr, c: Ctx, t: Tree)
    requires |T.scopes| >= 1 && c.scope < |t.scopes|
    ensures WalkExpr(e, RCtx(ShiftOf(T), c), Merge(T, t)) == Merge(T, WalkExpr(e, c, t))
    decreases e, 1, 0
  {
    var h := ShiftOf(T);
    match e
    case Declare(n, at, m) =>
      MergeEmit(T, t, Declared(c.scope, n, at, m, c.path));
    case Use(n, at, w) =>
      MergeEmit(T, t, Referenced(c.scope, n, at, w, n in c.pending, c.path));
    case Call(args) =>
      ArgsMerge(T, args, [], c, t);
      MergeEmit(T, WalkArgs(args, [], c, t), OutAssigned(c.scope, OutNames(args), c.path));
    case Lambda(ps, body) =>
      var inner := InArm(t, Into(c, |t.scopes|));
      var t0 := Open(t, LambdaBody, c.scope);
      MergeSize(T, t);
      MergeOpen(T, t, LambdaBody, c.scope);
      MergeNextArm(T, t0);
      MergeInArm(T, t, Into(c, |t.scopes|));
      ParamsMerge(T, ps, inner, NextArm(t0));
      ParamsWalked(ps, inner, NextArm(t0));
      StmtMerge(T, body, inner, AddParams(ps, inner, NextArm(t0)));
    case Query(source, range, clauses) =>
      ExprsMerge(T, source, c, t);
      ExprsGrows(source, c, t);
      ClausesMerge(T, clauses, range, c, WalkExprs(source, c, t));
  }

  lemma {:induction false} ExprsMerge(T: Tree, items: seq<Expr>, c: Ctx, t: Tree)
    requires |T.scopes| >= 1 && c.scope < |t.scopes|
    ensures WalkExprs(items, RCtx(ShiftOf(T), c), Merge(T, t)) == Merge(T, WalkExprs(items, c, t))
    decreases items, 0, 0
  {
    if items != [] {
      ExprMerge(T, items[0], c, t);
      ExprGrows(items[0], c, t);
      ExprsMerge(T, items[1..], c, WalkExpr(items[0], c, t));
    }
  }

  lemma {:induction false} ArgsMerge(T: Tree, args: seq<Argument>, earlier: seq<Argument>, c: Ctx, t: Tree)
    requires |T.scopes| >= 1 && c.scope < |t.scopes|
    ensures WalkArgs(args, earlier, RCtx(ShiftOf(T), c), Merge(T, t)) == Merge(T, WalkArgs(args, earlier, c, t))
    decreases args, 0, 0
  {
    if args != [] {
      var ca := Ctx(c.scope, c.path, c.pending + OutNames(earlier));
      ExprsMerge(T, args[0].items, ca, t);
      ExprsGrows(args[0].items, ca, t);
      ArgsMerge(T, args[1..], earlier + [args[0]], c, WalkExprs(args[0].items, ca, t));
    }
  }

  lemma {:induction false} ClausesMerge(T: Tree, clauses: seq<Clause>, range: Param, c: Ctx, t: Tree)
    requires |T.scopes| >= 1 && c.scope < |t.scopes|
    ensures WalkClauses(clauses, range, RCtx(ShiftOf(T), c), Merge(T, t)) == Merge(T, WalkClauses(clauses, range, c, t))
    decreases clauses, 0, 0
  {
    if clauses != [] {
      var inner := InArm(t, Into(c, |t.scopes|));
      var t0 := NextArm(Open(t, QueryClause, c.scope));
      var t1 := AddDecl(t0, inner, range.name, range.at, Initialized);
      MergeSize(T, t);
      MergeOpen(T, t, QueryClause, c.scope);
      MergeNextArm(T, Open(t, QueryClause, c.scope));
      MergeInArm(T, t, Into(c, |t.scopes|));
      MergeEmit(T, t0, Declared(inner.scope, range.name, range.at, Initialized, inner.path));
      ExprsMerge(T, clauses[0].items, inner, t1);
      ExprsGrows(clauses[0].items, inner, t1);
      ClausesMerge(T, clauses[1..], range, c, WalkExprs(clauses[0].items, inner, t1));
    }
  }

  lemma {:induction false} EmbeddedMerge(T: Tree, s: Stmt, c: Ctx, t: Tree)
    requires |T.scopes| >= 1 && c.scope < |t.scopes|
    ensures WalkEmbedded(s, RCtx(ShiftOf(T), c), Merge(T, t)) == Merge(T, WalkEmbedded(s, c, t))
    decreases s, 2, 0
  {
    var inner := Into(c, |t.scopes|);
    var kind := if s.Block? then BlockBody else EmbeddedBody;
    MergeSize(T, t);
    MergeOpen(T, t, kind, c.scope);
    match s
    case Block(body) =>
      StmtsMerge(T, body, inner, Open(t, kind, c.scope));
    case _ =>
      StmtMerge(T, s, inner, Open(t, kind, c.scope));
  }

  lemma {:induction false} StmtMerge(T: Tree, s: Stmt, c: Ctx, t: Tree)
    requires |T.scopes| >= 1 && c.scope < |t.scopes|
    ensures WalkStmt(s, RCtx(ShiftOf(T), c), Merge(T, t)) == Merge(T, WalkStmt(s, c, t))
    decreases s, 1, 1
  {
    match s
    case Exprs(items) =>
      ExprsMerge(T, items, c, t);
    case Block(body) =>
      MergeSize(T, t);
      MergeOpen(T, t, BlockBody, c.scope);
      StmtsMerge(T, body, Into(c, |t.scopes|), Open(t, BlockBody, c.scope));
    case For(_, _, _, _) => ForMerge(T, s, c, t);
    case ForEach(_, _, _) => ForEachMerge(T, s, c, t);
    case While(_, _) => LoopMerge(T, s, c, t);
    case Do(_, _) => LoopMerge(T, s, c, t);
    case Using(_, _) => HeaderMerge(T, s, c, t);
    case Fixed(_, _) => HeaderMerge(T, s, c, t);
    case Switch(_, _) => SwitchMerge(T, s, c, t);
    case If(_, _, _) => IfMerge(T, s, c, t);
    case Try(_, _, _) => TryMerge(T, s, c, t);
  }

  lemma {:induction false} ForHeadMerge(T: Tree, s: Stmt, c: Ctx, t: Tree)
    requires s.For? && |T.scopes| >= 1 && c.scope < |t.scopes|
    ensures ForHead(s, RCtx(ShiftOf(T), c), Merge(T, t)) == Merge(T, ForHead(s, c, t))
    ensures |t.scopes| + 2 <= |ForHead(s, c, t).scopes|
    decreases s, 0, 0
  {
    var f := |t.scopes|;
    var ta := Open(t, ForInit, c.scope);
    var t1 := Open(ta, ForLoop, f);
    MergeSize(T, t);
    MergeOpen(T, t, ForInit, c.scope);
    MergeOpen(T, ta, ForLoop, f);
    ExprsMerge(T, s.init, Into(c, f), t1);
    ExprsGrows(s.init, Into(c, f), t1);
    ExprsMerge(T, s.cond, Into(c, f + 1), WalkExprs(s.init, Into(c, f), t1));
    ExprsGrows(s.cond, Into(c, f + 1), WalkExprs(s.init, Into(c, f), t1));
  }

  lemma {:induction false} ForRestMerge(T: Tree, s: Stmt, c: Ctx, t2: Tree, f: nat)
    requires s.For? && |T.scopes| >= 1 && 1 <= f && f + 1 < |t2.scopes|
    ensures ForRest(s, RCtx(ShiftOf(T), c), Merge(T, t2), RS(ShiftOf(T), f)) == Merge(T, ForRest(s, c, t2, f))
    decreases s, 0, 1
  {
    var cb := InArm(t2, Into(c, f + 1));
    MergeInArm(T, t2, Into(c, f + 1));
    MergeNextArm(T, t2);
    EmbeddedMerge(T, s.body, cb, NextArm(t2));
    EmbeddedGrows(s.body, cb, NextArm(t2));
    ExprsMerge(T, s.incr, cb, WalkEmbedded(s.body, cb, NextArm(t2)));
  }

  lemma {:induction false} ForMerge(T: Tree, s: Stmt, c: Ctx, t: Tree)
    requires s.For? && |T.scopes| >= 1 && c.scope < |t.scopes|
    ensures WalkStmt(s, RCtx(ShiftOf(T), c), Merge(T, t)) == Merge(T, WalkStmt(s, c, t))
    decreases s, 1, 0
  {
    ForTreeIsWalk(s, c, t);
    ForTreeIsWalk(s, RCtx(ShiftOf(T), c), Merge(T, t));
    MergeSize(T, t);
    ForHeadMerge(T, s, c, t);
    ForRestMerge(T, s, c, ForHead(s, c, t), |t.scopes|);
  }

  lemma {:induction false} ForEachMerge(T: Tree, s: Stmt, c: Ctx, t: Tree)
    requires s.ForEach? && |T.scopes| >= 1 && c.scope < |t.scopes|
    ensures WalkStmt(s, RCtx(ShiftOf(T), c), Merge(T, t)) == Merge(T, WalkStmt(s, c, t))
    decreases s, 1, 0
  {
    var f := |t.scopes|;
    var t0 := Open(t, ForEachCollection, c.scope);
    var t1 := WalkExprs(s.collection, Into(c, f), t0);
    var cv := Into(c, |t1.scopes|);
    var tv := Open(t1, ForEachVariable, f);
    var t2 := AddDecl(tv, cv, s.variable.name, s.variable.at, Initialized);
    MergeSize(T, t);
    MergeOpen(T, t, ForEachCollection, c.scope);
    ExprsMerge(T, s.collection, Into(c, f), t0);
    ExprsGrows(s.collection, Into(c, f), t0);
    MergeSize(T, t1);
    MergeOpen(T, t1, ForEachVariable, f);
    MergeEmit(T, tv, Declared(cv.scope, s.variable.name, s.variable.at, Initialized, cv.path));
    MergeInArm(T, t2, cv);
    MergeNextArm(T, t2);
    EmbeddedMerge(T, s.body, InArm(t2, cv), NextArm(t2));
  }

  /** `while` and `do`: one condition scope enclosing the body. */
  lemma {:induction false} LoopMerge(T: Tree, s: Stmt, c: Ctx, t: Tree)
    requires (s.While? || s.Do?) && |T.scopes| >= 1 && c.scope < |t.scopes|
    ensures WalkStmt(s, RCtx(ShiftOf(T), c), Merge(T, t)) == Merge(T, WalkStmt(s, c, t))
    decreases s, 1, 0
  {
    var cc := Into(c, |t.scopes|);
    var t0 := Open(t, LoopCondition, c.scope);
    MergeSize(T, t);
    MergeOpen(T, t, LoopCondition, c.scope);
    if s.While? {
      var t1 := WalkExprs(s.cond, cc, t0);
      ExprsMerge(T, s.cond, cc, t0);
      ExprsGrows(s.cond, cc, t0);
      MergeInArm(T, t1, cc);
      MergeNextArm(T, t1);
      EmbeddedMerge(T, s.body, InArm(t1, cc), NextArm(t1));
    } else {
      EmbeddedMerge(T, s.body, cc, t0);
      EmbeddedGrows(s.body, cc, t0);
      ExprsMerge(T, s.cond, cc, WalkEmbedded(s.body, cc, t0));
    }
  }

  lemma {:induction false} HeaderMerge(T: Tree, s: Stmt, c: Ctx, t: Tree)
    requires (s.Using? || s.Fixed?) && |T.scopes| >= 1 && c.scope < |t.scopes|
    ensures WalkStmt(s, RCtx(ShiftOf(T), c), Merge(T, t)) == Merge(T, WalkStmt(s, c, t))
    decreases s, 1, 0
  {
    var header := if s.Using? then s.resource else s.decl;
    var ch := Into(c, |t.scopes|);
    var t0 := Open(t, ResourceHeader, c.scope);
    assert WalkStmt(s, c, t) == WalkEmbedded(s.body, ch, WalkExprs(header, ch, t0));
    MergeSize(T, t);
    MergeOpen(T, t, ResourceHeader, c.scope);
    ExprsMerge(T, header, ch, t0);
    ExprsGrows(header, ch, t0);
    EmbeddedMerge(T, s.body, ch, WalkExprs(header, ch, t0));
  }

  lemma {:induction false} SwitchMerge(T: Tree, s: Stmt, c: Ctx, t: Tree)
    requires s.Switch? && |T.scopes| >= 1 && c.scope < |t.scopes|
    ensures WalkStmt(s, RCtx(ShiftOf(T), c), Merge(T, t)) == Merge(T, WalkStmt(s, c, t))
    decreases s, 1, 0
  {
    var g := |t.scopes|;
    var t0 := Open(t, SwitchGoverning, c.scope);
    var t1 := WalkExprs(s.governing, Into(c, g), t0);
    MergeSize(T, t);
    MergeOpen(T, t, SwitchGoverning, c.scope);
    ExprsMerge(T, s.governing, Into(c, g), t0);
    ExprsGrows(s.governing, Into(c, g), t0);
    MergeSize(T, t1);
    MergeOpen(T, t1, SwitchSections, g);
    SectionsMerge(T, s.sections, Into(c, |t1.scopes|), Open(t1, SwitchSections, g));
  }

  lemma {:induction false} IfMerge(T: Tree, s: Stmt, c: Ctx, t: Tree)
    requires s.If? && |T.scopes| >= 1 && c.scope < |t.scopes|
    ensures WalkStmt(s, RCtx(ShiftOf(T), c), Merge(T, t)) == Merge(T, WalkStmt(s, c, t))
    decreases s, 1, 0
  {
    var cc := Into(c, |t.scopes|);
    var t0 := Open(t, IfCondition, c.scope);
    var t1 := WalkExprs(s.cond, cc, t0);
    var t2 := WalkEmbedded(s.thenBranch, InArm(t1, cc), NextArm(t1));
    MergeSize(T, t);
    MergeOpen(T, t, IfCondition, c.scope);
    ExprsMerge(T, s.cond, cc, t0);
    ExprsGrows(s.cond, cc, t0);
    MergeInArm(T, t1, cc);
    MergeNextArm(T, t1);
    EmbeddedMerge(T, s.thenBranch, InArm(t1, cc), NextArm(t1));
    match s.elseBranch
    case None =>
    case Some(e) =>
      EmbeddedGrows(s.thenBranch, InArm(t1, cc), NextArm(t1));
      MergeInArm(T, t2, cc);
      MergeNextArm(T, t2);
      EmbeddedMerge(T, e, InArm(t2, cc), NextArm(t2));
  }

  lemma {:induction false} TryMerge(T: Tree, s: Stmt, c: Ctx, t: Tree)
    requires s.Try? && |T.scopes| >= 1 && c.scope < |t.scopes|
    ensures WalkStmt(s, RCtx(ShiftOf(T), c), Merge(T, t)) == Merge(T, WalkStmt(s, c, t))
    decreases s, 1, 0
  {
    var cb := InArm(t, Into(c, |t.scopes|));
    var t0 := Open(NextArm(t), BlockBody, c.scope);
    var t1 := WalkStmts(s.tryBlock, cb, t0);
    MergeSize(T, t);
    MergeInArm(T, t, Into(c, |t.scopes|));
    MergeNextArm(T, t);
    MergeOpen(T, NextArm(t), BlockBody, c.scope);
    StmtsMerge(T, s.tryBlock, cb, t0);
    StmtsGrows(s.tryBlock, cb, t0);
    CatchesMerge(T, s.catches, c, t1);
    match s.finallyBlock
    case None =>
    case Some(f) =>
      CatchesGrows(s.catches, c, t1);
      EmbeddedMerge(T, f, c, WalkCatches(s.catches, c, t1));
  }

  lemma {:induction false} StmtsMerge(T: Tree, ss: seq<Stmt>, c: Ctx, t: Tree)
    requires |T.scopes| >= 1 && c.scope < |t.scopes|
    ensures WalkStmts(ss, RCtx(ShiftOf(T), c), Merge(T, t)) == Merge(T, WalkStmts(ss, c, t))
    decreases ss, 0, 0
  {
    if ss != [] {
      StmtMerge(T, ss[0], c, t);
      StmtGrows(ss[0], c, t);
      StmtsMerge(T, ss[1..], c, WalkStmt(ss[0], c, t));
    }
  }

  lemma {:induction false} SectionsMerge(T: Tree, sections: seq<Section>, c: Ctx, t: Tree)
    requires |T.scopes| >= 1 && c.scope < |t.scopes|
    ensures WalkSections(sections, RCtx(ShiftOf(T), c), Merge(T, t)) == Merge(T, WalkSections(sections, c, t))
    decreases sections, 0, 0
  {
    if sections != [] {
      MergeInArm(T, t, c);
      MergeNextArm(T, t);
      StmtsMerge(T, sections[0].stmts, InArm(t, c), NextArm(t));
      StmtsGrows(sections[0].stmts, InArm(t, c), NextArm(t));
      SectionsMerge(T, sections[1..], c, WalkStmts(sections[0].stmts, InArm(t, c), NextArm(t)));
    }
  }

  lemma {:induction false} CatchesMerge(T: Tree, catches: seq<Catch>, c: Ctx, t: Tree)
    requires |T.scopes| >= 1 && c.scope < |t.scopes|
    ensures WalkCatches(catches, RCtx(ShiftOf(T), c), Merge(T, t)) == Merge(T, WalkCatches(catches, c, t))
    decreases catches, 1, 0
  {
    if catches != [] {
      CatchMerge(T, catches[0], c, t);
      CatchWalked(catches[0], c, t);
      CatchesMerge(T, catches[1..], c, WalkCatch(catches[0], c, t));
    }
  }

  lemma {:induction false} CatchMerge(T: Tree, k: Catch, c: Ctx, t: Tree)
    requires |T.scopes| >= 1 && c.scope < |t.scopes|
    ensures WalkCatch(k, RCtx(ShiftOf(T), c), Merge(T, t)) == Merge(T, WalkCatch(k, c, t))
    decreases k, 0, 0
  {
    var inner := InArm(t, Into(c, |t.scopes|));
    var t0 := Open(t, CatchClause, c.scope);
    var t1 := NextArm(t0);
    var t2 := match k.param
      case None => t1
      case Some(p) => AddDecl(t1, inner, p.name, p.at, Initialized);
    var t3 := WalkExprs(k.filter, inner, t2);
    MergeSize(T, t);
    MergeInArm(T, t, Into(c, |t.scopes|));
    MergeOpen(T, t, CatchClause, c.scope);
    MergeNextArm(T, t0);
    match k.param {
      case None =>
      case Some(p) =>
        MergeEmit(T, t1, Declared(inner.scope, p.name, p.at, Initialized, inner.path));
    }
    ExprsMerge(T, k.filter, inner, t2);
    ExprsGrows(k.filter, inner, t2);
    MergeSize(T, t3);
    MergeOpen(T, t3, BlockBody, inner.scope);
    StmtsMerge(T, k.block, Into(inner, |t3.scopes|), Open(t3, BlockBody, inner.scope));
  }

  // Walks never shrink the tree.

  lemma ExprGrows(e: Expr, c: Ctx, t: Tree)
    requires c.scope < |t.scopes|
    ensures |t.scopes| <= |WalkExpr(e, c, t).scopes|
  {
    ExprWalked(e, c, t);
  }

  lemma ExprsGrows(items: seq<Expr>, c: Ctx, t: Tree)
    requires c.scope < |t.scopes|
    ensures |t.scopes| <= |WalkExprs(items, c, t).scopes|
  {
    ExprsWalked(items, c, t);
  }

  lemma EmbeddedGrows(s: Stmt, c: Ctx, t: Tree)
    requires c.scope < |t.scopes|
    ensures |t.scopes| <= |WalkEmbedded(s, c, t).scopes|
  {
    EmbeddedWalked(s, c, t);
  }

  lemma StmtGrows(s: Stmt, c: Ctx, t: Tree)
    requires c.scope < |t.scopes|
    ensures |t.scopes| <= |WalkStmt(s, c, t).scopes|
  {
    StmtWalked(s, c, t);
  }

  lemma StmtsGrows(ss: seq<Stmt>, c: Ctx, t: Tree)
    requires c.scope < |t.scopes|
    ensures |t.scopes| <= |WalkStmts(ss, c, t).scopes|
  {
    StmtsWalked(ss, c, t);
  }

  lemma CatchesGrows(catches: seq<Catch>, c: Ctx, t: Tree)
    requires c.scope < |t.scopes|
    ensures |t.scopes| <= |WalkCatches(catches, c, t).scopes|
  {
    CatchesWalked(catches, c, t);
  }

  // Members, fragments and whole units.

  lemma {:induction false} MemberMerge(T: Tree, m: Member, inst: nat, t: Tree)
    requires |T.scopes| >= 1 && 1 <= inst && inst + 1 < |t.scopes|
    ensures WalkMember(m, RS(ShiftOf(T), inst), Merge(T, t)) == Merge(T, WalkMember(m, inst, t))
  {
    var c0 := Ctx(|t.scopes|, [], []);
    assert RPath(ShiftOf(T), []) == [];
    MergeSize(T, t);
    match m
    case Field(isStatic, init) =>
      ExprsMerge(T, init, Ctx(if isStatic then inst + 1 else inst, [], []), t);
    case Const(init) =>
      MergeOpen(T, t, ConstInitializer, 0);
      ExprsMerge(T, init, c0, Open(t, ConstInitializer, 0));
    case Constructor(None, body) =>
      MergeOpen(T, t, BlockBody, 0);
      StmtsMerge(T, body, c0, Open(t, BlockBody, 0));
    case Constructor(Some(args), body) =>
      var ta := WalkExprs(args, c0, Open(t, ConstructorInitializer, 0));
      MergeOpen(T, t, ConstructorInitializer, 0);
      ExprsMerge(T, args, c0, Open(t, ConstructorInitializer, 0));
      ExprsGrows(args, c0, Open(t, ConstructorInitializer, 0));
      MergeSize(T, ta);
      MergeOpen(T, ta, BlockBody, c0.scope);
      StmtsMerge(T, body, Ctx(|ta.scopes|, [], []), Open(ta, BlockBody, c0.scope));
    case Method(ps, body) =>
      var tm := AddParams(ps, c0, Open(t, MethodBody, 0));
      MergeOpen(T, t, MethodBody, 0);
      ParamsMerge(T, ps, c0, Open(t, MethodBody, 0));
      ParamsWalked(ps, c0, Open(t, MethodBody, 0));
      MergeSize(T, tm);
      MergeOpen(T, tm, BlockBody, c0.scope);
      StmtsMerge(T, body, Ctx(|tm.scopes|, [], []), Open(tm, BlockBody, c0.scope));
  }

  lemma {:induction false} MembersMerge(T: Tree, ms: seq<Member>, inst: nat, t: Tree)
    requires |T.scopes| >= 1 && Wf(t) && 1 <= inst && inst + 1 < |t.scopes|
    ensures WalkMembers(ms, RS(ShiftOf(T), inst), Merge(T, t)) == Merge(T, WalkMembers(ms, inst, t))
    decreases ms
  {
    if ms != [] {
      MemberMerge(T, ms[0], inst, t);
      MemberWf(ms[0], inst, t);
      MembersMerge(T, ms[1..], inst, WalkMember(ms[0], inst, t));
    }
  }

  lemma FragmentMerge(T: Tree, f: Fragment, t: Tree)
    requires |T.scopes| >= 1 && Wf(t) && |t.scopes| >= 1
    ensures WalkFragment(f, Merge(T, t)) == Merge(T, WalkFragment(f, t))
  {
    var inst := |t.scopes|;
    var ti := Open(t, InstanceInitializers, 0);
    var t1 := Open(ti, StaticInitializers, 0);
    MergeSize(T, t);
    MergeOpen(T, t, InstanceInitializers, 0);
    MergeOpen(T, ti, StaticInitializers, 0);
    WfOpen(t, InstanceInitializers, 0);
    WfOpen(ti, StaticInitializers, 0);
    match f.primaryBase
    case None =>
      MembersMerge(T, f.members, inst, t1);
    case Some(args) =>
      var c := Ctx(|t1.scopes|, [], []);
      var t0 := Open(t1, PrimaryBaseArguments, inst);
      var t2 := WalkExprs(args, c, t0);
      assert RPath(ShiftOf(T), []) == [];
      MergeSize(T, t1);
      MergeOpen(T, t1, PrimaryBaseArguments, inst);
      ExprsMerge(T, args, c, t0);
      WfOpen(t1, PrimaryBaseArguments, inst);
      ExprsWalked(args, c, t0);
      GrowsPreservesWf(t0, t2, c.scope);
      MembersMerge(T, f.members, inst, t2);
  }

  lemma {:induction false} FragmentsMerge(T: Tree, fs: seq<Fragment>, t: Tree)
    requires |T.scopes| >= 1 && Wf(t) && |t.scopes| >= 1
    ensures WalkFragments(fs, Merge(T, t)) == Merge(T, WalkFragments(fs, t))
    decreases fs
  {
    if fs != [] {
      FragmentMerge(T, fs[0], t);
      FragmentWf(fs[0], t);
      FragmentsMerge(T, fs[1..], WalkFragment(fs[0], t));
    }
  }

  lemma {:induction false} FragmentsAppend(a: seq<Fragment>, b: seq<Fragment>, t: Tree)
    ensures WalkFragments(a + b, t) == WalkFragments(b, WalkFragments(a, t))
    decreases a
  {
    if a == [] {
      assert a + b == b;
    } else {
      assert (a + b)[0] == a[0];
      assert (a + b)[1..] == a[1..] + b;
      FragmentsAppend(a[1..], b, WalkFragment(a[0], t));
    }
  }

  /** The tree of two units one after the other is the tree of the first with that of the second placed behind it. */
  lemma BuildAppend(a: seq<Fragment>, b: seq<Fragment>)
    ensures Build(a + b) == Merge(Build(a), Build(b))
  {
    var e := Tree([Scope(Unit, None)], [], 0);
    FragmentsAppend(a, b, e);
    FragmentsWf(a, e);
    MergeUnit(Build(a));
    FragmentsMerge(Build(a), b, e);
  }

  /** Placing the tree of no fragment behind `T` leaves `T` as it is. */
  lemma MergeUnit(T: Tree)
    ensures Merge(T, Tree([Scope(Unit, None)], [], 0)) == T
  {
    var h := ShiftOf(T);
    assert RScopes(h, [Scope(Unit, None)][1..]) == [];
    assert REvents(h, []) == [];
    assert T.scopes + [] == T.scopes && T.events + [] == T.events;
  }

  // Nothing is declared or referenced in the unit scope itself.

  /** Scope 0 is the unit scope, a root, and no event names it. */
  ghost predicate Rooted(t: Tree) {
    && |t.scopes| >= 1 && t.scopes[0] == Scope(Unit, None)
    && forall k :: 0 <= k < |t.events| ==> t.events[k].scope != 0
  }

  lemma GrowsRooted(t: Tree, u: Tree, s: nat)
    requires Rooted(t) && Grows(t, u, s) && s != 0
    ensures Rooted(u)
  {
    assert u.scopes[0] == t.scopes[0];
    forall k | 0 <= k < |u.events|
      ensures u.events[k].scope != 0
    {
      if k < |t.events| {
        assert u.events[k] == t.events[k];
      }
    }
  }

  lemma {:induction false} MemberRooted(m: Member, inst: nat, t: Tree)
    requires Rooted(t) && Wf(t) && 1 <= inst && inst + 1 < |t.scopes|
    ensures Rooted(WalkMember(m, inst, t)) && t.scopes <= WalkMember(m, inst, t).scopes
  {
    var c0 := Ctx(|t.scopes|, [], []);
    match m
    case Field(isStatic, init) =>
      var c := Ctx(if isStatic then inst + 1 else inst, [], []);
      ExprsWalked(init, c, t);
      GrowsRooted(t, WalkExprs(init, c, t), c.scope);
    case Const(init) =>
      var t0 := Open(t, ConstInitializer, 0);
      ExprsWalked(init, c0, t0);
      GrowsRooted(t0, WalkExprs(init, c0, t0), c0.scope);
    case Constructor(None, body) =>
      var t0 := Open(t, BlockBody, 0);
      StmtsWalked(body, c0, t0);
      GrowsRooted(t0, WalkStmts(body, c0, t0), c0.scope);
    case Constructor(Some(args), body) =>
      var t0 := Open(t, ConstructorInitializer, 0);
      var ta := WalkExprs(args, c0, t0);
      var tb := Open(ta, BlockBody, c0.scope);
      ExprsWalked(args, c0, t0);
      GrowsRooted(t0, ta, c0.scope);
      StmtsWalked(body, Ctx(|ta.scopes|, [], []), tb);
      GrowsRooted(tb, WalkStmts(body, Ctx(|ta.scopes|, [], []), tb), |ta.scopes|);
    case Method(ps, body) =>
      var t0 := Open(t, MethodBody, 0);
      var tm := AddParams(ps, c0, t0);
      var tb := Open(tm, BlockBody, c0.scope);
      ParamsWalked(ps, c0, t0);
      GrowsRooted(t0, tm, c0.scope);
      StmtsWalked(body, Ctx(|tm.scopes|, [], []), tb);
      GrowsRooted(tb, WalkStmts(body, Ctx(|tm.scopes|, [], []), tb), |tm.scopes|);
  }

  lemma {:induction false} MembersRooted(ms: seq<Member>, inst: nat, t: Tree)
    requires Rooted(t) && Wf(t) && 1 <= inst && inst + 1 < |t.scopes|
    ensures Rooted(WalkMembers(ms, inst, t)) && t.scopes <= WalkMembers(ms, inst, t).scopes
    decreases ms
  {
    if ms != [] {
      MemberRooted(ms[0], inst, t);
      MemberWf(ms[0], inst, t);
      MembersRooted(ms[1..], inst, WalkMember(ms[0], inst, t));
    }
  }

  lemma FragmentRooted(f: Fragment, t: Tree)
    requires Rooted(t) && Wf(t)
    ensures Rooted(WalkFragment(f, t)) && t.scopes <= WalkFragment(f, t).scopes
  {
    var inst := |t.scopes|;
    var ti := Open(t, InstanceInitializers, 0);
    var t1 := Open(ti, StaticInitializers, 0);
    WfOpen(t, InstanceInitializers, 0);
    WfOpen(ti, StaticInitializers, 0);
    match f.primaryBase
    case None =>
      MembersRooted(f.members, inst, t1);
    case Some(args) =>
      var c := Ctx(|t1.scopes|, [], []);
      var t0 := Open(t1, PrimaryBaseArguments, inst);
      var t2 := WalkExprs(args, c, t0);
      WfOpen(t1, PrimaryBaseArguments, inst);
      ExprsWalked(args, c, t0);
      GrowsPreservesWf(t0, t2, c.scope);
      GrowsRooted(t0, t2, c.scope);
      MembersRooted(f.members, inst, t2);
  }

  lemma {:induction false} FragmentsRooted(fs: seq<Fragment>, t: Tree)
    requires Rooted(t) && Wf(t)
    ensures Rooted(WalkFragments(fs, t))
    decreases fs
  {
    if fs != [] {
      FragmentRooted(fs[0], t);
      FragmentWf(fs[0], t);
      FragmentsRooted(fs[1..], WalkFragment(fs[0], t));
    }
  }

  /** The tree of every unit is well formed, and its unit scope holds no event. */
  lemma BuildRooted(unit: seq<Fragment>)
    ensures Rooted(Build(unit)) && Wf(Build(unit))
  {
    FragmentsRooted(unit, Tree([Scope(Unit, None)], [], 0));
    BuildWf(unit);
  }

  // The diagnostics of the first unit's events are those it has alone.

  ghost predicate EventsBelow(es: seq<Event>, b: nat) {
    forall k :: 0 <= k < |es| ==> es[k].scope < b
  }

  ghost predicate FactsBelow(fs: seq<Fact>, b: nat) {
    forall k :: 0 <= k < |fs| ==> fs[k].scope < b
  }

  lemma ShiftedPast(T: Tree, U: Tree)
    requires |T.scopes| >= 1 && Rooted(U)
    ensures forall k :: 0 <= k < |REvents(ShiftOf(T), U.events)| ==> REvents(ShiftOf(T), U.events)[k].scope >= |T.scopes|
  {
    var h := ShiftOf(T);
    forall k | 0 <= k < |REvents(h, U.events)|
      ensures REvents(h, U.events)[k].scope >= |T.scopes|
    {
      assert U.events[k].scope != 0;
      match U.events[k] {
        case Declared(_, _, _, _, _) =>
        case Referenced(_, _, _, _, _, _) =>
        case OutAssigned(_, _, _) =>
      }
    }
  }

  lemma LocalsOld(T: Tree, U: Tree, s: nat)
    requires |T.scopes| >= 1 && Rooted(U) && s < |T.scopes|
    ensures LocalsOf(Merge(T, U), s) == LocalsOf(T, s)
  {
    var rest := REvents(ShiftOf(T), U.events);
    ShiftedPast(T, U);
    DeclsInAppend(T.events, rest, s);
    DeclsInNone(rest, s);
  }

  lemma {:induction false} LookupOld(T: Tree, U: Tree, s: nat, n: string)
    requires |T.scopes| >= 1 && Rooted(U) && s < |T.scopes|
    ensures Lookup(Merge(T, U), s, n) == Lookup(T, s, n)
    decreases s
  {
    LocalsOld(T, U, s);
    assert Merge(T, U).scopes[s] == T.scopes[s];
    if Parent(T, s).Some? {
      LookupOld(T, U, Parent(T, s).value, n);
    }
  }

  lemma BindOld(T: Tree, U: Tree, s: nat, n: string, at: Pos)
    requires |T.scopes| >= 1 && Rooted(U) && s < |T.scopes|
    ensures Bind(Merge(T, U), s, n, at) == Bind(T, s, n, at)
  {
    assert Merge(T, U).scopes[s] == T.scopes[s];
    LocalsOld(T, U, s);
    if Parent(T, s).Some? {
      LookupOld(T, U, Parent(T, s).value, n);
    }
  }

  lemma ResolveOld(T: Tree, U: Tree, s: nat, n: string, at: Pos)
    requires |T.scopes| >= 1 && Rooted(U) && s < |T.scopes|
    ensures Resolve(Merge(T, U), s, n, at) == Resolve(T, s, n, at)
  {
    LookupOld(T, U, s, n);
    if Lookup(T, s, n).Some? {
      LookupIsNearest(T, s, n);
      EnclosesOrder(T, Lookup(T, s, n).value, s);
      LocalsOld(T, U, Lookup(T, s, n).value);
    }
  }

  lemma EventOld(T: Tree, U: Tree, e: Event, facts: seq<Fact>)
    requires |T.scopes| >= 1 && Rooted(U) && e.scope < |T.scopes|
    ensures EventDiags(Merge(T, U), e, facts) == EventDiags(T, e, facts)
    ensures Step(Merge(T, U), e, facts) == Step(T, e, facts)
  {
    match e
    case Declared(s, n, at, _, _) => BindOld(T, U, s, n, at);
    case Referenced(s, n, at, _, _, _) => ResolveOld(T, U, s, n, at);
    case OutAssigned(_, _, _) =>
  }

  lemma {:induction false} AnalyseOld(T: Tree, U: Tree, es: seq<Event>, facts: seq<Fact>)
    requires |T.scopes| >= 1 && Rooted(U) && EventsBelow(es, |T.scopes|)
    ensures Analyse(Merge(T, U), es, facts) == Analyse(T, es, facts)
    ensures Replay(Merge(T, U), es, facts) == Replay(T, es, facts)
    decreases es
  {
    if es != [] {
      EventOld(T, U, es[0], facts);
      AnalyseOld(T, U, es[1..], Step(T, es[0], facts));
    }
  }

  lemma {:induction false} OutFactsBelow(s: nat, names: seq<string>, p: seq<nat>, b: nat)
    requires s < b
    ensures FactsBelow(OutFacts(s, names, p), b)
    decreases names
  {
    if names != [] {
      OutFactsBelow(s, names[1..], p, b);
    }
  }

  lemma {:induction false} ReplayBelow(T: Tree, es: seq<Event>, facts: seq<Fact>)
    requires Wf(T) && EventsBelow(es, |T.scopes|) && FactsBelow(facts, |T.scopes|)
    ensures FactsBelow(Replay(T, es, facts), |T.scopes|)
    decreases es
  {
    if es != [] {
      match es[0] {
        case Declared(_, _, _, _, _) =>
        case Referenced(s, n, _, _, _, _) =>
          if Lookup(T, s, n).Some? {
            LookupIsNearest(T, s, n);
            EnclosesOrder(T, Lookup(T, s, n).value, s);
          }
        case OutAssigned(s, names, p) =>
          OutFactsBelow(s, names, p, |T.scopes|);
      }
      ReplayBelow(T, es[1..], Step(T, es[0], facts));
    }
  }

  // The second unit's events, renumbered, give the diagnostics it has alone.

  function RFacts(h: Shift, fs: seq<Fact>): seq<Fact> {
    seq(|fs|, i requires 0 <= i < |fs| => Fact(RS(h, fs[i].scope), fs[i].name, RPath(h, fs[i].path)))
  }

  function RBinding(h: Shift, b: Binding): Binding {
    match b
    case Bound(d) => Bound(RS(h, d))
    case Unbound(code) => Unbound(code)
  }

  lemma {:induction false} DeclsShift(h: Shift, es: seq<Event>, s: nat)
    ensures DeclsIn(REvents(h, es), RS(h, s)) == DeclsIn(es, s)
    decreases es
  {
    if es != [] {
      assert REvents(h, es)[0] == REvent(h, es[0]);
      assert REvents(h, es)[1..] == REvents(h, es[1..]);
      DeclsShift(h, es[1..], s);
    }
  }

  lemma LocalsNew(T: Tree, U: Tree, s: nat)
    requires Wf(T) && Rooted(T) && Rooted(U)
    ensures LocalsOf(Merge(T, U), RS(ShiftOf(T), s)) == LocalsOf(U, s)
  {
    var h := ShiftOf(T);
    DeclsInAppend(T.events, REvents(h, U.events), RS(h, s));
    DeclsShift(h, U.events, s);
    if s == 0 {
      DeclsInNone(T.events, 0);
    } else {
      WfNothingIn(T, RS(h, s));
    }
  }

  lemma ParentNew(T: Tree, U: Tree, s: nat)
    requires Rooted(T) && Rooted(U)
    ensures Parent(Merge(T, U), RS(ShiftOf(T), s)) == RParent(ShiftOf(T), Parent(U, s))
  {
    var M := Merge(T, U);
    var h := ShiftOf(T);
    if s == 0 {
      assert M.scopes[0] == T.scopes[0];
    } else if s < |U.scopes| {
      assert M.scopes[RS(h, s)] == Scope(U.scopes[s].kind, RParent(h, U.scopes[s].parent));
    }
  }

  lemma {:induction false} LookupNew(T: Tree, U: Tree, s: nat, n: string)
    requires Wf(T) && Rooted(T) && Rooted(U)
    ensures Lookup(Merge(T, U), RS(ShiftOf(T), s), n) == RParent(ShiftOf(T), Lookup(U, s, n))
    decreases s
  {
    if s < |U.scopes| {
      LocalsNew(T, U, s);
      ParentNew(T, U, s);
      if Parent(U, s).Some? {
        LookupNew(T, U, Parent(U, s).value, n);
      }
    }
  }

  lemma BindNew(T: Tree, U: Tree, s: nat, n: string, at: Pos)
    requires Wf(T) && Rooted(T) && Rooted(U)
    ensures Bind(Merge(T, U), RS(ShiftOf(T), s), n, at) == Bind(U, s, n, at)
  {
    LocalsNew(T, U, s);
    ParentNew(T, U, s);
    if Parent(U, s).Some? {
      LookupNew(T, U, Parent(U, s).value, n);
    }
  }

  lemma ResolveNew(T: Tree, U: Tree, s: nat, n: string, at: Pos)
    requires Wf(T) && Rooted(T) && Rooted(U)
    ensures Resolve(Merge(T, U), RS(ShiftOf(T), s), n, at) == RBinding(ShiftOf(T), Resolve(U, s, n, at))
  {
    LookupNew(T, U, s, n);
    if Lookup(U, s, n).Some? {
      LocalsNew(T, U, Lookup(U, s, n).value);
    }
  }

  /** The unit scope never holds the local a name denotes. */
  lemma LookupNotUnit(U: Tree, s: nat, n: string)
    requires Rooted(U)
    ensures Lookup(U, s, n) != Some(0)
  {
    LookupIsNearest(U, s, n);
    DeclsInNone(U.events, 0);
  }

  lemma PathShift(h: Shift, a: seq<nat>, b: seq<nat>)
    ensures (RPath(h, a) <= RPath(h, b)) == (a <= b)
  {
    if a <= b {
      assert RPath(h, a) == RPath(h, b)[..|a|];
    }
    if RPath(h, a) <= RPath(h, b) {
      forall i | 0 <= i < |a|
        ensures a[i] == b[i]
      {
        assert RPath(h, a)[i] == RPath(h, b)[i];
      }
      assert a == b[..|a|];
    }
  }

  lemma {:induction false} AssignedShift(h: Shift, facts: seq<Fact>, d: nat, n: string, p: seq<nat>)
    ensures Assigned(RFacts(h, facts), RS(h, d), n, RPath(h, p)) == Assigned(facts, d, n, p)
    decreases facts
  {
    if facts != [] {
      assert RFacts(h, facts)[1..] == RFacts(h, facts[1..]);
      PathShift(h, facts[0].path, p);
      AssignedShift(h, facts[1..], d, n, p);
    }
  }

  lemma {:induction false} AssignedBelow(facts: seq<Fact>, b: nat, d: nat, n: string, p: seq<nat>)
    requires FactsBelow(facts, b) && b <= d
    ensures !Assigned(facts, d, n, p)
    decreases facts
  {
    if facts != [] {
      assert facts[0].scope < b;
      AssignedBelow(facts[1..], b, d, n, p);
    }
  }

  lemma RFactsAppend(h: Shift, a: seq<Fact>, b: seq<Fact>)
    ensures RFacts(h, a + b) == RFacts(h, a) + RFacts(h, b)
  {
  }

  lemma {:induction false} RFactsOut(h: Shift, s: nat, names: seq<string>, p: seq<nat>)
    ensures RFacts(h, OutFacts(s, names, p)) == OutFacts(RS(h, s), names, RPath(h, p))
    decreases names
  {
    if names != [] {
      RFactsAppend(h, [Fact(s, names[0], p)], OutFacts(s, names[1..], p));
      RFactsOut(h, s, names[1..], p);
    }
  }

  lemma StepNew(T: Tree, U: Tree, e: Event, f0: seq<Fact>, facts: seq<Fact>)
    requires Wf(T) && Rooted(T) && Rooted(U) && FactsBelow(f0, |T.scopes|)
    ensures Step(Merge(T, U), REvent(ShiftOf(T), e), f0 + RFacts(ShiftOf(T), facts))
         == f0 + RFacts(ShiftOf(T), Step(U, e, facts))
    ensures EventDiags(Merge(T, U), REvent(ShiftOf(T), e), f0 + RFacts(ShiftOf(T), facts)) == EventDiags(U, e, facts)
  {
    var h := ShiftOf(T);
    match e
    case Declared(s, n, at, m, p) =>
      BindNew(T, U, s, n, at);
      RFactsAppend(h, facts, [Fact(s, n, p)]);
    case Referenced(_, _, _, _, _, _) =>
      RefStepNew(T, U, e, f0, facts);
    case OutAssigned(s, names, p) =>
      RFactsAppend(h, facts, OutFacts(s, names, p));
      RFactsOut(h, s, names, p);
  }

  lemma RefStepNew(T: Tree, U: Tree, e: Event, f0: seq<Fact>, facts: seq<Fact>)
    requires e.Referenced? && Wf(T) && Rooted(T) && Rooted(U) && FactsBelow(f0, |T.scopes|)
    ensures Step(Merge(T, U), REvent(ShiftOf(T), e), f0 + RFacts(ShiftOf(T), facts))
         == f0 + RFacts(ShiftOf(T), Step(U, e, facts))
    ensures EventDiags(Merge(T, U), REvent(ShiftOf(T), e), f0 + RFacts(ShiftOf(T), facts)) == EventDiags(U, e, facts)
  {
    var h := ShiftOf(T);
    var M := Merge(T, U);
    var F := f0 + RFacts(h, facts);
    var p := e.path;
    ResolveNew(T, U, e.scope, e.name, e.at);
    assert REvent(h, e) == Referenced(RS(h, e.scope), e.name, e.at, e.write, e.sameArgList, RPath(h, p));
    match Resolve(U, e.scope, e.name, e.at) {
      case Bound(d) =>
        LookupNotUnit(U, e.scope, e.name);
        assert Resolve(M, RS(h, e.scope), e.name, e.at) == Bound(RS(h, d));
        RFactsAppend(h, facts, [Fact(d, e.name, p)]);
        AssignedAppend(f0, RFacts(h, facts), RS(h, d), e.name, RPath(h, p));
        AssignedBelow(f0, |T.scopes|, RS(h, d), e.name, RPath(h, p));
        AssignedShift(h, facts, d, e.name, p);
        assert Assigned(F, RS(h, d), e.name, RPath(h, p)) == Assigned(facts, d, e.name, p);
        assert Step(M, REvent(h, e), F) == if e.write then F + [Fact(RS(h, d), e.name, RPath(h, p))] else F;
      case Unbound(_) =>
    }
  }

  lemma {:induction false} AnalyseNew(T: Tree, U: Tree, es: seq<Event>, f0: seq<Fact>, facts: seq<Fact>)
    requires Wf(T) && Rooted(T) && Rooted(U) && FactsBelow(f0, |T.scopes|)
    ensures Analyse(Merge(T, U), REvents(ShiftOf(T), es), f0 + RFacts(ShiftOf(T), facts)) == Analyse(U, es, facts)
    decreases es
  {
    var h := ShiftOf(T);
    if es == [] {
      assert REvents(h, es) == [];
    } else {
      assert REvents(h, es)[0] == REvent(h, es[0]);
      assert REvents(h, es)[1..] == REvents(h, es[1..]);
      StepNew(T, U, es[0], f0, facts);
      AnalyseNew(T, U, es[1..], f0, Step(U, es[0], facts));
    }
  }

  /**
   * Fragments are checked independently: the diagnostics of a unit made of two
   * parts are those of the first part followed by those of the second.
   */
  lemma CheckAppend(a: seq<Fragment>, b: seq<Fragment>)
    ensures Check(a + b) == Check(a) + Check(b)
  {
    var A := Build(a);
    var U := Build(b);
    var h := ShiftOf(A);
    BuildAppend(a, b);
    BuildRooted(a);
    BuildRooted(b);
    var M := Merge(A, U);
    AnalyseSplit(M, A.events, REvents(h, U.events), []);
    AnalyseOld(A, U, A.events, []);
    ReplayBelow(A, A.events, []);
    var f0 := Replay(A, A.events, []);
    assert f0 + RFacts(h, []) == f0;
    AnalyseNew(A, U, U.events, f0, []);
  }

  /** Exchanging two fragments exchanges their diagnostics, so the same ones are reported. */
  lemma CheckSwap(f: Fragment, g: Fragment)
    ensures multiset(Check([f, g])) == multiset(Check([g, f]))
    ensures forall d :: d in Check([f, g]) <==> d in Check([g, f])
  {
    CheckAppend([f], [g]);
    CheckAppend([g], [f]);
    assert [f] + [g] == [f, g];
    assert [g] + [f] == [g, f];
  }

  /** A diagnostic of a unit is a diagnostic of one of its fragments checked alone, and conversely. */
  lemma {:induction false} CheckPieces(fs: seq<Fragment>, d: Diag)
    ensures d in Check(fs) <==> exists i :: 0 <= i < |fs| && d in Check([fs[i]])
    decreases fs
  {
    if fs != [] {
      assert fs == [fs[0]] + fs[1..];
      CheckAppend([fs[0]], fs[1..]);
      CheckPieces(fs[1..], d);
      if d in Check(fs[1..]) {
        var i :| 0 <= i < |fs[1..]| && d in Check([fs[1..][i]]);
        assert d in Check([fs[i + 1]]);
      }
      if exists i :: 0 <= i < |fs| && d in Check([fs[i]]) {
        var i :| 0 <= i < |fs| && d in Check([fs[i]]);
        if i > 0 {
          assert fs[1..][i - 1] == fs[i];
        }
      }
    } else {
      assert Check(fs) == [];
    }
  }

  /** Units made of the same fragments, in any order and any number of times, report the same diagnostics. */
  lemma CheckOrder(fs: seq<Fragment>, gs: seq<Fragment>)
    requires forall f :: f in fs <==> f in gs
    ensures forall d :: d in Check(fs) <==> d in Check(gs)
  {
    forall d
      ensures d in Check(fs) <==> d in Check(gs)
    {
      CheckPieces(fs, d);
      CheckPieces(gs, d);
      if exists i :: 0 <= i < |fs| && d in Check([fs[i]]) {
        var i :| 0 <= i < |fs| && d in Check([fs[i]]);
        assert fs[i] in gs;
        var j :| 0 <= j < |gs| && gs[j] == fs[i];
        assert d in Check([gs[j]]);
      }
      if exists j :: 0 <= j < |gs| && d in Check([gs[j]]) {
        var j :| 0 <= j < |gs| && d in Check([gs[j]]);
        assert gs[j] in fs;
        var i :| 0 <= i < |fs| && fs[i] == gs[j];
        assert d in Check([fs[i]]);
      }
    }
  }

  /** Reordering the fragments of a unit reorders its diagnostics and nothing else. */
  lemma {:induction false} CheckPermutation(fs: seq<Fragment>, gs: seq<Fragment>)
    requires multiset(fs) == multiset(gs)
    ensures multiset(Check(fs)) == multiset(Check(gs))
    decreases |fs|
  {
    if fs == [] {
      assert gs == [] by {
        assert |gs| == |multiset(gs)| == 0;
      }
    } else {
      var x := fs[0];
      assert x in multiset(gs);
      var i :| 0 <= i < |gs| && gs[i] == x;
      var rest := gs[..i] + gs[i + 1..];
      RemoveOne(fs, gs, i);
      CheckPermutation(fs[1..], rest);
      CheckAround(gs, i);
      assert fs == [x] + fs[1..];
      CheckAppend([x], fs[1..]);
    }
  }

  /** The diagnostics of a unit are those of any one of its fragments and those of the others. */
  lemma CheckAround(gs: seq<Fragment>, i: nat)
    requires i < |gs|
    ensures multiset(Check(gs)) == multiset(Check([gs[i]])) + multiset(Check(gs[..i] + gs[i + 1..]))
  {
    assert gs == gs[..i] + ([gs[i]] + gs[i + 1..]);
    CheckAppend(gs[..i], [gs[i]] + gs[i + 1..]);
    CheckAppend([gs[i]], gs[i + 1..]);
    CheckAppend(gs[..i], gs[i + 1..]);
  }

  /** Taking the first element off one of two permutations of each other, and one occurrence of it off the other. */
  lemma RemoveOne(fs: seq<Fragment>, gs: seq<Fragment>, i: nat)
    requires multiset(fs) == multiset(gs) && fs != [] && i < |gs| && gs[i] == fs[0]
    ensures multiset(gs[..i] + gs[i + 1..]) == multiset(fs[1..])
  {
    var rest := gs[..i] + gs[i + 1..];
    assert gs == gs[..i] + [gs[i]] + gs[i + 1..];
    assert multiset(gs) == multiset(gs[..i]) + multiset{gs[i]} + multiset(gs[i + 1..]);
    assert fs == [fs[0]] + fs[1..];
    assert multiset(fs) == multiset{fs[0]} + multiset(fs[1..]);
    forall y
      ensures multiset(rest)[y] == multiset(fs[1..])[y]
    {
      assert multiset(gs)[y] == multiset(fs)[y];
    }
  }

  // The layout of one fragment.

  /**
   * The instance and the static initializers of a fragment have one scope each,
   * both directly below the unit: no scope lies in both regions, so a local
   * declared in one kind of initializer is never visible in the other.
   */
  lemma InitializerScopes(f: Fragment, t: Tree)
    requires Rooted(t) && Wf(t)
    ensures var u := WalkFragment(f, t);
      && |t.scopes| + 1 < |u.scopes|
      && u.scopes[|t.scopes|] == Scope(InstanceInitializers, Some(0))
      && u.scopes[|t.scopes| + 1] == Scope(StaticInitializers, Some(0))
      && forall x :: Encloses(u, |t.scopes|, x) ==> !Encloses(u, |t.scopes| + 1, x)
  {
    var u := WalkFragment(f, t);
    var inst := |t.scopes|;
    var t1 := Open(Open(t, InstanceInitializers, 0), StaticInitializers, 0);
    FragmentRooted(f, t);
    FragmentWf(f, t);
    assert t1.scopes <= u.scopes by {
      match f.primaryBase
      case None =>
        WfOpen(t, InstanceInitializers, 0);
        WfOpen(Open(t, InstanceInitializers, 0), StaticInitializers, 0);
        MembersRooted(f.members, inst, t1);
      case Some(args) =>
        WfOpen(t, InstanceInitializers, 0);
        WfOpen(Open(t, InstanceInitializers, 0), StaticInitializers, 0);
        var c := Ctx(|t1.scopes|, [], []);
        var t0 := Open(t1, PrimaryBaseArguments, inst);
        var t2 := WalkExprs(args, c, t0);
        WfOpen(t1, PrimaryBaseArguments, inst);
        ExprsWalked(args, c, t0);
        GrowsPreservesWf(t0, t2, c.scope);
        GrowsRooted(t0, t2, c.scope);
        MembersRooted(f.members, inst, t2);
    }
    assert u.scopes[inst] == t1.scopes[inst];
    assert u.scopes[inst + 1] == t1.scopes[inst + 1];
    forall x | Encloses(u, inst, x)
      ensures !Encloses(u, inst + 1, x)
    {
      if Encloses(u, inst + 1, x) {
        ChainTotal(u, inst, inst + 1, x);
        if Encloses(u, inst, inst + 1) {
          assert Parent(u, inst + 1) == Some(0);
          EnclosesOrder(u, inst, 0);
        } else {
          assert Parent(u, inst) == Some(0);
          EnclosesOrder(u, inst + 1, 0);
        }
      }
    }
  }

  /**
   * A constructor without an initializer: its body has a scope of its own directly
   * below the unit, so the way out from the body meets no initializer scope.
   */
  lemma CtorBodyScope(body: seq<Stmt>, inst: nat, t: Tree)
    requires 1 <= inst && inst + 1 < |t.scopes|
    ensures var u := WalkMember(Constructor(None, body), inst, t);
      && |t.scopes| < |u.scopes|
      && u.scopes[|t.scopes|] == Scope(BlockBody, Some(0))
      && (forall x :: Encloses(u, x, |t.scopes|) ==> x == |t.scopes| || x == 0)
      && !Encloses(u, inst, |t.scopes|) && !Encloses(u, inst + 1, |t.scopes|)
  {
    var b := |t.scopes|;
    var t0 := Open(t, BlockBody, 0);
    var u := WalkStmts(body, Ctx(b, [], []), t0);
    StmtsWalked(body, Ctx(b, [], []), t0);
    assert u.scopes[b] == t0.scopes[b];
    forall x | Encloses(u, x, b)
      ensures x == b || x == 0
    {
      if x != b {
        assert Parent(u, b) == Some(0);
        assert Encloses(u, x, 0);
      }
    }
  }

  /**
   * A constructor with an initializer: one scope for the initializer, directly
   * below the unit, enclosing the scope of the body. The way out from the body
   * passes through these two and the unit only, so the body sees the
   * initializer's locals and no field initializer's.
   */
  lemma CtorScopes(args: seq<Expr>, body: seq<Stmt>, inst: nat, t: Tree)
    requires 1 <= inst && inst + 1 < |t.scopes|
    ensures var u := WalkMember(Constructor(Some(args), body), inst, t);
      var ci := |t.scopes|;
      var b := |WalkExprs(args, Ctx(ci, [], []), Open(t, ConstructorInitializer, 0)).scopes|;
      && ci < b < |u.scopes|
      && u.scopes[ci] == Scope(ConstructorInitializer, Some(0))
      && u.scopes[b] == Scope(BlockBody, Some(ci))
      && (forall x :: Encloses(u, x, b) ==> x == b || x == ci || x == 0)
      && !Encloses(u, inst, b) && !Encloses(u, inst + 1, b)
  {
    var ci := |t.scopes|;
    var c0 := Ctx(ci, [], []);
    var t0 := Open(t, ConstructorInitializer, 0);
    var ta := WalkExprs(args, c0, t0);
    var b := |ta.scopes|;
    var tb := Open(ta, BlockBody, ci);
    var u := WalkStmts(body, Ctx(b, [], []), tb);
    ExprsWalked(args, c0, t0);
    StmtsWalked(body, Ctx(b, [], []), tb);
    assert u.scopes[ci] == ta.scopes[ci] == t0.scopes[ci];
    assert u.scopes[b] == tb.scopes[b];
    forall x | Encloses(u, x, b)
      ensures x == b || x == ci || x == 0
    {
      if x != b {
        assert Parent(u, b) == Some(ci);
        assert Encloses(u, x, ci);
        if x != ci {
          assert Parent(u, ci) == Some(0);
          assert Encloses(u, x, 0);
        }
      }
    }
  }

  /**
   * A constant: its initializer has a scope of its own directly below the unit,
   * holding exactly the initializer's locals and references. The way out from it
   * meets only the unit, so no field initializer's local is visible there.
   */
  lemma ConstScope(init: seq<Expr>, inst: nat, t: Tree)
    requires Wf(t) && 1 <= inst && inst + 1 < |t.scopes|
    ensures var u := WalkMember(Const(init), inst, t); var k := |t.scopes|;
      && ScopeIn(u, k, 0, ExprsLocals(init), ExprsRefs(init))
      && u.scopes[k] == Scope(ConstInitializer, Some(0))
      && (forall x :: Encloses(u, x, k) ==> x == k || x == 0)
      && !Encloses(u, inst, k) && !Encloses(u, inst + 1, k)
  {
    var k := |t.scopes|;
    var t0 := Open(t, ConstInitializer, 0);
    var u := WalkExprs(init, Ctx(k, [], []), t0);
    ExprsWalked(init, Ctx(k, [], []), t0);
    FreshScope(t, ConstInitializer, 0, u, ExprsOpens(init), ExprsLocals(init), ExprsRefs(init));
    assert u.scopes[k] == t0.scopes[k];
    forall x | Encloses(u, x, k)
      ensures x == k || x == 0
    {
      if x != k {
        assert Parent(u, k) == Some(0);
        assert Encloses(u, x, 0);
      }
    }
  }

  /** A member walks in the two initializer scopes or in scopes it opens, and in no other scope. */
  lemma {:induction false} MemberKept(m: Member, inst: nat, t: Tree, x: nat)
    requires Wf(t) && inst + 1 < |t.scopes| && x < |t.scopes| && x != inst && x != inst + 1
    ensures t.scopes <= WalkMember(m, inst, t).scopes && Kept(t, WalkMember(m, inst, t), x)
  {
    var c0 := Ctx(|t.scopes|, [], []);
    match m
    case Field(isStatic, init) =>
      var c := Ctx(if isStatic then inst + 1 else inst, [], []);
      ExprsWalked(init, c, t);
      Untouched(t, WalkExprs(init, c, t), c.scope, x);
    case Const(init) =>
      var t0 := Open(t, ConstInitializer, 0);
      ExprsWalked(init, c0, t0);
      Untouched(t0, WalkExprs(init, c0, t0), c0.scope, x);
    case Constructor(None, body) =>
      var t0 := Open(t, BlockBody, 0);
      StmtsWalked(body, c0, t0);
      Untouched(t0, WalkStmts(body, c0, t0), c0.scope, x);
    case Constructor(Some(args), body) =>
      CtorKept(args, body, inst, t, x);
    case Method(ps, body) =>
      MethodKept(ps, body, inst, t, x);
  }

  lemma CtorKept(args: seq<Expr>, body: seq<Stmt>, inst: nat, t: Tree, x: nat)
    requires x < |t.scopes|
    ensures var u := WalkMember(Constructor(Some(args), body), inst, t); t.scopes <= u.scopes && Kept(t, u, x)
  {
    var c0 := Ctx(|t.scopes|, [], []);
    var t0 := Open(t, ConstructorInitializer, 0);
    var ta := WalkExprs(args, c0, t0);
    var tb := Open(ta, BlockBody, c0.scope);
    var u := WalkStmts(body, Ctx(|ta.scopes|, [], []), tb);
    ExprsWalked(args, c0, t0);
    Untouched(t0, ta, c0.scope, x);
    StmtsWalked(body, Ctx(|ta.scopes|, [], []), tb);
    Untouched(tb, u, |ta.scopes|, x);
  }

  lemma MethodKept(ps: seq<Param>, body: seq<Stmt>, inst: nat, t: Tree, x: nat)
    requires x < |t.scopes|
    ensures var u := WalkMember(Method(ps, body), inst, t); t.scopes <= u.scopes && Kept(t, u, x)
  {
    var c0 := Ctx(|t.scopes|, [], []);
    var t0 := Open(t, MethodBody, 0);
    var tm := AddParams(ps, c0, t0);
    var tb := Open(tm, BlockBody, c0.scope);
    var u := WalkStmts(body, Ctx(|tm.scopes|, [], []), tb);
    ParamsWalked(ps, c0, t0);
    Untouched(t0, tm, c0.scope, x);
    StmtsWalked(body, Ctx(|tm.scopes|, [], []), tb);
    Untouched(tb, u, |tm.scopes|, x);
  }

  lemma {:induction false} MembersKept(ms: seq<Member>, inst: nat, t: Tree, x: nat)
    requires Wf(t) && inst + 1 < |t.scopes| && x < |t.scopes| && x != inst && x != inst + 1
    ensures t.scopes <= WalkMembers(ms, inst, t).scopes && Kept(t, WalkMembers(ms, inst, t), x)
    decreases ms
  {
    if ms != [] {
      MemberKept(ms[0], inst, t, x);
      MemberWf(ms[0], inst, t);
      MembersKept(ms[1..], inst, WalkMember(ms[0], inst, t), x);
    }
  }

  /**
   * A primary constructor's base arguments: one scope, directly below the
   * fragment's instance-initializer scope, holding exactly the arguments' locals
   * and references. The way out from it passes through the instance initializers
   * and the unit only, never through the static initializers.
   */
  lemma PrimaryBaseScope(f: Fragment, t: Tree)
    requires Wf(t) && |t.scopes| >= 1 && f.primaryBase.Some?
    ensures var u := WalkFragment(f, t); var inst := |t.scopes|; var args := f.primaryBase.value;
      var pb := |Open(Open(t, InstanceInitializers, 0), StaticInitializers, 0).scopes|;
      && ScopeIn(u, pb, inst, ExprsLocals(args), ExprsRefs(args))
      && u.scopes[inst] == Scope(InstanceInitializers, Some(0))
      && u.scopes[pb] == Scope(PrimaryBaseArguments, Some(inst))
      && (forall x :: Encloses(u, x, pb) ==> x == pb || x == inst || x == 0)
      && !Encloses(u, inst + 1, pb)
  {
    var inst := |t.scopes|;
    var args := f.primaryBase.value;
    var ti := Open(t, InstanceInitializers, 0);
    var t1 := Open(ti, StaticInitializers, 0);
    var pb := |t1.scopes|;
    var c := Ctx(pb, [], []);
    var t0 := Open(t1, PrimaryBaseArguments, inst);
    var t2 := WalkExprs(args, c, t0);
    var u := WalkFragment(f, t);
    WfOpen(t, InstanceInitializers, 0);
    WfOpen(ti, StaticInitializers, 0);
    WfOpen(t1, PrimaryBaseArguments, inst);
    ExprsWalked(args, c, t0);
    FreshScope(t1, PrimaryBaseArguments, inst, t2, ExprsOpens(args), ExprsLocals(args), ExprsRefs(args));
    GrowsPreservesWf(t0, t2, c.scope);
    MembersKept(f.members, inst, t2, pb);
    assert u.scopes[inst] == t2.scopes[inst] == t1.scopes[inst];
    assert u.scopes[pb] == t2.scopes[pb];
    forall x | Encloses(u, x, pb)
      ensures x == pb || x == inst || x == 0
    {
      if x != pb {
        assert Parent(u, pb) == Some(inst);
        assert Encloses(u, x, inst);
        if x != inst {
          assert Parent(u, inst) == Some(0);
          assert Encloses(u, x, 0);
        }
      }
    }
  }
}

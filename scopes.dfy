/**
 * The scope tree of a compilation unit and the walk that builds it.
 *
 * The tree is an arena: scope `i` is `scopes[i]`, and its parent is a scope
 * created before it (`parent < i`), so every walk up the tree terminates.
 * Besides the tree, the walk records one event per declaration, reference and
 * completed argument list, in the order in which the statements are evaluated (for a `for` loop: initializer, condition,
 * body, increment); the definite-assignment check reads that order, while every
 * "before"/"after" question about declarations uses source positions. The locals
 * of a scope are the declaration events that name it.
 *
 * Conditionally executed regions (a branch, a loop body, a switch section, a
 * try block, a catch clause, a lambda) each get a fresh arm number; an event's `path` is the
 * list of arms that enclose it.
 */
module Scopes {
  import opened Syntax

  datatype Kind =
    | Unit | BlockBody | EmbeddedBody
    | ForInit | ForLoop | ForEachCollection | ForEachVariable
    | LoopCondition | ResourceHeader | SwitchGoverning | SwitchSections
    | IfCondition | CatchClause | LambdaBody | QueryClause
    | InstanceInitializers | PrimaryBaseArguments | StaticInitializers | ConstInitializer
    | ConstructorInitializer | MethodBody

  /** A scope; the locals it declares are the `Declared` events that name it. */
  datatype Scope = Scope(kind: Kind, parent: Option<nat>)

  datatype Event =
    | Declared(scope: nat, name: string, at: Pos, mode: Mode, path: seq<nat>)
    | Referenced(scope: nat, name: string, at: Pos, write: bool, sameArgList: bool, path: seq<nat>)
    | OutAssigned(scope: nat, names: seq<string>, path: seq<nat>)   // an argument list has been evaluated

  datatype Tree = Tree(scopes: seq<Scope>, events: seq<Event>, arms: nat)

  /**
   * Where the walk stands: the current scope, the enclosing arms, and the names
   * declared as `out` arguments in earlier arguments of argument lists that are
   * still being evaluated.
   */
  datatype Ctx = Ctx(scope: nat, path: seq<nat>, pending: seq<string>)

  /** Every event names a scope of the tree, and every parent precedes its child. */
  ghost predicate Wf(t: Tree) {
    && (forall k :: 0 <= k < |t.events| ==> t.events[k].scope < |t.scopes|)
    && (forall i :: 0 <= i < |t.scopes| && t.scopes[i].parent.Some? ==> t.scopes[i].parent.value < i)
  }

  /** The declarations that events `es` make in scope `s`, in order. */
  function DeclsIn(es: seq<Event>, s: nat): seq<Local> {
    if es == [] then []
    else (if es[0].Declared? && es[0].scope == s then [Local(es[0].name, es[0].at)] else []) + DeclsIn(es[1..], s)
  }

  /** The references that events `es` make in scope `s`, in order, as name and position. */
  function RefsIn(es: seq<Event>, s: nat): seq<Local> {
    if es == [] then []
    else (if es[0].Referenced? && es[0].scope == s then [Local(es[0].name, es[0].at)] else []) + RefsIn(es[1..], s)
  }

  /** Opens a new scope, child of `parent`; it is the scope numbered `|t.scopes|`. */
  function Open(t: Tree, kind: Kind, parent: nat): Tree {
    Tree(t.scopes + [Scope(kind, Some(parent))], t.events, t.arms)
  }

  /** The context moved to scope `s`. */
  function Into(c: Ctx, s: nat): Ctx {
    Ctx(s, c.path, c.pending)
  }

  /** Uses up the next arm number. */
  function NextArm(t: Tree): Tree {
    Tree(t.scopes, t.events, t.arms + 1)
  }

  /** The context inside the arm numbered `t.arms`. */
  function InArm(t: Tree, c: Ctx): Ctx {
    Ctx(c.scope, c.path + [t.arms], c.pending)
  }

  function Emit(t: Tree, e: Event): Tree {
    Tree(t.scopes, t.events + [e], t.arms)
  }

  /** Records a declaration in the current scope. */
  function AddDecl(t: Tree, c: Ctx, name: string, at: Pos, mode: Mode): Tree {
    Emit(t, Declared(c.scope, name, at, mode, c.path))
  }

  function AddParams(ps: seq<Param>, c: Ctx, t: Tree): Tree
    decreases ps
  {
    if ps == [] then t else AddParams(ps[1..], c, AddDecl(t, c, ps[0].name, ps[0].at, Initialized))
  }

  /** The names declared by `out` declarations that are whole arguments of `args`. */
  function OutNames(args: seq<Argument>): seq<string> {
    if args == [] then [] else OutNamesOf(args[0].items) + OutNames(args[1..])
  }

  function OutNamesOf(arg: seq<Expr>): seq<string> {
    if arg == [] then []
    else (if arg[0].Declare? && arg[0].mode.Out? then [arg[0].name] else []) + OutNamesOf(arg[1..])
  }

  function WalkExpr(e: Expr, c: Ctx, t: Tree): Tree
    decreases e, 1
  {
    match e
    case Declare(n, at, m) => AddDecl(t, c, n, at, m)
    case Use(n, at, w) => Emit(t, Referenced(c.scope, n, at, w, n in c.pending, c.path))
    case Call(args) => Emit(WalkArgs(args, [], c, t), OutAssigned(c.scope, OutNames(args), c.path))
    case Lambda(ps, body) =>
      var inner := InArm(t, Into(c, |t.scopes|));
      WalkStmt(body, inner, AddParams(ps, inner, NextArm(Open(t, LambdaBody, c.scope))))
    case Query(source, range, clauses) =>
      WalkClauses(clauses, range, c, WalkExprs(source, c, t))
  }

  function WalkExprs(items: seq<Expr>, c: Ctx, t: Tree): Tree
    decreases items, 0
  {
    if items == [] then t else WalkExprs(items[1..], c, WalkExpr(items[0], c, t))
  }

  /** Walks an argument list; `earlier` are the arguments already walked. */
  function WalkArgs(args: seq<Argument>, earlier: seq<Argument>, c: Ctx, t: Tree): Tree
    decreases args, 0
  {
    if args == [] then t
    else
      var t1 := WalkExprs(args[0].items, Ctx(c.scope, c.path, c.pending + OutNames(earlier)), t);
      WalkArgs(args[1..], earlier + [args[0]], c, t1)
  }

  /** Each query clause is a lambda whose parameter is the range variable. */
  function WalkClauses(clauses: seq<Clause>, range: Param, c: Ctx, t: Tree): Tree
    decreases clauses, 0
  {
    if clauses == [] then t
    else
      var inner := InArm(t, Into(c, |t.scopes|));
      var t1 := AddDecl(NextArm(Open(t, QueryClause, c.scope)), inner, range.name, range.at, Initialized);
      WalkClauses(clauses[1..], range, c, WalkExprs(clauses[0].items, inner, t1))
  }

  /** An embedded statement (loop body, branch) gets a scope of its own, child of `c.scope`. */
  function WalkEmbedded(s: Stmt, c: Ctx, t: Tree): Tree
    decreases s, 2
  {
    var inner := Into(c, |t.scopes|);
    match s
    case Block(body) => WalkStmts(body, inner, Open(t, BlockBody, c.scope))
    case _ => WalkStmt(s, inner, Open(t, EmbeddedBody, c.scope))
  }

  function WalkStmt(s: Stmt, c: Ctx, t: Tree): Tree
    decreases s, 1
  {
    match s
    case Exprs(items) => WalkExprs(items, c, t)
    case Block(body) => WalkStmts(body, Into(c, |t.scopes|), Open(t, BlockBody, c.scope))
    case For(init, cond, incr, body) =>
      var f := |t.scopes|;
      var t1 := Open(Open(t, ForInit, c.scope), ForLoop, f);
      var t2 := WalkExprs(cond, Into(c, f + 1), WalkExprs(init, Into(c, f), t1));
      var cb := InArm(t2, Into(c, f + 1));
      WalkExprs(incr, cb, WalkEmbedded(body, cb, NextArm(t2)))
    case ForEach(v, coll, body) =>
      var f := |t.scopes|;
      var t1 := WalkExprs(coll, Into(c, f), Open(t, ForEachCollection, c.scope));
      var cv := Into(c, |t1.scopes|);
      var t2 := AddDecl(Open(t1, ForEachVariable, f), cv, v.name, v.at, Initialized);
      WalkEmbedded(body, InArm(t2, cv), NextArm(t2))
    case While(cond, body) =>
      var cc := Into(c, |t.scopes|);
      var t1 := WalkExprs(cond, cc, Open(t, LoopCondition, c.scope));
      WalkEmbedded(body, InArm(t1, cc), NextArm(t1))
    case Do(body, cond) =>
      var cc := Into(c, |t.scopes|);
      WalkExprs(cond, cc, WalkEmbedded(body, cc, Open(t, LoopCondition, c.scope)))
    case Using(resource, body) =>
      var ch := Into(c, |t.scopes|);
      WalkEmbedded(body, ch, WalkExprs(resource, ch, Open(t, ResourceHeader, c.scope)))
    case Fixed(decl, body) =>
      var ch := Into(c, |t.scopes|);
      WalkEmbedded(body, ch, WalkExprs(decl, ch, Open(t, ResourceHeader, c.scope)))
    case Switch(gov, sections) =>
      var g := |t.scopes|;
      var t1 := WalkExprs(gov, Into(c, g), Open(t, SwitchGoverning, c.scope));
      WalkSections(sections, Into(c, |t1.scopes|), Open(t1, SwitchSections, g))
    case If(cond, thn, els) =>
      var cc := Into(c, |t.scopes|);
      var t1 := WalkExprs(cond, cc, Open(t, IfCondition, c.scope));
      var t2 := WalkEmbedded(thn, InArm(t1, cc), NextArm(t1));
      (match els
       case None => t2
       case Some(e) => WalkEmbedded(e, InArm(t2, cc), NextArm(t2)))
    case Try(body, catches, fin) =>
      var cb := InArm(t, Into(c, |t.scopes|));
      var t1 := WalkStmts(body, cb, Open(NextArm(t), BlockBody, c.scope));
      var t2 := WalkCatches(catches, c, t1);
      (match fin
       case None => t2
       case Some(f) => WalkEmbedded(f, c, t2))
  }

  function WalkStmts(ss: seq<Stmt>, c: Ctx, t: Tree): Tree
    decreases ss, 0
  {
    if ss == [] then t else WalkStmts(ss[1..], c, WalkStmt(ss[0], c, t))
  }

  /** All sections of a switch share one scope; each section is an arm of its own. */
  function WalkSections(sections: seq<Section>, c: Ctx, t: Tree): Tree
    decreases sections, 0
  {
    if sections == [] then t
    else WalkSections(sections[1..], c, WalkStmts(sections[0].stmts, InArm(t, c), NextArm(t)))
  }

  function WalkCatches(catches: seq<Catch>, c: Ctx, t: Tree): Tree
    decreases catches, 1
  {
    if catches == [] then t else WalkCatches(catches[1..], c, WalkCatch(catches[0], c, t))
  }

  /** A catch clause: one scope for the exception variable and the filter, enclosing the body. */
  function WalkCatch(k: Catch, c: Ctx, t: Tree): Tree
    decreases k, 0
  {
    var inner := InArm(t, Into(c, |t.scopes|));
    var t1 := NextArm(Open(t, CatchClause, c.scope));
    var t2 := match k.param
      case None => t1
      case Some(p) => AddDecl(t1, inner, p.name, p.at, Initialized);
    var t3 := WalkExprs(k.filter, inner, t2);
    WalkStmts(k.block, Into(inner, |t3.scopes|), Open(t3, BlockBody, inner.scope))
  }

  /**
   * One type fragment: one scope for its instance initializers (enclosing the
   * primary constructor's base arguments), one for its static initializers, one
   * per constant, one per constructor initializer (enclosing that constructor's
   * body) and one per method.
   */
  function WalkFragment(f: Fragment, t: Tree): Tree {
    var inst := |t.scopes|;
    var t1 := Open(Open(t, InstanceInitializers, 0), StaticInitializers, 0);
    var t2 := match f.primaryBase
      case None => t1
      case Some(args) => WalkExprs(args, Ctx(|t1.scopes|, [], []), Open(t1, PrimaryBaseArguments, inst));
    WalkMembers(f.members, inst, t2)
  }

  /**
   * One member: a field initializer in the fragment's instance or static scope;
   * a constant in a scope of its own; a constructor's body in a scope of its own,
   * below the scope of its initializer when it has one; a method's parameters in
   * a scope of their own, enclosing the scope of its body.
   */
  function WalkMember(m: Member, inst: nat, t: Tree): Tree {
    match m
    case Field(isStatic, init) => WalkExprs(init, Ctx(if isStatic then inst + 1 else inst, [], []), t)
    case Const(init) => WalkExprs(init, Ctx(|t.scopes|, [], []), Open(t, ConstInitializer, 0))
    case Constructor(None, body) => WalkStmts(body, Ctx(|t.scopes|, [], []), Open(t, BlockBody, 0))
    case Constructor(Some(args), body) =>
      var ca := Ctx(|t.scopes|, [], []);
      var ta := WalkExprs(args, ca, Open(t, ConstructorInitializer, 0));
      WalkStmts(body, Ctx(|ta.scopes|, [], []), Open(ta, BlockBody, ca.scope))
    case Method(ps, body) =>
      var cm := Ctx(|t.scopes|, [], []);
      var tm := AddParams(ps, cm, Open(t, MethodBody, 0));
      WalkStmts(body, Ctx(|tm.scopes|, [], []), Open(tm, BlockBody, cm.scope))
  }

  function WalkMembers(ms: seq<Member>, inst: nat, t: Tree): Tree
    decreases ms
  {
    if ms == [] then t else WalkMembers(ms[1..], inst, WalkMember(ms[0], inst, t))
  }

  function WalkFragments(fs: seq<Fragment>, t: Tree): Tree
    decreases fs
  {
    if fs == [] then t else WalkFragments(fs[1..], WalkFragment(fs[0], t))
  }

  /** The scope tree of a compilation unit: scope 0 is the unit itself and declares nothing. */
  function Build(unit: seq<Fragment>): Tree {
    WalkFragments(unit, Tree([Scope(Unit, None)], [], 0))
  }
}

/**
 * One-step equations of the walk and of the analysis over explicit lists: the
 * walk of a list whose first element is known, the events a scope collects when
 * one more event is appended, and the diagnostics and assignments of one more
 * event. The test outcomes are computed with them, one statement and one event
 * at a time.
 */
module Traces {
  import opened Syntax
  import opened Scopes
  import opened Binding
  import opened Frames
  import opened Reporting

  lemma WalkExprsOne(e: Expr, c: Ctx, t: Tree)
    ensures WalkExprs([e], c, t) == WalkExpr(e, c, t)
  {
    assert [e][1..] == [];
  }

  lemma WalkExprsCons(e: Expr, es: seq<Expr>, c: Ctx, t: Tree)
    ensures WalkExprs([e] + es, c, t) == WalkExprs(es, c, WalkExpr(e, c, t))
  {
    assert ([e] + es)[0] == e && ([e] + es)[1..] == es;
  }

  lemma WalkArgsOne(a: Argument, earlier: seq<Argument>, c: Ctx, t: Tree)
    ensures WalkArgs([a], earlier, c, t) == WalkExprs(a.items, Ctx(c.scope, c.path, c.pending + OutNames(earlier)), t)
  {
    assert [a][1..] == [];
  }

  lemma WalkArgsCons(a: Argument, args: seq<Argument>, earlier: seq<Argument>, c: Ctx, t: Tree)
    ensures WalkArgs([a] + args, earlier, c, t)
         == WalkArgs(args, earlier + [a], c, WalkExprs(a.items, Ctx(c.scope, c.path, c.pending + OutNames(earlier)), t))
  {
    assert ([a] + args)[0] == a && ([a] + args)[1..] == args;
  }

  lemma WalkStmtsOne(s: Stmt, c: Ctx, t: Tree)
    ensures WalkStmts([s], c, t) == WalkStmt(s, c, t)
  {
    assert [s][1..] == [];
  }

  lemma WalkStmtsCons(s: Stmt, ss: seq<Stmt>, c: Ctx, t: Tree)
    ensures WalkStmts([s] + ss, c, t) == WalkStmts(ss, c, WalkStmt(s, c, t))
  {
    assert ([s] + ss)[0] == s && ([s] + ss)[1..] == ss;
  }

  lemma WalkSectionsOne(x: Section, c: Ctx, t: Tree)
    ensures WalkSections([x], c, t) == WalkStmts(x.stmts, InArm(t, c), NextArm(t))
  {
    assert [x][1..] == [];
  }

  lemma WalkSectionsCons(x: Section, xs: seq<Section>, c: Ctx, t: Tree)
    ensures WalkSections([x] + xs, c, t) == WalkSections(xs, c, WalkStmts(x.stmts, InArm(t, c), NextArm(t)))
  {
    assert ([x] + xs)[0] == x && ([x] + xs)[1..] == xs;
  }

  lemma WalkCatchesOne(k: Catch, c: Ctx, t: Tree)
    ensures WalkCatches([k], c, t) == WalkCatch(k, c, t)
  {
    assert [k][1..] == [];
  }

  lemma WalkCatchesCons(k: Catch, ks: seq<Catch>, c: Ctx, t: Tree)
    ensures WalkCatches([k] + ks, c, t) == WalkCatches(ks, c, WalkCatch(k, c, t))
  {
    assert ([k] + ks)[0] == k && ([k] + ks)[1..] == ks;
  }

  lemma WalkClausesOne(x: Clause, range: Param, c: Ctx, t: Tree)
    ensures WalkClauses([x], range, c, t)
         == WalkExprs(x.items, InArm(t, Into(c, |t.scopes|)),
                      AddDecl(NextArm(Open(t, QueryClause, c.scope)), InArm(t, Into(c, |t.scopes|)), range.name, range.at, Initialized))
  {
    assert [x][1..] == [];
  }

  lemma WalkClausesCons(x: Clause, xs: seq<Clause>, range: Param, c: Ctx, t: Tree)
    ensures WalkClauses([x] + xs, range, c, t)
         == WalkClauses(xs, range, c,
              WalkExprs(x.items, InArm(t, Into(c, |t.scopes|)),
                        AddDecl(NextArm(Open(t, QueryClause, c.scope)), InArm(t, Into(c, |t.scopes|)), range.name, range.at, Initialized)))
  {
    assert ([x] + xs)[0] == x && ([x] + xs)[1..] == xs;
  }

  lemma AddParamsOne(p: Param, c: Ctx, t: Tree)
    ensures AddParams([p], c, t) == AddDecl(t, c, p.name, p.at, Initialized)
  {
    assert [p][1..] == [];
  }

  lemma AddParamsCons(p: Param, ps: seq<Param>, c: Ctx, t: Tree)
    ensures AddParams([p] + ps, c, t) == AddParams(ps, c, AddDecl(t, c, p.name, p.at, Initialized))
  {
    assert ([p] + ps)[0] == p && ([p] + ps)[1..] == ps;
  }

  lemma WalkMembersOne(m: Member, inst: nat, t: Tree)
    ensures WalkMembers([m], inst, t) == WalkMember(m, inst, t)
  {
    assert [m][1..] == [];
  }

  lemma WalkMembersCons(m: Member, ms: seq<Member>, inst: nat, t: Tree)
    ensures WalkMembers([m] + ms, inst, t) == WalkMembers(ms, inst, WalkMember(m, inst, t))
  {
    assert ([m] + ms)[0] == m && ([m] + ms)[1..] == ms;
  }

  lemma WalkFragmentsOne(f: Fragment, t: Tree)
    ensures WalkFragments([f], t) == WalkFragment(f, t)
  {
    assert [f][1..] == [];
  }

  lemma WalkFragmentsCons(f: Fragment, fs: seq<Fragment>, t: Tree)
    ensures WalkFragments([f] + fs, t) == WalkFragments(fs, WalkFragment(f, t))
  {
    assert ([f] + fs)[0] == f && ([f] + fs)[1..] == fs;
  }

  lemma OutNamesOfOne(e: Expr)
    ensures OutNamesOf([e]) == if e.Declare? && e.mode.Out? then [e.name] else []
  {
    assert [e][1..] == [];
  }

  lemma OutNamesOfCons(e: Expr, es: seq<Expr>)
    ensures OutNamesOf([e] + es) == (if e.Declare? && e.mode.Out? then [e.name] else []) + OutNamesOf(es)
  {
    assert ([e] + es)[0] == e && ([e] + es)[1..] == es;
  }

  lemma OutNamesOne(a: Argument)
    ensures OutNames([a]) == OutNamesOf(a.items)
  {
    assert [a][1..] == [];
  }

  lemma OutNamesCons(a: Argument, args: seq<Argument>)
    ensures OutNames([a] + args) == OutNamesOf(a.items) + OutNames(args)
  {
    assert ([a] + args)[0] == a && ([a] + args)[1..] == args;
  }

  /** The names declared `out` by a list of arguments grown by one argument. */
  lemma {:induction false} OutNamesSnoc(args: seq<Argument>, a: Argument)
    ensures OutNames(args + [a]) == OutNames(args) + OutNamesOf(a.items)
    decreases args
  {
    if args == [] {
      assert args + [a] == [a];
      OutNamesOne(a);
    } else {
      assert args + [a] == [args[0]] + (args[1..] + [a]);
      OutNamesCons(args[0], args[1..] + [a]);
      OutNamesSnoc(args[1..], a);
      assert args == [args[0]] + args[1..];
      OutNamesCons(args[0], args[1..]);
    }
  }

  /** The declarations of a scope after one more event: the earlier ones, then that event's if it declares there. */
  lemma DeclsInSnoc(es: seq<Event>, e: Event, s: nat)
    ensures DeclsIn(es + [e], s)
         == DeclsIn(es, s) + (if e.Declared? && e.scope == s then [Local(e.name, e.at)] else [])
  {
    DeclsInAppend(es, [e], s);
    assert [e][1..] == [];
  }

  /** The declarations of a scope in a list with a known first event. */
  lemma DeclsInCons(e: Event, es: seq<Event>, s: nat)
    ensures DeclsIn([e] + es, s)
         == (if e.Declared? && e.scope == s then [Local(e.name, e.at)] else []) + DeclsIn(es, s)
  {
    assert ([e] + es)[0] == e && ([e] + es)[1..] == es;
  }

  /** One more event that declares nothing in scope `s` leaves its declarations as they were. */
  lemma DeclsInSkip(es: seq<Event>, e: Event, s: nat)
    requires !(e.Declared? && e.scope == s)
    ensures DeclsIn(es + [e], s) == DeclsIn(es, s)
  {
    DeclsInSnoc(es, e, s);
  }

  /** One more event that declares in scope `s` adds its local at the end. */
  lemma DeclsInAdd(es: seq<Event>, e: Event, s: nat)
    requires e.Declared? && e.scope == s
    ensures DeclsIn(es + [e], s) == DeclsIn(es, s) + [Local(e.name, e.at)]
  {
    DeclsInSnoc(es, e, s);
  }

  lemma DeclsInOne(e: Event, s: nat)
    ensures DeclsIn([e], s) == if e.Declared? && e.scope == s then [Local(e.name, e.at)] else []
  {
    assert [e][1..] == [];
  }

  /** Analysing one more event: the diagnostics so far, then that event's, given the assignments so far. */
  lemma AnalyseSnoc(t: Tree, es: seq<Event>, e: Event, facts: seq<Fact>)
    ensures Analyse(t, es + [e], facts) == Analyse(t, es, facts) + EventDiags(t, e, Replay(t, es, facts))
    ensures Replay(t, es + [e], facts) == Step(t, e, Replay(t, es, facts))
  {
    AnalyseSplit(t, es, [e], facts);
    AnalyseOne(t, e, Replay(t, es, facts));
  }

  lemma AnalyseOne(t: Tree, e: Event, facts: seq<Fact>)
    ensures Analyse(t, [e], facts) == EventDiags(t, e, facts)
    ensures Replay(t, [e], facts) == Step(t, e, facts)
  {
    assert [e][1..] == [];
  }

  /** Whether one more fact assigns a local: the earlier ones do, or that fact does on a prefix of the path. */
  lemma AssignedSnoc(facts: seq<Fact>, f: Fact, d: nat, n: string, p: seq<nat>)
    ensures Assigned(facts + [f], d, n, p) == (Assigned(facts, d, n, p) || (f.scope == d && f.name == n && f.path <= p))
  {
    AssignedAppend(facts, [f], d, n, p);
    assert [f][1..] == [];
  }

  lemma OutFactsOne(s: nat, n: string, path: seq<nat>)
    ensures OutFacts(s, [n], path) == [Fact(s, n, path)]
  {
    assert [n][1..] == [];
  }

  lemma OutFactsCons(s: nat, n: string, ns: seq<string>, path: seq<nat>)
    ensures OutFacts(s, [n] + ns, path) == [Fact(s, n, path)] + OutFacts(s, ns, path)
  {
    assert ([n] + ns)[0] == n && ([n] + ns)[1..] == ns;
  }

  /** Event `e` declares `n` in scope `s`. */
  predicate DeclaresHere(e: Event, s: nat, n: string) {
    e.Declared? && e.scope == s && e.name == n
  }

  /** A scope's declarations are the declaration events in it, by their place in the event list. */
  lemma {:induction false} InDeclsIn(es: seq<Event>, s: nat, l: Local)
    ensures l in DeclsIn(es, s) <==> exists k :: 0 <= k < |es| && es[k].Declared? && es[k].scope == s && l == Local(es[k].name, es[k].at)
    decreases es
  {
    if es != [] {
      InDeclsIn(es[1..], s, l);
      var head := if es[0].Declared? && es[0].scope == s then [Local(es[0].name, es[0].at)] else [];
      assert DeclsIn(es, s) == head + DeclsIn(es[1..], s);
      if l in DeclsIn(es[1..], s) {
        var k :| 0 <= k < |es[1..]| && es[1..][k].Declared? && es[1..][k].scope == s && l == Local(es[1..][k].name, es[1..][k].at);
        assert es[k + 1] == es[1..][k];
      }
      if exists k :: 0 <= k < |es| && es[k].Declared? && es[k].scope == s && l == Local(es[k].name, es[k].at) {
        var k :| 0 <= k < |es| && es[k].Declared? && es[k].scope == s && l == Local(es[k].name, es[k].at);
        if k > 0 {
          assert es[1..][k - 1] == es[k];
        }
      }
    }
  }

  /** Scope `s` declares `n` exactly when some event declares it there. */
  lemma DeclaresAt(t: Tree, s: nat, n: string)
    ensures Declares(t, s, n) <==> exists k :: 0 <= k < |t.events| && DeclaresHere(t.events[k], s, n)
  {
    if Declares(t, s, n) {
      var l :| l in LocalsOf(t, s) && l.name == n;
      InDeclsIn(t.events, s, l);
    }
    if exists k :: 0 <= k < |t.events| && DeclaresHere(t.events[k], s, n) {
      var k :| 0 <= k < |t.events| && DeclaresHere(t.events[k], s, n);
      InDeclsIn(t.events, s, Local(n, t.events[k].at));
      assert n in Names(LocalsOf(t, s));
    }
  }

  /** Scope `s` declares `n` before `at` exactly when some event declares it there at an earlier position. */
  lemma DeclaresBeforeAt(t: Tree, s: nat, n: string, at: Pos)
    ensures DeclaresBefore(t, s, n, at)
        <==> exists k :: 0 <= k < |t.events| && DeclaresHere(t.events[k], s, n) && Before(t.events[k].at, at)
  {
    if DeclaresBefore(t, s, n, at) {
      var l :| l in LocalsOf(t, s) && l.name == n && Before(l.at, at);
      InDeclsIn(t.events, s, l);
    }
    if exists k :: 0 <= k < |t.events| && DeclaresHere(t.events[k], s, n) && Before(t.events[k].at, at) {
      var k :| 0 <= k < |t.events| && DeclaresHere(t.events[k], s, n) && Before(t.events[k].at, at);
      InDeclsIn(t.events, s, Local(n, t.events[k].at));
    }
  }

  /** Scope `s` declares `n` exactly when the event list holds a declaration of `n` in `s`. */
  lemma DeclaresIn(t: Tree, s: nat, n: string)
    ensures Declares(t, s, n) <==> exists at, m, path :: Declared(s, n, at, m, path) in t.events
  {
    DeclaresAt(t, s, n);
    if exists k :: 0 <= k < |t.events| && DeclaresHere(t.events[k], s, n) {
      var k :| 0 <= k < |t.events| && DeclaresHere(t.events[k], s, n);
      var e := t.events[k];
      assert Declared(s, n, e.at, e.mode, e.path) in t.events;
    }
    if exists at, m, path :: Declared(s, n, at, m, path) in t.events {
      var at, m, path :| Declared(s, n, at, m, path) in t.events;
      var k :| 0 <= k < |t.events| && t.events[k] == Declared(s, n, at, m, path);
      assert DeclaresHere(t.events[k], s, n);
    }
  }

  /** Scope `s` declares `n` before `at` exactly when the event list holds such a declaration. */
  lemma DeclaresBeforeIn(t: Tree, s: nat, n: string, at: Pos)
    ensures DeclaresBefore(t, s, n, at) <==> exists p, m, path :: Declared(s, n, p, m, path) in t.events && Before(p, at)
  {
    DeclaresBeforeAt(t, s, n, at);
    if exists k :: 0 <= k < |t.events| && DeclaresHere(t.events[k], s, n) && Before(t.events[k].at, at) {
      var k :| 0 <= k < |t.events| && DeclaresHere(t.events[k], s, n) && Before(t.events[k].at, at);
      var e := t.events[k];
      assert Declared(s, n, e.at, e.mode, e.path) in t.events;
    }
    if exists p, m, path :: Declared(s, n, p, m, path) in t.events && Before(p, at) {
      var p, m, path :| Declared(s, n, p, m, path) in t.events && Before(p, at);
      var k :| 0 <= k < |t.events| && t.events[k] == Declared(s, n, p, m, path);
      assert DeclaresHere(t.events[k], s, n) && Before(t.events[k].at, at);
    }
  }

  /** A local is assigned on a path exactly when the facts hold one for it on a prefix of the path. */
  lemma AssignedOn(facts: seq<Fact>, d: nat, n: string, p: seq<nat>)
    ensures Assigned(facts, d, n, p) <==> exists q :: Fact(d, n, q) in facts && q <= p
  {
    AssignedIn(facts, d, n, p);
    if exists k :: 0 <= k < |facts| && facts[k].scope == d && facts[k].name == n && facts[k].path <= p {
      var k :| 0 <= k < |facts| && facts[k].scope == d && facts[k].name == n && facts[k].path <= p;
      assert Fact(d, n, facts[k].path) == facts[k];
    }
    if exists q :: Fact(d, n, q) in facts && q <= p {
      var q :| Fact(d, n, q) in facts && q <= p;
      var k :| 0 <= k < |facts| && facts[k] == Fact(d, n, q);
    }
  }

  /** A local is assigned on a path exactly when some fact assigns it on a prefix of that path. */
  lemma {:induction false} AssignedIn(facts: seq<Fact>, d: nat, n: string, p: seq<nat>)
    ensures Assigned(facts, d, n, p)
        <==> exists k :: 0 <= k < |facts| && facts[k].scope == d && facts[k].name == n && facts[k].path <= p
    decreases facts
  {
    if facts != [] {
      AssignedIn(facts[1..], d, n, p);
      if Assigned(facts[1..], d, n, p) {
        var k :| 0 <= k < |facts[1..]| && facts[1..][k].scope == d && facts[1..][k].name == n && facts[1..][k].path <= p;
        assert facts[k + 1] == facts[1..][k];
      }
      if exists k :: 0 <= k < |facts| && facts[k].scope == d && facts[k].name == n && facts[k].path <= p {
        var k :| 0 <= k < |facts| && facts[k].scope == d && facts[k].name == n && facts[k].path <= p;
        if k > 0 {
          assert facts[1..][k - 1] == facts[k];
        }
      }
    }
  }

  /** The diagnostics of a list of events, one list per event, joined in order. */
  lemma AnalyseByStep(t: Tree, es: seq<Event>, e: Event, f0: seq<Fact>, f: seq<Fact>, f1: seq<Fact>, d0: seq<Diag>, d: seq<Diag>, d1: seq<Diag>)
    requires d0 + Analyse(t, es, f0) == d && Replay(t, es, f0) == f
    requires d + EventDiags(t, e, f) == d1 && Step(t, e, f) == f1
    ensures d0 + Analyse(t, es + [e], f0) == d1 && Replay(t, es + [e], f0) == f1
  {
    AnalyseSnoc(t, es, e, f0);
    Assoc(d0, Analyse(t, es, f0), EventDiags(t, e, f));
  }

  lemma Assoc(a: seq<Diag>, b: seq<Diag>, c: seq<Diag>)
    ensures a + (b + c) == (a + b) + c
  {
  }

  /** The scopes of `t` are `ss`, scope for scope; a fact about one scope is drawn only where `ss[x]` is asked for. */
  predicate ScopesAre(t: Tree, ss: seq<Scope>) {
    |t.scopes| == |ss| && forall x {:trigger ss[x]} :: 0 <= x < |ss| ==> t.scopes[x] == ss[x]
  }

  /** Appending nothing leaves a list of locals as it was. */
  lemma AppendNil(ls: seq<Local>)
    ensures ls + [] == ls
  {
  }

  /** Appending nothing leaves a list of assignments as it was. */
  lemma FactsNil(fs: seq<Fact>)
    ensures fs + [] == fs
  {
  }

  /**
   * The analysis of a list of events, given for each event the assignments
   * known before it (`fs(k)`) and the diagnostics reported before it (`ds(k)`).
   */
  lemma {:induction false} AnalyseBy(t: Tree, es: seq<Event>, fs: nat -> seq<Fact>, ds: nat -> seq<Diag>)
    requires forall k {:trigger es[k]} :: 0 <= k < |es| ==> ds(k) + EventDiags(t, es[k], fs(k)) == ds(k + 1) && Step(t, es[k], fs(k)) == fs(k + 1)
    ensures ds(0) + Analyse(t, es, fs(0)) == ds(|es|)
    ensures Replay(t, es, fs(0)) == fs(|es|)
    decreases |es|
  {
    if es == [] {
      assert ds(0) + [] == ds(0);
    } else {
      var n := |es| - 1;
      var es' := es[..n];
      forall k | 0 <= k < |es'|
        ensures ds(k) + EventDiags(t, es'[k], fs(k)) == ds(k + 1) && Step(t, es'[k], fs(k)) == fs(k + 1)
      {
        assert es'[k] == es[k];
      }
      AnalyseBy(t, es', fs, ds);
      AnalyseByStep(t, es', es[n], fs(0), fs(n), fs(n + 1), ds(0), ds(n), ds(n + 1));
      assert es == es' + [es[n]];
    }
  }

  /** A unit's diagnostics, from the assignments known and the diagnostics reported before each of its events. */
  lemma CheckBy(unit: seq<Fragment>, fs: nat -> seq<Fact>, ds: nat -> seq<Diag>)
    requires fs(0) == [] && ds(0) == []
    requires forall k :: 0 <= k < |Build(unit).events| ==>
      ds(k) + EventDiags(Build(unit), Build(unit).events[k], fs(k)) == ds(k + 1)
      && Step(Build(unit), Build(unit).events[k], fs(k)) == fs(k + 1)
    ensures Check(unit) == ds(|Build(unit).events|)
  {
    AnalyseBy(Build(unit), Build(unit).events, fs, ds);
    assert [] + Check(unit) == Check(unit);
  }
}

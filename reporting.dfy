/**
 * How the diagnostics of a tree relate to its events: every event's diagnostics
 * are reported, each reported diagnostic comes from one event, and the
 * definite-assignment facts an event sees are those its predecessors produced.
 */
module Reporting {
  import opened Syntax
  import opened Scopes
  import opened Binding
  import opened Frames

  /** The assignments known after the events `es`, starting from `facts`. */
  function Replay(t: Tree, es: seq<Event>, facts: seq<Fact>): seq<Fact>
    decreases es
  {
    if es == [] then facts else Replay(t, es[1..], Step(t, es[0], facts))
  }

  /** Analysing two stretches of events one after the other is analysing them together. */
  lemma AnalyseSplit(t: Tree, a: seq<Event>, b: seq<Event>, facts: seq<Fact>)
    ensures Analyse(t, a + b, facts) == Analyse(t, a, facts) + Analyse(t, b, Replay(t, a, facts))
    ensures Replay(t, a + b, facts) == Replay(t, b, Replay(t, a, facts))
  {
    DiagsSplit(t, a, b, facts);
    ReplaySplit(t, a, b, facts);
  }

  lemma {:induction false} DiagsSplit(t: Tree, a: seq<Event>, b: seq<Event>, facts: seq<Fact>)
    ensures Analyse(t, a + b, facts) == Analyse(t, a, facts) + Analyse(t, b, Replay(t, a, facts))
    decreases a
  {
    if a == [] {
      assert a + b == b;
    } else {
      assert (a + b)[0] == a[0];
      assert (a + b)[1..] == a[1..] + b;
      AnalyseCons(t, a + b, facts);
      AnalyseCons(t, a, facts);
      DiagsSplit(t, a[1..], b, Step(t, a[0], facts));
      Associate(EventDiags(t, a[0], facts), Analyse(t, a[1..], Step(t, a[0], facts)),
                Analyse(t, b, Replay(t, a, facts)));
    }
  }

  lemma AnalyseCons(t: Tree, es: seq<Event>, facts: seq<Fact>)
    requires es != []
    ensures Analyse(t, es, facts) == EventDiags(t, es[0], facts) + Analyse(t, es[1..], Step(t, es[0], facts))
    ensures Replay(t, es, facts) == Replay(t, es[1..], Step(t, es[0], facts))
  {
  }

  lemma Associate(x: seq<Diag>, y: seq<Diag>, z: seq<Diag>)
    ensures x + (y + z) == (x + y) + z
  {
  }

  lemma {:induction false} ReplaySplit(t: Tree, a: seq<Event>, b: seq<Event>, facts: seq<Fact>)
    ensures Replay(t, a + b, facts) == Replay(t, b, Replay(t, a, facts))
    decreases a
  {
    if a == [] {
      assert a + b == b;
    } else {
      assert (a + b)[0] == a[0];
      assert (a + b)[1..] == a[1..] + b;
      ReplaySplit(t, a[1..], b, Step(t, a[0], facts));
    }
  }

  /** Every diagnostic of an event is reported, given the facts its predecessors established. */
  lemma EventReported(t: Tree, es: seq<Event>, facts: seq<Fact>, k: nat, d: Diag)
    requires k < |es| && d in EventDiags(t, es[k], Replay(t, es[..k], facts))
    ensures d in Analyse(t, es, facts)
  {
    assert es == es[..k] + es[k..];
    AnalyseSplit(t, es[..k], es[k..], facts);
    assert es[k..][0] == es[k];
  }

  /** Every reported diagnostic is a diagnostic of one of the events. */
  lemma {:induction false} ReportedFrom(t: Tree, es: seq<Event>, facts: seq<Fact>, d: Diag)
    requires d in Analyse(t, es, facts)
    ensures exists k :: 0 <= k < |es| && d in EventDiags(t, es[k], Replay(t, es[..k], facts))
    decreases es
  {
    if d in EventDiags(t, es[0], facts) {
      assert es[..0] == [];
    } else {
      ReportedFrom(t, es[1..], Step(t, es[0], facts), d);
      var k :| 0 <= k < |es[1..]| && d in EventDiags(t, es[1..][k], Replay(t, es[1..][..k], Step(t, es[0], facts)));
      ReplayCons(t, es, facts, k);
    }
  }

  lemma ReplayCons(t: Tree, es: seq<Event>, facts: seq<Fact>, k: nat)
    requires k < |es| - 1
    ensures Replay(t, es[..k + 1], facts) == Replay(t, es[1..][..k], Step(t, es[0], facts))
    ensures es[1..][k] == es[k + 1]
  {
    assert es[..k + 1][0] == es[0] && es[..k + 1][1..] == es[1..][..k];
  }

  /** Each local a scope declares comes from one declaration event naming that scope. */
  lemma {:induction false} DeclEvent(es: seq<Event>, s: nat, l: Local)
    requires l in DeclsIn(es, s)
    ensures exists k :: 0 <= k < |es| && es[k].Declared? && es[k].scope == s && es[k].name == l.name && es[k].at == l.at
    decreases es
  {
    if !(es[0].Declared? && es[0].scope == s && es[0].name == l.name && es[0].at == l.at) {
      DeclEvent(es[1..], s, l);
      var k :| 0 <= k < |es[1..]| && es[1..][k].Declared? && es[1..][k].scope == s && es[1..][k].name == l.name && es[1..][k].at == l.at;
      assert es[k + 1] == es[1..][k];
    }
  }

  /** Each reference recorded in a scope comes from one reference event naming that scope. */
  lemma {:induction false} RefEvent(es: seq<Event>, s: nat, l: Local)
    requires l in RefsIn(es, s)
    ensures exists k :: 0 <= k < |es| && es[k].Referenced? && es[k].scope == s && es[k].name == l.name && es[k].at == l.at
    decreases es
  {
    if !(es[0].Referenced? && es[0].scope == s && es[0].name == l.name && es[0].at == l.at) {
      RefEvent(es[1..], s, l);
      var k :| 0 <= k < |es[1..]| && es[1..][k].Referenced? && es[1..][k].scope == s && es[1..][k].name == l.name && es[1..][k].at == l.at;
      assert es[k + 1] == es[1..][k];
    }
  }

  /** And conversely, every declaration event contributes its local to its scope. */
  lemma {:induction false} EventDecl(es: seq<Event>, k: nat)
    requires k < |es| && es[k].Declared?
    ensures Local(es[k].name, es[k].at) in DeclsIn(es, es[k].scope)
    decreases es
  {
    if k > 0 {
      EventDecl(es[1..], k - 1);
      assert es[1..][k - 1] == es[k];
    }
  }

  lemma {:induction false} EventRef(es: seq<Event>, k: nat)
    requires k < |es| && es[k].Referenced?
    ensures Local(es[k].name, es[k].at) in RefsIn(es, es[k].scope)
    decreases es
  {
    if k > 0 {
      EventRef(es[1..], k - 1);
      assert es[1..][k - 1] == es[k];
    }
  }

  /** A declaration whose check fails is reported with that check's code, at the declaration. */
  lemma DeclReported(t: Tree, s: nat, l: Local, code: Code)
    requires l in LocalsOf(t, s) && Bind(t, s, l.name, l.at) == Some(code)
    ensures Diag(code, l.name, l.at) in Analyse(t, t.events, [])
  {
    DeclEvent(t.events, s, l);
    var k :| 0 <= k < |t.events| && t.events[k].Declared? && t.events[k].scope == s
      && t.events[k].name == l.name && t.events[k].at == l.at;
    EventReported(t, t.events, [], k, Diag(code, l.name, l.at));
  }

  /** A reference that binds to nothing is reported with the reason, at the reference. */
  lemma RefReported(t: Tree, s: nat, l: Local, code: Code)
    requires l in RefsIn(t.events, s) && Resolve(t, s, l.name, l.at) == Unbound(code)
    ensures Diag(code, l.name, l.at) in Analyse(t, t.events, [])
  {
    RefEvent(t.events, s, l);
    var k :| 0 <= k < |t.events| && t.events[k].Referenced? && t.events[k].scope == s
      && t.events[k].name == l.name && t.events[k].at == l.at;
    EventReported(t, t.events, [], k, Diag(code, l.name, l.at));
  }

  /** Every declaration with no initializer is reported as unassigned where it starts. */
  lemma BareReported(t: Tree, k: nat)
    requires k < |t.events| && t.events[k].Declared? && t.events[k].mode.Bare?
    ensures Diag(Unassigned, t.events[k].name, t.events[k].mode.start) in Analyse(t, t.events, [])
  {
    EventReported(t, t.events, [], k, Diag(Unassigned, t.events[k].name, t.events[k].mode.start));
  }

  /** The diagnostics one declaration can give: its check's code, or an unassigned read where it starts. */
  lemma DeclDiagCases(t: Tree, s: nat, n: string, at: Pos, m: Mode, d: Diag)
    requires d in DeclDiags(t, s, n, at, m)
    ensures d.name == n
    ensures || (d.code in {Duplicate, Shadow} && d.at == at && Bind(t, s, n, at) == Some(d.code))
            || (d.code == Unassigned && m == Bare(d.at))
  {
    match Bind(t, s, n, at)
    case None =>
    case Some(code) =>
      assert code in {Duplicate, Shadow} by { BindCodes(t, s, n, at); }
  }

  lemma BindCodes(t: Tree, s: nat, n: string, at: Pos)
    ensures Bind(t, s, n, at).Some? ==> Bind(t, s, n, at).value in {Duplicate, Shadow}
  {
  }

  /** The diagnostics one reference can give. */
  lemma RefDiagCases(t: Tree, s: nat, n: string, at: Pos, w: bool, same: bool, path: seq<nat>, facts: seq<Fact>, d: Diag)
    requires d in RefDiags(t, s, n, at, w, same, path, facts)
    ensures d.name == n && d.at == at
    ensures || (d.code in {NotInContext, UsedBeforeDeclared} && Resolve(t, s, n, at) == Unbound(d.code))
            || (d.code == SameArgumentList && same && Resolve(t, s, n, at).Bound?)
            || (d.code == Unassigned && !w && Resolve(t, s, n, at).Bound?
                && !Assigned(facts, Resolve(t, s, n, at).scope, n, path))
  {
    ResolveCases(t, s, n, at);
  }

  /** A reported duplicate or shadow comes from a declaration whose check gives that code. */
  lemma ReportedDecl(t: Tree, d: Diag)
    requires d in Analyse(t, t.events, []) && d.code in {Duplicate, Shadow}
    ensures exists s :: Local(d.name, d.at) in LocalsOf(t, s) && Bind(t, s, d.name, d.at) == Some(d.code)
  {
    ReportedFrom(t, t.events, [], d);
    var k :| 0 <= k < |t.events| && d in EventDiags(t, t.events[k], Replay(t, t.events[..k], []));
    var e := t.events[k];
    if e.Declared? {
      DeclDiagCases(t, e.scope, e.name, e.at, e.mode, d);
      EventDecl(t.events, k);
    } else if e.Referenced? {
      RefDiagCases(t, e.scope, e.name, e.at, e.write, e.sameArgList, e.path, Replay(t, t.events[..k], []), d);
    }
  }

  /** A reported not-in-context or used-before-declared error comes from a reference that binds to nothing. */
  lemma ReportedRef(t: Tree, d: Diag)
    requires d in Analyse(t, t.events, []) && d.code in {NotInContext, UsedBeforeDeclared}
    ensures exists s :: Local(d.name, d.at) in RefsIn(t.events, s) && Resolve(t, s, d.name, d.at) == Unbound(d.code)
  {
    ReportedFrom(t, t.events, [], d);
    var k :| 0 <= k < |t.events| && d in EventDiags(t, t.events[k], Replay(t, t.events[..k], []));
    var e := t.events[k];
    if e.Declared? {
      DeclDiagCases(t, e.scope, e.name, e.at, e.mode, d);
    } else if e.Referenced? {
      RefDiagCases(t, e.scope, e.name, e.at, e.write, e.sameArgList, e.path, Replay(t, t.events[..k], []), d);
      EventRef(t.events, k);
    }
  }

  /** Event `k` of `t` is a reference to `n` at `at` made inside the argument list that declares it, and it binds. */
  ghost predicate SameListRead(t: Tree, k: int, n: string, at: Pos) {
    && 0 <= k < |t.events| && t.events[k].Referenced? && t.events[k].sameArgList
    && t.events[k].name == n && t.events[k].at == at && Resolve(t, t.events[k].scope, n, at).Bound?
  }

  /** A reported same-argument-list error comes from a bound reference made inside that argument list. */
  lemma ReportedSameList(t: Tree, d: Diag)
    requires d in Analyse(t, t.events, []) && d.code == SameArgumentList
    ensures exists k :: SameListRead(t, k, d.name, d.at)
  {
    ReportedFrom(t, t.events, [], d);
    var k :| 0 <= k < |t.events| && d in EventDiags(t, t.events[k], Replay(t, t.events[..k], []));
    var e := t.events[k];
    if e.Declared? {
      DeclDiagCases(t, e.scope, e.name, e.at, e.mode, d);
    } else if e.Referenced? {
      RefDiagCases(t, e.scope, e.name, e.at, e.write, e.sameArgList, e.path, Replay(t, t.events[..k], []), d);
      assert SameListRead(t, k, d.name, d.at);
    }
  }

  /** Event `k` of `t` declares `n` with no initializer, the declaration starting at `start`. */
  ghost predicate BareDecl(t: Tree, k: int, n: string, start: Pos) {
    0 <= k < |t.events| && t.events[k].Declared? && t.events[k].name == n && t.events[k].mode == Bare(start)
  }

  /**
   * Event `e` gives the local `n` of scope `d` a value: a declaration with an
   * initializer, an argument list passing it as a whole `out` argument (once the
   * list is evaluated), or a plain assignment through a reference that binds to it.
   */
  ghost predicate Assigns(t: Tree, e: Event, d: nat, n: string) {
    match e
    case Declared(s, m, _, mode, _) => s == d && m == n && mode.Initialized?
    case Referenced(s, m, at, w, _, _) => w && m == n && Resolve(t, s, n, at) == Bound(d)
    case OutAssigned(s, names, _) => s == d && n in names
  }

  /** One of the first `k` events of `es` assigns local `n` of scope `d` on a path that `path` extends. */
  ghost predicate AssignedBefore(t: Tree, es: seq<Event>, k: int, d: nat, n: string, path: seq<nat>) {
    exists j :: 0 <= j < k && j < |es| && Assigns(t, es[j], d, n) && es[j].path <= path
  }

  /** Event `k` of `t` reads `n` at `at`, binds, and no earlier event assigned the local on the way there. */
  ghost predicate UnassignedRead(t: Tree, k: int, n: string, at: Pos) {
    && 0 <= k < |t.events| && t.events[k].Referenced? && !t.events[k].write
    && t.events[k].name == n && t.events[k].at == at
    && match Resolve(t, t.events[k].scope, n, at)
       case Bound(s) => !AssignedBefore(t, t.events, k, s, n, t.events[k].path)
       case Unbound(_) => false
  }

  lemma {:induction false} AssignedAppend(a: seq<Fact>, b: seq<Fact>, d: nat, n: string, p: seq<nat>)
    ensures Assigned(a + b, d, n, p) == (Assigned(a, d, n, p) || Assigned(b, d, n, p))
    decreases a
  {
    if a == [] {
      assert a + b == b;
    } else {
      assert (a + b)[0] == a[0];
      assert (a + b)[1..] == a[1..] + b;
      AssignedAppend(a[1..], b, d, n, p);
    }
  }

  lemma {:induction false} AssignedOut(s: nat, names: seq<string>, path: seq<nat>, d: nat, n: string, p: seq<nat>)
    ensures Assigned(OutFacts(s, names, path), d, n, p) <==> s == d && n in names && path <= p
    decreases names
  {
    if names != [] {
      AssignedOut(s, names[1..], path, d, n, p);
      AssignedAppend([Fact(s, names[0], path)], OutFacts(s, names[1..], path), d, n, p);
      assert n in names <==> n == names[0] || n in names[1..];
    }
  }

  /** After one event, a local is assigned on a path exactly when it was before or the event assigned it on a prefix. */
  lemma AssignedStep(t: Tree, e: Event, facts: seq<Fact>, d: nat, n: string, p: seq<nat>)
    ensures Assigned(Step(t, e, facts), d, n, p) <==> Assigned(facts, d, n, p) || (Assigns(t, e, d, n) && e.path <= p)
  {
    match e
    case Declared(s, m, _, mode, path) =>
      if mode.Initialized? {
        AssignedAppend(facts, [Fact(s, m, path)], d, n, p);
      }
    case Referenced(s, m, at, w, _, path) =>
      match Resolve(t, s, m, at) {
        case Bound(x) =>
          if w {
            AssignedAppend(facts, [Fact(x, m, path)], d, n, p);
          }
        case Unbound(_) =>
      }
    case OutAssigned(s, names, path) =>
      AssignedAppend(facts, OutFacts(s, names, path), d, n, p);
      AssignedOut(s, names, path, d, n, p);
  }

  /**
   * The definite-assignment facts replayed over `es` say a local is assigned on a
   * path exactly when the starting facts do, or one of the events of `es` assigns
   * it on a prefix of that path.
   */
  lemma {:induction false} AssignedReplay(t: Tree, es: seq<Event>, facts: seq<Fact>, d: nat, n: string, p: seq<nat>)
    ensures Assigned(Replay(t, es, facts), d, n, p) <==> Assigned(facts, d, n, p) || AssignedBefore(t, es, |es|, d, n, p)
    decreases es
  {
    if es != [] {
      var f1 := Step(t, es[0], facts);
      AssignedReplay(t, es[1..], f1, d, n, p);
      AssignedStep(t, es[0], facts, d, n, p);
      if AssignedBefore(t, es[1..], |es[1..]|, d, n, p) {
        var j :| 0 <= j < |es[1..]| && j < |es[1..]| && Assigns(t, es[1..][j], d, n) && es[1..][j].path <= p;
        assert es[j + 1] == es[1..][j];
      }
      if AssignedBefore(t, es, |es|, d, n, p) {
        var j :| 0 <= j < |es| && j < |es| && Assigns(t, es[j], d, n) && es[j].path <= p;
        if j > 0 {
          assert es[1..][j - 1] == es[j];
        }
      }
    }
  }

  /** The facts an event of the tree sees say what the events before it assigned. */
  lemma AssignedAt(t: Tree, k: nat, d: nat, n: string, p: seq<nat>)
    requires k <= |t.events|
    ensures Assigned(Replay(t, t.events[..k], []), d, n, p) <==> AssignedBefore(t, t.events, k, d, n, p)
  {
    var es := t.events[..k];
    AssignedReplay(t, es, [], d, n, p);
    if AssignedBefore(t, es, |es|, d, n, p) {
      var j :| 0 <= j < |es| && j < |es| && Assigns(t, es[j], d, n) && es[j].path <= p;
      assert es[j] == t.events[j];
    }
    if AssignedBefore(t, t.events, k, d, n, p) {
      var j :| 0 <= j < k && j < |t.events| && Assigns(t, t.events[j], d, n) && t.events[j].path <= p;
      assert es[j] == t.events[j];
    }
  }

  /**
   * A reported unassigned read comes from a declaration without initializer that
   * starts there, or from a bound read of the local at that position that no
   * earlier event assigned on the way to it.
   */
  lemma ReportedUnassigned(t: Tree, d: Diag)
    requires d in Analyse(t, t.events, []) && d.code == Unassigned
    ensures (exists k :: BareDecl(t, k, d.name, d.at)) || (exists k :: UnassignedRead(t, k, d.name, d.at))
  {
    ReportedFrom(t, t.events, [], d);
    var k :| 0 <= k < |t.events| && d in EventDiags(t, t.events[k], Replay(t, t.events[..k], []));
    var e := t.events[k];
    if e.Declared? {
      DeclDiagCases(t, e.scope, e.name, e.at, e.mode, d);
      assert BareDecl(t, k, d.name, d.at);
    } else if e.Referenced? {
      RefDiagCases(t, e.scope, e.name, e.at, e.write, e.sameArgList, e.path, Replay(t, t.events[..k], []), d);
      AssignedAt(t, k, Resolve(t, e.scope, e.name, e.at).scope, d.name, e.path);
      assert UnassignedRead(t, k, d.name, d.at);
    }
  }

  /** A bound read that no earlier event assigned on the way to it is reported as unassigned, at the read. */
  lemma UnassignedReported(t: Tree, k: nat, n: string, at: Pos)
    requires UnassignedRead(t, k, n, at)
    ensures Diag(Unassigned, n, at) in Analyse(t, t.events, [])
  {
    var e := t.events[k];
    AssignedAt(t, k, Resolve(t, e.scope, n, at).scope, n, e.path);
    EventReported(t, t.events, [], k, Diag(Unassigned, n, at));
  }

  /**
   * A read that an earlier event assigned on a prefix of its path (a declaration
   * with an initializer, an `out` argument list, a plain assignment) gives no
   * unassigned-read error.
   */
  lemma AssignedReadQuiet(t: Tree, k: nat, d: nat, j: nat)
    requires k < |t.events| && t.events[k].Referenced? && !t.events[k].write
    requires Resolve(t, t.events[k].scope, t.events[k].name, t.events[k].at) == Bound(d)
    requires j < k && Assigns(t, t.events[j], d, t.events[k].name) && t.events[j].path <= t.events[k].path
    ensures Diag(Unassigned, t.events[k].name, t.events[k].at) !in EventDiags(t, t.events[k], Replay(t, t.events[..k], []))
  {
    var e := t.events[k];
    AssignedAt(t, k, d, e.name, e.path);
  }

  /**
   * The unassigned-read errors of a tree are exactly those at the start of a
   * declaration without initializer and those at a bound read that no earlier
   * event assigned on the way to it.
   */
  lemma UnassignedExact(t: Tree, n: string, at: Pos)
    ensures Diag(Unassigned, n, at) in Analyse(t, t.events, [])
      <==> (exists k :: BareDecl(t, k, n, at)) || (exists k :: UnassignedRead(t, k, n, at))
  {
    if Diag(Unassigned, n, at) in Analyse(t, t.events, []) {
      ReportedUnassigned(t, Diag(Unassigned, n, at));
    }
    if k :| BareDecl(t, k, n, at) {
      BareReported(t, k);
    }
    if k :| UnassignedRead(t, k, n, at) {
      UnassignedReported(t, k, n, at);
    }
  }

  /** A bound reference made inside the argument list that declares it is reported as a same-argument-list error. */
  lemma SameListReported(t: Tree, k: nat, n: string, at: Pos)
    requires SameListRead(t, k, n, at)
    ensures Diag(SameArgumentList, n, at) in Analyse(t, t.events, [])
  {
    EventReported(t, t.events, [], k, Diag(SameArgumentList, n, at));
  }

  /** The same-argument-list errors of a tree are exactly those at bound references inside the declaring list. */
  lemma SameListExact(t: Tree, n: string, at: Pos)
    ensures Diag(SameArgumentList, n, at) in Analyse(t, t.events, []) <==> exists k :: SameListRead(t, k, n, at)
  {
    if Diag(SameArgumentList, n, at) in Analyse(t, t.events, []) {
      ReportedSameList(t, Diag(SameArgumentList, n, at));
    }
    if k :| SameListRead(t, k, n, at) {
      SameListReported(t, k, n, at);
    }
  }

  /** The diagnostic, if any, of the check at declaration `l` of scope `s`. */
  function DeclDiag(t: Tree, s: nat, l: Local): seq<Diag> {
    match Bind(t, s, l.name, l.at)
    case None => []
    case Some(code) => [Diag(code, l.name, l.at)]
  }

  /** The diagnostic, if any, of the lookup of reference `l` in scope `s`. */
  function RefDiag(t: Tree, s: nat, l: Local): seq<Diag> {
    match Resolve(t, s, l.name, l.at)
    case Bound(_) => []
    case Unbound(code) => [Diag(code, l.name, l.at)]
  }

  /** The diagnostics the checks of declarations `ls` of scope `s` give, in order. */
  function DeclReport(t: Tree, s: nat, ls: seq<Local>): seq<Diag> {
    if ls == [] then [] else DeclDiag(t, s, ls[0]) + DeclReport(t, s, ls[1..])
  }

  /** The diagnostics the lookups of references `ls` in scope `s` give, in order. */
  function RefReport(t: Tree, s: nat, ls: seq<Local>): seq<Diag> {
    if ls == [] then [] else RefDiag(t, s, ls[0]) + RefReport(t, s, ls[1..])
  }

  /** The scope diagnostics of scope `s`: those of its declarations, then those of its references. */
  function ScopeReport(t: Tree, s: nat): seq<Diag> {
    DeclReport(t, s, LocalsOf(t, s)) + RefReport(t, s, RefsIn(t.events, s))
  }

  lemma {:induction false} InDeclReport(t: Tree, s: nat, ls: seq<Local>, d: Diag)
    ensures d in DeclReport(t, s, ls) <==> Local(d.name, d.at) in ls && Bind(t, s, d.name, d.at) == Some(d.code)
    decreases ls
  {
    if ls != [] {
      InDeclReport(t, s, ls[1..], d);
      assert ls == [ls[0]] + ls[1..];
    }
  }

  lemma {:induction false} InRefReport(t: Tree, s: nat, ls: seq<Local>, d: Diag)
    ensures d in RefReport(t, s, ls) <==> Local(d.name, d.at) in ls && Resolve(t, s, d.name, d.at) == Unbound(d.code)
    decreases ls
  {
    if ls != [] {
      InRefReport(t, s, ls[1..], d);
      assert ls == [ls[0]] + ls[1..];
    }
  }

  /** Everything a scope's report lists is among the diagnostics of the whole tree. */
  lemma ScopeReportSound(t: Tree, s: nat, d: Diag)
    requires d in ScopeReport(t, s)
    ensures d in Analyse(t, t.events, [])
  {
    InDeclReport(t, s, LocalsOf(t, s), d);
    InRefReport(t, s, RefsIn(t.events, s), d);
    if d in DeclReport(t, s, LocalsOf(t, s)) {
      DeclReported(t, s, Local(d.name, d.at), d.code);
    } else {
      RefReported(t, s, Local(d.name, d.at), d.code);
    }
  }

  /** Every duplicate, shadow, not-in-context or used-before-declared diagnostic of the tree is in some scope's report. */
  lemma ScopeReportComplete(t: Tree, d: Diag) returns (s: nat)
    requires d in Analyse(t, t.events, []) && d.code in {Duplicate, Shadow, NotInContext, UsedBeforeDeclared}
    ensures d in ScopeReport(t, s)
  {
    if d.code in {Duplicate, Shadow} {
      ReportedDecl(t, d);
      s :| Local(d.name, d.at) in LocalsOf(t, s) && Bind(t, s, d.name, d.at) == Some(d.code);
      InDeclReport(t, s, LocalsOf(t, s), d);
    } else {
      ReportedRef(t, d);
      s :| Local(d.name, d.at) in RefsIn(t.events, s) && Resolve(t, s, d.name, d.at) == Unbound(d.code);
      InRefReport(t, s, RefsIn(t.events, s), d);
    }
  }

  /** The four codes a scope report can give: those decided by the scope tree alone. */
  predicate Scoped(code: Code) {
    code.Duplicate? || code.Shadow? || code.NotInContext? || code.UsedBeforeDeclared?
  }

  /** The reports of scopes `a` up to (not including) `b`, in scope order. */
  function Reports(t: Tree, a: nat, b: nat): seq<Diag>
    decreases b - a
  {
    if a >= b then [] else ScopeReport(t, a) + Reports(t, a + 1, b)
  }

  lemma ReportsStep(t: Tree, a: nat, b: nat)
    requires a < b
    ensures Reports(t, a, b) == ScopeReport(t, a) + Reports(t, a + 1, b)
  {
  }

  lemma ReportsNone(t: Tree, a: nat)
    ensures Reports(t, a, a) == []
  {
  }

  lemma ReportsOne(t: Tree, a: nat)
    ensures Reports(t, a, a + 1) == ScopeReport(t, a)
  {
    assert Reports(t, a + 1, a + 1) == [];
  }

  /** The reports of a range of scopes are those of its two halves. */
  lemma {:induction false} ReportsSplit(t: Tree, a: nat, b: nat, c: nat)
    requires a <= b <= c
    ensures Reports(t, a, c) == Reports(t, a, b) + Reports(t, b, c)
    decreases b - a
  {
    if a < b {
      var r := ScopeReport(t, a);
      calc {
        Reports(t, a, c);
        { ReportsStep(t, a, c); }
        r + Reports(t, a + 1, c);
        { ReportsSplit(t, a + 1, b, c); }
        r + (Reports(t, a + 1, b) + Reports(t, b, c));
        { Associate(r, Reports(t, a + 1, b), Reports(t, b, c)); }
        (r + Reports(t, a + 1, b)) + Reports(t, b, c);
        { ReportsStep(t, a, b); }
        Reports(t, a, b) + Reports(t, b, c);
      }
    } else {
      ReportsNone(t, a);
      assert [] + Reports(t, b, c) == Reports(t, b, c);
    }
  }

  /** What one scope of a range reports is in the reports of the range. */
  lemma {:induction false} InReports(t: Tree, a: nat, b: nat, s: nat, d: Diag)
    requires a <= s < b && d in ScopeReport(t, s)
    ensures d in Reports(t, a, b)
    decreases b - a
  {
    ReportsStep(t, a, b);
    var r := ScopeReport(t, a);
    var rest := Reports(t, a + 1, b);
    assert Reports(t, a, b) == r + rest;
    if a < s {
      InReports(t, a + 1, b, s, d);
      assert d in rest;
    } else {
      assert d in r;
    }
  }

  /** What the reports of a range give, one scope of the range reports. */
  lemma {:induction false} FromReports(t: Tree, a: nat, b: nat, d: Diag) returns (s: nat)
    requires d in Reports(t, a, b)
    ensures a <= s < b && d in ScopeReport(t, s)
    decreases b - a
  {
    if d in ScopeReport(t, a) {
      s := a;
    } else {
      s := FromReports(t, a + 1, b, d);
    }
  }

  /** A scope report gives only the four scope codes. */
  lemma {:induction false} ScopeReportScoped(t: Tree, s: nat, d: Diag)
    requires d in ScopeReport(t, s)
    ensures Scoped(d.code)
  {
    InDeclReport(t, s, LocalsOf(t, s), d);
    InRefReport(t, s, RefsIn(t.events, s), d);
    if d in DeclReport(t, s, LocalsOf(t, s)) {
      assert Bind(t, s, d.name, d.at) == Some(d.code);
    } else {
      assert Resolve(t, s, d.name, d.at) == Unbound(d.code);
    }
  }

  /**
   * In a well-formed tree, the diagnostics with the four scope codes are exactly
   * those the reports of its scopes give.
   */
  lemma {:induction false} ReportsExact(t: Tree, d: Diag)
    requires Wf(t)
    ensures (d in Analyse(t, t.events, []) && Scoped(d.code)) <==> d in Reports(t, 0, |t.scopes|)
  {
    if d in Analyse(t, t.events, []) && Scoped(d.code) {
      var s := ScopeReportComplete(t, d);
      if s < |t.scopes| {
        InReports(t, 0, |t.scopes|, s, d);
      } else {
        WfNothingIn(t, s);
        assert false;
      }
    }
    if d in Reports(t, 0, |t.scopes|) {
      var s := FromReports(t, 0, |t.scopes|, d);
      ScopeReportSound(t, s, d);
      ScopeReportScoped(t, s, d);
    }
  }
}

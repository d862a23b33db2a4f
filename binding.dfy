/**
 * Name binding over a scope tree: the checks made at each declaration (duplicate,
 * illegal shadow), the lookup made at each reference (not in context, used before
 * its declaration, used in the argument list that declares it), and a minimal
 * definite-assignment pass, all producing the diagnostics of the compiler.
 */
module Binding {
  import opened Syntax
  import opened Scopes

  datatype Code =
    | Duplicate            // CS0128: a local of that name is already defined in this scope
    | Shadow               // CS0136: the name would give a different meaning to an enclosing local
    | NotInContext         // CS0103: the name does not exist in the current context
    | UsedBeforeDeclared   // CS0841: a local used before its declaration
    | SameArgumentList     // CS8029: an `out` local used in the argument list that declares it
    | Unassigned           // CS0165: use of an unassigned local

  datatype Diag = Diag(code: Code, name: string, at: Pos)

  /** The locals scope `s` declares, in the order of their declarations. */
  function LocalsOf(t: Tree, s: nat): seq<Local> {
    DeclsIn(t.events, s)
  }

  /** Scope `s` declares `n`. */
  predicate Declares(t: Tree, s: nat, n: string) {
    n in Names(LocalsOf(t, s))
  }

  /** Scope `s` declares `n` at a position strictly before `at`. */
  predicate DeclaresBefore(t: Tree, s: nat, n: string, at: Pos) {
    exists l :: l in LocalsOf(t, s) && l.name == n && Before(l.at, at)
  }

  /** The parent of scope `s`, when it has a well-formed one. */
  function Parent(t: Tree, s: nat): (r: Option<nat>)
    ensures r.Some? ==> s < |t.scopes| && r.value < s && t.scopes[s].parent == r
  {
    if s < |t.scopes| && t.scopes[s].parent.Some? && t.scopes[s].parent.value < s
    then t.scopes[s].parent else None
  }

  /** `a` is `s` itself or one of its ancestors. */
  ghost predicate Encloses(t: Tree, a: nat, s: nat)
    decreases s
  {
    s < |t.scopes| && (a == s || (Parent(t, s).Some? && Encloses(t, a, Parent(t, s).value)))
  }

  /** `a` is a proper ancestor of `s`. */
  ghost predicate Above(t: Tree, a: nat, s: nat) {
    Parent(t, s).Some? && Encloses(t, a, Parent(t, s).value)
  }

  /** `d` is the scope nearest to `s`, walking outwards, that declares `n`. */
  ghost predicate Nearest(t: Tree, d: nat, s: nat, n: string) {
    && Encloses(t, d, s) && Declares(t, d, n)
    && forall x :: Encloses(t, x, s) && Encloses(t, d, x) && x != d ==> !Declares(t, x, n)
  }

  /** The nearest scope, starting at `s` and walking outwards, that declares `n`. */
  function Lookup(t: Tree, s: nat, n: string): Option<nat>
    decreases s
  {
    if s >= |t.scopes| then None
    else if Declares(t, s, n) then Some(s)
    else match Parent(t, s)
      case None => None
      case Some(p) => Lookup(t, p, n)
  }

  /** The check made where `n` is declared at `at` in scope `s`. */
  function Bind(t: Tree, s: nat, n: string, at: Pos): Option<Code> {
    if DeclaresBefore(t, s, n, at) then Some(Duplicate)
    else match Parent(t, s)
      case Some(p) => if Lookup(t, p, n).Some? then Some(Shadow) else None
      case None => None
  }

  /** What a reference to `n` at `at` in scope `s` denotes. */
  datatype Binding = Bound(scope: nat) | Unbound(code: Code)

  function Resolve(t: Tree, s: nat, n: string, at: Pos): Binding {
    match Lookup(t, s, n)
    case None => Unbound(NotInContext)
    case Some(d) => if DeclaresBefore(t, d, n, at) then Bound(d) else Unbound(UsedBeforeDeclared)
  }

  /** A local (scope and name) received a value on the arm path `path`. */
  datatype Fact = Fact(scope: nat, name: string, path: seq<nat>)

  /**
   * The local is definitely assigned at a point with arm path `path`: some earlier
   * assignment happened on a path every execution reaching that point has taken.
   */
  function Assigned(facts: seq<Fact>, scope: nat, n: string, path: seq<nat>): bool {
    if facts == [] then false
    else
      (facts[0].scope == scope && facts[0].name == n && facts[0].path <= path)
      || Assigned(facts[1..], scope, n, path)
  }

  function OutFacts(scope: nat, names: seq<string>, path: seq<nat>): seq<Fact> {
    if names == [] then [] else [Fact(scope, names[0], path)] + OutFacts(scope, names[1..], path)
  }

  /** The diagnostics of one declaration event. */
  function DeclDiags(t: Tree, s: nat, n: string, at: Pos, m: Mode): seq<Diag> {
    (match Bind(t, s, n, at) case None => [] case Some(code) => [Diag(code, n, at)])
      + (if m.Bare? then [Diag(Unassigned, n, m.start)] else [])
  }

  /** The diagnostics of one reference event, given the assignments made so far. */
  function RefDiags(t: Tree, s: nat, n: string, at: Pos, write: bool, sameArgList: bool,
                    path: seq<nat>, facts: seq<Fact>): seq<Diag> {
    match Resolve(t, s, n, at)
    case Unbound(code) => [Diag(code, n, at)]
    case Bound(d) =>
      (if sameArgList then [Diag(SameArgumentList, n, at)] else [])
        + (if !write && !Assigned(facts, d, n, path) then [Diag(Unassigned, n, at)] else [])
  }

  /** The assignments known after one event. */
  function Step(t: Tree, e: Event, facts: seq<Fact>): seq<Fact> {
    match e
    case Declared(s, n, _, m, path) => if m.Initialized? then facts + [Fact(s, n, path)] else facts
    case Referenced(s, n, at, w, _, path) =>
      (match Resolve(t, s, n, at)
       case Bound(d) => if w then facts + [Fact(d, n, path)] else facts
       case Unbound(_) => facts)
    case OutAssigned(s, names, path) => facts + OutFacts(s, names, path)
  }

  function EventDiags(t: Tree, e: Event, facts: seq<Fact>): seq<Diag> {
    match e
    case Declared(s, n, at, m, _) => DeclDiags(t, s, n, at, m)
    case Referenced(s, n, at, w, same, path) => RefDiags(t, s, n, at, w, same, path, facts)
    case OutAssigned(_, _, _) => []
  }

  /** The diagnostics of the events `es`, processed in evaluation order. */
  function Analyse(t: Tree, es: seq<Event>, facts: seq<Fact>): seq<Diag>
    decreases es
  {
    if es == [] then []
    else EventDiags(t, es[0], facts) + Analyse(t, es[1..], Step(t, es[0], facts))
  }

  /** All diagnostics of a compilation unit. */
  function Check(unit: seq<Fragment>): seq<Diag> {
    var t := Build(unit);
    Analyse(t, t.events, [])
  }

  /** A scope encloses only scopes numbered after it. */
  lemma {:induction false} EnclosesOrder(t: Tree, a: nat, s: nat)
    requires Encloses(t, a, s)
    ensures a <= s && s < |t.scopes|
    decreases s
  {
    if a != s {
      EnclosesOrder(t, a, Parent(t, s).value);
    }
  }

  /** Two scopes enclosing the same scope lie on one chain: one encloses the other. */
  lemma {:induction false} ChainTotal(t: Tree, a: nat, b: nat, s: nat)
    requires Encloses(t, a, s) && Encloses(t, b, s)
    ensures Encloses(t, a, b) || Encloses(t, b, a)
    decreases s
  {
    if a != s && b != s {
      ChainTotal(t, a, b, Parent(t, s).value);
    }
  }

  lemma {:induction false} EnclosesTrans(t: Tree, a: nat, b: nat, s: nat)
    requires Encloses(t, a, b) && Encloses(t, b, s)
    ensures Encloses(t, a, s)
    decreases s
  {
    if b != s {
      EnclosesTrans(t, a, b, Parent(t, s).value);
    }
  }

  /**
   * Lookup finds the nearest declaring scope on the way out from `s`, and finds
   * nothing exactly when no scope on that way declares the name.
   */
  lemma {:induction false} LookupIsNearest(t: Tree, s: nat, n: string)
    ensures Lookup(t, s, n).Some? ==> Nearest(t, Lookup(t, s, n).value, s, n)
    ensures Lookup(t, s, n).None? <==> forall a :: Encloses(t, a, s) ==> !Declares(t, a, n)
    decreases s
  {
    if s >= |t.scopes| {
    } else if Declares(t, s, n) {
      forall x | Encloses(t, x, s) && Encloses(t, s, x)
        ensures x == s
      {
        EnclosesOrder(t, x, s);
        EnclosesOrder(t, s, x);
      }
    } else if Parent(t, s).Some? {
      var p := Parent(t, s).value;
      LookupIsNearest(t, p, n);
      if Lookup(t, p, n).Some? {
        var d := Lookup(t, p, n).value;
        forall x | Encloses(t, x, s) && Encloses(t, d, x) && x != d
          ensures !Declares(t, x, n)
        {
          if x != s {
            assert Encloses(t, x, p);
          }
        }
      }
    }
  }

  /** There is at most one nearest declaring scope, and Lookup returns it. */
  lemma NearestIsLookup(t: Tree, d: nat, s: nat, n: string)
    requires Nearest(t, d, s, n)
    ensures Lookup(t, s, n) == Some(d)
  {
    LookupIsNearest(t, s, n);
    var e := Lookup(t, s, n).value;
    ChainTotal(t, d, e, s);
  }

  /**
   * The check at a declaration: a duplicate exactly when the same scope already
   * declares the name at an earlier position; otherwise an illegal shadow exactly
   * when a scope enclosing this one declares it, wherever that declaration is.
   */
  lemma BindCases(t: Tree, s: nat, n: string, at: Pos)
    ensures Bind(t, s, n, at) == Some(Duplicate) <==> DeclaresBefore(t, s, n, at)
    ensures Bind(t, s, n, at) == Some(Shadow)
      <==> !DeclaresBefore(t, s, n, at) && exists a :: Above(t, a, s) && Declares(t, a, n)
    ensures Bind(t, s, n, at) == None
      <==> !DeclaresBefore(t, s, n, at) && forall a :: Above(t, a, s) ==> !Declares(t, a, n)
  {
    if Parent(t, s).Some? {
      LookupIsNearest(t, Parent(t, s).value, n);
    }
  }

  /**
   * What a reference denotes: the nearest declaring scope when it declares the
   * name before the reference; used-before-declared when that nearest scope
   * declares it only at or after the reference; not-in-context exactly when no
   * scope on the way out declares the name.
   */
  lemma ResolveCases(t: Tree, s: nat, n: string, at: Pos)
    ensures Resolve(t, s, n, at) == Unbound(NotInContext) <==> forall a :: Encloses(t, a, s) ==> !Declares(t, a, n)
    ensures forall d :: Resolve(t, s, n, at) == Bound(d) <==> Nearest(t, d, s, n) && DeclaresBefore(t, d, n, at)
    ensures Resolve(t, s, n, at) == Unbound(UsedBeforeDeclared)
      <==> exists d :: Nearest(t, d, s, n) && !DeclaresBefore(t, d, n, at)
    ensures Resolve(t, s, n, at).Unbound? ==> Resolve(t, s, n, at).code in {NotInContext, UsedBeforeDeclared}
  {
    LookupIsNearest(t, s, n);
    forall d | Nearest(t, d, s, n) {
      NearestIsLookup(t, d, s, n);
    }
  }

  /** A name its own scope declares is never out of context there, however late the declaration. */
  lemma OwnScopeNeverNotInContext(t: Tree, s: nat, n: string, at: Pos)
    requires s < |t.scopes| && Declares(t, s, n)
    ensures Resolve(t, s, n, at) == (if DeclaresBefore(t, s, n, at) then Bound(s) else Unbound(UsedBeforeDeclared))
  {
  }
}

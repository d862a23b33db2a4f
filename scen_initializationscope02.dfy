/**
 * The tests InitializationScope_02 and InitializationScope_03 (DeclarationExpressionsTests.cs,
 * lines 5705 to 5778).
 *
 * Both programs are a `Main` that reads two locals, followed by two fragments of one partial
 * class. Each fragment declares `x` in its first instance field initializer and reads it in
 * the next two, and has a constructor with an empty body. The two tests differ only in which
 * fragment holds the fields named `x1`, `y1`, `z1` and which holds `x2`, `y2`, `z2`. Field
 * names are not part of the model, so both tests have the program below. The outcome follows
 * from the outcome of each fragment, because the diagnostics of a unit are those of its
 * fragments, in order.
 */
module ScenInitializationScope02 {
  import opened Syntax
  import opened Scopes
  import opened Binding
  import opened Reporting
  import opened Frames
  import opened Units
  import opened Traces
  import opened Fragments

  /** An argument list in which every argument reads one local. */
  function Reads(ls: seq<Local>): seq<Argument> {
    if ls == [] then [] else [Argument([Use(ls[0].name, ls[0].at, false)])] + Reads(ls[1..])
  }

  /** The events of those reads when they are evaluated in scope `s`, on no arm. */
  function ReadEvents(s: nat, ls: seq<Local>): seq<Event> {
    if ls == [] then [] else [Referenced(s, ls[0].name, ls[0].at, false, false, [])] + ReadEvents(s, ls[1..])
  }

  /** The reads of `t1` and `t2` among the arguments of `WriteLine`, program line 8. */
  function Printed(t1: string, t2: string): seq<Local> {
    [Local(t1, Pos(8, 87)), Local(t1, Pos(8, 94)), Local(t1, Pos(8, 101)),
     Local(t1, Pos(8, 108)), Local(t1, Pos(8, 115)), Local(t1, Pos(8, 122)),
     Local(t2, Pos(8, 129)), Local(t2, Pos(8, 136)), Local(t2, Pos(8, 143)),
     Local(t2, Pos(8, 150)), Local(t2, Pos(8, 157)), Local(t2, Pos(8, 164))]
  }

  /** The statements of `Main`. */
  function MainBody(t1: string, t2: string): seq<Stmt> {
    [Exprs([Declare(t1, Pos(6, 13), Initialized)])]
      + ([Exprs([Declare(t2, Pos(7, 13), Initialized)])]
      + [Exprs([Call(Reads(Printed(t1, t2)))])])
  }

  /**
   * One fragment of the partial class, its first field on program line `l`:
   * `(int x = ...)`, then `++x + 1`, then `x`, then a constructor with an empty body.
   */
  function Part(x: string, l: nat): Fragment {
    Fragment(None,
      [Field(false, [Declare(x, Pos(l, 26), Initialized)])]
        + ([Field(false, [Use(x, Pos(l + 1, 23), false)])]
        + ([Field(false, [Use(x, Pos(l + 2, 21), false)])]
        + [Constructor(None, [])])))
  }

  /** The program of both tests, its names left as parameters. */
  function Program(t1: string, t2: string, x: string): seq<Fragment> {
    MainUnit(MainBody(t1, t2)) + ([Part(x, 14)] + [Part(x, 23)])
  }

  /** Arguments that only read declare nothing `out`. */
  lemma {:induction false} ReadsNoOut(ls: seq<Local>)
    ensures OutNames(Reads(ls)) == []
    decreases ls
  {
    if ls != [] {
      var a := Argument([Use(ls[0].name, ls[0].at, false)]);
      OutNamesCons(a, Reads(ls[1..]));
      OutNamesOfOne(a.items[0]);
      assert a.items == [a.items[0]];
      ReadsNoOut(ls[1..]);
    }
  }

  /** Walking arguments that only read emits one reference per argument, in order. */
  lemma {:induction false} WalkReads(ls: seq<Local>, earlier: seq<Argument>, s: nat, t: Tree)
    requires OutNames(earlier) == []
    ensures WalkArgs(Reads(ls), earlier, Ctx(s, [], []), t) == Tree(t.scopes, t.events + ReadEvents(s, ls), t.arms)
    decreases ls
  {
    if ls == [] {
      assert t.events + [] == t.events;
    } else {
      var u := Use(ls[0].name, ls[0].at, false);
      var a := Argument([u]);
      var ev := Referenced(s, ls[0].name, ls[0].at, false, false, []);
      WalkArgsCons(a, Reads(ls[1..]), earlier, Ctx(s, [], []), t);
      WalkExprsOne(u, Ctx(s, [], [] + OutNames(earlier)), t);
      assert WalkExprs(a.items, Ctx(s, [], [] + OutNames(earlier)), t) == Emit(t, ev);
      OutNamesSnoc(earlier, a);
      OutNamesOfOne(u);
      WalkReads(ls[1..], earlier + [a], s, Emit(t, ev));
      assert t.events + [ev] + ReadEvents(s, ls[1..]) == t.events + ReadEvents(s, ls);
    }
  }

  /** References declare nothing. */
  lemma {:induction false} ReadsDeclareNothing(s: nat, ls: seq<Local>, sc: nat)
    ensures DeclsIn(ReadEvents(s, ls), sc) == []
    decreases ls
  {
    if ls != [] {
      DeclsInCons(Referenced(s, ls[0].name, ls[0].at, false, false, []), ReadEvents(s, ls[1..]), sc);
      ReadsDeclareNothing(s, ls[1..], sc);
    }
  }

  /** The first read of a list, followed by the events of the rest. */
  lemma ReadEventsHead(s: nat, ls: seq<Local>, tail: seq<Event>)
    requires ls != []
    ensures ReadEvents(s, ls) + tail == [Referenced(s, ls[0].name, ls[0].at, false, false, [])] + (ReadEvents(s, ls[1..]) + tail)
  {
  }

  /** A read of an assigned local that binds in scope `s` reports nothing and assigns nothing. */
  lemma ReadQuiet(t: Tree, s: nat, l: Local, rest: seq<Event>, fs: seq<Fact>)
    requires Resolve(t, s, l.name, l.at) == Bound(s) && Assigned(fs, s, l.name, [])
    ensures Analyse(t, [Referenced(s, l.name, l.at, false, false, [])] + rest, fs) == Analyse(t, rest, fs)
  {
    var ev := Referenced(s, l.name, l.at, false, false, []);
    assert ([ev] + rest)[0] == ev && ([ev] + rest)[1..] == rest;
    AnalyseCons(t, [ev] + rest, fs);
  }

  /** Reads of assigned locals that all bind in scope `s` report nothing and assign nothing. */
  lemma {:induction false} ReadsQuiet(t: Tree, s: nat, ls: seq<Local>, tail: seq<Event>, fs: seq<Fact>)
    requires forall l :: l in ls ==> Resolve(t, s, l.name, l.at) == Bound(s) && Assigned(fs, s, l.name, [])
    ensures Analyse(t, ReadEvents(s, ls) + tail, fs) == Analyse(t, tail, fs)
    decreases ls
  {
    if ls != [] {
      var ev := Referenced(s, ls[0].name, ls[0].at, false, false, []);
      var rest := ReadEvents(s, ls[1..]) + tail;
      ReadEventsHead(s, ls, tail);
      assert ls[0] in ls;
      ReadQuiet(t, s, ls[0], rest, fs);
      forall l | l in ls[1..]
        ensures Resolve(t, s, l.name, l.at) == Bound(s) && Assigned(fs, s, l.name, [])
      {
        assert l in ls;
      }
      ReadsQuiet(t, s, ls[1..], tail, fs);
    } else {
      assert ReadEvents(s, ls) + tail == tail;
    }
  }

  /** The scope tree of one fragment: unit, instance, static and constructor-body scopes, and three events. */
  lemma {:induction false} PartBuild(x: string, l: nat)
    ensures Build([Part(x, l)]) == Tree(
      [Scope(Unit, None), Scope(InstanceInitializers, Some(0)), Scope(StaticInitializers, Some(0)), Scope(BlockBody, Some(0))],
      [Declared(1, x, Pos(l, 26), Initialized, []),
       Referenced(1, x, Pos(l + 1, 23), false, false, []),
       Referenced(1, x, Pos(l + 2, 21), false, false, [])], 0)
  {
    var t0 := Tree([Scope(Unit, None)], [], 0);
    var t1 := Open(Open(t0, InstanceInitializers, 0), StaticInitializers, 0);
    var c := Ctx(1, [], []);
    var d := Declare(x, Pos(l, 26), Initialized);
    var u1 := Use(x, Pos(l + 1, 23), false);
    var u2 := Use(x, Pos(l + 2, 21), false);
    var ctor := [Constructor(None, [])];
    WalkFragmentsOne(Part(x, l), t0);
    WalkMembersCons(Field(false, [d]), [Field(false, [u1])] + ([Field(false, [u2])] + ctor), 1, t1);
    WalkExprsOne(d, c, t1);
    var t2 := AddDecl(t1, c, x, Pos(l, 26), Initialized);
    WalkMembersCons(Field(false, [u1]), [Field(false, [u2])] + ctor, 1, t2);
    WalkExprsOne(u1, c, t2);
    var t3 := Emit(t2, Referenced(1, x, Pos(l + 1, 23), false, false, []));
    WalkMembersCons(Field(false, [u2]), ctor, 1, t3);
    WalkExprsOne(u2, c, t3);
    var t4 := Emit(t3, Referenced(1, x, Pos(l + 2, 21), false, false, []));
    WalkMembersOne(Constructor(None, []), 1, t4);
    assert WalkMember(Constructor(None, []), 1, t4) == Open(t4, BlockBody, 0);
  }

  /** One fragment reports nothing: both reads of `x` follow its declaration in the instance initializer scope. */
  lemma {:induction false} PartQuiet(x: string, l: nat)
    ensures Check([Part(x, l)]) == []
  {
    var T := Build([Part(x, l)]);
    PartBuild(x, l);
    var d := Declared(1, x, Pos(l, 26), Initialized, []);
    var r1 := Referenced(1, x, Pos(l + 1, 23), false, false, []);
    var r2 := Referenced(1, x, Pos(l + 2, 21), false, false, []);
    assert T.events == [d] + ([r1] + [r2]);
    DeclsInCons(d, [r1] + [r2], 0);
    DeclsInCons(d, [r1] + [r2], 1);
    DeclsInCons(r1, [r2], 0);
    DeclsInCons(r1, [r2], 1);
    DeclsInOne(r2, 0);
    DeclsInOne(r2, 1);
    assert LocalsOf(T, 0) == [];
    assert LocalsOf(T, 1) == [Local(x, Pos(l, 26))];
    assert Lookup(T, 0, x) == None;
    assert Bind(T, 1, x, Pos(l, 26)) == None;
    assert Lookup(T, 1, x) == Some(1);
    assert DeclaresBefore(T, 1, x, Pos(l + 1, 23));
    assert DeclaresBefore(T, 1, x, Pos(l + 2, 21));
    var fs := [Fact(1, x, [])];
    assert Assigned(fs, 1, x, []);
    assert Step(T, d, []) == fs;
    assert EventDiags(T, d, []) == [];
    assert EventDiags(T, r1, fs) == [] && Step(T, r1, fs) == fs;
    AnalyseOne(T, r2, fs);
    assert EventDiags(T, r2, fs) == [];
    assert Analyse(T, [r1] + [r2], fs) == [];
  }

  /** The scope tree of `Main`: no statement opens a scope; the events are the two declarations, the reads and the call's end. */
  lemma {:induction false} MainWalk(t1: string, t2: string)
    ensures Build(MainUnit(MainBody(t1, t2))) == Tree(MainHead().scopes,
      [Declared(4, t1, Pos(6, 13), Initialized, [])]
        + ([Declared(4, t2, Pos(7, 13), Initialized, [])]
        + (ReadEvents(4, Printed(t1, t2)) + [OutAssigned(4, [], [])])), 0)
  {
    var c := Ctx(4, [], []);
    var h := MainHead();
    var d1 := Declare(t1, Pos(6, 13), Initialized);
    var d2 := Declare(t2, Pos(7, 13), Initialized);
    var call := Call(Reads(Printed(t1, t2)));
    MainBuild(MainBody(t1, t2));
    WalkStmtsCons(Exprs([d1]), [Exprs([d2])] + [Exprs([call])], c, h);
    WalkExprsOne(d1, c, h);
    var h1 := AddDecl(h, c, t1, Pos(6, 13), Initialized);
    WalkStmtsCons(Exprs([d2]), [Exprs([call])], c, h1);
    WalkExprsOne(d2, c, h1);
    var h2 := AddDecl(h1, c, t2, Pos(7, 13), Initialized);
    WalkStmtsOne(Exprs([call]), c, h2);
    WalkExprsOne(call, c, h2);
    WalkReads(Printed(t1, t2), [], 4, h2);
    ReadsNoOut(Printed(t1, t2));
  }

  /** The events of `Main`, in evaluation order. */
  function MainEvents(t1: string, t2: string): seq<Event> {
    [Declared(4, t1, Pos(6, 13), Initialized, [])]
      + ([Declared(4, t2, Pos(7, 13), Initialized, [])]
      + (ReadEvents(4, Printed(t1, t2)) + [OutAssigned(4, [], [])]))
  }

  /** The scopes of `Main` that a lookup from its body passes, with their locals. */
  ghost predicate MainScopes(t1: string, t2: string, T: Tree) {
    && |T.scopes| == 5
    && Parent(T, 4) == Some(3) && Parent(T, 3) == Some(0) && Parent(T, 0) == None
    && LocalsOf(T, 4) == [Local(t1, Pos(6, 13)), Local(t2, Pos(7, 13))]
    && LocalsOf(T, 3) == [] && LocalsOf(T, 0) == []
  }

  /** The scope tree of `Main`: no statement opens a scope, and the body scope holds `t1` and `t2`. */
  lemma {:induction false} MainTree(t1: string, t2: string)
    ensures Build(MainUnit(MainBody(t1, t2))).events == MainEvents(t1, t2)
    ensures MainScopes(t1, t2, Build(MainUnit(MainBody(t1, t2))))
  {
    var T := Build(MainUnit(MainBody(t1, t2)));
    MainWalk(t1, t2);
    var e1 := Declared(4, t1, Pos(6, 13), Initialized, []);
    var e2 := Declared(4, t2, Pos(7, 13), Initialized, []);
    var out := OutAssigned(4, [], []);
    var rds := ReadEvents(4, Printed(t1, t2));
    forall sc: nat
      ensures DeclsIn(rds + [out], sc) == []
    {
      DeclsInAppend(rds, [out], sc);
      ReadsDeclareNothing(4, Printed(t1, t2), sc);
      DeclsInOne(out, sc);
    }
    DeclsInCons(e1, [e2] + (rds + [out]), 4);
    DeclsInCons(e2, rds + [out], 4);
    DeclsInCons(e1, [e2] + (rds + [out]), 3);
    DeclsInCons(e2, rds + [out], 3);
    DeclsInCons(e1, [e2] + (rds + [out]), 0);
    DeclsInCons(e2, rds + [out], 0);
  }

  /** The two declarations of `Main` report nothing and assign `t1` and `t2`. */
  lemma {:induction false} MainDecls(t1: string, t2: string, T: Tree)
    requires t1 != t2 && MainScopes(t1, t2, T)
    ensures EventDiags(T, Declared(4, t1, Pos(6, 13), Initialized, []), []) == []
    ensures Step(T, Declared(4, t1, Pos(6, 13), Initialized, []), []) == [Fact(4, t1, [])]
    ensures EventDiags(T, Declared(4, t2, Pos(7, 13), Initialized, []), [Fact(4, t1, [])]) == []
    ensures Step(T, Declared(4, t2, Pos(7, 13), Initialized, []), [Fact(4, t1, [])]) == [Fact(4, t1, [])] + [Fact(4, t2, [])]
  {
    assert Lookup(T, 0, t1) == None && Lookup(T, 0, t2) == None;
    assert Lookup(T, 3, t1) == None && Lookup(T, 3, t2) == None;
    assert !DeclaresBefore(T, 4, t1, Pos(6, 13));
    assert !DeclaresBefore(T, 4, t2, Pos(7, 13));
  }

  /** Every read in the call binds to a declaration of the body scope and finds its local assigned. */
  lemma {:induction false} MainReads(t1: string, t2: string, T: Tree)
    requires MainScopes(t1, t2, T)
    ensures forall r :: r in Printed(t1, t2) ==>
      Resolve(T, 4, r.name, r.at) == Bound(4) && Assigned([Fact(4, t1, [])] + [Fact(4, t2, [])], 4, r.name, [])
  {
    var fs := [Fact(4, t1, [])] + [Fact(4, t2, [])];
    AssignedSnoc([Fact(4, t1, [])], Fact(4, t2, []), 4, t1, []);
    AssignedSnoc([Fact(4, t1, [])], Fact(4, t2, []), 4, t2, []);
    assert Local(t1, Pos(6, 13)) in LocalsOf(T, 4) && Local(t2, Pos(7, 13)) in LocalsOf(T, 4);
    forall r | r in Printed(t1, t2)
      ensures Resolve(T, 4, r.name, r.at) == Bound(4) && Assigned(fs, 4, r.name, [])
    {
      assert r.name == t1 || r.name == t2;
      assert r.at.line == 8;
      assert Lookup(T, 4, r.name) == Some(4);
      if r.name == t1 {
        assert Before(Pos(6, 13), r.at);
      } else {
        assert Before(Pos(7, 13), r.at);
      }
    }
  }

  /** The analysis of the events of `Main` in a tree with its scopes reports nothing. */
  lemma {:induction false} MainAnalysed(t1: string, t2: string, T: Tree)
    requires t1 != t2 && MainScopes(t1, t2, T)
    ensures Analyse(T, MainEvents(t1, t2), []) == []
  {
    var e1 := Declared(4, t1, Pos(6, 13), Initialized, []);
    var e2 := Declared(4, t2, Pos(7, 13), Initialized, []);
    var out := OutAssigned(4, [], []);
    var rds := ReadEvents(4, Printed(t1, t2));
    var f1 := [Fact(4, t1, [])];
    var fs := f1 + [Fact(4, t2, [])];
    MainDecls(t1, t2, T);
    MainReads(t1, t2, T);
    ReadsQuiet(T, 4, Printed(t1, t2), [out], fs);
    AnalyseOne(T, out, fs);
    var es := [e1] + ([e2] + (rds + [out]));
    assert es[0] == e1 && es[1..] == [e2] + (rds + [out]);
    assert ([e2] + (rds + [out]))[0] == e2 && ([e2] + (rds + [out]))[1..] == rds + [out];
    assert Analyse(T, [e2] + (rds + [out]), f1) == [] + Analyse(T, rds + [out], fs);
  }

  /** `Main` reports nothing: every read of `t1` and `t2` follows its declaration in the method body. */
  lemma {:induction false} MainQuietCheck(t1: string, t2: string)
    requires t1 != t2
    ensures Check(MainUnit(MainBody(t1, t2))) == []
  {
    MainTree(t1, t2);
    MainAnalysed(t1, t2, Build(MainUnit(MainBody(t1, t2))));
  }

  /**
   * The diagnostics the tests expect: none. The two fragments both declare `x`, each in
   * the scope of its own instance initializers, so neither declaration conflicts with
   * the other, and every read of `x` binds to the declaration of its own fragment.
   */
  lemma {:induction false} Outcome(t1: string, t2: string, x: string)
    requires t1 != t2
    ensures Check(Program(t1, t2, x)) == []
  {
    CheckAppend(MainUnit(MainBody(t1, t2)), [Part(x, 14)] + [Part(x, 23)]);
    CheckAppend([Part(x, 14)], [Part(x, 23)]);
    MainQuietCheck(t1, t2);
    PartQuiet(x, 14);
    PartQuiet(x, 23);
  }
}

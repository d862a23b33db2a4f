# Declaration-expression scoping and the evaluation result item

This project models two parts of the Roslyn C# compiler and debugger.

## Declaration-expression scoping

The first part is the scoping of the experimental C# *declaration expressions*: `int x = e`, `(int y)`, `out var z` and `ref int w`, written inside expressions. Its behaviour is fixed by the scenarios of `DeclarationExpressionsTests.cs`. The binder itself is not part of this model.

A program is reduced to its scoping skeleton (`syntax.dfy`):
- embedded declarations, each with a mode: initialized, `out`, or bare;
- references to locals, each marked as a plain-assignment target or not;
- argument lists, lambdas and query clauses;
- the statements and type members that decide where each of them lands: blocks, `for`, `foreach`, `while`, `do`, `using`, `fixed`, `switch`, `if`/`else`, `try`/`catch` with filters and `finally`, fields, constants, constructors with initializers, and methods, all grouped into (partial) type fragments.

`Scopes.Build` walks a compilation unit into a scope tree, an arena in which every parent precedes its child. It also records one event per declaration, per reference and per finished argument list, in evaluation order. Each event carries its *arm path*: the list of conditionally executed regions (branches, loop bodies, switch sections, the try block, catch clauses, lambdas) around it.

`Binding` then gives each event its diagnostics:
- at a declaration, `Bind` reports CS0128 (duplicate) when the same scope already declares the name earlier, and CS0136 (illegal shadow) when an enclosing scope declares it;
- at a reference, `Resolve` walks outwards with `Lookup` and reports CS0103 (not in context) or CS0841 (used before its declaration);
- CS8029 is reported for an `out` local used in the argument list that declares it;
- a minimal definite-assignment pass reports CS0165 for a bare declaration, and for a by-value read that no assignment recorded before it, on a prefix of its arm path, reaches. A declaration with an initializer is recorded as assigned at the declaration itself, before its initializer is read.

`Binding.Check` returns the diagnostics of a whole unit.

Each covered test is one module, `scen_<test>.dfy`. It writes the test's program as a term and proves that `Check` returns exactly the test's scope diagnostics. The program's local names are parameters of that module, so the result holds for any names that differ where it matters.

## The evaluation result item

The second part is `EvalResultDataItem`, the debugger's result item (`eval_result.dfy`). It models:
- the `FullName` getter, a loop that appends `", "` and each format specifier to the base name;
- the `Flags` computation of the two constructors;
- `GetFlags`, which builds a value's flags step by step.

The debugger's value is represented by the answers it gives to the item's queries.

## Model

| member | source | states |
|---|---|---|
| EvalResult.DataItem.FullName | src/ExpressionEvaluator/Core/Source/ResultProvider/Helpers/EvalResultDataItem.cs:52-66 | none exactly when there is no base name; otherwise the base name followed by ", s" for each specifier, in order |
| EvalResult.WithSpecifiersIsSuffixed | src/ExpressionEvaluator/Core/Source/ResultProvider/Helpers/EvalResultDataItem.cs:56-62 | the loop's result is the base name followed by ", s" for every specifier s, in order |
| EvalResult.BaseIsPrefix | src/ExpressionEvaluator/Core/Source/ResultProvider/Helpers/EvalResultDataItem.cs:56-62 | with no specifiers the full name is the base name; otherwise the base name is a proper prefix of it |
| EvalResult.WithSpecifiersAppend | src/ExpressionEvaluator/Core/Source/ResultProvider/Helpers/EvalResultDataItem.cs:59-62 | appending the specifiers in two runs gives the same name as appending them all at once |
| EvalResult.DataItem.Error | src/ExpressionEvaluator/Core/Source/ResultProvider/Helpers/EvalResultDataItem.cs:68-86 | the error item has kind Error and shows the message; it has no value, expansion, full name or parent; its flags are empty |
| EvalResult.DataItem.constructor | src/ExpressionEvaluator/Core/Source/ResultProvider/Helpers/EvalResultDataItem.cs:88-126 | requires a name, format specifiers, and caller flags without Expandable; stores every argument; its flags are ItemFlags of the caller's flags, the value and the expansion |
| EvalResult.ItemFlags | src/ExpressionEvaluator/Core/Source/ResultProvider/Helpers/EvalResultDataItem.cs:124 | exactly the caller's flags, the value's flags and, with an expansion, Expandable: every caller and value flag is kept, no other flag is added, and Expandable is set whenever there is an expansion and otherwise only if a flag already carried it |
| EvalResult.DataItem.GetFlags | src/ExpressionEvaluator/Core/Source/ResultProvider/Helpers/EvalResultDataItem.cs:128-153 | no flags for a missing value; otherwise exactly the value's own flags plus the derived ones |
| EvalResult.ValueFlagsBits | src/ExpressionEvaluator/Core/Source/ResultProvider/Helpers/EvalResultDataItem.cs:135-150 | Boolean exactly for a bool value, BooleanTrue exactly for a true one, RawString exactly for a non-error value with an underlying string, unless the value's own flags already carry the flag; Expandable only from the value's flags |
| EvalResult.BooleanTrueNeedsBoolean | src/ExpressionEvaluator/Core/Source/ResultProvider/Helpers/EvalResultDataItem.cs:138-145 | the item never adds BooleanTrue without Boolean |
| Binding.LookupIsNearest | Src/Compilers/CSharp/Test/Semantic/Semantics/DeclarationExpressionsTests.cs:84-88 | Lookup returns the nearest enclosing scope that declares the name; it returns none exactly when no enclosing scope declares it |
| Binding.NearestIsLookup | Src/Compilers/CSharp/Test/Semantic/Semantics/DeclarationExpressionsTests.cs:84-88 | the nearest declaring enclosing scope is what Lookup returns (the converse of LookupIsNearest) |
| Binding.BindCases | Src/Compilers/CSharp/Test/Semantic/Semantics/DeclarationExpressionsTests.cs:75-87 | a declaration is a duplicate exactly when its own scope declares the name at an earlier position; it is a shadow exactly when not, but a proper ancestor declares the name; otherwise it passes (siblings never matter) |
| Binding.ResolveCases | Src/Compilers/CSharp/Test/Semantic/Semantics/DeclarationExpressionsTests.cs:72-73 | a reference is not in context exactly when no enclosing scope declares the name; it is used before declared exactly when the nearest declaring scope declares it only later; otherwise it binds to that scope |
| Binding.OwnScopeNeverNotInContext | Src/Compilers/CSharp/Test/Semantic/Semantics/DeclarationExpressionsTests.cs:95-97 | a reference in a scope that declares the name either binds or is used before declared; it is never not in context |
| Reporting.DeclReported | Src/Compilers/CSharp/Test/Semantic/Semantics/DeclarationExpressionsTests.cs:98-109 | a local whose declaration Bind rejects is reported with that code at that position |
| Reporting.RefReported | Src/Compilers/CSharp/Test/Semantic/Semantics/DeclarationExpressionsTests.cs:95-97 | a reference Resolve rejects is reported with that code at that position |
| Reporting.ReportedDecl | Src/Compilers/CSharp/Test/Semantic/Semantics/DeclarationExpressionsTests.cs:98-109 | every reported CS0128 or CS0136 comes from a local of some scope that Bind rejects with that code |
| Reporting.ReportedRef | Src/Compilers/CSharp/Test/Semantic/Semantics/DeclarationExpressionsTests.cs:95-97 | every reported CS0103 or CS0841 comes from a reference of some scope that Resolve rejects with that code |
| Reporting.SameListExact | Src/Compilers/CSharp/Test/Semantic/Semantics/DeclarationExpressionsTests.cs:3471-3476 | CS8029 is reported for a name at a position exactly when a bound reference there lies in the argument list that declares the name |
| Reporting.UnassignedExact | Src/Compilers/CSharp/Test/Semantic/Semantics/DeclarationExpressionsTests.cs:2223-2255 | CS0165 is reported at a position exactly when a bare declaration starts there, or when a bound by-value read there has no assignment before it on a prefix of its arm path |
| Reporting.AssignedReadQuiet | Src/Compilers/CSharp/Test/Semantic/Semantics/DeclarationExpressionsTests.cs:2176-2190 | a read that an earlier initializer, out argument or assignment reaches along its arm path is never reported as CS0165 |
| Reporting.BareReported | Src/Compilers/CSharp/Test/Semantic/Semantics/DeclarationExpressionsTests.cs:2223-2255 | every bare declaration is reported as CS0165 at its start |
| Reporting.ReportsExact | Src/Compilers/CSharp/Test/Semantic/Semantics/DeclarationExpressionsTests.cs:94-116 | the scope diagnostics (CS0128, CS0136, CS0103, CS0841) that Analyse reports are exactly those the per-scope reports collect |
| Units.UnitReports | Src/Compilers/CSharp/Test/Semantic/Semantics/DeclarationExpressionsTests.cs:94-116 | the same, for the whole unit that Build produces |
| Units.MainBuild | Src/Compilers/CSharp/Test/Semantic/Semantics/DeclarationExpressionsTests.cs:44-51 | a unit made of one method is the walk of the method's statements below the unit, initializer and method scopes |
| Units.MainPlaced | Src/Compilers/CSharp/Test/Semantic/Semantics/DeclarationExpressionsTests.cs:44-51 | the method body is one scope below the method's scope, and it holds the locals of all its statements, including those declared inside ordinary statements |
| Units.MainOutside | Src/Compilers/CSharp/Test/Semantic/Semantics/DeclarationExpressionsTests.cs:44-51 | nothing above the method body declares a local |
| Shapes.BlockShape | Src/Compilers/CSharp/Test/Semantic/Semantics/DeclarationExpressionsTests.cs:124-130 | a block is one new scope, a child of the current one, holding exactly its statements' locals and references |
| Shapes.ForShape | Src/Compilers/CSharp/Test/Semantic/Semantics/DeclarationExpressionsTests.cs:440-450 | a for statement's initializer is one scope; condition and increment share a second scope, a child of the first; the body's scope is a child of the second |
| Shapes.ForEachShape | Src/Compilers/CSharp/Test/Semantic/Semantics/DeclarationExpressionsTests.cs:1370-1376 | the collection's scope encloses the loop variable's scope, which encloses the body's scope |
| Shapes.UsingShape | Src/Compilers/CSharp/Test/Semantic/Semantics/DeclarationExpressionsTests.cs:908-912 | the resource and the declarations in its initializer share one scope, which encloses the body's scope |
| Shapes.FixedShape | Src/Compilers/CSharp/Test/Semantic/Semantics/DeclarationExpressionsTests.cs:1064-1068 | the pointer declaration and its initializer's declarations share one scope, which encloses the body's scope |
| Shapes.WhileShape | Src/Compilers/CSharp/Test/Semantic/Semantics/DeclarationExpressionsTests.cs:1722-1746 | the condition's scope encloses the body's scope |
| Shapes.DoShape | Src/Compilers/CSharp/Test/Semantic/Semantics/DeclarationExpressionsTests.cs:1722-1746 | the condition's scope encloses the body's scope, although the body is walked first |
| Shapes.SwitchShape | Src/Compilers/CSharp/Test/Semantic/Semantics/DeclarationExpressionsTests.cs:1156-1164 | the governing expression's scope encloses one scope shared by all sections |
| Shapes.IfShape | Src/Compilers/CSharp/Test/Semantic/Semantics/DeclarationExpressionsTests.cs:1982-1987 | the condition's scope encloses the then and the else branch, as two sibling scopes |
| Shapes.CatchShape | Src/Compilers/CSharp/Test/Semantic/Semantics/DeclarationExpressionsTests.cs:3905-3909 | a catch clause's variable and filter share one scope, which encloses the block's scope |
| Shapes.CatchesShape | Src/Compilers/CSharp/Test/Semantic/Semantics/DeclarationExpressionsTests.cs:3680-3688 | every catch clause of a try statement gets its own scopes, each a child of the statement's scope |
| Shapes.TryShape | Src/Compilers/CSharp/Test/Semantic/Semantics/DeclarationExpressionsTests.cs:3680-3688 | the try block is a scope of its own, and the finally block is a sibling of it |
| Shapes.LambdaShape | Src/Compilers/CSharp/Test/Semantic/Semantics/DeclarationExpressionsTests.cs:4540-4549 | a lambda's parameters and body locals are in its own scope, a child of the current one |
| Shapes.QueryShape | Src/Compilers/CSharp/Test/Semantic/Semantics/DeclarationExpressionsTests.cs:4604-4611 | the first query clause's scope, a child of the current one, holds the range variable and the clause's locals; the source's locals stay in the enclosing scope |
| Shapes.ClosedAvoids | Src/Compilers/CSharp/Test/Semantic/Semantics/DeclarationExpressionsTests.cs:443-444 | no scope a finished statement opened encloses a scope outside it, so the statement's own locals are not in context after it |
| Placement.UnseenLookup | Src/Compilers/CSharp/Test/Semantic/Semantics/DeclarationExpressionsTests.cs:443-444 | from a scope outside a placed statement, lookup never finds a scope the statement opened, so its locals are unseen after it |
| Placement.ForPlaced | Src/Compilers/CSharp/Test/Semantic/Semantics/DeclarationExpressionsTests.cs:440-450 | the for shape holds in the final tree of the whole unit, not only right after the statement |
| Fragments.CheckAppend | Src/Compilers/CSharp/Test/Semantic/Semantics/DeclarationExpressionsTests.cs:5719-5741 | the diagnostics of a unit are those of its first fragments followed by those of the rest |
| Fragments.CheckSwap | Src/Compilers/CSharp/Test/Semantic/Semantics/DeclarationExpressionsTests.cs:5719-5741 | swapping two partial fragments reports the same diagnostics (the same multiset) |
| Fragments.CheckPermutation | Src/Compilers/CSharp/Test/Semantic/Semantics/DeclarationExpressionsTests.cs:5719-5741 | reordering a unit's fragments in any way reports the same multiset of diagnostics |
| Fragments.InitializerScopes | Src/Compilers/CSharp/Test/Semantic/Semantics/DeclarationExpressionsTests.cs:5979-5991 | a fragment's instance and static initializer scopes are two children of the unit, and neither encloses the other's scopes |
| Fragments.CtorBodyScope | Src/Compilers/CSharp/Test/Semantic/Semantics/DeclarationExpressionsTests.cs:7369-7379 | the body of a constructor without an initializer is enclosed only by itself and the unit, never by an initializer scope |
| Fragments.ConstScope | Src/Compilers/CSharp/Test/Semantic/Semantics/DeclarationExpressionsTests.cs:6384-6395 | a constant's initializer has a scope of its own below the unit, holding exactly the initializer's locals and references, and no field-initializer scope encloses it |
| Fragments.PrimaryBaseScope | Src/Compilers/CSharp/Test/Semantic/Semantics/DeclarationExpressionsTests.cs:6100-6119 | a primary constructor's base arguments have one scope directly below the instance-initializer scope, holding exactly the arguments' locals and references; the static-initializer scope does not enclose it |
| Fragments.CtorScopes | Src/Compilers/CSharp/Test/Semantic/Semantics/DeclarationExpressionsTests.cs:7102-7121 | the arguments of a constructor's initializer form a scope below the unit; it encloses the body, and neither sees an initializer scope |
| ScenSimple02.Outcome | Src/Compilers/CSharp/Test/Semantic/Semantics/DeclarationExpressionsTests.cs:65-117 | Check of the program of Simple_02 reports exactly these diagnostics, in this order: CS0841 i(6,9), CS0128 j(10,38), CS0128 k(13,13), CS0128 l(16,38), CS0136 m(20,42) |
| ScenFor02a.Outcome | Src/Compilers/CSharp/Test/Semantic/Semantics/DeclarationExpressionsTests.cs:435-467 | Check of the statements on program lines 6-37 of For_02 reports exactly these diagnostics, in this order: CS0165 j(8,38), CS0103 j(14,9), CS0103 k(15,9), CS0103 l(17,22), CS0841 m(19,29), CS0103 n(21,22), CS0103 o(24,29), CS0103 p(27,36), CS0103 q(30,29), CS0103 r(35,36) |
| ScenFor02b.Outcome | Src/Compilers/CSharp/Test/Semantic/Semantics/DeclarationExpressionsTests.cs:470-494 | Check of the statements on program lines 41-64 of For_02 reports exactly these diagnostics, in this order: CS0136 a1(44,27), CS0136 b1(45,27), CS0136 a2(49,34), CS0136 a3(53,41), CS0136 a4(58,42), CS0136 a5(64,42) |
| ScenFor02c.Outcome | Src/Compilers/CSharp/Test/Semantic/Semantics/DeclarationExpressionsTests.cs:497-515 | Check of the statements on program lines 68-85 of For_02 reports exactly these diagnostics, in this order: CS0128 c1(68,42), CS0136 c2(70,45), CS0136 c3(72,52), CS0136 c4(75,42), CS0136 c5(79,42), CS0136 c6(84,17) |
| ScenFor02d.Outcome | Src/Compilers/CSharp/Test/Semantic/Semantics/DeclarationExpressionsTests.cs:518-534 | Check of the statements on program lines 89-104 of For_02 reports exactly these diagnostics, in this order: CS0128 d1(89,45), CS0128 d2(91,53), CS0136 d3(94,42), CS0136 d4(98,42), CS0136 d5(103,17) |
| ScenFor02e.Outcome | Src/Compilers/CSharp/Test/Semantic/Semantics/DeclarationExpressionsTests.cs:537-556 | Check of the statements on program lines 108-126 of For_02 reports exactly these diagnostics, in this order: CS0128 e1(108,57), CS0136 e2(111,42), CS0136 e3(115,42), CS0136 e4(120,17), CS0128 f1(126,56) |
| ScenWhile02.Outcome | Src/Compilers/CSharp/Test/Semantic/Semantics/DeclarationExpressionsTests.cs:1481-1581 | Check of the program of While_02 reports exactly these diagnostics, in this order: CS0103 j(9,9), CS0103 k(10,9), CS0103 n(12,16), CS0103 q(15,20), CS0136 a1(22,21), CS0136 a2(28,42), CS0136 a3(34,42), CS0128 c1(37,42), CS0136 c2(41,42), CS0136 c3(45,42), CS0136 c4(50,17), CS0128 d1(55,58) |
| ScenDo02.Outcome | Src/Compilers/CSharp/Test/Semantic/Semantics/DeclarationExpressionsTests.cs:1717-1844 | Check of the program of Do_02 reports exactly these diagnostics, in this order: CS0103 j(10,9), CS0103 k(11,9), CS0841 n(14,38), CS0841 q(19,38), CS0103 r(27,16), CS0103 s(31,15), CS0136 a1(37,21), CS0136 a2(42,42), CS0136 a3(49,42), CS0128 c1(55,42), CS0136 c2(58,42), CS0136 c3(63,42), CS0136 c4(69,17), CS0128 d1(75,58) |
| Scenswitch01.Outcome | Src/Compilers/CSharp/Test/Semantic/Semantics/DeclarationExpressionsTests.cs:1142-1172 | Check of the program of switch_01 reports: no diagnostic at all |
| ScenDataFlow01.Outcome | Src/Compilers/CSharp/Test/Semantic/Semantics/DeclarationExpressionsTests.cs:2171-2190 | Check of the program of DataFlow_01 reports: no diagnostic at all |
| ScenDataFlow03.Outcome | Src/Compilers/CSharp/Test/Semantic/Semantics/DeclarationExpressionsTests.cs:2216-2260 | Check of the program of DataFlow_03 reports exactly these diagnostics, in this order: CS0165 y(7,19), CS0165 u(9,20), CS0165 v(10,15), CS0165 w(11,16) |
| ScenCatchFilter04.Outcome | Src/Compilers/CSharp/Test/Semantic/Semantics/DeclarationExpressionsTests.cs:3874-3990 | Check of the program of CatchFilter_04 reports exactly these diagnostics, in this order: CS0136 a1(12,58), CS0136 a2(25,42), CS0128 b1(32,59), CS0136 b2(42,42), CS0128 c1(49,78), CS0136 c2(59,42), CS0136 c3(68,17), CS0128 d1(78,65) |
| ScenOutVar41.Outcome | Src/Compilers/CSharp/Test/Semantic/Semantics/DeclarationExpressionsTests.cs:3453-3478 | Check of the program of OutVar_41 reports exactly these diagnostics, in this order: CS8029 y(6,25), CS0165 y(6,25) |
| ScenOutVar42.Outcome | Src/Compilers/CSharp/Test/Semantic/Semantics/DeclarationExpressionsTests.cs:3481-3503 | Check of the program of OutVar_42 reports exactly these diagnostics, in this order: CS0841 y(6,14) |
| ScenOutVar44.Outcome | Src/Compilers/CSharp/Test/Semantic/Semantics/DeclarationExpressionsTests.cs:3535-3564 | Check of the program of OutVar_44 reports exactly these diagnostics, in this order: CS0841 y(6,15) |
| ScenBugCodePlex422.Outcome | Src/Compilers/CSharp/Test/Semantic/Semantics/DeclarationExpressionsTests.cs:4094-4116 | Check of the program of BugCodePlex_42_2 reports exactly these diagnostics, in this order: CS0136 n7(7,40) |
| ScenInLambda03.Outcome | Src/Compilers/CSharp/Test/Semantic/Semantics/DeclarationExpressionsTests.cs:4533-4565 | Check of the program of InLambda_03 reports exactly these diagnostics, in this order: CS0103 y(9,27), CS0103 z(12,27), CS0103 w(15,27) |
| ScenInWhere02.Outcome | Src/Compilers/CSharp/Test/Semantic/Semantics/DeclarationExpressionsTests.cs:4969-4996 | Check of the program of InWhere_02 reports exactly these diagnostics, in this order: CS0103 y(10,26), CS0103 y(12,34) |
| ScenInitializationScope02.Outcome | Src/Compilers/CSharp/Test/Semantic/Semantics/DeclarationExpressionsTests.cs:5705-5741 | Check of the program of InitializationScope_02 reports: no diagnostic at all. The same holds for InitializationScope_03 (5742-5778), which only swaps the field names between the two fragments; field names are not part of the model |
| ScenInitializationScope10.Outcome | Src/Compilers/CSharp/Test/Semantic/Semantics/DeclarationExpressionsTests.cs:5967-5992 | Check of the program of InitializationScope_10 reports: no diagnostic at all |
| ScenInitializationScope12.Outcome | Src/Compilers/CSharp/Test/Semantic/Semantics/DeclarationExpressionsTests.cs:6085-6121 | Check of the program of InitializationScope_12 reports exactly these diagnostics, in this order: CS0841 x(15,30), CS0103 y(15,33) |
| ScenInitializationScope38.Outcome | Src/Compilers/CSharp/Test/Semantic/Semantics/DeclarationExpressionsTests.cs:7483-7516 | Check of the program of InitializationScope_38 reports exactly these diagnostics, in this order: CS0136 b(21,38) |

## Left out

- Tests not stated as outcome lemmas: Using_02, Fixed_02, switch_02, ForEach_02, if_02, CatchFilter_02, BugCodePlex_42_1, InLambda_04, InitializationScope_31, _32, _33 and _35. The exact-outcome proof of each of these programs is too large to verify in reasonable time. The statement forms they exercise are still covered by the Shapes, Placement and Fragments lemmas.
- InitializationScope_22 and InitializationScope_25 cannot be stated as exact outcomes. The model reports each diagnostic once per reference, but both tests list CS0103 h1(31,34) twice, because the compiler binds the initializer `(decimal)h1` of a `decimal` constant twice (DeclarationExpressionsTests.cs:6469-6471 and 6481-6483 for _22; 6694-6696 and 6706-6708 for _25). That doubled report is not reproduced.
- Constructor parameters are not modelled: `Constructor` holds only its initializer and its body, so no name is ever declared in a constructor's parameter scope. `public Test(int v){}` (DeclarationExpressionsTests.cs:5734) and `public Base(int x1, int x2){}` (7495) are written without their parameters. No covered test reads or shadows a constructor parameter.
- ScenFor02a.Outcome: this and the next four members state For_02 one part at a time. The parts share no name outside their own `for` statements: every part declares `i`, but only in a `for` initializer, whose scope no other part can see, and no part declares anything in the method body that another part uses. So the test's list is the union of theirs. No lemma proves that the whole program reports the concatenation.
- ScenFor02b.Outcome: one of the five parts of For_02, as above.
- ScenFor02c.Outcome: one of the five parts of For_02, as above.
- ScenFor02d.Outcome: one of the five parts of For_02, as above.
- ScenFor02e.Outcome: one of the five parts of For_02, as above.
- The outcome lemmas fix the order in which the analysis reports: evaluation order. Some tests list the same diagnostics in another order; For_02, for example, lists CS0165 j(8,38) last.
- Diagnostics other than the six scoping codes are not modelled. This covers CS1510 (DataFlow_03, DeclarationExpressionsTests.cs:2241-2243), CS0133 (InitializationScope tests, 7386-7391), the CS0219/CS0168 unused-variable warnings (Simple_02, DataFlow_03, CatchFilter_04), parser errors, overload resolution, types and conversions. The covered tests' outcome lemmas state their scoping diagnostics only.
- Runtime output (the expected output of CompileAndVerify), IL shape and exact message text are not modelled.
- Mode has no case for a declaration statement without an initializer whose local is assigned later (`int i; i = 0;`, DeclarationExpressionsTests.cs:1459 and 1689). Bare always reports CS0165 at the declaration. No covered test contains that form.
- Definite assignment is minimal: an assignment counts when it was recorded earlier on a prefix of the read's arm path. Short-circuit evaluation in `&&`, `||` and `?:` is ignored, as are jumps (break, return, throw) and loop back edges. A report of CS0165 does not mark the local as assigned, so every by-value read of a still unassigned local is reported, not only the first.
- The try block is an arm, like a catch clause, so an assignment inside a try block does not count after the try statement, not even after a `try`/`finally` without catch clauses (`M(int x); try { x = 1; } finally { } M(x);` reports CS0165 at the second `x`). No covered test assigns a local inside a try block and reads it after the try statement.
- A read of a local inside its own initializer is not modelled right. SimpleVar_03 (Src/Compilers/CSharp/Test/Semantic/Semantics/DeclarationExpressionsTests.cs:362-394) has `var x = 1 + x;` and `Test(var y = 1 + y);` and expects CS0841 and CS0165 at each read. The model's `Resolve` compares the read with the identifier's position, so the read binds. `Step` records the local as assigned at its declaration, before the initializer, so no CS0165 is reported either. Both diagnostics together cannot come from one reference in this model. No covered test contains such a read.
- A query has exactly one range variable, from its first `from`. A `Clause` holds only the expressions of one clause, so the variables of a second `from`, a `let`, an `into` or a `join` cannot be written. No covered test needs them. The range variable is declared again in the scope of every clause, so a range variable that clashes with an outer local would be reported once per clause, as CS0136; no covered test has such a clash.
- Columns and lines are those the tests report. They are written into the program terms by hand, not derived from the program text.
- EvalResult.DataItem.GetFlags: DkmEvaluationResultFlags is modelled as a set of flags. The three flags the item computes are named; every other bit is an `Other(bit)` member.
- EvalResult.DataItem.GetFlags: the inspection context that GetFlags receives is folded into the value's `hasUnderlyingString` answer (EvalResultDataItem.cs:128, 147). The value's type test, its host object and its error status are likewise booleans the value supplies.
- OnClose (EvalResultDataItem.cs:155-158) only releases a debugger resource and is not modelled.

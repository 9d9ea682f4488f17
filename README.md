# SharpUnit: a verified model of the run protocol

SharpUnit (`Unit.cs`) is a small in-process unit-test runner with three levels. An
`Engine` holds suites, a `Suite` holds tests, and a `Test` holds a body delegate with an
optional setup and cleanup. A process-wide registry maps each body's method to its
`Test`. The static `Assert` operations (`Pass`, `Fail`, `Fatal`, `True`, `True_Fatal`,
`False`, `False_Fatal`) find the test whose body is running and append one immutable
record to it. The fatal variants then throw `AssertFatal`. That signal stops the current
body or loop. Cleanup still runs at every level, `Test` and `Suite` re-raise the signal,
and `Engine` absorbs it and prints `FATAL`.

The model has five modules:

- `Wrappers`: `Option` and `Result`. Every exception the library throws for a wiring
  mistake is a `Failure` value.
- `Records`: the values.
  - `MethodRef` stands for a `MethodInfo`.
  - `Step` stands for one assertion call a body makes. A body is a `Body`: its method
    and its script of steps.
  - `Assertion` is the record type, `Outcome` is `Normal | FatalAbort(message)`, and
    `Event` is one piece of console output or one hook run.
  - The error tags carry the library's exact messages.
- `Semantics`: the reference semantics as functions, with the lemmas that say what they
  mean.
  - `Execute` runs one body.
  - `TestRun`, `SuiteRun` and `EngineRun` give each level's report trace and outcome.
  - `RunInOrder` is the loop over tests or suites that stops at the first fatal.
  - `Resolve` is the lookup of the running test.
- `Unit`: the library's objects as classes whose methods update fields in place.
  - `Registry` holds the static dictionary. `Context` holds the stack of running bodies
    and the assertion operations. `Console` holds the report events.
  - `Test`, `Suite` and `Engine` are the three levels.
  - The run methods are proved against the `Semantics` functions. A report is stated
    as `old(console.events) + TestRun(...)` and the like, and assertion lists as
    `RunRecords` and `Rerun`.
- `Scenarios`: concrete runs.
  - The "Math"/"addition" engine report.
  - A suite whose first test is fatal.
  - A test run twice.
  - The registry after the finaliser of a refused duplicate test, as written and
    corrected.

The C# stack walk in `Assert.GetTest` finds the first frame whose method is a registered
body. It is modelled by `Context.stack`, the tests whose bodies are running (innermost
last). `Test.Run` pushes the test just around the body call and pops it afterwards,
because only the body's method is ever registered. `GetTest` walks that stack from the
innermost end, looking each body's method up in the registry.

## Model

| member | source | states |
|---|---|---|
| Unit.Registry.constructor | Unit.cs:173 | the registry starts empty |
| Unit.Registry.Register | Unit.cs:175-178 | a method already in the table gives "Duplicate Test" with the table unchanged; otherwise exactly that entry is added and `Lookup` finds the instance |
| Unit.Registry.Unregister | Unit.cs:180-182 | as written: removes the entry under the instance's body method, whoever owns it |
| Unit.Registry.UnregisterOwn | Unit.cs:237-239 | corrected finaliser: the entry under the instance's body method is removed exactly when it is the instance's own, and the table is otherwise unchanged, so the instance is no longer registered |
| Unit.Registry.Lookup | Unit.cs:184-187 | succeeds exactly when the method is in the table, with the registered instance; otherwise fails with "Test not registered" |
| Semantics.Resolve | Unit.cs:309-317 | the lookup of the running test: the registered test of the innermost running body whose method is in the table, or "Not in test" |
| Unit.Context.Enter | Unit.cs:251 | the test is pushed as the innermost running body just before its body is called |
| Unit.Context.Leave | Unit.cs:251 | the innermost running body is popped when the body returns |
| Unit.Context.GetTest | Unit.cs:309-317 | the loop returns `Current()`, the resolution of the running bodies against the registry |
| Semantics.ResolveMeaning | Unit.cs:309-317 | resolution fails with "Not in test" exactly when no running body is registered; otherwise it yields the registered test of the innermost registered body |
| Unit.Context.AddAssert | Unit.cs:319-321 | with no running test, fails with "Not in test"; otherwise the running test's list gains exactly the record at its end |
| Unit.Context.Pass | Unit.cs:323-325 | one passing "PASS" record with the caller's file and line, or "Not in test" |
| Unit.Context.Fail | Unit.cs:327-329 | one failing record with the message, file and line, or "Not in test" |
| Unit.Context.Fatal | Unit.cs:331-334 | one failing record, then the fatal signal with the same message; with no running test, "Not in test" and no signal |
| Unit.Context.True | Unit.cs:336-339 | a passing record when `expr` holds, otherwise a failing one; never the signal |
| Unit.Context.TrueFatal | Unit.cs:341-344 | a passing record when `expr` holds; otherwise a failing record and the fatal signal |
| Unit.Context.False | Unit.cs:346-349 | a failing record when `expr` holds, otherwise a passing one; never the signal |
| Unit.Context.FalseFatal | Unit.cs:351-354 | a failing record and the fatal signal when `expr` holds; otherwise a passing record |
| Unit.Context.Perform | Unit.cs:323-354 | one scripted call appends exactly `StepRecord(s)` to the running test and ends with `StepOutcome(s)`, or fails with "Not in test" |
| Semantics.StepRecord | Unit.cs:298-303 | the record keeps the call's file and line; it passes exactly when the call's condition holds; a pass says "PASS" and a failure carries the call's message |
| Semantics.StepOutcome | Unit.cs:331-354 | a call raises the signal exactly when it is a fatal variant whose condition fails, after a failing record with the same message |
| Semantics.Execute | Unit.cs:251-252 | a body's calls run in order, each appending its record, until the first call that raises the signal |
| Semantics.ExecuteMeaning | Unit.cs:251-252 | each call that ran appended its own record, in order; a normal end means every call ran and none raised; a fatal end means the last call that ran raised it and none before it did |
| Semantics.ExecuteStopsAtFatal | Unit.cs:251-252 | after a call raises the signal, nothing after it in the body runs |
| Semantics.ExecuteComposes | Unit.cs:251 | a body that ends normally composes with what follows: the records concatenate and the later outcome wins |
| Unit.Test.constructor | Unit.cs:224-233 | the fields are set, the list is empty and the test is enabled |
| Unit.Test.New | Unit.cs:224-235 | a missing body gives "Empty Test" before the registry is touched; a body method in use gives "Duplicate Test" with the table unchanged; otherwise a fresh, enabled test with an empty list, registered under its body's method |
| Unit.Test.Passed | Unit.cs:202-210 | true exactly when every record passed, so true for no records |
| Unit.Test.ScanPassed | Unit.cs:202-210 | the early-exit scan returns the verdict `Passed()` |
| Semantics.AllPassed | Unit.cs:202-210 | the verdict scan: false at the first failing record, true when none fails |
| Semantics.AllPassedMeaning | Unit.cs:202-210 | the scan's verdict holds exactly when every record passed |
| Unit.Test.Enable | Unit.cs:216-218 | the test is enabled |
| Unit.Test.Disable | Unit.cs:220-222 | the test is disabled |
| Unit.Test.AddAssert | Unit.cs:241-243 | the record is appended at the end of the list |
| Unit.Test.Run | Unit.cs:245-267 | a disabled test changes nothing and reports nothing; an enabled one ends with exactly this run's records, reports `TestRun`, passes its outcome up and leaves the stack as it found it |
| Unit.Test.Guarded | Unit.cs:251-252 | the body runs with this test on the stack, which is restored afterwards; a caught signal becomes the outcome |
| Unit.Test.Invoke | Unit.cs:251 | the body's calls append exactly `Execute(script).records` and end with its outcome |
| Unit.Test.Report | Unit.cs:254-262 | reports the verdict over the records, then the failure log |
| Unit.Test.LogFailures | Unit.cs:256-262 | the indexed loop reports exactly `FailureLog(asserts)` |
| Semantics.TestRun | Unit.cs:245-267 | a disabled test reports nothing; an enabled one reports its header, setup, cleanup, verdict and failure log, and passes its body's outcome up |
| Semantics.FailureLog | Unit.cs:256-262 | the indexed failure lines of the failing records, in list order |
| Semantics.FailureLogMeaning | Unit.cs:256-262 | the log lists exactly the failing records, each with its 0-based index and its own record, in strictly ascending index order |
| Unit.Suite.constructor | Unit.cs:127-133 | the fields are set, there are no tests and the suite is enabled |
| Unit.Suite.Enable | Unit.cs:119-121 | the suite is enabled |
| Unit.Suite.Disable | Unit.cs:123-125 | the suite is disabled |
| Unit.Suite.AddTest | Unit.cs:141-147 | a test already present gives "Duplicate Test" with the list unchanged; otherwise it is appended and the list stays duplicate-free |
| Unit.Suite.NewTest | Unit.cs:135-139 | the errors of `Test.New` and nothing changed; otherwise the fresh registered test is appended |
| Unit.Suite.Run | Unit.cs:149-159 | reports `SuiteRun` of the suite as it was and passes its outcome up; the first tests up to and including a fatal one end with their run's records, the later ones and all tests of a disabled suite keep theirs |
| Unit.Suite.RunEnabled | Unit.cs:150-158 | an enabled suite reports its header, setup, its tests' traces in order and cleanup |
| Unit.RunEach | Unit.cs:154-155 | the test loop's report, outcome and count are those of `RunInOrder`, and each test's list is `Rerun`'s |
| Semantics.SuiteRun | Unit.cs:149-159 | a disabled suite reports nothing; an enabled one reports its header, setup, the test loop and cleanup, and passes the loop's outcome up |
| Semantics.RunInOrder | Unit.cs:154-155 | the loop over tests or suites: runs them in order, stopping after the first that raises the signal |
| Semantics.RunInOrderMeaning | Unit.cs:154-155 | a loop ends normally exactly when every item ran and ended normally; otherwise the last item it ran raised the signal and none before it did |
| Semantics.RunInOrderStopsAtFatal | Unit.cs:88-89 | once an item has raised the signal, the items after it never run |
| Semantics.RunInOrderEvents | Unit.cs:154 | every event of a loop comes from the run of an item it ran |
| Semantics.FatalFirstTestSkipsRest | Unit.cs:149-159 | a fatal first test reports its cleanup; no later test runs; the suite's cleanup runs and the signal goes up |
| Unit.Engine.constructor | Unit.cs:57-61 | the hooks are set and there are no suites |
| Unit.Engine.SetSetup | Unit.cs:63-65 | the global setup is replaced |
| Unit.Engine.SetCleanup | Unit.cs:67-69 | the global cleanup is replaced |
| Unit.Engine.AddSuite | Unit.cs:77-83 | a suite already present gives "Duplicate Suite" with the list unchanged; otherwise it is appended and the list stays duplicate-free |
| Unit.Engine.NewSuite | Unit.cs:71-75 | a fresh, enabled, empty suite with the given name and hooks is appended |
| Unit.Engine.Run | Unit.cs:85-92 | reports `EngineRun` of the suites as they were and leaves the stack as it found it |
| Unit.RunEngine | Unit.cs:85-92 | setup, the suites' traces in order, cleanup, then FATAL exactly when a suite raised the signal |
| Unit.RunSuites | Unit.cs:87-89 | the global setup, then the suite loop's report and outcome as `RunInOrder` gives them |
| Unit.Finish | Unit.cs:90-91 | the global cleanup, then FATAL exactly when the loop caught the signal |
| Semantics.EngineRun | Unit.cs:85-92 | setup, the suite loop, cleanup, and FATAL when the loop caught the signal |
| Semantics.EngineAbsorbsFatal | Unit.cs:85-92 | FATAL is reported exactly when a suite raised the signal, and then only once, as the last event |
| Semantics.TestRunHasNoEngineFatal | Unit.cs:245-267 | a test's report never contains the engine's FATAL line |
| Semantics.SuiteRunHasNoEngineFatal | Unit.cs:149-159 | a suite's report never contains the engine's FATAL line |
| Semantics.FailureLogHasOnlyLines | Unit.cs:256-262 | the failure log never contains the engine's FATAL line |
| Scenarios.VerdictOfTwo | Unit.cs:202-210 | [pass, pass] gives true and [pass, fail] gives false |
| Scenarios.AdditionRecords | Unit.cs:323-339 | a body calling `True(2 + 2 == 4)` then `Fail("bad")` leaves a PASS record and then the failing record |
| Scenarios.AdditionReport | Unit.cs:245-267 | that test reports its header, FAIL and the failure at index 1 |
| Scenarios.MathEngineReport | Unit.cs:85-92 | an engine holding only the Math suite reports the suite header, then that test's report |
| Scenarios.FatalSuiteReport | Unit.cs:149-159 | in a suite [A, B] with a fatal A, A's cleanup and report appear, B never starts, the suite's cleanup runs and the signal goes up |
| Scenarios.RunTwice | Unit.cs:249 | running an enabled test twice leaves equal lists and equal verdicts |
| Scenarios.OrphanFinaliserDropsOriginal | Unit.cs:180-182 | as written, the finaliser of a refused duplicate leaves the original test's method unregistered |
| Scenarios.OrphanFinaliserKeepsOriginal | Unit.cs:237-239 | with the corrected finaliser, the original test is still found |

## Left out

- `Component.GetFrame` (Unit.cs:30-41) is unused and walks runtime frames. It is not modelled.
- The frame walk in `Assert.GetTest` is replaced by the explicit stack of running bodies. A
  body method that is registered but called from outside `Test.Run` is therefore not seen.
- Garbage-collector timing is not modelled. The finaliser `~Test` (Unit.cs:237-239) becomes
  an explicit call. As written it calls `Test.Unregister(this)`, modelled by
  `Registry.Unregister`. `Registry.UnregisterOwn` is the corrected finaliser under
  "## Findings".
- Console text formatting is not modelled. The report is a sequence of structured events.
  - The models are: the suite header (line 152), the test header (line 248), OK/FAIL
    (line 254), the indexed failure line with `Assert.Print` (lines 259-260 and 305-307),
    and FATAL (line 91).
- The compiler-supplied caller file, line and argument text are plain parameters of each
  call.
- Setup and cleanup delegates are opaque. Each becomes one `SetupRan`/`CleanupRan` event
  and is taken not to abort or assert.
- Other exceptions add no protocol case. The code calls the hooks outside its `try`
  blocks and catches only `AssertFatal`, so any other exception from user code
  propagates without cleanup.
- The only errors a body can raise are the modelled "Not in test" and the fatal signal.
- `Unit.Test.Run`: requires an enabled test to be the registered instance for its body
  method. Without that, there are two cases, and neither is modelled.
  - If no running body's method is registered, the body's own assertions throw "Not in
    test" out of `Test.Run`. That is an unhandled exception, not part of the protocol.
  - The body's method can be registered to another test. That happens after a refused
    duplicate's finaliser frees method `M` (see "## Findings") and a later test is built
    with `M`. Then the frame walk (Unit.cs:313) finds `M` and records the original test's
    assertions into that other test. Nothing is thrown, and the original reports a
    vacuous OK over an empty list.
- `Unit.Engine.Run`: does not state what each test's assertion list holds afterwards. It
  covers only the report and the stack, because that frame condition spans every suite's
  tests. The per-test lists are stated, and proved, by `Unit.Suite.Run` for each suite.
- `LibInfo` (Unit.cs:8-18) is not modelled. The empty exception subclasses become the
  `Error` tags and the `FatalAbort` outcome.
- `Suite.Name`, `Test.Name` and the `Enabled` getters are not modelled. They are plain field
  reads.
- `Test.Run`, `Suite.Run` and `Engine.Run` catch only `AssertFatal`. Their hooks are called
  outside the `try`, so any other exception from user code skips cleanup (Unit.cs:87-90,
  153-156, 250-253). The model follows the code.
- A body can `throw new AssertFatal(...)` itself, since the constructor at Unit.cs:281 is
  public, and raise the signal without appending a record. A `Step` cannot express that:
  in the model the fatal signal always follows a failing record.

## Findings

| source | as written | input that shows it | evidently intended | confidence | as-written member | corrected member |
|---|---|---|---|---|---|---|
| Unit.cs:180-182 | `Unregister`, called from the finaliser `~Test` (Unit.cs:237-239), removes whatever entry sits under the instance's body method. A constructor that throws "Duplicate Test" (Unit.cs:234) has already built the object, so that object is finalised later. | Construct `t1` with body method `M`, then a second `Test` with the same `M`. The second constructor throws, and when that orphan is finalised `Lookup(M)` fails although `t1` is alive. | A finaliser removes only its own entry, so `t1` stays registered | not executed | Unit.Registry.Unregister, Scenarios.OrphanFinaliserDropsOriginal | Unit.Registry.UnregisterOwn, Scenarios.OrphanFinaliserKeepsOriginal |

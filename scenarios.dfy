/**
 * Concrete runs of the library: a test with one passing and one failing assertion
 * inside a one-suite engine, a fatal first test that stops its suite, a test run
 * twice, and the finaliser of a refused duplicate test.
 */
module Scenarios {
  import opened Wrappers
  import opened Records
  import opened Semantics
  import opened Unit

  const MathFile: string := "MathTests.cs"

  /** The "addition" test of a "Math" suite: `True(2 + 2 == 4)`, which passes, then `Fail("bad")`. */
  const Addition: TestView :=
    TestView("addition", true, None,
      Body(MethodRef("MathTests", "Addition"), [CallTrue(true, "2 + 2 == 4", MathFile, 10), CallFail("bad", MathFile, 11)]), None)

  /** The verdict of two records: [pass, pass] passes, [pass, fail] does not. */
  lemma VerdictOfTwo(file: string)
    ensures AllPassed([PassRecord(file, 1), PassRecord(file, 2)])
    ensures !AllPassed([PassRecord(file, 1), FailRecord("no", file, 2)])
  {
  }

  /** The records of the addition body: a PASS record for the holding condition, then the failing record. */
  lemma AdditionRecords()
    ensures Execute(Addition.body.script)
      == BodyRun([Assertion(PassMessage, MathFile, 10, true), Assertion("bad", MathFile, 11, false)], Normal)
  {
    var script := Addition.body.script;
    assert script[..1] == [script[0]];
    assert script[..1][..0] == [];
    assert Execute(script[..1]) == BodyRun([Assertion(PassMessage, MathFile, 10, true)], Normal);
  }

  /** Its report: header, FAIL, and the failing record listed under index 1. */
  lemma AdditionReport()
    ensures TestRun(Addition)
      == Trace([TestHeader("addition"), Verdict(false), FailureLine(1, Assertion("bad", MathFile, 11, false))], Normal)
  {
    AdditionRecords();
    var a := [Assertion(PassMessage, MathFile, 10, true), Assertion("bad", MathFile, 11, false)];
    assert a[..1] == [a[0]];
    assert a[..1][..0] == [];
    assert FailureLog(a[..1]) == [];
    assert !AllPassed(a) by { AllPassedMeaning(a); }
  }

  /** The engine with the Math suite alone prints the suite header and then the test's report. */
  lemma MathEngineReport()
    ensures EngineRun(None, None, [SuiteView("Math", true, None, None, [Addition])])
      == [SuiteHeader("Math"), TestHeader("addition"), Verdict(false), FailureLine(1, Assertion("bad", MathFile, 11, false))]
  {
    AdditionReport();
    var suite := SuiteView("Math", true, None, None, [Addition]);
    RunInOrderSingle(Addition, TestRun);
    RunInOrderSingle(suite, SuiteRun);
  }

  /** A test whose only call is a fatal failure, with a cleanup hook. */
  const Stop: MethodRef := MethodRef("Fixture", "Teardown")
  const Halting: TestView :=
    TestView("halting", true, None, Body(MethodRef("Fixture", "Halt"), [CallFatal("stop", MathFile, 20)]), Some(Stop))

  /**
   * A suite whose first test is fatal: that test's cleanup and report appear, the
   * second test never starts, the suite's cleanup still runs and the signal goes up.
   */
  lemma FatalSuiteReport(second: TestView, suiteClean: MethodRef)
    ensures SuiteRun(SuiteView("Fixture", true, None, Some(suiteClean), [Halting, second]))
      == Trace([SuiteHeader("Fixture"), TestHeader("halting"), CleanupRan(Stop), Verdict(false),
                FailureLine(0, Assertion("stop", MathFile, 20, false)), CleanupRan(suiteClean)],
               FatalAbort("stop"))
  {
    var script := Halting.body.script;
    assert script[..0] == [];
    var a := [Assertion("stop", MathFile, 20, false)];
    assert Execute(script) == BodyRun(a, FatalAbort("stop"));
    assert a[..0] == [];
    assert !AllPassed(a) by { AllPassedMeaning(a); }
    assert FailureLog(a) == [FailureLine(0, a[0])];
    assert TestRun(Halting).events
      == [TestHeader("halting"), CleanupRan(Stop), Verdict(false), FailureLine(0, a[0])];
    FatalFirstTestSkipsRest(SuiteView("Fixture", true, None, Some(suiteClean), [Halting, second]), Halting, [second]);
  }

  /** Running an enabled registered test twice leaves the same assertion list, so the same verdict. */
  method RunTwice(t: Test, ctx: Context, console: Console) returns (first: seq<Assertion>, second: seq<Assertion>)
    requires ctx.registry.Registers(t) && t.enabled
    modifies t`asserts, ctx`stack, console`events
    ensures first == second == Execute(t.body.script).records
    ensures AllPassed(first) == AllPassed(second)
  {
    var o := t.Run(ctx, console);
    first := t.asserts;
    o := t.Run(ctx, console);
    second := t.asserts;
  }

  /**
   * As written: the finaliser of the object a refused duplicate constructor left behind
   * removes the entry of the original test, which is then no longer found.
   */
  method OrphanFinaliserDropsOriginal(body: Body) returns (found: Result<Test, Error>)
    ensures found == Failure(NotRegistered)
  {
    var registry := new Registry();
    var created := Test.New(registry, "first", Some(body), None, None);
    var orphan := new Test("second", body, None, None);
    var refused := registry.Register(body.fingerprint, orphan);
    assert refused == Failure(DuplicateTest);
    registry.Unregister(orphan);
    found := registry.Lookup(body.fingerprint);
  }

  /** Corrected: the orphan's finaliser leaves the original test registered. */
  method OrphanFinaliserKeepsOriginal(body: Body) returns (original: Test, found: Result<Test, Error>)
    ensures found == Success(original)
  {
    var registry := new Registry();
    var created := Test.New(registry, "first", Some(body), None, None);
    original := created.value;
    var orphan := new Test("second", body, None, None);
    var refused := registry.Register(body.fingerprint, orphan);
    assert refused == Failure(DuplicateTest);
    registry.UnregisterOwn(orphan);
    found := registry.Lookup(body.fingerprint);
  }
}

/**
 * The reference semantics of the runner, on values: what one assertion call records,
 * what a test body leaves behind, what a test, a suite and the engine report, and how
 * the running test is resolved from the stack of running bodies. The classes of module
 * Unit are proved against these functions.
 */
module Semantics {
  import opened Wrappers
  import opened Records

  /** Concatenation is associative; stated once so that callers need not re-prove it by extensionality. */
  lemma AppendAssoc<T>(a: seq<T>, b: seq<T>, c: seq<T>)
    ensures (a + b) + c == a + (b + c)
  {
  }

  // ---------------------------------------------------------------------------
  // One assertion call
  // ---------------------------------------------------------------------------

  /** The record `Assert.Pass` appends. */
  function PassRecord(file: string, line: int): Assertion {
    Assertion(PassMessage, file, line, true)
  }

  /** The record `Assert.Fail` (and so `Assert.Fatal`) appends. */
  function FailRecord(message: string, file: string, line: int): Assertion {
    Assertion(message, file, line, false)
  }

  /** Whether the condition a step checks is met: the expected verdict of its record. */
  predicate Holds(s: Step) {
    match s
    case CallPass(_, _) => true
    case CallFail(_, _, _) => false
    case CallFatal(_, _, _) => false
    case CallTrue(e, _, _, _) => e
    case CallTrueFatal(e, _, _, _) => e
    case CallFalse(e, _, _, _) => !e
    case CallFalseFatal(e, _, _, _) => !e
  }

  /** Whether a step raises the fatal signal once it has recorded. */
  predicate Raises(s: Step) {
    match s
    case CallFatal(_, _, _) => true
    case CallTrueFatal(e, _, _, _) => !e
    case CallFalseFatal(e, _, _, _) => e
    case _ => false
  }

  /** The one record a step appends, chosen as the assertion operations choose between Pass and Fail. */
  function StepRecord(s: Step): (a: Assertion)
    ensures a.file == s.file && a.line == s.line
    ensures a.passed <==> Holds(s)
    ensures a.passed ==> a.what == PassMessage
    ensures !a.passed ==> !s.CallPass? && a.what == s.message
  {
    match s
    case CallPass(f, l) => PassRecord(f, l)
    case CallFail(m, f, l) => FailRecord(m, f, l)
    case CallFatal(m, f, l) => FailRecord(m, f, l)
    case CallTrue(e, m, f, l) => if e then PassRecord(f, l) else FailRecord(m, f, l)
    case CallTrueFatal(e, m, f, l) => if e then PassRecord(f, l) else FailRecord(m, f, l)
    case CallFalse(e, m, f, l) => if e then FailRecord(m, f, l) else PassRecord(f, l)
    case CallFalseFatal(e, m, f, l) => if e then FailRecord(m, f, l) else PassRecord(f, l)
  }

  /** How a step completes: a fatal step raises the signal with its message, after a failing record. */
  function StepOutcome(s: Step): (o: Outcome)
    ensures o.FatalAbort? <==> Raises(s)
    ensures o.FatalAbort? ==> !StepRecord(s).passed && o.message == StepRecord(s).what
  {
    if Raises(s) then FatalAbort(s.message) else Normal
  }

  // ---------------------------------------------------------------------------
  // A test body
  // ---------------------------------------------------------------------------

  /** What a body leaves behind: the records it appended and how it ended. */
  datatype BodyRun = BodyRun(records: seq<Assertion>, outcome: Outcome)

  /** Runs a body's calls in order, stopping after the first call that raises the fatal signal. */
  function Execute(script: seq<Step>): BodyRun {
    if script == [] then BodyRun([], Normal)
    else
      var before := Execute(script[..|script| - 1]);
      if before.outcome.FatalAbort? then before
      else
        var last := script[|script| - 1];
        BodyRun(before.records + [StepRecord(last)], StepOutcome(last))
  }

  /**
   * What a body leaves behind: each executed call appended exactly its own record, in
   * order; a normal end means every call executed and none raised; a fatal end means the
   * last executed call raised the signal, none before it did, and nothing after it executed.
   */
  lemma {:induction false} ExecuteMeaning(script: seq<Step>)
    ensures var r := Execute(script);
      && |r.records| <= |script|
      && (forall i :: 0 <= i < |r.records| ==> r.records[i] == StepRecord(script[i]))
      && (r.outcome == Normal ==> |r.records| == |script|)
      && (r.outcome == Normal ==> forall i :: 0 <= i < |script| ==> !Raises(script[i]))
      && (r.outcome.FatalAbort? ==> 0 < |r.records| && r.outcome == StepOutcome(script[|r.records| - 1]))
      && (r.outcome.FatalAbort? ==> forall i :: 0 <= i < |r.records| - 1 ==> !Raises(script[i]))
    decreases |script|
  {
    if script != [] {
      var n := |script| - 1;
      ExecuteMeaning(script[..n]);
      assert forall i :: 0 <= i < n ==> script[..n][i] == script[i];
      var before := Execute(script[..n]);
      if before.outcome == Normal {
        assert |before.records| == n;
        assert Execute(script) == BodyRun(before.records + [StepRecord(script[n])], StepOutcome(script[n]));
      }
    }
  }

  /** One more call of a body that has not raised the fatal signal. */
  lemma ExecuteStep(script: seq<Step>, i: nat)
    requires i < |script| && Execute(script[..i]).outcome == Normal
    ensures Execute(script[..i + 1]) == BodyRun(Execute(script[..i]).records + [StepRecord(script[i])], StepOutcome(script[i]))
  {
    assert script[..i + 1][..i] == script[..i];
  }

  /** A prefix that covers every call, or that has raised the fatal signal, is the whole run. */
  lemma ExecutePrefix(script: seq<Step>, i: nat)
    requires i <= |script| && (i == |script| || Execute(script[..i]).outcome.FatalAbort?)
    ensures Execute(script) == Execute(script[..i])
  {
    if i < |script| {
      ExecuteStopsAtFatal(script[..i], script[i..]);
      assert script[..i] + script[i..] == script;
    } else {
      assert script[..i] == script;
    }
  }

  /** Once a body has raised the fatal signal, whatever follows it never executes. */
  lemma {:induction false} ExecuteStopsAtFatal(s: seq<Step>, t: seq<Step>)
    requires Execute(s).outcome.FatalAbort?
    ensures Execute(s + t) == Execute(s)
    decreases |t|
  {
    if t == [] {
      assert s + t == s;
    } else {
      var t' := t[..|t| - 1];
      assert (s + t)[..|s + t| - 1] == s + t';
      ExecuteStopsAtFatal(s, t');
    }
  }

  /** A body that ends normally composes sequentially with what follows it. */
  lemma {:induction false} ExecuteComposes(s: seq<Step>, t: seq<Step>)
    requires Execute(s).outcome == Normal
    ensures Execute(s + t) == BodyRun(Execute(s).records + Execute(t).records, Execute(t).outcome)
    decreases |t|
  {
    if t == [] {
      assert s + t == s;
      assert Execute(s).records + [] == Execute(s).records;
    } else {
      var t' := t[..|t| - 1];
      assert (s + t)[..|s + t| - 1] == s + t';
      assert (s + t)[|s + t| - 1] == t[|t| - 1];
      ExecuteComposes(s, t');
      if Execute(t').outcome == Normal {
        assert Execute(s).records + (Execute(t').records + [StepRecord(t[|t| - 1])])
            == (Execute(s).records + Execute(t').records) + [StepRecord(t[|t| - 1])];
      }
    }
  }

  // ---------------------------------------------------------------------------
  // The verdict and the failure log of a test
  // ---------------------------------------------------------------------------

  /** The verdict `Test.Passed` scans for: false at the first failing record, true otherwise. */
  function AllPassed(a: seq<Assertion>): bool {
    if a == [] then true
    else if !a[0].passed then false
    else AllPassed(a[1..])
  }

  /** The verdict holds exactly when every record passed; in particular it holds for no records. */
  lemma {:induction false} AllPassedMeaning(a: seq<Assertion>)
    ensures AllPassed(a) <==> forall i :: 0 <= i < |a| ==> a[i].passed
    decreases |a|
  {
    if a != [] {
      AllPassedMeaning(a[1..]);
      assert forall i :: 1 <= i < |a| ==> a[1..][i - 1] == a[i];
    }
  }

  /** The failure lines reported after a test's verdict, one per failing record, by 0-based index. */
  function FailureLog(a: seq<Assertion>): seq<Event> {
    if a == [] then []
    else
      var n := |a| - 1;
      var before := FailureLog(a[..n]);
      if a[n].passed then before else before + [FailureLine(n, a[n])]
  }

  /**
   * The failure log lists exactly the failing records, each with its 0-based index and
   * its own origin and message, by strictly ascending index.
   */
  lemma {:induction false} FailureLogMeaning(a: seq<Assertion>)
    ensures var log := FailureLog(a);
      && (forall j :: 0 <= j < |log| ==>
            log[j].FailureLine? && log[j].index < |a| && log[j].assertion == a[log[j].index] && !a[log[j].index].passed)
      && (forall i :: 0 <= i < |a| && !a[i].passed ==> FailureLine(i, a[i]) in log)
      && (forall j, k :: 0 <= j < k < |log| ==> log[j].index < log[k].index)
    decreases |a|
  {
    if a != [] {
      var n := |a| - 1;
      FailureLogMeaning(a[..n]);
      assert forall i :: 0 <= i < n ==> a[..n][i] == a[i];
    }
  }

  // ---------------------------------------------------------------------------
  // Resolving the running test
  // ---------------------------------------------------------------------------

  /**
   * The test an assertion belongs to: walking the running bodies from the innermost
   * outwards, the registered instance for the first body method found in the table.
   */
  function Resolve<T>(frames: seq<MethodRef>, table: map<MethodRef, T>): Result<T, Error> {
    if frames == [] then Failure(NotInTest)
    else if frames[|frames| - 1] in table then Success(table[frames[|frames| - 1]])
    else Resolve(frames[..|frames| - 1], table)
  }

  /**
   * Resolution fails with "Not in test" exactly when no running body is registered, and
   * otherwise yields the entry of the innermost registered one.
   */
  lemma {:induction false} ResolveMeaning<T>(frames: seq<MethodRef>, table: map<MethodRef, T>)
    ensures var r := Resolve(frames, table);
      && (r.Failure? <==> forall i :: 0 <= i < |frames| ==> frames[i] !in table)
      && (r.Failure? ==> r.error == NotInTest)
      && (r.Success? ==> exists i :: 0 <= i < |frames| && frames[i] in table && r.value == table[frames[i]]
                                 && (forall j :: i < j < |frames| ==> frames[j] !in table))
    decreases |frames|
  {
    if frames != [] {
      var n := |frames| - 1;
      if frames[n] in table {
        assert 0 <= n < |frames| && frames[n] in table && Resolve(frames, table).value == table[frames[n]];
      } else {
        ResolveMeaning(frames[..n], table);
        assert forall i :: 0 <= i < n ==> frames[..n][i] == frames[i];
        assert Resolve(frames, table) == Resolve(frames[..n], table);
      }
    }
  }

  // ---------------------------------------------------------------------------
  // Tests, suites and the engine
  // ---------------------------------------------------------------------------

  /** What `Test.Run` depends on: the test's configuration and its enabled flag. */
  datatype TestView = TestView(name: string, enabled: bool, setup: Option<MethodRef>, body: Body, clean: Option<MethodRef>)

  /** What `Suite.Run` depends on. */
  datatype SuiteView = SuiteView(name: string, enabled: bool, setup: Option<MethodRef>, clean: Option<MethodRef>, tests: seq<TestView>)

  /** The report of one run and how it ended. */
  datatype Trace = Trace(events: seq<Event>, outcome: Outcome)

  /** The report of running a list in order, how it ended, and how many items were run. */
  datatype Sweep = Sweep(events: seq<Event>, outcome: Outcome, ran: nat)

  function SetupEvents(hook: Option<MethodRef>): seq<Event> {
    if hook.Some? then [SetupRan(hook.value)] else []
  }

  function CleanupEvents(hook: Option<MethodRef>): seq<Event> {
    if hook.Some? then [CleanupRan(hook.value)] else []
  }

  /**
   * `Test.Run`: nothing when disabled; otherwise header, setup, body, cleanup (also
   * after a fatal), verdict and failure log, and the body's outcome passed upwards.
   */
  function TestRun(t: TestView): Trace {
    if !t.enabled then Trace([], Normal)
    else
      var b := Execute(t.body.script);
      Trace([TestHeader(t.name)] + SetupEvents(t.setup) + CleanupEvents(t.clean)
              + [Verdict(AllPassed(b.records))] + FailureLog(b.records),
            b.outcome)
  }

  /** The assertion list `Test.Run` leaves: the body's records when enabled, otherwise the list it had. */
  function RunRecords(t: TestView, before: seq<Assertion>): seq<Assertion> {
    if t.enabled then Execute(t.body.script).records else before
  }

  /** The assertion lists of a list of tests after a sweep that ran the first `ran` of them. */
  function Rerun(tests: seq<TestView>, before: seq<seq<Assertion>>, ran: nat): (r: seq<seq<Assertion>>)
    requires |before| == |tests|
    ensures |r| == |tests|
  {
    if tests == [] then []
    else
      var n := |tests| - 1;
      Rerun(tests[..n], before[..n], ran) + [if n < ran then RunRecords(tests[n], before[n]) else before[n]]
  }

  /** A sweep that ran nothing leaves every list as it was. */
  lemma {:induction false} RerunNothing(tests: seq<TestView>, before: seq<seq<Assertion>>)
    requires |before| == |tests|
    ensures Rerun(tests, before, 0) == before
    decreases |tests|
  {
    if tests != [] {
      var n := |tests| - 1;
      RerunNothing(tests[..n], before[..n]);
      assert before[..n] + [before[n]] == before;
    }
  }

  /** The first `ran` tests hold what their run left, the others what they had. */
  lemma {:induction false} RerunAt(tests: seq<TestView>, before: seq<seq<Assertion>>, ran: nat, j: nat)
    requires |before| == |tests| && j < |tests|
    ensures Rerun(tests, before, ran)[j] == if j < ran then RunRecords(tests[j], before[j]) else before[j]
    decreases |tests|
  {
    var n := |tests| - 1;
    if j < n {
      RerunAt(tests[..n], before[..n], ran, j);
    }
  }

  /** Runs items in order, stopping after the first whose run raises the fatal signal. */
  function RunInOrder<T>(items: seq<T>, run: T -> Trace): Sweep {
    if items == [] then Sweep([], Normal, 0)
    else
      var before := RunInOrder(items[..|items| - 1], run);
      if before.outcome.FatalAbort? then before
      else
        var last := run(items[|items| - 1]);
        Sweep(before.events + last.events, last.outcome, |items|)
  }

  /**
   * A sweep ends normally exactly when every item ran and ended normally; otherwise the
   * last item it ran raised the signal it ends with, and none before that one did.
   */
  lemma {:induction false} RunInOrderMeaning<T>(items: seq<T>, run: T -> Trace)
    ensures var r := RunInOrder(items, run);
      && r.ran <= |items|
      && (r.outcome == Normal ==> r.ran == |items|)
      && (r.outcome == Normal ==> forall i :: 0 <= i < |items| ==> run(items[i]).outcome == Normal)
      && (r.outcome.FatalAbort? ==> 0 < r.ran && r.outcome == run(items[r.ran - 1]).outcome)
      && (r.outcome.FatalAbort? ==> forall i :: 0 <= i < r.ran - 1 ==> run(items[i]).outcome == Normal)
    decreases |items|
  {
    if items != [] {
      var n := |items| - 1;
      RunInOrderMeaning(items[..n], run);
      assert forall i :: 0 <= i < n ==> items[..n][i] == items[i];
    }
  }

  /** Once an item has raised the fatal signal, the items after it never run. */
  lemma {:induction false} RunInOrderStopsAtFatal<T>(items: seq<T>, more: seq<T>, run: T -> Trace)
    requires RunInOrder(items, run).outcome.FatalAbort?
    ensures RunInOrder(items + more, run) == RunInOrder(items, run)
    decreases |more|
  {
    if more == [] {
      assert items + more == items;
    } else {
      var more' := more[..|more| - 1];
      assert (items + more)[..|items + more| - 1] == items + more';
      RunInOrderStopsAtFatal(items, more', run);
    }
  }

  /** One more item of a sweep that has not been stopped. */
  lemma RunInOrderStep<T>(items: seq<T>, i: nat, run: T -> Trace)
    requires i < |items| && RunInOrder(items[..i], run).outcome == Normal
    ensures var before := RunInOrder(items[..i], run);
      RunInOrder(items[..i + 1], run) == Sweep(before.events + run(items[i]).events, run(items[i]).outcome, i + 1)
  {
    assert items[..i + 1][..i] == items[..i];
  }

  /** A prefix that covers every item, or that has been stopped, is the whole sweep. */
  lemma RunInOrderPrefix<T>(items: seq<T>, i: nat, run: T -> Trace)
    requires i <= |items| && (i == |items| || RunInOrder(items[..i], run).outcome.FatalAbort?)
    ensures RunInOrder(items, run) == RunInOrder(items[..i], run)
  {
    if i < |items| {
      RunInOrderStopsAtFatal(items[..i], items[i..], run);
      assert items[..i] + items[i..] == items;
    } else {
      assert items[..i] == items;
    }
  }

  /** Every event of a sweep comes from the run of one of the items it ran. */
  lemma {:induction false} RunInOrderEvents<T>(items: seq<T>, run: T -> Trace, e: Event)
    requires e in RunInOrder(items, run).events
    ensures exists i :: 0 <= i < RunInOrder(items, run).ran && i < |items| && e in run(items[i]).events
    decreases |items|
  {
    RunInOrderMeaning(items, run);
    var n := |items| - 1;
    var before := RunInOrder(items[..n], run);
    RunInOrderMeaning(items[..n], run);
    if before.outcome.FatalAbort? || e in before.events {
      RunInOrderEvents(items[..n], run, e);
      var i :| 0 <= i < before.ran && e in run(items[..n][i]).events;
      assert items[..n][i] == items[i];
    } else {
      assert e in run(items[n]).events;
    }
  }

  /** `Suite.Run`: nothing when disabled; otherwise header, setup, the tests in order, cleanup. */
  function SuiteRun(s: SuiteView): Trace {
    if !s.enabled then Trace([], Normal)
    else
      var sweep := RunInOrder(s.tests, TestRun);
      Trace([SuiteHeader(s.name)] + SetupEvents(s.setup) + sweep.events + CleanupEvents(s.clean), sweep.outcome)
  }

  /** `Engine.Run`: setup, the suites in order, cleanup, and a top-level FATAL instead of re-raising. */
  function EngineRun(setup: Option<MethodRef>, clean: Option<MethodRef>, suites: seq<SuiteView>): seq<Event> {
    var sweep := RunInOrder(suites, SuiteRun);
    SetupEvents(setup) + sweep.events + CleanupEvents(clean) + (if sweep.outcome.FatalAbort? then [EngineFatal] else [])
  }

  /**
   * The fatal path through a suite: when the first test raises the fatal signal, its
   * cleanup is reported, none of the later tests runs, the suite's own cleanup runs and
   * the signal goes to the suite's caller.
   */
  lemma FatalFirstTestSkipsRest(s: SuiteView, first: TestView, rest: seq<TestView>)
    requires s.enabled && s.tests == [first] + rest
    requires TestRun(first).outcome.FatalAbort?
    ensures SuiteRun(s) == Trace([SuiteHeader(s.name)] + SetupEvents(s.setup) + TestRun(first).events
      + CleanupEvents(s.clean), TestRun(first).outcome)
    ensures first.clean.Some? ==> CleanupRan(first.clean.value) in SuiteRun(s).events
  {
    RunInOrderSingle(first, TestRun);
    RunInOrderStopsAtFatal([first], rest, TestRun);
    assert first.enabled;
  }

  /** A sweep over one item is that item's run. */
  lemma RunInOrderSingle<T>(x: T, run: T -> Trace)
    ensures RunInOrder([x], run) == Sweep(run(x).events, run(x).outcome, 1)
  {
    assert [x][..0] == [];
    assert [] + run(x).events == run(x).events;
  }

  /** The failure log holds only failure lines, so never the engine's FATAL line. */
  lemma {:induction false} FailureLogHasOnlyLines(a: seq<Assertion>)
    ensures EngineFatal !in FailureLog(a)
    decreases |a|
  {
    if a != [] {
      FailureLogHasOnlyLines(a[..|a| - 1]);
    }
  }

  /** No test run reports the engine's FATAL line. */
  lemma TestRunHasNoEngineFatal(t: TestView)
    ensures EngineFatal !in TestRun(t).events
  {
    if t.enabled {
      FailureLogHasOnlyLines(Execute(t.body.script).records);
    }
  }

  /** No suite run reports the engine's FATAL line. */
  lemma SuiteRunHasNoEngineFatal(s: SuiteView)
    ensures EngineFatal !in SuiteRun(s).events
  {
    if s.enabled && EngineFatal in RunInOrder(s.tests, TestRun).events {
      RunInOrderEvents(s.tests, TestRun, EngineFatal);
      RunInOrderMeaning(s.tests, TestRun);
      var i :| 0 <= i < |s.tests| && EngineFatal in TestRun(s.tests[i]).events;
      TestRunHasNoEngineFatal(s.tests[i]);
    }
  }

  /** The engine reports FATAL exactly when a suite raised the signal, once, as its last line. */
  lemma EngineAbsorbsFatal(setup: Option<MethodRef>, clean: Option<MethodRef>, suites: seq<SuiteView>)
    ensures var ev := EngineRun(setup, clean, suites);
      (EngineFatal in ev <==> RunInOrder(suites, SuiteRun).outcome.FatalAbort?)
      && (EngineFatal in ev ==> ev[|ev| - 1] == EngineFatal && EngineFatal !in ev[..|ev| - 1])
  {
    var sweep := RunInOrder(suites, SuiteRun);
    if EngineFatal in sweep.events {
      RunInOrderEvents(suites, SuiteRun, EngineFatal);
      RunInOrderMeaning(suites, SuiteRun);
      var i :| 0 <= i < |suites| && EngineFatal in SuiteRun(suites[i]).events;
      SuiteRunHasNoEngineFatal(suites[i]);
    }
    var body := SetupEvents(setup) + sweep.events + CleanupEvents(clean);
    assert EngineFatal !in body;
    if sweep.outcome.FatalAbort? {
      assert EngineRun(setup, clean, suites)[..|body|] == body;
    }
  }
}

/**
 * The runner's objects: the test registry, the execution context with the assertion
 * operations, the console, and the Test, Suite and Engine classes. Every method is
 * proved against the reference semantics of module Semantics.
 */
module Unit {
  import opened Wrappers
  import opened Records
  import opened Semantics

  /** The console: the report events written so far, in order. */
  class Console {
    var events: seq<Event>

    constructor()
      ensures events == []
    {
      events := [];
    }

    method Write(es: seq<Event>)
      modifies this`events
      ensures events == old(events) + es
    {
      events := events + es;
    }
  }

  /** The views `Test.Run` depends on, of a list of tests. */
  function ViewsOf(ts: seq<Test>): (r: seq<TestView>)
    reads (set t | t in ts)`enabled
    ensures |r| == |ts| && forall i :: 0 <= i < |ts| ==> r[i] == ts[i].View()
  {
    if ts == [] then [] else ViewsOf(ts[..|ts| - 1]) + [ts[|ts| - 1].View()]
  }

  /** The assertion lists of a list of tests. */
  function AssertsOf(ts: seq<Test>): (r: seq<seq<Assertion>>)
    reads (set t | t in ts)`asserts
    ensures |r| == |ts| && forall i :: 0 <= i < |ts| ==> r[i] == ts[i].asserts
  {
    if ts == [] then [] else AssertsOf(ts[..|ts| - 1]) + [ts[|ts| - 1].asserts]
  }

  /** Per-test facts about the assertion lists after a sweep that ran the first `i` tests, as one sequence. */
  lemma SameAsserts(ts: seq<Test>, views: seq<TestView>, before: seq<seq<Assertion>>, i: nat)
    requires |ts| == |views| == |before| && i <= |ts|
    requires forall j :: 0 <= j < i ==> ts[j].asserts == RunRecords(views[j], before[j])
    requires forall j :: i <= j < |ts| ==> ts[j].asserts == before[j]
    ensures AssertsOf(ts) == Rerun(views, before, i)
  {
    forall j | 0 <= j < |ts|
      ensures AssertsOf(ts)[j] == Rerun(views, before, i)[j]
    {
      RerunAt(views, before, i, j);
    }
  }

  /** Every test of every suite in `ss`. */
  function TestsOf(ss: seq<Suite>): set<Test>
    reads (set s | s in ss)`tests
  {
    set s, t | s in ss && t in s.tests :: t
  }

  /** The views `Suite.Run` depends on, of a list of suites. */
  function SuiteViewsOf(ss: seq<Suite>): (r: seq<SuiteView>)
    reads (set s | s in ss)`enabled, (set s | s in ss)`tests, (set s, t | s in ss && t in s.tests :: t)`enabled
    ensures |r| == |ss| && forall i :: 0 <= i < |ss| ==> r[i] == ss[i].View()
  {
    if ss == [] then [] else SuiteViewsOf(ss[..|ss| - 1]) + [ss[|ss| - 1].View()]
  }

  /** No element occurs twice: membership is by reference, as `List.IndexOf` compares these objects. */
  predicate Distinct<T(==)>(s: seq<T>) {
    forall i, j :: 0 <= i < j < |s| ==> s[i] != s[j]
  }

  /** The process-wide table of tests keyed by their body's method. */
  class Registry {
    var table: map<MethodRef, Test>

    constructor()
      ensures table == map[]
    {
      table := map[];
    }

    /** Whether `t` is the instance registered under its body's method. */
    predicate Registers(t: Test)
      reads this`table
    {
      t.body.fingerprint in table && table[t.body.fingerprint] == t
    }

    /** Adds an entry; a second entry for one method is refused and leaves the table as it was. */
    method Register(fingerprint: MethodRef, instance: Test) returns (r: Result<(), Error>)
      modifies this`table
      ensures fingerprint in old(table) ==> r == Failure(DuplicateTest) && table == old(table)
      ensures fingerprint !in old(table) ==> r == Success(()) && table == old(table)[fingerprint := instance]
      ensures r.Success? ==> Lookup(fingerprint) == Success(instance)
    {
      if fingerprint in table {
        return Failure(DuplicateTest);
      }
      table := table[fingerprint := instance];
      r := Success(());
    }

    /** Removes the entry under the instance's body method, whichever test that entry belongs to. */
    method Unregister(instance: Test)
      modifies this`table
      ensures table == old(table) - {instance.body.fingerprint}
    {
      table := table - {instance.body.fingerprint};
    }

    /** Removes the entry under the instance's body method only when it is this instance's own. */
    method UnregisterOwn(instance: Test)
      modifies this`table
      ensures table == if old(Registers(instance)) then old(table) - {instance.body.fingerprint} else old(table)
      ensures !Registers(instance)
    {
      if Registers(instance) {
        table := table - {instance.body.fingerprint};
      }
    }

    /** The registered instance, or "Test not registered". */
    function Lookup(fingerprint: MethodRef): (r: Result<Test, Error>)
      reads this`table
      ensures r.Success? <==> fingerprint in table
      ensures r.Success? ==> r.value == table[fingerprint]
      ensures r.Failure? ==> r.error == NotRegistered
    {
      if fingerprint !in table then Failure(NotRegistered) else Success(table[fingerprint])
    }
  }

  /**
   * The execution context: the stack of tests whose bodies are running (innermost
   * last), and the assertion operations that record against the running test.
   */
  class Context {
    const registry: Registry
    var stack: seq<Test>

    constructor(registry: Registry)
      ensures this.registry == registry && stack == []
    {
      this.registry := registry;
      stack := [];
    }

    /** The body methods on the stack, innermost last. */
    function Frames(): (r: seq<MethodRef>)
      reads this`stack
      ensures |r| == |stack| && forall i :: 0 <= i < |stack| ==> r[i] == stack[i].body.fingerprint
    {
      var s := stack;
      seq(|s|, i requires 0 <= i < |s| => s[i].body.fingerprint)
    }

    /** The test an assertion made now belongs to. */
    function Current(): Result<Test, Error>
      reads this`stack, registry`table
    {
      Resolve(Frames(), registry.table)
    }

    /** The objects an assertion made now may append to. */
    function Target(): set<Test>
      reads this`stack, registry`table
    {
      if Current().Success? then {Current().value} else {}
    }

    method Enter(t: Test)
      modifies this`stack
      ensures stack == old(stack) + [t]
    {
      stack := stack + [t];
    }

    method Leave()
      requires stack != []
      modifies this`stack
      ensures stack == old(stack)[..|old(stack)| - 1]
    {
      stack := stack[..|stack| - 1];
    }

    /** Walks the running bodies from the innermost outwards and returns the first registered test. */
    method GetTest() returns (r: Result<Test, Error>)
      ensures r == Current()
    {
      var frames := Frames();
      var i := |stack|;
      assert frames[..i] == frames;
      while i > 0
        invariant 0 <= i <= |stack|
        invariant Current() == Resolve(frames[..i], registry.table)
      {
        assert frames[..i][..i - 1] == frames[..i - 1];
        var found := registry.Lookup(stack[i - 1].body.fingerprint);
        if found.Success? {
          return found;
        }
        i := i - 1;
      }
      return Failure(NotInTest);
    }

    /** Appends one record to the running test, or fails with "Not in test". */
    method AddAssert(a: Assertion) returns (r: Result<(), Error>)
      modifies Target()`asserts
      ensures old(Current()).Failure? ==> r == Failure(NotInTest)
      ensures old(Current()).Success? ==> r == Success(()) && Current().value.asserts == old(Current().value.asserts) + [a]
    {
      ResolveMeaning(Frames(), registry.table);
      var t := GetTest();
      if t.Failure? {
        return Failure(t.error);
      }
      t.value.AddAssert(a);
      r := Success(());
    }

    method Pass(file: string, line: int) returns (r: Result<Outcome, Error>)
      modifies Target()`asserts
      ensures old(Current()).Failure? ==> r == Failure(NotInTest)
      ensures old(Current()).Success? ==>
        (r == Success(Normal) && Current().value.asserts == old(Current().value.asserts) + [PassRecord(file, line)])
    {
      var added := AddAssert(PassRecord(file, line));
      r := if added.Failure? then Failure(added.error) else Success(Normal);
    }

    method Fail(message: string, file: string, line: int) returns (r: Result<Outcome, Error>)
      modifies Target()`asserts
      ensures old(Current()).Failure? ==> r == Failure(NotInTest)
      ensures old(Current()).Success? ==>
        (r == Success(Normal) && Current().value.asserts == old(Current().value.asserts) + [FailRecord(message, file, line)])
    {
      var added := AddAssert(FailRecord(message, file, line));
      r := if added.Failure? then Failure(added.error) else Success(Normal);
    }

    /** Records a failure, then raises the fatal signal with the same message. */
    method Fatal(message: string, file: string, line: int) returns (r: Result<Outcome, Error>)
      modifies Target()`asserts
      ensures old(Current()).Failure? ==> r == Failure(NotInTest)
      ensures old(Current()).Success? ==>
        (r == Success(FatalAbort(message)) && Current().value.asserts == old(Current().value.asserts) + [FailRecord(message, file, line)])
    {
      r := Fail(message, file, line);
      if r.Success? {
        r := Success(FatalAbort(message));
      }
    }

    method True(expr: bool, message: string, file: string, line: int) returns (r: Result<Outcome, Error>)
      modifies Target()`asserts
      ensures old(Current()).Failure? ==> r == Failure(NotInTest)
      ensures old(Current()).Success? ==>
        (r == Success(Normal) && Current().value.asserts == old(Current().value.asserts) + [if expr then PassRecord(file, line) else FailRecord(message, file, line)])
    {
      if expr {
        r := Pass(file, line);
      } else {
        r := Fail(message, file, line);
      }
    }

    method TrueFatal(expr: bool, message: string, file: string, line: int) returns (r: Result<Outcome, Error>)
      modifies Target()`asserts
      ensures old(Current()).Failure? ==> r == Failure(NotInTest)
      ensures old(Current()).Success? ==>
        (r == Success(if expr then Normal else FatalAbort(message)) && Current().value.asserts == old(Current().value.asserts) + [if expr then PassRecord(file, line) else FailRecord(message, file, line)])
    {
      if expr {
        r := Pass(file, line);
      } else {
        r := Fatal(message, file, line);
      }
    }

    method False(expr: bool, message: string, file: string, line: int) returns (r: Result<Outcome, Error>)
      modifies Target()`asserts
      ensures old(Current()).Failure? ==> r == Failure(NotInTest)
      ensures old(Current()).Success? ==>
        (r == Success(Normal) && Current().value.asserts == old(Current().value.asserts) + [if expr then FailRecord(message, file, line) else PassRecord(file, line)])
    {
      if expr {
        r := Fail(message, file, line);
      } else {
        r := Pass(file, line);
      }
    }

    method FalseFatal(expr: bool, message: string, file: string, line: int) returns (r: Result<Outcome, Error>)
      modifies Target()`asserts
      ensures old(Current()).Failure? ==> r == Failure(NotInTest)
      ensures old(Current()).Success? ==>
        (r == Success(if expr then FatalAbort(message) else Normal) && Current().value.asserts == old(Current().value.asserts) + [if expr then FailRecord(message, file, line) else PassRecord(file, line)])
    {
      if expr {
        r := Fatal(message, file, line);
      } else {
        r := Pass(file, line);
      }
    }

    /** Performs one scripted call of a test body. */
    method Perform(s: Step) returns (r: Result<Outcome, Error>)
      modifies Target()`asserts
      ensures old(Current()).Failure? ==> r == Failure(NotInTest)
      ensures old(Current()).Success? ==>
        (r == Success(StepOutcome(s)) && Current().value.asserts == old(Current().value.asserts) + [StepRecord(s)])
    {
      match s
      case CallPass(f, l) => r := Pass(f, l);
      case CallFail(m, f, l) => r := Fail(m, f, l);
      case CallFatal(m, f, l) => r := Fatal(m, f, l);
      case CallTrue(e, m, f, l) => r := True(e, m, f, l);
      case CallTrueFatal(e, m, f, l) => r := TrueFatal(e, m, f, l);
      case CallFalse(e, m, f, l) => r := False(e, m, f, l);
      case CallFalseFatal(e, m, f, l) => r := FalseFatal(e, m, f, l);
    }
  }

  class Test {
    const name: string
    const setup: Option<MethodRef>
    const body: Body
    const clean: Option<MethodRef>
    var asserts: seq<Assertion>
    var enabled: bool

    /** The field initialisation of the library's constructor, before registration. */
    constructor(name: string, body: Body, setup: Option<MethodRef>, clean: Option<MethodRef>)
      ensures this.name == name && this.body == body && this.setup == setup && this.clean == clean
      ensures asserts == [] && enabled
    {
      this.name := name;
      this.setup := setup;
      this.body := body;
      this.clean := clean;
      asserts := [];
      enabled := true;
    }

    /** Constructs a test: refuses a missing body, then registers it under its body's method. */
    static method New(registry: Registry, name: string, body: Option<Body>, setup: Option<MethodRef>, clean: Option<MethodRef>)
      returns (r: Result<Test, Error>)
      modifies registry`table
      ensures body.None? ==> r == Failure(EmptyTest) && registry.table == old(registry.table)
      ensures body.Some? && body.value.fingerprint in old(registry.table) ==>
        r == Failure(DuplicateTest) && registry.table == old(registry.table)
      ensures body.Some? && body.value.fingerprint !in old(registry.table) ==>
        && r.Success? && fresh(r.value)
        && r.value.name == name && r.value.body == body.value && r.value.setup == setup && r.value.clean == clean
        && r.value.enabled && r.value.asserts == []
        && registry.table == old(registry.table)[body.value.fingerprint := r.value]
        && registry.Registers(r.value)
    {
      if body.None? {
        return Failure(EmptyTest);
      }
      var t := new Test(name, body.value, setup, clean);
      var registered := registry.Register(body.value.fingerprint, t);
      if registered.Failure? {
        return Failure(registered.error);
      }
      r := Success(t);
    }

    /** Whether every assertion of the latest run passed (vacuously true for none). */
    function Passed(): (r: bool)
      reads this`asserts
      ensures r <==> forall i :: 0 <= i < |asserts| ==> asserts[i].passed
    {
      AllPassedMeaning(asserts);
      AllPassed(asserts)
    }

    /** The scan behind the verdict: stops at the first failing assertion. */
    method ScanPassed() returns (r: bool)
      ensures r == Passed()
    {
      var i := 0;
      while i < |asserts|
        invariant 0 <= i <= |asserts|
        invariant AllPassed(asserts) == AllPassed(asserts[i..])
      {
        if !asserts[i].passed {
          return false;
        }
        assert asserts[i..][1..] == asserts[i + 1..];
        i := i + 1;
      }
      return true;
    }

    function View(): TestView
      reads this`enabled
    {
      TestView(name, enabled, setup, body, clean)
    }

    method Enable()
      modifies this`enabled
      ensures enabled
    {
      enabled := true;
    }

    method Disable()
      modifies this`enabled
      ensures !enabled
    {
      enabled := false;
    }

    method AddAssert(a: Assertion)
      modifies this`asserts
      ensures asserts == old(asserts) + [a]
    {
      asserts := asserts + [a];
    }

    /**
     * Runs the test: when enabled, clears the assertions, runs setup, runs the body with
     * this test on the context stack, catches the fatal signal, runs cleanup, reports the
     * verdict and every failing assertion by index, and passes the signal on.
     */
    method Run(ctx: Context, console: Console) returns (r: Outcome)
      requires enabled ==> ctx.registry.Registers(this)
      modifies this`asserts, ctx`stack, console`events
      ensures ctx.stack == old(ctx.stack)
      ensures console.events == old(console.events) + TestRun(View()).events
      ensures r == TestRun(View()).outcome
      ensures asserts == RunRecords(View(), old(asserts))
    {
      if !enabled {
        return Normal;
      }
      ghost var run := Execute(body.script);
      ghost var start := console.events;
      console.Write([TestHeader(name)]);
      asserts := [];
      console.Write(SetupEvents(setup));
      AppendAssoc(start, [TestHeader(name)], SetupEvents(setup));
      ghost var acc := [TestHeader(name)] + SetupEvents(setup);
      r := Guarded(ctx);
      assert asserts == run.records;
      console.Write(CleanupEvents(clean));
      AppendAssoc(start, acc, CleanupEvents(clean));
      acc := acc + CleanupEvents(clean);
      Report(console);
      AppendAssoc(start, acc, [Verdict(AllPassed(run.records))] + FailureLog(run.records));
      AppendAssoc(acc, [Verdict(AllPassed(run.records))], FailureLog(run.records));
    }

    /** The verdict line, then one line per failing assertion. */
    method Report(console: Console)
      modifies console`events
      ensures console.events == old(console.events) + ([Verdict(AllPassed(asserts))] + FailureLog(asserts))
    {
      var ok := ScanPassed();
      console.Write([Verdict(ok)]);
      LogFailures(console);
      AppendAssoc(old(console.events), [Verdict(ok)], FailureLog(asserts));
    }

    /** The body call with this test bound on the context stack around it; the fatal signal is caught here. */
    method Guarded(ctx: Context) returns (r: Outcome)
      requires ctx.registry.Registers(this)
      modifies this`asserts, ctx`stack
      ensures ctx.stack == old(ctx.stack)
      ensures asserts == old(asserts) + Execute(body.script).records
      ensures r == Execute(body.script).outcome
    {
      ctx.Enter(this);
      assert ctx.Frames()[|ctx.stack| - 1] == body.fingerprint;
      r := Invoke(ctx);
      ctx.Leave();
    }

    /** Calls the body with this test innermost on the context stack; stops at the fatal signal. */
    method Invoke(ctx: Context) returns (r: Outcome)
      requires ctx.Current() == Success(this)
      modifies this`asserts
      ensures asserts == old(asserts) + Execute(body.script).records
      ensures r == Execute(body.script).outcome
    {
      var script := body.script;
      var i := 0;
      r := Normal;
      while i < |script| && r == Normal
        invariant 0 <= i <= |script|
        invariant ctx.Current() == Success(this)
        invariant asserts == old(asserts) + Execute(script[..i]).records
        invariant r == Execute(script[..i]).outcome
      {
        ExecuteStep(script, i);
        AppendAssoc(old(asserts), Execute(script[..i]).records, [StepRecord(script[i])]);
        var done := ctx.Perform(script[i]);
        r := done.value;
        i := i + 1;
      }
      ExecutePrefix(script, i);
    }

    /** Writes one line per failing assertion, by ascending 0-based index. */
    method LogFailures(console: Console)
      modifies console`events
      ensures console.events == old(console.events) + FailureLog(asserts)
    {
      var k := 0;
      while k < |asserts|
        invariant 0 <= k <= |asserts|
        invariant console.events == old(console.events) + FailureLog(asserts[..k])
      {
        assert asserts[..k + 1][..k] == asserts[..k];
        if !asserts[k].passed {
          console.Write([FailureLine(k, asserts[k])]);
        }
        k := k + 1;
      }
      assert asserts[..k] == asserts;
    }
  }

  class Suite {
    const name: string
    const setup: Option<MethodRef>
    const clean: Option<MethodRef>
    var tests: seq<Test>
    var enabled: bool

    /** The suite never holds the same test twice. */
    ghost predicate Valid()
      reads this`tests
    {
      Distinct(tests)
    }

    constructor(name: string, setup: Option<MethodRef>, clean: Option<MethodRef>)
      ensures this.name == name && this.setup == setup && this.clean == clean
      ensures tests == [] && enabled && Valid()
    {
      this.name := name;
      this.setup := setup;
      this.clean := clean;
      tests := [];
      enabled := true;
    }

    function View(): SuiteView
      reads this`enabled, this`tests, (set t | t in tests)`enabled
    {
      SuiteView(name, enabled, setup, clean, ViewsOf(tests))
    }

    method Enable()
      modifies this`enabled
      ensures enabled
    {
      enabled := true;
    }

    method Disable()
      modifies this`enabled
      ensures !enabled
    {
      enabled := false;
    }

    /** Appends a test not yet in the suite; a second addition is refused and changes nothing. */
    method AddTest(test: Test) returns (r: Result<(), Error>)
      requires Valid()
      modifies this`tests
      ensures Valid()
      ensures test in old(tests) ==> r == Failure(DuplicateTestInSuite) && tests == old(tests)
      ensures test !in old(tests) ==> r == Success(()) && tests == old(tests) + [test]
    {
      if test in tests {
        return Failure(DuplicateTestInSuite);
      }
      tests := tests + [test];
      r := Success(());
    }

    /** Constructs a test and appends it. */
    method NewTest(registry: Registry, name: string, body: Option<Body>, setup: Option<MethodRef>, clean: Option<MethodRef>)
      returns (r: Result<Test, Error>)
      requires Valid()
      modifies this`tests, registry`table
      ensures Valid()
      ensures body.None? ==> r == Failure(EmptyTest)
      ensures body.Some? && body.value.fingerprint in old(registry.table) ==> r == Failure(DuplicateTest)
      ensures r.Failure? ==> registry.table == old(registry.table) && tests == old(tests)
      ensures body.Some? && body.value.fingerprint !in old(registry.table) ==>
        && r.Success? && fresh(r.value)
        && r.value.name == name && r.value.body == body.value && r.value.setup == setup && r.value.clean == clean
        && r.value.enabled && r.value.asserts == []
        && registry.table == old(registry.table)[body.value.fingerprint := r.value]
        && tests == old(tests) + [r.value]
    {
      r := Test.New(registry, name, body, setup, clean);
      if r.Success? {
        var added := AddTest(r.value);
      }
    }

    /**
     * Runs the suite: when enabled, reports it, runs setup, runs the tests in order up to
     * and including the first that raises the fatal signal, runs cleanup and passes the
     * signal on.
     */
    method Run(ctx: Context, console: Console) returns (r: Outcome)
      requires Valid()
      requires enabled ==> forall t :: t in tests && t.enabled ==> ctx.registry.Registers(t)
      modifies (set t | t in tests)`asserts, ctx`stack, console`events
      ensures ctx.stack == old(ctx.stack)
      ensures console.events == old(console.events) + SuiteRun(old(View())).events
      ensures r == SuiteRun(old(View())).outcome
      ensures AssertsOf(tests) == Rerun(old(ViewsOf(tests)), old(AssertsOf(tests)), if enabled then RunInOrder(old(ViewsOf(tests)), TestRun).ran else 0)
    {
      if !enabled {
        RerunNothing(ViewsOf(tests), AssertsOf(tests));
        assert console.events == old(console.events) + [];
        return Normal;
      }
      var ts := tests;
      var views := ViewsOf(ts);
      ghost var before := AssertsOf(ts);
      ghost var ran;
      r, ran := RunEnabled(ts, views, before, ctx, console);
    }

    /**
     * The enabled path of `Run` over the tests `ts` and their views: header and setup, the
     * tests in order up to and including the first that raises the fatal signal, cleanup.
     */
    method RunEnabled(ts: seq<Test>, views: seq<TestView>, ghost before: seq<seq<Assertion>>, ctx: Context, console: Console)
      returns (r: Outcome, ghost ran: nat)
      requires Distinct(ts) && ViewsOf(ts) == views && AssertsOf(ts) == before
      requires forall t :: t in ts && t.enabled ==> ctx.registry.Registers(t)
      modifies (set t | t in ts)`asserts, ctx`stack, console`events
      ensures ctx.stack == old(ctx.stack)
      ensures console.events == old(console.events) + SuiteRun(SuiteView(name, true, setup, clean, views)).events
      ensures r == RunInOrder(views, TestRun).outcome && ran == RunInOrder(views, TestRun).ran
      ensures AssertsOf(ts) == Rerun(views, before, ran)
    {
      ghost var start := console.events;
      var prefix := [SuiteHeader(name)] + SetupEvents(setup);
      console.Write(prefix);
      r, ran := RunEach(ts, views, before, ctx, console);
      ghost var sweep := RunInOrder(views, TestRun);
      console.Write(CleanupEvents(clean));
      AppendAssoc(start, prefix, sweep.events);
      AppendAssoc(start, prefix + sweep.events, CleanupEvents(clean));
    }
  }

  /**
   * The test loop of `Suite.Run`: runs `ts` in order up to and including the first that
   * raises the fatal signal, and reports how many it ran.
   */
  method RunEach(ts: seq<Test>, views: seq<TestView>, ghost before: seq<seq<Assertion>>, ctx: Context, console: Console)
    returns (r: Outcome, ghost ran: nat)
    requires Distinct(ts) && ViewsOf(ts) == views && AssertsOf(ts) == before
    requires forall t :: t in ts && t.enabled ==> ctx.registry.Registers(t)
    modifies (set t | t in ts)`asserts, ctx`stack, console`events
    ensures ctx.stack == old(ctx.stack)
    ensures console.events == old(console.events) + RunInOrder(views, TestRun).events
    ensures r == RunInOrder(views, TestRun).outcome && ran == RunInOrder(views, TestRun).ran
    ensures AssertsOf(ts) == Rerun(views, before, ran)
  {
    ghost var head := console.events;
    ghost var written := [];
    var i := 0;
    r := Normal;
    while i < |ts| && r == Normal
      invariant 0 <= i <= |ts|
      invariant ctx.stack == old(ctx.stack)
      invariant RunInOrder(views[..i], TestRun) == Sweep(written, r, i)
      invariant console.events == head + written
      invariant forall j :: 0 <= j < i ==> ts[j].asserts == RunRecords(views[j], before[j])
      invariant forall j :: i <= j < |ts| ==> ts[j].asserts == before[j]
    {
      RunInOrderStep(views, i, TestRun);
      assert ts[i].View() == old(ts[i].View());
      r := ts[i].Run(ctx, console);
      AppendAssoc(head, written, TestRun(views[i]).events);
      written := written + TestRun(views[i]).events;
      i := i + 1;
    }
    RunInOrderPrefix(views, i, TestRun);
    ran := i;
    SameAsserts(ts, views, before, ran);
  }

  class Engine {
    var setup: Option<MethodRef>
    var clean: Option<MethodRef>
    var suites: seq<Suite>

    /** The engine never holds the same suite twice. */
    ghost predicate Valid()
      reads this`suites
    {
      Distinct(suites)
    }

    constructor(setup: Option<MethodRef>, clean: Option<MethodRef>)
      ensures this.setup == setup && this.clean == clean && suites == [] && Valid()
    {
      this.setup := setup;
      this.clean := clean;
      suites := [];
    }

    method SetSetup(setup: Option<MethodRef>)
      modifies this`setup
      ensures this.setup == setup
    {
      this.setup := setup;
    }

    method SetCleanup(clean: Option<MethodRef>)
      modifies this`clean
      ensures this.clean == clean
    {
      this.clean := clean;
    }

    /** Appends a suite not yet in the engine; a second addition is refused and changes nothing. */
    method AddSuite(suite: Suite) returns (r: Result<(), Error>)
      requires Valid()
      modifies this`suites
      ensures Valid()
      ensures suite in old(suites) ==> r == Failure(DuplicateSuite) && suites == old(suites)
      ensures suite !in old(suites) ==> r == Success(()) && suites == old(suites) + [suite]
    {
      if suite in suites {
        return Failure(DuplicateSuite);
      }
      suites := suites + [suite];
      r := Success(());
    }

    /** Constructs a suite and appends it. */
    method NewSuite(name: string, setup: Option<MethodRef>, clean: Option<MethodRef>) returns (s: Suite)
      requires Valid()
      modifies this`suites
      ensures Valid()
      ensures fresh(s) && s.name == name && s.setup == setup && s.clean == clean && s.tests == [] && s.enabled && s.Valid()
      ensures suites == old(suites) + [s]
    {
      s := new Suite(name, setup, clean);
      var added := AddSuite(s);
    }

    /**
     * Runs setup, the suites in order up to and including the first that raises the
     * fatal signal, and cleanup; a caught signal is reported as FATAL, never re-raised.
     */
    method Run(ctx: Context, console: Console)
      requires forall s :: s in suites ==> s.Valid()
      requires forall s, t :: s in suites && s.enabled && t in s.tests && t.enabled ==> ctx.registry.Registers(t)
      modifies TestsOf(suites)`asserts, ctx`stack, console`events
      ensures ctx.stack == old(ctx.stack)
      ensures console.events == old(console.events) + EngineRun(setup, clean, old(SuiteViewsOf(suites)))
    {
      var ss := suites;
      var views := SuiteViewsOf(ss);
      RunEngine(ss, views, setup, clean, ctx, console);
    }
  }

  /** The body of `Engine.Run`, over the suites' views taken before the run. */
  method RunEngine(ss: seq<Suite>, views: seq<SuiteView>, setup: Option<MethodRef>, clean: Option<MethodRef>, ctx: Context, console: Console)
    requires |views| == |ss|
    requires forall k :: 0 <= k < |ss| ==> ss[k].Valid() && ss[k].View() == views[k]
    requires forall k, t :: 0 <= k < |ss| && ss[k].enabled && t in ss[k].tests && t.enabled ==> ctx.registry.Registers(t)
    modifies TestsOf(ss)`asserts, ctx`stack, console`events
    ensures ctx.stack == old(ctx.stack)
    ensures console.events == old(console.events) + EngineRun(setup, clean, views)
  {
    ghost var start := console.events;
    var signal := RunSuites(ss, views, setup, ctx, console);
    ghost var sweep := RunInOrder(views, SuiteRun);
    ghost var tail := CleanupEvents(clean) + if signal.FatalAbort? then [EngineFatal] else [];
    Finish(clean, signal, console);
    AppendAssoc(start, SetupEvents(setup), sweep.events);
    AppendAssoc(start, SetupEvents(setup) + sweep.events, tail);
    assert EngineRun(setup, clean, views) == SetupEvents(setup) + sweep.events + tail;
  }

  /** Runs the engine's cleanup and reports a caught fatal signal. */
  method Finish(clean: Option<MethodRef>, signal: Outcome, console: Console)
    modifies console`events
    ensures console.events == old(console.events) + (CleanupEvents(clean) + if signal.FatalAbort? then [EngineFatal] else [])
  {
    ghost var start := console.events;
    console.Write(CleanupEvents(clean));
    if signal.FatalAbort? {
      console.Write([EngineFatal]);
      AppendAssoc(start, CleanupEvents(clean), [EngineFatal]);
    } else {
      assert CleanupEvents(clean) + [] == CleanupEvents(clean);
    }
  }

  /**
   * The first half of `Engine.Run`: runs setup, then `ss` in order up to and including the
   * first that raises the fatal signal.
   */
  method RunSuites(ss: seq<Suite>, views: seq<SuiteView>, setup: Option<MethodRef>, ctx: Context, console: Console) returns (r: Outcome)
    requires |views| == |ss|
    requires forall k :: 0 <= k < |ss| ==> ss[k].Valid() && ss[k].View() == views[k]
    requires forall k, t :: 0 <= k < |ss| && ss[k].enabled && t in ss[k].tests && t.enabled ==> ctx.registry.Registers(t)
    modifies TestsOf(ss)`asserts, ctx`stack, console`events
    ensures ctx.stack == old(ctx.stack)
    ensures console.events == old(console.events) + SetupEvents(setup) + RunInOrder(views, SuiteRun).events
    ensures r == RunInOrder(views, SuiteRun).outcome
  {
    console.Write(SetupEvents(setup));
    ghost var head := console.events;
    ghost var written := [];
    var i := 0;
    r := Normal;
    while i < |ss| && r == Normal
      invariant 0 <= i <= |ss|
      invariant ctx.stack == old(ctx.stack)
      invariant RunInOrder(views[..i], SuiteRun) == Sweep(written, r, i)
      invariant console.events == head + written
    {
      RunInOrderStep(views, i, SuiteRun);
      ghost var trace := SuiteRun(views[i]);
      assert ss[i].View() == old(ss[i].View());
      r := ss[i].Run(ctx, console);
      AppendAssoc(head, written, trace.events);
      written := written + trace.events;
      i := i + 1;
    }
    RunInOrderPrefix(views, i, SuiteRun);
  }
}

/** The harness state and the operations that change it: the per-test context,
    the active-context slot, the result ledger and the run counter, one
    `Harness` object standing for the thread-local globals of one thread. */
module Maat {
  import opened TestBody
  import opened Report

  /** `test_context`: the messages one test recorded and its soft-failure flag. */
  class TestContext {
    var messages: seq<string>
    var failed: bool

    constructor ()
      ensures State() == Fresh
    {
      messages := [];
      failed := false;
    }

    function State(): ContextState
      reads this
    {
      ContextState(messages, failed)
    }
  }

  /** What RUN_TEST writes for one test, line by line. */
  datatype RunReport = RunReport(progress: string, status: string, diagnostics: seq<string>)

  class Harness {
    /** `active_context`: the context of the test now running, or null. */
    var active: TestContext?
    /** `all_results()`: the ledger, oldest entry first. */
    var results: seq<TestResult>
    /** `test_counter()`: the number of runs started. */
    var counter: nat

    /** Between runs the counter is the ledger's length. This holds because a
        test function here always returns; one that throws would leave the
        counter one ahead of the ledger. */
    ghost predicate Valid()
      reads this
    {
      counter == |results|
    }

    constructor ()
      ensures active == null && results == [] && counter == 0
      ensures Valid()
    {
      active := null;
      results := [];
      counter := 0;
    }

    /** REQUIRE: on a false condition, records "Req: msg" and tells the test
        function to return false; on a true one, changes nothing. It never
        touches the flag. */
    method Require(cond: bool, msg: string) returns (proceed: bool)
      requires active != null
      modifies active
      ensures proceed == cond
      ensures active.messages == if cond then old(active.messages) else old(active.messages) + [ReqMessage(msg)]
      ensures active.failed == old(active.failed)
    {
      proceed := cond;
      if !cond {
        active.messages := active.messages + [ReqMessage(msg)];
      }
    }

    /** REQ_EQ. */
    method ReqEq<T(==)>(lhs: T, rhs: T, msg: string) returns (proceed: bool)
      requires active != null
      modifies active
      ensures proceed == (lhs == rhs)
      ensures active.messages == if lhs == rhs then old(active.messages) else old(active.messages) + [ReqMessage(msg)]
      ensures active.failed == old(active.failed)
    {
      proceed := Require(lhs == rhs, msg);
    }

    /** REQ_NEQ. */
    method ReqNeq<T(==)>(lhs: T, rhs: T, msg: string) returns (proceed: bool)
      requires active != null
      modifies active
      ensures proceed == (lhs != rhs)
      ensures active.messages == if lhs != rhs then old(active.messages) else old(active.messages) + [ReqMessage(msg)]
      ensures active.failed == old(active.failed)
    {
      proceed := Require(lhs != rhs, msg);
    }

    /** EXPECT: on a false condition, records "Exp: msg" and raises the flag;
        on a true one, changes nothing. The test function goes on either way. */
    method Expect(cond: bool, msg: string)
      requires active != null
      modifies active
      ensures active.messages == if cond then old(active.messages) else old(active.messages) + [ExpMessage(msg)]
      ensures active.failed == (old(active.failed) || !cond)
    {
      if !cond {
        active.messages := active.messages + [ExpMessage(msg)];
        active.failed := true;
      }
    }

    /** EXP_EQ. */
    method ExpEq<T(==)>(lhs: T, rhs: T, msg: string)
      requires active != null
      modifies active
      ensures active.messages == if lhs == rhs then old(active.messages) else old(active.messages) + [ExpMessage(msg)]
      ensures active.failed == (old(active.failed) || lhs != rhs)
    {
      Expect(lhs == rhs, msg);
    }

    /** EXP_NEQ. */
    method ExpNeq<T(==)>(lhs: T, rhs: T, msg: string)
      requires active != null
      modifies active
      ensures active.messages == if lhs != rhs then old(active.messages) else old(active.messages) + [ExpMessage(msg)]
      ensures active.failed == (old(active.failed) || lhs == rhs)
    {
      Expect(lhs != rhs, msg);
    }

    /** NOTE: records "Note: msg" when a test is running, does nothing when
        none is. It never touches the flag. */
    method Note(msg: string)
      modifies active
      ensures active != null ==> active.messages == old(active.messages) + [NoteMessage(msg)]
      ensures active != null ==> active.failed == old(active.failed)
    {
      if active != null {
        active.messages := active.messages + [NoteMessage(msg)];
      }
    }

    /** The call `fn()`: the test function's macro calls, one after another,
        against the active context, leaving at the first failing REQUIRE. */
    method RunBody(body: Body) returns (returned: bool)
      requires active != null
      modifies active
      ensures Outcome(returned, active.State()) == Run(body.ops, body.result, old(active.State()))
    {
      var i := 0;
      while i < |body.ops|
        invariant 0 <= i <= |body.ops|
        invariant Run(body.ops, body.result, old(active.State())) == Run(body.ops[i..], body.result, active.State())
        decreases |body.ops| - i
      {
        assert body.ops[i..][0] == body.ops[i];
        assert body.ops[i..][1..] == body.ops[i + 1..];
        match body.ops[i] {
          case Require(cond, msg) =>
            var proceed := Require(cond, msg);
            if !proceed {
              return false;
            }
          case Expect(cond, msg) =>
            Expect(cond, msg);
          case Note(msg) =>
            Note(msg);
        }
        i := i + 1;
      }
      returned := body.result;
    }

    /** RUN_TEST: a fresh context is made active, the counter moves on by one,
        the verdict `fn() && !ctx.failed` is appended to the ledger under the
        test's name, the lines are written, and the slot is emptied again. */
    method RunTest(name: string, body: Body) returns (report: RunReport)
      modifies this
      ensures active == null
      ensures counter == old(counter) + 1
      ensures results == old(results) + [TestResult(name, Verdict(body))]
      ensures old(Valid()) ==> Valid()
      ensures report.progress == ProgressLine(counter, name)
      ensures report.status == StatusLine(Verdict(body), counter, name)
      ensures |report.diagnostics| == |Execute(body).context.messages|
      ensures forall k :: 0 <= k < |report.diagnostics| ==>
                report.diagnostics[k] == DiagnosticLine(Execute(body).context.messages[k])
    {
      var ctx := new TestContext();
      active := ctx;
      counter := counter + 1;
      var progress := ProgressLine(counter, name);
      var returned := RunBody(body);
      var ok := returned && !ctx.failed;
      results := results + [TestResult(name, ok)];
      var status := StatusLine(ok, counter, name);
      var diagnostics := FormatDiagnostics(ctx.messages);
      active := null;
      report := RunReport(progress, status, diagnostics);
    }

    /** print_summary: counts the failed entries of the ledger, derives the
        passed ones, and gives the line; the ledger is only read. */
    method PrintSummary() returns (counts: Counts, line: string)
      ensures counts.total == |results| && counts.passed + counts.failed == counts.total
      ensures counts.failed == |FailedPositions(results)|
      ensures line == SummaryLine(counts)
    {
      counts := Tally(results);
      line := SummaryLine(counts);
    }
  }

  /** A REQUIRE that fails stops its test: the `return true` after it is
      never reached and the one message is "Req: mismatch". */
  lemma RequireScenario()
    ensures Execute(Body([Require(1 == 2, "mismatch")], true))
         == Outcome(false, ContextState(["Req: mismatch"], false))
  {
    RunStopsAtFailingRequire([], "mismatch", [], true, Fresh);
    assert [] + [Require(false, "mismatch")] + [] == [Require(1 == 2, "mismatch")];
    assert Trace([]) == [];
    assert ReqMessage("mismatch") == "Req: mismatch";
  }

  /** An EXPECT that fails lets its test go on to the `return true`, records
      "Exp: a" and raises the flag; the EXPECT that holds records nothing. */
  lemma ExpectScenario()
    ensures Execute(Body([Expect(1 == 2, "a"), Expect(3 == 3, "b")], true))
         == Outcome(true, ContextState(["Exp: a"], true))
  {
    var ops := [Expect(1 == 2, "a"), Expect(3 == 3, "b")];
    RunWithoutHardFailure(ops, true, Fresh);
    assert SoftFails(ops[0]);
    assert ops[1..][1..] == [];
    assert Trace(ops[1..]) == [];
    assert ExpMessage("a") == "Exp: a";
  }

  /** A ledger of one passed and two failed entries sums to 1, 2 and 3. */
  lemma TallyOfThree(a: string, b: string, c: string)
    ensures Tally([TestResult(a, true), TestResult(b, false), TestResult(c, false)]) == Counts(1, 2, 3)
  {
    assert FailedPositions([TestResult(a, true), TestResult(b, false), TestResult(c, false)]) == {1, 2};
  }

  /** Three runs, a passing test, a REQUIRE that stops its test and an EXPECT
      that lets its test go on, and the summary over the three. */
  method Scenarios() returns (counts: Counts, line: string)
    ensures counts == Counts(1, 2, 3)
    ensures line == SummaryLine(Counts(1, 2, 3))
  {
    var h := new Harness();
    var r := h.RunTest("ok_test", Body([], true));
    assert r.diagnostics == [];

    RequireScenario();
    r := h.RunTest("require_test", Body([Require(1 == 2, "mismatch")], true));
    assert |r.diagnostics| == 1 && r.diagnostics[0] == DiagnosticLine("Req: mismatch");

    ExpectScenario();
    r := h.RunTest("expect_test", Body([Expect(1 == 2, "a"), Expect(3 == 3, "b")], true));
    assert |r.diagnostics| == 1 && r.diagnostics[0] == DiagnosticLine("Exp: a");

    assert h.results == [TestResult("ok_test", true), TestResult("require_test", false), TestResult("expect_test", false)];
    assert h.counter == 3;
    TallyOfThree("ok_test", "require_test", "expect_test");
    counts, line := h.PrintSummary();
  }
}

/** What a test function does to its `test_context`: the assertion macros as
    operations, and their meaning as a run from left to right that a failing
    REQUIRE cuts short. */
module TestBody {

  /** One assertion-macro call inside a test function. The comparison forms
      REQ_EQ, REQ_NEQ, EXP_EQ and EXP_NEQ reach this level with their
      comparison already evaluated into `cond`. */
  datatype Op =
    | Require(cond: bool, msg: string)
    | Expect(cond: bool, msg: string)
    | Note(msg: string)

  /** A test function: its assertion calls in order, then the value of the
      `return` it reaches when no REQUIRE has failed. */
  datatype Body = Body(ops: seq<Op>, result: bool)

  /** The value of a `test_context`: its messages in recording order and its
      soft-failure flag. */
  datatype ContextState = ContextState(messages: seq<string>, failed: bool)

  /** A default-constructed `test_context`. */
  const Fresh := ContextState([], false)

  function ReqMessage(msg: string): string { "Req: " + msg }
  function ExpMessage(msg: string): string { "Exp: " + msg }
  function NoteMessage(msg: string): string { "Note: " + msg }

  /** A REQUIRE whose condition is false. */
  predicate HardFails(op: Op) {
    op.Require? && !op.cond
  }

  /** An EXPECT whose condition is false. */
  predicate SoftFails(op: Op) {
    op.Expect? && !op.cond
  }

  predicate NoHardFailure(ops: seq<Op>) {
    forall op :: op in ops ==> !HardFails(op)
  }

  predicate AnySoftFailure(ops: seq<Op>) {
    exists op :: op in ops && SoftFails(op)
  }

  /** The messages an operation records when it runs: a failing assertion's
      tagged message, a note's tagged text always, nothing otherwise. This is
      the reference table: `Step`'s contract is checked against it, and `Trace`
      collects it over a whole function. */
  function Emitted(op: Op): seq<string> {
    match op
    case Require(cond, msg) => if cond then [] else [ReqMessage(msg)]
    case Expect(cond, msg) => if cond then [] else [ExpMessage(msg)]
    case Note(msg) => [NoteMessage(msg)]
  }

  /** The messages of all the operations, in call order. */
  function Trace(ops: seq<Op>): seq<string>
    decreases |ops|
  {
    if ops == [] then [] else Emitted(ops[0]) + Trace(ops[1..])
  }

  datatype Flow = Continue(state: ContextState) | Abort(state: ContextState)

  /** One macro call against the active context. A failing REQUIRE records its
      message and leaves the test function (its `return false`); a failing
      EXPECT records its message and raises the flag; a NOTE records. */
  function Step(op: Op, c: ContextState): (f: Flow)
    ensures f.Abort? <==> HardFails(op)
    ensures f.state == ContextState(c.messages + Emitted(op), c.failed || SoftFails(op))
  {
    match op
    case Require(cond, msg) =>
      if cond then Continue(c) else Abort(c.(messages := c.messages + [ReqMessage(msg)]))
    case Expect(cond, msg) =>
      if cond then Continue(c) else Continue(ContextState(c.messages + [ExpMessage(msg)], true))
    case Note(msg) =>
      Continue(c.(messages := c.messages + [NoteMessage(msg)]))
  }

  /** What a call of the test function leaves behind: its return value and its
      context. */
  datatype Outcome = Outcome(returned: bool, context: ContextState)

  /** Running the operations from context c; `result` is what the function
      gives back if it gets to its end. The context only grows: earlier
      messages stay, a raised flag stays raised. */
  function Run(ops: seq<Op>, result: bool, c: ContextState): (o: Outcome)
    ensures |c.messages| <= |o.context.messages|
    ensures o.context.messages[..|c.messages|] == c.messages
    ensures c.failed ==> o.context.failed
    decreases |ops|
  {
    if ops == [] then Outcome(result, c)
    else match Step(ops[0], c)
      case Abort(c') => Outcome(false, c')
      case Continue(c') => Run(ops[1..], result, c')
  }

  /** The test function run in the fresh context RUN_TEST gives it: with no
      failing REQUIRE it returns its own value and leaves exactly its trace and
      the flag of its failed EXPECTs; with one it returns false. */
  function Execute(body: Body): (o: Outcome)
    ensures NoHardFailure(body.ops) ==>
              o == Outcome(body.result, ContextState(Trace(body.ops), AnySoftFailure(body.ops)))
    ensures !NoHardFailure(body.ops) ==> !o.returned
  {
    if NoHardFailure(body.ops) then
      RunWithoutHardFailure(body.ops, body.result, Fresh);
      assert Fresh.messages + Trace(body.ops) == Trace(body.ops);
      Run(body.ops, body.result, Fresh)
    else
      HardFailureReturnsFalse(body.ops, body.result, Fresh);
      Run(body.ops, body.result, Fresh)
  }

  /** RUN_TEST's verdict `fn() && !ctx.failed`: a test passes exactly when its
      function returns true and none of its REQUIREs and EXPECTs fails. */
  function Verdict(body: Body): (v: bool)
    ensures v <==> body.result && NoFailure(body.ops)
  {
    var o := Execute(body);
    o.returned && !o.context.failed
  }

  lemma AnySoftFailureCons(ops: seq<Op>)
    requires ops != []
    ensures AnySoftFailure(ops) <==> SoftFails(ops[0]) || AnySoftFailure(ops[1..])
  {
    assert ops == [ops[0]] + ops[1..];
  }

  lemma NoHardFailureTail(ops: seq<Op>)
    requires ops != [] && NoHardFailure(ops)
    ensures !HardFails(ops[0]) && NoHardFailure(ops[1..])
  {
    assert ops[0] in ops;
  }

  /** With no failing REQUIRE the function reaches its `return`: it gives back
      its own value, every operation's messages are appended in call order,
      and the flag is raised exactly when some EXPECT failed. */
  lemma {:induction false} RunWithoutHardFailure(ops: seq<Op>, result: bool, c: ContextState)
    requires NoHardFailure(ops)
    ensures Run(ops, result, c)
         == Outcome(result, ContextState(c.messages + Trace(ops), c.failed || AnySoftFailure(ops)))
    decreases |ops|
  {
    if ops == [] {
      assert c.messages + [] == c.messages;
    } else {
      NoHardFailureTail(ops);
      var c' := ContextState(c.messages + Emitted(ops[0]), c.failed || SoftFails(ops[0]));
      assert Run(ops, result, c) == Run(ops[1..], result, c') by {
        assert Step(ops[0], c) == Continue(c');
      }
      assert c'.messages + Trace(ops[1..]) == c.messages + Trace(ops) by {
        assert Trace(ops) == Emitted(ops[0]) + Trace(ops[1..]);
      }
      assert (c'.failed || AnySoftFailure(ops[1..])) == (c.failed || AnySoftFailure(ops)) by {
        AnySoftFailureCons(ops);
      }
      RunWithoutHardFailure(ops[1..], result, c');
    }
  }

  /** Operations that all pass through leave the rest of the run to start
      where they ended. */
  lemma {:induction false} RunAppend(a: seq<Op>, b: seq<Op>, result: bool, c: ContextState)
    requires NoHardFailure(a)
    ensures Run(a + b, result, c) == Run(b, result, Run(a, result, c).context)
    decreases |a|
  {
    if a == [] {
      assert a + b == b;
    } else {
      assert (a + b)[1..] == a[1..] + b;
      NoHardFailureTail(a);
      RunAppend(a[1..], b, result, Step(a[0], c).state);
    }
  }

  /** A failing REQUIRE ends the run where it stands: it appends its one "Req: "
      message to what came before and the function returns false, whatever
      follows it and whatever the function would have returned. */
  lemma RunStopsAtFailingRequire(pre: seq<Op>, msg: string, post: seq<Op>, result: bool, c: ContextState)
    requires NoHardFailure(pre)
    ensures Run(pre + [Require(false, msg)] + post, result, c)
         == Outcome(false, ContextState(c.messages + Trace(pre) + [ReqMessage(msg)],
                                        c.failed || AnySoftFailure(pre)))
  {
    assert pre + [Require(false, msg)] + post == pre + ([Require(false, msg)] + post);
    RunAppend(pre, [Require(false, msg)] + post, result, c);
    RunWithoutHardFailure(pre, result, c);
  }

  /** A run that meets a failing REQUIRE returns false. */
  lemma {:induction false} HardFailureReturnsFalse(ops: seq<Op>, result: bool, c: ContextState)
    requires !NoHardFailure(ops)
    ensures !Run(ops, result, c).returned
    decreases |ops|
  {
    if !HardFails(ops[0]) {
      assert ops == [ops[0]] + ops[1..];
      HardFailureReturnsFalse(ops[1..], result, Step(ops[0], c).state);
    }
  }

  /** An assertion that does not hold, hard or soft. */
  predicate Fails(op: Op) {
    HardFails(op) || SoftFails(op)
  }

  predicate NoFailure(ops: seq<Op>) {
    forall op :: op in ops ==> !Fails(op)
  }

  /** A NOTE never changes the verdict, wherever it stands in the function. */
  lemma NoteNeverAffectsVerdict(pre: seq<Op>, msg: string, post: seq<Op>, result: bool)
    ensures Verdict(Body(pre + [Note(msg)] + post, result)) == Verdict(Body(pre + post, result))
  {
    var withNote := pre + [Note(msg)] + post;
    var withoutNote := pre + post;
    assert forall op :: op in withNote <==> op in withoutNote || op == Note(msg);
  }

  lemma {:induction false} TraceOfPassingAssertions(ops: seq<Op>)
    requires forall i :: 0 <= i < |ops| ==> !ops[i].Note? && ops[i].cond
    ensures Trace(ops) == []
    decreases |ops|
  {
    if ops != [] {
      assert forall i :: 0 <= i < |ops[1..]| ==> ops[1..][i] == ops[i + 1];
      TraceOfPassingAssertions(ops[1..]);
    }
  }

  /** A function whose every REQUIRE and EXPECT holds and that returns true
      passes and leaves its context as fresh as it found it. */
  lemma PassingBodyLeavesNoMessages(body: Body)
    requires forall i :: 0 <= i < |body.ops| ==> !body.ops[i].Note? && body.ops[i].cond
    requires body.result
    ensures Verdict(body)
    ensures Execute(body).context == Fresh
  {
    RunWithoutHardFailure(body.ops, body.result, Fresh);
    TraceOfPassingAssertions(body.ops);
  }
}

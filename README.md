# Maat test harness, modelled in Dafny

Maat is a single-header C++ test harness (`include/maat.hpp`). A test is a
function returning `bool`. While it runs, the assertion macros write into the
test's `test_context`, which is reached through the `active_context` slot:

- `REQUIRE` is a hard assertion. When it fails it records `"Req: "+msg` and
  makes the test function `return false`.
- `EXPECT` is a soft assertion. When it fails it records `"Exp: "+msg`, sets
  `failed`, and the test goes on.
- `NOTE` records `"Note: "+msg`, but only while a test is active.

`RUN_TEST` does the following, in order:

1. Installs a fresh context and bumps the run counter.
2. Writes a progress line and calls the test function.
3. Takes `fn() && !ctx.failed` as the verdict and appends `{name, ok}` to the
   result ledger.
4. Writes a status line and one diagnostic line per recorded message.
5. Empties the slot.

`print_summary` counts the failed entries of the ledger. `SUBCAT` writes an
upper-cased section heading.

The project has four modules:

- `Decimal` (`decimal.dfy`) renders the counter and the counts in decimal, as
  `operator<<` writes a `size_t`. It also holds the reader that takes such a
  number back off the front of a line.
- `TestBody` (`body.dfy`) gives the meaning of a test function. A test function
  is a sequence of macro calls (`Require`, `Expect`, `Note`) followed by the
  value of its final `return`. `Run` runs those calls against a context value
  and stops at the first failing `REQUIRE`. `Verdict` is RUN_TEST's
  `fn() && !ctx.failed`. The lemmas characterise what a run leaves behind:
  - which messages are recorded, and in what order;
  - when the flag is raised;
  - when the verdict is true;
  - that a failing `REQUIRE` cuts the rest of the function off;
  - that `NOTE` never changes the verdict.
- `Report` (`report.dfy`) holds the ledger entry and every line the harness
  writes:
  - the progress, status and diagnostic lines;
  - the summary counts over the ledger and the summary line;
  - the `SUBCAT` heading, upper-cased in place in an array.

  The progress, status, diagnostic and summary lines each have a reader
  beside them. A round-trip lemma shows that the line gives back exactly what
  went into it, so the format can be scraped unambiguously. The `SUBCAT`
  heading has no reader; `Subcategory` states its text outright.
- `Maat` (`harness.dfy`) holds the state that changes in place:
  - the class `TestContext`, with its `messages` and `failed` fields;
  - the class `Harness`, with the `active` slot, the `results` ledger and the
    `counter`.

  The assertion macros and their comparison forms are methods that update the
  active context. `RunBody` executes a test function's calls one by one against
  the active context. It is proved equal to `Run`. `RunTest` and `PrintSummary`
  are proved against the functions of `TestBody` and `Report`. `Scenarios` runs
  three concrete tests on one harness: one passes, one stops at a `REQUIRE` and
  one goes on past an `EXPECT`. It then checks their ledger, their diagnostic
  lines and the summary counts: 1 passed, 2 failed, 3 total.

A failing `REQUIRE` does not set `failed` (include/maat.hpp:52-55); the verdict
is false because the function returns `false`.

## Model

| member | source | states |
|---|---|---|
| `Decimal.NatToString` | include/maat.hpp:96-101 | the number printed for the counter is a non-empty string of digits that starts with `0` only when the number is zero |
| `Decimal.ParseNatToString` | include/maat.hpp:96-101 | reading the printed digits back gives the number that was printed |
| `Decimal.LeadingDigitsAppend` | include/maat.hpp:101 | the digits of a printed number followed by `": "` end exactly where the number ends |
| `Decimal.ReadNatToString` | include/maat.hpp:101 | a printed number followed by text that does not start with a digit reads back as that number and that text |
| `TestBody.Step` | include/maat.hpp:49-85 | one macro call leaves the test function exactly when it is a failing REQUIRE; it appends exactly the messages of the reference table `Emitted` (`"Req: "`, `"Exp: "` or `"Note: "` plus the text, or nothing for a holding assertion) and raises the flag exactly when it is a failing EXPECT |
| `TestBody.Run` | include/maat.hpp:49-85 | running a test function's macro calls only appends to its context's messages and never lowers a raised `failed` flag |
| `TestBody.RunWithoutHardFailure` | include/maat.hpp:67-75 | with no failing REQUIRE, the function returns its own value, each call's message is appended in call order, and the flag ends raised exactly when it was already raised or some EXPECT failed |
| `TestBody.RunAppend` | include/maat.hpp:49-85 | calls that pass through without a hard failure hand the context on unchanged to the calls after them |
| `TestBody.RunStopsAtFailingRequire` | include/maat.hpp:49-57 | a failing REQUIRE appends exactly one `"Req: "+msg` after the earlier messages, makes the function return false, and nothing after it runs, since the result is the same for every continuation and every return value |
| `TestBody.HardFailureReturnsFalse` | include/maat.hpp:52-55 | a function that meets a failing REQUIRE returns false |
| `TestBody.Execute` | include/maat.hpp:93-97 | the call `fn()` on the fresh context: with no failing REQUIRE it returns the function's own value and leaves exactly the call-order trace of messages and a flag raised exactly when some EXPECT failed; with a failing REQUIRE it returns false |
| `TestBody.Verdict` | include/maat.hpp:97 | the verdict `fn() && !ctx.failed` is true if and only if the function returns true and none of its REQUIREs or EXPECTs fails |
| `TestBody.NoteNeverAffectsVerdict` | include/maat.hpp:84-85 | adding a NOTE anywhere in a test function leaves the verdict unchanged |
| `TestBody.TraceOfPassingAssertions` | include/maat.hpp:52-53 | REQUIREs and EXPECTs whose conditions hold record no message |
| `TestBody.PassingBodyLeavesNoMessages` | include/maat.hpp:27 | starting from the fresh context, a function whose every assertion holds and that returns true passes and leaves no message and no flag |
| `Report.TestResult` | include/maat.hpp:18-22 | a ledger entry holds the test's name and whether it passed |
| `Report.ProgressLine` | include/maat.hpp:96 | the progress line is the sequence number, `": "`, the name and `"... "`; `ProgressLineRoundTrip` shows it reads back as the number and the name |
| `Report.ProgressLineRoundTrip` | include/maat.hpp:96 | the progress line reads back as its sequence number and test name, whatever the name |
| `Report.StatusLine` | include/maat.hpp:99-102 | the status line is `"[ ok ] "` or `"[FAIL] "`, the sequence number, `": "` and the name; `StatusLineRoundTrip` shows it reads back as those three |
| `Report.DiagnosticLine` | include/maat.hpp:104 | the diagnostic line is `"    - "` and the message; `DiagnosticRoundTrip` shows the message is recovered from it |
| `Report.FormatDiagnostics` | include/maat.hpp:103-104 | the diagnostic lines are `"    - "+m` for each recorded message `m`, one per message, in recording order |
| `Report.DiagnosticRoundTrip` | include/maat.hpp:104 | stripping the bullet from a diagnostic line gives back the message |
| `Report.StatusLineRoundTrip` | include/maat.hpp:99-102 | the status line reads back as its verdict, sequence number and test name, whatever the name, and it starts with `"[ ok ] "` exactly when the verdict is true |
| `Report.FailedCount` | include/maat.hpp:113-114 | the number of failed entries never exceeds the ledger's size |
| `Report.FailedCountIsCardinality` | include/maat.hpp:113-114 | the count equals the number of ledger positions whose entry has `!passed` |
| `Report.Tally` | include/maat.hpp:111-119 | total is the ledger size, failed is the number of failed entries, and passed + failed = total, so `size - failed` never underflows |
| `Report.TallyAppend` | include/maat.hpp:98 | appending one ledger entry raises the total by one and raises exactly one of passed and failed by one, depending on the entry's verdict |
| `Report.TallyNoFailures` | include/maat.hpp:113-114 | the failed count is zero if and only if every entry passed |
| `Report.SummaryLine` | include/maat.hpp:116-119 | the summary line is `"Summary: "`, passed, `" passed, "`, failed, `" failed, "`, total and `" total."`; `SummaryRoundTrip` shows it reads back as the three counts |
| `Report.SummaryRoundTrip` | include/maat.hpp:116-119 | the summary line reads back as the three counts it was written from |
| `Report.EmptyLedgerSummary` | include/maat.hpp:111-119 | an empty ledger gives 0 passed, 0 failed, 0 total |
| `Report.UpperChar` | include/maat.hpp:129 | `::toupper` on one character: the result is never a lower-case ASCII letter; a lower-case letter becomes the upper-case letter 32 below it; every other character is left alone |
| `Report.Upper` | include/maat.hpp:129 | upper-casing a text keeps its length, leaves no lower-case ASCII letter, lifts each one by 32, and leaves every other character where it was |
| `Report.UpperIdempotent` | include/maat.hpp:129 | upper-casing twice gives the same as upper-casing once |
| `Report.UppercaseInPlace` | include/maat.hpp:128-129 | the array holding the label's copy is replaced, in place, by its upper-cased contents |
| `Report.Subcategory` | include/maat.hpp:125-132 | the heading is seven dashes, the upper-cased label and fourteen dashes |
| `Maat.TestContext.constructor` | include/maat.hpp:24-28 | a new context has no messages and `failed == false` |
| `Maat.Harness.constructor` | include/maat.hpp:30-42 | the slot starts null, the ledger empty and the counter at zero |
| `Maat.Harness.Require` | include/maat.hpp:49-57 | a false condition appends exactly `"Req: "+msg` and signals the function to return false; a true one changes nothing; the flag is never touched |
| `Maat.Harness.ReqEq` | include/maat.hpp:60 | REQUIRE on `lhs == rhs` |
| `Maat.Harness.ReqNeq` | include/maat.hpp:61 | REQUIRE on `lhs != rhs` |
| `Maat.Harness.Expect` | include/maat.hpp:67-75 | a false condition appends exactly `"Exp: "+msg` and sets `failed`; a true one leaves messages and flag unchanged |
| `Maat.Harness.ExpEq` | include/maat.hpp:77 | EXPECT on `lhs == rhs` |
| `Maat.Harness.ExpNeq` | include/maat.hpp:78 | EXPECT on `lhs != rhs` |
| `Maat.Harness.Note` | include/maat.hpp:84-85 | with an active context, appends exactly `"Note: "+msg` and keeps the flag; with none, changes nothing |
| `Maat.Harness.RunBody` | include/maat.hpp:97 | executing the test function's calls one by one on the active context returns and leaves exactly what `Run` gives |
| `Maat.Harness.RunTest` | include/maat.hpp:90-106 | the counter rises by exactly one, and exactly one entry, the name with the verdict of a run from a fresh context, is appended after the unchanged earlier entries; the slot ends null; counter = ledger length is preserved (for test functions that return); the progress, status and diagnostic lines are those of that run |
| `Maat.Harness.PrintSummary` | include/maat.hpp:111-120 | reads the ledger without changing it; the counts satisfy passed + failed = total = ledger size, failed is the number of failed entries, and the line is the summary of those counts |
| `Maat.RequireScenario` | include/maat.hpp:49-57 | a function that calls REQUIRE(1 == 2, "mismatch") and then returns true returns false and records only `"Req: mismatch"` |
| `Maat.TallyOfThree` | include/maat.hpp:113-119 | a ledger of one passed and two failed entries is summed as 1 passed, 2 failed, 3 total |
| `Maat.Scenarios` | include/maat.hpp:90-119 | one harness runs a passing test, a test stopped by a failing REQUIRE and a test with a failing EXPECT; the summary then counts 1 passed, 2 failed, 3 total, and the line is the summary text of those counts |
| `Maat.ExpectScenario` | include/maat.hpp:67-75 | a function that calls EXPECT(1 == 2, "a") and EXPECT(3 == 3, "b") and then returns true returns true, raises the flag and records only `"Exp: a"` |

## Left out

- Writing to `std::cout` is left out. This includes the `'\r'` that overwrites the progress line, the `std::endl` after each line and the empty line before the summary. The model gives each line's text as a value.
- `thread_local` storage is left out. The slot, the ledger and the counter are fields of one `Harness` object, which stands for one thread. No concurrency is modelled.
- The `#fn` stringification is left out. The test name is a parameter of `RunTest`.
- `Maat.Harness.ReqEq`: models REQ_EQ as a plain comparison of two values. The textual expansion `REQUIRE(lhs == rhs, ...)` lacks the parentheses that `EXP_EQ` has, so an argument with an operator of lower precedence than `==` (such as `x & 1`) changes the comparison in C++. Operator precedence is not modelled.
- `Maat.Harness.ReqNeq`: the same, for REQ_NEQ and `!=`.
- `Maat.Harness.Require`, `Maat.Harness.Expect` and their comparison forms require an active context. With no active test the source dereferences a null pointer, which is undefined behaviour and is not modelled.
- A test function is a finite sequence of macro calls followed by its return value. This leaves out several kinds of C++ code:
  - arbitrary code between the calls;
  - crashes and non-termination inside a test;
  - exceptions thrown out of a test function (see the next line);
  - helper functions that call the macros (a REQUIRE there returns from the helper, not from the test);
  - a test that itself calls RUN_TEST, whose nested run would overwrite the slot.
- `Maat.Harness.RunTest`: a test function that throws is not modelled. RUN_TEST has no `try` (include/maat.hpp:90-106). If `fn()` throws, the counter has already risen, the ledger entry is never appended, and `active_context` is left pointing at the destroyed context. A caller that catches the exception goes on with the counter one ahead of the ledger for good. So `Harness.Valid` (counter = ledger length) and its preservation by `RunTest` hold only for test functions that return.
- `Maat.Harness.RunTest`: the counter is an unbounded natural number. The wrap-around of the `size_t` counter after 2^64 runs is not modelled.
- `Report.Upper`: models `::toupper` for the "C" locale on ASCII only. Other locales, and the undefined behaviour of passing a negative `char`, are not modelled.

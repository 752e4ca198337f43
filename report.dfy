/** The ledger entry and everything the harness writes: the progress and status
    lines of one run, its diagnostic lines, the summary counted over the ledger,
    and the SUBCAT heading. Each writer has a reader beside it showing that
    the line gives back what went into it. */
module Report {
  import opened Decimal

  /** One entry of the result ledger (`test_result`). */
  datatype TestResult = TestResult(name: string, passed: bool)

  const OkTag := "[ ok ] "
  const FailTag := "[FAIL] "
  const Bullet := "    - "

  /** The line written before the test function runs: "<n>: <name>... ". */
  function ProgressLine(n: nat, name: string): string {
    NatToString(n) + ": " + name + "... "
  }

  /** Reads a progress line back: its sequence number and the name between
      ": " and the closing "... ". */
  function ParseProgress(line: string): Option<(nat, string)> {
    match ReadNat(line)
    case None => None
    case Some((n, rest)) =>
      if |rest| >= 6 && rest[..2] == ": " && rest[|rest| - 4..] == "... " then Some((n, rest[2..|rest| - 4]))
      else None
  }

  /** The progress line gives back the sequence number and the name, whatever
      the name is. */
  lemma ProgressLineRoundTrip(n: nat, name: string)
    ensures ParseProgress(ProgressLine(n, name)) == Some((n, name))
  {
    var rest := ": " + name + "... ";
    assert ProgressLine(n, name) == NatToString(n) + rest;
    ReadNatToString(n, rest);
    assert rest[..2] == ": " && rest[|rest| - 4..] == "... " && rest[2..|rest| - 4] == name;
  }

  /** The line that overwrites the progress line once the verdict is known. */
  function StatusLine(ok: bool, n: nat, name: string): string {
    (if ok then OkTag else FailTag) + NatToString(n) + ": " + name
  }

  datatype Status = Status(ok: bool, number: nat, name: string)

  /** Reads a status line back: its tag, its sequence number and the name. */
  function ParseStatus(line: string): Option<Status> {
    if |line| < |OkTag| || (line[..|OkTag|] != OkTag && line[..|OkTag|] != FailTag) then None
    else match ReadNat(line[|OkTag|..])
      case None => None
      case Some((n, rest)) =>
        if |rest| >= 2 && rest[..2] == ": " then Some(Status(line[..|OkTag|] == OkTag, n, rest[2..]))
        else None
  }

  /** The status line carries the verdict, the sequence number and the name
      unambiguously, whatever the name is; in particular it starts with
      "[ ok ] " exactly when the test passed. */
  lemma StatusLineRoundTrip(ok: bool, n: nat, name: string)
    ensures ParseStatus(StatusLine(ok, n, name)) == Some(Status(ok, n, name))
    ensures StatusLine(ok, n, name)[..|OkTag|] == OkTag <==> ok
  {
    var tag := if ok then OkTag else FailTag;
    var rest := ": " + name;
    var tail := NatToString(n) + rest;
    var line := StatusLine(ok, n, name);
    assert line == tag + tail;
    assert line[..|OkTag|] == tag;
    assert line[|OkTag|..] == tail;
    assert FailTag[1] != OkTag[1];
    ReadNatToString(n, rest);
    assert rest[..2] == ": ";
    assert rest[2..] == name;
  }

  /** The line written for one recorded message. */
  function DiagnosticLine(msg: string): string {
    Bullet + msg
  }

  function ParseDiagnostic(line: string): Option<string> {
    if |line| >= |Bullet| && line[..|Bullet|] == Bullet then Some(line[|Bullet|..]) else None
  }

  /** Stripping the bullet from a diagnostic line gives back the message. */
  lemma DiagnosticRoundTrip(msg: string)
    ensures ParseDiagnostic(DiagnosticLine(msg)) == Some(msg)
  {
    assert DiagnosticLine(msg)[..|Bullet|] == Bullet;
    assert DiagnosticLine(msg)[|Bullet|..] == msg;
  }

  /** The loop over `ctx.messages`: one diagnostic line per message, in the
      order the messages were recorded. */
  method FormatDiagnostics(messages: seq<string>) returns (lines: seq<string>)
    ensures |lines| == |messages|
    ensures forall k :: 0 <= k < |lines| ==> lines[k] == DiagnosticLine(messages[k])
  {
    lines := [];
    for j := 0 to |messages|
      invariant |lines| == j
      invariant forall k :: 0 <= k < j ==> lines[k] == DiagnosticLine(messages[k])
    {
      lines := lines + [DiagnosticLine(messages[j])];
    }
  }

  /** The number of entries with `!passed` (the `count_if` of print_summary),
      counted from the end of the ledger. */
  function FailedCount(results: seq<TestResult>): (f: nat)
    ensures f <= |results|
    decreases |results|
  {
    if results == [] then 0
    else FailedCount(results[..|results| - 1]) + (if results[|results| - 1].passed then 0 else 1)
  }

  /** The positions of the failed entries. */
  function FailedPositions(results: seq<TestResult>): set<nat> {
    set i: nat | i < |results| && !results[i].passed
  }

  /** Counting agrees with the number of failed positions. */
  lemma {:induction false} FailedCountIsCardinality(results: seq<TestResult>)
    ensures FailedCount(results) == |FailedPositions(results)|
    decreases |results|
  {
    if results != [] {
      var init := results[..|results| - 1];
      var last := |results| - 1;
      FailedCountIsCardinality(init);
      if results[last].passed {
        assert FailedPositions(results) == FailedPositions(init);
      } else {
        assert FailedPositions(results) == FailedPositions(init) + {last};
      }
    }
  }

  /** The three numbers of the summary. */
  datatype Counts = Counts(passed: nat, failed: nat, total: nat)

  /** print_summary's arithmetic: `failed` entries failed, the others passed,
      so that the `size - failed` subtraction never goes below zero. */
  function Tally(results: seq<TestResult>): (t: Counts)
    ensures t.total == |results| && t.passed + t.failed == t.total
    ensures t.failed == |FailedPositions(results)|
  {
    FailedCountIsCardinality(results);
    var f := FailedCount(results);
    Counts(|results| - f, f, |results|)
  }

  /** Recording one more result moves exactly one of the two counts by one. */
  lemma TallyAppend(results: seq<TestResult>, r: TestResult)
    ensures Tally(results + [r]).failed == Tally(results).failed + (if r.passed then 0 else 1)
    ensures Tally(results + [r]).passed == Tally(results).passed + (if r.passed then 1 else 0)
    ensures Tally(results + [r]).total == Tally(results).total + 1
  {
    assert (results + [r])[..|results|] == results;
  }

  /** No failure is counted exactly when every entry passed. */
  lemma TallyNoFailures(results: seq<TestResult>)
    ensures Tally(results).failed == 0 <==> forall i :: 0 <= i < |results| ==> results[i].passed
  {
    if Tally(results).failed == 0 {
      assert FailedPositions(results) == {};
      forall i | 0 <= i < |results| ensures results[i].passed {
        assert i !in FailedPositions(results);
      }
    } else {
      var i :| i in FailedPositions(results);
      assert !results[i].passed;
    }
  }

  /** The text of the summary line (without the empty line printed before it). */
  function SummaryLine(c: Counts): string {
    "Summary: " + NatToString(c.passed) + " passed, " + NatToString(c.failed) + " failed, "
    + NatToString(c.total) + " total."
  }

  /** Reads `<text><number><rest>` and returns the number and the rest. */
  function ReadAfter(text: string, s: string): Option<(nat, string)> {
    if |s| >= |text| && s[..|text|] == text then ReadNat(s[|text|..]) else None
  }

  function ParseSummary(line: string): Option<Counts> {
    match ReadAfter("Summary: ", line)
    case None => None
    case Some((p, r1)) =>
      match ReadAfter(" passed, ", r1)
      case None => None
      case Some((f, r2)) =>
        match ReadAfter(" failed, ", r2)
        case None => None
        case Some((t, r3)) => if r3 == " total." then Some(Counts(p, f, t)) else None
  }

  lemma ReadAfterRoundTrip(text: string, n: nat, rest: string)
    requires rest == [] || !IsDigit(rest[0])
    ensures ReadAfter(text, text + NatToString(n) + rest) == Some((n, rest))
  {
    var s := text + NatToString(n) + rest;
    assert s[..|text|] == text;
    assert s[|text|..] == NatToString(n) + rest;
    ReadNatToString(n, rest);
  }

  /** The summary line gives back the three counts it was written from. */
  lemma SummaryRoundTrip(c: Counts)
    ensures ParseSummary(SummaryLine(c)) == Some(c)
  {
    var p, f, t := NatToString(c.passed), NatToString(c.failed), NatToString(c.total);
    var r3 := " total.";
    var r2 := " failed, " + t + r3;
    var r1 := " passed, " + f + r2;
    assert SummaryLine(c) == "Summary: " + p + r1;
    ReadAfterRoundTrip("Summary: ", c.passed, r1);
    ReadAfterRoundTrip(" passed, ", c.failed, r2);
    ReadAfterRoundTrip(" failed, ", c.total, r3);
  }

  /** An empty ledger gives an all-zero summary. */
  lemma EmptyLedgerSummary()
    ensures Tally([]) == Counts(0, 0, 0)
    ensures SummaryLine(Tally([])) == "Summary: 0 passed, 0 failed, 0 total."
  {
    assert NatToString(0) == "0";
    assert SummaryLine(Counts(0, 0, 0)) == "Summary: " + "0" + " passed, " + "0" + " failed, " + "0" + " total.";
  }

  /** `::toupper` in the "C" locale: an ASCII lower-case letter becomes its
      upper-case letter, every other character is left alone. */
  function UpperChar(c: char): (u: char)
    ensures !('a' <= u <= 'z')
    ensures 'a' <= c <= 'z' ==> 'A' <= u <= 'Z' && u as int == c as int - 32
    ensures !('a' <= c <= 'z') ==> u == c
  {
    if 'a' <= c <= 'z' then (c as int - 'a' as int + 'A' as int) as char else c
  }

  /** The text upper-cased character by character: its length is kept, no
      lower-case letter is left, and every character that was not a lower-case
      letter stays where it was. */
  function Upper(s: string): (u: string)
    ensures |u| == |s|
    ensures forall i :: 0 <= i < |s| ==> !('a' <= u[i] <= 'z')
    ensures forall i :: 0 <= i < |s| && !('a' <= s[i] <= 'z') ==> u[i] == s[i]
    ensures forall i :: 0 <= i < |s| && 'a' <= s[i] <= 'z' ==> u[i] as int == s[i] as int - 32
  {
    seq(|s|, i requires 0 <= i < |s| => UpperChar(s[i]))
  }

  /** Upper-casing twice is upper-casing once. */
  lemma UpperIdempotent(s: string)
    ensures Upper(Upper(s)) == Upper(s)
  {
    var u := Upper(s);
    assert forall i :: 0 <= i < |u| ==> Upper(u)[i] == u[i];
  }

  /** The `std::transform(..., ::toupper)` over the title's copy, in place. */
  method UppercaseInPlace(a: array<char>)
    modifies a
    ensures a[..] == Upper(old(a[..]))
  {
    for i := 0 to a.Length
      invariant forall k :: 0 <= k < i ==> a[k] == UpperChar(old(a[k]))
      invariant forall k :: i <= k < a.Length ==> a[k] == old(a[k])
    {
      a[i] := UpperChar(a[i]);
    }
  }

  const HeadingLeft := "-------"
  const HeadingRight := "--------------"

  /** SUBCAT: the title, upper-cased, between the two dividers. */
  method Subcategory(title: string) returns (heading: string)
    ensures |heading| == |HeadingLeft| + |title| + |HeadingRight|
    ensures heading == HeadingLeft + Upper(title) + HeadingRight
  {
    var a := new char[|title|](i requires 0 <= i < |title| => title[i]);
    assert a[..] == title;
    UppercaseInPlace(a);
    heading := HeadingLeft + a[..] + HeadingRight;
  }
}

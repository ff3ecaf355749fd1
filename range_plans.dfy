/** The page-range plans of llm_scheduler_half.py, llm_scheduler_v2.py and
    llm_scheduler_v3.py: the oracle answers with lines `agent: start-end`,
    each agent is then sent the text of every page in its range, one page per
    call. Pages are the texts the PDF library extracted, in page order; a
    missing or unreadable PDF is `None`. */
module RangePlans {
  import opened Wrappers
  import Text
  import PyDict
  import opened Dispatch
  import opened Memory
  import opened Conclusion
  import opened JsonData
  import opened Overwriting

  /** Agent name to the range text the oracle gave it. */
  type RangePlan = PyDict.Dict<string, string>

  /** What reading a missing or unreadable PDF raises. */
  const PdfError := PyError("PdfReadError")

  // ------------------------------------------------------------ parse_task_assignment

  /** One line of `parse_task_assignment`: nothing without a `:`, a
      `ValueError` from `agent, pages = line.split(":")` unless there are
      exactly two fields, else both fields stripped. */
  function AssignLine(line: string): (r: Result<Option<(string, string)>, PyError>)
    ensures r.Err? ==> r.error == ValueError
  {
    if ':' !in line then Ok(None)
    else
      var fields := Text.SplitOn(line, ':');
      if |fields| != 2 then Err(ValueError) else Ok(Some((Text.Strip(fields[0]), Text.Strip(fields[1]))))
  }

  /** The plan after the given lines; an assignment that raises ends it. */
  function Assignment(lines: seq<string>): Result<RangePlan, PyError>
  {
    if lines == [] then Ok([])
    else
      match Assignment(lines[..|lines| - 1])
      case Err(e) => Err(e)
      case Ok(plan) =>
        match AssignLine(lines[|lines| - 1])
        case Err(e) => Err(e)
        case Ok(None) => Ok(plan)
        case Ok(Some(p)) => Ok(PyDict.Set(plan, p.0, p.1))
  }

  /** `parse_task_assignment(text)`: `plan[agent] = pages` for each line. */
  method ParseAssignment(text: string) returns (r: Result<RangePlan, PyError>)
    ensures r == Assignment(Text.SplitLines(text))
  {
    var lines := Text.SplitLines(text);
    var plan: RangePlan := [];
    var i := 0;
    while i < |lines|
      invariant 0 <= i <= |lines|
      invariant Assignment(lines[..i]) == Ok(plan)
    {
      assert lines[..i + 1][..i] == lines[..i];
      var line := lines[i];
      if ':' in line {
        var fields := Text.SplitOn(line, ':');
        if |fields| != 2 {
          AssignmentErrSticky(lines, i + 1);
          assert lines[..|lines|] == lines;
          return Err(ValueError);
        }
        plan := PyDict.Set(plan, Text.Strip(fields[0]), Text.Strip(fields[1]));
      }
      i := i + 1;
    }
    assert lines[..i] == lines;
    r := Ok(plan);
  }

  /** Once a line raises, every longer prefix raises the same error. */
  lemma {:induction false} AssignmentErrSticky(lines: seq<string>, n: nat)
    requires n <= |lines| && Assignment(lines[..n]).Err?
    ensures Assignment(lines) == Assignment(lines[..n])
    decreases |lines| - n
  {
    if n < |lines| {
      assert lines[..n + 1][..n] == lines[..n];
      AssignmentErrSticky(lines, n + 1);
    } else {
      assert lines[..n] == lines;
    }
  }

  /** The lines that make `line.split(":")` unpack wrongly. */
  predicate Misassigned(line: string)
  {
    Text.Count(line, ':') >= 2
  }

  /** A line holds `:` exactly when it has more than one field. */
  lemma ColonFields(line: string)
    ensures ':' in line <==> |Text.SplitOn(line, ':')| >= 2
    ensures |Text.SplitOn(line, ':')| == Text.Count(line, ':') + 1
  {
    Text.SplitCount(line, ':');
    if ':' !in line {
      Text.CountZero(line, ':');
    }
  }

  /** The assignment raises exactly when some line holds two or more `:`. */
  lemma {:induction false} AssignmentErrIff(lines: seq<string>)
    ensures Assignment(lines).Err? <==> exists i :: 0 <= i < |lines| && Misassigned(lines[i])
  {
    if lines != [] {
      var init := lines[..|lines| - 1];
      var last := lines[|lines| - 1];
      AssignmentErrIff(init);
      ColonFields(last);
      assert AssignLine(last).Err? <==> Misassigned(last);
      if exists i :: 0 <= i < |init| && Misassigned(init[i]) {
        var i :| 0 <= i < |init| && Misassigned(init[i]);
        assert lines[i] == init[i];
      }
      if exists i :: 0 <= i < |lines| && Misassigned(lines[i]) {
        var i :| 0 <= i < |lines| && Misassigned(lines[i]);
        if i < |init| {
          assert init[i] == lines[i];
        }
      }
    }
  }

  /** The range given by the last line naming `agent`, found from the end. */
  function LastAssigned(lines: seq<string>, agent: string): Option<string>
  {
    if lines == [] then None
    else
      var a := AssignLine(lines[|lines| - 1]);
      if a.Ok? && a.value.Some? && a.value.value.0 == agent then Some(a.value.value.1)
      else LastAssigned(lines[..|lines| - 1], agent)
  }

  /** A later line naming the same agent overrides an earlier one: each
      agent holds the range of the last line naming it, and only named agents
      are planned. */
  lemma {:induction false} AssignmentLastWins(lines: seq<string>, agent: string)
    requires Assignment(lines).Ok?
    ensures PyDict.Lookup(Assignment(lines).value, agent) == LastAssigned(lines, agent)
  {
    if lines != [] {
      var init := lines[..|lines| - 1];
      AssignmentLastWins(init, agent);
      var a := AssignLine(lines[|lines| - 1]);
      if a.Ok? && a.value.Some? {
        PyDict.SetLookup(Assignment(init).value, a.value.value.0, a.value.value.1, agent);
      }
    }
  }

  // ------------------------------------------------------------ the text plan

  /** The text before a line's first `:` (the whole line without one), stripped. */
  function Head(line: string): string
  {
    Text.Strip(Text.SplitOn(line, ':')[0])
  }

  /** `":".join(l.split(":")[1:]).strip()`. */
  function Tail(line: string): string
  {
    Text.Strip(Text.JoinWith(Text.SplitOn(line, ':')[1..], ":"))
  }

  /** The dict built from the text reply's lines (llm_scheduler_half.py and
      llm_scheduler_v2.py): lines holding a `:` whose head names a registry
      agent, mapped to their tail; the last such line per agent wins. */
  function TextPlan(lines: seq<string>): RangePlan
  {
    if lines == [] then []
    else
      var plan := TextPlan(lines[..|lines| - 1]);
      var l := lines[|lines| - 1];
      if ':' in l && Head(l) in Registry then PyDict.Set(plan, Head(l), Tail(l)) else plan
  }

  /** The tail is everything after the first `:`, stripped, later colons kept. */
  lemma TailAfterFirstColon(line: string)
    requires ':' in line
    ensures Tail(line) == Text.Strip(line[Text.IndexOf(line, ':') + 1..])
  {
    var i := Text.IndexOf(line, ':');
    assert Text.SplitOn(line, ':')[1..] == Text.SplitOn(line[i + 1..], ':');
    Text.SplitJoin(line[i + 1..], ':');
  }

  /** A single line `a:rest` whose head names a registry agent maps it to the
      whole of `rest`, stripped. */
  lemma TailKeepsColons(a: string, rest: string)
    requires ':' !in a && Text.Strip(a) in Registry
    ensures TextPlan([a + ":" + rest]) == [(Text.Strip(a), Text.Strip(rest))]
  {
    var line := a + ":" + rest;
    assert line == a + [':'] + rest;
    Text.SplitOnAfterPrefix(a, ':', rest);
    Text.IndexOfAfterPrefix(a, ':', rest);
    assert line[|a|] == ':' && line[|a| + 1..] == rest;
    TailAfterFirstColon(line);
    assert Head(line) == Text.Strip(a);
    assert [line][..0] == [];
  }

  /** The text plan names registry agents only, and gives each the tail of
      the last line naming it. */
  lemma {:induction false} TextPlanSpec(lines: seq<string>, agent: string)
    ensures forall a :: a in PyDict.Keys(TextPlan(lines)) ==> a in Registry
    ensures PyDict.Lookup(TextPlan(lines), agent) == LastNamed(lines, agent)
  {
    if lines != [] {
      var init := lines[..|lines| - 1];
      var l := lines[|lines| - 1];
      TextPlanSpec(init, agent);
      if ':' in l && Head(l) in Registry {
        PyDict.SetSpec(TextPlan(init), Head(l), Tail(l));
        PyDict.SetLookup(TextPlan(init), Head(l), Tail(l), agent);
      }
    }
  }

  /** The tail of the last line that holds a `:` and whose head is `agent`. */
  function LastNamed(lines: seq<string>, agent: string): Option<string>
  {
    if lines == [] then None
    else
      var l := lines[|lines| - 1];
      if ':' in l && Head(l) == agent && agent in Registry then Some(Tail(l))
      else LastNamed(lines[..|lines| - 1], agent)
  }

  /** `plan(task, is_pdf, pdf_file)` with a stripped reply
      (llm_scheduler_half.py and llm_scheduler_v2.py): the PDF is read
      first, so a missing one raises before the oracle's reply is used. */
  function StrippedPlan(isPdf: bool, pages: Option<seq<string>>, reply: string): Result<RangePlan, PyError>
  {
    var lines := Text.SplitLines(Text.Strip(reply));
    if isPdf then (if pages.None? then Err(PdfError) else Assignment(lines))
    else Ok(TextPlan(lines))
  }

  /** The stripped plan raises only for a PDF task: a `PdfReadError` when
      the PDF is missing, else a `ValueError` when some line of the reply
      holds two or more `:`. A text plan names registry agents only. */
  lemma StrippedPlanSpec(isPdf: bool, pages: Option<seq<string>>, reply: string)
    ensures var lines := Text.SplitLines(Text.Strip(reply));
      StrippedPlan(isPdf, pages, reply).Err? <==> isPdf && (pages.None? || exists i :: 0 <= i < |lines| && Misassigned(lines[i]))
    ensures StrippedPlan(isPdf, pages, reply).Err? ==>
      StrippedPlan(isPdf, pages, reply).error == if pages.None? then PdfError else ValueError
    ensures !isPdf ==> forall a :: a in PyDict.Keys(StrippedPlan(isPdf, pages, reply).value) ==> a in Registry
  {
    var lines := Text.SplitLines(Text.Strip(reply));
    AssignmentErrIff(lines);
    AssignmentErrKind(lines);
    TextPlanSpec(lines, "");
    if isPdf && pages.Some? {
      assert StrippedPlan(isPdf, pages, reply) == Assignment(lines);
    }
  }

  /** The only error an assignment raises is a `ValueError`. */
  lemma {:induction false} AssignmentErrKind(lines: seq<string>)
    ensures Assignment(lines).Err? ==> Assignment(lines).error == ValueError
  {
    if lines != [] {
      AssignmentErrKind(lines[..|lines| - 1]);
    }
  }

  /** `plan(...)` as a statement sequence. */
  method MakeStrippedPlan(isPdf: bool, pages: Option<seq<string>>, reply: string) returns (r: Result<RangePlan, PyError>)
    ensures r == StrippedPlan(isPdf, pages, reply)
  {
    if isPdf {
      if pages.None? {
        return Err(PdfError);
      }
      r := ParseAssignment(Text.Strip(reply));
    } else {
      r := Ok(TextPlan(Text.SplitLines(Text.Strip(reply))));
    }
  }

  // ------------------------------------------------------------ ranges and pages

  /** `start, end = map(int, rng.split('-'))`: a `ValueError` unless the
      range has exactly two fields that both read as integers. */
  function Bounds(range: string): (r: Result<(int, int), PyError>)
    ensures r.Err? ==> r.error == ValueError
  {
    var fields := Text.SplitOn(range, '-');
    if |fields| != 2 then Err(ValueError)
    else
      match (Text.PyInt(fields[0]), Text.PyInt(fields[1]))
      case (Some(m), Some(n)) => Ok((m, n))
      case _ => Err(ValueError)
  }

  /** Stripping only removes characters. */
  lemma {:induction false} StripKeeps(s: string, c: char)
    requires c !in s
    ensures c !in Text.Strip(s)
  {
    StripLeftKeeps(s, c);
    StripRightKeeps(Text.StripLeft(s), c);
  }

  lemma {:induction false} StripLeftKeeps(s: string, c: char)
    requires c !in s
    ensures c !in Text.StripLeft(s)
  {
    if s != [] && Text.IsSpace(s[0]) {
      assert c !in s[1..];
      StripLeftKeeps(s[1..], c);
    }
  }

  lemma {:induction false} StripRightKeeps(s: string, c: char)
    requires c !in s
    ensures c !in Text.StripRight(s)
  {
    if s != [] && Text.IsSpace(s[|s| - 1]) {
      assert c !in s[..|s| - 1];
      StripRightKeeps(s[..|s| - 1], c);
    }
  }

  /** A field without `-` never reads as a negative number. */
  lemma PyIntWithoutMinus(s: string)
    requires '-' !in s && Text.PyInt(s).Some?
    ensures Text.PyInt(s).value >= 0
  {
    StripKeeps(s, '-');
  }

  /** Since `-` separates the two fields, both bounds are at least 0. */
  lemma BoundsNonNegative(range: string)
    requires Bounds(range).Ok?
    ensures Bounds(range).value.0 >= 0 && Bounds(range).value.1 >= 0
  {
    var fields := Text.SplitOn(range, '-');
    Text.SplitJoin(range, '-');
    assert '-' !in fields[0] && '-' !in fields[1];
    PyIntWithoutMinus(fields[0]);
    PyIntWithoutMinus(fields[1]);
  }

  /** `f"{m}-{n}"` reads back as `(m, n)`. */
  lemma BoundsOfPrinted(m: nat, n: nat)
    ensures Bounds(Text.NatToString(m) + "-" + Text.NatToString(n)) == Ok((m, n))
  {
    var a, b := Text.NatToString(m), Text.NatToString(n);
    var range := a + "-" + b;
    assert '-' !in a && '-' !in b by {
      assert forall k :: 0 <= k < |a| ==> Text.IsDigit(a[k]);
      assert forall k :: 0 <= k < |b| ==> Text.IsDigit(b[k]);
    }
    assert range == a + ['-'] + b;
    Text.IndexOfAfterPrefix(a, '-', b);
    assert range[..|a|] == a && range[|a| + 1..] == b;
    assert Text.SplitOn(range, '-') == [a, b];
    Text.PyIntOfIntToString(m);
    Text.PyIntOfIntToString(n);
  }

  /** `pdf_pages[start - 1:end]` for a range starting at page 1 or later:
      pages `start` to `end`, cut at the last page. */
  lemma PagesInRange<T>(pages: seq<T>, m: int, n: int)
    requires 1 <= m && 0 <= n
    ensures var hi := if n < |pages| then n else |pages|;
      Text.Slice(pages, m - 1, n) == if m - 1 < hi then pages[m - 1..hi] else []
  {
  }

  /** A range starting at page 0 starts the slice at index -1: the last page
      alone, and only when the range reaches it. */
  lemma PagesFromZero<T>(pages: seq<T>, n: int)
    ensures Text.Slice(pages, -1, n) == if pages != [] && n >= |pages| then [pages[|pages| - 1]] else []
  {
  }

  // ------------------------------------------------------------ the calls

  /** The calls `dispatch` makes, in order: for each planned agent, its
      range is read and the PDF split, then one call per page; a range that
      does not read, or a missing PDF, raises at that point. */
  function RangeWorks(plan: RangePlan, pages: Option<seq<string>>): seq<Work>
  {
    if plan == [] then []
    else
      match Bounds(plan[0].1)
      case Err(e) => [Raise(e)]
      case Ok(b) =>
        if pages.None? then [Raise(PdfError)]
        else
          Calls(plan[0].0, Text.Slice(pages.value, b.0 - 1, b.1)) + RangeWorks(plan[1..], pages)
  }

  /** Every range reads, and the PDF is there whenever a range is used. */
  predicate Readable(plan: RangePlan, pages: Option<seq<string>>)
  {
    (forall i :: 0 <= i < |plan| ==> Bounds(plan[i].1).Ok?) && (plan != [] ==> pages.Some?)
  }

  /** One agent with the pages of its range. */
  function PageEntry(entry: (string, string), pages: seq<string>): (string, seq<string>)
    requires Bounds(entry.1).Ok?
  {
    var b := Bounds(entry.1).value;
    (entry.0, Text.Slice(pages, b.0 - 1, b.1))
  }

  /** Each agent with the pages of its range. */
  function PagePlan(plan: RangePlan, pages: seq<string>): (p: PyDict.Dict<string, seq<string>>)
    requires forall i :: 0 <= i < |plan| ==> Bounds(plan[i].1).Ok?
    ensures |p| == |plan|
    ensures forall i :: 0 <= i < |plan| ==> p[i] == PageEntry(plan[i], pages)
  {
    seq(|plan|, i requires 0 <= i < |plan| => PageEntry(plan[i], pages))
  }

  /** A readable plan makes exactly the calls of its page plan. */
  lemma {:induction false} RangeWorksReadable(plan: RangePlan, pages: Option<seq<string>>)
    requires Readable(plan, pages)
    ensures plan != [] ==> RangeWorks(plan, pages) == Pairs(PagePlan(plan, pages.value))
    ensures plan == [] ==> RangeWorks(plan, pages) == []
  {
    if plan != [] {
      assert Readable(plan[1..], pages) by {
        forall i | 0 <= i < |plan[1..]|
          ensures Bounds(plan[1..][i].1).Ok?
        {
          assert plan[1..][i] == plan[i + 1];
        }
      }
      RangeWorksReadable(plan[1..], pages);
      var p := PagePlan(plan, pages.value);
      assert p[1..] == PagePlan(plan[1..], pages.value);
      assert p[1..] == [] ==> Pairs(p[1..]) == [];
    }
  }

  /** An unreadable plan makes the calls of the agents before the first
      range that does not read, then raises: a `ValueError` for that range,
      or the PDF error when the PDF is missing and the first range reads. */
  lemma {:induction false} RangeWorksAborted(plan: RangePlan, pages: Option<seq<string>>)
    returns (calls: seq<Work>, error: PyError)
    requires !Readable(plan, pages)
    ensures RangeWorks(plan, pages) == calls + [Raise(error)]
    ensures forall i :: 0 <= i < |calls| ==> calls[i].Call?
    ensures error == ValueError || error == PdfError
    ensures pages.None? ==> calls == [] && (error == PdfError <==> Bounds(plan[0].1).Ok?)
    ensures pages.Some? ==> error == ValueError
  {
    assert plan != [];
    var b := Bounds(plan[0].1);
    if b.Err? {
      calls, error := [], b.error;
    } else if pages.None? {
      calls, error := [], PdfError;
    } else {
      assert !Readable(plan[1..], pages) by {
        var i :| 0 <= i < |plan| && Bounds(plan[i].1).Err?;
        assert plan[1..][i - 1] == plan[i];
      }
      var rest;
      rest, error := RangeWorksAborted(plan[1..], pages);
      var first := Calls(plan[0].0, Text.Slice(pages.value, b.value.0 - 1, b.value.1));
      calls := first + rest;
      RangeWorksCons(plan, pages);
      AllCallsAppend(first, rest);
    }
  }

  lemma AllCallsAppend(a: seq<Work>, b: seq<Work>)
    requires forall i :: 0 <= i < |a| ==> a[i].Call?
    requires forall i :: 0 <= i < |b| ==> b[i].Call?
    ensures forall i :: 0 <= i < |a + b| ==> (a + b)[i].Call?
  {
    forall k | 0 <= k < |a + b|
      ensures (a + b)[k].Call?
    {
      if k >= |a| {
        assert (a + b)[k] == b[k - |a|];
      }
    }
  }

  /** The calls of the first agent, then those of the rest. */
  lemma RangeWorksCons(plan: RangePlan, pages: Option<seq<string>>)
    requires plan != [] && Bounds(plan[0].1).Ok? && pages.Some?
    ensures var b := Bounds(plan[0].1).value;
      RangeWorks(plan, pages) == Calls(plan[0].0, Text.Slice(pages.value, b.0 - 1, b.1)) + RangeWorks(plan[1..], pages)
  {
  }

  // ------------------------------------------------------------ the run

  /** A dispatch over a range plan never touches another context; with a
      readable plan it raises exactly when some call is not clean, and a run
      that does not raise holds everything the calls wrote, then the summary;
      an unreadable plan always raises. */
  lemma RangeOutcome(reading: Reading, s: Store, trace: seq<TraceEntry>, ctx: string, plan: RangePlan,
                     pages: Option<seq<string>>, summary: string, outcome: nat -> AgentOutcome)
    ensures var works := RangeWorks(plan, pages);
      var out := Closed(reading, s, trace, ctx, works, summary, outcome);
      && (forall c :: c != ctx ==> EntryOf(out.store, c) == EntryOf(s, c))
      && (Readable(plan, pages) ==>
            && (forall i :: 0 <= i < |works| ==> works[i].Call?)
            && (out.error.Some? <==> exists i :: 0 <= i < |works| && !Clean(reading, works[i].agent, outcome(i)))
            && (out.error.None? ==>
                  && EntryOf(out.store, ctx) ==
                       PyDict.Update(PyDict.Update(EntryOf(s, ctx), Writes(reading, works, outcome)), [("summary", JStr(summary))])
                  && |out.trace| == |trace| + |works| + 1))
      && (!Readable(plan, pages) ==> out.error.Some?)
  {
    var works := RangeWorks(plan, pages);
    var start := Run(s, trace, None);
    RunFrame(StepOf(reading), ctx, works, outcome, start);
    ClosingSpec(RunWorks(StepOf(reading), ctx, works, outcome, start), ctx, NoError, SummaryTask, summary);
    if Readable(plan, pages) {
      RangeWorksReadable(plan, pages);
      ClosedRaises(reading, s, trace, ctx, works, summary, outcome);
      if Closed(reading, s, trace, ctx, works, summary, outcome).error.None? {
        ClosedClean(reading, s, trace, ctx, works, summary, outcome);
      }
    } else {
      var calls, error := RangeWorksAborted(plan, pages);
      assert works[..|works| - 1] == calls;
    }
  }

  /** With an unreadable plan, when the calls before the range that does not
      read are all clean, the run raises that range's error (or the PDF
      error), keeping what those calls wrote and traced. */
  lemma RangeAborted(reading: Reading, s: Store, trace: seq<TraceEntry>, ctx: string, plan: RangePlan,
                     pages: Option<seq<string>>, summary: string, outcome: nat -> AgentOutcome)
    returns (calls: seq<Work>, error: PyError)
    requires !Readable(plan, pages)
    ensures RangeWorks(plan, pages) == calls + [Raise(error)]
    ensures forall i :: 0 <= i < |calls| ==> calls[i].Call?
    ensures error == ValueError || error == PdfError
    ensures var out := Closed(reading, s, trace, ctx, calls + [Raise(error)], summary, outcome);
      (forall i :: 0 <= i < |calls| ==> Clean(reading, calls[i].agent, outcome(i))) ==>
        && out.error == Some(error)
        && EntryOf(out.store, ctx) == PyDict.Update(EntryOf(s, ctx), Writes(reading, calls, outcome))
        && |out.trace| == |trace| + |calls|
  {
    calls, error := RangeWorksAborted(plan, pages);
    if forall i :: 0 <= i < |calls| ==> Clean(reading, calls[i].agent, outcome(i)) {
      ClosedAborted(reading, s, trace, ctx, calls, error, summary, outcome);
    }
  }
}

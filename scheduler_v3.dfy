/** llm_scheduler_v3.py: as llm_scheduler_v2.py, except that the plan reply
    is not stripped, the text plan keeps every line whose head names a
    registry agent and takes only its second `:` field, a traced dict
    without the agent's key shows `""`, and the summary is kept as the
    oracle gave it. */
module SchedulerV3 {
  import opened Wrappers
  import opened JsonData
  import Text
  import PyDict
  import opened Memory
  import opened Dispatch
  import opened Conclusion
  import opened Overwriting
  import RangePlans

  /** The oracle's replies: the range plan and the summary. */
  datatype Replies = Replies(plan: string, summary: string)

  /** `output["memory_update"]` when the key is there; a dict without the
      agent's key traces `""`. */
  const V3Reading := Membership(true, false)

  /** The dict built from the text reply's lines: every line whose head
      names a registry agent, mapped to its second `:` field stripped; a
      line without `:` makes `l.split(":")[1]` raise an `IndexError`. */
  function TextPlan(lines: seq<string>): Result<RangePlans.RangePlan, PyError>
  {
    if lines == [] then Ok([])
    else
      match TextPlan(lines[..|lines| - 1])
      case Err(e) => Err(e)
      case Ok(plan) =>
        var l := lines[|lines| - 1];
        var fields := Text.SplitOn(l, ':');
        if RangePlans.Head(l) !in Registry then Ok(plan)
        else if |fields| < 2 then Err(IndexError)
        else Ok(PyDict.Set(plan, RangePlans.Head(l), Text.Strip(fields[1])))
  }

  /** `plan(task, is_pdf, pdf_file)`: the PDF is read first, so a missing
      one raises before the oracle's reply is used. */
  function UsedPlan(isPdf: bool, pages: Option<seq<string>>, r: Replies): Result<RangePlans.RangePlan, PyError>
  {
    var lines := Text.SplitLines(r.plan);
    if isPdf then (if pages.None? then Err(RangePlans.PdfError) else RangePlans.Assignment(lines))
    else TextPlan(lines)
  }

  /** `plan(...)` as a statement sequence. */
  method MakePlan(isPdf: bool, pages: Option<seq<string>>, r: Replies) returns (result: Result<RangePlans.RangePlan, PyError>)
    ensures result == UsedPlan(isPdf, pages, r)
  {
    if isPdf {
      if pages.None? {
        return Err(RangePlans.PdfError);
      }
      result := RangePlans.ParseAssignment(r.plan);
    } else {
      result := TextPlan(Text.SplitLines(r.plan));
    }
  }

  /** What `dispatch` does, from the memory and trace before it. */
  function DispatchSpec(s: Store, trace: seq<TraceEntry>, ctx: string, isPdf: bool, pages: Option<seq<string>>,
                        r: Replies, outcome: nat -> AgentOutcome): Run
  {
    match UsedPlan(isPdf, pages, r)
    case Err(e) => Run(s, trace, Some(e))
    case Ok(plan) => Closed(V3Reading, s, trace, ctx, RangePlans.RangeWorks(plan, pages), r.summary, outcome)
  }

  /** A plan that raises leaves the memory and the trace as they were. */
  lemma Unplanned(s: Store, trace: seq<TraceEntry>, ctx: string, isPdf: bool, pages: Option<seq<string>>,
                  r: Replies, outcome: nat -> AgentOutcome, e: PyError)
    requires UsedPlan(isPdf, pages, r) == Err(e)
    ensures DispatchSpec(s, trace, ctx, isPdf, pages, r, outcome) == Run(s, trace, Some(e))
  {
  }

  /** Once planned, `dispatch` is the loop over the plan's ranges and the summary. */
  lemma Planned(s: Store, trace: seq<TraceEntry>, ctx: string, isPdf: bool, pages: Option<seq<string>>,
                r: Replies, outcome: nat -> AgentOutcome, plan: RangePlans.RangePlan)
    requires UsedPlan(isPdf, pages, r) == Ok(plan)
    ensures DispatchSpec(s, trace, ctx, isPdf, pages, r, outcome)
         == Closed(V3Reading, s, trace, ctx, RangePlans.RangeWorks(plan, pages), r.summary, outcome)
  {
  }

  /** `LLMScheduler`: the shared memory and the trace of every dispatch. */
  class Scheduler {
    const memory: MemoryStore
    var trace: seq<TraceEntry>

    ghost predicate Valid()
      reads this, memory
    {
      memory.Valid()
    }

    constructor()
      ensures Valid() && fresh(memory) && memory.Contents() == map[] && trace == []
    {
      memory := new MemoryStore();
      trace := [];
    }

    method Dispatch(ctx: string, isPdf: bool, pages: Option<seq<string>>, replies: Replies, outcome: nat -> AgentOutcome)
      returns (result: Result<Entry, PyError>)
      requires Valid()
      modifies this, memory, memory.store.Values
      ensures Valid()
      ensures var run := DispatchSpec(old(memory.Contents()), old(trace), ctx, isPdf, pages, replies, outcome);
        memory.Contents() == run.store && trace == run.trace && result == Returned(run, ctx)
    {
      var planned := MakePlan(isPdf, pages, replies);
      if planned.Err? {
        Unplanned(memory.Contents(), trace, ctx, isPdf, pages, replies, outcome, planned.error);
        result := Err(planned.error);
        return;
      }
      Planned(memory.Contents(), trace, ctx, isPdf, pages, replies, outcome, planned.value);
      var works := RangePlans.RangeWorks(planned.value, pages);
      var summary := replies.summary;
      var t;
      t, result := FinishWorks(V3Reading, memory, ctx, trace, works, summary, outcome);
      trace := t;
    }
  }

  // ------------------------------------------------------------ properties

  /** A line that makes the text plan raise: its head names a registry
      agent but it holds no `:`. */
  predicate Bare(line: string)
  {
    RangePlans.Head(line) in Registry && ':' !in line
  }

  /** The text plan raises an `IndexError` exactly when some line is a bare
      agent name; otherwise it names registry agents only. */
  lemma TextPlanSpec(lines: seq<string>)
    ensures TextPlan(lines).Err? <==> exists i :: 0 <= i < |lines| && Bare(lines[i])
    ensures TextPlan(lines).Err? ==> TextPlan(lines).error == IndexError
    ensures TextPlan(lines).Ok? ==> forall a :: a in PyDict.Keys(TextPlan(lines).value) ==> a in Registry
  {
    TextPlanErrors(lines);
    TextPlanKeys(lines);
  }

  /** The error half of `TextPlanSpec`. */
  lemma {:induction false} TextPlanErrors(lines: seq<string>)
    ensures TextPlan(lines).Err? <==> exists i :: 0 <= i < |lines| && Bare(lines[i])
    ensures TextPlan(lines).Err? ==> TextPlan(lines).error == IndexError
  {
    if lines != [] {
      var init := lines[..|lines| - 1];
      var l := lines[|lines| - 1];
      TextPlanErrors(init);
      TextPlanLast(lines);
      Text.SomeLast(lines, init, Bare);
    }
  }

  /** The last line raises exactly when it is bare, unless an earlier one did. */
  lemma TextPlanLast(lines: seq<string>)
    requires lines != []
    ensures var init := lines[..|lines| - 1];
      && (TextPlan(lines).Err? <==> TextPlan(init).Err? || Bare(lines[|lines| - 1]))
      && (TextPlan(lines).Err? ==> TextPlan(lines).error == IndexError || TextPlan(lines) == TextPlan(init))
  {
    RangePlans.ColonFields(lines[|lines| - 1]);
  }

  /** The key half of `TextPlanSpec`. */
  lemma {:induction false} TextPlanKeys(lines: seq<string>)
    ensures TextPlan(lines).Ok? ==> forall a :: a in PyDict.Keys(TextPlan(lines).value) ==> a in Registry
  {
    if lines != [] {
      var init := lines[..|lines| - 1];
      var l := lines[|lines| - 1];
      TextPlanKeys(init);
      if TextPlan(init).Ok? && RangePlans.Head(l) in Registry && |Text.SplitOn(l, ':')| >= 2 {
        PyDict.SetSpec(TextPlan(init).value, RangePlans.Head(l), Text.Strip(Text.SplitOn(l, ':')[1]));
      }
    }
  }

  /** A third field is dropped here, where llm_scheduler_half.py keeps it
      as part of the range. */
  lemma ExtraFieldDropped(a: string, b: string, c: string)
    requires ':' !in a && ':' !in b && Text.Strip(a) in Registry
    ensures var line := a + ":" + b + ":" + c;
      && TextPlan([line]) == Ok([(Text.Strip(a), Text.Strip(b))])
      && RangePlans.TextPlan([line]) == [(Text.Strip(a), Text.Strip(b + ":" + c))]
  {
    SecondFieldOnly(a, b, c);
    RangePlans.TailKeepsColons(a, b + ":" + c);
    assert a + ":" + b + ":" + c == a + ":" + (b + ":" + c);
  }

  /** The text plan of one line `a:b:c` maps `a` to `b` alone. */
  lemma SecondFieldOnly(a: string, b: string, c: string)
    requires ':' !in a && ':' !in b && Text.Strip(a) in Registry
    ensures TextPlan([a + ":" + b + ":" + c]) == Ok([(Text.Strip(a), Text.Strip(b))])
  {
    var line := a + ":" + b + ":" + c;
    var rest := b + [':'] + c;
    assert line == a + [':'] + rest;
    Text.SplitOnAfterPrefix(a, ':', rest);
    Text.SplitOnAfterPrefix(b, ':', c);
    var fields := Text.SplitOn(line, ':');
    assert fields == [a] + ([b] + Text.SplitOn(c, ':'));
    assert |fields| >= 2 && fields[0] == a && fields[1] == b;
    assert RangePlans.Head(line) == Text.Strip(a);
    assert [line][..0] == [];
    assert TextPlan([line][..0]) == Ok([]);
  }

  /** The plan raises a `PdfReadError` for a PDF task without its PDF, a
      `ValueError` for a PDF task when some line holds two or more `:`, and
      an `IndexError` for a text task when some line is a bare agent name. */
  lemma PlanSpec(isPdf: bool, pages: Option<seq<string>>, r: Replies)
    ensures var lines := Text.SplitLines(r.plan);
      UsedPlan(isPdf, pages, r).Err? <==>
        if isPdf then pages.None? || exists i :: 0 <= i < |lines| && RangePlans.Misassigned(lines[i])
        else exists i :: 0 <= i < |lines| && Bare(lines[i])
    ensures UsedPlan(isPdf, pages, r).Err? ==>
      UsedPlan(isPdf, pages, r).error == if !isPdf then IndexError else if pages.None? then RangePlans.PdfError else ValueError
    ensures !isPdf && UsedPlan(isPdf, pages, r).Ok? ==> forall a :: a in PyDict.Keys(UsedPlan(isPdf, pages, r).value) ==> a in Registry
  {
    var lines := Text.SplitLines(r.plan);
    RangePlans.AssignmentErrIff(lines);
    RangePlans.AssignmentErrKind(lines);
    TextPlanSpec(lines);
    if isPdf && pages.Some? {
      assert UsedPlan(isPdf, pages, r) == RangePlans.Assignment(lines);
    }
  }

  /** A plan that raises ends the dispatch with nothing else done. With
      readable ranges the run raises exactly when some reply's
      `memory_update` is not a dict, and a run that does not raise holds
      everything the agents wrote, then the summary as given, after one
      record per page sent and the scheduler's; a range that does not read
      always raises. Other contexts are never touched. */
  lemma DispatchOutcome(s: Store, trace: seq<TraceEntry>, ctx: string, isPdf: bool, pages: Option<seq<string>>,
                        r: Replies, outcome: nat -> AgentOutcome)
    ensures var out := DispatchSpec(s, trace, ctx, isPdf, pages, r, outcome);
      var used := UsedPlan(isPdf, pages, r);
      && (used.Err? ==> out == Run(s, trace, Some(used.error)))
      && (used.Ok? && RangePlans.Readable(used.value, pages) ==>
            var works := RangePlans.RangeWorks(used.value, pages);
            && (forall i :: 0 <= i < |works| ==> works[i].Call?)
            && (out.error.Some? <==> exists i :: 0 <= i < |works| && !Clean(V3Reading, works[i].agent, outcome(i)))
            && (out.error.None? ==>
                  && EntryOf(out.store, ctx) == PyDict.Update(PyDict.Update(EntryOf(s, ctx), Writes(V3Reading, works, outcome)),
                                                              [("summary", JStr(r.summary))])
                  && |out.trace| == |trace| + |works| + 1))
      && (used.Ok? && !RangePlans.Readable(used.value, pages) ==> out.error.Some?)
      && (forall c :: c != ctx ==> EntryOf(out.store, c) == EntryOf(s, c))
  {
    var used := UsedPlan(isPdf, pages, r);
    if used.Ok? {
      var works := RangePlans.RangeWorks(used.value, pages);
      assert DispatchSpec(s, trace, ctx, isPdf, pages, r, outcome) == Closed(V3Reading, s, trace, ctx, works, r.summary, outcome);
      RangePlans.RangeOutcome(V3Reading, s, trace, ctx, used.value, pages, r.summary, outcome);
    }
  }
}

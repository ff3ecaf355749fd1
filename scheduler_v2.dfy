/** llm_scheduler_v2.py: as llm_scheduler_half.py, but a reply holding
    `memory_update` is read with `output["memory_update"]`, and a traced dict
    without the agent's key shows a note naming the agent. */
module SchedulerV2 {
  import opened Wrappers
  import opened JsonData
  import Text
  import PyDict
  import opened Memory
  import opened Dispatch
  import opened Conclusion
  import opened Overwriting
  import RangePlans

  /** The oracle's replies: the range plan and the summary. */
  datatype Replies = Replies(plan: string, summary: string)

  /** `output["memory_update"]` when the key is there; a dict without the
      agent's key traces the note. */
  const V2Reading := Membership(true, true)

  /** `plan(task, is_pdf, pdf_file)`. */
  function UsedPlan(isPdf: bool, pages: Option<seq<string>>, r: Replies): Result<RangePlans.RangePlan, PyError>
  {
    RangePlans.StrippedPlan(isPdf, pages, r.plan)
  }

  /** What `dispatch` does, from the memory and trace before it. */
  function DispatchSpec(s: Store, trace: seq<TraceEntry>, ctx: string, isPdf: bool, pages: Option<seq<string>>,
                        r: Replies, outcome: nat -> AgentOutcome): Run
  {
    match UsedPlan(isPdf, pages, r)
    case Err(e) => Run(s, trace, Some(e))
    case Ok(plan) => Closed(V2Reading, s, trace, ctx, RangePlans.RangeWorks(plan, pages), Text.Strip(r.summary), outcome)
  }

  /** `LLMScheduler`: the shared memory and the trace of every dispatch. */
  class Scheduler {
    const memory: MemoryStore
    var trace: seq<TraceEntry>

    ghost predicate Valid()
      reads this, memory
    {
      memory.Valid()
    }

    constructor()
      ensures Valid() && fresh(memory) && memory.Contents() == map[] && trace == []
    {
      memory := new MemoryStore();
      trace := [];
    }

    method Dispatch(ctx: string, isPdf: bool, pages: Option<seq<string>>, replies: Replies, outcome: nat -> AgentOutcome)
      returns (result: Result<Entry, PyError>)
      requires Valid()
      modifies this, memory, memory.store.Values
      ensures Valid()
      ensures var run := DispatchSpec(old(memory.Contents()), old(trace), ctx, isPdf, pages, replies, outcome);
        memory.Contents() == run.store && trace == run.trace && result == Returned(run, ctx)
    {
      ghost var spec := DispatchSpec(memory.Contents(), trace, ctx, isPdf, pages, replies, outcome);
      var planned := RangePlans.MakeStrippedPlan(isPdf, pages, replies.plan);
      if planned.Err? {
        result := Err(planned.error);
        return;
      }
      var works := RangePlans.RangeWorks(planned.value, pages);
      var summary := Text.Strip(replies.summary);
      assert spec == Closed(V2Reading, memory.Contents(), trace, ctx, works, summary, outcome);
      var t;
      t, result := FinishWorks(V2Reading, memory, ctx, trace, works, summary, outcome);
      trace := t;
    }
  }

  // ------------------------------------------------------------ properties

  /** The plan raises only for a PDF task: when the PDF is missing, or when
      a line of the reply holds two or more `:`; then nothing else happens.
      A text plan names registry agents only. With readable ranges the run
      raises exactly when some reply's `memory_update` is not a dict, and a
      run that does not raise holds everything the agents wrote, then the
      summary, after one record per page sent and the scheduler's; a range
      that does not read always raises. Other contexts are never touched. */
  lemma DispatchOutcome(s: Store, trace: seq<TraceEntry>, ctx: string, isPdf: bool, pages: Option<seq<string>>,
                        r: Replies, outcome: nat -> AgentOutcome)
    ensures var out := DispatchSpec(s, trace, ctx, isPdf, pages, r, outcome);
      var lines := Text.SplitLines(Text.Strip(r.plan));
      var used := UsedPlan(isPdf, pages, r);
      && (used.Err? <==> isPdf && (pages.None? || exists i :: 0 <= i < |lines| && RangePlans.Misassigned(lines[i])))
      && (used.Err? ==> out == Run(s, trace, Some(used.error)))
      && (!isPdf ==> forall a :: a in PyDict.Keys(used.value) ==> a in Registry)
      && (used.Ok? && RangePlans.Readable(used.value, pages) ==>
            var works := RangePlans.RangeWorks(used.value, pages);
            && (forall i :: 0 <= i < |works| ==> works[i].Call?)
            && (out.error.Some? <==> exists i :: 0 <= i < |works| && !Clean(V2Reading, works[i].agent, outcome(i)))
            && (out.error.None? ==>
                  && EntryOf(out.store, ctx) == PyDict.Update(PyDict.Update(EntryOf(s, ctx), Writes(V2Reading, works, outcome)),
                                                              [("summary", JStr(Text.Strip(r.summary)))])
                  && |out.trace| == |trace| + |works| + 1))
      && (used.Ok? && !RangePlans.Readable(used.value, pages) ==> out.error.Some?)
      && (forall c :: c != ctx ==> EntryOf(out.store, c) == EntryOf(s, c))
  {
    RangePlans.StrippedPlanSpec(isPdf, pages, r.plan);
    var used := UsedPlan(isPdf, pages, r);
    if used.Ok? {
      var summary := Text.Strip(r.summary);
      var works := RangePlans.RangeWorks(used.value, pages);
      assert DispatchSpec(s, trace, ctx, isPdf, pages, r, outcome) == Closed(V2Reading, s, trace, ctx, works, summary, outcome);
      RangePlans.RangeOutcome(V2Reading, s, trace, ctx, used.value, pages, summary, outcome);
    }
  }
}

/** llm_scheduler_v6.py: as llm_scheduler_best_2.py (page ids, cleaned
    results merged into the context's memory, then the summary); only the
    PDF extraction library and the prompts' wording differ. */
module SchedulerV6 {
  import opened Wrappers
  import opened JsonData
  import PyDict
  import opened Memory
  import opened Dispatch
  import opened Conclusion
  import opened Overwriting
  import PlanParser

  /** The oracle's replies: the page plan and the summary. */
  datatype Replies = Replies(plan: string, summary: string)

  /** `_parse_plan`: the line grammar with the `page_` default prefix. */
  function UsedPlan(r: Replies): Result<PlanParser.Plan, PyError>
  {
    PlanParser.ParsePlan(r.plan, Registry, "page_", true)
  }

  /** What pdfplumber raises on a file it cannot read. */
  const ReadError := PyError("PdfminerException")

  /** What `dispatch` does, from the memory and trace before it: reading the
      file comes first. */
  function DispatchSpec(s: Store, trace: seq<TraceEntry>, ctx: string, file: Upload, r: Replies,
                        outcome: nat -> AgentOutcome): Run
  {
    if ReadFails(file, true) then Run(s, trace, Some(ReadError))
    else match UsedPlan(r)
    case Err(e) => Run(s, trace, Some(e))
    case Ok(plan) => Finished(Cleaned, s, trace, ctx, plan, Text.Strip(r.summary), outcome)
  }

  /** Once the file is read, a plan the parser rejects raises before anything
      is stored or traced. */
  lemma Unplanned(s: Store, trace: seq<TraceEntry>, ctx: string, file: Upload, r: Replies,
                  outcome: nat -> AgentOutcome, e: PyError)
    requires !ReadFails(file, true) && UsedPlan(r) == Err(e)
    ensures DispatchSpec(s, trace, ctx, file, r, outcome) == Run(s, trace, Some(e))
  {
  }

  /** Once the file is read and planned, `dispatch` is the loop over the plan
      and the summary. */
  lemma Planned(s: Store, trace: seq<TraceEntry>, ctx: string, file: Upload, r: Replies,
                outcome: nat -> AgentOutcome, plan: PlanParser.Plan)
    requires !ReadFails(file, true) && UsedPlan(r) == Ok(plan)
    ensures DispatchSpec(s, trace, ctx, file, r, outcome) ==
      Finished(Cleaned, s, trace, ctx, plan, Text.Strip(r.summary), outcome)
  {
  }

  /** `LLMScheduler`: the shared memory and the trace of every dispatch. */
  class Scheduler {
    const memory: MemoryStore
    var trace: seq<TraceEntry>

    ghost predicate Valid()
      reads this, memory
    {
      memory.Valid()
    }

    constructor()
      ensures Valid() && fresh(memory) && memory.Contents() == map[] && trace == []
    {
      memory := new MemoryStore();
      trace := [];
    }

    method Dispatch(ctx: string, file: Upload, replies: Replies, outcome: nat -> AgentOutcome)
      returns (result: Result<Entry, PyError>)
      requires Valid()
      modifies this, memory, memory.store.Values
      ensures Valid()
      ensures var run := DispatchSpec(old(memory.Contents()), old(trace), ctx, file, replies, outcome);
        memory.Contents() == run.store && trace == run.trace && result == Returned(run, ctx)
    {
      if ReadFails(file, true) {
        result := Err(ReadError);
        return;
      }
      var planned := PlanParser.Parse(replies.plan, Registry, "page_", true);
      if planned.Err? {
        Unplanned(memory.Contents(), trace, ctx, file, replies, outcome, planned.error);
        result := Err(planned.error);
        return;
      }
      Planned(memory.Contents(), trace, ctx, file, replies, outcome, planned.value);
      var t;
      t, result := Finish(Cleaned, memory, ctx, trace, planned.value, Text.Strip(replies.summary), outcome);
      trace := t;
    }
  }

  // ------------------------------------------------------------ properties

  /** A plan the parser rejects raises before any call; otherwise every call
      goes to a registry agent, the run raises exactly when some reply's
      `mem` is not a dict, and a run that does not raise leaves everything
      the agents wrote, then the stripped summary, in the context's memory,
      after one record per planned page and the scheduler's. */
  lemma DispatchOutcome(s: Store, trace: seq<TraceEntry>, ctx: string, file: Upload, r: Replies,
                        outcome: nat -> AgentOutcome)
    ensures var out := DispatchSpec(s, trace, ctx, file, r, outcome);
      && (ReadFails(file, true) ==> out == Run(s, trace, Some(ReadError)))
      && (!ReadFails(file, true) && UsedPlan(r).Err? ==> out == Run(s, trace, Some(UsedPlan(r).error)))
      && (!ReadFails(file, true) && UsedPlan(r).Ok? ==>
            var works := Pairs(UsedPlan(r).value);
            && (forall i :: 0 <= i < |works| ==> works[i].agent in Registry)
            && (out.error.Some? <==> exists i :: 0 <= i < |works| && !Clean(Cleaned, works[i].agent, outcome(i)))
            && (out.error.None? ==>
                  && EntryOf(out.store, ctx) == PyDict.Update(PyDict.Update(EntryOf(s, ctx), Writes(Cleaned, works, outcome)),
                                                              [("summary", JStr(Text.Strip(r.summary)))])
                  && |out.trace| == |trace| + |works| + 1))
      && (forall c :: c != ctx ==> EntryOf(out.store, c) == EntryOf(s, c))
  {
    if !ReadFails(file, true) && UsedPlan(r).Ok? {
      var plan := UsedPlan(r).value;
      PlanParser.ParsePlanShape(r.plan, Registry, "page_", true);
      assert forall a :: a in PyDict.Keys(plan) ==> a in Registry;
      FinishedRaises(Cleaned, s, trace, ctx, plan, Text.Strip(r.summary), outcome);
      if DispatchSpec(s, trace, ctx, file, r, outcome).error.None? {
        FinishedClean(Cleaned, s, trace, ctx, plan, Text.Strip(r.summary), outcome);
      }
    }
  }
}

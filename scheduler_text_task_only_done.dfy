/** llm_scheduler_text_task_only_done.py: the three sources of the original
    scheduler, without the round-robin fallback; each successful call
    replaces its agent's entry with `{key: result}`, and the summary reads
    every entry of the context. */
module SchedulerTextOnly {
  import opened Wrappers
  import opened JsonData
  import PyDict
  import opened Memory
  import opened Dispatch
  import opened Conclusion
  import PlanParser
  import SubtaskPlans
  import ProgressSteps

  /** Which input `dispatch` was given: a non-empty PDF with its page count,
      non-empty bytes PyMuPDF cannot open, `plain_text`, or neither. */
  datatype Source = Pdf(pages: nat) | UnreadablePdf | PlainText | Instruction

  /** What PyMuPDF raises on bytes it cannot open. */
  const ReadError := PyError("FileDataError")

  /** The oracle's replies: the page or subtask plan, and the summary. */
  datatype Replies = Replies(plan: string, summary: string)

  const SummaryTask := "自动总结"

  /** One pass of the loop body: on a failure only the marker is traced;
      otherwise `memory.update(ctx, {ag: {key: res_text}})` and the result is
      traced. */
  function Replace(entry: Entry, agent: string, key: string, o: AgentOutcome): StepOut
  {
    match Caught(o)
    case Err(m) => StepOut(None, Ok(TraceEntry(agent, key, Marker(m))))
    case Ok(res) => StepOut(Some([(agent, JObj([(key, res)]))]), Ok(TraceEntry(agent, key, res)))
  }

  predicate Everything(k: string)
  {
    true
  }

  /** The summary prompt joins the values of every entry of the context. */
  function Check(e: Entry): Option<PyError>
  {
    CollectError(e, Everything)
  }

  /** The plan the loop walks: `_plan_pages`, `{REGISTRY[0]: ["text_1"]}`, or
      `_plan_subtasks`. */
  function UsedPlan(src: Source, r: Replies): Result<PlanParser.Plan, PyError>
  {
    match src
    case Pdf(_) => PlanParser.ParsePlan(r.plan, Registry, "page_", true)
    case UnreadablePdf => Err(ReadError)
    case PlainText => Ok([(Registry[0], ["text_1"])])
    case Instruction => Ok(SubtaskPlans.SubtaskPlan(r.plan, Registry))
  }

  /** The loop over the planned pairs, then the summary. */
  function Finished(s: Store, trace: seq<TraceEntry>, ctx: string, plan: PlanParser.Plan, summary: string,
                    outcome: nat -> AgentOutcome): Run
  {
    Closing(RunWorks(Replace, ctx, Pairs(plan), outcome, Run(s, trace, None)), ctx, Check, SummaryTask, summary)
  }

  /** What `dispatch` does, from the memory and trace before it. */
  function DispatchSpec(s: Store, trace: seq<TraceEntry>, ctx: string, src: Source, r: Replies,
                        outcome: nat -> AgentOutcome): Run
  {
    match UsedPlan(src, r)
    case Err(e) => Run(s, trace, Some(e))
    case Ok(plan) => Finished(s, trace, ctx, plan, Text.Strip(r.summary), outcome)
  }

  /** Once planned, `dispatch` is the loop over that plan and the summary. */
  lemma Planned(s: Store, trace: seq<TraceEntry>, ctx: string, src: Source, r: Replies,
                outcome: nat -> AgentOutcome, plan: PlanParser.Plan)
    requires UsedPlan(src, r) == Ok(plan)
    ensures DispatchSpec(s, trace, ctx, src, r, outcome) == Finished(s, trace, ctx, plan, Text.Strip(r.summary), outcome)
  {
  }

  /** A plan the parser rejects raises before anything is stored or traced. */
  lemma Unplanned(s: Store, trace: seq<TraceEntry>, ctx: string, src: Source, r: Replies,
                  outcome: nat -> AgentOutcome, e: PyError)
    requires UsedPlan(src, r) == Err(e)
    ensures DispatchSpec(s, trace, ctx, src, r, outcome) == Run(s, trace, Some(e))
  {
  }

  /** Planning, as `dispatch` does it for each source. */
  method MakePlan(src: Source, r: Replies) returns (p: Result<PlanParser.Plan, PyError>)
    ensures p == UsedPlan(src, r)
  {
    match src {
      case Pdf(_) =>
        p := PlanParser.Parse(r.plan, Registry, "page_", true);
      case UnreadablePdf =>
        p := Err(ReadError);
      case PlainText =>
        p := Ok([(Registry[0], ["text_1"])]);
      case Instruction =>
        var plan := SubtaskPlans.PlanSubtasks(r.plan, Registry);
        p := Ok(plan);
    }
  }

  /** `for ag, keys in plan.items(): for key in keys: ...`, then the summary. */
  method Finish(memory: MemoryStore, ctx: string, trace0: seq<TraceEntry>, plan: PlanParser.Plan, summary: string,
                outcome: nat -> AgentOutcome)
    returns (trace: seq<TraceEntry>, result: Result<Entry, PyError>)
    requires memory.Valid()
    modifies memory, memory.store.Values
    ensures memory.Valid()
    ensures var run := Finished(old(memory.Contents()), trace0, ctx, plan, summary, outcome);
      memory.Contents() == run.store && trace == run.trace && result == Returned(run, ctx)
  {
    var error;
    trace, error := RunAll(memory, Replace, ctx, Pairs(plan), outcome, trace0);
    if error.None? {
      trace, error := Close(memory, ctx, trace, Check, SummaryTask, summary);
    }
    if error.Some? {
      result := Err(error.value);
    } else {
      var current := memory.Get(ctx);
      result := Ok(current.entries);
    }
  }

  /** `LLMScheduler`: the shared memory and the trace of every dispatch. */
  class Scheduler {
    const memory: MemoryStore
    var trace: seq<TraceEntry>

    ghost predicate Valid()
      reads this, memory
    {
      memory.Valid()
    }

    constructor()
      ensures Valid() && fresh(memory) && memory.Contents() == map[] && trace == []
    {
      memory := new MemoryStore();
      trace := [];
    }

    method Dispatch(ctx: string, src: Source, replies: Replies, outcome: nat -> AgentOutcome)
      returns (result: Result<Entry, PyError>)
      requires Valid()
      modifies this, memory, memory.store.Values
      ensures Valid()
      ensures var run := DispatchSpec(old(memory.Contents()), old(trace), ctx, src, replies, outcome);
        memory.Contents() == run.store && trace == run.trace && result == Returned(run, ctx)
    {
      var planned := MakePlan(src, replies);
      if planned.Err? {
        Unplanned(memory.Contents(), trace, ctx, src, replies, outcome, planned.error);
        result := Err(planned.error);
        return;
      }
      Planned(memory.Contents(), trace, ctx, src, replies, outcome, planned.value);
      var t;
      t, result := Finish(memory, ctx, trace, planned.value, Text.Strip(replies.summary), outcome);
      trace := t;
    }
  }

  // ------------------------------------------------------------ properties

  /** The index of the last call of `agent` among `works` that succeeded. */
  function LastSuccess(works: seq<Work>, outcome: nat -> AgentOutcome, agent: string): (r: Option<nat>)
    ensures r.Some? ==> r.value < |works| && works[r.value].Call? && works[r.value].agent == agent
                        && Caught(outcome(r.value)).Ok?
    ensures r.Some? ==> forall i :: r.value < i < |works| && works[i].Call? && works[i].agent == agent ==>
                          Caught(outcome(i)).Err?
    ensures r.None? ==> forall i :: 0 <= i < |works| && works[i].Call? && works[i].agent == agent ==>
                          Caught(outcome(i)).Err?
  {
    if works == [] then None
    else
      var i := |works| - 1;
      if works[i].Call? && works[i].agent == agent && Caught(outcome(i)).Ok? then Some(i)
      else
        var r := LastSuccess(works[..i], outcome, agent);
        assert forall k :: 0 <= k < i ==> works[..i][k] == works[k];
        r
  }

  /** What a successful call `works[j]` leaves as its agent's entry. */
  function Cell(works: seq<Work>, outcome: nat -> AgentOutcome, j: nat): Json
    requires j < |works| && works[j].Call? && Caught(outcome(j)).Ok?
  {
    JObj([(works[j].unit, Caught(outcome(j)).value)])
  }

  /** One pass: a successful call makes the agent's entry exactly
      `{key: result}` and leaves every other key alone; a failed one writes
      nothing. The record names the agent and the key. */
  lemma ReplaceSpec(e: Entry, agent: string, key: string, o: AgentOutcome)
    ensures var out := Replace(e, agent, key, o);
      var e' := if out.write.Some? then PyDict.Update(e, out.write.value) else e;
      && out.record == Ok(TraceEntry(agent, key, ProgressSteps.ResultText(o)))
      && (Caught(o).Err? <==> out.write.None?)
      && (Caught(o).Ok? ==> PyDict.Get(e', agent, JNull) == JObj([(key, Caught(o).value)]))
      && (forall a, d: Json :: a != agent ==> PyDict.Get(e', a, d) == PyDict.Get(e, a, d))
  {
    if Caught(o).Ok? {
      var one := [(agent, JObj([(key, Caught(o).value)]))];
      assert PyDict.Keys(one) == [agent];
      PyDict.UpdateSpec(e, one);
    }
  }

  /** The loop never raises and traces one record per pair, in order; at the
      end each agent's entry is `{key: result}` of its last successful call,
      and the entry of a key with no successful call is untouched: later
      writes replace earlier ones, they do not accumulate. */
  lemma {:induction false} LoopSpec(ctx: string, works: seq<Work>, outcome: nat -> AgentOutcome, start: Run)
    requires start.error.None?
    requires forall i :: 0 <= i < |works| ==> works[i].Call?
    ensures var r := RunWorks(Replace, ctx, works, outcome, start);
      var e := EntryOf(start.store, ctx);
      var e' := EntryOf(r.store, ctx);
      && r.error.None?
      && |r.trace| == |start.trace| + |works| && r.trace[..|start.trace|] == start.trace
      && (forall i :: 0 <= i < |works| ==>
            r.trace[|start.trace| + i] == TraceEntry(works[i].agent, works[i].unit, ProgressSteps.ResultText(outcome(i))))
      && (forall a :: LastSuccess(works, outcome, a).Some? ==>
            PyDict.Get(e', a, JNull) == Cell(works, outcome, LastSuccess(works, outcome, a).value))
      && (forall a, d: Json :: LastSuccess(works, outcome, a).None? ==> PyDict.Get(e', a, d) == PyDict.Get(e, a, d))
  {
    if works != [] {
      var init := works[..|works| - 1];
      LoopSpec(ctx, init, outcome, start);
      var r := RunWorks(Replace, ctx, init, outcome, start);
      var w := works[|works| - 1];
      var o := outcome(|works| - 1);
      var r' := Apply(Replace, ctx, w, o, r);
      assert RunWorks(Replace, ctx, works, outcome, start) == r';
      var e := EntryOf(r.store, ctx);
      ReplaceSpec(e, w.agent, w.unit, o);
      var out := Replace(e, w.agent, w.unit, o);
      var e' := if out.write.Some? then PyDict.Update(e, out.write.value) else e;
      assert EntryOf(r'.store, ctx) == e';
      assert r'.trace == r.trace + [TraceEntry(w.agent, w.unit, ProgressSteps.ResultText(o))];
      forall i | 0 <= i < |works|
        ensures r'.trace[|start.trace| + i] == TraceEntry(works[i].agent, works[i].unit, ProgressSteps.ResultText(outcome(i)))
      {
        if i < |init| {
          assert works[i] == init[i];
        }
      }
      forall a | LastSuccess(works, outcome, a).Some?
        ensures PyDict.Get(e', a, JNull) == Cell(works, outcome, LastSuccess(works, outcome, a).value)
      {
        if !(a == w.agent && Caught(o).Ok?) {
          assert LastSuccess(works, outcome, a) == LastSuccess(init, outcome, a);
          assert init[LastSuccess(init, outcome, a).value] == works[LastSuccess(init, outcome, a).value];
        }
      }
      forall a, d: Json | LastSuccess(works, outcome, a).None?
        ensures PyDict.Get(e', a, d) == PyDict.Get(EntryOf(start.store, ctx), a, d)
      {
        assert LastSuccess(works, outcome, a) == LastSuccess(init, outcome, a);
      }
    }
  }

  /** Every key of a plan is a registry agent. */
  lemma PlanKeys(src: Source, r: Replies)
    requires UsedPlan(src, r).Ok?
    ensures forall k :: 0 <= k < |UsedPlan(src, r).value| ==> UsedPlan(src, r).value[k].0 in Registry
  {
    PlanParser.IndexOfDistinct(Registry, 0);
    match src {
      case Pdf(_) =>
        PlanParser.ParsePlanShape(r.plan, Registry, "page_", true);
      case UnreadablePdf =>
      case PlainText =>
      case Instruction =>
        SubtaskPlans.SubtaskPlanShape(r.plan, Registry);
    }
  }

  /** Every planned pair calls a registry agent. */
  lemma PlanAgents(src: Source, r: Replies)
    requires UsedPlan(src, r).Ok?
    ensures forall i :: 0 <= i < |Pairs(UsedPlan(src, r).value)| ==>
      Pairs(UsedPlan(src, r).value)[i].agent in Registry
  {
    var plan := UsedPlan(src, r).value;
    PlanKeys(src, r);
    assert forall a :: a in PyDict.Keys(plan) ==> a in Registry;
  }

  /** A context holding a string under `"summary"` cannot be summarised. */
  lemma StringBlocksSummary(e: Entry)
    requires PyDict.Get(e, "summary", JNull).JStr?
    ensures Check(e).Some?
  {
    assert PyDict.HasKey(e, "summary") by {
      if !PyDict.HasKey(e, "summary") {
        PyDict.GetOfAbsent(e, "summary", JNull);
      }
    }
    var k := PyDict.GetIndex(e, "summary", JNull);
    CollectErrorIff(e, Everything);
    assert JoinValuesError(e[k].1).Some?;
  }

  /** Once planned, `dispatch` raises only when collecting the summary prompt
      does — some entry of the context that is not a dict of strings — and
      otherwise returns the context's memory with the stripped summary under
      `"summary"`, after one record per planned pair and the scheduler's. */
  lemma DispatchSpecOk(s: Store, trace: seq<TraceEntry>, ctx: string, src: Source, r: Replies,
                       outcome: nat -> AgentOutcome)
    requires UsedPlan(src, r).Ok?
    ensures var works := Pairs(UsedPlan(src, r).value);
      var run := RunWorks(Replace, ctx, works, outcome, Run(s, trace, None));
      var out := DispatchSpec(s, trace, ctx, src, r, outcome);
      && run.error.None?
      && (out.error.Some? <==>
            exists k :: 0 <= k < |EntryOf(run.store, ctx)| && JoinValuesError(EntryOf(run.store, ctx)[k].1).Some?)
      && (out.error.None? ==>
            && |out.trace| == |trace| + |works| + 1
            && PyDict.Get(EntryOf(out.store, ctx), "summary", JNull) == JStr(Text.Strip(r.summary))
            && out.trace[|out.trace| - 1] == TraceEntry("scheduler", SummaryTask, JStr(Text.Strip(r.summary))))
  {
    var works := Pairs(UsedPlan(src, r).value);
    LoopSpec(ctx, works, outcome, Run(s, trace, None));
    var run := RunWorks(Replace, ctx, works, outcome, Run(s, trace, None));
    CollectErrorIff(EntryOf(run.store, ctx), Everything);
    ClosingSpec(run, ctx, Check, SummaryTask, Text.Strip(r.summary));
  }

  /** Because the summary is stored as a string in the same context and then
      read by the next summary as a dict, a second planned `dispatch` on a
      context whose first one returned always raises. */
  lemma SecondDispatchRaises(s: Store, trace: seq<TraceEntry>, ctx: string, src: Source, r: Replies,
                             outcome: nat -> AgentOutcome, src2: Source, r2: Replies, outcome2: nat -> AgentOutcome)
    requires DispatchSpec(s, trace, ctx, src, r, outcome).error.None?
    requires UsedPlan(src2, r2).Ok?
    ensures var first := DispatchSpec(s, trace, ctx, src, r, outcome);
      DispatchSpec(first.store, first.trace, ctx, src2, r2, outcome2).error.Some?
  {
    var first := DispatchSpec(s, trace, ctx, src, r, outcome);
    DispatchSpecOk(s, trace, ctx, src, r, outcome);
    var works := Pairs(UsedPlan(src2, r2).value);
    PlanAgents(src2, r2);
    var start := Run(first.store, first.trace, None);
    SummarySurvives(ctx, works, outcome2, start);
    var run := RunWorks(Replace, ctx, works, outcome2, start);
    StringBlocksSummary(EntryOf(run.store, ctx));
    assert DispatchSpec(first.store, first.trace, ctx, src2, r2, outcome2) ==
      Closing(run, ctx, Check, SummaryTask, Text.Strip(r2.summary));
  }

  /** No registry agent is called `"summary"`, so the loop leaves that key alone. */
  lemma SummarySurvives(ctx: string, works: seq<Work>, outcome: nat -> AgentOutcome, start: Run)
    requires start.error.None?
    requires forall i :: 0 <= i < |works| ==> works[i].Call? && works[i].agent in Registry
    ensures PyDict.Get(EntryOf(RunWorks(Replace, ctx, works, outcome, start).store, ctx), "summary", JNull) ==
      PyDict.Get(EntryOf(start.store, ctx), "summary", JNull)
  {
    LoopSpec(ctx, works, outcome, start);
    assert LastSuccess(works, outcome, "summary").None?;
  }

  /** Bytes PyMuPDF cannot open raise its error before any plan is asked
      for, and nothing is stored or traced. */
  lemma UnreadableFile(s: Store, trace: seq<TraceEntry>, ctx: string, r: Replies, outcome: nat -> AgentOutcome)
    ensures DispatchSpec(s, trace, ctx, UnreadablePdf, r, outcome) == Run(s, trace, Some(ReadError))
  {
  }

  /** `dispatch` leaves every other context alone and never drops a trace record. */
  lemma DispatchFrame(s: Store, trace: seq<TraceEntry>, ctx: string, src: Source, r: Replies,
                      outcome: nat -> AgentOutcome)
    ensures var out := DispatchSpec(s, trace, ctx, src, r, outcome);
      && (forall c :: c != ctx ==> EntryOf(out.store, c) == EntryOf(s, c))
      && |trace| <= |out.trace| && out.trace[..|trace|] == trace
  {
    if UsedPlan(src, r).Ok? {
      var works := Pairs(UsedPlan(src, r).value);
      RunFrame(Replace, ctx, works, outcome, Run(s, trace, None));
      var run := RunWorks(Replace, ctx, works, outcome, Run(s, trace, None));
      ClosingSpec(run, ctx, Check, SummaryTask, Text.Strip(r.summary));
    }
  }
}

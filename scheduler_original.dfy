/** llm_scheduler_original.py: a PDF is split into pages the oracle assigns
    (round-robin when its plan is empty), plain text is one unit `text_1` for
    the first agent, and a bare instruction is cut into subtasks. Each call's
    result is added to the agent's sub-dict under the unit's key; a failed
    call is only traced. The summary reads every registry agent's sub-dict. */
module SchedulerOriginal {
  import opened Wrappers
  import opened JsonData
  import PyDict
  import opened Memory
  import opened Dispatch
  import opened Conclusion
  import PlanParser
  import SubtaskPlans
  import ProgressSteps

  /** Which input `dispatch` was given: a non-empty PDF with its page count,
      non-empty bytes PyMuPDF cannot open, `plain_text`, or neither. */
  datatype Source = Pdf(pages: nat) | UnreadablePdf | PlainText | Instruction

  /** What PyMuPDF raises on bytes it cannot open. */
  const ReadError := PyError("FileDataError")

  /** The oracle's replies: the page or subtask plan, and the summary. */
  datatype Replies = Replies(plan: string, summary: string)

  const SummaryTask := "自动总结"

  /** One pass of the loop body: on a failure only the marker is traced;
      otherwise `ag_mem = memory.get(ctx).get(ag, {})` (`{}` when it is not a
      dict) gets `ag_mem[key] = res_text`, is written back as `{ag: ag_mem}`,
      and the result is traced. */
  function Accumulate(entry: Entry, agent: string, key: string, o: AgentOutcome): StepOut
  {
    match Caught(o)
    case Err(m) => StepOut(None, Ok(TraceEntry(agent, key, Marker(m))))
    case Ok(res) =>
      StepOut(Some([(agent, JObj(PyDict.Set(ProgressSteps.SubDict(entry, agent), key, res)))]),
              Ok(TraceEntry(agent, key, res)))
  }

  /** The summary prompt joins the values of every registry agent's entry. */
  function Check(e: Entry): Option<PyError>
  {
    CollectError(e, ProgressSteps.InRegistry)
  }

  /** The plan the loop walks: `_plan_pages` with the round-robin fallback,
      `{REGISTRY[0]: ["text_1"]}`, or `_plan_subtasks`. */
  function UsedPlan(src: Source, r: Replies): Result<PlanParser.Plan, PyError>
  {
    match src
    case Pdf(n) => ProgressSteps.PagePlan(n, r.plan)
    case UnreadablePdf => Err(ReadError)
    case PlainText => Ok([(Registry[0], ["text_1"])])
    case Instruction => Ok(SubtaskPlans.SubtaskPlan(r.plan, Registry))
  }

  /** What `dispatch` does, from the memory and trace before it. */
  function DispatchSpec(s: Store, trace: seq<TraceEntry>, ctx: string, src: Source, r: Replies,
                        outcome: nat -> AgentOutcome): Run
  {
    match UsedPlan(src, r)
    case Err(e) => Run(s, trace, Some(e))
    case Ok(plan) =>
      Finished(s, trace, ctx, plan, Text.Strip(r.summary), outcome)
  }

  /** A plan the parser rejects raises before anything is stored or traced. */
  lemma Unplanned(s: Store, trace: seq<TraceEntry>, ctx: string, src: Source, r: Replies,
                  outcome: nat -> AgentOutcome, e: PyError)
    requires UsedPlan(src, r) == Err(e)
    ensures DispatchSpec(s, trace, ctx, src, r, outcome) == Run(s, trace, Some(e))
  {
  }

  /** Once planned, `dispatch` is the loop over that plan and the summary. */
  lemma Planned(s: Store, trace: seq<TraceEntry>, ctx: string, src: Source, r: Replies,
                outcome: nat -> AgentOutcome, plan: PlanParser.Plan)
    requires UsedPlan(src, r) == Ok(plan)
    ensures DispatchSpec(s, trace, ctx, src, r, outcome) == Finished(s, trace, ctx, plan, Text.Strip(r.summary), outcome)
  {
  }

  /** Planning, as `dispatch` does it for each source. */
  method MakePlan(src: Source, r: Replies) returns (p: Result<PlanParser.Plan, PyError>)
    ensures p == UsedPlan(src, r)
  {
    match src {
      case Pdf(n) =>
        p := ProgressSteps.PlanPages(n, r.plan);
      case UnreadablePdf =>
        p := Err(ReadError);
      case PlainText =>
        p := Ok([(Registry[0], ["text_1"])]);
      case Instruction =>
        var plan := SubtaskPlans.PlanSubtasks(r.plan, Registry);
        p := Ok(plan);
    }
  }

  /** `LLMScheduler`: the shared memory and the trace of every dispatch. */
  class Scheduler {
    const memory: MemoryStore
    var trace: seq<TraceEntry>

    ghost predicate Valid()
      reads this, memory
    {
      memory.Valid()
    }

    constructor()
      ensures Valid() && fresh(memory) && memory.Contents() == map[] && trace == []
    {
      memory := new MemoryStore();
      trace := [];
    }

    method Dispatch(ctx: string, src: Source, replies: Replies, outcome: nat -> AgentOutcome)
      returns (result: Result<Entry, PyError>)
      requires Valid()
      modifies this, memory, memory.store.Values
      ensures Valid()
      ensures var run := DispatchSpec(old(memory.Contents()), old(trace), ctx, src, replies, outcome);
        memory.Contents() == run.store && trace == run.trace && result == Returned(run, ctx)
    {
      var planned := MakePlan(src, replies);
      if planned.Err? {
        Unplanned(memory.Contents(), trace, ctx, src, replies, outcome, planned.error);
        result := Err(planned.error);
        return;
      }
      Planned(memory.Contents(), trace, ctx, src, replies, outcome, planned.value);
      var t;
      t, result := Finish(memory, ctx, trace, planned.value, Text.Strip(replies.summary), outcome);
      trace := t;
    }
  }

  /** The loop over the planned pairs, then the summary. */
  function Finished(s: Store, trace: seq<TraceEntry>, ctx: string, plan: PlanParser.Plan, summary: string,
                    outcome: nat -> AgentOutcome): Run
  {
    Closing(RunWorks(Accumulate, ctx, Pairs(plan), outcome, Run(s, trace, None)), ctx, Check, SummaryTask, summary)
  }

  /** `for ag, keys in sub_ids_source.items(): for key in keys: ...`, then the summary. */
  method Finish(memory: MemoryStore, ctx: string, trace0: seq<TraceEntry>, plan: PlanParser.Plan, summary: string,
                outcome: nat -> AgentOutcome)
    returns (trace: seq<TraceEntry>, result: Result<Entry, PyError>)
    requires memory.Valid()
    modifies memory, memory.store.Values
    ensures memory.Valid()
    ensures var run := Finished(old(memory.Contents()), trace0, ctx, plan, summary, outcome);
      memory.Contents() == run.store && trace == run.trace && result == Returned(run, ctx)
  {
    var error;
    trace, error := RunAll(memory, Accumulate, ctx, Pairs(plan), outcome, trace0);
    if error.None? {
      trace, error := Close(memory, ctx, trace, Check, SummaryTask, summary);
    }
    if error.Some? {
      result := Err(error.value);
    } else {
      var current := memory.Get(ctx);
      result := Ok(current.entries);
    }
  }

  // ------------------------------------------------------------ properties

  /** One pass on a successful call sets `key` in the agent's sub-dict to the
      result and keeps the sub-dict's other keys and values (a sub-dict that
      was not a dict starts over empty); a failed call writes nothing. Either
      way the record names the agent and the key. */
  lemma AccumulateSpec(e: Entry, agent: string, key: string, o: AgentOutcome)
    ensures var out := Accumulate(e, agent, key, o);
      && out.record == Ok(TraceEntry(agent, key, ProgressSteps.ResultText(o)))
      && (Caught(o).Err? <==> out.write.None?)
      && (Caught(o).Ok? ==>
            var e' := PyDict.Update(e, out.write.value);
            && PyDict.Get(ProgressSteps.SubDict(e', agent), key, JNull) == Caught(o).value
            && (forall k, d: Json :: k != key ==>
                  PyDict.Get(ProgressSteps.SubDict(e', agent), k, d) == PyDict.Get(ProgressSteps.SubDict(e, agent), k, d))
            && (forall a, d: Json :: a != agent ==> PyDict.Get(e', a, d) == PyDict.Get(e, a, d)))
  {
    if Caught(o).Ok? {
      var sub := PyDict.Set(ProgressSteps.SubDict(e, agent), key, Caught(o).value);
      var one := [(agent, JObj(sub))];
      assert PyDict.Keys(one) == [agent];
      PyDict.UpdateSpec(e, one);
      PyDict.SetSpec(ProgressSteps.SubDict(e, agent), key, Caught(o).value);
      assert PyDict.Get(PyDict.Update(e, one), agent, JObj([])) == JObj(sub);
    }
  }

  /** Every key of every agent's sub-dict holds, and the pair's key is added
      when its call succeeds. */
  lemma AccumulateKeeps(e: Entry, agent: string, key: string, o: AgentOutcome)
    ensures var out := Accumulate(e, agent, key, o);
      var e' := if out.write.Some? then PyDict.Update(e, out.write.value) else e;
      && (forall a, k :: PyDict.HasKey(ProgressSteps.SubDict(e, a), k) ==> PyDict.HasKey(ProgressSteps.SubDict(e', a), k))
      && (Caught(o).Ok? ==> PyDict.HasKey(ProgressSteps.SubDict(e', agent), key))
  {
    if Caught(o).Ok? {
      var sub := PyDict.Set(ProgressSteps.SubDict(e, agent), key, Caught(o).value);
      var one := [(agent, JObj(sub))];
      var e' := PyDict.Update(e, one);
      assert PyDict.Keys(one) == [agent];
      PyDict.UpdateSpec(e, one);
      PyDict.SetSpec(ProgressSteps.SubDict(e, agent), key, Caught(o).value);
      assert ProgressSteps.SubDict(e', agent) == sub;
      forall a, k | PyDict.HasKey(ProgressSteps.SubDict(e, a), k)
        ensures PyDict.HasKey(ProgressSteps.SubDict(e', a), k)
      {
        if a != agent {
          assert PyDict.Get(e', a, JObj([])) == PyDict.Get(e, a, JObj([]));
        }
      }
    }
  }

  /** Every successful call's key is in its agent's sub-dict. */
  predicate Accumulated(e: Entry, works: seq<Work>, outcome: nat -> AgentOutcome)
  {
    forall i :: 0 <= i < |works| && works[i].Call? && Caught(outcome(i)).Ok? ==>
      PyDict.HasKey(ProgressSteps.SubDict(e, works[i].agent), works[i].unit)
  }

  /** The loop never raises; it appends one record per pair, in order, with
      the pair's agent and key and the result or marker; and it accumulates:
      every successful call's key is still in its agent's sub-dict at the end. */
  lemma LoopSpec(ctx: string, works: seq<Work>, outcome: nat -> AgentOutcome, start: Run)
    requires start.error.None?
    requires forall i :: 0 <= i < |works| ==> works[i].Call?
    ensures var r := RunWorks(Accumulate, ctx, works, outcome, start);
      && r.error.None?
      && |r.trace| == |start.trace| + |works| && r.trace[..|start.trace|] == start.trace
      && (forall i :: 0 <= i < |works| ==>
            r.trace[|start.trace| + i] == TraceEntry(works[i].agent, works[i].unit, ProgressSteps.ResultText(outcome(i))))
      && Accumulated(EntryOf(r.store, ctx), works, outcome)
  {
    LoopTrace(ctx, works, outcome, start);
    LoopAccumulates(ctx, works, outcome, start);
  }

  /** The loop never raises and appends one record per pair, in order. */
  lemma {:induction false} LoopTrace(ctx: string, works: seq<Work>, outcome: nat -> AgentOutcome, start: Run)
    requires start.error.None?
    requires forall i :: 0 <= i < |works| ==> works[i].Call?
    ensures var r := RunWorks(Accumulate, ctx, works, outcome, start);
      && r.error.None?
      && |r.trace| == |start.trace| + |works| && r.trace[..|start.trace|] == start.trace
      && (forall i :: 0 <= i < |works| ==>
            r.trace[|start.trace| + i] == TraceEntry(works[i].agent, works[i].unit, ProgressSteps.ResultText(outcome(i))))
  {
    if works != [] {
      var init := works[..|works| - 1];
      LoopTrace(ctx, init, outcome, start);
      var r := RunWorks(Accumulate, ctx, init, outcome, start);
      var w := works[|works| - 1];
      var o := outcome(|works| - 1);
      var r' := Apply(Accumulate, ctx, w, o, r);
      assert RunWorks(Accumulate, ctx, works, outcome, start) == r';
      AccumulateSpec(EntryOf(r.store, ctx), w.agent, w.unit, o);
      assert r'.trace == r.trace + [TraceEntry(w.agent, w.unit, ProgressSteps.ResultText(o))];
      forall i | 0 <= i < |works|
        ensures r'.trace[|start.trace| + i] == TraceEntry(works[i].agent, works[i].unit, ProgressSteps.ResultText(outcome(i)))
      {
        if i < |init| {
          assert works[i] == init[i];
        }
      }
    }
  }

  /** Every successful call's key is still in its agent's sub-dict at the end. */
  lemma {:induction false} LoopAccumulates(ctx: string, works: seq<Work>, outcome: nat -> AgentOutcome, start: Run)
    requires start.error.None?
    requires forall i :: 0 <= i < |works| ==> works[i].Call?
    ensures Accumulated(EntryOf(RunWorks(Accumulate, ctx, works, outcome, start).store, ctx), works, outcome)
  {
    if works != [] {
      var init := works[..|works| - 1];
      LoopAccumulates(ctx, init, outcome, start);
      LoopTrace(ctx, init, outcome, start);
      var r := RunWorks(Accumulate, ctx, init, outcome, start);
      var w := works[|works| - 1];
      var o := outcome(|works| - 1);
      var r' := Apply(Accumulate, ctx, w, o, r);
      assert RunWorks(Accumulate, ctx, works, outcome, start) == r';
      var e := EntryOf(r.store, ctx);
      AccumulateSpec(e, w.agent, w.unit, o);
      AccumulateKeeps(e, w.agent, w.unit, o);
      var out := Accumulate(e, w.agent, w.unit, o);
      var e' := if out.write.Some? then PyDict.Update(e, out.write.value) else e;
      assert EntryOf(r'.store, ctx) == e';
      forall i | 0 <= i < |works| && works[i].Call? && Caught(outcome(i)).Ok?
        ensures PyDict.HasKey(ProgressSteps.SubDict(e', works[i].agent), works[i].unit)
      {
        if i < |init| {
          assert works[i] == init[i];
        }
      }
    }
  }


  /** Once planned, `dispatch` raises only when collecting the summary prompt
      does — a registry agent's entry that is not a dict of strings — and
      otherwise returns the context's memory with the stripped summary under
      `"summary"`, after one record per planned pair and the scheduler's. */
  lemma DispatchSpecOk(s: Store, trace: seq<TraceEntry>, ctx: string, src: Source, r: Replies,
                       outcome: nat -> AgentOutcome)
    requires UsedPlan(src, r).Ok?
    ensures var works := Pairs(UsedPlan(src, r).value);
      var run := RunWorks(Accumulate, ctx, works, outcome, Run(s, trace, None));
      var out := DispatchSpec(s, trace, ctx, src, r, outcome);
      && run.error.None?
      && (out.error.Some? <==>
            exists k :: 0 <= k < |EntryOf(run.store, ctx)| && EntryOf(run.store, ctx)[k].0 in Registry
                        && JoinValuesError(EntryOf(run.store, ctx)[k].1).Some?)
      && (out.error.None? ==>
            && |out.trace| == |trace| + |works| + 1
            && Returned(out, ctx).value == EntryOf(out.store, ctx)
            && PyDict.Get(EntryOf(out.store, ctx), "summary", JNull) == JStr(Text.Strip(r.summary))
            && out.trace[|out.trace| - 1] == TraceEntry("scheduler", SummaryTask, JStr(Text.Strip(r.summary))))
  {
    var works := Pairs(UsedPlan(src, r).value);
    LoopSpec(ctx, works, outcome, Run(s, trace, None));
    var run := RunWorks(Accumulate, ctx, works, outcome, Run(s, trace, None));
    CollectErrorIff(EntryOf(run.store, ctx), ProgressSteps.InRegistry);
    ClosingSpec(run, ctx, Check, SummaryTask, Text.Strip(r.summary));
  }

  /** Plain text is one call of the first registry agent on `text_1`; on
      success its result lands under `text_1` in that agent's sub-dict. */
  lemma PlainTextOneCall(s: Store, trace: seq<TraceEntry>, ctx: string, r: Replies, outcome: nat -> AgentOutcome)
    ensures Pairs(UsedPlan(PlainText, r).value) == [Call("llama2_agent", "text_1")]
    ensures var run := RunWorks(Accumulate, ctx, [Call("llama2_agent", "text_1")], outcome, Run(s, trace, None));
      && run.trace == trace + [TraceEntry("llama2_agent", "text_1", ProgressSteps.ResultText(outcome(0)))]
      && (Caught(outcome(0)).Ok? ==>
            PyDict.HasKey(ProgressSteps.SubDict(EntryOf(run.store, ctx), "llama2_agent"), "text_1"))
  {
    var works := [Call("llama2_agent", "text_1")];
    assert Pairs(UsedPlan(PlainText, r).value) == Calls("llama2_agent", ["text_1"]) + Pairs([]);
    LoopSpec(ctx, works, outcome, Run(s, trace, None));
    assert works[..0] == [];
  }

  /** A page plan the parser rejects raises before any call, with nothing changed. */
  lemma PdfPlanRaises(s: Store, trace: seq<TraceEntry>, ctx: string, n: nat, r: Replies, outcome: nat -> AgentOutcome)
    requires PlanParser.ParsePlan(r.plan, Registry, "page_", true).Err?
    ensures var out := DispatchSpec(s, trace, ctx, Pdf(n), r, outcome);
      out.store == s && out.trace == trace && out.error.Some?
  {
  }

  /** Bytes PyMuPDF cannot open raise its error before any plan is asked
      for, and nothing is stored or traced. */
  lemma UnreadableFile(s: Store, trace: seq<TraceEntry>, ctx: string, r: Replies, outcome: nat -> AgentOutcome)
    ensures DispatchSpec(s, trace, ctx, UnreadablePdf, r, outcome) == Run(s, trace, Some(ReadError))
  {
  }

  /** `dispatch` leaves every other context alone and never drops a trace record. */
  lemma DispatchFrame(s: Store, trace: seq<TraceEntry>, ctx: string, src: Source, r: Replies,
                      outcome: nat -> AgentOutcome)
    ensures var out := DispatchSpec(s, trace, ctx, src, r, outcome);
      && (forall c :: c != ctx ==> EntryOf(out.store, c) == EntryOf(s, c))
      && |trace| <= |out.trace| && out.trace[..|trace|] == trace
  {
    if UsedPlan(src, r).Ok? {
      var works := Pairs(UsedPlan(src, r).value);
      RunFrame(Accumulate, ctx, works, outcome, Run(s, trace, None));
      var run := RunWorks(Accumulate, ctx, works, outcome, Run(s, trace, None));
      ClosingSpec(run, ctx, Check, SummaryTask, Text.Strip(r.summary));
    }
  }
}

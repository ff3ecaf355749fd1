/** llm_scheduler_best_3.py: the oracle assigns `page_` ids to agents in the
    line grammar; each successful call appends a `## <page>` segment with the
    cleaned result to the agent's list in the context's memory, and the
    summary prompt joins each planned agent's segments. */
module SchedulerBest3 {
  import opened Wrappers
  import opened JsonData
  import PyDict
  import opened Memory
  import opened Dispatch
  import opened Conclusion
  import PlanParser
  import Overwriting

  /** The oracle's replies: the page plan and the summary. */
  datatype Replies = Replies(plan: string, summary: string)

  /** `clean` inside the `try`: the reply's `result` (default `""`) cleaned of
      `[INST]` and `[/INST]` and stripped; or the message of the exception the
      call, the decoding, `.get` or `.replace` raised. */
  function CleanedResult(o: AgentOutcome): (r: Result<string, string>)
    ensures r.Ok? <==> o.Response? && o.body.JObj? && Overwriting.ResultOf(o.body).JStr?
  {
    match o
    case CallError(m) => Err(m)
    case Response(_, body) =>
      if !body.JObj? then Err(NoAttributeMessage(body, "get"))
      else
        var res := Overwriting.ResultOf(body);
        if !res.JStr? then Err(NoAttributeMessage(res, "replace")) else Ok(Overwriting.CleanText(res.s))
  }

  /** `mem_list` before the append: the agent's list, or a value that is not a
      list wrapped in one when it is truthy, or `[]`. */
  function ListOf(v: Json): seq<Json>
  {
    if v.JArr? then v.items else if Truthy(v) then [v] else []
  }

  /** `f"## {pid}\n{clean}"` */
  function Segment(unit: string, clean: string): string
  {
    "## " + unit + "\n" + clean
  }

  /** One pass of the loop body, all inside the `try`: a failure is only
      traced; otherwise the segment is appended to the agent's list, the list
      is written back as `{ag: mem_list}`, and the cleaned text is traced. */
  function Append(entry: Entry, agent: string, unit: string, o: AgentOutcome): StepOut
  {
    match CleanedResult(o)
    case Err(m) => StepOut(None, Ok(TraceEntry(agent, unit, Marker(m))))
    case Ok(clean) =>
      var list := ListOf(PyDict.Get(entry, agent, JArr([]))) + [JStr(Segment(unit, clean))];
      StepOut(Some([(agent, JArr(list))]), Ok(TraceEntry(agent, unit, JStr(clean))))
  }

  /** What a call traces: the cleaned text, or the marker of its failure. */
  function Output(o: AgentOutcome): Json
  {
    match CleanedResult(o)
    case Err(m) => Marker(m)
    case Ok(clean) => JStr(clean)
  }

  /** A value `"\n\n".join(segs)` accepts when it is a list: one of strings. */
  predicate Joinable(v: Json)
  {
    v.JArr? ==> forall i :: 0 <= i < |v.items| ==> v.items[i].JStr?
  }

  /** Collecting the summary prompt over the planned agents: `"\n\n".join`
      raises `TypeError` on a list holding a value that is not a string; any
      other value is formatted as it is. */
  function Check(agents: seq<string>, e: Entry): (r: Option<PyError>)
    ensures r.None? <==> forall k :: 0 <= k < |agents| ==> Joinable(PyDict.Get(e, agents[k], JArr([])))
  {
    if exists k :: 0 <= k < |agents| && !Joinable(PyDict.Get(e, agents[k], JArr([]))) then Some(TypeError) else None
  }

  /** The check for a given plan, as the closing step takes it. */
  function CheckOf(plan: PlanParser.Plan): Entry -> Option<PyError>
  {
    e => Check(PyDict.Keys(plan), e)
  }

  /** `_parse_plan`: the line grammar with the `page_` default prefix. */
  function UsedPlan(r: Replies): Result<PlanParser.Plan, PyError>
  {
    PlanParser.ParsePlan(r.plan, Registry, "page_", true)
  }

  /** The loop over the planned pairs, then the summary. */
  function Finished(s: Store, trace: seq<TraceEntry>, ctx: string, plan: PlanParser.Plan,
                    summary: string, outcome: nat -> AgentOutcome): Run
  {
    Closing(RunWorks(Append, ctx, Pairs(plan), outcome, Run(s, trace, None)), ctx, CheckOf(plan),
            Overwriting.SummaryTask, summary)
  }

  /** What PyMuPDF raises on a file it cannot read. */
  const ReadError := PyError("FileDataError")

  /** What `dispatch` does, from the memory and trace before it: reading the
      file comes first. */
  function DispatchSpec(s: Store, trace: seq<TraceEntry>, ctx: string, file: Upload, r: Replies,
                        outcome: nat -> AgentOutcome): Run
  {
    if ReadFails(file, true) then Run(s, trace, Some(ReadError))
    else match UsedPlan(r)
    case Err(e) => Run(s, trace, Some(e))
    case Ok(plan) => Finished(s, trace, ctx, plan, Text.Strip(r.summary), outcome)
  }

  /** Once the file is read and the plan made, `dispatch` is the loop over
      that plan and the summary. */
  lemma Planned(s: Store, trace: seq<TraceEntry>, ctx: string, file: Upload, r: Replies,
                outcome: nat -> AgentOutcome, plan: PlanParser.Plan)
    requires !ReadFails(file, true) && UsedPlan(r) == Ok(plan)
    ensures DispatchSpec(s, trace, ctx, file, r, outcome) == Finished(s, trace, ctx, plan, Text.Strip(r.summary), outcome)
  {
  }

  /** A plan the parser rejects raises before anything is stored or traced. */
  lemma Unplanned(s: Store, trace: seq<TraceEntry>, ctx: string, file: Upload, r: Replies,
                  outcome: nat -> AgentOutcome, e: PyError)
    requires !ReadFails(file, true) && UsedPlan(r) == Err(e)
    ensures DispatchSpec(s, trace, ctx, file, r, outcome) == Run(s, trace, Some(e))
  {
  }

  /** `for ag, pid_list in plan.items(): for pid in pid_list: ...`, then the
      summary. */
  method Finish(memory: MemoryStore, ctx: string, trace0: seq<TraceEntry>, plan: PlanParser.Plan,
                summary: string, outcome: nat -> AgentOutcome)
    returns (trace: seq<TraceEntry>, result: Result<Entry, PyError>)
    requires memory.Valid()
    modifies memory, memory.store.Values
    ensures memory.Valid()
    ensures var run := Finished(old(memory.Contents()), trace0, ctx, plan, summary, outcome);
      memory.Contents() == run.store && trace == run.trace && result == Returned(run, ctx)
  {
    var error;
    trace, error := RunAll(memory, Append, ctx, Pairs(plan), outcome, trace0);
    if error.None? {
      trace, error := Close(memory, ctx, trace, CheckOf(plan), Overwriting.SummaryTask, summary);
    }
    if error.Some? {
      result := Err(error.value);
    } else {
      var current := memory.Get(ctx);
      result := Ok(current.entries);
    }
  }

  /** A registry agent's value in a memory this scheduler wrote: a list of
      strings, or nothing yet. */
  predicate TextList(v: Json)
  {
    v.JArr? && forall i :: 0 <= i < |v.items| ==> v.items[i].JStr?
  }

  /** Every registry agent's value in the entry is a list of strings. */
  predicate TextLists(e: Entry)
  {
    forall k :: 0 <= k < |Registry| ==> TextList(PyDict.Get(e, Registry[k], JArr([])))
  }

  /** `LLMScheduler`: the shared memory and the trace of every dispatch. */
  class Scheduler {
    const memory: MemoryStore
    var trace: seq<TraceEntry>

    /** The memory holds, for every context, a list of strings or nothing
        under each registry agent: the only values this scheduler writes there. */
    ghost predicate Valid()
      reads this, memory, memory.store.Values
    {
      memory.Valid() && forall c :: c in memory.Contents() ==> TextLists(EntryOf(memory.Contents(), c))
    }

    constructor()
      ensures Valid() && fresh(memory) && memory.Contents() == map[] && trace == []
    {
      memory := new MemoryStore();
      trace := [];
    }

    method Dispatch(ctx: string, file: Upload, replies: Replies, outcome: nat -> AgentOutcome)
      returns (result: Result<Entry, PyError>)
      requires Valid()
      modifies this, memory, memory.store.Values
      ensures Valid()
      ensures var run := DispatchSpec(old(memory.Contents()), old(trace), ctx, file, replies, outcome);
        memory.Contents() == run.store && trace == run.trace && result == Returned(run, ctx)
      ensures result.Ok? <==> !ReadFails(file, true) && UsedPlan(replies).Ok?
    {
      if ReadFails(file, true) {
        result := Err(ReadError);
        return;
      }
      ghost var s0 := memory.Contents();
      var planned := PlanParser.Parse(replies.plan, Registry, "page_", true);
      assert memory.Contents() == s0;
      if planned.Err? {
        Unplanned(s0, trace, ctx, file, replies, outcome, planned.error);
        result := Err(planned.error);
        return;
      }
      Planned(s0, trace, ctx, file, replies, outcome, planned.value);
      NeverRaises(s0, trace, ctx, file, replies, outcome);
      StoreKept(s0, trace, ctx, file, replies, outcome);
      var t;
      t, result := Finish(memory, ctx, trace, planned.value, Text.Strip(replies.summary), outcome);
      trace := t;
    }
  }

  // ------------------------------------------------------------ properties

  /** A pass never raises and traces the cleaned text or the marker. A
      successful call writes only the agent's key: its list with one more
      segment, every earlier entry kept (a value that was not a list is
      first wrapped in one if truthy, dropped if not); a failed call writes
      nothing. */
  lemma AppendSpec(e: Entry, agent: string, unit: string, o: AgentOutcome)
    ensures var out := Append(e, agent, unit, o);
      && out.record == Ok(TraceEntry(agent, unit, Output(o)))
      && (out.write.Some? <==> CleanedResult(o).Ok?)
      && (out.write.Some? ==>
            var e' := PyDict.Update(e, out.write.value);
            var before := ListOf(PyDict.Get(e, agent, JArr([])));
            && (forall d :: PyDict.Get(e', agent, d) == JArr(before + [JStr(Segment(unit, CleanedResult(o).value))]))
            && (PyDict.Get(e, agent, JArr([])).JArr? ==>
                  |PyDict.Get(e', agent, JArr([])).items| == |PyDict.Get(e, agent, JArr([])).items| + 1)
            && (forall a, d: Json :: a != agent ==> PyDict.Get(e', a, d) == PyDict.Get(e, a, d)))
  {
    if CleanedResult(o).Ok? {
      var out := Append(e, agent, unit, o);
      assert PyDict.Keys(out.write.value) == [agent];
      PyDict.UpdateSpec(e, out.write.value);
    }
  }

  /** The segments a loop appends to `agent`'s list, in call order. */
  function Segments(works: seq<Work>, outcome: nat -> AgentOutcome, agent: string): (segs: seq<Json>)
    ensures forall i :: 0 <= i < |segs| ==> segs[i].JStr?
  {
    if works == [] then []
    else
      var w := works[|works| - 1];
      var o := outcome(|works| - 1);
      Segments(works[..|works| - 1], outcome, agent) +
        (if w.Call? && w.agent == agent && CleanedResult(o).Ok? then [JStr(Segment(w.unit, CleanedResult(o).value))] else [])
  }

  /** The loop never raises, and appends one record per pair, in order, with
      the pair's agent and unit and what the call traced. */
  lemma {:induction false} LoopTrace(ctx: string, works: seq<Work>, outcome: nat -> AgentOutcome, start: Run)
    requires start.error.None?
    requires forall i :: 0 <= i < |works| ==> works[i].Call?
    ensures var r := RunWorks(Append, ctx, works, outcome, start);
      && r.error.None?
      && |r.trace| == |start.trace| + |works| && r.trace[..|start.trace|] == start.trace
      && forall i :: 0 <= i < |works| ==>
           r.trace[|start.trace| + i] == TraceEntry(works[i].agent, works[i].unit, Output(outcome(i)))
  {
    if works != [] {
      var init := works[..|works| - 1];
      LoopTrace(ctx, init, outcome, start);
      var r := RunWorks(Append, ctx, init, outcome, start);
      var w := works[|works| - 1];
      var o := outcome(|works| - 1);
      var r' := RunWorks(Append, ctx, works, outcome, start);
      assert r' == Apply(Append, ctx, w, o, r);
      AppendSpec(EntryOf(r.store, ctx), w.agent, w.unit, o);
      assert r'.trace == r.trace + [TraceEntry(w.agent, w.unit, Output(o))];
      forall i | 0 <= i < |init|
        ensures r'.trace[|start.trace| + i] == TraceEntry(works[i].agent, works[i].unit, Output(outcome(i)))
      {
        assert works[i] == init[i];
        assert r'.trace[|start.trace| + i] == r.trace[|start.trace| + i];
      }
    }
  }

  /** The context's memory after one pass. */
  function After(e: Entry, w: Work, o: AgentOutcome): Entry
    requires w.Call?
  {
    var out := Append(e, w.agent, w.unit, o);
    if out.write.Some? then PyDict.Update(e, out.write.value) else e
  }

  lemma ApplyAfter(ctx: string, w: Work, o: AgentOutcome, r: Run)
    requires r.error.None? && w.Call?
    ensures var r' := Apply(Append, ctx, w, o, r);
      && r'.error.None?
      && EntryOf(r'.store, ctx) == After(EntryOf(r.store, ctx), w, o)
      && (forall c :: c != ctx ==> EntryOf(r'.store, c) == EntryOf(r.store, c))
  {
    var out := Append(EntryOf(r.store, ctx), w.agent, w.unit, o);
    if out.write.Some? {
      MergedSpec(r.store, ctx, out.write.value);
    }
  }

  /** One pass, seen from one agent's value. */
  lemma AfterList(e: Entry, w: Work, o: AgentOutcome, agent: string)
    requires w.Call?
    ensures w.agent == agent && CleanedResult(o).Ok? ==>
      PyDict.Get(After(e, w, o), agent, JArr([])) ==
        JArr(ListOf(PyDict.Get(e, agent, JArr([]))) + [JStr(Segment(w.unit, CleanedResult(o).value))])
    ensures !(w.agent == agent && CleanedResult(o).Ok?) ==>
      forall d :: PyDict.Get(After(e, w, o), agent, d) == PyDict.Get(e, agent, d)
  {
    AppendSpec(e, w.agent, w.unit, o);
    if CleanedResult(o).Ok? {
      var out := Append(e, w.agent, w.unit, o);
      assert out.write.Some? && After(e, w, o) == PyDict.Update(e, out.write.value);
    }
  }

  /** After the loop, an agent some call appended to holds its list from
      before (as `ListOf` reads it) followed by every segment appended, in
      call order; every other key is as it was. */
  lemma {:induction false} LoopLists(ctx: string, works: seq<Work>, outcome: nat -> AgentOutcome, start: Run, agent: string)
    requires start.error.None?
    requires forall i :: 0 <= i < |works| ==> works[i].Call?
    ensures var e0 := EntryOf(start.store, ctx);
      var e := EntryOf(RunWorks(Append, ctx, works, outcome, start).store, ctx);
      var segs := Segments(works, outcome, agent);
      && (segs != [] ==> PyDict.Get(e, agent, JArr([])) == JArr(ListOf(PyDict.Get(e0, agent, JArr([]))) + segs))
      && (segs == [] ==> forall d :: PyDict.Get(e, agent, d) == PyDict.Get(e0, agent, d))
  {
    if works != [] {
      var init := works[..|works| - 1];
      LoopTrace(ctx, init, outcome, start);
      LoopLists(ctx, init, outcome, start, agent);
      var r := RunWorks(Append, ctx, init, outcome, start);
      var w := works[|works| - 1];
      var o := outcome(|works| - 1);
      assert RunWorks(Append, ctx, works, outcome, start) == Apply(Append, ctx, w, o, r);
      ApplyAfter(ctx, w, o, r);
      var e := EntryOf(r.store, ctx);
      AfterList(e, w, o, agent);
      var before := ListOf(PyDict.Get(EntryOf(start.store, ctx), agent, JArr([])));
      var segs0 := Segments(init, outcome, agent);
      if w.agent == agent && CleanedResult(o).Ok? {
        var seg := JStr(Segment(w.unit, CleanedResult(o).value));
        assert Segments(works, outcome, agent) == segs0 + [seg];
        if segs0 == [] {
          assert segs0 + [seg] == [seg];
        } else {
          assert ListOf(PyDict.Get(e, agent, JArr([]))) == before + segs0;
          assert before + segs0 + [seg] == before + (segs0 + [seg]);
        }
      } else {
        assert Segments(works, outcome, agent) == segs0;
      }
    }
  }

  /** What the summary's collection sees of an agent's value after the
      loop: it can be joined exactly when the value from before could be
      (nothing was appended) or when the list it starts from holds only
      strings. */
  predicate JoinableAfter(before: Json, segs: seq<Json>)
  {
    if segs == [] then Joinable(before) else forall i :: 0 <= i < |ListOf(before)| ==> ListOf(before)[i].JStr?
  }

  /** The loop never raises. */
  lemma LoopSafe(ctx: string, works: seq<Work>, outcome: nat -> AgentOutcome, start: Run)
    requires start.error.None?
    requires forall i :: 0 <= i < |works| ==> works[i].Call?
    ensures RunWorks(Append, ctx, works, outcome, start).error.None?
  {
    LoopTrace(ctx, works, outcome, start);
  }

  /** Once the plan is made, the loop never raises, and the run raises
      (a `TypeError`) exactly when, for some planned agent, its list for the
      summary holds a value that is not a string. */
  lemma FinishedRaises(s: Store, trace: seq<TraceEntry>, ctx: string, plan: PlanParser.Plan,
                       summary: string, outcome: nat -> AgentOutcome)
    ensures var works := Pairs(plan);
      var out := Finished(s, trace, ctx, plan, summary, outcome);
      var agents := PyDict.Keys(plan);
      && (out.error.None? <==> forall k :: 0 <= k < |agents| ==>
            JoinableAfter(PyDict.Get(EntryOf(s, ctx), agents[k], JArr([])), Segments(works, outcome, agents[k])))
      && (out.error.Some? ==> out.error == Some(TypeError))
  {
    var works := Pairs(plan);
    var start := Run(s, trace, None);
    var agents := PyDict.Keys(plan);
    var e := EntryOf(RunWorks(Append, ctx, works, outcome, start).store, ctx);
    FinishedError(s, trace, ctx, plan, summary, outcome);
    JoinableIff(ctx, works, outcome, start, agents);
    assert Check(agents, e).None? <==> forall k :: 0 <= k < |agents| ==>
      JoinableAfter(PyDict.Get(EntryOf(s, ctx), agents[k], JArr([])), Segments(works, outcome, agents[k]));
  }

  /** The run raises what the summary's collection raises on the memory the loop left. */
  lemma FinishedError(s: Store, trace: seq<TraceEntry>, ctx: string, plan: PlanParser.Plan,
                      summary: string, outcome: nat -> AgentOutcome)
    ensures var e := EntryOf(RunWorks(Append, ctx, Pairs(plan), outcome, Run(s, trace, None)).store, ctx);
      Finished(s, trace, ctx, plan, summary, outcome).error == Check(PyDict.Keys(plan), e)
  {
    var works := Pairs(plan);
    var start := Run(s, trace, None);
    LoopSafe(ctx, works, outcome, start);
    var run := RunWorks(Append, ctx, works, outcome, start);
    var e := EntryOf(run.store, ctx);
    assert CheckOf(plan)(e) == Check(PyDict.Keys(plan), e);
    ClosingError(run, ctx, CheckOf(plan), Overwriting.SummaryTask, summary);
  }

  /** The run never touches another context. */
  lemma FinishedFrame(s: Store, trace: seq<TraceEntry>, ctx: string, plan: PlanParser.Plan,
                      summary: string, outcome: nat -> AgentOutcome)
    ensures var out := Finished(s, trace, ctx, plan, summary, outcome);
      forall c :: c != ctx ==> EntryOf(out.store, c) == EntryOf(s, c)
  {
    var works := Pairs(plan);
    var start := Run(s, trace, None);
    RunFrame(Append, ctx, works, outcome, start);
    ClosingSpec(RunWorks(Append, ctx, works, outcome, start), ctx, CheckOf(plan), Overwriting.SummaryTask, summary);
  }

  lemma JoinableIff(ctx: string, works: seq<Work>, outcome: nat -> AgentOutcome, start: Run, agents: seq<string>)
    requires start.error.None?
    requires forall i :: 0 <= i < |works| ==> works[i].Call?
    ensures var e := EntryOf(RunWorks(Append, ctx, works, outcome, start).store, ctx);
      (forall k :: 0 <= k < |agents| ==> Joinable(PyDict.Get(e, agents[k], JArr([])))) <==>
      (forall k :: 0 <= k < |agents| ==>
         JoinableAfter(PyDict.Get(EntryOf(start.store, ctx), agents[k], JArr([])), Segments(works, outcome, agents[k])))
  {
    var e := EntryOf(RunWorks(Append, ctx, works, outcome, start).store, ctx);
    forall k | 0 <= k < |agents|
      ensures Joinable(PyDict.Get(e, agents[k], JArr([]))) <==>
        JoinableAfter(PyDict.Get(EntryOf(start.store, ctx), agents[k], JArr([])), Segments(works, outcome, agents[k]))
    {
      LoopLists(ctx, works, outcome, start, agents[k]);
      var segs := Segments(works, outcome, agents[k]);
      if segs != [] {
        JoinableConcat(ListOf(PyDict.Get(EntryOf(start.store, ctx), agents[k], JArr([]))), segs);
      }
    }
  }

  lemma JoinableConcat(xs: seq<Json>, segs: seq<Json>)
    requires forall i :: 0 <= i < |segs| ==> segs[i].JStr?
    ensures Joinable(JArr(xs + segs)) <==> forall i :: 0 <= i < |xs| ==> xs[i].JStr?
  {
    if forall i :: 0 <= i < |xs| ==> xs[i].JStr? {
      forall i | 0 <= i < |xs + segs|
        ensures (xs + segs)[i].JStr?
      {
        if i >= |xs| {
          assert (xs + segs)[i] == segs[i - |xs|];
        }
      }
    } else {
      var i :| 0 <= i < |xs| && !xs[i].JStr?;
      assert (xs + segs)[i] == xs[i];
    }
  }

  /** A run that does not raise: the trace gains one record per pair and
      then the scheduler's, the summary is under `"summary"`, and every
      planned agent's value is as the loop left it. */
  lemma FinishedClean(s: Store, trace: seq<TraceEntry>, ctx: string, plan: PlanParser.Plan,
                      summary: string, outcome: nat -> AgentOutcome)
    requires Finished(s, trace, ctx, plan, summary, outcome).error.None?
    ensures var works := Pairs(plan);
      var out := Finished(s, trace, ctx, plan, summary, outcome);
      var e := EntryOf(out.store, ctx);
      && |out.trace| == |trace| + |works| + 1 && out.trace[..|trace|] == trace
      && (forall i :: 0 <= i < |works| ==>
            out.trace[|trace| + i] == TraceEntry(works[i].agent, works[i].unit, Output(outcome(i))))
      && out.trace[|out.trace| - 1] == TraceEntry("scheduler", Overwriting.SummaryTask, JStr(summary))
      && PyDict.Get(e, "summary", JNull) == JStr(summary)
      && (forall a :: a != "summary" && Segments(works, outcome, a) != [] ==>
            PyDict.Get(e, a, JArr([])) == JArr(ListOf(PyDict.Get(EntryOf(s, ctx), a, JArr([]))) + Segments(works, outcome, a)))
  {
    var works := Pairs(plan);
    var start := Run(s, trace, None);
    LoopTrace(ctx, works, outcome, start);
    var run := RunWorks(Append, ctx, works, outcome, start);
    ClosingSpec(run, ctx, CheckOf(plan), Overwriting.SummaryTask, summary);
    var out := Finished(s, trace, ctx, plan, summary, outcome);
    assert out.trace == run.trace + [TraceEntry("scheduler", Overwriting.SummaryTask, JStr(summary))];
    forall i | 0 <= i < |works|
      ensures out.trace[|trace| + i] == TraceEntry(works[i].agent, works[i].unit, Output(outcome(i)))
    {
      assert out.trace[|trace| + i] == run.trace[|trace| + i];
    }
    assert out.trace[..|trace|] == run.trace[..|trace|];
    forall a | a != "summary" && Segments(works, outcome, a) != []
      ensures PyDict.Get(EntryOf(out.store, ctx), a, JArr([])) ==
        JArr(ListOf(PyDict.Get(EntryOf(s, ctx), a, JArr([]))) + Segments(works, outcome, a))
    {
      LoopLists(ctx, works, outcome, start, a);
    }
  }

  /** A list of strings stays one after the loop. */
  lemma ListStaysText(ctx: string, works: seq<Work>, outcome: nat -> AgentOutcome, start: Run, agent: string)
    requires start.error.None?
    requires forall i :: 0 <= i < |works| ==> works[i].Call?
    requires TextList(PyDict.Get(EntryOf(start.store, ctx), agent, JArr([])))
    ensures TextList(PyDict.Get(EntryOf(RunWorks(Append, ctx, works, outcome, start).store, ctx), agent, JArr([])))
    ensures JoinableAfter(PyDict.Get(EntryOf(start.store, ctx), agent, JArr([])), Segments(works, outcome, agent))
  {
    LoopLists(ctx, works, outcome, start, agent);
  }

  /** An entry with lists of strings under every registry agent. */
  lemma EntryTextLists(s: Store, ctx: string)
    requires forall c :: c in s ==> TextLists(EntryOf(s, c))
    ensures TextLists(EntryOf(s, ctx))
  {
    if ctx !in s {
      assert EntryOf(s, ctx) == [];
    }
  }

  /** In a memory where every registry agent holds a list of strings (or
      nothing), as this scheduler leaves it, `dispatch` raises only when the
      file cannot be read or the plan does not parse. */
  lemma NeverRaises(s: Store, trace: seq<TraceEntry>, ctx: string, file: Upload, r: Replies,
                    outcome: nat -> AgentOutcome)
    requires forall c :: c in s ==> TextLists(EntryOf(s, c))
    ensures DispatchSpec(s, trace, ctx, file, r, outcome).error.None? <==> !ReadFails(file, true) && UsedPlan(r).Ok?
  {
    if !ReadFails(file, true) && UsedPlan(r).Ok? {
      var plan := UsedPlan(r).value;
      var works := Pairs(plan);
      var start := Run(s, trace, None);
      var e0 := EntryOf(s, ctx);
      EntryTextLists(s, ctx);
      PlanParser.ParsePlanShape(r.plan, Registry, "page_", true);
      var agents := PyDict.Keys(plan);
      forall k | 0 <= k < |agents|
        ensures JoinableAfter(PyDict.Get(e0, agents[k], JArr([])), Segments(works, outcome, agents[k]))
      {
        assert agents[k] in Registry;
        var j := Text.IndexOf(Registry, agents[k]);
        ListStaysText(ctx, works, outcome, start, Registry[j]);
      }
      FinishedRaises(s, trace, ctx, plan, Text.Strip(r.summary), outcome);
    }
  }

  /** `dispatch` keeps every registry agent's value a list of strings (or
      nothing), in every context. */
  lemma StoreKept(s: Store, trace: seq<TraceEntry>, ctx: string, file: Upload, r: Replies,
                  outcome: nat -> AgentOutcome)
    requires forall c :: c in s ==> TextLists(EntryOf(s, c))
    ensures var out := DispatchSpec(s, trace, ctx, file, r, outcome);
      forall c :: c in out.store ==> TextLists(EntryOf(out.store, c))
  {
    if !ReadFails(file, true) && UsedPlan(r).Ok? {
      var plan := UsedPlan(r).value;
      var start := Run(s, trace, None);
      var run := RunWorks(Append, ctx, Pairs(plan), outcome, start);
      LoopKeepsLists(ctx, Pairs(plan), outcome, start, run);
      var out := Closing(run, ctx, CheckOf(plan), Overwriting.SummaryTask, Text.Strip(r.summary));
      ClosingKeepsLists(run, ctx, CheckOf(plan), Overwriting.SummaryTask, Text.Strip(r.summary), out);
    }
  }

  /** The agent loop leaves a list of strings (or nothing) under every
      registry agent, in every context. */
  lemma LoopKeepsLists(ctx: string, works: seq<Work>, outcome: nat -> AgentOutcome, start: Run, run: Run)
    requires start.error.None?
    requires forall i :: 0 <= i < |works| ==> works[i].Call?
    requires forall c :: c in start.store ==> TextLists(EntryOf(start.store, c))
    requires run == RunWorks(Append, ctx, works, outcome, start)
    ensures forall c :: c in run.store ==> TextLists(EntryOf(run.store, c))
  {
    RunFrame(Append, ctx, works, outcome, start);
    EntryTextLists(start.store, ctx);
    forall c | c in run.store
      ensures TextLists(EntryOf(run.store, c))
    {
      if c == ctx {
        forall k | 0 <= k < |Registry|
          ensures TextList(PyDict.Get(EntryOf(run.store, c), Registry[k], JArr([])))
        {
          ListStaysText(ctx, works, outcome, start, Registry[k]);
        }
      } else {
        EntryTextLists(start.store, c);
      }
    }
  }

  /** The summary step touches only the `"summary"` key, which no registry
      agent is. */
  lemma ClosingKeepsLists(run: Run, ctx: string, check: Entry -> Option<PyError>, subtask: string, summary: string,
                          r: Run)
    requires forall c :: c in run.store ==> TextLists(EntryOf(run.store, c))
    requires r == Closing(run, ctx, check, subtask, summary)
    ensures forall c :: c in r.store ==> TextLists(EntryOf(r.store, c))
  {
    ClosingSpec(run, ctx, check, subtask, summary);
    forall c | c in r.store
      ensures TextLists(EntryOf(r.store, c))
    {
      EntryTextLists(run.store, c);
      if c == ctx && r.error.None? {
        forall k | 0 <= k < |Registry|
          ensures TextList(PyDict.Get(EntryOf(r.store, c), Registry[k], JArr([])))
        {
          assert Registry[k] != "summary";
        }
      }
    }
  }
}

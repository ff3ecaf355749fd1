/** The loop body llm_scheduler_v8.py and best_latest_4.py share: each
    (agent, key) pair is announced, its result (or the failure marker) is
    stored under `"Process " + key` in the agent's sub-dict, and traced. */
module ProgressSteps {
  import opened Wrappers
  import opened Text
  import opened JsonData
  import PyDict
  import opened Memory
  import opened Dispatch
  import PlanParser
  import Allocation

  /** A `progress_cb` payload, by its `status`. */
  datatype Event =
    | Subtasks(subtasks: seq<string>)
    | Assign(agent: string, subtask: string)
    | Done(markdown: string)

  /** `f"Process {key}"` */
  function ProcessName(key: string): string
  {
    "Process " + key
  }

  /** `[f"Process {s}" for s in subs]` */
  function ProcessNames(subs: seq<string>): (r: seq<string>)
    ensures |r| == |subs| && forall i :: 0 <= i < |subs| ==> r[i] == ProcessName(subs[i])
  {
    seq(|subs|, i requires 0 <= i < |subs| => ProcessName(subs[i]))
  }

  /** `res_text`: the `"result"` of the decoded body (`""` when missing), or
      the marker of the exception the call, the decoding or `.get` raised. */
  function ResultText(o: AgentOutcome): Json
  {
    match Caught(o)
    case Ok(v) => v
    case Err(m) => Marker(m)
  }

  /** A failed call or a body that is not a dict gives the marker with the
      exception's message; otherwise the body's `"result"`, `""` when absent. */
  lemma ResultTextSpec(o: AgentOutcome)
    ensures o.CallError? ==> ResultText(o) == Marker(o.message)
    ensures o.Response? && !o.body.JObj? ==> ResultText(o) == Marker(NoAttributeMessage(o.body, "get"))
    ensures o.Response? && o.body.JObj? ==>
      ResultText(o) == PyDict.Get(o.body.fields, "result", JStr(""))
  {
  }

  /** One pass of the loop body: `ag_mem = memory.get(ctx).get(ag, {}) or {}`,
      `ag_mem["Process " + key] = res_text`, `memory.update(ctx, {ag: ag_mem})`,
      then the trace record. Item assignment on a non-empty value that is not
      a dict raises `TypeError` before anything is written. */
  function ProcessStep(entry: Entry, agent: string, key: string, o: AgentOutcome): StepOut
  {
    var res := ResultText(o);
    var current := PyDict.Get(entry, agent, JObj([]));
    if Truthy(current) && !current.JObj? then StepOut(None, Err(TypeError))
    else
      var agMem := if current.JObj? then current.fields else [];
      StepOut(Some([(agent, JObj(PyDict.Set(agMem, ProcessName(key), res)))]),
              Ok(TraceEntry(agent, ProcessName(key), res)))
  }

  /** Every registry agent's entry, when present, is a dict. */
  predicate AgentsAreDicts(e: Entry)
  {
    forall a :: a in Registry ==> PyDict.Get(e, a, JObj([])).JObj?
  }

  /** The sub-dict a registry agent's pass writes: its current one with
      `"Process " + key` set to the result. */
  function NextSubDict(e: Entry, agent: string, key: string, o: AgentOutcome): PyDict.Dict<string, Json>
    requires AgentsAreDicts(e) && agent in Registry
  {
    PyDict.Set(PyDict.Get(e, agent, JObj([])).fields, ProcessName(key), ResultText(o))
  }

  /** Under `AgentsAreDicts` a registry agent's pass never raises: it writes
      `{agent: NextSubDict(...)}` and traces the result under `"Process " + key`. */
  lemma ProcessStepSpec(e: Entry, agent: string, key: string, o: AgentOutcome)
    requires AgentsAreDicts(e) && agent in Registry
    ensures ProcessStep(e, agent, key, o) ==
      StepOut(Some([(agent, JObj(NextSubDict(e, agent, key, o)))]),
              Ok(TraceEntry(agent, ProcessName(key), ResultText(o))))
  {
  }

  /** The written sub-dict holds the result under `"Process " + key`, keeps
      every key it had and the values of the others. */
  lemma NextSubDictSpec(e: Entry, agent: string, key: string, o: AgentOutcome)
    requires AgentsAreDicts(e) && agent in Registry
    ensures var sub := NextSubDict(e, agent, key, o);
      && PyDict.Get(sub, ProcessName(key), JNull) == ResultText(o)
      && PyDict.HasKey(sub, ProcessName(key))
      && (forall k, d: Json :: k != ProcessName(key) ==>
            PyDict.Get(sub, k, d) == PyDict.Get(PyDict.Get(e, agent, JObj([])).fields, k, d))
      && (forall k :: PyDict.HasKey(PyDict.Get(e, agent, JObj([])).fields, k) ==> PyDict.HasKey(sub, k))
  {
    var fields := PyDict.Get(e, agent, JObj([])).fields;
    var k0 := ProcessName(key);
    var sub := PyDict.Set(fields, k0, ResultText(o));
    assert NextSubDict(e, agent, key, o) == sub;
    PyDict.SetGet(fields, k0, ResultText(o), k0, JNull);
    forall k, d: Json | k != k0
      ensures PyDict.Get(sub, k, d) == PyDict.Get(fields, k, d)
    {
      PyDict.SetGet(fields, k0, ResultText(o), k, d);
    }
    PyDict.SetKeys(fields, k0, ResultText(o));
  }

  /** Writing `{agent: JObj(sub)}` sets that agent's entry, leaves the other
      keys' entries alone and keeps every registry agent's entry a dict. */
  lemma WriteSubDict(e: Entry, agent: string, sub: PyDict.Dict<string, Json>)
    requires AgentsAreDicts(e)
    ensures var e' := PyDict.Update(e, [(agent, JObj(sub))]);
      && PyDict.Get(e', agent, JObj([])) == JObj(sub)
      && (forall a, d: Json :: a != agent ==> PyDict.Get(e', a, d) == PyDict.Get(e, a, d))
      && AgentsAreDicts(e')
  {
    var e' := PyDict.Update(e, [(agent, JObj(sub))]);
    var one := [(agent, JObj(sub))];
    assert PyDict.Keys(one) == [agent];
    PyDict.UpdateSpec(e, one);
    forall a | a in Registry
      ensures PyDict.Get(e', a, JObj([])).JObj?
    {
      if a != agent {
        assert !PyDict.HasKey(one, a);
      }
    }
  }

  /** `ProcessStep` is safe under `AgentsAreDicts` for the registry agents,
      and names its records `"Process " + key`. */
  lemma ProcessStepSafe()
    ensures SafeUnder(ProcessStep, AgentsAreDicts, Registry)
    ensures Labelled(ProcessStep, ProcessName)
  {
    forall e, a, u, o | a in Registry && AgentsAreDicts(e)
      ensures ProcessStep(e, a, u, o).record.Ok?
      ensures ProcessStep(e, a, u, o).write.Some? ==>
        AgentsAreDicts(PyDict.Update(e, ProcessStep(e, a, u, o).write.value))
    {
      ProcessStepSpec(e, a, u, o);
      WriteSubDict(e, a, NextSubDict(e, a, u, o));
    }
  }

  /** An agent's sub-dict, `{}` when it has none or it is not a dict. */
  function SubDict(e: Entry, agent: string): PyDict.Dict<string, Json>
  {
    match PyDict.Get(e, agent, JObj([]))
    case JObj(fields) => fields
    case _ => []
  }

  /** Every call's `"Process " + key` is a key of its agent's sub-dict. */
  predicate KeysRecorded(e: Entry, works: seq<Work>)
  {
    forall i :: 0 <= i < |works| && works[i].Call? ==>
      PyDict.HasKey(SubDict(e, works[i].agent), ProcessName(works[i].unit))
  }

  /** One registry-agent pass from an entry where the agents' entries are
      dicts: no error, the agents' entries stay dicts, the keys of every
      agent's sub-dict are kept and the pair's `"Process " + key` is added. */
  lemma ProcessApply(ctx: string, w: Work, o: AgentOutcome, r: Run)
    requires r.error.None? && w.Call? && w.agent in Registry && AgentsAreDicts(EntryOf(r.store, ctx))
    ensures var e := EntryOf(r.store, ctx);
      var e' := EntryOf(Apply(ProcessStep, ctx, w, o, r).store, ctx);
      && Apply(ProcessStep, ctx, w, o, r).error.None?
      && AgentsAreDicts(e')
      && PyDict.HasKey(SubDict(e', w.agent), ProcessName(w.unit))
      && (forall a, k :: PyDict.HasKey(SubDict(e, a), k) ==> PyDict.HasKey(SubDict(e', a), k))
  {
    var e := EntryOf(r.store, ctx);
    ProcessStepSpec(e, w.agent, w.unit, o);
    NextSubDictSpec(e, w.agent, w.unit, o);
    var sub := NextSubDict(e, w.agent, w.unit, o);
    WriteSubDict(e, w.agent, sub);
    var e' := EntryOf(Apply(ProcessStep, ctx, w, o, r).store, ctx);
    assert e' == PyDict.Update(e, [(w.agent, JObj(sub))]);
    forall a, k | PyDict.HasKey(SubDict(e, a), k)
      ensures PyDict.HasKey(SubDict(e', a), k)
    {
      if a != w.agent {
        assert PyDict.Get(e', a, JObj([])) == PyDict.Get(e, a, JObj([]));
      }
    }
  }

  /** A loop of registry-agent calls from memory where the agents' entries are
      dicts never raises, and afterwards every pair's `"Process " + key` is a
      key of its agent's sub-dict. */
  lemma {:induction false} ProcessRunKeys(ctx: string, works: seq<Work>, outcome: nat -> AgentOutcome, start: Run)
    requires start.error.None? && AgentsAreDicts(EntryOf(start.store, ctx))
    requires forall i :: 0 <= i < |works| ==> works[i].Call? && works[i].agent in Registry
    ensures var r := RunWorks(ProcessStep, ctx, works, outcome, start);
      && r.error.None? && AgentsAreDicts(EntryOf(r.store, ctx))
      && KeysRecorded(EntryOf(r.store, ctx), works)
  {
    if works != [] {
      var init := works[..|works| - 1];
      ProcessRunKeys(ctx, init, outcome, start);
      var r := RunWorks(ProcessStep, ctx, init, outcome, start);
      var w := works[|works| - 1];
      var r' := Apply(ProcessStep, ctx, w, outcome(|works| - 1), r);
      assert RunWorks(ProcessStep, ctx, works, outcome, start) == r';
      ProcessApply(ctx, w, outcome(|works| - 1), r);
      KeysRecordedStep(EntryOf(r.store, ctx), EntryOf(r'.store, ctx), works);
    }
  }

  lemma KeysRecordedStep(e: Entry, e': Entry, works: seq<Work>)
    requires works != [] && KeysRecorded(e, works[..|works| - 1])
    requires forall a, k :: PyDict.HasKey(SubDict(e, a), k) ==> PyDict.HasKey(SubDict(e', a), k)
    requires works[|works| - 1].Call? ==>
      PyDict.HasKey(SubDict(e', works[|works| - 1].agent), ProcessName(works[|works| - 1].unit))
    ensures KeysRecorded(e', works)
  {
    var init := works[..|works| - 1];
    forall i | 0 <= i < |works| && works[i].Call?
      ensures PyDict.HasKey(SubDict(e', works[i].agent), ProcessName(works[i].unit))
    {
      if i < |init| {
        assert works[i] == init[i];
      }
    }
  }

  /** The `assign` events of the given calls, in order. */
  function Assigns(works: seq<Work>): (r: seq<Event>)
    ensures forall i :: 0 <= i < |r| ==> r[i].Assign?
  {
    if works == [] then []
    else (if works[0].Call? then [Assign(works[0].agent, ProcessName(works[0].unit))] else [])
         + Assigns(works[1..])
  }

  /** The first `n` items, or all of them. */
  function Upto<T>(xs: seq<T>, n: nat): seq<T>
  {
    if n <= |xs| then xs[..n] else xs
  }

  /** The memory dicts the summary reads: the registry agents' entries. */
  predicate InRegistry(k: string)
  {
    k in Registry
  }

  // ------------------------------------------------------ loop and summary

  /** The trace name of the final summary. */
  const SummaryTask := "自动总结"

  /** What `dispatch` leaves behind: the memory, the trace, the progress
      payloads pushed, and the markdown returned or the exception raised. */
  datatype Outcome = Outcome(store: Store, trace: seq<TraceEntry>, events: seq<Event>, result: Result<string, PyError>)

  /** `_answer_direct` / the no-split branch: `done` with the stripped reply,
      memory and trace untouched. */
  function Direct(s: Store, trace: seq<TraceEntry>, reply: string): Outcome
  {
    Outcome(s, trace, [Done(Strip(reply))], Ok(Strip(reply)))
  }

  /** The loop over every planned (agent, key) pair, then the summary: the
      `"\n".join(mem.values())` of every registry agent's entry, the stripped
      summary reply stored under `"summary"`, traced, and pushed as `done`. */
  function Finished(s: Store, trace: seq<TraceEntry>, ctx: string, events: seq<Event>,
                    plan: PlanParser.Plan, summary: string, outcome: nat -> AgentOutcome): Outcome
  {
    var works := Pairs(plan);
    var run := RunWorks(ProcessStep, ctx, works, outcome, Run(s, trace, None));
    Concluded(run, ctx, events + Assigns(Upto(works, Started(trace, run))), summary)
  }

  /** What follows the loop: its exception, or that of the summary's join,
      or the summary stored, traced and pushed as `done`. */
  function Concluded(run: Run, ctx: string, events: seq<Event>, summary: string): Outcome
  {
    if run.error.Some? then Outcome(run.store, run.trace, events, Err(run.error.value))
    else
      match CollectError(EntryOf(run.store, ctx), InRegistry)
      case Some(e) => Outcome(run.store, run.trace, events, Err(e))
      case None =>
        var md := Strip(summary);
        var fin := Summarised(run, ctx, SummaryTask, md);
        Outcome(fin.store, fin.trace, events + [Done(md)], Ok(md))
  }

  /** The agent loop of `dispatch` and the summary after it. */
  method Finish(memory: MemoryStore, ctx: string, trace0: seq<TraceEntry>, events0: seq<Event>,
                plan: PlanParser.Plan, summary: string, outcome: nat -> AgentOutcome)
    returns (trace: seq<TraceEntry>, events: seq<Event>, result: Result<string, PyError>)
    requires memory.Valid()
    modifies memory, memory.store.Values
    ensures memory.Valid()
    ensures forall d :: d in memory.store.Values ==> d in old(memory.store.Values) || fresh(d)
    ensures Outcome(memory.Contents(), trace, events, result) ==
      Finished(old(memory.Contents()), trace0, ctx, events0, plan, summary, outcome)
  {
    var t, ev, error := RunPairs(memory, ctx, trace0, events0, Pairs(plan), outcome);
    trace, events, result := Conclude(memory, ctx, t, ev, error, summary);
  }

  /** The summary after the loop, on the memory the loop left. */
  method Conclude(memory: MemoryStore, ctx: string, trace0: seq<TraceEntry>, events0: seq<Event>,
                  error: Option<PyError>, summary: string)
    returns (trace: seq<TraceEntry>, events: seq<Event>, result: Result<string, PyError>)
    requires memory.Valid()
    modifies memory, memory.store.Values
    ensures memory.Valid()
    ensures forall d :: d in memory.store.Values ==> d in old(memory.store.Values) || fresh(d)
    ensures Outcome(memory.Contents(), trace, events, result) ==
      Concluded(Run(old(memory.Contents()), trace0, error), ctx, events0, summary)
  {
    trace, events := trace0, events0;
    if error.Some? {
      result := Err(error.value);
      return;
    }
    ghost var run := Run(memory.Contents(), trace, error);
    var current := memory.Get(ctx);
    var err := CollectError(current.entries, InRegistry);
    if err.Some? {
      result := Err(err.value);
      return;
    }
    var md := Strip(summary);
    memory.Update(ctx, [("summary", JStr(md))]);
    assert memory.Contents() == Summarised(run, ctx, SummaryTask, md).store;
    trace := trace + [TraceEntry("scheduler", SummaryTask, JStr(md))];
    events := events + [Done(md)];
    result := Ok(md);
  }

  /** `for ag, keys in plan.items(): for key in keys:` over the flattened
      pairs, pushing `assign` before each call. */
  method RunPairs(memory: MemoryStore, ctx: string, trace0: seq<TraceEntry>, events0: seq<Event>,
                  works: seq<Work>, outcome: nat -> AgentOutcome)
    returns (trace: seq<TraceEntry>, events: seq<Event>, error: Option<PyError>)
    requires memory.Valid()
    requires forall k :: 0 <= k < |works| ==> works[k].Call?
    modifies memory, memory.store.Values
    ensures memory.Valid()
    ensures forall d :: d in memory.store.Values ==> d in old(memory.store.Values) || fresh(d)
    ensures Run(memory.Contents(), trace, error) ==
      RunWorks(ProcessStep, ctx, works, outcome, Run(old(memory.Contents()), trace0, None))
    ensures events == events0 + Assigns(Upto(works, Started(trace0, Run(memory.Contents(), trace, error))))
  {
    ghost var start := Run(memory.Contents(), trace0, None);
    var i;
    trace, events, error, i := LoopPairs(memory, ctx, trace0, events0, works, outcome);
    LoopExit(ProcessStep, ctx, works, i, outcome, start);
  }

  /** The loop itself, up to the first raise or the last pair. */
  method LoopPairs(memory: MemoryStore, ctx: string, trace0: seq<TraceEntry>, events0: seq<Event>,
                   works: seq<Work>, outcome: nat -> AgentOutcome)
    returns (trace: seq<TraceEntry>, events: seq<Event>, error: Option<PyError>, i: nat)
    requires memory.Valid()
    requires forall k :: 0 <= k < |works| ==> works[k].Call?
    modifies memory, memory.store.Values
    ensures memory.Valid()
    ensures forall d :: d in memory.store.Values ==> d in old(memory.store.Values) || fresh(d)
    ensures i <= |works| && (i < |works| ==> error.Some?)
    ensures var start := Run(old(memory.Contents()), trace0, None);
      && Run(memory.Contents(), trace, error) == RunWorks(ProcessStep, ctx, works[..i], outcome, start)
      && events == events0 + Assigns(works[..i])
      && (error.Some? ==> i > 0 && RunWorks(ProcessStep, ctx, works[..i - 1], outcome, start).error.None?)
  {
    ghost var start := Run(memory.Contents(), trace0, None);
    error := None;
    trace, events := trace0, events0;
    i := 0;
    while i < |works| && error.None?
      invariant 0 <= i <= |works|
      invariant memory.Valid()
      invariant forall d :: d in memory.store.Values ==> d in old(memory.store.Values) || fresh(d)
      invariant Run(memory.Contents(), trace, error) == RunWorks(ProcessStep, ctx, works[..i], outcome, start)
      invariant events == events0 + Assigns(works[..i])
      invariant error.Some? ==> i > 0 && RunWorks(ProcessStep, ctx, works[..i - 1], outcome, start).error.None?
    {
      trace, events, error := RunPair(memory, ctx, trace, events, works, i, outcome, start, events0);
      i := i + 1;
    }
  }

  /** One pass of the loop: `assign`, then the call. */
  method RunPair(memory: MemoryStore, ctx: string, trace0: seq<TraceEntry>, events0: seq<Event>,
                 works: seq<Work>, i: nat, outcome: nat -> AgentOutcome, ghost start: Run, ghost before: seq<Event>)
    returns (trace: seq<TraceEntry>, events: seq<Event>, error: Option<PyError>)
    requires memory.Valid() && i < |works| && works[i].Call?
    requires Run(memory.Contents(), trace0, None) == RunWorks(ProcessStep, ctx, works[..i], outcome, start)
    requires events0 == before + Assigns(works[..i])
    modifies memory, memory.store.Values
    ensures memory.Valid()
    ensures forall d :: d in memory.store.Values ==> d in old(memory.store.Values) || fresh(d)
    ensures Run(memory.Contents(), trace, error) == RunWorks(ProcessStep, ctx, works[..i + 1], outcome, start)
    ensures events == before + Assigns(works[..i + 1])
  {
    RunWorksNext(ProcessStep, ctx, works, i, outcome, start);
    AssignsNext(works, i);
    events := events0 + [Assign(works[i].agent, ProcessName(works[i].unit))];
    trace, error := Iterate(memory, ProcessStep, ctx, works[i], outcome(i), trace0);
  }

  /** Where a loop that stops at the first error leaves off: the run over the
      items it reached is the run over all of them, and it reached exactly
      `Started` items. */
  lemma LoopExit(step: Step, ctx: string, works: seq<Work>, i: nat, outcome: nat -> AgentOutcome, start: Run)
    requires start.error.None? && i <= |works|
    requires i < |works| ==> RunWorks(step, ctx, works[..i], outcome, start).error.Some?
    requires RunWorks(step, ctx, works[..i], outcome, start).error.Some? ==>
      i > 0 && RunWorks(step, ctx, works[..i - 1], outcome, start).error.None?
    ensures RunWorks(step, ctx, works[..i], outcome, start) == RunWorks(step, ctx, works, outcome, start)
    ensures Upto(works, Started(start.trace, RunWorks(step, ctx, works, outcome, start))) == works[..i]
  {
    if i < |works| {
      RunSticky(step, ctx, works, i, outcome, start);
    } else {
      assert works[..i] == works;
    }
    LoopExitCount(step, ctx, works, i, outcome, start);
  }

  lemma LoopExitCount(step: Step, ctx: string, works: seq<Work>, i: nat, outcome: nat -> AgentOutcome, start: Run)
    requires start.error.None? && i <= |works|
    requires RunWorks(step, ctx, works[..i], outcome, start) == RunWorks(step, ctx, works, outcome, start)
    requires RunWorks(step, ctx, works[..i], outcome, start).error.Some? ==>
      i > 0 && RunWorks(step, ctx, works[..i - 1], outcome, start).error.None?
    requires RunWorks(step, ctx, works, outcome, start).error.None? ==> i == |works|
    ensures Started(start.trace, RunWorks(step, ctx, works, outcome, start)) == i
  {
    var run := RunWorks(step, ctx, works, outcome, start);
    StartedSpec(step, ctx, works, outcome, start);
    if run.error.Some? {
      FirstError(step, ctx, works, Started(start.trace, run), i, outcome, start);
    }
  }

  /** One more call, one more `assign` event. */
  lemma AssignsNext(works: seq<Work>, i: nat)
    requires i < |works| && works[i].Call?
    ensures Assigns(works[..i + 1]) == Assigns(works[..i]) + [Assign(works[i].agent, ProcessName(works[i].unit))]
  {
    assert works[..i + 1] == works[..i] + [works[i]];
    AssignsAppend(works[..i], works[i]);
    assert Assigns([works[i]]) == [Assign(works[i].agent, ProcessName(works[i].unit))];
  }

  lemma {:induction false} AssignsAppend(works: seq<Work>, w: Work)
    ensures Assigns(works + [w]) == Assigns(works) + Assigns([w])
  {
    if works != [] {
      assert (works + [w])[1..] == works[1..] + [w];
      AssignsAppend(works[1..], w);
    }
  }

  /** `dispatch` touches no other context, only appends to the trace, and
      pushes its events after those already pushed. */
  lemma FinishedFrame(s: Store, trace: seq<TraceEntry>, ctx: string, events: seq<Event>,
                      plan: PlanParser.Plan, summary: string, outcome: nat -> AgentOutcome)
    ensures var out := Finished(s, trace, ctx, events, plan, summary, outcome);
      && (forall c :: c != ctx ==> EntryOf(out.store, c) == EntryOf(s, c))
      && |trace| <= |out.trace| && out.trace[..|trace|] == trace
      && |events| <= |out.events| && out.events[..|events|] == events
  {
    var works := Pairs(plan);
    var start := Run(s, trace, None);
    var run := RunWorks(ProcessStep, ctx, works, outcome, start);
    RunFrame(ProcessStep, ctx, works, outcome, start);
    var ev := events + Assigns(Upto(works, Started(trace, run)));
    var out := Finished(s, trace, ctx, events, plan, summary, outcome);
    ConcludedFrame(run, ctx, ev, summary, out);
    assert out.trace[..|trace|] == out.trace[..|run.trace|][..|trace|];
    assert out.events[..|events|] == out.events[..|ev|][..|events|];
  }

  /** The summary step writes only the task's context, appends at most one
      trace record and pushes at most `done` after the loop's events. */
  lemma ConcludedFrame(run: Run, ctx: string, events: seq<Event>, summary: string, out: Outcome)
    requires out == Concluded(run, ctx, events, summary)
    ensures forall c :: c != ctx ==> EntryOf(out.store, c) == EntryOf(run.store, c)
    ensures |run.trace| <= |out.trace| && out.trace[..|run.trace|] == run.trace
    ensures |events| <= |out.events| && out.events[..|events|] == events
  {
    if run.error.None? && CollectError(EntryOf(run.store, ctx), InRegistry).None? {
      var one := [("summary", JStr(Strip(summary)))];
      assert PyDict.Keys(one) == ["summary"];
      MergedSpec(run.store, ctx, one);
      assert out.trace[..|run.trace|] == run.trace;
      assert out.events[..|events|] == events;
    }
  }

  /** After the events already pushed come only `assign` events, then `done`
      with the markdown exactly when `dispatch` returns, as its last event. */
  lemma FinishedEvents(s: Store, trace: seq<TraceEntry>, ctx: string, events: seq<Event>,
                       plan: PlanParser.Plan, summary: string, outcome: nat -> AgentOutcome)
    ensures var out := Finished(s, trace, ctx, events, plan, summary, outcome);
      && |events| <= |out.events| && out.events[..|events|] == events
      && (out.result.Ok? ==> |out.events| > |events| && out.events[|out.events| - 1] == Done(out.result.value)
                             && out.result.value == Strip(summary))
      && (forall k :: |events| <= k < |out.events| && (out.result.Err? || k < |out.events| - 1) ==>
            out.events[k].Assign?)
  {
  }

  /** When the context's memory holds a dict (or nothing) for every registry
      agent and the plan names only registry agents, the loop never raises:
      one `assign` event and one trace record per planned pair, in plan order,
      each pair's `"Process " + key` stored in its agent's sub-dict, and the
      summary raises only if some registry agent's dict holds a value that is
      not a string. */
  lemma FinishedClean(s: Store, trace: seq<TraceEntry>, ctx: string, events: seq<Event>,
                      plan: PlanParser.Plan, summary: string, outcome: nat -> AgentOutcome)
    requires AgentsAreDicts(EntryOf(s, ctx))
    requires forall k :: 0 <= k < |plan| ==> plan[k].0 in Registry
    ensures var works := Pairs(plan);
      var run := RunWorks(ProcessStep, ctx, works, outcome, Run(s, trace, None));
      var out := Finished(s, trace, ctx, events, plan, summary, outcome);
      && run.error.None?
      && AssignedFrom(out.events, |events|, works)
      && RecordedFrom(out.trace, |trace|, works)
      && KeysRecorded(EntryOf(out.store, ctx), works)
      && (out.result.Err? <==> CollectError(EntryOf(run.store, ctx), InRegistry).Some?)
  {
    var works := Pairs(plan);
    var start := Run(s, trace, None);
    PairsInRegistry(plan);
    CleanRun(ctx, works, outcome, start);
    var run := RunWorks(ProcessStep, ctx, works, outcome, start);
    FinishedAfterCleanRun(s, trace, ctx, events, plan, summary, outcome);
    var evs := events + Assigns(works);
    AssignedAfter(events, works, []);
    var md := Strip(summary);
    if CollectError(EntryOf(run.store, ctx), InRegistry).None? {
      SummaryKeepsKeys(run.store, ctx, md, works);
      AssignedAfter(events, works, [Done(md)]);
      RecordedExtend(run.trace, |trace|, works, [TraceEntry("scheduler", SummaryTask, JStr(md))]);
    }
  }

  /** The `assign` events of the calls, pushed after `events`, then `more`. */
  lemma AssignedAfter(events: seq<Event>, works: seq<Work>, more: seq<Event>)
    requires forall i :: 0 <= i < |works| ==> works[i].Call?
    ensures AssignedFrom(events + Assigns(works) + more, |events|, works)
  {
    AssignsOfCalls(works);
    var evs := events + Assigns(works) + more;
    forall i | 0 <= i < |works|
      ensures evs[|events| + i] == Assign(works[i].agent, ProcessName(works[i].unit))
    {
      assert evs[|events| + i] == Assigns(works)[i];
    }
  }

  lemma RecordedExtend(trace: seq<TraceEntry>, from: nat, works: seq<Work>, more: seq<TraceEntry>)
    requires RecordedFrom(trace, from, works)
    ensures RecordedFrom(trace + more, from, works)
  {
    forall i | 0 <= i < |works| && works[i].Call?
      ensures (trace + more)[from + i] == trace[from + i]
    {
    }
  }

  /** `Finished` once the loop has gone through every pair. */
  lemma FinishedAfterCleanRun(s: Store, trace: seq<TraceEntry>, ctx: string, events: seq<Event>,
                              plan: PlanParser.Plan, summary: string, outcome: nat -> AgentOutcome)
    requires var run := RunWorks(ProcessStep, ctx, Pairs(plan), outcome, Run(s, trace, None));
      run.error.None? && Started(trace, run) == |Pairs(plan)|
    ensures var works := Pairs(plan);
      var run := RunWorks(ProcessStep, ctx, works, outcome, Run(s, trace, None));
      var md := Strip(summary);
      Finished(s, trace, ctx, events, plan, summary, outcome) ==
        if CollectError(EntryOf(run.store, ctx), InRegistry).Some? then
          Outcome(run.store, run.trace, events + Assigns(works), Err(CollectError(EntryOf(run.store, ctx), InRegistry).value))
        else
          Outcome(Merged(run.store, ctx, [("summary", JStr(md))]),
                  run.trace + [TraceEntry("scheduler", SummaryTask, JStr(md))],
                  events + Assigns(works) + [Done(md)], Ok(md))
  {
    assert Upto(Pairs(plan), |Pairs(plan)|) == Pairs(plan);
  }

  /** From position `from` on, one `assign` event per call, in order. */
  predicate AssignedFrom(events: seq<Event>, from: nat, works: seq<Work>)
  {
    && |events| >= from + |works|
    && forall i :: 0 <= i < |works| && works[i].Call? ==>
         events[from + i] == Assign(works[i].agent, ProcessName(works[i].unit))
  }

  /** From position `from` on, one trace record per call, in order, naming
      its agent and `"Process " + key`. */
  predicate RecordedFrom(trace: seq<TraceEntry>, from: nat, works: seq<Work>)
  {
    && |trace| >= from + |works|
    && forall i :: 0 <= i < |works| && works[i].Call? ==>
         trace[from + i].agent == works[i].agent && trace[from + i].subtask == ProcessName(works[i].unit)
  }

  /** The loop part of `FinishedClean`. */
  lemma CleanRun(ctx: string, works: seq<Work>, outcome: nat -> AgentOutcome, start: Run)
    requires start.error.None? && AgentsAreDicts(EntryOf(start.store, ctx))
    requires forall i :: 0 <= i < |works| ==> works[i].Call? && works[i].agent in Registry
    ensures var run := RunWorks(ProcessStep, ctx, works, outcome, start);
      && run.error.None?
      && Started(start.trace, run) == |works|
      && |run.trace| == |start.trace| + |works|
      && RecordedFrom(run.trace, |start.trace|, works)
      && KeysRecorded(EntryOf(run.store, ctx), works)
  {
    ProcessRunKeys(ctx, works, outcome, start);
    ProcessStepSafe();
    RunTrace(ProcessStep, ProcessName, ctx, works, outcome, start);
    StartedSpec(ProcessStep, ctx, works, outcome, start);
  }

  /** On calls only, there is one `assign` event per call, naming it. */
  lemma {:induction false} AssignsOfCalls(works: seq<Work>)
    requires forall i :: 0 <= i < |works| ==> works[i].Call?
    ensures |Assigns(works)| == |works|
    ensures forall i :: 0 <= i < |works| ==> Assigns(works)[i] == Assign(works[i].agent, ProcessName(works[i].unit))
  {
    if works != [] {
      AssignsOfCalls(works[1..]);
      assert forall i :: 1 <= i < |works| ==> works[i] == works[1..][i - 1];
    }
  }

  lemma PairsInRegistry(plan: PlanParser.Plan)
    requires forall k :: 0 <= k < |plan| ==> plan[k].0 in Registry
    ensures forall i :: 0 <= i < |Pairs(plan)| ==> Pairs(plan)[i].Call? && Pairs(plan)[i].agent in Registry
  {
    forall i | 0 <= i < |Pairs(plan)|
      ensures Pairs(plan)[i].agent in Registry
    {
      var a := Pairs(plan)[i].agent;
      assert a in PyDict.Keys(plan);
      var k :| 0 <= k < |plan| && PyDict.Keys(plan)[k] == a;
    }
  }

  /** Storing the summary leaves every agent's sub-dict as it was. */
  lemma SummaryKeepsKeys(store: Store, ctx: string, md: string, works: seq<Work>)
    requires KeysRecorded(EntryOf(store, ctx), works)
    requires forall i :: 0 <= i < |works| ==> works[i].Call? && works[i].agent in Registry
    ensures KeysRecorded(EntryOf(Merged(store, ctx, [("summary", JStr(md))]), ctx), works)
  {
    var one := [("summary", JStr(md))];
    assert PyDict.Keys(one) == ["summary"];
    MergedSpec(store, ctx, one);
    forall i | 0 <= i < |works|
      ensures SubDict(EntryOf(Merged(store, ctx, one), ctx), works[i].agent) == SubDict(EntryOf(store, ctx), works[i].agent)
    {
      assert !PyDict.HasKey(one, works[i].agent);
    }
  }

  /** A `dispatch` that returns has stored the stripped summary under
      `"summary"` and traced it last, under the scheduler's name. */
  lemma FinishedSummary(s: Store, trace: seq<TraceEntry>, ctx: string, events: seq<Event>,
                        plan: PlanParser.Plan, summary: string, outcome: nat -> AgentOutcome)
    ensures var out := Finished(s, trace, ctx, events, plan, summary, outcome);
      out.result.Ok? ==>
        && out.result.value == Strip(summary)
        && PyDict.Get(EntryOf(out.store, ctx), "summary", JNull) == JStr(Strip(summary))
        && |out.trace| > |trace|
        && out.trace[|out.trace| - 1] == TraceEntry("scheduler", SummaryTask, JStr(Strip(summary)))
  {
    var works := Pairs(plan);
    var run := RunWorks(ProcessStep, ctx, works, outcome, Run(s, trace, None));
    RunFrame(ProcessStep, ctx, works, outcome, Run(s, trace, None));
    ConcludedSummary(run, ctx, events + Assigns(Upto(works, Started(trace, run))), summary);
  }

  /** A summary that goes through is stored under `"summary"`, traced last
      and returned, stripped. */
  lemma ConcludedSummary(run: Run, ctx: string, events: seq<Event>, summary: string)
    ensures var out := Concluded(run, ctx, events, summary);
      out.result.Ok? ==>
        && out.result.value == Strip(summary)
        && PyDict.Get(EntryOf(out.store, ctx), "summary", JNull) == JStr(Strip(summary))
        && |out.trace| == |run.trace| + 1
        && out.trace[|run.trace|] == TraceEntry("scheduler", SummaryTask, JStr(Strip(summary)))
  {
    if run.error.None? && CollectError(EntryOf(run.store, ctx), InRegistry).None? {
      var one := [("summary", JStr(Strip(summary)))];
      assert PyDict.Keys(one) == ["summary"];
      MergedSpec(run.store, ctx, one);
    }
  }

  // ------------------------------------------------------------ page plans

  /** `[pid for pid, _ in pages]` of an `n`-page document: `page_1 .. page_n`. */
  function PageIds(n: nat): seq<string>
  {
    PlanParser.ExpandRange("page_", 1, n)
  }

  /** `_plan_pages` with the round-robin fallback of `dispatch`. */
  function PagePlan(n: nat, reply: string): Result<PlanParser.Plan, PyError>
  {
    match PlanParser.ParsePlan(reply, Registry, "page_", true)
    case Err(e) => Err(e)
    case Ok(p) => Ok(if p == [] then Allocation.RoundRobinPlan(PageIds(n), Registry) else p)
  }

  /** `_plan_pages`, then the round-robin loop when the plan is empty. */
  method PlanPages(n: nat, reply: string) returns (r: Result<PlanParser.Plan, PyError>)
    ensures r == PagePlan(n, reply)
  {
    r := PlanParser.Parse(reply, Registry, "page_", true);
    if r.Ok? && r.value == [] {
      var plan := Allocation.RoundRobin(PageIds(n), Registry);
      r := Ok(plan);
    }
  }

  /** The page plan fails exactly when the oracle's lines do; it names only
      registry agents, and when the oracle assigned nothing every registry
      agent gets every second page, starting from its own position. */
  lemma PagePlanSpec(n: nat, reply: string)
    ensures PagePlan(n, reply).Ok? <==> PlanParser.ParsePlan(reply, Registry, "page_", true).Ok?
    ensures PagePlan(n, reply).Ok? ==>
      forall k :: 0 <= k < |PagePlan(n, reply).value| ==> PagePlan(n, reply).value[k].0 in Registry
    ensures PlanParser.ParsePlan(reply, Registry, "page_", true) == Ok([]) ==>
      && PyDict.Keys(PagePlan(n, reply).value) == Registry
      && forall j :: 0 <= j < |Registry| ==>
           PagePlan(n, reply).value[j].1 == Allocation.Every(PageIds(n), j, |Registry|)
  {
    var parsed := PlanParser.ParsePlan(reply, Registry, "page_", true);
    if parsed.Ok? {
      if parsed.value == [] {
        Allocation.RoundRobinSpec(PageIds(n), Registry);
        var p := PagePlan(n, reply).value;
        assert forall k :: 0 <= k < |p| ==> p[k].0 == PyDict.Keys(p)[k];
      } else {
        PlanParser.ParsePlanShape(reply, Registry, "page_", true);
      }
    }
  }
}

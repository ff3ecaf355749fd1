/** The `dispatch` body shared by llm_scheduler_v5.py,
    llm_scheduler_best_version.py, llm_scheduler_v4.py,
    llm_scheduler_best_2.py, llm_scheduler_v6.py, llm_scheduler_half.py,
    llm_scheduler_v2.py and llm_scheduler_v3.py: the agent's reply is
    normalised to `memory_update` or `{agent: result}` inside the `try`, then
    merged into the context's memory one level deep and traced by
    `mem.get(agent, "")` outside it; the run ends with a summary that always
    succeeds. */
module Overwriting {
  import opened Wrappers
  import opened JsonData
  import PyDict
  import opened Memory
  import opened Dispatch
  import opened Conclusion

  const SummaryTask := "自动生成总结"

  /** How the reply is read. `AsReturned` (llm_scheduler_v5.py,
      llm_scheduler_best_version.py, llm_scheduler_v4.py) and `Cleaned`
      (llm_scheduler_best_2.py, llm_scheduler_v6.py, where the result text is
      cleaned of instruction tags) take a truthy `memory_update`, else the
      result. `Membership` (llm_scheduler_half.py, llm_scheduler_v2.py,
      llm_scheduler_v3.py) looks the agent up in `REGISTRY` first and takes
      `memory_update` whenever the reply holds that key, read with `[...]`
      when `subscript` (else with `.get`); a traced dict without the agent's
      key shows a note when `noted` (else `""`). */
  datatype Reading = AsReturned | Cleaned | Membership(subscript: bool, noted: bool)

  /** `result.replace("[INST]", "").replace("[/INST]", "").strip()` */
  function CleanText(s: string): string
  {
    Text.Strip(Text.RemoveAll(Text.RemoveAll(s, "[INST]"), "[/INST]"))
  }

  /** The reply's `result`, default `""`. */
  function ResultOf(body: Json): Json
    requires body.JObj?
  {
    PyDict.Get(body.fields, "result", JStr(""))
  }

  /** `mem = out.get("memory_update") or {agent: out.get("result", "")}`, or
      with the cleaned text `clean` computed first from the result, or
      `output["memory_update"] if "memory_update" in output else {agent:
      output.get("result", "")}`, inside the `try`; or the message of the
      exception it caught. */
  function Normalised(reading: Reading, agent: string, o: AgentOutcome): (r: Result<Json, string>)
    ensures !reading.Membership? ==>
      (r.Ok? <==> o.Response? && o.body.JObj? && (reading.Cleaned? ==> ResultOf(o.body).JStr?))
    ensures !reading.Membership? && r.Ok? ==> Truthy(r.value)
    ensures reading.Membership? ==> (r.Ok? <==> agent in Registry && o.Response? && o.body.JObj?)
  {
    if reading.Membership? then Membered(reading.subscript, agent, o)
    else
    match o
    case CallError(m) => Err(m)
    case Response(_, body) =>
      if !body.JObj? then Err(NoAttributeMessage(body, "get"))
      else
        var res := ResultOf(body);
        if reading.Cleaned? && !res.JStr? then Err(NoAttributeMessage(res, "replace"))
        else
          var mu := PyDict.Get(body.fields, "memory_update", JNull);
          if Truthy(mu) then Ok(mu)
          else Ok(JObj([(agent, if reading.Cleaned? then JStr(CleanText(res.s)) else res)]))
  }

  /** `REGISTRY[agent]`, the call, then the membership test on the reply. */
  function Membered(subscript: bool, agent: string, o: AgentOutcome): (r: Result<Json, string>)
    ensures r.Ok? <==> agent in Registry && o.Response? && o.body.JObj?
  {
    if agent !in Registry then Err(KeyErrorMessage(agent))
    else
      match o
      case CallError(m) => Err(m)
      case Response(_, body) =>
        match PyIn("memory_update", body)
        case Err(m) => Err(m)
        case Ok(present) =>
          if body.JObj? then
            if present then Ok(PyDict.Get(body.fields, "memory_update", JObj([])))
            else Ok(JObj([(agent, ResultOf(body))]))
          else if present && subscript then Err(IndexMessage(body))
          else Err(NoAttributeMessage(body, "get"))
  }

  /** The message of the `TypeError` that `v["memory_update"]` raises on a
      list or a string (CPython 3.11 wording). */
  function IndexMessage(v: Json): string
  {
    if v.JArr? then "list indices must be integers or slices, not str"
    else "string indices must be integers, not 'str'"
  }

  /** What `mem.get(agent, ...)` gives for a dict without the agent's key. */
  function Fallback(reading: Reading, agent: string): Json
  {
    if reading.Membership? && reading.noted then JStr("[⚠️ memory_update 中缺少 '" + agent + "']") else JStr("")
  }

  /** One pass of the loop body: a caught failure is only traced; otherwise
      `memory.update(ctx, mem)` and then the record of `mem.get(agent, "")`,
      both outside the `try`, so a `mem` that is not a dict raises. */
  function Overwrite(reading: Reading, entry: Entry, agent: string, unit: string, o: AgentOutcome): StepOut
  {
    match Normalised(reading, agent, o)
    case Err(m) => StepOut(None, Ok(TraceEntry(agent, unit, Marker(m))))
    case Ok(mem) =>
      var u := UpdateArg(mem);
      StepOut(Some(u.0),
              if u.1.Some? then Err(u.1.value)
              else if mem.JObj? then Ok(TraceEntry(agent, unit, PyDict.Get(mem.fields, agent, Fallback(reading, agent))))
              else Err(AttributeError))
  }

  /** The loop body as the engine runs it. */
  function StepOf(reading: Reading): Step
  {
    (entry, agent, unit, o) => Overwrite(reading, entry, agent, unit, o)
  }

  /** The calls whose pass does not raise: a caught failure, or a `mem` that is a dict. */
  predicate Clean(reading: Reading, agent: string, o: AgentOutcome)
  {
    Normalised(reading, agent, o).Ok? ==> Normalised(reading, agent, o).value.JObj?
  }

  /** The pairs a call writes into the context's memory. */
  function Written(reading: Reading, agent: string, o: AgentOutcome): Entry
  {
    match Normalised(reading, agent, o)
    case Err(_) => []
    case Ok(mem) => UpdateArg(mem).0
  }

  /** The output a clean call traces: the marker, or `mem.get(agent, "")`. */
  function Output(reading: Reading, agent: string, o: AgentOutcome): Json
  {
    match Normalised(reading, agent, o)
    case Err(m) => Marker(m)
    case Ok(mem) => if mem.JObj? then PyDict.Get(mem.fields, agent, Fallback(reading, agent)) else JNull
  }

  /** Everything the calls write, in call order. */
  function Writes(reading: Reading, works: seq<Work>, outcome: nat -> AgentOutcome): Entry
  {
    if works == [] then []
    else
      var w := works[|works| - 1];
      Writes(reading, works[..|works| - 1], outcome) + (if w.Call? then Written(reading, w.agent, outcome(|works| - 1)) else [])
  }

  /** The collection of `summary_prompt` reads `memory.get(ctx).get(agent, '')`
      of a dict and formats any value, so it never raises. */
  function NoError(e: Entry): Option<PyError>
  {
    None
  }

  /** The loop over the given calls, then the summary. */
  function Closed(reading: Reading, s: Store, trace: seq<TraceEntry>, ctx: string, works: seq<Work>,
                  summary: string, outcome: nat -> AgentOutcome): Run
  {
    Closing(RunWorks(StepOf(reading), ctx, works, outcome, Run(s, trace, None)), ctx, NoError, SummaryTask, summary)
  }

  /** The loop over the planned pairs, then the summary. */
  function Finished(reading: Reading, s: Store, trace: seq<TraceEntry>, ctx: string, plan: PyDict.Dict<string, seq<string>>,
                    summary: string, outcome: nat -> AgentOutcome): Run
  {
    Closed(reading, s, trace, ctx, Pairs(plan), summary, outcome)
  }

  /** The loop over the given calls, then the summary. */
  method FinishWorks(reading: Reading, memory: MemoryStore, ctx: string, trace0: seq<TraceEntry>, works: seq<Work>,
                     summary: string, outcome: nat -> AgentOutcome)
    returns (trace: seq<TraceEntry>, result: Result<Entry, PyError>)
    requires memory.Valid()
    modifies memory, memory.store.Values
    ensures memory.Valid()
    ensures var run := Closed(reading, old(memory.Contents()), trace0, ctx, works, summary, outcome);
      memory.Contents() == run.store && trace == run.trace && result == Returned(run, ctx)
  {
    var error;
    trace, error := RunAll(memory, StepOf(reading), ctx, works, outcome, trace0);
    if error.None? {
      trace, error := Close(memory, ctx, trace, NoError, SummaryTask, summary);
    }
    if error.Some? {
      result := Err(error.value);
    } else {
      var current := memory.Get(ctx);
      result := Ok(current.entries);
    }
  }

  /** `for agent, gid_list in plan.items(): for gid in gid_list: ...`, then
      the summary. */
  method Finish(reading: Reading, memory: MemoryStore, ctx: string, trace0: seq<TraceEntry>, plan: PyDict.Dict<string, seq<string>>,
                summary: string, outcome: nat -> AgentOutcome)
    returns (trace: seq<TraceEntry>, result: Result<Entry, PyError>)
    requires memory.Valid()
    modifies memory, memory.store.Values
    ensures memory.Valid()
    ensures var run := Finished(reading, old(memory.Contents()), trace0, ctx, plan, summary, outcome);
      memory.Contents() == run.store && trace == run.trace && result == Returned(run, ctx)
  {
    trace, result := FinishWorks(reading, memory, ctx, trace0, Pairs(plan), summary, outcome);
  }

  // ------------------------------------------------------------ properties

  /** A pass raises exactly when `mem` is not a dict, after writing what
      `dict.update` accepted of it; a clean pass writes `mem`'s pairs, or
      nothing on a caught failure, and traces the output. */
  lemma OverwriteSpec(reading: Reading, e: Entry, agent: string, unit: string, o: AgentOutcome)
    ensures var out := Overwrite(reading, e, agent, unit, o);
      && (out.record.Err? <==> !Clean(reading, agent, o))
      && (out.write.Some? <==> Normalised(reading, agent, o).Ok?)
      && (out.write.Some? ==> out.write.value == Written(reading, agent, o))
      && (Clean(reading, agent, o) ==> out.record == Ok(TraceEntry(agent, unit, Output(reading, agent, o))))
      && (Clean(reading, agent, o) && out.write.Some? ==> out.write.value == Normalised(reading, agent, o).value.fields)
  {
  }

  /** A reply without a truthy `memory_update` (and, when cleaned, with a
      text `result`) is clean; it sets the agent's key to the reply's
      `result` (default `""`), cleaned if so read, overwriting what was there,
      leaves every other key alone, and traces that value. */
  lemma PlainResult(reading: Reading, e: Entry, agent: string, o: AgentOutcome)
    requires !reading.Membership?
    requires o.Response? && o.body.JObj? && !Truthy(PyDict.Get(o.body.fields, "memory_update", JNull))
    requires reading.Cleaned? ==> ResultOf(o.body).JStr?
    ensures var v := if reading.Cleaned? then JStr(CleanText(ResultOf(o.body).s)) else ResultOf(o.body);
      && Clean(reading, agent, o)
      && PyDict.Get(PyDict.Update(e, Written(reading, agent, o)), agent, JNull) == v
      && (forall k, d: Json :: k != agent ==> PyDict.Get(PyDict.Update(e, Written(reading, agent, o)), k, d) == PyDict.Get(e, k, d))
      && Output(reading, agent, o) == v
  {
    var v := if reading.Cleaned? then JStr(CleanText(ResultOf(o.body).s)) else ResultOf(o.body);
    var one := [(agent, v)];
    assert Written(reading, agent, o) == one;
    assert PyDict.Keys(one) == [agent];
    PyDict.UpdateSpec(e, one);
  }

  /** When the result is cleaned, a reply whose `result` is not text fails
      inside the `try` before `mem` is chosen: it is traced as a caught
      failure and writes nothing, even with a truthy `memory_update`. */
  lemma ResultNotText(agent: string, o: AgentOutcome)
    requires o.Response? && o.body.JObj? && !ResultOf(o.body).JStr?
    ensures Clean(Cleaned, agent, o) && Written(Cleaned, agent, o) == []
    ensures Output(Cleaned, agent, o) == Marker(NoAttributeMessage(ResultOf(o.body), "replace"))
  {
  }

  /** A result holding neither tag is only stripped. */
  lemma CleanTextWithoutTags(s: string)
    requires !Text.Occurs(s, "[INST]") && !Text.Occurs(s, "[/INST]")
    ensures CleanText(s) == Text.Strip(s)
  {
    Text.RemoveAllIdentity(s, "[INST]");
    Text.RemoveAllIdentity(s, "[/INST]");
  }

  /** With the membership reading, an agent missing from `REGISTRY` fails
      inside the `try` on `REGISTRY[agent]`, whatever it would have replied:
      the failure is traced with the `KeyError`'s message and nothing is
      written. */
  lemma UnknownAgent(subscript: bool, noted: bool, agent: string, o: AgentOutcome)
    requires agent !in Registry
    ensures var reading := Membership(subscript, noted);
      && Clean(reading, agent, o) && Written(reading, agent, o) == []
      && Output(reading, agent, o) == Marker(KeyErrorMessage(agent))
  {
  }

  /** With the membership reading, a reply dict holding `memory_update`
      gives that value as `mem` even when it is empty or not a dict: the pass
      is clean exactly when it is a dict, and then writes its pairs. */
  lemma MemberUpdate(subscript: bool, noted: bool, agent: string, o: AgentOutcome, v: Json)
    requires agent in Registry && o.Response? && o.body.JObj?
    requires PyDict.Lookup(o.body.fields, "memory_update") == Some(v)
    ensures var reading := Membership(subscript, noted);
      && Normalised(reading, agent, o) == Ok(v)
      && (Clean(reading, agent, o) <==> v.JObj?)
      && (v.JObj? ==> Written(reading, agent, o) == v.fields)
  {
    PyDict.LookupAgreesWithGet(o.body.fields, "memory_update", JObj([]));
  }

  /** With the membership reading, a reply dict without `memory_update`
      sets the agent's key to its `result` (default `""`), overwriting what
      was there and leaving every other key alone, and traces that value. */
  lemma MemberResult(subscript: bool, noted: bool, e: Entry, agent: string, o: AgentOutcome)
    requires agent in Registry && o.Response? && o.body.JObj?
    requires !PyDict.HasKey(o.body.fields, "memory_update")
    ensures var reading := Membership(subscript, noted);
      var e' := PyDict.Update(e, Written(reading, agent, o));
      && Clean(reading, agent, o)
      && PyDict.Get(e', agent, JNull) == ResultOf(o.body)
      && (forall k, d: Json :: k != agent ==> PyDict.Get(e', k, d) == PyDict.Get(e, k, d))
      && Output(reading, agent, o) == ResultOf(o.body)
  {
    var one := [(agent, ResultOf(o.body))];
    assert Written(Membership(subscript, noted), agent, o) == one;
    assert PyDict.Keys(one) == [agent];
    PyDict.UpdateSpec(e, one);
  }

  /** An empty `memory_update` is falsy: the `or` of the other readings
      falls back to `{agent: result}`, while the membership reading takes it
      and writes nothing. */
  lemma EmptyUpdate(subscript: bool, noted: bool, agent: string, o: AgentOutcome)
    requires agent in Registry && o.Response? && o.body.JObj?
    requires PyDict.Lookup(o.body.fields, "memory_update") == Some(JObj([]))
    ensures Written(AsReturned, agent, o) == [(agent, ResultOf(o.body))]
    ensures Written(Membership(subscript, noted), agent, o) == []
  {
    PyDict.LookupAgreesWithGet(o.body.fields, "memory_update", JNull);
    PyDict.LookupAgreesWithGet(o.body.fields, "memory_update", JObj([]));
  }

  /** A clean `mem` without the agent's key traces the note naming the
      agent when noted, and `""` otherwise. */
  lemma MissingKeyOutput(subscript: bool, noted: bool, agent: string, o: AgentOutcome)
    requires agent in Registry && o.Response? && o.body.JObj?
    requires var mem := PyDict.Get(o.body.fields, "memory_update", JObj([]));
      PyDict.HasKey(o.body.fields, "memory_update") && mem.JObj? && !PyDict.HasKey(mem.fields, agent)
    ensures Output(Membership(subscript, noted), agent, o) ==
      if noted then JStr("[⚠️ memory_update 中缺少 '" + agent + "']") else JStr("")
  {
    PyDict.GetOfAbsent(PyDict.Get(o.body.fields, "memory_update", JObj([])).fields, agent, Fallback(Membership(subscript, noted), agent));
  }

  /** The loop raises exactly when some call is not clean. */
  lemma {:induction false} LoopRaises(reading: Reading, ctx: string, works: seq<Work>, outcome: nat -> AgentOutcome, start: Run)
    requires start.error.None?
    requires forall i :: 0 <= i < |works| ==> works[i].Call?
    ensures RunWorks(StepOf(reading), ctx, works, outcome, start).error.Some? <==>
      exists i :: 0 <= i < |works| && !Clean(reading, works[i].agent, outcome(i))
  {
    if works != [] {
      var n := |works| - 1;
      var init := works[..n];
      var w := works[n];
      LoopRaises(reading, ctx, init, outcome, start);
      var r := RunWorks(StepOf(reading), ctx, init, outcome, start);
      if r.error.Some? {
        var i :| 0 <= i < |init| && !Clean(reading, init[i].agent, outcome(i));
        assert works[i] == init[i];
      } else {
        OverwriteSpec(reading, EntryOf(r.store, ctx), w.agent, w.unit, outcome(n));
        assert RunWorks(StepOf(reading), ctx, works, outcome, start).error.Some? <==> !Clean(reading, w.agent, outcome(n));
        forall i | 0 <= i < n
          ensures Clean(reading, works[i].agent, outcome(i))
        {
          assert works[i] == init[i];
        }
      }
    }
  }

  /** A loop that does not raise leaves the context's memory as one
      `dict.update` with everything the calls wrote, in order (so a key
      written twice holds the later write), and appends one record per pair,
      naming its agent and unit and tracing the output. */
  lemma {:induction false} LoopSpec(reading: Reading, ctx: string, works: seq<Work>, outcome: nat -> AgentOutcome, start: Run)
    requires start.error.None?
    requires forall i :: 0 <= i < |works| ==> works[i].Call?
    requires RunWorks(StepOf(reading), ctx, works, outcome, start).error.None?
    ensures var r := RunWorks(StepOf(reading), ctx, works, outcome, start);
      && EntryOf(r.store, ctx) == PyDict.Update(EntryOf(start.store, ctx), Writes(reading, works, outcome))
      && |r.trace| == |start.trace| + |works| && r.trace[..|start.trace|] == start.trace
      && forall i :: 0 <= i < |works| ==>
           r.trace[|start.trace| + i] == TraceEntry(works[i].agent, works[i].unit, Output(reading, works[i].agent, outcome(i)))
  {
    LoopStore(reading, ctx, works, outcome, start);
    LoopTrace(reading, ctx, works, outcome, start);
  }

  /** The memory half of `LoopSpec`. */
  lemma {:induction false} LoopStore(reading: Reading, ctx: string, works: seq<Work>, outcome: nat -> AgentOutcome, start: Run)
    requires start.error.None?
    requires forall i :: 0 <= i < |works| ==> works[i].Call?
    requires RunWorks(StepOf(reading), ctx, works, outcome, start).error.None?
    ensures EntryOf(RunWorks(StepOf(reading), ctx, works, outcome, start).store, ctx)
         == PyDict.Update(EntryOf(start.store, ctx), Writes(reading, works, outcome))
  {
    var step := StepOf(reading);
    if works != [] {
      var init := works[..|works| - 1];
      var w := works[|works| - 1];
      var o := outcome(|works| - 1);
      var r := RunWorks(step, ctx, init, outcome, start);
      assert r.error.None?;
      LoopStore(reading, ctx, init, outcome, start);
      assert RunWorks(step, ctx, works, outcome, start) == Apply(step, ctx, w, o, r);
      LoopStep(reading, ctx, w, o, r);
      var written := Written(reading, w.agent, o);
      assert Writes(reading, works, outcome) == Writes(reading, init, outcome) + written;
      PyDict.UpdateConcat(EntryOf(start.store, ctx), Writes(reading, init, outcome), written);
    }
  }

  /** The trace half of `LoopSpec`. */
  lemma {:induction false} LoopTrace(reading: Reading, ctx: string, works: seq<Work>, outcome: nat -> AgentOutcome, start: Run)
    requires start.error.None?
    requires forall i :: 0 <= i < |works| ==> works[i].Call?
    requires RunWorks(StepOf(reading), ctx, works, outcome, start).error.None?
    ensures var r := RunWorks(StepOf(reading), ctx, works, outcome, start);
      && |r.trace| == |start.trace| + |works| && r.trace[..|start.trace|] == start.trace
      && forall i :: 0 <= i < |works| ==>
           r.trace[|start.trace| + i] == TraceEntry(works[i].agent, works[i].unit, Output(reading, works[i].agent, outcome(i)))
  {
    var step := StepOf(reading);
    if works != [] {
      var init := works[..|works| - 1];
      var w := works[|works| - 1];
      var o := outcome(|works| - 1);
      var r := RunWorks(step, ctx, init, outcome, start);
      assert r.error.None?;
      LoopTrace(reading, ctx, init, outcome, start);
      var r' := RunWorks(step, ctx, works, outcome, start);
      assert r' == Apply(step, ctx, w, o, r);
      LoopStep(reading, ctx, w, o, r);
      forall i | 0 <= i < |init|
        ensures r'.trace[|start.trace| + i] == TraceEntry(works[i].agent, works[i].unit, Output(reading, works[i].agent, outcome(i)))
      {
        assert works[i] == init[i];
        assert r'.trace[|start.trace| + i] == r.trace[|start.trace| + i];
      }
    }
  }

  /** One clean call: the context's memory takes what it wrote, and the trace
      gains its record. */
  lemma LoopStep(reading: Reading, ctx: string, w: Work, o: AgentOutcome, r: Run)
    requires r.error.None? && w.Call?
    requires Apply(StepOf(reading), ctx, w, o, r).error.None?
    ensures var r' := Apply(StepOf(reading), ctx, w, o, r);
      && EntryOf(r'.store, ctx) == PyDict.Update(EntryOf(r.store, ctx), Written(reading, w.agent, o))
      && r'.trace == r.trace + [TraceEntry(w.agent, w.unit, Output(reading, w.agent, o))]
  {
    var e := EntryOf(r.store, ctx);
    OverwriteSpec(reading, e, w.agent, w.unit, o);
    var out := Overwrite(reading, e, w.agent, w.unit, o);
    assert StepOf(reading)(e, w.agent, w.unit, o) == out;
    if out.write.None? {
      assert Written(reading, w.agent, o) == [];
    }
  }

  /** Over calls only, the run raises exactly when some call is not clean,
      and it never touches another context. */
  lemma ClosedRaises(reading: Reading, s: Store, trace: seq<TraceEntry>, ctx: string, works: seq<Work>,
                     summary: string, outcome: nat -> AgentOutcome)
    requires forall i :: 0 <= i < |works| ==> works[i].Call?
    ensures var out := Closed(reading, s, trace, ctx, works, summary, outcome);
      && (out.error.Some? <==> exists i :: 0 <= i < |works| && !Clean(reading, works[i].agent, outcome(i)))
      && (forall c :: c != ctx ==> EntryOf(out.store, c) == EntryOf(s, c))
  {
    var start := Run(s, trace, None);
    LoopRaises(reading, ctx, works, outcome, start);
    RunFrame(StepOf(reading), ctx, works, outcome, start);
    ClosingSpec(RunWorks(StepOf(reading), ctx, works, outcome, start), ctx, NoError, SummaryTask, summary);
  }

  /** A run over calls that does not raise: the context's memory is
      everything the calls wrote, then the summary under `"summary"`; the
      trace gains one record per call and then the scheduler's. */
  lemma ClosedClean(reading: Reading, s: Store, trace: seq<TraceEntry>, ctx: string, works: seq<Work>,
                    summary: string, outcome: nat -> AgentOutcome)
    requires forall i :: 0 <= i < |works| ==> works[i].Call?
    requires Closed(reading, s, trace, ctx, works, summary, outcome).error.None?
    ensures var out := Closed(reading, s, trace, ctx, works, summary, outcome);
      && EntryOf(out.store, ctx) ==
           PyDict.Update(PyDict.Update(EntryOf(s, ctx), Writes(reading, works, outcome)), [("summary", JStr(summary))])
      && |out.trace| == |trace| + |works| + 1 && out.trace[..|trace|] == trace
      && (forall i :: 0 <= i < |works| ==>
            out.trace[|trace| + i] == TraceEntry(works[i].agent, works[i].unit, Output(reading, works[i].agent, outcome(i))))
      && out.trace[|out.trace| - 1] == TraceEntry("scheduler", SummaryTask, JStr(summary))
  {
    var start := Run(s, trace, None);
    var run := RunWorks(StepOf(reading), ctx, works, outcome, start);
    assert run.error.None?;
    LoopSpec(reading, ctx, works, outcome, start);
    var out := Closed(reading, s, trace, ctx, works, summary, outcome);
    assert out == Summarised(run, ctx, SummaryTask, summary);
    assert out.trace == run.trace + [TraceEntry("scheduler", SummaryTask, JStr(summary))];
    forall i | 0 <= i < |works|
      ensures out.trace[|trace| + i] == TraceEntry(works[i].agent, works[i].unit, Output(reading, works[i].agent, outcome(i)))
    {
      assert out.trace[|trace| + i] == run.trace[|trace| + i];
    }
    assert out.trace[..|trace|] == run.trace[..|trace|];
  }

  /** Clean calls followed by an error raised outside the `try`: the run
      stops with that error, keeping everything the calls wrote and traced,
      and never reaches the summary. */
  lemma ClosedAborted(reading: Reading, s: Store, trace: seq<TraceEntry>, ctx: string, calls: seq<Work>, error: PyError,
                      summary: string, outcome: nat -> AgentOutcome)
    requires forall i :: 0 <= i < |calls| ==> calls[i].Call? && Clean(reading, calls[i].agent, outcome(i))
    ensures var out := Closed(reading, s, trace, ctx, calls + [Raise(error)], summary, outcome);
      && out.error == Some(error)
      && EntryOf(out.store, ctx) == PyDict.Update(EntryOf(s, ctx), Writes(reading, calls, outcome))
      && |out.trace| == |trace| + |calls| && out.trace[..|trace|] == trace
      && (forall i :: 0 <= i < |calls| ==>
            out.trace[|trace| + i] == TraceEntry(calls[i].agent, calls[i].unit, Output(reading, calls[i].agent, outcome(i))))
  {
    var start := Run(s, trace, None);
    var works := calls + [Raise(error)];
    assert works[..|works| - 1] == calls;
    var r0 := RunWorks(StepOf(reading), ctx, calls, outcome, start);
    assert r0.error.None? by {
      LoopRaises(reading, ctx, calls, outcome, start);
    }
    LoopSpec(reading, ctx, calls, outcome, start);
    assert RunWorks(StepOf(reading), ctx, works, outcome, start) == r0.(error := Some(error));
    var out := Closed(reading, s, trace, ctx, works, summary, outcome);
    assert out == r0.(error := Some(error));
    assert out.store == r0.store && out.trace == r0.trace;
    forall i | 0 <= i < |calls|
      ensures out.trace[|trace| + i] == TraceEntry(calls[i].agent, calls[i].unit, Output(reading, calls[i].agent, outcome(i)))
    {
      assert out.trace[|trace| + i] == r0.trace[|start.trace| + i];
    }
  }

  /** Once the plan is made, the run raises exactly when some call is not
      clean, and it never touches another context. */
  lemma FinishedRaises(reading: Reading, s: Store, trace: seq<TraceEntry>, ctx: string, plan: PyDict.Dict<string, seq<string>>,
                       summary: string, outcome: nat -> AgentOutcome)
    ensures var works := Pairs(plan);
      var out := Finished(reading, s, trace, ctx, plan, summary, outcome);
      && (out.error.Some? <==> exists i :: 0 <= i < |works| && !Clean(reading, works[i].agent, outcome(i)))
      && (forall c :: c != ctx ==> EntryOf(out.store, c) == EntryOf(s, c))
  {
    ClosedRaises(reading, s, trace, ctx, Pairs(plan), summary, outcome);
  }

  /** A run that does not raise: the context's memory is everything the
      calls wrote, then the summary under `"summary"`; the trace gains one
      record per pair and then the scheduler's. */
  lemma FinishedClean(reading: Reading, s: Store, trace: seq<TraceEntry>, ctx: string, plan: PyDict.Dict<string, seq<string>>,
                      summary: string, outcome: nat -> AgentOutcome)
    requires Finished(reading, s, trace, ctx, plan, summary, outcome).error.None?
    ensures var works := Pairs(plan);
      var out := Finished(reading, s, trace, ctx, plan, summary, outcome);
      && EntryOf(out.store, ctx) ==
           PyDict.Update(PyDict.Update(EntryOf(s, ctx), Writes(reading, works, outcome)), [("summary", JStr(summary))])
      && |out.trace| == |trace| + |works| + 1 && out.trace[..|trace|] == trace
      && (forall i :: 0 <= i < |works| ==>
            out.trace[|trace| + i] == TraceEntry(works[i].agent, works[i].unit, Output(reading, works[i].agent, outcome(i))))
      && out.trace[|out.trace| - 1] == TraceEntry("scheduler", SummaryTask, JStr(summary))
  {
    ClosedClean(reading, s, trace, ctx, Pairs(plan), summary, outcome);
  }
}

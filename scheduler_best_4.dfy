/** llm_scheduler_best_4.py: PDF only. The oracle's page plan is walked
    agent by agent; an agent may return its own `memory_update`, which is
    merged into its sub-dict. Afterwards every page the agents analysed is
    summarised on its own, and the page summaries are summarised as a whole. */
module SchedulerBest4 {
  import opened Wrappers
  import opened Text
  import opened JsonData
  import PyDict
  import opened Memory
  import opened Dispatch
  import opened Conclusion
  import PlanParser
  import ProgressSteps

  /** The oracle's replies: the page plan, the summary of each page (by page
      id) and the overall summary. */
  datatype Replies = Replies(plan: string, pageSummary: string -> string, summary: string)

  const SummaryTask := "自动生成全文总结"

  /** What PyMuPDF raises on bytes it cannot open. */
  const ReadError := PyError("FileDataError")

  // ------------------------------------------------------------ the loop

  /** What the `try` block yields: `data.get('memory_update') or {ag: {pid:
      data.get('result', '')}}`, or the message of the exception it caught. */
  function MemUpdate(agent: string, pid: string, o: AgentOutcome): Result<Json, string>
  {
    match o
    case CallError(m) => Err(m)
    case Response(_, body) =>
      if !body.JObj? then Err(NoAttributeMessage(body, "get"))
      else
        var mu := PyDict.Get(body.fields, "memory_update", JNull);
        if Truthy(mu) then Ok(mu)
        else Ok(JObj([(agent, JObj([(pid, PyDict.Get(body.fields, "result", JStr("")))]))]))
  }

  /** One pass of the loop body. A caught failure is only traced. Otherwise
      `current` is the agent's stored dict (a fresh `{}` when there is none or
      it is not a dict) and `current.update(mem_update.get(ag, {}))` runs:
      `mem_update` that is not a dict raises `AttributeError` with nothing
      written; an argument `dict.update` rejects raises after the pairs before
      the bad one were assigned — in place, so they stay only when `current`
      is the stored dict. Otherwise `{ag: current}` is written and
      `current.get(pid, '')` traced. */
  function PageStep(entry: Entry, agent: string, pid: string, o: AgentOutcome): StepOut
  {
    match MemUpdate(agent, pid, o)
    case Err(m) => StepOut(None, Ok(TraceEntry(agent, pid, Marker(m))))
    case Ok(mu) =>
      if !mu.JObj? then StepOut(None, Err(AttributeError))
      else
        var stored := PyDict.Get(entry, agent, JNull);
        var current := if stored.JObj? then stored.fields else [];
        var (pairs, err) := UpdateArg(PyDict.Get(mu.fields, agent, JObj([])));
        var next := PyDict.Update(current, pairs);
        if err.Some? then StepOut(if stored.JObj? then Some([(agent, JObj(next))]) else None, Err(err.value))
        else StepOut(Some([(agent, JObj(next))]), Ok(TraceEntry(agent, pid, PyDict.Get(next, pid, JStr("")))))
  }

  /** The calls whose pass does not raise: a failure, or a `mem_update` that
      is a dict whose entry for the agent `dict.update` accepts. */
  predicate Accepted(agent: string, pid: string, o: AgentOutcome)
  {
    MemUpdate(agent, pid, o).Ok? ==>
      var mu := MemUpdate(agent, pid, o).value;
      mu.JObj? && UpdateArg(PyDict.Get(mu.fields, agent, JObj([]))).1.None?
  }

  // ----------------------------------------------------- page summaries

  /** `for ag in plan: ag_mem = memory.get(ctx).get(ag, {}); if pid in ag_mem:
      page_analysis = ag_mem[pid]; break`: the first agent's value for the
      page, `''` when no agent has it, or the `TypeError` of `in` on a value
      that is not a container or of indexing a string or list by a string. */
  function Analysis(e: Entry, agents: seq<string>, pid: string): Result<Json, PyError>
  {
    if agents == [] then Ok(JStr(""))
    else
      var m := PyDict.Get(e, agents[0], JObj([]));
      match PyIn(pid, m)
      case Err(_) => Err(TypeError)
      case Ok(found) =>
        if !found then Analysis(e, agents[1..], pid)
        else if m.JObj? then Ok(PyDict.Get(m.fields, pid, JNull))
        else Err(TypeError)
  }

  /** `page_summaries` after the pages so far: a page whose analysis is truthy
      gets the stripped summary reply; the first error raises. */
  function PageSummaries(e: Entry, agents: seq<string>, pids: seq<string>, reply: string -> string)
    : Result<PyDict.Dict<string, Json>, PyError>
  {
    if pids == [] then Ok([])
    else
      match PageSummaries(e, agents, pids[..|pids| - 1], reply)
      case Err(x) => Err(x)
      case Ok(d) =>
        var pid := pids[|pids| - 1];
        match Analysis(e, agents, pid)
        case Err(x) => Err(x)
        case Ok(a) => Ok(if Truthy(a) then PyDict.Set(d, pid, JStr(Strip(reply(pid)))) else d)
  }

  /** The inner loop, with its `break`. */
  method FindAnalysis(e: Entry, agents: seq<string>, pid: string) returns (r: Result<Json, PyError>)
    ensures r == Analysis(e, agents, pid)
  {
    var j := 0;
    while j < |agents|
      invariant 0 <= j <= |agents|
      invariant Analysis(e, agents, pid) == Analysis(e, agents[j..], pid)
    {
      var m := PyDict.Get(e, agents[j], JObj([]));
      var found := PyIn(pid, m);
      if found.Err? {
        return Err(TypeError);
      }
      if found.value {
        if m.JObj? {
          return Ok(PyDict.Get(m.fields, pid, JNull));
        }
        return Err(TypeError);
      }
      assert agents[j..][1..] == agents[j + 1..];
      j := j + 1;
    }
    r := Ok(JStr(""));
  }

  /** The page loop of `dispatch`. */
  method SummarisePages(e: Entry, agents: seq<string>, pids: seq<string>, reply: string -> string)
    returns (r: Result<PyDict.Dict<string, Json>, PyError>)
    ensures r == PageSummaries(e, agents, pids, reply)
  {
    var summaries: PyDict.Dict<string, Json> := [];
    var i := 0;
    while i < |pids|
      invariant 0 <= i <= |pids|
      invariant PageSummaries(e, agents, pids[..i], reply) == Ok(summaries)
    {
      assert pids[..i + 1][..i] == pids[..i];
      var analysis := FindAnalysis(e, agents, pids[i]);
      if analysis.Err? {
        PageSummariesSticky(e, agents, pids, i + 1, reply);
        return Err(analysis.error);
      }
      if Truthy(analysis.value) {
        summaries := PyDict.Set(summaries, pids[i], JStr(Strip(reply(pids[i]))));
      }
      i := i + 1;
    }
    assert pids[..|pids|] == pids;
    r := Ok(summaries);
  }

  /** Once a page raises, the later pages change nothing. */
  lemma {:induction false} PageSummariesSticky(e: Entry, agents: seq<string>, pids: seq<string>, n: nat,
                                               reply: string -> string)
    requires n <= |pids| && PageSummaries(e, agents, pids[..n], reply).Err?
    ensures PageSummaries(e, agents, pids, reply) == PageSummaries(e, agents, pids[..n], reply)
    decreases |pids|
  {
    if n < |pids| {
      var init := pids[..|pids| - 1];
      assert init[..n] == pids[..n];
      PageSummariesSticky(e, agents, init, n, reply);
    } else {
      assert pids[..n] == pids;
    }
  }

  // ------------------------------------------------------------ dispatch

  /** After the loop: the page summaries are stored under
      `"page_summaries"`, then the overall summary is stored and traced. */
  function Concluded(run: Run, ctx: string, agents: seq<string>, n: nat, r: Replies): Run
  {
    if run.error.Some? then run
    else
      match PageSummaries(EntryOf(run.store, ctx), agents, ProgressSteps.PageIds(n), r.pageSummary)
      case Err(x) => run.(error := Some(x))
      case Ok(d) =>
        Summarised(run.(store := Merged(run.store, ctx, [("page_summaries", JObj(d))])), ctx, SummaryTask, Strip(r.summary))
  }

  /** The loop over the plan, then `Concluded`. */
  function Finished(s: Store, trace: seq<TraceEntry>, ctx: string, plan: PlanParser.Plan, n: nat, r: Replies,
                    outcome: nat -> AgentOutcome): Run
  {
    Concluded(RunWorks(PageStep, ctx, Pairs(plan), outcome, Run(s, trace, None)), ctx, PyDict.Keys(plan), n, r)
  }

  /** What `dispatch` does: no bytes raise `ValueError`, bytes PyMuPDF
      cannot open raise its error, and a document that was read is planned
      over its page count. */
  function DispatchSpec(s: Store, trace: seq<TraceEntry>, ctx: string, file: Upload, r: Replies,
                        outcome: nat -> AgentOutcome): Run
  {
    if file.NoFile? then Run(s, trace, Some(ValueError))
    else if ReadFails(file, true) then Run(s, trace, Some(ReadError))
    else
      match PlanParser.ParsePlan(r.plan, Registry, "page_", true)
      case Err(x) => Run(s, trace, Some(x))
      case Ok(plan) => Finished(s, trace, ctx, plan, |file.pages|, r, outcome)
  }

  /** Once planned, `dispatch` is the loop over that plan and the summaries. */
  lemma Planned(s: Store, trace: seq<TraceEntry>, ctx: string, pages: seq<string>, n: nat, r: Replies, outcome: nat -> AgentOutcome,
                plan: PlanParser.Plan)
    requires n == |pages| && PlanParser.ParsePlan(r.plan, Registry, "page_", true) == Ok(plan)
    ensures DispatchSpec(s, trace, ctx, Readable(pages), r, outcome) == Finished(s, trace, ctx, plan, n, r, outcome)
  {
  }

  /** A plan the parser rejects raises before anything is stored or traced. */
  lemma Unplanned(s: Store, trace: seq<TraceEntry>, ctx: string, pages: seq<string>, r: Replies, outcome: nat -> AgentOutcome,
                  e: PyError)
    requires PlanParser.ParsePlan(r.plan, Registry, "page_", true) == Err(e)
    ensures DispatchSpec(s, trace, ctx, Readable(pages), r, outcome) == Run(s, trace, Some(e))
  {
  }

  /** The page summaries and the overall summary. */
  method Conclude(memory: MemoryStore, ctx: string, trace0: seq<TraceEntry>, agents: seq<string>, n: nat, r: Replies)
    returns (trace: seq<TraceEntry>, error: Option<PyError>)
    requires memory.Valid()
    modifies memory, memory.store.Values
    ensures memory.Valid()
    ensures Run(memory.Contents(), trace, error) == Concluded(Run(old(memory.Contents()), trace0, None), ctx, agents, n, r)
  {
    trace, error := trace0, None;
    var current := memory.Get(ctx);
    var pages := SummarisePages(current.entries, agents, ProgressSteps.PageIds(n), r.pageSummary);
    if pages.Err? {
      error := Some(pages.error);
      return;
    }
    memory.Update(ctx, [("page_summaries", JObj(pages.value))]);
    var md := Strip(r.summary);
    memory.Update(ctx, [("summary", JStr(md))]);
    trace := trace + [TraceEntry("scheduler", SummaryTask, JStr(md))];
  }

  /** The loop and both summaries. */
  method Finish(memory: MemoryStore, ctx: string, trace0: seq<TraceEntry>, plan: PlanParser.Plan, n: nat,
                r: Replies, outcome: nat -> AgentOutcome)
    returns (trace: seq<TraceEntry>, result: Result<Entry, PyError>)
    requires memory.Valid()
    modifies memory, memory.store.Values
    ensures memory.Valid()
    ensures var run := Finished(old(memory.Contents()), trace0, ctx, plan, n, r, outcome);
      memory.Contents() == run.store && trace == run.trace && result == Returned(run, ctx)
  {
    var error;
    trace, error := RunAll(memory, PageStep, ctx, Pairs(plan), outcome, trace0);
    if error.None? {
      trace, error := Conclude(memory, ctx, trace, PyDict.Keys(plan), n, r);
    }
    if error.Some? {
      result := Err(error.value);
    } else {
      var current := memory.Get(ctx);
      result := Ok(current.entries);
    }
  }

  /** `LLMScheduler`: the shared memory and the trace of every dispatch. */
  class Scheduler {
    const memory: MemoryStore
    var trace: seq<TraceEntry>

    ghost predicate Valid()
      reads this, memory
    {
      memory.Valid()
    }

    constructor()
      ensures Valid() && fresh(memory) && memory.Contents() == map[] && trace == []
    {
      memory := new MemoryStore();
      trace := [];
    }

    method Dispatch(ctx: string, file: Upload, replies: Replies, outcome: nat -> AgentOutcome)
      returns (result: Result<Entry, PyError>)
      requires Valid()
      modifies this, memory, memory.store.Values
      ensures Valid()
      ensures var run := DispatchSpec(old(memory.Contents()), old(trace), ctx, file, replies, outcome);
        memory.Contents() == run.store && trace == run.trace && result == Returned(run, ctx)
    {
      if file.NoFile? {
        result := Err(ValueError);
        return;
      }
      if ReadFails(file, true) {
        result := Err(ReadError);
        return;
      }
      var planned := PlanParser.Parse(replies.plan, Registry, "page_", true);
      if planned.Err? {
        Unplanned(memory.Contents(), trace, ctx, file.pages, replies, outcome, planned.error);
        result := Err(planned.error);
        return;
      }
      var n := |file.pages|;
      Planned(memory.Contents(), trace, ctx, file.pages, n, replies, outcome, planned.value);
      var t;
      t, result := Finish(memory, ctx, trace, planned.value, n, replies, outcome);
      trace := t;
    }
  }

  // ------------------------------------------------------------ properties

  /** A pass raises exactly for the calls `Accepted` rules out, whatever the
      memory; a failure is traced with its marker and writes nothing. */
  lemma PageStepRaises(e: Entry, agent: string, pid: string, o: AgentOutcome)
    ensures PageStep(e, agent, pid, o).record.Ok? <==> Accepted(agent, pid, o)
    ensures PageStep(e, agent, pid, o).record.Ok? ==>
      PageStep(e, agent, pid, o).record.value.agent == agent && PageStep(e, agent, pid, o).record.value.subtask == pid
    ensures MemUpdate(agent, pid, o).Err? ==>
      PageStep(e, agent, pid, o) == StepOut(None, Ok(TraceEntry(agent, pid, Marker(MemUpdate(agent, pid, o).error))))
  {
  }

  /** An agent that sends no `memory_update` has its `result` stored under
      the page id in its sub-dict (started afresh when it was not a dict),
      and that result is traced. */
  lemma PlainResult(e: Entry, agent: string, pid: string, status: int, body: PyDict.Dict<string, Json>)
    requires !Truthy(PyDict.Get(body, "memory_update", JNull))
    ensures var res := PyDict.Get(body, "result", JStr(""));
      var stored := PyDict.Get(e, agent, JNull);
      var current := if stored.JObj? then stored.fields else [];
      PageStep(e, agent, pid, Response(status, JObj(body))) ==
        StepOut(Some([(agent, JObj(PyDict.Set(current, pid, res)))]), Ok(TraceEntry(agent, pid, res)))
  {
    var res := PyDict.Get(body, "result", JStr(""));
    var one := [(pid, res)];
    var stored := PyDict.Get(e, agent, JNull);
    var current := if stored.JObj? then stored.fields else [];
    assert PyDict.Get([(agent, JObj(one))], agent, JObj([])) == JObj(one);
    assert one[1..] == [];
    assert PyDict.Update(current, one) == PyDict.Set(current, pid, res);
    PyDict.SetSpec(current, pid, res);
  }

  /** A `memory_update` that names the agent with a dict has that dict merged
      into the agent's sub-dict (started afresh when it was not a dict), the
      merged sub-dict written back and its value for the page traced. */
  lemma AgentUpdate(e: Entry, agent: string, pid: string, status: int, body: PyDict.Dict<string, Json>)
    requires var mu := PyDict.Get(body, "memory_update", JNull);
      mu.JObj? && mu.fields != [] && PyDict.Get(mu.fields, agent, JObj([])).JObj?
    ensures var mine := PyDict.Get(PyDict.Get(body, "memory_update", JNull).fields, agent, JObj([])).fields;
      var stored := PyDict.Get(e, agent, JNull);
      var next := PyDict.Update(if stored.JObj? then stored.fields else [], mine);
      PageStep(e, agent, pid, Response(status, JObj(body))) ==
        StepOut(Some([(agent, JObj(next))]), Ok(TraceEntry(agent, pid, PyDict.Get(next, pid, JStr("")))))
  {
  }

  /** The loop raises exactly when some call is not `Accepted`: it then stops
      at the first such call. When it does not raise it appends one record
      per planned pair, in order, naming the pair's agent and page. */
  lemma {:induction false} LoopSpec(ctx: string, works: seq<Work>, outcome: nat -> AgentOutcome, start: Run)
    requires start.error.None?
    requires forall i :: 0 <= i < |works| ==> works[i].Call?
    ensures var r := RunWorks(PageStep, ctx, works, outcome, start);
      && (r.error.None? <==> forall i :: 0 <= i < |works| ==> Accepted(works[i].agent, works[i].unit, outcome(i)))
      && (r.error.None? ==>
            && |r.trace| == |start.trace| + |works|
            && forall i :: 0 <= i < |works| ==>
                 r.trace[|start.trace| + i].agent == works[i].agent && r.trace[|start.trace| + i].subtask == works[i].unit)
  {
    if works != [] {
      var init := works[..|works| - 1];
      LoopSpec(ctx, init, outcome, start);
      var r := RunWorks(PageStep, ctx, init, outcome, start);
      var w := works[|works| - 1];
      var o := outcome(|works| - 1);
      assert forall i :: 0 <= i < |init| ==> init[i] == works[i];
      if r.error.None? {
        PageStepRaises(EntryOf(r.store, ctx), w.agent, w.unit, o);
        var r' := Apply(PageStep, ctx, w, o, r);
        assert RunWorks(PageStep, ctx, works, outcome, start) == r';
        if r'.error.None? {
          assert r'.trace == r.trace + [r'.trace[|r.trace|]];
        }
      }
    }
  }

  /** The analysis of a page is the value of the first agent, in plan order,
      whose dict holds it, when every earlier agent's value is a dict without
      it; with every agent's value a dict the analysis never raises. */
  lemma {:induction false} AnalysisSpec(e: Entry, agents: seq<string>, pid: string)
    ensures (forall i :: 0 <= i < |agents| ==> PyDict.Get(e, agents[i], JObj([])).JObj?) ==>
      Analysis(e, agents, pid).Ok?
    ensures forall j :: 0 <= j < |agents| && FirstHolder(e, agents, pid, j) ==>
      Analysis(e, agents, pid) == Ok(PyDict.Get(PyDict.Get(e, agents[j], JObj([])).fields, pid, JNull))
  {
    if agents != [] {
      AnalysisSpec(e, agents[1..], pid);
      forall j | 0 < j < |agents| && FirstHolder(e, agents, pid, j)
        ensures FirstHolder(e, agents[1..], pid, j - 1)
      {
        forall i | 0 <= i < j - 1
          ensures PyDict.Get(e, agents[1..][i], JObj([])).JObj?
                  && !PyDict.HasKey(PyDict.Get(e, agents[1..][i], JObj([])).fields, pid)
        {
          assert agents[1..][i] == agents[i + 1];
        }
      }
    }
  }

  /** `agents[j]`'s value is a dict holding the page and every earlier
      agent's value is a dict without it. */
  predicate FirstHolder(e: Entry, agents: seq<string>, pid: string, j: nat)
    requires j < |agents|
  {
    && PyDict.Get(e, agents[j], JObj([])).JObj?
    && PyDict.HasKey(PyDict.Get(e, agents[j], JObj([])).fields, pid)
    && forall i :: 0 <= i < j ==>
         PyDict.Get(e, agents[i], JObj([])).JObj? && !PyDict.HasKey(PyDict.Get(e, agents[i], JObj([])).fields, pid)
  }

  /** `d` holds exactly the pages of `pids` whose analysis is truthy, each
      with the stripped reply for that page. */
  ghost predicate Describes(e: Entry, agents: seq<string>, pids: seq<string>, reply: string -> string,
                      d: PyDict.Dict<string, Json>)
  {
    forall p :: (PyDict.HasKey(d, p) <==> p in pids && Analysis(e, agents, p).Ok? && Truthy(Analysis(e, agents, p).value))
                && (PyDict.HasKey(d, p) ==> PyDict.Get(d, p, JNull) == JStr(Strip(reply(p))))
  }

  /** The page loop raises exactly when some page's analysis does; otherwise
      a page is a key of `page_summaries` exactly when its analysis is
      truthy, and then holds the stripped reply for that page. */
  lemma PageSummariesSpec(e: Entry, agents: seq<string>, pids: seq<string>, reply: string -> string)
    ensures PageSummaries(e, agents, pids, reply).Ok? <==> forall i :: 0 <= i < |pids| ==> Analysis(e, agents, pids[i]).Ok?
    ensures PageSummaries(e, agents, pids, reply).Ok? ==>
      Describes(e, agents, pids, reply, PageSummaries(e, agents, pids, reply).value)
  {
    PageSummariesOk(e, agents, pids, reply);
    if PageSummaries(e, agents, pids, reply).Ok? {
      PageSummariesContents(e, agents, pids, reply);
    }
  }

  lemma {:induction false} PageSummariesOk(e: Entry, agents: seq<string>, pids: seq<string>, reply: string -> string)
    ensures PageSummaries(e, agents, pids, reply).Ok? <==> forall i :: 0 <= i < |pids| ==> Analysis(e, agents, pids[i]).Ok?
  {
    if pids != [] {
      var init := pids[..|pids| - 1];
      PageSummariesOk(e, agents, init, reply);
      assert forall i :: 0 <= i < |init| ==> init[i] == pids[i];
    }
  }

  lemma {:induction false} PageSummariesContents(e: Entry, agents: seq<string>, pids: seq<string>, reply: string -> string)
    requires PageSummaries(e, agents, pids, reply).Ok?
    ensures Describes(e, agents, pids, reply, PageSummaries(e, agents, pids, reply).value)
  {
    if pids != [] {
      var init := pids[..|pids| - 1];
      var pid := pids[|pids| - 1];
      PageSummariesContents(e, agents, init, reply);
      var d := PageSummaries(e, agents, init, reply).value;
      var a := Analysis(e, agents, pid).value;
      var d' := if Truthy(a) then PyDict.Set(d, pid, JStr(Strip(reply(pid)))) else d;
      assert PageSummaries(e, agents, pids, reply).value == d';
      forall p
        ensures (PyDict.HasKey(d', p) <==> p in pids && Analysis(e, agents, p).Ok? && Truthy(Analysis(e, agents, p).value))
        ensures PyDict.HasKey(d', p) ==> PyDict.Get(d', p, JNull) == JStr(Strip(reply(p)))
      {
        assert p in pids <==> p in init || p == pid by {
          assert pids == init + [pid];
        }
        if Truthy(a) {
          SetHas(d, pid, JStr(Strip(reply(pid))), p);
        }
      }
    }
  }

  /** The keys after `d[k] = v`. */
  lemma SetHas(d: PyDict.Dict<string, Json>, k: string, v: Json, p: string)
    ensures PyDict.HasKey(PyDict.Set(d, k, v), p) <==> PyDict.HasKey(d, p) || p == k
    ensures PyDict.Get(PyDict.Set(d, k, v), p, JNull) == if p == k then v else PyDict.Get(d, p, JNull)
  {
    PyDict.SetSpec(d, k, v);
  }

  /** Without a document `dispatch` raises `ValueError` and changes nothing;
      bytes PyMuPDF cannot open raise its error, and a plan line the parser
      rejects raises before any call, both changing nothing either. */
  lemma NeedsPdf(s: Store, trace: seq<TraceEntry>, ctx: string, file: Upload, r: Replies, outcome: nat -> AgentOutcome)
    ensures file.NoFile? ==> DispatchSpec(s, trace, ctx, file, r, outcome) == Run(s, trace, Some(ValueError))
    ensures file.Unreadable? ==> DispatchSpec(s, trace, ctx, file, r, outcome) == Run(s, trace, Some(ReadError))
    ensures file.Readable? && PlanParser.ParsePlan(r.plan, Registry, "page_", true).Err? ==>
      DispatchSpec(s, trace, ctx, file, r, outcome) == Run(s, trace, Some(PlanParser.ParsePlan(r.plan, Registry, "page_", true).error))
  {
  }

  /** After the loop: `Concluded` raises exactly when the loop did or a
      page's analysis does, and then changes nothing more; otherwise the
      context holds the page summaries and the stripped overall summary,
      its other keys are as the loop left them and the trace gains exactly
      the scheduler's record. Other contexts are never touched. */
  lemma ConcludedSpec(run: Run, ctx: string, agents: seq<string>, n: nat, r: Replies)
    ensures var c := Concluded(run, ctx, agents, n, r);
      var pages := PageSummaries(EntryOf(run.store, ctx), agents, ProgressSteps.PageIds(n), r.pageSummary);
      && (c.error.Some? <==> run.error.Some? || pages.Err?)
      && (c.error.Some? ==> c.store == run.store && c.trace == run.trace)
      && (c.error.None? ==>
            && PyDict.Get(EntryOf(c.store, ctx), "page_summaries", JNull) == JObj(pages.value)
            && PyDict.Get(EntryOf(c.store, ctx), "summary", JNull) == JStr(Strip(r.summary))
            && (forall k, d: Json :: k != "summary" && k != "page_summaries" ==>
                  PyDict.Get(EntryOf(c.store, ctx), k, d) == PyDict.Get(EntryOf(run.store, ctx), k, d))
            && c.trace == run.trace + [TraceEntry("scheduler", SummaryTask, JStr(Strip(r.summary)))])
      && (forall c' :: c' != ctx ==> EntryOf(c.store, c') == EntryOf(run.store, c'))
  {
    var pages := PageSummaries(EntryOf(run.store, ctx), agents, ProgressSteps.PageIds(n), r.pageSummary);
    if run.error.None? && pages.Ok? {
      var one := [("page_summaries", JObj(pages.value))];
      assert PyDict.Keys(one) == ["page_summaries"];
      MergedSpec(run.store, ctx, one);
      var two := [("summary", JStr(Strip(r.summary)))];
      assert PyDict.Keys(two) == ["summary"];
      MergedSpec(Merged(run.store, ctx, one), ctx, two);
    }
  }

  /** `dispatch` leaves every other context alone and never drops a trace record. */
  lemma DispatchFrame(s: Store, trace: seq<TraceEntry>, ctx: string, file: Upload, r: Replies,
                      outcome: nat -> AgentOutcome)
    ensures var out := DispatchSpec(s, trace, ctx, file, r, outcome);
      && (forall c :: c != ctx ==> EntryOf(out.store, c) == EntryOf(s, c))
      && |trace| <= |out.trace| && out.trace[..|trace|] == trace
  {
    if file.Readable? && PlanParser.ParsePlan(r.plan, Registry, "page_", true).Ok? {
      var plan := PlanParser.ParsePlan(r.plan, Registry, "page_", true).value;
      RunFrame(PageStep, ctx, Pairs(plan), outcome, Run(s, trace, None));
      var run := RunWorks(PageStep, ctx, Pairs(plan), outcome, Run(s, trace, None));
      ConcludedSpec(run, ctx, PyDict.Keys(plan), |file.pages|, r);
    }
  }
}

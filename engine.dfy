/** What the `dispatch` loops of the scheduler variants share: the agent
    outcomes they consume, the trace they append to, the `[❌ 调用失败]`
    marker, and the walk over the planned (agent, unit) pairs that merges each
    result into `MemoryStore` and appends one trace record. */
module Dispatch {
  import opened Wrappers
  import opened Text
  import opened JsonData
  import PyDict
  import opened Memory

  /** The registry of every variant except llm_scheduler_v4.py. */
  const Registry: seq<string> := ["llama2_agent", "llama2_agent_2"]

  const TypeError := PyError("TypeError")
  const ValueError := PyError("ValueError")
  const AttributeError := PyError("AttributeError")
  const KeyError := PyError("KeyError")
  const IndexError := PyError("IndexError")

  /** What `requests.post(...)` followed by `resp.json()` gives: the status
      code and decoded body, or the message of the exception either raised. */
  datatype AgentOutcome = Response(status: int, body: Json) | CallError(message: string)

  /** One `self.trace` record `{"agent": ..., "subtask": ..., "output": ...}`. */
  datatype TraceEntry = TraceEntry(agent: string, subtask: string, output: Json)

  /** One item of the dispatch loop: a call of `agent` on `unit`, or an
      exception the loop raises before the next call. */
  datatype Work = Call(agent: string, unit: string) | Raise(error: PyError)

  /** The effect of one loop iteration: the argument of `memory.update(ctx, ...)`,
      if it is reached, and then the trace record appended, or the exception
      raised after the update. */
  datatype StepOut = StepOut(write: Option<Entry>, record: Result<TraceEntry, PyError>)

  /** One iteration of a variant's loop body, from the context's memory before it. */
  type Step = (Entry, string, string, AgentOutcome) -> StepOut

  /** The scheduler's state after a number of iterations; `error` is the
      exception that ended the loop, if one did. */
  datatype Run = Run(store: Store, trace: seq<TraceEntry>, error: Option<PyError>)

  /** The file handed to `dispatch`, as far as a run depends on it: no bytes
      (`None`, or empty bytes), bytes the PDF library fails to open, or a
      document it reads, as the texts it extracts from its pages. */
  datatype Upload = NoFile | Unreadable | Readable(pages: seq<string>)

  /** Whether reading the upload raises, before any planning: a reader
      behind `if file_bytes:` (`guarded`) only runs on bytes, and one called
      unconditionally also fails on no bytes. */
  predicate ReadFails(file: Upload, guarded: bool)
  {
    file.Unreadable? || (!guarded && file.NoFile?)
  }

  /** `f"[❌ 调用失败] {e}"` */
  function Marker(message: string): Json
  {
    JStr("[❌ 调用失败] " + message)
  }

  /** The message of the `KeyError` for a missing key `k`. */
  function KeyErrorMessage(k: string): string
  {
    "'" + k + "'"
  }

  /** `body.get(key, dflt)` inside a `try`: the message of the `AttributeError`
      when the body is not a dict. */
  function BodyGet(body: Json, key: string, dflt: Json): (r: Result<Json, string>)
    ensures r.Ok? <==> body.JObj?
  {
    if body.JObj? then Ok(PyDict.Get(body.fields, key, dflt))
    else Err(NoAttributeMessage(body, "get"))
  }

  /** `resp.json().get("result", "")` inside a `try`: the result, or the
      message of the exception the call, the decoding or `.get` raised. */
  function Caught(o: AgentOutcome): (r: Result<Json, string>)
    ensures r.Ok? <==> o.Response? && o.body.JObj?
  {
    match o
    case CallError(m) => Err(m)
    case Response(_, body) => BodyGet(body, "result", JStr(""))
  }

  /** Python's `key in v` for a string key: dict keys, substrings, list
      items; the message of the `TypeError` for a value that is not a container. */
  function PyIn(key: string, v: Json): (r: Result<bool, string>)
    ensures r.Err? <==> (v.JNull? || v.JBool? || v.JInt?)
  {
    match v
    case JObj(fields) => Ok(PyDict.HasKey(fields, key))
    case JStr(s) => Ok(Occurs(s, key))
    case JArr(items) => Ok(JStr(key) in items)
    case _ => Err("argument of type '" + TypeName(v) + "' is not iterable")
  }

  /** `d.update(v)` for a decoded JSON value `v`: a dict's pairs; otherwise
      the pairs that are assigned from the elements `v` iterates before the
      first bad one, and the exception that element raises. */
  function UpdateArg(v: Json): (r: (Entry, Option<PyError>))
    ensures v.JObj? ==> r == (v.fields, None)
    ensures !v.JObj? && Iterated(v).None? ==> r == ([], Some(TypeError))
  {
    if v.JObj? then (v.fields, None)
    else
      match Iterated(v)
      case None => ([], Some(TypeError))
      case Some(items) => UpdatePairs(items)
  }

  /** The keys of a decoded dict, once each, in the order `json.loads`
      inserted them. */
  function DictKeys(fields: PyDict.Dict<string, Json>): seq<string>
  {
    PyDict.Keys(PyDict.Update([], fields))
  }

  /** The items `for x in v` yields: a list's items, a string's characters,
      a dict's keys; `None` for a value that is not iterable. */
  function Iterated(v: Json): (r: Option<seq<Json>>)
    ensures r.None? <==> !(v.JArr? || v.JStr? || v.JObj?)
  {
    match v
    case JArr(items) => Some(items)
    case JStr(s) => Some(seq(|s|, k requires 0 <= k < |s| => JStr([s[k]])))
    case JObj(fields) => Some(seq(|DictKeys(fields)|, k requires 0 <= k < |DictKeys(fields)| => JStr(DictKeys(fields)[k])))
    case _ => None
  }

  /** One element of a sequence given to `dict.update`: it must iterate to
      exactly two items (`ValueError` otherwise, `TypeError` if it does not
      iterate), the first of them the key. */
  function PairOf(item: Json): (r: Result<(string, Json), PyError>)
    ensures r.Ok? <==> Iterated(item).Some? && |Iterated(item).value| == 2 && Iterated(item).value[0].JStr?
    ensures r.Ok? ==> r.value == (Iterated(item).value[0].s, Iterated(item).value[1])
    ensures r.Err? ==> r.error == if Iterated(item).Some? && |Iterated(item).value| != 2 then ValueError else TypeError
  {
    match Iterated(item)
    case None => Err(TypeError)
    case Some(xs) =>
      if |xs| != 2 then Err(ValueError)
      else if xs[0].JStr? then Ok((xs[0].s, xs[1]))
      else Err(TypeError)
  }

  /** The elements of a sequence given to `dict.update`, one pair each, up
      to the first that is not a pair. */
  function UpdatePairs(items: seq<Json>): (Entry, Option<PyError>)
  {
    if items == [] then ([], None)
    else
      var pair := PairOf(items[0]);
      if pair.Err? then ([], Some(pair.error))
      else
        var (rest, err) := UpdatePairs(items[1..]);
        ([pair.value] + rest, err)
  }

  /** `d.update(items)` assigns the pairs of the elements before the first
      one that is not a pair, in order, and raises what that element raises;
      with no such element it assigns every element's pair. */
  lemma {:induction false} UpdatePairsSpec(items: seq<Json>)
    ensures var (pairs, err) := UpdatePairs(items);
      var n := |pairs|;
      && n <= |items|
      && (forall i :: 0 <= i < n ==> PairOf(items[i]) == Ok(pairs[i]))
      && (err.None? <==> n == |items|)
      && (err.Some? ==> PairOf(items[n]) == Err(err.value))
  {
    if items != [] && PairOf(items[0]).Ok? {
      UpdatePairsSpec(items[1..]);
      var (rest, err) := UpdatePairs(items[1..]);
      assert UpdatePairs(items) == ([PairOf(items[0]).value] + rest, err);
      forall i | 1 <= i < |rest| + 1
        ensures PairOf(items[i]) == Ok(([PairOf(items[0]).value] + rest)[i])
      {
        assert items[i] == items[1..][i - 1];
      }
      if err.Some? {
        assert items[|rest| + 1] == items[1..][|rest|];
      }
    }
  }

  /** A dict element of a list given to `dict.update` iterates to its keys:
      with exactly two keys it assigns the first key the second, and with
      any other number of keys it raises `ValueError`. */
  lemma DictElement(fields: PyDict.Dict<string, Json>)
    requires PyDict.UniqueKeys(fields)
    ensures |fields| == 2 ==> PairOf(JObj(fields)) == Ok((fields[0].0, JStr(fields[1].0)))
    ensures |fields| != 2 ==> PairOf(JObj(fields)) == Err(ValueError)
  {
    PyDict.UpdateUnique(fields);
  }

  /** `memory.update(ctx, v)` as a step effect: the pairs applied, then the
      exception, if any, in place of the trace record. */
  function UpdateThen(v: Json, record: TraceEntry): StepOut
  {
    var (pairs, err) := UpdateArg(v);
    StepOut(Some(pairs), if err.Some? then Err(err.value) else Ok(record))
  }

  // ---------------------------------------------------------------- the loop

  /** One iteration on a run that has not raised. */
  function Apply(step: Step, ctx: string, w: Work, o: AgentOutcome, r: Run): (r': Run)
    requires r.error.None?
    ensures |r.trace| <= |r'.trace| <= |r.trace| + 1 && r'.trace[..|r.trace|] == r.trace
  {
    match w
    case Raise(e) => r.(error := Some(e))
    case Call(agent, unit) =>
      var out := step(EntryOf(r.store, ctx), agent, unit, o);
      var store := if out.write.Some? then Merged(r.store, ctx, out.write.value) else r.store;
      match out.record
      case Ok(t) => Run(store, r.trace + [t], None)
      case Err(e) => Run(store, r.trace, Some(e))
  }

  /** The state after the loop has gone through `works`, the `i`-th item with
      outcome `outcome(i)`; after an exception nothing more happens. */
  function RunWorks(step: Step, ctx: string, works: seq<Work>, outcome: nat -> AgentOutcome, start: Run): Run
  {
    if works == [] then start
    else
      var r := RunWorks(step, ctx, works[..|works| - 1], outcome, start);
      if r.error.Some? then r else Apply(step, ctx, works[|works| - 1], outcome(|works| - 1), r)
  }

  /** The loop of `dispatch`: for each item, read the context's memory, run
      the variant's body on the agent's outcome, update the store, then
      append the record or raise. */
  method RunAll(memory: MemoryStore, step: Step, ctx: string, works: seq<Work>,
                outcome: nat -> AgentOutcome, trace0: seq<TraceEntry>)
    returns (trace: seq<TraceEntry>, error: Option<PyError>)
    requires memory.Valid()
    modifies memory, memory.store.Values
    ensures memory.Valid()
    ensures forall d :: d in memory.store.Values ==> d in old(memory.store.Values) || fresh(d)
    ensures Run(memory.Contents(), trace, error) ==
      RunWorks(step, ctx, works, outcome, Run(old(memory.Contents()), trace0, None))
  {
    ghost var start := Run(memory.Contents(), trace0, None);
    trace, error := trace0, None;
    var i := 0;
    while i < |works| && error.None?
      invariant 0 <= i <= |works|
      invariant memory.Valid()
      invariant forall d :: d in memory.store.Values ==> d in old(memory.store.Values) || fresh(d)
      invariant Run(memory.Contents(), trace, error) == RunWorks(step, ctx, works[..i], outcome, start)
    {
      assert works[..i + 1][..i] == works[..i];
      trace, error := Iterate(memory, step, ctx, works[i], outcome(i), trace);
      i := i + 1;
    }
    if i < |works| {
      RunSticky(step, ctx, works, i, outcome, start);
    } else {
      assert works[..i] == works;
    }
  }

  /** One pass of the loop body. */
  method Iterate(memory: MemoryStore, step: Step, ctx: string, w: Work, o: AgentOutcome, trace0: seq<TraceEntry>)
    returns (trace: seq<TraceEntry>, error: Option<PyError>)
    requires memory.Valid()
    modifies memory, memory.store.Values
    ensures memory.Valid()
    ensures forall d :: d in memory.store.Values ==> d in old(memory.store.Values) || fresh(d)
    ensures Run(memory.Contents(), trace, error) == Apply(step, ctx, w, o, Run(old(memory.Contents()), trace0, None))
  {
    trace, error := trace0, None;
    match w {
      case Raise(e) =>
        error := Some(e);
      case Call(agent, unit) =>
        var current := memory.Get(ctx);
        var out := step(current.entries, agent, unit, o);
        if out.write.Some? {
          memory.Update(ctx, out.write.value);
        }
        match out.record {
          case Ok(t) => trace := trace + [t];
          case Err(e) => error := Some(e);
        }
    }
  }

  /** Once the loop has raised, the later items change nothing. */
  lemma {:induction false} RunSticky(step: Step, ctx: string, works: seq<Work>, n: nat,
                                     outcome: nat -> AgentOutcome, start: Run)
    requires n <= |works| && RunWorks(step, ctx, works[..n], outcome, start).error.Some?
    ensures RunWorks(step, ctx, works, outcome, start) == RunWorks(step, ctx, works[..n], outcome, start)
    decreases |works|
  {
    if n < |works| {
      var init := works[..|works| - 1];
      assert init[..n] == works[..n];
      RunSticky(step, ctx, init, n, outcome, start);
    } else {
      assert works[..n] == works;
    }
  }

  /** The loop changes no other context and never drops a trace record:
      `self.trace` is only appended to. */
  lemma {:induction false} RunFrame(step: Step, ctx: string, works: seq<Work>,
                                    outcome: nat -> AgentOutcome, start: Run)
    ensures var r := RunWorks(step, ctx, works, outcome, start);
      && (forall c :: c != ctx ==> EntryOf(r.store, c) == EntryOf(start.store, c))
      && |start.trace| <= |r.trace| && r.trace[..|start.trace|] == start.trace
  {
    if works != [] {
      RunFrame(step, ctx, works[..|works| - 1], outcome, start);
    }
  }

  /** How many items the loop began: those it traced, and the one that raised. */
  function Started(before: seq<TraceEntry>, r: Run): nat
  {
    (if |r.trace| >= |before| then |r.trace| - |before| else 0) + (if r.error.Some? then 1 else 0)
  }

  /** `Started` counts the items the loop reached: all of them when it did not
      raise, and otherwise the items up to and including the one that raised,
      the run before that one being still clean. */
  lemma {:induction false} StartedSpec(step: Step, ctx: string, works: seq<Work>,
                                       outcome: nat -> AgentOutcome, start: Run)
    requires start.error.None?
    ensures var r := RunWorks(step, ctx, works, outcome, start);
      var n := Started(start.trace, r);
      && n <= |works|
      && (r.error.None? ==> n == |works| && |r.trace| == |start.trace| + |works|)
      && (r.error.Some? ==> 1 <= n && RunWorks(step, ctx, works[..n - 1], outcome, start).error.None?
                             && RunWorks(step, ctx, works[..n], outcome, start) == r)
  {
    if works != [] {
      var init := works[..|works| - 1];
      StartedSpec(step, ctx, init, outcome, start);
      RunFrame(step, ctx, init, outcome, start);
      var r0 := RunWorks(step, ctx, init, outcome, start);
      var n0 := Started(start.trace, r0);
      if r0.error.Some? {
        assert init[..n0 - 1] == works[..n0 - 1] && init[..n0] == works[..n0];
      } else {
        assert init == works[..|works| - 1] && works[..|works|] == works;
      }
    }
  }

  /** The run over one more item applies that item to a clean run. */
  lemma RunWorksNext(step: Step, ctx: string, works: seq<Work>, i: nat, outcome: nat -> AgentOutcome, start: Run)
    requires i < |works| && RunWorks(step, ctx, works[..i], outcome, start).error.None?
    ensures RunWorks(step, ctx, works[..i + 1], outcome, start)
         == Apply(step, ctx, works[i], outcome(i), RunWorks(step, ctx, works[..i], outcome, start))
  {
    assert works[..i + 1][..i] == works[..i];
  }

  /** Only one item can be the first that raises. */
  lemma FirstError(step: Step, ctx: string, works: seq<Work>, m: nat, n: nat, outcome: nat -> AgentOutcome, start: Run)
    requires 0 < m <= |works| && 0 < n <= |works|
    requires RunWorks(step, ctx, works[..m - 1], outcome, start).error.None?
    requires RunWorks(step, ctx, works[..m], outcome, start).error.Some?
    requires RunWorks(step, ctx, works[..n - 1], outcome, start).error.None?
    requires RunWorks(step, ctx, works[..n], outcome, start).error.Some?
    ensures m == n
  {
    if m < n {
      ErrorPersists(step, ctx, works, m, n - 1, outcome, start);
    } else if n < m {
      ErrorPersists(step, ctx, works, n, m - 1, outcome, start);
    }
  }

  /** An error in a prefix of the items is still there in every longer prefix. */
  lemma ErrorPersists(step: Step, ctx: string, works: seq<Work>, a: nat, b: nat,
                      outcome: nat -> AgentOutcome, start: Run)
    requires a <= b <= |works| && RunWorks(step, ctx, works[..a], outcome, start).error.Some?
    ensures RunWorks(step, ctx, works[..b], outcome, start).error.Some?
  {
    assert works[..b][..a] == works[..a];
    RunSticky(step, ctx, works[..b], a, outcome, start);
  }

  /** A step whose records name the called agent and the subtask `subtaskOf(unit)`. */
  ghost predicate Labelled(step: Step, subtaskOf: string -> string)
  {
    forall e, a, u, o :: step(e, a, u, o).record.Ok? ==>
      step(e, a, u, o).record.value.agent == a && step(e, a, u, o).record.value.subtask == subtaskOf(u)
  }

  /** A loop that does not raise appends exactly one record per item, in
      order, each naming its item's agent and subtask, after the records
      already there. */
  lemma {:induction false} RunTrace(step: Step, subtaskOf: string -> string, ctx: string, works: seq<Work>,
                                    outcome: nat -> AgentOutcome, start: Run)
    requires Labelled(step, subtaskOf)
    requires RunWorks(step, ctx, works, outcome, start).error.None?
    ensures var r := RunWorks(step, ctx, works, outcome, start);
      && |r.trace| == |start.trace| + |works|
      && r.trace[..|start.trace|] == start.trace
      && forall i :: 0 <= i < |works| ==>
           works[i].Call? && r.trace[|start.trace| + i].agent == works[i].agent
           && r.trace[|start.trace| + i].subtask == subtaskOf(works[i].unit)
  {
    if works != [] {
      var init := works[..|works| - 1];
      RunTrace(step, subtaskOf, ctx, init, outcome, start);
      var r := RunWorks(step, ctx, init, outcome, start);
      var r' := RunWorks(step, ctx, works, outcome, start);
      var w := works[|works| - 1];
      assert w.Call? && r'.trace == r.trace + [r'.trace[|r.trace|]];
      assert forall i :: 0 <= i < |init| ==> works[i] == init[i] && r'.trace[|start.trace| + i] == r.trace[|start.trace| + i];
    }
  }

  /** A step that cannot raise for an agent of `agents` while the context's
      memory satisfies `inv`, and whose write keeps `inv`. */
  ghost predicate SafeUnder(step: Step, inv: Entry -> bool, agents: seq<string>)
  {
    forall e, a, u, o :: a in agents && inv(e) ==>
      step(e, a, u, o).record.Ok? &&
      (step(e, a, u, o).write.Some? ==> inv(PyDict.Update(e, step(e, a, u, o).write.value)))
  }

  /** A loop over calls only, with a step that is safe under an invariant the
      memory starts in, never raises, and the invariant holds afterwards. */
  lemma {:induction false} RunSafe(step: Step, inv: Entry -> bool, agents: seq<string>, ctx: string,
                                   works: seq<Work>, outcome: nat -> AgentOutcome, start: Run)
    requires SafeUnder(step, inv, agents)
    requires start.error.None? && inv(EntryOf(start.store, ctx))
    requires forall i :: 0 <= i < |works| ==> works[i].Call? && works[i].agent in agents
    ensures RunWorks(step, ctx, works, outcome, start).error.None?
    ensures inv(EntryOf(RunWorks(step, ctx, works, outcome, start).store, ctx))
  {
    if works != [] {
      var init := works[..|works| - 1];
      RunSafe(step, inv, agents, ctx, init, outcome, start);
      var r := RunWorks(step, ctx, init, outcome, start);
      var w := works[|works| - 1];
      assert w.Call? && w.agent in agents;
      var out := step(EntryOf(r.store, ctx), w.agent, w.unit, outcome(|works| - 1));
      assert out.record.Ok?;
    }
  }

  /** Every planned (agent, unit) pair, in plan order then list order. */
  function Pairs(plan: PyDict.Dict<string, seq<string>>): (works: seq<Work>)
    ensures forall i :: 0 <= i < |works| ==> works[i].Call? && works[i].agent in PyDict.Keys(plan)
  {
    if plan == [] then []
    else Calls(plan[0].0, plan[0].1) + Pairs(plan[1..])
  }

  /** `[sub for lst in plan.values() for sub in lst]` */
  function Units(plan: PyDict.Dict<string, seq<string>>): seq<string>
  {
    if plan == [] then [] else plan[0].1 + Units(plan[1..])
  }

  /** `agent` called on each unit in turn. */
  function Calls(agent: string, units: seq<string>): (works: seq<Work>)
    ensures |works| == |units|
    ensures forall i :: 0 <= i < |units| ==> works[i] == Call(agent, units[i])
  {
    if units == [] then [] else [Call(agent, units[0])] + Calls(agent, units[1..])
  }

  /** The pairs list every planned unit once per occurrence, agent by agent. */
  lemma {:induction false} PairsCount(plan: PyDict.Dict<string, seq<string>>)
    ensures |Pairs(plan)| == TotalUnits(plan)
  {
    if plan != [] {
      PairsCount(plan[1..]);
    }
  }

  function TotalUnits(plan: PyDict.Dict<string, seq<string>>): nat
  {
    if plan == [] then 0 else |plan[0].1| + TotalUnits(plan[1..])
  }

  // ------------------------------------------------------------- summaries

  /** The summary write and record that end a dispatch: `summary` is stored
      under `"summary"` and traced under the scheduler's name. */
  function Summarised(r: Run, ctx: string, subtask: string, summary: string): Run
    requires r.error.None?
  {
    Run(Merged(r.store, ctx, [("summary", JStr(summary))]), r.trace + [TraceEntry("scheduler", subtask, JStr(summary))], None)
  }

  /** `"\n".join(mem.values())` on one memory entry: the exception it raises
      when the entry is not a dict of strings. */
  function JoinValuesError(mem: Json): Option<PyError>
  {
    if !mem.JObj? then Some(AttributeError)
    else if exists k :: 0 <= k < |mem.fields| && !mem.fields[k].1.JStr? then Some(TypeError)
    else None
  }

  /** The first error of `"\n".join(mem.values())` over the entries whose key
      `keep` accepts, in memory order. */
  function CollectError(entry: Entry, keep: string -> bool): Option<PyError>
  {
    if entry == [] then None
    else if keep(entry[0].0) && JoinValuesError(entry[0].1).Some? then JoinValuesError(entry[0].1)
    else CollectError(entry[1..], keep)
  }

  /** Collecting raises exactly when some accepted entry is not a dict of strings. */
  lemma {:induction false} CollectErrorIff(entry: Entry, keep: string -> bool)
    ensures CollectError(entry, keep).None? <==>
      forall k :: 0 <= k < |entry| && keep(entry[k].0) ==> JoinValuesError(entry[k].1).None?
  {
    if entry != [] {
      CollectErrorIff(entry[1..], keep);
      assert forall k :: 1 <= k < |entry| ==> entry[k] == entry[1..][k - 1];
    }
  }
}

/** best_latest_4.py: the v8 flow, except that a plain-text task is split by
    a JSON object `{agent: [subtask, ...]}` from the oracle, and a task whose
    JSON plan is empty is answered directly instead. */
module SchedulerLatest4 {
  import opened Wrappers
  import opened Text
  import opened JsonData
  import PyDict
  import opened Memory
  import opened Dispatch
  import PlanParser
  import SubtaskPlans
  import opened ProgressSteps

  /** The oracle's replies: the yes/no of `_need_split`, the page plan lines,
      what `json.loads` made of the JSON plan (`None` when it raised), the
      direct answer and the summary. */
  datatype Replies = Replies(split: string, pagePlan: string, jsonPlan: Option<Json>, direct: string, summary: string)

  /** `str(sub)` for each subtask: the keys `f"Process {key}"` is built from. */
  function Strs(items: seq<Json>): (r: seq<string>)
    ensures |r| == |items| && forall i :: 0 <= i < |items| ==> r[i] == Str(items[i])
  {
    seq(|items|, i requires 0 <= i < |items| => Str(items[i]))
  }

  /** The JSON plan with each subtask as the string the loop formats. */
  function StrPlan(jp: SubtaskPlans.JsonPlan): (p: PlanParser.Plan)
    ensures |p| == |jp| && forall i :: 0 <= i < |jp| ==> p[i] == (jp[i].0, Strs(jp[i].1))
  {
    seq(|jp|, i requires 0 <= i < |jp| => (jp[i].0, Strs(jp[i].1)))
  }

  /** What PyMuPDF raises on bytes it cannot open. */
  const ReadError := PyError("FileDataError")

  /** What `dispatch(ctx, task, pdf, plain_text, progress_cb)` does; `file`
      is `pdf_bytes or file_bytes`. */
  function DispatchSpec(s: Store, trace: seq<TraceEntry>, ctx: string, file: Upload,
                        r: Replies, outcome: nat -> AgentOutcome): Outcome
  {
    if ReadFails(file, true) then Outcome(s, trace, [], Err(ReadError))
    else if file.Readable? then
      var events := [Subtasks(ProcessNames(PageIds(|file.pages|)))];
      match PagePlan(|file.pages|, r.pagePlan)
      case Err(e) => Outcome(s, trace, events, Err(e))
      case Ok(plan) => Finished(s, trace, ctx, events, plan, r.summary, outcome)
    else TextSpec(s, trace, ctx, r, outcome)
  }

  /** The plain-text branch: a direct answer, or the JSON plan and the loop. */
  function TextSpec(s: Store, trace: seq<TraceEntry>, ctx: string, r: Replies, outcome: nat -> AgentOutcome): Outcome
  {
    if !SubtaskPlans.NeedSplit(r.split) then Direct(s, trace, r.direct)
    else
      match SubtaskPlans.JsonPlanOf(r.jsonPlan, Registry)
      case Err(e) => Outcome(s, trace, [], Err(e))
      case Ok(jp) =>
        if jp == [] then Direct(s, trace, r.direct)
        else
          var plan := StrPlan(jp);
          Finished(s, trace, ctx, [Subtasks(ProcessNames(Units(plan)))], plan, r.summary, outcome)
  }

  /** `LLMScheduler`: the shared memory and the trace of every dispatch. */
  class Scheduler {
    const memory: MemoryStore
    var trace: seq<TraceEntry>

    ghost predicate Valid()
      reads this, memory
    {
      memory.Valid()
    }

    constructor()
      ensures Valid() && fresh(memory) && memory.Contents() == map[] && trace == []
    {
      memory := new MemoryStore();
      trace := [];
    }

    method Dispatch(ctx: string, file: Upload, replies: Replies, outcome: nat -> AgentOutcome)
      returns (events: seq<Event>, result: Result<string, PyError>)
      requires Valid()
      modifies this, memory, memory.store.Values
      ensures Valid()
      ensures Outcome(memory.Contents(), trace, events, result) ==
        DispatchSpec(old(memory.Contents()), old(trace), ctx, file, replies, outcome)
    {
      if ReadFails(file, true) {
        events, result := [], Err(ReadError);
      } else if file.Readable? {
        events, result := DispatchPdf(ctx, file.pages, replies, outcome);
      } else {
        events, result := DispatchText(ctx, replies, outcome);
      }
    }

    /** The `if pdf_data:` branch and the loop after it. */
    method DispatchPdf(ctx: string, pages: seq<string>, replies: Replies, outcome: nat -> AgentOutcome)
      returns (events: seq<Event>, result: Result<string, PyError>)
      requires Valid()
      modifies this, memory, memory.store.Values
      ensures Valid()
      ensures Outcome(memory.Contents(), trace, events, result) ==
        DispatchSpec(old(memory.Contents()), old(trace), ctx, Readable(pages), replies, outcome)
    {
      ghost var spec := DispatchSpec(memory.Contents(), trace, ctx, Readable(pages), replies, outcome);
      var n := |pages|;
      var started := [Subtasks(ProcessNames(PageIds(n)))];
      var planned := PlanPages(n, replies.pagePlan);
      if planned.Err? {
        events, result := started, Err(planned.error);
        return;
      }
      PdfPlanned(memory.Contents(), trace, ctx, pages, replies, outcome, planned.value);
      var t;
      t, events, result := Finish(memory, ctx, trace, started, planned.value, replies.summary, outcome);
      trace := t;
    }

    /** The plain-text branch: direct answer, JSON plan, or the loop. */
    method DispatchText(ctx: string, replies: Replies, outcome: nat -> AgentOutcome)
      returns (events: seq<Event>, result: Result<string, PyError>)
      requires Valid()
      modifies this, memory, memory.store.Values
      ensures Valid()
      ensures Outcome(memory.Contents(), trace, events, result) ==
        DispatchSpec(old(memory.Contents()), old(trace), ctx, NoFile, replies, outcome)
    {
      if !SubtaskPlans.NeedSplit(replies.split) {
        DirectAnswer(memory.Contents(), trace, ctx, replies, outcome);
        var md := Strip(replies.direct);
        events := [Done(md)];
        result := Ok(md);
        return;
      }
      var planned := SubtaskPlans.JsonPlanOf(replies.jsonPlan, Registry);
      if planned.Err? {
        SplitUnplanned(memory.Contents(), trace, ctx, replies, outcome, planned.error);
        events := [];
        result := Err(planned.error);
        return;
      }
      if planned.value == [] {
        DirectAnswer(memory.Contents(), trace, ctx, replies, outcome);
        var md := Strip(replies.direct);
        events := [Done(md)];
        result := Ok(md);
        return;
      }
      var plan := StrPlan(planned.value);
      var started := [Subtasks(ProcessNames(Units(plan)))];
      SplitPlanned(memory.Contents(), trace, ctx, replies, outcome, planned.value, plan);
      var t;
      t, events, result := Finish(memory, ctx, trace, started, plan, replies.summary, outcome);
      trace := t;
    }
  }

  /** The JSON plan names only registry agents. */
  lemma {:induction false} KeepListsInRegistry(fields: PyDict.Dict<string, Json>)
    ensures forall k :: 0 <= k < |SubtaskPlans.KeepLists(fields, Registry)| ==>
      SubtaskPlans.KeepLists(fields, Registry)[k].0 in Registry
  {
    if fields != [] {
      KeepListsInRegistry(fields[1..]);
      var head := if fields[0].0 in Registry && fields[0].1.JArr? then [(fields[0].0, fields[0].1.items)] else [];
      var rest := SubtaskPlans.KeepLists(fields[1..], Registry);
      var jp := SubtaskPlans.KeepLists(fields, Registry);
      assert jp == head + rest;
      forall k | 0 <= k < |jp|
        ensures jp[k].0 in Registry
      {
        if k >= |head| {
          assert jp[k] == rest[k - |head|];
        } else {
          assert jp[k] == head[k] == (fields[0].0, fields[0].1.items);
        }
      }
    }
  }

  /** A plain-text task is answered directly, with nothing else changed, when
      the oracle does not ask for a split, and also when it does but its reply
      is not JSON or holds no registry agent with a list. */
  lemma DirectAnswer(s: Store, trace: seq<TraceEntry>, ctx: string, r: Replies, outcome: nat -> AgentOutcome)
    requires !SubtaskPlans.NeedSplit(r.split) || SubtaskPlans.JsonPlanOf(r.jsonPlan, Registry) == Ok([])
    ensures var out := DispatchSpec(s, trace, ctx, NoFile, r, outcome);
      && out.store == s && out.trace == trace
      && out.events == [Done(Strip(r.direct))] && out.result == Ok(Strip(r.direct))
  {
  }

  /** A JSON plan that decodes to something other than an object raises
      before anything is pushed or stored. */
  lemma NotAnObject(s: Store, trace: seq<TraceEntry>, ctx: string, r: Replies, outcome: nat -> AgentOutcome)
    requires SubtaskPlans.NeedSplit(r.split) && r.jsonPlan.Some? && !r.jsonPlan.value.JObj?
    ensures DispatchSpec(s, trace, ctx, NoFile, r, outcome) == Outcome(s, trace, [], Err(SubtaskPlans.AttributeError))
  {
  }

  /** A JSON plan that fails to decode raises before anything is pushed or stored. */
  lemma SplitUnplanned(s: Store, trace: seq<TraceEntry>, ctx: string, r: Replies, outcome: nat -> AgentOutcome,
                       e: PyError)
    requires SubtaskPlans.NeedSplit(r.split) && SubtaskPlans.JsonPlanOf(r.jsonPlan, Registry) == Err(e)
    ensures DispatchSpec(s, trace, ctx, NoFile, r, outcome) == Outcome(s, trace, [], Err(e))
  {
  }

  /** A PDF task whose page plan is accepted runs the loop over that plan. */
  lemma PdfPlanned(s: Store, trace: seq<TraceEntry>, ctx: string, pages: seq<string>, r: Replies,
                   outcome: nat -> AgentOutcome, plan: PlanParser.Plan)
    requires PagePlan(|pages|, r.pagePlan) == Ok(plan)
    ensures DispatchSpec(s, trace, ctx, Readable(pages), r, outcome) ==
      Finished(s, trace, ctx, [Subtasks(ProcessNames(PageIds(|pages|)))], plan, r.summary, outcome)
  {
  }

  /** A plain-text task the oracle splits into a non-empty JSON plan runs the
      loop over that plan. */
  lemma SplitPlanned(s: Store, trace: seq<TraceEntry>, ctx: string, r: Replies,
                     outcome: nat -> AgentOutcome, jp: SubtaskPlans.JsonPlan, plan: PlanParser.Plan)
    requires SubtaskPlans.NeedSplit(r.split) && SubtaskPlans.JsonPlanOf(r.jsonPlan, Registry) == Ok(jp)
    requires jp != [] && plan == StrPlan(jp)
    ensures DispatchSpec(s, trace, ctx, NoFile, r, outcome) ==
      Finished(s, trace, ctx, [Subtasks(ProcessNames(Units(plan)))], plan, r.summary, outcome)
  {
  }

  /** Bytes PyMuPDF cannot open raise before anything is pushed, stored or traced. */
  lemma UnreadableFile(s: Store, trace: seq<TraceEntry>, ctx: string, r: Replies, outcome: nat -> AgentOutcome)
    ensures DispatchSpec(s, trace, ctx, Unreadable, r, outcome) == Outcome(s, trace, [], Err(ReadError))
  {
  }

  /** The plan the agent loop walks, when `dispatch` gets that far. */
  function UsedPlan(file: Upload, r: Replies): Result<PlanParser.Plan, PyError>
  {
    if file.Readable? then PagePlan(|file.pages|, r.pagePlan)
    else
      match SubtaskPlans.JsonPlanOf(r.jsonPlan, Registry)
      case Err(e) => Err(e)
      case Ok(jp) => Ok(StrPlan(jp))
  }

  /** Once the loop is reached, the events are the subtask list, one `assign`
      per pair in call order, and — exactly when `dispatch` returns — `done`
      with the summary, last. An agent given an empty list is still a key of
      the plan, and the loop is reached with no call for it. */
  lemma SplitEvents(s: Store, trace: seq<TraceEntry>, ctx: string, file: Upload, r: Replies,
                    outcome: nat -> AgentOutcome)
    requires file.Readable? || (file.NoFile? && SubtaskPlans.NeedSplit(r.split) && UsedPlan(file, r).Ok? && UsedPlan(file, r).value != [])
    ensures var out := DispatchSpec(s, trace, ctx, file, r, outcome);
      && |out.events| >= 1 && out.events[0].Subtasks?
      && (out.result.Ok? ==> out.events[|out.events| - 1] == Done(out.result.value)
                             && out.result.value == Strip(r.summary))
      && (forall k :: 1 <= k < |out.events| && (out.result.Err? || k < |out.events| - 1) ==>
            out.events[k].Assign?)
  {
    match UsedPlan(file, r)
    case Err(_) =>
    case Ok(plan) =>
      if file.Readable? {
        PdfPlanned(s, trace, ctx, file.pages, r, outcome, plan);
        FinishedEvents(s, trace, ctx, [Subtasks(ProcessNames(PageIds(|file.pages|)))], plan, r.summary, outcome);
      } else {
        var jp := SubtaskPlans.JsonPlanOf(r.jsonPlan, Registry).value;
        SplitPlanned(s, trace, ctx, r, outcome, jp, plan);
        FinishedEvents(s, trace, ctx, [Subtasks(ProcessNames(Units(plan)))], plan, r.summary, outcome);
      }
  }

  /** When every registry agent's entry in the context is a dict (or absent)
      and the loop is reached, no agent call can make `dispatch` raise: each
      planned pair gets its `assign` event and its trace record, in order, and
      its result is stored under `"Process " + str(key)` in its agent's sub-dict. */
  lemma DispatchClean(s: Store, trace: seq<TraceEntry>, ctx: string, file: Upload, r: Replies,
                      outcome: nat -> AgentOutcome)
    requires AgentsAreDicts(EntryOf(s, ctx))
    requires file.Readable? || (file.NoFile? && SubtaskPlans.NeedSplit(r.split) && UsedPlan(file, r).Ok? && UsedPlan(file, r).value != [])
    requires UsedPlan(file, r).Ok?
    ensures var works := Pairs(UsedPlan(file, r).value);
      var out := DispatchSpec(s, trace, ctx, file, r, outcome);
      && AssignedFrom(out.events, 1, works)
      && RecordedFrom(out.trace, |trace|, works)
      && KeysRecorded(EntryOf(out.store, ctx), works)
  {
    var plan := UsedPlan(file, r).value;
    if file.Readable? {
      PagePlanSpec(|file.pages|, r.pagePlan);
    } else {
      KeepListsInRegistry(r.jsonPlan.value.fields);
      assert forall k :: 0 <= k < |plan| ==> plan[k].0 == SubtaskPlans.KeepLists(r.jsonPlan.value.fields, Registry)[k].0;
    }
    var events := if file.Readable? then [Subtasks(ProcessNames(PageIds(|file.pages|)))]
                   else [Subtasks(ProcessNames(Units(plan)))];
    FinishedClean(s, trace, ctx, events, plan, r.summary, outcome);
  }

  /** `dispatch` leaves every other context alone and never drops a trace record. */
  lemma DispatchFrame(s: Store, trace: seq<TraceEntry>, ctx: string, file: Upload, r: Replies,
                      outcome: nat -> AgentOutcome)
    ensures var out := DispatchSpec(s, trace, ctx, file, r, outcome);
      && (forall c :: c != ctx ==> EntryOf(out.store, c) == EntryOf(s, c))
      && |trace| <= |out.trace| && out.trace[..|trace|] == trace
  {
    match UsedPlan(file, r)
    case Err(_) =>
    case Ok(plan) =>
      var events := if file.Readable? then [Subtasks(ProcessNames(PageIds(|file.pages|)))]
                     else [Subtasks(ProcessNames(Units(plan)))];
      if file.Readable? || plan != [] {
        FinishedFrame(s, trace, ctx, events, plan, r.summary, outcome);
      }
  }
}

/** llm_scheduler_v8.py: a PDF is split into pages that the oracle assigns
    to agents (round-robin when its plan is empty); plain text is answered
    directly unless the oracle asks for a split, in which case it is cut into
    subtasks. Every assignment is pushed as progress, its result stored in the
    agent's sub-dict, and the run ends with a summary. */
module SchedulerV8 {
  import opened Wrappers
  import opened Text
  import opened JsonData
  import PyDict
  import opened Memory
  import opened Dispatch
  import PlanParser
  import SubtaskPlans
  import opened ProgressSteps

  /** The oracle's replies: the yes/no of `_need_split`, the plan (page lines
      or subtask lines), the direct answer and the summary. */
  datatype Replies = Replies(split: string, plan: string, direct: string, summary: string)

  /** What PyMuPDF raises on bytes it cannot open. */
  const ReadError := PyError("FileDataError")

  /** What `dispatch(ctx, task, pdf, plain_text, progress_cb)` does, from the
      memory and trace before it; `file` is `pdf_bytes or file_bytes`. */
  function DispatchSpec(s: Store, trace: seq<TraceEntry>, ctx: string, file: Upload,
                        r: Replies, outcome: nat -> AgentOutcome): Outcome
  {
    if ReadFails(file, true) then Outcome(s, trace, [], Err(ReadError))
    else if file.Readable? then
      var events := [Subtasks(ProcessNames(PageIds(|file.pages|)))];
      match PagePlan(|file.pages|, r.plan)
      case Err(e) => Outcome(s, trace, events, Err(e))
      case Ok(plan) => Finished(s, trace, ctx, events, plan, r.summary, outcome)
    else if !SubtaskPlans.NeedSplit(r.split) then Direct(s, trace, r.direct)
    else
      var plan := SubtaskPlans.SubtaskPlan(r.plan, Registry);
      Finished(s, trace, ctx, [Subtasks(ProcessNames(Units(plan)))], plan, r.summary, outcome)
  }

  /** `LLMScheduler`: the shared memory and the trace of every dispatch. */
  class Scheduler {
    const memory: MemoryStore
    var trace: seq<TraceEntry>

    ghost predicate Valid()
      reads this, memory
    {
      memory.Valid()
    }

    constructor()
      ensures Valid() && fresh(memory) && memory.Contents() == map[] && trace == []
    {
      memory := new MemoryStore();
      trace := [];
    }

    method Dispatch(ctx: string, file: Upload, replies: Replies, outcome: nat -> AgentOutcome)
      returns (events: seq<Event>, result: Result<string, PyError>)
      requires Valid()
      modifies this, memory, memory.store.Values
      ensures Valid()
      ensures Outcome(memory.Contents(), trace, events, result) ==
        DispatchSpec(old(memory.Contents()), old(trace), ctx, file, replies, outcome)
    {
      if ReadFails(file, true) {
        events, result := [], Err(ReadError);
      } else if file.Readable? {
        events, result := DispatchPdf(ctx, file.pages, replies, outcome);
      } else {
        events, result := DispatchText(ctx, replies, outcome);
      }
    }

    /** The `if pdf_data:` branch and the loop after it. */
    method DispatchPdf(ctx: string, pages: seq<string>, replies: Replies, outcome: nat -> AgentOutcome)
      returns (events: seq<Event>, result: Result<string, PyError>)
      requires Valid()
      modifies this, memory, memory.store.Values
      ensures Valid()
      ensures Outcome(memory.Contents(), trace, events, result) ==
        DispatchSpec(old(memory.Contents()), old(trace), ctx, Readable(pages), replies, outcome)
    {
      var n := |pages|;
      var started := [Subtasks(ProcessNames(PageIds(n)))];
      var planned := PlanPages(n, replies.plan);
      if planned.Err? {
        PdfUnplanned(memory.Contents(), trace, ctx, pages, replies, outcome, planned.error);
        events, result := started, Err(planned.error);
        return;
      }
      PdfPlanned(memory.Contents(), trace, ctx, pages, replies, outcome, planned.value);
      var t;
      t, events, result := Finish(memory, ctx, trace, started, planned.value, replies.summary, outcome);
      trace := t;
    }

    /** The plain-text branch and the loop after it. */
    method DispatchText(ctx: string, replies: Replies, outcome: nat -> AgentOutcome)
      returns (events: seq<Event>, result: Result<string, PyError>)
      requires Valid()
      modifies this, memory, memory.store.Values
      ensures Valid()
      ensures Outcome(memory.Contents(), trace, events, result) ==
        DispatchSpec(old(memory.Contents()), old(trace), ctx, NoFile, replies, outcome)
    {
      if !SubtaskPlans.NeedSplit(replies.split) {
        var md := Strip(replies.direct);
        events := [Done(md)];
        result := Ok(md);
      } else {
        events, result := DispatchSplit(ctx, replies, outcome);
      }
    }

    /** A plain-text task the oracle splits: the subtask plan and the loop. */
    method DispatchSplit(ctx: string, replies: Replies, outcome: nat -> AgentOutcome)
      returns (events: seq<Event>, result: Result<string, PyError>)
      requires Valid() && SubtaskPlans.NeedSplit(replies.split)
      modifies this, memory, memory.store.Values
      ensures Valid()
      ensures Outcome(memory.Contents(), trace, events, result) ==
        DispatchSpec(old(memory.Contents()), old(trace), ctx, NoFile, replies, outcome)
    {
      var plan := SubtaskPlans.PlanSubtasks(replies.plan, Registry);
      var started := [Subtasks(ProcessNames(Units(plan)))];
      SplitPlanned(memory.Contents(), trace, ctx, replies, outcome, plan);
      var t;
      t, events, result := Finish(memory, ctx, trace, started, plan, replies.summary, outcome);
      trace := t;
    }
  }

  /** A PDF task whose page plan is accepted runs the loop over that plan. */
  lemma PdfPlanned(s: Store, trace: seq<TraceEntry>, ctx: string, pages: seq<string>, r: Replies,
                   outcome: nat -> AgentOutcome, plan: PlanParser.Plan)
    requires PagePlan(|pages|, r.plan) == Ok(plan)
    ensures DispatchSpec(s, trace, ctx, Readable(pages), r, outcome) ==
      Finished(s, trace, ctx, [Subtasks(ProcessNames(PageIds(|pages|)))], plan, r.summary, outcome)
  {
  }

  /** A page plan that raises leaves the memory and the trace as they were,
      after the page list was pushed. */
  lemma PdfUnplanned(s: Store, trace: seq<TraceEntry>, ctx: string, pages: seq<string>, r: Replies,
                     outcome: nat -> AgentOutcome, e: PyError)
    requires PagePlan(|pages|, r.plan) == Err(e)
    ensures DispatchSpec(s, trace, ctx, Readable(pages), r, outcome) ==
      Outcome(s, trace, [Subtasks(ProcessNames(PageIds(|pages|)))], Err(e))
  {
  }

  /** A plain-text task the oracle splits runs the loop over its subtask plan. */
  lemma SplitPlanned(s: Store, trace: seq<TraceEntry>, ctx: string, r: Replies,
                     outcome: nat -> AgentOutcome, plan: PlanParser.Plan)
    requires SubtaskPlans.NeedSplit(r.split) && plan == SubtaskPlans.SubtaskPlan(r.plan, Registry)
    ensures DispatchSpec(s, trace, ctx, NoFile, r, outcome) ==
      Finished(s, trace, ctx, [Subtasks(ProcessNames(Units(plan)))], plan, r.summary, outcome)
  {
  }

  /** The plan the agent loop walks, when `dispatch` gets that far. */
  function UsedPlan(file: Upload, r: Replies): Result<PlanParser.Plan, PyError>
  {
    if file.Readable? then PagePlan(|file.pages|, r.plan) else Ok(SubtaskPlans.SubtaskPlan(r.plan, Registry))
  }

  /** Bytes PyMuPDF cannot open raise before anything is pushed, stored or traced. */
  lemma UnreadableFile(s: Store, trace: seq<TraceEntry>, ctx: string, r: Replies, outcome: nat -> AgentOutcome)
    ensures DispatchSpec(s, trace, ctx, Unreadable, r, outcome) == Outcome(s, trace, [], Err(ReadError))
  {
  }

  /** A plain-text task the oracle does not split is answered directly: only
      `done` is pushed, and memory and trace are untouched. */
  lemma DirectAnswer(s: Store, trace: seq<TraceEntry>, ctx: string, r: Replies, outcome: nat -> AgentOutcome)
    requires !SubtaskPlans.NeedSplit(r.split)
    ensures var out := DispatchSpec(s, trace, ctx, NoFile, r, outcome);
      && out.store == s && out.trace == trace
      && out.events == [Done(Strip(r.direct))] && out.result == Ok(Strip(r.direct))
  {
  }

  /** A PDF task first pushes one `"Process page_i"` subtask per page; a plan
      line the parser rejects then raises with nothing else changed. */
  lemma PdfStart(s: Store, trace: seq<TraceEntry>, ctx: string, pages: seq<string>, n: nat, r: Replies,
                 outcome: nat -> AgentOutcome)
    requires n == |pages|
    ensures var out := DispatchSpec(s, trace, ctx, Readable(pages), r, outcome);
      && |out.events| >= 1
      && out.events[0] == Subtasks(ProcessNames(PageIds(n)))
      && |out.events[0].subtasks| == n
      && (forall i :: 0 <= i < n ==> out.events[0].subtasks[i] == "Process page_" + NatToString(i + 1))
      && (PlanParser.ParsePlan(r.plan, Registry, "page_", true).Err? ==>
            out.store == s && out.trace == trace && |out.events| == 1 && out.result.Err?)
  {
    var events := [Subtasks(ProcessNames(PageIds(n)))];
    if PagePlan(n, r.plan).Ok? {
      FinishedEvents(s, trace, ctx, events, PagePlan(n, r.plan).value, r.summary, outcome);
    }
  }

  /** Once split, the events are the subtask list, one `assign` per pair in
      the order the pairs are called, and — exactly when `dispatch` returns —
      `done` with the markdown, last. */
  lemma SplitEvents(s: Store, trace: seq<TraceEntry>, ctx: string, file: Upload, r: Replies,
                    outcome: nat -> AgentOutcome)
    requires file.Readable? || (file.NoFile? && SubtaskPlans.NeedSplit(r.split))
    ensures var out := DispatchSpec(s, trace, ctx, file, r, outcome);
      && |out.events| >= 1 && out.events[0].Subtasks?
      && (out.result.Ok? ==> out.events[|out.events| - 1] == Done(out.result.value)
                             && out.result.value == Strip(r.summary))
      && (forall k :: 1 <= k < |out.events| && (out.result.Err? || k < |out.events| - 1) ==>
            out.events[k].Assign?)
  {
    match UsedPlan(file, r)
    case Err(_) =>
    case Ok(plan) =>
      if file.Readable? {
        PdfPlanned(s, trace, ctx, file.pages, r, outcome, plan);
        FinishedEvents(s, trace, ctx, [Subtasks(ProcessNames(PageIds(|file.pages|)))], plan, r.summary, outcome);
      } else {
        SplitPlanned(s, trace, ctx, r, outcome, plan);
        FinishedEvents(s, trace, ctx, [Subtasks(ProcessNames(Units(plan)))], plan, r.summary, outcome);
      }
  }

  /** When every registry agent's entry in the context is a dict (or absent)
      and the plan is readable, no agent call can make `dispatch` raise: each
      planned pair gets its `assign` event and its trace record, in order, and
      its result is stored under `"Process " + key` in its agent's sub-dict. */
  lemma DispatchClean(s: Store, trace: seq<TraceEntry>, ctx: string, file: Upload, r: Replies,
                      outcome: nat -> AgentOutcome)
    requires AgentsAreDicts(EntryOf(s, ctx))
    requires file.Readable? || (file.NoFile? && SubtaskPlans.NeedSplit(r.split))
    requires UsedPlan(file, r).Ok?
    ensures var works := Pairs(UsedPlan(file, r).value);
      var out := DispatchSpec(s, trace, ctx, file, r, outcome);
      && AssignedFrom(out.events, 1, works)
      && RecordedFrom(out.trace, |trace|, works)
      && KeysRecorded(EntryOf(out.store, ctx), works)
  {
    var plan := UsedPlan(file, r).value;
    if file.Readable? {
      PagePlanSpec(|file.pages|, r.plan);
    } else {
      PlanParser.IndexOfDistinct(Registry, 0);
      SubtaskPlans.SubtaskPlanShape(r.plan, Registry);
    }
    var events := if file.Readable? then [Subtasks(ProcessNames(PageIds(|file.pages|)))]
                   else [Subtasks(ProcessNames(Units(plan)))];
    FinishedClean(s, trace, ctx, events, plan, r.summary, outcome);
  }

  /** `dispatch` leaves every other context alone and never drops a trace record. */
  lemma DispatchFrame(s: Store, trace: seq<TraceEntry>, ctx: string, file: Upload, r: Replies,
                      outcome: nat -> AgentOutcome)
    ensures var out := DispatchSpec(s, trace, ctx, file, r, outcome);
      && (forall c :: c != ctx ==> EntryOf(out.store, c) == EntryOf(s, c))
      && |trace| <= |out.trace| && out.trace[..|trace|] == trace
  {
    match UsedPlan(file, r)
    case Err(_) =>
    case Ok(plan) =>
      var events := if file.Readable? then [Subtasks(ProcessNames(PageIds(|file.pages|)))]
                     else [Subtasks(ProcessNames(Units(plan)))];
      FinishedFrame(s, trace, ctx, events, plan, r.summary, outcome);
  }
}

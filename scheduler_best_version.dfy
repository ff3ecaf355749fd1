/** llm_scheduler_best_version.py: as llm_scheduler_v5.py, but each call's
    prompt is the user's text followed by the text of the group it is given. */
module SchedulerBestVersion {
  import opened Wrappers
  import opened JsonData
  import PyDict
  import opened Memory
  import opened Dispatch
  import opened Conclusion
  import opened Overwriting
  import PlanParser
  import Chunker

  /** The oracle's replies: the group plan and the summary. */
  datatype Replies = Replies(plan: string, summary: string)

  /** `_parse_plan`: the line grammar with the `group_` default prefix. */
  function UsedPlan(r: Replies): Result<PlanParser.Plan, PyError>
  {
    PlanParser.ParsePlan(r.plan, Registry, "group_", true)
  }

  /** What PyPDF2 raises on a file it cannot read. */
  const ReadError := PyError("PdfReadError")

  /** What `dispatch` does, from the memory and trace before it: reading the
      file comes first. */
  function DispatchSpec(s: Store, trace: seq<TraceEntry>, ctx: string, file: Upload, r: Replies,
                        outcome: nat -> AgentOutcome): Run
  {
    if ReadFails(file, true) then Run(s, trace, Some(ReadError))
    else match UsedPlan(r)
    case Err(e) => Run(s, trace, Some(e))
    case Ok(plan) => Finished(AsReturned, s, trace, ctx, plan, Text.Strip(r.summary), outcome)
  }

  /** Once the file is read and the plan made, `dispatch` is the loop over
      that plan and the summary. */
  lemma Planned(s: Store, trace: seq<TraceEntry>, ctx: string, file: Upload, r: Replies,
                outcome: nat -> AgentOutcome, plan: PlanParser.Plan)
    requires !ReadFails(file, true) && UsedPlan(r) == Ok(plan)
    ensures DispatchSpec(s, trace, ctx, file, r, outcome) ==
      Finished(AsReturned, s, trace, ctx, plan, Text.Strip(r.summary), outcome)
  {
  }

  /** A plan the parser rejects raises before anything is stored or traced. */
  lemma Unplanned(s: Store, trace: seq<TraceEntry>, ctx: string, file: Upload, r: Replies,
                  outcome: nat -> AgentOutcome, e: PyError)
    requires !ReadFails(file, true) && UsedPlan(r) == Err(e)
    ensures DispatchSpec(s, trace, ctx, file, r, outcome) == Run(s, trace, Some(e))
  {
  }

  /** `_pdf_to_text`: the pages' texts separated by blank lines. */
  function PdfText(pages: seq<string>): string
  {
    Text.JoinWith(pages, "\n\n")
  }

  /** `id2text` of `dispatch`: the groups of the file's text, if a file was read. */
  function Groups(file: Upload): seq<(string, string)>
  {
    if file.Readable? then Chunker.Chunks(PdfText(file.pages), "group_") else []
  }

  /** `LLMScheduler`: the shared memory and the trace of every dispatch. */
  class Scheduler {
    const memory: MemoryStore
    var trace: seq<TraceEntry>

    ghost predicate Valid()
      reads this, memory
    {
      memory.Valid()
    }

    constructor()
      ensures Valid() && fresh(memory) && memory.Contents() == map[] && trace == []
    {
      memory := new MemoryStore();
      trace := [];
    }

    method Dispatch(ctx: string, file: Upload, replies: Replies, outcome: nat -> AgentOutcome)
      returns (result: Result<Entry, PyError>)
      requires Valid()
      modifies this, memory, memory.store.Values
      ensures Valid()
      ensures var run := DispatchSpec(old(memory.Contents()), old(trace), ctx, file, replies, outcome);
        memory.Contents() == run.store && trace == run.trace && result == Returned(run, ctx)
    {
      if ReadFails(file, true) {
        result := Err(ReadError);
        return;
      }
      ghost var s0 := memory.Contents();
      var planned := PlanParser.Parse(replies.plan, Registry, "group_", true);
      assert memory.Contents() == s0;
      if planned.Err? {
        Unplanned(s0, trace, ctx, file, replies, outcome, planned.error);
        result := Err(planned.error);
        return;
      }
      Planned(memory.Contents(), trace, ctx, file, replies, outcome, planned.value);
      var t;
      t, result := Finish(AsReturned, memory, ctx, trace, planned.value, Text.Strip(replies.summary), outcome);
      trace := t;
    }
  }

  // ------------------------------------------------------------ properties

  /** A plan the parser rejects raises before any call; otherwise every call
      goes to a registry agent, the run raises exactly when some reply's
      `mem` is not a dict, and a run that does not raise leaves everything
      the agents wrote, then the stripped summary, in the context's memory,
      after one record per planned group and the scheduler's. */
  lemma DispatchOutcome(s: Store, trace: seq<TraceEntry>, ctx: string, file: Upload, r: Replies,
                        outcome: nat -> AgentOutcome)
    ensures var out := DispatchSpec(s, trace, ctx, file, r, outcome);
      && (ReadFails(file, true) ==> out == Run(s, trace, Some(ReadError)))
      && (!ReadFails(file, true) && UsedPlan(r).Err? ==> out == Run(s, trace, Some(UsedPlan(r).error)))
      && (!ReadFails(file, true) && UsedPlan(r).Ok? ==>
            var works := Pairs(UsedPlan(r).value);
            && (forall i :: 0 <= i < |works| ==> works[i].agent in Registry)
            && (out.error.Some? <==> exists i :: 0 <= i < |works| && !Clean(AsReturned, works[i].agent, outcome(i)))
            && (out.error.None? ==>
                  && EntryOf(out.store, ctx) == PyDict.Update(PyDict.Update(EntryOf(s, ctx), Writes(AsReturned, works, outcome)),
                                                              [("summary", JStr(Text.Strip(r.summary)))])
                  && |out.trace| == |trace| + |works| + 1))
      && (forall c :: c != ctx ==> EntryOf(out.store, c) == EntryOf(s, c))
  {
    if !ReadFails(file, true) && UsedPlan(r).Ok? {
      var plan := UsedPlan(r).value;
      PlanParser.ParsePlanShape(r.plan, Registry, "group_", true);
      assert forall a :: a in PyDict.Keys(plan) ==> a in Registry;
      FinishedRaises(AsReturned, s, trace, ctx, plan, Text.Strip(r.summary), outcome);
      if DispatchSpec(s, trace, ctx, file, r, outcome).error.None? {
        FinishedClean(AsReturned, s, trace, ctx, plan, Text.Strip(r.summary), outcome);
      }
    }
  }

  /** The prompt of a call on group `gid`, `f"{text}\n\n{context_text}".strip()`:
      the text of the group the chunker numbered `gid`, or nothing after the
      user's text for an id it did not produce (without a document, every id). */
  lemma PromptOf(text: string, file: Upload, gid: string)
    ensures forall j :: 0 <= j < |Groups(file)| && gid == "group_" + Text.NatToString(j + 1) ==>
      Chunker.Prompt(text, Groups(file), gid) == Text.Strip(text + "\n\n" + Groups(file)[j].1)
    ensures gid !in PyDict.Keys(Groups(file)) ==> Chunker.Prompt(text, Groups(file), gid) == Text.Strip(text + "\n\n")
    ensures !file.Readable? ==> Chunker.Prompt(text, Groups(file), gid) == Text.Strip(text + "\n\n")
  {
    if file.Readable? {
      Chunker.ChunkTextSpec(PdfText(file.pages), "group_", gid);
    } else {
      assert text + "\n\n" + "" == text + "\n\n";
    }
    if gid !in PyDict.Keys(Groups(file)) {
      assert text + "\n\n" + "" == text + "\n\n";
    }
  }
}

/** How the variants without progress events end `dispatch`: the prompt the
    summary is asked with is collected from the context's memory (which may
    raise), the summary is stored under `"summary"` and traced under the
    scheduler's name, and `memory.get(context_id), self.trace` is returned. */
module Conclusion {
  import opened Wrappers
  import opened JsonData
  import PyDict
  import opened Memory
  import opened Dispatch

  /** The end of `dispatch` after the agent loop: a run that raised stays as
      it is; otherwise `check` (what collecting the summary prompt raises, if
      anything) is run on the context's memory, and then the summary is
      written and traced. */
  function Closing(run: Run, ctx: string, check: Entry -> Option<PyError>, subtask: string, summary: string): Run
  {
    if run.error.Some? then run
    else
      match check(EntryOf(run.store, ctx))
      case Some(e) => run.(error := Some(e))
      case None => Summarised(run, ctx, subtask, summary)
  }

  /** `return self.memory.get(context_id), self.trace`, or the exception. */
  function Returned(run: Run, ctx: string): (r: Result<Entry, PyError>)
    ensures r.Ok? <==> run.error.None?
    ensures r.Ok? ==> r.value == EntryOf(run.store, ctx)
  {
    if run.error.Some? then Err(run.error.value) else Ok(EntryOf(run.store, ctx))
  }

  /** The summary step: collect, ask, `memory.update(ctx, {"summary": ...})`,
      append the record. */
  method Close(memory: MemoryStore, ctx: string, trace0: seq<TraceEntry>, check: Entry -> Option<PyError>,
               subtask: string, summary: string)
    returns (trace: seq<TraceEntry>, error: Option<PyError>)
    requires memory.Valid()
    modifies memory, memory.store.Values
    ensures memory.Valid()
    ensures forall d :: d in memory.store.Values ==> d in old(memory.store.Values) || fresh(d)
    ensures Run(memory.Contents(), trace, error) ==
      Closing(Run(old(memory.Contents()), trace0, None), ctx, check, subtask, summary)
  {
    trace := trace0;
    var current := memory.Get(ctx);
    error := check(current.entries);
    if error.Some? {
      return;
    }
    memory.Update(ctx, [("summary", JStr(summary))]);
    trace := trace + [TraceEntry("scheduler", subtask, JStr(summary))];
  }

  /** The closing step raises exactly when the loop did or the collection
      does; when it does not, the summary is the context's `"summary"`, every
      other key and every other context are as the loop left them, and the
      trace gains exactly the scheduler's record. */
  lemma ClosingSpec(run: Run, ctx: string, check: Entry -> Option<PyError>, subtask: string, summary: string)
    ensures var r := Closing(run, ctx, check, subtask, summary);
      && (r.error.Some? <==> run.error.Some? || check(EntryOf(run.store, ctx)).Some?)
      && (r.error.Some? ==> r.store == run.store && r.trace == run.trace)
      && (r.error.None? ==>
            && PyDict.Get(EntryOf(r.store, ctx), "summary", JNull) == JStr(summary)
            && (forall k, d: Json :: k != "summary" ==>
                  PyDict.Get(EntryOf(r.store, ctx), k, d) == PyDict.Get(EntryOf(run.store, ctx), k, d))
            && r.trace == run.trace + [TraceEntry("scheduler", subtask, JStr(summary))])
      && (forall c :: c != ctx ==> EntryOf(r.store, c) == EntryOf(run.store, c))
  {
    var one := [("summary", JStr(summary))];
    assert PyDict.Keys(one) == ["summary"];
    MergedSpec(run.store, ctx, one);
  }

  /** After a loop that did not raise, the run raises exactly what the check raises. */
  lemma ClosingError(run: Run, ctx: string, check: Entry -> Option<PyError>, subtask: string, summary: string)
    requires run.error.None?
    ensures Closing(run, ctx, check, subtask, summary).error == check(EntryOf(run.store, ctx))
  {
  }
}

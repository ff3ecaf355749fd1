/** llm_scheduler.py: the first scheduler. It plans subtasks (page ranges of
    a PDF, or the pieces of a text task), reports them through the progress
    callback, and calls one agent per subtask. It keeps no memory of its own:
    what it produces is the sequence of progress events. */
module LlmScheduler {
  import opened Wrappers
  import opened Text
  import opened JsonData
  import PyDict
  import opened Engine = Dispatch
  import SubtaskPlans
  import PageRanges
  import Allocation

  /** A planned subtask: its number, its description, its agent and, for a
      PDF, the page range `(page_a, page_b)` it covers. */
  datatype Subtask = Subtask(index: nat, description: Json, agent: string, pages: Option<(string, string)>)

  /** The payloads handed to `progress_cb`, in the order they are pushed. */
  datatype Event =
    | ChatText(message: string)
    | SubtaskList(items: seq<(nat, Json)>)
    | SubtaskStart(task: Subtask)
    | ActionStart(subtask: nat, agent: string, description: Json)
    | ActionEnd(subtask: nat, agent: string, status: string, result: Json)
    | SubtaskEnd(subtask: nat)
    | ChatFile(data: string)

  /** The oracle's replies, as `json.loads` decodes them (`None` where it
      raises): the PDF page plan, the yes/no on splitting, the text plan. */
  datatype Replies = Replies(pdfPlan: Option<Json>, split: string, textPlan: Option<Json>)

  const Received := "已接收任务，开始规划…"
  const Done := "# 任务完成 ✅"

  // ------------------------------------------------------- `_call_agent`

  /** `_call_agent`: `("succeed", res["result"])` for a status-200 reply
      that is a dict holding `result`; otherwise `("failed", str(res)[:120])`,
      with `res` the `{}` of any other status, or `("failed", "[❌]" + e)`
      for an exception (the request's, `in` on a scalar, `.get` on a list or
      a string). */
  function CallAgent(o: AgentOutcome): (string, Json)
  {
    match o
    case CallError(m) => ("failed", JStr("[❌]" + m))
    case Response(status, body) =>
      var res := if status == 200 then body else JObj([]);
      match PyIn("result", res)
      case Err(m) => ("failed", JStr("[❌]" + m))
      case Ok(found) =>
        if !found then ("failed", JStr(Slice(Str(res), 0, 120)))
        else if res.JObj? then ("succeed", PyDict.Get(res.fields, "result", JStr("")))
        else ("failed", JStr("[❌]" + NoAttributeMessage(res, "get")))
  }

  /** A call succeeds exactly when the agent answers 200 with a dict holding
      `result`, and then yields that result; a failure yields a string that
      is the reply cut to 120 characters or an exception's message. */
  lemma CallAgentSpec(o: AgentOutcome)
    ensures CallAgent(o).0 == "succeed" || CallAgent(o).0 == "failed"
    ensures CallAgent(o).0 == "succeed" <==>
      o.Response? && o.status == 200 && o.body.JObj? && PyDict.HasKey(o.body.fields, "result")
    ensures CallAgent(o).0 == "succeed" ==> CallAgent(o).1 == PyDict.Get(o.body.fields, "result", JNull)
    ensures CallAgent(o).0 == "failed" ==> CallAgent(o).1.JStr?
    ensures o.Response? && o.status != 200 ==> CallAgent(o) == ("failed", JStr("{}"))
    ensures o.Response? && o.body.JObj? && CallAgent(o).0 == "failed" ==> |CallAgent(o).1.s| <= 120
  {
    if o.Response? && o.status == 200 && o.body.JObj? && PyDict.HasKey(o.body.fields, "result") {
      PyDict.LookupAgreesWithGet(o.body.fields, "result", JStr(""));
      PyDict.LookupAgreesWithGet(o.body.fields, "result", JNull);
    }
    if o.Response? && o.status != 200 {
      assert Str(JObj([])) == "{}";
      assert Slice("{}", 0, 120) == "{}";
    }
  }

  // ------------------------------------------------------------- planning

  /** `[(f"page_{i+1}", ...) for i, p in enumerate(doc)]`, the ids only. */
  function PageIds(n: nat): (ids: seq<Json>)
    ensures |ids| == n
  {
    seq(n, i => JStr("page_" + IntToString(i + 1)))
  }

  /** The fallback when the PDF plan is empty: the first `len(pages)//2 or 1`
      pages to `llama2_agent`, the rest to `llama2_agent_2`. */
  function HalfSplit(n: nat): SubtaskPlans.JsonPlan
  {
    Allocation.HalfSplit(PageIds(n), "llama2_agent", "llama2_agent_2")
  }

  /** `_plan_pdf(...) or {}`, falling back to `HalfSplit`. */
  function PdfPlan(n: nat, data: Option<Json>): Result<SubtaskPlans.JsonPlan, PyError>
  {
    match SubtaskPlans.JsonPlanOf(data, Registry)
    case Err(e) => Err(e)
    case Ok(p) => Ok(if p != [] then p else HalfSplit(n))
  }

  /** `"Process " + (p1 if p1 == p2 else f"{p1}~{p2}")` */
  function Describe(range: (string, string)): string
  {
    "Process " + (if range.0 == range.1 then range.0 else range.0 + "~" + range.1)
  }

  /** The subtasks of one agent's page ranges, numbered from `start`. */
  function RangeTasks(agent: string, ranges: seq<(string, string)>, start: nat): (r: seq<Subtask>)
    ensures |r| == |ranges|
  {
    if ranges == [] then []
    else
      var last := ranges[|ranges| - 1];
      RangeTasks(agent, ranges[..|ranges| - 1], start) + [Subtask(start + |ranges| - 1, JStr(Describe(last)), agent, Some(last))]
  }

  /** The `k`-th range subtask is numbered `start + k` and reads the `k`-th range. */
  lemma {:induction false} RangeTasksAt(agent: string, ranges: seq<(string, string)>, start: nat)
    ensures forall k :: 0 <= k < |ranges| ==>
      RangeTasks(agent, ranges, start)[k] == Subtask(start + k, JStr(Describe(ranges[k])), agent, Some(ranges[k]))
    decreases |ranges|
  {
    if ranges != [] {
      var init := ranges[..|ranges| - 1];
      RangeTasksAt(agent, init, start);
      forall k | 0 <= k < |init| ensures init[k] == ranges[k] { }
    }
  }

  /** The PDF subtasks after the plan's agents so far; `_page_ranges` of an
      agent's ids may raise. */
  function PdfSubtasks(plan: SubtaskPlans.JsonPlan): Result<seq<Subtask>, PyError>
  {
    if plan == [] then Ok([]) else AddAgent(PdfSubtasks(plan[..|plan| - 1]), plan[|plan| - 1])
  }

  /** One agent of the plan: its ranges' subtasks after those so far. */
  function AddAgent(prev: Result<seq<Subtask>, PyError>, entry: (string, seq<Json>)): Result<seq<Subtask>, PyError>
  {
    match prev
    case Err(e) => Err(e)
    case Ok(subs) =>
      match PageRanges.PageRangesOf(entry.1)
      case Err(e) => Err(e)
      case Ok(ranges) => Ok(subs + RangeTasks(entry.0, ranges, |subs| + 1))
  }

  /** The subtasks of one agent's list of pieces, numbered from `start`. */
  function ListTasks(agent: string, pieces: seq<Json>, start: nat): (r: seq<Subtask>)
    ensures |r| == |pieces|
  {
    seq(|pieces|, k requires 0 <= k < |pieces| => Subtask(start + k, pieces[k], agent, None))
  }

  /** The text subtasks after the plan's agents so far. */
  function TextSubtasks(plan: SubtaskPlans.JsonPlan): seq<Subtask>
  {
    if plan == [] then []
    else
      var subs := TextSubtasks(plan[..|plan| - 1]);
      subs + ListTasks(plan[|plan| - 1].0, plan[|plan| - 1].1, |subs| + 1)
  }

  /** The subtask list `dispatch` builds, or what planning raises. */
  function Planned(task: string, pdf: Option<nat>, r: Replies): Result<seq<Subtask>, PyError>
  {
    if pdf.Some? then
      match PdfPlan(pdf.value, r.pdfPlan)
      case Err(e) => Err(e)
      case Ok(plan) => PdfSubtasks(plan)
    else if !SubtaskPlans.NeedSplit(r.split) then Ok([Subtask(1, JStr(task), Registry[0], None)])
    else
      match SubtaskPlans.JsonPlanOf(r.textPlan, Registry)
      case Err(e) => Err(e)
      case Ok(plan) => Ok(TextSubtasks(plan))
  }

  /** The PDF branch's nested loop. */
  method BuildPdfSubtasks(plan: SubtaskPlans.JsonPlan) returns (r: Result<seq<Subtask>, PyError>)
    ensures r == PdfSubtasks(plan)
  {
    var subtasks: seq<Subtask> := [];
    var i := 0;
    while i < |plan|
      invariant 0 <= i <= |plan|
      invariant PdfSubtasks(plan[..i]) == Ok(subtasks)
    {
      var next := AddAgentTasks(subtasks, plan[i]);
      PdfSubtasksPrefix(plan, i);
      if next.Err? {
        PdfSubtasksStops(plan, i, next.error);
        return next;
      }
      subtasks := next.value;
      i := i + 1;
    }
    assert plan[..|plan|] == plan;
    r := Ok(subtasks);
  }

  /** One pass of the outer loop: the agent's ranges, then its subtasks. */
  method AddAgentTasks(before: seq<Subtask>, entry: (string, seq<Json>)) returns (r: Result<seq<Subtask>, PyError>)
    ensures r == AddAgent(Ok(before), entry)
  {
    var (agent, ids) := entry;
    var ranges := PageRanges.PageRanges(ids);
    if ranges.Err? {
      return Err(ranges.error);
    }
    var subtasks := AddRangeTasks(before, agent, ranges.value);
    r := Ok(subtasks);
  }

  /** `for p1, p2 in _page_ranges(ids): subtasks.append(...)` */
  method AddRangeTasks(before: seq<Subtask>, agent: string, ranges: seq<(string, string)>) returns (subtasks: seq<Subtask>)
    ensures subtasks == before + RangeTasks(agent, ranges, |before| + 1)
  {
    subtasks := before;
    RangeTasksAt(agent, ranges, |before| + 1);
    var j := 0;
    while j < |ranges|
      invariant 0 <= j <= |ranges|
      invariant subtasks == before + RangeTasks(agent, ranges, |before| + 1)[..j]
    {
      subtasks := subtasks + [Subtask(|subtasks| + 1, JStr(Describe(ranges[j])), agent, Some(ranges[j]))];
      j := j + 1;
    }
    assert RangeTasks(agent, ranges, |before| + 1)[..j] == RangeTasks(agent, ranges, |before| + 1);
  }

  /** An agent whose ranges raise ends the plan with that exception. */
  lemma PdfSubtasksStops(plan: SubtaskPlans.JsonPlan, i: nat, e: PyError)
    requires i < |plan| && PdfSubtasks(plan[..i + 1]) == Err(e)
    ensures PdfSubtasks(plan) == Err(e)
  {
    PdfSubtasksSticky(plan, i + 1);
  }

  /** The subtasks of the plan's first `i + 1` agents. */
  lemma PdfSubtasksPrefix(plan: SubtaskPlans.JsonPlan, i: nat)
    requires i < |plan|
    ensures PdfSubtasks(plan[..i + 1]) == AddAgent(PdfSubtasks(plan[..i]), plan[i])
  {
    assert plan[..i + 1][..i] == plan[..i];
  }

  /** Once an agent's ranges raise, the later agents change nothing. */
  lemma {:induction false} PdfSubtasksSticky(plan: SubtaskPlans.JsonPlan, n: nat)
    requires n <= |plan| && PdfSubtasks(plan[..n]).Err?
    ensures PdfSubtasks(plan) == PdfSubtasks(plan[..n])
    decreases |plan|
  {
    if n < |plan| {
      var init := plan[..|plan| - 1];
      assert init[..n] == plan[..n];
      PdfSubtasksSticky(init, n);
    } else {
      assert plan[..n] == plan;
    }
  }

  /** `for s in lst: subtasks.append(...)` */
  method AddListTasks(before: seq<Subtask>, agent: string, pieces: seq<Json>) returns (subtasks: seq<Subtask>)
    ensures subtasks == before + ListTasks(agent, pieces, |before| + 1)
  {
    subtasks := before;
    var j := 0;
    while j < |pieces|
      invariant 0 <= j <= |pieces|
      invariant subtasks == before + ListTasks(agent, pieces, |before| + 1)[..j]
    {
      subtasks := subtasks + [Subtask(|subtasks| + 1, pieces[j], agent, None)];
      j := j + 1;
    }
    assert ListTasks(agent, pieces, |before| + 1)[..j] == ListTasks(agent, pieces, |before| + 1);
  }

  /** The text branch's nested loop. */
  method BuildTextSubtasks(plan: SubtaskPlans.JsonPlan) returns (subtasks: seq<Subtask>)
    ensures subtasks == TextSubtasks(plan)
  {
    subtasks := [];
    var i := 0;
    while i < |plan|
      invariant 0 <= i <= |plan|
      invariant TextSubtasks(plan[..i]) == subtasks
    {
      assert plan[..i + 1][..i] == plan[..i];
      var (agent, pieces) := plan[i];
      subtasks := AddListTasks(subtasks, agent, pieces);
      i := i + 1;
    }
    assert plan[..|plan|] == plan;
  }

  // ------------------------------------------------------------ execution

  /** What building the prompt raises: `st["pages"]` on a subtask without
      pages, `page_dict[f"page_{i}"]` for a page the PDF does not have, or
      the `TypeError` of concatenating a description that is not a string. */
  function PromptError(st: Subtask, pdf: Option<nat>): Option<PyError>
  {
    if pdf.Some? then
      if st.pages.None? then Some(KeyError)
      else
        match (PageRanges.PageNumber(JStr(st.pages.value.0)), PageRanges.PageNumber(JStr(st.pages.value.1)))
        case (Err(e), _) => Some(e)
        case (_, Err(e)) => Some(e)
        case (Ok(s), Ok(e)) => if s <= e && (s < 1 || e > pdf.value) then Some(KeyError) else None
    else if st.description.JStr? then None
    else Some(TypeError)
  }

  /** The prompt check of a dispatch with or without a PDF. */
  function Prompt(pdf: Option<nat>): Subtask -> Option<PyError>
  {
    st => PromptError(st, pdf)
  }

  /** The events of one subtask: start, action start, then the call's
      status and result and the end, or the exception the prompt raises. */
  function Execution(st: Subtask, check: Subtask -> Option<PyError>, o: AgentOutcome): (seq<Event>, Option<PyError>)
  {
    var head := [SubtaskStart(st), ActionStart(st.index, st.agent, st.description)];
    match check(st)
    case Some(e) => (head, Some(e))
    case None =>
      var call := CallAgent(o);
      (head + [ActionEnd(st.index, st.agent, call.0, call.1), SubtaskEnd(st.index)], None)
  }

  /** The events of the subtasks so far; call `k` answers subtask `k`. */
  function Executed(subs: seq<Subtask>, check: Subtask -> Option<PyError>, outcome: nat -> AgentOutcome): (seq<Event>, Option<PyError>)
  {
    if subs == [] then ([], None)
    else
      var before := Executed(subs[..|subs| - 1], check, outcome);
      if before.1.Some? then before
      else
        var last := Execution(subs[|subs| - 1], check, outcome(|subs| - 1));
        (before.0 + last.0, last.1)
  }

  /** `{"index": s["index"], "description": s["description"]}` for each subtask. */
  function Listing(subs: seq<Subtask>): (items: seq<(nat, Json)>)
    ensures |items| == |subs|
  {
    seq(|subs|, k requires 0 <= k < |subs| => (subs[k].index, subs[k].description))
  }

  /** What PyMuPDF raises on bytes it cannot open. */
  const ReadError := PyError("FileDataError")

  /** The page count of a document that was read; `None` without one. */
  function PageCount(file: Upload): (pdf: Option<nat>)
    ensures pdf.Some? <==> file.Readable?
    ensures pdf.Some? ==> pdf.value == |file.pages|
  {
    if file.Readable? then Some(|file.pages|) else None
  }

  /** What `dispatch` pushes, and the exception it raises, if any: reading
      the file comes after the first `chat_text`. */
  function DispatchSpec(task: string, file: Upload, r: Replies, outcome: nat -> AgentOutcome)
    : (seq<Event>, Option<PyError>)
  {
    if ReadFails(file, true) then ([ChatText(Received)], Some(ReadError))
    else
    var pdf := PageCount(file);
    match Planned(task, pdf, r)
    case Err(e) => ([ChatText(Received)], Some(e))
    case Ok(subs) =>
      var run := Executed(subs, Prompt(pdf), outcome);
      var pushed := [ChatText(Received), SubtaskList(Listing(subs))] + run.0;
      if run.1.Some? then (pushed, run.1) else (pushed + [ChatFile(Done)], None)
  }

  /** The execution loop. */
  method RunSubtasks(subs: seq<Subtask>, pdf: Option<nat>, outcome: nat -> AgentOutcome)
    returns (events: seq<Event>, error: Option<PyError>)
    ensures (events, error) == Executed(subs, Prompt(pdf), outcome)
  {
    events, error := [], None;
    var i := 0;
    while i < |subs|
      invariant 0 <= i <= |subs|
      invariant Executed(subs[..i], Prompt(pdf), outcome) == (events, None)
    {
      ExecutedNext(subs, Prompt(pdf), outcome, i, events);
      var more, failed := RunSubtask(subs[i], pdf, outcome(i));
      events := events + more;
      if failed.Some? {
        error := failed;
        ExecutedSticky(subs, Prompt(pdf), outcome, i + 1);
        return;
      }
      i := i + 1;
    }
    assert subs[..|subs|] == subs;
  }

  /** One pass of the execution loop: the subtask's events, and the
      exception its prompt raises, if any. */
  method RunSubtask(st: Subtask, pdf: Option<nat>, o: AgentOutcome) returns (more: seq<Event>, failed: Option<PyError>)
    ensures (more, failed) == Execution(st, Prompt(pdf), o)
  {
    more := [SubtaskStart(st), ActionStart(st.index, st.agent, st.description)];
    failed := PromptError(st, pdf);
    if failed.Some? {
      return;
    }
    var (status, result) := CallAgent(o);
    more := more + [ActionEnd(st.index, st.agent, status, result), SubtaskEnd(st.index)];
  }

  /** The events after one more subtask, when none before it raised. */
  lemma ExecutedNext(subs: seq<Subtask>, check: Subtask -> Option<PyError>, outcome: nat -> AgentOutcome,
                     i: nat, events: seq<Event>)
    requires i < |subs| && Executed(subs[..i], check, outcome) == (events, None)
    ensures Executed(subs[..i + 1], check, outcome) ==
      (events + Execution(subs[i], check, outcome(i)).0, Execution(subs[i], check, outcome(i)).1)
  {
    assert subs[..i + 1][..i] == subs[..i];
  }

  /** Once a subtask raises, the later ones push nothing. */
  lemma {:induction false} ExecutedSticky(subs: seq<Subtask>, check: Subtask -> Option<PyError>, outcome: nat -> AgentOutcome, n: nat)
    requires n <= |subs| && Executed(subs[..n], check, outcome).1.Some?
    ensures Executed(subs, check, outcome) == Executed(subs[..n], check, outcome)
    decreases |subs|
  {
    if n < |subs| {
      var init := subs[..|subs| - 1];
      assert init[..n] == subs[..n];
      ExecutedSticky(init, check, outcome, n);
    } else {
      assert subs[..n] == subs;
    }
  }

  /** `dispatch`; the callback's payloads are returned as `events`. */
  method Dispatch(task: string, file: Upload, r: Replies, outcome: nat -> AgentOutcome)
    returns (events: seq<Event>, error: Option<PyError>)
    ensures (events, error) == DispatchSpec(task, file, r, outcome)
  {
    events := [ChatText(Received)];
    if ReadFails(file, true) {
      return events, Some(ReadError);
    }
    var pdf := PageCount(file);
    var subtasks: seq<Subtask>;
    if pdf.Some? {
      var plan := SubtaskPlans.JsonPlanOf(r.pdfPlan, Registry);
      if plan.Err? {
        return events, Some(plan.error);
      }
      if plan.value == [] {
        plan := Ok(HalfSplit(pdf.value));
      }
      assert PdfPlan(pdf.value, r.pdfPlan) == plan;
      var built := BuildPdfSubtasks(plan.value);
      if built.Err? {
        return events, Some(built.error);
      }
      subtasks := built.value;
    } else if !SubtaskPlans.NeedSplit(r.split) {
      subtasks := [Subtask(1, JStr(task), Registry[0], None)];
    } else {
      var plan := SubtaskPlans.JsonPlanOf(r.textPlan, Registry);
      if plan.Err? {
        return events, Some(plan.error);
      }
      subtasks := BuildTextSubtasks(plan.value);
    }
    assert Planned(task, pdf, r) == Ok(subtasks);
    events := events + [SubtaskList(Listing(subtasks))];
    var more;
    more, error := RunSubtasks(subtasks, pdf, outcome);
    events := events + more;
    assert events == [ChatText(Received), SubtaskList(Listing(subtasks))] + more;
    if error.None? {
      events := events + [ChatFile(Done)];
    }
  }

  // ------------------------------------------------------------ properties

  /** Subtasks are numbered `1, 2, ...` in list order. */
  predicate Numbered(subs: seq<Subtask>)
  {
    forall k :: 0 <= k < |subs| ==> subs[k].index == k + 1
  }

  /** Both planners number their subtasks consecutively from 1, and give
      each to an agent of the plan. */
  lemma {:induction false} PdfSubtasksNumbered(plan: SubtaskPlans.JsonPlan)
    requires PdfSubtasks(plan).Ok?
    ensures Numbered(PdfSubtasks(plan).value)
    ensures forall k :: 0 <= k < |PdfSubtasks(plan).value| ==>
      PdfSubtasks(plan).value[k].agent in PyDict.Keys(plan) && PdfSubtasks(plan).value[k].pages.Some?
  {
    if plan != [] {
      var init := plan[..|plan| - 1];
      var last := plan[|plan| - 1];
      PdfSubtasksLast(plan);
      var prev := PdfSubtasks(init).value;
      var ranges := PageRanges.PageRangesOf(last.1).value;
      PdfSubtasksNumbered(init);
      AppendRangeTasks(prev, plan, ranges);
      assert PdfSubtasks(plan).value == prev + RangeTasks(last.0, ranges, |prev| + 1);
    }
  }

  /** One more agent's range subtasks keep the numbering and the agents. */
  lemma AppendRangeTasks(prev: seq<Subtask>, plan: SubtaskPlans.JsonPlan, ranges: seq<(string, string)>)
    requires plan != [] && Numbered(prev)
    requires forall k :: 0 <= k < |prev| ==> prev[k].agent in PyDict.Keys(plan[..|plan| - 1]) && prev[k].pages.Some?
    ensures var all := prev + RangeTasks(plan[|plan| - 1].0, ranges, |prev| + 1);
      && Numbered(all)
      && forall k :: 0 <= k < |all| ==> all[k].agent in PyDict.Keys(plan) && all[k].pages.Some?
  {
    var init := plan[..|plan| - 1];
    var last := plan[|plan| - 1];
    var more := RangeTasks(last.0, ranges, |prev| + 1);
    var all := prev + more;
    RangeTasksAt(last.0, ranges, |prev| + 1);
    assert forall a :: a in PyDict.Keys(init) ==> a in PyDict.Keys(plan) by {
      assert forall i :: 0 <= i < |init| ==> init[i] == plan[i];
    }
    assert last.0 == PyDict.Keys(plan)[|plan| - 1];
    forall k | 0 <= k < |all|
      ensures all[k].index == k + 1 && all[k].agent in PyDict.Keys(plan) && all[k].pages.Some?
    {
      if k < |prev| {
        assert all[k] == prev[k];
      } else {
        assert all[k] == more[k - |prev|];
      }
    }
  }

  /** `PdfSubtasks` of a plan that does not raise: its last agent's range
      subtasks after those of the agents before it. */
  lemma PdfSubtasksLast(plan: SubtaskPlans.JsonPlan)
    requires plan != [] && PdfSubtasks(plan).Ok?
    ensures PdfSubtasks(plan[..|plan| - 1]).Ok?
    ensures PageRanges.PageRangesOf(plan[|plan| - 1].1).Ok?
    ensures PdfSubtasks(plan).value == PdfSubtasks(plan[..|plan| - 1]).value
      + RangeTasks(plan[|plan| - 1].0, PageRanges.PageRangesOf(plan[|plan| - 1].1).value,
                   |PdfSubtasks(plan[..|plan| - 1]).value| + 1)
  {
    AddAgentOk(PdfSubtasks(plan[..|plan| - 1]), plan[|plan| - 1]);
  }

  /** An agent added without raising: the subtasks so far, then its ranges'. */
  lemma AddAgentOk(prev: Result<seq<Subtask>, PyError>, entry: (string, seq<Json>))
    requires AddAgent(prev, entry).Ok?
    ensures prev.Ok? && PageRanges.PageRangesOf(entry.1).Ok?
    ensures AddAgent(prev, entry).value ==
      prev.value + RangeTasks(entry.0, PageRanges.PageRangesOf(entry.1).value, |prev.value| + 1)
  {
  }

  /** How many pieces the plan's lists hold. */
  function PieceCount(plan: SubtaskPlans.JsonPlan): nat
  {
    if plan == [] then 0 else PieceCount(plan[..|plan| - 1]) + |plan[|plan| - 1].1|
  }

  lemma {:induction false} TextSubtasksNumbered(plan: SubtaskPlans.JsonPlan)
    ensures |TextSubtasks(plan)| == PieceCount(plan)
    ensures Numbered(TextSubtasks(plan))
    ensures forall k :: 0 <= k < |TextSubtasks(plan)| ==> TextSubtasks(plan)[k].agent in PyDict.Keys(plan)
  {
    if plan != [] {
      var init := plan[..|plan| - 1];
      TextSubtasksNumbered(init);
      assert forall a :: a in PyDict.Keys(init) ==> a in PyDict.Keys(plan) by {
        assert forall i :: 0 <= i < |init| ==> init[i] == plan[i];
      }
      assert plan[|plan| - 1].0 == PyDict.Keys(plan)[|plan| - 1];
    }
  }

  /** The loop raises exactly when some subtask's prompt does, and stops at
      the first such subtask; without one it pushes four events per subtask,
      the third carrying the call's status and result. */
  lemma ExecutedSpec(subs: seq<Subtask>, check: Subtask -> Option<PyError>, outcome: nat -> AgentOutcome)
    ensures var (events, error) := Executed(subs, check, outcome);
      && (error.None? <==> forall k :: 0 <= k < |subs| ==> check(subs[k]).None?)
      && (error.None? ==> |events| == 4 * |subs| && forall k :: 0 <= k < |subs| ==> EndsWith(events, subs, k, outcome))
  {
    ExecutedOk(subs, check, outcome);
    if Executed(subs, check, outcome).1.None? {
      ExecutedEvents(subs, check, outcome);
    }
  }

  lemma {:induction false} ExecutedOk(subs: seq<Subtask>, check: Subtask -> Option<PyError>, outcome: nat -> AgentOutcome)
    ensures Executed(subs, check, outcome).1.None? <==> forall k :: 0 <= k < |subs| ==> check(subs[k]).None?
    ensures Executed(subs, check, outcome).1.Some? ==>
      exists k :: 0 <= k < |subs| && check(subs[k]) == Executed(subs, check, outcome).1
  {
    if subs != [] {
      var init := subs[..|subs| - 1];
      var last := |subs| - 1;
      ExecutedOk(init, check, outcome);
      var before := Executed(init, check, outcome);
      if before.1.None? && check(subs[last]).None? {
        forall k | 0 <= k < |subs| ensures check(subs[k]).None? {
          if k < last {
            assert subs[k] == init[k];
          }
        }
      }
      if before.1.Some? {
        var k :| 0 <= k < |init| && check(init[k]) == before.1;
        assert subs[k] == init[k];
      } else if check(subs[last]).Some? {
        assert check(subs[last]) == Executed(subs, check, outcome).1;
      }
    }
  }

  lemma {:induction false} ExecutedEvents(subs: seq<Subtask>, check: Subtask -> Option<PyError>, outcome: nat -> AgentOutcome)
    requires Executed(subs, check, outcome).1.None?
    ensures var events := Executed(subs, check, outcome).0;
      |events| == 4 * |subs| && forall k :: 0 <= k < |subs| ==> EndsWith(events, subs, k, outcome)
  {
    if subs != [] {
      var init := subs[..|subs| - 1];
      var last := |subs| - 1;
      ExecutedEvents(init, check, outcome);
      var events := Executed(init, check, outcome).0;
      var more := Execution(subs[last], check, outcome(last)).0;
      assert Executed(subs, check, outcome).0 == events + more;
      forall k | 0 <= k < |subs|
        ensures EndsWith(events + more, subs, k, outcome)
      {
        if k < last {
          assert init[k] == subs[k];
          assert EndsWith(events, init, k, outcome);
        }
      }
    }
  }

  /** The action end pushed for subtask `k`. */
  predicate EndsWith(events: seq<Event>, subs: seq<Subtask>, k: nat, outcome: nat -> AgentOutcome)
    requires k < |subs|
  {
    4 * k + 2 < |events| &&
    events[4 * k + 2] == ActionEnd(subs[k].index, subs[k].agent, CallAgent(outcome(k)).0, CallAgent(outcome(k)).1)
  }

  /** A task that is not split is one subtask for `llama2_agent`, and
      `dispatch` always completes it: seven events, the call's in the middle. */
  lemma DirectTask(task: string, r: Replies, outcome: nat -> AgentOutcome)
    requires !SubtaskPlans.NeedSplit(r.split)
    ensures var st := Subtask(1, JStr(task), "llama2_agent", None);
      var call := CallAgent(outcome(0));
      DispatchSpec(task, NoFile, r, outcome) ==
        ([ChatText(Received), SubtaskList([(1, JStr(task))]), SubtaskStart(st), ActionStart(1, "llama2_agent", JStr(task)),
          ActionEnd(1, "llama2_agent", call.0, call.1), SubtaskEnd(1), ChatFile(Done)], None)
  {
    var st := Subtask(1, JStr(task), "llama2_agent", None);
    assert [st][..0] == [];
    assert Planned(task, None, r) == Ok([st]);
    assert Listing([st]) == [(1, JStr(task))];
    var call := CallAgent(outcome(0));
    assert Prompt(None)(st) == None;
    var events := [SubtaskStart(st), ActionStart(1, "llama2_agent", JStr(task)), ActionEnd(1, "llama2_agent", call.0, call.1), SubtaskEnd(1)];
    assert [SubtaskStart(st), ActionStart(1, "llama2_agent", JStr(task))]
      + [ActionEnd(1, "llama2_agent", call.0, call.1), SubtaskEnd(1)] == events;
    assert Execution(st, Prompt(None), outcome(0)) == (events, None);
    assert Executed([st], Prompt(None), outcome) == ([] + events, None);
    assert [ChatText(Received), SubtaskList([(1, JStr(task))])] + events + [ChatFile(Done)] ==
      [ChatText(Received), SubtaskList([(1, JStr(task))]), SubtaskStart(st), ActionStart(1, "llama2_agent", JStr(task)),
       ActionEnd(1, "llama2_agent", call.0, call.1), SubtaskEnd(1), ChatFile(Done)];
    assert DispatchSpec(task, NoFile, r, outcome).1 == None;
    assert DispatchSpec(task, NoFile, r, outcome).0 == [ChatText(Received), SubtaskList([(1, JStr(task))])] + events + [ChatFile(Done)];
  }

  /** Bytes PyMuPDF cannot open raise its error right after the first
      `chat_text`, before any plan is asked for. */
  lemma UnreadableFile(task: string, r: Replies, outcome: nat -> AgentOutcome)
    ensures DispatchSpec(task, Unreadable, r, outcome) == ([ChatText(Received)], Some(ReadError))
  {
  }

  /** With no usable PDF plan, a PDF of at most one page leaves an agent
      without pages, and `_page_ranges([])` raises `IndexError` before any
      subtask is listed. */
  lemma ShortPdfFallbackRaises(task: string, pages: seq<string>, n: nat, r: Replies, outcome: nat -> AgentOutcome)
    requires n == |pages| && n <= 1 && SubtaskPlans.JsonPlanOf(r.pdfPlan, Registry) == Ok([])
    ensures DispatchSpec(task, Readable(pages), r, outcome) == ([ChatText(Received)], Some(IndexError))
  {
    var plan := HalfSplit(n);
    assert plan[1].1 == [];
    assert PageRanges.PageRangesOf(plan[1].1) == Err(PageRanges.IndexError);
    assert plan[..1][..0] == [];
    if n == 0 {
      assert plan[0].1 == [];
      assert PdfSubtasks(plan[..1]) == Err(IndexError);
    } else {
      var x := JStr("page_" + IntToString(1));
      assert plan[0].1 == [x];
      PageRanges.LabelRoundTrip(1);
      assert [x][1..] == [];
      assert PageRanges.PageNumbers([x]) == Ok([1] + []);
      assert PdfSubtasks(plan[..1]).Ok?;
    }
    assert plan[..|plan| - 1] == plan[..1];
    assert PdfSubtasks(plan) == Err(IndexError);
  }

  /** The text branch raises only on a text plan that decodes to something
      other than an object, or in the loop on a piece that is not a string. */
  lemma TextDispatchErrors(task: string, r: Replies, outcome: nat -> AgentOutcome)
    requires SubtaskPlans.NeedSplit(r.split)
    ensures var (_, error) := DispatchSpec(task, NoFile, r, outcome);
      error.Some? <==>
        || (r.textPlan.Some? && !r.textPlan.value.JObj?)
        || (exists k :: 0 <= k < |TextSubtasks(SubtaskPlans.JsonPlanOf(r.textPlan, Registry).value)| &&
              !TextSubtasks(SubtaskPlans.JsonPlanOf(r.textPlan, Registry).value)[k].description.JStr?)
  {
    if SubtaskPlans.JsonPlanOf(r.textPlan, Registry).Ok? {
      var subs := TextSubtasks(SubtaskPlans.JsonPlanOf(r.textPlan, Registry).value);
      ExecutedOk(subs, Prompt(None), outcome);
      assert DispatchSpec(task, NoFile, r, outcome).1 == Executed(subs, Prompt(None), outcome).1;
      forall k | 0 <= k < |subs|
        ensures Prompt(None)(subs[k]).Some? <==> !subs[k].description.JStr?
      {
      }
    }
  }

  // ---------------------------------------- pages the PDF does not have

  /** A page number outside the document's `1..n`. */
  predicate OffPage(x: int, n: nat)
  {
    x < 1 || x > n
  }

  /** Some agent of the plan was given a page id whose number is off the
      document. */
  ghost predicate PlansOffPage(plan: SubtaskPlans.JsonPlan, n: nat)
  {
    exists j :: 0 <= j < |plan| && IdsOffPage(plan[j].1, n)
  }

  /** Some of the ids reads as a page number off the document. */
  ghost predicate IdsOffPage(ids: seq<Json>, n: nat)
  {
    PageRanges.PageNumbers(ids).Ok? && exists x :: x in PageRanges.PageNumbers(ids).value && OffPage(x, n)
  }

  /** A PDF dispatch whose planning succeeds raises exactly when some
      planned page is off the document, and it then raises `KeyError`. */
  lemma PdfKeyError(task: string, pages: seq<string>, n: nat, r: Replies, outcome: nat -> AgentOutcome)
    requires n == |pages| && Planned(task, Some(n), r).Ok?
    ensures var error := DispatchSpec(task, Readable(pages), r, outcome).1;
      && (error.Some? <==> PlansOffPage(PdfPlan(n, r.pdfPlan).value, n))
      && (error.Some? ==> error == Some(KeyError))
  {
    var plan := PdfPlan(n, r.pdfPlan).value;
    var subs := PdfSubtasks(plan).value;
    PdfSubtasksOff(plan, subs, n);
    ExecutedOk(subs, Prompt(Some(n)), outcome);
    assert forall k :: 0 <= k < |subs| ==> Prompt(Some(n))(subs[k]) == PromptError(subs[k], Some(n));
  }

  /** Some subtask's prompt fails. */
  ghost predicate AnyFails(subs: seq<Subtask>, n: nat)
  {
    exists k :: 0 <= k < |subs| && PromptError(subs[k], Some(n)).Some?
  }

  /** Every failing prompt raises `KeyError`. */
  ghost predicate OnlyKeyErrors(subs: seq<Subtask>, n: nat)
  {
    forall k :: 0 <= k < |subs| && PromptError(subs[k], Some(n)).Some? ==> PromptError(subs[k], Some(n)) == Some(KeyError)
  }

  lemma AnyFailsAppend(prev: seq<Subtask>, more: seq<Subtask>, n: nat)
    ensures AnyFails(prev + more, n) <==> AnyFails(prev, n) || AnyFails(more, n)
  {
    var subs := prev + more;
    if AnyFails(subs, n) {
      var k :| 0 <= k < |subs| && PromptError(subs[k], Some(n)).Some?;
      if k >= |prev| {
        assert subs[k] == more[k - |prev|];
      }
    }
    if AnyFails(prev, n) {
      var k :| 0 <= k < |prev| && PromptError(prev[k], Some(n)).Some?;
      assert subs[k] == prev[k];
    }
    if AnyFails(more, n) {
      var k :| 0 <= k < |more| && PromptError(more[k], Some(n)).Some?;
      assert subs[|prev| + k] == more[k];
    }
  }

  lemma OnlyKeyErrorsAppend(prev: seq<Subtask>, more: seq<Subtask>, n: nat)
    requires OnlyKeyErrors(prev, n) && OnlyKeyErrors(more, n)
    ensures OnlyKeyErrors(prev + more, n)
  {
    var subs := prev + more;
    forall k | 0 <= k < |subs| && PromptError(subs[k], Some(n)).Some?
      ensures PromptError(subs[k], Some(n)) == Some(KeyError)
    {
      if k >= |prev| {
        assert subs[k] == more[k - |prev|];
      }
    }
  }

  /** Over the whole plan: some subtask's prompt fails exactly when some
      planned page is off the document, and a failing prompt raises `KeyError`. */
  lemma {:induction false} PdfSubtasksOff(plan: SubtaskPlans.JsonPlan, subs: seq<Subtask>, n: nat)
    requires PdfSubtasks(plan) == Ok(subs)
    ensures AnyFails(subs, n) <==> PlansOffPage(plan, n)
    ensures OnlyKeyErrors(subs, n)
  {
    if plan != [] {
      var init := plan[..|plan| - 1];
      var prev, ranges := PdfSubtasksSplit(plan, subs, init, plan[|plan| - 1]);
      PdfSubtasksOff(init, prev, n);
      LastAgentOff(prev, plan, ranges, subs, n);
    }
  }

  /** The subtasks of a plan that builds: those of the agents before the last,
      then the last agent's ranges. */
  lemma PdfSubtasksSplit(plan: SubtaskPlans.JsonPlan, subs: seq<Subtask>, init: SubtaskPlans.JsonPlan,
                         last: (string, seq<Json>))
    returns (prev: seq<Subtask>, ranges: seq<(string, string)>)
    requires plan != [] && PdfSubtasks(plan) == Ok(subs)
    requires init == plan[..|plan| - 1] && last == plan[|plan| - 1]
    ensures PdfSubtasks(init) == Ok(prev) && PageRanges.PageRangesOf(last.1) == Ok(ranges)
    ensures subs == prev + RangeTasks(last.0, ranges, |prev| + 1)
  {
    PdfSubtasksLast(plan);
    prev := PdfSubtasks(init).value;
    ranges := PageRanges.PageRangesOf(last.1).value;
  }

  lemma LastAgentOff(prev: seq<Subtask>, plan: SubtaskPlans.JsonPlan, ranges: seq<(string, string)>,
                     all: seq<Subtask>, n: nat)
    requires plan != [] && PageRanges.PageRangesOf(plan[|plan| - 1].1) == Ok(ranges)
    requires all == prev + RangeTasks(plan[|plan| - 1].0, ranges, |prev| + 1)
    requires AnyFails(prev, n) <==> PlansOffPage(plan[..|plan| - 1], n)
    requires OnlyKeyErrors(prev, n)
    ensures AnyFails(all, n) <==> PlansOffPage(plan, n)
    ensures OnlyKeyErrors(all, n)
  {
    var last := plan[|plan| - 1];
    RangeTasksOff(last.0, last.1, |prev| + 1, n);
    JoinOff(prev, RangeTasks(last.0, ranges, |prev| + 1), plan, n);
  }

  /** The step of `PdfSubtasksOff`: the agents before the last and the last
      agent's subtasks together. */
  lemma JoinOff(prev: seq<Subtask>, more: seq<Subtask>, plan: SubtaskPlans.JsonPlan, n: nat)
    requires plan != [] && PageRanges.PageNumbers(plan[|plan| - 1].1).Ok?
    requires AnyFails(prev, n) <==> PlansOffPage(plan[..|plan| - 1], n)
    requires AnyFails(more, n) <==>
      exists x :: x in PageRanges.PageNumbers(plan[|plan| - 1].1).value && OffPage(x, n)
    requires OnlyKeyErrors(prev, n) && OnlyKeyErrors(more, n)
    ensures AnyFails(prev + more, n) <==> PlansOffPage(plan, n)
    ensures OnlyKeyErrors(prev + more, n)
  {
    AnyFailsAppend(prev, more, n);
    OnlyKeyErrorsAppend(prev, more, n);
    PlansOffPageLast(plan, n);
  }

  /** The last agent's pages join those of the agents before it. */
  lemma PlansOffPageLast(plan: SubtaskPlans.JsonPlan, n: nat)
    requires plan != [] && PageRanges.PageNumbers(plan[|plan| - 1].1).Ok?
    ensures PlansOffPage(plan, n) <==>
      (PlansOffPage(plan[..|plan| - 1], n) || IdsOffPage(plan[|plan| - 1].1, n))
  {
    var p := (entry: (string, seq<Json>)) => IdsOffPage(entry.1, n);
    var init := plan[..|plan| - 1];
    SomeLast(plan, init, p);
    assert PlansOffPage(plan, n) <==> exists j :: 0 <= j < |plan| && p(plan[j]);
    assert PlansOffPage(init, n) <==> exists j :: 0 <= j < |init| && p(init[j]);
  }

  /** For one agent: some of its range subtasks fails exactly when one of
      its page numbers is off the document, and the failure is `KeyError`. */
  lemma RangeTasksOff(agent: string, ids: seq<Json>, start: nat, n: nat)
    requires PageRanges.PageRangesOf(ids).Ok?
    ensures var tasks := RangeTasks(agent, PageRanges.PageRangesOf(ids).value, start);
      && (AnyFails(tasks, n) <==> exists x :: x in PageRanges.PageNumbers(ids).value && OffPage(x, n))
      && OnlyKeyErrors(tasks, n)
  {
    var nums := PageRanges.PageNumbers(ids).value;
    var sorted := PageRanges.Sort(nums);
    PageRanges.SortSpec(nums);
    var runs := PageRanges.Runs(sorted);
    PageRanges.RunsSpec(sorted);
    assert PageRanges.PageRangesOf(ids).value == PageRanges.Labels(runs);
    RunTasksOff(agent, runs, start, n);
    ExpandOff(runs, n);
    ExpandedNumbers(PageRanges.Expand(runs), nums, n);
  }

  /** The subtasks of labelled runs fail exactly where a run leaves `1..n`. */
  lemma RunTasksOff(agent: string, runs: seq<(int, int)>, start: nat, n: nat)
    requires forall k :: 0 <= k < |runs| ==> runs[k].0 <= runs[k].1
    ensures var tasks := RangeTasks(agent, PageRanges.Labels(runs), start);
      && (AnyFails(tasks, n) <==> exists k :: 0 <= k < |runs| && RunOff(runs[k], n))
      && OnlyKeyErrors(tasks, n)
  {
    var tasks := RangeTasks(agent, PageRanges.Labels(runs), start);
    RangeTasksAt(agent, PageRanges.Labels(runs), start);
    if AnyFails(tasks, n) {
      var k :| 0 <= k < |tasks| && PromptError(tasks[k], Some(n)).Some?;
      LabelledRange(tasks[k], runs[k], n);
    }
    if exists k :: 0 <= k < |runs| && RunOff(runs[k], n) {
      var k :| 0 <= k < |runs| && RunOff(runs[k], n);
      LabelledRange(tasks[k], runs[k], n);
    }
    forall k | 0 <= k < |tasks| && PromptError(tasks[k], Some(n)).Some?
      ensures PromptError(tasks[k], Some(n)) == Some(KeyError)
    {
      LabelledRange(tasks[k], runs[k], n);
    }
  }

  /** Two lists with the same elements have an off-page number together. */
  lemma ExpandedNumbers(xs: seq<int>, ys: seq<int>, n: nat)
    requires multiset(xs) == multiset(ys)
    ensures (exists x :: x in xs && OffPage(x, n)) <==> (exists y :: y in ys && OffPage(y, n))
  {
    assert forall x :: x in xs <==> x in multiset(ys);
  }

  /** A run that leaves `1..n`. */
  predicate RunOff(run: (int, int), n: nat)
  {
    OffPage(run.0, n) || OffPage(run.1, n)
  }

  /** A subtask labelled with the run `(a, b)` reads its numbers back, so its
      prompt fails exactly when the run leaves `1..n`. */
  lemma LabelledRange(st: Subtask, run: (int, int), n: nat)
    requires run.0 <= run.1 && st.pages == Some(PageRanges.Label(run))
    ensures PromptError(st, Some(n)).Some? <==> RunOff(run, n)
    ensures PromptError(st, Some(n)).Some? ==> PromptError(st, Some(n)) == Some(KeyError)
  {
    PageRanges.LabelRoundTrip(run.0);
    PageRanges.LabelRoundTrip(run.1);
  }

  /** Some run leaves `1..n` exactly when some number it expands to does. */
  lemma {:induction false} ExpandOff(runs: seq<(int, int)>, n: nat)
    requires forall k :: 0 <= k < |runs| ==> runs[k].0 <= runs[k].1
    ensures (exists k :: 0 <= k < |runs| && RunOff(runs[k], n)) <==>
      exists x :: x in PageRanges.Expand(runs) && OffPage(x, n)
  {
    if runs != [] {
      ExpandOff(runs[1..], n);
      var (a, b) := runs[0];
      IntervalMembers(a, b);
      assert a in PageRanges.Interval(a, b) && b in PageRanges.Interval(a, b);
      assert forall k :: 1 <= k < |runs| ==> runs[k] == runs[1..][k - 1];
      if exists x :: x in PageRanges.Expand(runs) && OffPage(x, n) {
        var x :| x in PageRanges.Expand(runs) && OffPage(x, n);
        if x !in PageRanges.Interval(a, b) {
          var k :| 0 <= k < |runs[1..]| && RunOff(runs[1..][k], n);
          assert runs[k + 1] == runs[1..][k];
        }
      }
    }
  }

  /** The numbers of a run are `a..b`. */
  lemma {:induction false} IntervalMembers(a: int, b: int)
    ensures forall x :: x in PageRanges.Interval(a, b) <==> a <= x <= b
    decreases b - a
  {
    if a <= b {
      IntervalMembers(a + 1, b);
    }
  }
}

# Multi-agent scheduler core

A model, in Dafny, of the deterministic core of a multi-agent scheduler. The
scheduler takes a user's task (text, or a PDF), asks a planning model which of
its registered agents should handle which units of work (pages, text groups,
chunks, subtasks), calls each agent over HTTP, merges the agents' results into
a per-context `MemoryStore`, appends one record per call to a trace, and ends
with a summary. The repository keeps fifteen variants of this scheduler side
by side; each is modelled here on its own, over shared pieces.

What the model takes as given inputs rather than computing:

- the planning model's replies (plans, yes/no answers, summaries) are strings;
- each agent call's outcome is `outcome(i)` for the `i`-th call: a status code
  with a decoded JSON body, or the message of the exception the call raised;
- the file handed to `dispatch` is no bytes, bytes the PDF library cannot
  open (reading them raises the library's exception), or the sequence of its
  extracted page texts; the three earliest variants keep `None` for a missing
  or unreadable PDF. There a PDF task reads the PDF in `plan()`, so `None`
  raises `PdfReadError` before any call or trace entry, and a text task reads
  the PDF again at each range, where `None` raises `PdfReadError`.

Everything else follows the source: the same branches, error conditions,
constants, and Python semantics of the built-ins used (dict insertion order,
`dict.update`, `str.split`, `strip`, `splitlines`, slicing, `int`, `or` on
falsy values, and exceptions escaping `dispatch`).

Layout, one module per file:

- `wrappers.dfy`, `text.dfy`, `pydict.dfy`, `json.dfy`: `Option`/`Result`,
  Python exceptions by class name, string built-ins, insertion-ordered dicts,
  and decoded JSON values.
- `memory.dfy` (`Memory`): `MemoryStore` from mcp/memory.py, a class whose
  `store` maps each context to a mutable dict object.
- `plan_parser.dfy`, `parser_examples.dfy` (`PlanParser`, `ParserExamples`):
  the `agent: id1,id2,m-n` line grammar shared by most variants, with its
  per-variant default prefix and empty-token rule.
- `subtask_plans.dfy`, `allocation.dfy`, `page_ranges.dfy`, `chunker.dfy`:
  the other plan formats, the round-robin and half-split fallbacks,
  `_page_ranges`, and the 1200-character line chunker `_split_text`.
- `engine.dfy` (`Dispatch`): the loop over the planned (agent, unit) pairs as
  a fold of one step function, with the `[❌ 调用失败]` marker and the
  exception that ends a run; `conclusion.dfy` (`Conclusion`) the closing
  summary; `progress.dfy` (`ProgressSteps`) the loop body with progress events
  shared by llm_scheduler_v8.py and best_latest_4.py; `overwriting.dfy`
  (`Overwriting`) the loop body shared by the eight variants that normalise
  the reply to `memory_update`; `range_plans.dfy` (`RangePlans`) the
  `agent: start-end` plans of the three earliest variants.
- `scheduler_*.dfy`, `llm_scheduler.dfy`: one module per variant, each with a
  `Scheduler` class (the memory store and `self.trace`) whose `Dispatch`
  method is proved to compute a specification function `DispatchSpec` of the
  store and trace before it, and lemmas stating what that function promises.

## Model

| member | source | states |
|---|---|---|
| Memory.MemoryStore.constructor | mcp/memory.py:2-3 | a new store holds no context |
| Memory.MutableDict.constructor | mcp/memory.py:11-12 | a context created on first update starts as an empty dict |
| PyDict.UpdateSpec | mcp/memory.py:13 | after `dict.update` a key of the argument has the argument's value, every other key keeps its value, the keys are those of both, and keys stay unique |
| PyDict.UpdateIdempotent | mcp/memory.py:13 | updating twice with the same dict is updating once |
| PyDict.UpdateConcat | mcp/memory.py:13 | updating with the pairs of `a` then `b` is updating with `a` and then with `b` |
| PyDict.UpdateWithHeld | mcp/memory.py:13 | updating with pairs the dict already holds changes nothing |
| PyDict.UpdateUnique | mcp/memory.py:13 | `dict.update` of an empty dict with pairs whose keys are distinct gives exactly those pairs, in order |
| PyDict.SetSpec | scheduler/llm_scheduler_best_4.py:142 | `d[k] = v` makes `k` map to `v`, keeps every other key's value, appends `k` to the keys only when it is new, and keeps keys unique |
| PyDict.LookupAgreesWithGet | mcp/memory.py:21 | a key is found exactly when the dict holds it, and then `get` with any default returns its value |
| JsonData.TypeNameSpec | scheduler/llm_scheduler_v5.py:132-133 | the type name in an `AttributeError` message is `dict`, `str` or `list` exactly for a JSON object, string or array |
| Text.SplitJoin | scheduler/llm_scheduler_v5.py:93 | joining the fields of `str.split(sep)` with `sep` gives the text back, and no field holds `sep` |
| Text.SplitCount | scheduler/llm_scheduler_v5.py:97 | a text splits into one more field than it has separators |
| Text.DigitsAppend | scheduler/llm_scheduler_v5.py:99 | the digits kept from `a + b` are those kept from `a` followed by those kept from `b` |
| Text.AlphasAppend | scheduler/llm_scheduler_v5.py:98 | the letters kept from `a + b` are those kept from `a` followed by those kept from `b` |
| Text.ParseNatToString | scheduler/llm_scheduler_v5.py:99-101 | reading back the decimal text of `n` gives `n` |
| Text.NatToStringInjective | scheduler/llm_scheduler_v5.py:101 | two numbers have the same decimal text exactly when they are equal |
| Text.PyIntOfNat | scheduler/llm_scheduler_v2.py:94 | `int` reads the decimal text of `n` as `n` |
| Text.PyIntOfNegative | scheduler/llm_scheduler_v2.py:94 | a negative `i` prints as `-` followed by the decimal text of `-i`, and `int` reads that back as `i` |
| Text.PyIntOfIntToString | scheduler/llm_scheduler_v2.py:94 | `int(str(i)) == i` for every integer |
| Text.PyIntOfMinus | scheduler/llm_scheduler_v2.py:94 | `int` of `-` before the digits of a literal is the value of those digits, underscores dropped, negated |
| Text.PyIntUnderscore | scheduler/llm_scheduler_v2.py:94 | `int` accepts one `_` between two groups of digits and reads them as the digits joined (`int("1_0") == 10`) |
| Text.StripNoSpace | scheduler/llm_scheduler_v5.py:145 | `strip` leaves alone a text that neither starts nor ends with white space |
| Text.RemoveAllIdentity | scheduler/llm_scheduler_best_2.py:112 | `replace(pat, "")` leaves a text unchanged exactly when `pat` does not occur in it |
| Text.RemoveAllShorter | scheduler/llm_scheduler_best_2.py:112 | `replace(pat, "")` never lengthens a text |
| Memory.EntryOf | mcp/memory.py:21 | an unknown context reads as the empty dict; a known one reads its stored dict |
| Memory.Merged | mcp/memory.py:11-13 | after `update` the context is present, the set of contexts grows by at most that one, and every other context keeps its dict |
| Memory.MergedSpec | mcp/memory.py:11-13 | after `update(ctx, d)` each key of `d` reads `d`'s value, every other key of that context keeps its value (one-level merge), the context's keys are the old ones plus `d`'s, and other contexts are unchanged |
| Memory.MergedEmptyCreates | mcp/memory.py:11-12 | `update(ctx, {})` on an unknown context makes it present with an empty dict |
| Memory.MergedIdempotent | mcp/memory.py:13 | repeating the same update changes nothing |
| Memory.LastWriteWins | mcp/memory.py:13 | a key written by two successive updates holds the later value |
| Memory.MemoryStore.Update | mcp/memory.py:5-13 | the store's contents become `Merged(old contents, ctx, d)`; existing dict objects stay in place, a new context gets a fresh dict, no two contexts share a dict |
| Memory.MemoryStore.Get | mcp/memory.py:15-21 | returns the stored dict object itself (not a copy) for a known context, else a fresh empty dict that is not stored |
| PlanParser.ExpandRange | scheduler/llm_scheduler_v8.py:136 | `range(s, e + 1)` yields e−s+1 ids (none when e < s), the k-th being the prefix followed by the decimal digits of s+k |
| PlanParser.ExpandRangeDistinct | scheduler/llm_scheduler_v8.py:136 | one range never yields the same id twice |
| PlanParser.TokenErrorIff | scheduler/llm_scheduler_v8.py:131-134 | a token raises `ValueError` exactly when it contains `-` and either holds two or more `-` or one of its bounds has no digit |
| PlanParser.TokenRange | scheduler/llm_scheduler_v8.py:131-136 | a well-formed range token expands from the digits of its start to the digits of its end, with the start's letters (or the default prefix) as prefix |
| PlanParser.LineTarget | scheduler/llm_scheduler_v8.py:121-126 | a line that targets an agent names a registry position |
| PlanParser.LineTargetOf | scheduler/llm_scheduler_v8.py:121-126 | a line `head:rest` whose head has no `:` and strips to a registry agent targets that agent with everything after the first `:` |
| PlanParser.EmptyLists | scheduler/llm_scheduler_v8.py:119 | the starting plan holds one empty list per registry agent |
| PlanParser.Accumulate | scheduler/llm_scheduler_v8.py:120-138 | when no token raises, the line loop keeps exactly one list per registry agent |
| PlanParser.AddLine | scheduler/llm_scheduler_v8.py:121-138 | one line keeps one list per registry agent |
| PlanParser.Parse | scheduler/llm_scheduler_v8.py:118-139 | the parser's nested loops compute `ParsePlan`: the plan, or the `ValueError` of the first malformed token |
| PlanParser.ParseLine | scheduler/llm_scheduler_v8.py:121-138 | one pass of the line loop is `AddLine` |
| PlanParser.LineIds | scheduler/llm_scheduler_v8.py:127-138 | the token loop of a line (spaces removed, split on `,`) yields the concatenated ids of its tokens, or the first token's error |
| PlanParser.AddToken | scheduler/llm_scheduler_v8.py:129-138 | one token pass: empty tokens skipped when the variant skips them, ranges expanded, bare tokens appended verbatim |
| PlanParser.TokensIdsStep | scheduler/llm_scheduler_v8.py:128-138 | processing tokens one by one agrees with the definition over the whole line |
| PlanParser.TokensErrSticky | scheduler/llm_scheduler_v8.py:132-134 | once a token raises, the later tokens of the line do not change the outcome (the exception propagates) |
| PlanParser.AccumulateErrSticky | scheduler/llm_scheduler_v8.py:120-134 | once a line raises, later lines do not change the outcome |
| PlanParser.AccumulateIsPerAgent | scheduler/llm_scheduler_v8.py:119-138 | each agent's list is the concatenation, in line order, of the ids of every line naming that agent; duplicates are kept |
| PlanParser.ParsePlanShape | scheduler/llm_scheduler_v8.py:119-139 | every key is a registry agent with a non-empty list, keys come in registry order, and an agent is a key exactly when its lines yield ids, which are its list |
| PlanParser.NonEmptyShape | scheduler/llm_scheduler_v8.py:139 | the final comprehension keeps registry order and keeps an agent exactly when its list is non-empty |
| PlanParser.NonEmptyOrder | scheduler/llm_scheduler_v8.py:139 | the kept agents are in registry order |
| PlanParser.NonEmptyGet | scheduler/llm_scheduler_v8.py:139 | a registry agent reads its accumulated list and is a key exactly when that list is non-empty |
| PlanParser.NonEmptyAbsent | scheduler/llm_scheduler_v8.py:125-126 | a name outside the registry is never a key of the plan |
| ParserExamples.UnderscoreDropped | scheduler/llm_scheduler_v8.py:133-136 | `w_a-w_b` expands to `w` followed by a..b: `str.isalpha` drops the underscore from the prefix |
| ParserExamples.DigitsTakeDefault | scheduler/llm_scheduler_v8.py:135 | `a-b` with digit-only bounds takes the default prefix |
| ParserExamples.JoinedRange | scheduler/llm_scheduler_v8.py:131-136 | two dash-free bounds holding digits, joined by `-`, expand as a range |
| SubtaskPlans.NeedSplitIff | scheduler/llm_scheduler_v8.py:72-73 | the reply asks for a split exactly when its first non-space character is `y` or `Y` |
| SubtaskPlans.DescLists | scheduler/llm_scheduler_v8.py:106-113 | the loop keeps one description list per registry agent |
| SubtaskPlans.PlanSubtasks | scheduler/llm_scheduler_v8.py:106-114 | the loop of `_plan_subtasks` computes `SubtaskPlan` |
| SubtaskPlans.DescListsPerAgent | scheduler/llm_scheduler_v8.py:107-113 | an agent's list is, in line order, the stripped description of every line naming it |
| SubtaskPlans.SubtaskPlanShape | scheduler/llm_scheduler_v8.py:106-114 | keys are registry agents in registry order, each holding its descriptions, and an agent is a key exactly when it has some |
| SubtaskPlans.LineDescOf | scheduler/llm_scheduler_v8.py:108-113 | a line `head:desc` naming a registry agent contributes exactly the stripped text after the first `:` |
| SubtaskPlans.KeepListsAppend | scheduler/llm_scheduler.py:73 | the JSON filter works key by key and keeps the object's order |
| SubtaskPlans.KeepListsLookup | scheduler/llm_scheduler.py:73 | a key survives the filter exactly when it is a registry agent whose value is a list, and keeps that list (empty lists included) |
| Allocation.Dealt | scheduler/llm_scheduler_v8.py:169-172 | dealing pages round-robin gives one list per agent |
| Allocation.Zip | scheduler/llm_scheduler_v8.py:169 | the fallback plan holds every registry agent as a key, in registry order, even with an empty list |
| Allocation.RoundRobin | scheduler/llm_scheduler_v8.py:168-172 | the fallback loop computes `RoundRobinPlan` |
| Allocation.EveryAppend | scheduler/llm_scheduler_v8.py:170-172 | appending page i adds it to agent j's list exactly when i ≡ j (mod K) |
| Allocation.DealtIsEvery | scheduler/llm_scheduler_v8.py:170-172 | agent j's dealt list is the pages whose 0-based index is ≡ j (mod K), in page order |
| Allocation.RoundRobinSpec | scheduler/llm_scheduler_v8.py:168-172 | the keys are exactly the registry, and agent j gets the pages at indices ≡ j (mod K), in page order |
| Allocation.HalfSplitSpec | scheduler/llm_scheduler.py:84-86 | the two halves concatenate to the page list, the first holds `len // 2` pages, or all of them when there is at most one, and the second is empty exactly when there is at most one page |
| PageRanges.PageNumbers | scheduler/llm_scheduler.py:17 | when every id parses, there is one number per id |
| PageRanges.InsertSpec | scheduler/llm_scheduler.py:17 | inserting into a sorted list keeps it sorted and adds exactly that element |
| PageRanges.InsertSorted | scheduler/llm_scheduler.py:17 | insertion keeps a list sorted |
| PageRanges.InsertCount | scheduler/llm_scheduler.py:17 | insertion adds exactly one copy of the element |
| PageRanges.InsertLowerBound | scheduler/llm_scheduler.py:17 | insertion keeps a common lower bound |
| PageRanges.SortSpec | scheduler/llm_scheduler.py:17 | `sorted` returns an ascending permutation of its input |
| PageRanges.Labels | scheduler/llm_scheduler.py:23 | one `(page_a, page_b)` label pair per run |
| PageRanges.PageRanges | scheduler/llm_scheduler.py:16-23 | the loop of `_page_ranges` computes `PageRangesOf`, including its errors |
| PageRanges.IntervalExtend | scheduler/llm_scheduler.py:20 | extending a run by its successor appends that number |
| PageRanges.ExpandAppend | scheduler/llm_scheduler.py:21-22 | closing a run appends its numbers to the expansion |
| PageRanges.ScanSpec | scheduler/llm_scheduler.py:18-21 | the closed runs plus the open run expand back to the numbers, each run has a ≤ b, and the open run ends at the last number |
| PageRanges.ScanApart | scheduler/llm_scheduler.py:18-21 | on sorted numbers, consecutive runs are separated by a gap of at least two |
| PageRanges.ScanLast | scheduler/llm_scheduler.py:19-21 | after the loop `prev` is the last number |
| PageRanges.ApartExtended | scheduler/llm_scheduler.py:20 | extending the open run keeps the runs apart |
| PageRanges.ApartClosed | scheduler/llm_scheduler.py:21 | closing a run at a gap keeps the runs apart |
| PageRanges.RunsSpec | scheduler/llm_scheduler.py:18-22 | the runs expand back to the numbers, each has a ≤ b, and on sorted input consecutive runs are maximal (separated by a gap) |
| PageRanges.PageRangesSpec | scheduler/llm_scheduler.py:16-23 | `_page_ranges` succeeds exactly when the list is non-empty and every id parses; its labels then come from maximal ascending runs whose expansion is the sorted numbers, a permutation of the input |
| PageRanges.LabelRoundTrip | scheduler/llm_scheduler.py:16-23 | a `page_a` label parses back to a |
| Chunker.Render | scheduler/llm_scheduler_v5.py:49-56 | chunk i is named `group_{i+1}` (or the variant's prefix) and holds its lines joined by newlines and stripped |
| Chunker.SplitText | scheduler/llm_scheduler_v5.py:45-56 | the loop of `_split_text` computes `Chunks` |
| Chunker.FlattenAppend | scheduler/llm_scheduler_v5.py:47-53 | flattening distributes over appending a buffer |
| Chunker.JoinedAppend | scheduler/llm_scheduler_v5.py:48-53 | joining a buffer with one more line adds a newline and the line |
| Chunker.PackFlatten | scheduler/llm_scheduler_v5.py:47-53 | the flushed buffers and the open buffer hold every line exactly once, in order; the open buffer is empty exactly when there are no lines |
| Chunker.PackGreedy | scheduler/llm_scheduler_v5.py:47-53 | every buffer admitted each line only while it fit, and each later buffer starts with the line that did not fit in the one before |
| Chunker.BufferFits | scheduler/llm_scheduler_v5.py:48-53 | a line admitted under the 1200-character test keeps the buffer within the rule |
| Chunker.GroupsSpec | scheduler/llm_scheduler_v5.py:46-56 | the groups hold every line exactly once, in order; no lines give no groups; packing is greedy under `CHUNK_SIZE`; the first group is empty exactly when the first line alone exceeds 1200 characters |
| Chunker.FirstGroup | scheduler/llm_scheduler_v5.py:48-51 | the first flushed buffer is empty exactly when the first line exceeds 1200 characters, and otherwise starts with that line |
| Chunker.FitsBound | scheduler/llm_scheduler_v5.py:48 | a buffer of two or more admitted lines joins to at most 1201 characters |
| Chunker.ChunkIds | scheduler/llm_scheduler_v5.py:49-55 | ids are the prefix followed by 1..n, consecutive, in order and distinct |
| Chunker.ChunkTextSpec | scheduler/llm_scheduler_best_version.py:107-112 | a chunk id reads that chunk's text, and an id the chunker did not produce reads `""` |
| Dispatch.BodyGet | scheduler/llm_scheduler_v8.py:213 | `resp.json().get(...)` succeeds exactly when the decoded body is a dict; otherwise it raises `AttributeError` |
| Dispatch.Caught | scheduler/llm_scheduler_v8.py:211-215 | the `try` block yields a result exactly when the agent answered with a JSON object, and otherwise the caught exception's message |
| Dispatch.PyIn | scheduler/llm_scheduler.py:36 | `"result" in res` raises `TypeError` exactly when the value is null, a boolean or a number |
| Dispatch.UpdateArg | mcp/memory.py:13 | `dict.update` with a JSON object applies exactly its pairs and raises nothing; with a value that does not iterate it applies nothing and raises `TypeError` |
| Dispatch.Iterated | mcp/memory.py:13 | a value iterates (list items, string characters, dict keys) exactly when it is a list, a string or a dict |
| Dispatch.PairOf | mcp/memory.py:13 | an element of the argument is a pair exactly when it iterates to two items whose first is a string key, and then gives (first, second); otherwise `ValueError` for another count of items, `TypeError` for the rest |
| Dispatch.UpdatePairsSpec | mcp/memory.py:13 | `dict.update` with a list assigns the pairs of the elements before the first one that is not a pair, in order, and raises exactly that element's exception; it raises nothing exactly when every element is a pair |
| Dispatch.DictElement | mcp/memory.py:13 | a dict element of the list iterates to its keys: with exactly two keys it assigns the first key the second key's name, and with any other number it raises `ValueError` |
| Dispatch.Apply | scheduler/llm_scheduler_v8.py:199-220 | one iteration appends at most one trace entry and keeps every earlier one |
| Dispatch.RunAll | scheduler/llm_scheduler_v8.py:199-220 | the dispatch loop over the memory store computes `RunWorks`: memory, trace and the exception that ended it, if any |
| Dispatch.Iterate | scheduler/llm_scheduler_v8.py:200-220 | one pass of the loop body computes `Apply` |
| Dispatch.RunSticky | scheduler/llm_scheduler_v8.py:199-220 | after an uncaught exception the remaining items change nothing |
| Dispatch.RunFrame | scheduler/llm_scheduler_v8.py:199-220 | the loop changes no other context's memory and only appends to `self.trace`, which is never reset |
| Dispatch.StartedSpec | scheduler/llm_scheduler_v8.py:199-220 | without an exception every item adds one trace entry; with one, the run is exactly the run over the items up to the first one that raised |
| Dispatch.RunWorksNext | scheduler/llm_scheduler_v8.py:199-220 | the run over one more item is one more iteration |
| Dispatch.FirstError | scheduler/llm_scheduler_v8.py:199-220 | the item at which the loop first raises is unique |
| Dispatch.ErrorPersists | scheduler/llm_scheduler_v8.py:199-220 | once the loop has raised, every longer prefix has raised too |
| Dispatch.RunTrace | scheduler/llm_scheduler_v8.py:199-220 | when no exception escapes, each (agent, unit) pair adds exactly one trace entry, in plan order, naming that agent and subtask, after the kept earlier trace |
| Dispatch.RunSafe | scheduler/llm_scheduler_v8.py:199-220 | a loop body that cannot raise and keeps a property of the context's memory gives a loop that does not raise and keeps it |
| Dispatch.Pairs | scheduler/llm_scheduler_v8.py:199-200 | every item of the loop is a call of an agent of the plan |
| Dispatch.Calls | scheduler/llm_scheduler_v8.py:200 | one call per unit of the agent, in order |
| Dispatch.PairsCount | scheduler/llm_scheduler_v8.py:199-200 | the loop runs once per unit of the plan |
| Dispatch.CollectErrorIff | scheduler/llm_scheduler_v8.py:223-227 | collecting the summary prompt raises exactly when some registry agent's memory is not a dict of strings |
| Conclusion.Returned | scheduler/llm_scheduler_original.py:241 | the dispatch returns the context's memory exactly when no exception escaped |
| Conclusion.Close | scheduler/llm_scheduler_original.py:213-240 | the summary step computes `Closing` on the memory store |
| Conclusion.ClosingSpec | scheduler/llm_scheduler_original.py:213-240 | the summary step raises exactly when the loop did or collecting raised, and then changes nothing; otherwise it stores `summary`, keeps every other key of the context and every other context, and appends exactly one `scheduler` trace entry |
| Conclusion.ClosingError | scheduler/llm_scheduler_original.py:214-218 | after a loop that did not raise, the summary step raises exactly what collecting raises |
| ProgressSteps.ProcessNames | scheduler/llm_scheduler_v8.py:164 | one `Process <id>` name per unit, in order |
| ProgressSteps.ResultTextSpec | scheduler/llm_scheduler_v8.py:211-215 | a failed call gives the `[❌ 调用失败] …` marker with the exception's message, a non-dict body gives the marker with the `AttributeError` message, and a dict body gives its `result` (default `""`) |
| ProgressSteps.ProcessStepSpec | scheduler/llm_scheduler_v8.py:201-220 | one pair writes `{agent: sub-dict}` to memory and appends the trace entry `(agent, Process key, result)`, never raising, while every agent's memory is a dict |
| ProgressSteps.NextSubDictSpec | scheduler/llm_scheduler_v8.py:217-218 | the agent's new sub-dict holds the result under `Process key` and keeps every other key of the agent's current sub-dict |
| ProgressSteps.WriteSubDict | scheduler/llm_scheduler_v8.py:219 | writing `{agent: sub}` replaces that agent's entry and leaves every other key of the context alone |
| ProgressSteps.ProcessStepSafe | scheduler/llm_scheduler_v8.py:199-220 | the loop body never raises, keeps every agent's memory a dict, and labels each trace entry `Process key` |
| ProgressSteps.ProcessApply | scheduler/llm_scheduler_v8.py:199-220 | one pair records its `Process key` under its agent and loses no key recorded before |
| ProgressSteps.ProcessRunKeys | scheduler/llm_scheduler_v8.py:199-220 | after the loop, every (agent, key) pair of the plan has its `Process key` in that agent's memory, and nothing raised |
| ProgressSteps.KeysRecordedStep | scheduler/llm_scheduler_v8.py:217-219 | recording the next pair keeps all earlier pairs recorded |
| ProgressSteps.Assigns | scheduler/llm_scheduler_v8.py:203 | the loop pushes only `assign` events |
| ProgressSteps.Finish | scheduler/llm_scheduler_v8.py:198-240 | the loop and the summary step on the memory store compute `Finished`: memory, trace, events and result |
| ProgressSteps.Conclude | scheduler/llm_scheduler_v8.py:222-240 | the summary step computes `Concluded` |
| ProgressSteps.RunPairs | scheduler/llm_scheduler_v8.py:199-220 | the loop computes `RunWorks`, pushing one `assign` event before each call it begins |
| ProgressSteps.LoopPairs | scheduler/llm_scheduler_v8.py:199-220 | the loop stops only at an exception, with one `assign` per item begun |
| ProgressSteps.RunPair | scheduler/llm_scheduler_v8.py:201-220 | one pass pushes `assign`, then calls the agent, writes memory and appends the trace entry |
| ProgressSteps.LoopExit | scheduler/llm_scheduler_v8.py:199-220 | the loop's stopping point is the end of the plan or the first exception |
| ProgressSteps.LoopExitCount | scheduler/llm_scheduler_v8.py:199-220 | the number of items begun is where the loop stopped |
| ProgressSteps.AssignsNext | scheduler/llm_scheduler_v8.py:203 | the next pair pushes `assign(agent, Process key)` |
| ProgressSteps.AssignsAppend | scheduler/llm_scheduler_v8.py:203 | `assign` events accumulate item by item |
| ProgressSteps.FinishedFrame | scheduler/llm_scheduler_v8.py:199-240 | dispatch changes no other context's memory and only appends to the trace and to the events |
| ProgressSteps.ConcludedFrame | scheduler/llm_scheduler_v8.py:222-240 | the summary step changes no other context and only appends to the trace and the events |
| ProgressSteps.FinishedEvents | scheduler/llm_scheduler_v8.py:199-239 | the events pushed are `assign`s and then, when the run succeeds, exactly one final `done` carrying the stripped summary |
| ProgressSteps.FinishedClean | scheduler/llm_scheduler_v8.py:199-236 | with registry agents and dict memory, every pair gets exactly one `assign`, one trace entry and one `Process key` write, no failure aborts the loop, and the run fails only if collecting the summary prompt raises |
| ProgressSteps.AssignedAfter | scheduler/llm_scheduler_v8.py:203 | the pairs' `assign` events stay in place when more events follow |
| ProgressSteps.RecordedExtend | scheduler/llm_scheduler_v8.py:220 | the pairs' trace entries stay in place when more entries follow |
| ProgressSteps.FinishedAfterCleanRun | scheduler/llm_scheduler_v8.py:199-240 | after a loop without exception, the dispatch ends with the collect error, or stores `summary`, appends one `scheduler` entry and pushes `done` |
| ProgressSteps.CleanRun | scheduler/llm_scheduler_v8.py:199-220 | with registry agents and dict memory the loop never raises, adds one trace entry per pair in order, and records every `Process key` |
| ProgressSteps.AssignsOfCalls | scheduler/llm_scheduler_v8.py:203 | exactly one `assign(agent, Process key)` per pair, in order |
| ProgressSteps.PairsInRegistry | scheduler/llm_scheduler_v8.py:199 | a plan keyed by registry agents yields only registry calls |
| ProgressSteps.SummaryKeepsKeys | scheduler/llm_scheduler_v8.py:236 | storing `summary` keeps every agent's recorded keys |
| ProgressSteps.FinishedSummary | scheduler/llm_scheduler_v8.py:235-240 | a successful run returns the stripped summary, stores it under `summary` and ends the trace with one `scheduler` entry |
| ProgressSteps.ConcludedSummary | scheduler/llm_scheduler_v8.py:235-240 | the summary step adds exactly one `scheduler` trace entry and stores the stripped summary |
| ProgressSteps.PlanPages | scheduler/llm_scheduler_v8.py:163-172 | parsing the page plan and falling back computes `PagePlan` |
| ProgressSteps.PagePlanSpec | scheduler/llm_scheduler_v8.py:167-172 | the page plan fails exactly when the parser raises, has only registry keys, and when the parsed plan is empty holds every agent with the pages at indices ≡ j (mod K) |
| SchedulerV8.Scheduler.constructor | scheduler/llm_scheduler_v8.py:36-38 | a new scheduler has an empty memory store and an empty trace |
| SchedulerV8.Scheduler.Dispatch | scheduler/llm_scheduler_v8.py:148-240 | `dispatch` on the memory store and `self.trace` computes `DispatchSpec`: new memory, new trace, the events pushed and the markdown or the exception |
| SchedulerV8.Scheduler.DispatchPdf | scheduler/llm_scheduler_v8.py:161-240 | the PDF branch computes `DispatchSpec` for a document of n pages |
| SchedulerV8.Scheduler.DispatchText | scheduler/llm_scheduler_v8.py:179-196 | the plain-text branch computes `DispatchSpec` |
| SchedulerV8.Scheduler.DispatchSplit | scheduler/llm_scheduler_v8.py:190-240 | the split text branch computes `DispatchSpec` |
| SchedulerV8.PdfPlanned | scheduler/llm_scheduler_v8.py:162-177 | with a page plan, the PDF branch pushes `subtasks` with one `Process page_i` per page and then runs the shared loop and summary on that plan |
| SchedulerV8.PdfUnplanned | scheduler/llm_scheduler_v8.py:162-167 | a page plan that raises raises after the `subtasks` event listing `Process page_1` .. `Process page_n`, with memory and trace unchanged |
| SchedulerV8.UnreadableFile | scheduler/llm_scheduler_v8.py:161-162 | bytes PyMuPDF cannot open raise its `FileDataError` before any event, with memory and trace unchanged |
| SchedulerV8.SplitPlanned | scheduler/llm_scheduler_v8.py:190-196 | a split text task pushes `subtasks` with one `Process <desc>` per planned description and runs the loop on the subtask plan |
| SchedulerV8.DirectAnswer | scheduler/llm_scheduler_v8.py:181-188 | a text task the oracle does not split pushes only `done`, returns the stripped answer and leaves memory and trace unchanged |
| SchedulerV8.PdfStart | scheduler/llm_scheduler_v8.py:162-167 | the first event lists `Process page_1` .. `Process page_n`; a malformed plan line raises after that event with memory and trace unchanged |
| SchedulerV8.SplitEvents | scheduler/llm_scheduler_v8.py:165-239 | `subtasks` is pushed first, then only `assign` events, and on success exactly one `done`, last, carrying the stripped summary |
| SchedulerV8.DispatchClean | scheduler/llm_scheduler_v8.py:199-220 | with dict memory, each planned (agent, key) pair gets exactly one `assign` event, one trace entry and one `Process key` write, and a failure never aborts later pairs |
| SchedulerV8.DispatchFrame | scheduler/llm_scheduler_v8.py:148-240 | `dispatch` changes no other context and only appends to `self.trace` |
| SchedulerLatest4.Strs | scheduler/best_latest_4.py:201 | each subtask is formatted as a string |
| SchedulerLatest4.StrPlan | scheduler/best_latest_4.py:190-201 | the JSON plan keeps its agents and order, with each subtask as its string |
| SchedulerLatest4.Scheduler.constructor | scheduler/best_latest_4.py:35-37 | a new scheduler has an empty memory store and an empty trace |
| SchedulerLatest4.Scheduler.Dispatch | scheduler/best_latest_4.py:152-240 | `dispatch` on the memory store and `self.trace` computes `DispatchSpec` |
| SchedulerLatest4.Scheduler.DispatchPdf | scheduler/best_latest_4.py:165-240 | the PDF branch computes `DispatchSpec` |
| SchedulerLatest4.Scheduler.DispatchText | scheduler/best_latest_4.py:182-240 | the text branch computes `DispatchSpec` |
| SchedulerLatest4.KeepListsInRegistry | scheduler/best_latest_4.py:133 | the JSON plan names only registry agents |
| SchedulerLatest4.DirectAnswer | scheduler/best_latest_4.py:183-188 | a "no" classification and an empty JSON plan both take `_answer_direct`: only `done` is pushed, memory and trace are unchanged |
| SchedulerLatest4.NotAnObject | scheduler/best_latest_4.py:129-133 | a JSON reply that is not an object makes `data.items()` raise `AttributeError`, before any event |
| SchedulerLatest4.PdfPlanned | scheduler/best_latest_4.py:166-179 | with a page plan, the PDF branch pushes `subtasks` with one `Process page_i` per page and runs the loop on the plan |
| SchedulerLatest4.SplitPlanned | scheduler/best_latest_4.py:186-196 | a non-empty JSON plan, even one whose lists are all empty, pushes `subtasks` and runs the loop and summary on it |
| SchedulerLatest4.SplitUnplanned | scheduler/best_latest_4.py:182-185 | a split text task whose JSON plan raises (a reply that is not an object) raises before any event, with memory and trace unchanged |
| SchedulerLatest4.UnreadableFile | scheduler/best_latest_4.py:165-166 | bytes PyMuPDF cannot open raise its `FileDataError` before any event, with memory and trace unchanged |
| SchedulerLatest4.SplitEvents | scheduler/best_latest_4.py:168-239 | `subtasks` first, then only `assign` events, and on success exactly one `done`, last |
| SchedulerLatest4.DispatchClean | scheduler/best_latest_4.py:199-220 | each dispatched pair gets one `assign`, one trace entry and one `Process key` write in the agent's memory |
| SchedulerLatest4.DispatchFrame | scheduler/best_latest_4.py:152-240 | `dispatch` changes no other context and only appends to `self.trace` |
| LlmScheduler.CallAgentSpec | scheduler/llm_scheduler.py:32-37 | `_call_agent` answers `succeed` exactly when the reply has status 200 and is a dict holding `result`, and then returns that result; otherwise `failed` with a string: a status other than 200 gives `str({})`, and a dict reply without `result` gives its text cut to at most 120 characters |
| LlmScheduler.PageIds | scheduler/llm_scheduler.py:30-31 | one id `page_i` per page |
| LlmScheduler.RangeTasks | scheduler/llm_scheduler.py:89-91 | one subtask per page range |
| LlmScheduler.RangeTasksAt | scheduler/llm_scheduler.py:89-91 | the k-th range's subtask is numbered start+k, is described `Process p1` for a single page or `Process p1~p2` otherwise, and carries its agent and range |
| LlmScheduler.ListTasks | scheduler/llm_scheduler.py:98-100 | one subtask per piece of an agent's list |
| LlmScheduler.BuildPdfSubtasks | scheduler/llm_scheduler.py:87-91 | the PDF branch's nested loop computes `PdfSubtasks`, including the `_page_ranges` exception |
| LlmScheduler.AddAgentTasks | scheduler/llm_scheduler.py:88-91 | one agent of the PDF plan adds its ranges' subtasks after the earlier ones |
| LlmScheduler.AddRangeTasks | scheduler/llm_scheduler.py:89-91 | the range loop numbers subtasks on from the earlier ones |
| LlmScheduler.PdfSubtasksSticky | scheduler/llm_scheduler.py:88-89 | once `_page_ranges` raises, the later agents do not matter |
| LlmScheduler.AddListTasks | scheduler/llm_scheduler.py:99-100 | the piece loop numbers subtasks on from the earlier ones |
| LlmScheduler.BuildTextSubtasks | scheduler/llm_scheduler.py:97-100 | the text branch's nested loop computes `TextSubtasks` |
| LlmScheduler.Listing | scheduler/llm_scheduler.py:102-104 | the `subtask_list` holds one (index, description) item per subtask |
| LlmScheduler.RunSubtasks | scheduler/llm_scheduler.py:106-122 | the execution loop computes `Executed` |
| LlmScheduler.RunSubtask | scheduler/llm_scheduler.py:107-122 | one subtask pushes `subtask_start`, `action_start`, then `action_end` with the call's status and result and `subtask_end`, unless building its prompt raises |
| LlmScheduler.ExecutedNext | scheduler/llm_scheduler.py:106-122 | the loop over one more subtask adds that subtask's events |
| LlmScheduler.ExecutedSticky | scheduler/llm_scheduler.py:111-116 | after an exception the remaining subtasks push nothing |
| LlmScheduler.Dispatch | scheduler/llm_scheduler.py:76-125 | `dispatch` pushes the events of `DispatchSpec` and raises its exception, if any |
| LlmScheduler.PdfSubtasksNumbered | scheduler/llm_scheduler.py:87-91 | PDF subtasks are numbered 1..n consecutively in plan order, each on a plan agent with a page range |
| LlmScheduler.AppendRangeTasks | scheduler/llm_scheduler.py:88-91 | numbering stays consecutive when the next agent's ranges are added |
| LlmScheduler.PdfSubtasksLast | scheduler/llm_scheduler.py:88-91 | the subtasks of a plan are those of its earlier agents followed by the last agent's ranges |
| LlmScheduler.AddAgentOk | scheduler/llm_scheduler.py:88-91 | an agent is added only when the earlier agents and its own `_page_ranges` succeed |
| LlmScheduler.TextSubtasksNumbered | scheduler/llm_scheduler.py:97-100 | text subtasks are one per piece, numbered 1..n consecutively in plan order, each on a plan agent |
| LlmScheduler.ExecutedSpec | scheduler/llm_scheduler.py:106-122 | the loop raises exactly when some subtask's prompt raises; otherwise each subtask pushes exactly its four events, in order |
| LlmScheduler.ExecutedOk | scheduler/llm_scheduler.py:106-122 | the loop's exception, if any, is one raised by some subtask's prompt |
| LlmScheduler.ExecutedEvents | scheduler/llm_scheduler.py:107-122 | without an exception, subtask k's events are `subtask_start`, `action_start`, `action_end`, `subtask_end`, at positions 4k..4k+3 |
| LlmScheduler.DirectTask | scheduler/llm_scheduler.py:77-125 | an unsplit text task is exactly one subtask, numbered 1, on the first registry agent, described by the task, and pushes `chat_text`, `subtask_list`, its four events and `chat_file`, in that order |
| LlmScheduler.ShortPdfFallbackRaises | scheduler/llm_scheduler.py:83-89 | with no usable plan, a PDF of at most one page leaves `llama2_agent_2` empty and `_page_ranges` raises `IndexError` after `chat_text` only |
| LlmScheduler.PageCount | scheduler/llm_scheduler.py:80-81 | the page count is known exactly when a document was read, and is its number of pages |
| LlmScheduler.UnreadableFile | scheduler/llm_scheduler.py:77-81 | bytes PyMuPDF cannot open raise its `FileDataError` right after the first `chat_text`, before any plan |
| LlmScheduler.TextDispatchErrors | scheduler/llm_scheduler.py:71-116 | a split text task raises exactly when the plan decodes to a non-object or some piece is not a string |
| LlmScheduler.PdfKeyError | scheduler/llm_scheduler.py:112-114 | a PDF dispatch whose plan was built raises exactly when some planned page is not a page of the document, and then raises `KeyError` |
| LlmScheduler.AnyFailsAppend | scheduler/llm_scheduler.py:106-114 | some subtask of a concatenation fails exactly when one of the two parts has one that fails |
| LlmScheduler.OnlyKeyErrorsAppend | scheduler/llm_scheduler.py:112-114 | the only prompt error of PDF subtasks is `KeyError`, for a concatenation too |
| LlmScheduler.PdfSubtasksOff | scheduler/llm_scheduler.py:87-114 | some PDF subtask's prompt fails exactly when the plan names a page outside the document, and only with `KeyError` |
| LlmScheduler.PdfSubtasksSplit | scheduler/llm_scheduler.py:88-91 | the subtasks of a plan split into those of its earlier agents and the ranges of the last |
| LlmScheduler.LastAgentOff | scheduler/llm_scheduler.py:88-114 | adding an agent's ranges adds a failure exactly when that agent names a page outside the document |
| LlmScheduler.JoinOff | scheduler/llm_scheduler.py:112-114 | failures of the earlier subtasks and of the last agent's combine |
| LlmScheduler.PlansOffPageLast | scheduler/llm_scheduler.py:88 | a plan names an outside page exactly when its earlier agents or its last agent do |
| LlmScheduler.RangeTasksOff | scheduler/llm_scheduler.py:89-114 | an agent's range subtasks fail exactly when one of its page numbers is outside the document |
| LlmScheduler.RunTasksOff | scheduler/llm_scheduler.py:112-114 | range subtasks fail exactly when a run reaches outside the document |
| LlmScheduler.ExpandedNumbers | scheduler/llm_scheduler.py:17 | sorting does not change whether some page is outside the document |
| LlmScheduler.LabelledRange | scheduler/llm_scheduler.py:112-114 | a range's prompt fails exactly when the range reaches outside the document, and then with `KeyError` |
| LlmScheduler.ExpandOff | scheduler/llm_scheduler.py:114 | some run reaches outside the document exactly when one of its pages does |
| LlmScheduler.IntervalMembers | scheduler/llm_scheduler.py:114 | `range(s, e + 1)` holds exactly the numbers from s to e |
| SchedulerOriginal.Unplanned | scheduler/llm_scheduler_original.py:136-140 | a plan the parser rejects raises before anything is stored or traced |
| SchedulerOriginal.Planned | scheduler/llm_scheduler_original.py:136-241 | with a plan, dispatch is the accumulating loop over its pairs followed by the summary step |
| SchedulerOriginal.MakePlan | scheduler/llm_scheduler_original.py:136-173 | the three input branches compute `UsedPlan`: the page plan with round-robin fallback, `{first agent: ["text_1"]}`, or the subtask plan |
| SchedulerOriginal.Scheduler.constructor | scheduler/llm_scheduler_original.py:34-36 | a new scheduler has an empty memory store and an empty trace |
| SchedulerOriginal.Scheduler.Dispatch | scheduler/llm_scheduler_original.py:125-241 | `dispatch` on the memory store and `self.trace` computes `DispatchSpec`, returning `memory.get(ctx)` or the exception |
| SchedulerOriginal.Finish | scheduler/llm_scheduler_original.py:175-241 | the loop and the summary step on the memory store compute `Finished` |
| SchedulerOriginal.AccumulateSpec | scheduler/llm_scheduler_original.py:186-211 | a pair is always traced once under its key (result or marker); a failure writes nothing; a success sets `ag_mem[key]`, keeps the agent's other keys (starting from `{}` when its value is not a dict) and leaves the other agents alone |
| SchedulerOriginal.AccumulateKeeps | scheduler/llm_scheduler_original.py:202-206 | no key recorded before is lost, and a successful key is recorded |
| SchedulerOriginal.LoopSpec | scheduler/llm_scheduler_original.py:176-211 | the loop never raises, adds exactly one trace entry per attempted pair, in order, and records every successful key under its agent |
| SchedulerOriginal.LoopTrace | scheduler/llm_scheduler_original.py:176-211 | one trace entry per pair, in order: `(agent, key, result or marker)` after the kept earlier trace |
| SchedulerOriginal.LoopAccumulates | scheduler/llm_scheduler_original.py:201-206 | after the loop, every successful (agent, key) is recorded in that agent's memory |
| SchedulerOriginal.DispatchSpecOk | scheduler/llm_scheduler_original.py:176-241 | with a plan, the loop does not raise; dispatch raises exactly when some registry agent's memory is not a dict of strings; otherwise it adds one trace entry per pair plus one `scheduler` entry, stores the stripped summary and returns the context's memory |
| SchedulerOriginal.PlainTextOneCall | scheduler/llm_scheduler_original.py:155-163 | plain text is one unit `text_1` on the first registry agent, traced once and recorded on success |
| SchedulerOriginal.PdfPlanRaises | scheduler/llm_scheduler_original.py:112-140 | a malformed plan line raises with memory and trace unchanged |
| SchedulerOriginal.UnreadableFile | scheduler/llm_scheduler_original.py:136-138 | bytes PyMuPDF cannot open raise its `FileDataError` before any plan, with memory and trace unchanged |
| SchedulerOriginal.DispatchFrame | scheduler/llm_scheduler_original.py:125-241 | `dispatch` changes no other context and only appends to `self.trace` |
| SchedulerTextOnly.Planned | scheduler/llm_scheduler_text_task_only_done.py:107-154 | with a plan, dispatch is the replacing loop over its pairs followed by the summary step |
| SchedulerTextOnly.Unplanned | scheduler/llm_scheduler_text_task_only_done.py:108-111 | a plan the parser rejects raises before anything is stored or traced |
| SchedulerTextOnly.MakePlan | scheduler/llm_scheduler_text_task_only_done.py:107-126 | the three input branches compute `UsedPlan`: the parsed page plan with no fallback, `{first agent: ["text_1"]}`, or the subtask plan |
| SchedulerTextOnly.Finish | scheduler/llm_scheduler_text_task_only_done.py:127-154 | the loop and the summary step on the memory store compute `Finished` |
| SchedulerTextOnly.Scheduler.constructor | scheduler/llm_scheduler_text_task_only_done.py:31-33 | a new scheduler has an empty memory store and an empty trace |
| SchedulerTextOnly.Scheduler.Dispatch | scheduler/llm_scheduler_text_task_only_done.py:98-154 | `dispatch` on the memory store and `self.trace` computes `DispatchSpec`, returning `memory.get(ctx)` or the exception |
| SchedulerTextOnly.LastSuccess | scheduler/llm_scheduler_text_task_only_done.py:128-147 | the last pair of an agent whose call succeeded, if any: every later call of that agent failed |
| SchedulerTextOnly.ReplaceSpec | scheduler/llm_scheduler_text_task_only_done.py:139-147 | a pair is traced once under its key (result or marker); a failure writes nothing; a success replaces the agent's whole entry by `{key: result}` and leaves other keys alone |
| SchedulerTextOnly.LoopSpec | scheduler/llm_scheduler_text_task_only_done.py:128-147 | the loop never raises and traces each pair once, in order; afterwards an agent's memory is `{key: result}` of its last successful pair, or unchanged when none succeeded |
| SchedulerTextOnly.PlanKeys | scheduler/llm_scheduler_text_task_only_done.py:81-118 | every plan names registry agents only |
| SchedulerTextOnly.PlanAgents | scheduler/llm_scheduler_text_task_only_done.py:128-130 | every pair of the loop calls a registry agent |
| SchedulerTextOnly.StringBlocksSummary | scheduler/llm_scheduler_text_task_only_done.py:149 | a string stored under `summary` makes `.values()` raise when collecting |
| SchedulerTextOnly.DispatchSpecOk | scheduler/llm_scheduler_text_task_only_done.py:128-154 | with a plan, the loop does not raise; dispatch raises exactly when some entry of the context (not only agents) is not a dict of strings; otherwise it adds one trace entry per pair (none for an empty plan) plus one `scheduler` entry and stores the stripped summary |
| SchedulerTextOnly.SecondDispatchRaises | scheduler/llm_scheduler_text_task_only_done.py:149-152 | after one successful dispatch, any later dispatch on the same context raises, because the stored `summary` string has no `.values()` |
| SchedulerTextOnly.SummarySurvives | scheduler/llm_scheduler_text_task_only_done.py:146 | the loop writes only agent keys, so an earlier `summary` stays |
| SchedulerTextOnly.UnreadableFile | scheduler/llm_scheduler_text_task_only_done.py:108-109 | bytes PyMuPDF cannot open raise its `FileDataError` before any plan, with memory and trace unchanged |
| SchedulerTextOnly.DispatchFrame | scheduler/llm_scheduler_text_task_only_done.py:98-154 | `dispatch` changes no other context and only appends to `self.trace` |
| SchedulerBest4.FindAnalysis | scheduler/llm_scheduler_best_4.py:133-138 | the inner loop with its `break` computes `Analysis`: the first plan agent holding the page, `''` when none does, or the `TypeError` |
| SchedulerBest4.SummarisePages | scheduler/llm_scheduler_best_4.py:131-142 | the page loop computes `PageSummaries` |
| SchedulerBest4.PageSummariesSticky | scheduler/llm_scheduler_best_4.py:132-142 | once a page raises, the later pages change nothing |
| SchedulerBest4.Planned | scheduler/llm_scheduler_best_4.py:97-154 | with a document read and a plan, dispatch is the loop over its pairs followed by the page summaries and the overall summary |
| SchedulerBest4.Unplanned | scheduler/llm_scheduler_best_4.py:97-99 | with a document read, a plan the parser rejects raises before anything is stored or traced |
| SchedulerBest4.Conclude | scheduler/llm_scheduler_best_4.py:130-154 | the summary steps on the memory store compute `Concluded` |
| SchedulerBest4.Finish | scheduler/llm_scheduler_best_4.py:101-154 | the loop and the summary steps on the memory store compute `Finished` |
| SchedulerBest4.Scheduler.constructor | scheduler/llm_scheduler_best_4.py:29-31 | a new scheduler has an empty memory store and an empty trace |
| SchedulerBest4.Scheduler.Dispatch | scheduler/llm_scheduler_best_4.py:85-154 | `dispatch` on the memory store and `self.trace` computes `DispatchSpec`, returning `memory.get(ctx)` or the exception |
| SchedulerBest4.PageStepRaises | scheduler/llm_scheduler_best_4.py:114-128 | a pass raises exactly when the memory update is not a dict or its entry for the agent is rejected by `dict.update`; otherwise it traces `(agent, pid, …)`; a caught failure only traces the marker |
| SchedulerBest4.PlainResult | scheduler/llm_scheduler_best_4.py:117-128 | without a truthy `memory_update`, `result` is set under the page id in the agent's current dict (`{}` when not a dict) and traced |
| SchedulerBest4.AgentUpdate | scheduler/llm_scheduler_best_4.py:117-128 | with a `memory_update`, only the agent's own sub-map is merged into its current dict, and `current.get(pid, '')` is traced |
| SchedulerBest4.LoopSpec | scheduler/llm_scheduler_best_4.py:102-128 | the loop raises exactly when some pass raises; otherwise it adds one trace entry per pair, in order, naming the agent and page |
| SchedulerBest4.AnalysisSpec | scheduler/llm_scheduler_best_4.py:133-138 | with dict memories the page's analysis is found, and it is the value in the first plan agent, in plan order, that holds the page |
| SchedulerBest4.PageSummariesSpec | scheduler/llm_scheduler_best_4.py:131-142 | the page loop raises exactly when some page's analysis does; otherwise a page gets a summary exactly when its analysis is truthy, and the summary is the stripped reply |
| SchedulerBest4.PageSummariesOk | scheduler/llm_scheduler_best_4.py:131-142 | the page loop raises exactly when some page's analysis does |
| SchedulerBest4.PageSummariesContents | scheduler/llm_scheduler_best_4.py:139-142 | pages with empty analysis are skipped, the others hold their stripped summary |
| SchedulerBest4.SetHas | scheduler/llm_scheduler_best_4.py:142 | setting a page's summary adds that key and changes only its value |
| SchedulerBest4.NeedsPdf | scheduler/llm_scheduler_best_4.py:93-99 | without a PDF `dispatch` raises `ValueError`, bytes PyMuPDF cannot open raise its `FileDataError`, and a malformed plan raises, all with memory and trace unchanged |
| SchedulerBest4.ConcludedSpec | scheduler/llm_scheduler_best_4.py:130-154 | the summary steps raise exactly when the loop or a page analysis did, and then change nothing; otherwise they store `page_summaries` and `summary`, keep every other key and context, and append one `scheduler` entry |
| SchedulerBest4.DispatchFrame | scheduler/llm_scheduler_best_4.py:85-154 | `dispatch` changes no other context and only appends to `self.trace` |
| Overwriting.Normalised | scheduler/llm_scheduler_v5.py:130-133 | the reply is normalised exactly when the call answers with a JSON object (and, cleaned, a string `result`), or for the membership readings when the agent is registered; a truthy `memory_update` or `{agent: result}` is always truthy |
| Overwriting.Membered | scheduler/llm_scheduler_v2.py:100-113 | `REGISTRY[agent]`, the call and the `in` test succeed exactly when the agent is registered and the reply is a JSON object |
| Overwriting.FinishWorks | scheduler/llm_scheduler_v5.py:116-147 | the loop over the given calls and the summary on the memory store compute `Closed` |
| Overwriting.Finish | scheduler/llm_scheduler_v5.py:116-149 | the loop over the planned pairs and the summary on the memory store compute `Finished`, returning `memory.get(ctx)` or the exception |
| Overwriting.OverwriteSpec | scheduler/llm_scheduler_v5.py:128-138 | a pass raises exactly when the normalised `mem` is not a dict; it writes exactly when the `try` succeeded, and then writes `mem`; a clean pass traces `mem.get(agent, "")` or the marker |
| Overwriting.PlainResult | scheduler/llm_scheduler_v5.py:132-138 | without a truthy `memory_update` the agent's key is set to its result (cleaned of `[INST]` tags for the cleaning variants), every other key is kept, and the same value is traced |
| Overwriting.ResultNotText | scheduler/llm_scheduler_best_2.py:112-115 | a `result` that is not a string makes `.replace` fail inside the `try`: nothing is written and the marker is traced |
| Overwriting.CleanTextWithoutTags | scheduler/llm_scheduler_best_2.py:112 | a text with no instruction tags is only stripped |
| Overwriting.UnknownAgent | scheduler/llm_scheduler_v2.py:100-121 | an agent missing from `REGISTRY` raises `KeyError` inside the `try`: nothing is written and the marker with the quoted name is traced |
| Overwriting.MemberUpdate | scheduler/llm_scheduler_v2.py:108-122 | when the reply holds `memory_update`, that value is used whatever it is, even empty, and the pass raises exactly when it is not a dict |
| Overwriting.MemberResult | scheduler/llm_scheduler_v2.py:108-126 | without `memory_update` the agent's key is set to the result, every other key is kept, and the result is traced |
| Overwriting.EmptyUpdate | scheduler/llm_scheduler_v5.py:132 | an empty `memory_update` is falsy under `or`, so the result is written instead; under the membership test it is used and writes nothing |
| Overwriting.MissingKeyOutput | scheduler/llm_scheduler_v2.py:126 | a `memory_update` dict without the agent's key traces the warning note in llm_scheduler_v2.py and `""` in the others |
| Overwriting.LoopRaises | scheduler/llm_scheduler_v5.py:116-138 | the loop raises exactly when some call's pass is not clean |
| Overwriting.LoopSpec | scheduler/llm_scheduler_v5.py:116-138 | a loop that does not raise merges every call's writes in order into the context's memory and traces one entry per call, in order, with its output |
| Overwriting.LoopStep | scheduler/llm_scheduler_v5.py:137-138 | a pass that does not raise merges its writes and appends exactly its trace entry |
| Overwriting.ClosedRaises | scheduler/llm_scheduler_v5.py:116-147 | the run raises exactly when some call's pass is not clean, and no other context changes |
| Overwriting.ClosedClean | scheduler/llm_scheduler_v5.py:116-147 | a run that does not raise merges the calls' writes and then `summary`, and traces the calls then one `scheduler` summary entry |
| Overwriting.ClosedAborted | scheduler/llm_scheduler_v5.py:116-138 | an exception after clean calls keeps their writes and trace and skips the summary |
| Overwriting.FinishedRaises | scheduler/llm_scheduler_v5.py:116-147 | over a plan's pairs the run raises exactly when some pass is not clean, and no other context changes |
| Overwriting.FinishedClean | scheduler/llm_scheduler_v5.py:116-147 | over a plan's pairs a run that does not raise merges every write and then `summary`, and traces each pair then the summary |
| SchedulerV5.Scheduler.constructor | scheduler/llm_scheduler_v5.py:34-36 | a new scheduler has an empty memory store and an empty trace |
| SchedulerV5.Scheduler.Dispatch | scheduler/llm_scheduler_v5.py:107-149 | `dispatch` on the memory store and `self.trace` computes `DispatchSpec` |
| SchedulerV5.Unplanned | scheduler/llm_scheduler_v5.py:109-113 | once the file is read, a plan the parser rejects raises before anything is stored or traced |
| SchedulerV5.Planned | scheduler/llm_scheduler_v5.py:109-149 | once the file is read and planned, dispatch is the loop over the plan's pairs followed by the summary |
| SchedulerV5.DispatchOutcome | scheduler/llm_scheduler_v5.py:83-149 | bytes PyPDF2 cannot read raise `PdfReadError` and change nothing; a plan the parser rejects changes nothing; otherwise only registered agents are called, the run raises exactly when some pass is not clean, and a clean run stores every write and the stripped summary and traces one entry per pair plus the summary; no other context changes |
| SchedulerBestVersion.Planned | scheduler/llm_scheduler_best_version.py:106-140 | with a plan, dispatch is the loop over its pairs followed by the summary |
| SchedulerBestVersion.Unplanned | scheduler/llm_scheduler_best_version.py:76-106 | once the file is read, a plan the parser rejects raises before anything is stored or traced |
| SchedulerBestVersion.Scheduler.constructor | scheduler/llm_scheduler_best_version.py:31-33 | a new scheduler has an empty memory store and an empty trace |
| SchedulerBestVersion.Scheduler.Dispatch | scheduler/llm_scheduler_best_version.py:100-140 | `dispatch` on the memory store and `self.trace` computes `DispatchSpec` |
| SchedulerBestVersion.DispatchOutcome | scheduler/llm_scheduler_best_version.py:76-140 | as for llm_scheduler_v5.py: unreadable bytes raise `PdfReadError` and change nothing, a rejected plan changes nothing; otherwise registered agents only, raises exactly on an unclean pass, a clean run stores every write and the summary |
| SchedulerBestVersion.PromptOf | scheduler/llm_scheduler_best_version.py:101-113 | a call on the `j+1`-th group gets the user's text followed by that group's text, stripped; an id the chunker did not produce, or no file, gets only the user's text |
| SchedulerV4.Scheduler.constructor | scheduler/llm_scheduler_v4.py:34-36 | a new scheduler has an empty memory store and an empty trace |
| SchedulerV4.Scheduler.Dispatch | scheduler/llm_scheduler_v4.py:104-146 | `dispatch` on the memory store and `self.trace` computes `DispatchSpec` |
| SchedulerV4.Unplanned | scheduler/llm_scheduler_v4.py:104-107 | once the file is read, a plan the parser rejects raises before anything is stored or traced |
| SchedulerV4.Planned | scheduler/llm_scheduler_v4.py:104-146 | once the file is read and planned, dispatch is the loop over the plan's pairs followed by the summary |
| SchedulerV4.DispatchOutcome | scheduler/llm_scheduler_v4.py:79-146 | a file PyPDF2 cannot read, no bytes included since the reader is called unconditionally, raises `PdfReadError` and changes nothing; a rejected plan changes nothing; otherwise only agents of this file's two-agent registry are called, the run raises exactly on an unclean pass, and a clean run stores every write and the summary |
| SchedulerV4.BlankLineIds | scheduler/llm_scheduler_v4.py:89-99 | an agent line with only spaces after `:` gives that agent the single id `""`, where the llm_scheduler_v5.py parser gives none |
| SchedulerBest2.Scheduler.constructor | scheduler/llm_scheduler_best_2.py:33-35 | a new scheduler has an empty memory store and an empty trace |
| SchedulerBest2.Scheduler.Dispatch | scheduler/llm_scheduler_best_2.py:89-130 | `dispatch` on the memory store and `self.trace` computes `DispatchSpec` |
| SchedulerBest2.Unplanned | scheduler/llm_scheduler_best_2.py:90-93 | once the file is read, a plan the parser rejects raises before anything is stored or traced |
| SchedulerBest2.Planned | scheduler/llm_scheduler_best_2.py:90-130 | once the file is read and planned, dispatch is the loop over the plan's pairs followed by the summary |
| SchedulerBest2.DispatchOutcome | scheduler/llm_scheduler_best_2.py:66-130 | bytes PyMuPDF cannot open raise `FileDataError` and change nothing; a rejected plan changes nothing; otherwise registered agents only, the run raises exactly on an unclean pass of the cleaning reading, and a clean run stores every write and the summary |
| SchedulerV6.Scheduler.constructor | scheduler/llm_scheduler_v6.py:28-30 | a new scheduler has an empty memory store and an empty trace |
| SchedulerV6.Scheduler.Dispatch | scheduler/llm_scheduler_v6.py:86-126 | `dispatch` on the memory store and `self.trace` computes `DispatchSpec` |
| SchedulerV6.Unplanned | scheduler/llm_scheduler_v6.py:87-90 | once the file is read, a plan the parser rejects raises before anything is stored or traced |
| SchedulerV6.Planned | scheduler/llm_scheduler_v6.py:87-126 | once the file is read and planned, dispatch is the loop over the plan's pairs followed by the summary |
| SchedulerV6.DispatchOutcome | scheduler/llm_scheduler_v6.py:62-126 | bytes pdfplumber cannot open raise `PdfminerException` and change nothing; a rejected plan changes nothing; otherwise registered agents only, the run raises exactly on an unclean pass of the cleaning reading, and a clean run stores every write and the summary |
| RangePlans.AssignLine | scheduler/llm_scheduler_half.py:95-99 | a line of the assignment fails only with `ValueError`, when `agent, pages = line.split(":")` does not find exactly two fields |
| RangePlans.ParseAssignment | scheduler/llm_scheduler_half.py:85-100 | the line loop computes `Assignment` over the reply's lines |
| RangePlans.AssignmentErrSticky | scheduler/llm_scheduler_half.py:94-99 | once a line raises, the later lines change nothing |
| RangePlans.AssignmentErrIff | scheduler/llm_scheduler_half.py:94-99 | the assignment raises exactly when some line holds two or more `:` |
| RangePlans.ColonFields | scheduler/llm_scheduler_half.py:95-96 | a line holds a `:` exactly when it splits into two or more fields, and it splits into one more field than it has colons |
| RangePlans.AssignmentLastWins | scheduler/llm_scheduler_half.py:94-99 | when the assignment succeeds, each agent maps to the pages of the last line naming it |
| RangePlans.AssignmentErrKind | scheduler/llm_scheduler_half.py:96 | the assignment fails only with `ValueError` |
| RangePlans.TailAfterFirstColon | scheduler/llm_scheduler_half.py:80-83 | `":".join(l.split(":")[1:])` is everything after the first colon |
| RangePlans.TailKeepsColons | scheduler/llm_scheduler_v2.py:74-77 | a line `a:rest` for a registry agent maps it to the whole of `rest`, later colons kept, stripped |
| RangePlans.TextPlanSpec | scheduler/llm_scheduler_half.py:79-83 | the text plan names registry agents only and gives each the tail of the last line naming it |
| RangePlans.StrippedPlanSpec | scheduler/llm_scheduler_v2.py:29-77 | the plan raises only for a PDF task: `PdfReadError` without the PDF, else `ValueError` exactly when some line holds two or more `:`; a text plan names registry agents only |
| RangePlans.MakeStrippedPlan | scheduler/llm_scheduler_v2.py:29-77 | `plan(...)` as statements computes `StrippedPlan` |
| RangePlans.Bounds | scheduler/llm_scheduler_v2.py:94 | `map(int, rng.split('-'))` fails only with `ValueError` |
| RangePlans.BoundsNonNegative | scheduler/llm_scheduler_v2.py:94 | bounds that read are never negative, since a `-` always splits |
| RangePlans.BoundsOfPrinted | scheduler/llm_scheduler_v2.py:94 | the range `m-n` written out reads back as `(m, n)` |
| RangePlans.PagesInRange | scheduler/llm_scheduler_v2.py:95-96 | for `m >= 1` the slice `[m-1:n]` is pages `m` to `n` clamped to the document, or none |
| RangePlans.PagesFromZero | scheduler/llm_scheduler_v2.py:95-96 | a range starting at 0 slices from `-1`: only the last page, and only when the range reaches the end |
| RangePlans.PagePlan | scheduler/llm_scheduler_v2.py:91-96 | one entry per planned agent, in order, holding the pages of its range |
| RangePlans.RangeWorksReadable | scheduler/llm_scheduler_v2.py:91-98 | when every range reads and the PDF is there, the calls are one per page of each agent's range, in plan order |
| RangePlans.RangeWorksAborted | scheduler/llm_scheduler_v2.py:91-98 | otherwise the calls stop at the first range that does not read (`ValueError`) or at a missing PDF (`PdfReadError`) |
| RangePlans.RangeWorksCons | scheduler/llm_scheduler_v2.py:91-98 | the first agent's pages come first, then the rest of the plan |
| RangePlans.RangeOutcome | scheduler/llm_scheduler_v2.py:88-146 | with readable ranges the run raises exactly when some pass is not clean and a clean run stores every write and the summary; unreadable ranges always raise; no other context changes |
| RangePlans.RangeAborted | scheduler/llm_scheduler_v2.py:88-128 | after clean calls, an unreadable range raises with their writes and trace kept and no summary |
| SchedulerHalf.Scheduler.constructor | scheduler/llm_scheduler_half.py:16-18 | a new scheduler has an empty memory store and an empty trace |
| SchedulerHalf.Scheduler.Dispatch | scheduler/llm_scheduler_half.py:102-163 | `dispatch` on the memory store and `self.trace` computes `DispatchSpec` |
| SchedulerHalf.DispatchOutcome | scheduler/llm_scheduler_half.py:29-163 | the plan raises exactly for a PDF task without its PDF or with a line of two or more `:`, and then nothing changes; a text plan names registry agents only; with readable ranges the run raises exactly on an unclean pass and a clean run stores every write and the stripped summary; no other context changes |
| SchedulerV2.Scheduler.constructor | scheduler/llm_scheduler_v2.py:16-18 | a new scheduler has an empty memory store and an empty trace |
| SchedulerV2.Scheduler.Dispatch | scheduler/llm_scheduler_v2.py:88-146 | `dispatch` on the memory store and `self.trace` computes `DispatchSpec` |
| SchedulerV2.DispatchOutcome | scheduler/llm_scheduler_v2.py:29-146 | as for llm_scheduler_half.py, with the subscript reading and the missing-key note |
| SchedulerV3.Unplanned | scheduler/llm_scheduler_v3.py:61-62 | a plan that raises leaves memory and trace as they were |
| SchedulerV3.Planned | scheduler/llm_scheduler_v3.py:61-99 | once planned, dispatch is the loop over the plan's ranges followed by the summary |
| SchedulerV3.MakePlan | scheduler/llm_scheduler_v3.py:28-59 | `plan(...)` as statements computes `UsedPlan` |
| SchedulerV3.Scheduler.constructor | scheduler/llm_scheduler_v3.py:16-18 | a new scheduler has an empty memory store and an empty trace |
| SchedulerV3.Scheduler.Dispatch | scheduler/llm_scheduler_v3.py:61-99 | `dispatch` on the memory store and `self.trace` computes `DispatchSpec` |
| SchedulerV3.TextPlanSpec | scheduler/llm_scheduler_v3.py:49-51 | the text plan raises `IndexError` exactly when some line is a bare registry agent name without `:`; otherwise it names registry agents only |
| SchedulerV3.ExtraFieldDropped | scheduler/llm_scheduler_v3.py:51 | a line `a:b:c` maps `a` to `b` alone, where llm_scheduler_half.py maps it to `b:c` |
| SchedulerV3.SecondFieldOnly | scheduler/llm_scheduler_v3.py:51 | a line `a:b:c` maps `a` to `b` stripped |
| SchedulerV3.PlanSpec | scheduler/llm_scheduler_v3.py:28-59 | the plan raises `PdfReadError` for a PDF task without its PDF, `ValueError` for a PDF line of two or more `:`, `IndexError` for a bare agent line of a text task; a text plan names registry agents only |
| SchedulerV3.DispatchOutcome | scheduler/llm_scheduler_v3.py:61-99 | a plan that raises changes nothing; with readable ranges the run raises exactly on an unclean pass and a clean run stores every write and the unstripped summary; no other context changes |
| SchedulerBest3.CleanedResult | scheduler/llm_scheduler_best_3.py:95-97 | `clean` is computed exactly when the call answers with a JSON object whose `result` is a string |
| SchedulerBest3.Check | scheduler/llm_scheduler_best_3.py:109-112 | collecting the summary prompt succeeds exactly when every planned agent's value, if a list, holds only strings |
| SchedulerBest3.Planned | scheduler/llm_scheduler_best_3.py:79-117 | with a plan, dispatch is the loop over its pairs followed by the summary |
| SchedulerBest3.Unplanned | scheduler/llm_scheduler_best_3.py:55-79 | once the file is read, a plan the parser rejects raises before anything is stored or traced |
| SchedulerBest3.Finish | scheduler/llm_scheduler_best_3.py:81-117 | the loop and the summary on the memory store compute `Finished` |
| SchedulerBest3.Scheduler.constructor | scheduler/llm_scheduler_best_3.py:27-29 | a new scheduler has an empty memory store and an empty trace |
| SchedulerBest3.Scheduler.Dispatch | scheduler/llm_scheduler_best_3.py:76-117 | `dispatch` on the memory store and `self.trace` computes `DispatchSpec`, and returns normally exactly when the file reads and the plan parses, on any store the constructor and `dispatch` can produce |
| SchedulerBest3.AppendSpec | scheduler/llm_scheduler_best_3.py:97-105 | every pass is traced and never raises; it writes exactly when `clean` was computed, and then the agent's list gains the segment `## pid` plus the text at its end, one item longer, with every other key kept |
| SchedulerBest3.Segments | scheduler/llm_scheduler_best_3.py:101 | the segments the loop appends are all strings |
| SchedulerBest3.LoopTrace | scheduler/llm_scheduler_best_3.py:81-105 | the loop never raises and traces one entry per pair, in order, with the cleaned text or the marker |
| SchedulerBest3.ApplyAfter | scheduler/llm_scheduler_best_3.py:97-105 | a pass changes only the context's memory, as `After` says |
| SchedulerBest3.AfterList | scheduler/llm_scheduler_best_3.py:98-102 | a pass appends its segment to its own agent's list only, when `clean` was computed |
| SchedulerBest3.LoopLists | scheduler/llm_scheduler_best_3.py:81-105 | after the loop each agent's list is its former list followed by its segments in call order, and an agent without segments is unchanged |
| SchedulerBest3.LoopSafe | scheduler/llm_scheduler_best_3.py:83-105 | the `try` around the whole body means the loop never raises |
| SchedulerBest3.FinishedRaises | scheduler/llm_scheduler_best_3.py:81-117 | the run raises exactly when some planned agent's former value was a list holding a non-string, and then only with `TypeError` |
| SchedulerBest3.FinishedError | scheduler/llm_scheduler_best_3.py:108-112 | the run's exception is what collecting the summary prompt gives on the memory after the loop |
| SchedulerBest3.FinishedFrame | scheduler/llm_scheduler_best_3.py:81-117 | no other context changes |
| SchedulerBest3.JoinableIff | scheduler/llm_scheduler_best_3.py:98-111 | the lists after the loop join exactly when the former values with their new segments do |
| SchedulerBest3.JoinableConcat | scheduler/llm_scheduler_best_3.py:101-111 | a list followed by string segments joins exactly when the list holds only strings |
| SchedulerBest3.FinishedClean | scheduler/llm_scheduler_best_3.py:81-117 | a run that does not raise traces each pair then the summary, stores `summary`, and leaves each agent with segments its former list followed by them |
| SchedulerBest3.ListStaysText | scheduler/llm_scheduler_best_3.py:98-102 | a list of strings stays one through the loop |
| SchedulerBest3.EntryTextLists | scheduler/llm_scheduler_best_3.py:98 | when every context holds lists of strings, so does any context read with the `{}` default |
| SchedulerBest3.NeverRaises | scheduler/llm_scheduler_best_3.py:76-117 | on memory holding lists of strings, dispatch succeeds exactly when the file reads (no bytes, or bytes PyMuPDF opens) and the plan parses |
| SchedulerBest3.StoreKept | scheduler/llm_scheduler_best_3.py:76-117 | dispatch keeps every context's agent values lists of strings |
| SchedulerBest3.LoopKeepsLists | scheduler/llm_scheduler_best_3.py:81-105 | the loop keeps every context's agent values lists of strings |
| SchedulerBest3.ClosingKeepsLists | scheduler/llm_scheduler_best_3.py:108-116 | the summary step keeps every context's agent values lists of strings |

## Left out

- The planning model and summariser (`_plan_with_gpt`, `plan`, `_plan_pdf`, `_plan_text`, `_need_split`'s call, `_answer_direct`, the summary call): their replies are inputs; the prompts sent to them are not modelled.
- Agent HTTP calls: the outcome of each call is an input, so the request payloads (`prompt`, `subtask`, `chunk_id`, the `shared_memory` snapshot and when it is read) are not modelled, except the prompt of llm_scheduler_best_version.py (`SchedulerBestVersion.PromptOf`).
- PDF reading (`_pdf_to_text`, `_pdf_pages`, `split_pdf`, PyPDF2, PyMuPDF, pdfplumber): the extracted page texts are inputs. Which bytes a library cannot open is not modelled: such bytes are the `Unreadable` upload, and reading them raises, before any plan, the library's exception by class name (`PdfReadError` for PyPDF2, `FileDataError` for PyMuPDF, `PdfminerException` for pdfplumber). llm_scheduler_half.py, llm_scheduler_v2.py and llm_scheduler_v3.py model a missing or unreadable PDF as `None`: a PDF task reads it in `plan()` (llm_scheduler_half.py:32, llm_scheduler_v2.py:31, llm_scheduler_v3.py:30), so `None` raises `PdfReadError` before any call or trace entry; a text task reads it again at each range (llm_scheduler_half.py:111, llm_scheduler_v2.py:95, llm_scheduler_v3.py:66), where `None` raises `PdfReadError` after the earlier ranges' calls.
- `json.loads` and `resp.json()`: the decoded value, or the failure, is the input; floating-point numbers are not among the JSON values.
- The servers around the scheduler (the coordinator, the agent servers, server-sent events, threads) and test scripts: not part of the core.
- `str.isdigit` and `str.isalpha` are modelled on ASCII only; Python also accepts other Unicode digits and letters.
- Text.PyInt: reads ASCII digits only (with an optional sign, surrounding white space and single `_` between digits); Python's `int` also reads other Unicode decimal digits, which the model rejects.
- RangePlans.Bounds: inherits the ASCII-only reading of `int`, so a range written in non-ASCII decimal digits is a `ValueError` here and reads in Python.
- `repr` of a JSON value quotes every string with single quotes and escapes nothing; Python switches quotes and escapes special characters.
- The messages of exceptions raised by the `requests` library are inputs; those raised by Python built-ins on the reply (`AttributeError`, `TypeError`, `KeyError`) are written out in CPython 3.11 wording.
- `dict.update` with a list argument: each element must iterate to two items, as Python requires (a two-character string and a two-key dict are pairs too); a pair whose first item is not a string is modelled as raising `TypeError`, because memory keys are strings here, where Python stores a number, boolean or `None` key and raises only for a list or dict key.
- SchedulerBest4: the overall summary prompt, which lists the page summaries sorted by page number (scheduler/llm_scheduler_best_4.py:147-148), is prompt text and is not modelled; the stored `page_summaries` dict is.
- SchedulerBest3: the joined text of the summary prompt is not modelled; only whether joining an agent's list raises is.
- Overwriting.CleanTextWithoutTags: only proves that a text without instruction tags is just stripped; removing `[INST]` and `[/INST]` does not guarantee that no tag remains (removing `[/INST]` from `[IN[/INST]ST]` leaves `[INST]`), so no such property is claimed.

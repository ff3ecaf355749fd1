/** The other plan formats the schedulers read from the oracle: the yes/no
    answer of `_need_split`, the `agent: description` lines of
    `_plan_subtasks`, and the JSON object of `_plan_subtasks_json`,
    `_plan_pdf` and `_plan_text`. */
module SubtaskPlans {
  import opened Wrappers
  import opened Text
  import opened JsonData
  import PyDict
  import opened PlanParser

  const AttributeError := PyError("AttributeError")

  // ---------------------------------------------------------------- yes / no

  /** `_need_split`: the reply, stripped and lower-cased, starts with `y`. */
  predicate NeedSplit(reply: string)
  {
    StartsWith(Lower(Strip(reply)), "y")
  }

  /** A reply asks for a split exactly when its first non-blank character is
      `y` or `Y`. */
  lemma NeedSplitIff(reply: string)
    ensures NeedSplit(reply) <==>
      StripLeft(reply) != [] && (StripLeft(reply)[0] == 'y' || StripLeft(reply)[0] == 'Y')
  {
    var t := StripLeft(reply);
    StripLeftFirst(reply);
    if t != [] {
      StripRightFirst(t);
      var u := Strip(reply);
      assert Lower(u)[0] == if 'A' <= u[0] <= 'Z' then (u[0] as int + 32) as char else u[0];
      assert Lower(u)[..1] == [Lower(u)[0]];
    }
  }

  lemma {:induction false} StripLeftFirst(s: string)
    ensures StripLeft(s) == [] || !IsSpace(StripLeft(s)[0])
  {
    if s != [] && IsSpace(s[0]) {
      StripLeftFirst(s[1..]);
    }
  }

  lemma {:induction false} StripRightFirst(t: string)
    requires t != [] && !IsSpace(t[0])
    ensures StripRight(t) != [] && StripRight(t)[0] == t[0]
    decreases |t|
  {
    if IsSpace(t[|t| - 1]) {
      StripRightFirst(t[..|t| - 1]);
    }
  }

  // ------------------------------------------------- `agent: description`

  /** The description a line gives `agent` under `_plan_subtasks`: the stripped
      text after the first `:` when the line names it. */
  function LineDesc(line: string, registry: seq<string>, agent: string): seq<string>
  {
    match LineTarget(line, registry)
    case None => []
    case Some((i, desc)) => if registry[i] == agent then [Strip(desc)] else []
  }

  /** Reference definition of one agent's subtasks: the descriptions of its
      own lines, in line order. */
  function AgentDescs(lines: seq<string>, registry: seq<string>, agent: string): seq<string>
  {
    if lines == [] then []
    else AgentDescs(lines[..|lines| - 1], registry, agent) + LineDesc(lines[|lines| - 1], registry, agent)
  }

  /** The per-agent description lists (by registry position) after the given lines. */
  function DescLists(lines: seq<string>, registry: seq<string>): (acc: seq<seq<string>>)
    ensures |acc| == |registry|
  {
    if lines == [] then EmptyLists(|registry|)
    else
      var acc := DescLists(lines[..|lines| - 1], registry);
      match LineTarget(lines[|lines| - 1], registry)
      case None => acc
      case Some((i, desc)) => acc[i := acc[i] + [Strip(desc)]]
  }

  /** What `_plan_subtasks` returns for an oracle reply. */
  function SubtaskPlan(reply: string, registry: seq<string>): Plan
  {
    NonEmpty(registry, DescLists(SplitLines(reply), registry))
  }

  /** The loop of `_plan_subtasks`. */
  method PlanSubtasks(reply: string, registry: seq<string>) returns (plan: Plan)
    ensures plan == SubtaskPlan(reply, registry)
  {
    var lines := SplitLines(reply);
    var mapping := EmptyLists(|registry|);
    var i := 0;
    while i < |lines|
      invariant 0 <= i <= |lines|
      invariant mapping == DescLists(lines[..i], registry)
    {
      assert lines[..i + 1][..i] == lines[..i];
      var target := LineTarget(lines[i], registry);
      if target.Some? {
        var (ag, desc) := target.value;
        mapping := mapping[ag := mapping[ag] + [Strip(desc)]];
      }
      i := i + 1;
    }
    assert lines[..|lines|] == lines;
    plan := NonEmpty(registry, mapping);
  }

  lemma {:induction false} DescListsPerAgent(lines: seq<string>, registry: seq<string>)
    requires Distinct(registry)
    ensures forall i :: 0 <= i < |registry| ==>
      DescLists(lines, registry)[i] == AgentDescs(lines, registry, registry[i])
  {
    if lines != [] {
      DescListsPerAgent(lines[..|lines| - 1], registry);
    }
  }

  /** The subtask plan's keys are registry agents in registry order, each with
      a non-empty list; an agent's list is the descriptions of its own lines,
      and it is a key exactly when it has one. */
  lemma SubtaskPlanShape(reply: string, registry: seq<string>)
    requires Distinct(registry)
    ensures InRegistryOrder(SubtaskPlan(reply, registry), registry)
    ensures forall a :: a in registry ==>
      && PyDict.Get(SubtaskPlan(reply, registry), a, []) == AgentDescs(SplitLines(reply), registry, a)
      && (PyDict.HasKey(SubtaskPlan(reply, registry), a) <==> AgentDescs(SplitLines(reply), registry, a) != [])
  {
    var lines := SplitLines(reply);
    var acc := DescLists(lines, registry);
    DescListsPerAgent(lines, registry);
    NonEmptyShape(registry, acc);
    forall a | a in registry
      ensures acc[IndexOf(registry, a)] == AgentDescs(lines, registry, a)
    {
    }
  }

  /** A line `head:desc` naming a registry agent gives it the stripped text
      after the first `:`. */
  lemma LineDescOf(head: string, desc: string, registry: seq<string>)
    requires ':' !in head && Strip(head) in registry
    ensures LineDesc(head + ":" + desc, registry, Strip(head)) == [Strip(desc)]
  {
    LineTargetOf(head, desc, registry);
  }

  // ------------------------------------------------------------ JSON plans

  /** A plan decoded from JSON: its lists may hold any JSON values. */
  type JsonPlan = PyDict.Dict<string, seq<Json>>

  /** `{k: v for k, v in data.items() if k in REGISTRY and isinstance(v, list)}` */
  function KeepLists(fields: PyDict.Dict<string, Json>, registry: seq<string>): JsonPlan
  {
    if fields == [] then []
    else
      (if fields[0].0 in registry && fields[0].1.JArr? then [(fields[0].0, fields[0].1.items)] else [])
      + KeepLists(fields[1..], registry)
  }

  /** The JSON plan of a reply, given what `json.loads` made of it (`None`
      when it raised): `{}` for a reply that is not JSON, the filtered object,
      or the `AttributeError` of `.items()` on a decoded non-object. */
  function JsonPlanOf(data: Option<Json>, registry: seq<string>): Result<JsonPlan, PyError>
  {
    match data
    case None => Ok([])
    case Some(JObj(fields)) => Ok(KeepLists(fields, registry))
    case Some(_) => Err(AttributeError)
  }

  /** The filter keeps the object's order: it works pair by pair. */
  lemma {:induction false} KeepListsAppend(a: PyDict.Dict<string, Json>, b: PyDict.Dict<string, Json>, registry: seq<string>)
    ensures KeepLists(a + b, registry) == KeepLists(a, registry) + KeepLists(b, registry)
  {
    if a != [] {
      assert (a + b)[0] == a[0];
      assert (a + b)[1..] == a[1..] + b;
      KeepListsAppend(a[1..], b, registry);
    } else {
      assert a + b == b;
    }
  }

  /** An agent is in the JSON plan exactly when it is a registry agent whose
      value is a list (empty lists included), and it keeps that list. */
  lemma {:induction false} KeepListsLookup(fields: PyDict.Dict<string, Json>, registry: seq<string>, k: string)
    requires PyDict.UniqueKeys(fields)
    ensures var v := PyDict.Lookup(fields, k);
      PyDict.Lookup(KeepLists(fields, registry), k) ==
        if k in registry && v.Some? && v.value.JArr? then Some(v.value.items) else None
  {
    if fields != [] {
      assert PyDict.UniqueKeys(fields[1..]);
      KeepListsLookup(fields[1..], registry, k);
      if fields[0].0 == k {
        assert !PyDict.HasKey(fields[1..], k) by {
          forall i | 0 <= i < |fields[1..]|
            ensures fields[1..][i].0 != k
          {
            assert fields[1..][i] == fields[i + 1];
          }
        }
        PyDict.GetOfAbsent(fields[1..], k, JNull);
        assert PyDict.Lookup(fields, k) == Some(fields[0].1);
        if k in registry && fields[0].1.JArr? {
          assert KeepLists(fields, registry) == [(k, fields[0].1.items)] + KeepLists(fields[1..], registry);
          assert PyDict.Lookup(KeepLists(fields, registry), k) == Some(fields[0].1.items);
        } else {
          assert PyDict.Lookup(KeepLists(fields[1..], registry), k) == None;
          assert KeepLists(fields, registry) == KeepLists(fields[1..], registry);
        }
      } else {
        assert PyDict.Lookup(fields, k) == PyDict.Lookup(fields[1..], k);
        var rest := KeepLists(fields[1..], registry);
        if fields[0].0 in registry && fields[0].1.JArr? {
          assert KeepLists(fields, registry) == [(fields[0].0, fields[0].1.items)] + rest;
          assert ([(fields[0].0, fields[0].1.items)] + rest)[1..] == rest;
        } else {
          assert KeepLists(fields, registry) == rest;
        }
      }
    }
  }
}

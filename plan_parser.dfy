/** The line grammar an oracle uses to assign units to agents
    (`_parse_plan` / `_parse_page_plan`):

        agent: id1, id2, m-n, ...

    one agent per line. Lines without `:` and lines naming an agent outside the
    registry are ignored; spaces are removed, the rest is split on `,`, and a
    token holding `-` is a range `start-end` expanded to `prefix+i` for i from
    the digits of `start` to the digits of `end`. The variants differ in the
    default prefix and in whether empty tokens are skipped. */
module PlanParser {
  import opened Wrappers
  import opened Text
  import PyDict

  /** An ordered map from agent to its unit ids. */
  type Plan = PyDict.Dict<string, seq<string>>

  const ValueError := PyError("ValueError")

  predicate Distinct(xs: seq<string>)
  {
    forall i, j :: 0 <= i < j < |xs| ==> xs[i] != xs[j]
  }

  /** `[f"{prefix}{i}" for i in range(s, e + 1)]` */
  function ExpandRange(prefix: string, s: nat, e: nat): (ids: seq<string>)
    ensures |ids| == if e < s then 0 else e - s + 1
    ensures forall k :: 0 <= k < |ids| ==> ids[k] == prefix + NatToString(s + k)
  {
    if e < s then [] else seq(e - s + 1, k requires 0 <= k => prefix + NatToString(s + k))
  }

  /** The prefix of a range: the letters of its start bound, or the default. */
  function RangePrefix(start: string, defaultPrefix: string): string
  {
    var letters := Alphas(start);
    if letters != [] then letters else defaultPrefix
  }

  /** The ids one comma-separated token stands for. */
  function TokenIds(token: string, defaultPrefix: string): Result<seq<string>, PyError>
  {
    if '-' !in token then Ok([token])
    else
      var bounds := SplitOn(token, '-');
      if |bounds| != 2 then Err(ValueError)
      else
        var sd := Digits(bounds[0]);
        var ed := Digits(bounds[1]);
        if sd == [] || ed == [] then Err(ValueError)
        else Ok(ExpandRange(RangePrefix(bounds[0], defaultPrefix), ParseNat(sd), ParseNat(ed)))
  }

  /** The ids of a line's tokens, in order; the first malformed token fails. */
  function TokensIds(tokens: seq<string>, defaultPrefix: string, skipEmpty: bool): Result<seq<string>, PyError>
  {
    if tokens == [] then Ok([])
    else
      var r := TokensIds(tokens[..|tokens| - 1], defaultPrefix, skipEmpty);
      var t := tokens[|tokens| - 1];
      if r.Err? || (skipEmpty && t == []) then r
      else
        match TokenIds(t, defaultPrefix)
        case Err(e) => Err(e)
        case Ok(ids) => Ok(r.value + ids)
  }

  /** One token after those before it: skipped when empty and empties are
      skipped, its ids appended otherwise. */
  function TokenStep(r: Result<seq<string>, PyError>, t: string, defaultPrefix: string, skipEmpty: bool)
    : Result<seq<string>, PyError>
  {
    if r.Err? || (skipEmpty && t == []) then r
    else
      match TokenIds(t, defaultPrefix)
      case Err(e) => Err(e)
      case Ok(ids) => Ok(r.value + ids)
  }

  /** The tokens after the first `:`: spaces removed, split on `,`. */
  function Tokens(rest: string): seq<string>
  {
    SplitOn(RemoveChar(rest, ' '), ',')
  }

  /** The registry position of the agent a line names and the text after its
      first `:`, or `None` for a line the parser ignores. */
  function LineTarget(line: string, registry: seq<string>): (t: Option<(nat, string)>)
    ensures t.Some? ==> t.value.0 < |registry|
  {
    if ':' !in line then None
    else
      var (head, rest) := SplitOnce(line, ':');
      var agent := Strip(head);
      if agent !in registry then None else Some((IndexOf(registry, agent), rest))
  }

  /** A line `head:rest` whose `head` holds no `:` and, stripped, names a
      registry agent is read as that agent's line, with `rest` as its text. */
  lemma LineTargetOf(head: string, rest: string, registry: seq<string>)
    requires ':' !in head && Strip(head) in registry
    ensures LineTarget(head + ":" + rest, registry) == Some((IndexOf(registry, Strip(head)), rest))
  {
    var line := head + ":" + rest;
    IndexOfAfterPrefix(head, ':', rest);
    assert line[..|head|] == head;
    assert line[|head| + 1..] == rest;
  }

  /** `{k: [] for k in REGISTRY}` */
  function EmptyLists(n: nat): (acc: seq<seq<string>>)
    ensures |acc| == n && forall i :: 0 <= i < n ==> acc[i] == []
  {
    seq(n, _ => [])
  }

  /** The per-agent lists (indexed by registry position) after the given lines. */
  function Accumulate(lines: seq<string>, registry: seq<string>, defaultPrefix: string, skipEmpty: bool)
    : (r: Result<seq<seq<string>>, PyError>)
    ensures r.Ok? ==> |r.value| == |registry|
  {
    if lines == [] then Ok(EmptyLists(|registry|))
    else AddLine(Accumulate(lines[..|lines| - 1], registry, defaultPrefix, skipEmpty), lines[|lines| - 1],
                 registry, defaultPrefix, skipEmpty)
  }

  /** One line of the plan: its ids go to the agent it names, if any. */
  function AddLine(r: Result<seq<seq<string>>, PyError>, line: string, registry: seq<string>,
                   defaultPrefix: string, skipEmpty: bool): (r': Result<seq<seq<string>>, PyError>)
    requires r.Ok? ==> |r.value| == |registry|
    ensures r'.Ok? ==> |r'.value| == |registry|
  {
    if r.Err? then r
    else
      match LineTarget(line, registry)
      case None => r
      case Some((i, rest)) =>
        match TokensIds(Tokens(rest), defaultPrefix, skipEmpty)
        case Err(e) => Err(e)
        case Ok(ids) => Ok(r.value[i := r.value[i] + ids])
  }

  /** `{k: v for k, v in plan.items() if v}` */
  function NonEmpty(registry: seq<string>, acc: seq<seq<string>>): Plan
    requires |acc| == |registry|
  {
    NonEmptyFrom(registry, acc, 0)
  }

  /** The kept pairs of registry positions `from` onwards. */
  function NonEmptyFrom(registry: seq<string>, acc: seq<seq<string>>, from: nat): Plan
    requires |acc| == |registry| && from <= |registry|
    decreases |registry| - from
  {
    if from == |registry| then []
    else (if acc[from] != [] then [(registry[from], acc[from])] else []) + NonEmptyFrom(registry, acc, from + 1)
  }

  /** What `_parse_plan(text)` returns, or the `ValueError` it raises. */
  function ParsePlan(text: string, registry: seq<string>, defaultPrefix: string, skipEmpty: bool)
    : Result<Plan, PyError>
  {
    match Accumulate(SplitLines(text), registry, defaultPrefix, skipEmpty)
    case Err(e) => Err(e)
    case Ok(acc) => Ok(NonEmpty(registry, acc))
  }

  /** The parser loop itself: lines, then tokens, appending to the agent's list. */
  method Parse(text: string, registry: seq<string>, defaultPrefix: string, skipEmpty: bool)
    returns (r: Result<Plan, PyError>)
    ensures r == ParsePlan(text, registry, defaultPrefix, skipEmpty)
  {
    var lines := SplitLines(text);
    var acc := EmptyLists(|registry|);
    var i := 0;
    while i < |lines|
      invariant 0 <= i <= |lines|
      invariant Accumulate(lines[..i], registry, defaultPrefix, skipEmpty) == Ok(acc)
    {
      assert lines[..i + 1][..i] == lines[..i];
      assert Accumulate(lines[..i + 1], registry, defaultPrefix, skipEmpty)
          == AddLine(Ok(acc), lines[i], registry, defaultPrefix, skipEmpty);
      var next := ParseLine(acc, lines[i], registry, defaultPrefix, skipEmpty);
      if next.Err? {
        r := Err(next.error);
        AccumulateErrSticky(lines, i + 1, registry, defaultPrefix, skipEmpty);
        return;
      }
      acc := next.value;
      i := i + 1;
    }
    assert lines[..|lines|] == lines;
    r := Ok(NonEmpty(registry, acc));
  }

  /** One pass of the line loop. */
  method ParseLine(acc: seq<seq<string>>, line: string, registry: seq<string>, defaultPrefix: string, skipEmpty: bool)
    returns (r: Result<seq<seq<string>>, PyError>)
    requires |acc| == |registry|
    ensures r == AddLine(Ok(acc), line, registry, defaultPrefix, skipEmpty)
  {
    var target := LineTarget(line, registry);
    if target.None? {
      return Ok(acc);
    }
    var (ag, rest) := target.value;
    var ids := LineIds(rest, defaultPrefix, skipEmpty);
    if ids.Err? {
      return Err(ids.error);
    }
    r := Ok(acc[ag := acc[ag] + ids.value]);
  }

  /** The token loop of one line. */
  method LineIds(rest: string, defaultPrefix: string, skipEmpty: bool) returns (r: Result<seq<string>, PyError>)
    ensures r == TokensIds(Tokens(rest), defaultPrefix, skipEmpty)
  {
    var parts := Tokens(rest);
    var ids: seq<string> := [];
    var j := 0;
    while j < |parts|
      invariant 0 <= j <= |parts|
      invariant TokensIds(parts[..j], defaultPrefix, skipEmpty) == Ok(ids)
    {
      assert parts[..j + 1][..j] == parts[..j];
      TokensIdsStep(parts[..j + 1], parts[..j], parts[j], defaultPrefix, skipEmpty);
      var next := AddToken(ids, parts[j], defaultPrefix, skipEmpty);
      if next.Err? {
        r := next;
        TokensErrSticky(parts, j + 1, defaultPrefix, skipEmpty);
        assert parts[..|parts|] == parts;
        return;
      }
      ids := next.value;
      j := j + 1;
    }
    assert parts[..|parts|] == parts;
    r := Ok(ids);
  }

  /** The token loop's step agrees with the definition of the whole line. */
  lemma TokensIdsStep(tokens: seq<string>, init: seq<string>, t: string, defaultPrefix: string, skipEmpty: bool)
    requires tokens != [] && init == tokens[..|tokens| - 1] && t == tokens[|tokens| - 1]
    ensures TokensIds(tokens, defaultPrefix, skipEmpty) == TokenStep(TokensIds(init, defaultPrefix, skipEmpty), t, defaultPrefix, skipEmpty)
  {
  }

  /** One pass of the token loop. */
  method AddToken(ids: seq<string>, part: string, defaultPrefix: string, skipEmpty: bool)
    returns (r: Result<seq<string>, PyError>)
    ensures r == TokenStep(Ok(ids), part, defaultPrefix, skipEmpty)
  {
    if skipEmpty && part == [] {
      return Ok(ids);
    }
    var tok := TokenIds(part, defaultPrefix);
    if tok.Err? {
      return Err(tok.error);
    }
    r := Ok(ids + tok.value);
  }

  lemma {:induction false} TokensErrSticky(tokens: seq<string>, n: nat, defaultPrefix: string, skipEmpty: bool)
    requires n <= |tokens| && TokensIds(tokens[..n], defaultPrefix, skipEmpty).Err?
    ensures TokensIds(tokens, defaultPrefix, skipEmpty) == TokensIds(tokens[..n], defaultPrefix, skipEmpty)
    decreases |tokens| - n
  {
    if n < |tokens| {
      assert tokens[..n + 1][..n] == tokens[..n];
      TokensErrSticky(tokens, n + 1, defaultPrefix, skipEmpty);
    } else {
      assert tokens[..n] == tokens;
    }
  }

  lemma {:induction false} AccumulateErrSticky(lines: seq<string>, n: nat, registry: seq<string>, defaultPrefix: string, skipEmpty: bool)
    requires n <= |lines| && Accumulate(lines[..n], registry, defaultPrefix, skipEmpty).Err?
    ensures Accumulate(lines, registry, defaultPrefix, skipEmpty) == Accumulate(lines[..n], registry, defaultPrefix, skipEmpty)
    decreases |lines| - n
  {
    if n < |lines| {
      assert lines[..n + 1][..n] == lines[..n];
      AccumulateErrSticky(lines, n + 1, registry, defaultPrefix, skipEmpty);
    } else {
      assert lines[..n] == lines;
    }
  }

  /** The ids a single line gives `agent`: none unless the line names it. */
  function LineIdsFor(line: string, registry: seq<string>, agent: string, defaultPrefix: string, skipEmpty: bool)
    : seq<string>
  {
    match LineTarget(line, registry)
    case None => []
    case Some((i, rest)) =>
      if registry[i] != agent then []
      else
        var r := TokensIds(Tokens(rest), defaultPrefix, skipEmpty);
        if r.Ok? then r.value else []
  }

  /** Reference definition of one agent's list: the ids of that agent's own
      lines, concatenated in line order, duplicates kept. */
  function AgentIds(lines: seq<string>, registry: seq<string>, agent: string, defaultPrefix: string, skipEmpty: bool)
    : seq<string>
  {
    if lines == [] then []
    else AgentIds(lines[..|lines| - 1], registry, agent, defaultPrefix, skipEmpty)
         + LineIdsFor(lines[|lines| - 1], registry, agent, defaultPrefix, skipEmpty)
  }

  /** When parsing succeeds, each registry agent's list is exactly the
      concatenation of the ids on its own lines. */
  lemma {:induction false} AccumulateIsPerAgent(lines: seq<string>, registry: seq<string>, defaultPrefix: string, skipEmpty: bool)
    requires Distinct(registry)
    requires Accumulate(lines, registry, defaultPrefix, skipEmpty).Ok?
    ensures forall i :: 0 <= i < |registry| ==>
      Accumulate(lines, registry, defaultPrefix, skipEmpty).value[i] == AgentIds(lines, registry, registry[i], defaultPrefix, skipEmpty)
  {
    if lines != [] {
      var init := lines[..|lines| - 1];
      AccumulateIsPerAgent(init, registry, defaultPrefix, skipEmpty);
      var line := lines[|lines| - 1];
      var target := LineTarget(line, registry);
      if target.Some? {
        var (ag, rest) := target.value;
        forall i | 0 <= i < |registry| && i != ag
          ensures registry[i] != registry[ag]
        {
        }
      }
    }
  }

  /** The parsed plan's keys are registry agents, in registry order, each with
      a non-empty list; an agent is a key exactly when its lines gave it ids,
      and its list is what its lines gave it. */
  lemma ParsePlanShape(text: string, registry: seq<string>, defaultPrefix: string, skipEmpty: bool)
    requires Distinct(registry)
    requires ParsePlan(text, registry, defaultPrefix, skipEmpty).Ok?
    ensures var plan := ParsePlan(text, registry, defaultPrefix, skipEmpty).value;
      && (forall k :: 0 <= k < |plan| ==> plan[k].0 in registry && plan[k].1 != [])
      && (forall k, l :: 0 <= k < l < |plan| ==> IndexOf(registry, plan[k].0) < IndexOf(registry, plan[l].0))
      && (forall a :: a in registry ==>
            && PyDict.Get(plan, a, []) == AgentIds(SplitLines(text), registry, a, defaultPrefix, skipEmpty)
            && (PyDict.HasKey(plan, a) <==> AgentIds(SplitLines(text), registry, a, defaultPrefix, skipEmpty) != []))
  {
    var lines := SplitLines(text);
    var acc := Accumulate(lines, registry, defaultPrefix, skipEmpty).value;
    AccumulateIsPerAgent(lines, registry, defaultPrefix, skipEmpty);
    NonEmptyShape(registry, acc);
    forall a | a in registry
      ensures acc[IndexOf(registry, a)] == AgentIds(lines, registry, a, defaultPrefix, skipEmpty)
    {
    }
  }

  lemma NonEmptyShape(registry: seq<string>, acc: seq<seq<string>>)
    requires |acc| == |registry| && Distinct(registry)
    ensures InRegistryOrder(NonEmpty(registry, acc), registry)
    ensures forall a :: a in registry ==>
            && PyDict.Get(NonEmpty(registry, acc), a, []) == acc[IndexOf(registry, a)]
            && (PyDict.HasKey(NonEmpty(registry, acc), a) <==> acc[IndexOf(registry, a)] != [])
  {
    NonEmptyOrder(registry, acc, 0);
    forall a | a in registry
      ensures PyDict.Get(NonEmpty(registry, acc), a, []) == acc[IndexOf(registry, a)]
      ensures PyDict.HasKey(NonEmpty(registry, acc), a) <==> acc[IndexOf(registry, a)] != []
    {
      NonEmptyGet(registry, acc, 0, IndexOf(registry, a));
    }
  }

  /** Every key is a registry agent with a non-empty list, and keys follow registry order. */
  predicate InRegistryOrder(p: Plan, registry: seq<string>)
  {
    && (forall k :: 0 <= k < |p| ==> p[k].0 in registry && p[k].1 != [])
    && (forall k, l :: 0 <= k < l < |p| ==> IndexOf(registry, p[k].0) < IndexOf(registry, p[l].0))
  }

  lemma IndexOfDistinct(registry: seq<string>, i: nat)
    requires Distinct(registry) && i < |registry|
    ensures IndexOf(registry, registry[i]) == i
  {
    var j := IndexOf(registry, registry[i]);
    assert registry[j] == registry[i];
  }

  lemma {:induction false} NonEmptyOrder(registry: seq<string>, acc: seq<seq<string>>, from: nat)
    requires |acc| == |registry| && Distinct(registry) && from <= |registry|
    ensures InRegistryOrder(NonEmptyFrom(registry, acc, from), registry)
    ensures forall k :: 0 <= k < |NonEmptyFrom(registry, acc, from)| ==>
      from <= IndexOf(registry, NonEmptyFrom(registry, acc, from)[k].0)
    decreases |registry| - from
  {
    if from < |registry| {
      NonEmptyOrder(registry, acc, from + 1);
      IndexOfDistinct(registry, from);
      NonEmptyStep(registry, acc, from, NonEmptyFrom(registry, acc, from + 1));
    }
  }

  /** One registry position of `NonEmptyOrder`: the agent, if kept, goes before
      the later ones. */
  lemma NonEmptyStep(registry: seq<string>, acc: seq<seq<string>>, from: nat, rest: Plan)
    requires |acc| == |registry| && from < |registry| && IndexOf(registry, registry[from]) == from
    requires rest == NonEmptyFrom(registry, acc, from + 1) && InRegistryOrder(rest, registry)
    requires forall k :: 0 <= k < |rest| ==> from + 1 <= IndexOf(registry, rest[k].0)
    ensures InRegistryOrder(NonEmptyFrom(registry, acc, from), registry)
    ensures forall k :: 0 <= k < |NonEmptyFrom(registry, acc, from)| ==>
      from <= IndexOf(registry, NonEmptyFrom(registry, acc, from)[k].0)
  {
    if acc[from] != [] {
      assert NonEmptyFrom(registry, acc, from) == [(registry[from], acc[from])] + rest;
      ConsInOrder((registry[from], acc[from]), rest, registry);
    } else {
      assert NonEmptyFrom(registry, acc, from) == rest;
    }
  }

  lemma ConsInOrder(x: (string, seq<string>), rest: Plan, registry: seq<string>)
    requires x.0 in registry && x.1 != [] && InRegistryOrder(rest, registry)
    requires forall k :: 0 <= k < |rest| ==> IndexOf(registry, x.0) < IndexOf(registry, rest[k].0)
    ensures InRegistryOrder([x] + rest, registry)
    ensures forall k :: 0 <= k < |[x] + rest| ==> IndexOf(registry, x.0) <= IndexOf(registry, ([x] + rest)[k].0)
  {
    ConsAscending(x, rest, [x] + rest, registry);
    ConsBounded(x, rest, [x] + rest, registry);
  }

  /** Putting a pair that comes before all of `rest` at the front keeps the
      keys strictly ascending. */
  lemma ConsAscending(x: (string, seq<string>), rest: Plan, p: Plan, registry: seq<string>)
    requires p == [x] + rest
    requires x.0 in registry && forall k :: 0 <= k < |rest| ==> rest[k].0 in registry
    requires forall k, l :: 0 <= k < l < |rest| ==> IndexOf(registry, rest[k].0) < IndexOf(registry, rest[l].0)
    requires forall k :: 0 <= k < |rest| ==> IndexOf(registry, x.0) < IndexOf(registry, rest[k].0)
    ensures forall k, l :: 0 <= k < l < |p| ==> IndexOf(registry, p[k].0) < IndexOf(registry, p[l].0)
  {
    forall k, l | 0 <= k < l < |p|
      ensures IndexOf(registry, p[k].0) < IndexOf(registry, p[l].0)
    {
      assert p[l] == rest[l - 1];
      if k > 0 {
        assert p[k] == rest[k - 1];
      }
    }
  }

  /** Every pair of `[x] + rest` is a registry agent with ids, at or after `x`. */
  lemma ConsBounded(x: (string, seq<string>), rest: Plan, p: Plan, registry: seq<string>)
    requires p == [x] + rest
    requires x.0 in registry && x.1 != []
    requires forall k :: 0 <= k < |rest| ==> rest[k].0 in registry && rest[k].1 != []
    requires forall k :: 0 <= k < |rest| ==> IndexOf(registry, x.0) < IndexOf(registry, rest[k].0)
    ensures forall k :: 0 <= k < |p| ==> p[k].0 in registry && p[k].1 != [] && IndexOf(registry, x.0) <= IndexOf(registry, p[k].0)
  {
    forall k | 0 <= k < |p|
      ensures p[k].0 in registry && p[k].1 != [] && IndexOf(registry, x.0) <= IndexOf(registry, p[k].0)
    {
      if k > 0 {
        assert p[k] == rest[k - 1];
      }
    }
  }

  lemma {:induction false} NonEmptyGet(registry: seq<string>, acc: seq<seq<string>>, from: nat, i: nat)
    requires |acc| == |registry| && Distinct(registry) && from <= i < |registry|
    ensures PyDict.Get(NonEmptyFrom(registry, acc, from), registry[i], []) == acc[i]
    ensures PyDict.HasKey(NonEmptyFrom(registry, acc, from), registry[i]) <==> acc[i] != []
    decreases |registry| - from
  {
    var k := registry[i];
    var rest := NonEmptyFrom(registry, acc, from + 1);
    var p := NonEmptyFrom(registry, acc, from);
    if i == from {
      forall m | from + 1 <= m < |registry|
        ensures registry[m] != k
      {
      }
      NonEmptyAbsent(registry, acc, from + 1, k);
      PyDict.GetOfAbsent(rest, k, []);
    } else {
      NonEmptyGet(registry, acc, from + 1, i);
      assert registry[from] != k;
    }
    if acc[from] != [] {
      assert p == [(registry[from], acc[from])] + rest;
      PyDict.GetCons((registry[from], acc[from]), rest, k, []);
    } else {
      assert p == rest;
    }
  }

  /** The kept pairs from `from` onwards hold no key that no registry
      position from `from` onwards holds. */
  lemma {:induction false} NonEmptyAbsent(registry: seq<string>, acc: seq<seq<string>>, from: nat, k: string)
    requires |acc| == |registry| && from <= |registry|
    requires forall m :: from <= m < |registry| ==> registry[m] != k
    ensures !PyDict.HasKey(NonEmptyFrom(registry, acc, from), k)
    decreases |registry| - from
  {
    if from < |registry| {
      var rest := NonEmptyFrom(registry, acc, from + 1);
      NonEmptyAbsent(registry, acc, from + 1, k);
      if acc[from] != [] {
        assert NonEmptyFrom(registry, acc, from) == [(registry[from], acc[from])] + rest;
        PyDict.GetCons((registry[from], acc[from]), rest, k, []);
      } else {
        assert NonEmptyFrom(registry, acc, from) == rest;
      }
    }
  }

  /** A range never yields the same id twice. */
  lemma ExpandRangeDistinct(prefix: string, s: nat, e: nat)
    ensures Distinct(ExpandRange(prefix, s, e))
  {
    var ids := ExpandRange(prefix, s, e);
    forall i, j | 0 <= i < j < |ids|
      ensures ids[i] != ids[j]
    {
      NatToStringInjective(s + i, s + j);
      assert ids[i][|prefix|..] == NatToString(s + i);
      assert ids[j][|prefix|..] == NatToString(s + j);
    }
  }

  /** A token is rejected exactly when it holds two or more `-`, or one `-`
      with a bound that has no digit. */
  lemma TokenErrorIff(token: string, defaultPrefix: string)
    ensures TokenIds(token, defaultPrefix).Err? <==>
      && '-' in token
      && (|| Count(token, '-') >= 2
          || Digits(SplitOnce(token, '-').0) == []
          || Digits(SplitOnce(token, '-').1) == [])
  {
    if '-' in token {
      var i := IndexOf(token, '-');
      var rest := token[i + 1..];
      SplitCount(token, '-');
      SplitCount(rest, '-');
      assert SplitOn(token, '-') == [token[..i]] + SplitOn(rest, '-');
      if '-' !in rest {
        assert SplitOn(rest, '-') == [rest];
      }
    }
  }

  /** A token with a single `-` whose bounds both hold digits expands to the
      ids from the start bound's digits to the end bound's digits, with the
      start bound's letters (or the default) as prefix. */
  lemma TokenRange(token: string, defaultPrefix: string)
    requires '-' in token && '-' !in SplitOnce(token, '-').1
    requires Digits(SplitOnce(token, '-').0) != [] && Digits(SplitOnce(token, '-').1) != []
    ensures var (start, end) := SplitOnce(token, '-');
      TokenIds(token, defaultPrefix)
      == Ok(ExpandRange(RangePrefix(start, defaultPrefix), ParseNat(Digits(start)), ParseNat(Digits(end))))
  {
    var i := IndexOf(token, '-');
    assert SplitOn(token[i + 1..], '-') == [token[i + 1..]];
  }
}

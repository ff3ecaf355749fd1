/** The fallback allocations the schedulers use when the oracle's plan is
    empty: dealing pages round-robin over the registry, and splitting them
    in two halves. */
module Allocation {
  import opened Text
  import PyDict
  import opened PlanParser

  /** The per-agent lists (by registry position) after dealing `pages` to
      `k` agents: the page at 0-based position `i` is appended to list `i % k`. */
  function Dealt(pages: seq<string>, k: nat): (acc: seq<seq<string>>)
    requires k > 0
    ensures |acc| == k
  {
    if pages == [] then EmptyLists(k)
    else
      var acc := Dealt(pages[..|pages| - 1], k);
      var j := (|pages| - 1) % k;
      acc[j := acc[j] + [pages[|pages| - 1]]]
  }

  /** `{ag: lists[i] for i, ag in enumerate(REGISTRY)}`: every agent is a key. */
  function Zip(registry: seq<string>, lists: seq<seq<string>>): (p: Plan)
    requires |lists| == |registry|
    ensures |p| == |registry| && forall i :: 0 <= i < |p| ==> p[i] == (registry[i], lists[i])
  {
    seq(|registry|, i requires 0 <= i < |registry| => (registry[i], lists[i]))
  }

  /** The round-robin plan of `dispatch`. */
  function RoundRobinPlan(pageIds: seq<string>, registry: seq<string>): Plan
    requires registry != []
  {
    Zip(registry, Dealt(pageIds, |registry|))
  }

  /** The fallback loop: `plan[list(REGISTRY)[idx % len(REGISTRY)]].append(pid)`. */
  method RoundRobin(pageIds: seq<string>, registry: seq<string>) returns (plan: Plan)
    requires registry != []
    ensures plan == RoundRobinPlan(pageIds, registry)
  {
    var lists := EmptyLists(|registry|);
    var idx := 0;
    while idx < |pageIds|
      invariant 0 <= idx <= |pageIds|
      invariant lists == Dealt(pageIds[..idx], |registry|)
    {
      assert pageIds[..idx + 1][..idx] == pageIds[..idx];
      var ag := idx % |registry|;
      lists := lists[ag := lists[ag] + [pageIds[idx]]];
      idx := idx + 1;
    }
    assert pageIds[..|pageIds|] == pageIds;
    plan := Zip(registry, lists);
  }

  /** Reference definition: the pages at positions `j`, `j + k`, `j + 2k`, ... */
  function Every(pages: seq<string>, j: nat, k: nat): seq<string>
    requires k > 0
    decreases |pages| - j
  {
    if j < |pages| then [pages[j]] + Every(pages, j + k, k) else []
  }

  /** Euclidean division is unique: `m == q * k + r` with `0 <= r < k` fixes
      both the quotient and the remainder. */
  lemma DivModUnique(m: int, q: int, r: int, k: int)
    requires k > 0 && 0 <= r < k && m == q * k + r
    ensures m / k == q && m % k == r
  {
    var q', r' := m / k, m % k;
    assert m == q' * k + r';
    assert (q - q') * k == r' - r;
    MulBound(q - q', k);
  }

  lemma MulBound(d: int, k: int)
    requires k > 0
    ensures d >= 1 ==> d * k >= k
    ensures d <= -1 ==> d * k <= -k
  {
    if d >= 1 {
      assert d * k == (d - 1) * k + k;
      assert (d - 1) * k >= 0;
    } else if d <= -1 {
      assert d * k == (d + 1) * k - k;
      assert (d + 1) * k <= 0;
    }
  }

  lemma ModShift(m: nat, j: nat, k: nat)
    requires j < k
    ensures m % k == j <==> j <= m && (m - j) % k == 0
  {
    if m % k == j {
      DivModUnique(m - j, m / k, 0, k);
    }
    if j <= m && (m - j) % k == 0 {
      DivModUnique(m, (m - j) / k, j, k);
    }
  }

  lemma {:induction false} EveryAppend(pages: seq<string>, x: string, j: nat, k: nat)
    requires k > 0
    ensures Every(pages + [x], j, k) ==
      Every(pages, j, k) + (if j <= |pages| && (|pages| - j) % k == 0 then [x] else [])
    decreases |pages| - j
  {
    if j < |pages| {
      EveryAppend(pages, x, j + k, k);
      assert (pages + [x])[j] == pages[j];
      if j + k <= |pages| {
        assert (|pages| - j) - k == |pages| - (j + k);
      }
      ModStep(|pages| - j, k);
    } else if j == |pages| {
      assert Every(pages + [x], j + k, k) == [];
    }
  }

  lemma ModStep(a: nat, k: nat)
    requires k > 0
    ensures a >= k ==> (a - k) % k == a % k
    ensures 0 < a < k ==> a % k != 0
  {
    if a >= k {
      DivModUnique(a, (a - k) / k + 1, (a - k) % k, k);
    } else {
      DivModUnique(a, 0, a, k);
    }
  }

  /** Agent `j`'s list after dealing is exactly the pages at positions
      `j`, `j + k`, ...: page `i` goes to agent `i % k`, and each list keeps
      page order. */
  lemma {:induction false} DealtIsEvery(pages: seq<string>, k: nat)
    requires k > 0
    ensures forall j :: 0 <= j < k ==> Dealt(pages, k)[j] == Every(pages, j, k)
  {
    if pages != [] {
      var init := pages[..|pages| - 1];
      var x := pages[|pages| - 1];
      DealtIsEvery(init, k);
      assert init + [x] == pages;
      forall j | 0 <= j < k
        ensures Dealt(pages, k)[j] == Every(pages, j, k)
      {
        EveryAppend(init, x, j, k);
        ModShift(|init|, j, k);
      }
    }
  }

  /** The round-robin plan has every registry agent as a key, in registry
      order, even with an empty list, and gives agent `j` the pages at
      positions `j`, `j + K`, ... */
  lemma RoundRobinSpec(pageIds: seq<string>, registry: seq<string>)
    requires registry != []
    ensures PyDict.Keys(RoundRobinPlan(pageIds, registry)) == registry
    ensures forall j :: 0 <= j < |registry| ==>
      RoundRobinPlan(pageIds, registry)[j].1 == Every(pageIds, j, |registry|)
  {
    DealtIsEvery(pageIds, |registry|);
  }

  /** `half = len(pages)//2 or 1` */
  function Half(n: nat): nat
  {
    if n / 2 == 0 then 1 else n / 2
  }

  /** `{first: ids[:half], second: ids[half:]}` */
  function HalfSplit<T>(ids: seq<T>, first: string, second: string): PyDict.Dict<string, seq<T>>
  {
    [(first, Slice(ids, 0, Half(|ids|))), (second, Slice(ids, Half(|ids|), |ids|))]
  }

  /** The two halves put back together are the pages, in order; the first
      half holds `len // 2` pages, or all of them when there is at most one,
      in which case the second agent gets none. */
  lemma HalfSplitSpec<T>(ids: seq<T>, first: string, second: string)
    ensures HalfSplit(ids, first, second)[0].1 + HalfSplit(ids, first, second)[1].1 == ids
    ensures |HalfSplit(ids, first, second)[0].1| == if |ids| <= 1 then |ids| else |ids| / 2
    ensures |ids| <= 1 <==> HalfSplit(ids, first, second)[1].1 == []
  {
    var h := Half(|ids|);
    if |ids| <= 1 {
      assert Slice(ids, 0, h) == ids;
    } else {
      assert Slice(ids, 0, h) == ids[..h];
      assert Slice(ids, h, |ids|) == ids[h..];
      assert ids[..h] + ids[h..] == ids;
    }
  }
}

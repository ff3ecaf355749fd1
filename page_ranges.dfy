/** `_page_ranges`: the page ids an agent is given, compressed into runs of
    consecutive page numbers `(page_a, page_b)`. */
module PageRanges {
  import opened Wrappers
  import opened Text
  import opened JsonData

  const AttributeError := PyError("AttributeError")
  const IndexError := PyError("IndexError")
  const ValueError := PyError("ValueError")

  /** `int(i.split("_")[1])` for one id. */
  function PageNumber(id: Json): Result<int, PyError>
  {
    if !id.JStr? then Err(AttributeError)
    else
      var parts := SplitOn(id.s, '_');
      if |parts| < 2 then Err(IndexError)
      else if PyInt(parts[1]).None? then Err(ValueError)
      else Ok(PyInt(parts[1]).value)
  }

  /** The numbers of all ids, in order; the first bad id raises. */
  function PageNumbers(ids: seq<Json>): (r: Result<seq<int>, PyError>)
    ensures r.Ok? ==> |r.value| == |ids|
  {
    if ids == [] then Ok([])
    else
      match PageNumber(ids[0])
      case Err(e) => Err(e)
      case Ok(n) =>
        match PageNumbers(ids[1..])
        case Err(e) => Err(e)
        case Ok(ns) => Ok([n] + ns)
  }

  // ------------------------------------------------------------- sorting

  predicate Sorted(xs: seq<int>)
  {
    forall i, j :: 0 <= i < j < |xs| ==> xs[i] <= xs[j]
  }

  function Insert(x: int, xs: seq<int>): seq<int>
  {
    if xs == [] || x <= xs[0] then [x] + xs else [xs[0]] + Insert(x, xs[1..])
  }

  /** `sorted(nums)` */
  function Sort(xs: seq<int>): seq<int>
  {
    if xs == [] then [] else Insert(xs[0], Sort(xs[1..]))
  }

  /** Inserting into ascending numbers keeps them ascending and adds `x`. */
  lemma InsertSpec(x: int, xs: seq<int>)
    requires Sorted(xs)
    ensures Sorted(Insert(x, xs))
    ensures multiset(Insert(x, xs)) == multiset(xs) + multiset{x}
  {
    InsertSorted(x, xs);
    InsertCount(x, xs);
  }

  lemma {:induction false} InsertSorted(x: int, xs: seq<int>)
    requires Sorted(xs)
    ensures Sorted(Insert(x, xs))
  {
    if xs != [] && x > xs[0] {
      InsertSorted(x, xs[1..]);
      InsertLowerBound(xs[0], x, xs[1..]);
      var r := Insert(x, xs[1..]);
      assert Insert(x, xs) == [xs[0]] + r;
      forall i, j | 0 <= i < j < |[xs[0]] + r|
        ensures ([xs[0]] + r)[i] <= ([xs[0]] + r)[j]
      {
        if i > 0 {
          assert ([xs[0]] + r)[i] == r[i - 1];
        }
      }
    }
  }

  lemma {:induction false} InsertCount(x: int, xs: seq<int>)
    ensures multiset(Insert(x, xs)) == multiset(xs) + multiset{x}
  {
    if xs != [] && x > xs[0] {
      InsertCount(x, xs[1..]);
      assert xs == [xs[0]] + xs[1..];
    }
  }

  /** A lower bound of `x` and of `xs` is one of `Insert(x, xs)`. */
  lemma {:induction false} InsertLowerBound(m: int, x: int, xs: seq<int>)
    requires m <= x && forall k :: 0 <= k < |xs| ==> m <= xs[k]
    ensures forall k :: 0 <= k < |Insert(x, xs)| ==> m <= Insert(x, xs)[k]
  {
    if xs != [] && x > xs[0] {
      InsertLowerBound(m, x, xs[1..]);
    }
  }

  /** `sorted` returns its input in ascending order. */
  lemma {:induction false} SortSpec(xs: seq<int>)
    ensures Sorted(Sort(xs))
    ensures multiset(Sort(xs)) == multiset(xs)
  {
    if xs != [] {
      SortSpec(xs[1..]);
      InsertSpec(xs[0], Sort(xs[1..]));
      assert xs == [xs[0]] + xs[1..];
    }
  }

  // ---------------------------------------------------------------- runs

  /** The loop state `(out, start, prev)` after the numbers so far. */
  function Scan(nums: seq<int>): (seq<(int, int)>, int, int)
    requires nums != []
  {
    if |nums| == 1 then ([], nums[0], nums[0])
    else
      var (out, start, prev) := Scan(nums[..|nums| - 1]);
      var n := nums[|nums| - 1];
      if n == prev + 1 then (out, start, n) else (out + [(start, prev)], n, n)
  }

  /** The runs `_page_ranges` emits: the closed runs and the last open one. */
  function Runs(nums: seq<int>): seq<(int, int)>
    requires nums != []
  {
    var (out, start, prev) := Scan(nums);
    out + [(start, prev)]
  }

  /** `(f"page_{a}", f"page_{b}")` */
  function Label(run: (int, int)): (string, string)
  {
    ("page_" + IntToString(run.0), "page_" + IntToString(run.1))
  }

  function Labels(runs: seq<(int, int)>): (r: seq<(string, string)>)
    ensures |r| == |runs|
  {
    seq(|runs|, i requires 0 <= i < |runs| => Label(runs[i]))
  }

  /** What `_page_ranges(ids)` returns or raises (`nums[0]` on no ids). */
  function PageRangesOf(ids: seq<Json>): Result<seq<(string, string)>, PyError>
  {
    match PageNumbers(ids)
    case Err(e) => Err(e)
    case Ok(nums) =>
      var sorted := Sort(nums);
      if sorted == [] then Err(IndexError) else Ok(Labels(Runs(sorted)))
  }

  /** The run-building loop of `_page_ranges`. */
  method PageRanges(ids: seq<Json>) returns (r: Result<seq<(string, string)>, PyError>)
    ensures r == PageRangesOf(ids)
  {
    var parsed := PageNumbers(ids);
    if parsed.Err? {
      return Err(parsed.error);
    }
    var nums := Sort(parsed.value);
    if nums == [] {
      return Err(IndexError);
    }
    var out: seq<(int, int)> := [];
    var start := nums[0];
    var prev := start;
    var i := 1;
    while i < |nums|
      invariant 1 <= i <= |nums|
      invariant Scan(nums[..i]) == (out, start, prev)
    {
      assert nums[..i + 1][..i] == nums[..i];
      var n := nums[i];
      if n == prev + 1 {
        prev := n;
      } else {
        out := out + [(start, prev)];
        start, prev := n, n;
      }
      i := i + 1;
    }
    assert nums[..|nums|] == nums;
    out := out + [(start, prev)];
    r := Ok(Labels(out));
  }

  /** The numbers `a, a+1, ..., b` of a run. */
  function Interval(a: int, b: int): seq<int>
    decreases b - a
  {
    if a > b then [] else [a] + Interval(a + 1, b)
  }

  function Expand(runs: seq<(int, int)>): seq<int>
  {
    if runs == [] then [] else Interval(runs[0].0, runs[0].1) + Expand(runs[1..])
  }

  lemma {:induction false} IntervalExtend(a: int, b: int)
    requires a <= b + 1
    ensures Interval(a, b + 1) == Interval(a, b) + [b + 1]
    decreases b - a
  {
    if a <= b {
      IntervalExtend(a + 1, b);
    }
  }

  lemma {:induction false} ExpandAppend(runs: seq<(int, int)>, run: (int, int))
    ensures Expand(runs + [run]) == Expand(runs) + Interval(run.0, run.1)
  {
    if runs != [] {
      assert (runs + [run])[1..] == runs[1..] + [run];
      ExpandAppend(runs[1..], run);
    } else {
      assert [run][1..] == [];
    }
  }

  /** What the loop keeps: the closed runs and the open run expand to the
      numbers read, each run is non-empty and the open run ends at the last
      number. */
  lemma {:induction false} ScanSpec(nums: seq<int>)
    requires nums != []
    ensures var (out, start, prev) := Scan(nums);
      && Expand(out) + Interval(start, prev) == nums
      && start <= prev && prev == nums[|nums| - 1]
      && (forall k :: 0 <= k < |out| ==> out[k].0 <= out[k].1)
  {
    if |nums| == 1 {
      assert Interval(nums[0], nums[0]) == [nums[0]];
    } else {
      var init := nums[..|nums| - 1];
      ScanSpec(init);
      var (out, start, prev) := Scan(init);
      var n := nums[|nums| - 1];
      assert nums == init + [n];
      if n == prev + 1 {
        IntervalExtend(start, prev);
      } else {
        ExpandAppend(out, (start, prev));
        assert Interval(n, n) == [n];
      }
    }
  }

  /** On ascending numbers the loop never closes a run that the next number
      would have continued. */
  lemma {:induction false} ScanApart(nums: seq<int>)
    requires nums != [] && Sorted(nums)
    ensures var (out, start, prev) := Scan(nums); RunsApart(out + [(start, prev)])
  {
    if |nums| > 1 {
      var init := nums[..|nums| - 1];
      assert Sorted(init);
      ScanApart(init);
      ScanLast(init);
      var (out, start, prev) := Scan(init);
      var n := nums[|nums| - 1];
      assert prev <= n;
      if n == prev + 1 {
        ApartExtended(out, start, prev, n);
      } else {
        ApartClosed(out, start, prev, n);
      }
    }
  }

  /** The open run always ends at the last number scanned. */
  lemma {:induction false} ScanLast(nums: seq<int>)
    requires nums != []
    ensures Scan(nums).2 == nums[|nums| - 1]
  {
    if |nums| > 1 {
      ScanLast(nums[..|nums| - 1]);
    }
  }

  /** Extending the open run keeps the runs apart. */
  lemma ApartExtended(out: seq<(int, int)>, start: int, prev: int, n: int)
    requires RunsApart(out + [(start, prev)])
    ensures RunsApart(out + [(start, n)])
  {
    var runs := out + [(start, prev)];
    var runs' := out + [(start, n)];
    forall k | 0 <= k < |runs'| - 1
      ensures runs'[k].1 <= runs'[k + 1].0 && runs'[k].1 + 1 != runs'[k + 1].0
    {
      assert runs'[k] == runs[k] && runs'[k + 1].0 == runs[k + 1].0;
    }
  }

  /** Closing the open run before a number that does not continue it keeps
      the runs apart. */
  lemma ApartClosed(out: seq<(int, int)>, start: int, prev: int, n: int)
    requires RunsApart(out + [(start, prev)]) && prev <= n && n != prev + 1
    ensures RunsApart(out + [(start, prev)] + [(n, n)])
  {
    var runs := out + [(start, prev)];
    var runs' := runs + [(n, n)];
    forall k | 0 <= k < |runs'| - 1
      ensures runs'[k].1 <= runs'[k + 1].0 && runs'[k].1 + 1 != runs'[k + 1].0
    {
      if k < |runs| - 1 {
        assert runs'[k] == runs[k] && runs'[k + 1] == runs[k + 1];
      }
    }
  }

  /** Runs in ascending order, each ending before the next begins less one:
      a run is never followed by its own continuation. */
  predicate RunsApart(runs: seq<(int, int)>)
  {
    forall k :: 0 <= k < |runs| - 1 ==> runs[k].1 <= runs[k + 1].0 && runs[k].1 + 1 != runs[k + 1].0
  }

  /** Expanding the runs gives back the numbers, in order; every run has
      `a <= b`; on sorted numbers the runs ascend and are maximal. */
  lemma RunsSpec(nums: seq<int>)
    requires nums != []
    ensures Expand(Runs(nums)) == nums
    ensures forall k :: 0 <= k < |Runs(nums)| ==> Runs(nums)[k].0 <= Runs(nums)[k].1
    ensures Sorted(nums) ==> RunsApart(Runs(nums))
  {
    ScanSpec(nums);
    if Sorted(nums) {
      ScanApart(nums);
    }
    var (out, start, prev) := Scan(nums);
    ExpandAppend(out, (start, prev));
  }

  /** `_page_ranges` succeeds exactly when there is at least one id and every
      id is a string with a numeric field after its first `_`; its runs, read
      back, are the page numbers sorted ascending. */
  lemma PageRangesSpec(ids: seq<Json>)
    ensures PageRangesOf(ids).Ok? <==> ids != [] && PageNumbers(ids).Ok?
    ensures PageRangesOf(ids).Ok? ==>
      var nums := PageNumbers(ids).value;
      exists runs ::
        && PageRangesOf(ids).value == Labels(runs)
        && Expand(runs) == Sort(nums)
        && Sorted(Expand(runs)) && multiset(Expand(runs)) == multiset(nums)
        && RunsApart(runs)
  {
    if PageNumbers(ids).Ok? {
      var nums := PageNumbers(ids).value;
      SortSpec(nums);
      if ids != [] {
        assert nums[0] in multiset(nums);
        var sorted := Sort(nums);
        assert sorted != [];
        RunsSpec(sorted);
        var runs := Runs(sorted);
        assert PageRangesOf(ids).value == Labels(runs);
      }
    }
  }

  /** A run's label reads back as its number: `int(f"page_{a}".split("_")[1]) == a`. */
  lemma LabelRoundTrip(a: int)
    ensures PageNumber(JStr("page_" + IntToString(a))) == Ok(a)
  {
    var s := "page_" + IntToString(a);
    var digits := IntToString(a);
    assert '_' !in digits by {
      assert digits == (if a < 0 then "-" else "") + NatToString(if a < 0 then -a else a);
    }
    IndexOfAfterPrefix("page", '_', digits);
    assert s == "page" + ['_'] + digits;
    assert s[5..] == digits;
    assert SplitOn(s[5..], '_') == [digits];
    PyIntOfIntToString(a);
  }
}

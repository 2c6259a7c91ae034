/** Index ranges (_format_index_ranges in vllm/model_inspection.py): `0-2, 4-6` for 0, 1, 2, 4, 5, 6. */
module IndexRanges {
  import opened Prelude
  import Sorting

  datatype Range = Range(first: int, last: int)

  ghost predicate Ascending(xs: seq<int>) {
    forall i, j | 0 <= i < j < |xs| :: xs[i] <= xs[j]
  }

  /** The indices a printed range stands for. */
  function Expand(r: Range): seq<int>
    requires r.first <= r.last
  {
    seq(r.last + 1 - r.first, i => r.first + i)
  }

  predicate Proper(rs: seq<Range>) {
    forall k | 0 <= k < |rs| :: rs[k].first <= rs[k].last
  }

  function ExpandAll(rs: seq<Range>): seq<int>
    requires Proper(rs)
  {
    if rs == [] then [] else ExpandAll(rs[..|rs| - 1]) + Expand(rs[|rs| - 1])
  }

  /** Each range ends before the next begins, and no two could be written as one. */
  ghost predicate Apart(rs: seq<Range>) {
    forall j, k | 0 <= j < k < |rs| :: rs[j].last + 1 < rs[k].first
  }

  lemma ExpandGrows(rs: seq<Range>, first: int, last: int)
    requires Proper(rs) && first <= last
    ensures ExpandAll(rs + [Range(first, last)]) == ExpandAll(rs) + Expand(Range(first, last))
    ensures ExpandAll(rs + [Range(first, last + 1)]) == ExpandAll(rs + [Range(first, last)]) + [last + 1]
  {
    assert (rs + [Range(first, last)])[..|rs|] == rs && (rs + [Range(first, last + 1)])[..|rs|] == rs;
    assert Expand(Range(first, last + 1)) == Expand(Range(first, last)) + [last + 1];
  }

  /** The ranges so far, with the current one, stand for the first `k` indices. */
  ghost predicate Joined(ranges: seq<Range>, start: int, end: int, sorted: seq<int>, k: nat)
    requires 1 <= k <= |sorted|
  {
    && Proper(ranges) && start <= end == sorted[k - 1]
    && ExpandAll(ranges + [Range(start, end)]) == sorted[..k]
    && (Rising(sorted) ==> Apart(ranges + [Range(start, end)]))
  }

  lemma RunBegins(sorted: seq<int>)
    requires sorted != []
    ensures Joined([], sorted[0], sorted[0], sorted, 1)
  {
    ExpandGrows([], sorted[0], sorted[0]);
    assert sorted[..1] == [sorted[0]];
  }

  lemma RunGrows(ranges: seq<Range>, start: int, end: int, sorted: seq<int>, k: nat)
    requires 1 <= k < |sorted| && Joined(ranges, start, end, sorted, k) && sorted[k] == end + 1
    ensures Joined(ranges, start, end + 1, sorted, k + 1)
  {
    assert sorted[..k + 1] == sorted[..k] + [sorted[k]];
    ExpandGrows(ranges, start, end);
    var before, after := ranges + [Range(start, end)], ranges + [Range(start, end + 1)];
    assert forall j | 0 <= j < |ranges| :: after[j] == before[j];
  }

  lemma RunBreaks(ranges: seq<Range>, start: int, end: int, sorted: seq<int>, k: nat)
    requires 1 <= k < |sorted| && Ascending(sorted) && Joined(ranges, start, end, sorted, k) && sorted[k] != end + 1
    ensures Joined(ranges + [Range(start, end)], sorted[k], sorted[k], sorted, k + 1)
  {
    assert sorted[..k + 1] == sorted[..k] + [sorted[k]];
    var before := ranges + [Range(start, end)];
    ExpandGrows(before, sorted[k], sorted[k]);
    if Rising(sorted) {
      assert sorted[k - 1] < sorted[k];
      forall j | 0 <= j < |before| ensures before[j].last + 1 < sorted[k] {
        assert j < |ranges| ==> before[j].last + 1 < before[|ranges|].first;
      }
    }
  }

  /** The loop that joins runs of consecutive indices. */
  method JoinRuns(sorted: seq<int>) returns (ranges: seq<Range>)
    requires sorted != [] && Ascending(sorted)
    ensures Proper(ranges) && ExpandAll(ranges) == sorted && (Rising(sorted) ==> Apart(ranges))
  {
    ranges := [];
    var start, end := sorted[0], sorted[0];
    RunBegins(sorted);
    for k := 1 to |sorted|
      invariant Joined(ranges, start, end, sorted, k)
    {
      var idx := sorted[k];
      if idx == end + 1 {
        RunGrows(ranges, start, end, sorted, k);
        end := idx;
      } else {
        RunBreaks(ranges, start, end, sorted, k);
        ranges := ranges + [Range(start, end)];
        start, end := idx, idx;
      }
    }
    assert sorted[..|sorted|] == sorted;
    ranges := ranges + [Range(start, end)];
  }

  /** The printed ranges expand to exactly the sorted indices, and if no index is given twice no two
      ranges touch. */
  method FormatRanges(indices: seq<int>) returns (r: Option<seq<Range>>)
    ensures r.None? <==> indices == []
    ensures r.Some? ==>
              Proper(r.value) && Ascending(ExpandAll(r.value)) && multiset(ExpandAll(r.value)) == multiset(indices)
    ensures r.Some? && Distinct(indices) ==> Apart(r.value)
    ensures r.Some? ==> forall k | 0 <= k < |r.value| :: r.value[k].first in indices && r.value[k].last in indices
  {
    if indices == [] {
      return None;
    }
    var sorted := Sorting.Sort(indices, (x: int, y: int) => x <= y);
    assert Ascending(sorted);
    assert |multiset(sorted)| == |multiset(indices)|;
    var ranges := JoinRuns(sorted);
    if Distinct(indices) { SortedDistinct(indices, sorted); }
    forall k | 0 <= k < |ranges| ensures ranges[k].first in indices && ranges[k].last in indices {
      EndsExpanded(ranges, k);
      assert multiset(ExpandAll(ranges)) == multiset(indices);
      assert ranges[k].first in multiset(indices) && ranges[k].last in multiset(indices);
    }
    r := Some(ranges);
  }

  lemma {:induction false} EndsExpanded(rs: seq<Range>, k: nat)
    requires Proper(rs) && k < |rs|
    ensures rs[k].first in ExpandAll(rs) && rs[k].last in ExpandAll(rs)
  {
    if k < |rs| - 1 {
      EndsExpanded(rs[..|rs| - 1], k);
    } else {
      var ends := Expand(rs[k]);
      assert ends[0] == rs[k].first && ends[|ends| - 1] == rs[k].last;
    }
  }

  lemma SortedDistinct(xs: seq<int>, sorted: seq<int>)
    requires Distinct(xs) && multiset(sorted) == multiset(xs) && Ascending(sorted)
    ensures Rising(sorted)
  {
    Sorting.PartOfDistinct(sorted, xs);
  }

  // ----- No shorter list of ranges will do

  ghost predicate Within(r: Range, x: int) { r.first <= x <= r.last }

  ghost predicate Denotes(rs: seq<Range>, x: int) { exists k | 0 <= k < |rs| :: Within(rs[k], x) }

  /** The index just after a range is not denoted. */
  lemma GapAfter(rs: seq<Range>, i: nat)
    requires Proper(rs) && Apart(rs) && i < |rs|
    ensures !Denotes(rs, rs[i].last + 1)
  {
    forall k | 0 <= k < |rs| ensures !Within(rs[k], rs[i].last + 1) {
      assert k < i ==> rs[k].last + 1 < rs[i].first;
    }
  }

  /** The range of `other` that holds the first index of `rs[i]`. */
  ghost function Home(rs: seq<Range>, other: seq<Range>, i: nat): (k: nat)
    requires i < |rs| && Proper(rs) && forall x :: Denotes(rs, x) <==> Denotes(other, x)
    ensures k < |other| && Within(other[k], rs[i].first)
  {
    assert Within(rs[i], rs[i].first);
    assert Denotes(rs, rs[i].first);
    assert Denotes(other, rs[i].first);
    var k :| 0 <= k < |other| && Within(other[k], rs[i].first);
    k
  }

  lemma HomesDiffer(rs: seq<Range>, other: seq<Range>, i: nat, j: nat)
    requires i < j < |rs| && Proper(rs) && Apart(rs) && forall x :: Denotes(rs, x) <==> Denotes(other, x)
    ensures Home(rs, other, i) != Home(rs, other, j)
  {
    GapAfter(rs, i);
    var k := Home(rs, other, i);
    assert !Denotes(other, rs[i].last + 1);
    assert !Within(other[k], rs[i].last + 1);
  }

  lemma {:induction false} ExpandDenotes(rs: seq<Range>, x: int)
    requires Proper(rs)
    ensures x in ExpandAll(rs) <==> Denotes(rs, x)
  {
    if rs != [] {
      var n := |rs| - 1;
      ExpandDenotes(rs[..n], x);
      assert x in Expand(rs[n]) <==> Within(rs[n], x) by {
        if Within(rs[n], x) { assert Expand(rs[n])[x - rs[n].first] == x; }
      }
      assert Denotes(rs, x) <==> Denotes(rs[..n], x) || Within(rs[n], x) by {
        assert forall k | 0 <= k < n :: rs[..n][k] == rs[k];
      }
    }
  }

  /** Ranges that do not touch are as few as possible: any ranges for the same indices are no fewer. */
  lemma FewestRanges(rs: seq<Range>, other: seq<Range>)
    requires Proper(rs) && Apart(rs) && Proper(other) && forall x :: x in ExpandAll(rs) <==> x in ExpandAll(other)
    ensures |rs| <= |other|
  {
    forall x ensures Denotes(rs, x) <==> Denotes(other, x) {
      ExpandDenotes(rs, x);
      ExpandDenotes(other, x);
    }
    HomesFit(rs, other, |rs|);
    InitialSegment(Homes(rs, other, |rs|), |other|);
  }

  ghost function Homes(rs: seq<Range>, other: seq<Range>, n: nat): set<nat>
    requires n <= |rs| && Proper(rs) && forall x :: Denotes(rs, x) <==> Denotes(other, x)
  {
    if n == 0 then {} else Homes(rs, other, n - 1) + {Home(rs, other, n - 1)}
  }

  lemma {:induction false} HomeIsNew(rs: seq<Range>, other: seq<Range>, n: nat, j: nat)
    requires n <= j < |rs| && Proper(rs) && Apart(rs) && forall x :: Denotes(rs, x) <==> Denotes(other, x)
    ensures Home(rs, other, j) !in Homes(rs, other, n)
  {
    if n > 0 {
      HomeIsNew(rs, other, n - 1, j);
      HomesDiffer(rs, other, n - 1, j);
    }
  }

  lemma {:induction false} HomesFit(rs: seq<Range>, other: seq<Range>, n: nat)
    requires n <= |rs| && Proper(rs) && Apart(rs) && forall x :: Denotes(rs, x) <==> Denotes(other, x)
    ensures |Homes(rs, other, n)| == n && forall x | x in Homes(rs, other, n) :: x < |other|
  {
    if n > 0 {
      HomesFit(rs, other, n - 1);
      HomeIsNew(rs, other, n - 1, n - 1);
    }
  }

  lemma {:induction false} InitialSegment(s: set<nat>, n: nat)
    requires forall x | x in s :: x < n
    ensures |s| <= n
  {
    if n == 0 {
      assert s == {};
    } else {
      InitialSegment(s - {n - 1}, n - 1);
    }
  }
}

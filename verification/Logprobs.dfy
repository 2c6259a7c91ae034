/** Flattened log-probabilities (vllm/logprobs.py): a list of dictionaries kept in parallel columns. */
module Logprobs {
  import opened Prelude

  datatype Logprob = Logprob(logprob: real, rank: Option<int>, decodedToken: Option<string>)

  /** One entry of a dictionary, or one row of the columns. */
  datatype Item = Item(token: int, value: Logprob)

  type Position = map<int, Logprob>

  /** The dictionary built from items in order: the last of equal keys wins. */
  function Dict(items: seq<Item>): Position {
    if items == [] then map[] else Dict(items[..|items| - 1])[items[|items| - 1].token := items[|items| - 1].value]
  }

  lemma DictGrows(items: seq<Item>, lo: nat, i: nat)
    requires lo <= i < |items|
    ensures Dict(items[lo..i + 1]) == Dict(items[lo..i])[items[i].token := items[i].value]
  {
    assert items[lo..i + 1][..i - lo] == items[lo..i];
  }

  /** A dictionary has the tokens of its items, each with the value of the last item for it. */
  lemma {:induction false} DictExactly(items: seq<Item>, token: int)
    ensures token in Dict(items) <==> exists i :: 0 <= i < |items| && items[i].token == token
    ensures forall i | 0 <= i < |items| && items[i].token == token
                       && (forall j | i < j < |items| :: items[j].token != token) ::
              token in Dict(items) && Dict(items)[token] == items[i].value
  {
    if items != [] {
      var front := items[..|items| - 1];
      DictExactly(front, token);
      assert forall i | 0 <= i < |front| :: front[i] == items[i];
    }
  }

  lemma EmptyDict(items: seq<Item>)
    ensures Dict(items) == map[] <==> items == []
  {
    if items != [] { assert items[|items| - 1].token in Dict(items); }
  }

  /** The columns, row by row, and where each position begins and ends. */
  datatype Flat = Flat(starts: seq<int>, ends: seq<int>, items: seq<Item>)

  ghost predicate Valid(f: Flat) {
    && |f.starts| == |f.ends|
    && (forall k | 0 <= k < |f.starts| :: 0 <= f.starts[k] <= f.ends[k] <= |f.items|)
    && (forall j, k | 0 <= j < k < |f.starts| :: f.ends[j] <= f.starts[k])
  }

  /** The list of dictionaries the columns stand for. */
  ghost function View(f: Flat): (v: seq<Position>)
    requires Valid(f)
    ensures |v| == |f.starts|
  {
    seq(|f.starts|, k requires 0 <= k < |f.starts| => Dict(f.items[f.starts[k]..f.ends[k]]))
  }

  // ----- Appending

  function Appended(f: Flat, items: seq<Item>): Flat {
    Flat(f.starts + [|f.items|], f.ends + [|f.items| + |items|], f.items + items)
  }

  lemma AppendDenotes(f: Flat, items: seq<Item>)
    requires Valid(f)
    ensures Valid(Appended(f, items)) && View(Appended(f, items)) == View(f) + [Dict(items)]
  {
    var r := Appended(f, items);
    forall k | 0 <= k < |r.starts| ensures View(r)[k] == (View(f) + [Dict(items)])[k] {
      if k < |f.starts| {
        assert r.items[r.starts[k]..r.ends[k]] == f.items[f.starts[k]..f.ends[k]];
      } else {
        assert r.items[r.starts[k]..r.ends[k]] == items;
      }
    }
  }

  // ----- Slicing

  /** A slice object; absent fields are None. */
  datatype Slice = Slice(start: Option<int>, stop: Option<int>, step: Option<int>)

  function StepOf(s: Slice): int { if s.step.Some? then s.step.value else 1 }

  /** An end of a slice, made absolute and clamped to lo..hi. */
  function Bound(x: Option<int>, default: int, n: nat, lo: int, hi: int): int {
    if x.None? then default
    else
      var i := if x.value < 0 then x.value + n else x.value;
      if i < lo then lo else if i > hi then hi else i
  }

  function Up(i: int, stop: int, step: int): seq<int>
    requires step > 0
    decreases stop - i
  {
    if i < stop then [i] + Up(i + step, stop, step) else []
  }

  function Down(i: int, stop: int, step: int): seq<int>
    requires step < 0
    decreases i - stop
  {
    if i > stop then [i] + Down(i + step, stop, step) else []
  }

  /** The positions a slice picks from a list of length `n`, in order. */
  function Picks(n: nat, s: Slice): seq<int>
    requires StepOf(s) != 0
  {
    if StepOf(s) > 0 then Up(Bound(s.start, 0, n, 0, n), Bound(s.stop, n, n, 0, n), StepOf(s))
    else Down(Bound(s.start, n - 1, n, -1, n - 1), Bound(s.stop, -1, n, -1, n - 1), StepOf(s))
  }

  ghost predicate InRange(ps: seq<int>, n: nat) { forall k | 0 <= k < |ps| :: 0 <= ps[k] < n }

  lemma {:induction false} UpGrows(i: int, stop: int, step: int)
    requires step > 0
    ensures forall k | 0 <= k < |Up(i, stop, step)| :: i <= Up(i, stop, step)[k] < stop
    ensures forall j, k | 0 <= j < k < |Up(i, stop, step)| :: Up(i, stop, step)[j] < Up(i, stop, step)[k]
    decreases stop - i
  {
    if i < stop { UpGrows(i + step, stop, step); }
  }

  lemma {:induction false} DownFalls(i: int, stop: int, step: int)
    requires step < 0
    ensures forall k | 0 <= k < |Down(i, stop, step)| :: stop < Down(i, stop, step)[k] <= i
    ensures forall j, k | 0 <= j < k < |Down(i, stop, step)| :: Down(i, stop, step)[j] > Down(i, stop, step)[k]
    decreases i - stop
  {
    if i > stop { DownFalls(i + step, stop, step); }
  }

  ghost predicate Falling(ps: seq<int>) { forall j, k | 0 <= j < k < |ps| :: ps[j] > ps[k] }

  lemma PicksInOrder(n: nat, s: Slice)
    requires StepOf(s) != 0
    ensures InRange(Picks(n, s), n) && if StepOf(s) > 0 then Rising(Picks(n, s)) else Falling(Picks(n, s))
  {
    if StepOf(s) > 0 {
      UpGrows(Bound(s.start, 0, n, 0, n), Bound(s.stop, n, n, 0, n), StepOf(s));
    } else {
      DownFalls(Bound(s.start, n - 1, n, -1, n - 1), Bound(s.stop, -1, n, -1, n - 1), StepOf(s));
    }
  }

  // ----- Which positions a slice picks

  /** A position, counted from the end if negative. */
  function Plain(v: int, n: nat): int { if v < 0 then v + n else v }

  /** The position a slice starts from, if it is one. */
  function First(n: nat, s: Slice): int
    requires StepOf(s) != 0
  {
    if s.start.None? then if StepOf(s) > 0 then 0 else n - 1
    else
      var p := Plain(s.start.value, n);
      if StepOf(s) > 0 then if p < 0 then 0 else p else Min(p, n - 1)
  }

  /** The position is before the slice's stop, in the direction of the step. */
  ghost predicate BeforeStop(n: nat, s: Slice, p: int)
    requires StepOf(s) != 0
  {
    s.stop.None? || if StepOf(s) > 0 then p < Plain(s.stop.value, n) else p > Plain(s.stop.value, n)
  }

  lemma {:induction false} UpAt(i: int, stop: int, step: int, k: nat)
    requires step > 0
    ensures k < |Up(i, stop, step)| <==> i + k * step < stop
    ensures k < |Up(i, stop, step)| ==> Up(i, stop, step)[k] == i + k * step
    decreases k
  {
    if i < stop && k > 0 {
      assert (i + step) + (k - 1) * step == i + k * step;
      UpAt(i + step, stop, step, k - 1);
    } else if k > 0 {
      assert k * step >= 0;
    }
  }

  lemma {:induction false} DownAt(i: int, stop: int, step: int, k: nat)
    requires step < 0
    ensures k < |Down(i, stop, step)| <==> i + k * step > stop
    ensures k < |Down(i, stop, step)| ==> Down(i, stop, step)[k] == i + k * step
    decreases k
  {
    if i > stop && k > 0 {
      assert (i + step) + (k - 1) * step == i + k * step;
      DownAt(i + step, stop, step, k - 1);
    } else if k > 0 {
      assert k * step <= 0;
    }
  }

  /** The `k`-th position picked is `k` steps from the first, as long as that is a position before the stop;
      with PicksInOrder, a slice picks every such position once. */
  lemma PicksExactly(n: nat, s: Slice, k: nat)
    requires StepOf(s) != 0
    ensures var p := First(n, s) + k * StepOf(s);
            && (k < |Picks(n, s)| <==> 0 <= p < n && BeforeStop(n, s, p))
            && (k < |Picks(n, s)| ==> Picks(n, s)[k] == p)
  {
    var step := StepOf(s);
    if step > 0 {
      assert k * step >= 0;
      UpAt(Bound(s.start, 0, n, 0, n), Bound(s.stop, n, n, 0, n), step, k);
    } else {
      assert k * step <= 0;
      DownAt(Bound(s.start, n - 1, n, -1, n - 1), Bound(s.stop, -1, n, -1, n - 1), step, k);
    }
  }

  function Picked<T>(xs: seq<T>, ps: seq<int>): (r: seq<T>)
    requires InRange(ps, |xs|)
    ensures |r| == |ps|
  {
    seq(|ps|, k requires 0 <= k < |ps| => xs[ps[k]])
  }

  function Sub<T>(xs: seq<T>, lo: int, hi: int): seq<T>
    requires 0 <= lo <= |xs| && 0 <= hi <= |xs|
  {
    if lo < hi then xs[lo..hi] else []
  }

  function Shifted(xs: seq<int>, d: int): seq<int> { seq(|xs|, k requires 0 <= k < |xs| => xs[k] - d) }

  /** The columns a slice makes: cut from the first picked start to the last picked end. */
  function Cut(f: Flat, ps: seq<int>): Flat
    requires Valid(f) && ps != [] && InRange(ps, |f.starts|)
  {
    var lo, hi := f.starts[ps[0]], f.ends[ps[|ps| - 1]];
    Flat(Shifted(Picked(f.starts, ps), lo), Shifted(Picked(f.ends, ps), lo), Sub(f.items, lo, hi))
  }

  /** Picked in rising order, the cut stands for the picked positions. */
  lemma CutDenotes(f: Flat, ps: seq<int>)
    requires Valid(f) && ps != [] && InRange(ps, |f.starts|) && Rising(ps)
    ensures Valid(Cut(f, ps)) && View(Cut(f, ps)) == Picked(View(f), ps)
  {
    CutIsValid(f, ps);
    forall k | 0 <= k < |ps| ensures View(Cut(f, ps))[k] == View(f)[ps[k]] { CutAt(f, ps, k); }
  }

  lemma CutIsValid(f: Flat, ps: seq<int>)
    requires Valid(f) && ps != [] && InRange(ps, |f.starts|) && Rising(ps)
    ensures Valid(Cut(f, ps))
  {
    forall k | 0 <= k < |ps| ensures f.starts[ps[0]] <= f.starts[ps[k]] <= f.ends[ps[k]] <= f.ends[ps[|ps| - 1]] {
      PickedWithin(f, ps, k);
    }
  }

  lemma CutAt(f: Flat, ps: seq<int>, k: nat)
    requires Valid(f) && InRange(ps, |f.starts|) && Rising(ps) && k < |ps| && Valid(Cut(f, ps))
    ensures View(Cut(f, ps))[k] == View(f)[ps[k]]
  {
    PickedWithin(f, ps, k);
    SubOf(f.items, f.starts[ps[0]], f.ends[ps[|ps| - 1]], f.starts[ps[k]], f.ends[ps[k]]);
  }

  lemma PickedWithin(f: Flat, ps: seq<int>, k: nat)
    requires Valid(f) && InRange(ps, |f.starts|) && Rising(ps) && k < |ps|
    ensures f.starts[ps[0]] <= f.starts[ps[k]] <= f.ends[ps[k]] <= f.ends[ps[|ps| - 1]]
  {
    assert k == 0 || ps[0] < ps[k];
    assert k == |ps| - 1 || ps[k] < ps[|ps| - 1];
  }

  lemma SubOf<T>(xs: seq<T>, lo: nat, hi: nat, a: nat, b: nat)
    requires lo <= a <= b <= hi <= |xs|
    ensures |Sub(xs, lo, hi)| == hi - lo && Sub(xs, lo, hi)[a - lo..b - lo] == xs[a..b]
  {
  }

  // ----- Reading a position

  /** Indexing a column of length `n`, negative indices counting from the end. */
  predicate IndexOk(n: nat, i: int) { 0 <= i + n && i < n }

  /** Reading position `k` of any columns: a dictionary, or None for an IndexError. */
  function Read(f: Flat, k: nat): Option<Position>
    requires k < |f.starts| == |f.ends|
  {
    var lo, hi, n := f.starts[k], f.ends[k], |f.items|;
    if hi <= lo then Some(map[])
    else if IndexOk(n, lo) && IndexOk(n, hi - 1) then
      Some(Dict(Rows(f.items, lo, hi)))
    else None
  }

  function Rows(items: seq<Item>, lo: int, hi: int): seq<Item>
    requires lo < hi && IndexOk(|items|, lo) && IndexOk(|items|, hi - 1)
  {
    seq(hi - lo, d requires 0 <= d < hi - lo => items[if lo + d < 0 then lo + d + |items| else lo + d])
  }

  lemma ReadIsView(f: Flat, k: nat)
    requires Valid(f) && k < |f.starts|
    ensures Read(f, k) == Some(View(f)[k])
  {
    var lo, hi := f.starts[k], f.ends[k];
    if lo < hi {
      assert Rows(f.items, lo, hi) == f.items[lo..hi];
    }
  }

  /** With a negative step the cut reads back as the picked positions exactly when it picks one position,
      or only empty ones. */
  lemma NegativeStep(f: Flat, s: Slice)
    requires Valid(f) && StepOf(s) < 0 && Picks(|f.starts|, s) != []
    ensures var ps := Picks(|f.starts|, s);
            && InRange(ps, |f.starts|)
            && ((forall k | 0 <= k < |ps| :: Read(Cut(f, ps), k) == Some(View(f)[ps[k]]))
                <==> |ps| == 1 || forall k | 0 <= k < |ps| :: f.starts[ps[k]] == f.ends[ps[k]])
  {
    var ps := Picks(|f.starts|, s);
    PicksInOrder(|f.starts|, s);
    if |ps| == 1 {
      CutDenotes(f, ps);
      ReadIsView(Cut(f, ps), 0);
    } else {
      var r := Cut(f, ps);
      assert ps[0] > ps[|ps| - 1];
      assert r.items == [];
      forall k | 0 <= k < |ps| ensures Read(r, k) == Some(View(f)[ps[k]]) <==> f.starts[ps[k]] == f.ends[ps[k]] {
        EmptyDict(f.items[f.starts[ps[k]]..f.ends[ps[k]]]);
      }
    }
  }

  /** For instance, reversing two positions of one item each gives columns that cannot be read. */
  lemma ReversedCannotBeRead(a: Item, b: Item)
    ensures var f := Flat([0, 1], [1, 2], [a, b]);
            var ps := Picks(2, Slice(None, None, Some(-1)));
            Valid(f) && ps == [1, 0] && Read(Cut(f, ps), 0).None? && Read(Cut(f, ps), 1).None?
  {
    var ps := Picks(2, Slice(None, None, Some(-1)));
    assert Down(-1, -1, -1) == [] && Down(0, -1, -1) == [0];
    assert ps == [1, 0];
  }

  // ----- Runs

  datatype Op =
    | Append(dict: Option<seq<Item>>)
    | AppendFast(items: seq<Item>)
    | Extend(dicts: seq<Option<seq<Item>>>)
    | TakeSlice(s: Slice)

  /** The items of a dictionary, none for None. */
  function ItemsOf(dict: Option<seq<Item>>): seq<Item> { if dict.Some? then dict.value else [] }

  function Extended(f: Flat, dicts: seq<Option<seq<Item>>>): Flat {
    if dicts == [] then f else Appended(Extended(f, dicts[..|dicts| - 1]), ItemsOf(dicts[|dicts| - 1]))
  }

  /** The plain list; None stays None there. */
  type List = seq<Option<Position>>

  function DictOf(dict: Option<seq<Item>>): Option<Position> { if dict.Some? then Some(Dict(dict.value)) else None }

  function ListStep(l: List, op: Op): List
    requires op.TakeSlice? ==> StepOf(op.s) != 0 && InRange(Picks(|l|, op.s), |l|)
  {
    match op
    case Append(dict) => l + [DictOf(dict)]
    case AppendFast(items) => l + [Some(Dict(items))]
    case Extend(dicts) => l + seq(|dicts|, k requires 0 <= k < |dicts| => DictOf(dicts[k]))
    case TakeSlice(s) => Picked(l, Picks(|l|, s))
  }

  /** The list with None read as the empty dictionary. */
  ghost function Denoted(l: List): seq<Position> {
    seq(|l|, k requires 0 <= k < |l| => if l[k].Some? then l[k].value else map[])
  }

  /** Slices with a positive step that pick something. */
  ghost predicate OpOk(n: nat, op: Op) {
    op.TakeSlice? ==> StepOf(op.s) > 0 && Picks(n, op.s) != []
  }

  ghost function FlatStep(f: Flat, op: Op): Flat
    requires Valid(f) && OpOk(|f.starts|, op)
  {
    match op
    case Append(dict) => Appended(f, ItemsOf(dict))
    case AppendFast(items) => Appended(f, items)
    case Extend(dicts) => Extended(f, dicts)
    case TakeSlice(s) => PicksInOrder(|f.starts|, s); Cut(f, Picks(|f.starts|, s))
  }

  lemma {:induction false} ExtendDenotes(f: Flat, dicts: seq<Option<seq<Item>>>, l: List)
    requires Valid(f) && View(f) == Denoted(l)
    ensures Valid(Extended(f, dicts)) && View(Extended(f, dicts)) == Denoted(ListStep(l, Extend(dicts)))
  {
    if dicts == [] {
      assert ListStep(l, Extend(dicts)) == l;
    } else {
      var front, last := dicts[..|dicts| - 1], dicts[|dicts| - 1];
      ExtendDenotes(f, front, l);
      AppendDenotes(Extended(f, front), ItemsOf(last));
      assert ListStep(l, Extend(dicts)) == ListStep(l, Extend(front)) + [DictOf(last)];
    }
  }

  /** Every operation does to the columns what it does to the list. */
  lemma StepAgrees(f: Flat, l: List, op: Op)
    requires Valid(f) && View(f) == Denoted(l) && OpOk(|l|, op)
    ensures |f.starts| == |l| && (op.TakeSlice? ==> InRange(Picks(|l|, op.s), |l|))
    ensures Valid(FlatStep(f, op)) && View(FlatStep(f, op)) == Denoted(ListStep(l, op))
  {
    assert |View(f)| == |l|;
    match op
    case Append(dict) => AppendDenotes(f, ItemsOf(dict));
    case AppendFast(items) => AppendDenotes(f, items);
    case Extend(dicts) => ExtendDenotes(f, dicts, l);
    case TakeSlice(s) =>
      PicksInOrder(|l|, s);
      CutDenotes(f, Picks(|l|, s));
  }

  /** The list after a run; every slice on the way has a positive step and picks something. */
  ghost predicate IsListRun(ls: seq<List>, ops: seq<Op>) {
    && |ls| == |ops| + 1 && ls[0] == []
    && forall k | 0 <= k < |ops| ::
         && OpOk(|ls[k]|, ops[k]) && (ops[k].TakeSlice? ==> InRange(Picks(|ls[k]|, ops[k].s), |ls[k]|))
         && ls[k + 1] == ListStep(ls[k], ops[k])
  }

  ghost predicate IsFlatRun(fs: seq<Flat>, ops: seq<Op>) {
    && |fs| == |ops| + 1 && fs[0] == Flat([], [], [])
    && forall k | 0 <= k < |ops| ::
         && Valid(fs[k]) && OpOk(|fs[k].starts|, ops[k]) && fs[k + 1] == FlatStep(fs[k], ops[k])
  }

  /** Through every run the columns stand for the list, appends after slices and slices of slices included. */
  lemma {:induction false} RunAgrees(fs: seq<Flat>, ls: seq<List>, ops: seq<Op>, k: nat)
    requires IsFlatRun(fs, ops) && IsListRun(ls, ops) && k <= |ops|
    ensures Valid(fs[k]) && View(fs[k]) == Denoted(ls[k])
  {
    if k > 0 {
      RunAgrees(fs, ls, ops, k - 1);
      StepAgrees(fs[k - 1], ls[k - 1], ops[k - 1]);
    }
  }

  /** And for every run of the list there is such a run of the columns. */
  lemma {:induction false} RunExists(ls: seq<List>, ops: seq<Op>) returns (fs: seq<Flat>)
    requires IsListRun(ls, ops)
    ensures IsFlatRun(fs, ops) && Valid(fs[|ops|]) && View(fs[|ops|]) == Denoted(ls[|ops|])
  {
    if ops == [] {
      fs := [Flat([], [], [])];
      assert View(fs[0]) == [] == Denoted(ls[0]);
    } else {
      var n := |ops| - 1;
      assert IsListRun(ls[..n + 1], ops[..n]);
      var before := RunExists(ls[..n + 1], ops[..n]);
      StepAgrees(before[n], ls[n], ops[n]);
      fs := before + [FlatStep(before[n], ops[n])];
      forall k | 0 <= k < |ops|
        ensures Valid(fs[k]) && OpOk(|fs[k].starts|, ops[k]) && fs[k + 1] == FlatStep(fs[k], ops[k])
      {
        if k < n { assert fs[k] == before[k] && fs[k + 1] == before[k + 1] && ops[..n][k] == ops[k]; }
      }
    }
  }
}

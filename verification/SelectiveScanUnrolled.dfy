/** What the selective scan computes, as sums over the tokens: every state and every output written out
    in the inputs, without the recurrence. */
module SelectiveScanUnrolled {
  import opened SelectiveScan
  import opened SelectiveScanCell

  // ----- Sums and products

  /** The product of the factors from `from` up to but not including `upto`. */
  function Product(factors: seq<real>, from: nat, upto: nat): real
    requires from <= upto <= |factors|
    decreases upto
  {
    if from == upto then 1.0 else Product(factors, from, upto - 1) * factors[upto - 1]
  }

  /** The sum of the first `n` parts, each times the product of the factors after its own, up to `k`. */
  function Carried(factors: seq<real>, parts: seq<real>, n: nat, k: nat): real
    requires n <= k <= |factors| == |parts|
    decreases n
  {
    if n == 0 then 0.0 else Carried(factors, parts, n - 1, k) + parts[n - 1] * Product(factors, n, k)
  }

  /** A start value times all factors, and the parts carried along. */
  function Unrolled(start: real, factors: seq<real>, parts: seq<real>, k: nat): real
    requires k <= |factors| == |parts|
  {
    start * Product(factors, 0, k) + Carried(factors, parts, k, k)
  }

  function Sum(xs: seq<real>, n: nat): real
    requires n <= |xs|
  {
    if n == 0 then 0.0 else Sum(xs, n - 1) + xs[n - 1]
  }

  lemma Spread(x: real, y: real, d: real, e: real)
    ensures x * e + y * (d * e) == (x + y * d) * e
  {
  }

  /** One more factor multiplies the whole sum. */
  lemma {:induction false} CarriedNext(factors: seq<real>, parts: seq<real>, n: nat, k: nat)
    requires n <= k < |factors| == |parts|
    ensures Carried(factors, parts, n, k + 1) == Carried(factors, parts, n, k) * factors[k]
    decreases n
  {
    if n > 0 {
      CarriedNext(factors, parts, n - 1, k);
      Spread(Carried(factors, parts, n - 1, k), parts[n - 1], Product(factors, n, k), factors[k]);
    }
  }

  // ----- The scan in these terms

  /** The start state and every token have one number per row of A. */
  ghost predicate Shaped(p: Params, s: seq<real>, toks: seq<Token>) {
    |s| == |p.a| && forall j | 0 <= j < |toks| :: |toks[j].b| == |p.a| && |toks[j].c| == |p.a|
  }

  /** The step size at a token: log(1 + exp(x)) of the biased delta x, or x itself beyond 20 or without
      softplus. */
  function Rate(p: Params, t: Token): real {
    if p.useSoftplus && t.delta + p.bias <= 20.0 then p.log(1.0 + p.exp(t.delta + p.bias)) else t.delta + p.bias
  }

  /** By how much a step decays a lane. */
  function Decay(p: Params, rate: real, a: real): real { p.exp(Rise(rate, a)) }

  function Rise(rate: real, a: real): real { rate * a }

  /** What it puts in. */
  function Inflow(rate: real, u: real, b: real): real { rate * u * b }

  ghost function Decays(p: Params, toks: seq<Token>, i: nat): (r: seq<real>)
    requires i < |p.a|
    ensures |r| == |toks| && forall j | 0 <= j < |toks| :: r[j] == Decay(p, Rate(p, toks[j]), p.a[i])
  {
    seq(|toks|, j requires 0 <= j < |toks| => Decay(p, Rate(p, toks[j]), p.a[i]))
  }

  ghost function Inflows(p: Params, toks: seq<Token>, i: nat): (r: seq<real>)
    requires forall j | 0 <= j < |toks| :: i < |toks[j].b|
    ensures |r| == |toks| && forall j | 0 <= j < |toks| :: r[j] == Inflow(Rate(p, toks[j]), toks[j].u, toks[j].b[i])
  {
    seq(|toks|, j requires 0 <= j < |toks| => Inflow(Rate(p, toks[j]), toks[j].u, toks[j].b[i]))
  }

  /** Lane `i` after `k` tokens: the start state decayed by all of them, plus what each of them put in,
      decayed by the later ones. */
  ghost function LaneAfter(p: Params, s: seq<real>, toks: seq<Token>, i: nat, k: nat): real
    requires Shaped(p, s, toks) && k <= |toks| && i < |p.a|
  {
    Unrolled(s[i], Decays(p, toks, i), Inflows(p, toks, i), k)
  }

  /** Every lane after token `k`, times that token's c. */
  ghost function Readings(p: Params, s: seq<real>, toks: seq<Token>, k: nat): seq<real>
    requires Shaped(p, s, toks) && k < |toks|
  {
    seq(|p.a|, i requires 0 <= i < |p.a| => Reading(LaneAfter(p, s, toks, i, k + 1), toks[k].c[i]))
  }

  function Reading(x: real, c: real): real { x * c }

  lemma RateIsDelta(p: Params, t: Token)
    ensures Delta(p, t) == Rate(p, t)
  {
    var x := t.delta + p.bias;
    assert p.exp(x) + 1.0 == 1.0 + p.exp(x);
  }

  /** One lane at one token. */
  lemma LaneStep(p: Params, delta: real, t: Token, x: real, i: nat, a: real, b: real)
    requires a == Lane(p.a, |p.a|, i) && b == Lane(t.b, |p.a|, i)
    ensures NextLane(p, delta, t, x, i) == x * Decay(p, delta, a) + Inflow(delta, t.u, b)
  {
    assert Exponent(p, delta, i) == Rise(delta, a);
    assert Put(p, delta, t, i) == Inflow(delta, t.u, b);
    Combine(NextLane(p, delta, t, x, i), p.exp(Exponent(p, delta, i)), x, Put(p, delta, t, i), Decay(p, delta, a),
            Inflow(delta, t.u, b));
  }

  lemma Combine(v: real, e: real, x: real, q: real, d: real, r: real)
    requires v == e * x + q && e == d && q == r
    ensures v == x * d + r
  {
  }

  lemma OneToken(p: Params, state: seq<real>, t: Token, i: nat, x: real, decay: real, inflow: real, next: real)
    requires i < |p.a| == |state| && |t.b| == |p.a| && x == state[i] && next == Step(p, |p.a|, state, t)[i]
    requires decay == Decay(p, Rate(p, t), p.a[i]) && inflow == Inflow(Rate(p, t), t.u, t.b[i])
    ensures next == Affine(x, decay, inflow)
  {
    RateIsDelta(p, t);
    LaneStep(p, Delta(p, t), t, x, i, p.a[i], t.b[i]);
  }

  function Affine(x: real, f: real, q: real): real { x * f + q }

  /** Every number is the one before times its factor, plus its part. */
  ghost predicate Linear(xs: seq<real>, factors: seq<real>, parts: seq<real>) {
    |factors| == |parts| == |xs| - 1 && forall j | 0 <= j < |factors| :: LinearAt(xs, factors, parts, j)
  }

  ghost predicate LinearAt(xs: seq<real>, factors: seq<real>, parts: seq<real>, j: nat)
    requires j < |factors| == |parts| == |xs| - 1
  {
    xs[j + 1] == Affine(xs[j], factors[j], parts[j])
  }

  /** What a linear recurrence comes to. */
  lemma {:induction false} ClosedForm(xs: seq<real>, factors: seq<real>, parts: seq<real>, k: nat)
    requires Linear(xs, factors, parts) && k < |xs|
    ensures xs[k] == Unrolled(xs[0], factors, parts, k)
    decreases k
  {
    if k > 0 {
      ClosedForm(xs, factors, parts, k - 1);
      UnrolledNext(xs[0], factors, parts, k);
      assert LinearAt(xs, factors, parts, k - 1);
    }
  }

  lemma UnrolledNext(start: real, factors: seq<real>, parts: seq<real>, k: nat)
    requires 0 < k <= |factors| == |parts|
    ensures Unrolled(start, factors, parts, k)
            == Affine(Unrolled(start, factors, parts, k - 1), factors[k - 1], parts[k - 1])
  {
    CarriedNext(factors, parts, k - 1, k - 1);
    OneMoreTerm(start, Product(factors, 0, k - 1), Carried(factors, parts, k - 1, k - 1), factors[k - 1], parts[k - 1],
                Unrolled(start, factors, parts, k - 1), Product(factors, 0, k), Carried(factors, parts, k, k));
  }

  lemma OneMoreTerm(start: real, product: real, carried: real, f: real, q: real, x: real, product': real,
                    carried': real)
    requires x == start * product + carried && product' == product * f && carried' == carried * f + q
    ensures start * product' + carried' == Affine(x, f, q)
  {
    assert (start * product) * f == start * (product * f);
  }

  lemma {:induction false} RunKeepsShape(p: Params, s: seq<real>, toks: seq<Token>, k: nat)
    requires |s| == |p.a| && k <= |toks|
    ensures |Run(CellOf(p, |p.a|), s, toks, k)| == |p.a|
  {
  }

  /** The history of a lane. */
  ghost function History(p: Params, s: seq<real>, toks: seq<Token>, i: nat): (xs: seq<real>)
    requires Shaped(p, s, toks) && i < |p.a|
    ensures |xs| == |toks| + 1
    ensures forall k | 0 <= k <= |toks| ::
              |Run(CellOf(p, |p.a|), s, toks, k)| == |p.a| && xs[k] == Run(CellOf(p, |p.a|), s, toks, k)[i]
  {
    seq(|toks| + 1, k requires 0 <= k <= |toks| =>
      (RunKeepsShape(p, s, toks, k); Run(CellOf(p, |p.a|), s, toks, k)[i]))
  }

  lemma HistoryAt(p: Params, s: seq<real>, toks: seq<Token>, i: nat, j: nat, x: real, decay: real, inflow: real,
                  next: real)
    requires Shaped(p, s, toks) && i < |p.a| && j < |toks|
    requires x == History(p, s, toks, i)[j] && next == History(p, s, toks, i)[j + 1]
    requires decay == Decays(p, toks, i)[j] && inflow == Inflows(p, toks, i)[j]
    ensures next == Affine(x, decay, inflow)
  {
    var state := Run(CellOf(p, |p.a|), s, toks, j);
    assert Run(CellOf(p, |p.a|), s, toks, j + 1) == Step(p, |p.a|, state, toks[j]);
    OneToken(p, state, toks[j], i, x, decay, inflow, next);
  }

  lemma HistoryGoesOn(p: Params, s: seq<real>, toks: seq<Token>, i: nat, xs: seq<real>, ds: seq<real>, qs: seq<real>,
                      j: nat)
    requires Shaped(p, s, toks) && i < |p.a| && j < |toks|
    requires xs == History(p, s, toks, i) && ds == Decays(p, toks, i) && qs == Inflows(p, toks, i)
    ensures LinearAt(xs, ds, qs, j)
  {
    HistoryAt(p, s, toks, i, j, xs[j], ds[j], qs[j], xs[j + 1]);
  }

  lemma HistoryIsLinear(p: Params, s: seq<real>, toks: seq<Token>, i: nat, xs: seq<real>, ds: seq<real>, qs: seq<real>)
    requires Shaped(p, s, toks) && i < |p.a|
    requires xs == History(p, s, toks, i) && ds == Decays(p, toks, i) && qs == Inflows(p, toks, i)
    ensures Linear(xs, ds, qs)
  {
    forall j | 0 <= j < |toks| ensures LinearAt(xs, ds, qs, j) {
      HistoryGoesOn(p, s, toks, i, xs, ds, qs, j);
    }
  }

  /** The state is that sum. */
  lemma StateIsSum(p: Params, s: seq<real>, toks: seq<Token>, i: nat, k: nat)
    requires Shaped(p, s, toks) && k <= |toks| && i < |p.a|
    ensures var r := Run(CellOf(p, |p.a|), s, toks, k); |r| == |p.a| && r[i] == LaneAfter(p, s, toks, i, k)
  {
    HistoryIsLinear(p, s, toks, i, History(p, s, toks, i), Decays(p, toks, i), Inflows(p, toks, i));
    ClosedForm(History(p, s, toks, i), Decays(p, toks, i), Inflows(p, toks, i), k);
  }

  lemma {:induction false} DotIsSum(p: Params, state: seq<real>, t: Token, xs: seq<real>, n: nat)
    requires |state| == |t.c| == |p.a| == |xs| && n <= |p.a|
    requires forall i | 0 <= i < |xs| :: xs[i] == Reading(state[i], t.c[i])
    ensures Dot(p, state, t, n) == Sum(xs, n)
  {
    if n > 0 { DotIsSum(p, state, t, xs, n - 1); }
  }

  lemma DotIsReadings(p: Params, s: seq<real>, toks: seq<Token>, k: nat)
    requires Shaped(p, s, toks) && k < |toks|
    ensures Dot(p, Run(CellOf(p, |p.a|), s, toks, k + 1), toks[k], |p.a|) == Sum(Readings(p, s, toks, k), |p.a|)
  {
    RunKeepsShape(p, s, toks, k + 1);
    var state, xs := Run(CellOf(p, |p.a|), s, toks, k + 1), Readings(p, s, toks, k);
    forall i | 0 <= i < |xs| ensures xs[i] == Reading(state[i], toks[k].c[i]) {
      StateIsSum(p, s, toks, i, k + 1);
    }
    DotIsSum(p, state, toks[k], xs, |p.a|);
  }

  lemma EmitIs(p: Params, state: seq<real>, t: Token, dot: real, through: real)
    requires dot == Dot(p, state, t, |p.a|) && through == p.d * t.u
    ensures Emit(p, |p.a|, state, t) == dot + through
  {
  }

  lemma OutIsEmitted(p: Params, s: seq<real>, toks: seq<Token>, k: nat, state: seq<real>, out: real)
    requires k < |toks| && state == Run(CellOf(p, |p.a|), s, toks, k + 1) && out == Emit(p, |p.a|, state, toks[k])
    ensures Out(CellOf(p, |p.a|), s, toks, k) == out
  {
  }

  lemma NarrowOut(p: Params, s: seq<real>, toks: seq<Token>, k: nat, state: seq<real>, dot: real, through: real)
    requires k < |toks| && state == Run(CellOf(p, |p.a|), s, toks, k + 1) && dot == Dot(p, state, toks[k], |p.a|)
    requires through == p.d * toks[k].u
    ensures Out(CellOf(p, |p.a|), s, toks, k) == dot + through
  {
    EmitIs(p, state, toks[k], dot, through);
    OutIsEmitted(p, s, toks, k, state, dot + through);
  }

  lemma GateIs(p: Params, out: real, z: real)
    ensures Gate(p, out, z) == out * z / (1.0 + p.exp(-z))
  {
  }

  /** On any number of lanes from |A| up, the output at a token is the sum over the lanes of the state after
      that token times c, plus d * u. */
  lemma OutputIsSum(p: Params, width: nat, s: seq<real>, toks: seq<Token>, k: nat) returns (sum: real)
    requires Shaped(p, s, toks) && k < |toks| && |p.a| <= width
    ensures sum == Sum(Readings(p, s, toks, k), |p.a|)
    ensures Out(CellOf(p, width), Wide(s, width), toks, k) == sum + p.d * toks[k].u
  {
    sum := Sum(Readings(p, s, toks, k), |p.a|);
    DotIsReadings(p, s, toks, k);
    NarrowOut(p, s, toks, k, Run(CellOf(p, |p.a|), s, toks, k + 1), sum, p.d * toks[k].u);
    PaddingNeverShows(p, width, s, toks, k);
  }

  lemma GateApplies(p: Params, width: nat, out: real, z: real)
    ensures CellOf(p, width).gate(out, z) == Gate(p, out, z)
  {
  }

  /** The gated output is the output times z / (1 + exp(-z)). */
  lemma GatedOutputIs(p: Params, width: nat, out: real, z: real)
    ensures CellOf(p, width).gate(out, z) == out * z / (1.0 + p.exp(-z))
  {
    GateApplies(p, width, out, z);
    GateIs(p, out, z);
  }
}

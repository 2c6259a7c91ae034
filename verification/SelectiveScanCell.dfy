/** The arithmetic of one token in the selective-scan kernel, over the reals, on vectors padded to a
    power of two.  The padding lanes never show. */
module SelectiveScanCell {
  import opened SelectiveScan

  type Exp = f: real -> real | forall x: real :: f(x) > 0.0 witness (x: real) => 1.0

  /** What the kernel loads once per program: row `a` of A, and the optional D and delta bias (zero
      when absent). */
  datatype Params = Params(a: seq<real>, d: real, bias: real, useSoftplus: bool, exp: Exp, log: real -> real)

  /** Lane `i` of a masked load of the first `n` elements. */
  function Lane(xs: seq<real>, n: nat, i: nat): real {
    if i < n && i < |xs| then xs[i] else 0.0
  }

  function Delta(p: Params, t: Token): real {
    var x := t.delta + p.bias;
    if p.useSoftplus then Softplus(p, x) else x
  }

  function Softplus(p: Params, x: real): real { if x <= 20.0 then p.log(p.exp(x) + 1.0) else x }

  /** state = exp(delta * A) * state + delta * u * B, on `width` lanes of which the first |A| are loaded. */
  function Step(p: Params, width: nat, state: seq<real>, t: Token): (r: seq<real>)
    ensures |r| == width
  {
    var delta := Delta(p, t);
    seq(width, i requires 0 <= i < width => NextLane(p, delta, t, Lane(state, width, i), i))
  }

  function NextLane(p: Params, delta: real, t: Token, x: real, i: nat): real {
    p.exp(Exponent(p, delta, i)) * x + Put(p, delta, t, i)
  }

  function Exponent(p: Params, delta: real, i: nat): real { delta * Lane(p.a, |p.a|, i) }

  function Put(p: Params, delta: real, t: Token, i: nat): real { delta * t.u * Lane(t.b, |p.a|, i) }

  lemma PaddingLane(p: Params, delta: real, t: Token, i: nat)
    requires |p.a| <= i
    ensures NextLane(p, delta, t, 0.0, i) == 0.0
  {
  }

  /** The sum of state * C over the first `k` lanes. */
  function Dot(p: Params, state: seq<real>, t: Token, k: nat): real {
    if k == 0 then 0.0 else Dot(p, state, t, k - 1) + Lane(state, |state|, k - 1) * Lane(t.c, |p.a|, k - 1)
  }

  function Emit(p: Params, width: nat, state: seq<real>, t: Token): real {
    Dot(p, state, t, width) + Through(p, t)
  }

  function Through(p: Params, t: Token): real { p.d * t.u }

  function CellOf(p: Params, width: nat): Cell<seq<real>> {
    Cell((state, t) => Step(p, width, state, t), (state, t) => Emit(p, width, state, t),
         (out, z) => Gate(p, out, z))
  }

  function Gate(p: Params, out: real, z: real): real { out * z / (1.0 + p.exp(-z)) }

  /** A masked load of a stored state into `width` lanes. */
  function Wide(state: seq<real>, width: nat): seq<real> {
    seq(width, i requires 0 <= i < width => Lane(state, |state|, i))
  }

  /** Scanning on any number of lanes from |A| up is scanning on exactly |A| lanes, with zeros in the
      padding after every token, so a masked store followed by a masked load gives the state back. */
  lemma {:induction false} PaddingStaysZero(p: Params, width: nat, s: seq<real>, toks: seq<Token>, k: nat)
    requires |s| == |p.a| <= width && k <= |toks|
    ensures |Run(CellOf(p, |p.a|), s, toks, k)| == |p.a|
    ensures Run(CellOf(p, width), Wide(s, width), toks, k) == Wide(Run(CellOf(p, |p.a|), s, toks, k), width)
    ensures Wide(Run(CellOf(p, width), Wide(s, width), toks, k)[..|p.a|], width)
            == Run(CellOf(p, width), Wide(s, width), toks, k)
  {
    if k > 0 {
      PaddingStaysZero(p, width, s, toks, k - 1);
      StepPads(p, width, Run(CellOf(p, |p.a|), s, toks, k - 1), toks[k - 1]);
    }
  }

  lemma StepPads(p: Params, width: nat, state: seq<real>, t: Token)
    requires |state| == |p.a| <= width
    ensures Step(p, width, Wide(state, width), t) == Wide(Step(p, |p.a|, state, t), width)
  {
    var wide, narrow := Step(p, width, Wide(state, width), t), Step(p, |p.a|, state, t);
    forall i | 0 <= i < width ensures wide[i] == Wide(narrow, width)[i] {
      assert Lane(Wide(state, width), width, i) == Lane(state, |p.a|, i);
      if |p.a| <= i { PaddingLane(p, Delta(p, t), t, i); }
    }
  }

  /** The outputs, too, are those of exactly |A| lanes. */
  lemma PaddingNeverShows(p: Params, width: nat, s: seq<real>, toks: seq<Token>, k: nat)
    requires |s| == |p.a| <= width && k < |toks|
    ensures Out(CellOf(p, width), Wide(s, width), toks, k) == Out(CellOf(p, |p.a|), s, toks, k)
  {
    PaddingStaysZero(p, width, s, toks, k + 1);
    DotPads(p, width, Run(CellOf(p, |p.a|), s, toks, k + 1), toks[k], width);
    DotOfLanes(p, Run(CellOf(p, |p.a|), s, toks, k + 1), toks[k], width);
  }

  lemma {:induction false} DotPads(p: Params, width: nat, state: seq<real>, t: Token, k: nat)
    requires k <= width
    ensures Dot(p, Wide(state, width), t, k) == Dot(p, state, t, k)
  {
    if k > 0 { DotPads(p, width, state, t, k - 1); }
  }

  lemma {:induction false} DotOfLanes(p: Params, state: seq<real>, t: Token, k: nat)
    requires |state| == |p.a| <= k
    ensures Dot(p, state, t, k) == Dot(p, state, t, |p.a|)
  {
    if |p.a| < k { DotOfLanes(p, state, t, k - 1); }
  }
}

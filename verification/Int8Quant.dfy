/** Per-token integer quantisation (dynamic_per_token_int8_quant_ref in vllm/_xpu_ops.py), over exact
    reals: one scale and one zero point per row. */
module Int8Quant {
  import opened Prelude

  const MIN_SCALE := 0.00001

  /** Round to nearest, ties to even. */
  function Round(x: real): (r: int)
    ensures -0.5 <= r as real - x <= 0.5
    ensures (r as real - x == 0.5 || r as real - x == -0.5) ==> r % 2 == 0
  {
    var down := x.Floor;
    var part := x - down as real;
    if part < 0.5 then down else if part > 0.5 then down + 1 else if down % 2 == 0 then down else down + 1
  }

  /** Nothing else is nearest with ties to even. */
  lemma RoundIsUnique(x: real, r: int)
    requires -0.5 <= r as real - x <= 0.5
    requires (r as real - x == 0.5 || r as real - x == -0.5) ==> r % 2 == 0
    ensures Round(x) == r
  {
    var s := Round(x);
    assert -1.0 <= s as real - r as real <= 1.0;
    assert s != r ==> s == r + 1 || s == r - 1;
  }

  function Pow2(n: nat): (p: int)
    ensures p >= 1
  {
    if n == 0 then 1 else 2 * Pow2(n - 1)
  }

  function MinOf(row: seq<real>): (m: real)
    requires |row| > 0
    ensures m in row && forall i | 0 <= i < |row| :: m <= row[i]
  {
    if |row| == 1 then row[0]
    else
      var rest := MinOf(row[1..]);
      assert forall i | 1 <= i < |row| :: row[i] == row[1..][i - 1];
      if row[0] <= rest then row[0] else rest
  }

  function MaxOf(row: seq<real>): (m: real)
    requires |row| > 0
    ensures m in row && forall i | 0 <= i < |row| :: row[i] <= m
  {
    if |row| == 1 then row[0]
    else
      var rest := MaxOf(row[1..]);
      assert forall i | 1 <= i < |row| :: row[i] == row[1..][i - 1];
      if row[0] >= rest then row[0] else rest
  }

  function Abs(x: real): real { if x < 0.0 then -x else x }

  function Clamp(x: int, lo: int, hi: int): int
    requires lo <= hi
  {
    if x < lo then lo else if x > hi then hi else x
  }

  /** The codes qmin to qmax, `scale` apart, with code `zero` standing for 0. */
  datatype Grid = Grid(qmin: int, qmax: int, scale: real, zero: int)

  /** The values the codes must cover, from end to end. */
  function Span(lo: real, hi: real, sym: bool): real {
    if sym then Max(Abs(lo), Abs(hi)) else hi - lo
  }

  function GridFor(lo: real, hi: real, sym: bool, bits: nat): Grid
    requires bits >= 2
  {
    var qmin := if sym then -Pow2(bits - 1) else 0;
    var qmax := if sym then Pow2(bits - 1) - 1 else Pow2(bits) - 1;
    assert Pow2(bits - 1) == 2 * Pow2(bits - 2) && Pow2(bits) == 2 * Pow2(bits - 1);
    var scale := Max(Span(lo, hi, sym) / qmax as real, MIN_SCALE);
    Grid(qmin, qmax, scale, if sym then 0 else -Round(lo / scale))
  }

  function GridOf(row: seq<real>, sym: bool, bits: nat): Grid
    requires |row| > 0 && bits >= 2
  {
    GridFor(MinOf(row), MaxOf(row), sym, bits)
  }

  /** The code a value gets, before the final cast. */
  function Code(g: Grid, x: real): int
    requires g.scale > 0.0 && g.qmin <= g.qmax
  {
    Clamp(Round(x / g.scale + g.zero as real), g.qmin, g.qmax)
  }

  function Dequantize(g: Grid, code: int): real { (code - g.zero) as real * g.scale }

  // ----- What a grid for values from lo to hi offers

  ghost predicate Covers(g: Grid, lo: real, hi: real, sym: bool) {
    && g.scale >= MIN_SCALE && g.qmax >= 1 && g.qmax % 2 == 1 && Span(lo, hi, sym) <= g.qmax as real * g.scale
    && (if sym then g.qmin == -g.qmax - 1 && g.zero == 0 else g.qmin == 0 && g.zero == -Round(lo / g.scale))
  }

  lemma GridCovers(lo: real, hi: real, sym: bool, bits: nat)
    requires bits >= 2
    ensures Covers(GridFor(lo, hi, sym, bits), lo, hi, sym)
  {
    var g := GridFor(lo, hi, sym, bits);
    assert Pow2(bits - 1) == 2 * Pow2(bits - 2) && Pow2(bits) == 2 * Pow2(bits - 1);
    SpanBound(Span(lo, hi, sym), g.qmax as real, g.scale);
  }

  lemma SpanBound(span: real, q: real, s: real)
    requires q >= 1.0 && s >= span / q && s > 0.0
    ensures span <= q * s
  {
    assert span / q * q == span;
    assert span / q * q <= s * q;
  }

  /** x / s against q is x against q * s. */
  lemma QuotientBound(x: real, s: real, q: real)
    requires s > 0.0
    ensures x / s <= q <==> x <= q * s
    ensures q <= x / s <==> q * s <= x
    ensures q < x / s <==> q * s < x
  {
    assert x / s * s == x;
    if x / s <= q { assert x / s * s <= q * s; } else { assert x / s * s > q * s; }
    if q <= x / s { assert x / s * s >= q * s; } else { assert x / s * s < q * s; }
  }

  lemma SymmetricQuotient(x: real, span: real, s: real, q: real)
    requires s > 0.0 && -span <= x <= span <= q * s
    ensures -q <= x / s <= q
  {
    QuotientBound(x, s, q);
    QuotientBound(x, s, -q);
    assert (-q) * s == -(q * s);
  }

  /** Shifted by the zero point the quotient lies within half a step of [0, qmax]. */
  lemma AsymmetricQuotient(x: real, low: real, s: real, q: real, r: real)
    requires s > 0.0 && 0.0 <= x - low <= q * s && -0.5 <= r - low / s <= 0.5
    ensures -0.5 <= x / s - r <= q + 0.5
  {
    QuotientBound(x - low, s, q);
    QuotientBound(x - low, s, 0.0);
    QuotientOfSum(x - low, low, s);
  }

  lemma QuotientOfSum(x: real, y: real, s: real)
    requires s > 0.0
    ensures (x + y) / s == x / s + y / s
  {
  }

  lemma ShiftedRange(g: Grid, lo: real, hi: real, sym: bool, x: real)
    requires Covers(g, lo, hi, sym) && lo <= x <= hi
    ensures g.qmin as real - 0.5 <= x / g.scale + g.zero as real <= g.qmax as real + 0.5
  {
    if sym {
      SymmetricQuotient(x, Span(lo, hi, sym), g.scale, g.qmax as real);
    } else {
      AsymmetricQuotient(x, lo, g.scale, g.qmax as real, Round(lo / g.scale) as real);
    }
  }

  /** A number within half a step of the range is within half a step of its clamped rounding. */
  lemma ClampedRounding(y: real, lo: int, hi: int)
    requires lo <= hi && lo as real - 0.5 <= y <= hi as real + 0.5
    ensures -0.5 <= Clamp(Round(y), lo, hi) as real - y <= 0.5
  {
  }

  lemma StepError(x: real, s: real, z: int, c: int)
    requires s > 0.0 && -0.5 <= c as real - (x / s + z as real) <= 0.5
    ensures Abs((c - z) as real * s - x) <= s / 2.0
  {
    var d := (c - z) as real - x / s;
    assert x / s * s == x;
    assert d * s == (c - z) as real * s - x;
    assert d * s <= 0.5 * s && (-d) * s <= 0.5 * s;
  }

  lemma CoveredError(g: Grid, lo: real, hi: real, sym: bool, x: real)
    requires Covers(g, lo, hi, sym) && lo <= x <= hi
    ensures g.qmin <= Code(g, x) <= g.qmax && Abs(Dequantize(g, Code(g, x)) - x) <= g.scale / 2.0
  {
    ShiftedRange(g, lo, hi, sym, x);
    CodeError(g, x);
  }

  lemma CodeError(g: Grid, x: real)
    requires g.scale > 0.0 && g.qmin <= g.qmax
    requires g.qmin as real - 0.5 <= x / g.scale + g.zero as real <= g.qmax as real + 0.5
    ensures g.qmin <= Code(g, x) <= g.qmax && Abs(Dequantize(g, Code(g, x)) - x) <= g.scale / 2.0
  {
    ClampedRounding(x / g.scale + g.zero as real, g.qmin, g.qmax);
    StepError(x, g.scale, g.zero, Code(g, x));
  }

  /** Codes are in range, and dequantising an element of the row is off by at most half a step, in
      both modes, whether or not the clamp acted. */
  lemma HalfStepError(row: seq<real>, sym: bool, bits: nat, i: nat)
    requires i < |row| && bits >= 2
    ensures var g := GridOf(row, sym, bits);
            && g.scale > 0.0 && g.qmin <= Code(g, row[i]) <= g.qmax
            && Abs(Dequantize(g, Code(g, row[i])) - row[i]) <= g.scale / 2.0
  {
    GridCovers(MinOf(row), MaxOf(row), sym, bits);
    CoveredError(GridOf(row, sym, bits), MinOf(row), MaxOf(row), sym, row[i]);
  }

  // ----- The same in terms of the row alone

  /** The least and the greatest element of a row. */
  ghost predicate Extremes(row: seq<real>, lo: real, hi: real) {
    lo in row && hi in row && forall i | 0 <= i < |row| :: lo <= row[i] <= hi
  }

  /** The largest distance the codes have to span: of any element from zero, or between any two. */
  ghost predicate Spans(span: real, lo: real, hi: real, sym: bool) {
    if sym then (span == hi || span == -lo) && hi <= span && -lo <= span else span == hi - lo
  }

  /** The largest code. */
  function LastCode(sym: bool, bits: nat): int
    requires bits >= 2
  {
    if sym then Pow2(bits - 1) - 1 else Pow2(bits) - 1
  }

  /** The codes divide the span evenly, unless that would make a step shorter than 0.00001. */
  lemma ScaleExactly(row: seq<real>, sym: bool, bits: nat, lo: real, hi: real, span: real, g: Grid, q: real)
    requires |row| > 0 && bits >= 2 && Extremes(row, lo, hi) && Spans(span, lo, hi, sym)
    requires g == GridOf(row, sym, bits) && q == LastCode(sym, bits) as real
    ensures g.qmax as real == q >= 1.0
    ensures if span >= q * 0.00001 then g.scale * q == span else g.scale == 0.00001
  {
    ExtremesAre(row, lo, hi);
    SpanIs(lo, hi, sym, span);
    ScaleOf(lo, hi, sym, bits, span, g, q);
    ScaleCases(span, q, g.scale);
  }

  lemma ScaleOf(lo: real, hi: real, sym: bool, bits: nat, span: real, g: Grid, q: real)
    requires bits >= 2 && span == Span(lo, hi, sym) && g == GridFor(lo, hi, sym, bits)
             && q == LastCode(sym, bits) as real
    ensures g.qmax as real == q >= 1.0 && g.scale == Max(span / q, 0.00001)
  {
    GridScale(lo, hi, sym, bits, LastCode(sym, bits), span);
  }

  lemma GridScale(lo: real, hi: real, sym: bool, bits: nat, q: int, span: real)
    requires bits >= 2 && q == LastCode(sym, bits) && span == Span(lo, hi, sym)
    ensures q >= 1 && GridFor(lo, hi, sym, bits).qmax == q
    ensures GridFor(lo, hi, sym, bits).scale == Max(span / q as real, 0.00001)
  {
    assert Pow2(bits - 1) == 2 * Pow2(bits - 2) && Pow2(bits) == 2 * Pow2(bits - 1);
  }

  lemma ScaleCases(span: real, q: real, scale: real)
    requires q >= 1.0 && scale == Max(span / q, 0.00001)
    ensures if span >= q * 0.00001 then scale * q == span else scale == 0.00001
  {
    QuotientBound(span, q, 0.00001);
    assert span / q * q == span;
  }

  lemma ExtremesAre(row: seq<real>, lo: real, hi: real)
    requires |row| > 0 && Extremes(row, lo, hi)
    ensures MinOf(row) == lo && MaxOf(row) == hi
  {
    LeastIs(row, lo, MinOf(row));
    GreatestIs(row, hi, MaxOf(row));
  }

  lemma LeastIs(row: seq<real>, x: real, y: real)
    requires x in row && y in row && forall i | 0 <= i < |row| :: x <= row[i] && y <= row[i]
    ensures x == y
  {
  }

  lemma GreatestIs(row: seq<real>, x: real, y: real)
    requires x in row && y in row && forall i | 0 <= i < |row| :: row[i] <= x && row[i] <= y
    ensures x == y
  {
  }

  lemma SpanIs(lo: real, hi: real, sym: bool, span: real)
    requires lo <= hi && Spans(span, lo, hi, sym)
    ensures Span(lo, hi, sym) == span
  {
  }

  /** What comes back is off by at most half of the step that divides the span evenly, or by 0.000005 if that
      is more. */
  lemma ErrorFromRow(row: seq<real>, sym: bool, bits: nat, i: nat, lo: real, hi: real, span: real, g: Grid, q: real)
    requires i < |row| && bits >= 2 && Extremes(row, lo, hi) && Spans(span, lo, hi, sym)
    requires g == GridOf(row, sym, bits) && q == LastCode(sym, bits) as real
    ensures q >= 1.0 && g.scale > 0.0 && g.qmin <= g.qmax
    ensures Abs(Dequantize(g, Code(g, row[i])) - row[i]) <= (if span >= q * 0.00001 then span / q else 0.00001) / 2.0
  {
    HalfStepError(row, sym, bits, i);
    ScaleExactly(row, sym, bits, lo, hi, span, g, q);
    ProductQuotient(g.scale, q, span);
  }

  lemma ProductQuotient(s: real, q: real, span: real)
    requires q >= 1.0
    ensures s * q == span ==> s == span / q
  {
    assert s * q == span ==> span / q * q == s * q;
  }

  /** Of any number at all, the code is one whose value is nearest. */
  lemma NearestCode(g: Grid, x: real, c: int)
    requires g.scale > 0.0 && g.qmin <= c <= g.qmax
    ensures Abs(Dequantize(g, Code(g, x)) - x) <= Abs(Dequantize(g, c) - x)
  {
    var y := x / g.scale + g.zero as real;
    NearestInRange(y, Round(y), g.qmin, g.qmax, c);
    NearestValue(g, x, y, Code(g, x), c);
  }

  lemma NearestValue(g: Grid, x: real, y: real, code: int, c: int)
    requires g.scale > 0.0 && y == x / g.scale + g.zero as real && Abs(code as real - y) <= Abs(c as real - y)
    ensures Abs(Dequantize(g, code) - x) <= Abs(Dequantize(g, c) - x)
  {
    Stretch(g, x, y, code);
    Stretch(g, x, y, c);
    Longer(Abs(code as real - y), Abs(c as real - y), g.scale);
  }

  lemma NearestInRange(y: real, r: int, lo: int, hi: int, c: int)
    requires lo <= c <= hi && -0.5 <= r as real - y <= 0.5
    ensures Abs(Clamp(r, lo, hi) as real - y) <= Abs(c as real - y)
  {
    if r < lo {
      assert r as real + 1.0 <= lo as real <= c as real;
    } else if r > hi {
      assert c as real <= hi as real <= r as real - 1.0;
    } else if c > r {
      assert c as real >= r as real + 1.0;
    } else if c < r {
      assert c as real <= r as real - 1.0;
    }
  }

  lemma Stretch(g: Grid, x: real, y: real, c: int)
    requires g.scale > 0.0 && y == x / g.scale + g.zero as real
    ensures Abs(Dequantize(g, c) - x) == Abs(c as real - y) * g.scale
  {
    var d := c as real - y;
    assert x / g.scale * g.scale == x;
    assert d == (c - g.zero) as real - x / g.scale;
    assert d * g.scale == Dequantize(g, c) - x;
    assert d < 0.0 ==> d * g.scale < 0.0;
    assert d >= 0.0 ==> d * g.scale >= 0.0;
    assert (-d) * g.scale == -(d * g.scale);
  }

  lemma Longer(x: real, y: real, s: real)
    requires x <= y && s > 0.0
    ensures x * s <= y * s
  {
  }

  /** The clamp does act: here the largest element rounds to one past the last code. */
  lemma ClampActs()
    ensures var row := [0.5, 3.5];
            var g := GridOf(row, false, 2);
            g.scale == 1.0 && Round(row[1] / g.scale + g.zero as real) == g.qmax + 1 && Code(g, row[1]) == g.qmax
  {
    HalfToThreeAndAHalf();
    RoundIsUnique(3.5, 4);
  }

  lemma HalfToThreeAndAHalf()
    ensures var row := [0.5, 3.5];
            MinOf(row) == 0.5 && MaxOf(row) == 3.5 && GridOf(row, false, 2) == Grid(0, 3, 1.0, 0)
  {
    var row := [0.5, 3.5];
    assert row[1..] == [3.5];
    assert MinOf(row) == 0.5 && MaxOf(row) == 3.5;
    assert Pow2(1) == 2 && Pow2(2) == 4;
    RoundIsUnique(0.5, 0);
  }

  // ----- Zero

  lemma RoundBelow(v: real, q: int)
    requires q % 2 == 1
    ensures Round(v) <= 0 <==> v <= 0.5
    ensures -q <= Round(v) <==> -(q as real + 0.5) < v
  {
    if v == -(q as real + 0.5) { RoundIsUnique(v, -q - 1); }
    if v == 0.5 { RoundIsUnique(v, 0); }
  }

  /** The minimum is at most half a step above zero and less than qmax and a half steps below it. */
  ghost predicate ZeroWithin(g: Grid, lo: real) {
    -(g.qmax as real + 0.5) * g.scale < lo <= 0.5 * g.scale
  }

  lemma CodeOfZero(g: Grid)
    requires g.scale > 0.0 && g.qmin <= g.qmax
    ensures Dequantize(g, Code(g, 0.0)) == 0.0 <==> g.qmin <= g.zero <= g.qmax
  {
    assert 0.0 / g.scale + g.zero as real == g.zero as real;
    RoundIsUnique(g.zero as real, g.zero);
    NonzeroProduct((Clamp(g.zero, g.qmin, g.qmax) - g.zero) as real, g.scale);
  }

  lemma NonzeroProduct(x: real, s: real)
    requires s > 0.0
    ensures x * s == 0.0 <==> x == 0.0
  {
  }

  /** Zero comes back as zero always in symmetric mode; in asymmetric mode exactly when the row's minimum
      is at most half a step above zero and less than qmax and a half steps below it. */
  lemma ZeroReproduced(row: seq<real>, sym: bool, bits: nat)
    requires |row| > 0 && bits >= 2
    ensures var g := GridOf(row, sym, bits);
            && g.scale > 0.0 && g.qmin <= g.qmax
            && (Dequantize(g, Code(g, 0.0)) == 0.0 <==> sym || ZeroWithin(g, MinOf(row)))
  {
    GridCovers(MinOf(row), MaxOf(row), sym, bits);
    ZeroOnGrid(GridOf(row, sym, bits), MinOf(row), MaxOf(row), sym);
  }

  lemma ZeroOnGrid(g: Grid, lo: real, hi: real, sym: bool)
    requires Covers(g, lo, hi, sym)
    ensures Dequantize(g, Code(g, 0.0)) == 0.0 <==> sym || ZeroWithin(g, lo)
  {
    CodeOfZero(g);
    if !sym {
      QuotientBound(lo, g.scale, 0.5);
      QuotientBound(lo, g.scale, -(g.qmax as real + 0.5));
      RoundBelow(lo / g.scale, g.qmax);
    }
  }

  /** In particular whenever zero lies in the row's range. */
  lemma ZeroInRange(row: seq<real>, sym: bool, bits: nat)
    requires |row| > 0 && bits >= 2 && MinOf(row) <= 0.0 <= MaxOf(row)
    ensures var g := GridOf(row, sym, bits);
            g.scale > 0.0 && g.qmin <= g.qmax && Dequantize(g, Code(g, 0.0)) == 0.0
  {
    GridCovers(MinOf(row), MaxOf(row), sym, bits);
    ZeroInGrid(GridOf(row, sym, bits), MinOf(row), MaxOf(row), sym);
  }

  lemma ZeroInGrid(g: Grid, lo: real, hi: real, sym: bool)
    requires Covers(g, lo, hi, sym) && lo <= 0.0 <= hi
    ensures Dequantize(g, Code(g, 0.0)) == 0.0
  {
    ZeroOnGrid(g, lo, hi, sym);
    assert (g.qmax as real + 0.5) * g.scale == g.qmax as real * g.scale + 0.5 * g.scale;
  }

  /** But not only then. */
  lemma ZeroOutOfRange()
    ensures var row := [0.5, 3.5];
            var g := GridOf(row, false, 2);
            MinOf(row) > 0.0 && g.scale == 1.0 && g.qmin <= g.qmax && Dequantize(g, Code(g, 0.0)) == 0.0
  {
    HalfToThreeAndAHalf();
    CodeOfZero(Grid(0, 3, 1.0, 0));
  }

  // ----- The final cast to int8 or uint8

  function Cast(sym: bool, code: int): int {
    if sym then (code + 128) % 256 - 128 else code % 256
  }

  lemma {:induction false} Pow2Grows(m: nat, n: nat)
    requires m <= n
    ensures Pow2(m) <= Pow2(n)
  {
    if m < n { Pow2Grows(m, n - 1); }
  }

  ghost predicate CastKeeps(sym: bool, bits: nat, row: seq<real>, i: nat)
    requires i < |row| && bits >= 2
  {
    GridCovers(MinOf(row), MaxOf(row), sym, bits);
    var g := GridOf(row, sym, bits);
    Cast(sym, Code(g, row[i])) == Code(g, row[i])
  }

  /** The cast keeps every code of every row exactly when the width is at most eight bits. */
  lemma CastLossless(sym: bool, bits: nat)
    requires bits >= 2
    ensures bits <= 8 <==> forall row: seq<real>, i: nat | i < |row| :: CastKeeps(sym, bits, row, i)
  {
    if bits <= 8 {
      forall row: seq<real>, i: nat | i < |row| ensures CastKeeps(sym, bits, row, i) {
        NarrowCast(sym, bits, row, i);
      }
    } else {
      assert !CastKeeps(sym, bits, [0.0, LastCode(sym, bits) as real], 1) by { WideCast(sym, bits); }
    }
  }

  lemma NarrowCast(sym: bool, bits: nat, row: seq<real>, i: nat)
    requires 2 <= bits <= 8 && i < |row|
    ensures CastKeeps(sym, bits, row, i)
  {
    HalfStepError(row, sym, bits, i);
    Pow2Grows(bits, 8);
    assert Pow2(8) == 256 by { assert Pow2(4) == 16; }
    assert Pow2(bits) == 2 * Pow2(bits - 1);
  }

  /** A row from zero to qmax has scale one, and its last element gets the last code. */
  lemma WideCast(sym: bool, bits: nat)
    requires bits > 8
    ensures !CastKeeps(sym, bits, [0.0, LastCode(sym, bits) as real], 1)
  {
    var q := LastCode(sym, bits);
    var row := [0.0, q as real];
    assert row[1..] == [q as real];
    GridCovers(0.0, q as real, sym, bits);
    assert MinOf(row) == 0.0 && MaxOf(row) == q as real;
    TopGrid(sym, bits, q);
    RoundIsUnique(q as real, q);
    WideCode(sym, bits, q);
  }

  lemma WideCode(sym: bool, bits: nat, q: int)
    requires bits > 8 && q == LastCode(sym, bits)
    ensures Cast(sym, q) != q
  {
    Pow2Grows(9, bits);
    assert Pow2(9) == 512 by { assert Pow2(4) == 16; }
    assert Pow2(bits) == 2 * Pow2(bits - 1);
  }

  lemma TopGrid(sym: bool, bits: nat, q: int)
    requires bits >= 2 && q == LastCode(sym, bits)
    ensures q >= 1
    ensures GridFor(0.0, q as real, sym, bits).qmax == q
    ensures GridFor(0.0, q as real, sym, bits).scale == 1.0
    ensures GridFor(0.0, q as real, sym, bits).zero == 0
  {
    GridCovers(0.0, 0.0, sym, bits);
    SelfQuotient(q as real);
    RoundIsUnique(0.0, 0);
  }

  lemma SelfQuotient(q: real)
    requires q >= 1.0
    ensures q / q == 1.0
  {
  }
}

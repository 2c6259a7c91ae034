/** How scheduled tokens are cut into chunks for the selective-scan kernel, so that every chunk lies
    in one cache block (v1/attention/backends/mamba_attn.py). */
module ScanChunks {
  import opened Prelude

  function Sum(lens: seq<int>, k: nat): int
    requires k <= |lens|
  {
    if k == 0 then 0 else Sum(lens, k - 1) + lens[k - 1]
  }

  /** The block of the first scheduled token, after `computed` tokens. */
  function FirstBlock(computed: nat, block: nat): nat
    requires block > 0
  {
    computed / block
  }

  /** Where chunk `k` ends, counted from the start of the sequence: at its block's end or at the last token. */
  function ChunkEnd(computed: nat, n: nat, block: nat, k: nat): nat
    requires block > 0
  {
    if k == 0 then computed else Min((FirstBlock(computed, block) + k) * block, computed + n)
  }

  function ChunkCount(computed: nat, n: nat, block: nat): nat
    requires block > 0 && n > 0
  {
    DivMono(computed, computed + n - 1, block);
    (computed + n - 1) / block - computed / block + 1
  }

  /** One chunk per block touched, each covering exactly the scheduled tokens of its block. */
  ghost predicate GoodChunks(lens: seq<int>, computed: nat, n: nat, block: nat)
    requires block > 0 && n > 0
  {
    && |lens| == ChunkCount(computed, n, block)
    && forall k | 0 <= k <= |lens| :: computed + Sum(lens, k) == ChunkEnd(computed, n, block, k)
  }

  lemma DivMono(a: nat, b: nat, c: nat)
    requires c > 0 && a <= b
    ensures a / c <= b / c
  {
    if a / c > b / c { MulMono(b / c + 1, a / c, c); }
  }

  /** q is the block of token t exactly when t lies between q * c and (q + 1) * c. */
  lemma BlockOf(t: nat, q: nat, c: nat)
    requires c > 0
    ensures t / c == q <==> q * c <= t < (q + 1) * c
  {
    var r := t / c;
    assert t == r * c + t % c;
    assert (r + 1) * c == r * c + c && (q + 1) * c == q * c + c;
    if r < q { MulMono(r + 1, q, c); }
    if q < r { MulMono(q + 1, r, c); }
  }

  /** `bounds` are the chunk boundaries of a request whose scheduled tokens start at `base` in the batch. */
  ghost predicate BoundariesOf(bounds: seq<int>, base: int, computed: nat, n: nat, block: nat)
    requires block > 0 && n > 0
  {
    && |bounds| == ChunkCount(computed, n, block) + 1
    && forall k | 0 <= k < |bounds| :: bounds[k] == base + ChunkEnd(computed, n, block, k) - computed
  }

  /** The chunk lengths the kernel reads off consecutive boundaries. */
  function LensOf(bounds: seq<int>): (lens: seq<int>)
    requires |bounds| > 0
    ensures |lens| == |bounds| - 1
  {
    seq(|bounds| - 1, k requires 0 <= k < |bounds| - 1 => bounds[k + 1] - bounds[k])
  }

  lemma EndsGrow(computed: nat, n: nat, block: nat, k: nat)
    requires block > 0 && n > 0
    ensures ChunkEnd(computed, n, block, k) <= ChunkEnd(computed, n, block, k + 1)
  {
    BlockOf(computed, FirstBlock(computed, block), block);
    MulMono(FirstBlock(computed, block) + k, FirstBlock(computed, block) + k + 1, block);
  }

  /** Boundaries as computed give exactly the chunks the kernel relies on. */
  lemma BoundariesGiveGoodChunks(bounds: seq<int>, base: int, computed: nat, n: nat, block: nat)
    requires block > 0 && n > 0 && BoundariesOf(bounds, base, computed, n, block)
    ensures GoodChunks(LensOf(bounds), computed, n, block)
  {
    var lens := LensOf(bounds);
    forall k | 0 <= k <= |lens| ensures computed + Sum(lens, k) == ChunkEnd(computed, n, block, k) {
      SumOfLens(bounds, k);
    }
  }

  lemma {:induction false} SumOfLens(bounds: seq<int>, k: nat)
    requires k < |bounds|
    ensures Sum(LensOf(bounds), k) == bounds[k] - bounds[0]
  {
    if k > 0 { SumOfLens(bounds, k - 1); }
  }

  /** The end reached after `k` chunks is the last token exactly when all chunks have been cut. */
  lemma LastChunkReached(computed: nat, n: nat, block: nat, k: nat)
    requires block > 0 && n > 0 && k > 0
    requires ChunkEnd(computed, n, block, k - 1) < ChunkEnd(computed, n, block, k) == computed + n
    ensures k == ChunkCount(computed, n, block)
  {
    var first := FirstBlock(computed, block);
    BlockOf(computed, first, block);
    if k > 1 { assert (first + k - 1) * block < computed + n; }
    BlockOf(computed + n - 1, first + k - 1, block);
    assert first + k - 1 + 1 == first + k;
  }

  lemma NextEnd(computed: nat, n: nat, block: nat, k: nat)
    requires block > 0 && n > 0
    requires ChunkEnd(computed, n, block, k) < computed + n
    requires k == 0 ==> computed % block == 0
    ensures ChunkEnd(computed, n, block, k + 1) == Min(ChunkEnd(computed, n, block, k) + block, computed + n)
  {
    var first := FirstBlock(computed, block);
    assert (first + k + 1) * block == (first + k) * block + block;
    if k == 0 { assert computed == first * block; }
  }

  lemma CeilDivStep(rest: nat, block: nat)
    requires block > 0
    ensures rest == 0 <==> CeilDiv(rest, block) == 0
    ensures rest > 0 ==> CeilDiv(rest - Min(rest, block), block) == CeilDiv(rest, block) - 1
  {
    if rest > 0 {
      var q := CeilDiv(rest, block);
      BlockOf(rest + block - 1, q, block);
      assert (q + 1) * block == q * block + block;
      if rest > block {
        BlockOf(rest - block + block - 1, q - 1, block);
        assert (q - 1 + 1) * block == q * block && q * block == (q - 1) * block + block;
      } else {
        BlockOf(block - 1, 0, block);
        BlockOf(rest + block - 1, 1, block);
      }
    }
  }

  /** One request's part of `_compute_chunk_metadata`. */
  method ChunkRequest(starts: seq<int>, position: int, computed: nat, n: nat, block: nat)
    returns (starts': seq<int>, position': int)
    requires block > 0 && n > 0
    ensures position' == position + n && starts + [position] <= starts' + [position']
    ensures |starts'| == |starts| + ChunkCount(computed, n, block)
    ensures BoundariesOf((starts' + [position'])[|starts|..], position, computed, n, block)
  {
    position' := position;
    var left: int := n;
    var own: seq<int> := [];  // this request's part of the list
    if computed % block != 0 {
      own := own + [position'];
      var len := CeilDiv(computed, block) * block - computed;
      PartialBlock(computed, block);
      len := Min(len, left);
      position' := position' + len;
      left := left - len;
    }
    var chunks := CeilDiv(left, block);
    var i := 0;
    CeilDivStep(left, block);
    while i < chunks
      invariant 0 <= left <= n && 0 <= i <= chunks && chunks - i == CeilDiv(left, block)
      invariant position' == position + ChunkEnd(computed, n, block, |own|) - computed
      invariant left == computed + n - ChunkEnd(computed, n, block, |own|)
      invariant |own| == 0 ==> computed % block == 0
      invariant |own| > 0 ==> ChunkEnd(computed, n, block, |own| - 1) < ChunkEnd(computed, n, block, |own|)
      invariant forall k | 0 <= k < |own| :: own[k] == position + ChunkEnd(computed, n, block, k) - computed
    {
      CeilDivStep(left, block);
      NextEnd(computed, n, block, |own|);
      own := own + [position'];
      var len := Min(block, left);
      position' := position' + len;
      left := left - len;
      i := i + 1;
    }
    CeilDivStep(left, block);
    LastChunkReached(computed, n, block, |own|);
    starts' := starts + own;
    assert (starts' + [position'])[|starts|..] == own + [position'];
  }

  lemma PartialBlock(computed: nat, block: nat)
    requires block > 0 && computed % block != 0
    ensures CeilDiv(computed, block) * block == (FirstBlock(computed, block) + 1) * block > computed
  {
    var q := FirstBlock(computed, block);
    BlockOf(computed, q, block);
    assert computed == q * block + computed % block;
    assert (q + 1 + 1) * block == (q + 1) * block + block;
    BlockOf(computed + block - 1, q + 1, block);
  }

  /** The first chunk of request `b`: one past the previous request's last. */
  function FirstChunk(last: seq<int>, b: nat): int
    requires b <= |last|
  {
    if b == 0 then 0 else last[b - 1] + 1
  }

  /** In the boundary list, from its first chunk to one past its last, request `b` has its boundaries. */
  ghost predicate RequestOk(cu: seq<int>, last: seq<int>, b: nat, base: int, computed: nat, n: nat, block: nat)
    requires block > 0 && n > 0
  {
    && b < |last| && 0 <= FirstChunk(last, b) <= last[b] && last[b] + 2 <= |cu|
    && BoundariesOf(cu[FirstChunk(last, b)..last[b] + 2], base, computed, n, block)
  }

  lemma LongerListStillOk(cu: seq<int>, last: seq<int>, cu': seq<int>, last': seq<int>, b: nat, base: int,
                          computed: nat, n: nat, block: nat)
    requires block > 0 && n > 0 && RequestOk(cu, last, b, base, computed, n, block) && cu <= cu' && last <= last'
    ensures RequestOk(cu', last', b, base, computed, n, block)
  {
    assert cu'[FirstChunk(last', b)..last'[b] + 2] == cu[FirstChunk(last, b)..last[b] + 2];
  }

  ghost predicate RequestsOk(cu: seq<int>, last: seq<int>, computed: seq<nat>, news: seq<nat>, block: nat, r: nat)
    requires block > 0 && r <= |computed| == |news| && forall b | 0 <= b < |news| :: news[b] > 0
  {
    forall b {:trigger computed[b]} | 0 <= b < r :: RequestOk(cu, last, b, Sum(news, b), computed[b], news[b], block)
  }

  lemma OneMoreRequest(cu: seq<int>, last: seq<int>, cu': seq<int>, end: int, computed: seq<nat>, news: seq<nat>,
                       block: nat, r: nat)
    requires block > 0 && r < |computed| == |news| && forall b | 0 <= b < |news| :: news[b] > 0
    requires RequestsOk(cu, last, computed, news, block, r) && |last| == r && cu <= cu'
    requires 0 <= FirstChunk(last, r) <= end && end + 2 <= |cu'|
    requires BoundariesOf(cu'[FirstChunk(last, r)..end + 2], Sum(news, r), computed[r], news[r], block)
    ensures RequestsOk(cu', last + [end], computed, news, block, r + 1)
  {
    forall b {:trigger computed[b]} | 0 <= b < r + 1
      ensures RequestOk(cu', last + [end], b, Sum(news, b), computed[b], news[b], block)
    {
      if b < r { LongerListStillOk(cu, last, cu', last + [end], b, Sum(news, b), computed[b], news[b], block); }
    }
  }

  /** `_compute_chunk_metadata` over a batch of prefill requests, each with new tokens. */
  method ComputeChunkMetadata(block: nat, computed: seq<nat>, news: seq<nat>) returns (cu: seq<int>, last: seq<int>)
    requires block > 0 && |computed| == |news| && forall b | 0 <= b < |news| :: news[b] > 0
    ensures |last| == |news| && RequestsOk(cu, last, computed, news, block, |news|)
  {
    var starts: seq<int>, position := [], 0;
    last := [];
    var r := 0;
    while r < |news|
      invariant 0 <= r <= |news| && |last| == r && position == Sum(news, r) && |starts| == FirstChunk(last, r)
      invariant RequestsOk(starts + [position], last, computed, news, block, r)
    {
      var starts', position' := ChunkRequest(starts, position, computed[r], news[r], block);
      var end := |starts'| - 1;
      assert (starts' + [position'])[FirstChunk(last, r)..end + 2] == (starts' + [position'])[|starts|..];
      OneMoreRequest(starts + [position], last, starts' + [position'], end, computed, news, block, r);
      last := last + [end];
      starts, position := starts', position';
      r := r + 1;
    }
    cu := starts + [position];
  }
}

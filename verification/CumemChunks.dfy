/** How the ROCm allocator cuts an allocation into chunks (csrc/cumem_allocator.cpp).
    Sizes are unbounded here; ChunkSizes says which sums the source needs to fit in 64 bits. */
module CumemChunks {

  import opened Prelude

  const MB := 1024 * 1024
  const DEFAULT_MEMCREATE_CHUNK_SIZE := 256 * MB
  const ULLONG_MAX := 0xFFFF_FFFF_FFFF_FFFF

  /** `env` is the parsed value of VLLM_ROCM_SLEEP_MEM_CHUNK_SIZE, None if unset or not a number. */
  function MemcreateChunkSize(env: Option<nat>): (r: nat)
    ensures 0 < r <= ULLONG_MAX && r % MB == 0
    ensures env.Some? && 0 < env.value && env.value * MB <= ULLONG_MAX ==> r == env.value * MB
    ensures !(env.Some? && 0 < env.value && env.value * MB <= ULLONG_MAX) ==> r == 268435456
  {
    if env.None? || env.value == 0 || env.value > ULLONG_MAX / MB then DEFAULT_MEMCREATE_CHUNK_SIZE
    else env.value * MB
  }

  function AlignUp(size: nat, g: nat): nat
    requires g > 0
  {
    ((size + g - 1) / g) * g
  }

  lemma AlignUpIsLeastMultiple(size: nat, g: nat)
    requires g > 0
    ensures AlignUp(size, g) % g == 0
    ensures size <= AlignUp(size, g) < size + g
    ensures AlignUp(size, g) == size <==> size % g == 0
  {
    var q := (size + g - 1) / g;
    MultipleOf(q, g);
    assert (size + g - 1) == q * g + (size + g - 1) % g;
    if size % g == 0 { DifferenceOfMultiples(AlignUp(size, g), size, g, 1); }
  }

  lemma MultipleOf(q: int, g: nat)
    requires g > 0
    ensures q * g % g == 0
  {
    var m, r := q * g / g, q * g % g;
    assert q * g == m * g + r;
    assert (q - m) * g == r;
    assert q - m >= 1 ==> (q - m) * g >= g;
    assert q - m <= -1 ==> (q - m) * g <= 0 - g;
    assert q == m;
  }

  /** Where chunk `i` starts, relative to the reservation: the running `allocated_size`. */
  function Offset(sizes: seq<nat>, i: nat): nat
    requires i <= |sizes|
  {
    if i == 0 then 0 else Offset(sizes, i - 1) + sizes[i - 1]
  }

  function Total(sizes: seq<nat>): nat {
    Offset(sizes, |sizes|)
  }

  predicate Positive(sizes: seq<nat>) {
    forall i | 0 <= i < |sizes| :: sizes[i] > 0
  }

  lemma {:induction false} OffsetsGrow(sizes: seq<nat>, i: nat, j: nat)
    requires i < j <= |sizes|
    ensures Offset(sizes, i) + sizes[i] <= Offset(sizes, j)
  {
    if j > i + 1 { OffsetsGrow(sizes, i, j - 1); }
  }

  /** Chunks fill the reservation without gap or overlap: every byte of it is in exactly one chunk. */
  lemma {:induction false} ChunksTile(sizes: seq<nat>, n: nat, b: nat)
    requires n <= |sizes| && b < Offset(sizes, n)
    ensures exists i :: 0 <= i < n && Offset(sizes, i) <= b < Offset(sizes, i) + sizes[i]
    ensures forall i, j | 0 <= i < n && 0 <= j < n && Offset(sizes, i) <= b < Offset(sizes, i) + sizes[i]
                          && Offset(sizes, j) <= b < Offset(sizes, j) + sizes[j] :: i == j
  {
    if b < Offset(sizes, n - 1) {
      ChunksTile(sizes, n - 1, b);
    } else {
      assert 0 <= n - 1 < n && Offset(sizes, n - 1) <= b < Offset(sizes, n - 1) + sizes[n - 1];
    }
    forall i, j | 0 <= i < n && 0 <= j < n && Offset(sizes, i) <= b < Offset(sizes, i) + sizes[i]
                  && Offset(sizes, j) <= b < Offset(sizes, j) + sizes[j]
      ensures i == j
    {
      if i < j { OffsetsGrow(sizes, i, j); }
      if j < i { OffsetsGrow(sizes, j, i); }
    }
  }

  /** The first chunks, `count` in all: all but the last of `chunk` bytes, the last for what is left. */
  ghost predicate CutSoFar(sizes: seq<nat>, g: nat, chunk: nat, count: nat, alignedSize: nat)
    requires g > 0
  {
    && |sizes| <= count && Positive(sizes)
    && (forall k | 0 <= k < |sizes| :: sizes[k] % g == 0 && sizes[k] <= chunk)
    && (forall k | 0 <= k < |sizes| && k < count - 1 :: sizes[k] == chunk)
    && Total(sizes) == if |sizes| == count then alignedSize else |sizes| * chunk
  }

  lemma NextChunk(sizes: seq<nat>, g: nat, chunk: nat, count: nat, alignedSize: nat)
    requires g > 0 && chunk > 0 && alignedSize % g == 0 && chunk % g == 0
    requires CutSoFar(sizes, g, chunk, count, alignedSize) && |sizes| < count
    requires (count - 1) * chunk < alignedSize <= count * chunk
    ensures var rest := alignedSize - |sizes| * chunk;
            rest > 0 && CutSoFar(sizes + [if rest < chunk then rest else chunk], g, chunk, count, alignedSize)
  {
    LastChunk(alignedSize, chunk, g, count, |sizes|);
    var rest := alignedSize - |sizes| * chunk;
    TotalAppends(sizes, if rest < chunk then rest else chunk);
  }

  /** Multiples of the granularity, all of `chunk` bytes but the last, which may be shorter. */
  ghost predicate CutEvenly(sizes: seq<nat>, granularity: nat, chunk: nat)
    requires granularity > 0
  {
    && (forall i | 0 <= i < |sizes| :: sizes[i] % granularity == 0 && sizes[i] <= chunk)
    && forall i | 0 <= i < |sizes| - 1 :: sizes[i] == chunk
  }

  /** The chunk loop of `my_malloc`. The 64-bit sums of the source stay below ULLONG_MAX. */
  method ChunkSizes(size: nat, granularity: nat, base: nat) returns (sizes: seq<nat>)
    requires granularity > 0 && base > 0
    requires size + granularity - 1 <= ULLONG_MAX && base + granularity - 1 <= ULLONG_MAX
    requires AlignUp(size, granularity) + AlignUp(base, granularity) - 1 <= ULLONG_MAX
    ensures Positive(sizes) && Total(sizes) == AlignUp(size, granularity)
    ensures CutEvenly(sizes, granularity, AlignUp(base, granularity))
  {
    var alignedSize := AlignUp(size, granularity);
    var chunk := AlignUp(base, granularity);
    AlignUpIsLeastMultiple(size, granularity);
    AlignUpIsLeastMultiple(base, granularity);
    var count := CeilDiv(alignedSize, chunk);
    CeilDivBounds(alignedSize, chunk);
    sizes := [];
    var i := 0;
    while i < count
      invariant |sizes| == i && CutSoFar(sizes, granularity, chunk, count, alignedSize)
    {
      NextChunk(sizes, granularity, chunk, count, alignedSize);
      var rest := alignedSize - i * chunk;
      var c := if rest < chunk then rest else chunk;
      sizes := sizes + [c];
      i := i + 1;
    }
  }

  lemma {:induction false} OffsetPrefix(sizes: seq<nat>, more: seq<nat>, i: nat)
    requires i <= |sizes|
    ensures Offset(sizes + more, i) == Offset(sizes, i)
  {
    if i > 0 { OffsetPrefix(sizes, more, i - 1); }
  }

  lemma TotalAppends(sizes: seq<nat>, c: nat)
    ensures Total(sizes + [c]) == Total(sizes) + c
  {
    OffsetPrefix(sizes, [c], |sizes|);
  }

  lemma LastChunk(alignedSize: nat, chunk: nat, g: nat, count: nat, i: nat)
    requires g > 0 && chunk > 0 && alignedSize % g == 0 && chunk % g == 0
    requires i < count && (count - 1) * chunk < alignedSize <= count * chunk
    ensures 0 < alignedSize - i * chunk && (alignedSize - i * chunk) % g == 0
    ensures i < count - 1 ==> alignedSize - i * chunk >= chunk && i * chunk + chunk == (i + 1) * chunk
    ensures i == count - 1 ==> alignedSize - i * chunk <= chunk
  {
    assert i * chunk <= (count - 1) * chunk by { MulMono(i, count - 1, chunk); }
    DifferenceOfMultiples(alignedSize, chunk, g, i);
    if i < count - 1 {
      MulMono(i + 1, count - 1, chunk);
      assert (i + 1) * chunk == i * chunk + chunk;
    } else {
      assert count * chunk == (count - 1) * chunk + chunk;
    }
  }

  lemma DifferenceOfMultiples(a: nat, c: nat, g: nat, i: nat)
    requires g > 0 && a % g == 0 && c % g == 0
    ensures (a - i * c) % g == 0
  {
    var m, n := a / g, c / g;
    assert a == m * g && c == n * g;
    assert i * c == (i * n) * g;
    MultipleOf(m - i * n, g);
    assert (m - i * n) * g == m * g - (i * n) * g;
  }
}

/** A whole service: batch after batch over one cache, with requests that come and go, go on from their own
    last block, or start from a block that another request filled. */
module SelectiveScanService {
  import opened Prelude
  import opened ScanChunks
  import opened SelectiveScan
  import opened SelectiveScanBatch
  import opened SelectiveScanLaunch
  import opened SelectiveScanRuns

  // ----- What the block pool knows

  /** Per slot, the tokens of every dim whose final state it is said to hold.  The pool keeps their hashes. */
  type Index = map<nat, seq<seq<Token>>>

  ghost predicate IndexOk<S>(cell: Cell<S>, zero: S, index: Index, m: Memory<S>, slotCount: nat) {
    && (forall d | 0 <= d < |m.cache| :: |m.cache[d]| == slotCount)
    && forall x | x in index ::
         && x < slotCount && |index[x]| == |m.cache|
         && forall d | 0 <= d < |m.cache| :: m.cache[d][x] == Run(cell, zero, index[x][d], |index[x][d]|)
  }

  /** The first `k` tokens of every dim. */
  ghost function Prefixes(r: Request, k: nat): (ps: seq<seq<Token>>)
    requires forall d | 0 <= d < |r.streams| :: k <= |r.streams[d].toks|
    ensures |ps| == |r.streams| && forall d | 0 <= d < |ps| :: ps[d] == r.streams[d].toks[..k]
  {
    seq(|r.streams|, d requires 0 <= d < |r.streams| => r.streams[d].toks[..k])
  }

  /** A request starts at the beginning, or from a block said to hold the state after its `computed` tokens:
      its own, or one found by its hash. */
  ghost predicate Admitted(r: Request, block: nat, index: Index)
    requires block > 0 && LastComputedBlock(r.computed, block) < |r.slots|
    requires forall d | 0 <= d < |r.streams| :: r.computed <= |r.streams[d].toks|
  {
    r.computed > 0 ==>
      var x := r.slots[LastComputedBlock(r.computed, block)];
      x in index && index[x] == Prefixes(r, r.computed)
  }

  /** Block `j` of request `r` is written now, in slot `x`. */
  ghost predicate Fills(r: Request, block: nat, j: nat, x: nat)
    requires block > 0
  {
    r.computed / block <= j <= LastScheduledBlock(r.computed + r.n, block) && j < |r.slots| && r.slots[j] == x
  }

  /** How many tokens of `r` the state of its block `j` covers after this batch. */
  ghost function Covered(r: Request, block: nat, j: nat): nat { Min((j + 1) * block, r.computed + r.n) }

  /** After a batch the pool may know of the blocks it filled, with their tokens; of what it knew before it
      may forget any, and must forget what was overwritten. */
  ghost predicate IndexNext(index: Index, reqs: seq<Request>, dims: nat, block: nat, slotCount: nat, nullBlock: int,
                            index': Index)
    requires RequestsFine(reqs, dims, block, slotCount, nullBlock)
  {
    forall x | x in index' ::
      || Noted(reqs, dims, block, slotCount, nullBlock, x, index'[x])
      || Kept(index, reqs, block, x, index'[x])
  }

  ghost predicate Noted(reqs: seq<Request>, dims: nat, block: nat, slotCount: nat, nullBlock: int, x: nat,
                        known: seq<seq<Token>>)
    requires RequestsFine(reqs, dims, block, slotCount, nullBlock)
  {
    exists b, j: nat | 0 <= b < |reqs| && Fills(reqs[b], block, j, x) ::
      known == Prefixes(reqs[b], Covered(reqs[b], block, j))
  }

  ghost predicate Kept(index: Index, reqs: seq<Request>, block: nat, x: nat, known: seq<seq<Token>>)
    requires block > 0
  {
    x in index && index[x] == known && forall b, j: nat | 0 <= b < |reqs| :: !Fills(reqs[b], block, j, x)
  }

  // ----- One batch of the service

  /** The rows hold the scheduled tokens. */
  ghost predicate RowLoaded<S>(r: Request, base: int, d: nat, hasZ: bool, m: Memory<S>)
    requires d < |r.streams| && r.computed + r.n == |r.streams[d].toks| == |r.streams[d].zs|
  {
    && 0 <= base && base + r.n <= |m.delta| && (hasZ ==> base + r.n <= |m.z|)
    && (forall i | 0 <= i < r.n :: m.delta[base..base + r.n][i] == r.streams[d].toks[r.computed..][i].delta)
    && (hasZ ==> m.z[base..base + r.n] == r.streams[d].zs[r.computed..])
  }

  datatype Batch<S> = Batch(reqs: seq<Request>, ids: seq<ProgramId>, grid: seq<Program>, before: Memory<S>,
                            after: Memory<S>)

  datatype Setting<!S> = Setting(cell: Cell<S>, zero: S, dims: nat, block: nat, hasZ: bool, slotCount: nat,
                                 nullBlock: int)

  ghost predicate BatchFine<S>(c: Setting<S>, a: Batch<S>, index: Index) {
    && RequestsFine(a.reqs, c.dims, c.block, c.slotCount, c.nullBlock) && |a.before.cache| == c.dims
    && IdsOk(a.ids, |a.reqs|, c.dims) && GridServes(a.grid, a.ids, a.reqs, c.dims, c.block, c.hasZ, c.slotCount)
    && (forall b | 0 <= b < |a.reqs| :: Admitted(a.reqs[b], c.block, index))
    && forall b, d | 0 <= b < |a.reqs| && 0 <= d < c.dims :: RowsLoadedAt(c, a, b, d)
  }

  ghost predicate RowsLoadedAt<S>(c: Setting<S>, a: Batch<S>, b: nat, d: nat)
    requires RequestsFine(a.reqs, c.dims, c.block, c.slotCount, c.nullBlock) && b < |a.reqs| && d < c.dims
  {
    RowLoaded(a.reqs[b], Base(News(a.reqs), b, d), d, c.hasZ, a.before)
  }

  /** The state after the first tokens is that of the sequence cut there. */
  lemma PrefixRuns<S>(cell: Cell<S>, zero: S, toks: seq<Token>, k: nat)
    requires k <= |toks|
    ensures Run(cell, zero, toks[..k], k) == Run(cell, zero, toks, k)
  {
    assert toks[..k][..k] == toks[..k];
    RunOfPrefix(cell, zero, toks[..k], toks, k);
  }

  /** What the pool knows is what a request needs. */
  lemma AdmittedIsResumable<S>(c: Setting<S>, r: Request, index: Index, m: Memory<S>, d: nat)
    requires RequestFine(r, |m.cache|, c.block, c.slotCount, c.nullBlock) && d < |m.cache|
    requires IndexOk(c.cell, c.zero, index, m, c.slotCount) && c.block > 0 && Admitted(r, c.block, index)
    ensures Resumable(c.cell, c.zero, r.streams[d].toks, r.slots, c.block, r.computed, m.cache[d])
  {
    if r.computed > 0 { PrefixRuns(c.cell, c.zero, r.streams[d].toks, r.computed); }
  }

  lemma BatchIsInMemory<S>(c: Setting<S>, a: Batch<S>, index: Index)
    requires BatchFine(c, a, index) && IndexOk(c.cell, c.zero, index, a.before, c.slotCount)
    ensures BatchInMemory(c.cell, c.zero, a.reqs, c.block, c.hasZ, a.before, c.slotCount, c.nullBlock)
  {
    forall b, d | 0 <= b < |a.reqs| && 0 <= d < |a.before.cache|
      ensures InMemoryAt(c.cell, c.zero, a.reqs, b, d, c.block, c.hasZ, a.before, c.slotCount, c.nullBlock)
    {
      AdmittedIsResumable(c, a.reqs[b], index, a.before, d);
      assert RowsLoadedAt(c, a, b, d);
    }
  }

  /** A launch of the batch, in any order or interleaving. */
  ghost predicate Ran<S>(c: Setting<S>, a: Batch<S>) {
    && GridOk(a.grid, c.nullBlock, a.before, c.slotCount)
    && Launched(c.cell, c.zero, a.grid, c.nullBlock, a.before, a.after, c.slotCount)
  }

  lemma BatchServes<S>(c: Setting<S>, a: Batch<S>, index: Index)
    requires BatchFine(c, a, index) && IndexOk(c.cell, c.zero, index, a.before, c.slotCount) && Ran(c, a)
    ensures |a.after.cache| == c.dims
    ensures BatchAdvanced(c.cell, c.zero, a.reqs, c.block, c.hasZ, a.after, c.slotCount, c.nullBlock)
  {
    BatchIsInMemory(c, a, index);
    AllAdvance(c.cell, c.zero, a.reqs, a.grid, a.ids, c.block, c.hasZ, a.before, a.after, c.slotCount, c.nullBlock);
  }

  // ----- The pool's knowledge stays right

  lemma NotedIsRight<S>(c: Setting<S>, a: Batch<S>, x: nat, known: seq<seq<Token>>, d: nat)
    requires RequestsFine(a.reqs, c.dims, c.block, c.slotCount, c.nullBlock) && |a.after.cache| == c.dims && d < c.dims
    requires BatchAdvanced(c.cell, c.zero, a.reqs, c.block, c.hasZ, a.after, c.slotCount, c.nullBlock)
    requires Noted(a.reqs, c.dims, c.block, c.slotCount, c.nullBlock, x, known)
    ensures x < c.slotCount && |known| == c.dims && a.after.cache[d][x] == Run(c.cell, c.zero, known[d], |known[d]|)
  {
    var b, j: nat :| 0 <= b < |a.reqs| && Fills(a.reqs[b], c.block, j, x)
                     && known == Prefixes(a.reqs[b], Covered(a.reqs[b], c.block, j));
    assert AdvancedAt(c.cell, c.zero, a.reqs, b, d, c.block, c.hasZ, a.after, c.slotCount, c.nullBlock);
    FilledIs(c, a.reqs[b], d, j, a.after.cache[d]);
  }

  lemma FilledIs<S>(c: Setting<S>, r: Request, d: nat, j: nat, col: seq<S>)
    requires RequestFine(r, c.dims, c.block, c.slotCount, c.nullBlock) && d < c.dims && |col| == c.slotCount
    requires BlocksFilled(c.cell, c.zero, r.streams[d].toks, r, c.block, col)
    requires r.computed / c.block <= j <= LastScheduledBlock(r.computed + r.n, c.block)
    ensures j < |r.slots| && r.slots[j] < c.slotCount
    ensures var known := Prefixes(r, Covered(r, c.block, j));
            |known| == c.dims && col[r.slots[j]] == Run(c.cell, c.zero, known[d], |known[d]|)
  {
    PrefixRuns(c.cell, c.zero, r.streams[d].toks, Covered(r, c.block, j));
  }

  lemma KeptIsRight<S>(c: Setting<S>, a: Batch<S>, index: Index, x: nat, known: seq<seq<Token>>, d: nat)
    requires BatchFine(c, a, index) && IndexOk(c.cell, c.zero, index, a.before, c.slotCount) && Ran(c, a) && d < c.dims
    requires Kept(index, a.reqs, c.block, x, known) && |a.after.cache| == c.dims
    ensures x < c.slotCount && |known| == c.dims && |a.after.cache[d]| == c.slotCount
    ensures a.after.cache[d][x] == Run(c.cell, c.zero, known[d], |known[d]|)
  {
    NobodyWrites(c, a, d, x);
    Unwritten(a.grid, c.nullBlock, a.before, a.after, c.slotCount, d, x);
  }

  lemma NobodyWrites<S>(c: Setting<S>, a: Batch<S>, d: nat, x: nat)
    requires RequestsFine(a.reqs, c.dims, c.block, c.slotCount, c.nullBlock)
    requires GridServes(a.grid, a.ids, a.reqs, c.dims, c.block, c.hasZ, c.slotCount)
    requires forall b, j: nat | 0 <= b < |a.reqs| :: !Fills(a.reqs[b], c.block, j, x)
    ensures forall k | 0 <= k < |a.grid| :: a.grid[k].plan.Cached? && a.grid[k].plan.initial < |a.grid[k].plan.slots|
                                            && a.grid[k].plan.blockLast < |a.grid[k].plan.slots|
    ensures OutsideAll(a.grid, c.nullBlock, d, x)
  {
    forall k | 0 <= k < |a.grid| ensures !Writes(a.grid[k], c.nullBlock, d, x) {
      assert ServesId(a.grid[k], a.ids[k], a.reqs, c.block, c.hasZ, c.slotCount);
      WritesOnlyBlocks(c, a.reqs, a.grid[k], a.ids[k], d, x);
    }
  }

  lemma Unwritten<S>(grid: seq<Program>, nullBlock: int, m: Memory<S>, m': Memory<S>, slotCount: nat, d: nat, x: nat)
    requires GridOk(grid, nullBlock, m, slotCount) && RestSame(grid, nullBlock, m, m', slotCount)
    requires d < |m.cache| && x < slotCount && OutsideAll(grid, nullBlock, d, x)
    ensures |m'.cache[d]| == slotCount && m'.cache[d][x] == m.cache[d][x]
  {
  }

  lemma WritesOnlyBlocks<S>(c: Setting<S>, reqs: seq<Request>, p: Program, id: ProgramId, d: nat, x: nat)
    requires RequestsFine(reqs, c.dims, c.block, c.slotCount, c.nullBlock) && id.b < |reqs|
    requires ServesId(p, id, reqs, c.block, c.hasZ, c.slotCount)
    requires forall j: nat :: !Fills(reqs[id.b], c.block, j, x)
    ensures !Writes(p, c.nullBlock, d, x)
  {
    if x in BlockSlots(p.plan) {
      var j: nat :| p.plan.blockFirst <= j <= p.plan.blockLast && p.plan.slots[j] == x;
      assert Fills(reqs[id.b], c.block, j, x);
    }
  }

  lemma IndexStays<S>(c: Setting<S>, a: Batch<S>, index: Index, index': Index)
    requires BatchFine(c, a, index) && IndexOk(c.cell, c.zero, index, a.before, c.slotCount) && Ran(c, a)
    requires IndexNext(index, a.reqs, c.dims, c.block, c.slotCount, c.nullBlock, index')
    ensures |a.after.cache| == c.dims && IndexOk(c.cell, c.zero, index', a.after, c.slotCount)
  {
    BatchServes(c, a, index);
    forall x, d | x in index' && 0 <= d < c.dims
      ensures x < c.slotCount && |index'[x]| == c.dims
              && a.after.cache[d][x] == Run(c.cell, c.zero, index'[x][d], |index'[x][d]|)
    {
      if Noted(a.reqs, c.dims, c.block, c.slotCount, c.nullBlock, x, index'[x]) {
        NotedIsRight(c, a, x, index'[x], d);
      } else {
        KeptIsRight(c, a, index, x, index'[x], d);
      }
    }
  }

  // ----- The whole service

  /** Batches over one cache, each run to its end before the next. */
  ghost predicate IsService<S>(c: Setting<S>, batches: seq<Batch<S>>, indexes: seq<Index>) {
    && |indexes| == |batches| + 1
    && (forall i | 0 <= i < |batches| :: BatchFine(c, batches[i], indexes[i]) && Ran(c, batches[i]))
    && (forall i | 0 <= i < |batches| ::
          IndexNext(indexes[i], batches[i].reqs, c.dims, c.block, c.slotCount, c.nullBlock, indexes[i + 1]))
    && (forall i, j | 0 <= i < |batches| && j == i + 1 < |batches| :: batches[j].before.cache == batches[i].after.cache)
  }

  lemma {:induction false} IndexAlwaysOk<S>(c: Setting<S>, batches: seq<Batch<S>>, indexes: seq<Index>, i: nat)
    requires IsService(c, batches, indexes) && i < |batches|
    requires IndexOk(c.cell, c.zero, indexes[0], batches[0].before, c.slotCount)
    ensures IndexOk(c.cell, c.zero, indexes[i], batches[i].before, c.slotCount)
  {
    if i > 0 {
      IndexAlwaysOk(c, batches, indexes, i - 1);
      assert batches[i].before.cache == batches[i - 1].after.cache;
      IndexCarries(c, batches[i - 1], indexes[i - 1], indexes[i], batches[i].before);
    }
  }

  lemma IndexCarries<S>(c: Setting<S>, a: Batch<S>, index: Index, index': Index, m: Memory<S>)
    requires BatchFine(c, a, index) && IndexOk(c.cell, c.zero, index, a.before, c.slotCount) && Ran(c, a)
    requires IndexNext(index, a.reqs, c.dims, c.block, c.slotCount, c.nullBlock, index') && m.cache == a.after.cache
    ensures IndexOk(c.cell, c.zero, index', m, c.slotCount)
  {
    IndexStays(c, a, index, index');
  }

  /** In every batch of every service, whoever filled the block a request goes on from, the request gets the
      outputs of one plain recurrence over its whole sequence. */
  lemma ServiceIsPlain<S>(c: Setting<S>, batches: seq<Batch<S>>, indexes: seq<Index>, i: nat)
    requires IsService(c, batches, indexes) && i < |batches|
    requires IndexOk(c.cell, c.zero, indexes[0], batches[0].before, c.slotCount)
    ensures |batches[i].after.cache| == c.dims
    ensures BatchAdvanced(c.cell, c.zero, batches[i].reqs, c.block, c.hasZ, batches[i].after, c.slotCount, c.nullBlock)
  {
    IndexAlwaysOk(c, batches, indexes, i);
    BatchServes(c, batches[i], indexes[i]);
  }
}

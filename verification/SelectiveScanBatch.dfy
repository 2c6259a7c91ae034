/** One prefill batch: the chunk metadata of all its requests, the grid built from it, and what a launch
    of that grid gives every request. */
module SelectiveScanBatch {
  import opened Prelude
  import opened ScanChunks
  import opened SelectiveScan
  import opened SelectiveScanInterleaved
  import opened SelectiveScanLaunch
  import opened SelectiveScanRuns

  /** One dim of a request: all its tokens so far, and their gates. */
  datatype Stream = Stream(toks: seq<Token>, zs: seq<real>)

  /** A request that has `computed` tokens behind it, by earlier batches or found in the cache, and `n`
      scheduled now; its block table; its streams, one per dim. */
  datatype Request = Request(slots: seq<nat>, computed: nat, n: nat, streams: seq<Stream>)

  function News(reqs: seq<Request>): (ns: seq<nat>)
    ensures |ns| == |reqs| && forall b | 0 <= b < |reqs| :: ns[b] == reqs[b].n
  {
    seq(|reqs|, b requires 0 <= b < |reqs| => reqs[b].n)
  }

  function Computed(reqs: seq<Request>): (cs: seq<nat>)
    ensures |cs| == |reqs| && forall b | 0 <= b < |reqs| :: cs[b] == reqs[b].computed
  {
    seq(|reqs|, b requires 0 <= b < |reqs| => reqs[b].computed)
  }

  /** Where the scheduled tokens of request `b` lie in dim `d`: dim after dim, request after request. */
  function Base(news: seq<nat>, b: nat, d: nat): int
    requires b <= |news|
  {
    d * Sum(news, |news|) + Sum(news, b)
  }

  ghost predicate RequestFine(r: Request, dims: nat, block: nat, slotCount: nat, nullBlock: int) {
    && |r.streams| == dims && TableOk(r.slots, block, r.computed, r.n, slotCount, nullBlock)
    && forall d | 0 <= d < dims :: |r.streams[d].toks| == |r.streams[d].zs| == r.computed + r.n
  }

  /** The slots of the blocks that the scheduled tokens lie in. */
  ghost function Written(r: Request, block: nat): set<nat>
    requires block > 0 && LastScheduledBlock(r.computed + r.n, block) < |r.slots|
  {
    set j | r.computed / block <= j <= LastScheduledBlock(r.computed + r.n, block) :: r.slots[j]
  }

  /** Nobody else writes a block that is written now, or goes on from it. */
  ghost predicate OwnBlocks(r: Request, q: Request, block: nat)
    requires block > 0 && LastScheduledBlock(r.computed + r.n, block) < |r.slots|
    requires LastScheduledBlock(q.computed + q.n, block) < |q.slots| && LastComputedBlock(q.computed, block) < |q.slots|
  {
    Written(r, block) !! Written(q, block) && q.slots[LastComputedBlock(q.computed, block)] !in Written(r, block)
  }

  ghost predicate RequestsFine(reqs: seq<Request>, dims: nat, block: nat, slotCount: nat, nullBlock: int) {
    && block > 0
    && (forall b | 0 <= b < |reqs| :: RequestFine(reqs[b], dims, block, slotCount, nullBlock))
    && (forall b, c | 0 <= b < |reqs| && 0 <= c < |reqs| && b != c :: OwnBlocks(reqs[b], reqs[c], block))
  }

  /** In memory, request `r`'s row of dim `d` holds its scheduled tokens, and the cache what the computed
      ones left. */
  ghost predicate InMemory<S>(cell: Cell<S>, zero: S, r: Request, block: nat, base: int, d: nat, hasZ: bool,
                              m: Memory<S>)
    requires block > 0 && d < |r.streams| && d < |m.cache|
             && r.computed + r.n == |r.streams[d].toks| == |r.streams[d].zs|
    requires forall j | 0 <= j < |r.slots| :: r.slots[j] < |m.cache[d]|
  {
    var stream := r.streams[d];
    && 0 <= base && base + r.n <= |m.delta| && (hasZ ==> base + r.n <= |m.z|)
    && (forall i | 0 <= i < r.n :: m.delta[base..base + r.n][i] == stream.toks[r.computed..][i].delta)
    && (hasZ ==> m.z[base..base + r.n] == stream.zs[r.computed..])
    && Resumable(cell, zero, stream.toks, r.slots, block, r.computed, m.cache[d])
  }

  ghost predicate BatchInMemory<S>(cell: Cell<S>, zero: S, reqs: seq<Request>, block: nat, hasZ: bool, m: Memory<S>,
                                   slotCount: nat, nullBlock: int)
    requires RequestsFine(reqs, |m.cache|, block, slotCount, nullBlock)
  {
    && (forall d | 0 <= d < |m.cache| :: |m.cache[d]| == slotCount)
    && forall b, d | 0 <= b < |reqs| && 0 <= d < |m.cache| ::
         InMemoryAt(cell, zero, reqs, b, d, block, hasZ, m, slotCount, nullBlock)
  }

  ghost predicate InMemoryAt<S>(cell: Cell<S>, zero: S, reqs: seq<Request>, b: nat, d: nat, block: nat, hasZ: bool,
                                m: Memory<S>, slotCount: nat, nullBlock: int)
    requires RequestsFine(reqs, |m.cache|, block, slotCount, nullBlock) && b < |reqs| && d < |m.cache|
             && |m.cache[d]| == slotCount
  {
    InMemory(cell, zero, reqs[b], block, Base(News(reqs), b, d), d, hasZ, m)
  }

  // ----- The grid

  datatype ProgramId = ProgramId(b: nat, d: nat)

  /** The plan of a request whose chunk boundaries are `bounds`. */
  function PlanFor(r: Request, block: nat, bounds: seq<int>): Plan
    requires block > 0 && |bounds| > 0 && FirstScheduledBlock(r.computed, block) >= 0
  {
    Cached(r.slots, LastComputedBlock(r.computed, block), LensOf(bounds), FirstScheduledBlock(r.computed, block),
           LastScheduledBlock(r.computed + r.n, block), block)
  }

  function InputsOf(toks: seq<Token>): (xs: seq<Input>)
    ensures |xs| == |toks| && forall i | 0 <= i < |xs| :: xs[i] == Input(toks[i].u, toks[i].b, toks[i].c)
  {
    seq(|toks|, i requires 0 <= i < |toks| => Input(toks[i].u, toks[i].b, toks[i].c))
  }

  function ProgramFor(r: Request, plan: Plan, base: nat, d: nat, hasZ: bool): Program
    requires d < |r.streams| && r.computed <= |r.streams[d].toks|
  {
    Program(Row(base, base, InputsOf(r.streams[d].toks[r.computed..]), hasZ), d, r.computed > 0, plan, r.computed)
  }

  /** `p` is the program of request `r` and dim `d`, with a sound plan and the row at `base`. */
  ghost predicate Serves(p: Program, r: Request, block: nat, base: int, d: nat, hasZ: bool, slotCount: nat) {
    && d < |r.streams| && r.computed <= |r.streams[d].toks| && p.row.base == base && p.plan.Cached?
    && p == ProgramFor(r, p.plan, p.row.base, d, hasZ)
    && p.plan.slots == r.slots && p.plan.block == block && block > 0
    && PlanOk(p.plan, r.computed, r.n, slotCount) && p.plan.initial == LastComputedBlock(r.computed, block)
    && p.plan.blockLast == LastScheduledBlock(r.computed + r.n, block)
  }

  ghost predicate ServesId(p: Program, id: ProgramId, reqs: seq<Request>, block: nat, hasZ: bool, slotCount: nat)
    requires id.b < |reqs|
  {
    Serves(p, reqs[id.b], block, Base(News(reqs), id.b, id.d), id.d, hasZ, slotCount)
  }

  lemma PlanIsOk(r: Request, dims: nat, block: nat, slotCount: nat, nullBlock: int, bounds: seq<int>, base: int)
    requires block > 0 && RequestFine(r, dims, block, slotCount, nullBlock)
             && BoundariesOf(bounds, base, r.computed, r.n, block)
    ensures FirstScheduledBlock(r.computed, block) >= 0 && PlanOk(PlanFor(r, block, bounds), r.computed, r.n, slotCount)
  {
    BlockIndices(r.computed, r.n, block);
    DivMono(r.computed, r.computed + r.n - 1, block);
    BoundariesGiveGoodChunks(bounds, base, r.computed, r.n, block);
  }

  ghost predicate GridServes(grid: seq<Program>, ids: seq<ProgramId>, reqs: seq<Request>, dims: nat, block: nat,
                             hasZ: bool, slotCount: nat) {
    && |grid| == |ids|
    && (forall k | 0 <= k < |ids| ::
          ids[k].b < |reqs| && ids[k].d < dims && ServesId(grid[k], ids[k], reqs, block, hasZ, slotCount))
    && forall j, k | 0 <= j < k < |ids| :: ids[j] != ids[k]
  }

  lemma ServesIsOk<S>(cell: Cell<S>, zero: S, p: Program, r: Request, block: nat, base: int, d: nat, hasZ: bool,
                      m: Memory<S>, slotCount: nat, nullBlock: int)
    requires Serves(p, r, block, base, d, hasZ, slotCount) && RequestFine(r, |m.cache|, block, slotCount, nullBlock)
    requires forall d | 0 <= d < |m.cache| :: |m.cache[d]| == slotCount
    requires InMemory(cell, zero, r, block, base, d, hasZ, m)
    ensures ProgramOk(p, m, slotCount) && Active(p, nullBlock)
  {
  }

  lemma RowsApart(news: seq<nat>, b: nat, d: nat, c: nat, e: nat)
    requires b < |news| && c < |news| && (d < e || (d == e && b < c))
    ensures Base(news, b, d) + news[b] <= Base(news, c, e)
  {
    var total := Sum(news, |news|);
    assert Sum(news, b + 1) == Sum(news, b) + news[b];
    if d < e {
      SumGrows(news, b + 1, |news|);
      SumGrows(news, 0, c);
      SumGrows(news, 0, |news|);
      MulMono(d + 1, e, total);
      assert (d + 1) * total == d * total + total;
    } else {
      SumGrows(news, b + 1, c);
    }
  }

  lemma ServesApart<S>(p: Program, r: Request, b: nat, d: nat, q: Program, s: Request, c: nat, e: nat,
                       reqs: seq<Request>,
                       block: nat, hasZ: bool, m: Memory<S>, slotCount: nat, nullBlock: int)
    requires b < |reqs| && c < |reqs| && r == reqs[b] && s == reqs[c] && (b != c || d != e)
    requires block > 0 && RequestFine(r, |m.cache|, block, slotCount, nullBlock)
             && RequestFine(s, |m.cache|, block, slotCount, nullBlock)
    requires b != c ==> OwnBlocks(r, s, block) && OwnBlocks(s, r, block)
    requires Serves(p, r, block, Base(News(reqs), b, d), d, hasZ, slotCount)
    requires Serves(q, s, block, Base(News(reqs), c, e), e, hasZ, slotCount)
    ensures Apart(p, q, nullBlock)
  {
    if d < e || (d == e && b < c) {
      RowsApart(News(reqs), b, d, c, e);
    } else {
      RowsApart(News(reqs), c, e, b, d);
    }
  }

  /** The grid of a batch is one whose programs keep apart. */
  lemma BatchGridOk<S>(cell: Cell<S>, zero: S, reqs: seq<Request>, grid: seq<Program>, ids: seq<ProgramId>, block: nat,
                       hasZ: bool,
                       m: Memory<S>, slotCount: nat, nullBlock: int)
    requires RequestsFine(reqs, |m.cache|, block, slotCount, nullBlock)
    requires BatchInMemory(cell, zero, reqs, block, hasZ, m, slotCount, nullBlock)
    requires GridServes(grid, ids, reqs, |m.cache|, block, hasZ, slotCount)
    ensures GridOk(grid, nullBlock, m, slotCount)
  {
    forall k | 0 <= k < |grid| ensures ProgramOk(grid[k], m, slotCount) {
      var b, d := ids[k].b, ids[k].d;
      assert InMemoryAt(cell, zero, reqs, b, d, block, hasZ, m, slotCount, nullBlock);
      ServesIsOk(cell, zero, grid[k], reqs[b], block, Base(News(reqs), b, d), d, hasZ, m, slotCount, nullBlock);
    }
    forall j, k | 0 <= j < |grid| && 0 <= k < |grid| && j != k ensures Apart(grid[j], grid[k], nullBlock) {
      ServesApart(grid[j], reqs[ids[j].b], ids[j].b, ids[j].d, grid[k], reqs[ids[k].b], ids[k].b, ids[k].d, reqs,
                  block, hasZ, m, slotCount, nullBlock);
    }
  }

  // ----- What a launch gives each request

  /** Request `r` got its outputs in dim `d`, and every block it wrote holds the state at the block's last
      token so far. */
  ghost predicate Advanced<S>(cell: Cell<S>, zero: S, r: Request, block: nat, base: int, d: nat, hasZ: bool,
                              m: Memory<S>)
    requires block > 0 && d < |r.streams| && d < |m.cache|
             && r.computed + r.n == |r.streams[d].toks| == |r.streams[d].zs|
    requires forall j | 0 <= j < |r.slots| :: r.slots[j] < |m.cache[d]|
    requires LastScheduledBlock(r.computed + r.n, block) < |r.slots|
  {
    var stream, upto := r.streams[d], r.computed + r.n;
    && 0 <= base && base + r.n <= |m.delta| && (hasZ ==> base + r.n <= |m.z|)
    && AreOutputs(m.delta[base..base + r.n], cell, zero, stream.toks, r.computed, upto)
    && (hasZ ==> AreGated(m.z[base..base + r.n], cell, zero, stream.toks, stream.zs, r.computed, upto))
    && BlocksFilled(cell, zero, stream.toks, r, block, m.cache[d])
  }

  ghost predicate BlocksFilled<S>(cell: Cell<S>, zero: S, toks: seq<Token>, r: Request, block: nat, col: seq<S>)
    requires block > 0 && r.computed + r.n == |toks| && forall j | 0 <= j < |r.slots| :: r.slots[j] < |col|
    requires LastScheduledBlock(r.computed + r.n, block) < |r.slots|
  {
    forall j | r.computed / block <= j <= LastScheduledBlock(r.computed + r.n, block) ::
      col[r.slots[j]] == Run(cell, zero, toks, Min((j + 1) * block, |toks|))
  }

  ghost predicate AdvancedAt<S>(cell: Cell<S>, zero: S, reqs: seq<Request>, b: nat, d: nat, block: nat, hasZ: bool,
                                m: Memory<S>,
                                slotCount: nat, nullBlock: int)
    requires RequestsFine(reqs, |m.cache|, block, slotCount, nullBlock) && b < |reqs| && d < |m.cache|
             && |m.cache[d]| == slotCount
  {
    Advanced(cell, zero, reqs[b], block, Base(News(reqs), b, d), d, hasZ, m)
  }

  /** The program's work is the request's stretch of the plain recurrence. */
  lemma WorkIs<S>(cell: Cell<S>, zero: S, p: Program, r: Request, block: nat, base: int, d: nat, hasZ: bool,
                  m: Memory<S>, slotCount: nat, nullBlock: int)
    requires Serves(p, r, block, base, d, hasZ, slotCount) && RequestFine(r, |m.cache|, block, slotCount, nullBlock)
    requires forall d | 0 <= d < |m.cache| :: |m.cache[d]| == slotCount
    requires InMemory(cell, zero, r, block, base, d, hasZ, m) && ProgramOk(p, m, slotCount) && Active(p, nullBlock)
    ensures var w, stream := WorkOf(p, zero, nullBlock, m, slotCount), r.streams[d];
            && w.s == Run(cell, zero, stream.toks, r.computed) && w.toks == stream.toks[r.computed..]
            && (hasZ ==> w.zs == stream.zs[r.computed..]) && |p.row.inputs| == r.n
  {
    var w, toks := WorkOf(p, zero, nullBlock, m, slotCount), r.streams[d].toks[r.computed..];
    forall i | 0 <= i < r.n ensures w.toks[i] == toks[i] {
      assert m.delta[base..base + r.n][i] == m.delta[base + i];
    }
  }

  lemma StretchOutputs<S>(cell: Cell<S>, zero: S, stream: Stream, computed: nat, w: Work<S>, outs: seq<real>)
    requires computed <= |stream.toks| == |stream.zs|
    requires w.s == Run(cell, zero, stream.toks, computed) && w.toks == stream.toks[computed..]
    requires outs == Outs(cell, w)
    ensures AreOutputs(outs, cell, zero, stream.toks, computed, |stream.toks|)
  {
    var n := |w.toks|;
    forall i | 0 <= i < n ensures outs[i] == Out(cell, zero, stream.toks, computed + i) {
      CallIsStretch(cell, zero, stream.toks, computed, n, i);
      assert stream.toks[computed..computed + n] == w.toks;
    }
  }

  lemma StretchGated<S>(cell: Cell<S>, zero: S, stream: Stream, computed: nat, w: Work<S>, gated: seq<real>)
    requires computed <= |stream.toks| == |stream.zs|
    requires w.s == Run(cell, zero, stream.toks, computed) && w.toks == stream.toks[computed..]
    requires w.zs == stream.zs[computed..] && gated == Gated(cell, w)
    ensures AreGated(gated, cell, zero, stream.toks, stream.zs, computed, |stream.toks|)
  {
    StretchOutputs(cell, zero, stream, computed, w, Outs(cell, w));
    forall i | 0 <= i < |gated|
      ensures gated[i] == cell.gate(Out(cell, zero, stream.toks, computed + i), stream.zs[computed + i])
    {
      assert Outs(cell, w)[i] == Out(cell, zero, stream.toks, computed + i);
      assert w.zs[i] == stream.zs[computed + i];
    }
  }

  /** The states it stored are those of the plain recurrence. */
  lemma StretchStates<S>(cell: Cell<S>, zero: S, toks: seq<Token>, plan: Plan, r: Request, w: Work<S>, col: seq<S>)
    requires plan.Cached? && PlanOk(plan, r.computed, r.n, |col|) && plan.slots == r.slots
    requires |toks| == r.computed + r.n && plan.blockLast == LastScheduledBlock(r.computed + r.n, plan.block)
    requires w.s == Run(cell, zero, toks, r.computed) && w.toks == toks[r.computed..]
    requires forall j | plan.blockFirst <= j <= plan.blockLast ::
               col[plan.slots[j]] == BlockState(cell, w.s, w.toks, r.computed, plan.block, j)
    ensures BlocksFilled(cell, zero, toks, r, plan.block, col)
  {
    assert toks[r.computed..r.computed + r.n] == w.toks;
    forall j | plan.blockFirst <= j <= plan.blockLast
      ensures col[plan.slots[j]] == Run(cell, zero, toks, Min((j + 1) * plan.block, |toks|))
    {
      BlockStateIsPlain(cell, zero, toks, r.computed, r.n, plan.block, j);
    }
  }

  /** What a finished program leaves in its rows. */
  lemma RowsOfStretch<S>(cell: Cell<S>, zero: S, p: Program, stream: Stream, base: int, computed: nat, n: nat,
                         nullBlock: int, w: Work<S>, m: Memory<S>, slotCount: nat)
    requires ProgramOk(p, m, slotCount) && Describes(p.row, w.toks, w.zs) && Active(p, nullBlock)
    requires Finished(cell, p, nullBlock, w, m, slotCount) && p.row.zbase == p.row.base == base && |p.row.inputs| == n
    requires computed + n == |stream.toks| == |stream.zs|
    requires w.s == Run(cell, zero, stream.toks, computed) && w.toks == stream.toks[computed..]
    requires p.row.hasZ ==> w.zs == stream.zs[computed..]
    ensures AreOutputs(m.delta[base..base + n], cell, zero, stream.toks, computed, computed + n)
    ensures p.row.hasZ ==> AreGated(m.z[base..base + n], cell, zero, stream.toks, stream.zs, computed, computed + n)
  {
    StretchOutputs(cell, zero, stream, computed, w, m.delta[base..base + n]);
    if p.row.hasZ { StretchGated(cell, zero, stream, computed, w, m.z[base..base + n]); }
  }

  lemma ServedOutputs<S>(cell: Cell<S>, zero: S, p: Program, r: Request, block: nat, base: int, d: nat, hasZ: bool,
                         m: Memory<S>, m': Memory<S>, slotCount: nat, nullBlock: int)
    requires Serves(p, r, block, base, d, hasZ, slotCount) && RequestFine(r, |m.cache|, block, slotCount, nullBlock)
    requires forall d | 0 <= d < |m.cache| :: |m.cache[d]| == slotCount
    requires InMemory(cell, zero, r, block, base, d, hasZ, m) && ProgramOk(p, m, slotCount) && Active(p, nullBlock)
    requires ProgramOk(p, m', slotCount)
    requires Finished(cell, p, nullBlock, WorkOf(p, zero, nullBlock, m, slotCount), m', slotCount)
    ensures base + r.n <= |m'.delta| && (hasZ ==> base + r.n <= |m'.z|)
    ensures AreOutputs(m'.delta[base..base + r.n], cell, zero, r.streams[d].toks, r.computed, r.computed + r.n)
    ensures hasZ ==>
              AreGated(m'.z[base..base + r.n], cell, zero, r.streams[d].toks, r.streams[d].zs, r.computed,
                       r.computed + r.n)
  {
    WorkIs(cell, zero, p, r, block, base, d, hasZ, m, slotCount, nullBlock);
    RowsOfStretch(cell, zero, p, r.streams[d], base, r.computed, r.n, nullBlock,
                  WorkOf(p, zero, nullBlock, m, slotCount), m', slotCount);
  }

  lemma ServedStates<S>(cell: Cell<S>, zero: S, p: Program, r: Request, block: nat, base: int, d: nat, hasZ: bool,
                        m: Memory<S>, m': Memory<S>, slotCount: nat, nullBlock: int)
    requires Serves(p, r, block, base, d, hasZ, slotCount) && RequestFine(r, |m.cache|, block, slotCount, nullBlock)
    requires forall d | 0 <= d < |m.cache| :: |m.cache[d]| == slotCount
    requires InMemory(cell, zero, r, block, base, d, hasZ, m) && ProgramOk(p, m, slotCount) && Active(p, nullBlock)
    requires ProgramOk(p, m', slotCount)
    requires Finished(cell, p, nullBlock, WorkOf(p, zero, nullBlock, m, slotCount), m', slotCount)
    ensures BlocksFilled(cell, zero, r.streams[d].toks, r, block, m'.cache[d])
  {
    WorkIs(cell, zero, p, r, block, base, d, hasZ, m, slotCount, nullBlock);
    StretchStates(cell, zero, r.streams[d].toks, p.plan, r, WorkOf(p, zero, nullBlock, m, slotCount), m'.cache[d]);
  }

  lemma ServedAdvances<S>(cell: Cell<S>, zero: S, p: Program, r: Request, block: nat, base: int, d: nat, hasZ: bool,
                          m: Memory<S>, m': Memory<S>, slotCount: nat, nullBlock: int)
    requires Serves(p, r, block, base, d, hasZ, slotCount) && RequestFine(r, |m.cache|, block, slotCount, nullBlock)
    requires forall d | 0 <= d < |m.cache| :: |m.cache[d]| == slotCount
    requires InMemory(cell, zero, r, block, base, d, hasZ, m) && ProgramOk(p, m, slotCount)
             && ProgramOk(p, m', slotCount)
    requires Finished(cell, p, nullBlock, WorkOf(p, zero, nullBlock, m, slotCount), m', slotCount)
    ensures Advanced(cell, zero, r, block, base, d, hasZ, m')
  {
    ServesIsOk(cell, zero, p, r, block, base, d, hasZ, m, slotCount, nullBlock);
    ServedOutputs(cell, zero, p, r, block, base, d, hasZ, m, m', slotCount, nullBlock);
    ServedStates(cell, zero, p, r, block, base, d, hasZ, m, m', slotCount, nullBlock);
  }

  /** Whatever launch of the grid is made, in whatever order or interleaving, every request gets the
      outputs of its stretch of the plain recurrence over its whole sequence, and its cache blocks hold the
      states from which a later batch can go on. */
  lemma BatchAdvances<S>(cell: Cell<S>, zero: S, reqs: seq<Request>, grid: seq<Program>, ids: seq<ProgramId>,
                         block: nat, hasZ: bool,
                         m: Memory<S>, m': Memory<S>, slotCount: nat, nullBlock: int, k: nat)
    requires RequestsFine(reqs, |m.cache|, block, slotCount, nullBlock)
    requires BatchInMemory(cell, zero, reqs, block, hasZ, m, slotCount, nullBlock)
    requires GridServes(grid, ids, reqs, |m.cache|, block, hasZ, slotCount) && GridOk(grid, nullBlock, m, slotCount)
    requires Launched(cell, zero, grid, nullBlock, m, m', slotCount) && k < |grid|
    ensures |m'.cache| == |m.cache| && |m'.cache[ids[k].d]| == slotCount
    ensures AdvancedAt(cell, zero, reqs, ids[k].b, ids[k].d, block, hasZ, m', slotCount, nullBlock)
  {
    var p, r, d := grid[k], reqs[ids[k].b], ids[k].d;
    assert InMemoryAt(cell, zero, reqs, ids[k].b, d, block, hasZ, m, slotCount, nullBlock);
    ServedAdvances(cell, zero, p, r, block, Base(News(reqs), ids[k].b, d), d, hasZ, m, m', slotCount, nullBlock);
  }

  /** The same of programs that run at the same time, once all have exited. */
  lemma InterleavedBatchAdvances<S>(cell: Cell<S>, zero: S, reqs: seq<Request>, grid: seq<Program>, ids: seq<ProgramId>,
                                    block: nat,
                                    hasZ: bool, m: Memory<S>, who: seq<nat>, states: seq<Machine<S>>, slotCount: nat,
                                      nullBlock: int, k: nat)
    requires RequestsFine(reqs, |m.cache|, block, slotCount, nullBlock)
    requires BatchInMemory(cell, zero, reqs, block, hasZ, m, slotCount, nullBlock)
    requires GridServes(grid, ids, reqs, |m.cache|, block, hasZ, slotCount) && k < |grid|
    requires Interleaved(cell, zero, grid, nullBlock, slotCount, m, who, states) && AllExited(states[|who|])
    ensures |states[|who|].m.cache| == |m.cache|
            && forall d | 0 <= d < |m.cache| :: |states[|who|].m.cache[d]| == slotCount
    ensures AdvancedAt(cell, zero, reqs, ids[k].b, ids[k].d, block, hasZ, states[|who|].m, slotCount, nullBlock)
  {
    BatchGridOk(cell, zero, reqs, grid, ids, block, hasZ, m, slotCount, nullBlock);
    AnyInterleaving(cell, zero, grid, nullBlock, slotCount, m, who, states);
    BatchAdvances(cell, zero, reqs, grid, ids, block, hasZ, m, states[|who|].m, slotCount, nullBlock, k);
  }

  // ----- The whole batch

  ghost predicate IdsOk(ids: seq<ProgramId>, requests: nat, dims: nat) {
    && (forall k | 0 <= k < |ids| :: ids[k].b < requests && ids[k].d < dims)
    && Distinct(ids)
    && forall b, d | 0 <= b < requests && 0 <= d < dims :: ProgramId(b, d) in ids
  }

  lemma BaseIsNat(news: seq<nat>, b: nat, d: nat)
    requires b <= |news|
    ensures Base(news, b, d) >= 0
  {
    SumGrows(news, 0, b);
    SumGrows(news, 0, |news|);
    MulMono(0, d, Sum(news, |news|));
  }

  /** The chunk metadata has what the program of `id` needs. */
  ghost predicate Ready(reqs: seq<Request>, cu: seq<int>, last: seq<int>, id: ProgramId, block: nat, dims: nat,
                        slotCount: nat, nullBlock: int) {
    && block > 0 && id.b < |reqs| && id.d < dims && RequestFine(reqs[id.b], dims, block, slotCount, nullBlock)
    && RequestOk(cu, last, id.b, Sum(News(reqs), id.b), reqs[id.b].computed, reqs[id.b].n, block)
  }

  /** The program of one (request, dim), its plan read off the chunk metadata. */
  method MakeProgram(reqs: seq<Request>, cu: seq<int>, last: seq<int>, id: ProgramId, block: nat, hasZ: bool,
                     ghost dims: nat, ghost slotCount: nat, ghost nullBlock: int)
    returns (p: Program)
    requires Ready(reqs, cu, last, id, block, dims, slotCount, nullBlock)
    ensures ServesId(p, id, reqs, block, hasZ, slotCount)
  {
    var r := reqs[id.b];
    var bounds := cu[FirstChunk(last, id.b)..last[id.b] + 2];
    PlanIsOk(r, dims, block, slotCount, nullBlock, bounds, Sum(News(reqs), id.b));
    BaseIsNat(News(reqs), id.b, id.d);
    p := ProgramFor(r, PlanFor(r, block, bounds), Base(News(reqs), id.b, id.d), id.d, hasZ);
  }

  method FillGrid(reqs: seq<Request>, cu: seq<int>, last: seq<int>, ids: seq<ProgramId>, block: nat, hasZ: bool,
                  ghost dims: nat, ghost slotCount: nat, ghost nullBlock: int)
    returns (grid: seq<Program>)
    requires forall k | 0 <= k < |ids| ::
               ids[k].b < |reqs| && Ready(reqs, cu, last, ids[k], block, dims, slotCount, nullBlock)
    ensures |grid| == |ids| && ServedSoFar(grid, ids, reqs, block, hasZ, slotCount, |ids|)
  {
    grid := [];
    for k := 0 to |ids|
      invariant |grid| == k && ServedSoFar(grid, ids, reqs, block, hasZ, slotCount, k)
    {
      var p := MakeProgram(reqs, cu, last, ids[k], block, hasZ, dims, slotCount, nullBlock);
      OneMoreServed(grid, p, ids, reqs, block, hasZ, slotCount);
      grid := grid + [p];
    }
  }

  method MakeGrid(reqs: seq<Request>, ids: seq<ProgramId>, block: nat, hasZ: bool,
                  ghost dims: nat, ghost slotCount: nat, ghost nullBlock: int)
    returns (grid: seq<Program>)
    requires RequestsFine(reqs, dims, block, slotCount, nullBlock) && IdsOk(ids, |reqs|, dims)
    ensures GridServes(grid, ids, reqs, dims, block, hasZ, slotCount)
  {
    var computed := Computed(reqs);
    assert forall b | 0 <= b < |reqs| :: RequestFine(reqs[b], dims, block, slotCount, nullBlock);
    var cu, last := ComputeChunkMetadata(block, computed, News(reqs));
    forall k | 0 <= k < |ids| ensures Ready(reqs, cu, last, ids[k], block, dims, slotCount, nullBlock) {
      assert computed[ids[k].b] == reqs[ids[k].b].computed;
    }
    grid := FillGrid(reqs, cu, last, ids, block, hasZ, dims, slotCount, nullBlock);
    GridIsServed(grid, ids, reqs, dims, block, hasZ, slotCount);
  }

  lemma OneMoreServed(grid: seq<Program>, p: Program, ids: seq<ProgramId>, reqs: seq<Request>, block: nat, hasZ: bool,
                      slotCount: nat)
    requires |grid| < |ids| && forall j | 0 <= j < |ids| :: ids[j].b < |reqs|
    requires ServedSoFar(grid, ids, reqs, block, hasZ, slotCount, |grid|)
    requires ServesId(p, ids[|grid|], reqs, block, hasZ, slotCount)
    ensures ServedSoFar(grid + [p], ids, reqs, block, hasZ, slotCount, |grid| + 1)
  {
    StillServed(grid, p, ids, reqs, block, hasZ, slotCount, |grid|);
  }

  lemma GridIsServed(grid: seq<Program>, ids: seq<ProgramId>, reqs: seq<Request>, dims: nat, block: nat, hasZ: bool,
                     slotCount: nat)
    requires |grid| == |ids| && IdsOk(ids, |reqs|, dims) && ServedSoFar(grid, ids, reqs, block, hasZ, slotCount, |ids|)
    ensures GridServes(grid, ids, reqs, dims, block, hasZ, slotCount)
  {
    AllServed(grid, ids, reqs, block, hasZ, slotCount, |ids|);
  }

  ghost predicate ServedSoFar(grid: seq<Program>, ids: seq<ProgramId>, reqs: seq<Request>, block: nat, hasZ: bool,
                              slotCount: nat, k: nat)
    requires k <= |grid| && k <= |ids| && forall j | 0 <= j < |ids| :: ids[j].b < |reqs|
  {
    k == 0 || (ServesId(grid[k - 1], ids[k - 1], reqs, block, hasZ, slotCount)
               && ServedSoFar(grid, ids, reqs, block, hasZ, slotCount, k - 1))
  }

  lemma {:induction false} StillServed(grid: seq<Program>, p: Program, ids: seq<ProgramId>, reqs: seq<Request>,
                                       block: nat, hasZ: bool,
                                       slotCount: nat, k: nat)
    requires k <= |grid| && k <= |ids| && forall j | 0 <= j < |ids| :: ids[j].b < |reqs|
    requires ServedSoFar(grid, ids, reqs, block, hasZ, slotCount, k)
    ensures ServedSoFar(grid + [p], ids, reqs, block, hasZ, slotCount, k)
  {
    if k > 0 { StillServed(grid, p, ids, reqs, block, hasZ, slotCount, k - 1); }
  }

  lemma {:induction false} AllServed(grid: seq<Program>, ids: seq<ProgramId>, reqs: seq<Request>, block: nat,
                                     hasZ: bool, slotCount: nat, k: nat)
    requires k <= |grid| && k <= |ids| && forall j | 0 <= j < |ids| :: ids[j].b < |reqs|
    requires ServedSoFar(grid, ids, reqs, block, hasZ, slotCount, k)
    ensures forall j | 0 <= j < k :: ServesId(grid[j], ids[j], reqs, block, hasZ, slotCount)
  {
    if k > 0 { AllServed(grid, ids, reqs, block, hasZ, slotCount, k - 1); }
  }

  /** The launch order does not matter; this one is by position. */
  function ByPosition(n: nat): (order: seq<nat>)
    ensures |order| == n && (forall i | 0 <= i < n :: order[i] == i) && forall k | 0 <= k < n :: k in order
  {
    if n == 0 then [] else ByPosition(n - 1) + [n - 1]
  }

  ghost predicate BatchAdvanced<S>(cell: Cell<S>, zero: S, reqs: seq<Request>, block: nat, hasZ: bool, m: Memory<S>,
                                   slotCount: nat, nullBlock: int)
    requires RequestsFine(reqs, |m.cache|, block, slotCount, nullBlock)
  {
    && (forall d | 0 <= d < |m.cache| :: |m.cache[d]| == slotCount)
    && forall b, d | 0 <= b < |reqs| && 0 <= d < |m.cache| ::
         AdvancedAt(cell, zero, reqs, b, d, block, hasZ, m, slotCount, nullBlock)
  }

  lemma AllAdvance<S>(cell: Cell<S>, zero: S, reqs: seq<Request>, grid: seq<Program>, ids: seq<ProgramId>, block: nat,
                      hasZ: bool,
                      m: Memory<S>, m': Memory<S>, slotCount: nat, nullBlock: int)
    requires RequestsFine(reqs, |m.cache|, block, slotCount, nullBlock) && IdsOk(ids, |reqs|, |m.cache|)
    requires BatchInMemory(cell, zero, reqs, block, hasZ, m, slotCount, nullBlock)
    requires GridServes(grid, ids, reqs, |m.cache|, block, hasZ, slotCount) && GridOk(grid, nullBlock, m, slotCount)
    requires Launched(cell, zero, grid, nullBlock, m, m', slotCount) && |m'.cache| == |m.cache|
    ensures BatchAdvanced(cell, zero, reqs, block, hasZ, m', slotCount, nullBlock)
  {
    assert SameShape(m, m');
    assert forall d | 0 <= d < |m'.cache| :: |m'.cache[d]| == |m.cache[d]| == slotCount;
    forall b, d | 0 <= b < |reqs| && 0 <= d < |m.cache|
      ensures AdvancedAt(cell, zero, reqs, b, d, block, hasZ, m', slotCount, nullBlock)
    {
      assert ProgramId(b, d) in ids;
      var k :| 0 <= k < |ids| && ids[k] == ProgramId(b, d);
      BatchAdvances(cell, zero, reqs, grid, ids, block, hasZ, m, m', slotCount, nullBlock, k);
    }
  }

  method LaunchBatch<S>(cell: Cell<S>, zero: S, grid: seq<Program>, nullBlock: int, delta: array<real>, z: array<real>,
                        ssm: array2<S>,
                        ghost m: Memory<S>, ghost reqs: seq<Request>, ghost ids: seq<ProgramId>, ghost block: nat,
                          ghost hasZ: bool)
    requires delta != z && m == MemoryOf(delta, z, ssm) && RequestsFine(reqs, |m.cache|, block, ssm.Length0, nullBlock)
    requires BatchInMemory(cell, zero, reqs, block, hasZ, m, ssm.Length0, nullBlock) && IdsOk(ids, |reqs|, |m.cache|)
    requires GridServes(grid, ids, reqs, |m.cache|, block, hasZ, ssm.Length0)
    modifies delta, z, ssm
    ensures BatchAdvanced(cell, zero, reqs, block, hasZ, MemoryOf(delta, z, ssm), ssm.Length0, nullBlock)
  {
    BatchGridOk(cell, zero, reqs, grid, ids, block, hasZ, m, ssm.Length0, nullBlock);
    Launch(cell, zero, grid, nullBlock, ByPosition(|grid|), delta, z, ssm);
    AllAdvance(cell, zero, reqs, grid, ids, block, hasZ, m, MemoryOf(delta, z, ssm), ssm.Length0, nullBlock);
  }

  /** A prefill batch, from the scheduler's metadata to the cache: every request, in every dim, gets the
      outputs of the plain recurrence over its whole sequence for its scheduled tokens. */
  method ScanBatch<S>(cell: Cell<S>, zero: S, reqs: seq<Request>, ids: seq<ProgramId>, block: nat, hasZ: bool,
                      nullBlock: int,
                      delta: array<real>, z: array<real>, ssm: array2<S>)
    requires delta != z && RequestsFine(reqs, ssm.Length1, block, ssm.Length0, nullBlock)
             && IdsOk(ids, |reqs|, ssm.Length1)
    requires BatchInMemory(cell, zero, reqs, block, hasZ, MemoryOf(delta, z, ssm), ssm.Length0, nullBlock)
    modifies delta, z, ssm
    ensures BatchAdvanced(cell, zero, reqs, block, hasZ, MemoryOf(delta, z, ssm), ssm.Length0, nullBlock)
  {
    var grid := MakeGrid(reqs, ids, block, hasZ, ssm.Length1, ssm.Length0, nullBlock);
    LaunchBatch(cell, zero, grid, nullBlock, delta, z, ssm, MemoryOf(delta, z, ssm), reqs, ids, block, hasZ);
  }
}

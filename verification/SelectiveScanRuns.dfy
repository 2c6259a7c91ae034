/** One sequence scanned by several kernel calls, from the start or from a cached prefix. */
module SelectiveScanRuns {
  import opened Prelude
  import opened ScanChunks
  import opened SelectiveScan

  // ----- One sequence, scheduled over several calls

  /** `_compute_prefix_caching_block_indices`, as the source computes them. */
  function LastComputedBlock(computed: nat, block: nat): nat
    requires block > 0
  {
    var j := (computed + block - 1) / block - 1;
    if j < 0 then 0 else j
  }

  function FirstScheduledBlock(computed: nat, block: nat): int
    requires block > 0
  {
    (computed + block) / block - 1
  }

  function LastScheduledBlock(length: nat, block: nat): nat
    requires block > 0
  {
    var j := (length + block - 1) / block - 1;
    if j < 0 then 0 else j
  }

  /** The state is resumed from the block of the last computed token, and the blocks written are
      those of the first and last scheduled tokens and all between. */
  lemma BlockIndices(computed: nat, n: nat, block: nat)
    requires block > 0 && n > 0
    ensures FirstScheduledBlock(computed, block) == computed / block
    ensures LastScheduledBlock(computed + n, block) == (computed + n - 1) / block
    ensures computed > 0 ==> LastComputedBlock(computed, block) == (computed - 1) / block
    ensures computed == 0 ==> LastComputedBlock(computed, block) == 0
  {
    ShiftBlock(computed, block);
    ShiftBlock(computed + n - 1, block);
    if computed > 0 { ShiftBlock(computed - 1, block); } else { BlockOf(block - 1, 0, block); }
  }

  lemma ShiftBlock(t: nat, block: nat)
    requires block > 0
    ensures (t + block) / block == t / block + 1
  {
    var q := t / block;
    BlockOf(t, q, block);
    assert (q + 1) * block == q * block + block && (q + 2) * block == (q + 1) * block + block;
    BlockOf(t + block, q + 1, block);
  }

  /** Every block from `from` on that has a processed token holds, in its slot, the state at the last
      processed token of the block. */
  ghost predicate SlotsHold<S>(cell: Cell<S>, zero: S, toks: seq<Token>, slots: seq<nat>, block: nat, from: nat,
                               upto: nat, col: seq<S>)
    requires upto <= |toks| && forall j | 0 <= j < |slots| :: slots[j] < |col|
  {
    forall j | from <= j < |slots| && j * block < upto ::
      col[slots[j]] == Run(cell, zero, toks, Min((j + 1) * block, upto))
  }

  /** Column `dim` of the cache. */
  ghost function Column<S>(ssm: array2<S>, dim: nat): (col: seq<S>)
    requires dim < ssm.Length1
    reads ssm
    ensures |col| == ssm.Length0 && forall x | 0 <= x < |col| :: col[x] == ssm[x, dim]
  {
    seq(ssm.Length0, x requires 0 <= x < ssm.Length0 reads ssm => ssm[x, dim])
  }

  /** The slot of the last computed token's block holds the state to go on from. */
  ghost predicate Resumable<S>(cell: Cell<S>, zero: S, toks: seq<Token>, slots: seq<nat>, block: nat, computed: nat,
                               col: seq<S>)
    requires block > 0 && computed <= |toks| && forall j | 0 <= j < |slots| :: slots[j] < |col|
  {
    computed > 0 ==> LastComputedBlock(computed, block) < |slots|
                     && col[slots[LastComputedBlock(computed, block)]] == Run(cell, zero, toks, computed)
  }

  /** Outputs of the tokens from `from` to `upto`. */
  ghost predicate AreOutputs<S>(outs: seq<real>, cell: Cell<S>, zero: S, toks: seq<Token>, from: nat, upto: nat)
    requires from <= upto <= |toks|
  {
    |outs| == upto - from && forall i | 0 <= i < |outs| :: outs[i] == Out(cell, zero, toks, from + i)
  }

  ghost predicate AreGated<S>(gated: seq<real>, cell: Cell<S>, zero: S, toks: seq<Token>, zs: seq<real>, from: nat,
                              upto: nat)
    requires from <= upto <= |toks| == |zs|
  {
    |gated| == upto - from && forall i | 0 <= i < |gated| ::
      gated[i] == cell.gate(Out(cell, zero, toks, from + i), zs[from + i])
  }

  /** A call's own recurrence, started from the state it loads, is a stretch of the plain one. */
  lemma CallIsStretch<S>(cell: Cell<S>, zero: S, toks: seq<Token>, m: nat, n: nat, k: nat)
    requires k <= n && m + n <= |toks|
    ensures Run(cell, Run(cell, zero, toks, m), toks[m..m + n], k) == Run(cell, zero, toks, m + k)
    ensures k < n ==> Out(cell, Run(cell, zero, toks, m), toks[m..m + n], k) == Out(cell, zero, toks, m + k)
  {
    var s := Run(cell, zero, toks, m);
    assert toks[m..m + n][..k] == toks[m..][..k];
    RunOfPrefix(cell, s, toks[m..m + n], toks[m..], k);
    RunResumes(cell, zero, toks, m, k);
    if k < n {
      assert toks[m..m + n][..k + 1] == toks[m..][..k + 1];
      RunOfPrefix(cell, s, toks[m..m + n], toks[m..], k + 1);
      RunResumes(cell, zero, toks, m, k + 1);
    }
  }

  /** What a call asks of the request's block table: it reaches the last scheduled token, the slot to load
      from is a real one, and the slots to be written differ.  Earlier entries may be null or stale. */
  ghost predicate TableOk(slots: seq<nat>, block: nat, computed: nat, n: nat, slotCount: nat, nullBlock: int) {
    && block > 0 && n > 0 && (forall j | 0 <= j < |slots| :: slots[j] < slotCount)
    && LastComputedBlock(computed, block) < |slots| && slots[LastComputedBlock(computed, block)] != nullBlock
    && LastScheduledBlock(computed + n, block) < |slots|
    && (forall i, j | computed / block <= i < j <= LastScheduledBlock(computed + n, block) :: slots[i] != slots[j])
  }

  /** Of the blocks the request still holds, from `from` on, none is written again. */
  ghost predicate HeldApart(slots: seq<nat>, from: nat, first: nat, last: nat)
    requires first <= |slots| && last < |slots|
  {
    forall i, j | from <= i < first <= j <= last :: slots[i] != slots[j]
  }

  /** The metadata the scheduler computes for one call. */
  method MakePlan(slots: seq<nat>, block: nat, computed: nat, n: nat, ghost slotCount: nat, ghost nullBlock: int)
    returns (plan: Plan)
    requires TableOk(slots, block, computed, n, slotCount, nullBlock)
    ensures plan.Cached? && plan.slots == slots && plan.block == block && PlanOk(plan, computed, n, slotCount)
    ensures plan.initial == LastComputedBlock(computed, block) && LoadSlot(plan) != nullBlock
    ensures plan.blockLast == LastScheduledBlock(computed + n, block)
  {
    BlockIndices(computed, n, block);
    DivMono(computed, computed + n - 1, block);
    var starts, end := ChunkRequest([], 0, computed, n, block);
    assert (starts + [end])[0..] == starts + [end];
    BoundariesGiveGoodChunks(starts + [end], 0, computed, n, block);
    plan := Cached(slots, LastComputedBlock(computed, block), LensOf(starts + [end]),
                   FirstScheduledBlock(computed, block), LastScheduledBlock(computed + n, block), block);
  }

  /** The rows of one call: `delta` and `z` hold the tokens' values. */
  method GatherRow<S>(ghost cell: Cell<S>, ghost s: S, toks: seq<Token>, zs: seq<real>)
    returns (row: Row, delta: array<real>, z: array<real>)
    requires |toks| == |zs|
    ensures fresh(delta) && fresh(z) && delta != z && row.hasZ && row.base == row.zbase == 0
    ensures delta.Length == z.Length == |toks| && Describes(row, toks, zs)
    ensures RowAt(cell, s, toks, 0, delta[..], 0) && GateAt(cell, s, toks, zs, 0, z[..], 0)
  {
    delta := new real[|toks|](i requires 0 <= i < |toks| => toks[i].delta);
    z := new real[|toks|](i requires 0 <= i < |toks| => zs[i]);
    row := Row(0, 0, seq(|toks|, i requires 0 <= i < |toks| => Input(toks[i].u, toks[i].b, toks[i].c)), true);
  }

  /** One scheduled call: its outputs are the plain recurrence's for its tokens, and the slots of the
      blocks it touches, and only those, hold those blocks' states. */
  method ScheduledCall<S>(cell: Cell<S>, zero: S, toks: seq<Token>, zs: seq<real>, slots: seq<nat>, block: nat,
                          ssm: array2<S>, dim: nat, nullBlock: int, computed: nat, n: nat)
    returns (outs: seq<real>, gated: seq<real>, plan: Plan)
    requires TableOk(slots, block, computed, n, ssm.Length0, nullBlock) && computed + n <= |toks| == |zs|
    requires dim < ssm.Length1 && Resumable(cell, zero, toks, slots, block, computed, Column(ssm, dim))
    modifies ssm
    ensures AreOutputs(outs, cell, zero, toks, computed, computed + n)
    ensures AreGated(gated, cell, zero, toks, zs, computed, computed + n)
    ensures plan.Cached? && plan.slots == slots && plan.block == block && PlanOk(plan, computed, n, ssm.Length0)
    ensures plan.blockLast == LastScheduledBlock(computed + n, block)
    ensures Stored(cell, Run(cell, zero, toks, computed), toks[computed..computed + n], plan, computed,
                   plan.blockLast - plan.blockFirst + 1, ssm, dim)
    ensures CacheSameBut(ssm, BlockSlots(plan), dim)
  {
    plan := MakePlan(slots, block, computed, n, ssm.Length0, nullBlock);
    var mine, myZ := toks[computed..computed + n], zs[computed..computed + n];
    ghost var s := Run(cell, zero, toks, computed);
    var row, delta, z := GatherRow(cell, s, mine, myZ);
    ScanRow(cell, row, delta, z, ssm, dim, zero, computed > 0, plan, nullBlock, computed, s, mine, myZ);
    outs, gated := delta[..], z[..];
    OutputsOfCall(cell, zero, toks, zs, computed, n, outs, gated);
  }

  lemma OutputsOfCall<S>(cell: Cell<S>, zero: S, toks: seq<Token>, zs: seq<real>, m: nat, n: nat, outs: seq<real>,
                         gated: seq<real>)
    requires m + n <= |toks| == |zs| && |outs| == |gated| == n
    requires RowAt(cell, Run(cell, zero, toks, m), toks[m..m + n], n, outs, 0)
    requires GateAt(cell, Run(cell, zero, toks, m), toks[m..m + n], zs[m..m + n], n, gated, 0)
    ensures AreOutputs(outs, cell, zero, toks, m, m + n) && AreGated(gated, cell, zero, toks, zs, m, m + n)
  {
    assert outs[0..] == outs && gated[0..] == gated;
    forall i | 0 <= i < n
      ensures outs[i] == Out(cell, zero, toks, m + i) && gated[i] == cell.gate(Out(cell, zero, toks, m + i), zs[m + i])
    {
      CallIsStretch(cell, zero, toks, m, n, i);
      assert outs[0..][i] == outs[i] && gated[0..][i] == gated[i];
    }
  }

  lemma BlockStateIsPlain<S>(cell: Cell<S>, zero: S, toks: seq<Token>, computed: nat, n: nat, block: nat, j: nat)
    requires block > 0 && computed + n <= |toks| && computed / block <= j
    ensures BlockState(cell, Run(cell, zero, toks, computed), toks[computed..computed + n], computed, block, j)
            == Run(cell, zero, toks, Min((j + 1) * block, computed + n))
  {
    BlockOf(computed, computed / block, block);
    MulMono(computed / block + 1, j + 1, block);
    CallIsStretch(cell, zero, toks, computed, n, BlockEnd(computed, n, block, j) - computed);
  }

  lemma BlockBefore(computed: nat, n: nat, block: nat, j: nat)
    requires block > 0 && j < computed / block
    ensures j * block < computed && Min((j + 1) * block, computed) == Min((j + 1) * block, computed + n)
  {
    BlockOf(computed, computed / block, block);
    MulMono(j + 1, computed / block, block);
    assert (j + 1) * block == j * block + block;
  }

  lemma BlockWithin(end: nat, block: nat, j: nat)
    requires block > 0 && j * block < end
    ensures j <= (end - 1) / block
  {
    BlockOf(end - 1, (end - 1) / block, block);
    if (end - 1) / block < j { MulMono((end - 1) / block + 1, j, block); }
  }

  /** Blocks before the call's keep their state, blocks of the call get theirs. */
  lemma SlotsAdvance<S>(cell: Cell<S>, zero: S, toks: seq<Token>, plan: Plan, computed: nat, n: nat, from: nat,
                        col: seq<S>, col': seq<S>)
    requires computed + n <= |toks| && plan.Cached? && PlanOk(plan, computed, n, |col|) && |col'| == |col|
    requires SlotsHold(cell, zero, toks, plan.slots, plan.block, from, computed, col)
    requires forall j | plan.blockFirst <= j <= plan.blockLast ::
               col'[plan.slots[j]] == BlockState(cell, Run(cell, zero, toks, computed), toks[computed..computed + n],
                                                 computed, plan.block, j)
    requires forall j | from <= j < plan.blockFirst :: col'[plan.slots[j]] == col[plan.slots[j]]
    ensures SlotsHold(cell, zero, toks, plan.slots, plan.block, from, computed + n, col')
  {
    var slots, block := plan.slots, plan.block;
    forall j | from <= j < |slots| && j * block < computed + n
      ensures col'[slots[j]] == Run(cell, zero, toks, Min((j + 1) * block, computed + n))
    {
      if j < plan.blockFirst {
        OldSlotHolds(cell, zero, toks, slots, block, from, computed, n, col, j);
      } else {
        BlockWithin(computed + n, block, j);
        BlockStateIsPlain(cell, zero, toks, computed, n, block, j);
      }
    }
  }

  lemma NotWritten(plan: Plan, from: nat, j: nat)
    requires plan.Cached? && plan.blockFirst <= plan.blockLast < |plan.slots| && from <= j < plan.blockFirst
    requires HeldApart(plan.slots, from, plan.blockFirst, plan.blockLast)
    ensures plan.slots[j] !in BlockSlots(plan)
  {
  }

  lemma OldSlotHolds<S>(cell: Cell<S>, zero: S, toks: seq<Token>, slots: seq<nat>, block: nat, from: nat,
                        computed: nat, n: nat, col: seq<S>, j: nat)
    requires computed + n <= |toks| && forall j | 0 <= j < |slots| :: slots[j] < |col|
    requires SlotsHold(cell, zero, toks, slots, block, from, computed, col)
    requires block > 0 && from <= j < |slots| && j < computed / block
    ensures col[slots[j]] == Run(cell, zero, toks, Min((j + 1) * block, computed + n))
  {
    BlockBefore(computed, n, block, j);
  }

  /** A scheduled call extends what the request's blocks hold by its tokens. */
  method ScheduledStep<S>(cell: Cell<S>, zero: S, toks: seq<Token>, zs: seq<real>, slots: seq<nat>, block: nat,
                          ssm: array2<S>, dim: nat, nullBlock: int, ghost from: nat, computed: nat, n: nat)
    returns (outs: seq<real>, gated: seq<real>)
    requires TableOk(slots, block, computed, n, ssm.Length0, nullBlock) && computed + n <= |toks| == |zs|
    requires computed / block < |slots| && from <= LastComputedBlock(computed, block)
    requires HeldApart(slots, from, computed / block, LastScheduledBlock(computed + n, block))
    requires dim < ssm.Length1 && SlotsHold(cell, zero, toks, slots, block, from, computed, Column(ssm, dim))
    modifies ssm
    ensures AreOutputs(outs, cell, zero, toks, computed, computed + n)
    ensures AreGated(gated, cell, zero, toks, zs, computed, computed + n)
    ensures SlotsHold(cell, zero, toks, slots, block, from, computed + n, Column(ssm, dim))
  {
    ghost var col := Column(ssm, dim);
    HeldIsResumable(cell, zero, toks, slots, block, from, computed, col);
    var plan;
    outs, gated, plan := ScheduledCall(cell, zero, toks, zs, slots, block, ssm, dim, nullBlock, computed, n);
    forall j | from <= j < plan.blockFirst ensures Column(ssm, dim)[slots[j]] == col[slots[j]] {
      NotWritten(plan, from, j);
    }
    SlotsAdvance(cell, zero, toks, plan, computed, n, from, col, Column(ssm, dim));
  }

  /** What call `i` of a schedule asks of the block table, when the request still holds the blocks from
      `froms[i]` on: at least the one to resume from, and none that it did not hold before. */
  ghost predicate CallOk(slots: seq<nat>, block: nat, start: nat, schedule: seq<nat>, froms: seq<nat>, i: nat,
                         slotCount: nat, nullBlock: int)
    requires block > 0 && i < |schedule| == |froms|
  {
    var computed := start + Sum(schedule, i);
    && computed >= 0 && schedule[i] > 0 && TableOk(slots, block, computed, schedule[i], slotCount, nullBlock)
    && computed / block < |slots| && LastComputedBlock(start, block) <= froms[i] <= LastComputedBlock(computed, block)
    && HeldApart(slots, froms[i], computed / block, LastScheduledBlock(computed + schedule[i], block))
  }

  /** Which blocks are held after the first `i` calls. */
  ghost function HeldFrom(start: nat, block: nat, froms: seq<nat>, i: nat): nat
    requires block > 0 && i <= |froms|
  {
    if i == 0 then LastComputedBlock(start, block) else froms[i - 1]
  }

  /** Call `i`, after giving up the blocks before `froms[i]`. */
  method CallOf<S>(cell: Cell<S>, zero: S, toks: seq<Token>, zs: seq<real>, slots: seq<nat>, block: nat,
                   ssm: array2<S>, dim: nat, nullBlock: int, ghost start: nat, schedule: seq<nat>,
                   ghost froms: seq<nat>, i: nat, computed: nat)
    returns (outs: seq<real>, gated: seq<real>)
    requires block > 0 && i < |schedule| == |froms| && computed == start + Sum(schedule, i)
    requires CallOk(slots, block, start, schedule, froms, i, ssm.Length0, nullBlock)
    requires HeldFrom(start, block, froms, i) <= froms[i]
    requires computed + schedule[i] <= |toks| == |zs| && dim < ssm.Length1
    requires SlotsHold(cell, zero, toks, slots, block, HeldFrom(start, block, froms, i), computed, Column(ssm, dim))
    modifies ssm
    ensures AreOutputs(outs, cell, zero, toks, computed, computed + schedule[i])
    ensures AreGated(gated, cell, zero, toks, zs, computed, computed + schedule[i])
    ensures SlotsHold(cell, zero, toks, slots, block, froms[i], computed + schedule[i], Column(ssm, dim))
  {
    HeldLess(cell, zero, toks, slots, block, HeldFrom(start, block, froms, i), froms[i], computed, Column(ssm, dim));
    outs, gated :=
      ScheduledStep(cell, zero, toks, zs, slots, block, ssm, dim, nullBlock, froms[i], computed, schedule[i]);
  }

  /** Any schedule of calls, from a cached prefix of `start` tokens or from the beginning, gives the
      outputs of one plain recurrence over the whole sequence, and leaves in the slot of every block
      still held the state at the last token of the block.  The table may begin with null entries, and
      blocks given up on the way may be used again further on. */
  method ScheduledScan<S>(cell: Cell<S>, zero: S, toks: seq<Token>, zs: seq<real>, slots: seq<nat>, block: nat,
                          ssm: array2<S>, dim: nat, nullBlock: int, start: nat, schedule: seq<nat>,
                          ghost froms: seq<nat>)
    returns (outs: seq<real>, gated: seq<real>)
    requires block > 0 && |toks| == |zs| && dim < ssm.Length1 && |schedule| == |froms|
    requires start + Sum(schedule, |schedule|) == |toks|
    requires forall i | 0 <= i < |schedule| :: CallOk(slots, block, start, schedule, froms, i, ssm.Length0, nullBlock)
    requires forall i, j | 0 <= i < j < |froms| :: froms[i] <= froms[j]
    requires forall j | 0 <= j < |slots| :: slots[j] < ssm.Length0
    requires start <= |toks| && Resumable(cell, zero, toks, slots, block, start, Column(ssm, dim))
    modifies ssm
    ensures AreOutputs(outs, cell, zero, toks, start, |toks|)
    ensures AreGated(gated, cell, zero, toks, zs, start, |toks|)
    ensures SlotsHold(cell, zero, toks, slots, block, HeldFrom(start, block, froms, |froms|), |toks|, Column(ssm, dim))
  {
    outs, gated := [], [];
    var computed, i := start, 0;
    NothingYet(cell, zero, toks, slots, block, start, Column(ssm, dim));
    while i < |schedule|
      invariant 0 <= i <= |schedule| && start <= computed <= |toks| && computed == start + Sum(schedule, i)
      invariant AreOutputs(outs, cell, zero, toks, start, computed)
      invariant AreGated(gated, cell, zero, toks, zs, start, computed)
      invariant SlotsHold(cell, zero, toks, slots, block, HeldFrom(start, block, froms, i), computed, Column(ssm, dim))
    {
      var n := schedule[i];
      SumGrows(schedule, i + 1, |schedule|);
      assert CallOk(slots, block, start, schedule, froms, i, ssm.Length0, nullBlock);
      var more, moreGated :=
        CallOf(cell, zero, toks, zs, slots, block, ssm, dim, nullBlock, start, schedule, froms, i, computed);
      OutputsAppend(cell, zero, toks, zs, start, computed, computed + n, outs, more, gated, moreGated);
      outs, gated := outs + more, gated + moreGated;
      computed := computed + n;
      i := i + 1;
    }
  }

  /** Giving up blocks. */
  lemma HeldLess<S>(cell: Cell<S>, zero: S, toks: seq<Token>, slots: seq<nat>, block: nat, from: nat, from': nat,
                    upto: nat, col: seq<S>)
    requires upto <= |toks| && forall j | 0 <= j < |slots| :: slots[j] < |col|
    requires SlotsHold(cell, zero, toks, slots, block, from, upto, col) && from <= from'
    ensures SlotsHold(cell, zero, toks, slots, block, from', upto, col)
  {
  }

  lemma OutputsAppend<S>(cell: Cell<S>, zero: S, toks: seq<Token>, zs: seq<real>, a: nat, b: nat, c: nat,
                         outs: seq<real>, more: seq<real>, gated: seq<real>, moreGated: seq<real>)
    requires a <= b <= c <= |toks| == |zs|
    requires AreOutputs(outs, cell, zero, toks, a, b) && AreOutputs(more, cell, zero, toks, b, c)
    requires AreGated(gated, cell, zero, toks, zs, a, b) && AreGated(moreGated, cell, zero, toks, zs, b, c)
    ensures AreOutputs(outs + more, cell, zero, toks, a, c) && AreGated(gated + moreGated, cell, zero, toks, zs, a, c)
  {
  }

  lemma {:induction false} SumGrows(ns: seq<nat>, i: nat, k: nat)
    requires i <= k <= |ns|
    ensures Sum(ns, i) <= Sum(ns, k)
  {
    if i < k { SumGrows(ns, i, k - 1); }
  }

  /** Before the first call the only block in question is the one resumed from. */
  lemma NothingYet<S>(cell: Cell<S>, zero: S, toks: seq<Token>, slots: seq<nat>, block: nat, start: nat, col: seq<S>)
    requires block > 0 && start <= |toks| && forall j | 0 <= j < |slots| :: slots[j] < |col|
    requires Resumable(cell, zero, toks, slots, block, start, col)
    ensures SlotsHold(cell, zero, toks, slots, block, LastComputedBlock(start, block), start, col)
  {
    forall j | LastComputedBlock(start, block) <= j < |slots| && j * block < start
      ensures col[slots[j]] == Run(cell, zero, toks, Min((j + 1) * block, start))
    {
      LastBlockIs(start, block, j);
    }
  }

  lemma LastBlockIs(start: nat, block: nat, j: nat)
    requires block > 0 && LastComputedBlock(start, block) <= j && j * block < start
    ensures LastComputedBlock(start, block) == j && Min((j + 1) * block, start) == start
  {
    BlockIndices(start, 1, block);
    BlockWithin(start, block, j);
    BlockOf(start - 1, j, block);
  }

  /** Of the blocks held, the last is the one to resume from. */
  lemma HeldIsResumable<S>(cell: Cell<S>, zero: S, toks: seq<Token>, slots: seq<nat>, block: nat, from: nat,
                           upto: nat, col: seq<S>)
    requires block > 0 && upto <= |toks| && forall j | 0 <= j < |slots| :: slots[j] < |col|
    requires from <= LastComputedBlock(upto, block) < |slots|
    requires SlotsHold(cell, zero, toks, slots, block, from, upto, col)
    ensures Resumable(cell, zero, toks, slots, block, upto, col)
  {
    if upto > 0 {
      LastBlockCovers(upto, block);
    }
  }

  lemma LastBlockCovers(upto: nat, block: nat)
    requires block > 0 && upto > 0
    ensures var j := LastComputedBlock(upto, block);
            j * block < upto && Min((j + 1) * block, upto) == upto
  {
    BlockIndices(upto, 1, block);
    BlockOf(upto - 1, LastComputedBlock(upto, block), block);
  }
}

/** The selective-scan kernel (vllm/_xpu_ops.py): one program per (batch row, dim), scanning its row
    in place, chunk by chunk, and leaving the state after every cache block in that block's slot.

    The per-token arithmetic is a parameter: everything here holds for every state type and every
    step, emit and gate function.  SelectiveScanCell gives the kernel's own.
 */
module SelectiveScan {
  import opened Prelude
  import opened ScanChunks

  datatype Token = Token(u: real, delta: real, b: seq<real>, c: seq<real>)

  /** What the kernel only reads at a position; `delta` is overwritten by the output. */
  datatype Input = Input(u: real, b: seq<real>, c: seq<real>)

  datatype Cell<!S> = Cell(step: (S, Token) -> S, emit: (S, Token) -> real, gate: (real, real) -> real)

  function TokenOf(x: Input, delta: real): Token {
    Token(x.u, delta, x.b, x.c)
  }

  // ----- The plain recurrence

  /** The state after the first `k` tokens. */
  function Run<S>(cell: Cell<S>, s: S, toks: seq<Token>, k: nat): S
    requires k <= |toks|
  {
    if k == 0 then s else cell.step(Run(cell, s, toks, k - 1), toks[k - 1])
  }

  function Out<S>(cell: Cell<S>, s: S, toks: seq<Token>, k: nat): real
    requires k < |toks|
  {
    cell.emit(Run(cell, s, toks, k + 1), toks[k])
  }

  /** Going on from where a prefix left off is the same as never having stopped. */
  lemma {:induction false} RunResumes<S>(cell: Cell<S>, s: S, toks: seq<Token>, m: nat, k: nat)
    requires m + k <= |toks|
    ensures Run(cell, Run(cell, s, toks, m), toks[m..], k) == Run(cell, s, toks, m + k)
  {
    if k > 0 { RunResumes(cell, s, toks, m, k - 1); }
  }

  /** The state after `k` tokens depends on those tokens only. */
  lemma {:induction false} RunOfPrefix<S>(cell: Cell<S>, s: S, toks: seq<Token>, toks': seq<Token>, k: nat)
    requires k <= |toks| && k <= |toks'| && toks[..k] == toks'[..k]
    ensures Run(cell, s, toks, k) == Run(cell, s, toks', k)
  {
    if k > 0 {
      assert toks[..k - 1] == toks[..k][..k - 1] && toks'[..k - 1] == toks'[..k][..k - 1];
      assert toks[k - 1] == toks[..k][k - 1] && toks'[k - 1] == toks'[..k][k - 1];
      RunOfPrefix(cell, s, toks, toks', k - 1);
    }
  }

  // ----- A row in memory

  /** In the row at `base`, the first `k` positions hold outputs and the rest still hold `delta`. */
  ghost predicate RowAt<S>(cell: Cell<S>, s: S, toks: seq<Token>, k: nat, mem: seq<real>, base: nat)
    requires k <= |toks|
  {
    && base + |toks| <= |mem|
    && (forall i | 0 <= i < k :: mem[base..][i] == Out(cell, s, toks, i))
    && (forall i | k <= i < |toks| :: mem[base..][i] == toks[i].delta)
  }

  /** In the gate row at `base`, the first `k` positions hold gated outputs and the rest still hold `z`. */
  ghost predicate GateAt<S>(cell: Cell<S>, s: S, toks: seq<Token>, zs: seq<real>, k: nat, mem: seq<real>, base: nat)
    requires k <= |toks| == |zs|
  {
    && base + |toks| <= |mem|
    && (forall i | 0 <= i < k :: mem[base..][i] == cell.gate(Out(cell, s, toks, i), zs[i]))
    && (forall i | k <= i < |toks| :: mem[base..][i] == zs[i])
  }

  /** Outside the `n` cells at `base` nothing changed. */
  ghost predicate SameBut(was: seq<real>, now: seq<real>, base: nat, n: nat) {
    |now| == |was| && forall i | 0 <= i < |was| && !(base <= i < base + n) :: now[i] == was[i]
  }

  lemma RowStep<S>(cell: Cell<S>, s: S, toks: seq<Token>, k: nat, mem: seq<real>, base: nat)
    requires k < |toks| && RowAt(cell, s, toks, k, mem, base)
    ensures RowAt(cell, s, toks, k + 1, mem[base + k := Out(cell, s, toks, k)], base)
  {
    var mem' := mem[base + k := Out(cell, s, toks, k)];
    forall i | 0 <= i < |toks| && i != k ensures mem'[base..][i] == mem[base..][i] { }
  }

  lemma GateStep<S>(cell: Cell<S>, s: S, toks: seq<Token>, zs: seq<real>, k: nat, mem: seq<real>, base: nat)
    requires k < |toks| == |zs| && GateAt(cell, s, toks, zs, k, mem, base)
    ensures GateAt(cell, s, toks, zs, k + 1, mem[base + k := cell.gate(Out(cell, s, toks, k), zs[k])], base)
  {
    var mem' := mem[base + k := cell.gate(Out(cell, s, toks, k), zs[k])];
    forall i | 0 <= i < |toks| && i != k ensures mem'[base..][i] == mem[base..][i] { }
  }

  /** Row data of one program: where its rows lie, what it reads, and what it is to compute. */
  datatype Row = Row(base: nat, zbase: nat, inputs: seq<Input>, hasZ: bool)

  /** `toks` and `zs` are what the row holds before the scan. */
  ghost predicate Describes(row: Row, toks: seq<Token>, zs: seq<real>) {
    && |toks| == |row.inputs| == |zs|
    && forall i | 0 <= i < |toks| :: toks[i] == TokenOf(row.inputs[i], toks[i].delta)
  }

  /** The token loop over one chunk. */
  method ScanChunk<S>(cell: Cell<S>, row: Row, delta: array<real>, z: array<real>, from: nat, count: nat, start: S,
                      ghost s: S, ghost toks: seq<Token>, ghost zs: seq<real>)
    returns (state: S)
    requires Describes(row, toks, zs) && from + count <= |toks| && delta != z
    requires RowAt(cell, s, toks, from, delta[..], row.base) && start == Run(cell, s, toks, from)
    requires row.hasZ ==> GateAt(cell, s, toks, zs, from, z[..], row.zbase)
    modifies delta, z
    ensures state == Run(cell, s, toks, from + count) && RowAt(cell, s, toks, from + count, delta[..], row.base)
    ensures row.hasZ ==> GateAt(cell, s, toks, zs, from + count, z[..], row.zbase)
    ensures SameBut(old(delta[..]), delta[..], row.base, |toks|)
    ensures if row.hasZ then SameBut(old(z[..]), z[..], row.zbase, |toks|) else z[..] == old(z[..])
  {
    state := start;
    var i := 0;
    while i < count
      invariant 0 <= i <= count && state == Run(cell, s, toks, from + i)
      invariant RowAt(cell, s, toks, from + i, delta[..], row.base)
      invariant row.hasZ ==> GateAt(cell, s, toks, zs, from + i, z[..], row.zbase)
      invariant SameBut(old(delta[..]), delta[..], row.base, |toks|)
      invariant if row.hasZ then SameBut(old(z[..]), z[..], row.zbase, |toks|) else z[..] == old(z[..])
    {
      var pos := from + i;
      assert delta[..][row.base..][pos] == delta[row.base + pos];
      var token := TokenOf(row.inputs[pos], delta[row.base + pos]);
      state := cell.step(state, token);
      var out := cell.emit(state, token);
      RowStep(cell, s, toks, pos, delta[..], row.base);
      ghost var dmem := delta[..];
      delta[row.base + pos] := out;
      assert delta[..] == dmem[row.base + pos := out];
      if row.hasZ {
        assert z[..][row.zbase..][pos] == z[row.zbase + pos];
        GateStep(cell, s, toks, zs, pos, z[..], row.zbase);
        ghost var zmem := z[..];
        z[row.zbase + pos] := cell.gate(out, z[row.zbase + pos]);
        assert z[..] == zmem[row.zbase + pos := cell.gate(out, zs[pos])];
      }
      i := i + 1;
    }
  }

  // ----- Cache slots

  /** Which slots a program loads from and stores to: one slot for the whole row, or, with prefix
      caching, the slot of each block its tokens touch. */
  datatype Plan =
    | Single(slot: nat)
    | Cached(slots: seq<nat>, initial: nat, lens: seq<int>, blockFirst: nat, blockLast: nat, block: nat)

  function LoadSlot(plan: Plan): nat
    requires plan.Cached? ==> plan.initial < |plan.slots|
  {
    if plan.Single? then plan.slot else plan.slots[plan.initial]
  }

  ghost predicate PlanOk(plan: Plan, computed: nat, n: nat, slotCount: nat) {
    match plan
    case Single(slot) => slot < slotCount
    case Cached(slots, initial, lens, blockFirst, blockLast, block) =>
      && block > 0 && n > 0 && GoodChunks(lens, computed, n, block)
      && blockFirst == FirstBlock(computed, block) && blockLast == (computed + n - 1) / block
      && initial < |slots| && blockFirst <= blockLast < |slots|
      && (forall j | 0 <= j < |slots| :: slots[j] < slotCount)
      && (forall i, j | blockFirst <= i < j <= blockLast :: slots[i] != slots[j])
  }

  /** The last scheduled token of block `j`, one past, counted from the start of the sequence. */
  function BlockEnd(computed: nat, n: nat, block: nat, j: nat): nat {
    Min((j + 1) * block, computed + n)
  }

  /** The state at the last token of block `j` that has been processed. */
  function BlockState<S>(cell: Cell<S>, s: S, toks: seq<Token>, computed: nat, block: nat, j: nat): S
    requires block > 0 && FirstBlock(computed, block) <= j
  {
    BlockOf(computed, FirstBlock(computed, block), block);
    MulMono(FirstBlock(computed, block) + 1, j + 1, block);
    Run(cell, s, toks, BlockEnd(computed, |toks|, block, j) - computed)
  }

  lemma ChunkBounds(lens: seq<int>, computed: nat, n: nat, block: nat, c: nat)
    requires block > 0 && n > 0 && GoodChunks(lens, computed, n, block) && c < |lens|
    ensures 0 <= Sum(lens, c) <= Sum(lens, c + 1) <= n && lens[c] >= 0
    ensures computed + Sum(lens, c + 1) == BlockEnd(computed, n, block, FirstBlock(computed, block) + c)
    ensures c + 1 == |lens| ==> Sum(lens, c + 1) == n
  {
    EndsGrow(computed, n, block, c);
    BlockOf(computed, FirstBlock(computed, block), block);
    assert computed + Sum(lens, c) == ChunkEnd(computed, n, block, c);
    assert computed + Sum(lens, c + 1) == ChunkEnd(computed, n, block, c + 1);
    assert ChunkEnd(computed, n, block, 0) <= ChunkEnd(computed, n, block, c) by {
      if c > 0 { MulMono(FirstBlock(computed, block) + 1, FirstBlock(computed, block) + c, block); }
    }
    if c + 1 == |lens| { BlockOf(computed + n - 1, (computed + n - 1) / block, block); }
  }

  /** Before the last chunk, the block the kernel computes from its position is the chunk's own. */
  lemma BlockDone(lens: seq<int>, computed: nat, n: nat, block: nat, c: nat)
    requires block > 0 && n > 0 && GoodChunks(lens, computed, n, block) && c + 1 < |lens|
    ensures computed + Sum(lens, c + 1) > 0
            && (computed + Sum(lens, c + 1) - 1) / block == FirstBlock(computed, block) + c
  {
    var first, last := FirstBlock(computed, block), (computed + n - 1) / block;
    ChunkBounds(lens, computed, n, block, c);
    BlockOf(computed + n - 1, last, block);
    MulMono(first + c + 1, last, block);
    assert (first + c + 1) * block == (first + c) * block + block;
    BlockOf(computed + Sum(lens, c + 1) - 1, first + c, block);
  }

  /** With more than one chunk the kernel's starting position is the number of computed tokens. */
  lemma StartPosition(lens: seq<int>, computed: nat, n: nat, block: nat)
    requires block > 0 && n > 0 && GoodChunks(lens, computed, n, block) && |lens| > 1
    ensures computed == FirstBlock(computed, block) * block + if lens[0] < block then block - lens[0] else 0
  {
    var first := FirstBlock(computed, block);
    ChunkBounds(lens, computed, n, block, 0);
    BlockDone(lens, computed, n, block, 0);
    BlockOf(computed, first, block);
    assert (first + 1) * block == first * block + block;
    BlockOf(computed + n - 1, (computed + n - 1) / block, block);
    MulMono(first + 1, (computed + n - 1) / block, block);
    assert Sum(lens, 1) == lens[0];
  }

  /** The slots of the blocks that the scheduled tokens touch. */
  ghost function BlockSlots(plan: Plan): set<nat>
    requires plan.Cached? && plan.blockLast < |plan.slots|
  {
    set j | plan.blockFirst <= j <= plan.blockLast :: plan.slots[j]
  }

  /** The slots of the first `c` blocks hold their block's state in column `dim`. */
  ghost predicate Stored<S>(cell: Cell<S>, s: S, toks: seq<Token>, plan: Plan, computed: nat, c: nat, ssm: array2<S>,
                            dim: nat)
    requires plan.Cached? && PlanOk(plan, computed, |toks|, ssm.Length0) && dim < ssm.Length1
    requires plan.blockFirst + c <= plan.blockLast + 1
    reads ssm
  {
    forall j | plan.blockFirst <= j < plan.blockFirst + c ::
      ssm[plan.slots[j], dim] == BlockState(cell, s, toks, computed, plan.block, j)
  }

  /** Column `dim` may have changed in `slots`; every other cell of the cache is as it was. */
  twostate predicate CacheSameBut<S>(ssm: array2<S>, slots: set<nat>, dim: nat)
    reads ssm
  {
    forall x, y | 0 <= x < ssm.Length0 && 0 <= y < ssm.Length1 && (y != dim || x !in slots) ::
      ssm[x, y] == old(ssm[x, y])
  }

  /** One program of the kernel.  A row whose load slot is the null block is skipped. */
  method ScanRow<S>(cell: Cell<S>, row: Row, delta: array<real>, z: array<real>, ssm: array2<S>, dim: nat,
                    zero: S, hasInitial: bool, plan: Plan, nullBlock: int,
                    ghost computed: nat, ghost s: S, ghost toks: seq<Token>, ghost zs: seq<real>)
    requires Describes(row, toks, zs) && delta != z && PlanOk(plan, computed, |toks|, ssm.Length0) && dim < ssm.Length1
    requires RowAt(cell, s, toks, 0, delta[..], row.base)
             && (row.hasZ ==> GateAt(cell, s, toks, zs, 0, z[..], row.zbase))
    requires s == if hasInitial then ssm[LoadSlot(plan), dim] else zero
    modifies delta, z, ssm
    ensures LoadSlot(plan) == nullBlock ==>
              && delta[..] == old(delta[..]) && z[..] == old(z[..])
              && CacheSameBut(ssm, {}, dim)
    ensures SameBut(old(delta[..]), delta[..], row.base, |toks|)
    ensures if row.hasZ then SameBut(old(z[..]), z[..], row.zbase, |toks|) else z[..] == old(z[..])
    ensures LoadSlot(plan) != nullBlock ==> RowAt(cell, s, toks, |toks|, delta[..], row.base)
    ensures LoadSlot(plan) != nullBlock && row.hasZ ==> GateAt(cell, s, toks, zs, |toks|, z[..], row.zbase)
    ensures LoadSlot(plan) != nullBlock && plan.Single? ==>
              ssm[plan.slot, dim] == Run(cell, s, toks, |toks|) && CacheSameBut(ssm, {plan.slot}, dim)
    ensures LoadSlot(plan) != nullBlock && plan.Cached? ==>
              && Stored(cell, s, toks, plan, computed, plan.blockLast - plan.blockFirst + 1, ssm, dim)
              && CacheSameBut(ssm, BlockSlots(plan), dim)
  {
    var load := LoadSlot(plan);
    if load == nullBlock {
      return;
    }
    var state := if hasInitial then ssm[load, dim] else zero;
    if plan.Single? {
      state := ScanChunk(cell, row, delta, z, 0, |row.inputs|, state, s, toks, zs);
      ssm[load, dim] := state;
    } else {
      ScanBlocks(cell, row, delta, z, ssm, dim, plan, state, computed, toks, zs);
    }
  }

  /** One chunk: scan its tokens, then store the state in the slot of the block just finished. */
  method ScanBlock<S>(cell: Cell<S>, row: Row, delta: array<real>, z: array<real>, ssm: array2<S>, dim: nat, plan: Plan,
                      chunk: nat, processed: nat, position: int, start: S,
                      ghost computed: nat, ghost s: S, ghost toks: seq<Token>, ghost zs: seq<real>)
    returns (state: S)
    requires plan.Cached? && Describes(row, toks, zs) && delta != z
    requires PlanOk(plan, computed, |toks|, ssm.Length0) && dim < ssm.Length1 && chunk < |plan.lens|
    requires processed == Sum(plan.lens, chunk) <= |toks| && start == Run(cell, s, toks, processed)
    requires |plan.lens| > 1 ==> position == computed + processed
    requires RowAt(cell, s, toks, processed, delta[..], row.base)
    requires row.hasZ ==> GateAt(cell, s, toks, zs, processed, z[..], row.zbase)
    requires Stored(cell, s, toks, plan, computed, chunk, ssm, dim)
    modifies delta, z, ssm
    ensures 0 <= Sum(plan.lens, chunk + 1) <= |toks| && state == Run(cell, s, toks, Sum(plan.lens, chunk + 1))
    ensures RowAt(cell, s, toks, Sum(plan.lens, chunk + 1), delta[..], row.base)
    ensures row.hasZ ==> GateAt(cell, s, toks, zs, Sum(plan.lens, chunk + 1), z[..], row.zbase)
    ensures SameBut(old(delta[..]), delta[..], row.base, |toks|)
    ensures if row.hasZ then SameBut(old(z[..]), z[..], row.zbase, |toks|) else z[..] == old(z[..])
    ensures Stored(cell, s, toks, plan, computed, chunk + 1, ssm, dim) && CacheSameBut(ssm, BlockSlots(plan), dim)
  {
    ChunkBounds(plan.lens, computed, |toks|, plan.block, chunk);
    var tokens := plan.lens[chunk];
    state := ScanChunk(cell, row, delta, z, processed, tokens, start, s, toks, zs);
    var done := plan.blockLast;
    if chunk != |plan.lens| - 1 {
      BlockDone(plan.lens, computed, |toks|, plan.block, chunk);
      done := (position + tokens - 1) / plan.block;
    }
    StoreState(cell, s, toks, plan, computed, chunk, ssm, dim, done, state);
  }

  method StoreState<S>(ghost cell: Cell<S>, ghost s: S, ghost toks: seq<Token>, plan: Plan, ghost computed: nat,
                       ghost chunk: nat,
                       ssm: array2<S>, dim: nat, done: nat, state: S)
    requires plan.Cached? && PlanOk(plan, computed, |toks|, ssm.Length0) && dim < ssm.Length1
    requires done == plan.blockFirst + chunk <= plan.blockLast && Stored(cell, s, toks, plan, computed, chunk, ssm, dim)
    requires state == BlockState(cell, s, toks, computed, plan.block, done)
    modifies ssm
    ensures Stored(cell, s, toks, plan, computed, chunk + 1, ssm, dim) && CacheSameBut(ssm, BlockSlots(plan), dim)
  {
    assert plan.slots[done] in BlockSlots(plan);
    ssm[plan.slots[done], dim] := state;
  }

  /** The chunk loop with prefix caching. */
  method ScanBlocks<S>(cell: Cell<S>, row: Row, delta: array<real>, z: array<real>, ssm: array2<S>, dim: nat,
                       plan: Plan, s: S,
                       ghost computed: nat, ghost toks: seq<Token>, ghost zs: seq<real>)
    requires plan.Cached? && Describes(row, toks, zs) && delta != z
    requires PlanOk(plan, computed, |toks|, ssm.Length0) && dim < ssm.Length1
    requires RowAt(cell, s, toks, 0, delta[..], row.base)
             && (row.hasZ ==> GateAt(cell, s, toks, zs, 0, z[..], row.zbase))
    modifies delta, z, ssm
    ensures SameBut(old(delta[..]), delta[..], row.base, |toks|) && RowAt(cell, s, toks, |toks|, delta[..], row.base)
    ensures if row.hasZ then SameBut(old(z[..]), z[..], row.zbase, |toks|) else z[..] == old(z[..])
    ensures row.hasZ ==> GateAt(cell, s, toks, zs, |toks|, z[..], row.zbase)
    ensures Stored(cell, s, toks, plan, computed, plan.blockLast - plan.blockFirst + 1, ssm, dim)
    ensures CacheSameBut(ssm, BlockSlots(plan), dim)
  {
    var nChunks := |plan.lens|;
    assert nChunks == plan.blockLast - plan.blockFirst + 1;
    var offset := if nChunks > 1 && plan.lens[0] < plan.block then plan.block - plan.lens[0] else 0;
    var currentPosition := plan.blockFirst * plan.block + offset;
    if nChunks > 1 { StartPosition(plan.lens, computed, |toks|, plan.block); }
    var state, processed, chunk := s, 0, 0;
    while chunk < nChunks
      invariant 0 <= chunk <= nChunks && processed == Sum(plan.lens, chunk) && 0 <= processed <= |toks|
      invariant nChunks > 1 ==> currentPosition == computed + processed
      invariant chunk == nChunks ==> processed == |toks|
      invariant state == Run(cell, s, toks, processed) && RowAt(cell, s, toks, processed, delta[..], row.base)
      invariant row.hasZ ==> GateAt(cell, s, toks, zs, processed, z[..], row.zbase)
      invariant SameBut(old(delta[..]), delta[..], row.base, |toks|)
      invariant if row.hasZ then SameBut(old(z[..]), z[..], row.zbase, |toks|) else z[..] == old(z[..])
      invariant Stored(cell, s, toks, plan, computed, chunk, ssm, dim) && CacheSameBut(ssm, BlockSlots(plan), dim)
    {
      ChunkBounds(plan.lens, computed, |toks|, plan.block, chunk);
      var tokens := plan.lens[chunk];
      state := ScanBlock(cell, row, delta, z, ssm, dim, plan, chunk, processed, currentPosition, state, computed, s,
                         toks, zs);
      processed := processed + tokens;
      currentPosition := currentPosition + tokens;
      chunk := chunk + 1;
    }
  }
}

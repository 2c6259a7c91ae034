/** A kernel launch: one program per (batch row, dim), in any order, over shared in-place buffers. */
module SelectiveScanLaunch {
  import opened SelectiveScan
  import opened SelectiveScanRuns

  /** What the kernel writes to: `out` is `delta`, `out_z` is `z`, and `cache[d]` is column `d` of the states. */
  datatype Memory<S> = Memory(delta: seq<real>, z: seq<real>, cache: seq<seq<S>>)

  ghost function MemoryOf<S>(delta: array<real>, z: array<real>, ssm: array2<S>): (m: Memory<S>)
    reads delta, z, ssm
    ensures |m.cache| == ssm.Length1 && forall d | 0 <= d < |m.cache| :: m.cache[d] == Column(ssm, d)
  {
    Memory(delta[..], z[..], seq(ssm.Length1, d requires 0 <= d < ssm.Length1 reads ssm => Column(ssm, d)))
  }

  datatype Program = Program(row: Row, dim: nat, hasInitial: bool, plan: Plan, computed: nat)

  ghost predicate ProgramOk<S>(p: Program, m: Memory<S>, slotCount: nat) {
    && p.dim < |m.cache| && (forall d | 0 <= d < |m.cache| :: |m.cache[d]| == slotCount)
    && PlanOk(p.plan, p.computed, |p.row.inputs|, slotCount)
    && p.row.base + |p.row.inputs| <= |m.delta|
    && (p.row.hasZ ==> p.row.zbase + |p.row.inputs| <= |m.z|)
  }

  /** A program whose load slot is the null block does nothing. */
  ghost predicate Active(p: Program, nullBlock: int)
    requires p.plan.Cached? ==> p.plan.initial < |p.plan.slots|
  {
    LoadSlot(p.plan) != nullBlock
  }

  /** The slots a program stores to. */
  ghost function Touched(p: Program, nullBlock: int): set<nat>
    requires p.plan.Cached? ==> p.plan.initial < |p.plan.slots| && p.plan.blockLast < |p.plan.slots|
  {
    if !Active(p, nullBlock) then {} else if p.plan.Single? then {p.plan.slot} else BlockSlots(p.plan)
  }

  ghost predicate Writes(p: Program, nullBlock: int, d: int, x: int)
    requires p.plan.Cached? ==> p.plan.initial < |p.plan.slots| && p.plan.blockLast < |p.plan.slots|
  {
    d == p.dim && x in Touched(p, nullBlock)
  }

  // ----- What one program is to compute, from the memory before the launch

  datatype Work<S> = Work(s: S, toks: seq<Token>, zs: seq<real>)

  /** The tokens of a row that holds `deltas`. */
  ghost function TokensOf(inputs: seq<Input>, deltas: seq<real>): (toks: seq<Token>)
    requires |inputs| == |deltas|
    ensures |toks| == |inputs| && forall i | 0 <= i < |toks| :: toks[i] == TokenOf(inputs[i], deltas[i])
  {
    seq(|inputs|, i requires 0 <= i < |inputs| => TokenOf(inputs[i], deltas[i]))
  }

  ghost function ZerosFor(n: nat): (zs: seq<real>)
    ensures |zs| == n
  {
    seq(n, i => 0.0)
  }

  ghost function WorkOf<S>(p: Program, zero: S, nullBlock: int, m: Memory<S>, slotCount: nat): (w: Work<S>)
    requires ProgramOk(p, m, slotCount)
    ensures Describes(p.row, w.toks, w.zs)
  {
    var n := |p.row.inputs|;
    var toks := TokensOf(p.row.inputs, m.delta[p.row.base..p.row.base + n]);
    var zs := if p.row.hasZ then m.z[p.row.zbase..p.row.zbase + n] else ZerosFor(n);
    Work(if p.hasInitial && Active(p, nullBlock) then m.cache[p.dim][LoadSlot(p.plan)] else zero, toks, zs)
  }

  ghost function Outs<S>(cell: Cell<S>, w: Work<S>): seq<real> {
    seq(|w.toks|, i requires 0 <= i < |w.toks| => Out(cell, w.s, w.toks, i))
  }

  ghost function Gated<S>(cell: Cell<S>, w: Work<S>): seq<real>
    requires |w.toks| == |w.zs|
  {
    seq(|w.toks|, i requires 0 <= i < |w.toks| => cell.gate(Out(cell, w.s, w.toks, i), w.zs[i]))
  }

  /** The states the program leaves in the slots it stores to. */
  ghost predicate StatesDone<S>(cell: Cell<S>, p: Program, w: Work<S>, column: seq<S>)
    requires PlanOk(p.plan, p.computed, |w.toks|, |column|)
  {
    match p.plan
    case Single(slot) => column[slot] == Run(cell, w.s, w.toks, |w.toks|)
    case Cached(slots, _, _, blockFirst, blockLast, block) =>
      forall j | blockFirst <= j <= blockLast :: column[slots[j]] == BlockState(cell, w.s, w.toks, p.computed, block, j)
  }

  /** The program's part of memory holds what the plain recurrence over its inputs gives, in buffers
      of their own; the part of a skipped program holds what it held. */
  ghost predicate Finished<S>(cell: Cell<S>, p: Program, nullBlock: int, w: Work<S>, m: Memory<S>, slotCount: nat)
    requires ProgramOk(p, m, slotCount) && Describes(p.row, w.toks, w.zs)
  {
    var n := |p.row.inputs|;
    var out, outZ := m.delta[p.row.base..p.row.base + n], if p.row.hasZ then m.z[p.row.zbase..p.row.zbase + n] else [];
    if Active(p, nullBlock) then
      && out == Outs(cell, w) && (p.row.hasZ ==> outZ == Gated(cell, w))
      && StatesDone(cell, p, w, m.cache[p.dim])
    else
      (forall i | 0 <= i < n :: out[i] == w.toks[i].delta) && (p.row.hasZ ==> outZ == w.zs)
  }

  ghost predicate SameShape<S>(m: Memory<S>, m': Memory<S>) {
    && |m'.delta| == |m.delta| && |m'.z| == |m.z| && |m'.cache| == |m.cache|
    && forall d | 0 <= d < |m.cache| :: |m'.cache[d]| == |m.cache[d]|
  }

  ghost predicate InRow(p: Program, i: int) { p.row.base <= i < p.row.base + |p.row.inputs| }

  ghost predicate InGates(p: Program, i: int) { p.row.hasZ && p.row.zbase <= i < p.row.zbase + |p.row.inputs| }

  /** One program changes nothing outside its own rows and slots. */
  ghost predicate Confined<S>(p: Program, nullBlock: int, m: Memory<S>, m': Memory<S>, slotCount: nat)
    requires ProgramOk(p, m, slotCount)
  {
    && SameShape(m, m')
    && (forall i | 0 <= i < |m.delta| && !InRow(p, i) :: m'.delta[i] == m.delta[i])
    && (forall i | 0 <= i < |m.z| && !InGates(p, i) :: m'.z[i] == m.z[i])
    && (forall d, x | 0 <= d < |m.cache| && 0 <= x < slotCount && !Writes(p, nullBlock, d, x) ::
          m'.cache[d][x] == m.cache[d][x])
  }

  /** One program of the launch, on values of the whole memory. */
  method ScanProgram<S>(cell: Cell<S>, zero: S, p: Program, nullBlock: int, delta: array<real>, z: array<real>,
                        ssm: array2<S>)
    requires delta != z && ProgramOk(p, MemoryOf(delta, z, ssm), ssm.Length0)
    modifies delta, z, ssm
    ensures Confined(p, nullBlock, old(MemoryOf(delta, z, ssm)), MemoryOf(delta, z, ssm), ssm.Length0)
    ensures Finished(cell, p, nullBlock, WorkOf(p, zero, nullBlock, old(MemoryOf(delta, z, ssm)), ssm.Length0),
                     MemoryOf(delta, z, ssm), ssm.Length0)
  {
    ghost var m := MemoryOf(delta, z, ssm);
    ghost var w := WorkOf(p, zero, nullBlock, m, ssm.Length0);
    if LoadSlot(p.plan) == nullBlock {
      return;
    }
    ScanActive(cell, zero, p, nullBlock, delta, z, ssm, w);
    RowAfter(cell, p, w, MemoryOf(delta, z, ssm));
  }

  method ScanActive<S>(cell: Cell<S>, zero: S, p: Program, nullBlock: int, delta: array<real>, z: array<real>,
                       ssm: array2<S>, ghost w: Work<S>)
    requires delta != z && ProgramOk(p, MemoryOf(delta, z, ssm), ssm.Length0) && Active(p, nullBlock)
    requires w == WorkOf(p, zero, nullBlock, MemoryOf(delta, z, ssm), ssm.Length0)
    modifies delta, z, ssm
    ensures RowAt(cell, w.s, w.toks, |w.toks|, delta[..], p.row.base)
    ensures p.row.hasZ ==> GateAt(cell, w.s, w.toks, w.zs, |w.toks|, z[..], p.row.zbase)
    ensures StatesDone(cell, p, w, Column(ssm, p.dim))
    ensures Confined(p, nullBlock, old(MemoryOf(delta, z, ssm)), MemoryOf(delta, z, ssm), ssm.Length0)
  {
    RowBefore(cell, p, zero, nullBlock, MemoryOf(delta, z, ssm), ssm.Length0);
    ScanRow(cell, p.row, delta, z, ssm, p.dim, zero, p.hasInitial, p.plan, nullBlock, p.computed, w.s, w.toks, w.zs);
  }

  lemma RowBefore<S>(cell: Cell<S>, p: Program, zero: S, nullBlock: int, m: Memory<S>, slotCount: nat)
    requires ProgramOk(p, m, slotCount)
    ensures var w := WorkOf(p, zero, nullBlock, m, slotCount);
            && RowAt(cell, w.s, w.toks, 0, m.delta, p.row.base)
            && (p.row.hasZ ==> GateAt(cell, w.s, w.toks, w.zs, 0, m.z, p.row.zbase))
  {
  }

  lemma RowAfter<S>(cell: Cell<S>, p: Program, w: Work<S>, m: Memory<S>)
    requires Describes(p.row, w.toks, w.zs)
    requires RowAt(cell, w.s, w.toks, |w.toks|, m.delta, p.row.base)
    requires p.row.hasZ ==> GateAt(cell, w.s, w.toks, w.zs, |w.toks|, m.z, p.row.zbase)
    ensures m.delta[p.row.base..p.row.base + |w.toks|] == Outs(cell, w)
    ensures p.row.hasZ ==> m.z[p.row.zbase..p.row.zbase + |w.toks|] == Gated(cell, w)
  {
    var n := |w.toks|;
    forall i | 0 <= i < n ensures m.delta[p.row.base..p.row.base + n][i] == Outs(cell, w)[i] {
      assert m.delta[p.row.base..][i] == m.delta[p.row.base + i];
    }
    if p.row.hasZ {
      forall i | 0 <= i < n ensures m.z[p.row.zbase..p.row.zbase + n][i] == Gated(cell, w)[i] {
        assert m.z[p.row.zbase..][i] == m.z[p.row.zbase + i];
      }
    }
  }

  // ----- Several programs

  /** Rows apart, gate rows apart, and neither stores to a slot of the same column that the other
      stores to or loads from. */
  ghost predicate Apart(p: Program, q: Program, nullBlock: int)
    requires p.plan.Cached? ==> p.plan.initial < |p.plan.slots| && p.plan.blockLast < |p.plan.slots|
    requires q.plan.Cached? ==> q.plan.initial < |q.plan.slots| && q.plan.blockLast < |q.plan.slots|
  {
    && (forall i :: !(InRow(p, i) && InRow(q, i)))
    && (forall i :: !(InGates(p, i) && InGates(q, i)))
    && (p.dim == q.dim && Active(p, nullBlock) && Active(q, nullBlock) ==>
          && Touched(p, nullBlock) !! Touched(q, nullBlock)
          && LoadSlot(p.plan) !in Touched(q, nullBlock) && LoadSlot(q.plan) !in Touched(p, nullBlock))
  }

  ghost predicate GridOk<S>(grid: seq<Program>, nullBlock: int, m: Memory<S>, slotCount: nat) {
    && (forall d | 0 <= d < |m.cache| :: |m.cache[d]| == slotCount)
    && (forall k | 0 <= k < |grid| :: ProgramOk(grid[k], m, slotCount))
    && (forall j, k | 0 <= j < |grid| && 0 <= k < |grid| && j != k :: Apart(grid[j], grid[k], nullBlock))
  }

  /** No program writes there. */
  ghost predicate OutsideAll(grid: seq<Program>, nullBlock: int, d: int, x: int)
    requires forall k | 0 <= k < |grid| && grid[k].plan.Cached? ::
               grid[k].plan.initial < |grid[k].plan.slots| && grid[k].plan.blockLast < |grid[k].plan.slots|
  {
    forall k | 0 <= k < |grid| :: !Writes(grid[k], nullBlock, d, x)
  }

  ghost predicate RestSame<S>(grid: seq<Program>, nullBlock: int, m: Memory<S>, m': Memory<S>, slotCount: nat)
    requires GridOk(grid, nullBlock, m, slotCount)
  {
    && SameShape(m, m')
    && (forall i | 0 <= i < |m.delta| && (forall k | 0 <= k < |grid| :: !InRow(grid[k], i)) ::
          m'.delta[i] == m.delta[i])
    && (forall i | 0 <= i < |m.z| && (forall k | 0 <= k < |grid| :: !InGates(grid[k], i)) :: m'.z[i] == m.z[i])
    && (forall d, x | 0 <= d < |m.cache| && 0 <= x < slotCount && OutsideAll(grid, nullBlock, d, x) ::
          m'.cache[d][x] == m.cache[d][x])
  }

  /** The memory a launch leaves behind, said without any order: every program's part is finished,
      from the inputs before the launch, and the rest is as before. */
  ghost predicate Launched<S>(cell: Cell<S>, zero: S, grid: seq<Program>, nullBlock: int, m: Memory<S>, m': Memory<S>,
                              slotCount: nat)
    requires GridOk(grid, nullBlock, m, slotCount)
  {
    && RestSame(grid, nullBlock, m, m', slotCount)
    && forall k | 0 <= k < |grid| ::
         ProgramOk(grid[k], m', slotCount)
         && Finished(cell, grid[k], nullBlock, WorkOf(grid[k], zero, nullBlock, m, slotCount), m', slotCount)
  }

  /** A program that runs elsewhere leaves another's rows alone. */
  lemma RowsKept<S>(p: Program, q: Program, nullBlock: int, m: Memory<S>, m': Memory<S>, slotCount: nat)
    requires ProgramOk(p, m, slotCount) && ProgramOk(q, m, slotCount) && Apart(p, q, nullBlock)
    requires Confined(p, nullBlock, m, m', slotCount)
    ensures ProgramOk(q, m', slotCount)
    ensures var n := |q.row.inputs|;
            && m'.delta[q.row.base..q.row.base + n] == m.delta[q.row.base..q.row.base + n]
            && (q.row.hasZ ==> m'.z[q.row.zbase..q.row.zbase + n] == m.z[q.row.zbase..q.row.zbase + n])
  {
    var n := |q.row.inputs|;
    var rows, rows' := m.delta[q.row.base..q.row.base + n], m'.delta[q.row.base..q.row.base + n];
    forall i | 0 <= i < n ensures rows'[i] == rows[i] {
      assert InRow(q, q.row.base + i);
    }
    if q.row.hasZ {
      var gates, gates' := m.z[q.row.zbase..q.row.zbase + n], m'.z[q.row.zbase..q.row.zbase + n];
      forall i | 0 <= i < n ensures gates'[i] == gates[i] {
        assert InGates(q, q.row.zbase + i);
      }
    }
  }

  /** ... so a program still to come finds the inputs it had ... */
  lemma WorkKept<S>(p: Program, q: Program, zero: S, nullBlock: int, m: Memory<S>, m': Memory<S>, slotCount: nat)
    requires ProgramOk(p, m, slotCount) && ProgramOk(q, m, slotCount) && Apart(p, q, nullBlock)
    requires Confined(p, nullBlock, m, m', slotCount)
    ensures ProgramOk(q, m', slotCount)
            && WorkOf(q, zero, nullBlock, m', slotCount) == WorkOf(q, zero, nullBlock, m, slotCount)
  {
    RowsKept(p, q, nullBlock, m, m', slotCount);
    if Active(q, nullBlock) {
      var x := LoadSlot(q.plan);
      assert !Writes(p, nullBlock, q.dim, x);
      assert m'.cache[q.dim][x] == m.cache[q.dim][x];
    }
  }

  /** ... and one already done keeps its results. */
  lemma FinishedKept<S>(cell: Cell<S>, p: Program, q: Program, nullBlock: int, w: Work<S>, m: Memory<S>, m': Memory<S>,
                        slotCount: nat)
    requires ProgramOk(p, m, slotCount) && ProgramOk(q, m, slotCount) && Apart(p, q, nullBlock)
    requires Confined(p, nullBlock, m, m', slotCount) && Describes(q.row, w.toks, w.zs)
    requires Finished(cell, q, nullBlock, w, m, slotCount)
    ensures ProgramOk(q, m', slotCount) && Finished(cell, q, nullBlock, w, m', slotCount)
  {
    RowsKept(p, q, nullBlock, m, m', slotCount);
    if Active(q, nullBlock) {
      forall x | x in Touched(q, nullBlock) ensures m'.cache[q.dim][x] == m.cache[q.dim][x] {
        assert !Writes(p, nullBlock, q.dim, x);
      }
      assert StatesDone(cell, q, w, m'.cache[q.dim]);
    }
  }

  /** Where a launch stands: programs in `done` are finished, the others find their inputs as before. */
  ghost predicate Midway<S>(cell: Cell<S>, zero: S, grid: seq<Program>, nullBlock: int, done: seq<nat>, m: Memory<S>,
                            m': Memory<S>, slotCount: nat)
    requires GridOk(grid, nullBlock, m, slotCount)
  {
    && RestSame(grid, nullBlock, m, m', slotCount)
    && forall k | 0 <= k < |grid| :: Standing(cell, zero, grid[k], nullBlock, k in done, m, m', slotCount)
  }

  ghost predicate Standing<S>(cell: Cell<S>, zero: S, p: Program, nullBlock: int, done: bool, m: Memory<S>,
                              m': Memory<S>, slotCount: nat)
    requires ProgramOk(p, m, slotCount)
  {
    && ProgramOk(p, m', slotCount)
    && var w := WorkOf(p, zero, nullBlock, m, slotCount);
    if done then Finished(cell, p, nullBlock, w, m', slotCount) else WorkOf(p, zero, nullBlock, m', slotCount) == w
  }

  lemma OneMoreProgram<S>(cell: Cell<S>, zero: S, grid: seq<Program>, nullBlock: int, done: seq<nat>, k: nat,
                          m: Memory<S>, m1: Memory<S>, m2: Memory<S>, slotCount: nat)
    requires GridOk(grid, nullBlock, m, slotCount) && k < |grid| && k !in done
    requires Midway(cell, zero, grid, nullBlock, done, m, m1, slotCount)
    requires ProgramOk(grid[k], m1, slotCount) && Confined(grid[k], nullBlock, m1, m2, slotCount)
             && ProgramOk(grid[k], m2, slotCount)
    requires Finished(cell, grid[k], nullBlock, WorkOf(grid[k], zero, nullBlock, m1, slotCount), m2, slotCount)
    ensures Midway(cell, zero, grid, nullBlock, done + [k], m, m2, slotCount)
  {
    assert Standing(cell, zero, grid[k], nullBlock, k in done, m, m1, slotCount);
    forall j | 0 <= j < |grid|
      ensures Standing(cell, zero, grid[j], nullBlock, j in done + [k], m, m2, slotCount)
    {
      if j != k {
        assert Standing(cell, zero, grid[j], nullBlock, j in done, m, m1, slotCount);
        StandingKept(cell, zero, grid[k], grid[j], nullBlock, j in done, m, m1, m2, slotCount);
      }
    }
    RestKept(grid, nullBlock, k, m, m1, m2, slotCount);
  }

  lemma StandingKept<S>(cell: Cell<S>, zero: S, p: Program, q: Program, nullBlock: int, done: bool,
                        m: Memory<S>, m1: Memory<S>, m2: Memory<S>, slotCount: nat)
    requires ProgramOk(q, m, slotCount) && Standing(cell, zero, q, nullBlock, done, m, m1, slotCount)
    requires ProgramOk(p, m1, slotCount) && Apart(p, q, nullBlock) && Confined(p, nullBlock, m1, m2, slotCount)
    ensures Standing(cell, zero, q, nullBlock, done, m, m2, slotCount)
  {
    if done {
      FinishedKept(cell, p, q, nullBlock, WorkOf(q, zero, nullBlock, m, slotCount), m1, m2, slotCount);
    } else {
      WorkKept(p, q, zero, nullBlock, m1, m2, slotCount);
    }
  }

  lemma RestKept<S>(grid: seq<Program>, nullBlock: int, k: nat, m: Memory<S>, m1: Memory<S>, m2: Memory<S>,
                    slotCount: nat)
    requires GridOk(grid, nullBlock, m, slotCount) && k < |grid|
    requires RestSame(grid, nullBlock, m, m1, slotCount)
    requires ProgramOk(grid[k], m1, slotCount) && Confined(grid[k], nullBlock, m1, m2, slotCount)
    ensures RestSame(grid, nullBlock, m, m2, slotCount)
  {
    forall d, x | 0 <= d < |m.cache| && 0 <= x < slotCount && OutsideAll(grid, nullBlock, d, x)
      ensures m2.cache[d][x] == m.cache[d][x]
    {
      assert !Writes(grid[k], nullBlock, d, x);
    }
  }

  /** The launch, running the programs in the order `order`. */
  method Launch<S>(cell: Cell<S>, zero: S, grid: seq<Program>, nullBlock: int, order: seq<nat>,
                   delta: array<real>, z: array<real>, ssm: array2<S>)
    requires delta != z && GridOk(grid, nullBlock, MemoryOf(delta, z, ssm), ssm.Length0)
    requires forall k | 0 <= k < |grid| :: k in order
    requires forall i | 0 <= i < |order| :: order[i] < |grid|
    requires forall i, j | 0 <= i < j < |order| :: order[i] != order[j]
    modifies delta, z, ssm
    ensures Launched(cell, zero, grid, nullBlock, old(MemoryOf(delta, z, ssm)), MemoryOf(delta, z, ssm), ssm.Length0)
  {
    ghost var m := MemoryOf(delta, z, ssm);
    var i := 0;
    while i < |order|
      invariant 0 <= i <= |order|
      invariant Midway(cell, zero, grid, nullBlock, order[..i], m, MemoryOf(delta, z, ssm), ssm.Length0)
    {
      LaunchStep(cell, zero, grid, nullBlock, order[..i], order[i], delta, z, ssm, m);
      assert order[..i + 1] == order[..i] + [order[i]];
      i := i + 1;
    }
    assert order[..i] == order;
    AllDone(cell, zero, grid, nullBlock, order, m, MemoryOf(delta, z, ssm), ssm.Length0);
  }

  method LaunchStep<S>(cell: Cell<S>, zero: S, grid: seq<Program>, nullBlock: int, ghost done: seq<nat>, k: nat,
                       delta: array<real>, z: array<real>, ssm: array2<S>, ghost m: Memory<S>)
    requires delta != z && GridOk(grid, nullBlock, m, ssm.Length0) && k < |grid| && k !in done
    requires Midway(cell, zero, grid, nullBlock, done, m, MemoryOf(delta, z, ssm), ssm.Length0)
    modifies delta, z, ssm
    ensures Midway(cell, zero, grid, nullBlock, done + [k], m, MemoryOf(delta, z, ssm), ssm.Length0)
  {
    ghost var m1 := MemoryOf(delta, z, ssm);
    assert Standing(cell, zero, grid[k], nullBlock, k in done, m, m1, ssm.Length0);
    ScanProgram(cell, zero, grid[k], nullBlock, delta, z, ssm);
    OneMoreProgram(cell, zero, grid, nullBlock, done, k, m, m1, MemoryOf(delta, z, ssm), ssm.Length0);
  }

  lemma AllDone<S>(cell: Cell<S>, zero: S, grid: seq<Program>, nullBlock: int, done: seq<nat>, m: Memory<S>,
                   m': Memory<S>, slotCount: nat)
    requires GridOk(grid, nullBlock, m, slotCount) && Midway(cell, zero, grid, nullBlock, done, m, m', slotCount)
    requires forall k | 0 <= k < |grid| :: k in done
    ensures Launched(cell, zero, grid, nullBlock, m, m', slotCount)
  {
    forall k | 0 <= k < |grid|
      ensures ProgramOk(grid[k], m', slotCount)
              && Finished(cell, grid[k], nullBlock, WorkOf(grid[k], zero, nullBlock, m, slotCount), m', slotCount)
    {
      assert Standing(cell, zero, grid[k], nullBlock, k in done, m, m', slotCount);
    }
  }

  /** Whatever the order, the result is the same memory, cell by cell. */
  lemma LaunchIsDetermined<S>(cell: Cell<S>, zero: S, grid: seq<Program>, nullBlock: int, m: Memory<S>, m1: Memory<S>,
                              m2: Memory<S>, slotCount: nat)
    requires GridOk(grid, nullBlock, m, slotCount)
    requires Launched(cell, zero, grid, nullBlock, m, m1, slotCount)
             && Launched(cell, zero, grid, nullBlock, m, m2, slotCount)
    ensures m1 == m2
  {
    forall i | 0 <= i < |m.delta| ensures m1.delta[i] == m2.delta[i] {
      if k :| 0 <= k < |grid| && InRow(grid[k], i) {
        SameRow(cell, grid[k], nullBlock, WorkOf(grid[k], zero, nullBlock, m, slotCount), m1, m2, slotCount, i);
      }
    }
    forall i | 0 <= i < |m.z| ensures m1.z[i] == m2.z[i] {
      if k :| 0 <= k < |grid| && InGates(grid[k], i) {
        SameGates(cell, grid[k], nullBlock, WorkOf(grid[k], zero, nullBlock, m, slotCount), m1, m2, slotCount, i);
      }
    }
    forall d | 0 <= d < |m.cache| ensures m1.cache[d] == m2.cache[d] {
      forall x | 0 <= x < slotCount ensures m1.cache[d][x] == m2.cache[d][x] {
        if k :| 0 <= k < |grid| && Writes(grid[k], nullBlock, d, x) {
          SameState(cell, grid[k], nullBlock, WorkOf(grid[k], zero, nullBlock, m, slotCount), m1, m2, slotCount, x);
        } else {
          assert OutsideAll(grid, nullBlock, d, x);
        }
      }
    }
  }

  lemma SameRow<S>(cell: Cell<S>, p: Program, nullBlock: int, w: Work<S>, m1: Memory<S>, m2: Memory<S>, slotCount: nat,
                   i: int)
    requires ProgramOk(p, m1, slotCount) && ProgramOk(p, m2, slotCount) && Describes(p.row, w.toks, w.zs) && InRow(p, i)
    requires Finished(cell, p, nullBlock, w, m1, slotCount) && Finished(cell, p, nullBlock, w, m2, slotCount)
    ensures m1.delta[i] == m2.delta[i]
  {
    var n, j := |p.row.inputs|, i - p.row.base;
    var row1, row2 := m1.delta[p.row.base..p.row.base + n], m2.delta[p.row.base..p.row.base + n];
    assert row1[j] == m1.delta[i] && row2[j] == m2.delta[i];
    assert !Active(p, nullBlock) ==> row1[j] == w.toks[j].delta == row2[j];
  }

  lemma SameGates<S>(cell: Cell<S>, p: Program, nullBlock: int, w: Work<S>, m1: Memory<S>, m2: Memory<S>,
                     slotCount: nat, i: int)
    requires ProgramOk(p, m1, slotCount) && ProgramOk(p, m2, slotCount) && Describes(p.row, w.toks, w.zs)
             && InGates(p, i)
    requires Finished(cell, p, nullBlock, w, m1, slotCount) && Finished(cell, p, nullBlock, w, m2, slotCount)
    ensures m1.z[i] == m2.z[i]
  {
    var n, j := |p.row.inputs|, i - p.row.zbase;
    var row1, row2 := m1.z[p.row.zbase..p.row.zbase + n], m2.z[p.row.zbase..p.row.zbase + n];
    assert row1 == row2;
    assert row1[j] == m1.z[i] && row2[j] == m2.z[i];
  }

  lemma SameState<S>(cell: Cell<S>, p: Program, nullBlock: int, w: Work<S>, m1: Memory<S>, m2: Memory<S>,
                     slotCount: nat, x: nat)
    requires ProgramOk(p, m1, slotCount) && ProgramOk(p, m2, slotCount) && Describes(p.row, w.toks, w.zs)
    requires x < slotCount && x in Touched(p, nullBlock)
    requires Finished(cell, p, nullBlock, w, m1, slotCount) && Finished(cell, p, nullBlock, w, m2, slotCount)
    ensures m1.cache[p.dim][x] == m2.cache[p.dim][x]
  {
    assert StatesDone(cell, p, w, m1.cache[p.dim]) && StatesDone(cell, p, w, m2.cache[p.dim]);
  }
}

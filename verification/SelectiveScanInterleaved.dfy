/** A launch whose programs run at the same time: any program of the grid may take the next step, one
    token or one store at a time, over the shared in-place buffers. */
module SelectiveScanInterleaved {
  import opened ScanChunks
  import opened SelectiveScan
  import opened SelectiveScanLaunch

  /** Where one program stands: `done` tokens scanned, in chunk `chunk`, the state in registers. */
  datatype Thread<S> = Waiting | Scanning(state: S, done: nat, chunk: nat) | Exited

  datatype Machine<S> = Machine(threads: seq<Thread<S>>, m: Memory<S>)

  // ----- One step of one program

  ghost function ChunkTotal(p: Program): nat { if p.plan.Single? then 1 else |p.plan.lens| }

  /** How many tokens come before chunk `c`; without prefix caching the row is one chunk. */
  ghost function ChunkStart(p: Program, c: nat): int
    requires c <= ChunkTotal(p)
  {
    if p.plan.Cached? then Sum(p.plan.lens, c) else if c == 0 then 0 else |p.row.inputs|
  }

  ghost predicate Placed<S>(p: Program, t: Thread<S>) {
    t.Scanning? ==>
      t.chunk < ChunkTotal(p) && ChunkStart(p, t.chunk) <= t.done <= ChunkStart(p, t.chunk + 1) <= |p.row.inputs|
  }

  /** The block the kernel stores chunk `c` to: the last one, or the one its position lies in. */
  ghost function StoreBlock(plan: Plan, c: nat): int
    requires plan.Cached? && plan.block > 0 && c < |plan.lens|
  {
    var offset := if |plan.lens| > 1 && plan.lens[0] < plan.block then plan.block - plan.lens[0] else 0;
    var position := plan.blockFirst * plan.block + offset + Sum(plan.lens, c);
    if c == |plan.lens| - 1 then plan.blockLast else (position + plan.lens[c] - 1) / plan.block
  }

  lemma StoreBlockIs(plan: Plan, computed: nat, n: nat, slotCount: nat, c: nat)
    requires plan.Cached? && PlanOk(plan, computed, n, slotCount) && c < |plan.lens|
    ensures StoreBlock(plan, c) == plan.blockFirst + c <= plan.blockLast
  {
    if c < |plan.lens| - 1 {
      StartPosition(plan.lens, computed, n, plan.block);
      BlockDone(plan.lens, computed, n, plan.block, c);
    }
  }

  ghost function StoreSlot(p: Program, slotCount: nat, c: nat): (x: nat)
    requires PlanOk(p.plan, p.computed, |p.row.inputs|, slotCount) && c < ChunkTotal(p)
    ensures x < slotCount
  {
    if p.plan.Single? then p.plan.slot
    else
      StoreBlockIs(p.plan, p.computed, |p.row.inputs|, slotCount, c);
      p.plan.slots[StoreBlock(p.plan, c)]
  }

  ghost predicate CanMove<S>(p: Program, t: Thread<S>, m: Memory<S>, slotCount: nat) {
    ProgramOk(p, m, slotCount) && Placed(p, t) && !t.Exited?
  }

  /** The program is about to scan a token, not to store. */
  ghost predicate AtToken<S>(p: Program, t: Thread<S>)
    requires Placed(p, t)
  {
    t.Scanning? && t.done < ChunkStart(p, t.chunk + 1)
  }

  ghost function TokenAt<S>(p: Program, done: nat, m: Memory<S>): Token
    requires done < |p.row.inputs| && p.row.base + |p.row.inputs| <= |m.delta|
  {
    TokenOf(p.row.inputs[done], m.delta[p.row.base + done])
  }

  ghost function NextThread<S>(cell: Cell<S>, zero: S, p: Program, nullBlock: int, t: Thread<S>, m: Memory<S>,
                               slotCount: nat): Thread<S>
    requires CanMove(p, t, m, slotCount)
  {
    if t.Waiting? then
      if !Active(p, nullBlock) then Exited
      else Scanning(if p.hasInitial then m.cache[p.dim][LoadSlot(p.plan)] else zero, 0, 0)
    else if AtToken(p, t) then Scanning(cell.step(t.state, TokenAt(p, t.done, m)), t.done + 1, t.chunk)
    else if t.chunk + 1 == ChunkTotal(p) then Exited
    else Scanning(t.state, t.done, t.chunk + 1)
  }

  ghost function NextMemory<S>(cell: Cell<S>, p: Program, t: Thread<S>, m: Memory<S>, slotCount: nat): Memory<S>
    requires CanMove(p, t, m, slotCount)
  {
    if t.Waiting? then m
    else if AtToken(p, t) then
      var token := TokenAt(p, t.done, m);
      var out := cell.emit(cell.step(t.state, token), token);
      var zpos := p.row.zbase + t.done;
      Memory(m.delta[p.row.base + t.done := out],
             if p.row.hasZ then m.z[zpos := cell.gate(out, m.z[zpos])] else m.z, m.cache)
    else Memory(m.delta, m.z, m.cache[p.dim := m.cache[p.dim][StoreSlot(p, slotCount, t.chunk) := t.state]])
  }

  // ----- What a program has done so far

  /** The states of the chunks already stored. */
  ghost predicate StoredSoFar<S>(cell: Cell<S>, p: Program, w: Work<S>, c: nat, column: seq<S>)
    requires PlanOk(p.plan, p.computed, |w.toks|, |column|) && c <= ChunkTotal(p)
  {
    p.plan.Cached? ==>
      forall j | p.plan.blockFirst <= j < p.plan.blockFirst + c ::
        column[p.plan.slots[j]] == BlockState(cell, w.s, w.toks, p.computed, p.plan.block, j)
  }

  ghost predicate Midrow<S>(cell: Cell<S>, p: Program, w: Work<S>, done: nat, m: Memory<S>)
    requires Describes(p.row, w.toks, w.zs) && done <= |w.toks|
  {
    && RowAt(cell, w.s, w.toks, done, m.delta, p.row.base)
    && (p.row.hasZ ==> GateAt(cell, w.s, w.toks, w.zs, done, m.z, p.row.zbase))
  }

  /** `w` is what the program is to compute, from the memory before the launch. */
  ghost predicate ThreadOk<S>(cell: Cell<S>, zero: S, p: Program, nullBlock: int, w: Work<S>, t: Thread<S>,
                              m: Memory<S>, slotCount: nat)
    requires Describes(p.row, w.toks, w.zs)
  {
    && ProgramOk(p, m, slotCount) && Placed(p, t)
    && match t
       case Waiting => WorkOf(p, zero, nullBlock, m, slotCount) == w
       case Scanning(state, done, chunk) =>
         && Active(p, nullBlock) && state == Run(cell, w.s, w.toks, done)
         && Midrow(cell, p, w, done, m) && StoredSoFar(cell, p, w, chunk, m.cache[p.dim])
       case Exited => Finished(cell, p, nullBlock, w, m, slotCount)
  }

  // ----- A program's own step

  lemma ChunkSteps(p: Program, slotCount: nat, c: nat)
    requires PlanOk(p.plan, p.computed, |p.row.inputs|, slotCount) && c < ChunkTotal(p)
    ensures 0 <= ChunkStart(p, c) <= ChunkStart(p, c + 1) <= |p.row.inputs|
    ensures c + 1 == ChunkTotal(p) ==> ChunkStart(p, c + 1) == |p.row.inputs|
    ensures p.plan.Cached? ==>
              p.computed + ChunkStart(p, c + 1)
                == BlockEnd(p.computed, |p.row.inputs|, p.plan.block, p.plan.blockFirst + c)
  {
    if p.plan.Cached? { ChunkBounds(p.plan.lens, p.computed, |p.row.inputs|, p.plan.block, c); }
  }

  lemma StartsWell<S>(cell: Cell<S>, zero: S, p: Program, nullBlock: int, w: Work<S>, m: Memory<S>, slotCount: nat)
    requires Describes(p.row, w.toks, w.zs) && ThreadOk(cell, zero, p, nullBlock, w, Waiting, m, slotCount)
    ensures ThreadOk(cell, zero, p, nullBlock, w, NextThread(cell, zero, p, nullBlock, Waiting, m, slotCount), m,
                     slotCount)
  {
    if Active(p, nullBlock) {
      RowBefore(cell, p, zero, nullBlock, m, slotCount);
      ChunkSteps(p, slotCount, 0);
    }
  }

  lemma TokenStays<S>(cell: Cell<S>, zero: S, p: Program, nullBlock: int, w: Work<S>, t: Thread<S>, m: Memory<S>,
                      slotCount: nat)
    requires Describes(p.row, w.toks, w.zs) && ThreadOk(cell, zero, p, nullBlock, w, t, m, slotCount) && AtToken(p, t)
    ensures NextMemory(cell, p, t, m, slotCount).cache == m.cache
    ensures NextThread(cell, zero, p, nullBlock, t, m, slotCount)
            == Scanning(Run(cell, w.s, w.toks, t.done + 1), t.done + 1, t.chunk)
    ensures Midrow(cell, p, w, t.done + 1, NextMemory(cell, p, t, m, slotCount))
  {
    assert m.delta[p.row.base..][t.done] == m.delta[p.row.base + t.done];
    assert TokenAt(p, t.done, m) == w.toks[t.done];
    RowStep(cell, w.s, w.toks, t.done, m.delta, p.row.base);
    if p.row.hasZ {
      assert m.z[p.row.zbase..][t.done] == m.z[p.row.zbase + t.done];
      GateStep(cell, w.s, w.toks, w.zs, t.done, m.z, p.row.zbase);
    }
  }

  /** The state stored is the one the block is to have. */
  lemma StoresItsBlock<S>(cell: Cell<S>, p: Program, w: Work<S>, c: nat, column: seq<S>, state: S)
    requires PlanOk(p.plan, p.computed, |p.row.inputs|, |column|) && c < ChunkTotal(p) && Describes(p.row, w.toks, w.zs)
    requires 0 <= ChunkStart(p, c + 1) <= |w.toks| && state == Run(cell, w.s, w.toks, ChunkStart(p, c + 1))
    requires StoredSoFar(cell, p, w, c, column)
    ensures StoredSoFar(cell, p, w, c + 1, column[StoreSlot(p, |column|, c) := state])
    ensures p.plan.Single? ==>
              column[StoreSlot(p, |column|, c) := state][p.plan.slot] == Run(cell, w.s, w.toks, |w.toks|)
  {
    ChunkSteps(p, |column|, c);
    if p.plan.Cached? { StoreBlockIs(p.plan, p.computed, |p.row.inputs|, |column|, c); }
  }

  lemma StoreStays<S>(cell: Cell<S>, zero: S, p: Program, nullBlock: int, w: Work<S>, t: Thread<S>, m: Memory<S>,
                      slotCount: nat)
    requires Describes(p.row, w.toks, w.zs) && ThreadOk(cell, zero, p, nullBlock, w, t, m, slotCount)
    requires t.Scanning? && !AtToken(p, t)
    ensures ThreadOk(cell, zero, p, nullBlock, w, NextThread(cell, zero, p, nullBlock, t, m, slotCount),
                     NextMemory(cell, p, t, m, slotCount), slotCount)
  {
    var m' := NextMemory(cell, p, t, m, slotCount);
    ChunkSteps(p, slotCount, t.chunk);
    StoresItsBlock(cell, p, w, t.chunk, m.cache[p.dim], t.state);
    if t.chunk + 1 == ChunkTotal(p) {
      RowAfter(cell, p, w, m');
      assert StatesDone(cell, p, w, m'.cache[p.dim]);
    } else {
      ChunkSteps(p, slotCount, t.chunk + 1);
    }
  }

  lemma OwnStep<S>(cell: Cell<S>, zero: S, p: Program, nullBlock: int, w: Work<S>, t: Thread<S>, m: Memory<S>,
                   slotCount: nat)
    requires Describes(p.row, w.toks, w.zs) && ThreadOk(cell, zero, p, nullBlock, w, t, m, slotCount) && !t.Exited?
    ensures ThreadOk(cell, zero, p, nullBlock, w, NextThread(cell, zero, p, nullBlock, t, m, slotCount),
                     NextMemory(cell, p, t, m, slotCount), slotCount)
  {
    if t.Waiting? {
      StartsWell(cell, zero, p, nullBlock, w, m, slotCount);
    } else if AtToken(p, t) {
      TokenStays(cell, zero, p, nullBlock, w, t, m, slotCount);
    } else {
      StoreStays(cell, zero, p, nullBlock, w, t, m, slotCount);
    }
  }

  /** A step changes only the program's own rows and slots. */
  lemma StepConfined<S>(cell: Cell<S>, zero: S, p: Program, nullBlock: int, w: Work<S>, t: Thread<S>, m: Memory<S>,
                        slotCount: nat)
    requires Describes(p.row, w.toks, w.zs) && ThreadOk(cell, zero, p, nullBlock, w, t, m, slotCount) && !t.Exited?
    ensures Confined(p, nullBlock, m, NextMemory(cell, p, t, m, slotCount), slotCount)
  {
    if t.Scanning? && !AtToken(p, t) {
      if p.plan.Cached? { StoreBlockIs(p.plan, p.computed, |p.row.inputs|, slotCount, t.chunk); }
      assert Writes(p, nullBlock, p.dim, StoreSlot(p, slotCount, t.chunk));
    }
  }

  // ----- The steps of other programs

  lemma MidrowKept<S>(cell: Cell<S>, p: Program, q: Program, nullBlock: int, w: Work<S>, done: nat, m: Memory<S>,
                      m': Memory<S>, slotCount: nat)
    requires ProgramOk(p, m, slotCount) && ProgramOk(q, m, slotCount) && Apart(p, q, nullBlock)
    requires Confined(p, nullBlock, m, m', slotCount)
    requires Describes(q.row, w.toks, w.zs) && done <= |w.toks| && Midrow(cell, q, w, done, m)
    ensures Midrow(cell, q, w, done, m')
  {
    forall i | 0 <= i < |w.toks| ensures m'.delta[q.row.base..][i] == m.delta[q.row.base..][i] {
      assert InRow(q, q.row.base + i);
    }
    if q.row.hasZ {
      forall i | 0 <= i < |w.toks| ensures m'.z[q.row.zbase..][i] == m.z[q.row.zbase..][i] {
        assert InGates(q, q.row.zbase + i);
      }
    }
  }

  lemma StoredKept<S>(cell: Cell<S>, p: Program, q: Program, nullBlock: int, w: Work<S>, c: nat, m: Memory<S>,
                      m': Memory<S>, slotCount: nat)
    requires ProgramOk(p, m, slotCount) && ProgramOk(q, m, slotCount) && Apart(p, q, nullBlock) && Active(q, nullBlock)
    requires Confined(p, nullBlock, m, m', slotCount) && Describes(q.row, w.toks, w.zs)
    requires c <= ChunkTotal(q) && StoredSoFar(cell, q, w, c, m.cache[q.dim])
    ensures StoredSoFar(cell, q, w, c, m'.cache[q.dim])
  {
    forall x | x in Touched(q, nullBlock) ensures m'.cache[q.dim][x] == m.cache[q.dim][x] {
      assert !Writes(p, nullBlock, q.dim, x);
    }
  }

  lemma ThreadKept<S>(cell: Cell<S>, zero: S, p: Program, q: Program, nullBlock: int, w: Work<S>, t: Thread<S>,
                      m: Memory<S>, m': Memory<S>, slotCount: nat)
    requires Describes(q.row, w.toks, w.zs) && ThreadOk(cell, zero, q, nullBlock, w, t, m, slotCount)
    requires ProgramOk(p, m, slotCount) && Apart(p, q, nullBlock) && Confined(p, nullBlock, m, m', slotCount)
    ensures ThreadOk(cell, zero, q, nullBlock, w, t, m', slotCount)
  {
    match t
    case Waiting => WorkKept(p, q, zero, nullBlock, m, m', slotCount);
    case Exited => FinishedKept(cell, p, q, nullBlock, w, m, m', slotCount);
    case Scanning(state, done, chunk) =>
      MidrowKept(cell, p, q, nullBlock, w, done, m, m', slotCount);
      StoredKept(cell, p, q, nullBlock, w, chunk, m, m', slotCount);
  }

  // ----- Whole runs

  /** Program `k` takes the step from `a` to `b`. */
  ghost predicate StepBy<S>(cell: Cell<S>, zero: S, grid: seq<Program>, nullBlock: int, slotCount: nat, a: Machine<S>,
                            k: nat, b: Machine<S>) {
    && k < |grid| == |a.threads| && CanMove(grid[k], a.threads[k], a.m, slotCount)
    && b == Machine(a.threads[k := NextThread(cell, zero, grid[k], nullBlock, a.threads[k], a.m, slotCount)],
                    NextMemory(cell, grid[k], a.threads[k], a.m, slotCount))
  }

  /** A run from memory `m`, in which `who[i]` takes step `i`. */
  ghost predicate Interleaved<S>(cell: Cell<S>, zero: S, grid: seq<Program>, nullBlock: int, slotCount: nat,
                                 m: Memory<S>,
                                 who: seq<nat>, states: seq<Machine<S>>)
  {
    && |states| == |who| + 1 && states[0] == Machine(seq(|grid|, _ => Waiting), m)
    && forall i | 0 <= i < |who| :: StepBy(cell, zero, grid, nullBlock, slotCount, states[i], who[i], states[i + 1])
  }

  ghost predicate MachineOk<S>(cell: Cell<S>, zero: S, grid: seq<Program>, nullBlock: int, slotCount: nat, m: Memory<S>,
                               a: Machine<S>)
    requires GridOk(grid, nullBlock, m, slotCount)
  {
    && |a.threads| == |grid| && RestSame(grid, nullBlock, m, a.m, slotCount)
    && forall k | 0 <= k < |grid| ::
         ThreadOk(cell, zero, grid[k], nullBlock, WorkOf(grid[k], zero, nullBlock, m, slotCount), a.threads[k], a.m,
                  slotCount)
  }

  lemma StepKeeps<S>(cell: Cell<S>, zero: S, grid: seq<Program>, nullBlock: int, slotCount: nat, m: Memory<S>,
                     a: Machine<S>, k: nat, b: Machine<S>)
    requires GridOk(grid, nullBlock, m, slotCount) && MachineOk(cell, zero, grid, nullBlock, slotCount, m, a)
    requires StepBy(cell, zero, grid, nullBlock, slotCount, a, k, b)
    ensures MachineOk(cell, zero, grid, nullBlock, slotCount, m, b)
  {
    var p, t := grid[k], a.threads[k];
    var w := WorkOf(p, zero, nullBlock, m, slotCount);
    assert ThreadOk(cell, zero, p, nullBlock, w, t, a.m, slotCount);
    OwnStep(cell, zero, p, nullBlock, w, t, a.m, slotCount);
    StepConfined(cell, zero, p, nullBlock, w, t, a.m, slotCount);
    forall j | 0 <= j < |grid|
      ensures ThreadOk(cell, zero, grid[j], nullBlock, WorkOf(grid[j], zero, nullBlock, m, slotCount), b.threads[j],
                       b.m, slotCount)
    {
      if j != k {
        ThreadKept(cell, zero, p, grid[j], nullBlock, WorkOf(grid[j], zero, nullBlock, m, slotCount), a.threads[j], a.m,
                   b.m, slotCount);
      }
    }
    RestKept(grid, nullBlock, k, m, a.m, b.m, slotCount);
  }

  lemma {:induction false} RunKeeps<S>(cell: Cell<S>, zero: S, grid: seq<Program>, nullBlock: int, slotCount: nat,
                                       m: Memory<S>,
                                       who: seq<nat>, states: seq<Machine<S>>, i: nat)
    requires GridOk(grid, nullBlock, m, slotCount)
             && Interleaved(cell, zero, grid, nullBlock, slotCount, m, who, states)
    requires i <= |who|
    ensures MachineOk(cell, zero, grid, nullBlock, slotCount, m, states[i])
  {
    if i > 0 {
      RunKeeps(cell, zero, grid, nullBlock, slotCount, m, who, states, i - 1);
      assert StepBy(cell, zero, grid, nullBlock, slotCount, states[i - 1], who[i - 1], states[i]);
      StepKeeps(cell, zero, grid, nullBlock, slotCount, m, states[i - 1], who[i - 1], states[i]);
    }
  }

  ghost predicate AllExited<S>(a: Machine<S>) { forall k | 0 <= k < |a.threads| :: a.threads[k].Exited? }

  /** However the steps of the programs interleave, once all have exited the memory is the one that the
      plain recurrence over every row gives, and so the one any order of whole programs gives. */
  lemma AnyInterleaving<S>(cell: Cell<S>, zero: S, grid: seq<Program>, nullBlock: int, slotCount: nat, m: Memory<S>,
                           who: seq<nat>, states: seq<Machine<S>>)
    requires GridOk(grid, nullBlock, m, slotCount)
             && Interleaved(cell, zero, grid, nullBlock, slotCount, m, who, states)
    requires AllExited(states[|who|])
    ensures Launched(cell, zero, grid, nullBlock, m, states[|who|].m, slotCount)
    ensures forall m' | Launched(cell, zero, grid, nullBlock, m, m', slotCount) :: m' == states[|who|].m
  {
    RunKeeps(cell, zero, grid, nullBlock, slotCount, m, who, states, |who|);
    var last := states[|who|];
    forall k | 0 <= k < |grid|
      ensures ProgramOk(grid[k], last.m, slotCount)
              && Finished(cell, grid[k], nullBlock, WorkOf(grid[k], zero, nullBlock, m, slotCount), last.m, slotCount)
    {
      assert ThreadOk(cell, zero, grid[k], nullBlock, WorkOf(grid[k], zero, nullBlock, m, slotCount), last.threads[k],
                      last.m, slotCount);
    }
    forall m' | Launched(cell, zero, grid, nullBlock, m, m', slotCount) ensures m' == last.m {
      LaunchIsDetermined(cell, zero, grid, nullBlock, m, m', last.m, slotCount);
    }
  }

  // ----- How long a run is

  /** The steps a program still has to take: its load, one per token, one store per chunk. */
  ghost function StepsLeft<S>(p: Program, nullBlock: int, t: Thread<S>): nat
    requires Placed(p, t) && (p.plan.Cached? ==> p.plan.initial < |p.plan.slots|)
  {
    match t
    case Waiting => if Active(p, nullBlock) then 1 + |p.row.inputs| + ChunkTotal(p) else 1
    case Scanning(_, done, chunk) => |p.row.inputs| - done + ChunkTotal(p) - chunk
    case Exited => 0
  }

  lemma OneStepLess<S>(cell: Cell<S>, zero: S, p: Program, nullBlock: int, t: Thread<S>, m: Memory<S>, slotCount: nat)
    requires CanMove(p, t, m, slotCount)
    ensures var t' := NextThread(cell, zero, p, nullBlock, t, m, slotCount);
            Placed(p, t') && StepsLeft(p, nullBlock, t) == StepsLeft(p, nullBlock, t') + 1
  {
    match t
    case Waiting => if Active(p, nullBlock) { ChunkSteps(p, slotCount, 0); }
    case Scanning(_, _, chunk) =>
      ChunkSteps(p, slotCount, chunk);
      if chunk + 1 < ChunkTotal(p) { ChunkSteps(p, slotCount, chunk + 1); }
  }

  ghost predicate AllPlaced<S>(grid: seq<Program>, a: Machine<S>) {
    && |a.threads| == |grid|
    && forall k | 0 <= k < |grid| ::
         Placed(grid[k], a.threads[k]) && (grid[k].plan.Cached? ==> grid[k].plan.initial < |grid[k].plan.slots|)
  }

  ghost function AllStepsLeft<S>(grid: seq<Program>, nullBlock: int, a: Machine<S>, n: nat): nat
    requires n <= |grid| && AllPlaced(grid, a)
  {
    if n == 0 then 0
    else AllStepsLeft(grid, nullBlock, a, n - 1) + StepsLeft(grid[n - 1], nullBlock, a.threads[n - 1])
  }

  lemma {:induction false} LeftAfterStep<S>(grid: seq<Program>, nullBlock: int, a: Machine<S>, b: Machine<S>, k: nat,
                                            n: nat)
    requires AllPlaced(grid, a) && AllPlaced(grid, b) && k < |grid| && n <= |grid|
    requires forall j | 0 <= j < |grid| && j != k :: b.threads[j] == a.threads[j]
    requires StepsLeft(grid[k], nullBlock, a.threads[k]) == StepsLeft(grid[k], nullBlock, b.threads[k]) + 1
    ensures AllStepsLeft(grid, nullBlock, a, n) == AllStepsLeft(grid, nullBlock, b, n) + if k < n then 1 else 0
  {
    if n > 0 { LeftAfterStep(grid, nullBlock, a, b, k, n - 1); }
  }

  lemma {:induction false} NoneLeft<S>(grid: seq<Program>, nullBlock: int, a: Machine<S>, n: nat)
    requires n <= |grid| && AllPlaced(grid, a)
    ensures AllStepsLeft(grid, nullBlock, a, n) == 0 <==> forall k | 0 <= k < n :: a.threads[k].Exited?
  {
    if n > 0 { NoneLeft(grid, nullBlock, a, n - 1); }
  }

  /** Every run uses up its steps one by one, so it cannot go on for ever, ... */
  lemma {:induction false} StepsUsed<S>(cell: Cell<S>, zero: S, grid: seq<Program>, nullBlock: int, slotCount: nat,
                                        m: Memory<S>,
                                        who: seq<nat>, states: seq<Machine<S>>, i: nat)
    requires GridOk(grid, nullBlock, m, slotCount)
             && Interleaved(cell, zero, grid, nullBlock, slotCount, m, who, states)
    requires i <= |who|
    ensures AllPlaced(grid, states[0]) && AllPlaced(grid, states[i])
    ensures AllStepsLeft(grid, nullBlock, states[0], |grid|) == i + AllStepsLeft(grid, nullBlock, states[i], |grid|)
  {
    if i > 0 {
      StepsUsed(cell, zero, grid, nullBlock, slotCount, m, who, states, i - 1);
      OneStepUsed(cell, zero, grid, nullBlock, slotCount, states[i - 1], who[i - 1], states[i]);
    }
  }

  lemma OneStepUsed<S>(cell: Cell<S>, zero: S, grid: seq<Program>, nullBlock: int, slotCount: nat,
                       a: Machine<S>, k: nat, b: Machine<S>)
    requires AllPlaced(grid, a) && StepBy(cell, zero, grid, nullBlock, slotCount, a, k, b)
    ensures AllPlaced(grid, b)
    ensures AllStepsLeft(grid, nullBlock, a, |grid|) == AllStepsLeft(grid, nullBlock, b, |grid|) + 1
  {
    OneStepLess(cell, zero, grid[k], nullBlock, a.threads[k], a.m, slotCount);
    LeftAfterStep(grid, nullBlock, a, b, k, |grid|);
  }

  /** ... some program can always go on until all have exited, and all have exited exactly when the run
      has as many steps as the grid has work. */
  lemma EveryRunEnds<S>(cell: Cell<S>, zero: S, grid: seq<Program>, nullBlock: int, slotCount: nat, m: Memory<S>,
                        who: seq<nat>, states: seq<Machine<S>>)
    requires GridOk(grid, nullBlock, m, slotCount)
             && Interleaved(cell, zero, grid, nullBlock, slotCount, m, who, states)
    ensures AllPlaced(grid, states[0]) && |who| <= AllStepsLeft(grid, nullBlock, states[0], |grid|)
    ensures AllExited(states[|who|]) <==> |who| == AllStepsLeft(grid, nullBlock, states[0], |grid|)
    ensures !AllExited(states[|who|]) ==>
              exists k, b :: StepBy(cell, zero, grid, nullBlock, slotCount, states[|who|], k, b)
  {
    var last := states[|who|];
    StepsUsed(cell, zero, grid, nullBlock, slotCount, m, who, states, |who|);
    NoneLeft(grid, nullBlock, last, |grid|);
    if !AllExited(last) {
      var k :| 0 <= k < |last.threads| && !last.threads[k].Exited?;
      RunKeeps(cell, zero, grid, nullBlock, slotCount, m, who, states, |who|);
      CanGoOn(cell, zero, grid, nullBlock, slotCount, m, last, k);
    }
  }

  lemma CanGoOn<S>(cell: Cell<S>, zero: S, grid: seq<Program>, nullBlock: int, slotCount: nat, m: Memory<S>,
                   a: Machine<S>, k: nat)
    requires GridOk(grid, nullBlock, m, slotCount) && MachineOk(cell, zero, grid, nullBlock, slotCount, m, a)
    requires k < |grid| && !a.threads[k].Exited?
    ensures exists b :: StepBy(cell, zero, grid, nullBlock, slotCount, a, k, b)
  {
    var t := a.threads[k];
    assert ThreadOk(cell, zero, grid[k], nullBlock, WorkOf(grid[k], zero, nullBlock, m, slotCount), t, a.m, slotCount);
    var b := Machine(a.threads[k := NextThread(cell, zero, grid[k], nullBlock, t, a.m, slotCount)],
                     NextMemory(cell, grid[k], t, a.m, slotCount));
    assert StepBy(cell, zero, grid, nullBlock, slotCount, a, k, b);
  }
}

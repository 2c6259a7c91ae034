/** The device driver as the ROCm allocator sees it, the allocator's table of live allocations, and
    what every run of malloc, sleep, wake and free keeps, with other code using the driver between. */
module CumemWorld {
  import opened CumemChunks
  import opened Prelude

  type Addr = nat
  type Handle = nat

  datatype Mapping = Mapping(size: nat, handle: Handle)

  /** Reserved ranges by base address, live physical handles, and mapped ranges by start address. */
  datatype Driver = Driver(reserved: map<Addr, nat>, handles: map<Handle, nat>, mapped: map<Addr, Mapping>)

  predicate Apart(a: Addr, m: nat, b: Addr, n: nat) {
    a + m <= b || b + n <= a
  }

  ghost predicate Inside(d: Driver, a: Addr, n: nat) {
    exists p :: p in d.reserved && p <= a && a + n <= p + d.reserved[p]
  }

  predicate NothingMapped(d: Driver, p: Addr, n: nat) {
    forall a | a in d.mapped :: Apart(a, d.mapped[a].size, p, n)
  }

  predicate NothingReserved(d: Driver, p: Addr, n: nat) {
    forall q | q in d.reserved :: Apart(q, d.reserved[q], p, n)
  }

  /** What the driver itself guarantees: reservations are apart, and mappings lie inside them. */
  ghost predicate DriverOk(d: Driver) {
    && (forall p | p in d.reserved :: d.reserved[p] > 0)
    && (forall p, q | p in d.reserved && q in d.reserved && p != q :: Apart(p, d.reserved[p], q, d.reserved[q]))
    && (forall a | a in d.mapped :: d.mapped[a].size > 0 && Inside(d, a, d.mapped[a].size))
  }

  /** The mappings of the first `n` chunks of an allocation at `p`. */
  function ChunkMap(p: Addr, sizes: seq<nat>, hs: seq<Handle>, n: nat): map<Addr, Mapping>
    requires n <= |sizes| == |hs|
  {
    if n == 0 then map[]
    else ChunkMap(p, sizes, hs, n - 1)[p + Offset(sizes, n - 1) := Mapping(sizes[n - 1], hs[n - 1])]
  }

  /** The handles of the first `n` chunks, with their sizes. */
  function HandleMap(sizes: seq<nat>, hs: seq<Handle>, n: nat): map<Handle, nat>
    requires n <= |sizes| == |hs|
  {
    if n == 0 then map[] else HandleMap(sizes, hs, n - 1)[hs[n - 1] := sizes[n - 1]]
  }

  lemma {:induction false} ChunkMapRange(p: Addr, sizes: seq<nat>, hs: seq<Handle>, n: nat)
    requires n <= |sizes| == |hs| && Positive(sizes)
    ensures forall a | a in ChunkMap(p, sizes, hs, n) ::
              var m := ChunkMap(p, sizes, hs, n)[a];
              m.size > 0 && p <= a && a + m.size <= p + Offset(sizes, n)
  {
    if n > 0 { ChunkMapRange(p, sizes, hs, n - 1); }
  }

  lemma {:induction false} ChunkMapAt(p: Addr, sizes: seq<nat>, hs: seq<Handle>, n: nat, i: nat)
    requires i < n <= |sizes| == |hs| && Positive(sizes)
    ensures var a := p + Offset(sizes, i);
            a in ChunkMap(p, sizes, hs, n) && ChunkMap(p, sizes, hs, n)[a] == Mapping(sizes[i], hs[i])
  {
    if i < n - 1 {
      ChunkMapAt(p, sizes, hs, n - 1, i);
      OffsetsGrow(sizes, i, n - 1);
    }
  }

  lemma {:induction false} HandleMapKeys(sizes: seq<nat>, hs: seq<Handle>, n: nat)
    requires n <= |sizes| == |hs|
    ensures forall h :: h in HandleMap(sizes, hs, n) <==> h in hs[..n]
  {
    if n > 0 {
      HandleMapKeys(sizes, hs, n - 1);
      assert hs[..n] == hs[..n - 1] + [hs[n - 1]];
    }
  }

  lemma {:induction false} HandleMapAt(sizes: seq<nat>, hs: seq<Handle>, n: nat, i: nat)
    requires i < n <= |sizes| == |hs| && Distinct(hs)
    ensures hs[i] in HandleMap(sizes, hs, n) && HandleMap(sizes, hs, n)[hs[i]] == sizes[i]
  {
    if i < n - 1 { HandleMapAt(sizes, hs, n - 1, i); }
  }

  // ----- Allocations

  /** What may be relied on about an allocation.  Awake: its range is mapped through its handles, which its
      cells hold.  Asleep: its range is held, and its cells hold handles that are gone.  Orphaned: still
      mapped through its handles, but its cells were overwritten.  Broken: nothing is promised; `given` says
      whether the caller holds its address, and `asleep` what the Python side takes it for. */
  datatype Status =
    | Awake
    | Asleep(cells: seq<Handle>)
    | Orphaned(cells: seq<Handle>)
    | Broken(given: bool, asleep: bool, cells: seq<Handle>)

  datatype Entry = Entry(size: nat, sizes: seq<nat>, handles: seq<Handle>, status: Status)

  datatype World = World(d: Driver, table: map<Addr, Entry>)

  predicate Up(s: Status) { s.Awake? || s.Orphaned? }

  /** What the handle cells hold that the C code reads and writes. */
  function Cells(e: Entry): seq<Handle> { if e.status.Awake? then e.handles else e.status.cells }

  ghost predicate WellCut(e: Entry) {
    && e.size > 0 && Positive(e.sizes) && Total(e.sizes) == e.size && |Cells(e)| == |e.sizes|
    && (Up(e.status) ==> |e.handles| == |e.sizes| && Distinct(e.handles))
    && (e.status.Asleep? ==> e.handles == [])
  }

  function Chunks(p: Addr, e: Entry): map<Addr, Mapping>
    requires |e.handles| == |e.sizes|
  {
    ChunkMap(p, e.sizes, e.handles, |e.sizes|)
  }

  /** In the range of `size` bytes at `p`, exactly the mappings `cm` exist. */
  ghost predicate MapsExactly(mapped: map<Addr, Mapping>, p: Addr, size: nat, cm: map<Addr, Mapping>) {
    && (forall a | p <= a < p + size :: a in mapped <==> a in cm)
    && (forall a | p <= a < p + size && a in mapped :: mapped[a] == cm[a])
  }

  /** An awake allocation holds its range and maps exactly its chunks in it, with live handles;
      an asleep one holds the same range with nothing mapped in it. */
  ghost predicate EntryOk(d: Driver, p: Addr, e: Entry) {
    && WellCut(e)
    && (!e.status.Broken? ==> p in d.reserved && d.reserved[p] == e.size)
    && (Up(e.status) ==>
          && (forall i | 0 <= i < |e.sizes| :: e.handles[i] in d.handles && d.handles[e.handles[i]] == e.sizes[i])
          && MapsExactly(d.mapped, p, e.size, Chunks(p, e)))
    && (e.status.Asleep? ==> forall a | p <= a < p + e.size :: a !in d.mapped)
  }

  ghost predicate HandlesApart(table: map<Addr, Entry>) {
    forall p, q, h | p in table && q in table && p != q && Up(table[p].status) && Up(table[q].status)
                     && h in table[p].handles ::
      h !in table[q].handles
  }

  ghost predicate Inv(w: World) {
    DriverOk(w.d) && HandlesApart(w.table) && forall p | p in w.table :: EntryOk(w.d, p, w.table[p])
  }

  /** The part of the driver state that entry `e` at `p` relies on is the same in `d'`. */
  predicate Keeps(d: Driver, d': Driver, p: Addr, e: Entry) {
    e.status.Broken? ||
      (&& (p in d.reserved ==> p in d'.reserved && d'.reserved[p] == d.reserved[p])
       && (forall h | h in e.handles && h in d.handles :: h in d'.handles && d'.handles[h] == d.handles[h])
       && (forall a | p <= a < p + e.size :: a in d.mapped <==> a in d'.mapped)
       && (forall a | p <= a < p + e.size && a in d.mapped :: a in d'.mapped && d'.mapped[a] == d.mapped[a]))
  }

  ghost predicate KeepsAllBut(w: World, d': Driver, p: Addr) {
    DriverOk(d') && forall q | q in w.table && q != p :: Keeps(w.d, d', q, w.table[q])
  }

  ghost predicate FreshHandles(d: Driver, hs: seq<Handle>) {
    Distinct(hs) && forall h | h in hs :: h !in d.handles
  }

  // ----- What the operations do

  datatype Label =
    | Others                              // other code reserves, maps, creates and frees what is its own
    | Malloc(p: Addr, e: Entry)
    | Sleep(p: Addr)
    | Wake(p: Addr, hs: seq<Handle>)
    | Free(p: Addr)
    | Fails(p: Addr, listed: bool)        // an operation on `p` reported failure
    | Leaks                               // an operation reported failure and left at most new things behind
    | Overwrites(p: Addr, cells: seq<Handle>)  // likewise, and overwrote the cells of `p`
    | Strikes(p: Addr, listed: bool)      // an operation on `p` went by cells or a range that may be others' by now

  ghost predicate MallocStep(w: World, w': World, p: Addr, e: Entry) {
    && e.status.Awake? && WellCut(e) && FreshHandles(w.d, e.handles)
    && (p in w.table ==> w.table[p].status.Broken?)
    && NothingReserved(w.d, p, e.size) && NothingMapped(w.d, p, e.size)
    && w' == World(Driver(w.d.reserved[p := e.size],
                          w.d.handles + HandleMap(e.sizes, e.handles, |e.sizes|),
                          w.d.mapped + Chunks(p, e)),
                   w.table[p := e])
  }

  ghost predicate SleepStep(w: World, w': World, p: Addr) {
    && p in w.table && w.table[p].status.Awake? && |w.table[p].handles| == |w.table[p].sizes|
    && var e := w.table[p];
       w' == World(Driver(w.d.reserved, w.d.handles - (set h | h in e.handles), w.d.mapped - Chunks(p, e).Keys),
                   w.table[p := e.(handles := [], status := Asleep(e.handles))])
  }

  ghost predicate WakeStep(w: World, w': World, p: Addr, hs: seq<Handle>) {
    && p in w.table && w.table[p].status.Asleep? && |hs| == |w.table[p].sizes| && FreshHandles(w.d, hs)
    && var e := w.table[p].(handles := hs, status := Awake);
       w' == World(Driver(w.d.reserved, w.d.handles + HandleMap(e.sizes, hs, |hs|), w.d.mapped + Chunks(p, e)),
                   w.table[p := e])
  }

  ghost predicate FreeStep(w: World, w': World, p: Addr) {
    && p in w.table && (w.table[p].status.Awake? || w.table[p].status.Asleep?)
    && var e := w.table[p];
       (e.status.Awake? ==> |e.handles| == |e.sizes|) &&
       w' == if e.status.Awake?
             then World(Driver(w.d.reserved - {p}, w.d.handles - (set h | h in e.handles),
                               w.d.mapped - Chunks(p, e).Keys),
                        w.table - {p})
             else World(Driver(w.d.reserved - {p}, w.d.handles, w.d.mapped), w.table - {p})
  }

  /** A failed operation may leave its own allocation in any state, but no other. */
  ghost predicate FailStep(w: World, w': World, p: Addr, listed: bool) {
    && KeepsAllBut(w, w'.d, p)
    && (p in w'.table ==> w'.table[p].status.Broken? && WellCut(w'.table[p]))
    && w'.table == (if listed && p in w'.table then w.table[p := w'.table[p]] else w.table - {p})
  }

  /** No allocation in the table is disturbed. */
  ghost predicate Undisturbed(w: World, w': World) {
    w'.table == w.table && DriverOk(w'.d) && forall p | p in w.table :: Keeps(w.d, w'.d, p, w.table[p])
  }

  /** Reservations and handles may be new, but nothing is gone and nothing is mapped. */
  ghost predicate OnlyAdds(d: Driver, d': Driver) {
    && d'.mapped == d.mapped
    && (forall q | q in d.reserved :: q in d'.reserved && d'.reserved[q] == d.reserved[q])
    && (forall h | h in d.handles :: h in d'.handles && d'.handles[h] == d.handles[h])
  }

  /** The entry with other contents in its cells. */
  function Rewritten(e: Entry, cells: seq<Handle>): Entry {
    e.(status := match e.status
                 case Awake => if cells == e.handles then Awake else Orphaned(cells)
                 case Asleep(_) => Asleep(cells)
                 case Orphaned(_) => if cells == e.handles then Awake else Orphaned(cells)
                 case Broken(given, asleep, _) => Broken(given, asleep, cells))
  }

  ghost predicate OverwriteStep(w: World, w': World, p: Addr, cells: seq<Handle>) {
    && p in w.table && !w.table[p].status.Broken? && |cells| == |w.table[p].sizes|
    && w'.table == w.table[p := Rewritten(w.table[p], cells)]
    && DriverOk(w'.d) && OnlyAdds(w.d, w'.d) && forall q | q in w.table :: Keeps(w.d, w'.d, q, w.table[q])
  }

  /** An allocation that lost something it relied on, through no call of its own. */
  function Struck(e: Entry): Entry { e.(status := Broken(true, e.status.Asleep?, Cells(e))) }

  /** The table after the driver went from `d` to `d'` in an operation on `p`: whoever lost something is struck. */
  function AfterStrike(table: map<Addr, Entry>, d: Driver, d': Driver, p: Addr): map<Addr, Entry> {
    map q | q in table :: if q == p || Keeps(d, d', q, table[q]) then table[q] else Struck(table[q])
  }

  ghost predicate StrikeStep(w: World, w': World, p: Addr, listed: bool) {
    && DriverOk(w'.d) && p in w.table
    && (listed ==> p in w'.table && !Up(w'.table[p].status) && EntryOk(w'.d, p, w'.table[p]))
    && w'.table == if listed then AfterStrike(w.table, w.d, w'.d, p)[p := w'.table[p]]
                   else AfterStrike(w.table, w.d, w'.d, p) - {p}
  }

  ghost predicate Step(l: Label, w: World, w': World) {
    match l
    case Others => Undisturbed(w, w')
    case Malloc(p, e) => MallocStep(w, w', p, e)
    case Sleep(p) => SleepStep(w, w', p)
    case Wake(p, hs) => WakeStep(w, w', p, hs)
    case Free(p) => FreeStep(w, w', p)
    case Fails(p, listed) => FailStep(w, w', p, listed)
    case Leaks => Undisturbed(w, w') && OnlyAdds(w.d, w'.d)
    case Overwrites(p, cells) => OverwriteStep(w, w', p, cells)
    case Strikes(p, listed) => StrikeStep(w, w', p, listed)
  }

  // ----- Every step keeps the invariant

  lemma KeptEntryOk(d: Driver, d': Driver, p: Addr, e: Entry)
    requires EntryOk(d, p, e) && Keeps(d, d', p, e)
    ensures EntryOk(d', p, e)
  {
  }

  /** Chunks of one allocation are out of reach of every other. */
  lemma OthersOutOfReach(w: World, p: Addr, e: Entry, q: Addr)
    requires Inv(w) && q in w.table && q != p && !w.table[q].status.Broken?
    requires WellCut(e) && |e.handles| == |e.sizes|
    requires (p in w.d.reserved && w.d.reserved[p] == e.size) || NothingReserved(w.d, p, e.size)
    ensures Apart(p, e.size, q, w.table[q].size)
    ensures forall a | q <= a < q + w.table[q].size :: a !in Chunks(p, e)
  {
    assert EntryOk(w.d, q, w.table[q]);
    ChunkMapRange(p, e.sizes, e.handles, |e.sizes|);
  }

  lemma MallocKeepsInv(w: World, w': World, p: Addr, e: Entry)
    requires Inv(w) && MallocStep(w, w', p, e)
    ensures Inv(w')
  {
    CreatedHandles(w.d, w'.d, e);
    FilledIsSound(w.d, w'.d, p, e);
    forall a | p <= a < p + e.size ensures a !in w.d.mapped { }
    FilledIsOk(w.d, w'.d, p, e);
    forall q | q in w'.table && q != p ensures EntryOk(w'.d, q, w'.table[q]) {
      assert EntryOk(w.d, q, w.table[q]);
      if !w.table[q].status.Broken? {
        OthersOutOfReach(w, p, e, q);
        KeptEntryOk(w.d, w'.d, q, w.table[q]);
      }
    }
    NewHandlesApart(w, p, e);
  }

  /** Creating an entry's fresh handles adds exactly those. */
  lemma CreatedHandles(d: Driver, d': Driver, e: Entry)
    requires |e.handles| == |e.sizes| && FreshHandles(d, e.handles)
    requires d'.handles == d.handles + HandleMap(e.sizes, e.handles, |e.sizes|)
    ensures forall i | 0 <= i < |e.sizes| :: e.handles[i] in d'.handles && d'.handles[e.handles[i]] == e.sizes[i]
    ensures forall h :: h in d.handles <==> h in d'.handles && h !in e.handles
    ensures forall h | h in d.handles :: d'.handles[h] == d.handles[h]
  {
    var n := |e.sizes|;
    HandleMapKeys(e.sizes, e.handles, n);
    assert e.handles[..n] == e.handles;
    forall i | 0 <= i < n ensures e.handles[i] in d'.handles && d'.handles[e.handles[i]] == e.sizes[i] {
      HandleMapAt(e.sizes, e.handles, n, i);
    }
  }

  lemma NewHandlesApart(w: World, p: Addr, e: Entry)
    requires Inv(w) && e.status.Awake? && FreshHandles(w.d, e.handles)
    ensures HandlesApart(w.table[p := e])
  {
    forall q, h | q in w.table && q != p && Up(w.table[q].status) && h in w.table[q].handles
      ensures h !in e.handles
    {
      assert EntryOk(w.d, q, w.table[q]);
    }
  }

  /** Filling a reserved range with chunks keeps the driver sound. */
  lemma FilledIsSound(d: Driver, d': Driver, p: Addr, e: Entry)
    requires DriverOk(d) && WellCut(e) && e.status.Awake?
    requires d'.mapped == d.mapped + Chunks(p, e)
    requires (d'.reserved == d.reserved[p := e.size] && NothingReserved(d, p, e.size))
             || (d'.reserved == d.reserved && p in d.reserved && d.reserved[p] == e.size)
    ensures DriverOk(d')
  {
    ChunkMapRange(p, e.sizes, e.handles, |e.sizes|);
    forall a | a in d'.mapped ensures d'.mapped[a].size > 0 && Inside(d', a, d'.mapped[a].size) {
      if a in Chunks(p, e) {
        assert p in d'.reserved && p <= a && a + d'.mapped[a].size <= p + d'.reserved[p];
      } else {
        StaysInside(d, d', a, d.mapped[a].size);
      }
    }
  }

  lemma StaysInside(d: Driver, d': Driver, a: Addr, n: nat)
    requires Inside(d, a, n) && forall q | q in d.reserved :: q in d'.reserved && d'.reserved[q] >= d.reserved[q]
    ensures Inside(d', a, n)
  {
    var q :| q in d.reserved && q <= a && a + n <= q + d.reserved[q];
    assert q in d'.reserved && q <= a && a + n <= q + d'.reserved[q];
  }

  lemma FilledIsOk(d: Driver, d': Driver, p: Addr, e: Entry)
    requires WellCut(e) && e.status.Awake? && p in d'.reserved && d'.reserved[p] == e.size
    requires d'.mapped == d.mapped + Chunks(p, e) && (forall a | p <= a < p + e.size :: a !in d.mapped)
    requires forall i | 0 <= i < |e.sizes| :: e.handles[i] in d'.handles && d'.handles[e.handles[i]] == e.sizes[i]
    ensures EntryOk(d', p, e)
  {
  }

  lemma SleptIsSound(w: World, w': World, p: Addr)
    requires Inv(w) && SleepStep(w, w', p)
    ensures DriverOk(w'.d)
  {
    forall a | a in w'.d.mapped ensures Inside(w'.d, a, w'.d.mapped[a].size) {
      var q :| q in w.d.reserved && q <= a && a + w.d.mapped[a].size <= q + w.d.reserved[q];
      assert q in w'.d.reserved && q <= a && a + w'.d.mapped[a].size <= q + w'.d.reserved[q];
    }
  }

  lemma SleepKeepsInv(w: World, w': World, p: Addr)
    requires Inv(w) && SleepStep(w, w', p)
    ensures Inv(w')
  {
    var e := w.table[p];
    assert EntryOk(w.d, p, e);
    SleptIsSound(w, w', p);
    FewerUp(w.table, w'.table);
    forall q | q in w'.table ensures EntryOk(w'.d, q, w'.table[q]) {
      assert EntryOk(w.d, q, w.table[q]);
      if q != p && !w.table[q].status.Broken? {
        OthersOutOfReach(w, p, e, q);
        OtherHandlesSurvive(w, p, q);
        KeptEntryOk(w.d, w'.d, q, w.table[q]);
      }
    }
  }

  lemma OtherHandlesSurvive(w: World, p: Addr, q: Addr)
    requires Inv(w) && p in w.table && q in w.table && q != p && Up(w.table[p].status)
    ensures Up(w.table[q].status) ==> forall h | h in w.table[q].handles :: h !in w.table[p].handles
  {
  }

  lemma WakeKeepsInv(w: World, w': World, p: Addr, hs: seq<Handle>)
    requires Inv(w) && WakeStep(w, w', p, hs)
    ensures Inv(w')
  {
    var e := w'.table[p];
    assert EntryOk(w.d, p, w.table[p]);
    CreatedHandles(w.d, w'.d, e);
    FilledIsSound(w.d, w'.d, p, e);
    FilledIsOk(w.d, w'.d, p, e);
    forall q | q in w'.table && q != p ensures EntryOk(w'.d, q, w'.table[q]) {
      assert EntryOk(w.d, q, w.table[q]);
      if !w.table[q].status.Broken? {
        OthersOutOfReach(w, p, e, q);
        KeptEntryOk(w.d, w'.d, q, w.table[q]);
      }
    }
    NewHandlesApart(w, p, e);
  }

  /** Freeing drops the range together with everything mapped in it. */
  lemma FreedIsSound(w: World, w': World, p: Addr)
    requires Inv(w) && FreeStep(w, w', p)
    ensures DriverOk(w'.d)
  {
    assert EntryOk(w.d, p, w.table[p]);
    forall a | a in w'.d.mapped ensures Inside(w'.d, a, w'.d.mapped[a].size) {
      var q :| q in w.d.reserved && q <= a && a + w.d.mapped[a].size <= q + w.d.reserved[q];
      assert q in w'.d.reserved && q <= a && a + w'.d.mapped[a].size <= q + w'.d.reserved[q];
    }
  }

  lemma FreeKeepsInv(w: World, w': World, p: Addr)
    requires Inv(w) && FreeStep(w, w', p)
    ensures Inv(w')
  {
    FreedIsSound(w, w', p);
    var e := w.table[p];
    assert EntryOk(w.d, p, e);
    forall q | q in w'.table ensures EntryOk(w'.d, q, w'.table[q]) {
      assert EntryOk(w.d, q, w.table[q]);
      if !w.table[q].status.Broken? {
        if e.status.Awake? {
          OthersOutOfReach(w, p, e, q);
          OtherHandlesSurvive(w, p, q);
        }
        KeptEntryOk(w.d, w'.d, q, w.table[q]);
      }
    }
  }

  lemma UndisturbedKeepsInv(w: World, w': World)
    requires Inv(w) && Undisturbed(w, w')
    ensures Inv(w')
  {
    forall q | q in w'.table ensures EntryOk(w'.d, q, w'.table[q]) {
      KeptEntryOk(w.d, w'.d, q, w.table[q]);
    }
  }

  lemma FailKeepsInv(w: World, w': World, p: Addr, listed: bool)
    requires Inv(w) && FailStep(w, w', p, listed)
    ensures Inv(w')
  {
    forall q | q in w'.table ensures EntryOk(w'.d, q, w'.table[q]) {
      if q != p { KeptEntryOk(w.d, w'.d, q, w.table[q]); }
    }
    FewerUp(w.table, w'.table);
  }

  lemma OverwriteKeepsInv(w: World, w': World, p: Addr, cells: seq<Handle>)
    requires Inv(w) && OverwriteStep(w, w', p, cells)
    ensures Inv(w')
  {
    forall q | q in w.table ensures EntryOk(w'.d, q, w.table[q]) { KeptEntryOk(w.d, w'.d, q, w.table[q]); }
    RewrittenIsOk(w'.d, p, w.table[p], cells);
    assert Up(w'.table[p].status) <==> Up(w.table[p].status);
  }

  lemma RewrittenIsOk(d: Driver, p: Addr, e: Entry, cells: seq<Handle>)
    requires EntryOk(d, p, e) && !e.status.Broken? && |cells| == |e.sizes|
    ensures EntryOk(d, p, Rewritten(e, cells)) && Rewritten(e, cells).handles == e.handles
    ensures Up(Rewritten(e, cells).status) <==> Up(e.status)
  {
  }

  lemma StrikeKeepsInv(w: World, w': World, p: Addr, listed: bool)
    requires Inv(w) && StrikeStep(w, w', p, listed)
    ensures Inv(w')
  {
    forall q | q in w'.table ensures EntryOk(w'.d, q, w'.table[q]) {
      if q != p { OkAfterStrike(w.d, w'.d, q, w.table[q]); }
    }
    FewerUp(w.table, w'.table);
  }

  lemma OkAfterStrike(d: Driver, d': Driver, q: Addr, e: Entry)
    requires EntryOk(d, q, e)
    ensures EntryOk(d', q, if Keeps(d, d', q, e) then e else Struck(e))
  {
    if Keeps(d, d', q, e) { KeptEntryOk(d, d', q, e); }
  }

  lemma FewerUp(table: map<Addr, Entry>, table': map<Addr, Entry>)
    requires HandlesApart(table)
    requires forall q | q in table' && Up(table'[q].status) :: q in table && table[q] == table'[q]
    ensures HandlesApart(table')
  {
  }

  lemma StepKeepsInv(l: Label, w: World, w': World)
    requires Inv(w) && Step(l, w, w')
    ensures Inv(w')
  {
    match l
    case Malloc(p, e) => MallocKeepsInv(w, w', p, e);
    case Sleep(p) => SleepKeepsInv(w, w', p);
    case Wake(p, hs) => WakeKeepsInv(w, w', p, hs);
    case Free(p) => FreeKeepsInv(w, w', p);
    case Others => UndisturbedKeepsInv(w, w');
    case Leaks => UndisturbedKeepsInv(w, w');
    case Overwrites(p, cells) => OverwriteKeepsInv(w, w', p, cells);
    case Strikes(p, listed) => StrikeKeepsInv(w, w', p, listed);
    case Fails(p, listed) => FailKeepsInv(w, w', p, listed);
  }

  // ----- Runs

  ghost predicate IsRun(ws: seq<World>, ls: seq<Label>) {
    |ws| == |ls| + 1 && forall i | 0 <= i < |ls| :: Step(ls[i], ws[i], ws[i + 1])
  }

  lemma {:induction false} RunKeepsInv(ws: seq<World>, ls: seq<Label>, k: nat)
    requires IsRun(ws, ls) && Inv(ws[0]) && k < |ws|
    ensures Inv(ws[k])
  {
    if k > 0 {
      RunKeepsInv(ws, ls, k - 1);
      StepKeepsInv(ls[k - 1], ws[k - 1], ws[k]);
    }
  }

  ghost predicate BackedFrom(d: Driver, b: Addr, a: Addr) {
    a in d.mapped && a <= b < a + d.mapped[a].size && d.mapped[a].handle in d.handles
  }

  /** The byte at `b` is mapped to live physical memory. */
  ghost predicate Backed(d: Driver, b: Addr) {
    exists a :: BackedFrom(d, b, a)
  }

  /** In every run, an allocation that is not broken holds its range: awake or orphaned, every byte
      of it is mapped, through one live handle each; asleep, nothing in it is mapped.  Ranges of
      different such allocations never meet. */
  lemma LiveAllocations(ws: seq<World>, ls: seq<Label>, k: nat, p: Addr)
    requires IsRun(ws, ls) && Inv(ws[0]) && k < |ws|
    requires p in ws[k].table && !ws[k].table[p].status.Broken?
    ensures var d, e := ws[k].d, ws[k].table[p];
            && p in d.reserved && d.reserved[p] == e.size
            && (Up(e.status) ==> forall b | p <= b < p + e.size :: Backed(d, b))
            && (e.status.Asleep? ==> NothingMapped(d, p, e.size))
            && (forall q | q in ws[k].table && q != p && !ws[k].table[q].status.Broken? ::
                  Apart(p, e.size, q, ws[k].table[q].size))
  {
    RunKeepsInv(ws, ls, k);
    var w := ws[k];
    var d, e := w.d, w.table[p];
    assert EntryOk(d, p, e);
    if Up(e.status) {
      forall b | p <= b < p + e.size ensures Backed(d, b) { ByteMapped(d, p, e, b); }
    } else {
      forall a | a in d.mapped ensures Apart(a, d.mapped[a].size, p, e.size) {
        var q :| q in d.reserved && q <= a && a + d.mapped[a].size <= q + d.reserved[q];
      }
    }
    forall q | q in w.table && q != p && !w.table[q].status.Broken? ensures Apart(p, e.size, q, w.table[q].size) {
      assert EntryOk(d, q, w.table[q]);
    }
  }

  lemma ByteMapped(d: Driver, p: Addr, e: Entry, b: Addr)
    requires EntryOk(d, p, e) && Up(e.status) && p <= b < p + e.size
    ensures Backed(d, b)
  {
    ChunksTile(e.sizes, |e.sizes|, b - p);
    var i :| 0 <= i < |e.sizes| && Offset(e.sizes, i) <= b - p < Offset(e.sizes, i) + e.sizes[i];
    ChunkBacked(d, p, e, i);
    assert BackedFrom(d, b, p + Offset(e.sizes, i));
  }

  lemma ChunkBacked(d: Driver, p: Addr, e: Entry, i: nat)
    requires EntryOk(d, p, e) && Up(e.status) && i < |e.sizes|
    ensures var a := p + Offset(e.sizes, i);
            a in d.mapped && d.mapped[a] == Mapping(e.sizes[i], e.handles[i]) && e.handles[i] in d.handles
  {
    ChunkMapped(d.mapped, p, e.sizes, e.handles, i);
  }

  lemma ChunkMapped(mapped: map<Addr, Mapping>, p: Addr, sizes: seq<nat>, hs: seq<Handle>, i: nat)
    requires i < |sizes| == |hs| && Positive(sizes)
    requires MapsExactly(mapped, p, Total(sizes), ChunkMap(p, sizes, hs, |sizes|))
    ensures p + Offset(sizes, i) in mapped && mapped[p + Offset(sizes, i)] == Mapping(sizes[i], hs[i])
  {
    var a := p + Offset(sizes, i);
    assert p <= a < p + Total(sizes) by { OffsetsGrow(sizes, i, |sizes|); }
    assert a in ChunkMap(p, sizes, hs, |sizes|) && ChunkMap(p, sizes, hs, |sizes|)[a] == Mapping(sizes[i], hs[i]) by {
      ChunkMapAt(p, sizes, hs, |sizes|, i);
    }
  }

  lemma MappedThere(mapped: map<Addr, Mapping>, p: Addr, size: nat, cm: map<Addr, Mapping>, a: Addr)
    requires MapsExactly(mapped, p, size, cm) && p <= a < p + size && a in cm
    ensures a in mapped && mapped[a] == cm[a]
  {
  }
}

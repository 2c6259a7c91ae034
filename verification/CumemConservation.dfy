/** Successful operations take from the driver exactly what later ones give back. */
module CumemConservation {
  import opened CumemChunks
  import opened CumemWorld

  ghost predicate UpIn(table: map<Addr, Entry>, p: Addr) {
    p in table && Up(table[p].status) && |table[p].handles| == |table[p].sizes|
  }

  ghost predicate OwnsRange(table: map<Addr, Entry>, p: Addr) {
    p in table && !table[p].status.Broken?
  }

  ghost predicate OwnsHandle(table: map<Addr, Entry>, h: Handle) {
    exists p :: UpIn(table, p) && h in table[p].handles
  }

  ghost predicate OwnsMapping(table: map<Addr, Entry>, a: Addr) {
    exists p :: UpIn(table, p) && a in Chunks(p, table[p])
  }

  /** The driver state that belongs to no allocation in the table. */
  ghost function Foreign(w: World): Driver {
    Driver(map p | p in w.d.reserved && !OwnsRange(w.table, p) :: w.d.reserved[p],
           map h | h in w.d.handles && !OwnsHandle(w.table, h) :: w.d.handles[h],
           map a | a in w.d.mapped && !OwnsMapping(w.table, a) :: w.d.mapped[a])
  }

  /** `rest` is `table` with the allocation at `p` not awake, or gone. */
  ghost predicate Without(rest: map<Addr, Entry>, table: map<Addr, Entry>, p: Addr) {
    && UpIn(table, p) && !UpIn(rest, p)
    && forall q | q != p :: (q in rest <==> q in table) && (q in rest ==> rest[q] == table[q])
  }

  lemma OwnershipSplits(rest: map<Addr, Entry>, table: map<Addr, Entry>, p: Addr)
    requires Without(rest, table, p)
    ensures forall a :: OwnsMapping(table, a) <==> OwnsMapping(rest, a) || a in Chunks(p, table[p])
    ensures forall h :: OwnsHandle(table, h) <==> OwnsHandle(rest, h) || h in table[p].handles
  {
    forall a ensures OwnsMapping(table, a) <==> OwnsMapping(rest, a) || a in Chunks(p, table[p]) {
      if OwnsMapping(table, a) {
        var q :| UpIn(table, q) && a in Chunks(q, table[q]);
        if q != p { assert UpIn(rest, q) && a in Chunks(q, rest[q]); }
      }
      if OwnsMapping(rest, a) {
        var q :| UpIn(rest, q) && a in Chunks(q, rest[q]);
        assert UpIn(table, q) && a in Chunks(q, table[q]);
      }
    }
    forall h ensures OwnsHandle(table, h) <==> OwnsHandle(rest, h) || h in table[p].handles {
      if OwnsHandle(table, h) {
        var q :| UpIn(table, q) && h in table[q].handles;
        if q != p { assert UpIn(rest, q) && h in rest[q].handles; }
      }
      if OwnsHandle(rest, h) {
        var q :| UpIn(rest, q) && h in rest[q].handles;
        assert UpIn(table, q) && h in table[q].handles;
      }
    }
  }

  /** `d` is `d'` less the chunks `cm` and the handles `hs`. */
  ghost predicate Less(d: Driver, d': Driver, cm: map<Addr, Mapping>, hs: seq<Handle>) {
    && (forall a :: a in d.mapped <==> a in d'.mapped && a !in cm)
    && (forall a | a in d.mapped :: d.mapped[a] == d'.mapped[a])
    && (forall h :: h in d.handles <==> h in d'.handles && h !in hs)
    && (forall h | h in d.handles :: d.handles[h] == d'.handles[h])
  }

  /** Taking an allocation's chunks and handles out with the allocation leaves the rest alone. */
  lemma ForeignUnmoved(s: World, b: World, p: Addr)
    requires Without(s.table, b.table, p) && Less(s.d, b.d, Chunks(p, b.table[p]), b.table[p].handles)
    ensures Foreign(s).handles == Foreign(b).handles && Foreign(s).mapped == Foreign(b).mapped
  {
    OwnershipSplits(s.table, b.table, p);
  }

  /** The range at `p` comes and goes with its entry. */
  lemma RangesUnmoved(w: World, w': World, p: Addr)
    requires forall q | q != p :: (q in w.d.reserved <==> q in w'.d.reserved) && (q in w.table <==> q in w'.table)
    requires forall q | q != p && q in w.d.reserved :: w.d.reserved[q] == w'.d.reserved[q]
    requires forall q | q != p && q in w.table :: w.table[q] == w'.table[q]
    requires OwnsRange(w.table, p) || p !in w.d.reserved
    requires OwnsRange(w'.table, p) || p !in w'.d.reserved
    ensures Foreign(w).reserved == Foreign(w').reserved
  {
  }

  lemma MallocTakes(w: World, w': World, p: Addr, e: Entry)
    requires Inv(w) && MallocStep(w, w', p, e)
    ensures Without(w.table, w'.table, p) && Less(w.d, w'.d, Chunks(p, e), e.handles)
  {
    CreatedHandles(w.d, w'.d, e);
    ChunkMapRange(p, e.sizes, e.handles, |e.sizes|);
  }

  lemma MallocConserves(w: World, w': World, p: Addr, e: Entry)
    requires Inv(w) && MallocStep(w, w', p, e)
    ensures Foreign(w') == Foreign(w)
  {
    MallocTakes(w, w', p, e);
    ForeignUnmoved(w, w', p);
    assert p !in w.d.reserved;
    RangesUnmoved(w, w', p);
  }

  lemma WakeTakes(w: World, w': World, p: Addr, hs: seq<Handle>)
    requires Inv(w) && WakeStep(w, w', p, hs)
    ensures Without(w.table, w'.table, p) && Less(w.d, w'.d, Chunks(p, w'.table[p]), hs)
  {
    var e := w'.table[p];
    assert EntryOk(w.d, p, w.table[p]);
    CreatedHandles(w.d, w'.d, e);
    ChunkMapRange(p, e.sizes, e.handles, |e.sizes|);
  }

  lemma WakeConserves(w: World, w': World, p: Addr, hs: seq<Handle>)
    requires Inv(w) && WakeStep(w, w', p, hs)
    ensures Foreign(w') == Foreign(w)
  {
    WakeTakes(w, w', p, hs);
    ForeignUnmoved(w, w', p);
    RangesUnmoved(w, w', p);
  }

  lemma SleepGives(w: World, w': World, p: Addr)
    requires Inv(w) && SleepStep(w, w', p)
    ensures Without(w'.table, w.table, p) && Less(w'.d, w.d, Chunks(p, w.table[p]), w.table[p].handles)
  {
  }

  lemma SleepConserves(w: World, w': World, p: Addr)
    requires Inv(w) && SleepStep(w, w', p)
    ensures Foreign(w') == Foreign(w)
  {
    SleepGives(w, w', p);
    ForeignUnmoved(w', w, p);
    RangesUnmoved(w, w', p);
  }

  lemma FreeAwakeGives(w: World, w': World, p: Addr)
    requires Inv(w) && FreeStep(w, w', p) && w.table[p].status.Awake?
    ensures Without(w'.table, w.table, p) && Less(w'.d, w.d, Chunks(p, w.table[p]), w.table[p].handles)
  {
  }

  lemma FreeConserves(w: World, w': World, p: Addr)
    requires Inv(w) && FreeStep(w, w', p)
    ensures Foreign(w') == Foreign(w)
  {
    if w.table[p].status.Awake? {
      FreeAwakeGives(w, w', p);
      ForeignUnmoved(w', w, p);
    } else {
      FreeOthersUnmoved(w, w', p);
    }
    FreeRangesUnmoved(w, w', p);
  }

  lemma FreeOthersUnmoved(w: World, w': World, p: Addr)
    requires Inv(w) && FreeStep(w, w', p) && !w.table[p].status.Awake?
    ensures Foreign(w').handles == Foreign(w).handles && Foreign(w').mapped == Foreign(w).mapped
  {
    SameOwners(w.table, w'.table);
  }

  lemma FreeRangesUnmoved(w: World, w': World, p: Addr)
    requires Inv(w) && FreeStep(w, w', p)
    ensures Foreign(w').reserved == Foreign(w).reserved
  {
    RangesUnmoved(w, w', p);
  }

  lemma SameOwners(t: map<Addr, Entry>, t': map<Addr, Entry>)
    requires forall q :: UpIn(t, q) <==> UpIn(t', q)
    requires forall q | UpIn(t, q) && UpIn(t', q) :: t[q] == t'[q]
    ensures forall a :: OwnsMapping(t, a) <==> OwnsMapping(t', a)
    ensures forall h :: OwnsHandle(t, h) <==> OwnsHandle(t', h)
  {
  }

  ghost predicate Succeeds(l: Label) {
    l.Malloc? || l.Sleep? || l.Wake? || l.Free?
  }

  lemma SuccessConserves(l: Label, w: World, w': World)
    requires Inv(w) && Step(l, w, w') && Succeeds(l)
    ensures Foreign(w') == Foreign(w)
  {
    match l
    case Malloc(p, e) => MallocConserves(w, w', p, e);
    case Sleep(p) => SleepConserves(w, w', p);
    case Wake(p, hs) => WakeConserves(w, w', p, hs);
    case Free(p) => FreeConserves(w, w', p);
  }

  /** In every run, whatever else happens in it, a successful operation changes nothing that belongs to
      no allocation. */
  lemma RunConserves(ws: seq<World>, ls: seq<Label>, k: nat)
    requires IsRun(ws, ls) && Inv(ws[0]) && k < |ls| && Succeeds(ls[k])
    ensures Foreign(ws[k + 1]) == Foreign(ws[k])
  {
    RunKeepsInv(ws, ls, k);
    SuccessConserves(ls[k], ws[k], ws[k + 1]);
  }

  /** So what belongs to no allocation changes over a run only by the other steps. */
  lemma {:induction false} OwnStepsConserve(ws: seq<World>, ls: seq<Label>, k: nat)
    requires IsRun(ws, ls) && Inv(ws[0]) && k < |ws|
    requires forall i | 0 <= i < k && !Succeeds(ls[i]) :: Foreign(ws[i + 1]) == Foreign(ws[i])
    ensures Foreign(ws[k]) == Foreign(ws[0])
  {
    if k > 0 {
      OwnStepsConserve(ws, ls, k - 1);
      if Succeeds(ls[k - 1]) { RunConserves(ws, ls, k - 1); }
    }
  }

  /** The tables list the same allocations, Broken entries aside. */
  ghost predicate SameLive(t: map<Addr, Entry>, t': map<Addr, Entry>) {
    && (forall p :: OwnsRange(t, p) <==> OwnsRange(t', p))
    && (forall p | OwnsRange(t, p) && OwnsRange(t', p) :: t[p] == t'[p])
  }

  lemma SameLiveOwners(t: map<Addr, Entry>, t': map<Addr, Entry>)
    requires SameLive(t, t')
    ensures forall a :: OwnsMapping(t, a) <==> OwnsMapping(t', a)
    ensures forall h :: OwnsHandle(t, h) <==> OwnsHandle(t', h)
  {
    forall q ensures UpIn(t, q) <==> UpIn(t', q) {
      assert OwnsRange(t, q) <==> OwnsRange(t', q);
    }
    forall q | UpIn(t, q) && UpIn(t', q) ensures t[q] == t'[q] {
      assert OwnsRange(t, q) && OwnsRange(t', q);
    }
    SameOwners(t, t');
  }

  /** The table and the foreign part together determine the driver state. */
  lemma TableDeterminesDriver(w: World, v: World)
    requires Inv(w) && Inv(v) && SameLive(w.table, v.table) && Foreign(w) == Foreign(v)
    ensures w.d == v.d
  {
    SameRanges(w, v);
    SameHandles(w, v);
    SameHandles(v, w);
    SameMappings(w, v);
    SameMappings(v, w);
    assert w.d.handles == v.d.handles;
    assert w.d.mapped == v.d.mapped;
  }

  lemma SameRanges(w: World, v: World)
    requires Inv(w) && Inv(v) && SameLive(w.table, v.table) && Foreign(w).reserved == Foreign(v).reserved
    ensures w.d.reserved == v.d.reserved
  {
    forall p
      ensures (p in w.d.reserved <==> p in v.d.reserved) && (p in w.d.reserved ==> w.d.reserved[p] == v.d.reserved[p])
    {
      if OwnsRange(w.table, p) {
        assert EntryOk(w.d, p, w.table[p]) && EntryOk(v.d, p, v.table[p]);
      } else {
        assert p in Foreign(w).reserved <==> p in w.d.reserved;
        assert p in Foreign(v).reserved <==> p in v.d.reserved;
        if p in w.d.reserved {
          assert Foreign(w).reserved[p] == w.d.reserved[p] && Foreign(v).reserved[p] == v.d.reserved[p];
        }
      }
    }
  }

  lemma SameHandles(w: World, v: World)
    requires Inv(w) && Inv(v) && SameLive(w.table, v.table) && Foreign(w).handles == Foreign(v).handles
    ensures forall h | h in w.d.handles :: h in v.d.handles && v.d.handles[h] == w.d.handles[h]
  {
    forall h | h in w.d.handles ensures h in v.d.handles && v.d.handles[h] == w.d.handles[h] {
      if OwnsHandle(w.table, h) {
        var p :| UpIn(w.table, p) && h in w.table[p].handles;
        assert OwnsRange(w.table, p) && OwnsRange(v.table, p);
        assert EntryOk(w.d, p, w.table[p]) && EntryOk(v.d, p, v.table[p]);
        var i :| 0 <= i < |w.table[p].handles| && w.table[p].handles[i] == h;
      } else {
        SameLiveOwners(w.table, v.table);
        assert h in Foreign(w).handles && Foreign(w).handles[h] == w.d.handles[h];
        assert h in Foreign(v).handles && Foreign(v).handles[h] == v.d.handles[h];
      }
    }
  }

  lemma SameMappings(w: World, v: World)
    requires Inv(w) && Inv(v) && SameLive(w.table, v.table) && Foreign(w).mapped == Foreign(v).mapped
    ensures forall a | a in w.d.mapped :: a in v.d.mapped && v.d.mapped[a] == w.d.mapped[a]
  {
    forall a | a in w.d.mapped ensures a in v.d.mapped && v.d.mapped[a] == w.d.mapped[a] {
      if OwnsMapping(w.table, a) {
        var p :| UpIn(w.table, p) && a in Chunks(p, w.table[p]);
        var e := w.table[p];
        assert OwnsRange(w.table, p) && OwnsRange(v.table, p);
        assert EntryOk(w.d, p, e) && EntryOk(v.d, p, e);
        ChunkMapRange(p, e.sizes, e.handles, |e.sizes|);
        MappedThere(w.d.mapped, p, e.size, Chunks(p, e), a);
        MappedThere(v.d.mapped, p, e.size, Chunks(p, e), a);
      } else {
        SameLiveOwners(w.table, v.table);
        assert a in Foreign(w).mapped && Foreign(w).mapped[a] == w.d.mapped[a];
        assert a in Foreign(v).mapped && Foreign(v).mapped[a] == v.d.mapped[a];
      }
    }
  }

  lemma DriverDeterminesForeign(w: World, v: World)
    requires SameLive(w.table, v.table) && w.d == v.d
    ensures Foreign(w) == Foreign(v)
  {
    SameLiveOwners(w.table, v.table);
  }

  /** Whatever a run does, in any order and on any allocations, with other code using the driver in between:
      once the live allocations are what they were, the driver state is exactly what it was if and only if
      so is the part that belongs to no allocation. */
  lemma FreeGivesBackMalloc(ws: seq<World>, ls: seq<Label>)
    requires IsRun(ws, ls) && Inv(ws[0])
    requires SameLive(ws[|ls|].table, ws[0].table)
    ensures ws[|ls|].d == ws[0].d <==> Foreign(ws[|ls|]) == Foreign(ws[0])
  {
    RunKeepsInv(ws, ls, |ls|);
    if Foreign(ws[|ls|]) == Foreign(ws[0]) { TableDeterminesDriver(ws[|ls|], ws[0]); }
    if ws[|ls|].d == ws[0].d { DriverDeterminesForeign(ws[|ls|], ws[0]); }
  }
}

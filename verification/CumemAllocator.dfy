/** malloc, sleep, wake and free of the ROCm allocator, each proved to be one step of CumemWorld.

    `table` stands for the Python dictionary `pointer_to_data`; the status of an entry is what may be
    relied on about it.  `error_code` is cleared by sleep and wake only, never by malloc or free.
 */
module CumemAllocator {
  import opened CumemChunks
  import opened CumemWorld
  import opened CumemDevice
  import opened CumemConservation
  import opened Prelude

  class Allocator {
    const dev: Device
    var table: map<Addr, Entry>

    constructor (dev: Device)
      ensures this.dev == dev && table == map[]
      ensures DriverOk(dev.d) ==> Inv(W())
    {
      this.dev := dev;
      table := map[];
    }

    ghost function W(): World
      reads this, dev
    {
      World(dev.d, table)
    }

    /** Other code uses the driver while the range at `p` is not held: it may take that range. */
    method OthersRun(p: Addr)
      requires DriverOk(dev.d)
      modifies dev`d
      ensures KeepsAllBut(old(W()), dev.d, p)
    {
    }

    /** `python_unmap_and_release`, whatever became of the allocation before: `l` is what unmapping and
        releasing did, `l'` what freeing and holding the range did.  If it reports success, the range is held
        with nothing mapped in it, whatever other code reserved while it was free.  With an error already
        set, an awake allocation is put to sleep all the same, and the range stays held.  Of an allocation
        already asleep the call always fails, and releases whatever has the old handles by now. */
    method Sleep(p: Addr, contextError: int) returns (ok: bool, ghost l: Label, ghost mid: World, ghost l': Label)
      requires Inv(W()) && p in table
      modifies this`table, dev`d, dev`errorCode, dev`refusals, dev`rangeDenials, dev`offered
      ensures Inv(W()) && dev.errorCode == 0 && dev.refusals >= old(dev.refusals)
      ensures Inv(mid) && Step(l, old(W()), mid) && Step(l', mid, W()) && p in table
      ensures ok ==> table[p].status.Asleep?
      ensures ok && !old(table)[p].status.Broken? ==> l' == Others
      ensures old(dev.errorCode) != 0 || contextError != 0 ==> !ok && W() == mid
      ensures old(table)[p].status.Awake? ==>
                && KeepsAllBut(old(W()), dev.d, p)
                && (ok ==> l == Label.Sleep(p))
                && (dev.refusals == old(dev.refusals) ==> l == Label.Sleep(p))
                && (ok <==> && old(dev.errorCode) == 0 && contextError == 0 && dev.refusals == old(dev.refusals)
                            && dev.rangeDenials == old(dev.rangeDenials) && dev.offered == p)
      ensures old(table)[p].status.Asleep? ==>
                && !ok && W() == mid && table[p] == old(table)[p]
                && GoneHandles(old(dev.d), dev.d, Cells(old(table)[p]), dev.refusals == old(dev.refusals))
    {
      ghost var w := W();
      l := LetGo(p, contextError);
      mid := W();
      ok, l' := dev.errorCode == 0, Others;
      if ok {
        ok, l' := Hold(p);
        if w.table[p].status.Awake? { BothHalvesKeep(w, mid, dev.d, p); }
      } else {
        NothingHappened(mid);
      }
      ghost var end := W();
      dev.errorCode := 0;
      assert W() == end;
    }

    /** The second half: the range is freed and reserved again. */
    method Hold(p: Addr) returns (ok: bool, ghost l: Label)
      requires Inv(W()) && p in table && !Up(table[p].status) && dev.errorCode == 0
      modifies this`table, dev`d, dev`errorCode, dev`refusals, dev`rangeDenials, dev`offered
      ensures Inv(W()) && dev.refusals >= old(dev.refusals) && Step(l, old(W()), W()) && p in table
      ensures KeepsAllBut(old(W()), dev.d, p)
      ensures ok ==> dev.refusals == old(dev.refusals) && dev.rangeDenials == old(dev.rangeDenials) && dev.offered == p
      ensures old(table)[p].status.Asleep? ==>
                (dev.refusals == old(dev.refusals) && dev.rangeDenials == old(dev.rangeDenials) && dev.offered == p ==>
                   ok)
      ensures ok ==> table[p].status.Asleep? && (old(table)[p].status.Asleep? ==> l == Others)
    {
      ghost var w := W();
      assert EntryOk(w.d, p, table[p]);
      ok := HoldPlace(p, table[p].size);
      l := HeldOrNot(p, ok, w);
    }

    /** The first half: every chunk is unmapped, and whatever the cells name is released. */
    method LetGo(p: Addr, contextError: int) returns (ghost l: Label)
      requires Inv(W()) && p in table
      modifies this`table, dev`d, dev`errorCode, dev`refusals
      ensures Inv(W()) && dev.refusals >= old(dev.refusals) && Step(l, old(W()), W())
      ensures p in table && !Up(table[p].status) && table[p].size == old(table)[p].size
      ensures table[p].status.Broken? && !old(table)[p].status.Broken? ==> dev.errorCode != 0
      ensures old(dev.errorCode) != 0 || contextError != 0 ==> dev.errorCode != 0
      ensures old(table)[p].status.Awake? ==>
                && KeepsAllBut(old(W()), dev.d, p) && table == old(table)[p := table[p]]
                && (dev.refusals == old(dev.refusals) ==> l == Label.Sleep(p) && table[p].status.Asleep?)
                && (dev.errorCode == 0 <==>
                      old(dev.errorCode) == 0 && contextError == 0 && dev.refusals == old(dev.refusals))
      ensures old(table)[p].status.Asleep? ==>
                && dev.errorCode != 0 && table[p] == old(table)[p]
                && GoneHandles(old(dev.d), dev.d, Cells(old(table)[p]), dev.refusals == old(dev.refusals))
    {
      var e, d0 := table[p], dev.d;
      ghost var w := W();
      assert EntryOk(w.d, p, e);
      Release(p, e, contextError);
      ShrunkIsSound(d0, dev.d);
      StartsWithin(p, e.sizes);
      table := AfterStrike(table, d0, dev.d, p)[p := Settled(e, dev.d, p)];
      l := Strikes(p, true);
      SettledIsOk(w.d, dev.d, p, e);
      if Up(e.status) { UpIsLetGo(w.d, dev.d, p, e, dev.refusals == old(dev.refusals)); }
      if e.status.Asleep? { AsleepIsLetGo(w.d, dev.d, p, e); }
      if e.status.Awake? {
        AwakeIsLetGo(w, dev.d, p);
        NobodyStruck(w, dev.d, p);
        if dev.refusals == old(dev.refusals) {
          l := Label.Sleep(p);
          SleptExactly(w, dev.d, p);
        }
      }
      StepKeepsInv(l, w, W());
    }

    /** `unmap_and_release` on what is listed. */
    method Release(p: Addr, e: Entry, contextError: int)
      requires EntryOk(dev.d, p, e)
      modifies dev`d, dev`errorCode, dev`refusals
      ensures dev.refusals >= old(dev.refusals)
              && LetGoFrom(old(dev.d), dev.d, p, e, dev.refusals == old(dev.refusals))
      ensures dev.errorCode == 0 ==>
                old(dev.errorCode) == 0 && contextError == 0 && dev.refusals == old(dev.refusals)
      ensures e.status.Awake? && old(dev.errorCode) == 0 && contextError == 0 && dev.refusals == old(dev.refusals) ==>
                dev.errorCode == 0
      ensures e.status.Asleep? ==> dev.errorCode != 0
    {
      dev.UnmapAndRelease(p, e.sizes, Cells(e), contextError);
      if e.status.Awake? { EntryMappedAt(old(dev.d), p, e); }
      if e.status.Asleep? { AsleepIsLetGo(old(dev.d), dev.d, p, e); }
    }

    /** Free the range, so that physical memory is reclaimed, and reserve the same range again. */
    method HoldPlace(p: Addr, size: nat) returns (ok: bool)
      requires Inv(W()) && p in table && table[p].size == size && size > 0 && dev.errorCode == 0
      modifies dev`d, dev`errorCode, dev`refusals, dev`rangeDenials, dev`offered
      ensures KeepsAllBut(old(W()), dev.d, p) && dev.refusals >= old(dev.refusals)
      ensures ok ==> dev.refusals == old(dev.refusals) && dev.rangeDenials == old(dev.rangeDenials) && dev.offered == p
      ensures p in old(dev.d).reserved && old(dev.d).reserved[p] == size && NothingMapped(old(dev.d), p, size) ==>
                (dev.refusals == old(dev.refusals) && dev.rangeDenials == old(dev.rangeDenials) && dev.offered == p ==>
                   ok)
      ensures ok ==> p in dev.d.reserved && dev.d.reserved[p] == size && NothingMapped(dev.d, p, size)
    {
      ghost var w := W();
      ok := false;
      var err := dev.AddressFree(p, size);
      dev.CudaCheck(err);
      if dev.errorCode != 0 {
        return;
      }
      FreedKeeps(w, w.d, dev.d, p);
      ghost var freed := dev.d;
      OthersRun(p);
      ghost var others := dev.d;
      KeepsCompose(w, freed, others, p);
      var status, q := dev.ReserveRocmAddress(size, 0, p);
      dev.CudaCheck(status);
      if dev.errorCode == 0 {
        ReservedIsEmpty(others, q, size);
        ReserveKeeps(w, others, dev.d, p, q, size);
        if q == p {
          ok := true;
        } else {
          ghost var got := dev.d;
          var ignored := dev.AddressFree(q, size);
          ReturnKeeps(w, others, got, dev.d, p, q, size);
          dev.errorCode := 1;
        }
      }
    }

    /** What the table says after that. */
    method HeldOrNot(p: Addr, ok: bool, ghost mid: World) returns (ghost l: Label)
      requires Inv(mid) && p in table && mid.table == table && !Up(table[p].status) && KeepsAllBut(mid, dev.d, p)
      requires ok ==>
                 p in dev.d.reserved && dev.d.reserved[p] == table[p].size && NothingMapped(dev.d, p, table[p].size)
      modifies this`table
      ensures Inv(W()) && Step(l, mid, W()) && p in table
      ensures ok ==> table[p].status.Asleep? && (mid.table[p].status.Asleep? ==> l == Others)
      ensures ok && mid.table[p].status.Asleep? ==> table == mid.table
    {
      var e := table[p];
      assert EntryOk(mid.d, p, e);
      if ok {
        NobodyStruck(mid, dev.d, p);
        table := table[p := e.(handles := [], status := Asleep(Cells(e)))];
        l := if e.status.Asleep? then Others else Strikes(p, true);
      } else {
        var given := e.status.Broken? ==> e.status.given;
        table := table[p := e.(status := Broken(given, true, Cells(e)))];
        l := Fails(p, true);
      }
      StepKeepsInv(l, mid, W());
    }

    /** `python_create_and_map`, whatever became of the allocation before.  Of an asleep one, a clean failure
        to create or map a chunk leaves the driver as it was; a stale `error_code` makes the call fail, and
        one handle leaks exactly when the driver grants it.  Of an awake one the call always fails; a clean
        entry leaves the driver as it was exactly when nothing is refused, but the cells lose the handles. */
    method Wake(p: Addr, contextError: int) returns (ok: bool, stage: Stage, ghost l: Label)
      requires Inv(W()) && p in table
      modifies this`table, dev`d, dev`errorCode, dev`refusals, dev`denials, dev`denied, dev`openings
      ensures Inv(W()) && dev.errorCode == 0 && dev.refusals >= old(dev.refusals) && Step(l, old(W()), W())
              && p in table
      ensures stage.StaleEntry? <==> old(dev.errorCode) != 0 || contextError != 0
      ensures ok <==> stage.Complete?
      ensures ok <==> old(dev.errorCode) == 0 && contextError == 0 && dev.denials == old(dev.denials)
      ensures dev.openings == Openings(old(dev.openings), stage, p, old(table)[p].size)
      ensures !old(table)[p].status.Broken? ==>
                && (ok <==> l.Wake? && l.p == p)
                && (!ok ==> l == Overwrites(p, Cells(table[p])) || l == Fails(p, true))
                && (!ok ==> (dev.d == old(dev.d) <==> dev.refusals == old(dev.refusals) && !Spoils(stage)))
      ensures Up(old(table)[p].status) ==>
                && !ok && l.Overwrites? && !stage.AccessFailed? && !stage.MemsetFailed?
                && (stage.MapFailed? ==> FreshHandles(old(dev.d), Cells(table[p])))
      ensures old(table)[p].status.Asleep? && stage.StaleEntry? ==>
                && table[p] == Rewritten(old(table)[p], Cells(table[p])) && SameElsewhere(old(table), table, p)
                && if stage.granted
                   then NewInFirstCell(old(dev.d), dev.d, table[p].sizes[0], Cells(old(table)[p]), Cells(table[p]))
                   else dev.d == old(dev.d) && table[p] == old(table)[p]
    {
      if table[p].status.Broken? {
        ok, stage, l := WakeBroken(p, contextError);
      } else {
        ok, stage, l := WakeSound(p, contextError);
      }
    }

    method WakeBroken(p: Addr, contextError: int) returns (ok: bool, stage: Stage, ghost l: Label)
      requires Inv(W()) && p in table && table[p].status.Broken?
      modifies this`table, dev`d, dev`errorCode, dev`refusals, dev`denials, dev`denied, dev`openings
      ensures Inv(W()) && dev.errorCode == 0 && dev.refusals >= old(dev.refusals) && Step(l, old(W()), W())
              && p in table
      ensures stage.StaleEntry? <==> old(dev.errorCode) != 0 || contextError != 0
      ensures ok <==> stage.Complete?
      ensures ok <==> old(dev.errorCode) == 0 && contextError == 0 && dev.denials == old(dev.denials)
      ensures dev.openings == Openings(old(dev.openings), stage, p, old(table)[p].size)
    {
      var e, d0 := table[p], dev.d;
      ghost var w := W();
      assert EntryOk(w.d, p, e);
      assert e.sizes != [];
      var hs;
      hs, stage := dev.CreateAndMap(p, e.sizes, Cells(e), contextError);
      ok := dev.errorCode == 0;
      dev.errorCode := 0;
      l := WokenAnyway(p, e, hs, d0, ok, w);
    }

    method WakeSound(p: Addr, contextError: int) returns (ok: bool, stage: Stage, ghost l: Label)
      requires Inv(W()) && p in table && !table[p].status.Broken?
      modifies this`table, dev`d, dev`errorCode, dev`refusals, dev`denials, dev`denied, dev`openings
      ensures Inv(W()) && dev.errorCode == 0 && dev.refusals >= old(dev.refusals) && Step(l, old(W()), W())
              && p in table
      ensures stage.StaleEntry? <==> old(dev.errorCode) != 0 || contextError != 0
      ensures ok <==> stage.Complete?
      ensures ok <==> old(dev.errorCode) == 0 && contextError == 0 && dev.denials == old(dev.denials)
      ensures dev.openings == Openings(old(dev.openings), stage, p, old(table)[p].size)
      ensures ok <==> l.Wake? && l.p == p
      ensures !ok ==> l == Overwrites(p, Cells(table[p])) || l == Fails(p, true)
      ensures !ok ==> (dev.d == old(dev.d) <==> dev.refusals == old(dev.refusals) && !Spoils(stage))
      ensures Up(old(table)[p].status) ==>
                && !ok && l.Overwrites? && !stage.AccessFailed? && !stage.MemsetFailed?
                && (stage.MapFailed? ==> FreshHandles(old(dev.d), Cells(table[p])))
      ensures old(table)[p].status.Asleep? && stage.StaleEntry? ==>
                && table[p] == Rewritten(old(table)[p], Cells(table[p])) && SameElsewhere(old(table), table, p)
                && if stage.granted
                   then NewInFirstCell(old(dev.d), dev.d, table[p].sizes[0], Cells(old(table)[p]), Cells(table[p]))
                   else dev.d == old(dev.d) && table[p] == old(table)[p]
    {
      var e, d0 := table[p], dev.d;
      ghost var w := W();
      assert EntryOk(w.d, p, e);
      assert e.sizes != [];
      var hs;
      hs, stage := dev.CreateAndMap(p, e.sizes, Cells(e), contextError);
      ok := dev.errorCode == 0;
      dev.errorCode := 0;
      FirstChunk(w.d, p, e, hs);
      l := Woken(p, e, hs, stage, d0, ok, w);
    }

    /** What the table says after `create_and_map` on a broken allocation. */
    method WokenAnyway(p: Addr, e: Entry, hs: seq<Handle>, d0: Driver, ok: bool, ghost w: World)
      returns (ghost l: Label)
      requires Inv(w) && w == World(d0, table) && p in table && table[p] == e && e.status.Broken?
      requires |hs| == |e.sizes| && DriverOk(dev.d)
      modifies this`table
      ensures Inv(W()) && Step(l, w, W()) && p in table
    {
      assert EntryOk(w.d, p, e);
      table := AfterStrike(table, d0, dev.d, p)[p := e.(status := Broken(e.status.given, e.status.asleep && !ok, hs))];
      l := Strikes(p, true);
      StepKeepsInv(l, w, W());
    }

    /** What the table says after `create_and_map` on an allocation that was not broken. */
    method Woken(p: Addr, e: Entry, hs: seq<Handle>, stage: Stage, d0: Driver, ok: bool, ghost w: World)
      returns (ghost l: Label)
      requires Inv(w) && w == World(d0, table) && p in table && table[p] == e && !e.status.Broken?
      requires |hs| == |e.sizes| && dev.d.reserved == d0.reserved && DriverOk(dev.d) && (ok <==> stage.Complete?)
      requires OnlyGrows(d0, dev.d) && NewOnesWithin(d0.mapped, dev.d.mapped, p, e.size)
      requires Up(e.status) ==> !ok && dev.d.mapped == d0.mapped
      requires ok ==> && FreshHandles(d0, hs) && dev.d.handles == d0.handles + HandleMap(e.sizes, hs, |e.sizes|)
                      && dev.d.mapped == d0.mapped + ChunkMap(p, e.sizes, hs, |e.sizes|)
      modifies this`table
      ensures Inv(W()) && Step(l, w, W()) && p in table && SameElsewhere(old(table), table, p)
      ensures ok <==> l.Wake? && l.p == p
      ensures !ok ==> l == Overwrites(p, Cells(table[p])) || l == Fails(p, true)
      ensures !ok ==> Cells(table[p]) == hs
      ensures !ok && dev.d.mapped == d0.mapped ==> table[p] == Rewritten(e, hs) && l.Overwrites?
    {
      assert EntryOk(w.d, p, e);
      GrownKeeps(w, dev.d, p);
      if ok {
        table := table[p := e.(handles := hs, status := Awake)];
        l := Label.Wake(p, hs);
        WakeKeepsInv(w, W(), p, hs);
      } else if dev.d.mapped == d0.mapped {
        table := table[p := Rewritten(e, hs)];
        l := Overwrites(p, hs);
        OverwriteKeepsInv(w, W(), p, hs);
      } else {
        table := table[p := e.(status := Broken(true, true, hs))];
        l := Fails(p, true);
        FailKeepsInv(w, W(), p, true);
      }
    }

    /** `my_malloc`.  `granularity` is the driver's answer, `env` the configured chunk size, and `stage` how
        far `create_and_map` came if it was called.  A failed call leaves `error_code` set, and with
        `error_code` set every call fails at once. */
    method Malloc(size: nat, granularity: nat, env: Option<nat>, contextError: int, granularityError: int,
                  mapContextError: int)
      returns (r: Option<Addr>, stage: Option<Stage>, ghost l: Label)
      requires Inv(W()) && SizesFit(size, granularity, env)
      modifies this, dev
      ensures Inv(W()) && dev.refusals >= old(dev.refusals) && Step(l, old(W()), W())
      ensures r.Some? <==> dev.errorCode == 0
      ensures r.Some? ==> && l.Malloc? && l.p == r.value && l.e.size == AlignUp(size, granularity)
                          && CutEvenly(l.e.sizes, granularity, AlignUp(MemcreateChunkSize(env), granularity))
                          && r.value % granularity == 0 && dev.refusals == old(dev.refusals)
      ensures r.None? ==> l == Leaks || l.Fails?
      ensures r.None? ==>
                (dev.d == old(dev.d) <==> dev.refusals == old(dev.refusals) && (stage.Some? ==> !Spoils(stage.value)))
      ensures old(dev.errorCode) != 0 || contextError != 0 || granularityError != 0 ==> r.None? && W() == old(W())
      ensures r.Some? <==>
                && old(dev.errorCode) == 0 && contextError == 0 && granularityError == 0 && mapContextError == 0
                && RangeGranted(old(dev.rangeDenials), dev.rangeDenials, dev.offered, granularity)
                && dev.denials == old(dev.denials)
      ensures r.Some? ==> dev.openings == Openings(old(dev.openings), Complete, r.value, AlignUp(size, granularity))
    {
      dev.CudaCheck(contextError);  // ensure_context
      dev.CudaCheck(granularityError);  // cuMemGetAllocationGranularity
      if dev.errorCode != 0 {
        return None, None, Leaks;
      }
      r, stage, l := Allocate(size, granularity, env, mapContextError);
    }

    /** `my_malloc` from where it asks for a range. */
    method Allocate(size: nat, granularity: nat, env: Option<nat>, mapContextError: int)
      returns (r: Option<Addr>, stage: Option<Stage>, ghost l: Label)
      requires Inv(W()) && SizesFit(size, granularity, env) && dev.errorCode == 0
      modifies this`table, dev
      ensures Inv(W()) && dev.refusals >= old(dev.refusals) && Step(l, old(W()), W())
      ensures r.Some? <==> dev.errorCode == 0
      ensures r.Some? ==> && l.Malloc? && l.p == r.value && l.e.size == AlignUp(size, granularity)
                          && CutEvenly(l.e.sizes, granularity, AlignUp(MemcreateChunkSize(env), granularity))
                          && r.value % granularity == 0 && dev.refusals == old(dev.refusals)
      ensures r.None? ==> l == Leaks || l.Fails?
      ensures r.None? ==>
                (dev.d == old(dev.d) <==> dev.refusals == old(dev.refusals) && (stage.Some? ==> !Spoils(stage.value)))
      ensures r.Some? <==>
                && mapContextError == 0 && dev.denials == old(dev.denials)
                && RangeGranted(old(dev.rangeDenials), dev.rangeDenials, dev.offered, granularity)
      ensures r.Some? ==> dev.openings == Openings(old(dev.openings), Complete, r.value, AlignUp(size, granularity))
    {
      ghost var w := W();
      var alignedSize := AlignUp(size, granularity);
      var status, p := dev.ReserveRocmAddress(alignedSize, granularity, 0);
      dev.CudaCheck(status);
      if dev.errorCode != 0 {
        ReserveFailed(w, dev.d, p, alignedSize);
        StepKeepsInv(Leaks, w, W());
        return None, None, Leaks;
      }
      var sizes := ChunkSizes(size, granularity, MemcreateChunkSize(env));
      var reached;
      r, reached, l := SetUp(p, alignedSize, sizes, mapContextError, w);
      stage := Some(reached);
    }

    /** The part of `my_malloc` after the range is reserved. */
    method SetUp(p: Addr, alignedSize: nat, sizes: seq<nat>, contextError: int, ghost w: World)
      returns (r: Option<Addr>, stage: Stage, ghost l: Label)
      requires Inv(w) && w.table == table && dev.errorCode == 0 && alignedSize > 0
      requires Positive(sizes) && Total(sizes) == alignedSize && NothingReserved(w.d, p, alignedSize)
      requires dev.d == w.d.(reserved := w.d.reserved[p := alignedSize])
      modifies this`table, dev`d, dev`errorCode, dev`refusals, dev`denials, dev`denied, dev`openings
      ensures Inv(W()) && dev.refusals >= old(dev.refusals) && Step(l, w, W())
      ensures r.Some? <==> dev.errorCode == 0
      ensures r.Some? ==> && l.Malloc? && l.p == p && l.e.size == alignedSize && l.e.sizes == sizes && r.value == p
                          && dev.refusals == old(dev.refusals)
      ensures r.Some? <==> contextError == 0 && dev.denials == old(dev.denials)
      ensures r.Some? ==> dev.openings == Openings(old(dev.openings), Complete, p, alignedSize)
      ensures r.None? ==> l == Fails(p, true)
      ensures r.None? ==> (dev.d == w.d <==> dev.refusals == old(dev.refusals) && !Spoils(stage))
    {
      ghost var held := dev.d;
      var hs;
      hs, stage := Fill(p, alignedSize, sizes, contextError, w);
      if dev.errorCode != 0 {
        GiveBackRange(p, alignedSize, sizes, hs, stage, w, held, old(dev.refusals));
        l := List(p, Entry(alignedSize, sizes, [], Broken(false, false, hs)), w);  // listed, and never delisted
        r := None;
      } else {
        NotListedAlive(w, p, alignedSize);
        l := List(p, Entry(alignedSize, sizes, hs, Awake), w);
        r := Some(p);
      }
    }

    /** `create_and_map` on the new range. */
    method Fill(p: Addr, size: nat, sizes: seq<nat>, contextError: int, ghost w: World)
      returns (hs: seq<Handle>, stage: Stage)
      requires Inv(w) && w.table == table && dev.errorCode == 0 && size > 0
      requires Positive(sizes) && Total(sizes) == size && NothingReserved(w.d, p, size)
      requires dev.d == w.d.(reserved := w.d.reserved[p := size])
      modifies dev`d, dev`errorCode, dev`refusals, dev`denials, dev`denied, dev`openings
      ensures |hs| == |sizes| && sizes != [] && dev.refusals >= old(dev.refusals) && KeepsAllBut(w, dev.d, p)
      ensures dev.d.reserved == old(dev.d).reserved && NothingMapped(w.d, p, size) && p !in w.d.reserved
      ensures stage.Complete? <==> dev.errorCode == 0
      ensures stage.Complete? <==> contextError == 0 && dev.denials == old(dev.denials)
      ensures dev.openings == Openings(old(dev.openings), stage, p, size)
      ensures LeftBy(stage, old(dev.d), dev.d, p, sizes, hs, dev.refusals == old(dev.refusals))
      ensures stage.Complete? ==> FreshHandles(w.d, hs) && dev.refusals == old(dev.refusals)
    {
      ReservingIsSound(w.d, dev.d, p, size);
      ReservedIsEmpty(w.d, p, size);
      assert sizes != [];
      var cells := seq(|sizes|, _ => 0);  // the cells come from malloc
      hs, stage := dev.CreateAndMap(p, sizes, cells, contextError);
      GrownIsSound(old(dev.d), dev.d, p, size);
      NewRangeKeeps(w, old(dev.d), dev.d, p, size);
    }

    /** The malloc callback. */
    method List(p: Addr, e: Entry, ghost w: World) returns (ghost l: Label)
      requires Inv(w) && w.table == table && WellCut(e) && (e.status.Awake? || e.status.Broken?)
      requires if e.status.Awake? then MallocStep(w, World(dev.d, table[p := e]), p, e) else KeepsAllBut(w, dev.d, p)
      modifies this`table
      ensures Inv(W()) && Step(l, w, W()) && table == old(table)[p := e]
      ensures l == if e.status.Awake? then Label.Malloc(p, e) else Fails(p, true)
    {
      table := table[p := e];
      if e.status.Awake? {
        l := Label.Malloc(p, e);
        MallocKeepsInv(w, W(), p, e);
      } else {
        l := Fails(p, true);
        FailKeepsInv(w, W(), p, true);
      }
    }

    /** `cuMemAddressFree` after `create_and_map` failed.  It can only work if nothing is left mapped. */
    method GiveBackRange(p: Addr, size: nat, sizes: seq<nat>, hs: seq<Handle>, stage: Stage,
                         ghost w: World, ghost held: Driver, ghost before: nat)
      requires Inv(w) && KeepsAllBut(w, dev.d, p) && NothingReserved(w.d, p, size) && size > 0
               && NothingMapped(w.d, p, size)
      requires held == w.d.(reserved := w.d.reserved[p := size]) && dev.d.reserved == held.reserved
               && p !in w.d.reserved
      requires dev.errorCode != 0 && !stage.Complete? && before <= dev.refusals
      requires |hs| == |sizes| && sizes != [] && Positive(sizes)
      requires LeftBy(stage, held, dev.d, p, sizes, hs, dev.refusals == before)
      modifies dev`d, dev`errorCode, dev`refusals
      ensures dev.errorCode != 0 && KeepsAllBut(w, dev.d, p) && before <= dev.refusals
      ensures dev.d == w.d <==> dev.refusals == before && !Spoils(stage)
    {
      ghost var kept := dev.d;
      var err := dev.AddressFree(p, size);
      dev.CudaCheck(err);
      if err == 0 { FreedKeeps(w, kept, dev.d, p); }
      assert held.reserved - {p} == w.d.reserved;
      if stage.AccessFailed? || stage.MemsetFailed? { ChunkMapAt(p, sizes, hs, |sizes|, 0); }
    }

    /** `my_free` of an allocation, with the size the caller passes.  Of an awake or asleep one the driver gets
        back exactly what it held if and only if that size is the reserved one and the driver refuses no
        tear-down call; with any other size the range stays reserved.  Of an orphaned one the range and the
        mappings go, but of the handles only those its cells still name, together with whatever else they
        name.  Of one the Python side takes for asleep, only the range at its address is freed, if there is
        one of that size with nothing mapped in it, whoever holds it by then. */
    method Free(p: Addr, size: nat, contextError: int) returns (ghost l: Label)
      requires Inv(W()) && p in table && (table[p].status.Broken? ==> table[p].status.given)
      modifies this, dev
      ensures Inv(W()) && dev.refusals >= old(dev.refusals) && Step(l, old(W()), W()) && p !in table
      ensures var s := old(table)[p].status;
              s.Awake? || s.Asleep? ==>
                && table == old(table) - {p} && (l == Label.Free(p) || l == Fails(p, false))
                && (l == Label.Free(p) <==> size == old(table)[p].size && dev.refusals == old(dev.refusals))
                && (size != old(table)[p].size ==> p in dev.d.reserved)
                && (old(dev.errorCode) == 0 && contextError == 0 ==> (dev.errorCode == 0 <==> l == Label.Free(p)))
      ensures old(table)[p].status.Orphaned? && size == old(table)[p].size && dev.refusals == old(dev.refusals) ==>
                dev.d == Driver(old(dev.d).reserved - {p},
                                old(dev.d).handles - (set h | h in Cells(old(table)[p])),
                                old(dev.d).mapped - Chunks(p, old(table)[p]).Keys)
      ensures old(table)[p].status.Broken? && old(table)[p].status.asleep ==>
                var freed := p in old(dev.d).reserved && old(dev.d).reserved[p] == size
                             && NothingMapped(old(dev.d), p, size) && dev.refusals == old(dev.refusals);
                && table == old(table) - {p}
                && dev.d == if freed then old(dev.d).(reserved := old(dev.d).reserved - {p}) else old(dev.d)
    {
      assert EntryOk(dev.d, p, table[p]);
      if table[p].status.Awake? || SeemsAsleep(table[p].status) {
        l := FreePlain(p, size, contextError);
      } else {
        l := FreeStale(p, size, contextError);
      }
    }

    /** An allocation awake, or taken for asleep. */
    method FreePlain(p: Addr, size: nat, contextError: int) returns (ghost l: Label)
      requires Inv(W()) && p in table && (table[p].status.Awake? || SeemsAsleep(table[p].status))
      modifies this, dev
      ensures Inv(W()) && dev.refusals >= old(dev.refusals) && Step(l, old(W()), W()) && table == old(table) - {p}
      ensures l == Label.Free(p) || l == Fails(p, false)
      ensures !old(table)[p].status.Broken? ==>
                && (l == Label.Free(p) <==> size == old(table)[p].size && dev.refusals == old(dev.refusals))
                && (size != old(table)[p].size ==> p in dev.d.reserved)
                && (old(dev.errorCode) == 0 && contextError == 0 ==> (dev.errorCode == 0 <==> l == Label.Free(p)))
      ensures old(table)[p].status.Broken? ==>
                var freed := p in old(dev.d).reserved && old(dev.d).reserved[p] == size
                             && NothingMapped(old(dev.d), p, size) && dev.refusals == old(dev.refusals);
                dev.d == if freed then old(dev.d).(reserved := old(dev.d).reserved - {p}) else old(dev.d)
    {
      var e := table[p];
      ghost var w := W();
      assert EntryOk(w.d, p, e);
      var err;
      ghost var emptied, first;
      err, emptied, first := TearDown(p, e, size, contextError);
      if e.status.Awake? { AwakeAllLegal(w.d, p, e); }
      table := table - {p};
      l := FreedOrNot(p, e, size, err, w, emptied, old(dev.refusals), first);
    }

    /** An allocation whose cells no longer hold its handles. */
    method FreeStale(p: Addr, size: nat, contextError: int) returns (ghost l: Label)
      requires Inv(W()) && p in table && !table[p].status.Awake? && !SeemsAsleep(table[p].status)
      modifies this, dev
      ensures Inv(W()) && dev.refusals >= old(dev.refusals) && Step(l, old(W()), W()) && p !in table
      ensures old(table)[p].status.Orphaned? && size == old(table)[p].size && dev.refusals == old(dev.refusals) ==>
                dev.d == Driver(old(dev.d).reserved - {p},
                                old(dev.d).handles - (set h | h in Cells(old(table)[p])),
                                old(dev.d).mapped - Chunks(p, old(table)[p]).Keys)
    {
      var e, d0 := table[p], dev.d;
      ghost var w := W();
      assert EntryOk(w.d, p, e);
      var err;
      ghost var emptied, first;
      err, emptied, first := TearDown(p, e, size, contextError);
      if e.status.Orphaned? && first == old(dev.refusals) { UpIsEmptied(w, emptied, p); }
      l := FreedAnyway(p, d0, w);
    }

    /** What the table says after tearing down through cells that may be others' by now. */
    method FreedAnyway(p: Addr, d0: Driver, ghost w: World) returns (ghost l: Label)
      requires Inv(w) && w == World(d0, table) && p in table && DriverOk(dev.d)
      modifies this`table
      ensures Inv(W()) && Step(l, w, W()) && p !in table
    {
      table := AfterStrike(table, d0, dev.d, p) - {p};
      l := Strikes(p, false);
      StepKeepsInv(l, w, W());
    }

    /** The driver calls of `my_free`. */
    method TearDown(p: Addr, e: Entry, size: nat, contextError: int)
      returns (err: int, ghost emptied: Driver, ghost first: nat)
      requires DriverOk(dev.d) && WellCut(e)
      modifies dev
      ensures DriverOk(dev.d) && DriverOk(emptied) && old(dev.refusals) <= first <= dev.refusals
      ensures if SeemsAsleep(e.status) then emptied == old(dev.d) && first == old(dev.refusals)
              else LetGoFrom(old(dev.d), emptied, p, e, first == old(dev.refusals))
      ensures if err == 0
              then && p in emptied.reserved && emptied.reserved[p] == size && NothingMapped(emptied, p, size)
                   && dev.d == emptied.(reserved := emptied.reserved - {p}) && dev.refusals == first
              else && dev.d == emptied
                   && (p in emptied.reserved && emptied.reserved[p] == size && NothingMapped(emptied, p, size) ==>
                         dev.refusals > first)
                   && (!(p in emptied.reserved && emptied.reserved[p] == size && NothingMapped(emptied, p, size)) ==>
                         dev.refusals == first)
      ensures err != 0 ==> dev.errorCode != 0
      ensures err == 0 && SeemsAsleep(e.status) ==> dev.errorCode == old(dev.errorCode)
      ensures err == 0 && !SeemsAsleep(e.status) ==>
                (dev.errorCode == 0 <==> && old(dev.errorCode) == 0 && contextError == 0
                                         && AllLegal(old(dev.d), p, e) && first == old(dev.refusals))
    {
      if !SeemsAsleep(e.status) {
        dev.UnmapAndRelease(p, e.sizes, Cells(e), contextError);
        ShrunkIsSound(old(dev.d), dev.d);
      }
      emptied, first := dev.d, dev.refusals;
      err := dev.AddressFree(p, size);
      dev.CudaCheck(err);
      if err == 0 { ShrunkIsSound(emptied, dev.d); }
    }

    /** What that was, for an allocation awake or taken for asleep. */
    ghost method FreedOrNot(p: Addr, e: Entry, size: nat, err: int, w: World, emptied: Driver, before: nat, first: nat)
      returns (l: Label)
      requires Inv(w) && p in w.table && w.table[p] == e && table == w.table - {p}
      requires (e.status.Awake? || SeemsAsleep(e.status)) && DriverOk(dev.d) && before <= first <= dev.refusals
      requires if SeemsAsleep(e.status) then emptied == w.d && first == before
               else LetGoFrom(w.d, emptied, p, e, first == before)
      requires if err == 0
               then && p in emptied.reserved && emptied.reserved[p] == size && NothingMapped(emptied, p, size)
                    && dev.d == emptied.(reserved := emptied.reserved - {p}) && dev.refusals == first
               else && dev.d == emptied
                    && (p in emptied.reserved && emptied.reserved[p] == size && NothingMapped(emptied, p, size) ==>
                          dev.refusals > first)
      ensures Inv(W()) && Step(l, w, W()) && (l == Label.Free(p) || l == Fails(p, false))
      ensures l == Label.Free(p) <==> !e.status.Broken? && size == e.size && dev.refusals == before
      ensures l == Label.Free(p) <==> !e.status.Broken? && err == 0 && dev.refusals == before
      ensures !e.status.Broken? && size != e.size ==> p in dev.d.reserved
    {
      assert EntryOk(w.d, p, e);
      if e.status.Awake? { AwakeIsLetGo(w, emptied, p); } else { NothingHappened(w); }
      if !e.status.Broken? && first == before { EmptiedByNow(w, emptied, p); }
      if err == 0 { FreedKeeps(w, emptied, dev.d, p); }
      l := if !e.status.Broken? && err == 0 && dev.refusals == before then Label.Free(p) else Fails(p, false);
      StepKeepsInv(l, w, W());
    }

    /** A second wake of an awake allocation, and then its free: if the driver got as far as mapping, the range
        and the mappings are given back, and every one of its handles stays behind for good. */
    method WakeAgainThenFree(p: Addr) returns (stage: Stage)
      requires Inv(W()) && p in table && table[p].status.Awake? && dev.errorCode == 0
      modifies this, dev
      ensures Inv(W()) && p !in table
      ensures stage.MapFailed? && dev.refusals == old(dev.refusals) ==>
                && dev.d == Driver(old(dev.d).reserved - {p}, old(dev.d).handles,
                                   old(dev.d).mapped - Chunks(p, old(table)[p]).Keys)
                && forall h | h in old(table)[p].handles :: h in dev.d.handles
    {
      ghost var e := table[p];
      assert EntryOk(dev.d, p, e);
      var size := table[p].size;
      var ok;
      ghost var l;
      ok, stage, l := Wake(p, 0);
      ghost var l' := Free(p, size, 0);
    }

    /** Allocate and free with the same size.  If both calls succeed in what the driver allows, the
        driver state is what it was before exactly when the size is a multiple of the granularity. */
    method MallocThenFree(size: nat, granularity: nat, env: Option<nat>) returns (r: Option<Addr>)
      requires Inv(W()) && SizesFit(size, granularity, env)
      modifies this, dev
      ensures Inv(W())
      ensures r.Some? && dev.refusals == old(dev.refusals) ==> (dev.d == old(dev.d) <==> size % granularity == 0)
    {
      ghost var w := W();
      ghost var l;
      var stage;
      r, stage, l := Malloc(size, granularity, env, 0, 0, 0);
      if r.Some? {
        ghost var full := W();
        ghost var l' := Free(r.value, size, 0);
        AlignUpIsLeastMultiple(size, granularity);
        assert r.value !in w.d.reserved;
        if l' == Label.Free(r.value) { GivenBack(w, full, W(), r.value, l.e); }
      }
    }

    // ----- A whole lifetime, as a run

    /** Other code uses the driver, and disturbs no allocation in the table. */
    method AndElsewhere(ghost run: Run) returns (ghost run': Run)
      requires Inv(W()) && IsRunTo(run, W())
      modifies dev`d
      ensures Inv(W()) && IsRunTo(run', W()) && First(run') == First(run) && (Tame(run) ==> Tame(run'))
    {
      run' := Then(run, Others, W());
    }

    method AndMalloc(size: nat, granularity: nat, env: Option<nat>, ghost run: Run)
      returns (r: Option<Addr>, ghost run': Run)
      requires Inv(W()) && IsRunTo(run, W()) && SizesFit(size, granularity, env)
      modifies this, dev
      ensures Inv(W()) && IsRunTo(run', W()) && First(run') == First(run) && dev.refusals >= old(dev.refusals)
      ensures r.Some? ==> && (Tame(run) ==> Tame(run'))
                          && r.value in table && table[r.value].status.Awake?
                             && table[r.value].size == AlignUp(size, granularity)
                          && (r.value in old(table) ==> old(table)[r.value].status.Broken?)
                          && SameElsewhere(old(table), table, r.value)
    {
      ghost var l;
      var stage;
      r, stage, l := Malloc(size, granularity, env, 0, 0, 0);
      run' := Then(run, l, W());
    }

    method AndSleep(p: Addr, ghost run: Run) returns (ok: bool, ghost run': Run)
      requires Inv(W()) && IsRunTo(run, W()) && p in table && table[p].status.Awake?
      modifies this, dev
      ensures Inv(W()) && IsRunTo(run', W()) && First(run') == First(run) && dev.refusals >= old(dev.refusals)
      ensures ok ==> && (Tame(run) ==> Tame(run'))
                     && p in table && table[p].status.Asleep? && table[p].size == old(table)[p].size
                     && SameElsewhere(old(table), table, p)
    {
      ghost var l, mid, l';
      ok, l, mid, l' := Sleep(p, 0);
      run' := Then(Then(run, l, mid), l', W());
    }

    method AndWake(p: Addr, ghost run: Run) returns (ok: bool, ghost run': Run)
      requires Inv(W()) && IsRunTo(run, W()) && p in table && table[p].status.Asleep?
      modifies this, dev
      ensures Inv(W()) && IsRunTo(run', W()) && First(run') == First(run) && dev.refusals >= old(dev.refusals)
      ensures ok ==> && (Tame(run) ==> Tame(run'))
                     && p in table && table[p].status.Awake? && table[p].size == old(table)[p].size
                     && SameElsewhere(old(table), table, p)
    {
      ghost var l;
      var stage;
      ok, stage, l := Wake(p, 0);
      run' := Then(run, l, W());
    }

    method AndFree(p: Addr, size: nat, ghost run: Run) returns (ghost run': Run)
      requires Inv(W()) && IsRunTo(run, W()) && p in table && table[p].status.Awake?
      modifies this, dev
      ensures Inv(W()) && IsRunTo(run', W()) && First(run') == First(run) && dev.refusals >= old(dev.refusals)
      ensures p !in table && SameElsewhere(old(table), table, p)
      ensures size == old(table)[p].size && dev.refusals == old(dev.refusals) ==> (Tame(run) ==> Tame(run'))
    {
      ghost var l := Free(p, size, 0);
      run' := Then(run, l, W());
    }

    /** Malloc, sleep, wake and free of one allocation, with other code using the driver around every call.
        The steps taken make a run of CumemWorld.  If the calls succeed and nothing is refused, the driver
        state is what it was before exactly when other code, in all, gave back what it took. */
    method Lifetime(size: nat, granularity: nat, env: Option<nat>) returns (done: bool, ghost run: Run)
      requires Inv(W()) && SizesFit(size, granularity, env)
      modifies this, dev
      ensures Inv(W()) && IsRunTo(run, W()) && First(run) == old(W())
      ensures done && size % granularity == 0 && dev.refusals == old(dev.refusals) ==>
                && Tame(run)
                && (dev.d == old(dev.d) <==> Foreign(W()) == Foreign(old(W())))
    {
      done, run := false, Start(W());
      run := AndElsewhere(run);
      var r;
      r, run := AndMalloc(size, granularity, env, run);
      if r.None? {
        return;
      }
      done, run := RestOfLife(r.value, size, run);
      AlignUpIsLeastMultiple(size, granularity);
      if done { LifeIsOver(r.value, run, W()); }
    }

    /** Sleep, wake and free of an awake allocation. */
    method RestOfLife(p: Addr, size: nat, ghost run: Run) returns (done: bool, ghost run': Run)
      requires Inv(W()) && IsRunTo(run, W()) && p in table && table[p].status.Awake?
      modifies this, dev
      ensures Inv(W()) && IsRunTo(run', W()) && First(run') == First(run) && dev.refusals >= old(dev.refusals)
      ensures done ==> p !in table && SameElsewhere(old(table), table, p)
      ensures done && size == old(table)[p].size && dev.refusals == old(dev.refusals) && Tame(run) ==> Tame(run')
    {
      run' := AndElsewhere(run);
      done, run' := AndNap(p, run');
      if done {
        run' := AndElsewhere(run');
        run' := AndFree(p, size, run');
      }
    }

    /** Sleep and wake. */
    method AndNap(p: Addr, ghost run: Run) returns (ok: bool, ghost run': Run)
      requires Inv(W()) && IsRunTo(run, W()) && p in table && table[p].status.Awake?
      modifies this, dev
      ensures Inv(W()) && IsRunTo(run', W()) && First(run') == First(run) && dev.refusals >= old(dev.refusals)
      ensures ok ==> && (Tame(run) ==> Tame(run'))
                     && p in table && table[p].status.Awake? && table[p].size == old(table)[p].size
                     && SameElsewhere(old(table), table, p)
    {
      ok, run' := AndSleep(p, run);
      if ok {
        run' := AndElsewhere(run');
        ok, run' := AndWake(p, run');
      }
    }
  }

  /** A run of CumemWorld, step by step. */
  datatype Run = Start(w: World) | Then(before: Run, l: Label, w: World)

  ghost function First(run: Run): World { if run.Start? then run.w else First(run.before) }

  ghost predicate IsValid(run: Run) {
    run.Then? ==> IsValid(run.before) && Step(run.l, run.before.w, run.w)
  }

  ghost predicate IsRunTo(run: Run, w: World) { IsValid(run) && run.w == w }

  /** Every step is a success or other code's. */
  ghost predicate Tame(run: Run) {
    run.Then? ==> Tame(run.before) && (Succeeds(run.l) || run.l == Others)
  }

  ghost function Worlds(run: Run): (ws: seq<World>)
    ensures ws != [] && ws[|ws| - 1] == run.w && ws[0] == First(run)
  {
    if run.Start? then [run.w] else Worlds(run.before) + [run.w]
  }

  ghost function Labels(run: Run): (ls: seq<Label>)
    ensures |ls| + 1 == |Worlds(run)|
  {
    if run.Start? then [] else Labels(run.before) + [run.l]
  }

  lemma {:induction false} ValidIsRun(run: Run)
    requires IsValid(run)
    ensures IsRun(Worlds(run), Labels(run))
  {
    if run.Then? {
      ValidIsRun(run.before);
      var ws, ls := Worlds(run), Labels(run);
      var ws0, ls0 := Worlds(run.before), Labels(run.before);
      forall i | 0 <= i < |ls| ensures Step(ls[i], ws[i], ws[i + 1]) {
        if i < |ls0| { assert ls[i] == ls0[i] && ws[i] == ws0[i] && ws[i + 1] == ws0[i + 1]; }
      }
    }
  }

  ghost predicate SameElsewhere(t: map<Addr, Entry>, t': map<Addr, Entry>, p: Addr) {
    forall q | q != p :: (q in t <==> q in t') && (q in t ==> t[q] == t'[q])
  }

  lemma LifeIsOver(p: Addr, run: Run, w: World)
    requires IsRunTo(run, w) && Inv(First(run)) && SameElsewhere(First(run).table, w.table, p)
    requires p !in w.table && (p in First(run).table ==> First(run).table[p].status.Broken?)
    ensures w.d == First(run).d <==> Foreign(w) == Foreign(First(run))
  {
    ValidIsRun(run);
    FreeGivesBackMalloc(Worlds(run), Labels(run));
  }

  /** The sizes `my_malloc` computes with stay below ULLONG_MAX. */
  ghost predicate SizesFit(size: nat, granularity: nat, env: Option<nat>) {
    && granularity > 0
    && size + granularity - 1 <= ULLONG_MAX && MemcreateChunkSize(env) + granularity - 1 <= ULLONG_MAX
    && AlignUp(size, granularity) + AlignUp(MemcreateChunkSize(env), granularity) - 1 <= ULLONG_MAX
  }

  lemma GivenBack(w: World, full: World, empty: World, p: Addr, e: Entry)
    requires Inv(w) && MallocStep(w, full, p, e) && FreeStep(full, empty, p)
    ensures empty.d == w.d
  {
    var ws, ls := [w, full, empty], [Label.Malloc(p, e), Label.Free(p)];
    assert Step(ls[0], ws[0], ws[1]) && Step(ls[1], ws[1], ws[2]);
    NotListedAlive(w, p, e.size);
    OwnStepsConserve(ws, ls, 2);
    FreeGivesBackMalloc(ws, ls);
  }

  // ----- What the parts of an operation leave to other allocations

  /** What `create_and_map` leaves of a range that held nothing; `quiet` says that nothing was refused. */
  ghost predicate LeftBy(stage: Stage, held: Driver, d: Driver, p: Addr, sizes: seq<nat>, hs: seq<Handle>, quiet: bool)
    requires |hs| == |sizes|
  {
    if stage.StaleEntry? then quiet && (d == held <==> !stage.granted)
    else if stage.CreateFailed? || stage.MapFailed? then d == held <==> quiet
    else
      && quiet && d.handles == held.handles + HandleMap(sizes, hs, |sizes|)
      && d.mapped == held.mapped + ChunkMap(p, sizes, hs, |sizes|)
      && ChunkMap(p, sizes, hs, |sizes|).Keys !! held.mapped.Keys
  }

  predicate SeemsAsleep(s: Status) { s.Asleep? || (s.Broken? && s.asleep) }

  /** The entry once its chunks and cells were tried: asleep if its range is held and empty. */
  function Settled(e: Entry, d: Driver, p: Addr): Entry {
    if !e.status.Broken? && p in d.reserved && d.reserved[p] == e.size && forall a | p <= a < p + e.size ::
      a !in d.mapped
    then e.(handles := [], status := Asleep(Cells(e)))
    else e.(handles := [], status := Broken(e.status.Broken? ==> e.status.given, true, Cells(e)))
  }

  lemma SettledIsOk(d: Driver, d': Driver, p: Addr, e: Entry)
    requires EntryOk(d, p, e)
    ensures EntryOk(d', p, Settled(e, d', p)) && !Up(Settled(e, d', p).status)
  {
  }

  /** Ranges and mappings are as before, and of the handles only some in `cells` are gone; all of them, if
      nothing was refused. */
  ghost predicate GoneHandles(d: Driver, d': Driver, cells: seq<Handle>, all: bool) {
    && d'.reserved == d.reserved && d'.mapped == d.mapped && HandlesSurvive(d.handles, d'.handles, cells)
    && (all ==> d'.handles == d.handles - (set h | h in cells))
  }

  /** What `unmap_and_release` of an entry does to the driver; `all` says that nothing was refused. */
  ghost predicate LetGoFrom(d: Driver, d': Driver, p: Addr, e: Entry, all: bool)
    requires Positive(e.sizes) && |Cells(e)| == |e.sizes|
  {
    && d'.reserved == d.reserved
    && Survive(d.mapped, d'.mapped, Starts(p, e.sizes)) && HandlesSurvive(d.handles, d'.handles, Cells(e))
    && (all ==> && d'.handles == d.handles - (set h | h in Cells(e))
                && d'.mapped == d.mapped - Unmappable(d.mapped, Starts(p, e.sizes), e.sizes, |e.sizes|))
  }

  /** Every call it makes is one the driver could grant. */
  ghost predicate AllLegal(d: Driver, p: Addr, e: Entry)
    requires Positive(e.sizes) && |Cells(e)| == |e.sizes|
  {
    && MappedAt(d.mapped, Starts(p, e.sizes), e.sizes, |e.sizes|)
    && Distinct(Cells(e)) && forall i | 0 <= i < |Cells(e)| :: Cells(e)[i] in d.handles
  }

  lemma AwakeAllLegal(d: Driver, p: Addr, e: Entry)
    requires EntryOk(d, p, e) && e.status.Awake?
    ensures AllLegal(d, p, e)
  {
    EntryMappedAt(d, p, e);
  }

  lemma EmptiedByNow(w: World, d': Driver, p: Addr)
    requires Inv(w) && p in w.table && (w.table[p].status.Awake? || w.table[p].status.Asleep?)
    requires Positive(w.table[p].sizes) && |Cells(w.table[p])| == |w.table[p].sizes|
    requires if w.table[p].status.Asleep? then d' == w.d else LetGoFrom(w.d, d', p, w.table[p], true)
    ensures p in d'.reserved && d'.reserved[p] == w.table[p].size && NothingMapped(d', p, w.table[p].size)
    ensures w.table[p].status.Awake? ==> |w.table[p].handles| == |w.table[p].sizes|
                                         && AllLegal(w.d, p, w.table[p])
                                            && d'.mapped == w.d.mapped - Chunks(p, w.table[p]).Keys
  {
    var e := w.table[p];
    assert EntryOk(w.d, p, e);
    if e.status.Awake? { EntryMappedAt(w.d, p, e); }
    EmptiedRange(w, d', p);
  }

  lemma UpIsEmptied(w: World, d': Driver, p: Addr)
    requires Inv(w) && p in w.table && Up(w.table[p].status)
    requires Positive(w.table[p].sizes) && |Cells(w.table[p])| == |w.table[p].sizes| == |w.table[p].handles|
    requires LetGoFrom(w.d, d', p, w.table[p], true)
    ensures p in d'.reserved && d'.reserved[p] == w.table[p].size && NothingMapped(d', p, w.table[p].size)
    ensures d'.mapped == w.d.mapped - Chunks(p, w.table[p]).Keys
  {
    assert EntryOk(w.d, p, w.table[p]);
    EntryMappedAt(w.d, p, w.table[p]);
    EmptiedRange(w, d', p);
  }

  lemma NothingHappened(w: World)
    requires Inv(w)
    ensures Step(Others, w, w) && forall p :: KeepsAllBut(w, w.d, p)
  {
  }

  lemma BothHalvesKeep(w: World, mid: World, d': Driver, p: Addr)
    requires Inv(w) && KeepsAllBut(w, mid.d, p) && KeepsAllBut(mid, d', p)
    requires p in mid.table && mid.table == w.table[p := mid.table[p]]
    ensures KeepsAllBut(w, d', p)
  {
    forall q | q in w.table && q != p ensures Keeps(mid.d, d', q, w.table[q]) { assert mid.table[q] == w.table[q]; }
    KeepsCompose(w, mid.d, d', p);
  }

  /** The first chunk is mapped at `p`, or would be. */
  lemma FirstChunk(d: Driver, p: Addr, e: Entry, hs: seq<Handle>)
    requires EntryOk(d, p, e) && |hs| == |e.sizes|
    ensures p in ChunkMap(p, e.sizes, hs, |e.sizes|)
    ensures (Up(e.status) ==> p in d.mapped) && (e.status.Asleep? ==> p !in d.mapped)
  {
    ChunkMapAt(p, e.sizes, hs, |e.sizes|, 0);
    if Up(e.status) { ChunkBacked(d, p, e, 0); }
  }

  /** Unmapping the chunks of a mapped range empties it. */
  lemma UpIsLetGo(d: Driver, d': Driver, p: Addr, e: Entry, all: bool)
    requires EntryOk(d, p, e) && Up(e.status) && d'.reserved == d.reserved
    requires all ==> d'.mapped == d.mapped - Unmappable(d.mapped, Starts(p, e.sizes), e.sizes, |e.sizes|)
    ensures all ==> d'.mapped == d.mapped - Chunks(p, e).Keys && Settled(e, d', p).status.Asleep?
  {
    EntryMappedAt(d, p, e);
  }

  /** In an empty range there is nothing to unmap. */
  lemma AsleepIsLetGo(d: Driver, d': Driver, p: Addr, e: Entry)
    requires EntryOk(d, p, e) && e.status.Asleep? && d'.reserved == d.reserved
    requires Survive(d.mapped, d'.mapped, Starts(p, e.sizes))
    ensures d'.mapped == d.mapped && Settled(e, d', p) == e
    ensures !MappedAt(d.mapped, Starts(p, e.sizes), e.sizes, |e.sizes|)
  {
    StartsWithin(p, e.sizes);
    assert Starts(p, e.sizes)[0] in Starts(p, e.sizes);
  }

  lemma AwakeIsLetGo(w: World, d': Driver, p: Addr)
    requires Inv(w) && p in w.table && w.table[p].status.Awake? && d'.reserved == w.d.reserved
    requires Survive(w.d.mapped, d'.mapped, Starts(p, w.table[p].sizes))
    requires HandlesSurvive(w.d.handles, d'.handles, w.table[p].handles)
    ensures KeepsAllBut(w, d', p)
  {
    assert EntryOk(w.d, p, w.table[p]);
    StartsWithin(p, w.table[p].sizes);
    ReleasedKeeps(w, d', p);
  }

  lemma SleptExactly(w: World, d': Driver, p: Addr)
    requires Inv(w) && p in w.table && w.table[p].status.Awake? && KeepsAllBut(w, d', p) && d'.reserved == w.d.reserved
    requires d'.handles == w.d.handles - (set h | h in w.table[p].handles)
    requires |w.table[p].handles| == |w.table[p].sizes| && d'.mapped == w.d.mapped - Chunks(p, w.table[p]).Keys
    requires Settled(w.table[p], d', p).status.Asleep?
    ensures SleepStep(w, World(d', AfterStrike(w.table, w.d, d', p)[p := Settled(w.table[p], d', p)]), p)
  {
    NobodyStruck(w, d', p);
  }

  lemma NobodyStruck(w: World, d': Driver, p: Addr)
    requires KeepsAllBut(w, d', p)
    ensures AfterStrike(w.table, w.d, d', p) == w.table
  {
  }

  lemma ReleasedKeeps(w: World, d': Driver, p: Addr)
    requires Inv(w) && p in w.table && w.table[p].status.Awake?
    requires d'.reserved == w.d.reserved && OnlyLosesOwn(w.d, d', p, w.table[p])
    ensures KeepsAllBut(w, d', p)
  {
    ShrunkIsSound(w.d, d');
    assert EntryOk(w.d, p, w.table[p]);
    forall q | q in w.table && q != p ensures Keeps(w.d, d', q, w.table[q]) {
      assert EntryOk(w.d, q, w.table[q]);
      if !w.table[q].status.Broken? {
        OthersOutOfReach(w, p, w.table[p], q);
        OtherHandlesSurvive(w, p, q);
      }
    }
  }

  /** Creating handles and mapping within the range at `p` disturbs no other allocation. */
  lemma GrownKeeps(w: World, d': Driver, p: Addr)
    requires Inv(w) && p in w.table && !w.table[p].status.Broken? && DriverOk(d') && d'.reserved == w.d.reserved
    requires OnlyGrows(w.d, d') && NewOnesWithin(w.d.mapped, d'.mapped, p, w.table[p].size)
    ensures KeepsAllBut(w, d', p)
    ensures d'.mapped == w.d.mapped ==> Keeps(w.d, d', p, w.table[p])
  {
    assert EntryOk(w.d, p, w.table[p]);
    forall q | q in w.table && q != p ensures Keeps(w.d, d', q, w.table[q]) {
      assert EntryOk(w.d, q, w.table[q]);
    }
  }

  lemma ReserveFailed(w: World, d': Driver, p: Addr, size: nat)
    requires Inv(w)
    requires d' == w.d || (size > 0 && NothingReserved(w.d, p, size) && d' == w.d.(reserved := w.d.reserved[p := size]))
    ensures Step(Leaks, w, World(d', w.table))
  {
    if d' != w.d { ReservingIsSound(w.d, d', p, size); }
    forall q | q in w.table ensures Keeps(w.d, d', q, w.table[q]) {
      assert EntryOk(w.d, q, w.table[q]);
    }
  }

  lemma NotListedAlive(w: World, p: Addr, size: nat)
    requires Inv(w) && NothingReserved(w.d, p, size) && size > 0
    ensures p in w.table ==> w.table[p].status.Broken?
  {
    if p in w.table { assert EntryOk(w.d, p, w.table[p]); }
  }

  /** A new range and what is mapped into it disturb no allocation. */
  lemma NewRangeKeeps(w: World, held: Driver, d': Driver, p: Addr, size: nat)
    requires Inv(w) && DriverOk(d') && NothingReserved(w.d, p, size) && size > 0
    requires held == w.d.(reserved := w.d.reserved[p := size]) && d'.reserved == held.reserved
    requires OnlyGrows(held, d') && NewOnesWithin(held.mapped, d'.mapped, p, size)
    ensures KeepsAllBut(w, d', p)
  {
    forall q | q in w.table && q != p ensures Keeps(w.d, d', q, w.table[q]) {
      assert EntryOk(w.d, q, w.table[q]);
    }
  }

  /** Once an allocation's chunks are all unmapped, nothing is mapped in its range. */
  lemma EmptiedRange(w: World, d': Driver, p: Addr)
    requires Inv(w) && p in w.table && !w.table[p].status.Broken? && d'.reserved == w.d.reserved
    requires |w.table[p].handles| == |w.table[p].sizes| || !Up(w.table[p].status)
    requires d'.mapped == if Up(w.table[p].status) then w.d.mapped - Chunks(p, w.table[p]).Keys else w.d.mapped
    ensures NothingMapped(d', p, w.table[p].size)
  {
    var e := w.table[p];
    assert EntryOk(w.d, p, e);
    forall a | a in d'.mapped ensures Apart(a, d'.mapped[a].size, p, e.size) {
      var q :| q in w.d.reserved && q <= a && a + w.d.mapped[a].size <= q + w.d.reserved[q];
    }
  }

  /** Dropping the empty range at `p`. */
  lemma FreedKeeps(w: World, d: Driver, d': Driver, p: Addr)
    requires KeepsAllBut(w, d, p) && p in d.reserved && NothingMapped(d, p, d.reserved[p])
    requires d' == d.(reserved := d.reserved - {p})
    ensures KeepsAllBut(w, d', p)
  {
    ShrunkIsSound(d, d');
  }

  lemma KeepsCompose(w: World, d: Driver, d': Driver, p: Addr)
    requires Inv(w) && KeepsAllBut(w, d, p) && KeepsAllBut(World(d, w.table), d', p)
    ensures KeepsAllBut(w, d', p)
  {
    forall q | q in w.table && q != p ensures Keeps(w.d, d', q, w.table[q]) {
      assert EntryOk(w.d, q, w.table[q]);
      assert Keeps(w.d, d, q, w.table[q]) && Keeps(d, d', q, w.table[q]);
    }
  }

  lemma ReserveKeeps(w: World, d: Driver, d': Driver, p: Addr, r: Addr, size: nat)
    requires Inv(w) && KeepsAllBut(w, d, p) && size > 0 && NothingReserved(d, r, size)
    requires d' == d.(reserved := d.reserved[r := size])
    ensures KeepsAllBut(w, d', p)
  {
    ReservingIsSound(d, d', r, size);
    forall q | q in w.table && q != p ensures Keeps(w.d, d', q, w.table[q]) {
      assert EntryOk(w.d, q, w.table[q]) && Keeps(w.d, d, q, w.table[q]);
    }
  }

  /** Giving back a range just reserved, or failing to. */
  lemma ReturnKeeps(w: World, d: Driver, got: Driver, d': Driver, p: Addr, r: Addr, size: nat)
    requires Inv(w) && KeepsAllBut(w, d, p) && size > 0 && NothingReserved(d, r, size)
    requires got == d.(reserved := d.reserved[r := size])
    requires d' == got || d' == got.(reserved := got.reserved - {r})
    ensures KeepsAllBut(w, d', p)
  {
    ReserveKeeps(w, d, got, p, r, size);
    assert r !in d.reserved;
    assert d.reserved[r := size] - {r} == d.reserved;
  }
}

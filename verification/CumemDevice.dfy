/** The driver and the chunk loops of the ROCm branch of csrc/cumem_allocator.cpp: every driver call
    may fail, and errors are recorded in the global `error_code`.

    Outcomes of the driver that the code cannot see coming are nondeterministic.  `refusals` counts
    the tear-down calls (unmap, release, address free) that were legal and that the driver refused;
    `denials` counts the calls for memory that it did not grant, and `denied` is the latest of them;
    `rangeDenials` counts the ranges it did not grant, and `offered` is the latest that it did.
 */
module CumemDevice {
  import opened CumemChunks
  import opened CumemWorld
  import opened Prelude

  /** How far `create_and_map` came.  A stale entry found `error_code` set, or set it on entering the
      context; `granted` says whether the driver granted the one handle that was asked for all the same. */
  datatype Stage =
    | StaleEntry(granted: bool)
    | CreateFailed(i: nat)
    | MapFailed(i: nat)
    | AccessFailed
    | MemsetFailed
    | Complete

  /** A failure that leaves something behind even if the driver refuses no clean-up. */
  predicate Spoils(stage: Stage) {
    stage.AccessFailed? || stage.MemsetFailed? || (stage.StaleEntry? && stage.granted)
  }

  /** What is asked of the driver to put memory into a range. */
  datatype Ask =
    | AskCreate(size: nat)
    | AskMap(a: Addr, size: nat, h: Handle)
    | AskAccess(p: Addr, size: nat)
    | AskClear(p: Addr, size: nat)

  /** What `create_and_map` was denied when it failed there, after a clean entry. */
  ghost predicate StoppedBy(stage: Stage, ask: Ask, p: Addr, sizes: seq<nat>, hs: seq<Handle>)
    requires |hs| == |sizes|
  {
    match stage
    case StaleEntry(_) => true
    case CreateFailed(i) => i < |sizes| && ask == AskCreate(sizes[i])
    case MapFailed(i) => i < |sizes| && ask == AskMap(Starts(p, sizes)[i], sizes[i], hs[i])
    case AccessFailed => ask == AskAccess(p, Total(sizes))
    case MemsetFailed => ask == AskClear(p, Total(sizes))
    case Complete => true
  }

  /** A range was granted at once, or without the alignment after it was denied with it, and happens to be
      aligned. */
  predicate RangeGranted(before: nat, after: nat, offered: Addr, alignment: nat) {
    after == before || (after == before + 1 && alignment > 0 && offered % alignment == 0)
  }

  /** What has been granted, the latest outermost. */
  datatype Log = NothingYet | Done(earlier: Log, ask: Ask)

  /** What has been done to mapped ranges, once `create_and_map` has opened up its own: access, then zeros. */
  function Openings(before: Log, stage: Stage, p: Addr, size: nat): Log {
    match stage
    case MemsetFailed => Done(before, AskAccess(p, size))
    case Complete => Done(Done(before, AskAccess(p, size)), AskClear(p, size))
    case _ => before
  }

  class Device {
    var d: Driver
    var errorCode: int
    ghost var refusals: nat
    ghost var denials: nat
    ghost var denied: Ask
    ghost var rangeDenials: nat
    ghost var offered: Addr
    ghost var openings: Log  // ranges made accessible, and ranges cleared

    // ----- The driver

    /** The driver's answer to what was asked. */
    ghost method Note(ask: Ask, err: int)
      modifies this`denials, this`denied
      ensures denials == if err != 0 then old(denials) + 1 else old(denials)
      ensures denied == if err != 0 then ask else old(denied)
    {
      if err != 0 {
        denials, denied := denials + 1, ask;
      }
    }

    method MemCreate(size: nat) returns (err: int, h: Handle)
      modifies this`d, this`denials, this`denied
      ensures denials == if err != 0 then old(denials) + 1 else old(denials)
      ensures denied == if err != 0 then AskCreate(size) else old(denied)
      ensures err != 0 ==> d == old(d)
      ensures err == 0 ==> h !in old(d).handles && d == old(d).(handles := old(d).handles[h := size])
    {
      err, h := *, *;
      if h in d.handles { err := 1; }
      Note(AskCreate(size), err);
      if err == 0 {
        d := d.(handles := d.handles[h := size]);
      }
    }

    method MemMap(a: Addr, size: nat, h: Handle) returns (err: int)
      modifies this`d, this`denials, this`denied
      ensures denials == if err != 0 then old(denials) + 1 else old(denials)
      ensures denied == if err != 0 then AskMap(a, size, h) else old(denied)
      ensures err != 0 ==> d == old(d)
      ensures err == 0 ==> && size > 0 && h in old(d).handles && a !in old(d).mapped
                           && Inside(old(d), a, size) && NothingMapped(old(d), a, size)
                           && d == old(d).(mapped := old(d).mapped[a := Mapping(size, h)])
    {
      err := *;
      var p: Addr := *;
      if !(size > 0 && h in d.handles && a !in d.mapped && p in d.reserved
           && p <= a && a + size <= p + d.reserved[p] && NothingMapped(d, a, size)) {
        err := 1;
      }
      Note(AskMap(a, size, h), err);
      if err == 0 {
        d := d.(mapped := d.mapped[a := Mapping(size, h)]);
      }
    }

    method MemSetAccess(p: Addr, size: nat) returns (err: int)
      modifies this`denials, this`denied, this`openings
      ensures denials == if err != 0 then old(denials) + 1 else old(denials)
      ensures denied == if err != 0 then AskAccess(p, size) else old(denied)
      ensures openings == if err == 0 then Done(old(openings), AskAccess(p, size)) else old(openings)
    {
      err := *;
      Note(AskAccess(p, size), err);
      if err == 0 { openings := Done(openings, AskAccess(p, size)); }
    }

    method Memset(p: Addr, size: nat) returns (err: int)
      modifies this`denials, this`denied, this`openings
      ensures denials == if err != 0 then old(denials) + 1 else old(denials)
      ensures denied == if err != 0 then AskClear(p, size) else old(denied)
      ensures openings == if err == 0 then Done(old(openings), AskClear(p, size)) else old(openings)
    {
      err := *;
      Note(AskClear(p, size), err);
      if err == 0 { openings := Done(openings, AskClear(p, size)); }
    }

    method MemUnmap(a: Addr, size: nat) returns (err: int)
      modifies this`d, this`refusals
      ensures err == 0 ==> && a in old(d).mapped && old(d).mapped[a].size == size && refusals == old(refusals)
                           && d == old(d).(mapped := old(d).mapped - {a})
      ensures err != 0 ==> && d == old(d)
                           && refusals == old(refusals) + if a in d.mapped && d.mapped[a].size == size then 1 else 0
    {
      err := *;
      if !(a in d.mapped && d.mapped[a].size == size) {
        if err == 0 { err := 1; }
      } else if err == 0 {
        d := d.(mapped := d.mapped - {a});
      } else {
        refusals := refusals + 1;
      }
    }

    method MemRelease(h: Handle) returns (err: int)
      modifies this`d, this`refusals
      ensures err == 0 ==>
                h in old(d).handles && refusals == old(refusals) && d == old(d).(handles := old(d).handles - {h})
      ensures err != 0 ==> d == old(d) && refusals == old(refusals) + if h in d.handles then 1 else 0
    {
      err := *;
      if h !in d.handles {
        if err == 0 { err := 1; }
      } else if err == 0 {
        d := d.(handles := d.handles - {h});
      } else {
        refusals := refusals + 1;
      }
    }

    method AddressReserve(size: nat, alignment: nat, hint: Addr) returns (err: int, p: Addr)
      modifies this`d, this`rangeDenials, this`offered
      ensures rangeDenials == if err != 0 then old(rangeDenials) + 1 else old(rangeDenials)
      ensures offered == if err == 0 then p else old(offered)
      ensures err != 0 ==> d == old(d)
      ensures err == 0 ==> && size > 0 && NothingReserved(old(d), p, size) && (alignment > 0 ==> p % alignment == 0)
                           && d == old(d).(reserved := old(d).reserved[p := size])
    {
      err, p := *, *;
      if !(size > 0 && NothingReserved(d, p, size) && (alignment > 0 ==> p % alignment == 0)) { err := 1; }
      if err == 0 {
        d := d.(reserved := d.reserved[p := size]);
        offered := p;
      } else {
        rangeDenials := rangeDenials + 1;
      }
    }

    /** Only a whole reservation can be freed, and only once nothing is mapped in it. */
    method AddressFree(p: Addr, size: nat) returns (err: int)
      modifies this`d, this`refusals
      ensures err == 0 ==> && p in old(d).reserved && old(d).reserved[p] == size && NothingMapped(old(d), p, size)
                           && refusals == old(refusals) && d == old(d).(reserved := old(d).reserved - {p})
      ensures err != 0 ==> && d == old(d)
                           && refusals == old(refusals)
                                            + if p in d.reserved && d.reserved[p] == size && NothingMapped(d, p, size)
                                              then 1 else 0
    {
      err := *;
      if !(p in d.reserved && d.reserved[p] == size && NothingMapped(d, p, size)) {
        if err == 0 { err := 1; }
      } else if err == 0 {
        d := d.(reserved := d.reserved - {p});
      } else {
        refusals := refusals + 1;
      }
    }

    /** CUDA_CHECK: an error is recorded, and nothing here ever clears one. */
    method CudaCheck(err: int)
      modifies this`errorCode
      ensures errorCode == if err != 0 then err else old(errorCode)
    {
      if err != 0 { errorCode := err; }
    }

    // ----- Helpers of the source

    /** `reserve_rocm_address`: retry without alignment, and take what comes only if it is aligned. */
    method ReserveRocmAddress(size: nat, alignment: nat, hint: Addr) returns (status: int, p: Addr)
      requires DriverOk(d)
      modifies this`d, this`refusals, this`rangeDenials, this`offered
      ensures rangeDenials >= old(rangeDenials) && (status == 0 ==> offered == p)
      ensures status == 0 <==> RangeGranted(old(rangeDenials), rangeDenials, offered, alignment)
      ensures status == 0 ==> && size > 0 && NothingReserved(old(d), p, size) && (alignment > 0 ==> p % alignment == 0)
                              && refusals == old(refusals) && d == old(d).(reserved := old(d).reserved[p := size])
      ensures refusals >= old(refusals) && (alignment == 0 ==> refusals == old(refusals))
      ensures status != 0 ==> (d == old(d) <==> refusals == old(refusals))
      ensures status != 0 ==>
                (d == old(d)
                 || (size > 0 && NothingReserved(old(d), p, size)
                     && d == old(d).(reserved := old(d).reserved[p := size])))
    {
      status, p := AddressReserve(size, alignment, hint);
      if status == 0 || alignment == 0 {
        return;
      }
      status, p := AddressReserve(size, 0, hint);
      if status != 0 {
        return;
      }
      if p % alignment == 0 {
        return;
      }
      ReservedIsEmpty(old(d), p, size);
      assert p !in old(d).reserved;
      var ignored := AddressFree(p, size);
      status := 801;  // hipErrorNotSupported
      assert old(d).reserved[p := size] - {p} == old(d).reserved;
    }

    /** One `cuMemUnmap` of the loop below. */
    method UnmapChunk(a: Addr, sizes: seq<nat>, ghost starts: seq<Addr>, i: nat, ghost m0: map<Addr, Mapping>)
      returns (status: int)
      requires i < |starts| == |sizes| && a == starts[i] && a !in starts[..i] && Survive(m0, d.mapped, starts[..i])
      modifies this`d, this`refusals
      ensures d.reserved == old(d).reserved && d.handles == old(d).handles && refusals >= old(refusals)
      ensures Survive(m0, d.mapped, starts[..i + 1]) && forall b | b in old(d).mapped && b != a :: b in d.mapped
      ensures status == 0 <==> refusals == old(refusals) && a in m0 && m0[a].size == sizes[i]
      ensures refusals != old(refusals) ==> a in d.mapped
      ensures refusals == old(refusals) && old(d).mapped == m0 - Unmappable(m0, starts, sizes, i) ==>
                d.mapped == m0 - Unmappable(m0, starts, sizes, i + 1)
      ensures MappedAt(m0, starts, sizes, i + 1)
              <==> MappedAt(m0, starts, sizes, i) && a in m0 && m0[a].size == sizes[i]
    {
      status := MemUnmap(a, sizes[i]);
      NextUnmap(m0, old(d).mapped, d.mapped, starts, sizes, i);
    }

    /** The unmap loop over the first `n` chunks; every chunk is tried, the first error is kept.  A chunk is
        unmapped if it is mapped where it should start, with its size, by whomever. */
    method UnmapChunks(p: Addr, sizes: seq<nat>, n: nat, ghost starts: seq<Addr>) returns (firstError: int)
      requires n <= |sizes| && Consecutive(starts, p, sizes) && Distinct(starts)
      modifies this`d, this`refusals
      ensures d.reserved == old(d).reserved && d.handles == old(d).handles && refusals >= old(refusals)
      ensures firstError == 0 <==> refusals == old(refusals) && MappedAt(old(d).mapped, starts, sizes, n)
      ensures refusals == old(refusals) ==> d.mapped == old(d).mapped - Unmappable(old(d).mapped, starts, sizes, n)
      ensures refusals != old(refusals) ==> exists k :: 0 <= k < n && starts[k] in d.mapped
      ensures Survive(old(d).mapped, d.mapped, starts[..n])
    {
      var allocatedSize := 0;
      firstError := 0;
      var i := 0;
      ghost var stuck := 0;
      while i < n
        invariant 0 <= i <= n && (i < |sizes| ==> starts[i] == p + allocatedSize)
        invariant d.reserved == old(d).reserved && d.handles == old(d).handles && refusals >= old(refusals)
        invariant firstError == 0 <==> refusals == old(refusals) && MappedAt(old(d).mapped, starts, sizes, i)
        invariant refusals == old(refusals) ==> d.mapped == old(d).mapped - Unmappable(old(d).mapped, starts, sizes, i)
        invariant refusals != old(refusals) ==> 0 <= stuck < i && starts[stuck] in d.mapped
        invariant Survive(old(d).mapped, d.mapped, starts[..i])
      {
        ghost var before := refusals;
        assert starts[i] !in starts[..i];
        var status := UnmapChunk(p + allocatedSize, sizes, starts, i, old(d).mapped);
        if refusals != before { stuck := i; }
        if status != 0 && firstError == 0 {
          firstError := status;
        }
        allocatedSize := allocatedSize + sizes[i];
        i := i + 1;
      }
    }

    /** The release loop over the first `n` handles, whosever they are. */
    method ReleaseChunks(hs: seq<Handle>, n: nat) returns (firstError: int)
      requires n <= |hs|
      modifies this`d, this`refusals
      ensures d.reserved == old(d).reserved && d.mapped == old(d).mapped && refusals >= old(refusals)
      ensures firstError == 0 <==>
                refusals == old(refusals) && Distinct(hs[..n]) && forall i | 0 <= i < n :: hs[i] in old(d).handles
      ensures refusals == old(refusals) ==> d.handles == old(d).handles - (set h | h in hs[..n])
      ensures refusals != old(refusals) && Distinct(hs[..n]) ==> exists i :: 0 <= i < n && hs[i] in d.handles
      ensures forall h | h in d.handles :: h in old(d).handles && d.handles[h] == old(d).handles[h]
      ensures forall h | h in old(d).handles && h !in hs[..n] :: h in d.handles
    {
      firstError := 0;
      var i := 0;
      ghost var stuck := 0;
      while i < n
        invariant 0 <= i <= n
        invariant d.reserved == old(d).reserved && d.mapped == old(d).mapped && refusals >= old(refusals)
        invariant firstError == 0 <==>
                    refusals == old(refusals) && Distinct(hs[..i]) && forall k | 0 <= k < i :: hs[k] in old(d).handles
        invariant refusals == old(refusals) ==> d.handles == old(d).handles - (set h | h in hs[..i])
        invariant refusals != old(refusals) && Distinct(hs[..i]) ==> 0 <= stuck < i && hs[stuck] in d.handles
        invariant forall h | h in d.handles :: h in old(d).handles && d.handles[h] == old(d).handles[h]
        invariant forall h | h in old(d).handles && h !in hs[..i] :: h in d.handles
      {
        ghost var before := refusals;
        assert hs[..i + 1] == hs[..i] + [hs[i]];
        OneMoreDistinct(hs, i);
        var status := MemRelease(hs[i]);
        if refusals != before { stuck := i; }
        if status != 0 && firstError == 0 {
          firstError := status;
        }
        i := i + 1;
      }
    }

    /** The `cuMemCreate` loop.  It stops as soon as `error_code` is set, by this call or earlier; `made`
        handles were created before that one, and `granted` says whether that one was too.  `hs` is what
        the handle cells hold afterwards. */
    method CreateChunks(sizes: seq<nat>, cells: seq<Handle>) returns (hs: seq<Handle>, made: nat, granted: bool)
      requires |cells| == |sizes|
      modifies this`d, this`errorCode, this`denials, this`denied
      ensures old(errorCode) == 0 ==> denials == old(denials) + if made < |sizes| then 1 else 0
      ensures old(errorCode) == 0 && made < |sizes| ==> denied == AskCreate(sizes[made])
      ensures |hs| == |sizes| && made <= |sizes| && d.reserved == old(d).reserved && d.mapped == old(d).mapped
      ensures old(errorCode) == 0 ==>
                && HandlesAdded(old(d).handles, d.handles, sizes, hs, made) && (made == |sizes| <==> errorCode == 0)
                && hs[made..] == cells[made..]
      ensures old(errorCode) != 0 && sizes != [] ==>
                && made == 0 && errorCode != 0
                && if granted then NewInFirstCell(old(d), d, sizes[0], cells, hs) else d == old(d) && hs == cells
    {
      hs := cells;
      made, granted := 0, false;
      while made < |sizes|
        invariant 0 <= made <= |sizes| == |hs|
        invariant d.reserved == old(d).reserved && d.mapped == old(d).mapped && errorCode == old(errorCode)
        invariant (made > 0 ==> errorCode == 0) && denials == old(denials)
        invariant HandlesAdded(old(d).handles, d.handles, sizes, hs, made) && hs[made..] == cells[made..]
      {
        ghost var was := d.handles;
        var err, h := MemCreate(sizes[made]);
        CudaCheck(err);
        if errorCode != 0 {
          granted := err == 0;
          if granted { hs := hs[made := h]; }
          return;
        }
        OneMoreHandle(old(d).handles, was, sizes, hs, made, h);
        hs := hs[made := h];
        made := made + 1;
      }
    }

    /** One `cuMemMap` of the loop below. */
    method MapChunk(a: Addr, sizes: seq<nat>, hs: seq<Handle>, ghost starts: seq<Addr>, k: nat,
                    ghost m0: map<Addr, Mapping>)
      requires errorCode == 0 && k < |sizes| && ChunksAdded(m0, d.mapped, starts, sizes, hs, k) && a == starts[k]
      modifies this`d, this`errorCode, this`denials, this`denied
      ensures denials == if errorCode != 0 then old(denials) + 1 else old(denials)
      ensures errorCode != 0 ==> denied == AskMap(a, sizes[k], hs[k])
      ensures d.reserved == old(d).reserved && d.handles == old(d).handles && (errorCode != 0 ==> d == old(d))
      ensures errorCode == 0 ==> ChunksAdded(m0, d.mapped, starts, sizes, hs, k + 1)
      ensures DriverOk(old(d)) ==> DriverOk(d)
    {
      ghost var was := d.mapped;
      var err := MemMap(a, sizes[k], hs[k]);
      if err == 0 && DriverOk(old(d)) { MappedIsSound(old(d), d, a, sizes[k], hs[k]); }
      CudaCheck(err);
      if errorCode == 0 {
        OneMoreChunk(m0, was, starts, sizes, hs, k);
      }
    }

    /** The `cuMemMap` loop with its running `allocated_size`. */
    method MapChunks(p: Addr, sizes: seq<nat>, hs: seq<Handle>, ghost starts: seq<Addr>) returns (done: nat)
      requires errorCode == 0 && |hs| == |sizes| && AreStarts(starts, p, sizes) && Distinct(starts)
      modifies this`d, this`errorCode, this`denials, this`denied
      ensures denials == old(denials) + if done < |sizes| then 1 else 0
      ensures done < |sizes| ==> denied == AskMap(starts[done], sizes[done], hs[done])
      ensures done <= |sizes| && d.reserved == old(d).reserved && d.handles == old(d).handles
      ensures ChunksAdded(old(d).mapped, d.mapped, starts, sizes, hs, done) && (done == |sizes| <==> errorCode == 0)
      ensures DriverOk(old(d)) ==> DriverOk(d)
    {
      var allocatedSize := 0;
      done := 0;
      while done < |sizes|
        invariant 0 <= done <= |sizes| && allocatedSize == Offset(sizes, done) && errorCode == 0
        invariant denials == old(denials)
        invariant d.reserved == old(d).reserved && d.handles == old(d).handles
        invariant ChunksAdded(old(d).mapped, d.mapped, starts, sizes, hs, done) && (DriverOk(old(d)) ==> DriverOk(d))
      {
        assert starts[done] == p + allocatedSize;
        MapChunk(p + allocatedSize, sizes, hs, starts, done, old(d).mapped);
        if errorCode != 0 {
          return;
        }
        allocatedSize := allocatedSize + sizes[done];
        done := done + 1;
      }
    }

    /** `create_and_map`.  After a clean entry, a failed create or map is undone completely exactly
        when the driver refuses none of the clean-up calls; a failure to set access or to clear the
        memory is not undone.  After an entry with `error_code` already set nothing is mapped, the
        call reports failure, and one handle leaks exactly when the driver grants it. */
    method CreateAndMap(p: Addr, sizes: seq<nat>, cells: seq<Handle>, contextError: int)
      returns (hs: seq<Handle>, stage: Stage)
      requires sizes != [] && Positive(sizes) && |cells| == |sizes|
      modifies this`d, this`errorCode, this`refusals, this`denials, this`denied, this`openings
      ensures stage.Complete? <==> old(errorCode) == 0 && contextError == 0 && denials == old(denials)
      ensures !stage.StaleEntry? && !stage.Complete? ==> denials == old(denials) + 1
      ensures |hs| == |sizes| && StoppedBy(stage, denied, p, sizes, hs)
      ensures openings == Openings(old(openings), stage, p, Total(sizes))
      ensures d.reserved == old(d).reserved && refusals >= old(refusals)
      ensures stage.Complete? <==> errorCode == 0
      ensures stage.CreateFailed? || stage.MapFailed? ==> (d == old(d) <==> refusals == old(refusals))
      ensures stage.CreateFailed? ==>
                stage.i < |sizes| && hs[stage.i..] == cells[stage.i..] && FreshHandles(old(d), hs[..stage.i])
      ensures !stage.CreateFailed? && !stage.StaleEntry? ==> FreshHandles(old(d), hs)
      ensures stage.MapFailed? && p in old(d).mapped ==> stage.i == 0
      ensures stage.CreateFailed? || stage.StaleEntry? || (stage.MapFailed? && stage.i == 0) ==>
                d.mapped == old(d).mapped
      ensures stage.AccessFailed? || stage.MemsetFailed? || stage.Complete? ==>
                && refusals == old(refusals)
                && d.handles == old(d).handles + HandleMap(sizes, hs, |sizes|)
                && d.mapped == old(d).mapped + ChunkMap(p, sizes, hs, |sizes|)
                && ChunkMap(p, sizes, hs, |sizes|).Keys !! old(d).mapped.Keys
      ensures stage.StaleEntry? <==> old(errorCode) != 0 || contextError != 0
      ensures stage.StaleEntry? ==>
                && refusals == old(refusals) && (d == old(d) <==> !stage.granted)
                && if stage.granted then NewInFirstCell(old(d), d, sizes[0], cells, hs) else hs == cells
      ensures OnlyGrows(old(d), d) && NewOnesWithin(old(d).mapped, d.mapped, p, Total(sizes))
      ensures DriverOk(old(d)) ==> DriverOk(d)
    {
      CudaCheck(contextError);  // ensure_context
      var made, granted;
      var staleEntry := errorCode != 0;
      hs, made, granted := CreateChunks(sizes, cells);
      if DriverOk(old(d)) { SameRangesAreSound(old(d), d); }
      if !staleEntry { AddedAreFresh(old(d), d.handles, sizes, hs, made); }
      if made < |sizes| {
        var ignored := ReleaseChunks(hs, made);
        if DriverOk(old(d)) { SameRangesAreSound(old(d), d); }
        stage := if staleEntry then StaleEntry(granted) else CreateFailed(made);
        return;
      }
      assert hs[..made] == hs;
      stage := MapAll(p, sizes, hs, old(d).handles);
      if !stage.MapFailed? {
        AllHandles(old(d).handles, d.handles, sizes, hs);
      }
    }

    /** The rest of `create_and_map`, once every chunk has its handle. */
    method MapAll(p: Addr, sizes: seq<nat>, hs: seq<Handle>, ghost h0: map<Handle, nat>) returns (stage: Stage)
      requires errorCode == 0 && sizes != [] && Positive(sizes) && HandlesAdded(h0, d.handles, sizes, hs, |sizes|)
      modifies this`d, this`errorCode, this`refusals, this`denials, this`denied, this`openings
      ensures denials == old(denials) + if stage.Complete? then 0 else 1
      ensures StoppedBy(stage, denied, p, sizes, hs) && openings == Openings(old(openings), stage, p, Total(sizes))
      ensures d.reserved == old(d).reserved && refusals >= old(refusals)
      ensures !stage.CreateFailed? && !stage.StaleEntry? && (stage.Complete? <==> errorCode == 0)
      ensures stage.MapFailed? ==> (d.handles == h0 && d.mapped == old(d).mapped <==> refusals == old(refusals))
      ensures stage.MapFailed? && p in old(d).mapped ==> stage.i == 0
      ensures stage.MapFailed? && stage.i == 0 ==> d.mapped == old(d).mapped
      ensures !stage.MapFailed? ==>
                && refusals == old(refusals) && d.handles == old(d).handles
                && d.mapped == old(d).mapped + ChunkMap(p, sizes, hs, |sizes|)
                && ChunkMap(p, sizes, hs, |sizes|).Keys !! old(d).mapped.Keys
      ensures OnlyGrows(Driver(d.reserved, h0, old(d).mapped), d)
              && NewOnesWithin(old(d).mapped, d.mapped, p, Total(sizes))
      ensures DriverOk(old(d)) ==> DriverOk(d)
    {
      var done := MapOrUndo(p, sizes, hs, h0);
      if done < |sizes| {
        return MapFailed(done);
      }
      stage := OpenUp(p, Total(sizes));
    }

    /** The `cuMemMap` loop, and its clean-up if it fails. */
    method MapOrUndo(p: Addr, sizes: seq<nat>, hs: seq<Handle>, ghost h0: map<Handle, nat>) returns (done: nat)
      requires errorCode == 0 && sizes != [] && Positive(sizes) && HandlesAdded(h0, d.handles, sizes, hs, |sizes|)
      modifies this`d, this`errorCode, this`refusals, this`denials, this`denied
      ensures done <= |sizes| && (done == |sizes| <==> errorCode == 0)
      ensures denials == old(denials) + if done < |sizes| then 1 else 0
      ensures done < |sizes| ==> denied == AskMap(Starts(p, sizes)[done], sizes[done], hs[done])
      ensures d.reserved == old(d).reserved && refusals >= old(refusals)
      ensures done < |sizes| ==>
                && (d.handles == h0 && d.mapped == old(d).mapped <==> refusals == old(refusals))
                && (p in old(d).mapped ==> done == 0) && (done == 0 ==> d.mapped == old(d).mapped)
      ensures done == |sizes| ==>
                && refusals == old(refusals) && d.handles == old(d).handles
                && d.mapped == old(d).mapped + ChunkMap(p, sizes, hs, |sizes|)
                && ChunkMap(p, sizes, hs, |sizes|).Keys !! old(d).mapped.Keys
      ensures OnlyGrows(Driver(d.reserved, h0, old(d).mapped), d)
              && NewOnesWithin(old(d).mapped, d.mapped, p, Total(sizes))
      ensures DriverOk(old(d)) ==> DriverOk(d)
    {
      ghost var starts := Starts(p, sizes);
      StartsDistinct(p, sizes);
      done := MapChunks(p, sizes, hs, starts);
      AddedWithin(old(d).mapped, d.mapped, p, sizes, hs, done);
      if done < |sizes| {
        UndoMaps(p, sizes, hs, done, starts, h0, old(d).mapped);
      } else {
        AllChunks(old(d).mapped, d.mapped, p, sizes, hs);
      }
    }

    /** The mapped range is made accessible and cleared. */
    method OpenUp(p: Addr, size: nat) returns (stage: Stage)
      requires errorCode == 0
      modifies this`errorCode, this`denials, this`denied, this`openings
      ensures stage.AccessFailed? || stage.MemsetFailed? || stage.Complete?
      ensures stage.Complete? <==> errorCode == 0
      ensures denials == old(denials) + if stage.Complete? then 0 else 1
      ensures stage.AccessFailed? ==> denied == AskAccess(p, size)
      ensures stage.MemsetFailed? ==> denied == AskClear(p, size)
      ensures openings == Openings(old(openings), stage, p, size)
    {
      var err := MemSetAccess(p, size);
      CudaCheck(err);
      if errorCode != 0 {
        return AccessFailed;
      }
      err := Memset(p, size);
      CudaCheck(err);
      stage := if errorCode != 0 then MemsetFailed else Complete;
    }

    /** The clean-up after a failed map: unmap what was mapped, release every handle. */
    method UndoMaps(p: Addr, sizes: seq<nat>, hs: seq<Handle>, done: nat, ghost starts: seq<Addr>,
                    ghost h0: map<Handle, nat>, ghost m0: map<Addr, Mapping>)
      requires done < |sizes| == |hs| && AreStarts(starts, p, sizes) && Distinct(starts)
      requires ChunksAdded(m0, d.mapped, starts, sizes, hs, done) && HandlesAdded(h0, d.handles, sizes, hs, |sizes|)
      modifies this`d, this`refusals
      ensures d.reserved == old(d).reserved && refusals >= old(refusals)
      ensures d.handles == h0 && d.mapped == m0 <==> refusals == old(refusals)
      ensures p in m0 ==> done == 0
      ensures done == 0 ==> d.mapped == m0
      ensures OnlyGrows(Driver(d.reserved, h0, m0), d)
      ensures NewOnesWithin(m0, old(d).mapped, p, Total(sizes)) ==> NewOnesWithin(m0, d.mapped, p, Total(sizes))
      ensures DriverOk(old(d)) ==> DriverOk(d)
    {
      assert starts[0] == p;
      assert hs[..|sizes|] == hs;
      StartsAreConsecutive(starts, p, sizes);
      AddedAreUnmappable(m0, d.mapped, starts, sizes, hs, done);
      var ignored := UnmapChunks(p, sizes, done, starts);
      ghost var stuckMap := refusals != old(refusals);
      ignored := ReleaseChunks(hs, |sizes|);
      AddedBackOut(h0, old(d).handles, sizes, hs);
      if DriverOk(old(d)) { ShrunkIsSound(old(d), d); }
    }

    /** `unmap_and_release`: every chunk is unmapped and every handle released, whatever fails. */
    method UnmapAndRelease(p: Addr, sizes: seq<nat>, cells: seq<Handle>, contextError: int)
      requires Positive(sizes) && |cells| == |sizes|
      modifies this`d, this`errorCode, this`refusals
      ensures d.reserved == old(d).reserved && refusals >= old(refusals)
      ensures errorCode == 0 <==>
                && old(errorCode) == 0 && contextError == 0 && refusals == old(refusals)
                && MappedAt(old(d).mapped, Starts(p, sizes), sizes, |sizes|)
                && Distinct(cells) && forall i | 0 <= i < |cells| :: cells[i] in old(d).handles
      ensures refusals == old(refusals) ==>
                && d.handles == old(d).handles - (set h | h in cells)
                && d.mapped == old(d).mapped - Unmappable(old(d).mapped, Starts(p, sizes), sizes, |sizes|)
      ensures Survive(old(d).mapped, d.mapped, Starts(p, sizes)) && HandlesSurvive(old(d).handles, d.handles, cells)
    {
      CudaCheck(contextError);  // ensure_context
      ghost var starts := Starts(p, sizes);
      StartsDistinct(p, sizes);
      StartsAreConsecutive(starts, p, sizes);
      var firstError := UnmapChunks(p, sizes, |sizes|, starts);
      assert starts[..|sizes|] == starts && cells[..|sizes|] == cells;
      var releaseError := ReleaseChunks(cells, |sizes|);
      if firstError == 0 { firstError := releaseError; }
      CudaCheck(firstError);
    }
  }

  // ----- Facts about the chunk loops

  /** Each chunk starts where the one before it ends. */
  ghost predicate Consecutive(starts: seq<Addr>, p: Addr, sizes: seq<nat>) {
    && |starts| == |sizes| && (sizes != [] ==> starts[0] == p)
    && forall i, j | 0 <= i < j < |sizes| && j == i + 1 :: starts[j] == starts[i] + sizes[i]
  }

  lemma StartsAreConsecutive(starts: seq<Addr>, p: Addr, sizes: seq<nat>)
    requires AreStarts(starts, p, sizes)
    ensures Consecutive(starts, p, sizes)
  {
  }

  /** The starts at which a chunk of the right size is mapped. */
  ghost function Unmappable(m: map<Addr, Mapping>, starts: seq<Addr>, sizes: seq<nat>, n: nat): set<Addr>
    requires n <= |starts| == |sizes|
  {
    set k | 0 <= k < n && starts[k] in m && m[starts[k]].size == sizes[k] :: starts[k]
  }

  /** No handle is new or changed, and only handles in `hs` are gone. */
  ghost predicate HandlesSurvive(h0: map<Handle, nat>, h1: map<Handle, nat>, hs: seq<Handle>) {
    && (forall h | h in h1 :: h in h0 && h1[h] == h0[h])
    && (forall h | h in h0 && h !in hs :: h in h1)
  }

  lemma NextUnmap(m0: map<Addr, Mapping>, was: map<Addr, Mapping>, now: map<Addr, Mapping>, starts: seq<Addr>,
                  sizes: seq<nat>, i: nat)
    requires i < |starts| == |sizes| && starts[i] !in starts[..i] && Survive(m0, was, starts[..i])
    requires now == was || now == was - {starts[i]}
    ensures Survive(m0, now, starts[..i + 1])
    ensures starts[i] in was <==> starts[i] in m0
    ensures starts[i] in m0 ==> was[starts[i]] == m0[starts[i]]
    ensures Unmappable(m0, starts, sizes, i + 1)
            == Unmappable(m0, starts, sizes, i)
               + if starts[i] in m0 && m0[starts[i]].size == sizes[i] then {starts[i]} else {}
    ensures MappedAt(m0, starts, sizes, i + 1) <==>
              MappedAt(m0, starts, sizes, i) && starts[i] in m0 && m0[starts[i]].size == sizes[i]
  {
    assert starts[..i + 1] == starts[..i] + [starts[i]];
  }

  lemma OneMoreDistinct(hs: seq<Handle>, i: nat)
    requires i < |hs|
    ensures Distinct(hs[..i + 1]) <==> Distinct(hs[..i]) && hs[i] !in hs[..i]
  {
    var a, b := hs[..i], hs[..i + 1];
    assert forall k | 0 <= k < i :: a[k] == b[k];
    if Distinct(b) {
      forall k | 0 <= k < i ensures a[k] != hs[i] { assert b[k] != b[i]; }
    }
  }

  /** A handle granted in spite of a stale error is in the first cell. */
  ghost predicate NewInFirstCell(d: Driver, d': Driver, size: nat, cells: seq<Handle>, hs: seq<Handle>) {
    && hs != [] && |hs| == |cells| && hs == cells[0 := hs[0]] && hs[0] !in d.handles
    && d' == d.(handles := d.handles[hs[0] := size])
  }

  lemma AddedAreFresh(d: Driver, h1: map<Handle, nat>, sizes: seq<nat>, hs: seq<Handle>, n: nat)
    requires HandlesAdded(d.handles, h1, sizes, hs, n)
    ensures FreshHandles(d, hs[..n])
  {
  }

  lemma AddedBackOut(h0: map<Handle, nat>, h1: map<Handle, nat>, sizes: seq<nat>, hs: seq<Handle>)
    requires HandlesAdded(h0, h1, sizes, hs, |sizes|)
    ensures h1 - (set h | h in hs) == h0 && Distinct(hs) && forall h | h in hs :: h !in h0
  {
    assert hs[..|sizes|] == hs;
  }

  lemma AddedAreUnmappable(m0: map<Addr, Mapping>, m1: map<Addr, Mapping>, starts: seq<Addr>, sizes: seq<nat>,
                           hs: seq<Handle>, n: nat)
    requires ChunksAdded(m0, m1, starts, sizes, hs, n)
    ensures m1 - Unmappable(m1, starts, sizes, n) == m0 && forall k | 0 <= k < n :: starts[k] !in m0
  {
    forall a | a in m1 && a !in m0 ensures a in Unmappable(m1, starts, sizes, n) {
      var k :| 0 <= k < n && starts[k] == a;
    }
  }

  /** Only chunks and handles of the allocation `e` at `p` are gone, and nothing is new. */
  ghost predicate OnlyLosesOwn(d: Driver, d': Driver, p: Addr, e: Entry) {
    && (forall a | a in d'.mapped :: a in d.mapped && d'.mapped[a] == d.mapped[a])
    && (forall a | a in d.mapped && !(p <= a < p + e.size) :: a in d'.mapped)
    && (forall h | h in d.handles && h !in e.handles :: h in d'.handles && d'.handles[h] == d.handles[h])
  }

  lemma EntryMappedAt(d: Driver, p: Addr, e: Entry)
    requires EntryOk(d, p, e) && Up(e.status)
    ensures MappedAt(d.mapped, Starts(p, e.sizes), e.sizes, |e.sizes|)
    ensures Unmappable(d.mapped, Starts(p, e.sizes), e.sizes, |e.sizes|) == Chunks(p, e).Keys
    ensures forall a | a in Starts(p, e.sizes) :: p <= a < p + e.size
    ensures forall i | 0 <= i < |e.sizes| :: e.handles[i] in d.handles
  {
    var starts := Starts(p, e.sizes);
    forall k {:trigger starts[k]} | 0 <= k < |e.sizes|
      ensures starts[k] in d.mapped && d.mapped[starts[k]].size == e.sizes[k]
    {
      ChunkBacked(d, p, e, k);
    }
    ChunkMapKeys(p, e.sizes, e.handles, |e.sizes|);
    assert starts[..|e.sizes|] == starts;
    StartsWithin(p, e.sizes);
  }

  lemma StartsWithin(p: Addr, sizes: seq<nat>)
    requires Positive(sizes)
    ensures forall a | a in Starts(p, sizes) :: p <= a < p + Total(sizes)
  {
    var starts := Starts(p, sizes);
    forall a | a in starts ensures p <= a < p + Total(sizes) {
      var k :| 0 <= k < |starts| && starts[k] == a;
      OffsetsGrow(sizes, k, |sizes|);
    }
  }

  /** `h1` is `h0` plus the first `n` of the handles `hs`, which are new and distinct. */
  ghost predicate HandlesAdded(h0: map<Handle, nat>, h1: map<Handle, nat>, sizes: seq<nat>, hs: seq<Handle>, n: nat) {
    && n <= |sizes| == |hs|
    && (forall h :: h in h1 <==> h in h0 || h in hs[..n])
    && (forall h | h in h0 :: h1[h] == h0[h])
    && (forall k {:trigger hs[k]} | 0 <= k < n :: hs[k] !in h0 && hs[k] in h1 && h1[hs[k]] == sizes[k])
    && Distinct(hs[..n])
  }

  /** `m1` is `m0` plus the first `n` chunks. */
  ghost predicate ChunksAdded(m0: map<Addr, Mapping>, m1: map<Addr, Mapping>, starts: seq<Addr>, sizes: seq<nat>,
                              hs: seq<Handle>, n: nat) {
    && n <= |sizes| == |hs| == |starts|
    && (forall a :: a in m1 <==> a in m0 || a in starts[..n])
    && (forall a | a in m0 :: m1[a] == m0[a])
    && (forall k {:trigger starts[k]} | 0 <= k < n ::
          starts[k] !in m0 && starts[k] in m1 && m1[starts[k]] == Mapping(sizes[k], hs[k]))
  }

  /** What was there is still there. */
  ghost predicate OnlyGrows(d: Driver, d': Driver) {
    && (forall h | h in d.handles :: h in d'.handles && d'.handles[h] == d.handles[h])
    && (forall a | a in d.mapped :: a in d'.mapped && d'.mapped[a] == d.mapped[a])
  }

  /** Mappings in `m'` that are not in `m` lie within the range of `size` bytes at `p`. */
  ghost predicate NewOnesWithin(m: map<Addr, Mapping>, m': map<Addr, Mapping>, p: Addr, size: nat) {
    forall a | a in m' && a !in m :: m'[a].size > 0 && p <= a && a + m'[a].size <= p + size
  }

  lemma AddedWithin(m0: map<Addr, Mapping>, m1: map<Addr, Mapping>, p: Addr, sizes: seq<nat>, hs: seq<Handle>, n: nat)
    requires Positive(sizes) && |hs| == |sizes| && ChunksAdded(m0, m1, Starts(p, sizes), sizes, hs, n)
    ensures NewOnesWithin(m0, m1, p, Total(sizes))
  {
    var starts := Starts(p, sizes);
    forall a | a in m1 && a !in m0 ensures m1[a].size > 0 && p <= a && a + m1[a].size <= p + Total(sizes) {
      var k :| 0 <= k < n && starts[k] == a;
      OffsetsGrow(sizes, k, |sizes|);
    }
  }

  lemma AllHandles(h0: map<Handle, nat>, h1: map<Handle, nat>, sizes: seq<nat>, hs: seq<Handle>)
    requires HandlesAdded(h0, h1, sizes, hs, |sizes|)
    ensures h1 == h0 + HandleMap(sizes, hs, |sizes|) && Distinct(hs) && forall h | h in hs :: h !in h0
  {
    assert hs[..|sizes|] == hs;
    HandleMapKeys(sizes, hs, |sizes|);
    forall k | 0 <= k < |sizes| ensures HandleMap(sizes, hs, |sizes|)[hs[k]] == sizes[k] {
      HandleMapAt(sizes, hs, |sizes|, k);
    }
    assert h1 == h0 + HandleMap(sizes, hs, |sizes|);
  }

  lemma AllChunks(m0: map<Addr, Mapping>, m1: map<Addr, Mapping>, p: Addr, sizes: seq<nat>, hs: seq<Handle>)
    requires Positive(sizes) && |hs| == |sizes| && ChunksAdded(m0, m1, Starts(p, sizes), sizes, hs, |sizes|)
    ensures m1 == m0 + ChunkMap(p, sizes, hs, |sizes|) && ChunkMap(p, sizes, hs, |sizes|).Keys !! m0.Keys
  {
    var starts, cm := Starts(p, sizes), ChunkMap(p, sizes, hs, |sizes|);
    ChunkMapKeys(p, sizes, hs, |sizes|);
    assert starts[..|sizes|] == starts;
    forall k {:trigger starts[k]} | 0 <= k < |sizes|
      ensures starts[k] in cm && cm[starts[k]] == Mapping(sizes[k], hs[k])
    {
      ChunkMapAt(p, sizes, hs, |sizes|, k);
    }
    AddedAll(m0, m1, starts, sizes, hs, cm);
  }

  lemma AddedAll(m0: map<Addr, Mapping>, m1: map<Addr, Mapping>, starts: seq<Addr>, sizes: seq<nat>, hs: seq<Handle>,
                 cm: map<Addr, Mapping>)
    requires ChunksAdded(m0, m1, starts, sizes, hs, |sizes|) && starts[..|sizes|] == starts
    requires cm.Keys == set a | a in starts
    requires forall k {:trigger starts[k]} | 0 <= k < |sizes| ::
               starts[k] in cm && cm[starts[k]] == Mapping(sizes[k], hs[k])
    ensures m1 == m0 + cm && cm.Keys !! m0.Keys
  {
    forall a | a in cm ensures a in m1 && a !in m0 && m1[a] == cm[a] {
      var k :| 0 <= k < |starts| && starts[k] == a;
    }
    assert m1 == m0 + cm;
  }

  lemma OneMoreHandle(h0: map<Handle, nat>, h1: map<Handle, nat>, sizes: seq<nat>, hs: seq<Handle>, n: nat, h: Handle)
    requires HandlesAdded(h0, h1, sizes, hs, n) && n < |sizes| && h !in h1
    ensures HandlesAdded(h0, h1[h := sizes[n]], sizes, hs[n := h], n + 1)
  {
    var hs' := hs[n := h];
    assert hs'[..n + 1] == hs[..n] + [h];
    forall k | 0 <= k < n ensures hs'[k] == hs[..n][k] { }
  }

  lemma OneMoreChunk(m0: map<Addr, Mapping>, m1: map<Addr, Mapping>, starts: seq<Addr>, sizes: seq<nat>,
                     hs: seq<Handle>, n: nat)
    requires ChunksAdded(m0, m1, starts, sizes, hs, n) && n < |sizes| && starts[n] !in m1
    ensures ChunksAdded(m0, m1[starts[n] := Mapping(sizes[n], hs[n])], starts, sizes, hs, n + 1)
  {
    assert starts[..n + 1] == starts[..n] + [starts[n]];
    forall k | 0 <= k < n ensures starts[k] in m1 { }
  }

  /** No mapping appears, changes, or vanishes unless it starts at one of `starts`. */
  ghost predicate Survive(m: map<Addr, Mapping>, m': map<Addr, Mapping>, starts: seq<Addr>) {
    && (forall a | a in m' :: a in m && m'[a] == m[a])
    && (forall a | a in m && a !in starts :: a in m')
  }

  /** Where the chunks of an allocation at `p` start. */
  ghost function Starts(p: Addr, sizes: seq<nat>): (s: seq<Addr>)
    ensures AreStarts(s, p, sizes)
  {
    seq(|sizes|, i requires 0 <= i < |sizes| => p + Offset(sizes, i))
  }

  ghost predicate AreStarts(starts: seq<Addr>, p: Addr, sizes: seq<nat>) {
    |starts| == |sizes| && forall i {:trigger starts[i]} | 0 <= i < |starts| :: starts[i] == p + Offset(sizes, i)
  }

  /** Each of the first `n` chunks is mapped where it starts, with its size. */
  ghost predicate MappedAt(mapped: map<Addr, Mapping>, starts: seq<Addr>, sizes: seq<nat>, n: nat)
    requires n <= |starts| == |sizes|
  {
    forall k {:trigger starts[k]} | 0 <= k < n :: starts[k] in mapped && mapped[starts[k]].size == sizes[k]
  }

  lemma StartsDistinct(p: Addr, sizes: seq<nat>)
    requires Positive(sizes)
    ensures Distinct(Starts(p, sizes))
  {
    forall i, j | 0 <= i < j < |sizes| ensures Starts(p, sizes)[i] != Starts(p, sizes)[j] { OffsetsGrow(sizes, i, j); }
  }

  lemma {:induction false} ChunkMapKeys(p: Addr, sizes: seq<nat>, hs: seq<Handle>, n: nat)
    requires n <= |sizes| == |hs|
    ensures ChunkMap(p, sizes, hs, n).Keys == set a | a in Starts(p, sizes)[..n]
  {
    if n > 0 {
      ChunkMapKeys(p, sizes, hs, n - 1);
      assert Starts(p, sizes)[..n] == Starts(p, sizes)[..n - 1] + [Starts(p, sizes)[n - 1]];
    }
  }

  lemma ReservedIsEmpty(d: Driver, p: Addr, size: nat)
    requires DriverOk(d) && NothingReserved(d, p, size)
    ensures NothingMapped(d, p, size)
  {
    forall a | a in d.mapped ensures Apart(a, d.mapped[a].size, p, size) {
      var q :| q in d.reserved && q <= a && a + d.mapped[a].size <= q + d.reserved[q];
    }
  }

  // ----- The driver calls keep the driver sound

  /** Unmapping, and freeing a range that nothing is mapped in. */
  lemma ShrunkIsSound(d: Driver, d': Driver)
    requires DriverOk(d)
    requires forall q | q in d'.reserved :: q in d.reserved && d'.reserved[q] == d.reserved[q]
    requires forall a | a in d'.mapped :: a in d.mapped && d'.mapped[a] == d.mapped[a]
    requires forall q | q in d.reserved && q !in d'.reserved :: NothingMapped(d', q, d.reserved[q])
    ensures DriverOk(d')
  {
    forall a | a in d'.mapped ensures Inside(d', a, d'.mapped[a].size) {
      var q :| q in d.reserved && q <= a && a + d.mapped[a].size <= q + d.reserved[q];
      assert q in d'.reserved && q <= a && a + d'.mapped[a].size <= q + d'.reserved[q];
    }
  }

  /** Mapping inside a reserved range, and creating handles. */
  lemma GrownIsSound(d: Driver, d': Driver, p: Addr, size: nat)
    requires DriverOk(d) && p in d.reserved && d.reserved[p] == size && d'.reserved == d.reserved
    requires OnlyGrows(d, d') && NewOnesWithin(d.mapped, d'.mapped, p, size)
    ensures DriverOk(d')
  {
    forall a | a in d'.mapped ensures d'.mapped[a].size > 0 && Inside(d', a, d'.mapped[a].size) {
      if a in d.mapped {
        StaysInside(d, d', a, d.mapped[a].size);
      } else {
        assert p in d'.reserved && p <= a && a + d'.mapped[a].size <= p + d'.reserved[p];
      }
    }
  }

  /** Soundness does not speak of handles. */
  lemma SameRangesAreSound(d: Driver, d': Driver)
    requires DriverOk(d) && d'.reserved == d.reserved && d'.mapped == d.mapped
    ensures DriverOk(d')
  {
    forall a | a in d'.mapped ensures Inside(d', a, d'.mapped[a].size) { StaysInside(d, d', a, d.mapped[a].size); }
  }

  lemma MappedIsSound(d: Driver, d': Driver, a: Addr, size: nat, h: Handle)
    requires DriverOk(d) && size > 0 && Inside(d, a, size) && d' == d.(mapped := d.mapped[a := Mapping(size, h)])
    ensures DriverOk(d')
  {
    forall b | b in d'.mapped ensures Inside(d', b, d'.mapped[b].size) { StaysInside(d, d', b, d'.mapped[b].size); }
  }

  lemma ReservingIsSound(d: Driver, d': Driver, p: Addr, size: nat)
    requires DriverOk(d) && size > 0 && NothingReserved(d, p, size)
    requires d'.reserved == d.reserved[p := size] && d'.mapped == d.mapped
    ensures DriverOk(d') && p !in d.reserved
  {
    forall a | a in d'.mapped ensures Inside(d', a, d'.mapped[a].size) {
      var q :| q in d.reserved && q <= a && a + d.mapped[a].size <= q + d.reserved[q];
      assert q in d'.reserved && q <= a && a + d'.mapped[a].size <= q + d'.reserved[q];
    }
  }
}

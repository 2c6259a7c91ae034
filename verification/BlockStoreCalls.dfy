/** The bodies of `_store_block`, `_load_block` and the batch loops, run against the shared machine.

    Each system call is one event of the machine; after it returns, other calls run for as long as
    they like before this call goes on.  Whatever a body does is therefore a run of the machine, and
    the results of BlockStoreSafety apply to it.
 */
module BlockStoreCalls {
  import opened BlockStore
  import opened Prelude
  import BlockStoreSafety
  import opened BlockStoreOutcomes

  /** What a batch call tells Python: nothing, a ValueError, or an OSError for one path. */
  datatype BatchResult = AllDone | LengthMismatch | FailedAt(index: nat, errno: int)

  class Machine {
    var s: State
    ghost var trace: seq<Event>
    ghost const start: State
    ghost const ours: set<CallId>  // identities of the calls this thread makes

    ghost predicate Valid()
      reads this
    {
      Inv(start) && After(start, trace) == Some(s)
    }

    method Do(e: Event)
      requires Valid() && Enabled(s, e)
      modifies this
      ensures Valid() && trace == old(trace) + [e] && s == Apply(old(s), e)
    {
      assert (trace + [e])[..|trace|] == trace;
      s := Apply(s, e);
      trace := trace + [e];
    }

    /** Any number of events of other threads; a caller learns only that its own calls did not move. */
    method OthersRun()
      requires Valid()
      modifies this
      ensures Valid() && old(trace) <= trace
      ensures OursUnchanged({})
    {
    }

    /** This thread's calls, except those in `moved`, are as they were. */
    twostate predicate OursUnchanged(moved: set<CallId>)
      reads this
    {
      forall k | k in ours && k !in moved ::
        (k in s.calls <==> k in old(s.calls)) && (k in s.calls ==> s.calls[k] == old(s.calls[k]))
    }

    ghost predicate StoreIs(id: CallId, tmp: Path, dest: Path, src: Bytes, pc: StorePc)
      reads this
    {
      Valid() && id in ours && id in s.calls && s.calls[id] == Store(tmp, dest, src, pc)
    }

    ghost predicate LoadIs(id: CallId, source: Path, size: nat, pc: LoadPc)
      reads this
    {
      Valid() && id in ours && id in s.calls && s.calls[id] == Load(source, size, pc)
    }

    /** Store call `id` returned `err`. */
    ghost predicate StoreReturned(id: CallId, tmp: Path, dest: Path, src: Bytes, err: int)
      reads this
    {
      && id in s.calls && s.calls[id].Store?
      && s.calls[id].tmp == tmp && s.calls[id].dest == dest && s.calls[id].src == src
      && (if err == 0 then s.calls[id].spc.AlreadyThere? || s.calls[id].spc.Published?
          else s.calls[id].spc.StoreFailed? && s.calls[id].spc.err == err)
    }

    /** Deliver `e` to the store `id`, then let others run. */
    method StoreTurn(e: Event, tmp: Path, dest: Path, src: Bytes, pc: StorePc)
      requires StoreIs(e.id, tmp, dest, src, pc) && !e.StartStore? && !e.StartLoad?
      requires EnabledStore(s, e, tmp, dest, src, pc)
      modifies this
      ensures old(trace) <= trace && OursUnchanged({e.id}) && StoreIs(e.id, tmp, dest, src, NextStorePc(e, src, pc))
    {
      Do(e);
      OthersRun();
    }

    method LoadTurn(e: Event, source: Path, size: nat, pc: LoadPc)
      requires LoadIs(e.id, source, size, pc) && !e.StartStore? && !e.StartLoad?
      requires EnabledLoad(s, e, source, size, pc)
      modifies this
      ensures old(trace) <= trace && OursUnchanged({e.id})
              && LoadIs(e.id, source, size, old(NextLoadPc(s, e, source, size, pc)))
    {
      Do(e);
      OthersRun();
    }

    /** `unlink(tmp_path)`, whose own result is ignored. */
    method DiscardTemp(id: CallId, tmp: Path, dest: Path, src: Bytes, ino: Ino, err: int)
      requires StoreIs(id, tmp, dest, src, AtUnlinkTmp(ino, err))
      modifies this
      ensures old(trace) <= trace && OursUnchanged({id})
      ensures StoreIs(id, tmp, dest, src, StoreFailed(err, None))
              || StoreIs(id, tmp, dest, src, StoreFailed(err, Some(ino)))
    {
      var errno: int := *;
      if tmp !in s.dir { errno := 2; }
      StoreTurn(UnlinkReturns(id, errno), tmp, dest, src, AtUnlinkTmp(ino, err));
    }

    method StoreBlock(id: CallId, tmp: Path, dest: Path, src: Bytes) returns (err: int)
      requires Valid() && id in ours && id !in s.calls && tmp in s.temps && dest !in s.temps
      modifies this
      ensures Valid() && old(trace) <= trace && OursUnchanged({id})
      ensures StoreReturned(id, tmp, dest, src, err)
      ensures err == 0 <==> NoObstacle(Answers(trace, id), Moved(trace, id), |src|)
    {
      err := StoreSteps(id, tmp, dest, src);
      BlockStoreOutcomes.StoreReturned(start, old(trace), trace, id);
    }

    method StoreSteps(id: CallId, tmp: Path, dest: Path, src: Bytes) returns (err: int)
      requires Valid() && id in ours && id !in s.calls && tmp in s.temps && dest !in s.temps
      modifies this
      ensures Valid() && old(trace) <= trace && OursUnchanged({id})
      ensures StoreReturned(id, tmp, dest, src, err)
    {
      Do(StartStore(id, tmp, dest, src));
      OthersRun();

      var found: bool := *;
      found := found && dest in s.dir;
      StoreTurn(AccessReturns(id, found), tmp, dest, src, AtAccess);
      if found { return 0; }

      err := *;
      StoreTurn(MkdirsReturns(id, err), tmp, dest, src, AtMkdirs);
      if err != 0 { return err; }

      err := OpenAndStore(id, tmp, dest, src);
    }

    method OpenAndStore(id: CallId, tmp: Path, dest: Path, src: Bytes) returns (err: int)
      requires StoreIs(id, tmp, dest, src, AtOpen)
      modifies this
      ensures Valid() && old(trace) <= trace && OursUnchanged({id})
      ensures StoreReturned(id, tmp, dest, src, err) && !s.calls[id].spc.AlreadyThere?
    {
      err := *;
      var fd: Ino := *;
      if tmp in s.dir || fd in s.inodes { err := EEXIST; }
      StoreTurn(OpenReturns(id, err, fd), tmp, dest, src, AtOpen);
      if err != 0 { return err; }

      err := WriteAndRename(id, tmp, dest, src, fd);
    }

    /** The part of `_store_block` that owns the temp file. */
    method WriteAndRename(id: CallId, tmp: Path, dest: Path, src: Bytes, fd: Ino) returns (err: int)
      requires StoreIs(id, tmp, dest, src, AtWrite(fd, 0))
      modifies this
      ensures Valid() && old(trace) <= trace && OursUnchanged({id})
      ensures StoreReturned(id, tmp, dest, src, err) && !s.calls[id].spc.AlreadyThere?
    {
      var written: nat := *;
      if written > |src| || fd !in s.inodes { written := 0; } else {
        StoreTurn(KernelMoves(id, written), tmp, dest, src, AtWrite(fd, 0));
      }
      err := *;
      StoreTurn(TransferReturns(id, err), tmp, dest, src, AtWrite(fd, written));
      if err != 0 || written != |src| {
        err := if err != 0 then err else EIO;
        StoreTurn(CloseReturns(id, 0), tmp, dest, src, AtAbortClose(fd, err));
        DiscardTemp(id, tmp, dest, src, fd, err);
        return err;
      }
      err := CloseAndRename(id, tmp, dest, src, fd);
    }

    method CloseAndRename(id: CallId, tmp: Path, dest: Path, src: Bytes, fd: Ino) returns (err: int)
      requires StoreIs(id, tmp, dest, src, AtClose(fd))
      modifies this
      ensures Valid() && old(trace) <= trace && OursUnchanged({id})
      ensures StoreReturned(id, tmp, dest, src, err) && !s.calls[id].spc.AlreadyThere?
    {
      err := *;
      StoreTurn(CloseReturns(id, err), tmp, dest, src, AtClose(fd));
      if err != 0 {
        DiscardTemp(id, tmp, dest, src, fd, err);
        return err;
      }

      err := *;
      if tmp !in s.dir { err := 2; }
      StoreTurn(RenameReturns(id, err), tmp, dest, src, AtRename(fd));
      if err != 0 {
        DiscardTemp(id, tmp, dest, src, fd, err);
      }
    }

    /** `unlink(source_path)`, whose own result is ignored. */
    method DiscardSource(id: CallId, source: Path, size: nat, err: int)
      requires LoadIs(id, source, size, AtUnlinkSource(err))
      modifies this
      ensures old(trace) <= trace && OursUnchanged({id}) && LoadIs(id, source, size, LoadFailed(err))
    {
      var errno: int := *;
      if source !in s.dir { errno := 2; }
      LoadTurn(UnlinkReturns(id, errno), source, size, AtUnlinkSource(err));
    }

    method LoadBlock(id: CallId, source: Path, size: nat) returns (err: int, dst: Bytes)
      requires Valid() && id in ours && id !in s.calls && source !in s.temps
      modifies this
      ensures Valid() && old(trace) <= trace && OursUnchanged({id}) && id in s.calls
      ensures err == 0 ==>
                && s.calls[id].Load? && s.calls[id].source == source && s.calls[id].size == size
                && s.calls[id].lpc.Loaded? && dst == s.calls[id].lpc.got
                && exists w, src :: && BlockStoreSafety.CompletedStore(s, w, source, src)
                                    && |dst| == size <= |src| && dst == src[..size] && (|src| == size ==> dst == src)
      ensures err != 0 ==> s.calls[id] == Load(source, size, LoadFailed(err))
      ensures err == 0 <==> AllZero(Answers(trace, id)) && Moved(trace, id) == size
    {
      err, dst := LoadSteps(id, source, size);
      if err == 0 { BlockStoreSafety.LoadReadsOneWholeBlock(start, trace, id); }
      BlockStoreOutcomes.LoadReturned(start, old(trace), trace, id);
    }

    method LoadSteps(id: CallId, source: Path, size: nat) returns (err: int, dst: Bytes)
      requires Valid() && id in ours && id !in s.calls && source !in s.temps
      modifies this
      ensures Valid() && old(trace) <= trace && OursUnchanged({id}) && id in s.calls
      ensures err == 0 ==> s.calls[id].Load? && s.calls[id].source == source && s.calls[id].size == size
                           && s.calls[id].lpc.Loaded? && dst == s.calls[id].lpc.got
      ensures err != 0 ==> s.calls[id] == Load(source, size, LoadFailed(err))
    {
      dst := [];
      Do(StartLoad(id, source, size));
      OthersRun();

      err := *;
      if source !in s.dir { err := 2; }
      var fd: Ino := if source in s.dir then s.dir[source] else 0;
      LoadTurn(OpenReturns(id, err, fd), source, size, AtOpenSource);
      if err != 0 {
        DiscardSource(id, source, size, err);
        return;
      }

      err, dst := ReadOut(id, source, size, fd);
    }

    /** The part of `_load_block` that has the source open. */
    method ReadOut(id: CallId, source: Path, size: nat, fd: Ino) returns (err: int, dst: Bytes)
      requires LoadIs(id, source, size, AtRead(fd, []))
      modifies this
      ensures Valid() && old(trace) <= trace && OursUnchanged({id}) && id in s.calls
      ensures err == 0 ==> s.calls[id] == Load(source, size, Loaded(fd, dst))
      ensures err != 0 ==> s.calls[id] == Load(source, size, LoadFailed(err))
    {
      dst := [];
      var n: int := *;
      if fd in s.inodes && 0 <= n <= size && n <= |s.inodes[fd].bytes| {
        dst := s.inodes[fd].bytes[..n];
        assert [] + s.inodes[fd].bytes[0..0 + n] == dst;
        LoadTurn(KernelMoves(id, n), source, size, AtRead(fd, []));
      }
      err := *;
      LoadTurn(TransferReturns(id, err), source, size, AtRead(fd, dst));
      if err != 0 || |dst| != size {
        err := if err != 0 then err else EIO;
        LoadTurn(CloseReturns(id, 0), source, size, AtAbortReadClose(err));
        DiscardSource(id, source, size, err);
        return;
      }

      err := *;
      LoadTurn(CloseReturns(id, err), source, size, AtReadClose(fd, dst));
      if err != 0 {
        DiscardSource(id, source, size, err);
      }
    }

    /** `batch_store_block`: blocks before the failing one are done, later ones are never started. */
    method BatchStoreBlock(ids: seq<CallId>, tmps: seq<Path>, dests: seq<Path>, buffers: seq<Bytes>)
      returns (r: BatchResult)
      requires Valid() && |ids| == |tmps|
      requires forall i | 0 <= i < |ids| :: ids[i] in ours && ids[i] !in s.calls
      requires forall i, j | 0 <= i < j < |ids| :: ids[i] != ids[j]
      requires (forall p | p in tmps :: p in s.temps) && (forall p | p in dests :: p !in s.temps)
      modifies this
      ensures Valid() && old(trace) <= trace
      ensures r.LengthMismatch? <==> |dests| != |tmps| || |buffers| != |tmps|
      ensures r.LengthMismatch? ==> s == old(s) && trace == old(trace)
      ensures r.AllDone? ==> forall i | 0 <= i < |ids| :: StoreReturned(ids[i], tmps[i], dests[i], buffers[i], 0)
      ensures r.FailedAt? ==>
                && r.index < |ids| && r.errno != 0
                && (forall i | 0 <= i < r.index :: StoreReturned(ids[i], tmps[i], dests[i], buffers[i], 0))
                && StoreReturned(ids[r.index], tmps[r.index], dests[r.index], buffers[r.index], r.errno)
                && (forall i | r.index < i < |ids| :: ids[i] !in s.calls)
    {
      if |dests| != |tmps| || |buffers| != |tmps| {
        return LengthMismatch;
      }
      TempsFixed();
      var i := 0;
      while i < |tmps|
        invariant 0 <= i <= |tmps|
        invariant Valid() && old(trace) <= trace && s.temps == old(s.temps)
        invariant forall k | 0 <= k < i :: StoreReturned(ids[k], tmps[k], dests[k], buffers[k], 0)
        invariant forall k | i <= k < |ids| :: ids[k] !in s.calls
      {
        var err := StoreBlock(ids[i], tmps[i], dests[i], buffers[i]);
        TempsFixed();
        if err != 0 {
          return FailedAt(i, err);
        }
        i := i + 1;
      }
      r := AllDone;
    }

    lemma TempsFixed()
      requires Valid()
      ensures s.temps == start.temps
    {
      RunKeepsInv(start, trace);
    }

    /** `batch_load_block`: the blocks loaded are each one completed store's; nothing is loaded past a failure. */
    method BatchLoadBlock(ids: seq<CallId>, sources: seq<Path>, sizes: seq<nat>)
      returns (r: BatchResult, dsts: seq<Bytes>)
      requires Valid() && |ids| == |sources|
      requires forall i | 0 <= i < |ids| :: ids[i] in ours && ids[i] !in s.calls
      requires forall i, j | 0 <= i < j < |ids| :: ids[i] != ids[j]
      requires forall p | p in sources :: p !in s.temps
      modifies this
      ensures Valid() && old(trace) <= trace
      ensures r.LengthMismatch? <==> |sizes| != |sources|
      ensures r.LengthMismatch? ==> s == old(s) && trace == old(trace) && dsts == []
      ensures r.AllDone? ==> |dsts| == |sources|
      ensures r.FailedAt? ==>
                && r.index < |ids| && r.errno != 0 && |dsts| == r.index
                && ids[r.index] in s.calls
                   && s.calls[ids[r.index]] == Load(sources[r.index], sizes[r.index], LoadFailed(r.errno))
                && (forall i | r.index < i < |ids| :: ids[i] !in s.calls)
      ensures forall i | 0 <= i < |dsts| :: LoadReturned(ids[i], sources[i], sizes[i], dsts[i])
    {
      dsts := [];
      if |sizes| != |sources| {
        return LengthMismatch, [];
      }
      TempsFixed();
      var i := 0;
      while i < |sources|
        invariant 0 <= i <= |sources| && |dsts| == i
        invariant Valid() && old(trace) <= trace && s.temps == old(s.temps)
        invariant forall k | 0 <= k < i :: LoadReturned(ids[k], sources[k], sizes[k], dsts[k])
        invariant forall k | i <= k < |ids| :: ids[k] !in s.calls
      {
        var err, dst := LoadBlock(ids[i], sources[i], sizes[i]);
        TempsFixed();
        if err != 0 {
          return FailedAt(i, err), dsts;
        }
        dsts := dsts + [dst];
        i := i + 1;
      }
      r := AllDone;
    }

    ghost predicate LoadReturned(id: CallId, source: Path, size: nat, dst: Bytes)
      reads this
    {
      id in s.calls && s.calls[id].Load? && s.calls[id].source == source && s.calls[id].size == size &&
      s.calls[id].lpc.Loaded? && s.calls[id].lpc.got == dst
    }
  }
}

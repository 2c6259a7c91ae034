/** When a store leaves its temp file behind, and what that does to later stores. */
module BlockStoreLeftovers {
  import opened BlockStore
  import opened BlockStoreSafety
  import opened Prelude

  // ----- What happened to a call, read off the run

  predicate OpensTemp(e: Event, id: CallId) { e.OpenReturns? && e.id == id && e.errno == 0 }

  predicate FailsToUnlink(e: Event, id: CallId) { e.UnlinkReturns? && e.id == id && e.errno != 0 }

  predicate Kills(e: Event, id: CallId) { e.Dies? && e.id == id }

  ghost predicate Opened(run: seq<Event>, id: CallId) { exists k | 0 <= k < |run| :: OpensTemp(run[k], id) }

  ghost predicate UnlinkFailed(run: seq<Event>, id: CallId) { exists k | 0 <= k < |run| :: FailsToUnlink(run[k], id) }

  ghost predicate Died(run: seq<Event>, id: CallId) { exists k | 0 <= k < |run| :: Kills(run[k], id) }

  lemma OneMoreEvent(run: seq<Event>, e: Event, id: CallId)
    ensures Opened(run + [e], id) <==> Opened(run, id) || OpensTemp(e, id)
    ensures UnlinkFailed(run + [e], id) <==> UnlinkFailed(run, id) || FailsToUnlink(e, id)
    ensures Died(run + [e], id) <==> Died(run, id) || Kills(e, id)
  {
    var more := run + [e];
    assert more[|run|] == e;
    assert forall k | 0 <= k < |run| :: more[k] == run[k];
  }

  /** How a store's program counter reflects what happened to it. */
  ghost predicate Reflects(pc: StorePc, hadOpened: bool, unlinkFailed: bool, died: bool) {
    && (died <==> pc.StoreCrashed?)
    && (unlinkFailed <==> pc.StoreFailed? && pc.leaked.Some?)
    && (pc.StoreCrashed? ==> (pc.left.Some? <==> hadOpened))
    && (StoreLive(pc) ==> (hadOpened <==> !(pc.AtAccess? || pc.AtMkdirs? || pc.AtOpen?)))
  }

  /** So for call `id`: nothing happened before it started. */
  ghost predicate Remembered(s: State, run: seq<Event>, id: CallId) {
    if id !in s.calls then !Opened(run, id) && !UnlinkFailed(run, id) && !Died(run, id)
    else s.calls[id].Store? ==> Reflects(s.calls[id].spc, Opened(run, id), UnlinkFailed(run, id), Died(run, id))
  }

  lemma ReflectsNext(s: State, e: Event, c: Call, hadOpened: bool, unlinkFailed: bool, died: bool)
    requires c.Store? && EnabledStore(s, e, c.tmp, c.dest, c.src, c.spc)
             && Reflects(c.spc, hadOpened, unlinkFailed, died)
    ensures Reflects(NextStorePc(e, c.src, c.spc), hadOpened || OpensTemp(e, e.id),
                     unlinkFailed || FailsToUnlink(e, e.id), died || Kills(e, e.id))
  {
  }

  lemma EventRemembered(s: State, run: seq<Event>, e: Event, id: CallId)
    requires Enabled(s, e) && Remembered(s, run, id)
    ensures Remembered(Apply(s, e), run + [e], id)
  {
    OneMoreEvent(run, e, id);
    if e.id == id && id in s.calls && s.calls[id].Store? {
      ReflectsNext(s, e, s.calls[id], Opened(run, id), UnlinkFailed(run, id), Died(run, id));
    }
  }

  lemma {:induction false} RunRemembered(start: State, run: seq<Event>, id: CallId)
    requires After(start, run).Some? && id !in start.calls
    ensures Remembered(After(start, run).value, run, id)
  {
    if run != [] {
      var init, e := run[..|run| - 1], run[|run| - 1];
      assert run == init + [e];
      RunSplits(start, init, e);
      RunRemembered(start, init, id);
      EventRemembered(After(start, init).value, init, e, id);
    }
  }

  // ----- When a temp file is left behind

  /** Call `id`'s own file is under its temp name. */
  ghost predicate FileLeft(s: State, id: CallId) {
    && id in s.calls && s.calls[id].Store?
    && s.calls[id].tmp in s.dir && s.dir[s.calls[id].tmp] in s.inodes && s.inodes[s.dir[s.calls[id].tmp]].creator == id
  }

  /** A store that has ended left its temp file behind if and only if it died after opening it, or its
      clean-up `unlink` failed. */
  lemma LeftoverExactly(start: State, run: seq<Event>, id: CallId)
    requires Inv(start) && After(start, run).Some? && id !in start.calls
    requires var s := After(start, run).value; id in s.calls && s.calls[id].Store? && !Live(s.calls[id])
    ensures FileLeft(After(start, run).value, id) <==> (Died(run, id) && Opened(run, id)) || UnlinkFailed(run, id)
  {
    var s := After(start, run).value;
    RunKeepsInv(start, run);
    RunRemembered(start, run, id);
    assert CallOk(s, id);
    if s.calls[id].tmp in s.dir { assert LinkOk(s, s.calls[id].tmp); }
  }

  /** And any file under a temp name is that of a call under way, such a leftover, or one from before the run. */
  lemma TempFileHasCause(start: State, run: seq<Event>, p: Path)
    requires Inv(start) && After(start, run).Some? && p in start.temps && p in After(start, run).value.dir
    ensures var s := After(start, run).value;
            exists id :: && FileLeft(s, id) && s.calls[id].tmp == p
                         && (|| Live(s.calls[id]) || (Died(run, id) && Opened(run, id)) || UnlinkFailed(run, id)
                             || id in start.calls)
  {
    var s := After(start, run).value;
    RunKeepsInv(start, run);
    assert LinkOk(s, p);
    var id := s.inodes[s.dir[p]].creator;
    if !Live(s.calls[id]) && id !in start.calls { LeftoverExactly(start, run, id); }
    assert FileLeft(s, id);
  }

  // ----- What a leftover does

  lemma EventKeepsLeftover(s: State, e: Event, id: CallId)
    requires Inv(s) && Enabled(s, e) && FileLeft(s, id) && !Live(s.calls[id])
    ensures var s' := Apply(s, e);
            FileLeft(s', id) && s'.calls[id] == s.calls[id] && s'.dir[s.calls[id].tmp] == s.dir[s.calls[id].tmp]
  {
    assert CallOk(s, id);
    assert LinkOk(s, s.calls[id].tmp);
    if e.id in s.calls {
      assert CallOk(s, e.id);
      if s.calls[e.id].Store? { StoreKeepsOthersFile(s, e, s.calls[e.id], s.calls[id].tmp); }
    }
  }

  /** A store's event touches no temp file of another call. */
  lemma StoreKeepsOthersFile(s: State, e: Event, c: Call, p: Path)
    requires e.id in s.calls && c == s.calls[e.id] && c.Store? && CallOk(s, e.id)
             && EnabledStore(s, e, c.tmp, c.dest, c.src, c.spc)
    requires p in s.dir && p in s.temps && s.dir[p] in s.inodes && s.inodes[s.dir[p]].creator != e.id
    ensures var s' := StoreEffect(s, e, c.tmp, c.dest, c.src, c.spc);
            p in s'.dir && s'.dir[p] == s.dir[p] && s.dir[p] in s'.inodes
            && s'.inodes[s.dir[p]].creator == s.inodes[s.dir[p]].creator
  {
  }

  /** A leftover stays for good. */
  lemma {:induction false} LeftoverStays(start: State, run: seq<Event>, more: seq<Event>, states: seq<State>,
                                         k: nat, id: CallId)
    requires Inv(start) && GoesThrough(start, run, more, states) && k <= |more| && FileLeft(states[0], id)
             && !Live(states[0].calls[id])
    ensures FileLeft(states[k], id) && states[k].calls[id] == states[0].calls[id]
  {
    if k > 0 {
      LeftoverStays(start, run, more, states, k - 1, id);
      GoesOn(start, run, more, states, k - 1);
      assert StepsTo(states[k - 1], more[k - 1], states[k]);
      EventKeepsLeftover(states[k - 1], more[k - 1], id);
    }
  }

  /** So every later store that is given the same temp name fails at `open`. */
  lemma LeftoverBlocksName(start: State, run: seq<Event>, more: seq<Event>, states: seq<State>, k: nat, id: CallId,
                           other: CallId)
    requires Inv(start) && GoesThrough(start, run, more, states) && k < |more| && FileLeft(states[0], id)
             && !Live(states[0].calls[id])
    requires other in states[k].calls && states[k].calls[other].Store?
             && states[k].calls[other].tmp == states[0].calls[id].tmp
    requires more[k].OpenReturns? && more[k].id == other
    ensures more[k].errno != 0 && states[k + 1].calls[other].Store?
            && states[k + 1].calls[other].spc == StoreFailed(more[k].errno, None)
  {
    LeftoverStays(start, run, more, states, k, id);
    assert StepsTo(states[k], more[k], states[k + 1]);
  }

  // ----- It does happen

  /** A store dies right after opening its temp file. */
  function DyingRun(tmp: Path, dest: Path, src: Bytes): seq<Event> {
    [StartStore(0, tmp, dest, src), AccessReturns(0, false), MkdirsReturns(0, 0), OpenReturns(0, 0, 0), Dies(0)]
  }

  /** A store cannot write, and then cannot unlink what it opened. */
  function StuckRun(tmp: Path, dest: Path, src: Bytes, errno: int): seq<Event> {
    [StartStore(0, tmp, dest, src), AccessReturns(0, false), MkdirsReturns(0, 0), OpenReturns(0, 0, 0),
     TransferReturns(0, errno), CloseReturns(0, 0), UnlinkReturns(0, errno)]
  }

  function OneStore(temps: iset<Path>, tmp: Path, dest: Path, src: Bytes, dir: map<Path, Ino>, inodes: map<Ino, Inode>,
                    pc: StorePc): State {
    State(temps, dir, inodes, map[0 := Store(tmp, dest, src, pc)])
  }

  lemma OpensItsTemp(temps: iset<Path>, tmp: Path, dest: Path, src: Bytes, run: seq<Event>)
    requires tmp in temps && dest !in temps && |run| >= 4
    requires run[0] == StartStore(0, tmp, dest, src) && run[1] == AccessReturns(0, false)
    requires run[2] == MkdirsReturns(0, 0) && run[3] == OpenReturns(0, 0, 0)
    ensures After(Empty(temps), run[..4])
            == Some(OneStore(temps, tmp, dest, src, map[tmp := 0], map[0 := Inode([], 0)], AtWrite(0, 0)))
  {
    AboutToOpen(temps, tmp, dest, src, run);
    RunGrows(Empty(temps), run, 3, OneStore(temps, tmp, dest, src, map[], map[], AtOpen),
             OneStore(temps, tmp, dest, src, map[tmp := 0], map[0 := Inode([], 0)], AtWrite(0, 0)));
  }

  lemma AboutToOpen(temps: iset<Path>, tmp: Path, dest: Path, src: Bytes, run: seq<Event>)
    requires tmp in temps && dest !in temps && |run| >= 3
    requires run[0] == StartStore(0, tmp, dest, src) && run[1] == AccessReturns(0, false)
             && run[2] == MkdirsReturns(0, 0)
    ensures After(Empty(temps), run[..3]) == Some(OneStore(temps, tmp, dest, src, map[], map[], AtOpen))
  {
    RunGrows(Empty(temps), run, 0, State(temps, map[], map[], map[]),
             OneStore(temps, tmp, dest, src, map[], map[], AtAccess));
    RunGrows(Empty(temps), run, 1, OneStore(temps, tmp, dest, src, map[], map[], AtAccess),
             OneStore(temps, tmp, dest, src, map[], map[], AtMkdirs));
    RunGrows(Empty(temps), run, 2, OneStore(temps, tmp, dest, src, map[], map[], AtMkdirs),
             OneStore(temps, tmp, dest, src, map[], map[], AtOpen));
  }

  /** From the open temp file to the failed clean-up. */
  lemma GetsStuck(temps: iset<Path>, tmp: Path, dest: Path, src: Bytes, errno: int, run: seq<Event>,
                  dir: map<Path, Ino>, inodes: map<Ino, Inode>)
    requires |run| >= 7 && errno != 0 && dir == map[tmp := 0] && inodes == map[0 := Inode([], 0)]
    requires After(Empty(temps), run[..4]) == Some(OneStore(temps, tmp, dest, src, dir, inodes, AtWrite(0, 0)))
    requires run[4] == TransferReturns(0, errno) && run[5] == CloseReturns(0, 0) && run[6] == UnlinkReturns(0, errno)
    ensures After(Empty(temps), run[..7])
            == Some(OneStore(temps, tmp, dest, src, dir, inodes, StoreFailed(errno, Some(0))))
  {
    QuietStep(temps, tmp, dest, src, run, 4, dir, inodes, AtWrite(0, 0), AtAbortClose(0, errno));
    QuietStep(temps, tmp, dest, src, run, 5, dir, inodes, AtAbortClose(0, errno), AtUnlinkTmp(0, errno));
    QuietStep(temps, tmp, dest, src, run, 6, dir, inodes, AtUnlinkTmp(0, errno), StoreFailed(errno, Some(0)));
  }

  /** One event of the only store, which leaves the files alone. */
  lemma QuietStep(temps: iset<Path>, tmp: Path, dest: Path, src: Bytes, run: seq<Event>, k: nat,
                  dir: map<Path, Ino>, inodes: map<Ino, Inode>, pc: StorePc, pc': StorePc)
    requires k < |run| && After(Empty(temps), run[..k]) == Some(OneStore(temps, tmp, dest, src, dir, inodes, pc))
    requires var s, e := OneStore(temps, tmp, dest, src, dir, inodes, pc), run[k];
             && e.id == 0 && !e.StartStore? && !e.StartLoad? && EnabledStore(s, e, tmp, dest, src, pc)
             && StoreEffect(s, e, tmp, dest, src, pc) == s && NextStorePc(e, src, pc) == pc'
    ensures After(Empty(temps), run[..k + 1]) == Some(OneStore(temps, tmp, dest, src, dir, inodes, pc'))
  {
    RunGrows(Empty(temps), run, k, OneStore(temps, tmp, dest, src, dir, inodes, pc),
             OneStore(temps, tmp, dest, src, dir, inodes, pc'));
  }

  lemma DyingLeavesFile(temps: iset<Path>, tmp: Path, dest: Path, src: Bytes)
    requires tmp in temps && dest !in temps
    ensures var s := After(Empty(temps), DyingRun(tmp, dest, src));
            s.Some? && FileLeft(s.value, 0) && !Live(s.value.calls[0])
  {
    var run := DyingRun(tmp, dest, src);
    var dir, inodes := map[tmp := 0], map[0 := Inode([], 0)];
    OpensItsTemp(temps, tmp, dest, src, run);
    RunGrows(Empty(temps), run, 4, OneStore(temps, tmp, dest, src, dir, inodes, AtWrite(0, 0)),
             OneStore(temps, tmp, dest, src, dir, inodes, StoreCrashed(Some(0))));
    assert run[..5] == run;
  }

  /** The store returns an error, and its temp file is still there. */
  lemma StuckLeavesFile(temps: iset<Path>, tmp: Path, dest: Path, src: Bytes, errno: int)
    requires tmp in temps && dest !in temps && errno != 0
    ensures var s := After(Empty(temps), StuckRun(tmp, dest, src, errno));
            s.Some? && FileLeft(s.value, 0) && s.value.calls[0] == Store(tmp, dest, src, StoreFailed(errno, Some(0)))
  {
    var run := StuckRun(tmp, dest, src, errno);
    OpensItsTemp(temps, tmp, dest, src, run);
    GetsStuck(temps, tmp, dest, src, errno, run, map[tmp := 0], map[0 := Inode([], 0)]);
    assert run[..7] == run;
  }
}

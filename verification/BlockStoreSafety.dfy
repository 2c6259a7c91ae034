/** What callers of the block store may rely on, in every run and stopped after any event. */
module BlockStoreSafety {
  import opened BlockStore
  import opened Prelude

  /** Call `id` is a store to `p` that renamed its whole buffer `bytes` into place and returned 0. */
  ghost predicate CompletedStore(s: State, id: CallId, p: Path, bytes: Bytes) {
    id in s.calls && s.calls[id].Store? && s.calls[id].dest == p && s.calls[id].spc.Published?
    && s.calls[id].src == bytes
  }

  /** Whatever is linked at a destination is the entire buffer of one completed store to it. */
  lemma DestinationIsWholeBlock(start: State, run: seq<Event>, p: Path)
    requires Inv(start) && After(start, run).Some?
    requires p in After(start, run).value.dir && p !in start.temps
    ensures var s := After(start, run).value;
            && s.dir[p] in s.inodes
            && exists id :: CompletedStore(s, id, p, s.inodes[s.dir[p]].bytes)
  {
    RunKeepsInv(start, run);
    var s := After(start, run).value;
    assert LinkOk(s, p);
    assert CompletedStore(s, s.inodes[s.dir[p]].creator, p, s.inodes[s.dir[p]].bytes);
  }

  /** Data that is not some store's whole buffer is reachable under temp names only. */
  lemma PartialDataOnlyUnderTemps(start: State, run: seq<Event>, p: Path)
    requires Inv(start) && After(start, run).Some?
    requires p in After(start, run).value.dir
    ensures var s := After(start, run).value;
            && s.dir[p] in s.inodes
            && ((forall id | id in s.calls && s.calls[id].Store? :: s.inodes[s.dir[p]].bytes != s.calls[id].src) ==>
                  p in start.temps)
  {
    RunKeepsInv(start, run);
    assert LinkOk(After(start, run).value, p);
    if p !in start.temps { DestinationIsWholeBlock(start, run, p); }
  }

  /** A load that returned 0 read the first `size` bytes of one completed store to its path, and so
      exactly that store's buffer when the sizes agree, whatever happened to the path meanwhile. */
  lemma LoadReadsOneWholeBlock(start: State, run: seq<Event>, id: CallId)
    requires Inv(start) && After(start, run).Some?
    requires var s := After(start, run).value; id in s.calls && s.calls[id].Load? && s.calls[id].lpc.Loaded?
    ensures var s := After(start, run).value;
            var c := s.calls[id];
            exists w, src :: && CompletedStore(s, w, c.source, src)
                             && |c.lpc.got| == c.size <= |src| && c.lpc.got == src[..c.size]
                             && (|src| == c.size ==> c.lpc.got == src)
  {
    RunKeepsInv(start, run);
    var s := After(start, run).value;
    assert CallOk(s, id);
    var c := s.calls[id];
    var w := s.inodes[c.lpc.ino].creator;
    assert CompletedStore(s, w, c.source, s.calls[w].src);
  }

  /** The inode a store has open for writing. */
  function WriterOf(pc: StorePc): Option<Ino> {
    match pc
    case AtWrite(ino, _) => Some(ino)
    case AtAbortClose(ino, _) => Some(ino)
    case AtClose(ino) => Some(ino)
    case _ => None
  }

  /** The inode a load has open for reading, if its bytes may still be returned. */
  function ReaderOf(pc: LoadPc): Option<Ino> {
    match pc
    case AtRead(ino, _) => Some(ino)
    case AtReadClose(ino, _) => Some(ino)
    case _ => None
  }

  /** No inode that a destination names, or that a load has open, is open for writing. */
  lemma NoWriterBehindDestination(start: State, run: seq<Event>, w: CallId, ino: Ino)
    requires Inv(start) && After(start, run).Some?
    requires var s := After(start, run).value;
             w in s.calls && s.calls[w].Store? && WriterOf(s.calls[w].spc) == Some(ino)
    ensures var s := After(start, run).value;
            && (forall p | p in s.dir && p !in start.temps :: s.dir[p] != ino)
            && (forall id | id in s.calls && s.calls[id].Load? :: ReaderOf(s.calls[id].lpc) != Some(ino))
  {
    RunKeepsInv(start, run);
    var s := After(start, run).value;
    assert CallOk(s, w);
    forall p | p in s.dir && p !in start.temps ensures s.dir[p] != ino { assert LinkOk(s, p); }
    forall id | id in s.calls && s.calls[id].Load? ensures ReaderOf(s.calls[id].lpc) != Some(ino) {
      assert CallOk(s, id);
    }
  }

  function Target(s: State, p: Path): Option<Ino> {
    if p in s.dir then Some(s.dir[p]) else None
  }

  lemma RunSplits(start: State, run: seq<Event>, e: Event)
    requires After(start, run + [e]).Some?
    ensures After(start, run).Some? && Enabled(After(start, run).value, e)
    ensures After(start, run + [e]).value == Apply(After(start, run).value, e)
  {
    assert (run + [e])[..|run|] == run;
  }

  /** A temp name changes hands only in an event of the call whose own temp name it is: that call
      created the file it unlinks or renames, and no other live call holds a file under the name. */
  lemma OnlyCreatorTouchesTemp(start: State, run: seq<Event>, e: Event, p: Path)
    requires Inv(start) && After(start, run + [e]).Some? && p in start.temps
    requires After(start, run).Some? && Target(After(start, run).value, p) != Target(After(start, run + [e]).value, p)
    ensures var s := After(start, run).value;
            && e.id in s.calls && s.calls[e.id].Store? && s.calls[e.id].tmp == p && Live(s.calls[e.id])
            && (p in s.dir ==> s.dir[p] in s.inodes && s.inodes[s.dir[p]].creator == e.id)
            && (forall id | id in s.calls && id != e.id && s.calls[id].Store? && s.calls[id].tmp == p
                            && Live(s.calls[id]) ::
                  TempIno(s.calls[id].spc).None?)
  {
    RunSplits(start, run, e);
    RunKeepsInv(start, run);
    var s := After(start, run).value;
    assert CallOk(s, e.id);
    forall id | id in s.calls && id != e.id && s.calls[id].Store? && s.calls[id].tmp == p && Live(s.calls[id])
      ensures TempIno(s.calls[id].spc).None?
    {
      assert CallOk(s, id);
    }
  }

  /** An event that renames a finished temp file onto `p`. */
  predicate RenamesOnto(s: State, e: Event, p: Path) {
    e.RenameReturns? && e.errno == 0 && e.id in s.calls && s.calls[e.id].Store? && s.calls[e.id].dest == p
  }

  /** The clean-up `unlink` of a load of `p` that failed. */
  predicate FailedLoadUnlinks(s: State, e: Event, p: Path) {
    e.UnlinkReturns? && e.errno == 0 && e.id in s.calls && s.calls[e.id].Load? && s.calls[e.id].source == p
  }

  /** A block stays in place through an event exactly when the event neither renames a newer block
      over it nor is the clean-up of a load of the same path that failed. */
  lemma BlockStaysUnless(start: State, run: seq<Event>, e: Event, p: Path)
    requires Inv(start) && After(start, run + [e]).Some? && After(start, run).Some?
    requires p in After(start, run).value.dir && p !in start.temps
    ensures var s := After(start, run).value;
            Target(After(start, run + [e]).value, p) == Target(s, p)
            <==> !RenamesOnto(s, e, p) && !FailedLoadUnlinks(s, e, p)
  {
    RunSplits(start, run, e);
    RunKeepsInv(start, run);
    EventKeepsTarget(After(start, run).value, e, p);
  }

  lemma EventKeepsTarget(s: State, e: Event, p: Path)
    requires Inv(s) && Enabled(s, e) && p in s.dir && p !in s.temps
    ensures Target(Apply(s, e), p) == Target(s, p) <==> !RenamesOnto(s, e, p) && !FailedLoadUnlinks(s, e, p)
  {
    if e.id in s.calls { assert CallOk(s, e.id); }
    assert LinkOk(s, p);
  }

  lemma EventKeepsBlock(s: State, e: Event, ino: Ino, p: Path)
    requires Inv(s) && Enabled(s, e) && WholeBlock(s, ino, p)
    ensures WholeBlock(Apply(s, e), ino, p)
  {
    if e.id in s.calls { assert CallOk(s, e.id); }
  }

  /** Once a block is whole its bytes never change, linked or not, however the run goes on. */
  lemma {:induction false} BlockNeverChanges(start: State, run: seq<Event>, more: seq<Event>, ino: Ino, p: Path)
    requires Inv(start) && After(start, run).Some? && After(start, run + more).Some?
    requires WholeBlock(After(start, run).value, ino, p)
    ensures WholeBlock(After(start, run + more).value, ino, p)
    ensures After(start, run + more).value.inodes[ino] == After(start, run).value.inodes[ino]
  {
    if more == [] {
      assert run + more == run;
    } else {
      var init, e := more[..|more| - 1], more[|more| - 1];
      assert run + more == (run + init) + [e];
      RunSplits(start, run + init, e);
      BlockNeverChanges(start, run, init, ino, p);
      RunKeepsInv(start, run + init);
      EventKeepsBlock(After(start, run + init).value, e, ino, p);
    }
  }

  /** The event takes the block at `p` away. */
  predicate TakesAway(s: State, e: Event, p: Path) {
    RenamesOnto(s, e, p) || FailedLoadUnlinks(s, e, p)
  }

  /** A replaced or unlinked block is never linked again. */
  lemma NeverRelinked(s: State, e: Event, ino: Ino, p: Path)
    requires Inv(s) && Enabled(s, e) && WholeBlock(s, ino, p) && Target(s, p) != Some(ino)
    ensures Target(Apply(s, e), p) != Some(ino)
  {
    if e.id in s.calls { assert CallOk(s, e.id); }
  }

  ghost predicate StepsTo(s: State, e: Event, s': State) {
    Enabled(s, e) && s' == Apply(s, e)
  }

  /** `states` are the states a run goes through when it goes on with the events `more`. */
  ghost predicate GoesThrough(start: State, run: seq<Event>, more: seq<Event>, states: seq<State>) {
    && |states| == |more| + 1 && After(start, run) == Some(states[0])
    && forall k | 0 <= k < |more| :: StepsTo(states[k], more[k], states[k + 1])
  }

  lemma {:induction false} GoesOn(start: State, run: seq<Event>, more: seq<Event>, states: seq<State>, k: nat)
    requires Inv(start) && GoesThrough(start, run, more, states) && k <= |more|
    ensures After(start, run + more[..k]) == Some(states[k]) && Inv(states[k]) && states[k].temps == start.temps
  {
    if k == 0 {
      assert run + more[..0] == run;
    } else {
      GoesOn(start, run, more, states, k - 1);
      assert StepsTo(states[k - 1], more[k - 1], states[k]);
      assert (run + more[..k])[..|run| + k - 1] == run + more[..k - 1];
    }
    RunKeepsInv(start, run + more[..k]);
  }

  lemma {:induction false} StaysWhole(start: State, run: seq<Event>, more: seq<Event>, states: seq<State>, k: nat,
                                      ino: Ino, p: Path)
    requires Inv(start) && GoesThrough(start, run, more, states) && k <= |more| && WholeBlock(states[0], ino, p)
    ensures WholeBlock(states[k], ino, p)
  {
    if k > 0 {
      StaysWhole(start, run, more, states, k - 1, ino, p);
      GoesOn(start, run, more, states, k - 1);
      assert StepsTo(states[k - 1], more[k - 1], states[k]);
      EventKeepsBlock(states[k - 1], more[k - 1], ino, p);
    }
  }

  /** Over any continuation of a run, a published block stays in place if and only if no event of the
      continuation renames onto its path or is the clean-up of a failed load of it. */
  lemma {:induction false} BlockStaysThrough(start: State, run: seq<Event>, more: seq<Event>, states: seq<State>,
                                             n: nat, p: Path)
    requires Inv(start) && GoesThrough(start, run, more, states) && n <= |more| && p in states[0].dir
             && p !in start.temps
    ensures Target(states[n], p) == Target(states[0], p) <==> forall k | 0 <= k < n :: !TakesAway(states[k], more[k], p)
  {
    if n > 0 {
      BlockStaysThrough(start, run, more, states, n - 1, p);
      StaysOneMore(start, run, more, states, n - 1, p);
    }
  }

  lemma StaysOneMore(start: State, run: seq<Event>, more: seq<Event>, states: seq<State>, k: nat, p: Path)
    requires Inv(start) && GoesThrough(start, run, more, states) && k < |more| && p in states[0].dir
             && p !in start.temps
    ensures Target(states[k + 1], p) == Target(states[0], p)
            <==> Target(states[k], p) == Target(states[0], p) && !TakesAway(states[k], more[k], p)
  {
    var s, e, ino := states[k], more[k], states[0].dir[p];
    GoesOn(start, run, more, states, 0);
    GoesOn(start, run, more, states, k);
    assert LinkOk(states[0], p);
    StaysWhole(start, run, more, states, k, ino, p);
    assert StepsTo(s, e, states[k + 1]);
    if Target(s, p) == Some(ino) { EventKeepsTarget(s, e, p); } else { NeverRelinked(s, e, ino, p); }
  }

  // ----- Which block a load reads

  /** The file a load has read from, or is reading. */
  function LoadIno(pc: LoadPc): Option<Ino> {
    match pc
    case AtRead(ino, _) => Some(ino)
    case AtReadClose(ino, _) => Some(ino)
    case Loaded(ino, _) => Some(ino)
    case _ => None
  }

  /** Event `k` of the run is the successful `open` of load `id`, and `source` names `ino` then. */
  ghost predicate OpensNamed(start: State, run: seq<Event>, k: nat, id: CallId, source: Path, ino: Ino) {
    && k < |run| && run[k].OpenReturns? && run[k].id == id && run[k].errno == 0
    && After(start, run[..k]).Some? && Target(After(start, run[..k]).value, source) == Some(ino)
  }

  lemma {:induction false} OpenRemembered(start: State, run: seq<Event>, id: CallId) returns (k: nat)
    requires After(start, run).Some? && id !in start.calls
    requires var s := After(start, run).value; id in s.calls && s.calls[id].Load? && LoadIno(s.calls[id].lpc).Some?
    ensures var c := After(start, run).value.calls[id];
            OpensNamed(start, run, k, id, c.source, LoadIno(c.lpc).value)
  {
    var init, e := run[..|run| - 1], run[|run| - 1];
    assert run == init + [e];
    RunSplits(start, init, e);
    var s := After(start, init).value;
    if id in s.calls && s.calls[id].Load? && LoadIno(s.calls[id].lpc).Some? {
      k := OpenRemembered(start, init, id);
      assert run[..k] == init[..k];
    } else {
      k := |run| - 1;
    }
  }

  /** A load that returned 0 read the block that its path named when it opened it: the first `size` bytes
      that block had then, and has ever since. */
  lemma LoadReadsNamedBlock(start: State, run: seq<Event>, id: CallId) returns (k: nat)
    requires Inv(start) && After(start, run).Some? && id !in start.calls
    requires var s := After(start, run).value; id in s.calls && s.calls[id].Load? && s.calls[id].lpc.Loaded?
    ensures var c := After(start, run).value.calls[id];
            && OpensNamed(start, run, k, id, c.source, c.lpc.ino)
            && ReadFrom(After(start, run[..k]).value, c.lpc.ino, c.source, c.size, c.lpc.got)
  {
    var s := After(start, run).value;
    var c := s.calls[id];
    RunKeepsInv(start, run);
    assert CallOk(s, id);
    k := OpenRemembered(start, run, id);
    NamedIsWhole(start, run, k, c.source, c.lpc.ino);
  }

  /** `got` is the first `size` bytes of the whole block `ino`. */
  ghost predicate ReadFrom(s: State, ino: Ino, source: Path, size: nat, got: Bytes) {
    WholeBlock(s, ino, source) && size <= |s.inodes[ino].bytes| && got == s.inodes[ino].bytes[..size]
  }

  lemma NamedIsWhole(start: State, run: seq<Event>, k: nat, p: Path, ino: Ino)
    requires Inv(start) && After(start, run).Some? && k <= |run| && After(start, run[..k]).Some? && p !in start.temps
    requires Target(After(start, run[..k]).value, p) == Some(ino)
    ensures WholeBlock(After(start, run[..k]).value, ino, p) && ino in After(start, run).value.inodes
    ensures After(start, run).value.inodes[ino] == After(start, run[..k]).value.inodes[ino]
  {
    RunKeepsInv(start, run[..k]);
    assert LinkOk(After(start, run[..k]).value, p);
    assert run == run[..k] + run[k..];
    BlockNeverChanges(start, run[..k], run[k..], ino, p);
  }

  // ----- A completed store is not durable against a failing load

  /** What a call of this scenario is given. */
  datatype Scenario = Scenario(temps: iset<Path>, tmp: Path, dest: Path, src: Bytes, errno: int)

  /** A load of `dest` finds nothing; a store publishes `dest`; the load's clean-up then removes it. */
  function LostBlockRun(x: Scenario): seq<Event> {
    [StartLoad(0, x.dest, |x.src|), OpenReturns(0, x.errno, 0),
     StartStore(1, x.tmp, x.dest, x.src), AccessReturns(1, false), MkdirsReturns(1, 0), OpenReturns(1, 0, 0),
     KernelMoves(1, |x.src|), TransferReturns(1, 0), CloseReturns(1, 0), RenameReturns(1, 0),
     UnlinkReturns(0, 0)]
  }

  function LostState(x: Scenario, dir: map<Path, Ino>, inodes: map<Ino, Inode>, load: LoadPc, store: StorePc): State {
    State(x.temps, dir, inodes, map[0 := Load(x.dest, |x.src|, load), 1 := Store(x.tmp, x.dest, x.src, store)])
  }

  lemma RunGrows(start: State, run: seq<Event>, k: nat, s: State, s': State)
    requires k < |run| && After(start, run[..k]) == Some(s)
    requires Enabled(s, run[k]) && Apply(s, run[k]) == s'
    ensures After(start, run[..k + 1]) == Some(s')
  {
    assert run[..k + 1][..k] == run[..k];
  }

  lemma LostRunStarts(x: Scenario, run: seq<Event>)
    requires |run| == 11 && x.dest !in x.temps && x.tmp in x.temps && x.errno != 0
    requires run[0] == StartLoad(0, x.dest, |x.src|) && run[1] == OpenReturns(0, x.errno, 0)
    requires run[2] == StartStore(1, x.tmp, x.dest, x.src)
    ensures After(Empty(x.temps), run[..3]) == Some(LostState(x, map[], map[], AtUnlinkSource(x.errno), AtAccess))
  {
    var s0 := State(x.temps, map[], map[], map[]);
    var s1 := State(x.temps, map[], map[], map[0 := Load(x.dest, |x.src|, AtOpenSource)]);
    var s2 := State(x.temps, map[], map[], map[0 := Load(x.dest, |x.src|, AtUnlinkSource(x.errno))]);
    RunGrows(Empty(x.temps), run, 0, s0, s1);
    RunGrows(Empty(x.temps), run, 1, s1, s2);
    RunGrows(Empty(x.temps), run, 2, s2, LostState(x, map[], map[], AtUnlinkSource(x.errno), AtAccess));
  }

  /** One event of the scenario's store: `dir`, `inodes` and `pc` become what the event makes of them. */
  lemma StoreTurn(x: Scenario, run: seq<Event>, k: nat, dir: map<Path, Ino>, inodes: map<Ino, Inode>, load: LoadPc,
                  pc: StorePc,
                  dir': map<Path, Ino>, inodes': map<Ino, Inode>, pc': StorePc)
    requires k < |run| && After(Empty(x.temps), run[..k]) == Some(LostState(x, dir, inodes, load, pc))
    requires run[k].id == 1 && !run[k].StartStore? && !run[k].StartLoad?
    requires EnabledStore(LostState(x, dir, inodes, load, pc), run[k], x.tmp, x.dest, x.src, pc)
    requires var s := StoreEffect(LostState(x, dir, inodes, load, pc), run[k], x.tmp, x.dest, x.src, pc);
             s.dir == dir' && s.inodes == inodes' && NextStorePc(run[k], x.src, pc) == pc'
    ensures After(Empty(x.temps), run[..k + 1]) == Some(LostState(x, dir', inodes', load, pc'))
  {
    RunGrows(Empty(x.temps), run, k, LostState(x, dir, inodes, load, pc), LostState(x, dir', inodes', load, pc'));
  }

  lemma LostRunOpens(x: Scenario, run: seq<Event>)
    requires |run| == 11
    requires After(Empty(x.temps), run[..3]) == Some(LostState(x, map[], map[], AtUnlinkSource(x.errno), AtAccess))
    requires run[3] == AccessReturns(1, false) && run[4] == MkdirsReturns(1, 0) && run[5] == OpenReturns(1, 0, 0)
    ensures After(Empty(x.temps), run[..6]) ==
            Some(LostState(x, map[x.tmp := 0], map[0 := Inode([], 1)], AtUnlinkSource(x.errno), AtWrite(0, 0)))
  {
    var l := AtUnlinkSource(x.errno);
    StoreTurn(x, run, 3, map[], map[], l, AtAccess, map[], map[], AtMkdirs);
    StoreTurn(x, run, 4, map[], map[], l, AtMkdirs, map[], map[], AtOpen);
    StoreTurn(x, run, 5, map[], map[], l, AtOpen, map[x.tmp := 0], map[0 := Inode([], 1)], AtWrite(0, 0));
  }

  lemma LostRunWrites(x: Scenario, run: seq<Event>)
    requires |run| == 11 && run[6] == KernelMoves(1, |x.src|)
    requires After(Empty(x.temps), run[..6]) ==
             Some(LostState(x, map[x.tmp := 0], map[0 := Inode([], 1)], AtUnlinkSource(x.errno), AtWrite(0, 0)))
    ensures After(Empty(x.temps), run[..7]) ==
            Some(LostState(x, map[x.tmp := 0], map[0 := Inode(x.src, 1)], AtUnlinkSource(x.errno), AtWrite(0, |x.src|)))
  {
    var temp := map[x.tmp := 0];
    assert [] + x.src[0..0 + |x.src|] == x.src;
    StoreTurn(x, run, 6, temp, map[0 := Inode([], 1)], AtUnlinkSource(x.errno), AtWrite(0, 0),
              temp, map[0 := Inode(x.src, 1)], AtWrite(0, |x.src|));
  }

  lemma LostRunCloses(x: Scenario, run: seq<Event>)
    requires |run| == 11 && run[7] == TransferReturns(1, 0) && run[8] == CloseReturns(1, 0)
    requires After(Empty(x.temps), run[..7]) ==
             Some(LostState(x, map[x.tmp := 0], map[0 := Inode(x.src, 1)], AtUnlinkSource(x.errno),
                            AtWrite(0, |x.src|)))
    ensures After(Empty(x.temps), run[..9]) ==
            Some(LostState(x, map[x.tmp := 0], map[0 := Inode(x.src, 1)], AtUnlinkSource(x.errno), AtRename(0)))
  {
    var l, nodes, temp := AtUnlinkSource(x.errno), map[0 := Inode(x.src, 1)], map[x.tmp := 0];
    StoreTurn(x, run, 7, temp, nodes, l, AtWrite(0, |x.src|), temp, nodes, AtClose(0));
    StoreTurn(x, run, 8, temp, nodes, l, AtClose(0), temp, nodes, AtRename(0));
  }

  lemma LostRunRenames(x: Scenario, run: seq<Event>)
    requires |run| == 11 && run[9] == RenameReturns(1, 0) && x.dest !in x.temps && x.tmp in x.temps
    requires After(Empty(x.temps), run[..9]) ==
             Some(LostState(x, map[x.tmp := 0], map[0 := Inode(x.src, 1)], AtUnlinkSource(x.errno), AtRename(0)))
    ensures After(Empty(x.temps), run[..10]) ==
            Some(LostState(x, map[x.dest := 0], map[0 := Inode(x.src, 1)], AtUnlinkSource(x.errno), Published(0)))
  {
    var nodes := map[0 := Inode(x.src, 1)];
    StoreTurn(x, run, 9, map[x.tmp := 0], nodes, AtUnlinkSource(x.errno), AtRename(0), map[x.dest := 0], nodes,
              Published(0));
  }

  lemma LostRunCleansUp(x: Scenario, run: seq<Event>)
    requires |run| == 11 && run[10] == UnlinkReturns(0, 0)
    requires After(Empty(x.temps), run[..10]) ==
             Some(LostState(x, map[x.dest := 0], map[0 := Inode(x.src, 1)], AtUnlinkSource(x.errno), Published(0)))
    ensures After(Empty(x.temps), run)
            == Some(LostState(x, map[], map[0 := Inode(x.src, 1)], LoadFailed(x.errno), Published(0)))
  {
    var nodes := map[0 := Inode(x.src, 1)];
    RunGrows(Empty(x.temps), run, 10, LostState(x, map[x.dest := 0], nodes, AtUnlinkSource(x.errno), Published(0)),
             LostState(x, map[], nodes, LoadFailed(x.errno), Published(0)));
    assert run[..11] == run;
  }

  /** For every block there is a run in which its store returns 0 after renaming it into place and
      nothing replaces it, yet the block is gone at the end: see BlockStaysUnless for exactly why. */
  lemma PublishedBlockCanVanish(x: Scenario)
    requires x.dest !in x.temps && x.tmp in x.temps && x.errno != 0
    ensures After(Empty(x.temps), LostBlockRun(x)) ==
            Some(LostState(x, map[], map[0 := Inode(x.src, 1)], LoadFailed(x.errno), Published(0)))
  {
    LostRunBegins(x, LostBlockRun(x));
    LostRunEnds(x, LostBlockRun(x));
  }

  lemma LostRunBegins(x: Scenario, run: seq<Event>)
    requires |run| == 11 && x.dest !in x.temps && x.tmp in x.temps && x.errno != 0
    requires run[0] == StartLoad(0, x.dest, |x.src|) && run[1] == OpenReturns(0, x.errno, 0)
    requires run[2] == StartStore(1, x.tmp, x.dest, x.src) && run[3] == AccessReturns(1, false)
    requires run[4] == MkdirsReturns(1, 0) && run[5] == OpenReturns(1, 0, 0) && run[6] == KernelMoves(1, |x.src|)
    ensures After(Empty(x.temps), run[..7]) ==
            Some(LostState(x, map[x.tmp := 0], map[0 := Inode(x.src, 1)], AtUnlinkSource(x.errno), AtWrite(0, |x.src|)))
  {
    LostRunStarts(x, run);
    LostRunOpens(x, run);
    LostRunWrites(x, run);
  }

  lemma LostRunEnds(x: Scenario, run: seq<Event>)
    requires |run| == 11 && x.dest !in x.temps && x.tmp in x.temps
    requires run[7] == TransferReturns(1, 0) && run[8] == CloseReturns(1, 0) && run[9] == RenameReturns(1, 0)
    requires run[10] == UnlinkReturns(0, 0)
    requires After(Empty(x.temps), run[..7]) ==
             Some(LostState(x, map[x.tmp := 0], map[0 := Inode(x.src, 1)], AtUnlinkSource(x.errno),
                            AtWrite(0, |x.src|)))
    ensures After(Empty(x.temps), run)
            == Some(LostState(x, map[], map[0 := Inode(x.src, 1)], LoadFailed(x.errno), Published(0)))
  {
    LostRunCloses(x, run);
    LostRunRenames(x, run);
    LostRunCleansUp(x, run);
  }
}

/** What a call makes of the answers it gets: which system calls it makes, in which order, and what it
    returns, in every run and whatever other calls do. */
module BlockStoreOutcomes {
  import opened BlockStore
  import opened BlockStoreSafety
  import opened BlockStoreLeftovers
  import opened Prelude

  // ----- The answers a call got, read off the run

  datatype SystemCall = Access | Mkdirs | Open | Transfer | Close | Rename | Unlink

  /** One system call that returned; `access` answers 0 if it found the file. */
  datatype Answer = Answer(call: SystemCall, errno: int)

  const ENOENT := 2

  function AnswerOf(e: Event): Option<Answer> {
    match e
    case AccessReturns(_, found) => Some(Answer(Access, if found then 0 else ENOENT))
    case MkdirsReturns(_, errno) => Some(Answer(Mkdirs, errno))
    case OpenReturns(_, errno, _) => Some(Answer(Open, errno))
    case TransferReturns(_, errno) => Some(Answer(Transfer, errno))
    case CloseReturns(_, errno) => Some(Answer(Close, errno))
    case RenameReturns(_, errno) => Some(Answer(Rename, errno))
    case UnlinkReturns(_, errno) => Some(Answer(Unlink, errno))
    case _ => None
  }

  /** The system calls of call `id`, in the order in which they returned. */
  function Answers(run: seq<Event>, id: CallId): seq<Answer> {
    if run == [] then []
    else
      var e := run[|run| - 1];
      Answers(run[..|run| - 1], id) + if e.id == id && AnswerOf(e).Some? then [AnswerOf(e).value] else []
  }

  /** The bytes the kernel moved for call `id`. */
  function Moved(run: seq<Event>, id: CallId): nat {
    if run == [] then 0
    else
      var e := run[|run| - 1];
      Moved(run[..|run| - 1], id) + if e.KernelMoves? && e.id == id then e.n else 0
  }

  ghost predicate AllZero(answers: seq<Answer>) {
    forall i | 0 <= i < |answers| :: answers[i].errno == 0
  }

  /** What `read` or `write` comes to: its errno, or 5, which is EIO, if it moved too little. */
  function TransferErr(errno: int, moved: nat, size: nat): int {
    if errno != 0 then errno else if moved != size then 5 else 0
  }

  function FirstError(err: int, err': int): int { if err != 0 then err else err' }

  // ----- Loads

  const LoadOpened := [Answer(Open, 0)]
  const LoadRead := [Answer(Open, 0), Answer(Transfer, 0)]
  const LoadDone := [Answer(Open, 0), Answer(Transfer, 0), Answer(Close, 0)]

  /** A load that got these answers gives up with `err` and goes on to unlink its source. */
  ghost predicate LoadGivesUp(a: seq<Answer>, moved: nat, size: nat, err: int) {
    && err != 0
    && (|| a == [Answer(Open, err)]
        || (&& |a| == 3 && a[0] == Answer(Open, 0) && a[1].call == Transfer && a[2].call == Close
            && err == FirstError(TransferErr(a[1].errno, moved, size), a[2].errno)))
  }

  /** A load stands where the answers it got say, and has returned what they say. */
  ghost predicate LoadTold(a: seq<Answer>, moved: nat, size: nat, pc: LoadPc) {
    match pc
    case AtOpenSource => a == [] && moved == 0
    case AtRead(_, got) => a == LoadOpened && moved == |got|
    case AtAbortReadClose(err) =>
      && |a| == 2 && a[0] == Answer(Open, 0) && a[1].call == Transfer
      && err == TransferErr(a[1].errno, moved, size) && err != 0
    case AtReadClose(_, got) => a == LoadRead && moved == |got| == size
    case AtUnlinkSource(err) => LoadGivesUp(a, moved, size, err)
    case Loaded(_, got) => a == LoadDone && moved == |got| == size
    case LoadFailed(err) =>
      |a| > 0 && a[|a| - 1].call == Unlink && LoadGivesUp(a[..|a| - 1], moved, size, err)
    case LoadCrashed => true
  }

  lemma LoadToldNext(s: State, e: Event, c: Call, a: seq<Answer>, moved: nat)
    requires c.Load? && EnabledLoad(s, e, c.source, c.size, c.lpc) && LoadTold(a, moved, c.size, c.lpc)
    ensures LoadTold(if AnswerOf(e).Some? then a + [AnswerOf(e).value] else a,
                     moved + (if e.KernelMoves? then e.n else 0),
                     c.size, NextLoadPc(s, e, c.source, c.size, c.lpc))
  {
    if c.lpc.AtUnlinkSource? && !e.Dies? {
      assert (a + [AnswerOf(e).value])[..|a|] == a;
    }
  }

  // ----- Stores

  const NotThere := Answer(Access, ENOENT)
  const StoreMade := [NotThere, Answer(Mkdirs, 0)]
  const StoreOpened := [NotThere, Answer(Mkdirs, 0), Answer(Open, 0)]
  const StoreWritten := [NotThere, Answer(Mkdirs, 0), Answer(Open, 0), Answer(Transfer, 0)]
  const StoreClosed := [NotThere, Answer(Mkdirs, 0), Answer(Open, 0), Answer(Transfer, 0), Answer(Close, 0)]

  /** A store that got these answers gives up with `err` and goes on to unlink its temp file. */
  ghost predicate StoreGivesUp(a: seq<Answer>, moved: nat, size: nat, err: int) {
    && err != 0
    && (|| (&& |a| == 5 && a[..3] == StoreOpened && a[3].call == Transfer && a[4].call == Close
            && err == FirstError(TransferErr(a[3].errno, moved, size), a[4].errno))
        || (a == StoreClosed + [Answer(Rename, err)] && moved == size))
  }

  ghost predicate StoreTold(a: seq<Answer>, moved: nat, size: nat, pc: StorePc) {
    match pc
    case AtAccess => a == [] && moved == 0
    case AtMkdirs => a == [NotThere] && moved == 0
    case AtOpen => a == StoreMade && moved == 0
    case AtWrite(_, written) => a == StoreOpened && moved == written
    case AtAbortClose(_, err) =>
      && |a| == 4 && a[..3] == StoreOpened && a[3].call == Transfer
      && err == TransferErr(a[3].errno, moved, size) && err != 0
    case AtClose(_) => a == StoreWritten && moved == size
    case AtRename(_) => a == StoreClosed && moved == size
    case AtUnlinkTmp(_, err) => StoreGivesUp(a, moved, size, err)
    case AlreadyThere => a == [Answer(Access, 0)]
    case Published(_) => a == StoreClosed + [Answer(Rename, 0)] && moved == size
    case StoreFailed(err, leaked) =>
      && err != 0
      && if |a| <= 3 then leaked.None? && (a == [NotThere, Answer(Mkdirs, err)] || a == StoreMade + [Answer(Open, err)])
         else && a[|a| - 1].call == Unlink && (a[|a| - 1].errno != 0 <==> leaked.Some?)
              && StoreGivesUp(a[..|a| - 1], moved, size, err)
    case StoreCrashed(_) => a == [] || a[0] == NotThere
  }

  lemma StoreToldNext(s: State, e: Event, c: Call, a: seq<Answer>, moved: nat)
    requires c.Store? && EnabledStore(s, e, c.tmp, c.dest, c.src, c.spc) && StoreTold(a, moved, |c.src|, c.spc)
    ensures StoreTold(if AnswerOf(e).Some? then a + [AnswerOf(e).value] else a,
                      moved + (if e.KernelMoves? then e.n else 0),
                      |c.src|, NextStorePc(e, c.src, c.spc))
  {
    if c.spc.AtUnlinkTmp? && !e.Dies? {
      assert (a + [AnswerOf(e).value])[..|a|] == a;
    }
  }

  // ----- Over whole runs

  ghost predicate Told(s: State, run: seq<Event>, id: CallId) {
    if id !in s.calls then Answers(run, id) == [] && Moved(run, id) == 0
    else CallTold(s.calls[id], Answers(run, id), Moved(run, id))
  }

  lemma OneMoreAnswer(run: seq<Event>, e: Event, id: CallId)
    ensures Answers(run + [e], id)
            == if e.id == id && AnswerOf(e).Some? then Answers(run, id) + [AnswerOf(e).value] else Answers(run, id)
    ensures Moved(run + [e], id) == Moved(run, id) + if e.KernelMoves? && e.id == id then e.n else 0
  {
    assert (run + [e])[..|run|] == run;
  }

  lemma EventTold(s: State, run: seq<Event>, e: Event, id: CallId)
    requires Enabled(s, e) && Told(s, run, id)
    ensures Told(Apply(s, e), run + [e], id)
  {
    OneMoreAnswer(run, e, id);
    if e.id == id && id in s.calls {
      OwnEventTold(s, e, id, Answers(run, id), Moved(run, id));
    }
  }

  ghost predicate CallTold(c: Call, a: seq<Answer>, moved: nat) {
    if c.Store? then StoreTold(a, moved, |c.src|, c.spc) else LoadTold(a, moved, c.size, c.lpc)
  }

  lemma OwnEventTold(s: State, e: Event, id: CallId, a: seq<Answer>, moved: nat)
    requires Enabled(s, e) && e.id == id && id in s.calls && CallTold(s.calls[id], a, moved)
    ensures id in Apply(s, e).calls
    ensures CallTold(Apply(s, e).calls[id], if AnswerOf(e).Some? then a + [AnswerOf(e).value] else a,
                     moved + if e.KernelMoves? then e.n else 0)
  {
    var c := s.calls[id];
    if c.Store? { StoreToldNext(s, e, c, a, moved); } else { LoadToldNext(s, e, c, a, moved); }
  }

  lemma {:induction false} RunTold(start: State, run: seq<Event>, id: CallId)
    requires After(start, run).Some? && id !in start.calls
    ensures Told(After(start, run).value, run, id)
  {
    if run != [] {
      var init, e := run[..|run| - 1], run[|run| - 1];
      assert run == init + [e];
      RunSplits(start, init, e);
      RunTold(start, init, id);
      EventTold(After(start, init).value, init, e, id);
    }
  }

  /** The answers a load got say which system calls it has made, and what it returned. */
  lemma LoadOutcome(start: State, run: seq<Event>, id: CallId)
    requires After(start, run).Some? && id !in start.calls
    requires var s := After(start, run).value; id in s.calls && s.calls[id].Load?
    ensures var c := After(start, run).value.calls[id]; LoadTold(Answers(run, id), Moved(run, id), c.size, c.lpc)
  {
    RunTold(start, run, id);
  }

  /** And the same of a store. */
  lemma StoreOutcome(start: State, run: seq<Event>, id: CallId)
    requires After(start, run).Some? && id !in start.calls
    requires var s := After(start, run).value; id in s.calls && s.calls[id].Store?
    ensures var c := After(start, run).value.calls[id]; StoreTold(Answers(run, id), Moved(run, id), |c.src|, c.spc)
  {
    RunTold(start, run, id);
  }

  /** A load that has ended crashed exactly if it died. */
  ghost predicate CrashRemembered(s: State, run: seq<Event>, id: CallId) {
    if id !in s.calls then !Died(run, id) else s.calls[id].Load? ==> (s.calls[id].lpc.LoadCrashed? <==> Died(run, id))
  }

  lemma {:induction false} RunRemembersCrash(start: State, run: seq<Event>, id: CallId)
    requires After(start, run).Some? && id !in start.calls
    ensures CrashRemembered(After(start, run).value, run, id)
  {
    if run != [] {
      var init, e := run[..|run| - 1], run[|run| - 1];
      assert run == init + [e];
      RunSplits(start, init, e);
      RunRemembersCrash(start, init, id);
      OneMoreEvent(init, e, id);
    }
  }

  /** A load that has ended returned 0 if and only if it did not die, every system call it made
      succeeded, and the kernel moved the whole buffer. */
  lemma LoadedExactly(start: State, run: seq<Event>, id: CallId)
    requires After(start, run).Some? && id !in start.calls
    requires var s := After(start, run).value; id in s.calls && s.calls[id].Load? && !Live(s.calls[id])
    ensures var c := After(start, run).value.calls[id];
            c.lpc.Loaded? <==> !Died(run, id) && AllZero(Answers(run, id)) && Moved(run, id) == c.size
  {
    RunTold(start, run, id);
    RunRemembersCrash(start, run, id);
    var c := After(start, run).value.calls[id];
    if c.lpc.LoadFailed? {
      LoadFailureShows(Answers(run, id), Moved(run, id), c.size, c.lpc.err);
    }
  }

  lemma LoadFailureShows(a: seq<Answer>, moved: nat, size: nat, err: int)
    requires |a| > 0 && LoadGivesUp(a[..|a| - 1], moved, size, err)
    ensures AllZero(a) ==> moved != size
  {
    if AllZero(a) { assert a[0].errno == 0 && (|a| == 4 ==> a[1].errno == 0 && a[2].errno == 0); }
  }

  /** A store that has ended found its destination there if and only if `access` said so, and renamed its
      block into place if and only if `access` did not, it did not die, every other system call it made
      succeeded, and the kernel moved the whole buffer. */
  lemma StoredExactly(start: State, run: seq<Event>, id: CallId)
    requires After(start, run).Some? && id !in start.calls
    requires var s := After(start, run).value; id in s.calls && s.calls[id].Store? && !Live(s.calls[id])
    ensures var c, a := After(start, run).value.calls[id], Answers(run, id);
            && (c.spc.AlreadyThere? <==> a != [] && a[0].errno == 0)
            && (c.spc.Published? <==>
                  !Died(run, id) && a != [] && a[0].errno != 0 && AllZero(a[1..]) && Moved(run, id) == |c.src|)
  {
    RunTold(start, run, id);
    RunRemembered(start, run, id);
    var c := After(start, run).value.calls[id];
    if c.spc.StoreFailed? {
      StoreFailureShows(Answers(run, id), Moved(run, id), |c.src|, c.spc);
    }
  }

  lemma StoreFailureShows(a: seq<Answer>, moved: nat, size: nat, pc: StorePc)
    requires pc.StoreFailed? && StoreTold(a, moved, size, pc)
    ensures a != [] && a[0].errno != 0 && (AllZero(a[1..]) ==> moved != size)
  {
    if |a| > 3 {
      var b := a[..|a| - 1];
      assert b[0] == b[..3][0] && forall i | 0 <= i < |b| :: b[i] == a[i];
    }
    if AllZero(a[1..]) {
      forall i | 1 <= i < |a| ensures a[i].errno == 0 { assert a[1..][i - 1] == a[i]; }
      assert a[if |a| <= 3 then |a| - 1 else 3].errno == 0 && (|a| > 4 ==> a[|a| - 2].errno == 0);
    }
  }

  /** No call is ever forgotten. */
  lemma {:induction false} CallsStay(start: State, run: seq<Event>, id: CallId)
    requires After(start, run).Some? && id in start.calls
    ensures id in After(start, run).value.calls
  {
    if run != [] {
      CallsStay(start, run[..|run| - 1], id);
    }
  }

  /** What a load that returned, begun after `before`, returned. */
  lemma LoadReturned(start: State, before: seq<Event>, run: seq<Event>, id: CallId)
    requires After(start, before).Some? && id !in After(start, before).value.calls && After(start, run).Some?
    requires var s := After(start, run).value;
             id in s.calls && s.calls[id].Load? && (s.calls[id].lpc.Loaded? || s.calls[id].lpc.LoadFailed?)
    ensures var c := After(start, run).value.calls[id];
            c.lpc.Loaded? <==> AllZero(Answers(run, id)) && Moved(run, id) == c.size
  {
    if id in start.calls { CallsStay(start, before, id); }
    LoadedExactly(start, run, id);
    RunRemembersCrash(start, run, id);
  }

  ghost predicate NoObstacle(answers: seq<Answer>, moved: nat, size: nat) {
    answers != [] && (answers[0].errno == 0 || (AllZero(answers[1..]) && moved == size))
  }

  lemma StoreReturned(start: State, before: seq<Event>, run: seq<Event>, id: CallId)
    requires After(start, before).Some? && id !in After(start, before).value.calls && After(start, run).Some?
    requires var s := After(start, run).value;
             id in s.calls && s.calls[id].Store? && !Live(s.calls[id]) && !s.calls[id].spc.StoreCrashed?
    ensures var c := After(start, run).value.calls[id];
            !c.spc.StoreFailed? <==> NoObstacle(Answers(run, id), Moved(run, id), |c.src|)
  {
    if id in start.calls { CallsStay(start, before, id); }
    StoredExactly(start, run, id);
    RunRemembered(start, run, id);
  }

  // ----- A store and a load that meet no obstacle

  /** A store whose every system call succeeds at once. */
  function PlainStore(id: CallId, tmp: Path, dest: Path, src: Bytes, ino: Ino): seq<Event> {
    [StartStore(id, tmp, dest, src), AccessReturns(id, false), MkdirsReturns(id, 0), OpenReturns(id, 0, ino),
     KernelMoves(id, |src|), TransferReturns(id, 0), CloseReturns(id, 0), RenameReturns(id, 0)]
  }

  function PlainLoad(id: CallId, source: Path, size: nat): seq<Event> {
    [StartLoad(id, source, size), OpenReturns(id, 0, 0), KernelMoves(id, size), TransferReturns(id, 0),
     CloseReturns(id, 0)]
  }

  /** The state with `pc` for load `id`. */
  function Loading(s: State, id: CallId, source: Path, size: nat, pc: LoadPc): State { LoadAt(s, id, source, size, pc) }

  /** In any state, a load of a block that is there, in whole or in part, returns 0 with the block's first
      bytes, and leaves the directory and the files as they are. */
  lemma LoadSucceeds(s: State, id: CallId, source: Path, size: nat)
    requires id !in s.calls && source !in s.temps && source in s.dir
    requires s.dir[source] in s.inodes && size <= |s.inodes[s.dir[source]].bytes|
    ensures After(s, PlainLoad(id, source, size))
            == Some(Loading(s, id, source, size, Loaded(s.dir[source], s.inodes[s.dir[source]].bytes[..size])))
  {
    var run := PlainLoad(id, source, size);
    LoadOpens(s, run, id, source, size);
    LoadReads(s, run, id, source, size, s.dir[source], s.inodes[s.dir[source]].bytes[..size]);
    assert run[..5] == run;
  }

  lemma LoadOpens(s: State, run: seq<Event>, id: CallId, source: Path, size: nat)
    requires |run| == 5 && run[0] == StartLoad(id, source, size) && run[1] == OpenReturns(id, 0, 0)
    requires id !in s.calls && source !in s.temps && source in s.dir
    ensures After(s, run[..2]) == Some(Loading(s, id, source, size, AtRead(s.dir[source], [])))
  {
    RunGrows(s, run, 0, s, Loading(s, id, source, size, AtOpenSource));
    LoadStep(s, run, 1, id, source, size, AtOpenSource, AtRead(s.dir[source], []));
  }

  lemma LoadReads(s: State, run: seq<Event>, id: CallId, source: Path, size: nat, ino: Ino, got: Bytes)
    requires |run| == 5 && run[2] == KernelMoves(id, size) && run[3] == TransferReturns(id, 0)
             && run[4] == CloseReturns(id, 0)
    requires ino in s.inodes && size <= |s.inodes[ino].bytes| && got == s.inodes[ino].bytes[..size]
    requires After(s, run[..2]) == Some(Loading(s, id, source, size, AtRead(ino, [])))
    ensures After(s, run[..5]) == Some(Loading(s, id, source, size, Loaded(ino, got)))
  {
    assert [] + s.inodes[ino].bytes[0..0 + size] == got;
    LoadStep(s, run, 2, id, source, size, AtRead(ino, []), AtRead(ino, got));
    LoadStep(s, run, 3, id, source, size, AtRead(ino, got), AtReadClose(ino, got));
    LoadStep(s, run, 4, id, source, size, AtReadClose(ino, got), Loaded(ino, got));
  }

  lemma LoadStep(s: State, run: seq<Event>, k: nat, id: CallId, source: Path, size: nat, pc: LoadPc, pc': LoadPc)
    requires k < |run| && After(s, run[..k]) == Some(Loading(s, id, source, size, pc))
    requires run[k].id == id && !run[k].StartStore? && !run[k].StartLoad? && !run[k].UnlinkReturns?
    requires var s := Loading(s, id, source, size, pc);
             EnabledLoad(s, run[k], source, size, pc) && NextLoadPc(s, run[k], source, size, pc) == pc'
    ensures After(s, run[..k + 1]) == Some(Loading(s, id, source, size, pc'))
  {
    RunGrows(s, run, k, Loading(s, id, source, size, pc), Loading(s, id, source, size, pc'));
  }

  /** The state with files `dir` and `inodes`, and `pc` for store `id`. */
  function Storing(s: State, dir: map<Path, Ino>, inodes: map<Ino, Inode>, id: CallId, tmp: Path, dest: Path,
                   src: Bytes, pc: StorePc): State {
    StoreAt(s.(dir := dir, inodes := inodes), id, tmp, dest, src, pc)
  }

  lemma StoreStep(s: State, run: seq<Event>, k: nat, id: CallId, tmp: Path, dest: Path, src: Bytes,
                  dir: map<Path, Ino>, inodes: map<Ino, Inode>, pc: StorePc,
                  dir': map<Path, Ino>, inodes': map<Ino, Inode>, pc': StorePc)
    requires k < |run| && After(s, run[..k]) == Some(Storing(s, dir, inodes, id, tmp, dest, src, pc))
    requires run[k].id == id && !run[k].StartStore? && !run[k].StartLoad?
    requires EnabledStore(Storing(s, dir, inodes, id, tmp, dest, src, pc), run[k], tmp, dest, src, pc)
    requires var s' := StoreEffect(Storing(s, dir, inodes, id, tmp, dest, src, pc), run[k], tmp, dest, src, pc);
             s'.dir == dir' && s'.inodes == inodes' && NextStorePc(run[k], src, pc) == pc'
    ensures After(s, run[..k + 1]) == Some(Storing(s, dir', inodes', id, tmp, dest, src, pc'))
  {
    RunGrows(s, run, k, Storing(s, dir, inodes, id, tmp, dest, src, pc),
             Storing(s, dir', inodes', id, tmp, dest, src, pc'));
  }

  lemma StoreOpens(s: State, run: seq<Event>, id: CallId, tmp: Path, dest: Path, src: Bytes, ino: Ino)
    requires |run| == 8 && run[0] == StartStore(id, tmp, dest, src) && run[1] == AccessReturns(id, false)
    requires run[2] == MkdirsReturns(id, 0) && run[3] == OpenReturns(id, 0, ino)
    requires id !in s.calls && tmp in s.temps && dest !in s.temps && tmp !in s.dir && ino !in s.inodes
    ensures After(s, run[..4])
            == Some(Storing(s, s.dir[tmp := ino], s.inodes[ino := Inode([], id)], id, tmp, dest, src, AtWrite(ino, 0)))
  {
    var dir, inodes := s.dir, s.inodes;
    RunGrows(s, run, 0, s, Storing(s, dir, inodes, id, tmp, dest, src, AtAccess));
    StoreStep(s, run, 1, id, tmp, dest, src, dir, inodes, AtAccess, dir, inodes, AtMkdirs);
    StoreStep(s, run, 2, id, tmp, dest, src, dir, inodes, AtMkdirs, dir, inodes, AtOpen);
    StoreStep(s, run, 3, id, tmp, dest, src, dir, inodes, AtOpen,
              dir[tmp := ino], inodes[ino := Inode([], id)], AtWrite(ino, 0));
  }

  lemma StoreWrites(s: State, run: seq<Event>, id: CallId, tmp: Path, dest: Path, src: Bytes, ino: Ino,
                    dir: map<Path, Ino>, inodes: map<Ino, Inode>)
    requires |run| == 8 && run[4] == KernelMoves(id, |src|)
    requires After(s, run[..4])
             == Some(Storing(s, dir, inodes[ino := Inode([], id)], id, tmp, dest, src, AtWrite(ino, 0)))
    ensures After(s, run[..5])
            == Some(Storing(s, dir, inodes[ino := Inode(src, id)], id, tmp, dest, src, AtWrite(ino, |src|)))
  {
    assert [] + src[0..0 + |src|] == src;
    StoreStep(s, run, 4, id, tmp, dest, src, dir, inodes[ino := Inode([], id)], AtWrite(ino, 0),
              dir, inodes[ino := Inode(src, id)], AtWrite(ino, |src|));
  }

  lemma StoreRenames(s: State, run: seq<Event>, id: CallId, tmp: Path, dest: Path, src: Bytes, ino: Ino,
                     dir: map<Path, Ino>, inodes: map<Ino, Inode>)
    requires |run| == 8 && run[5] == TransferReturns(id, 0) && run[6] == CloseReturns(id, 0)
             && run[7] == RenameReturns(id, 0)
    requires tmp in s.temps && dest !in s.temps && tmp !in dir && (dest in dir ==> dir[dest] != ino)
    requires After(s, run[..5]) == Some(Storing(s, dir[tmp := ino], inodes, id, tmp, dest, src, AtWrite(ino, |src|)))
    ensures After(s, run[..8]) == Some(Storing(s, dir[dest := ino], inodes, id, tmp, dest, src, Published(ino)))
  {
    var held := dir[tmp := ino];
    StoreStep(s, run, 5, id, tmp, dest, src, held, inodes, AtWrite(ino, |src|), held, inodes, AtClose(ino));
    StoreStep(s, run, 6, id, tmp, dest, src, held, inodes, AtClose(ino), held, inodes, AtRename(ino));
    assert (held - {tmp})[dest := ino] == dir[dest := ino];
    StoreStep(s, run, 7, id, tmp, dest, src, held, inodes, AtRename(ino), dir[dest := ino], inodes, Published(ino));
  }

  /** In any state with the invariant and the temp name free, a store puts its block in place. */
  lemma StoreSucceeds(s: State, id: CallId, tmp: Path, dest: Path, src: Bytes, ino: Ino)
    requires Inv(s) && id !in s.calls && tmp in s.temps && dest !in s.temps && tmp !in s.dir && ino !in s.inodes
    ensures After(s, PlainStore(id, tmp, dest, src, ino))
            == Some(Storing(s, s.dir[dest := ino], s.inodes[ino := Inode(src, id)], id, tmp, dest, src, Published(ino)))
  {
    var run := PlainStore(id, tmp, dest, src, ino);
    StoreOpens(s, run, id, tmp, dest, src, ino);
    StoreWrites(s, run, id, tmp, dest, src, ino, s.dir[tmp := ino], s.inodes);
    if dest in s.dir { assert LinkOk(s, dest); }
    StoreRenames(s, run, id, tmp, dest, src, ino, s.dir, s.inodes[ino := Inode(src, id)]);
    assert run[..8] == run;
  }

  lemma {:induction false} AfterBoth(s: State, run: seq<Event>, more: seq<Event>)
    requires After(s, run).Some?
    ensures After(s, run + more) == After(After(s, run).value, more)
  {
    if more == [] {
      assert run + more == run;
    } else {
      AfterBoth(s, run, more[..|more| - 1]);
      assert (run + more)[..|run + more| - 1] == run + more[..|more| - 1];
    }
  }

  /** Whatever block is stored, a load with a buffer of its size gets it back, and it stays in place. */
  lemma StoreThenLoad(s: State, a: CallId, b: CallId, tmp: Path, dest: Path, src: Bytes, ino: Ino)
    requires Inv(s) && a !in s.calls && b !in s.calls && a != b
    requires tmp in s.temps && dest !in s.temps && tmp !in s.dir && ino !in s.inodes
    ensures var s' := After(s, PlainStore(a, tmp, dest, src, ino) + PlainLoad(b, dest, |src|));
            && s'.Some? && s'.value.dir == s.dir[dest := ino]
            && b in s'.value.calls && s'.value.calls[b] == Load(dest, |src|, Loaded(ino, src))
  {
    StoreSucceeds(s, a, tmp, dest, src, ino);
    AfterBoth(s, PlainStore(a, tmp, dest, src, ino), PlainLoad(b, dest, |src|));
    var s' := After(s, PlainStore(a, tmp, dest, src, ino)).value;
    LoadSucceeds(s', b, dest, |src|);
    assert src[..|src|] == src;
  }
}

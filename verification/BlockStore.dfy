/** The block store shared by concurrent store and load calls (csrc/fs_io.cpp).

    Every call is a short program of system calls.  A state holds the directory, the inodes, and
    one program counter per call; an event is one system call returning to one call, or the kernel
    moving some more bytes for a `write` or `read` that has not returned yet, or a call dying where
    it stands.  A run is any sequence of enabled events, so any number of calls interleave.

    `open` with O_EXCL, `rename` and `unlink` behave as in the System Interfaces volume of
    POSIX.1-2017.  Every system call may fail with any non-zero errno at any time.
 */
module BlockStore {
  import opened Prelude

  type Path = string
  type Bytes = seq<bv8>
  type Ino = nat
  type CallId = nat

  const EIO := 5
  const EEXIST := 17

  /** An inode remembers the call that created it; the kernel does not, so no step reads `creator`. */
  datatype Inode = Inode(bytes: Bytes, creator: CallId)

  /** Where a store call stands: waiting for a system call, or returned. */
  datatype StorePc =
    | AtAccess
    | AtMkdirs
    | AtOpen
    | AtWrite(ino: Ino, written: nat)
    | AtAbortClose(ino: Ino, err: int)
    | AtClose(ino: Ino)
    | AtRename(ino: Ino)
    | AtUnlinkTmp(ino: Ino, err: int)
    | AlreadyThere                                  // returned 0: the destination existed
    | Published(ino: Ino)                           // returned 0: renamed into place
    | StoreFailed(err: int, leaked: Option<Ino>)    // returned err; leaked if unlink failed too
    | StoreCrashed(left: Option<Ino>)

  /** Where a load call stands. */
  datatype LoadPc =
    | AtOpenSource
    | AtRead(ino: Ino, got: Bytes)
    | AtAbortReadClose(err: int)
    | AtReadClose(ino: Ino, got: Bytes)
    | AtUnlinkSource(err: int)
    | Loaded(ino: Ino, got: Bytes)                  // returned 0
    | LoadFailed(err: int)
    | LoadCrashed

  datatype Call =
    | Store(tmp: Path, dest: Path, src: Bytes, spc: StorePc)
    | Load(source: Path, size: nat, lpc: LoadPc)

  /** `temps` is the set of names reserved for temp files; callers use it for nothing else. */
  datatype State = State(temps: iset<Path>, dir: map<Path, Ino>, inodes: map<Ino, Inode>, calls: map<CallId, Call>)

  /** An `errno` of 0 is the success of the system call that returns. */
  datatype Event =
    | StartStore(id: CallId, tmp: Path, dest: Path, src: Bytes)
    | StartLoad(id: CallId, source: Path, size: nat)
    | AccessReturns(id: CallId, found: bool)
    | MkdirsReturns(id: CallId, errno: int)
    | OpenReturns(id: CallId, errno: int, fresh_: Ino)
    | KernelMoves(id: CallId, n: nat)
    | TransferReturns(id: CallId, errno: int)
    | CloseReturns(id: CallId, errno: int)
    | RenameReturns(id: CallId, errno: int)
    | UnlinkReturns(id: CallId, errno: int)
    | Dies(id: CallId)

  predicate StoreLive(pc: StorePc) {
    !(pc.AlreadyThere? || pc.Published? || pc.StoreFailed? || pc.StoreCrashed?)
  }

  predicate LoadLive(pc: LoadPc) {
    !(pc.Loaded? || pc.LoadFailed? || pc.LoadCrashed?)
  }

  predicate Live(c: Call) {
    if c.Store? then StoreLive(c.spc) else LoadLive(c.lpc)
  }

  /** The inode a store call has linked, or left linked, under its temp name. */
  function TempIno(pc: StorePc): Option<Ino> {
    match pc
    case AtWrite(i, _) => Some(i)
    case AtAbortClose(i, _) => Some(i)
    case AtClose(i) => Some(i)
    case AtRename(i) => Some(i)
    case AtUnlinkTmp(i, _) => Some(i)
    case StoreFailed(_, l) => l
    case StoreCrashed(l) => l
    case _ => None
  }

  /** Which events the kernel can deliver in `s`. */
  predicate Enabled(s: State, e: Event) {
    match e
    case StartStore(id, tmp, dest, _) => id !in s.calls && tmp in s.temps && dest !in s.temps
    case StartLoad(id, source, _) => id !in s.calls && source !in s.temps
    case _ =>
      e.id in s.calls &&
      match s.calls[e.id]
      case Store(tmp, dest, src, pc) => EnabledStore(s, e, tmp, dest, src, pc)
      case Load(source, size, pc) => EnabledLoad(s, e, source, size, pc)
  }

  predicate EnabledStore(s: State, e: Event, tmp: Path, dest: Path, src: Bytes, pc: StorePc) {
    match e
    case AccessReturns(_, found) => pc.AtAccess? && (found ==> dest in s.dir)
    case MkdirsReturns(_, _) => pc.AtMkdirs?
    case OpenReturns(_, errno, ino) => pc.AtOpen? && (errno == 0 ==> tmp !in s.dir && ino !in s.inodes)
    case KernelMoves(_, n) => pc.AtWrite? && pc.written + n <= |src| && pc.ino in s.inodes
    case TransferReturns(_, _) => pc.AtWrite?
    case CloseReturns(_, _) => pc.AtClose? || pc.AtAbortClose?
    case RenameReturns(_, errno) => pc.AtRename? && (errno == 0 ==> tmp in s.dir)
    case UnlinkReturns(_, errno) => pc.AtUnlinkTmp? && (errno == 0 ==> tmp in s.dir)
    case Dies(_) => StoreLive(pc)
    case _ => false
  }

  predicate EnabledLoad(s: State, e: Event, source: Path, size: nat, pc: LoadPc) {
    match e
    case OpenReturns(_, errno, _) => pc.AtOpenSource? && (errno == 0 ==> source in s.dir)
    case KernelMoves(_, n) =>
      pc.AtRead? && pc.ino in s.inodes && |pc.got| + n <= size && |pc.got| + n <= |s.inodes[pc.ino].bytes|
    case TransferReturns(_, _) => pc.AtRead?
    case CloseReturns(_, _) => pc.AtReadClose? || pc.AtAbortReadClose?
    case UnlinkReturns(_, errno) => pc.AtUnlinkSource? && (errno == 0 ==> source in s.dir)
    case Dies(_) => LoadLive(pc)
    case _ => false
  }

  function Apply(s: State, e: Event): State
    requires Enabled(s, e)
  {
    match e
    case StartStore(id, tmp, dest, src) => s.(calls := s.calls[id := Store(tmp, dest, src, AtAccess)])
    case StartLoad(id, source, size) => s.(calls := s.calls[id := Load(source, size, AtOpenSource)])
    case _ =>
      match s.calls[e.id]
      case Store(tmp, dest, src, pc) => ApplyStore(s, e, tmp, dest, src, pc)
      case Load(source, size, pc) => ApplyLoad(s, e, source, size, pc)
  }

  function ApplyStore(s: State, e: Event, tmp: Path, dest: Path, src: Bytes, pc: StorePc): State
    requires EnabledStore(s, e, tmp, dest, src, pc)
  {
    StoreAt(StoreEffect(s, e, tmp, dest, src, pc), e.id, tmp, dest, src, NextStorePc(e, src, pc))
  }

  function StoreAt(s: State, id: CallId, tmp: Path, dest: Path, src: Bytes, pc: StorePc): State {
    s.(calls := s.calls[id := Store(tmp, dest, src, pc)])
  }

  /** What the system call did to the file system before returning. */
  function StoreEffect(s: State, e: Event, tmp: Path, dest: Path, src: Bytes, pc: StorePc): State
    requires EnabledStore(s, e, tmp, dest, src, pc)
  {
    match e
    case OpenReturns(id, errno, ino) =>
      if errno != 0 then s else s.(dir := s.dir[tmp := ino], inodes := s.inodes[ino := Inode([], id)])
    case KernelMoves(_, n) =>
      var node := s.inodes[pc.ino];
      s.(inodes := s.inodes[pc.ino := node.(bytes := node.bytes + src[pc.written..pc.written + n])])
    case RenameReturns(_, errno) =>
      if errno != 0 then s
      else if dest in s.dir && s.dir[dest] == s.dir[tmp] then s  // two links to one file: nothing happens
      else s.(dir := (s.dir - {tmp})[dest := s.dir[tmp]])
    case UnlinkReturns(_, errno) =>
      if errno != 0 then s else s.(dir := s.dir - {tmp})
    case _ => s
  }

  /** Which system call `_store_block` makes next, or what it returns. */
  function NextStorePc(e: Event, src: Bytes, pc: StorePc): StorePc {
    match pc
    case AtAccess =>
      if e.Dies? then StoreCrashed(None)
      else if e.AccessReturns? && e.found then AlreadyThere
      else AtMkdirs
    case AtMkdirs =>
      if e.Dies? then StoreCrashed(None)
      else if ErrnoOf(e) != 0 then StoreFailed(ErrnoOf(e), None)
      else AtOpen
    case AtOpen =>
      if e.Dies? then StoreCrashed(None)
      else if !e.OpenReturns? || e.errno != 0 then StoreFailed(ErrnoOf(e), None)  // no unlink here
      else AtWrite(e.fresh_, 0)
    case AtWrite(ino, written) =>
      if e.Dies? then StoreCrashed(Some(ino))
      else if e.KernelMoves? then AtWrite(ino, written + e.n)
      else if ErrnoOf(e) != 0 then AtAbortClose(ino, ErrnoOf(e))
      else if written != |src| then AtAbortClose(ino, EIO)
      else AtClose(ino)
    case AtAbortClose(ino, err) =>
      if e.Dies? then StoreCrashed(Some(ino)) else AtUnlinkTmp(ino, err)
    case AtClose(ino) =>
      if e.Dies? then StoreCrashed(Some(ino))
      else if ErrnoOf(e) != 0 then AtUnlinkTmp(ino, ErrnoOf(e))
      else AtRename(ino)
    case AtRename(ino) =>
      if e.Dies? then StoreCrashed(Some(ino))
      else if ErrnoOf(e) != 0 then AtUnlinkTmp(ino, ErrnoOf(e))
      else Published(ino)
    case AtUnlinkTmp(ino, err) =>
      if e.Dies? then StoreCrashed(Some(ino))
      else StoreFailed(err, if ErrnoOf(e) != 0 then Some(ino) else None)
    case _ => pc
  }

  /** The errno a returning system call left behind. */
  function ErrnoOf(e: Event): int {
    match e
    case MkdirsReturns(_, errno) => errno
    case OpenReturns(_, errno, _) => errno
    case TransferReturns(_, errno) => errno
    case CloseReturns(_, errno) => errno
    case RenameReturns(_, errno) => errno
    case UnlinkReturns(_, errno) => errno
    case _ => 0
  }

  function ApplyLoad(s: State, e: Event, source: Path, size: nat, pc: LoadPc): State
    requires EnabledLoad(s, e, source, size, pc)
  {
    LoadAt(if e.UnlinkReturns? && e.errno == 0 then s.(dir := s.dir - {source}) else s,
           e.id, source, size, NextLoadPc(s, e, source, size, pc))
  }

  function LoadAt(s: State, id: CallId, source: Path, size: nat, pc: LoadPc): State {
    s.(calls := s.calls[id := Load(source, size, pc)])
  }

  /** Which system call `_load_block` makes next, or what it returns. */
  function NextLoadPc(s: State, e: Event, source: Path, size: nat, pc: LoadPc): LoadPc
    requires EnabledLoad(s, e, source, size, pc)
  {
    if e.Dies? then LoadCrashed
    else
      match pc
      case AtOpenSource => if ErrnoOf(e) != 0 then AtUnlinkSource(ErrnoOf(e)) else AtRead(s.dir[source], [])
      case AtRead(ino, got) =>
        if e.KernelMoves? then AtRead(ino, got + s.inodes[ino].bytes[|got|..|got| + e.n])
        else if ErrnoOf(e) != 0 then AtAbortReadClose(ErrnoOf(e))
        else if |got| != size then AtAbortReadClose(EIO)
        else AtReadClose(ino, got)
      case AtAbortReadClose(err) => AtUnlinkSource(err)
      case AtReadClose(ino, got) => if ErrnoOf(e) != 0 then AtUnlinkSource(ErrnoOf(e)) else Loaded(ino, got)
      case AtUnlinkSource(err) => LoadFailed(err)
      case _ => pc
  }

  /** Nothing there, and no call made. */
  function Empty(temps: iset<Path>): State { State(temps, map[], map[], map[]) }

  /** The state after a run from `start`, or None if some event was not enabled when it came. */
  function After(start: State, run: seq<Event>): Option<State> {
    if run == [] then Some(start)
    else
      var s := After(start, run[..|run| - 1]);
      var e := run[|run| - 1];
      if s.Some? && Enabled(s.value, e) then Some(Apply(s.value, e)) else None
  }

  // ----- What every reachable state satisfies

  /** Inode `ino` was created by call `id`, a store to `dest` that renamed all of its buffer into place. */
  ghost predicate WholeBlock(s: State, ino: Ino, dest: Path) {
    && ino in s.inodes
    && s.inodes[ino].creator in s.calls
    && var c := s.calls[s.inodes[ino].creator];
       && c.Store? && c.dest == dest
       && c.spc == Published(ino)
       && s.inodes[ino].bytes == c.src
  }

  /** Inode `ino` is the one that the creating call holds, or left, under its own temp name `p`. */
  ghost predicate OwnTemp(s: State, ino: Ino, p: Path) {
    && ino in s.inodes
    && s.inodes[ino].creator in s.calls
    && var c := s.calls[s.inodes[ino].creator];
       && c.Store? && c.tmp == p
       && TempIno(c.spc) == Some(ino)
  }

  ghost predicate LinkOk(s: State, p: Path)
    requires p in s.dir
  {
    if p in s.temps then OwnTemp(s, s.dir[p], p) else WholeBlock(s, s.dir[p], p)
  }

  ghost predicate LinksOk(s: State) {
    forall p | p in s.dir :: LinkOk(s, p)
  }

  /** A store past `open` that has not renamed or unlinked its file still has it under its temp name. */
  ghost predicate Holds(s: State, id: CallId, tmp: Path, ino: Ino) {
    && tmp in s.dir && s.dir[tmp] == ino
    && ino in s.inodes && s.inodes[ino].creator == id
  }

  ghost predicate StoreOk(s: State, id: CallId, tmp: Path, dest: Path, src: Bytes, pc: StorePc) {
    && tmp in s.temps && dest !in s.temps
    && match pc
       case AtWrite(ino, w) => Holds(s, id, tmp, ino) && w <= |src| && s.inodes[ino].bytes == src[..w]
       case AtAbortClose(ino, err) => Holds(s, id, tmp, ino) && err != 0
       case AtClose(ino) => Holds(s, id, tmp, ino) && s.inodes[ino].bytes == src
       case AtRename(ino) => Holds(s, id, tmp, ino) && s.inodes[ino].bytes == src
       case AtUnlinkTmp(ino, err) => Holds(s, id, tmp, ino) && err != 0
       case Published(ino) => ino in s.inodes && s.inodes[ino].creator == id && s.inodes[ino].bytes == src
       case StoreFailed(err, left) => err != 0 && (left.Some? ==> Holds(s, id, tmp, left.value))
       case StoreCrashed(left) => left.Some? ==> Holds(s, id, tmp, left.value)
       case _ => true
  }

  ghost predicate LoadOk(s: State, source: Path, size: nat, pc: LoadPc) {
    && source !in s.temps
    && match pc
       case AtRead(ino, got) => WholeBlock(s, ino, source) && |got| <= size && got <= s.inodes[ino].bytes
       case AtReadClose(ino, got) => WholeBlock(s, ino, source) && |got| == size && got <= s.inodes[ino].bytes
       case Loaded(ino, got) => WholeBlock(s, ino, source) && |got| == size && got <= s.inodes[ino].bytes
       case AtAbortReadClose(err) => err != 0
       case AtUnlinkSource(err) => err != 0
       case LoadFailed(err) => err != 0
       case _ => true
  }

  ghost predicate CallOk(s: State, id: CallId)
    requires id in s.calls
  {
    match s.calls[id]
    case Store(tmp, dest, src, pc) => StoreOk(s, id, tmp, dest, src, pc)
    case Load(source, size, pc) => LoadOk(s, source, size, pc)
  }

  ghost predicate CallsOk(s: State) {
    forall id | id in s.calls :: CallOk(s, id)
  }

  ghost predicate Inv(s: State) {
    LinksOk(s) && CallsOk(s)
  }

  // ----- Every event keeps the invariant

  /** A step of call `a` leaves every other call's record, files and temp links alone. */
  ghost predicate Frames(s: State, s': State, a: CallId) {
    && s'.temps == s.temps
    && (a in s.calls && s.calls[a].Store? ==> !s.calls[a].spc.Published?)
    && (forall id | id in s'.calls && id != a :: id in s.calls && s'.calls[id] == s.calls[id])
    && (forall id | id in s.calls && id != a :: id in s'.calls)
    && (forall i | i in s.inodes :: i in s'.inodes && s'.inodes[i].creator == s.inodes[i].creator)
    && (forall i | i in s.inodes && s.inodes[i].creator != a :: s'.inodes[i] == s.inodes[i])
    && (forall p | p in s.dir && p in s.temps && s.dir[p] in s.inodes && s.inodes[s.dir[p]].creator != a ::
          p in s'.dir && s'.dir[p] == s.dir[p])
  }

  lemma FramedBlock(s: State, s': State, a: CallId, ino: Ino, dest: Path)
    requires Frames(s, s', a) && WholeBlock(s, ino, dest)
    ensures WholeBlock(s', ino, dest)
  {
  }

  lemma FramedLoad(s: State, s': State, a: CallId, source: Path, size: nat, pc: LoadPc)
    requires Frames(s, s', a) && LoadOk(s, source, size, pc)
    ensures LoadOk(s', source, size, pc)
  {
    match pc
    case AtRead(ino, _) => FramedBlock(s, s', a, ino, source);
    case AtReadClose(ino, _) => FramedBlock(s, s', a, ino, source);
    case Loaded(ino, _) => FramedBlock(s, s', a, ino, source);
    case _ =>
  }

  /** Another call's condition survives a framed step. */
  lemma FramedCall(s: State, s': State, a: CallId, id: CallId)
    requires Frames(s, s', a) && id in s.calls && id != a && CallOk(s, id)
    ensures id in s'.calls && CallOk(s', id)
  {
    var c := s.calls[id];
    if c.Load? { FramedLoad(s, s', a, c.source, c.size, c.lpc); }
  }

  /** A link to another call's inode survives a framed step that does not touch the name. */
  lemma FramedLink(s: State, s': State, a: CallId, p: Path)
    requires Frames(s, s', a) && p in s.dir && p in s'.dir && s'.dir[p] == s.dir[p] && LinkOk(s, p)
    requires s.inodes[s.dir[p]].creator != a
    ensures LinkOk(s', p)
  {
  }

  /** The step is fine once the moving call and the links it may have touched are. */
  lemma FramedInv(s: State, s': State, a: CallId)
    requires Inv(s) && Frames(s, s', a) && a in s'.calls && CallOk(s', a)
    requires forall p | p in s'.dir && (p !in s.dir || s'.dir[p] != s.dir[p]) :: LinkOk(s', p)
    requires forall p | p in s'.dir && p in s.dir && s.dir[p] in s.inodes && s.inodes[s.dir[p]].creator == a ::
               LinkOk(s', p)
    ensures Inv(s')
  {
    forall p | p in s'.dir ensures LinkOk(s', p) {
      if p in s.dir && s'.dir[p] == s.dir[p] {
        assert LinkOk(s, p);
        if s.inodes[s.dir[p]].creator != a { FramedLink(s, s', a, p); }
      }
    }
    forall id | id in s'.calls ensures CallOk(s', id) {
      if id != a { assert CallOk(s, id); FramedCall(s, s', a, id); }
    }
  }

  lemma StoreMovesKeepInv(s: State, a: CallId, tmp: Path, dest: Path, src: Bytes, pc: StorePc, pc': StorePc)
    requires Inv(s) && a in s.calls && s.calls[a] == Store(tmp, dest, src, pc) && StoreLive(pc)
    requires TempIno(pc') == TempIno(pc) && StoreOk(s, a, tmp, dest, src, pc')
    ensures Inv(StoreAt(s, a, tmp, dest, src, pc'))
  {
    var s' := StoreAt(s, a, tmp, dest, src, pc');
    forall p | p in s'.dir && s.dir[p] in s.inodes && s.inodes[s.dir[p]].creator == a ensures LinkOk(s', p) {
      assert LinkOk(s, p);
    }
    FramedInv(s, s', a);
  }

  /** A call that holds no temp file and has published nothing has no file of its own linked. */
  lemma NothingLinkedBy(s: State, a: CallId)
    requires LinksOk(s)
    requires a in s.calls && s.calls[a].Store? ==> TempIno(s.calls[a].spc).None? && !s.calls[a].spc.Published?
    ensures forall p | p in s.dir :: s.dir[p] in s.inodes && s.inodes[s.dir[p]].creator != a
  {
    forall p | p in s.dir ensures s.dir[p] in s.inodes && s.inodes[s.dir[p]].creator != a {
      assert LinkOk(s, p);
    }
  }

  /** A live store past `open` has exactly one name for its inode: its temp name. */
  lemma OnlyTempLinkedBy(s: State, a: CallId, tmp: Path, ino: Ino)
    requires Inv(s) && a in s.calls && s.calls[a].Store? && s.calls[a].tmp == tmp
    requires StoreLive(s.calls[a].spc) && TempIno(s.calls[a].spc) == Some(ino)
    ensures Holds(s, a, tmp, ino) && tmp in s.temps
    ensures forall p | p in s.dir :: s.dir[p] in s.inodes && (s.inodes[s.dir[p]].creator == a <==> p == tmp)
  {
    assert CallOk(s, a);
    forall p | p in s.dir ensures s.dir[p] in s.inodes && (s.inodes[s.dir[p]].creator == a <==> p == tmp) {
      assert LinkOk(s, p);
    }
  }

  lemma CreateKeepsInv(s: State, a: CallId, tmp: Path, dest: Path, src: Bytes, ino: Ino)
    requires Inv(s) && a in s.calls && s.calls[a] == Store(tmp, dest, src, AtOpen)
    requires tmp !in s.dir && ino !in s.inodes
    ensures Inv(StoreAt(s.(dir := s.dir[tmp := ino], inodes := s.inodes[ino := Inode([], a)]),
                        a, tmp, dest, src, AtWrite(ino, 0)))
  {
    var s' := StoreAt(s.(dir := s.dir[tmp := ino], inodes := s.inodes[ino := Inode([], a)]),
                      a, tmp, dest, src, AtWrite(ino, 0));
    assert CallOk(s, a);
    NothingLinkedBy(s, a);
    FramedInv(s, s', a);
  }

  lemma WriteKeepsInv(s: State, a: CallId, tmp: Path, dest: Path, src: Bytes, ino: Ino, w: nat, n: nat)
    requires Inv(s) && a in s.calls && s.calls[a] == Store(tmp, dest, src, AtWrite(ino, w))
    requires w + n <= |src| && ino in s.inodes
    ensures Inv(StoreAt(s.(inodes := s.inodes[ino := s.inodes[ino].(bytes := s.inodes[ino].bytes + src[w..w + n])]),
                        a, tmp, dest, src, AtWrite(ino, w + n)))
  {
    var s' := StoreAt(s.(inodes := s.inodes[ino := s.inodes[ino].(bytes := s.inodes[ino].bytes + src[w..w + n])]),
                      a, tmp, dest, src, AtWrite(ino, w + n));
    assert CallOk(s, a);
    assert src[..w] + src[w..w + n] == src[..w + n];
    OnlyTempLinkedBy(s, a, tmp, ino);
    FramedInv(s, s', a);
  }

  lemma RenameKeepsInv(s: State, a: CallId, tmp: Path, dest: Path, src: Bytes, ino: Ino)
    requires Inv(s) && a in s.calls && s.calls[a] == Store(tmp, dest, src, AtRename(ino))
    ensures tmp in s.dir && s.dir[tmp] == ino && !(dest in s.dir && s.dir[dest] == ino)
    ensures Inv(StoreAt(s.(dir := (s.dir - {tmp})[dest := ino]), a, tmp, dest, src, Published(ino)))
  {
    var s' := StoreAt(s.(dir := (s.dir - {tmp})[dest := ino]), a, tmp, dest, src, Published(ino));
    assert CallOk(s, a);
    OnlyTempLinkedBy(s, a, tmp, ino);
    FramedInv(s, s', a);
  }

  lemma UnlinkTmpKeepsInv(s: State, a: CallId, tmp: Path, dest: Path, src: Bytes, ino: Ino, err: int)
    requires Inv(s) && a in s.calls && s.calls[a] == Store(tmp, dest, src, AtUnlinkTmp(ino, err))
    ensures Inv(StoreAt(s.(dir := s.dir - {tmp}), a, tmp, dest, src, StoreFailed(err, None)))
  {
    var s' := StoreAt(s.(dir := s.dir - {tmp}), a, tmp, dest, src, StoreFailed(err, None));
    assert CallOk(s, a);
    OnlyTempLinkedBy(s, a, tmp, ino);
    FramedInv(s, s', a);
  }

  lemma StoreEventKeepsInv(s: State, e: Event, tmp: Path, dest: Path, src: Bytes, pc: StorePc)
    requires Inv(s) && e.id in s.calls && s.calls[e.id] == Store(tmp, dest, src, pc)
    requires EnabledStore(s, e, tmp, dest, src, pc)
    ensures Inv(ApplyStore(s, e, tmp, dest, src, pc))
  {
    if e.OpenReturns? && e.errno == 0 {
      CreateKeepsInv(s, e.id, tmp, dest, src, e.fresh_);
    } else if e.KernelMoves? {
      WriteKeepsInv(s, e.id, tmp, dest, src, pc.ino, pc.written, e.n);
    } else if e.RenameReturns? && e.errno == 0 {
      RenameKeepsInv(s, e.id, tmp, dest, src, pc.ino);
    } else if e.UnlinkReturns? && e.errno == 0 {
      UnlinkTmpKeepsInv(s, e.id, tmp, dest, src, pc.ino, pc.err);
    } else {
      QuietStoreEvent(s, e, tmp, dest, src, pc);
      StoreMovesKeepInv(s, e.id, tmp, dest, src, pc, NextStorePc(e, src, pc));
    }
  }

  /** A store event that leaves the file system alone moves the call to a state it is entitled to. */
  lemma QuietStoreEvent(s: State, e: Event, tmp: Path, dest: Path, src: Bytes, pc: StorePc)
    requires Inv(s) && e.id in s.calls && s.calls[e.id] == Store(tmp, dest, src, pc)
    requires EnabledStore(s, e, tmp, dest, src, pc) && !e.KernelMoves?
    requires e.OpenReturns? || e.RenameReturns? || e.UnlinkReturns? ==> e.errno != 0
    ensures StoreLive(pc) && StoreEffect(s, e, tmp, dest, src, pc) == s
    ensures TempIno(NextStorePc(e, src, pc)) == TempIno(pc)
    ensures StoreOk(s, e.id, tmp, dest, src, NextStorePc(e, src, pc))
  {
    assert CallOk(s, e.id);
    assert src[..|src|] == src;
  }

  lemma LoadMovesKeepInv(s: State, a: CallId, source: Path, size: nat, pc: LoadPc, pc': LoadPc)
    requires Inv(s) && a in s.calls && s.calls[a] == Load(source, size, pc) && LoadOk(s, source, size, pc')
    ensures Inv(LoadAt(s, a, source, size, pc'))
  {
    NothingLinkedBy(s, a);
    var s' := LoadAt(s, a, source, size, pc');
    FramedLoad(s, s', a, source, size, pc');
    FramedInv(s, s', a);
  }

  lemma UnlinkSourceKeepsInv(s: State, a: CallId, source: Path, size: nat, pc: LoadPc, err: int)
    requires Inv(s) && a in s.calls && s.calls[a] == Load(source, size, pc) && err != 0
    ensures Inv(LoadAt(s.(dir := s.dir - {source}), a, source, size, LoadFailed(err)))
  {
    assert CallOk(s, a);
    NothingLinkedBy(s, a);
    FramedInv(s, LoadAt(s.(dir := s.dir - {source}), a, source, size, LoadFailed(err)), a);
  }

  lemma LoadEventKeepsInv(s: State, e: Event, source: Path, size: nat, pc: LoadPc)
    requires Inv(s) && e.id in s.calls && s.calls[e.id] == Load(source, size, pc)
    requires EnabledLoad(s, e, source, size, pc)
    ensures Inv(ApplyLoad(s, e, source, size, pc))
  {
    assert CallOk(s, e.id);
    if e.OpenReturns? && e.errno == 0 { assert LinkOk(s, source); }
    if e.KernelMoves? {
      var bytes := s.inodes[pc.ino].bytes;
      assert pc.got + bytes[|pc.got|..|pc.got| + e.n] == bytes[..|pc.got| + e.n];
    }
    if e.UnlinkReturns? && e.errno == 0 { UnlinkSourceKeepsInv(s, e.id, source, size, pc, pc.err); }
    else { LoadMovesKeepInv(s, e.id, source, size, pc, NextLoadPc(s, e, source, size, pc)); }
  }

  lemma EventKeepsInv(s: State, e: Event)
    requires Inv(s) && Enabled(s, e)
    ensures Inv(Apply(s, e))
  {
    if e.StartStore? || e.StartLoad? {
      NothingLinkedBy(s, e.id);
      FramedInv(s, Apply(s, e), e.id);
    } else {
      match s.calls[e.id]
      case Store(tmp, dest, src, pc) => StoreEventKeepsInv(s, e, tmp, dest, src, pc);
      case Load(source, size, pc) => LoadEventKeepsInv(s, e, source, size, pc);
    }
  }

  lemma {:induction false} RunKeepsInv(start: State, run: seq<Event>)
    requires Inv(start) && After(start, run).Some?
    ensures Inv(After(start, run).value) && After(start, run).value.temps == start.temps
  {
    if run != [] {
      RunKeepsInv(start, run[..|run| - 1]);
      EventKeepsInv(After(start, run[..|run| - 1]).value, run[|run| - 1]);
    }
  }
}

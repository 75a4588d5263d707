/**
  The write-ahead log of kernel/log.c over the buffer cache of kernel/bio.c, as a
  state machine whose steps are the critical sections of the code and the single
  block writes of commit() and recover_from_log().  A crash may happen between
  any two steps, also inside recovery.
 */
module LogModel {

  const MAXOPBLOCKS: nat := 10
  const LOGSIZE: nat := MAXOPBLOCKS * 3
  const BWORDS: nat := 256

  /** A disk block as its BSIZE/4 = 256 words: the log header is read word by word. */
  type Block = seq<int>
  type Disk = seq<Block>

  /**
    log.start and log.size (the superblock's logstart and nlog), the size of the
    disk, the number of distinct blocks one file-system operation may log, and the
    disk the machine starts from.
   */
  datatype Params = Params(start: nat, size: nat, total: nat, opBlocks: nat, init: Disk)

  ghost predicate ValidParams(p: Params) {
    && p.size >= 1 && p.start + p.size <= p.total == |p.init|
    && p.opBlocks <= MAXOPBLOCKS
    && |p.init[p.start]| == BWORDS && p.init[p.start][0] == 0
  }

  /** A block outside the log area. */
  predicate Home(p: Params, b: int) {
    0 <= b < p.total && !(p.start <= b < p.start + p.size)
  }

  /** The log block of entry i. */
  function Slot(p: Params, i: int): int { p.start + 1 + i }

  // ----- the on-disk header -----

  /** The block list a header block stands for: word 0 is n, words 1..n are the block numbers. */
  function GetHeader(blk: Block): seq<int> {
    if |blk| == BWORDS && 0 <= blk[0] <= LOGSIZE then blk[1..1 + blk[0]] else []
  }

  /** write_head: only word 0 and the first n entries change; later words keep stale values. */
  function PutHeader(blk: Block, lh: seq<int>): Block
    requires |lh| <= LOGSIZE && |blk| == BWORDS
  {
    [|lh|] + lh + blk[1 + |lh|..]
  }

  lemma HeaderRoundTrip(blk: Block, lh: seq<int>)
    requires |lh| <= LOGSIZE && |blk| == BWORDS
    ensures GetHeader(PutHeader(blk, lh)) == lh
    ensures HeaderIs(PutHeader(blk, lh), lh)
  {
  }

  lemma ReadHeader(blk: Block, h: seq<int>)
    requires HeaderIs(blk, h)
    ensures GetHeader(blk) == h
  {
  }

  predicate Differ(lh: seq<int>, i: int, j: int) {
    0 <= i < j < |lh| ==> lh[i] != lh[j]
  }

  /** A block list a log can hold: home blocks without repetition. */
  ghost predicate GoodList(p: Params, lh: seq<int>) {
    && |lh| <= LOGSIZE && |lh| <= p.size - 1
    && (forall i :: 0 <= i < |lh| ==> Home(p, lh[i]))
    && (forall i, j {:trigger Differ(lh, i, j)} :: Differ(lh, i, j))
  }

  // ----- machine state -----

  /** What the committing or recovering thread does next. */
  datatype Pc =
    | Normal
    | WriteLog(tail: nat)      // write_log, about to copy entry `tail`
    | CommitHead               // write_head, the commit point
    | Install(tail: nat)       // install_trans(0)
    | ReadHead                 // recover_from_log: read_head
    | Redo(tail: nat)          // recover_from_log: install_trans(1)

  /** One modification of a cached block by an operation. */
  datatype Event = Event(op: int, blk: int, data: Block)

  /**
    `cache` holds the valid buffers, `locked` the buffers held between bread and
    brelse with their holder, `dirty` those modified since their last log_write,
    `pins` those bpin'ed by log_write.  `lh` is log.lh, `active` maps each
    operation between begin_op and end_op to the blocks it has logged, so that
    log.outstanding is its size.  `hist`, `durable` and `onDisk` are history
    variables: the modifications made, how many of them a crash would keep, and the
    block list in the header on disk.
   */
  datatype State = State(
    disk: Disk,
    cache: map<int, Block>,
    locked: map<int, int>,
    dirty: set<int>,
    pins: set<int>,
    lh: seq<int>,
    active: map<int, set<int>>,
    pc: Pc,
    hist: seq<Event>,
    durable: nat,
    onDisk: seq<int>)

  /** log.committing */
  predicate Committing(s: State) { s.pc.WriteLog? || s.pc.CommitHead? || s.pc.Install? }

  predicate Recovering(s: State) { s.pc.ReadHead? || s.pc.Redo? }

  datatype Step =
    | BeginOp(t: int)
    | Bread(t: int, b: int)
    | Modify(t: int, b: int, data: Block)
    | LogWrite(t: int, b: int)
    | Brelse(t: int, b: int)
    | EndOp(t: int)
    | WriteLogBlock
    | WriteLogDone
    | WriteHead
    | InstallBlock
    | EraseHead
    | Load(b: int)             // a bread that finds the block not cached
    | Evict(b: int)
    | Crash
    | RecoverRead
    | RedoBlock
    | RedoErase

  /** What bread(b) returns: the cached copy, else the disk's. */
  function Cached(disk: Disk, cache: map<int, Block>, b: int): Block
    requires 0 <= b < |disk|
  {
    if b in cache then cache[b] else disk[b]
  }

  /** The "too big a transaction" test, which runs before absorption. */
  predicate TooBig(p: Params, s: State) {
    |s.lh| >= LOGSIZE || |s.lh| >= p.size - 1
  }

  ghost predicate Enabled(p: Params, s: State, step: Step) {
    match step
    case BeginOp(t) =>
      && !Committing(s) && !Recovering(s)
      && |s.lh| + (|s.active| + 1) * MAXOPBLOCKS <= LOGSIZE
      && t !in s.active && (forall i :: 0 <= i < |s.hist| ==> s.hist[i].op != t)
    case Bread(t, b) =>
      !Recovering(s) && Home(p, b) && b !in s.locked
    case Modify(t, b, data) =>
      t in s.active && b in s.locked && s.locked[b] == t
    case LogWrite(t, b) =>
      && t in s.active && b in s.locked && s.locked[b] == t
      && !TooBig(p, s) && |s.active[t] + {b}| <= p.opBlocks
    case Brelse(t, b) =>
      b in s.locked && s.locked[b] == t && b !in s.dirty
    case EndOp(t) =>
      && t in s.active && !Committing(s)
      && (forall b :: b in s.locked ==> s.locked[b] != t)
    case WriteLogBlock =>
      s.pc.WriteLog? && s.pc.tail < |s.lh| && s.lh[s.pc.tail] !in s.locked
    case WriteLogDone => s.pc.WriteLog? && s.pc.tail == |s.lh|
    case WriteHead => s.pc.CommitHead?
    case InstallBlock =>
      s.pc.Install? && s.pc.tail < |s.lh| && s.lh[s.pc.tail] !in s.locked
    case EraseHead => s.pc.Install? && s.pc.tail == |s.lh|
    case Load(b) => 0 <= b < p.total && b !in s.cache
    case Evict(b) => b in s.cache && b !in s.locked && b !in s.pins
    case Crash => true
    case RecoverRead => s.pc.ReadHead?
    case RedoBlock => s.pc.Redo? && s.pc.tail < |s.lh|
    case RedoErase => s.pc.Redo? && s.pc.tail == |s.lh|
  }

  /** The state is shaped well enough for Apply to be defined. */
  ghost predicate Shape(p: Params, s: State) {
    && ValidParams(p) && |s.disk| == p.total
    && |s.disk[p.start]| == BWORDS && (p.start in s.cache ==> |s.cache[p.start]| == BWORDS)
    && GoodList(p, s.lh) && GoodList(p, s.onDisk) && s.durable <= |s.hist|
  }

  ghost function Apply(p: Params, s: State, step: Step): State
    requires Shape(p, s) && Enabled(p, s, step)
  {
    match step
    case BeginOp(t) => s.(active := s.active[t := {}])
    case Bread(t, b) => s.(cache := s.cache[b := Cached(s.disk, s.cache, b)], locked := s.locked[b := t])
    case Modify(t, b, data) =>
      s.(cache := s.cache[b := data], dirty := s.dirty + {b}, hist := s.hist + [Event(t, b, data)])
    case LogWrite(t, b) =>
      var s1 := s.(dirty := s.dirty - {b}, active := s.active[t := s.active[t] + {b}]);
      if b in s.lh then s1 else s1.(lh := s.lh + [b], pins := s.pins + {b})
    case Brelse(t, b) => s.(locked := s.locked - {b})
    case EndOp(t) =>
      var s1 := s.(active := s.active - {t});
      if |s1.active| == 0 then s1.(pc := WriteLog(0)) else s1
    case WriteLogBlock =>
      BlockWrite(s, Slot(p, s.pc.tail), Cached(s.disk, s.cache, s.lh[s.pc.tail])).(pc := WriteLog(s.pc.tail + 1))
    case WriteLogDone => s.(pc := if |s.lh| == 0 then Normal else CommitHead)
    case WriteHead =>
      BlockWrite(s, p.start, PutHeader(Cached(s.disk, s.cache, p.start), s.lh)).(pc := Install(0), durable := |s.hist|,
          onDisk := s.lh)
    case InstallBlock =>
      BlockWrite(s, s.lh[s.pc.tail], Cached(s.disk, s.cache, Slot(p, s.pc.tail)))
        .(pins := s.pins - {s.lh[s.pc.tail]}, pc := Install(s.pc.tail + 1))
    case EraseHead =>
      BlockWrite(s, p.start, PutHeader(Cached(s.disk, s.cache, p.start), [])).(lh := [], pc := Normal, onDisk := [])
    case Load(b) => s.(cache := s.cache[b := s.disk[b]])
    case Evict(b) => s.(cache := s.cache - {b})
    case Crash =>
      State(s.disk, map[], map[], {}, {}, [], map[], ReadHead, s.hist[..s.durable], s.durable, s.onDisk)
    case RecoverRead =>
      var h := GetHeader(Cached(s.disk, s.cache, p.start));
      s.(lh := h, pc := Redo(0))
    case RedoBlock =>
      BlockWrite(s, s.lh[s.pc.tail], Cached(s.disk, s.cache, Slot(p, s.pc.tail))).(pc := Redo(s.pc.tail + 1))
    case RedoErase =>
      BlockWrite(s, p.start, PutHeader(Cached(s.disk, s.cache, p.start), [])).(lh := [], pc := Normal, onDisk := [])
  }

  /** bwrite(b) of a buffer that now holds data. */
  function BlockWrite(s: State, b: int, data: Block): State
    requires 0 <= b < |s.disk|
  {
    s.(disk := s.disk[b := data], cache := s.cache[b := data])
  }

  // ----- the abstract file system: a list of modifications -----

  function Replay(d: Disk, hist: seq<Event>): (r: Disk)
    ensures |r| == |d|
  {
    if |hist| == 0 then d
    else
      var r := Replay(d, hist[..|hist| - 1]);
      var e := hist[|hist| - 1];
      if 0 <= e.blk < |r| then r[e.blk := e.data] else r
  }

  lemma ReplaySnoc(d: Disk, hist: seq<Event>, e: Event)
    ensures Replay(d, hist + [e]) ==
            (var r := Replay(d, hist); if 0 <= e.blk < |r| then r[e.blk := e.data] else r)
  {
    assert (hist + [e])[..|hist + [e]| - 1] == hist;
  }

  // ----- the invariant -----

  /** Disk and log together hold the contents r of the home blocks. */
  ghost predicate Holds(p: Params, d: Disk, h: seq<int>, r: Disk)
    requires p.start + p.size <= p.total && |d| == |r| == p.total && GoodList(p, h)
  {
    && (forall i {:trigger Slot(p, i)} :: 0 <= i < |h| ==> d[Slot(p, i)] == r[h[i]])
    && (forall b {:trigger Home(p, b)} :: Home(p, b) && b !in h ==> d[b] == r[b])
  }

  /** The header block on disk stands for the list h. */
  ghost predicate HeaderIs(hdr: Block, h: seq<int>) {
    && |hdr| == BWORDS && hdr[0] == |h| <= LOGSIZE
    && (forall i :: 0 <= i < |h| ==> hdr[1 + i] == h[i])
  }

  /** Which list a crash would find in the log header. */
  ghost predicate HeaderInv(pc: Pc, lh: seq<int>, onDisk: seq<int>) {
    && (pc.Normal? || pc.WriteLog? || pc.CommitHead? ==> onDisk == [])
    && (pc.Install? || pc.Redo? ==> onDisk == lh)
  }

  /** Buffers that are held or pinned are in the cache. */
  ghost predicate BufferInv(p: Params, cache: map<int, Block>, locked: map<int, int>, pins: set<int>) {
    && (forall b :: b in pins ==> b in cache && Home(p, b))
    && (forall b :: b in locked ==> b in cache && Home(p, b))
    && (forall b :: b in cache ==> 0 <= b < p.total)
  }

  /** Only pinned buffers, and held ones not yet logged, may differ from the disk. */
  ghost predicate Coherent(disk: Disk, cache: map<int, Block>, pins: set<int>, dirty: set<int>) {
    forall b {:trigger cache[b]} ::
      b in cache && b !in pins && b !in dirty ==> 0 <= b < |disk| && cache[b] == disk[b]
  }

  ghost predicate DirtyInv(locked: map<int, int>, dirty: set<int>, active: map<int, set<int>>) {
    forall b :: b in dirty ==> b in locked && locked[b] in active
  }

  /** The pinned blocks are the entries of lh from k on. */
  ghost predicate Pinned(pins: set<int>, lh: seq<int>, k: nat) {
    && (forall i :: k <= i < |lh| ==> lh[i] in pins)
    && (forall b :: b in pins ==> exists i :: k <= i < |lh| && lh[i] == b)
  }

  ghost predicate PhaseInv(pc: Pc, lh: seq<int>, pins: set<int>, active: map<int, set<int>>) {
    && (active != map[] ==> pc.Normal?)
    && (pc.Normal? && active == map[] ==> lh == [])
    && (pc.Normal? || pc.WriteLog? || pc.CommitHead? ==> Pinned(pins, lh, 0))
    && (pc.WriteLog? || pc.Install? || pc.Redo? ==> pc.tail <= |lh|)
    && (pc.Install? ==> Pinned(pins, lh, pc.tail))
    && (pc.ReadHead? || pc.Redo? ==> pins == {})
  }

  /** An operation's blocks are in the log. */
  ghost predicate LoggedInv(lh: seq<int>, active: map<int, set<int>>) {
    forall t, b :: t in active && b in active[t] ==> b in lh
  }

  /** The first k log slots hold what bread returns for the blocks listed. */
  ghost predicate Logged(p: Params, lh: seq<int>, disk: Disk, cache: map<int, Block>, k: nat)
    requires p.start + p.size <= p.total == |disk| && GoodList(p, lh) && k <= |lh|
  {
    forall i {:trigger Slot(p, i)} :: 0 <= i < k ==> disk[Slot(p, i)] == Cached(disk, cache, lh[i])
  }

  /** The first k blocks listed hold what their log slots hold. */
  ghost predicate Installed(p: Params, lh: seq<int>, disk: Disk, k: nat)
    requires p.start + p.size <= p.total == |disk| && GoodList(p, lh) && k <= |lh|
  {
    forall i {:trigger Slot(p, i)} :: 0 <= i < k ==> disk[lh[i]] == disk[Slot(p, i)]
  }

  /** No operation's modifications straddle the durable prefix. */
  ghost predicate AtomicInv(active: map<int, set<int>>, hist: seq<Event>, durable: nat) {
    && durable <= |hist|
    && (forall i, j :: 0 <= i < durable <= j < |hist| ==> hist[i].op != hist[j].op)
    && (forall i :: 0 <= i < durable ==> hist[i].op !in active)
  }

  /** Every modification a crash would lose is of a block that is logged or still held. */
  ghost predicate PendingInv(hist: seq<Event>, durable: nat, lh: seq<int>, dirty: set<int>) {
    forall i :: durable <= i < |hist| ==> hist[i].blk in lh || hist[i].blk in dirty
  }

  /** What bread returns for home blocks is the plain block map r. */
  ghost predicate View(p: Params, disk: Disk, cache: map<int, Block>, r: Disk)
    requires |disk| == |r| == p.total
  {
    forall b {:trigger Home(p, b)} :: Home(p, b) ==> Cached(disk, cache, b) == r[b]
  }

  ghost predicate ControlInv(p: Params, s: State) {
    && Shape(p, s)
    && PhaseInv(s.pc, s.lh, s.pins, s.active)
    && LoggedInv(s.lh, s.active)
    && AtomicInv(s.active, s.hist, s.durable)
    && PendingInv(s.hist, s.durable, s.lh, s.dirty)
    && (s.pc.Install? || Recovering(s) ==> s.durable == |s.hist|)
    && (Recovering(s) ==> s.dirty == {} && s.locked == map[])
    && BufferInv(p, s.cache, s.locked, s.pins)
    && DirtyInv(s.locked, s.dirty, s.active)
  }

  /** How far write_log or install_trans has come, and that the cache agrees with the disk. */
  ghost predicate CopyInv(p: Params, s: State)
    requires ControlInv(p, s)
  {
    && HeaderInv(s.pc, s.lh, s.onDisk) && HeaderIs(s.disk[p.start], s.onDisk)
    && Coherent(s.disk, s.cache, s.pins, s.dirty)
    && (s.pc.WriteLog? ==> Logged(p, s.lh, s.disk, s.cache, s.pc.tail))
    && (s.pc.CommitHead? ==> Logged(p, s.lh, s.disk, s.cache, |s.lh|))
    && (s.pc.Install? || s.pc.Redo? ==> Installed(p, s.lh, s.disk, s.pc.tail))
  }

  /** bread returns the current contents; disk and log hold the durable ones. */
  ghost predicate DataInv(p: Params, s: State)
    requires ControlInv(p, s) && CopyInv(p, s)
  {
    && (!Recovering(s) ==> View(p, s.disk, s.cache, Replay(p.init, s.hist)))
    && Holds(p, s.disk, s.onDisk, Replay(p.init, s.hist[..s.durable]))
  }

  ghost predicate Inv(p: Params, s: State) {
    ControlInv(p, s) && CopyInv(p, s) && DataInv(p, s)
  }

  function Init(p: Params): State {
    State(p.init, map[], map[], {}, {}, [], map[], ReadHead, [], 0, [])
  }

  lemma InitInv(p: Params)
    requires ValidParams(p)
    ensures Inv(p, Init(p))
  {
  }

  // ----- block writes, piece by piece -----

  lemma WriteCoherent(disk: Disk, cache: map<int, Block>, pins: set<int>, dirty: set<int>, b: int, v: Block)
    requires Coherent(disk, cache, pins, dirty) && 0 <= b < |disk|
    ensures Coherent(disk[b := v], cache[b := v], pins, dirty)
  {
  }

  /** Writing a block of the log area leaves what bread returns for home blocks. */
  lemma WriteLogArea(p: Params, disk: Disk, cache: map<int, Block>, r: Disk, b: int, v: Block)
    requires |disk| == |r| == p.total && 0 <= b < p.total && !Home(p, b)
    ensures View(p, disk, cache, r) ==> View(p, disk[b := v], cache[b := v], r)
  {
  }

  lemma WriteSlot(p: Params, lh: seq<int>, disk: Disk, cache: map<int, Block>, k: nat)
    requires p.start + p.size <= p.total == |disk| && GoodList(p, lh) && k < |lh|
    requires Logged(p, lh, disk, cache, k)
    ensures var b, v := Slot(p, k), Cached(disk, cache, lh[k]);
            Logged(p, lh, disk[b := v], cache[b := v], k + 1)
  {
  }

  /** With an empty header, only home blocks matter to recovery. */
  lemma HoldsLogArea(p: Params, disk: Disk, r: Disk, b: int, v: Block)
    requires p.start + p.size <= p.total == |disk| == |r| && p.start <= b < p.start + p.size
    requires p.size >= 1 && Holds(p, disk, [], r)
    ensures Holds(p, disk[b := v], [], r)
  {
  }

  /** Installing an entry changes no log slot and no entry installed before. */
  lemma InstallNext(p: Params, lh: seq<int>, disk: Disk, k: nat, v: Block)
    requires p.start + p.size <= p.total == |disk| && GoodList(p, lh) && k < |lh|
    requires v == disk[Slot(p, k)] && Installed(p, lh, disk, k)
    ensures Installed(p, lh, disk[lh[k] := v], k + 1)
  {
    forall i | 0 <= i < k ensures lh[i] != lh[k] {
      assert Differ(lh, i, k);
    }
  }

  /** Installing an entry changes nothing that recovery would find. */
  lemma InstallHolds(p: Params, lh: seq<int>, disk: Disk, k: nat, v: Block, r: Disk)
    requires p.start + p.size <= p.total == |disk| == |r| && GoodList(p, lh) && k < |lh|
    requires v == disk[Slot(p, k)] && Holds(p, disk, lh, r)
    ensures Holds(p, disk[lh[k] := v], lh, r)
  {
  }

  /** Once every entry is installed, the log is no longer needed. */
  lemma EraseHolds(p: Params, lh: seq<int>, disk: Disk, hdr: Block, r: Disk)
    requires p.start + p.size <= p.total == |disk| == |r| && GoodList(p, lh) && p.size >= 1
    requires Holds(p, disk, lh, r) && Installed(p, lh, disk, |lh|)
    ensures Holds(p, disk[p.start := hdr], [], r)
  {
    forall b | Home(p, b) ensures disk[b] == r[b] {
      if b in lh {
        var i :| 0 <= i < |lh| && lh[i] == b;
        assert disk[Slot(p, i)] == r[b];
      }
    }
  }

  /** The installed buffer need not stay pinned: it now agrees with the disk. */
  lemma UnpinCoherent(disk: Disk, cache: map<int, Block>, pins: set<int>, dirty: set<int>, b: int, v: Block)
    requires 0 <= b < |disk| && Coherent(disk, cache, pins, dirty)
    ensures Coherent(disk[b := v], cache[b := v], pins - {b}, dirty)
  {
  }

  /** Installing an entry leaves what bread returns. */
  lemma InstallView(p: Params, disk: Disk, cache: map<int, Block>, r: Disk, b: int, v: Block)
    requires |disk| == |r| == p.total && Home(p, b) && View(p, disk, cache, r) && v == r[b]
    ensures View(p, disk[b := v], cache[b := v], r)
  {
  }

  lemma CoherentView(p: Params, disk: Disk, cache: map<int, Block>, r: Disk)
    requires p.start + p.size <= p.total == |disk| == |r| && p.size >= 1
    requires Coherent(disk, cache, {}, {}) && Holds(p, disk, [], r)
    ensures View(p, disk, cache, r)
  {
  }

  /** install_trans reads the log slot as the disk has it. */
  lemma SlotOnDisk(p: Params, s: State, i: nat)
    requires ControlInv(p, s) && CopyInv(p, s) && (s.pc.Install? || s.pc.Redo?) && i < |s.lh|
    ensures Cached(s.disk, s.cache, Slot(p, i)) == s.disk[Slot(p, i)]
    ensures s.dirty == {}
  {
    assert forall b :: b !in s.dirty;
  }

  lemma PinMore(pins: set<int>, lh: seq<int>, b: int)
    requires Pinned(pins, lh, 0)
    ensures Pinned(pins + {b}, lh + [b], 0)
  {
    var lh' := lh + [b];
    forall x | x in pins + {b} ensures exists i :: 0 <= i < |lh'| && lh'[i] == x {
      if x != b {
        var i :| 0 <= i < |lh| && lh[i] == x;
        assert lh'[i] == x;
      } else {
        assert lh'[|lh|] == x;
      }
    }
  }

  lemma UnpinNext(p: Params, pins: set<int>, lh: seq<int>, k: nat)
    requires GoodList(p, lh) && k < |lh| && Pinned(pins, lh, k)
    ensures Pinned(pins - {lh[k]}, lh, k + 1)
  {
    forall i | k < i < |lh| ensures lh[i] != lh[k] {
      assert Differ(lh, k, i);
    }
  }

  lemma AppendGood(p: Params, lh: seq<int>, b: int)
    requires GoodList(p, lh) && Home(p, b) && b !in lh && |lh| < LOGSIZE && |lh| < p.size - 1
    ensures GoodList(p, lh + [b])
  {
    forall i, j ensures Differ(lh + [b], i, j) {
      assert Differ(lh, i, j);
    }
  }

  lemma AppendLogged(lh: seq<int>, active: map<int, set<int>>, t: int, b: int)
    requires LoggedInv(lh, active) && t in active
    ensures LoggedInv(lh + [b], active[t := active[t] + {b}])
    ensures b in lh ==> LoggedInv(lh, active[t := active[t] + {b}])
  {
  }

  lemma BufferWrite(p: Params, cache: map<int, Block>, locked: map<int, int>, pins: set<int>, b: int, v: Block)
    requires BufferInv(p, cache, locked, pins) && Home(p, b)
    ensures BufferInv(p, cache[b := v], locked, pins - {b})
    ensures BufferInv(p, cache[b := v], locked, pins)
  {
  }

  /** Reading a block into the cache, or dropping an unmodified one, changes nothing bread returns. */
  lemma SameReads(p: Params, disk: Disk, cache: map<int, Block>, cache': map<int, Block>, r: Disk)
    requires |disk| == |r| == p.total
    requires forall b :: 0 <= b < p.total ==> Cached(disk, cache', b) == Cached(disk, cache, b)
    ensures View(p, disk, cache, r) ==> View(p, disk, cache', r)
    ensures p.start + p.size <= p.total ==> forall lh, k: nat {:trigger Logged(p, lh, disk, cache', k)} ::
              GoodList(p, lh) && k <= |lh| && Logged(p, lh, disk, cache, k) ==> Logged(p, lh, disk, cache', k)
  {
  }

  /** The commit point: log slots and unpinned home blocks together hold the current contents. */
  lemma CommitHolds(p: Params, lh: seq<int>, disk: Disk, cache: map<int, Block>, hdr: Block, r: Disk)
    requires p.start + p.size <= p.total == |disk| == |r| && GoodList(p, lh) && p.size >= 1
    requires View(p, disk, cache, r) && Logged(p, lh, disk, cache, |lh|)
    requires forall b :: b in cache && Home(p, b) && b !in lh ==> cache[b] == disk[b]
    ensures Holds(p, disk[p.start := hdr], lh, r)
  {
    forall b | Home(p, b) && b !in lh ensures disk[b] == r[b] {
      assert Cached(disk, cache, b) == r[b];
    }
  }

  // ----- every step keeps the invariant -----

  lemma BeginOpControl(p: Params, s: State, t: int)
    requires ControlInv(p, s) && Enabled(p, s, BeginOp(t))
    ensures ControlInv(p, Apply(p, s, BeginOp(t)))
  {
  }

  lemma BeginOpData(p: Params, s: State, t: int)
    requires Inv(p, s) && Enabled(p, s, BeginOp(t))
    requires ControlInv(p, Apply(p, s, BeginOp(t)))
    ensures Inv(p, Apply(p, s, BeginOp(t)))
  {
  }

  lemma BreadControl(p: Params, s: State, t: int, b: int)
    requires ControlInv(p, s) && Enabled(p, s, Bread(t, b))
    ensures ControlInv(p, Apply(p, s, Bread(t, b)))
  {
  }

  lemma BreadData(p: Params, s: State, t: int, b: int)
    requires Inv(p, s) && Enabled(p, s, Bread(t, b))
    requires ControlInv(p, Apply(p, s, Bread(t, b)))
    ensures Inv(p, Apply(p, s, Bread(t, b)))
  {
    SameReads(p, s.disk, s.cache, s.cache[b := Cached(s.disk, s.cache, b)], Replay(p.init, s.hist));
  }

  lemma ModifyControl(p: Params, s: State, t: int, b: int, data: Block)
    requires ControlInv(p, s) && Enabled(p, s, Modify(t, b, data))
    ensures ControlInv(p, Apply(p, s, Modify(t, b, data)))
  {
  }

  lemma ModifyData(p: Params, s: State, t: int, b: int, data: Block)
    requires Inv(p, s) && Enabled(p, s, Modify(t, b, data))
    requires ControlInv(p, Apply(p, s, Modify(t, b, data)))
    ensures Inv(p, Apply(p, s, Modify(t, b, data)))
  {
    ReplaySnoc(p.init, s.hist, Event(t, b, data));
    assert (s.hist + [Event(t, b, data)])[..s.durable] == s.hist[..s.durable];
  }

  lemma LogWriteControl(p: Params, s: State, t: int, b: int)
    requires ControlInv(p, s) && Enabled(p, s, LogWrite(t, b))
    ensures ControlInv(p, Apply(p, s, LogWrite(t, b)))
  {
    if b !in s.lh {
      AppendGood(p, s.lh, b);
    }
    PinMore(s.pins, s.lh, b);
    AppendLogged(s.lh, s.active, t, b);
  }

  lemma LogWriteData(p: Params, s: State, t: int, b: int)
    requires Inv(p, s) && Enabled(p, s, LogWrite(t, b))
    requires ControlInv(p, Apply(p, s, LogWrite(t, b)))
    ensures Inv(p, Apply(p, s, LogWrite(t, b)))
  {
  }

  lemma BrelseControl(p: Params, s: State, t: int, b: int)
    requires ControlInv(p, s) && Enabled(p, s, Brelse(t, b))
    ensures ControlInv(p, Apply(p, s, Brelse(t, b)))
  {
  }

  lemma BrelseData(p: Params, s: State, t: int, b: int)
    requires Inv(p, s) && Enabled(p, s, Brelse(t, b))
    requires ControlInv(p, Apply(p, s, Brelse(t, b)))
    ensures Inv(p, Apply(p, s, Brelse(t, b)))
  {
  }

  lemma EndOpControl(p: Params, s: State, t: int)
    requires ControlInv(p, s) && Enabled(p, s, EndOp(t))
    ensures ControlInv(p, Apply(p, s, EndOp(t)))
  {
  }

  lemma EndOpData(p: Params, s: State, t: int)
    requires Inv(p, s) && Enabled(p, s, EndOp(t))
    requires ControlInv(p, Apply(p, s, EndOp(t)))
    ensures Inv(p, Apply(p, s, EndOp(t)))
  {
  }

  lemma WriteLogBlockControl(p: Params, s: State)
    requires ControlInv(p, s) && Enabled(p, s, WriteLogBlock)
    ensures ControlInv(p, Apply(p, s, WriteLogBlock))
  {
  }

  lemma WriteLogBlockCopy(p: Params, s: State)
    requires ControlInv(p, s) && CopyInv(p, s) && Enabled(p, s, WriteLogBlock)
    requires ControlInv(p, Apply(p, s, WriteLogBlock))
    ensures CopyInv(p, Apply(p, s, WriteLogBlock))
  {
    var b, v := Slot(p, s.pc.tail), Cached(s.disk, s.cache, s.lh[s.pc.tail]);
    WriteCoherent(s.disk, s.cache, s.pins, s.dirty, b, v);
    WriteSlot(p, s.lh, s.disk, s.cache, s.pc.tail);
  }

  lemma WriteLogBlockData(p: Params, s: State)
    requires Inv(p, s) && Enabled(p, s, WriteLogBlock)
    requires ControlInv(p, Apply(p, s, WriteLogBlock)) && CopyInv(p, Apply(p, s, WriteLogBlock))
    ensures Inv(p, Apply(p, s, WriteLogBlock))
  {
    var b, v := Slot(p, s.pc.tail), Cached(s.disk, s.cache, s.lh[s.pc.tail]);
    WriteLogArea(p, s.disk, s.cache, Replay(p.init, s.hist), b, v);
    HoldsLogArea(p, s.disk, Replay(p.init, s.hist[..s.durable]), b, v);
  }

  lemma WriteLogDoneControl(p: Params, s: State)
    requires ControlInv(p, s) && Enabled(p, s, WriteLogDone)
    ensures ControlInv(p, Apply(p, s, WriteLogDone))
  {
  }

  lemma WriteLogDoneData(p: Params, s: State)
    requires Inv(p, s) && Enabled(p, s, WriteLogDone)
    requires ControlInv(p, Apply(p, s, WriteLogDone))
    ensures Inv(p, Apply(p, s, WriteLogDone))
  {
  }

  lemma WriteHeadControl(p: Params, s: State)
    requires ControlInv(p, s) && Enabled(p, s, WriteHead)
    ensures ControlInv(p, Apply(p, s, WriteHead))
  {
  }

  lemma WriteHeadCopy(p: Params, s: State)
    requires ControlInv(p, s) && CopyInv(p, s) && Enabled(p, s, WriteHead)
    requires ControlInv(p, Apply(p, s, WriteHead))
    ensures CopyInv(p, Apply(p, s, WriteHead))
  {
    HeaderRoundTrip(Cached(s.disk, s.cache, p.start), s.lh);
    WriteCoherent(s.disk, s.cache, s.pins, s.dirty, p.start, PutHeader(Cached(s.disk, s.cache, p.start), s.lh));
  }

  lemma WriteHeadData(p: Params, s: State)
    requires Inv(p, s) && Enabled(p, s, WriteHead)
    requires ControlInv(p, Apply(p, s, WriteHead)) && CopyInv(p, Apply(p, s, WriteHead))
    ensures Inv(p, Apply(p, s, WriteHead))
  {
    var v := PutHeader(Cached(s.disk, s.cache, p.start), s.lh);
    HeaderRoundTrip(Cached(s.disk, s.cache, p.start), s.lh);
    assert forall b :: b !in s.dirty;
    WriteLogArea(p, s.disk, s.cache, Replay(p.init, s.hist), p.start, v);
    CommitHolds(p, s.lh, s.disk, s.cache, v, Replay(p.init, s.hist));
    assert s.hist[..|s.hist|] == s.hist;
  }

  lemma InstallBlockControl(p: Params, s: State)
    requires ControlInv(p, s) && Enabled(p, s, InstallBlock)
    ensures ControlInv(p, Apply(p, s, InstallBlock))
  {
    UnpinNext(p, s.pins, s.lh, s.pc.tail);
    BufferWrite(p, s.cache, s.locked, s.pins, s.lh[s.pc.tail], Cached(s.disk, s.cache, Slot(p, s.pc.tail)));
  }

  lemma InstallBlockCopy(p: Params, s: State)
    requires ControlInv(p, s) && CopyInv(p, s) && Enabled(p, s, InstallBlock)
    requires ControlInv(p, Apply(p, s, InstallBlock))
    ensures CopyInv(p, Apply(p, s, InstallBlock))
  {
    var v := Cached(s.disk, s.cache, Slot(p, s.pc.tail));
    SlotOnDisk(p, s, s.pc.tail);
    UnpinCoherent(s.disk, s.cache, s.pins, s.dirty, s.lh[s.pc.tail], v);
    InstallNext(p, s.lh, s.disk, s.pc.tail, v);
    var s' := Apply(p, s, InstallBlock);
    assert s'.disk[p.start] == s.disk[p.start];
    assert Coherent(s'.disk, s'.cache, s'.pins, s'.dirty);
    assert Installed(p, s'.lh, s'.disk, s'.pc.tail);
  }

  lemma InstallBlockData(p: Params, s: State)
    requires Inv(p, s) && Enabled(p, s, InstallBlock)
    requires ControlInv(p, Apply(p, s, InstallBlock)) && CopyInv(p, Apply(p, s, InstallBlock))
    ensures Inv(p, Apply(p, s, InstallBlock))
  {
    var v := Cached(s.disk, s.cache, Slot(p, s.pc.tail));
    var r := Replay(p.init, s.hist);
    assert Replay(p.init, s.hist[..s.durable]) == r by { assert s.hist[..s.durable] == s.hist; }
    SlotOnDisk(p, s, s.pc.tail);
    InstallHolds(p, s.lh, s.disk, s.pc.tail, v, r);
    InstallView(p, s.disk, s.cache, r, s.lh[s.pc.tail], v);
  }

  lemma EraseHeadControl(p: Params, s: State)
    requires ControlInv(p, s) && Enabled(p, s, EraseHead)
    ensures ControlInv(p, Apply(p, s, EraseHead))
  {
  }

  lemma EraseHeadCopy(p: Params, s: State)
    requires ControlInv(p, s) && CopyInv(p, s) && Enabled(p, s, EraseHead)
    requires ControlInv(p, Apply(p, s, EraseHead))
    ensures CopyInv(p, Apply(p, s, EraseHead))
  {
    HeaderRoundTrip(Cached(s.disk, s.cache, p.start), []);
    WriteCoherent(s.disk, s.cache, s.pins, s.dirty, p.start, PutHeader(Cached(s.disk, s.cache, p.start), []));
  }

  lemma EraseHeadData(p: Params, s: State)
    requires Inv(p, s) && Enabled(p, s, EraseHead)
    requires ControlInv(p, Apply(p, s, EraseHead)) && CopyInv(p, Apply(p, s, EraseHead))
    ensures Inv(p, Apply(p, s, EraseHead))
  {
    var v := PutHeader(Cached(s.disk, s.cache, p.start), []);
    HeaderRoundTrip(Cached(s.disk, s.cache, p.start), []);
    WriteLogArea(p, s.disk, s.cache, Replay(p.init, s.hist), p.start, v);
    EraseHolds(p, s.lh, s.disk, v, Replay(p.init, s.hist[..s.durable]));
  }

  lemma LoadControl(p: Params, s: State, b: int)
    requires ControlInv(p, s) && CopyInv(p, s) && Enabled(p, s, Load(b))
    ensures ControlInv(p, Apply(p, s, Load(b)))
  {
  }

  lemma LoadData(p: Params, s: State, b: int)
    requires Inv(p, s) && Enabled(p, s, Load(b))
    requires ControlInv(p, Apply(p, s, Load(b)))
    ensures Inv(p, Apply(p, s, Load(b)))
  {
    SameReads(p, s.disk, s.cache, s.cache[b := s.disk[b]], Replay(p.init, s.hist));
  }

  lemma EvictControl(p: Params, s: State, b: int)
    requires ControlInv(p, s) && Enabled(p, s, Evict(b))
    ensures ControlInv(p, Apply(p, s, Evict(b)))
  {
  }

  lemma EvictData(p: Params, s: State, b: int)
    requires Inv(p, s) && Enabled(p, s, Evict(b))
    requires ControlInv(p, Apply(p, s, Evict(b)))
    ensures Inv(p, Apply(p, s, Evict(b)))
  {
    SameReads(p, s.disk, s.cache, s.cache - {b}, Replay(p.init, s.hist));
  }

  lemma CrashControl(p: Params, s: State)
    requires ControlInv(p, s) && Enabled(p, s, Crash)
    ensures ControlInv(p, Apply(p, s, Crash))
  {
  }

  lemma CrashData(p: Params, s: State)
    requires Inv(p, s) && Enabled(p, s, Crash)
    requires ControlInv(p, Apply(p, s, Crash))
    ensures Inv(p, Apply(p, s, Crash))
  {
    assert s.hist[..s.durable][..s.durable] == s.hist[..s.durable];
  }

  lemma RecoverReadControl(p: Params, s: State)
    requires ControlInv(p, s) && CopyInv(p, s) && Enabled(p, s, RecoverRead)
    ensures ControlInv(p, Apply(p, s, RecoverRead))
  {
    assert Cached(s.disk, s.cache, p.start) == s.disk[p.start];
    ReadHeader(s.disk[p.start], s.onDisk);
  }

  lemma RecoverReadData(p: Params, s: State)
    requires Inv(p, s) && Enabled(p, s, RecoverRead)
    requires ControlInv(p, Apply(p, s, RecoverRead))
    ensures Inv(p, Apply(p, s, RecoverRead))
  {
    assert Cached(s.disk, s.cache, p.start) == s.disk[p.start];
    ReadHeader(s.disk[p.start], s.onDisk);
  }

  lemma RedoBlockControl(p: Params, s: State)
    requires ControlInv(p, s) && Enabled(p, s, RedoBlock)
    ensures ControlInv(p, Apply(p, s, RedoBlock))
  {
  }

  lemma RedoBlockCopy(p: Params, s: State)
    requires ControlInv(p, s) && CopyInv(p, s) && Enabled(p, s, RedoBlock)
    requires ControlInv(p, Apply(p, s, RedoBlock))
    ensures CopyInv(p, Apply(p, s, RedoBlock))
  {
    var v := Cached(s.disk, s.cache, Slot(p, s.pc.tail));
    SlotOnDisk(p, s, s.pc.tail);
    WriteCoherent(s.disk, s.cache, s.pins, s.dirty, s.lh[s.pc.tail], v);
    InstallNext(p, s.lh, s.disk, s.pc.tail, v);
    var s' := Apply(p, s, RedoBlock);
    assert s'.disk[p.start] == s.disk[p.start];
    assert Coherent(s'.disk, s'.cache, s'.pins, s'.dirty);
    assert Installed(p, s'.lh, s'.disk, s'.pc.tail);
  }

  lemma RedoBlockData(p: Params, s: State)
    requires Inv(p, s) && Enabled(p, s, RedoBlock)
    requires ControlInv(p, Apply(p, s, RedoBlock)) && CopyInv(p, Apply(p, s, RedoBlock))
    ensures Inv(p, Apply(p, s, RedoBlock))
  {
    var v := Cached(s.disk, s.cache, Slot(p, s.pc.tail));
    SlotOnDisk(p, s, s.pc.tail);
    InstallHolds(p, s.lh, s.disk, s.pc.tail, v, Replay(p.init, s.hist[..s.durable]));
  }

  lemma RedoEraseControl(p: Params, s: State)
    requires ControlInv(p, s) && Enabled(p, s, RedoErase)
    ensures ControlInv(p, Apply(p, s, RedoErase))
  {
  }

  lemma RedoEraseCopy(p: Params, s: State)
    requires ControlInv(p, s) && CopyInv(p, s) && Enabled(p, s, RedoErase)
    requires ControlInv(p, Apply(p, s, RedoErase))
    ensures CopyInv(p, Apply(p, s, RedoErase))
  {
    HeaderRoundTrip(Cached(s.disk, s.cache, p.start), []);
    WriteCoherent(s.disk, s.cache, s.pins, s.dirty, p.start, PutHeader(Cached(s.disk, s.cache, p.start), []));
  }

  lemma RedoEraseData(p: Params, s: State)
    requires Inv(p, s) && Enabled(p, s, RedoErase)
    requires ControlInv(p, Apply(p, s, RedoErase)) && CopyInv(p, Apply(p, s, RedoErase))
    ensures Inv(p, Apply(p, s, RedoErase))
  {
    var v := PutHeader(Cached(s.disk, s.cache, p.start), []);
    HeaderRoundTrip(Cached(s.disk, s.cache, p.start), []);
    EraseHolds(p, s.lh, s.disk, v, Replay(p.init, s.hist[..s.durable]));
    WriteCoherent(s.disk, s.cache, {}, {}, p.start, v);
    assert s.hist[..|s.hist|] == s.hist;
    CoherentView(p, s.disk[p.start := v], s.cache[p.start := v], Replay(p.init, s.hist));
  }

  lemma OpStepInv(p: Params, s: State, step: Step)
    requires Inv(p, s) && Enabled(p, s, step)
    requires step.BeginOp? || step.Modify? || step.LogWrite? || step.EndOp?
    ensures Inv(p, Apply(p, s, step))
  {
    match step
    case BeginOp(t) => BeginOpControl(p, s, t); BeginOpData(p, s, t);
    case Modify(t, b, data) => ModifyControl(p, s, t, b, data); ModifyData(p, s, t, b, data);
    case LogWrite(t, b) => LogWriteControl(p, s, t, b); LogWriteData(p, s, t, b);
    case EndOp(t) => EndOpControl(p, s, t); EndOpData(p, s, t);
  }

  lemma CacheStepInv(p: Params, s: State, step: Step)
    requires Inv(p, s) && Enabled(p, s, step)
    requires step.Bread? || step.Brelse? || step.Load? || step.Evict?
    ensures Inv(p, Apply(p, s, step))
  {
    match step
    case Bread(t, b) => BreadControl(p, s, t, b); BreadData(p, s, t, b);
    case Brelse(t, b) => BrelseControl(p, s, t, b); BrelseData(p, s, t, b);
    case Load(b) => LoadControl(p, s, b); LoadData(p, s, b);
    case Evict(b) => EvictControl(p, s, b); EvictData(p, s, b);
  }

  lemma CommitStepInv(p: Params, s: State, step: Step)
    requires Inv(p, s) && Enabled(p, s, step)
    requires step.WriteLogBlock? || step.WriteLogDone? || step.WriteHead? || step.InstallBlock? || step.EraseHead?
    ensures Inv(p, Apply(p, s, step))
  {
    match step
    case WriteLogBlock => WriteLogBlockControl(p, s); WriteLogBlockCopy(p, s); WriteLogBlockData(p, s);
    case WriteLogDone => WriteLogDoneControl(p, s); WriteLogDoneData(p, s);
    case WriteHead => WriteHeadControl(p, s); WriteHeadCopy(p, s); WriteHeadData(p, s);
    case InstallBlock => InstallBlockControl(p, s); InstallBlockCopy(p, s); InstallBlockData(p, s);
    case EraseHead => EraseHeadControl(p, s); EraseHeadCopy(p, s); EraseHeadData(p, s);
  }

  lemma RecoverStepInv(p: Params, s: State, step: Step)
    requires Inv(p, s) && Enabled(p, s, step)
    requires step.Crash? || step.RecoverRead? || step.RedoBlock? || step.RedoErase?
    ensures Inv(p, Apply(p, s, step))
  {
    match step
    case Crash => CrashControl(p, s); CrashData(p, s);
    case RecoverRead => RecoverReadControl(p, s); RecoverReadData(p, s);
    case RedoBlock => RedoBlockControl(p, s); RedoBlockCopy(p, s); RedoBlockData(p, s);
    case RedoErase => RedoEraseControl(p, s); RedoEraseCopy(p, s); RedoEraseData(p, s);
  }

  /** Every step of the machine keeps the invariant. */
  lemma StepInv(p: Params, s: State, step: Step)
    requires Inv(p, s) && Enabled(p, s, step)
    ensures Inv(p, Apply(p, s, step))
  {
    if step.Crash? || step.RecoverRead? || step.RedoBlock? || step.RedoErase? {
      RecoverStepInv(p, s, step);
    } else if step.WriteLogBlock? || step.WriteLogDone? || step.WriteHead? || step.InstallBlock? || step.EraseHead? {
      CommitStepInv(p, s, step);
    } else if step.Bread? || step.Brelse? || step.Load? || step.Evict? {
      CacheStepInv(p, s, step);
    } else {
      OpStepInv(p, s, step);
    }
  }
}

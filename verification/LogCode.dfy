/**
  The functions of kernel/log.c as methods on the fields they update.  The object keeps,
  as ghost state, the run of the machine in LogModel that its calls have produced so far;
  every bwrite is one step of that run, so the theorems of LogSafety hold of every disk
  a crash inside a method could leave.
 */
module LogCode {
  import opened LogModel
  import opened LogSafety

  // ----- header words, filled and read by the loops of write_head and read_head -----

  method FillHeader(blk: Block, lh: seq<int>) returns (hb: Block)
    requires |lh| <= LOGSIZE && |blk| == BWORDS
    ensures hb == PutHeader(blk, lh)
  {
    hb := blk[0 := |lh|];
    var i := 0;
    while i < |lh|
      invariant 0 <= i <= |lh| && |hb| == BWORDS && hb[0] == |lh|
      invariant forall j :: 0 <= j < i ==> hb[1 + j] == lh[j]
      invariant forall j :: 1 + i <= j < BWORDS ==> hb[j] == blk[j]
    {
      hb := hb[1 + i := lh[i]];
      i := i + 1;
    }
  }

  method ReadHeaderWords(hb: Block) returns (lh: seq<int>)
    requires |hb| == BWORDS && 0 <= hb[0] <= LOGSIZE
    ensures lh == GetHeader(hb)
  {
    lh := [];
    var i := 0;
    while i < hb[0]
      invariant 0 <= i <= hb[0] && lh == hb[1..1 + i]
    {
      lh := lh + [hb[1 + i]];
      i := i + 1;
    }
  }

  // ----- facts of the last state of a run -----

  lemma HeaderOnDisk(p: Params, states: seq<State>, steps: seq<Step>)
    requires IsRun(p, states, steps)
    ensures var s := states[|states| - 1];
            && Shape(p, s) && Cached(s.disk, s.cache, p.start) == s.disk[p.start]
            && 0 <= s.disk[p.start][0] <= LOGSIZE && p.start + 1 + |GetHeader(s.disk[p.start])| <= p.total
  {
    RunInv(p, states, steps, |states| - 1);
    var s := states[|states| - 1];
    ReadHeader(s.disk[p.start], s.onDisk);
  }

  lemma EntryOnDisk(p: Params, states: seq<State>, steps: seq<Step>, tail: nat)
    requires IsRun(p, states, steps)
    requires var s := states[|states| - 1]; (s.pc.Install? || s.pc.Redo?) && tail < |s.lh|
    ensures var s := states[|states| - 1];
            Shape(p, s) && Cached(s.disk, s.cache, Slot(p, tail)) == s.disk[Slot(p, tail)]
  {
    RunInv(p, states, steps, |states| - 1);
    SlotOnDisk(p, states[|states| - 1], tail);
  }

  lemma LogFits(p: Params, s: State)
    requires Shape(p, s)
    ensures p.start + 1 + |s.lh| <= |s.disk| && forall i :: 0 <= i < |s.lh| ==> 0 <= s.lh[i] < |s.disk|
  {
  }

  lemma RedoNext(p: Params, d: Disk, h: seq<int>, k: nat)
    requires k <= |h| && p.start + 1 + |h| <= |d|
    ensures k == 0 ==> RedoFrom(p, d, h, k) == d
    ensures k < |h| && 0 <= h[k] < |d| ==>
        RedoFrom(p, d, h, k + 1) == RedoFrom(p, d, h, k)[h[k] := RedoFrom(p, d, h, k)[Slot(p, k)]]
  {
  }

  lemma AllInstalled(p: Params, states: seq<State>, steps: seq<Step>)
    requires IsRun(p, states, steps)
    requires states[|states| - 1].pc == Normal && states[|states| - 1].active == map[]
    ensures var s := states[|states| - 1];
            && Shape(p, s) && s.durable == |s.hist| && s.lh == []
            && forall b {:trigger Home(p, b)} :: Home(p, b) ==> s.disk[b] == Replay(p.init, s.hist)[b]
  {
    RunInv(p, states, steps, |states| - 1);
    EndOpDurable(p, states, steps, |states| - 1);
    var s := states[|states| - 1];
    assert s.hist[..s.durable] == s.hist;
  }

  lemma RedoKeepsHeader(p: Params, states: seq<State>, steps: seq<Step>)
    requires IsRun(p, states, steps)
    ensures var s := states[|states| - 1];
            && Shape(p, s) && p.start + 1 + |GetHeader(s.disk[p.start])| <= |s.disk|
            && var h := GetHeader(s.disk[p.start]);
               GoodList(p, h) && RedoFrom(p, s.disk, h, |h|)[p.start] == s.disk[p.start]
  {
    RunInv(p, states, steps, |states| - 1);
    var s := states[|states| - 1];
    ReadHeader(s.disk[p.start], s.onDisk);
    RedoFromHolds(p, s.disk, s.onDisk, |s.onDisk|, Replay(p.init, s.hist[..s.durable]));
  }

  lemma ReadsMap(p: Params, states: seq<State>, steps: seq<Step>, b: int)
    requires IsRun(p, states, steps) && !Recovering(states[|states| - 1]) && Home(p, b)
    ensures var s := states[|states| - 1];
            Shape(p, s) && 0 <= b < |s.disk| == |p.init| && Cached(s.disk, s.cache, b) == Replay(p.init, s.hist)[b]
  {
    RunInv(p, states, steps, |states| - 1);
  }

  /** A buffer that nobody holds and that is not logged holds what the disk holds. */
  lemma Clean(p: Params, states: seq<State>, steps: seq<Step>, b: int)
    requires IsRun(p, states, steps)
    requires var s := states[|states| - 1]; !Recovering(s) && b in s.cache && b !in s.locked && b !in s.lh
    ensures var s := states[|states| - 1];
            && Shape(p, s) && 0 <= b < |s.disk| && s.cache[b] == s.disk[b] && Enabled(p, s, Evict(b))
            && Apply(p, s, Evict(b)) == s.(cache := s.cache - {b})
  {
    RunInv(p, states, steps, |states| - 1);
  }

  lemma EvictReads(disk: Disk, cache: map<int, Block>, b: int)
    requires b in cache && 0 <= b < |disk| && cache[b] == disk[b]
    ensures forall c :: 0 <= c < |disk| ==> Cached(disk, cache - {b}, c) == Cached(disk, cache, c)
  {
  }

  datatype LogWriteResult = Logged | TooBigPanic | OutsidePanic

  /** No one holds a buffer the commit is to copy. */
  ghost predicate Unheld(s: State) { forall i :: 0 <= i < |s.lh| ==> s.lh[i] !in s.locked }

  class KernelLog {
    const p: Params
    var disk: Disk
    var cache: map<int, Block>
    var lh: seq<int>
    var outstanding: nat
    var committing: bool
    ghost var states: seq<State>
    ghost var steps: seq<Step>

    ghost predicate OnTrack()
      reads this
    {
      IsRun(p, states, steps)
    }

    ghost function Now(): State
      reads this
      requires OnTrack()
    {
      states[|states| - 1]
    }

    /** Disk and buffers are those of the run's last state. */
    ghost predicate Tracks()
      reads this
    {
      OnTrack() && Shape(p, Now()) && disk == Now().disk && cache == Now().cache
    }

    /** All fields are those of the run's last state. */
    ghost predicate Valid()
      reads this
    {
      && Tracks() && lh == Now().lh
      && outstanding == |Now().active| && committing == Committing(Now())
    }

    /** A booting kernel: nothing cached, the log not yet read. */
    constructor (params: Params)
      requires ValidParams(params)
      ensures Valid() && p == params && disk == params.init && Now() == Init(params)
    {
      InitInv(params);
      p := params;
      disk, cache, lh, outstanding, committing := params.init, map[], [], 0, false;
      states, steps := [Init(params)], [];
    }

    /** Extend the run by one step. */
    ghost method Take(step: Step)
      requires OnTrack() && Shape(p, Now()) && Enabled(p, Now(), step)
      modifies `states, `steps
      ensures OnTrack() && Now() == old(Apply(p, Now(), step)) && Shape(p, Now())
      ensures old(states) <= states && |states| == |old(states)| + 1
    {
      var s' := Apply(p, Now(), step);
      ExtendRun(p, states, steps, step, s');
      states, steps := states + [s'], steps + [step];
      RunInv(p, states, steps, |states| - 1);
    }

    /** bread by the log itself: the buffer's contents, read from disk if not cached. */
    method Bread(b: int) returns (data: Block)
      requires Tracks() && 0 <= b < p.total
      modifies `cache, `states, `steps
      ensures Tracks() && data == old(Cached(disk, cache, b)) && cache == old(cache)[b := data]
      ensures Now() == old(Now()).(cache := cache) && old(states) <= states
    {
      if b !in cache {
        cache := cache[b := disk[b]];
        Take(Load(b));
      }
      data := cache[b];
    }

    /** bwrite of a buffer that holds data. */
    method Bwrite(b: int, data: Block)
      requires 0 <= b < |disk|
      modifies `disk, `cache
      ensures disk == old(disk)[b := data] && cache == old(cache)[b := data]
    {
      disk := disk[b := data];
      cache := cache[b := data];
    }

    /** write_head: `step` says which of its three calls this is. */
    method WriteHead(ghost step: Step)
      requires Tracks() && Enabled(p, Now(), step)
      requires (step == LogModel.WriteHead && lh == Now().lh) || ((step == EraseHead || step == RedoErase) && lh == [])
      modifies `disk, `cache, `states, `steps
      ensures Tracks() && lh == Now().lh && Now().locked == old(Now().locked) && Now().hist == old(Now().hist)
      ensures step == LogModel.WriteHead ==> Now().pc == Install(0) && Now().durable == |Now().hist|
      ensures step != LogModel.WriteHead ==> Now().pc == Normal && Now().durable == old(Now().durable)
      ensures Now().active == old(Now().active) && old(states) <= states
      ensures |old(disk)[p.start]| == BWORDS && disk == old(disk)[p.start := PutHeader(old(disk)[p.start], lh)]
    {
      HeaderOnDisk(p, states, steps);
      var buf := Bread(p.start);
      var hb := FillHeader(buf, lh);
      Bwrite(p.start, hb);
      Take(step);
    }

    /** One round of write_log's loop. */
    method WriteLogEntry(tail: nat)
      requires Valid() && Now().pc == LogModel.WriteLog(tail) && tail < |lh| && Unheld(Now())
      modifies `disk, `cache, `states, `steps
      ensures Valid() && Now().pc == LogModel.WriteLog(tail + 1) && Unheld(Now())
      ensures Now().hist == old(Now().hist) && Now().durable == old(Now().durable) && Now().active == old(Now().active)
      ensures old(states) <= states && Now().locked == old(Now().locked)
    {
      var to := Bread(Slot(p, tail));
      var from := Bread(lh[tail]);
      Bwrite(Slot(p, tail), from);
      Take(WriteLogBlock);
    }

    /** write_log: copy the logged blocks from the cache to the log. */
    method WriteLog()
      requires Valid() && Now().pc == LogModel.WriteLog(0) && Unheld(Now())
      modifies `disk, `cache, `states, `steps
      ensures Valid() && Now().pc == LogModel.WriteLog(|lh|) && Unheld(Now())
      ensures Now().hist == old(Now().hist) && Now().durable == old(Now().durable) && Now().active == old(Now().active)
      ensures old(states) <= states && Now().locked == old(Now().locked)
    {
      var tail := 0;
      while tail < |lh|
        invariant 0 <= tail <= |lh|
        invariant Valid() && Now().pc == LogModel.WriteLog(tail) && Unheld(Now())
        invariant Now().hist == old(Now().hist) && Now().durable == old(Now().durable)
            && Now().active == old(Now().active)
        invariant old(states) <= states && Now().locked == old(Now().locked)
      {
        WriteLogEntry(tail);
        tail := tail + 1;
      }
    }

    /** The two reads of a round of install_trans's loop. */
    method ReadEntry(tail: nat) returns (lbuf: Block)
      requires Valid() && (Now().pc.Install? || Now().pc.Redo?) && tail < |lh|
      modifies `cache, `states, `steps
      ensures Valid() && Now() == old(Now()).(cache := cache) && old(states) <= states
      ensures lbuf == disk[Slot(p, tail)] == Cached(disk, cache, Slot(p, tail))
    {
      EntryOnDisk(p, states, steps, tail);
      lbuf := Bread(Slot(p, tail));
      var dbuf := Bread(lh[tail]);
    }

    /** One round of install_trans's loop. */
    method InstallEntry(recovering: bool, tail: nat)
      requires Valid() && Now().pc == (if recovering then Redo(tail) else Install(tail)) && tail < |lh|
      requires Unheld(Now())
      modifies `disk, `cache, `states, `steps
      ensures Valid() && Now().pc == (if recovering then Redo(tail + 1) else Install(tail + 1)) && Unheld(Now())
      ensures Now().hist == old(Now().hist) && Now().durable == old(Now().durable) && Now().active == old(Now().active)
      ensures old(states) <= states && Now().locked == old(Now().locked)
      ensures disk == old(disk)[lh[tail] := old(disk)[Slot(p, tail)]]
    {
      var lbuf := ReadEntry(tail);
      Bwrite(lh[tail], lbuf);
      if recovering {
        Take(RedoBlock);
      } else {
        Take(InstallBlock);
      }
    }

    /** install_trans: copy the blocks from the log to their home locations. */
    method InstallTrans(recovering: bool)
      requires Valid() && Now().pc == (if recovering then Redo(0) else Install(0)) && Unheld(Now())
      modifies `disk, `cache, `states, `steps
      ensures Valid() && Now().pc == (if recovering then Redo(|lh|) else Install(|lh|)) && Unheld(Now())
      ensures Now().hist == old(Now().hist) && Now().durable == old(Now().durable) && Now().active == old(Now().active)
      ensures old(states) <= states && Now().locked == old(Now().locked)
      ensures disk == RedoFrom(p, old(disk), lh, |lh|)
    {
      hide IsRun, Unheld, Shape, RedoFrom;
      LogFits(p, Now());
      RedoNext(p, disk, lh, 0);
      var tail := 0;
      while tail < |lh|
        invariant 0 <= tail <= |lh|
        invariant Valid() && Now().pc == (if recovering then Redo(tail) else Install(tail)) && Unheld(Now())
        invariant Now().hist == old(Now().hist) && Now().durable == old(Now().durable)
            && Now().active == old(Now().active)
        invariant old(states) <= states && Now().locked == old(Now().locked)
        invariant disk == RedoFrom(p, old(disk), lh, tail)
      {
        LogFits(p, Now());
        RedoNext(p, old(disk), lh, tail);
        InstallEntry(recovering, tail);
        tail := tail + 1;
      }
    }

    /** The first half of commit, up to and including the header write that commits. */
    method LogTransaction()
      requires Valid() && Now().pc == LogModel.WriteLog(0) && Unheld(Now()) && |lh| > 0
      modifies `disk, `cache, `states, `steps
      ensures Valid() && Now().pc == Install(0) && Unheld(Now()) && Now().durable == |Now().hist|
      ensures Now().hist == old(Now().hist) && Now().active == old(Now().active) && old(states) <= states
      ensures Now().locked == old(Now().locked)
    {
      WriteLog();
      Take(WriteLogDone);
      WriteHead(LogModel.WriteHead);
    }

    /**
      commit: after it every modification so far is on disk in its home block and the log
      is empty.  Each disk in between belongs to the run, so LogSafety.CrashAtomicity
      applies to it.
     */
    method Commit()
      requires Valid() && Now().pc == LogModel.WriteLog(0) && Unheld(Now()) && Now().active == map[]
      modifies `disk, `cache, `lh, `states, `steps
      ensures Tracks() && lh == Now().lh == [] && Now().pc == Normal && Now().active == map[]
      ensures Now().hist == old(Now().hist) && Now().durable == |Now().hist|
      ensures forall b {:trigger Home(p, b)} :: Home(p, b) ==> disk[b] == Replay(p.init, Now().hist)[b]
      ensures old(states) <= states && Now().locked == old(Now().locked)
    {
      if |lh| > 0 {
        LogTransaction();
        InstallTrans(false);
        lh := [];
        WriteHead(EraseHead);
      } else {
        Take(WriteLogDone);
      }
      AllInstalled(p, states, steps);
    }

    /** read_head */
    method ReadHead()
      requires Valid() && Now().pc == LogModel.ReadHead && Now().active == map[]
      modifies `cache, `lh, `states, `steps
      ensures Valid() && Now().pc == Redo(0) && Now().active == map[] && lh == GetHeader(disk[p.start])
      ensures Now().locked == old(Now().locked) && Now().hist == old(Now().hist) && old(states) <= states
      ensures Now().durable == old(Now().durable)
    {
      HeaderOnDisk(p, states, steps);
      var buf := Bread(p.start);
      lh := ReadHeaderWords(buf);
      Take(RecoverRead);
    }

    /** The first half of recover_from_log: copy what the log holds, if it committed. */
    method RedoLog()
      requires Valid() && Now().pc == LogModel.ReadHead && Now().locked == map[] && Now().active == map[]
      modifies `disk, `cache, `lh, `states, `steps
      ensures Valid() && Now().pc == Redo(|lh|) && Now().hist == old(Now().hist) && old(states) <= states
      ensures lh == GetHeader(old(disk)[p.start]) && p.start + 1 + |lh| <= |disk|
      ensures Now().active == map[] && Now().locked == map[] && Now().durable == old(Now().durable)
      ensures disk == RedoFrom(p, old(disk), lh, |lh|) && disk[p.start] == old(disk)[p.start]
    {
      hide IsRun, Shape, RedoFrom, GetHeader;
      RedoKeepsHeader(p, states, steps);
      ReadHead();
      InstallTrans(true);
    }

    /** recover_from_log at boot. */
    method RecoverFromLog()
      requires Valid() && Now().pc == LogModel.ReadHead && Now().locked == map[] && Now().active == map[]
      modifies `disk, `cache, `lh, `states, `steps
      ensures Valid() && Now().pc == Normal && lh == []
      ensures |old(disk)[p.start]| == BWORDS && p.start + 1 + |GetHeader(old(disk)[p.start])| <= |old(disk)|
      ensures disk == RecoverDisk(p, old(disk))
      ensures Now().hist == old(Now().hist) && Now().durable == old(Now().durable) && old(states) <= states
      ensures Now().active == map[] && Now().locked == map[]
    {
      RedoLog();
      lh := [];
      WriteHead(RedoErase);
    }

    /** One round of begin_op's loop: false is a sleep. */
    method TryBeginOp(t: int) returns (ok: bool)
      requires Valid() && Now().pc != LogModel.ReadHead && !Now().pc.Redo?
      requires t !in Now().active && (forall i :: 0 <= i < |Now().hist| ==> Now().hist[i].op != t)
      modifies `outstanding, `states, `steps
      ensures Valid() && old(states) <= states
      ensures ok <==> !committing && |lh| + (old(outstanding) + 1) * MAXOPBLOCKS <= LOGSIZE
      ensures Now() == if ok then old(Now()).(active := old(Now()).active[t := {}]) else old(Now())
    {
      if committing || |lh| + (outstanding + 1) * MAXOPBLOCKS > LOGSIZE {
        ok := false;
      } else {
        outstanding := outstanding + 1;
        Take(BeginOp(t));
        ok := true;
      }
    }

    /** bread, by thread t: the buffer is t's until brelse. */
    method Read(t: int, b: int) returns (data: Block)
      requires Valid() && !Recovering(Now()) && Home(p, b) && b !in Now().locked
      modifies `cache, `states, `steps
      ensures Valid() && data == old(Cached(disk, cache, b)) && cache == old(cache)[b := data] && old(states) <= states
      ensures Now() == old(Now()).(cache := cache, locked := old(Now()).locked[b := t])
      ensures data == Replay(p.init, Now().hist)[b]
    {
      hide IsRun, Shape, Replay, Home;
      ReadsMap(p, states, steps, b);
      if b !in cache {
        cache := cache[b := disk[b]];
      }
      data := cache[b];
      Take(LogModel.Bread(t, b));
    }

    /** An operation stores data in a buffer it holds: that block, and no other, reads so from now on. */
    method Modify(t: int, b: int, data: Block)
      requires Valid() && t in Now().active && b in Now().locked && Now().locked[b] == t
      modifies `cache, `states, `steps
      ensures Valid() && Home(p, b) && Cached(disk, cache, b) == data && old(states) <= states
      ensures forall c :: 0 <= c < p.total && c != b ==> Cached(disk, cache, c) == old(Cached(disk, cache, c))
      ensures Now().hist == old(Now().hist) + [Event(t, b, data)] && Now().dirty == old(Now().dirty) + {b}
      ensures Now().locked == old(Now().locked) && Now().active == old(Now().active) && Now().pc == old(Now().pc)
      ensures Now().durable == old(Now().durable)
    {
      RunInv(p, states, steps, |states| - 1);
      cache := cache[b := data];
      Take(LogModel.Modify(t, b, data));
    }

    /** brelse of a buffer that was logged, or not modified. */
    method Brelse(t: int, b: int)
      requires Valid() && b in Now().locked && Now().locked[b] == t && b !in Now().dirty
      modifies `states, `steps
      ensures Valid() && Now() == old(Now()).(locked := old(Now()).locked - {b}) && old(states) <= states
    {
      Take(LogModel.Brelse(t, b));
    }

    /** The cache recycles a buffer nobody holds and the log has not pinned: no block reads differently. */
    method Evict(b: int)
      requires Valid() && b in cache && b !in Now().locked && b !in lh && !Recovering(Now())
      modifies `cache, `states, `steps
      ensures Valid() && cache == old(cache) - {b} && Now() == old(Now()).(cache := cache) && old(states) <= states
      ensures forall c :: 0 <= c < |disk| ==> Cached(disk, cache, c) == old(Cached(disk, cache, c))
    {
      hide IsRun, Shape, Cached, Enabled, Apply;
      Clean(p, states, steps, b);
      EvictReads(disk, cache, b);
      cache := cache - {b};
      Take(LogModel.Evict(b));
    }

    /** The machine stops, at any point between two calls, and boots again with the disk it has. */
    method Reboot()
      requires Valid()
      modifies `cache, `lh, `outstanding, `committing, `states, `steps
      ensures Valid() && cache == map[] && lh == [] && outstanding == 0 && old(states) <= states
      ensures Now().pc == LogModel.ReadHead && Now().locked == map[] && Now().active == map[]
      ensures Now().hist == old(Now().hist)[..old(Now().durable)] && Now().durable == old(Now().durable)
    {
      cache, lh, outstanding, committing := map[], [], 0, false;
      Take(Crash);
    }

    /** log_write of a buffer that operation t holds. */
    method LogWrite(t: int, b: int) returns (r: LogWriteResult)
      requires Valid() && (Now().active == map[] || t in Now().active)
      requires t in Now().active ==>
                 b in Now().locked && Now().locked[b] == t && |Now().active[t] + {b}| <= p.opBlocks
      modifies `lh, `states, `steps
      ensures Valid() && old(states) <= states
      ensures r == TooBigPanic <==> old(TooBig(p, Now()))
      ensures r == OutsidePanic <==> !old(TooBig(p, Now())) && outstanding == 0
      ensures r == LogWriteResult.Logged ==>
                && lh == (if b in old(lh) then old(lh) else old(lh) + [b])
                && Now().hist == old(Now().hist) && Now().dirty == old(Now().dirty) - {b}
                && Now().active == old(Now().active)[t := old(Now().active)[t] + {b}]
                && Now().locked == old(Now().locked) && Now().pc == old(Now().pc) && Now().durable == old(Now().durable)
      ensures r != LogWriteResult.Logged ==> Now() == old(Now())
    {
      if |lh| >= LOGSIZE || |lh| >= p.size - 1 {
        return TooBigPanic;
      }
      if outstanding < 1 {
        return OutsidePanic;
      }
      var i := 0;
      while i < |lh| && lh[i] != b
        invariant 0 <= i <= |lh| && b !in lh[..i]
      {
        i := i + 1;
      }
      if i == |lh| {
        lh := lh + [b];
      }
      Take(LogModel.LogWrite(t, b));
      r := LogWriteResult.Logged;
    }

    /** The operation is over; the last one is to commit. */
    method Leave(t: int)
      requires Valid() && t in Now().active && forall b :: b in Now().locked ==> Now().locked[b] != t
      modifies `outstanding, `states, `steps
      ensures Tracks() && lh == Now().lh && outstanding == |Now().active| && Now().locked == old(Now().locked)
          && !committing
      ensures lh == old(lh)
      ensures Now().hist == old(Now().hist) && Now().active == old(Now().active) - {t} && old(states) <= states
      ensures if outstanding == 0 then Now().pc == LogModel.WriteLog(0) else !Committing(Now())
    {
      hide Shape;
      GroupCommit(p, states, steps, |states| - 1);
      assert |Now().active - {t}| == |Now().active| - 1;
      outstanding := outstanding - 1;
      Take(LogModel.EndOp(t));
    }

    /** end_op: the last one commits. */
    method EndOp(t: int)
      requires Valid() && t in Now().active && (forall b :: b in Now().locked ==> Now().locked[b] != t)
      requires outstanding == 1 ==> Unheld(Now())
      modifies `disk, `cache, `lh, `outstanding, `committing, `states, `steps
      ensures Valid() && old(states) <= states
      ensures Now().hist == old(Now().hist) && Now().active == old(Now().active) - {t} && !committing
      ensures Now().locked == old(Now().locked)
      ensures outstanding == 0 ==>
                && Now().durable == |Now().hist| && lh == []
                && forall b {:trigger Home(p, b)} :: Home(p, b) ==> disk[b] == Replay(p.init, Now().hist)[b]
    {
      hide Replay, Shape, IsRun;
      Leave(t);
      if outstanding == 0 {
        committing := true;
        Commit();
        committing := false;
      }
    }
  }

  // ----- a whole operation, and crashes before and after its end_op -----

  lemma NothingLogged(p: Params, states: seq<State>, steps: seq<Step>)
    requires IsRun(p, states, steps)
    requires states[|states| - 1].pc == Normal && states[|states| - 1].active == map[]
    ensures states[|states| - 1].lh == []
  {
    RunInv(p, states, steps, |states| - 1);
  }

  lemma ReplayOne(p: Params, e: Event)
    requires 0 <= e.blk < |p.init|
    ensures Replay(p.init, [e]) == p.init[e.blk := e.data] && Replay(p.init, []) == p.init
  {
    assert [] + [e] == [e];
    ReplaySnoc(p.init, [], e);
  }

  /** What recovery finds: the durable modifications, and no other. */
  lemma Recovered(p: Params, states: seq<State>, steps: seq<Step>)
    requires IsRun(p, states, steps)
    ensures var s := states[|states| - 1];
            && Shape(p, s) && p.start + 1 + |GetHeader(s.disk[p.start])| <= |s.disk|
            && forall b {:trigger Home(p, b)} :: Home(p, b) ==>
                RecoverDisk(p, s.disk)[b] == Replay(p.init, s.hist[..s.durable])[b]
  {
    HeaderOnDisk(p, states, steps);
    CrashAtomicity(p, states, steps, |states| - 1);
  }

  /** A first boot from the disk params.init. */
  method Boot(params: Params) returns (k: KernelLog)
    requires ValidParams(params)
    ensures fresh(k) && k.Valid() && k.p == params && k.Now().pc == Normal && k.Now().active == map[]
    ensures k.Now().hist == [] && k.Now().durable == 0 && k.Now().locked == map[]
  {
    k := new KernelLog(params);
    k.RecoverFromLog();
  }

  /** An operation writes one block: bread, modify, log_write, brelse. */
  method WriteBlock(k: KernelLog, t: int, b: int, data: Block)
    requires k.Valid() && k.Now().pc == Normal && t in k.Now().active && Home(k.p, b) && b !in k.Now().locked
    requires |k.Now().active[t] + {b}| <= k.p.opBlocks && !TooBig(k.p, k.Now())
    modifies k
    ensures k.Valid() && k.Now().active == old(k.Now().active)[t := old(k.Now().active)[t] + {b}]
    ensures k.lh == (if b in old(k.lh) then old(k.lh) else old(k.lh) + [b]) && k.disk == old(k.disk)
    ensures k.Now().hist == old(k.Now().hist) + [Event(t, b, data)] && k.Now().durable == old(k.Now().durable)
    ensures k.Now().locked == old(k.Now().locked) && k.Now().pc == Normal
  {
    hide IsRun, Shape, Home;
    var was := k.Read(t, b);
    k.Modify(t, b, data);
    var r := k.LogWrite(t, b);
    k.Brelse(t, b);
    assert k.Now().locked == old(k.Now().locked);
  }

  /** A first operation after boot, up to its end_op. */
  method FirstWrite(k: KernelLog, t: int, b: int, data: Block)
    requires k.Valid() && k.Now().pc == Normal && k.Now().active == map[] && k.p.opBlocks >= 1 && k.p.size >= 2
    requires Home(k.p, b) && k.Now().locked == map[] && k.Now().hist == []
    modifies k
    ensures k.Valid() && k.Now().active.Keys == {t} && k.Now().locked == map[] && k.Now().pc == Normal
    ensures k.Now().hist == [Event(t, b, data)] && k.Now().durable == old(k.Now().durable)
  {
    hide IsRun, Shape, Home;
    NothingLogged(k.p, k.states, k.steps);
    var ok := k.TryBeginOp(t);
    assert {} + {b} == {b};
    WriteBlock(k, t, b, data);
  }

  lemma HomeIs(p: Params, b: int)
    requires ValidParams(p) && Home(p, b)
    ensures 0 <= b < p.total == |p.init|
  {
  }

  /** A crash between two calls, and the boot after it: the durable modifications are there, and no other. */
  method Restart(k: KernelLog)
    requires k.Valid()
    modifies k
    ensures k.Valid() && k.Now().pc == Normal && k.Now().active == map[] && k.Now().locked == map[]
    ensures |k.disk| == k.p.total == |k.p.init| && k.Now().hist == old(k.Now().hist)[..old(k.Now().durable)]
    ensures forall c {:trigger Home(k.p, c)} :: Home(k.p, c) ==> k.disk[c] == Replay(k.p.init, k.Now().hist)[c]
  {
    hide IsRun, Replay, RecoverDisk, Home;
    k.Reboot();
    assert k.Now().hist[..k.Now().durable] == k.Now().hist;
    Recovered(k.p, k.states, k.steps);
    k.RecoverFromLog();
  }

  /**
    Once its end_op has returned, what an operation wrote is there after a crash, and every other block is as
    it was.
   */
  method Survives(params: Params, t: int, b: int, data: Block) returns (k: KernelLog)
    requires ValidParams(params) && params.opBlocks >= 1 && params.size >= 2 && Home(params, b)
    ensures |k.disk| == params.total && k.disk[b] == data
    ensures forall c {:trigger Home(params, c)} :: Home(params, c) && c != b ==> k.disk[c] == params.init[c]
  {
    hide IsRun, Shape, Replay;
    HomeIs(params, b);
    ReplayOne(params, Event(t, b, data));
    k := Boot(params);
    FirstWrite(k, t, b, data);
    k.EndOp(t);
    assert k.Now().active == map[];
    assert k.Now().hist[..1] == k.Now().hist;
    Restart(k);
  }

  /** Before that, a crash leaves nothing of it. */
  method Vanishes(params: Params, t: int, b: int, data: Block) returns (k: KernelLog)
    requires ValidParams(params) && params.opBlocks >= 1 && params.size >= 2 && Home(params, b)
    ensures |k.disk| == params.total
    ensures forall c {:trigger Home(params, c)} :: Home(params, c) ==> k.disk[c] == params.init[c]
  {
    hide IsRun, Shape, Replay;
    HomeIs(params, b);
    ReplayOne(params, Event(t, b, data));
    k := Boot(params);
    FirstWrite(k, t, b, data);
    Restart(k);
  }
}

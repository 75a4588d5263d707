/**
  No wakeup is lost (kernel/proc.c sleep and wakeup, kernel/sleeplock.c, and wait/exit):
  whoever is asleep, or on the way to sleep, either still has a reason to wait or has a
  wakeup loop coming that has not passed its slot yet.
 */
module ProcsWakeup {
  import opened Procs
  import opened ProcsFamily

  /** The process is inside sleep(): from the call to being SLEEPING, until it is woken. */
  predicate Waiting(x: PState, pc: Pc, w: Waiter) {
    pc == SlAcq(w) || pc == SlRel(w) || pc == SlSet(w) || pc == SlSched(w) || (pc == SlWake(w) && x == SLEEPING)
  }

  ghost predicate NoZombieChild(st: seq<PState>, parent: seq<int>, p: int)
    requires |st| == |parent|
  {
    forall z :: 0 <= z < |st| && parent[z] == p ==> st[z] != ZOMBIE
  }

  /** What the process waits for has not happened: the sleep-lock is held; no child is a zombie. */
  ghost predicate Calm(st: seq<PState>, owner: map<int, int>, parent: seq<int>, p: int, w: Waiter)
    requires |st| == |parent|
  {
    if w.OnLock? then w.l in owner else NoZombieChild(st, parent, p)
  }

  /** The holder of the sleeper's lock is in a wakeup loop on its channel that has yet to reach slot p. */
  ghost predicate Pending(k: Params, holder: map<LockId, int>, cproc: seq<int>, csched: seq<bool>, pc: seq<Pc>, p: int,
      w: Waiter)
    requires |cproc| == |csched| == k.ncpu && |pc| == k.n
  {
    && LkOf(w) in holder
    && var c := holder[LkOf(w)];
    && 0 <= c < k.ncpu && !csched[c] && 0 <= cproc[c] < k.n && cproc[c] != p
    && var a := pc[cproc[c]];
       a.Wk? && a.ch == ChanOf(p, w) && a.i <= p
  }

  ghost predicate WakeInv(k: Params, st: seq<PState>, pc: seq<Pc>, owner: map<int, int>, parent: seq<int>,
                          holder: map<LockId, int>, cproc: seq<int>, csched: seq<bool>)
    requires |cproc| == |csched| == k.ncpu && |pc| == |st| == |parent| == k.n
  {
    forall p, w {:trigger Waiting(st[p], pc[p], w)} :: 0 <= p < k.n && Waiting(st[p], pc[p], w) ==>
      Calm(st, owner, parent, p, w) || Pending(k, holder, cproc, csched, pc, p, w)
  }

  /** A wakeup loop runs on the channel its caller means. */
  predicate WkOk(k: Params, pc: Pc, par: int) {
    pc.Wk? ==>
      && 0 <= pc.i <= k.n
      && match pc.r
         case AfterRelease(l) => pc.ch == LockCh(l)
         case AfterReparent(j) => pc.ch == ProcCh(k.init)
         case AfterParent => pc.ch == ProcCh(par)
  }

  /** wait has seen no zombie child in proc[..j]. */
  ghost predicate ScanOk(k: Params, st: seq<PState>, parent: seq<int>, q: int, pc: Pc)
    requires |st| == |parent| == k.n
  {
    pc.WtScan? ==> 0 <= pc.j <= k.n && forall z :: 0 <= z < pc.j && parent[z] == q ==> st[z] != ZOMBIE
  }

  /** exit has woken its parent, up to slot i. */
  predicate ExitWoke(k: Params, st: seq<PState>, pcs: seq<Pc>, par: int, pc: Pc)
    requires |st| == |pcs| == k.n
  {
    && (pc.Wk? && pc.r.AfterParent? ==> 0 <= par < k.n && (Waiting(st[par], pcs[par], OnChild) ==> pc.i <= par))
    && (pc.ExLock? || pc.ExZombie? ==> 0 <= par < k.n && !Waiting(st[par], pcs[par], OnChild))
  }

  ghost predicate SideInv(k: Params, st: seq<PState>, pc: seq<Pc>, parent: seq<int>)
    requires |st| == |pc| == |parent| == k.n
  {
    && (forall q :: 0 <= q < k.n ==> WkOk(k, pc[q], parent[q]))
    && (forall q :: 0 <= q < k.n ==> ScanOk(k, st, parent, q, pc[q]))
    && (forall q :: 0 <= q < k.n ==> ExitWoke(k, st, pc, parent[q], pc[q]))
  }

  ghost predicate SleepAt(k: Params, st: seq<PState>, pc: seq<Pc>, owner: map<int, int>, parent: seq<int>,
                          holder: map<LockId, int>, cproc: seq<int>, csched: seq<bool>)
    requires |cproc| == |csched| == k.ncpu && |pc| == |st| == |parent| == k.n
  {
    WakeInv(k, st, pc, owner, parent, holder, cproc, csched) && SideInv(k, st, pc, parent)
  }

  ghost predicate SleepInv(k: Params, s: State)
    requires Shape(k, s)
  {
    SleepAt(k, s.st, s.pc, s.owner, s.parent, s.holder, s.cproc, s.csched)
  }

  // ----- locks exclude -----

  /** Only an executing process holds wait_lock or the inner lock of a sleep-lock. */
  lemma HoldsOn(k: Params, s: State, q: int, x: LockId)
    requires ControlInv(k, s) && 0 <= q < k.n && x in Locks(q, s.pc[q]) && !x.P?
    ensures On(s.csched, s.at[q]) && s.cproc[s.at[q]] == q && x in s.holder && s.holder[x] == s.at[q]
  {
    assert ProcOk(s.st[q], s.chan[q], s.pc[q], s.saved[q], q, On(s.csched, s.at[q]));
    assert x in CpuLocks(s.csched, s.cproc, s.pc, s.at[q]);
  }

  lemma Exclusive(k: Params, s: State, q: int, r: int, x: LockId)
    requires ControlInv(k, s) && 0 <= q < k.n && 0 <= r < k.n && !x.P?
    requires x in Locks(q, s.pc[q]) && x in Locks(r, s.pc[r])
    ensures q == r
  {
    HoldsOn(k, s, q, x);
    HoldsOn(k, s, r, x);
  }

  // ----- wakeup bookkeeping, piece by piece -----

  /** Only locks of CPU c come and go. */
  ghost predicate OthersKeep(holder: map<LockId, int>, holder': map<LockId, int>, c: int) {
    forall x :: x in holder && holder[x] != c ==> x in holder' && holder'[x] == holder[x]
  }

  lemma PendingKept(k: Params, holder: map<LockId, int>, cproc: seq<int>, csched: seq<bool>, at: seq<int>, pc: seq<Pc>,
                    c: int, pc': Pc, holder': map<LockId, int>, q: int, w: Waiter)
    requires |cproc| == |csched| == k.ncpu && |pc| == |at| == k.n && CpuInv(k, cproc, csched, at)
    requires 0 <= c < k.ncpu && !csched[c] && 0 <= cproc[c] < k.n && OthersKeep(holder, holder', c)
    requires pc[cproc[c]].Wk? && pc[cproc[c]].ch == ChanOf(q, w) ==> pc[cproc[c]].i > q
    requires Pending(k, holder, cproc, csched, pc, q, w)
    ensures Pending(k, holder', cproc, csched, pc[cproc[c] := pc'], q, w)
  {
    var d := holder[LkOf(w)];
    assert d != c && cproc[d] != cproc[c];
  }

  /** Process p on CPU c, not in a wakeup loop, changes its next action. */
  lemma GotoWake(k: Params, st: seq<PState>, pc: seq<Pc>, owner: map<int, int>, parent: seq<int>,
                 holder: map<LockId, int>, cproc: seq<int>, csched: seq<bool>, at: seq<int>,
                 c: int, pc': Pc, holder': map<LockId, int>)
    requires |cproc| == |csched| == k.ncpu && |pc| == |st| == |parent| == |at| == k.n && CpuInv(k, cproc, csched, at)
    requires WakeInv(k, st, pc, owner, parent, holder, cproc, csched)
    requires 0 <= c < k.ncpu && !csched[c] && 0 <= cproc[c] < k.n && OthersKeep(holder, holder', c)
    requires pc[cproc[c]].Wk? ==> pc[cproc[c]].i >= k.n
    requires forall w :: Waiting(st[cproc[c]], pc', w) ==>
               Waiting(st[cproc[c]], pc[cproc[c]], w) || Calm(st, owner, parent, cproc[c], w)
    ensures WakeInv(k, st, pc[cproc[c] := pc'], owner, parent, holder', cproc, csched)
  {
    var pc2 := pc[cproc[c] := pc'];
    forall q, w | 0 <= q < k.n && Waiting(st[q], pc2[q], w)
      ensures Calm(st, owner, parent, q, w) || Pending(k, holder', cproc, csched, pc2, q, w)
    {
      if !Calm(st, owner, parent, q, w) {
        assert Waiting(st[q], pc[q], w);
        PendingKept(k, holder, cproc, csched, at, pc, c, pc', holder', q, w);
      }
    }
  }

  /** A process gets a state that is neither SLEEPING nor ZOMBIE. */
  lemma StWake(k: Params, st: seq<PState>, pc: seq<Pc>, owner: map<int, int>, parent: seq<int>,
               holder: map<LockId, int>, cproc: seq<int>, csched: seq<bool>, i: int, x: PState)
    requires |cproc| == |csched| == k.ncpu && |pc| == |st| == |parent| == k.n
    requires WakeInv(k, st, pc, owner, parent, holder, cproc, csched)
    requires 0 <= i < k.n && x != ZOMBIE && (x == SLEEPING ==> !pc[i].SlWake?)
    ensures WakeInv(k, st[i := x], pc, owner, parent, holder, cproc, csched)
  {
    var st2 := st[i := x];
    forall q, w | 0 <= q < k.n && Waiting(st2[q], pc[q], w)
      ensures Calm(st2, owner, parent, q, w) || Pending(k, holder, cproc, csched, pc, q, w)
    {
      assert Waiting(st[q], pc[q], w);
    }
  }

  lemma OwnerWake(k: Params, st: seq<PState>, pc: seq<Pc>, owner: map<int, int>, parent: seq<int>,
                  holder: map<LockId, int>, cproc: seq<int>, csched: seq<bool>, l: int, p: int)
    requires |cproc| == |csched| == k.ncpu && |pc| == |st| == |parent| == k.n
    requires WakeInv(k, st, pc, owner, parent, holder, cproc, csched)
    ensures WakeInv(k, st, pc, owner[l := p], parent, holder, cproc, csched)
  {
    var owner2 := owner[l := p];
    forall q, w | 0 <= q < k.n && Waiting(st[q], pc[q], w)
      ensures Calm(st, owner2, parent, q, w) || Pending(k, holder, cproc, csched, pc, q, w)
    {
    }
  }

  /** A process that is not a zombie changes parent. */
  lemma ParentWake(k: Params, st: seq<PState>, pc: seq<Pc>, owner: map<int, int>, parent: seq<int>,
                   holder: map<LockId, int>, cproc: seq<int>, csched: seq<bool>, j: int, x: int)
    requires |cproc| == |csched| == k.ncpu && |pc| == |st| == |parent| == k.n
    requires WakeInv(k, st, pc, owner, parent, holder, cproc, csched)
    requires 0 <= j < k.n && st[j] != ZOMBIE
    ensures WakeInv(k, st, pc, owner, parent[j := x], holder, cproc, csched)
  {
    var parent2 := parent[j := x];
    forall q, w | 0 <= q < k.n && Waiting(st[q], pc[q], w)
      ensures Calm(st, owner, parent2, q, w) || Pending(k, holder, cproc, csched, pc, q, w)
    {
    }
  }

  /** Process p, whose parent is not waiting, becomes a zombie. */
  lemma ZombieWake(k: Params, st: seq<PState>, pc: seq<Pc>, owner: map<int, int>, parent: seq<int>,
                   holder: map<LockId, int>, cproc: seq<int>, csched: seq<bool>, p: int)
    requires |cproc| == |csched| == k.ncpu && |pc| == |st| == |parent| == k.n
    requires WakeInv(k, st, pc, owner, parent, holder, cproc, csched)
    requires 0 <= p < k.n
        && (0 <= parent[p] < k.n ==> parent[p] != p && !Waiting(st[parent[p]], pc[parent[p]], OnChild))
    ensures WakeInv(k, st[p := ZOMBIE], pc, owner, parent, holder, cproc, csched)
  {
    var st2 := st[p := ZOMBIE];
    forall q, w | 0 <= q < k.n && Waiting(st2[q], pc[q], w)
      ensures Calm(st2, owner, parent, q, w) || Pending(k, holder, cproc, csched, pc, q, w)
    {
      assert Waiting(st[q], pc[q], w);
    }
  }

  /** The next action of a process on no CPU changes to one that waits for nothing. */
  lemma OffWake(k: Params, st: seq<PState>, pc: seq<Pc>, owner: map<int, int>, parent: seq<int>,
                holder: map<LockId, int>, cproc: seq<int>, csched: seq<bool>, at: seq<int>, j: int, pc': Pc)
    requires |cproc| == |csched| == k.ncpu && |pc| == |st| == |parent| == |at| == k.n && CpuInv(k, cproc, csched, at)
    requires WakeInv(k, st, pc, owner, parent, holder, cproc, csched)
    requires 0 <= j < k.n && at[j] == -1 && (pc' == NoThread || pc' == FkRet)
    ensures WakeInv(k, st, pc[j := pc'], owner, parent, holder, cproc, csched)
  {
    var pc2 := pc[j := pc'];
    forall q, w | 0 <= q < k.n && Waiting(st[q], pc2[q], w)
      ensures Calm(st, owner, parent, q, w) || Pending(k, holder, cproc, csched, pc2, q, w)
    {
      assert Waiting(st[q], pc[q], w);
    }
  }

  /** The CPU's scheduler takes over from, hands over to, or lets go of, a process outside wakeup. */
  lemma SchedWake(k: Params, st: seq<PState>, pc: seq<Pc>, owner: map<int, int>, parent: seq<int>,
                  holder: map<LockId, int>, cproc: seq<int>, csched: seq<bool>,
                  c: int, p: int, b: bool, holder': map<LockId, int>)
    requires |cproc| == |csched| == k.ncpu && |pc| == |st| == |parent| == k.n
    requires WakeInv(k, st, pc, owner, parent, holder, cproc, csched)
    requires 0 <= c < k.ncpu && (csched[c] || (0 <= cproc[c] < k.n && !pc[cproc[c]].Wk?))
    requires forall x :: x in holder && !x.P? ==> x in holder' && holder'[x] == holder[x]
    ensures WakeInv(k, st, pc, owner, parent, holder', cproc[c := p], csched[c := b])
  {
    var cproc2, csched2 := cproc[c := p], csched[c := b];
    forall q, w | 0 <= q < k.n && Waiting(st[q], pc[q], w)
      ensures Calm(st, owner, parent, q, w) || Pending(k, holder', cproc2, csched2, pc, q, w)
    {
    }
  }

  // ----- the side conditions, piece by piece -----

  predicate WakesParent(pc: Pc) { (pc.Wk? && pc.r.AfterParent?) || pc.ExLock? || pc.ExZombie? }

  lemma PcSide(k: Params, st: seq<PState>, pc: seq<Pc>, parent: seq<int>, p: int, pc': Pc)
    requires |st| == |pc| == |parent| == k.n && SideInv(k, st, pc, parent) && 0 <= p < k.n && parent[p] != p
    requires WkOk(k, pc', parent[p]) && ScanOk(k, st, parent, p, pc') && ExitWoke(k, st, pc, parent[p], pc')
    requires Waiting(st[p], pc', OnChild) ==>
               Waiting(st[p], pc[p], OnChild) || forall q :: 0 <= q < k.n && q != p ==> !WakesParent(pc[q])
    ensures SideInv(k, st, pc[p := pc'], parent)
  {
    var pc2 := pc[p := pc'];
    forall q | 0 <= q < k.n ensures ExitWoke(k, st, pc2, parent[q], pc2[q]) {
      assert q != p ==> pc2[q] == pc[q] && ExitWoke(k, st, pc, parent[q], pc[q]);
    }
  }

  lemma StSide(k: Params, st: seq<PState>, pc: seq<Pc>, parent: seq<int>, i: int, x: PState)
    requires |st| == |pc| == |parent| == k.n && SideInv(k, st, pc, parent) && 0 <= i < k.n
    requires (x == ZOMBIE ==> forall q :: 0 <= q < k.n ==> !pc[q].WtScan?) && (x == SLEEPING ==> !pc[i].SlWake?)
    ensures SideInv(k, st[i := x], pc, parent)
  {
    var st2 := st[i := x];
    forall q | 0 <= q < k.n ensures ScanOk(k, st2, parent, q, pc[q]) && ExitWoke(k, st2, pc, parent[q], pc[q]) {
      assert ScanOk(k, st, parent, q, pc[q]) && ExitWoke(k, st, pc, parent[q], pc[q]);
    }
  }

  lemma ParentSide(k: Params, st: seq<PState>, pc: seq<Pc>, parent: seq<int>, j: int, x: int)
    requires |st| == |pc| == |parent| == k.n && SideInv(k, st, pc, parent) && 0 <= j < k.n
    requires !WakesParent(pc[j]) && (x == -1 || forall q :: 0 <= q < k.n ==> !pc[q].WtScan?)
    ensures SideInv(k, st, pc, parent[j := x])
  {
    var parent2 := parent[j := x];
    forall q | 0 <= q < k.n
      ensures WkOk(k, pc[q], parent2[q]) && ScanOk(k, st, parent2, q, pc[q]) && ExitWoke(k, st, pc, parent2[q], pc[q])
    {
      assert WkOk(k, pc[q], parent[q]) && ScanOk(k, st, parent, q, pc[q]) && ExitWoke(k, st, pc, parent[q], pc[q]);
    }
  }

  // ----- process p on CPU c changes its next action -----

  /** What every step may rely on. */
  ghost predicate Good(k: Params, s: State) { ControlInv(k, s) && FamilyInv(k, s) && SleepInv(k, s) }

  /** A change of action that neither begins to wait nor advances a loop. */
  ghost predicate Plain(x: PState, pc: Pc, pc': Pc) {
    && !pc.Wk? && !pc'.Wk? && !pc'.ExLock? && (pc'.ExZombie? ==> pc.ExLock?) && (pc'.WtScan? ==> pc'.j == 0)
    && forall w :: Waiting(x, pc', w) ==> Waiting(x, pc, w)
  }

  lemma PlainSleep(k: Params, s: State, c: int, pc': Pc, holder': map<LockId, int>)
    requires Good(k, s) && Exec(k, s, c) && OthersKeep(s.holder, holder', c)
    requires Plain(s.st[s.cproc[c]], s.pc[s.cproc[c]], pc')
    ensures SleepAt(k, s.st, s.pc[s.cproc[c] := pc'], s.owner, s.parent, holder', s.cproc, s.csched)
  {
    hide CpuInv, ProcInv, LockInv, ForkInv, ExitInv, PidInv, WakeInv;
    var p := s.cproc[c];
    GotoWake(k, s.st, s.pc, s.owner, s.parent, s.holder, s.cproc, s.csched, s.at, c, pc', holder');
    assert ExitWoke(k, s.st, s.pc, s.parent[p], s.pc[p]);
    PcSide(k, s.st, s.pc, s.parent, p, pc');
  }

  /** With wait_lock held by p, nobody else is in wait's scan or at the end of exit. */
  lemma OnlyMe(k: Params, s: State, p: int)
    requires ControlInv(k, s) && 0 <= p < k.n && W in Locks(p, s.pc[p])
    ensures forall q :: 0 <= q < k.n && q != p ==> !s.pc[q].WtScan? && !WakesParent(s.pc[q])
  {
    forall q | 0 <= q < k.n && q != p ensures !s.pc[q].WtScan? && !WakesParent(s.pc[q]) {
      if s.pc[q].WtScan? || WakesParent(s.pc[q]) { Exclusive(k, s, p, q, W); }
    }
  }

  lemma WantsPlain(x: PState, p: int, pc: Pc)
    requires Wants(p, pc).0
    ensures Plain(x, pc, Wants(p, pc).2)
  {
  }

  lemma DropsPlain(x: PState, p: int, pc: Pc, saved: Pc)
    requires Drops(p, pc, saved).0 && (pc.YRel? ==> Preemptible(saved))
    ensures Plain(x, pc, Drops(p, pc, saved).2)
  {
  }

  lemma CallSleep(k: Params, s: State, c: int, to: Pc)
    requires Good(k, s) && Enabled(k, s, Call(c, to)) && Shape(k, Apply(k, s, Call(c, to)))
    ensures SleepInv(k, Apply(k, s, Call(c, to)))
  {
    hide CpuInv, ProcInv, LockInv, ForkInv, ParentInv, ExitInv, PidInv, WakeInv, SideInv;
    assert Apply(k, s, Call(c, to)) == Goto(s, s.cproc[c], to);
    PlainSleep(k, s, c, to, s.holder);
  }

  lemma AcquireSleep(k: Params, s: State, c: int)
    requires Good(k, s) && Enabled(k, s, Acquire(c)) && Shape(k, Apply(k, s, Acquire(c)))
    ensures SleepInv(k, Apply(k, s, Acquire(c)))
  {
    hide CpuInv, ProcInv, LockInv, ForkInv, ParentInv, ExitInv, PidInv, WakeInv, SideInv;
    var p, pc := s.cproc[c], s.pc[s.cproc[c]];
    var (_, x, pc') := Wants(p, pc);
    WantsPlain(s.st[p], p, pc);
    PlainSleep(k, s, c, pc', s.holder[x := c]);
  }

  lemma ReleaseSleep(k: Params, s: State, c: int)
    requires Good(k, s) && Enabled(k, s, Release(c)) && Shape(k, Apply(k, s, Release(c)))
    ensures SleepInv(k, Apply(k, s, Release(c)))
  {
    hide CpuInv, ProcInv, ForkInv, ParentInv, ExitInv, PidInv, WakeInv, SideInv;
    Executing(k, s, c);
    var p, pc := s.cproc[c], s.pc[s.cproc[c]];
    var (_, x, pc') := Drops(p, pc, s.saved[p]);
    DropsPlain(s.st[p], p, pc, s.saved[p]);
    DropsLocks(p, pc, s.saved[p]);
    assert x in CpuLocks(s.csched, s.cproc, s.pc, c) && s.holder[x] == c;
    PlainSleep(k, s, c, pc', s.holder - {x});
  }

  lemma TakeLockSleep(k: Params, s: State, c: int)
    requires Good(k, s) && Enabled(k, s, TakeLock(c)) && Shape(k, Apply(k, s, TakeLock(c)))
    ensures SleepInv(k, Apply(k, s, TakeLock(c)))
  {
    hide CpuInv, ProcInv, LockInv, ForkInv, ParentInv, ExitInv, PidInv, WakeInv, SideInv;
    var p, pc := s.cproc[c], s.pc[s.cproc[c]];
    PlainSleep(k, s, c, AsRel(pc.l), s.holder);
    OwnerWake(k, s.st, s.pc[p := AsRel(pc.l)], s.owner, s.parent, s.holder, s.cproc, s.csched, pc.l, p);
  }

  /** releasesleep frees the lock and starts its wakeup loop. */
  lemma ClearWake(k: Params, s: State, c: int)
    requires Good(k, s) && Exec(k, s, c) && s.pc[s.cproc[c]].RsClear?
    ensures var p, l := s.cproc[c], s.pc[s.cproc[c]].l;
            WakeInv(k, s.st, s.pc[p := Wk(LockCh(l), 0, AfterRelease(l))], s.owner - {l}, s.parent, s.holder, s.cproc,
                s.csched)
  {
    hide ProcInv, ForkInv, ParentInv, ExitInv, PidInv, SideInv;
    var p, l := s.cproc[c], s.pc[s.cproc[c]].l;
    var pc' := Wk(LockCh(l), 0, AfterRelease(l));
    var pc2, owner2 := s.pc[p := pc'], s.owner - {l};
    assert S(l) in CpuLocks(s.csched, s.cproc, s.pc, c) && s.holder[S(l)] == c;
    forall q, w | 0 <= q < k.n && Waiting(s.st[q], pc2[q], w)
      ensures Calm(s.st, owner2, s.parent, q, w) || Pending(k, s.holder, s.cproc, s.csched, pc2, q, w)
    {
      assert Waiting(s.st[q], s.pc[q], w);
      if !Calm(s.st, s.owner, s.parent, q, w) {
        PendingKept(k, s.holder, s.cproc, s.csched, s.at, s.pc, c, pc', s.holder, q, w);
      }
    }
  }

  lemma ClearLockSleep(k: Params, s: State, c: int)
    requires Good(k, s) && Enabled(k, s, ClearLock(c)) && Shape(k, Apply(k, s, ClearLock(c)))
    ensures SleepInv(k, Apply(k, s, ClearLock(c)))
  {
    hide CpuInv, ProcInv, LockInv, ForkInv, ExitInv, PidInv, WakeInv, SideInv;
    var p, pc := s.cproc[c], s.pc[s.cproc[c]];
    ClearWake(k, s, c);
    PcSide(k, s.st, s.pc, s.parent, p, Wk(LockCh(pc.l), 0, AfterRelease(pc.l)));
  }

  /** A process in wakeup that holds the lock of proc[i] finds every sleeper on its channel really asleep there. */
  lemma AsleepThere(k: Params, s: State, c: int, i: int, w: Waiter)
    requires ControlInv(k, s) && Exec(k, s, c) && s.pc[s.cproc[c]].Wk? && s.pc[s.cproc[c]].ch == ChanOf(i, w)
    requires WkOk(k, s.pc[s.cproc[c]], s.parent[s.cproc[c]])
    requires 0 <= i < k.n && i != s.cproc[c] && P(i) !in s.holder && Waiting(s.st[i], s.pc[i], w)
    ensures s.st[i] == SLEEPING && s.chan[i] == ChanOf(i, w) && s.pc[i].SlWake?
  {
    var p := s.cproc[c];
    assert LkOf(w) in Locks(p, s.pc[p]);
    if s.pc[i].SlAcq? { Exclusive(k, s, p, i, LkOf(w)); }
    LockFree(k, s, i);
    assert ProcOk(s.st[i], s.chan[i], s.pc[i], s.saved[i], i, On(s.csched, s.at[i]));
  }

  /** Whoever waits on ch in proc[i] is asleep there. */
  ghost predicate Asleep(st: seq<PState>, chan: seq<Chan>, pc: seq<Pc>, ch: Chan, i: int)
    requires |st| == |chan| == |pc| && 0 <= i < |st|
  {
    forall w :: Waiting(st[i], pc[i], w) && ChanOf(i, w) == ch ==> st[i] == SLEEPING && chan[i] == ch && pc[i].SlWake?
  }

  function Woken(st: seq<PState>, chan: seq<Chan>, ch: Chan, i: int): seq<PState>
    requires |st| == |chan| && 0 <= i < |st|
  {
    if st[i] == SLEEPING && chan[i] == ch then st[i := RUNNABLE] else st
  }

  lemma WakeOneWake(k: Params, st: seq<PState>, chan: seq<Chan>, pc: seq<Pc>, owner: map<int, int>, parent: seq<int>,
                    holder: map<LockId, int>, cproc: seq<int>, csched: seq<bool>, at: seq<int>, c: int)
    requires |cproc| == |csched| == k.ncpu && |pc| == |st| == |chan| == |parent| == |at| == k.n
        && CpuInv(k, cproc, csched, at)
    requires WakeInv(k, st, pc, owner, parent, holder, cproc, csched)
    requires 0 <= c < k.ncpu && !csched[c] && 0 <= cproc[c] < k.n && pc[cproc[c]].Wk? && 0 <= pc[cproc[c]].i < k.n
    requires pc[cproc[c]].i != cproc[c] ==> Asleep(st, chan, pc, pc[cproc[c]].ch, pc[cproc[c]].i)
    requires pc[cproc[c]].i == cproc[c] ==> st[cproc[c]] == RUNNING
    ensures var p, a := cproc[c], pc[cproc[c]];
            WakeInv(k, Woken(st, chan, a.ch, a.i), pc[p := Wk(a.ch, a.i + 1, a.r)], owner, parent, holder, cproc,
                csched)
  {
    var p, a := cproc[c], pc[cproc[c]];
    var pc2, st2 := pc[p := Wk(a.ch, a.i + 1, a.r)], Woken(st, chan, a.ch, a.i);
    forall q, w | 0 <= q < k.n && Waiting(st2[q], pc2[q], w)
      ensures Calm(st2, owner, parent, q, w) || Pending(k, holder, cproc, csched, pc2, q, w)
    {
      assert Waiting(st[q], pc[q], w);
      if !Calm(st, owner, parent, q, w) {
        assert holder[LkOf(w)] != c ==> cproc[holder[LkOf(w)]] != p;
      }
    }
  }

  lemma WakeOneSide(k: Params, st: seq<PState>, chan: seq<Chan>, pc: seq<Pc>, parent: seq<int>, p: int)
    requires |pc| == |st| == |chan| == |parent| == k.n && SideInv(k, st, pc, parent)
    requires 0 <= p < k.n && parent[p] != p && pc[p].Wk? && 0 <= pc[p].i < k.n
    requires pc[p].i != p ==> Asleep(st, chan, pc, pc[p].ch, pc[p].i)
    ensures SideInv(k, Woken(st, chan, pc[p].ch, pc[p].i), pc[p := Wk(pc[p].ch, pc[p].i + 1, pc[p].r)], parent)
  {
    var a, par := pc[p], parent[p];
    if st[a.i] == SLEEPING { StSide(k, st, pc, parent, a.i, RUNNABLE); }
    assert WkOk(k, a, par) && ExitWoke(k, st, pc, par, a);
    assert par == a.i && Waiting(st[par], pc[par], OnChild) && a.r.AfterParent? ==>
        pc[par].SlWake? && ChanOf(par, OnChild) == a.ch;
    PcSide(k, Woken(st, chan, a.ch, a.i), pc, parent, p, Wk(a.ch, a.i + 1, a.r));
  }

  lemma RoundAsleep(k: Params, s: State, c: int)
    requires ControlInv(k, s) && Exec(k, s, c) && s.pc[s.cproc[c]].Wk? && 0 <= s.pc[s.cproc[c]].i < k.n
    requires WkOk(k, s.pc[s.cproc[c]], s.parent[s.cproc[c]])
    requires s.pc[s.cproc[c]].i != s.cproc[c] && P(s.pc[s.cproc[c]].i) !in s.holder
    ensures Asleep(s.st, s.chan, s.pc, s.pc[s.cproc[c]].ch, s.pc[s.cproc[c]].i)
  {
    hide CpuInv, ProcInv, LockInv, ForkInv;
    var p, a := s.cproc[c], s.pc[s.cproc[c]];
    forall w | Waiting(s.st[a.i], s.pc[a.i], w) && ChanOf(a.i, w) == a.ch
      ensures s.st[a.i] == SLEEPING && s.chan[a.i] == a.ch && s.pc[a.i].SlWake?
    {
      AsleepThere(k, s, c, a.i, w);
    }
  }

  /** One round of wakeup, also at the process's own slot, which it skips. */
  lemma RoundSleep(k: Params, s: State, c: int)
    requires Good(k, s) && Exec(k, s, c) && s.pc[s.cproc[c]].Wk? && 0 <= s.pc[s.cproc[c]].i < k.n
    requires s.pc[s.cproc[c]].i != s.cproc[c] ==> P(s.pc[s.cproc[c]].i) !in s.holder
    ensures var p, a := s.cproc[c], s.pc[s.cproc[c]];
            SleepAt(k, Woken(s.st, s.chan, a.ch, a.i), s.pc[p := Wk(a.ch, a.i + 1, a.r)], s.owner, s.parent,
                    s.holder, s.cproc, s.csched)
  {
    hide CpuInv, ProcInv, LockInv, ForkInv, ExitInv, PidInv, WakeInv;
    var p, a := s.cproc[c], s.pc[s.cproc[c]];
    Executing(k, s, c);
    assert WkOk(k, a, s.parent[p]);
    if a.i != p { RoundAsleep(k, s, c); }
    WakeOneWake(k, s.st, s.chan, s.pc, s.owner, s.parent, s.holder, s.cproc, s.csched, s.at, c);
    WakeOneSide(k, s.st, s.chan, s.pc, s.parent, p);
  }

  lemma WakeOneSleep(k: Params, s: State, c: int)
    requires Good(k, s) && Enabled(k, s, WakeOne(c)) && Shape(k, Apply(k, s, WakeOne(c)))
    ensures SleepInv(k, Apply(k, s, WakeOne(c)))
  {
    hide CpuInv, ProcInv, LockInv, ForkInv, ParentInv, ExitInv, PidInv, WakeInv, SideInv;
    var p, pc := s.cproc[c], s.pc[s.cproc[c]];
    RoundSleep(k, s, c);
    assert Apply(k, s, WakeOne(c)) == Wake(k, Goto(s, p, Wk(pc.ch, pc.i + 1, pc.r)), pc.ch, pc.i);
  }

  lemma GoToSleepSleep(k: Params, s: State, c: int)
    requires Good(k, s) && Enabled(k, s, GoToSleep(c)) && Shape(k, Apply(k, s, GoToSleep(c)))
    ensures SleepInv(k, Apply(k, s, GoToSleep(c)))
  {
    hide CpuInv, ProcInv, LockInv, ForkInv, ParentInv, ExitInv, PidInv, WakeInv, SideInv;
    var p, pc := s.cproc[c], s.pc[s.cproc[c]];
    var pc2 := s.pc[p := SlSched(pc.w)];
    PlainSleep(k, s, c, SlSched(pc.w), s.holder);
    StWake(k, s.st, pc2, s.owner, s.parent, s.holder, s.cproc, s.csched, p, SLEEPING);
    StSide(k, s.st, pc2, s.parent, p, SLEEPING);
  }

  lemma SwtchSleep(k: Params, s: State, c: int)
    requires Good(k, s) && Enabled(k, s, Swtch(c)) && Shape(k, Apply(k, s, Swtch(c)))
    ensures SleepInv(k, Apply(k, s, Swtch(c)))
  {
    hide CpuInv, ProcInv, LockInv, ForkInv, ParentInv, ExitInv, PidInv, WakeInv, SideInv;
    Executing(k, s, c);
    var p, pc := s.cproc[c], s.pc[s.cproc[c]];
    var pc' := if pc.SlSched? then SlWake(pc.w) else if pc.YSched? then YRel else Dead;
    PlainSleep(k, s, c, pc', s.holder);
    assert s.cproc[c := p] == s.cproc;
    SchedWake(k, s.st, s.pc[p := pc'], s.owner, s.parent, s.holder, s.cproc, s.csched, c, p, true, s.holder);
  }

  lemma ResumedSleep(k: Params, s: State, c: int)
    requires Good(k, s) && Enabled(k, s, Resumed(c)) && Shape(k, Apply(k, s, Resumed(c)))
    ensures SleepInv(k, Apply(k, s, Resumed(c)))
  {
    hide CpuInv, ProcInv, LockInv, ForkInv, ParentInv, ExitInv, PidInv, WakeInv, SideInv;
    var p, pc := s.cproc[c], s.pc[s.cproc[c]];
    PlainSleep(k, s, c, SlUnlock(pc.w), s.holder);
  }

  /** freeproc of a process on no CPU that is no zombie's parent. */
  lemma FreeSleep(k: Params, s: State, pc: seq<Pc>, holder: map<LockId, int>, j: int)
    requires Good(k, s) && |pc| == k.n && 0 <= j < k.n && s.at[j] == -1
    requires SleepAt(k, s.st, pc, s.owner, s.parent, holder, s.cproc, s.csched)
    ensures SleepAt(k, s.st[j := UNUSED], pc[j := NoThread], s.owner, s.parent[j := -1], holder, s.cproc, s.csched)
  {
    hide CpuInv, ProcInv, LockInv, ForkInv, ExitInv, PidInv, WakeInv, SideInv;
    OffWake(k, s.st, pc, s.owner, s.parent, holder, s.cproc, s.csched, s.at, j, NoThread);
    PcSide(k, s.st, pc, s.parent, j, NoThread);
    var pc2 := pc[j := NoThread];
    StWake(k, s.st, pc2, s.owner, s.parent, holder, s.cproc, s.csched, j, UNUSED);
    StSide(k, s.st, pc2, s.parent, j, UNUSED);
    ParentWake(k, s.st[j := UNUSED], pc2, s.owner, s.parent, holder, s.cproc, s.csched, j, -1);
    ParentSide(k, s.st[j := UNUSED], pc2, s.parent, j, -1);
  }

  lemma ReapSleep(k: Params, s: State, c: int)
    requires Good(k, s) && Enabled(k, s, Reap(c)) && Shape(k, Apply(k, s, Reap(c)))
    ensures SleepInv(k, Apply(k, s, Reap(c)))
  {
    hide CpuInv, ProcInv, LockInv, ForkInv, ParentInv, ExitInv, PidInv, WakeInv, SideInv;
    var p, pc := s.cproc[c], s.pc[s.cproc[c]];
    LockFree(k, s, pc.j);
    PlainSleep(k, s, c, WtRel, s.holder);
    FreeSleep(k, s, s.pc[p := WtRel], s.holder, pc.j);
    assert s.pc[p := WtRel][pc.j := NoThread] == s.pc[pc.j := NoThread][p := WtRel];
  }

  lemma ReapFailedSleep(k: Params, s: State, c: int)
    requires Good(k, s) && Enabled(k, s, ReapFailed(c)) && Shape(k, Apply(k, s, ReapFailed(c)))
    ensures SleepInv(k, Apply(k, s, ReapFailed(c)))
  {
    hide CpuInv, ProcInv, LockInv, ForkInv, ParentInv, ExitInv, PidInv, WakeInv, SideInv;
    var p, pc := s.cproc[c], s.pc[s.cproc[c]];
    PlainSleep(k, s, c, WtRel, s.holder);
  }

  lemma AdoptWake(k: Params, s: State, c: int)
    requires Good(k, s) && Enabled(k, s, Adopt(c))
    ensures var p, j := s.cproc[c], s.pc[s.cproc[c]].j;
            WakeInv(k, s.st, s.pc[p := Wk(ProcCh(k.init), 0, AfterReparent(j + 1))], s.owner, s.parent[j := k.init],
                    s.holder, s.cproc, s.csched)
  {
    hide ProcInv, ForkInv, ParentInv, PidInv, SideInv;
    var p, j := s.cproc[c], s.pc[s.cproc[c]].j;
    var pc' := Wk(ProcCh(k.init), 0, AfterReparent(j + 1));
    var pc2, parent2 := s.pc[p := pc'], s.parent[j := k.init];
    assert W in CpuLocks(s.csched, s.cproc, s.pc, c) && s.holder[W] == c;
    assert Exiting(Cur(s.pc[p], s.saved[p]));
    forall q, w | 0 <= q < k.n && Waiting(s.st[q], pc2[q], w)
      ensures Calm(s.st, s.owner, parent2, q, w) || Pending(k, s.holder, s.cproc, s.csched, pc2, q, w)
    {
      assert Waiting(s.st[q], s.pc[q], w);
      if !Calm(s.st, s.owner, s.parent, q, w) {
        PendingKept(k, s.holder, s.cproc, s.csched, s.at, s.pc, c, pc', s.holder, q, w);
      }
    }
  }

  lemma AdoptSleep(k: Params, s: State, c: int)
    requires Good(k, s) && Enabled(k, s, Adopt(c)) && Shape(k, Apply(k, s, Adopt(c)))
    ensures SleepInv(k, Apply(k, s, Adopt(c)))
  {
    hide CpuInv, ProcInv, LockInv, ForkInv, ExitInv, PidInv, WakeInv, SideInv;
    var p, pc := s.cproc[c], s.pc[s.cproc[c]];
    var pc' := Wk(ProcCh(k.init), 0, AfterReparent(pc.j + 1));
    AdoptWake(k, s, c);
    OnlyMe(k, s, p);
    PcSide(k, s.st, s.pc, s.parent, p, pc');
    ParentSide(k, s.st, s.pc[p := pc'], s.parent, pc.j, k.init);
  }

  lemma BecomeZombieSleep(k: Params, s: State, c: int)
    requires Good(k, s) && Enabled(k, s, BecomeZombie(c)) && Shape(k, Apply(k, s, BecomeZombie(c)))
    ensures SleepInv(k, Apply(k, s, BecomeZombie(c)))
  {
    hide CpuInv, ProcInv, LockInv, ForkInv, ExitInv, PidInv, WakeInv;
    var p, pc := s.cproc[c], s.pc[s.cproc[c]];
    var pc2 := s.pc[p := ExRelWait];
    PlainSleep(k, s, c, ExRelWait, s.holder);
    OnlyMe(k, s, p);
    assert ExitWoke(k, s.st, s.pc, s.parent[p], pc);
    ZombieWake(k, s.st, pc2, s.owner, s.parent, s.holder, s.cproc, s.csched, p);
    StSide(k, s.st, pc2, s.parent, p, ZOMBIE);
  }

  lemma PreemptSleep(k: Params, s: State, c: int)
    requires Good(k, s) && Enabled(k, s, Preempt(c)) && Shape(k, Apply(k, s, Preempt(c)))
    ensures SleepInv(k, Apply(k, s, Preempt(c)))
  {
    hide CpuInv, ProcInv, LockInv, ForkInv, ParentInv, ExitInv, PidInv, WakeInv, SideInv;
    var p, pc := s.cproc[c], s.pc[s.cproc[c]];
    PlainSleep(k, s, c, YSched, s.holder[P(p) := c]);
    var pc2, holder2 := s.pc[p := YSched], s.holder[P(p) := c];
    StWake(k, s.st, pc2, s.owner, s.parent, holder2, s.cproc, s.csched, p, RUNNABLE);
    StSide(k, s.st, pc2, s.parent, p, RUNNABLE);
  }

  lemma AllocFailedSleep(k: Params, s: State, c: int)
    requires Good(k, s) && Enabled(k, s, AllocFailed(c)) && Shape(k, Apply(k, s, AllocFailed(c)))
    ensures SleepInv(k, Apply(k, s, AllocFailed(c)))
  {
    hide CpuInv, ProcInv, LockInv, ForkInv, ParentInv, ExitInv, PidInv, WakeInv, SideInv;
    var p, pc := s.cproc[c], s.pc[s.cproc[c]];
    PlainSleep(k, s, c, Run, s.holder);
  }

  lemma ForkFailedSleep(k: Params, s: State, c: int)
    requires Good(k, s) && Enabled(k, s, ForkFailed(c)) && Shape(k, Apply(k, s, ForkFailed(c)))
    ensures SleepInv(k, Apply(k, s, ForkFailed(c)))
  {
    hide CpuInv, ProcInv, ForkInv, ParentInv, ExitInv, PidInv, WakeInv, SideInv;
    var p, pc := s.cproc[c], s.pc[s.cproc[c]];
    ForkSlot(k, s, c);
    assert P(pc.j) in CpuLocks(s.csched, s.cproc, s.pc, c) && s.holder[P(pc.j)] == c;
    PlainSleep(k, s, c, Run, s.holder - {P(pc.j)});
    FreeSleep(k, s, s.pc[p := Run], s.holder - {P(pc.j)}, pc.j);
    assert s.pc[p := Run][pc.j := NoThread] == s.pc[pc.j := NoThread][p := Run];
  }

  lemma HoldsSlot(k: Params, s: State, c: int)
    requires ControlInv(k, s) && Exec(k, s, c) && s.pc[s.cproc[c]].FkHold?
    ensures P(s.pc[s.cproc[c]].j) in s.holder && s.holder[P(s.pc[s.cproc[c]].j)] == c
  {
    hide CpuInv, ProcInv, ForkInv;
    assert P(s.pc[s.cproc[c]].j) in CpuLocks(s.csched, s.cproc, s.pc, c);
  }

  lemma ForkCopiedSleep(k: Params, s: State, c: int)
    requires Good(k, s) && Enabled(k, s, ForkCopied(c)) && Shape(k, Apply(k, s, ForkCopied(c)))
    ensures SleepInv(k, Apply(k, s, ForkCopied(c)))
  {
    hide CpuInv, ProcInv, ForkInv, ExitInv, PidInv, WakeInv, SideInv, LockInv;
    var p, pc := s.cproc[c], s.pc[s.cproc[c]];
    ForkSlot(k, s, c);
    var pc2, holder2 := s.pc[p := FkParent(pc.j)], s.holder - {P(pc.j)};
    HoldsSlot(k, s, c);
    PlainSleep(k, s, c, FkParent(pc.j), holder2);
    OffWake(k, s.st, pc2, s.owner, s.parent, holder2, s.cproc, s.csched, s.at, pc.j, FkRet);
    PcSide(k, s.st, pc2, s.parent, pc.j, FkRet);
    assert pc2[pc.j := FkRet] == s.pc[pc.j := FkRet][p := FkParent(pc.j)];
  }

  lemma NoScan(k: Params, s: State)
    requires ControlInv(k, s) && W !in s.holder
    ensures forall q :: 0 <= q < k.n ==> !s.pc[q].WtScan?
  {
    forall q | 0 <= q < k.n ensures !s.pc[q].WtScan? {
      if s.pc[q].WtScan? { HoldsOn(k, s, q, W); }
    }
  }

  lemma SetParentSleep(k: Params, s: State, c: int)
    requires Good(k, s) && Enabled(k, s, SetParent(c)) && Shape(k, Apply(k, s, SetParent(c)))
    ensures SleepInv(k, Apply(k, s, SetParent(c)))
  {
    hide CpuInv, ProcInv, LockInv, ForkInv, ExitInv, PidInv, WakeInv, SideInv;
    var p, pc := s.cproc[c], s.pc[s.cproc[c]];
    ForkSlot(k, s, c);
    var pc2 := s.pc[p := FkReady(pc.j)];
    PlainSleep(k, s, c, FkReady(pc.j), s.holder);
    NoScan(k, s);
    ParentWake(k, s.st, pc2, s.owner, s.parent, s.holder, s.cproc, s.csched, pc.j, p);
    ParentSide(k, s.st, pc2, s.parent, pc.j, p);
  }

  lemma MakeReadySleep(k: Params, s: State, c: int)
    requires Good(k, s) && Enabled(k, s, MakeReady(c)) && Shape(k, Apply(k, s, MakeReady(c)))
    ensures SleepInv(k, Apply(k, s, MakeReady(c)))
  {
    hide CpuInv, ProcInv, LockInv, ForkInv, ParentInv, ExitInv, PidInv, WakeInv, SideInv;
    var p, pc := s.cproc[c], s.pc[s.cproc[c]];
    PlainSleep(k, s, c, Run, s.holder);
    StWake(k, s.st, s.pc[p := Run], s.owner, s.parent, s.holder, s.cproc, s.csched, pc.j, RUNNABLE);
    StSide(k, s.st, s.pc[p := Run], s.parent, pc.j, RUNNABLE);
  }

  lemma BackSleep(k: Params, s: State, c: int)
    requires Good(k, s) && Enabled(k, s, Back(c)) && Shape(k, Apply(k, s, Back(c)))
    ensures SleepInv(k, Apply(k, s, Back(c)))
  {
    hide CpuInv, ProcInv, LockInv, ForkInv, ParentInv, ExitInv, PidInv, WakeInv, SideInv;
    SchedWake(k, s.st, s.pc, s.owner, s.parent, s.holder, s.cproc, s.csched, c, -1, true, s.holder - {P(s.cproc[c])});
    assert s.csched[c := true] == s.csched;
  }

  lemma AllocSleep(k: Params, s: State, c: int, j: int)
    requires Good(k, s) && Enabled(k, s, Alloc(c, j)) && Shape(k, Apply(k, s, Alloc(c, j)))
    ensures SleepInv(k, Apply(k, s, Alloc(c, j)))
  {
    hide CpuInv, ProcInv, LockInv, ForkInv, ParentInv, ExitInv, PidInv, WakeInv, SideInv;
    var p, pc := s.cproc[c], s.pc[s.cproc[c]];
    var pc2, holder2 := s.pc[p := FkHold(j)], s.holder[P(j) := c];
    PlainSleep(k, s, c, FkHold(j), holder2);
    StWake(k, s.st, pc2, s.owner, s.parent, holder2, s.cproc, s.csched, j, USED);
    StSide(k, s.st, pc2, s.parent, j, USED);
  }

  lemma KillSleep(k: Params, s: State, c: int, j: int)
    requires Good(k, s) && Enabled(k, s, Kill(c, j)) && Shape(k, Apply(k, s, Kill(c, j)))
    ensures SleepInv(k, Apply(k, s, Kill(c, j)))
  {
    hide CpuInv, ProcInv, LockInv, ForkInv, ParentInv, ExitInv, PidInv, WakeInv, SideInv;
    StWake(k, s.st, s.pc, s.owner, s.parent, s.holder, s.cproc, s.csched, j, RUNNABLE);
    StSide(k, s.st, s.pc, s.parent, j, RUNNABLE);
  }

  lemma DispatchSleep(k: Params, s: State, c: int, j: int)
    requires Good(k, s) && Enabled(k, s, Dispatch(c, j)) && Shape(k, Apply(k, s, Dispatch(c, j)))
    ensures SleepInv(k, Apply(k, s, Dispatch(c, j)))
  {
    hide CpuInv, ProcInv, LockInv, ForkInv, ParentInv, ExitInv, PidInv, WakeInv, SideInv;
    StWake(k, s.st, s.pc, s.owner, s.parent, s.holder, s.cproc, s.csched, j, RUNNING);
    StSide(k, s.st, s.pc, s.parent, j, RUNNING);
    SchedWake(k, s.st[j := RUNNING], s.pc, s.owner, s.parent, s.holder, s.cproc, s.csched, c, j, false,
        s.holder[P(j) := c]);
  }

  /** The end of a wakeup loop. */
  lemma WakeupEnds(k: Params, s: State, c: int)
    requires Good(k, s) && Enabled(k, s, Move(c)) && s.pc[s.cproc[c]].Wk? && s.pc[s.cproc[c]].i >= k.n
    ensures SleepAt(k, s.st, s.pc[s.cproc[c] := Moved(k, s, s.cproc[c]).1], s.owner, s.parent, s.holder, s.cproc,
        s.csched)
  {
    hide CpuInv, ProcInv, LockInv, ForkInv, ExitInv, PidInv, WakeInv;
    var p, pc, pc' := s.cproc[c], s.pc[s.cproc[c]], Moved(k, s, s.cproc[c]).1;
    assert WkOk(k, pc, s.parent[p]) && ExitWoke(k, s.st, s.pc, s.parent[p], pc);
    GotoWake(k, s.st, s.pc, s.owner, s.parent, s.holder, s.cproc, s.csched, s.at, c, pc', s.holder);
    PcSide(k, s.st, s.pc, s.parent, p, pc');
  }

  /** A step, or the end, of wait's scan: a parent that goes to sleep has no zombie child. */
  lemma ScanMoves(k: Params, s: State, c: int)
    requires Good(k, s) && Enabled(k, s, Move(c)) && s.pc[s.cproc[c]].WtScan?
    ensures SleepAt(k, s.st, s.pc[s.cproc[c] := Moved(k, s, s.cproc[c]).1], s.owner, s.parent, s.holder, s.cproc,
        s.csched)
  {
    hide CpuInv, ProcInv, LockInv, ForkInv, ExitInv, PidInv, WakeInv;
    var p, pc, pc' := s.cproc[c], s.pc[s.cproc[c]], Moved(k, s, s.cproc[c]).1;
    OnlyMe(k, s, p);
    assert ScanOk(k, s.st, s.parent, p, pc);
    GotoWake(k, s.st, s.pc, s.owner, s.parent, s.holder, s.cproc, s.csched, s.at, c, pc', s.holder);
    PcSide(k, s.st, s.pc, s.parent, p, pc');
  }

  /** A step, or the end, of exit's reparent loop: the exiting process has a parent to wake. */
  lemma ReparentMoves(k: Params, s: State, c: int)
    requires Good(k, s) && Enabled(k, s, Move(c)) && s.pc[s.cproc[c]].ExReparent?
    ensures SleepAt(k, s.st, s.pc[s.cproc[c] := Moved(k, s, s.cproc[c]).1], s.owner, s.parent, s.holder, s.cproc,
        s.csched)
  {
    hide CpuInv, ProcInv, LockInv, ForkInv, PidInv, WakeInv, SideInv;
    Executing(k, s, c);
    var p, pc, pc' := s.cproc[c], s.pc[s.cproc[c]], Moved(k, s, s.cproc[c]).1;
    assert Started(s.st[p]) && Exiting(Cur(pc, s.saved[p]));
    GotoWake(k, s.st, s.pc, s.owner, s.parent, s.holder, s.cproc, s.csched, s.at, c, pc', s.holder);
    PcSide(k, s.st, s.pc, s.parent, p, pc');
  }

  lemma MoveSleep(k: Params, s: State, c: int)
    requires Good(k, s) && Enabled(k, s, Move(c)) && Shape(k, Apply(k, s, Move(c)))
    ensures SleepInv(k, Apply(k, s, Move(c)))
  {
    hide CpuInv, ProcInv, LockInv, ForkInv, ExitInv, PidInv, WakeInv, SideInv;
    var p, pc := s.cproc[c], s.pc[s.cproc[c]];
    if pc.AsTest? {
      GotoWake(k, s.st, s.pc, s.owner, s.parent, s.holder, s.cproc, s.csched, s.at, c, SlAcq(OnLock(pc.l)), s.holder);
      PcSide(k, s.st, s.pc, s.parent, p, SlAcq(OnLock(pc.l)));
    } else if pc.Wk? && pc.i < k.n {
      Executing(k, s, c);
      RoundSleep(k, s, c);
    } else if pc.Wk? {
      WakeupEnds(k, s, c);
    } else if pc.WtScan? {
      ScanMoves(k, s, c);
    } else {
      ReparentMoves(k, s, c);
    }
  }
}

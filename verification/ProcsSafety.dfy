/**
  What holds in every reachable state of the process machine: sched's and acquire's panics
  never fire, spinlocks never deadlock, sleep-locks exclude, no wakeup is lost, and every
  exited process is reaped at most once, by its parent, off its kernel stack.
 */
module ProcsSafety {
  import opened Procs
  import opened ProcsFamily
  import opened ProcsWakeup

  // ----- sleep-lock ownership -----

  /** releasesleep(l) is called by the owner; once it has cleared the lock, nobody owns it while lk->lk is held. */
  predicate OwnOk(owner: map<int, int>, q: int, cur: Pc) {
    && (cur.RsAcq? || cur.RsClear? ==> cur.l in owner && owner[cur.l] == q)
    && (cur.RsRel? ==> cur.l !in owner)
    && (cur.Wk? && cur.r.AfterRelease? ==> cur.r.l !in owner)
  }

  ghost predicate OwnInv(k: Params, pc: seq<Pc>, saved: seq<Pc>, owner: map<int, int>)
    requires |pc| == |saved| == k.n
  {
    forall q :: 0 <= q < k.n ==> OwnOk(owner, q, Cur(pc[q], saved[q]))
  }

  ghost predicate Inv(k: Params, s: State) { Good(k, s) && OwnInv(k, s.pc, s.saved, s.owner) }

  lemma WantsOwn(p: int, pc: Pc, saved: Pc, owner: map<int, int>)
    requires Wants(p, pc).0 && OwnOk(owner, p, Cur(pc, saved))
    ensures OwnOk(owner, p, Cur(Wants(p, pc).2, saved))
  {
  }

  lemma DropsOwn(p: int, pc: Pc, saved: Pc, owner: map<int, int>)
    requires Drops(p, pc, saved).0 && (pc.YRel? ==> Preemptible(saved)) && OwnOk(owner, p, Cur(pc, saved))
    ensures OwnOk(owner, p, Cur(Drops(p, pc, saved).2, saved))
  {
  }

  lemma MovedOwn(k: Params, s: State, p: int)
    requires Shape(k, s) && 0 <= p < k.n && Moved(k, s, p).0 && OwnOk(s.owner, p, Cur(s.pc[p], s.saved[p]))
    ensures OwnOk(s.owner, p, Cur(Moved(k, s, p).1, s.saved[p]))
  {
  }

  lemma TakeOwn(k: Params, s: State, c: int)
    requires Inv(k, s) && Enabled(k, s, TakeLock(c))
    ensures var p, l := s.cproc[c], s.pc[s.cproc[c]].l; OwnInv(k, s.pc[p := AsRel(l)], s.saved, s.owner[l := p])
  {
    hide CpuInv, LockInv, ForkInv, WakeInv, SideInv, ParentInv, ExitInv, PidInv;
    var p, l := s.cproc[c], s.pc[s.cproc[c]].l;
    var pc2, owner2 := s.pc[p := AsRel(l)], s.owner[l := p];
    forall q | 0 <= q < k.n ensures OwnOk(owner2, q, Cur(pc2[q], s.saved[q])) {
      assert OwnOk(s.owner, q, Cur(s.pc[q], s.saved[q]));
      assert ProcOk(s.st[q], s.chan[q], s.pc[q], s.saved[q], q, On(s.csched, s.at[q]));
      if q != p && S(l) in Locks(q, s.pc[q]) { Exclusive(k, s, p, q, S(l)); }
    }
  }

  lemma ClearOwn(k: Params, s: State, c: int)
    requires Inv(k, s) && Enabled(k, s, ClearLock(c))
    ensures var p, l := s.cproc[c], s.pc[s.cproc[c]].l;
            l in s.owner && s.owner[l] == p
                && OwnInv(k, s.pc[p := Wk(LockCh(l), 0, AfterRelease(l))], s.saved, s.owner - {l})
  {
    hide CpuInv, ProcInv, LockInv, ForkInv, WakeInv, SideInv, ParentInv, ExitInv, PidInv;
    var p, l := s.cproc[c], s.pc[s.cproc[c]].l;
    assert OwnOk(s.owner, p, Cur(s.pc[p], s.saved[p]));
  }

  lemma StepOwn(k: Params, s: State, step: Step)
    requires Inv(k, s) && Enabled(k, s, step) && Shape(k, Apply(k, s, step))
    ensures var t := Apply(k, s, step); OwnInv(k, t.pc, t.saved, t.owner)
  {
    hide CpuInv, ProcInv, LockInv, ForkInv, WakeInv, SideInv, ParentInv, ExitInv, PidInv;
    if !step.Dispatch? && !step.Back? {
      var c, p := step.c, s.cproc[step.c];
      Executing(k, s, c);
      assert OwnOk(s.owner, p, Cur(s.pc[p], s.saved[p]));
      match step
      case Acquire(_) => WantsOwn(p, s.pc[p], s.saved[p], s.owner);
      case Release(_) => DropsOwn(p, s.pc[p], s.saved[p], s.owner);
      case Move(_) => MovedOwn(k, s, p);
      case TakeLock(_) => TakeOwn(k, s, c);
      case ClearLock(_) => ClearOwn(k, s, c);
      case _ =>
    }
  }

  // ----- every step keeps the invariant -----

  lemma LockStepGood(k: Params, s: State, step: Step)
    requires Good(k, s) && Enabled(k, s, step)
    requires step.Call? || step.Acquire? || step.Release? || step.Move? || step.TakeLock? || step.ClearLock?
        || step.WakeOne? || step.GoToSleep?
    ensures Good(k, Apply(k, s, step))
  {
    hide CpuInv, ProcInv, LockInv, ForkInv, WakeInv, SideInv, ParentInv, ExitInv, PidInv, Can, ProcStep, SleepAt;
    match step
    case Call(c, to) => CallControl(k, s, c, to); CallFamily(k, s, c, to); CallSleep(k, s, c, to);
    case Acquire(c) => AcquireControl(k, s, c); AcquireFamily(k, s, c); AcquireSleep(k, s, c);
    case Release(c) => ReleaseControl(k, s, c); ReleaseFamily(k, s, c); ReleaseSleep(k, s, c);
    case Move(c) => MoveControl(k, s, c); MoveFamily(k, s, c); MoveSleep(k, s, c);
    case TakeLock(c) => TakeLockControl(k, s, c); TakeLockFamily(k, s, c); TakeLockSleep(k, s, c);
    case ClearLock(c) => ClearLockControl(k, s, c); ClearLockFamily(k, s, c); ClearLockSleep(k, s, c);
    case WakeOne(c) => WakeOneControl(k, s, c); WakeOneFamily(k, s, c); WakeOneSleep(k, s, c);
    case GoToSleep(c) => GoToSleepControl(k, s, c); GoToSleepFamily(k, s, c); GoToSleepSleep(k, s, c);
  }

  lemma ExitStepGood(k: Params, s: State, step: Step)
    requires Good(k, s) && Enabled(k, s, step)
    requires step.Swtch? || step.Resumed? || step.Reap? || step.ReapFailed? || step.Adopt? || step.BecomeZombie?
        || step.Preempt? || step.Alloc?
    ensures Good(k, Apply(k, s, step))
  {
    hide CpuInv, ProcInv, LockInv, ForkInv, WakeInv, SideInv, ParentInv, ExitInv, PidInv, Can, ProcStep, SleepAt;
    match step
    case Swtch(c) => SwtchControl(k, s, c); SwtchFamily(k, s, c); SwtchSleep(k, s, c);
    case Resumed(c) => ResumedControl(k, s, c); ResumedFamily(k, s, c); ResumedSleep(k, s, c);
    case Reap(c) => ReapControl(k, s, c); ReapFamily(k, s, c); ReapSleep(k, s, c);
    case ReapFailed(c) => ReapFailedControl(k, s, c); ReapFailedFamily(k, s, c); ReapFailedSleep(k, s, c);
    case Adopt(c) => AdoptControl(k, s, c); AdoptFamily(k, s, c); AdoptSleep(k, s, c);
    case BecomeZombie(c) => BecomeZombieControl(k, s, c); BecomeZombieFamily(k, s, c); BecomeZombieSleep(k, s, c);
    case Preempt(c) => PreemptControl(k, s, c); PreemptFamily(k, s, c); PreemptSleep(k, s, c);
    case Alloc(c, j) => AllocControl(k, s, c, j); AllocFamily(k, s, c, j); AllocSleep(k, s, c, j);
  }

  /** The slot a fork step works on is the forking process's own. */
  lemma ForkStepSlot(k: Params, s: State, step: Step)
    requires ControlInv(k, s) && Enabled(k, s, step)
    requires step.ForkFailed? || step.ForkCopied? || step.SetParent? || step.MakeReady?
    ensures var p := s.cproc[step.c];
            0 <= s.pc[p].j < k.n && s.pc[p].j != p && s.st[s.pc[p].j] == USED
            && (step.MakeReady? ==> s.parent[s.pc[p].j] >= 0)
  {
    hide CpuInv, ProcInv, LockInv;
    ForkSlot(k, s, step.c);
    var p, j := s.cproc[step.c], s.pc[s.cproc[step.c]].j;
    assert Forks(Cur(s.pc[p], s.saved[p]), p, j, s.st[j], s.pc[j], s.parent[j], s.forker[j]);
  }

  lemma ForkStepGood(k: Params, s: State, step: Step)
    requires Good(k, s) && Enabled(k, s, step)
    requires step.AllocFailed? || step.ForkFailed? || step.ForkCopied? || step.SetParent? || step.MakeReady?
        || step.Kill? || step.Dispatch? || step.Back?
    ensures Good(k, Apply(k, s, step))
  {
    hide CpuInv, ProcInv, LockInv, ForkInv, WakeInv, SideInv, ParentInv, ExitInv, PidInv, Can, ProcStep, SleepAt;
    match step
    case AllocFailed(c) => AllocFailedControl(k, s, c); AllocFailedFamily(k, s, c); AllocFailedSleep(k, s, c);
    case ForkFailed(c) => ForkStepSlot(k, s, step); ForkFailedControl(k, s, c); ForkFailedFamily(k, s, c);
        ForkFailedSleep(k, s, c);
    case ForkCopied(c) => ForkStepSlot(k, s, step); ForkCopiedControl(k, s, c); ForkCopiedFamily(k, s, c);
        ForkCopiedSleep(k, s, c);
    case SetParent(c) => ForkStepSlot(k, s, step); SetParentControl(k, s, c); SetParentFamily(k, s, c);
        SetParentSleep(k, s, c);
    case MakeReady(c) => ForkStepSlot(k, s, step); MakeReadyControl(k, s, c); MakeReadyFamily(k, s, c);
        MakeReadySleep(k, s, c);
    case Kill(c, j) => KillControl(k, s, c, j); KillFamily(k, s, c, j); KillSleep(k, s, c, j);
    case Dispatch(c, j) => DispatchControl(k, s, c, j); DispatchFamily(k, s, c, j); DispatchSleep(k, s, c, j);
    case Back(c) => BackControl(k, s, c); BackFamily(k, s, c); BackSleep(k, s, c);
  }

  lemma StepInv(k: Params, s: State, step: Step)
    requires Inv(k, s) && Enabled(k, s, step)
    ensures Inv(k, Apply(k, s, step))
  {
    hide CpuInv, ProcInv, LockInv, ForkInv, WakeInv, SideInv, ParentInv, ExitInv, PidInv, Can, ProcStep, OwnInv,
        SleepAt;
    if step.Call? || step.Acquire? || step.Release? || step.Move? || step.TakeLock? || step.ClearLock? || step.WakeOne?
        || step.GoToSleep? {
      LockStepGood(k, s, step);
    } else if step.Swtch? || step.Resumed? || step.Reap? || step.ReapFailed? || step.Adopt? || step.BecomeZombie?
        || step.Preempt? || step.Alloc? {
      ExitStepGood(k, s, step);
    } else {
      ForkStepGood(k, s, step);
    }
    StepOwn(k, s, step);
  }

  // ----- runs -----

  function Fill<T>(n: int, x: T): seq<T>
    requires n >= 0
  {
    seq(n, _ => x)
  }

  /** After main() and userinit(): initproc is RUNNABLE with pid 1, every CPU in its scheduler. */
  function Init(k: Params): State
    requires ValidParams(k)
  {
    State(Fill(k.n, UNUSED)[k.init := RUNNABLE], Fill(k.n, NoChan), Fill(k.n, false), Fill(k.n, 0)[k.init := 1],
        Fill(k.n, -1),
          Fill(k.n, NoThread)[k.init := FkRet], Fill(k.n, Run), Fill(k.ncpu, -1), Fill(k.ncpu, true), map[], map[],
          Fill(k.n, -1), Fill(k.n, -1), Hist(2, map[1 := k.init], {}, []))
  }

  ghost predicate Next(k: Params, s: State, step: Step, s': State) {
    Shape(k, s) && Enabled(k, s, step) && s' == Apply(k, s, step)
  }

  ghost predicate IsRun(k: Params, states: seq<State>, steps: seq<Step>) {
    && ValidParams(k) && |states| == |steps| + 1 && states[0] == Init(k)
    && forall i {:trigger steps[i]} :: 0 <= i < |steps| ==> Next(k, states[i], steps[i], states[i + 1])
  }

  lemma InitControl(k: Params)
    requires ValidParams(k)
    ensures ControlInv(k, Init(k))
  {
  }

  lemma InitFamily(k: Params)
    requires ValidParams(k)
    ensures FamilyInv(k, Init(k))
  {
    assert Alive(Init(k).st[k.init]);
  }

  lemma InitSleep(k: Params)
    requires ValidParams(k)
    ensures SleepInv(k, Init(k)) && OwnInv(k, Init(k).pc, Init(k).saved, Init(k).owner)
  {
  }

  lemma InitInv(k: Params)
    requires ValidParams(k)
    ensures Inv(k, Init(k))
  {
    hide ControlInv, FamilyInv, SleepAt, OwnInv;
    InitControl(k);
    InitFamily(k);
    InitSleep(k);
  }

  lemma {:induction false} RunInv(k: Params, states: seq<State>, steps: seq<Step>, i: nat)
    requires IsRun(k, states, steps) && i < |states|
    ensures Inv(k, states[i])
  {
    hide Inv, Apply;
    if i == 0 {
      InitInv(k);
    } else {
      RunInv(k, states, steps, i - 1);
      StepInv(k, states[i - 1], steps[i - 1]);
    }
  }

  ghost predicate Reachable(k: Params, s: State) {
    exists states, steps :: IsRun(k, states, steps) && states[|states| - 1] == s
  }

  lemma ReachInv(k: Params, s: State)
    requires Reachable(k, s)
    ensures Inv(k, s)
  {
    hide Inv;
    var states, steps :| IsRun(k, states, steps) && states[|states| - 1] == s;
    RunInv(k, states, steps, |states| - 1);
  }

  // ----- spinlocks and the scheduler -----

  /** No process is on two CPUs. */
  lemma OneCpu(k: Params, s: State, c: int, d: int)
    requires Reachable(k, s) && Shape(k, s) && 0 <= c < k.ncpu && 0 <= d < k.ncpu && s.cproc[c] == s.cproc[d] >= 0
    ensures c == d
  {
    hide ProcInv, LockInv, ForkInv, WakeInv, SideInv, ParentInv, ExitInv, PidInv, OwnInv;
    ReachInv(k, s);
  }

  /** sched() never panics: it is entered with p->lock, and only p->lock, held by this CPU, and the state changed. */
  lemma SchedChecks(k: Params, s: State, c: int)
    requires Reachable(k, s) && Shape(k, s) && Enabled(k, s, Swtch(c))
    ensures var p := s.cproc[c];
            && s.st[p] != RUNNING
            && (forall x :: x in s.holder && s.holder[x] == c <==> x == P(p))
  {
    hide ForkInv, WakeInv, SideInv, ParentInv, ExitInv, PidInv, OwnInv;
    ReachInv(k, s);
    Executing(k, s, c);
    var p := s.cproc[c];
    assert CpuLocks(s.csched, s.cproc, s.pc, c) == {P(p)};
  }

  /** acquire() never finds the lock already held by this CPU, and release() always does. */
  lemma SpinChecks(k: Params, s: State, c: int)
    requires Reachable(k, s) && Shape(k, s) && Exec(k, s, c)
    ensures var p := s.cproc[c];
            && (Wants(p, s.pc[p]).0 && Wants(p, s.pc[p]).1 in s.holder ==> s.holder[Wants(p, s.pc[p]).1] != c)
            && (Drops(p, s.pc[p], s.saved[p]).0 ==>
                  Drops(p, s.pc[p], s.saved[p]).1 in s.holder && s.holder[Drops(p, s.pc[p], s.saved[p]).1] == c)
            && (s.pc[p].Wk? && s.pc[p].i != p && P(s.pc[p].i) in s.holder ==> s.holder[P(s.pc[p].i)] != c)
            && (s.pc[p].WtScan? || s.pc[p].FkAlloc? || s.pc[p].Run? ==> forall j :: P(j) in s.holder ==>
                s.holder[P(j)] != c)
            && (Preemptible(s.pc[p]) ==> forall x :: x in s.holder ==> s.holder[x] != c)
  {
    hide CpuInv, ForkInv, WakeInv, SideInv, ParentInv, ExitInv, PidInv, OwnInv;
    ReachInv(k, s);
    Executing(k, s, c);
    var p := s.cproc[c];
    assert CpuLocks(s.csched, s.cproc, s.pc, c) == Locks(p, s.pc[p]);
    if Drops(p, s.pc[p], s.saved[p]).0 { DropsLocks(p, s.pc[p], s.saved[p]); }
  }

  /** A CPU that holds some p->lock can always take a step: nothing is acquired inside p->lock. */
  lemma InnerSteps(k: Params, s: State, j: int)
    requires ControlInv(k, s) && P(j) in s.holder
    ensures exists step :: Enabled(k, s, step) && step.c == s.holder[P(j)]
  {
    hide CpuInv, ProcInv, ForkInv;
    var c := s.holder[P(j)];
    assert P(j) in CpuLocks(s.csched, s.cproc, s.pc, c);
    if s.csched[c] {
      assert Enabled(k, s, Back(c));
    } else {
      if s.pc[s.cproc[c]].FkHold? { ForkSlotOk(k, s, s.cproc[c]); }
      LockedSteps(k, s, c, j);
    }
  }

  lemma ForkSlotOk(k: Params, s: State, p: int)
    requires Shape(k, s) && 0 <= p < k.n && s.pc[p].FkHold? && ForkInv(k, s.st, s.pc, s.saved, s.parent, s.forker)
    ensures 0 <= s.pc[p].j < k.n
  {
    assert Cur(s.pc[p], s.saved[p]) == s.pc[p];
  }

  lemma LockedSteps(k: Params, s: State, c: int, j: int)
    requires Shape(k, s) && Exec(k, s, c) && P(j) in Locks(s.cproc[c], s.pc[s.cproc[c]])
    requires s.pc[s.cproc[c]].FkHold? ==> 0 <= s.pc[s.cproc[c]].j < k.n
    requires forall x :: x in Locks(s.cproc[c], s.pc[s.cproc[c]]) ==> x in s.holder && s.holder[x] == c
    ensures exists step :: Enabled(k, s, step) && step.c == c
  {
    var pc := s.pc[s.cproc[c]];
    if pc.SlSet? { assert Enabled(k, s, GoToSleep(c)); }
    else if pc.SlSched? || pc.YSched? || pc.ExSched? { assert Enabled(k, s, Swtch(c)); }
    else if pc.SlWake? { assert Enabled(k, s, Resumed(c)); }
    else if pc.ExZombie? { assert Enabled(k, s, BecomeZombie(c)); }
    else if pc.FkHold? { assert Enabled(k, s, ForkCopied(c)); }
    else { assert Enabled(k, s, Release(c)); }
  }

  /** The p->lock the next action of an executing process waits for, -1 if none. */
  function Inner(k: Params, s: State, p: int): int
    requires Shape(k, s) && 0 <= p < k.n
  {
    match s.pc[p]
    case Wk(_, i, _) => if 0 <= i < k.n && i != p then i else -1
    case WtScan(j, _) => if !(0 <= j < k.n) then p else if s.parent[j] == p then j else -1
    case SlAcq(_) => p
    case ExLock => p
    case _ => -1
  }

  lemma HolderRuns(k: Params, s: State, x: LockId)
    requires ControlInv(k, s) && x in s.holder && !x.P?
    ensures Exec(k, s, s.holder[x]) && x in Locks(s.cproc[s.holder[x]], s.pc[s.cproc[s.holder[x]]])
  {
    hide CpuInv, ProcInv, ForkInv;
    assert x in CpuLocks(s.csched, s.cproc, s.pc, s.holder[x]);
  }

  /** A CPU that holds wait_lock or a sleep-lock's inner lock can step, unless it waits for a p->lock. */
  lemma OuterSteps(k: Params, s: State, x: LockId)
    requires ControlInv(k, s) && SideInv(k, s.st, s.pc, s.parent) && x in s.holder && !x.P?
    ensures Exec(k, s, s.holder[x])
    ensures var i := Inner(k, s, s.cproc[s.holder[x]]);
            (i >= 0 && P(i) in s.holder) || exists step :: Enabled(k, s, step) && step.c == s.holder[x]
  {
    hide CpuInv, ProcInv, LockInv, ForkInv;
    HolderRuns(k, s, x);
    var c := s.holder[x];
    var p, pc := s.cproc[c], s.pc[s.cproc[c]];
    var i := Inner(k, s, p);
    assert WkOk(k, pc, s.parent[p]) && ScanOk(k, s.st, s.parent, p, pc);
    if i < 0 || P(i) !in s.holder {
      if pc.RsClear? { assert Enabled(k, s, ClearLock(c)); }
      else if pc.AsTest? { assert Enabled(k, s, if pc.l in s.owner then Move(c) else TakeLock(c)); }
      else if pc.Wk? { assert Enabled(k, s, if i >= 0 then WakeOne(c) else Move(c)); }
      else if pc.WtScan?
          { assert Enabled(k, s, if 0 <= pc.j < k.n && s.parent[pc.j] == p
          && s.st[pc.j] == ZOMBIE then Reap(c) else Move(c)); }
      else if pc.ExReparent?
          { assert Enabled(k, s, if 0 <= pc.j < k.n && s.parent[pc.j] == p then Adopt(c) else Move(c)); }
      else if pc.SlAcq? || pc.ExLock? { assert Enabled(k, s, Acquire(c)); }
      else if pc.ExZombie? { assert Enabled(k, s, BecomeZombie(c)); }
      else { assert Enabled(k, s, Release(c)); }
    }
  }

  /** Spinlocks never deadlock: while any is held, its holder, or the holder of the p->lock it waits for, can step. */
  lemma NoDeadlock(k: Params, s: State, x: LockId)
    requires Reachable(k, s) && Shape(k, s) && x in s.holder
    ensures exists step :: Enabled(k, s, step)
              && (step.c == s.holder[x]
                  || (Exec(k, s, s.holder[x]) && var i := Inner(k, s, s.cproc[s.holder[x]]);
                        i >= 0 && P(i) in s.holder && step.c == s.holder[P(i)]))
  {
    hide CpuInv, ProcInv, LockInv, ForkInv, WakeInv, SideInv, ParentInv, ExitInv, PidInv, OwnInv, Can;
    ReachInv(k, s);
    if x.P? {
      InnerSteps(k, s, x.p);
    } else {
      OuterSteps(k, s, x);
      var i := Inner(k, s, s.cproc[s.holder[x]]);
      if i >= 0 && P(i) in s.holder { InnerSteps(k, s, i); }
    }
  }

  /** The scheduler only switches to a thread that waits inside sched() or in forkret, never to an exited one. */
  lemma NeverResumesDead(k: Params, s: State, c: int, j: int)
    requires Reachable(k, s) && Shape(k, s) && Enabled(k, s, Dispatch(c, j))
    ensures s.pc[j].SlWake? || s.pc[j].YRel? || s.pc[j].FkRet?
    ensures s.at[j] == -1 && forall d :: 0 <= d < k.ncpu ==> s.cproc[d] != j
  {
    hide LockInv, ForkInv, WakeInv, SideInv, ParentInv, ExitInv, PidInv, OwnInv;
    ReachInv(k, s);
    LockFree(k, s, j);
  }

  // ----- sleep-locks -----

  /** The step is process p clearing lock l in releasesleep. */
  predicate Clears(s: State, step: Step, p: int, l: int) {
    && step.ClearLock? && 0 <= step.c < |s.cproc| && s.cproc[step.c] == p
    && 0 <= p < |s.pc| && s.pc[p] == RsClear(l)
  }

  /** A step that changes the owner of a sleep-lock is acquiresleep taking a free one or its owner's releasesleep. */
  lemma OwnerStep(k: Params, s: State, step: Step, l: int)
    requires Inv(k, s) && Enabled(k, s, step) && l in s.owner
    requires !Clears(s, step, s.owner[l], l)
    ensures var t := Apply(k, s, step); l in t.owner && t.owner[l] == s.owner[l]
  {
    hide CpuInv, ProcInv, LockInv, ForkInv, WakeInv, SideInv, ParentInv, ExitInv, PidInv, OwnInv;
    if step.ClearLock? { ClearOwn(k, s, step.c); }
  }

  /**
    Mutual exclusion: from the moment acquiresleep(l) succeeds in p until p itself clears the lock in
    releasesleep(l), p owns it, however often p sleeps, yields or changes CPU in between.
   */
  lemma {:induction false} SleepLockExcludes(k: Params, states: seq<State>, steps: seq<Step>, i: nat, j: nat, l: int)
    requires IsRun(k, states, steps) && i <= j < |states| && l in states[i].owner
    requires forall m {:trigger steps[m]} :: i <= m < j ==> !Clears(states[m], steps[m], states[i].owner[l], l)
    ensures l in states[j].owner && states[j].owner[l] == states[i].owner[l]
  {
    hide Inv, Apply, Enabled;
    if i < j {
      SleepLockExcludes(k, states, steps, i, j - 1, l);
      RunInv(k, states, steps, j - 1);
      assert steps[j - 1] == steps[j - 1] && Next(k, states[j - 1], steps[j - 1], states[j]);
      OwnerStep(k, states[j - 1], steps[j - 1], l);
    }
  }

  /** With lk->lk free, whoever is waiting in acquiresleep(l) is waiting for a lock that some process owns. */
  lemma NoLostWakeup(k: Params, s: State, p: int, l: int)
    requires Reachable(k, s) && Shape(k, s) && 0 <= p < k.n && S(l) !in s.holder
    requires Waiting(s.st[p], s.pc[p], OnLock(l))
    ensures l in s.owner
  {
    hide CpuInv, ProcInv, LockInv, ForkInv, SideInv, ParentInv, ExitInv, PidInv, OwnInv;
    ReachInv(k, s);
  }

  /** ... and with it held, the lock is owned or its holder's wakeup loop has yet to reach the sleeper. */
  lemma WakeupComing(k: Params, s: State, p: int, l: int)
    requires Reachable(k, s) && Shape(k, s) && 0 <= p < k.n && Waiting(s.st[p], s.pc[p], OnLock(l))
    ensures l in s.owner
        || (exists q :: 0 <= q < k.n && q != p && s.pc[q].Wk? && s.pc[q].ch == LockCh(l) && s.pc[q].i <= p)
  {
    hide CpuInv, ProcInv, LockInv, ForkInv, SideInv, ParentInv, ExitInv, PidInv, OwnInv;
    ReachInv(k, s);
  }

  /** When releasesleep(l) is about to release lk->lk, every process that waited for l has been woken. */
  lemma WakesAll(k: Params, s: State, q: int, l: int, p: int)
    requires Reachable(k, s) && Shape(k, s) && 0 <= q < k.n && s.pc[q] == RsRel(l) && 0 <= p < k.n
    ensures !Waiting(s.st[p], s.pc[p], OnLock(l))
  {
    hide CpuInv, ProcInv, LockInv, ForkInv, SideInv, ParentInv, ExitInv, PidInv;
    ReachInv(k, s);
    HoldsOn(k, s, q, S(l));
    assert OwnOk(s.owner, q, Cur(s.pc[q], s.saved[q]));
  }

  // ----- exit and wait -----

  /** With wait_lock free: a zombie has a live parent, which is not asleep (or about to be) in wait. */
  lemma ZombieSeen(k: Params, s: State, z: int)
    requires Reachable(k, s) && Shape(k, s) && W !in s.holder && 0 <= z < k.n && s.st[z] == ZOMBIE
    ensures 0 <= s.parent[z] < k.n && Alive(s.st[s.parent[z]])
    ensures !Waiting(s.st[s.parent[z]], s.pc[s.parent[z]], OnChild)
  {
    hide CpuInv, ProcInv, LockInv, ForkInv, SideInv, ExitInv, PidInv, OwnInv;
    ReachInv(k, s);
    assert Started(s.st[z]);
    var par := s.parent[z];
    if Waiting(s.st[par], s.pc[par], OnChild) { NothingToReap(k, s, par); }
  }

  lemma NothingToReap(k: Params, s: State, p: int)
    requires Inv(k, s) && W !in s.holder && 0 <= p < k.n && Waiting(s.st[p], s.pc[p], OnChild)
    ensures NoZombieChild(s.st, s.parent, p)
  {
    hide CpuInv, ProcInv, LockInv, ForkInv, SideInv, ExitInv, PidInv, OwnInv;
  }

  /** wait frees a child only when the child has left its kernel stack for good, and its pid was never reaped. */
  lemma ReapSafe(k: Params, s: State, c: int)
    requires Reachable(k, s) && Shape(k, s) && Enabled(k, s, Reap(c))
    ensures var j := s.pc[s.cproc[c]].j;
            && s.pc[j] == Dead && s.at[j] == -1 && (forall d :: 0 <= d < k.ncpu ==> s.cproc[d] != j)
            && s.parent[j] == s.cproc[c] && s.pid[j] in s.h.exited && s.pid[j] !in s.h.reaped
            && (forall z :: 0 <= z < k.n ==> s.parent[z] != j)
  {
    hide ProcInv, LockInv, ForkInv, WakeInv, SideInv, ExitInv, OwnInv;
    ReachInv(k, s);
    LockFree(k, s, s.pc[s.cproc[c]].j);
  }

  /**
    Every pid that exited is reaped at most once, and until then is a zombie in the slot it was given,
    with a live parent; nothing is reaped that has not exited.
   */
  lemma ReapedOnce(k: Params, s: State, x: int)
    requires Reachable(k, s) && Shape(k, s)
    ensures x in s.h.reaped ==> x in s.h.exited
    ensures forall i, j :: 0 <= i < j < |s.h.reaped| ==> s.h.reaped[i] != s.h.reaped[j]
    ensures x in s.h.exited && x !in s.h.reaped ==>
              exists z :: 0 <= z < k.n && s.st[z] == ZOMBIE && s.pid[z] == x && 0 <= s.parent[z] < k.n
                  && Alive(s.st[s.parent[z]])
  {
    hide CpuInv, ProcInv, LockInv, ForkInv, WakeInv, SideInv, ExitInv, OwnInv;
    ReachInv(k, s);
    if x in s.h.exited && x !in s.h.reaped {
      var z := s.h.slot[x];
      assert Started(s.st[z]);
      assert s.st[z] == ZOMBIE && s.pid[z] == x && 0 <= s.parent[z] < k.n && Alive(s.st[s.parent[z]]);
    }
  }

  /** Two live or zombie processes never share a pid. */
  lemma PidsDiffer(k: Params, s: State, y: int, z: int)
    requires Reachable(k, s) && Shape(k, s) && 0 <= y < k.n && 0 <= z < k.n && y != z
    requires s.st[y] != UNUSED && s.st[z] != UNUSED
    ensures s.pid[y] != s.pid[z]
  {
    hide CpuInv, ProcInv, LockInv, ForkInv, WakeInv, SideInv, ParentInv, ExitInv, OwnInv;
    ReachInv(k, s);
  }
}

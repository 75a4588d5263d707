/**
  What fork, exit, wait, kill, yield and the sleep-lock calls do (kernel/proc.c, kernel/sleeplock.c), in every
  interleaving: when each returns, with what result, and what it leaves behind.
 */
module ProcsCalls {
  import opened Procs
  import opened ProcsFamily
  import opened ProcsWakeup
  import opened ProcsSafety

  // ----- more of what holds in every reachable state -----

  predicate HasChild(parent: seq<int>, p: int, j: int) { exists z :: 0 <= z < j && z < |parent| && parent[z] == p }

  /** wait's havekids says whether proc[..j] holds a child. */
  ghost predicate KidsInv(k: Params, pc: seq<Pc>, parent: seq<int>)
    requires |pc| == |parent| == k.n
  {
    forall p :: 0 <= p < k.n && pc[p].WtScan? ==> 0 <= pc[p].j <= k.n && (pc[p].kids <==> HasChild(parent, p, pc[p].j))
  }

  lemma NextKid(k: Params, s: State, p: int)
    requires Shape(k, s) && KidsInv(k, s.pc, s.parent) && 0 <= p < k.n && s.pc[p].WtScan? && Moved(k, s, p).0
    ensures var pc' := Moved(k, s, p).1;
            pc'.WtScan? ==> 0 <= pc'.j <= k.n && (pc'.kids <==> HasChild(s.parent, p, pc'.j))
  {
    var j := s.pc[p].j;
    if 0 <= j < k.n && s.parent[j] == p { assert HasChild(s.parent, p, j + 1); }
    if 0 <= j < k.n && s.parent[j] != p {
      assert HasChild(s.parent, p, j + 1) ==> HasChild(s.parent, p, j);
    }
  }

  lemma NoneYet(parent: seq<int>, p: int)
    ensures !HasChild(parent, p, 0)
  {
  }

  /** With wait_lock held by p, no other process is in wait's scan. */
  lemma NoOtherScan(k: Params, s: State, p: int)
    requires ControlInv(k, s) && 0 <= p < k.n && W in Locks(p, s.pc[p])
    ensures forall q :: 0 <= q < k.n && q != p ==> !s.pc[q].WtScan?
  {
    hide CpuInv, ProcInv, LockInv, ForkInv;
    forall q | 0 <= q < k.n && q != p ensures !s.pc[q].WtScan? {
      if s.pc[q].WtScan? { Exclusive(k, s, p, q, W); }
    }
  }

  lemma NoScan(k: Params, s: State)
    requires ControlInv(k, s) && W !in s.holder
    ensures forall q :: 0 <= q < k.n ==> !s.pc[q].WtScan?
  {
    hide CpuInv, ProcInv, LockInv, ForkInv;
    forall q | 0 <= q < k.n ensures !s.pc[q].WtScan? {
      if s.pc[q].WtScan? { HoldsOn(k, s, q, W); }
    }
  }

  lemma ParentKids(k: Params, s: State, step: Step)
    requires ControlInv(k, s) && Enabled(k, s, step) && Shape(k, Apply(k, s, step)) && KidsInv(k, s.pc, s.parent)
    requires step.Adopt? || step.Reap? || step.SetParent? || step.ForkFailed?
    ensures KidsInv(k, Apply(k, s, step).pc, Apply(k, s, step).parent)
  {
    hide Wants, Drops, Moved, CpuInv, ProcInv, LockInv, ForkInv, HasChild;
    Executing(k, s, step.c);
    match step
    case Adopt(_) => NoOtherScan(k, s, s.cproc[step.c]);
    case Reap(_) => NoOtherScan(k, s, s.cproc[step.c]);
    case SetParent(_) => NoScan(k, s);
    case ForkFailed(_) => NotYetChild(k, s, step.c);
  }

  /** A step that leaves the parents as they are and takes nobody into the scan. */
  lemma PcKids(k: Params, s: State, step: Step)
    requires ControlInv(k, s) && Enabled(k, s, step) && Shape(k, Apply(k, s, step)) && KidsInv(k, s.pc, s.parent)
    requires !step.Adopt? && !step.Reap? && !step.SetParent? && !step.ForkFailed? && !step.Acquire? && !step.Move?
    ensures KidsInv(k, Apply(k, s, step).pc, Apply(k, s, step).parent)
  {
    hide CpuInv, ProcInv, LockInv, ForkInv, HasChild;
    if !step.Dispatch? && !step.Back? { Executing(k, s, step.c); }
  }

  lemma StepKids(k: Params, s: State, step: Step)
    requires ControlInv(k, s) && Enabled(k, s, step) && Shape(k, Apply(k, s, step)) && KidsInv(k, s.pc, s.parent)
    ensures KidsInv(k, Apply(k, s, step).pc, Apply(k, s, step).parent)
  {
    hide CpuInv, ProcInv, LockInv, ForkInv, HasChild;
    if step.Adopt? || step.Reap? || step.SetParent? || step.ForkFailed? {
      ParentKids(k, s, step);
    } else if step.Acquire? {
      NoneYet(s.parent, s.cproc[step.c]);
    } else if step.Move? {
      if s.pc[s.cproc[step.c]].WtScan? { NextKid(k, s, s.cproc[step.c]); }
    } else {
      PcKids(k, s, step);
    }
  }

  /** The slot of a fork that fails has no parent yet. */
  lemma NotYetChild(k: Params, s: State, c: int)
    requires ControlInv(k, s) && Enabled(k, s, ForkFailed(c))
    ensures 0 <= s.pc[s.cproc[c]].j < k.n && s.parent[s.pc[s.cproc[c]].j] == -1
    ensures s.parent[s.pc[s.cproc[c]].j := -1] == s.parent
  {
    hide CpuInv, ProcInv, LockInv;
    var p, j := s.cproc[c], s.pc[s.cproc[c]].j;
    assert Forks(Cur(s.pc[p], s.saved[p]), p, j, s.st[j], s.pc[j], s.parent[j], s.forker[j]);
  }

  /** acquiresleep has the lock when it is about to return. */
  ghost predicate TakenInv(k: Params, pc: seq<Pc>, owner: map<int, int>)
    requires |pc| == k.n
  {
    forall p :: 0 <= p < k.n && pc[p].AsRel? ==> pc[p].l in owner && owner[pc[p].l] == p
  }

  lemma ClearTaken(k: Params, s: State, c: int)
    requires ControlInv(k, s) && Enabled(k, s, ClearLock(c)) && TakenInv(k, s.pc, s.owner)
    ensures TakenInv(k, Apply(k, s, ClearLock(c)).pc, Apply(k, s, ClearLock(c)).owner)
  {
    hide CpuInv, ProcInv, LockInv, ForkInv;
    var p := s.cproc[c];
    forall q | 0 <= q < k.n ensures s.pc[q] != AsRel(s.pc[p].l) {
      if s.pc[q] == AsRel(s.pc[p].l) { Exclusive(k, s, p, q, S(s.pc[p].l)); }
    }
  }

  lemma PcTaken(k: Params, s: State, step: Step)
    requires ControlInv(k, s) && Enabled(k, s, step) && Shape(k, Apply(k, s, step)) && TakenInv(k, s.pc, s.owner)
    requires step.Call? || step.Acquire? || step.Release? || step.Move? || step.WakeOne? || step.Adopt? || step.Swtch?
    ensures TakenInv(k, Apply(k, s, step).pc, Apply(k, s, step).owner)
  {
    hide CpuInv, ProcInv, LockInv, ForkInv;
    Executing(k, s, step.c);
  }

  lemma StepTaken(k: Params, s: State, step: Step)
    requires ControlInv(k, s) && Enabled(k, s, step) && Shape(k, Apply(k, s, step)) && TakenInv(k, s.pc, s.owner)
    ensures TakenInv(k, Apply(k, s, step).pc, Apply(k, s, step).owner)
  {
    hide Wants, Drops, Moved, CpuInv, ProcInv, LockInv, ForkInv;
    if step.ClearLock? {
      ClearTaken(k, s, step.c);
    } else if step.Call? || step.Acquire? || step.Release? || step.Move? || step.WakeOne? || step.Adopt?
        || step.Swtch? {
      PcTaken(k, s, step);
    }
  }

  /** p->chan is set only inside sleep. */
  ghost predicate ChanInv(k: Params, pc: seq<Pc>, chan: seq<Chan>)
    requires |pc| == |chan| == k.n
  {
    forall p :: 0 <= p < k.n && chan[p] != NoChan ==> pc[p].SlSched? || pc[p].SlWake?
  }

  lemma PcChan(k: Params, s: State, step: Step)
    requires ControlInv(k, s) && Enabled(k, s, step) && Shape(k, Apply(k, s, step)) && ChanInv(k, s.pc, s.chan)
    requires step.Call? || step.Acquire? || step.Release? || step.Move? || step.WakeOne? || step.Adopt? || step.Swtch?
        || step.ForkCopied?
    ensures ChanInv(k, Apply(k, s, step).pc, Apply(k, s, step).chan)
  {
    hide CpuInv, ProcInv, LockInv, ForkInv;
    Executing(k, s, step.c);
    if step.ForkCopied? { ForkSlot(k, s, step.c); }
  }

  lemma StepChan(k: Params, s: State, step: Step)
    requires ControlInv(k, s) && Enabled(k, s, step) && Shape(k, Apply(k, s, step)) && ChanInv(k, s.pc, s.chan)
    ensures ChanInv(k, Apply(k, s, step).pc, Apply(k, s, step).chan)
  {
    hide Wants, Drops, Moved, CpuInv, ProcInv, LockInv, ForkInv;
    if step.Call? || step.Acquire? || step.Release? || step.Move? || step.WakeOne? || step.Adopt? || step.Swtch?
        || step.ForkCopied? {
      PcChan(k, s, step);
    }
  }

  /** A slot that is being set up is the slot of a fork under way, and an unused one has no pid. */
  ghost predicate SlotInv(k: Params, st: seq<PState>, pid: seq<int>, pc: seq<Pc>, saved: seq<Pc>, forker: seq<int>)
    requires |st| == |pid| == |pc| == |saved| == |forker| == k.n
  {
    && (forall j :: 0 <= j < k.n && st[j] == UNUSED ==> pid[j] == 0)
    && (forall j :: 0 <= j < k.n && st[j] == USED ==>
          0 <= forker[j] < k.n && InFork(Cur(pc[forker[j]], saved[forker[j]]))
              && Cur(pc[forker[j]], saved[forker[j]]).j == j)
  }

  /** A step that ends no fork and begins none. */
  lemma KeepSlot(k: Params, s: State, t: State, p: int)
    requires Shape(k, s) && Shape(k, t) && 0 <= p < k.n && SlotInv(k, s.st, s.pid, s.pc, s.saved, s.forker)
    requires t.pid == s.pid && t.forker == s.forker
    requires forall j :: 0 <= j < k.n ==>
        (t.st[j] == UNUSED ==> s.st[j] == UNUSED) && (t.st[j] == USED ==> s.st[j] == USED)
    requires forall q :: 0 <= q < k.n && q != p ==> t.pc[q] == s.pc[q] && t.saved[q] == s.saved[q]
    requires InFork(Cur(s.pc[p], s.saved[p])) ==> Cur(t.pc[p], t.saved[p]) == Cur(s.pc[p], s.saved[p])
    ensures SlotInv(k, t.st, t.pid, t.pc, t.saved, t.forker)
  {
  }

  lemma FailedSlot(k: Params, s: State, c: int)
    requires ControlInv(k, s) && Enabled(k, s, ForkFailed(c)) && Shape(k, Apply(k, s, ForkFailed(c)))
    requires SlotInv(k, s.st, s.pid, s.pc, s.saved, s.forker)
    ensures var t := Apply(k, s, ForkFailed(c)); SlotInv(k, t.st, t.pid, t.pc, t.saved, t.forker)
  {
    hide Wants, Drops, Moved, CpuInv, ProcInv, LockInv, ForkInv;
    Executing(k, s, c);
    ForkSlot(k, s, c);
  }

  lemma ReadySlot(k: Params, s: State, c: int)
    requires ControlInv(k, s) && Enabled(k, s, MakeReady(c)) && Shape(k, Apply(k, s, MakeReady(c)))
    requires SlotInv(k, s.st, s.pid, s.pc, s.saved, s.forker)
    ensures var t := Apply(k, s, MakeReady(c)); SlotInv(k, t.st, t.pid, t.pc, t.saved, t.forker)
  {
    hide Wants, Drops, Moved, CpuInv, ProcInv, LockInv, ForkInv;
    Executing(k, s, c);
    ForkSlot(k, s, c);
  }

  lemma CopiedSlot(k: Params, s: State, c: int)
    requires ControlInv(k, s) && Enabled(k, s, ForkCopied(c)) && Shape(k, Apply(k, s, ForkCopied(c)))
    requires SlotInv(k, s.st, s.pid, s.pc, s.saved, s.forker)
    ensures var t := Apply(k, s, ForkCopied(c)); SlotInv(k, t.st, t.pid, t.pc, t.saved, t.forker)
  {
    hide Wants, Drops, Moved, CpuInv, ProcInv, LockInv, ForkInv;
    Executing(k, s, c);
    ForkSlot(k, s, c);
  }

  lemma ParentSlot(k: Params, s: State, c: int)
    requires ControlInv(k, s) && Enabled(k, s, SetParent(c)) && Shape(k, Apply(k, s, SetParent(c)))
    requires SlotInv(k, s.st, s.pid, s.pc, s.saved, s.forker)
    ensures var t := Apply(k, s, SetParent(c)); SlotInv(k, t.st, t.pid, t.pc, t.saved, t.forker)
  {
    hide Wants, Drops, Moved, CpuInv, ProcInv, LockInv, ForkInv;
    Executing(k, s, c);
    ForkSlot(k, s, c);
  }

  lemma AllocSlot(k: Params, s: State, c: int, j: int)
    requires ControlInv(k, s) && Enabled(k, s, Alloc(c, j)) && Shape(k, Apply(k, s, Alloc(c, j)))
    requires SlotInv(k, s.st, s.pid, s.pc, s.saved, s.forker)
    ensures var t := Apply(k, s, Alloc(c, j)); SlotInv(k, t.st, t.pid, t.pc, t.saved, t.forker)
  {
    hide Wants, Drops, Moved, CpuInv, ProcInv, LockInv, ForkInv;
    Executing(k, s, c);
  }

  lemma LockSlot(k: Params, s: State, step: Step)
    requires ControlInv(k, s) && Enabled(k, s, step) && Shape(k, Apply(k, s, step))
    requires SlotInv(k, s.st, s.pid, s.pc, s.saved, s.forker)
    requires step.Call? || step.Acquire? || step.Release? || step.Move?
    ensures var t := Apply(k, s, step); SlotInv(k, t.st, t.pid, t.pc, t.saved, t.forker)
  {
    hide CpuInv, ProcInv, LockInv, ForkInv, SlotInv;
    Executing(k, s, step.c);
    KeepSlot(k, s, Apply(k, s, step), s.cproc[step.c]);
  }

  lemma ReapSlot(k: Params, s: State, c: int)
    requires ControlInv(k, s) && Enabled(k, s, Reap(c)) && Shape(k, Apply(k, s, Reap(c)))
    requires SlotInv(k, s.st, s.pid, s.pc, s.saved, s.forker)
    ensures var t := Apply(k, s, Reap(c)); SlotInv(k, t.st, t.pid, t.pc, t.saved, t.forker)
  {
    hide Wants, Drops, Moved, CpuInv, ProcInv, LockInv, ForkInv;
    Executing(k, s, c);
    LockFree(k, s, s.pc[s.cproc[c]].j);
  }

  lemma PcSlot(k: Params, s: State, step: Step)
    requires ControlInv(k, s) && Enabled(k, s, step) && Shape(k, Apply(k, s, step))
    requires SlotInv(k, s.st, s.pid, s.pc, s.saved, s.forker)
    requires step.TakeLock? || step.ClearLock? || step.Swtch? || step.Resumed? || step.ReapFailed? || step.Adopt?
        || step.AllocFailed?
    ensures var t := Apply(k, s, step); SlotInv(k, t.st, t.pid, t.pc, t.saved, t.forker)
  {
    hide Wants, Drops, Moved, CpuInv, ProcInv, LockInv, ForkInv, SlotInv;
    Executing(k, s, step.c);
    KeepSlot(k, s, Apply(k, s, step), s.cproc[step.c]);
  }

  lemma StateSlot(k: Params, s: State, step: Step)
    requires ControlInv(k, s) && Enabled(k, s, step) && Shape(k, Apply(k, s, step))
    requires SlotInv(k, s.st, s.pid, s.pc, s.saved, s.forker)
    requires step.GoToSleep? || step.BecomeZombie? || step.Preempt?
    ensures var t := Apply(k, s, step); SlotInv(k, t.st, t.pid, t.pc, t.saved, t.forker)
  {
    hide Wants, Drops, Moved, CpuInv, ProcInv, LockInv, ForkInv, SlotInv;
    Executing(k, s, step.c);
    KeepSlot(k, s, Apply(k, s, step), s.cproc[step.c]);
  }

  lemma WokenSlot(k: Params, s: State, step: Step)
    requires ControlInv(k, s) && Enabled(k, s, step) && Shape(k, Apply(k, s, step))
    requires SlotInv(k, s.st, s.pid, s.pc, s.saved, s.forker) && (step.WakeOne? || step.Kill?)
    ensures var t := Apply(k, s, step); SlotInv(k, t.st, t.pid, t.pc, t.saved, t.forker)
  {
    hide Wants, Drops, Moved, CpuInv, ProcInv, LockInv, ForkInv, SlotInv;
    Executing(k, s, step.c);
    KeepSlot(k, s, Apply(k, s, step), s.cproc[step.c]);
  }

  lemma StepSlot(k: Params, s: State, step: Step)
    requires ControlInv(k, s) && Enabled(k, s, step) && Shape(k, Apply(k, s, step))
    requires SlotInv(k, s.st, s.pid, s.pc, s.saved, s.forker)
    ensures var t := Apply(k, s, step); SlotInv(k, t.st, t.pid, t.pc, t.saved, t.forker)
  {
    hide CpuInv, ProcInv, LockInv, ForkInv, SlotInv, Can, ProcStep;
    if step.ForkFailed? {
      FailedSlot(k, s, step.c);
    } else if step.MakeReady? {
      ReadySlot(k, s, step.c);
    } else if step.ForkCopied? {
      CopiedSlot(k, s, step.c);
    } else if step.SetParent? {
      ParentSlot(k, s, step.c);
    } else if step.Alloc? {
      AllocSlot(k, s, step.c, step.j);
    } else if step.Call? || step.Acquire? || step.Release? || step.Move? {
      LockSlot(k, s, step);
    } else if step.Reap? {
      ReapSlot(k, s, step.c);
    } else if step.Dispatch? || step.Back? {
      KeepSlot(k, s, Apply(k, s, step), k.init);
    } else if step.WakeOne? || step.Kill? {
      WokenSlot(k, s, step);
    } else if step.GoToSleep? || step.BecomeZombie? || step.Preempt? {
      StateSlot(k, s, step);
    } else {
      PcSlot(k, s, step);
    }
  }

  ghost predicate More(k: Params, s: State)
    requires Shape(k, s)
  {
    && KidsInv(k, s.pc, s.parent) && TakenInv(k, s.pc, s.owner) && ChanInv(k, s.pc, s.chan)
    && SlotInv(k, s.st, s.pid, s.pc, s.saved, s.forker)
  }

  lemma {:induction false} RunMore(k: Params, states: seq<State>, steps: seq<Step>, i: nat)
    requires IsRun(k, states, steps) && i < |states|
    ensures Inv(k, states[i]) && More(k, states[i])
  {
    hide CpuInv, ProcInv, LockInv, ForkInv, WakeInv, SideInv, ParentInv, ExitInv, PidInv, OwnInv, SleepAt, KidsInv,
        TakenInv, ChanInv, SlotInv, Apply, Enabled;
    RunInv(k, states, steps, i);
    if i == 0 {
      InitMore(k);
    } else {
      var s, step := states[i - 1], steps[i - 1];
      RunMore(k, states, steps, i - 1);
      StepKids(k, s, step);
      StepTaken(k, s, step);
      StepChan(k, s, step);
      StepSlot(k, s, step);
    }
  }

  lemma InitMore(k: Params)
    requires ValidParams(k)
    ensures More(k, Init(k))
  {
  }

  lemma ReachMore(k: Params, s: State)
    requires Reachable(k, s)
    ensures Inv(k, s) && More(k, s)
  {
    hide Inv, More, Enabled, Apply;
    var states, steps :| IsRun(k, states, steps) && states[|states| - 1] == s;
    RunMore(k, states, steps, |states| - 1);
  }

  // ----- wait -----

  /** The processes whose parent is p. */
  ghost predicate Childless(k: Params, s: State, p: int)
    requires Shape(k, s)
  {
    forall z :: 0 <= z < k.n ==> s.parent[z] != p
  }

  /**
    wait gives up without a child exactly if it has scanned the whole table and the process has no child or was
    killed; with a child, and not killed, it goes to sleep; before that it goes on, or has found a zombie.
   */
  lemma WaitEnds(k: Params, s: State, step: Step)
    requires Reachable(k, s) && Shape(k, s) && Enabled(k, s, step) && !step.Dispatch? && !step.Back?
    requires s.pc[s.cproc[step.c]].WtScan?
    ensures var p := s.cproc[step.c];
            var j, t := s.pc[p].j, Apply(k, s, step);
            && (step.Move? || step.Reap? || step.ReapFailed?)
            && (step.Move? && j < k.n ==> t.pc[p].WtScan? && t.pc[p].j == j + 1)
            && (step.Move? && j < k.n ==> !(s.parent[j] == p && s.st[j] == ZOMBIE))
            && (step.Move? && j == k.n ==>
                  t.pc[p] == if Childless(k, s, p) || s.killed[p] then WtRel else SlAcq(OnChild))
            && (!step.Move? ==> t.pc[p] == WtRel && s.parent[j] == p && s.st[j] == ZOMBIE)
  {
    hide CpuInv, ProcInv, LockInv, ForkInv, WakeInv, SideInv, ParentInv, ExitInv, PidInv, OwnInv, TakenInv, ChanInv,
        SlotInv;
    ReachMore(k, s);
    var p := s.cproc[step.c];
    assert HasChild(s.parent, p, k.n) <==> !Childless(k, s, p);
  }

  /** What wait returns with: the child's slot is unused and blank, its pid reaped; nothing else changed. */
  lemma WaitReaps(k: Params, s: State, c: int)
    requires Reachable(k, s) && Shape(k, s) && Enabled(k, s, Reap(c))
    ensures var p, t := s.cproc[c], Apply(k, s, Reap(c));
            var z := s.pc[p].j;
            && 0 <= z < k.n && s.st[z] == ZOMBIE && s.parent[z] == p && t.h.reaped == s.h.reaped + [s.pid[z]]
            && t.st == s.st[z := UNUSED] && t.pid == s.pid[z := 0] && t.parent == s.parent[z := -1] && !t.killed[z]
            && t.chan == s.chan && t.owner == s.owner && t.holder == s.holder && t.h.exited == s.h.exited
            && forall q :: 0 <= q < k.n && q != z ==> t.killed[q] == s.killed[q]
  {
    hide CpuInv, LockInv, ForkInv, WakeInv, SideInv, ParentInv, ExitInv, PidInv, OwnInv, TakenInv, KidsInv, SlotInv;
    ReachMore(k, s);
    var z := s.pc[s.cproc[c]].j;
    LockFree(k, s, z);
  }

  // ----- fork -----

  /** fork returns with a runnable child: its own by parent, with a pid of its own, never on a CPU before. */
  lemma ForkReturns(k: Params, s: State, c: int)
    requires Reachable(k, s) && Shape(k, s) && Enabled(k, s, MakeReady(c))
    ensures var p, t := s.cproc[c], Apply(k, s, MakeReady(c));
            var j := s.pc[p].j;
            && 0 <= j < k.n && j != p && t.st[j] == RUNNABLE && t.parent[j] == p && t.pc[j] == FkRet && t.at[j] == -1
            && t.pc[p] == Run && t.pid[j] !in t.h.exited && t.pid[j] in t.h.slot && t.h.slot[t.pid[j]] == j
            && forall z :: 0 <= z < k.n && z != j && t.st[z] != UNUSED ==> t.pid[z] != t.pid[j]
  {
    hide ProcInv, LockInv, ForkInv, WakeInv, SideInv, ParentInv, ExitInv, OwnInv;
    ReachInv(k, s);
    Executing(k, s, c);
    ForkSlot(k, s, c);
    var p, j := s.cproc[c], s.pc[s.cproc[c]].j;
    ForkParentIs(k, s, p, j);
    LockFree(k, s, j);
    NeverOn(k, s, j);
  }

  lemma ForkParentIs(k: Params, s: State, p: int, j: int)
    requires ControlInv(k, s) && 0 <= p < k.n && 0 <= j < k.n && s.pc[p] == FkReady(j)
    ensures s.parent[j] == p && s.pc[j] == FkRet && s.st[j] == USED
  {
    assert Forks(Cur(s.pc[p], s.saved[p]), p, j, s.st[j], s.pc[j], s.parent[j], s.forker[j]);
  }

  lemma NeverOn(k: Params, s: State, j: int)
    requires ControlInv(k, s) && 0 <= j < k.n && s.st[j] == USED
    ensures !On(s.csched, s.at[j])
  {
    assert ProcOk(s.st[j], s.chan[j], s.pc[j], s.saved[j], j, On(s.csched, s.at[j]));
  }

  /** No slot is lost: one that is neither unused nor started belongs to a fork under way. */
  lemma NoSlotLost(k: Params, s: State, j: int)
    requires Reachable(k, s) && Shape(k, s) && 0 <= j < k.n && s.st[j] == USED
    ensures exists q :: 0 <= q < k.n && (var cur := Cur(s.pc[q], s.saved[q]); InFork(cur) && cur.j == j)
  {
    hide CpuInv, ProcInv, LockInv, ForkInv, WakeInv, SideInv, ParentInv, ExitInv, PidInv, OwnInv, TakenInv, KidsInv,
        ChanInv;
    ReachMore(k, s);
  }

  /** fork may fail while it sets the slot up: the slot is blank again, nothing else changed, and fork has returned. */
  lemma ForkFails(k: Params, s: State, c: int)
    requires Reachable(k, s) && Shape(k, s) && Exec(k, s, c) && s.pc[s.cproc[c]].FkHold?
    ensures Enabled(k, s, ForkFailed(c))
    ensures var p, t := s.cproc[c], Apply(k, s, ForkFailed(c));
            var j := s.pc[p].j;
            && 0 <= j < k.n && t.pc == s.pc[p := Run] && t.st == s.st[j := UNUSED] && t.pid == s.pid[j := 0]
            && t.parent == s.parent && t.chan == s.chan && !t.killed[j] && P(j) !in t.holder && t.owner == s.owner
  {
    hide LockInv, WakeInv, SideInv, ParentInv, ExitInv, PidInv, OwnInv, TakenInv, KidsInv, SlotInv;
    ReachMore(k, s);
    Executing(k, s, c);
    ForkSlot(k, s, c);
    NotYetChild(k, s, c);
  }

  /** It may find no slot, and wait may find no room for the status: both return, with nothing else changed. */
  lemma CallsFail(k: Params, s: State, c: int)
    requires Shape(k, s) && Exec(k, s, c)
    ensures s.pc[s.cproc[c]].FkAlloc? ==>
        Enabled(k, s, AllocFailed(c)) && Apply(k, s, AllocFailed(c)) == s.(pc := s.pc[s.cproc[c] := Run])
    ensures Enabled(k, s, Reap(c)) ==>
        Enabled(k, s, ReapFailed(c)) && Apply(k, s, ReapFailed(c)) == s.(pc := s.pc[s.cproc[c] := WtRel])
  {
  }

  // ----- sleep-locks, sleep and yield -----

  /** acquiresleep(l) succeeds at this step. */
  predicate Takes(s: State, step: Step, l: int) {
    step.TakeLock? && 0 <= step.c < |s.cproc| && 0 <= s.cproc[step.c] < |s.pc| && s.pc[s.cproc[step.c]] == AsTest(l)
  }

  /** Between two acquiresleep(l) that succeed, the process of the first has cleared the lock in releasesleep(l). */
  lemma OneOwner(k: Params, states: seq<State>, steps: seq<Step>, i: nat, j: nat, l: int)
    requires IsRun(k, states, steps) && i < j < |steps| && Takes(states[i], steps[i], l)
        && Takes(states[j], steps[j], l)
    ensures exists m :: i < m < j && Clears(states[m], steps[m], states[i].cproc[steps[i].c], l)
  {
    hide Inv, Enabled, Apply;
    var p := states[i].cproc[steps[i].c];
    assert Next(k, states[i], steps[i], states[i + 1]) && Next(k, states[j], steps[j], states[j + 1]);
    TakeEffect(k, states[i], steps[i], l);
    TakeEffect(k, states[j], steps[j], l);
    if forall m {:trigger steps[m]} :: i + 1 <= m < j ==> !Clears(states[m], steps[m], p, l) {
      SleepLockExcludes(k, states, steps, i + 1, j, l);
    }
  }

  lemma TakeEffect(k: Params, s: State, step: Step, l: int)
    requires Shape(k, s) && Enabled(k, s, step) && Takes(s, step, l)
    ensures l !in s.owner
    ensures var t := Apply(k, s, step); l in t.owner && t.owner[l] == s.cproc[step.c]
  {
  }

  /** acquiresleep returns with the lock: the process owns it when it releases the inner lock. */
  lemma TakenOnReturn(k: Params, s: State, p: int, l: int)
    requires Reachable(k, s) && Shape(k, s) && 0 <= p < k.n && s.pc[p] == AsRel(l)
    ensures l in s.owner && s.owner[l] == p
  {
    hide CpuInv, ProcInv, LockInv, ForkInv, WakeInv, SideInv, ParentInv, ExitInv, PidInv, OwnInv, SlotInv, KidsInv,
        ChanInv;
    ReachMore(k, s);
  }

  /** Who is asleep is in sleep(), on the channel of what it waits for; outside sleep() no channel is set. */
  lemma AsleepOn(k: Params, s: State, p: int)
    requires Reachable(k, s) && Shape(k, s) && 0 <= p < k.n
    ensures s.st[p] == SLEEPING ==> (s.pc[p].SlSched? || s.pc[p].SlWake?) && s.chan[p] == ChanOf(p, s.pc[p].w)
    ensures s.chan[p] != NoChan ==> s.pc[p].SlSched? || s.pc[p].SlWake?
  {
    hide CpuInv, LockInv, ForkInv, WakeInv, SideInv, ParentInv, ExitInv, PidInv, OwnInv, TakenInv, KidsInv, SlotInv;
    ReachMore(k, s);
    assert ProcOk(s.st[p], s.chan[p], s.pc[p], s.saved[p], p, On(s.csched, s.at[p]));
  }

  /** The step is q's own doing, and no part of a yield. */
  predicate OwnStep(s: State, step: Step, q: int)
    requires 0 <= q < |s.pc|
  {
    && !step.Dispatch? && !step.Back? && !step.Preempt? && 0 <= step.c < |s.cproc| && s.cproc[step.c] == q
    && !s.pc[q].YSched? && !s.pc[q].YRel?
  }

  /** The step sets up or takes down the slot q for another process. */
  predicate SlotStep(s: State, step: Step, q: int) {
    && (step.Reap? || step.ForkFailed? || step.ForkCopied?) && 0 <= step.c < |s.cproc|
    && 0 <= s.cproc[step.c] < |s.pc| && var pc := s.pc[s.cproc[step.c]]; (pc.WtScan? || pc.FkHold?) && pc.j == q
  }

  /** A step changes where its own process is in its calls, and the slot it sets up or takes down. */
  lemma OthersPc(k: Params, s: State, step: Step, q: int)
    requires Shape(k, s) && Enabled(k, s, step) && 0 <= q < k.n
    requires !step.Dispatch? && !step.Back? ==> s.cproc[step.c] != q && !SlotStep(s, step, q)
    ensures var t := Apply(k, s, step); |t.pc| == |t.saved| == k.n && t.pc[q] == s.pc[q] && t.saved[q] == s.saved[q]
  {
    hide Wants, Drops, Moved;
    if !step.Dispatch? && !step.Back? && !step.Reap? && !step.ForkFailed? && !step.ForkCopied? { OwnPc(k, s, step); }
  }

  lemma OwnPc(k: Params, s: State, step: Step)
    requires Shape(k, s) && Enabled(k, s, step) && !step.Dispatch? && !step.Back?
    requires !step.Reap? && !step.ForkFailed? && !step.ForkCopied?
    ensures var t, p := Apply(k, s, step), s.cproc[step.c];
        && |t.pc| == |t.saved| == k.n
        && (forall q :: 0 <= q < k.n && q != p ==> t.pc[q] == s.pc[q] && t.saved[q] == s.saved[q])
  {
    hide Wants, Drops, Moved;
  }

  /** The steps of a yield. */
  lemma YieldSteps(k: Params, s: State, step: Step)
    requires Shape(k, s) && Enabled(k, s, step) && !step.Dispatch? && !step.Back?
    requires var p := s.cproc[step.c];
        ProcOk(s.st[p], s.chan[p], s.pc[p], s.saved[p], p, true) && !OwnStep(s, step, p) && !SlotStep(s, step, p)
    ensures var t, p := Apply(k, s, step), s.cproc[step.c];
        |t.pc| == |t.saved| == k.n && Cur(t.pc[p], t.saved[p]) == Cur(s.pc[p], s.saved[p])
  {
  }

  /** Timer interrupts, switches and the steps of others never change where a process is in its calls. */
  lemma YieldInvisible(k: Params, s: State, step: Step, q: int)
    requires Reachable(k, s) && Shape(k, s) && Enabled(k, s, step) && 0 <= q < k.n
    requires !OwnStep(s, step, q) && !SlotStep(s, step, q)
    ensures var t := Apply(k, s, step);
        |t.pc| == |t.saved| == k.n && Cur(t.pc[q], t.saved[q]) == Cur(s.pc[q], s.saved[q])
  {
    hide CpuInv, ProcInv, LockInv, ForkInv, WakeInv, SideInv, ParentInv, ExitInv, PidInv, OwnInv, Can, ProcStep,
        SlotStep;
    ReachInv(k, s);
    if !step.Dispatch? && !step.Back? && s.cproc[step.c] == q {
      Executing(k, s, step.c);
      YieldSteps(k, s, step);
    } else {
      OthersPc(k, s, step, q);
    }
  }

  /** A timer interrupt may preempt a process exactly while its CPU holds no spinlock, and its own lock is free. */
  lemma PreemptIff(k: Params, s: State, c: int)
    requires Reachable(k, s) && Shape(k, s) && Exec(k, s, c)
    ensures Enabled(k, s, Preempt(c)) <==>
        (forall x :: x in s.holder ==> s.holder[x] != c) && P(s.cproc[c]) !in s.holder
  {
    hide CpuInv, ProcInv, ForkInv, WakeInv, SideInv, ParentInv, ExitInv, PidInv, OwnInv;
    ReachInv(k, s);
    Executing(k, s, c);
    var p := s.cproc[c];
    assert CpuLocks(s.csched, s.cproc, s.pc, c) == Locks(p, s.pc[p]);
    if forall x :: x in s.holder ==> s.holder[x] != c {
      forall x | x in Locks(p, s.pc[p]) ensures x in s.holder && s.holder[x] == c {
        assert x in CpuLocks(s.csched, s.cproc, s.pc, c);
      }
      assert Locks(p, s.pc[p]) == {};
      NoLocks(p, s.pc[p], s.st[p], s.chan[p], s.saved[p]);
    }
  }

  lemma NoLocks(p: int, pc: Pc, x: PState, ch: Chan, saved: Pc)
    requires Locks(p, pc) == {} && ProcOk(x, ch, pc, saved, p, true)
    ensures Preemptible(pc)
  {
  }

  /** What process q does by itself. */
  predicate Itself(s: State, step: Step, q: int) { 0 <= step.c < |s.cproc| && s.cproc[step.c] == q }

  /** The step is a process other than q, at its action on slot q. */
  predicate AtSlot(s: State, step: Step, q: int) {
    && 0 <= step.c < |s.cproc| && 0 <= s.cproc[step.c] < |s.pc| && s.cproc[step.c] != q
    && match s.pc[s.cproc[step.c]]
       case Wk(_, i, _) => i == q
       case WtScan(j, _) => j == q
       case FkHold(j) => j == q
       case FkReady(j) => j == q
       case _ => false
  }

  /** How the state of process q may change: by whom, and at which step. */
  predicate Turns(s: State, step: Step, q: int, x: PState, y: PState)
    requires 0 <= q < |s.chan| && 0 <= q < |s.parent|
  {
    match (x, y)
    case (UNUSED, USED) => step.Alloc? && step.j == q
    case (USED, RUNNABLE) => step.MakeReady? && AtSlot(s, step, q)
    case (USED, UNUSED) => step.ForkFailed? && AtSlot(s, step, q)
    case (RUNNABLE, RUNNING) => step.Dispatch? && step.j == q
    case (RUNNING, RUNNABLE) => step.Preempt? && Itself(s, step, q)
    case (RUNNING, SLEEPING) => step.GoToSleep? && Itself(s, step, q)
    case (RUNNING, ZOMBIE) => step.BecomeZombie? && Itself(s, step, q)
    case (SLEEPING, RUNNABLE) =>
      || (step.Kill? && step.j == q)
      || (step.WakeOne? && AtSlot(s, step, q) && var a := s.pc[s.cproc[step.c]]; a.Wk? && a.ch == s.chan[q])
    case (ZOMBIE, UNUSED) => step.Reap? && AtSlot(s, step, q) && s.parent[q] == s.cproc[step.c]
    case _ => false
  }

  lemma OtherTurns(k: Params, s: State, step: Step)
    requires Shape(k, s) && Enabled(k, s, step)
    requires step.Call? || step.Acquire? || step.Release? || step.Move? || step.TakeLock? || step.ClearLock?
        || step.Swtch?
        || step.Resumed? || step.ReapFailed? || step.Adopt? || step.AllocFailed? || step.ForkCopied? || step.SetParent?
        || step.Back?
    ensures Apply(k, s, step).st == s.st
  {
    hide Wants, Drops, Moved;
  }

  /** The step leaves slot q in its state or turns it. */
  predicate TurnsAt(k: Params, s: State, step: Step, t: State, q: int)
    requires Shape(k, s) && 0 <= q < k.n
  {
    |t.st| == k.n && (t.st[q] == s.st[q] || Turns(s, step, q, s.st[q], t.st[q]))
  }

  lemma OwnTurns(k: Params, s: State, step: Step, q: int)
    requires StateInv(k, s) && Enabled(k, s, step) && 0 <= q < k.n
    requires step.GoToSleep? || step.BecomeZombie? || step.Preempt?
    ensures TurnsAt(k, s, step, Apply(k, s, step), q)
  {
    hide CpuInv, ProcInv, Wants, Drops, Moved;
    Executing(k, s, step.c);
  }

  lemma WakeTurns(k: Params, s: State, step: Step, q: int)
    requires Shape(k, s) && Enabled(k, s, step) && 0 <= q < k.n
    requires step.WakeOne? || step.Kill? || step.Dispatch? || step.Alloc?
    ensures TurnsAt(k, s, step, Apply(k, s, step), q)
  {
    hide Wants, Drops, Moved;
  }

  lemma ForkTurns(k: Params, s: State, step: Step, q: int)
    requires ControlInv(k, s) && Enabled(k, s, step) && 0 <= q < k.n && (step.ForkFailed? || step.MakeReady?)
    ensures TurnsAt(k, s, step, Apply(k, s, step), q)
  {
    hide CpuInv, ProcInv, LockInv, ForkInv, Wants, Drops, Moved, Can, ProcStep;
    if step.ForkFailed? { FailTurns(k, s, step.c, q); } else { ReadyTurns(k, s, step.c, q); }
  }

  lemma FailTurns(k: Params, s: State, c: int, q: int)
    requires ControlInv(k, s) && Enabled(k, s, ForkFailed(c)) && 0 <= q < k.n
    ensures TurnsAt(k, s, ForkFailed(c), Apply(k, s, ForkFailed(c)), q)
  {
    hide CpuInv, ProcInv, LockInv, ForkInv, Wants, Drops, Moved;
    ForkSlot(k, s, c);
  }

  lemma ReadyTurns(k: Params, s: State, c: int, q: int)
    requires ControlInv(k, s) && Enabled(k, s, MakeReady(c)) && 0 <= q < k.n
    ensures TurnsAt(k, s, MakeReady(c), Apply(k, s, MakeReady(c)), q)
  {
    hide CpuInv, ProcInv, LockInv, ForkInv, Wants, Drops, Moved;
    ForkSlot(k, s, c);
  }

  lemma ReapTurns(k: Params, s: State, c: int, q: int)
    requires Inv(k, s) && Enabled(k, s, Reap(c)) && 0 <= q < k.n
    ensures TurnsAt(k, s, Reap(c), Apply(k, s, Reap(c)), q)
  {
    hide CpuInv, ProcInv, LockInv, ForkInv, WakeInv, SideInv, ParentInv, ExitInv, PidInv, OwnInv, Wants, Drops, Moved;
    NotOwnChild(k, s, c);
  }

  /** The life of a slot: its state changes in nine ways, each at its own step. */
  lemma StateTurns(k: Params, s: State, step: Step, q: int)
    requires Reachable(k, s) && Shape(k, s) && Enabled(k, s, step) && 0 <= q < k.n
    ensures TurnsAt(k, s, step, Apply(k, s, step), q)
  {
    hide CpuInv, ProcInv, LockInv, ForkInv, WakeInv, SideInv, ParentInv, ExitInv, PidInv, OwnInv, Can, ProcStep, Turns;
    ReachInv(k, s);
    if step.GoToSleep? || step.BecomeZombie? || step.Preempt? {
      OwnTurns(k, s, step, q);
    } else if step.WakeOne? || step.Kill? || step.Dispatch? || step.Alloc? {
      WakeTurns(k, s, step, q);
    } else if step.ForkFailed? || step.MakeReady? {
      ForkTurns(k, s, step, q);
    } else if step.Reap? {
      ReapTurns(k, s, step.c, q);
    } else {
      OtherTurns(k, s, step);
    }
  }

  lemma NotOwnChild(k: Params, s: State, c: int)
    requires Inv(k, s) && Enabled(k, s, Reap(c))
    ensures s.pc[s.cproc[c]].j != s.cproc[c]
  {
    hide CpuInv, ProcInv, LockInv, ForkInv, WakeInv, SideInv, ExitInv, PidInv, OwnInv, Wants, Drops, Moved;
  }

  // ----- kill -----

  /** The step frees slot j. */
  predicate Frees(s: State, step: Step, j: int) {
    && (step.Reap? || step.ForkFailed?) && 0 <= step.c < |s.cproc| && 0 <= s.cproc[step.c] < |s.pc|
    && var pc := s.pc[s.cproc[step.c]]; (pc.WtScan? || pc.FkHold?) && pc.j == j
  }

  lemma KilledStep(k: Params, s: State, step: Step, j: int)
    requires Shape(k, s) && Enabled(k, s, step) && 0 <= j < k.n
    ensures var t := Apply(k, s, step);
        && |t.killed| == k.n
        && t.killed[j] == ((step.Kill? && step.j == j) || (s.killed[j] && !Frees(s, step, j)))
  {
    hide Wants, Drops, Moved;
    if !step.Reap? && !step.ForkFailed? && !step.Kill? { KilledKept(k, s, step); }
  }

  lemma KilledKept(k: Params, s: State, step: Step)
    requires Shape(k, s) && Enabled(k, s, step) && !step.Reap? && !step.ForkFailed? && !step.Kill?
    ensures Apply(k, s, step).killed == s.killed
  {
    hide Wants, Drops, Moved;
  }

  /** kill found slot j at step m, and the slot was not freed since. */
  predicate KilledAt(states: seq<State>, steps: seq<Step>, i: nat, j: int, m: nat)
    requires i < |states| == |steps| + 1
  {
    m < i && steps[m].Kill? && steps[m].j == j && forall q {:trigger steps[q]} :: m < q < i ==>
        !Frees(states[q], steps[q], j)
  }

  /** A process is marked killed exactly if kill has found its slot since the slot was last freed. */
  lemma {:induction false} KilledIff(k: Params, states: seq<State>, steps: seq<Step>, i: nat, j: int)
    requires IsRun(k, states, steps) && i < |states| && 0 <= j < k.n
    ensures |states[i].killed| == k.n && (states[i].killed[j] <==> exists m: nat :: KilledAt(states, steps, i, j, m))
  {
    hide Apply, Enabled, Frees;
    if i > 0 {
      var h: nat := i - 1;
      KilledIff(k, states, steps, h, j);
      assert Next(k, states[h], steps[h], states[i]);
      KilledStep(k, states[h], steps[h], j);
      if steps[h].Kill? && steps[h].j == j { assert KilledAt(states, steps, i, j, h); }
      if m: nat :| KilledAt(states, steps, h, j, m) {
        if !Frees(states[h], steps[h], j) { assert KilledAt(states, steps, i, j, m); }
      }
      if m: nat :| KilledAt(states, steps, i, j, m) {
        if m < h { assert KilledAt(states, steps, h, j, m); }
        assert m < h ==> !Frees(states[h], steps[h], j);
      }
    }
  }

  /** kill wakes a sleeper: the process that was found is not asleep afterwards. */
  lemma KillWakes(k: Params, s: State, c: int, j: int)
    requires Shape(k, s) && Enabled(k, s, Kill(c, j))
    ensures var t := Apply(k, s, Kill(c, j));
        && t.killed[j] && t.st == (if s.st[j] == SLEEPING then s.st[j := RUNNABLE] else s.st)
        && t.pid == s.pid && t.parent == s.parent && t.pc == s.pc
  {
  }

  lemma UnusedStep(k: Params, s: State, step: Step, j: int)
    requires Shape(k, s) && Enabled(k, s, step) && 0 <= j < k.n && !Frees(s, step, j)
    ensures var t := Apply(k, s, step); |t.st| == k.n && (t.st[j] == UNUSED ==> s.st[j] == UNUSED)
  {
    hide Wants, Drops, Moved, Can, ProcStep;
    if step.Reap? || step.ForkFailed? || step.MakeReady? {
      UnusedEnds(k, s, step, j);
    } else if step.GoToSleep? || step.BecomeZombie? || step.Preempt? || step.WakeOne? || step.Kill? || step.Dispatch?
        || step.Alloc? {
      UnusedStays(k, s, step);
    } else {
      OtherTurns(k, s, step);
    }
  }

  lemma UnusedEnds(k: Params, s: State, step: Step, j: int)
    requires Shape(k, s) && Enabled(k, s, step) && 0 <= j < k.n && !Frees(s, step, j)
    requires step.Reap? || step.ForkFailed? || step.MakeReady?
    ensures var t := Apply(k, s, step); |t.st| == k.n && (t.st[j] == UNUSED ==> s.st[j] == UNUSED)
  {
    hide Wants, Drops, Moved;
  }

  lemma UnusedStays(k: Params, s: State, step: Step)
    requires Shape(k, s) && Enabled(k, s, step)
    requires step.GoToSleep? || step.BecomeZombie? || step.Preempt? || step.WakeOne? || step.Kill? || step.Dispatch?
        || step.Alloc?
    ensures var t := Apply(k, s, step);
        |t.st| == k.n && forall j :: 0 <= j < k.n && t.st[j] == UNUSED ==> s.st[j] == UNUSED
  {
    hide Wants, Drops, Moved;
  }

  lemma {:induction false} UnusedSince(k: Params, states: seq<State>, steps: seq<Step>, i: nat, j: int, m: nat)
    requires IsRun(k, states, steps) && m < i < |states| && 0 <= j < k.n && |states[i].st| == k.n
    requires states[i].st[j] == UNUSED && forall q {:trigger steps[q]} :: m <= q < i ==> !Frees(states[q], steps[q], j)
    ensures |states[m].st| == |states[m].pid| == k.n && states[m].st[j] == UNUSED && states[m].pid[j] == 0
    decreases i
  {
    hide Apply, Enabled, Frees, Inv, More;
    var h: nat := i - 1;
    assert Next(k, states[h], steps[h], states[i]);
    UnusedStep(k, states[h], steps[h], j);
    if m < h {
      UnusedSince(k, states, steps, h, j, m);
    } else {
      RunMore(k, states, steps, m);
      UnusedPid(k, states[m], j);
    }
  }

  lemma UnusedPid(k: Params, s: State, j: int)
    requires Shape(k, s) && More(k, s) && 0 <= j < k.n && s.st[j] == UNUSED
    ensures s.pid[j] == 0
  {
  }

  /**
    A new process starts marked killed exactly if, since its slot was last freed, some kill(pid) found the slot
    while it was unused: with pid 0, which kill does not refuse.
   */
  lemma BornKilledIff(k: Params, states: seq<State>, steps: seq<Step>, i: nat, c: int, j: int)
    requires IsRun(k, states, steps) && i < |steps| && steps[i] == Alloc(c, j)
    ensures 0 <= j < k.n && |states[i + 1].killed| == k.n
    ensures states[i + 1].killed[j] <==> exists m: nat :: KilledAt(states, steps, i, j, m)
    ensures forall m: nat :: KilledAt(states, steps, i, j, m) ==> |states[m].pid| == k.n && states[m].pid[j] == 0
  {
    hide Inv, Wants, Drops, Moved, Frees;
    assert Next(k, states[i], steps[i], states[i + 1]);
    KilledIff(k, states, steps, i, j);
    KilledStep(k, states[i], steps[i], j);
    NotFreed(states[i], steps[i], j);
    forall m: nat | KilledAt(states, steps, i, j, m) ensures |states[m].pid| == k.n && states[m].pid[j] == 0 {
      NotFreed(states[m], steps[m], j);
      UnusedSince(k, states, steps, i, j, m);
    }
  }

  lemma NotFreed(s: State, step: Step, j: int)
    requires step.Kill? || step.Alloc?
    ensures !Frees(s, step, j)
  {
  }
}

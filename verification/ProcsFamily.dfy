/**
  fork, exit and wait (kernel/proc.c): who is whose parent, and what becomes of each pid.
 */
module ProcsFamily {
  import opened Procs

  predicate Alive(x: PState) { x == SLEEPING || x == RUNNABLE || x == RUNNING }

  predicate Started(x: PState) { Alive(x) || x == ZOMBIE }

  /** Parents are live processes; every process that has started, except init, has one. */
  ghost predicate ParentInv(k: Params, st: seq<PState>, parent: seq<int>)
    requires |st| == |parent| == k.n && ValidParams(k)
  {
    && Alive(st[k.init]) && parent[k.init] == -1
    && (forall z :: 0 <= z < k.n ==> -1 <= parent[z] < k.n && parent[z] != z)
    && (forall z :: 0 <= z < k.n && parent[z] >= 0 ==> Alive(st[parent[z]]))
    && (forall z {:trigger Started(st[z])} :: 0 <= z < k.n && z != k.init && Started(st[z]) ==> parent[z] >= 0)
  }

  /** exit has given away the children in proc[..Done]. */
  function Done(k: Params, pc: Pc): int {
    match pc
    case ExReparent(j) => j
    case Wk(_, _, r) => if r.AfterReparent? then r.j else if r.AfterParent? then k.n else 0
    case ExLock => k.n
    case ExZombie => k.n
    case _ => 0
  }

  predicate Exiting(pc: Pc) {
    pc.ExAcq? || pc.ExReparent? || pc.ExLock? || pc.ExZombie? || (pc.Wk? && !pc.r.AfterRelease?)
  }

  ghost predicate ExitInv(k: Params, pc: seq<Pc>, saved: seq<Pc>, parent: seq<int>)
    requires |pc| == |saved| == |parent| == k.n
  {
    && (forall q, z :: 0 <= q < k.n && 0 <= z < Done(k, pc[q]) && z < k.n ==> parent[z] != q)
    && (forall q :: 0 <= q < k.n && Exiting(Cur(pc[q], saved[q])) ==> q != k.init && 0 <= Done(k, pc[q]) <= k.n)
  }

  /** Each pid names one slot; an exited pid is a zombie there until it is reaped, once. */
  ghost predicate PidInv(k: Params, st: seq<PState>, pid: seq<int>, h: Hist)
    requires |st| == |pid| == k.n
  {
    && (forall z :: 0 <= z < k.n && st[z] != UNUSED ==>
          pid[z] < h.nextpid && pid[z] in h.slot && h.slot[pid[z]] == z && (st[z] == ZOMBIE <==> pid[z] in h.exited))
    && (forall z :: 0 <= z < k.n && st[z] == ZOMBIE ==> pid[z] !in h.reaped)
    && (forall x :: x in h.exited ==> x < h.nextpid)
    && (forall x :: x in h.exited && x !in h.reaped ==>
          x in h.slot && 0 <= h.slot[x] < k.n && st[h.slot[x]] == ZOMBIE && pid[h.slot[x]] == x)
    && (forall x :: x in h.reaped ==> x in h.exited)
    && (forall i, j :: 0 <= i < j < |h.reaped| ==> h.reaped[i] != h.reaped[j])
  }

  ghost predicate FamilyInv(k: Params, s: State)
    requires Shape(k, s)
  {
    ParentInv(k, s.st, s.parent) && ExitInv(k, s.pc, s.saved, s.parent) && PidInv(k, s.st, s.pid, s.h)
  }

  // ----- one component at a time -----

  lemma PcExit(k: Params, pc: seq<Pc>, saved: seq<Pc>, parent: seq<int>, p: int, pc': Pc)
    requires |pc| == |saved| == |parent| == k.n && ExitInv(k, pc, saved, parent) && 0 <= p < k.n
    requires Done(k, pc') <= 0 || Done(k, pc') == Done(k, pc[p]) || Done(k, pc') == Done(k, pc[p]) + 1
    requires Done(k, pc') == Done(k, pc[p]) + 1 && 0 <= Done(k, pc[p]) < k.n ==> parent[Done(k, pc[p])] != p
    requires Exiting(Cur(pc', saved[p])) ==> p != k.init && 0 <= Done(k, pc') <= k.n
    ensures ExitInv(k, pc[p := pc'], saved, parent)
  {
  }

  /** What the actions that acquire, release, test or switch do to an exit under way. */
  lemma ExitMoves(k: Params, s: State, p: int)
    requires Shape(k, s) && 0 <= p < k.n
    ensures Wants(p, s.pc[p]).0 ==> ExitStep(k, s.pc[p], Wants(p, s.pc[p]).2)
    ensures Drops(p, s.pc[p], s.saved[p]).0 && (s.pc[p].YRel? ==> Preemptible(s.saved[p])) ==>
              ExitStep(k, Cur(s.pc[p], s.saved[p]), Drops(p, s.pc[p], s.saved[p]).2)
    ensures Moved(k, s, p).0 && !s.pc[p].ExReparent? ==> ExitStep(k, s.pc[p], Moved(k, s, p).1)
  {
  }

  predicate ExitStep(k: Params, pc: Pc, pc': Pc) {
    (Done(k, pc') == 0 || Done(k, pc') == Done(k, pc)) && (Exiting(pc') ==> Exiting(pc)) && !pc'.YSched? && !pc'.YRel?
  }

  /** The common case: no more children given away, no exit begun. */
  lemma SameExit(k: Params, pc: seq<Pc>, saved: seq<Pc>, parent: seq<int>, p: int, pc': Pc)
    requires |pc| == |saved| == |parent| == k.n && ExitInv(k, pc, saved, parent) && 0 <= p < k.n
    requires ExitStep(k, Cur(pc[p], saved[p]), pc') && (Cur(pc[p], saved[p]) == pc[p] || Done(k, pc') == 0)
    ensures ExitInv(k, pc[p := pc'], saved, parent)
  {
  }

  lemma AliveParent(k: Params, st: seq<PState>, parent: seq<int>, i: int, x: PState)
    requires |st| == |parent| == k.n && ValidParams(k) && ParentInv(k, st, parent)
    requires 0 <= i < k.n && Alive(st[i]) && Alive(x)
    ensures ParentInv(k, st[i := x], parent)
  {
    assert Started(st[i]);
  }

  lemma AlivePid(k: Params, st: seq<PState>, pid: seq<int>, h: Hist, i: int, x: PState)
    requires |st| == |pid| == k.n && PidInv(k, st, pid, h)
    requires 0 <= i < k.n && st[i] != UNUSED && st[i] != ZOMBIE && x != UNUSED && x != ZOMBIE
    ensures PidInv(k, st[i := x], pid, h)
  {
  }

  lemma ZombiePid(k: Params, st: seq<PState>, pid: seq<int>, h: Hist, i: int)
    requires |st| == |pid| == k.n && PidInv(k, st, pid, h) && 0 <= i < k.n && Alive(st[i])
    ensures PidInv(k, st[i := ZOMBIE], pid, h.(exited := h.exited + {pid[i]}))
  {
  }

  lemma ReapPid(k: Params, st: seq<PState>, pid: seq<int>, h: Hist, i: int)
    requires |st| == |pid| == k.n && PidInv(k, st, pid, h) && 0 <= i < k.n && st[i] == ZOMBIE
    ensures PidInv(k, st[i := UNUSED], pid[i := 0], h.(reaped := h.reaped + [pid[i]]))
  {
  }

  lemma DropPid(k: Params, st: seq<PState>, pid: seq<int>, h: Hist, i: int)
    requires |st| == |pid| == k.n && PidInv(k, st, pid, h) && 0 <= i < k.n && st[i] == USED
    ensures PidInv(k, st[i := UNUSED], pid[i := 0], h)
  {
  }

  lemma NewPid(k: Params, st: seq<PState>, pid: seq<int>, h: Hist, j: int)
    requires |st| == |pid| == k.n && PidInv(k, st, pid, h) && 0 <= j < k.n && st[j] == UNUSED
    ensures PidInv(k, st[j := USED], pid[j := h.nextpid],
                   h.(nextpid := h.nextpid + 1, slot := h.slot[h.nextpid := j]))
  {
    var h2 := h.(nextpid := h.nextpid + 1, slot := h.slot[h.nextpid := j]);
    forall x | x in h2.exited && x !in h2.reaped ensures x in h2.slot && 0 <= h2.slot[x] < k.n && h2.slot[x] != j {
    }
  }

  /** freeproc of a process nobody has as parent. */
  lemma FreeParent(k: Params, st: seq<PState>, parent: seq<int>, i: int)
    requires |st| == |parent| == k.n && ValidParams(k) && ParentInv(k, st, parent)
    requires 0 <= i < k.n && !Alive(st[i])
    ensures ParentInv(k, st[i := UNUSED], parent[i := -1])
  {
  }

  lemma FreeExit(k: Params, pc: seq<Pc>, saved: seq<Pc>, parent: seq<int>, j: int)
    requires |pc| == |saved| == |parent| == k.n && ExitInv(k, pc, saved, parent) && 0 <= j < k.n
    ensures ExitInv(k, pc[j := NoThread], saved, parent[j := -1])
  {
  }

  lemma ZombieParent(k: Params, st: seq<PState>, pc: seq<Pc>, saved: seq<Pc>, parent: seq<int>, p: int)
    requires |st| == |pc| == |saved| == |parent| == k.n && ValidParams(k) && ParentInv(k, st, parent)
    requires ExitInv(k, pc, saved, parent) && 0 <= p < k.n && pc[p] == ExZombie && Alive(st[p])
    ensures ParentInv(k, st[p := ZOMBIE], parent)
  {
    assert Exiting(Cur(pc[p], saved[p])) && Started(st[p]);
    forall z | 0 <= z < k.n ensures parent[z] != p {
      assert z < Done(k, pc[p]);
    }
  }

  lemma AdoptParent(k: Params, st: seq<PState>, pc: seq<Pc>, saved: seq<Pc>, parent: seq<int>, p: int)
    requires |st| == |pc| == |saved| == |parent| == k.n && ValidParams(k) && ParentInv(k, st, parent)
    requires ExitInv(k, pc, saved, parent) && 0 <= p < k.n && pc[p].ExReparent? && 0 <= pc[p].j < k.n
        && parent[pc[p].j] == p
    ensures var j := pc[p].j;
            && ParentInv(k, st, parent[j := k.init])
            && ExitInv(k, pc[p := Wk(ProcCh(k.init), 0, AfterReparent(j + 1))], saved, parent[j := k.init])
  {
    assert Exiting(Cur(pc[p], saved[p]));
  }

  lemma NewParent(k: Params, st: seq<PState>, pc: seq<Pc>, saved: seq<Pc>, parent: seq<int>, p: int, j: int)
    requires |st| == |pc| == |saved| == |parent| == k.n && ValidParams(k) && ParentInv(k, st, parent)
    requires ExitInv(k, pc, saved, parent) && 0 <= p < k.n && pc[p] == FkParent(j) && st[p] == RUNNING
    requires 0 <= j < k.n && j != p && st[j] == USED
    ensures ParentInv(k, st, parent[j := p]) && ExitInv(k, pc[p := FkReady(j)], saved, parent[j := p])
  {
  }

  lemma ReadyParent(k: Params, st: seq<PState>, parent: seq<int>, j: int)
    requires |st| == |parent| == k.n && ValidParams(k) && ParentInv(k, st, parent)
    requires 0 <= j < k.n && st[j] == USED && parent[j] >= 0
    ensures ParentInv(k, st[j := RUNNABLE], parent)
  {
  }

  lemma AllocParent(k: Params, st: seq<PState>, parent: seq<int>, j: int)
    requires |st| == |parent| == k.n && ValidParams(k) && ParentInv(k, st, parent)
    requires 0 <= j < k.n && st[j] == UNUSED
    ensures ParentInv(k, st[j := USED], parent)
  {
  }

  lemma SwtchExit(k: Params, pc: seq<Pc>, saved: seq<Pc>, parent: seq<int>, p: int)
    requires |pc| == |saved| == |parent| == k.n && ExitInv(k, pc, saved, parent) && 0 <= p < k.n
    requires pc[p].SlSched? || pc[p].YSched? || pc[p].ExSched?
    ensures ExitInv(k, pc[p := if pc[p].SlSched? then SlWake(pc[p].w) else if pc[p].YSched? then YRel else Dead],
        saved, parent)
  {
  }

  lemma PreemptExit(k: Params, pc: seq<Pc>, saved: seq<Pc>, parent: seq<int>, p: int)
    requires |pc| == |saved| == |parent| == k.n && ExitInv(k, pc, saved, parent) && 0 <= p < k.n && Preemptible(pc[p])
    ensures ExitInv(k, pc[p := YSched], saved[p := pc[p]], parent)
  {
    assert Cur(pc[p], saved[p]) == pc[p];
  }

  // ----- every step keeps the family part -----

  lemma CallFamily(k: Params, s: State, c: int, to: Pc)
    requires StateInv(k, s) && FamilyInv(k, s) && Enabled(k, s, Call(c, to)) && Shape(k, Apply(k, s, Call(c, to)))
    ensures FamilyInv(k, Apply(k, s, Call(c, to)))
  {
    hide CpuInv, ProcInv, ParentInv, ExitInv, PidInv;
    Executing(k, s, c);
    var p, pc := s.cproc[c], s.pc[s.cproc[c]];
    PcExit(k, s.pc, s.saved, s.parent, p, to);
  }

  lemma AcquireFamily(k: Params, s: State, c: int)
    requires StateInv(k, s) && FamilyInv(k, s) && Enabled(k, s, Acquire(c)) && Shape(k, Apply(k, s, Acquire(c)))
    ensures FamilyInv(k, Apply(k, s, Acquire(c)))
  {
    hide CpuInv, ProcInv, ParentInv, ExitInv, PidInv;
    Executing(k, s, c);
    var p, pc := s.cproc[c], s.pc[s.cproc[c]];
    ExitMoves(k, s, p);
    SameExit(k, s.pc, s.saved, s.parent, p, Wants(p, pc).2);
  }

  lemma ReleaseFamily(k: Params, s: State, c: int)
    requires StateInv(k, s) && FamilyInv(k, s) && Enabled(k, s, Release(c)) && Shape(k, Apply(k, s, Release(c)))
    ensures FamilyInv(k, Apply(k, s, Release(c)))
  {
    hide CpuInv, ProcInv, ParentInv, ExitInv, PidInv;
    Executing(k, s, c);
    var p, pc := s.cproc[c], s.pc[s.cproc[c]];
    ExitMoves(k, s, p);
    SameExit(k, s.pc, s.saved, s.parent, p, Drops(p, pc, s.saved[p]).2);
  }

  lemma MoveFamily(k: Params, s: State, c: int)
    requires StateInv(k, s) && FamilyInv(k, s) && Enabled(k, s, Move(c)) && Shape(k, Apply(k, s, Move(c)))
    ensures FamilyInv(k, Apply(k, s, Move(c)))
  {
    hide CpuInv, ProcInv, ParentInv, PidInv;
    Executing(k, s, c);
    var p, pc := s.cproc[c], s.pc[s.cproc[c]];
    ExitMoves(k, s, p);
    if pc.ExReparent? {
      PcExit(k, s.pc, s.saved, s.parent, p, Moved(k, s, p).1);
    } else {
      SameExit(k, s.pc, s.saved, s.parent, p, Moved(k, s, p).1);
    }
  }

  lemma TakeLockFamily(k: Params, s: State, c: int)
    requires StateInv(k, s) && FamilyInv(k, s) && Enabled(k, s, TakeLock(c)) && Shape(k, Apply(k, s, TakeLock(c)))
    ensures FamilyInv(k, Apply(k, s, TakeLock(c)))
  {
    hide CpuInv, ProcInv, ParentInv, ExitInv, PidInv;
    Executing(k, s, c);
    var p, pc := s.cproc[c], s.pc[s.cproc[c]];
    SameExit(k, s.pc, s.saved, s.parent, p, AsRel(pc.l));
  }

  lemma ClearLockFamily(k: Params, s: State, c: int)
    requires StateInv(k, s) && FamilyInv(k, s) && Enabled(k, s, ClearLock(c)) && Shape(k, Apply(k, s, ClearLock(c)))
    ensures FamilyInv(k, Apply(k, s, ClearLock(c)))
  {
    hide CpuInv, ProcInv, ParentInv, ExitInv, PidInv;
    Executing(k, s, c);
    var p, pc := s.cproc[c], s.pc[s.cproc[c]];
    SameExit(k, s.pc, s.saved, s.parent, p, Wk(LockCh(pc.l), 0, AfterRelease(pc.l)));
  }

  lemma WakeFamily(k: Params, s: State, ch: Chan, i: int)
    requires Shape(k, s) && FamilyInv(k, s) && 0 <= i < k.n
    ensures FamilyInv(k, Wake(k, s, ch, i))
  {
    hide CpuInv, ProcInv, ParentInv, ExitInv, PidInv;
    if s.st[i] == SLEEPING {
      AliveParent(k, s.st, s.parent, i, RUNNABLE);
      AlivePid(k, s.st, s.pid, s.h, i, RUNNABLE);
    }
  }

  lemma WakeOneFamily(k: Params, s: State, c: int)
    requires StateInv(k, s) && FamilyInv(k, s) && Enabled(k, s, WakeOne(c)) && Shape(k, Apply(k, s, WakeOne(c)))
    ensures FamilyInv(k, Apply(k, s, WakeOne(c)))
  {
    hide CpuInv, ProcInv, ParentInv, ExitInv, PidInv;
    var p, pc := s.cproc[c], s.pc[s.cproc[c]];
    var pc' := Wk(pc.ch, pc.i + 1, pc.r);
    SameExit(k, s.pc, s.saved, s.parent, p, pc');
    WakeFamily(k, Goto(s, p, pc'), pc.ch, pc.i);
  }

  lemma GoToSleepFamily(k: Params, s: State, c: int)
    requires StateInv(k, s) && FamilyInv(k, s) && Enabled(k, s, GoToSleep(c)) && Shape(k, Apply(k, s, GoToSleep(c)))
    ensures FamilyInv(k, Apply(k, s, GoToSleep(c)))
  {
    hide CpuInv, ProcInv, ParentInv, ExitInv, PidInv;
    Executing(k, s, c);
    var p, pc := s.cproc[c], s.pc[s.cproc[c]];
    SameExit(k, s.pc, s.saved, s.parent, p, SlSched(pc.w));
    AliveParent(k, s.st, s.parent, p, SLEEPING);
    AlivePid(k, s.st, s.pid, s.h, p, SLEEPING);
  }

  lemma SwtchFamily(k: Params, s: State, c: int)
    requires StateInv(k, s) && FamilyInv(k, s) && Enabled(k, s, Swtch(c)) && Shape(k, Apply(k, s, Swtch(c)))
    ensures FamilyInv(k, Apply(k, s, Swtch(c)))
  {
    hide CpuInv, ProcInv, ParentInv, ExitInv, PidInv;
    Executing(k, s, c);
    var p, pc := s.cproc[c], s.pc[s.cproc[c]];
    SwtchExit(k, s.pc, s.saved, s.parent, p);
  }

  lemma ResumedFamily(k: Params, s: State, c: int)
    requires StateInv(k, s) && FamilyInv(k, s) && Enabled(k, s, Resumed(c)) && Shape(k, Apply(k, s, Resumed(c)))
    ensures FamilyInv(k, Apply(k, s, Resumed(c)))
  {
    hide CpuInv, ProcInv, ParentInv, ExitInv, PidInv;
    Executing(k, s, c);
    var p, pc := s.cproc[c], s.pc[s.cproc[c]];
    SameExit(k, s.pc, s.saved, s.parent, p, SlUnlock(pc.w));
  }

  lemma ReapFamily(k: Params, s: State, c: int)
    requires StateInv(k, s) && FamilyInv(k, s) && Enabled(k, s, Reap(c)) && Shape(k, Apply(k, s, Reap(c)))
    ensures FamilyInv(k, Apply(k, s, Reap(c)))
  {
    hide CpuInv, ProcInv, ParentInv, ExitInv, PidInv;
    Executing(k, s, c);
    var p, pc := s.cproc[c], s.pc[s.cproc[c]];
    FreeParent(k, s.st, s.parent, pc.j);
    FreeExit(k, s.pc, s.saved, s.parent, pc.j);
    PcExit(k, s.pc[pc.j := NoThread], s.saved, s.parent[pc.j := -1], p, WtRel);
    ReapPid(k, s.st, s.pid, s.h, pc.j);
  }

  lemma ReapFailedFamily(k: Params, s: State, c: int)
    requires StateInv(k, s) && FamilyInv(k, s) && Enabled(k, s, ReapFailed(c)) && Shape(k, Apply(k, s, ReapFailed(c)))
    ensures FamilyInv(k, Apply(k, s, ReapFailed(c)))
  {
    hide CpuInv, ProcInv, ParentInv, ExitInv, PidInv;
    Executing(k, s, c);
    var p, pc := s.cproc[c], s.pc[s.cproc[c]];
    SameExit(k, s.pc, s.saved, s.parent, p, WtRel);
  }

  lemma AdoptFamily(k: Params, s: State, c: int)
    requires StateInv(k, s) && FamilyInv(k, s) && Enabled(k, s, Adopt(c)) && Shape(k, Apply(k, s, Adopt(c)))
    ensures FamilyInv(k, Apply(k, s, Adopt(c)))
  {
    hide CpuInv, ProcInv, ParentInv, ExitInv, PidInv;
    Executing(k, s, c);
    var p, pc := s.cproc[c], s.pc[s.cproc[c]];
    AdoptParent(k, s.st, s.pc, s.saved, s.parent, p);
  }

  lemma BecomeZombieFamily(k: Params, s: State, c: int)
    requires StateInv(k, s) && FamilyInv(k, s) && Enabled(k, s, BecomeZombie(c))
        && Shape(k, Apply(k, s, BecomeZombie(c)))
    ensures FamilyInv(k, Apply(k, s, BecomeZombie(c)))
  {
    hide CpuInv, ProcInv, ParentInv, ExitInv, PidInv;
    Executing(k, s, c);
    var p, pc := s.cproc[c], s.pc[s.cproc[c]];
    PcExit(k, s.pc, s.saved, s.parent, p, ExRelWait);
    ZombieParent(k, s.st, s.pc, s.saved, s.parent, p);
    ZombiePid(k, s.st, s.pid, s.h, p);
  }

  lemma PreemptFamily(k: Params, s: State, c: int)
    requires StateInv(k, s) && FamilyInv(k, s) && Enabled(k, s, Preempt(c)) && Shape(k, Apply(k, s, Preempt(c)))
    ensures FamilyInv(k, Apply(k, s, Preempt(c)))
  {
    hide CpuInv, ProcInv, ParentInv, ExitInv, PidInv;
    Executing(k, s, c);
    var p, pc := s.cproc[c], s.pc[s.cproc[c]];
    AliveParent(k, s.st, s.parent, p, RUNNABLE);
    AlivePid(k, s.st, s.pid, s.h, p, RUNNABLE);
    PreemptExit(k, s.pc, s.saved, s.parent, p);
  }

  lemma AllocFailedFamily(k: Params, s: State, c: int)
    requires StateInv(k, s) && FamilyInv(k, s) && Enabled(k, s, AllocFailed(c)) && Shape(k, Apply(k, s, AllocFailed(c)))
    ensures FamilyInv(k, Apply(k, s, AllocFailed(c)))
  {
    hide CpuInv, ProcInv, ParentInv, ExitInv, PidInv;
    Executing(k, s, c);
    var p, pc := s.cproc[c], s.pc[s.cproc[c]];
    SameExit(k, s.pc, s.saved, s.parent, p, Run);
  }

  lemma ForkFailedFamily(k: Params, s: State, c: int)
    requires StateInv(k, s) && FamilyInv(k, s) && Enabled(k, s, ForkFailed(c)) && Shape(k, Apply(k, s, ForkFailed(c)))
    requires s.st[s.pc[s.cproc[c]].j] == USED && s.pc[s.cproc[c]].j != s.cproc[c]
    ensures FamilyInv(k, Apply(k, s, ForkFailed(c)))
  {
    hide CpuInv, ProcInv, ParentInv, ExitInv, PidInv;
    Executing(k, s, c);
    var p, pc := s.cproc[c], s.pc[s.cproc[c]];
    FreeParent(k, s.st, s.parent, pc.j);
    FreeExit(k, s.pc, s.saved, s.parent, pc.j);
    PcExit(k, s.pc[pc.j := NoThread], s.saved, s.parent[pc.j := -1], p, Run);
    DropPid(k, s.st, s.pid, s.h, pc.j);
  }

  lemma ForkCopiedFamily(k: Params, s: State, c: int)
    requires StateInv(k, s) && FamilyInv(k, s) && Enabled(k, s, ForkCopied(c)) && Shape(k, Apply(k, s, ForkCopied(c)))
    requires s.st[s.pc[s.cproc[c]].j] == USED && s.pc[s.cproc[c]].j != s.cproc[c]
    ensures FamilyInv(k, Apply(k, s, ForkCopied(c)))
  {
    hide CpuInv, ProcInv, ParentInv, ExitInv, PidInv;
    Executing(k, s, c);
    var p, pc := s.cproc[c], s.pc[s.cproc[c]];
    PcExit(k, s.pc, s.saved, s.parent, pc.j, FkRet);
    PcExit(k, s.pc[pc.j := FkRet], s.saved, s.parent, p, FkParent(pc.j));
  }

  lemma SetParentFamily(k: Params, s: State, c: int)
    requires StateInv(k, s) && FamilyInv(k, s) && Enabled(k, s, SetParent(c)) && Shape(k, Apply(k, s, SetParent(c)))
    requires s.st[s.pc[s.cproc[c]].j] == USED && s.pc[s.cproc[c]].j != s.cproc[c]
    ensures FamilyInv(k, Apply(k, s, SetParent(c)))
  {
    hide CpuInv, ProcInv, ParentInv, ExitInv, PidInv;
    Executing(k, s, c);
    var p, pc := s.cproc[c], s.pc[s.cproc[c]];
    NewParent(k, s.st, s.pc, s.saved, s.parent, p, pc.j);
  }

  lemma MakeReadyFamily(k: Params, s: State, c: int)
    requires StateInv(k, s) && FamilyInv(k, s) && Enabled(k, s, MakeReady(c)) && Shape(k, Apply(k, s, MakeReady(c)))
    requires s.st[s.pc[s.cproc[c]].j] == USED && s.parent[s.pc[s.cproc[c]].j] >= 0
    ensures FamilyInv(k, Apply(k, s, MakeReady(c)))
  {
    hide CpuInv, ProcInv, ParentInv, ExitInv, PidInv;
    Executing(k, s, c);
    var p, pc := s.cproc[c], s.pc[s.cproc[c]];
    SameExit(k, s.pc, s.saved, s.parent, p, Run);
    ReadyParent(k, s.st, s.parent, pc.j);
    AlivePid(k, s.st, s.pid, s.h, pc.j, RUNNABLE);
  }

  lemma BackFamily(k: Params, s: State, c: int)
    requires StateInv(k, s) && FamilyInv(k, s) && Enabled(k, s, Back(c)) && Shape(k, Apply(k, s, Back(c)))
    ensures FamilyInv(k, Apply(k, s, Back(c)))
  {
    hide CpuInv, ProcInv, ParentInv, ExitInv, PidInv;
  }

  lemma AllocFamily(k: Params, s: State, c: int, j: int)
    requires StateInv(k, s) && FamilyInv(k, s) && Enabled(k, s, Alloc(c, j)) && Shape(k, Apply(k, s, Alloc(c, j)))
    ensures FamilyInv(k, Apply(k, s, Alloc(c, j)))
  {
    hide CpuInv, ProcInv, ParentInv, ExitInv, PidInv;
    Executing(k, s, c);
    var p, pc := s.cproc[c], s.pc[s.cproc[c]];
    SameExit(k, s.pc, s.saved, s.parent, p, FkHold(j));
    AllocParent(k, s.st, s.parent, j);
    NewPid(k, s.st, s.pid, s.h, j);
  }

  lemma KillFamily(k: Params, s: State, c: int, j: int)
    requires StateInv(k, s) && FamilyInv(k, s) && Enabled(k, s, Kill(c, j)) && Shape(k, Apply(k, s, Kill(c, j)))
    ensures FamilyInv(k, Apply(k, s, Kill(c, j)))
  {
    hide CpuInv, ProcInv, ParentInv, ExitInv, PidInv;
    if s.st[j] == SLEEPING {
      AliveParent(k, s.st, s.parent, j, RUNNABLE);
      AlivePid(k, s.st, s.pid, s.h, j, RUNNABLE);
    }
  }

  lemma DispatchFamily(k: Params, s: State, c: int, j: int)
    requires StateInv(k, s) && FamilyInv(k, s) && Enabled(k, s, Dispatch(c, j)) && Shape(k, Apply(k, s, Dispatch(c, j)))
    ensures FamilyInv(k, Apply(k, s, Dispatch(c, j)))
  {
    hide CpuInv, ProcInv, ParentInv, ExitInv, PidInv;
    AliveParent(k, s.st, s.parent, j, RUNNING);
    AlivePid(k, s.st, s.pid, s.h, j, RUNNING);
  }
}

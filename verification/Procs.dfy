/**
  Processes, spinlocks, sleep/wakeup, sleep-locks, fork/exit/wait and the scheduler
  (kernel/proc.c, kernel/sleeplock.c, kernel/spinlock.c) as interleaved steps of any
  number of CPUs.  Every acquire and release is a step of its own, except that a critical
  section which only touches data its own lock protects is one step.
 */
module Procs {

  datatype PState = UNUSED | USED | SLEEPING | RUNNABLE | RUNNING | ZOMBIE

  /** What a process sleeps on: a sleep-lock, or (in wait) its own struct proc. */
  datatype Chan = NoChan | LockCh(l: int) | ProcCh(p: int)

  /** The two callers of sleep(): acquiresleep(l) with lk->lk, and wait() with wait_lock. */
  datatype Waiter = OnLock(l: int) | OnChild

  /** Spinlocks: p->lock, wait_lock and the inner lock of a sleep-lock. */
  datatype LockId = P(p: int) | W | S(l: int)

  /** Where a wakeup loop continues: releasesleep, exit's reparent loop, exit after its parent is woken. */
  datatype Ret = AfterRelease(l: int) | AfterReparent(j: int) | AfterParent

  /** The next action of a process's kernel thread. */
  datatype Pc =
    | NoThread                        // UNUSED, or being set up by fork
    | Run                             // anywhere outside the calls below
    | AsAcq(l: int) | AsTest(l: int) | AsRel(l: int)                  // acquiresleep
    | SlAcq(w: Waiter)                // sleep: acquire(&p->lock)
    | SlRel(w: Waiter)                //        release(lk)
    | SlSet(w: Waiter)                //        p->chan = chan; p->state = SLEEPING
    | SlSched(w: Waiter)              //        sched()
    | SlWake(w: Waiter)               //        back from swtch: p->chan = 0
    | SlUnlock(w: Waiter)             //        release(&p->lock)
    | SlReacq(w: Waiter)              //        acquire(lk)
    | RsAcq(l: int) | RsClear(l: int) | RsRel(l: int)                 // releasesleep
    | Wk(ch: Chan, i: int, r: Ret)    // wakeup(ch), at proc[i]
    | WtAcq | WtScan(j: int, kids: bool) | WtRel                      // wait
    | ExAcq | ExReparent(j: int) | ExLock | ExZombie | ExRelWait | ExSched | Dead   // exit
    | FkAlloc | FkHold(j: int) | FkParent(j: int) | FkReady(j: int)   // fork
    | FkRet                           // forkret: release(&p->lock)
    | YSched | YRel                   // yield, inside p->lock

  /**
    Per process: state, chan, killed, pid, parent (-1: none), next action, and the action a
    yield returns to.  Per CPU: c->proc (-1: none) and whether its scheduler thread runs.
    `holder` maps a held spinlock to the CPU in lk->cpu; `owner` a held sleep-lock to the
    process that locked it.  History: `at`, the CPU a process is on; `forker`, the process
    that allocated a slot; `h`, what became of the pids.
   */
  datatype State = State(
    st: seq<PState>, chan: seq<Chan>, killed: seq<bool>, pid: seq<int>, parent: seq<int>,
    pc: seq<Pc>, saved: seq<Pc>,
    cproc: seq<int>, csched: seq<bool>,
    holder: map<LockId, int>, owner: map<int, int>,
    at: seq<int>, forker: seq<int>, h: Hist)

  /** Pids: the next one, where each was put, which have exited and which were reaped, in order. */
  datatype Hist = Hist(nextpid: int, slot: map<int, int>, exited: set<int>, reaped: seq<int>)

  /** NPROC and NCPU, and the index of initproc. */
  datatype Params = Params(n: int, ncpu: int, init: int)

  predicate ValidParams(k: Params) { 0 <= k.init < k.n && 1 <= k.ncpu }

  predicate Shape(k: Params, s: State) {
    && ValidParams(k)
    && |s.st| == |s.chan| == |s.killed| == |s.pid| == |s.parent| == k.n
    && |s.pc| == |s.saved| == |s.at| == |s.forker| == k.n
    && |s.cproc| == |s.csched| == k.ncpu
  }

  /** CPU c is executing the kernel thread of process c->proc. */
  predicate Exec(k: Params, s: State, c: int)
    requires Shape(k, s)
  {
    0 <= c < k.ncpu && !s.csched[c] && 0 <= s.cproc[c] < k.n
  }

  function ChanOf(p: int, w: Waiter): Chan { if w.OnLock? then LockCh(w.l) else ProcCh(p) }

  function LkOf(w: Waiter): LockId { if w.OnLock? then S(w.l) else W }

  /** The lock the next action of process p acquires, and what follows. */
  function Wants(p: int, pc: Pc): (r: (bool, LockId, Pc)) {
    match pc
    case AsAcq(l) => (true, S(l), AsTest(l))
    case RsAcq(l) => (true, S(l), RsClear(l))
    case WtAcq => (true, W, WtScan(0, false))
    case ExAcq => (true, W, ExReparent(0))
    case SlAcq(w) => (true, P(p), SlRel(w))
    case SlReacq(w) => (true, LkOf(w), if w.OnLock? then AsTest(w.l) else WtScan(0, false))
    case ExLock => (true, P(p), ExZombie)
    case _ => (false, W, Run)
  }

  /** The lock the next action of process p releases, and what follows. */
  function Drops(p: int, pc: Pc, saved: Pc): (r: (bool, LockId, Pc)) {
    match pc
    case AsRel(l) => (true, S(l), Run)
    case RsRel(l) => (true, S(l), Run)
    case WtRel => (true, W, Run)
    case SlRel(w) => (true, LkOf(w), SlSet(w))
    case SlUnlock(w) => (true, P(p), SlReacq(w))
    case ExRelWait => (true, W, ExSched)
    case YRel => (true, P(p), saved)
    case FkRet => (true, P(p), Run)
    case _ => (false, W, Run)
  }

  /** Interrupts are on: a timer interrupt may call yield. */
  predicate Preemptible(pc: Pc) {
    pc.Run? || pc.AsAcq? || pc.RsAcq? || pc.WtAcq? || pc.ExAcq? || pc.SlReacq? || pc.FkAlloc? || pc.FkParent?
        || pc.FkReady?
  }

  datatype Step =
    | Call(c: int, to: Pc)            // a process in Run enters one of the calls
    | Acquire(c: int)
    | Release(c: int)
    | Move(c: int)                    // a test or a loop step that only changes the next action
    | TakeLock(c: int)                // acquiresleep: lk->locked = 1
    | ClearLock(c: int)               // releasesleep: lk->locked = 0
    | WakeOne(c: int)                 // one round of wakeup
    | GoToSleep(c: int)
    | Swtch(c: int)                   // sched(): to this CPU's scheduler
    | Resumed(c: int)                 // sleep: p->chan = 0
    | Reap(c: int)                    // wait found a zombie child: freeproc
    | ReapFailed(c: int)              // ... but copyout failed
    | Adopt(c: int)                   // reparent: pp->parent = initproc
    | BecomeZombie(c: int)
    | Preempt(c: int)
    | Alloc(c: int, j: int)           // fork: allocproc found proc[j] UNUSED
    | AllocFailed(c: int)
    | ForkFailed(c: int)
    | ForkCopied(c: int)              // fork: release(&np->lock)
    | SetParent(c: int)
    | MakeReady(c: int)
    | Kill(c: int, j: int)
    | Dispatch(c: int, j: int)        // scheduler: acquire, RUNNING, c->proc = p, swtch
    | Back(c: int)                    // scheduler after swtch: c->proc = 0, release(&p->lock)

  predicate CallTarget(k: Params, s: State, p: int, to: Pc) {
    || to.AsAcq? || to.WtAcq? || to.FkAlloc?
    || (to.RsAcq? && to.l in s.owner && s.owner[to.l] == p)
    || (to.ExAcq? && p != k.init)
  }

  /** The loop steps and tests that leave everything but the next action as it is. */
  function Moved(k: Params, s: State, p: int): (r: (bool, Pc))
    requires Shape(k, s) && 0 <= p < k.n
  {
    match s.pc[p]
    case AsTest(l) => (l in s.owner, SlAcq(OnLock(l)))
    case Wk(ch, i, r) =>
      if i < k.n then (i == p, Wk(ch, i + 1, r))
      else
        (true,
         match r case AfterRelease(l) => RsRel(l) case AfterReparent(j) => ExReparent(j) case AfterParent => ExLock)
    case WtScan(j, kids) =>
      if 0 <= j < k.n then
        if s.parent[j] != p then (true, WtScan(j + 1, kids))
        else (P(j) !in s.holder && s.st[j] != ZOMBIE, WtScan(j + 1, true))
      else (P(p) !in s.holder, if !kids || s.killed[p] then WtRel else SlAcq(OnChild))
    case ExReparent(j) =>
      if 0 <= j < k.n then (s.parent[j] != p, ExReparent(j + 1))
      else (true, Wk(ProcCh(s.parent[p]), 0, AfterParent))
    case _ => (false, Run)
  }

  /** Process p, executing on CPU c, can take the step. */
  ghost predicate Can(k: Params, s: State, step: Step, p: int)
    requires Shape(k, s) && 0 <= p < k.n
  {
    var pc := s.pc[p];
    match step
    case Call(_, to) => pc.Run? && CallTarget(k, s, p, to)
    case Acquire(_) => Wants(p, pc).0 && Wants(p, pc).1 !in s.holder
    case Release(_) => Drops(p, pc, s.saved[p]).0
    case Move(_) => Moved(k, s, p).0
    case TakeLock(_) => pc.AsTest? && pc.l !in s.owner
    case ClearLock(_) => pc.RsClear?
    case WakeOne(_) => pc.Wk? && 0 <= pc.i < k.n && pc.i != p && P(pc.i) !in s.holder
    case GoToSleep(_) => pc.SlSet?
    case Swtch(_) => pc.SlSched? || pc.YSched? || pc.ExSched?
    case Resumed(_) => pc.SlWake?
    case Reap(_) => FoundZombie(k, s, p)
    case ReapFailed(_) => FoundZombie(k, s, p)
    case Adopt(_) => pc.ExReparent? && 0 <= pc.j < k.n && s.parent[pc.j] == p
    case BecomeZombie(_) => pc.ExZombie?
    case Preempt(_) => Preemptible(pc) && P(p) !in s.holder
    case Alloc(_, j) => pc.FkAlloc? && 0 <= j < k.n && P(j) !in s.holder && s.st[j] == UNUSED
    case AllocFailed(_) => pc.FkAlloc?
    case ForkFailed(_) => pc.FkHold? && 0 <= pc.j < k.n
    case ForkCopied(_) => pc.FkHold? && 0 <= pc.j < k.n
    case SetParent(_) => pc.FkParent? && 0 <= pc.j < k.n && W !in s.holder
    case MakeReady(_) => pc.FkReady? && 0 <= pc.j < k.n && P(pc.j) !in s.holder
    case Kill(_, j) => pc.Run? && 0 <= j < k.n && P(j) !in s.holder
    case _ => false
  }

  ghost predicate FoundZombie(k: Params, s: State, p: int)
    requires Shape(k, s) && 0 <= p < k.n
  {
    && s.pc[p].WtScan? && 0 <= s.pc[p].j < k.n && s.parent[s.pc[p].j] == p
    && P(s.pc[p].j) !in s.holder && s.st[s.pc[p].j] == ZOMBIE
  }

  ghost predicate Enabled(k: Params, s: State, step: Step)
    requires Shape(k, s)
  {
    if step.Dispatch? then
      && 0 <= step.c < k.ncpu && s.csched[step.c] && s.cproc[step.c] == -1
      && 0 <= step.j < k.n && P(step.j) !in s.holder && s.st[step.j] == RUNNABLE
    else if step.Back? then
      0 <= step.c < k.ncpu && s.csched[step.c] && 0 <= s.cproc[step.c] < k.n
    else
      Exec(k, s, step.c) && Can(k, s, step, s.cproc[step.c])
  }

  // ----- effects, for process p on CPU c -----

  function Goto(s: State, p: int, pc': Pc): State
    requires 0 <= p < |s.pc|
  {
    s.(pc := s.pc[p := pc'])
  }

  function SetState(s: State, j: int, x: PState): State
    requires 0 <= j < |s.st|
  {
    s.(st := s.st[j := x])
  }

  function Lock(s: State, x: LockId, c: int): State { s.(holder := s.holder[x := c]) }

  function Unlock(s: State, x: LockId): State { s.(holder := s.holder - {x}) }

  /** freeproc(proc[j]) */
  function FreeProc(k: Params, s: State, j: int): State
    requires Shape(k, s) && 0 <= j < k.n
  {
    s.(st := s.st[j := UNUSED], chan := s.chan[j := NoChan], killed := s.killed[j := false],
       pid := s.pid[j := 0], parent := s.parent[j := -1], pc := s.pc[j := NoThread])
  }

  /** One round of wakeup(ch) at proc[i]. */
  function Wake(k: Params, s: State, ch: Chan, i: int): State
    requires Shape(k, s) && 0 <= i < k.n
  {
    if s.st[i] == SLEEPING && s.chan[i] == ch then SetState(s, i, RUNNABLE) else s
  }

  function AllocProc(k: Params, s: State, p: int, c: int, j: int): State
    requires Shape(k, s) && 0 <= p < k.n && 0 <= j < k.n
  {
    Goto(s, p, FkHold(j)).(
      st := s.st[j := USED], pid := s.pid[j := s.h.nextpid], holder := s.holder[P(j) := c], forker := s.forker[j := p],
      h := s.h.(nextpid := s.h.nextpid + 1, slot := s.h.slot[s.h.nextpid := j]))
  }

  function KillProc(k: Params, s: State, j: int): State
    requires Shape(k, s) && 0 <= j < k.n
  {
    s.(killed := s.killed[j := true], st := if s.st[j] == SLEEPING then s.st[j := RUNNABLE] else s.st)
  }

  ghost function ProcStep(k: Params, s: State, step: Step, p: int): State
    requires Shape(k, s) && 0 <= p < k.n && Can(k, s, step, p)
  {
    var pc := s.pc[p];
    match step
    case Call(_, to) => Goto(s, p, to)
    case Acquire(c) => Lock(Goto(s, p, Wants(p, pc).2), Wants(p, pc).1, c)
    case Release(_) => Unlock(Goto(s, p, Drops(p, pc, s.saved[p]).2), Drops(p, pc, s.saved[p]).1)
    case Move(_) => Goto(s, p, Moved(k, s, p).1)
    case TakeLock(_) => Goto(s, p, AsRel(pc.l)).(owner := s.owner[pc.l := p])
    case ClearLock(_) => Goto(s, p, Wk(LockCh(pc.l), 0, AfterRelease(pc.l))).(owner := s.owner - {pc.l})
    case WakeOne(_) => Wake(k, Goto(s, p, Wk(pc.ch, pc.i + 1, pc.r)), pc.ch, pc.i)
    case GoToSleep(_) => SetState(Goto(s, p, SlSched(pc.w)), p, SLEEPING).(chan := s.chan[p := ChanOf(p, pc.w)])
    case Swtch(c) =>
      var s1 := Goto(s, p, if pc.SlSched? then SlWake(pc.w) else if pc.YSched? then YRel else Dead);
      if 0 <= c < k.ncpu then s1.(csched := s.csched[c := true]) else s1
    case Resumed(_) => Goto(s, p, SlUnlock(pc.w)).(chan := s.chan[p := NoChan])
    case Reap(_) => Goto(FreeProc(k, s, pc.j), p, WtRel).(h := s.h.(reaped := s.h.reaped + [s.pid[pc.j]]))
    case ReapFailed(_) => Goto(s, p, WtRel)
    case Adopt(_) =>
      Goto(s, p, Wk(ProcCh(k.init), 0, AfterReparent(pc.j + 1))).(parent := s.parent[pc.j := k.init])
    case BecomeZombie(_) =>
      SetState(Goto(s, p, ExRelWait), p, ZOMBIE).(h := s.h.(exited := s.h.exited + {s.pid[p]}))
    case Preempt(c) => Lock(SetState(Goto(s, p, YSched), p, RUNNABLE), P(p), c).(saved := s.saved[p := pc])
    case Alloc(c, j) => AllocProc(k, s, p, c, j)
    case AllocFailed(_) => Goto(s, p, Run)
    case ForkFailed(_) => Unlock(Goto(FreeProc(k, s, pc.j), p, Run), P(pc.j))
    case ForkCopied(_) => Unlock(Goto(Goto(s, pc.j, FkRet), p, FkParent(pc.j)), P(pc.j))
    case SetParent(_) => Goto(s, p, FkReady(pc.j)).(parent := s.parent[pc.j := p])
    case MakeReady(_) => SetState(Goto(s, p, Run), pc.j, RUNNABLE)
    case Kill(_, j) => KillProc(k, s, j)
  }

  function RunProc(k: Params, s: State, c: int, j: int): State
    requires Shape(k, s) && 0 <= c < k.ncpu && 0 <= j < k.n
  {
    s.(st := s.st[j := RUNNING], cproc := s.cproc[c := j], csched := s.csched[c := false],
       holder := s.holder[P(j) := c], at := s.at[j := c])
  }

  function SchedBack(k: Params, s: State, c: int): State
    requires Shape(k, s) && 0 <= c < k.ncpu && 0 <= s.cproc[c] < k.n
  {
    s.(cproc := s.cproc[c := -1], holder := s.holder - {P(s.cproc[c])}, at := s.at[s.cproc[c] := -1])
  }

  ghost function Apply(k: Params, s: State, step: Step): State
    requires Shape(k, s) && Enabled(k, s, step)
  {
    if step.Dispatch? then RunProc(k, s, step.c, step.j)
    else if step.Back? then SchedBack(k, s, step.c)
    else ProcStep(k, s, step, s.cproc[step.c])
  }

  // ----- invariant: CPUs, process states and spinlocks -----

  /** The process's kernel thread is executing on a CPU. */
  predicate On(csched: seq<bool>, a: int) { 0 <= a < |csched| && !csched[a] }

  ghost predicate CpuInv(k: Params, cproc: seq<int>, csched: seq<bool>, at: seq<int>)
    requires |cproc| == |csched| == k.ncpu && |at| == k.n
  {
    && (forall c :: 0 <= c < k.ncpu ==>
          -1 <= cproc[c] < k.n && (cproc[c] == -1 ==> csched[c]) && (cproc[c] >= 0 ==> at[cproc[c]] == c))
    && (forall p :: 0 <= p < k.n ==> -1 <= at[p] < k.ncpu && (at[p] >= 0 ==> cproc[at[p]] == p))
  }

  /** How state, chan and next action go together, for a process that is executing or not. */
  predicate ProcOk(x: PState, ch: Chan, pc: Pc, saved: Pc, p: int, on: bool) {
    && (pc.YSched? || pc.YRel? ==> Preemptible(saved))
    && if on then
         if pc.SlSched? then x == SLEEPING && ch == ChanOf(p, pc.w)
         else if pc.YSched? then x == RUNNABLE
         else if pc.ExRelWait? || pc.ExSched? then x == ZOMBIE
         else x == RUNNING && !pc.NoThread? && !pc.Dead?
       else
         match pc
         case NoThread => x == UNUSED || x == USED
         case FkRet => x == USED || x == RUNNABLE
         case SlWake(w) => x == RUNNABLE || (x == SLEEPING && ch == ChanOf(p, w))
         case YRel => x == RUNNABLE
         case Dead => x == ZOMBIE
         case _ => false
  }

  ghost predicate ProcInv(k: Params, st: seq<PState>, chan: seq<Chan>, pc: seq<Pc>, saved: seq<Pc>,
                          csched: seq<bool>, at: seq<int>)
    requires |st| == |chan| == |pc| == |saved| == |at| == k.n
  {
    forall p :: 0 <= p < k.n ==> ProcOk(st[p], chan[p], pc[p], saved[p], p, On(csched, at[p]))
  }

  /** The spinlocks an executing process p holds when its next action is pc; its size is noff. */
  function Locks(p: int, pc: Pc): set<LockId> {
    match pc
    case AsTest(l) => {S(l)}
    case AsRel(l) => {S(l)}
    case RsClear(l) => {S(l)}
    case RsRel(l) => {S(l)}
    case Wk(_, _, r) => if r.AfterRelease? then {S(r.l)} else {W}
    case SlAcq(w) => {LkOf(w)}
    case SlRel(w) => {LkOf(w), P(p)}
    case SlSet(_) => {P(p)}
    case SlSched(_) => {P(p)}
    case SlWake(_) => {P(p)}
    case SlUnlock(_) => {P(p)}
    case WtScan(_, _) => {W}
    case WtRel => {W}
    case ExReparent(_) => {W}
    case ExLock => {W}
    case ExZombie => {W, P(p)}
    case ExRelWait => {W, P(p)}
    case ExSched => {P(p)}
    case FkHold(j) => {P(j)}
    case FkRet => {P(p)}
    case YSched => {P(p)}
    case YRel => {P(p)}
    case _ => {}
  }

  /** The spinlocks held on CPU c. */
  function CpuLocks(csched: seq<bool>, cproc: seq<int>, pc: seq<Pc>, c: int): set<LockId> {
    if !(0 <= c < |csched| && c < |cproc| && 0 <= cproc[c] < |pc|) then {}
    else if csched[c] then {P(cproc[c])}
    else Locks(cproc[c], pc[cproc[c]])
  }

  /** A lock is held (lk->cpu == c) exactly while the thread on CPU c is between acquire and release. */
  ghost predicate LockInv(k: Params, holder: map<LockId, int>, cproc: seq<int>, csched: seq<bool>, pc: seq<Pc>)
    requires |cproc| == |csched| == k.ncpu
  {
    && (forall x :: x in holder ==> 0 <= holder[x] < k.ncpu && x in CpuLocks(csched, cproc, pc, holder[x]))
    && (forall c, x :: 0 <= c < k.ncpu && x in CpuLocks(csched, cproc, pc, c) ==> x in holder && holder[x] == c)
  }

  /** The action a process is in, also while it yields. */
  function Cur(pc: Pc, saved: Pc): Pc { if pc.YSched? || pc.YRel? then saved else pc }

  /** Process q, in fork, has proc[j] to itself. */
  predicate Forks(cur: Pc, q: int, j: int, x: PState, pcj: Pc, parent: int, forker: int) {
    && (cur == FkHold(j) ==> j != q && x == USED && forker == q && pcj == NoThread && parent == -1)
    && (cur == FkParent(j) ==> j != q && x == USED && forker == q && pcj == FkRet && parent == -1)
    && (cur == FkReady(j) ==> j != q && x == USED && forker == q && pcj == FkRet && parent == q)
  }

  ghost predicate ForkInv(k: Params, st: seq<PState>, pc: seq<Pc>, saved: seq<Pc>, parent: seq<int>, forker: seq<int>)
    requires |st| == |pc| == |saved| == |parent| == |forker| == k.n
  {
    && (forall q, j :: 0 <= q < k.n && 0 <= j < k.n ==>
          Forks(Cur(pc[q], saved[q]), q, j, st[j], pc[j], parent[j], forker[j]))
    && (forall q {:trigger pc[q]} :: 0 <= q < k.n ==>
          var cur := Cur(pc[q], saved[q]); cur.FkHold? || cur.FkParent? || cur.FkReady? ==> 0 <= cur.j < k.n)
    && (forall j :: 0 <= j < k.n && st[j] == UNUSED ==> parent[j] == -1 && pc[j] == NoThread)
  }

  ghost predicate StateInv(k: Params, s: State) {
    && Shape(k, s) && CpuInv(k, s.cproc, s.csched, s.at)
    && ProcInv(k, s.st, s.chan, s.pc, s.saved, s.csched, s.at)
  }

  ghost predicate ControlInv(k: Params, s: State) {
    && StateInv(k, s)
    && LockInv(k, s.holder, s.cproc, s.csched, s.pc)
    && ForkInv(k, s.st, s.pc, s.saved, s.parent, s.forker)
  }

  // ----- lock bookkeeping of one step -----

  /** Process p on CPU c changes its next action and holds the same locks. */
  lemma KeepLocks(k: Params, holder: map<LockId, int>, cproc: seq<int>, csched: seq<bool>, at: seq<int>, pc: seq<Pc>,
                  c: int, pc': Pc)
    requires |cproc| == |csched| == k.ncpu && |at| == |pc| == k.n && CpuInv(k, cproc, csched, at)
    requires LockInv(k, holder, cproc, csched, pc)
    requires 0 <= c < k.ncpu && !csched[c] && 0 <= cproc[c] < k.n
    requires Locks(cproc[c], pc') == Locks(cproc[c], pc[cproc[c]])
    ensures LockInv(k, holder, cproc, csched, pc[cproc[c] := pc'])
  {
    SameCpuLocks(k, cproc, csched, at, pc, c, pc');
  }

  /** A process's next action says nothing about the locks of other CPUs. */
  lemma SameCpuLocks(k: Params, cproc: seq<int>, csched: seq<bool>, at: seq<int>, pc: seq<Pc>, c: int, pc': Pc)
    requires |cproc| == |csched| == k.ncpu && |at| == |pc| == k.n && CpuInv(k, cproc, csched, at)
    requires 0 <= c < k.ncpu && !csched[c] && 0 <= cproc[c] < k.n
    ensures forall d {:trigger CpuLocks(csched, cproc, pc[cproc[c] := pc'], d)} :: 0 <= d < k.ncpu && d != c ==>
              CpuLocks(csched, cproc, pc[cproc[c] := pc'], d) == CpuLocks(csched, cproc, pc, d)
    ensures CpuLocks(csched, cproc, pc[cproc[c] := pc'], c) == Locks(cproc[c], pc')
    ensures CpuLocks(csched, cproc, pc, c) == Locks(cproc[c], pc[cproc[c]])
  {
    forall d | 0 <= d < k.ncpu && d != c
      ensures CpuLocks(csched, cproc, pc[cproc[c] := pc'], d) == CpuLocks(csched, cproc, pc, d)
    {
      assert cproc[d] != cproc[c];
    }
  }

  lemma AddLock(k: Params, holder: map<LockId, int>, cproc: seq<int>, csched: seq<bool>, at: seq<int>, pc: seq<Pc>,
                c: int, pc': Pc, x: LockId)
    requires |cproc| == |csched| == k.ncpu && |at| == |pc| == k.n && CpuInv(k, cproc, csched, at)
    requires LockInv(k, holder, cproc, csched, pc)
    requires 0 <= c < k.ncpu && !csched[c] && 0 <= cproc[c] < k.n && x !in holder
    requires Locks(cproc[c], pc') == Locks(cproc[c], pc[cproc[c]]) + {x}
    ensures LockInv(k, holder[x := c], cproc, csched, pc[cproc[c] := pc'])
  {
    SameCpuLocks(k, cproc, csched, at, pc, c, pc');
  }

  lemma DropLock(k: Params, holder: map<LockId, int>, cproc: seq<int>, csched: seq<bool>, at: seq<int>, pc: seq<Pc>,
                 c: int, pc': Pc, x: LockId)
    requires |cproc| == |csched| == k.ncpu && |at| == |pc| == k.n && CpuInv(k, cproc, csched, at)
    requires LockInv(k, holder, cproc, csched, pc)
    requires 0 <= c < k.ncpu && !csched[c] && 0 <= cproc[c] < k.n
    requires Locks(cproc[c], pc') == Locks(cproc[c], pc[cproc[c]]) - {x} && x in Locks(cproc[c], pc[cproc[c]])
    ensures LockInv(k, holder - {x}, cproc, csched, pc[cproc[c] := pc'])
  {
    assert x in CpuLocks(csched, cproc, pc, c) && holder[x] == c;
    SameCpuLocks(k, cproc, csched, at, pc, c, pc');
  }

  lemma WantsLocks(p: int, pc: Pc)
    requires Wants(p, pc).0
    ensures var (_, x, pc') := Wants(p, pc); Locks(p, pc') == Locks(p, pc) + {x}
    ensures forall st, ch, saved :: ProcOk(st, ch, pc, saved, p, true) ==>
        ProcOk(st, ch, Wants(p, pc).2, saved, p, true)
  {
  }

  lemma DropsLocks(p: int, pc: Pc, saved: Pc)
    requires Drops(p, pc, saved).0 && (pc.YRel? ==> Preemptible(saved))
    ensures var (_, x, pc') := Drops(p, pc, saved); Locks(p, pc') == Locks(p, pc) - {x} && x in Locks(p, pc)
    ensures forall st, ch :: ProcOk(st, ch, pc, saved, p, true) ==>
        ProcOk(st, ch, Drops(p, pc, saved).2, saved, p, true)
  {
  }

  lemma MovedLocks(k: Params, s: State, p: int)
    requires Shape(k, s) && 0 <= p < k.n && Moved(k, s, p).0
    ensures Locks(p, Moved(k, s, p).1) == Locks(p, s.pc[p])
    ensures forall st, ch, saved :: ProcOk(st, ch, s.pc[p], saved, p, true) ==>
        ProcOk(st, ch, Moved(k, s, p).1, saved, p, true)
  {
  }

  predicate InFork(pc: Pc) { pc.FkHold? || pc.FkParent? || pc.FkReady? }

  /** Process p changes its next action without entering or leaving the middle of fork. */
  lemma KeepFork(k: Params, st: seq<PState>, pc: seq<Pc>, saved: seq<Pc>, parent: seq<int>, forker: seq<int>,
                 p: int, pc': Pc)
    requires |st| == |pc| == |saved| == |parent| == |forker| == k.n && ForkInv(k, st, pc, saved, parent, forker)
    requires 0 <= p < k.n && st[p] != USED && st[p] != UNUSED
    requires Cur(pc', saved[p]) == Cur(pc[p], saved[p])
        || (!InFork(Cur(pc[p], saved[p])) && !InFork(Cur(pc', saved[p])))
    ensures ForkInv(k, st, pc[p := pc'], saved, parent, forker)
  {
  }

  /** A change of state that does not involve a slot being set up. */
  lemma KeepForkState(k: Params, st: seq<PState>, pc: seq<Pc>, saved: seq<Pc>, parent: seq<int>, forker: seq<int>,
                      i: int, x: PState)
    requires |st| == |pc| == |saved| == |parent| == |forker| == k.n && ForkInv(k, st, pc, saved, parent, forker)
    requires 0 <= i < k.n && st[i] != USED && x != UNUSED
    ensures ForkInv(k, st[i := x], pc, saved, parent, forker)
  {
  }

  lemma KeepForkSaved(k: Params, st: seq<PState>, pc: seq<Pc>, saved: seq<Pc>, parent: seq<int>, forker: seq<int>,
      p: int)
    requires |st| == |pc| == |saved| == |parent| == |forker| == k.n && ForkInv(k, st, pc, saved, parent, forker)
    requires 0 <= p < k.n && st[p] != USED && st[p] != UNUSED && !pc[p].YSched? && !pc[p].YRel?
    ensures ForkInv(k, st, pc[p := YSched], saved[p := pc[p]], parent, forker)
  {
  }

  /** proc[j] is freed; its lock is not held by a forking process. */
  lemma FreeFork(k: Params, st: seq<PState>, pc: seq<Pc>, saved: seq<Pc>, parent: seq<int>, forker: seq<int>, j: int)
    requires |st| == |pc| == |saved| == |parent| == |forker| == k.n && ForkInv(k, st, pc, saved, parent, forker)
    requires 0 <= j < k.n && !InFork(Cur(pc[j], saved[j]))
    requires st[j] == USED ==> 0 <= forker[j] < k.n && !InFork(Cur(pc[forker[j]], saved[forker[j]]))
    ensures ForkInv(k, st[j := UNUSED], pc[j := NoThread], saved, parent[j := -1], forker)
  {
  }

  /** A process that is executing. */
  lemma Executing(k: Params, s: State, c: int)
    requires StateInv(k, s) && Exec(k, s, c)
    ensures var p := s.cproc[c];
            s.at[p] == c && On(s.csched, s.at[p]) && s.st[p] != USED && s.st[p] != UNUSED
            && ProcOk(s.st[p], s.chan[p], s.pc[p], s.saved[p], p, true)
  {
  }

  /** p->lock is free: the process is either executing outside it or not on a CPU at all. */
  lemma LockFree(k: Params, s: State, i: int)
    requires ControlInv(k, s) && 0 <= i < k.n && P(i) !in s.holder
    ensures s.at[i] >= 0 ==> On(s.csched, s.at[i]) && P(i) !in Locks(i, s.pc[i])
    ensures s.st[i] == SLEEPING ==> s.at[i] == -1 && s.pc[i].SlWake? && s.chan[i] == ChanOf(i, s.pc[i].w)
    ensures s.st[i] == ZOMBIE ==> s.at[i] == -1 && s.pc[i] == Dead
    ensures s.st[i] == RUNNABLE ==> s.at[i] == -1
  {
    if s.at[i] >= 0 {
      assert P(i) !in CpuLocks(s.csched, s.cproc, s.pc, s.at[i]);
    }
    assert ProcOk(s.st[i], s.chan[i], s.pc[i], s.saved[i], i, On(s.csched, s.at[i]));
  }

  /** Changing the next action of a process that is on no CPU. */
  lemma OffCpuLocks(k: Params, holder: map<LockId, int>, cproc: seq<int>, csched: seq<bool>, at: seq<int>, pc: seq<Pc>,
                    j: int, pc': Pc)
    requires |cproc| == |csched| == k.ncpu && |at| == |pc| == k.n && CpuInv(k, cproc, csched, at)
    requires LockInv(k, holder, cproc, csched, pc) && 0 <= j < k.n && at[j] == -1
    ensures LockInv(k, holder, cproc, csched, pc[j := pc'])
  {
    var pc2 := pc[j := pc'];
    forall d ensures CpuLocks(csched, cproc, pc2, d) == CpuLocks(csched, cproc, pc, d) {}
  }

  /** swtch hands p->lock from the process to the scheduler. */
  lemma HandOver(k: Params, holder: map<LockId, int>, cproc: seq<int>, csched: seq<bool>, at: seq<int>, pc: seq<Pc>,
                 c: int, pc': Pc)
    requires |cproc| == |csched| == k.ncpu && |at| == |pc| == k.n && CpuInv(k, cproc, csched, at)
    requires LockInv(k, holder, cproc, csched, pc)
    requires 0 <= c < k.ncpu && !csched[c] && 0 <= cproc[c] < k.n && Locks(cproc[c], pc[cproc[c]]) == {P(cproc[c])}
    ensures LockInv(k, holder, cproc, csched[c := true], pc[cproc[c] := pc'])
    ensures CpuInv(k, cproc, csched[c := true], at)
  {
    var p := cproc[c];
    var csched2, pc2 := csched[c := true], pc[p := pc'];
    forall d | 0 <= d < k.ncpu
      ensures CpuLocks(csched2, cproc, pc2, d) == CpuLocks(csched, cproc, pc, d)
    {
      assert d != c ==> cproc[d] != p;
    }
  }

  /** The scheduler releases the lock of the process that came back. */
  lemma BackLocks(k: Params, holder: map<LockId, int>, cproc: seq<int>, csched: seq<bool>, at: seq<int>, pc: seq<Pc>,
      c: int)
    requires |cproc| == |csched| == k.ncpu && |at| == |pc| == k.n && CpuInv(k, cproc, csched, at)
    requires LockInv(k, holder, cproc, csched, pc)
    requires 0 <= c < k.ncpu && csched[c] && 0 <= cproc[c] < k.n
    ensures LockInv(k, holder - {P(cproc[c])}, cproc[c := -1], csched, pc)
    ensures CpuInv(k, cproc[c := -1], csched, at[cproc[c] := -1])
  {
    var p := cproc[c];
    assert P(p) in CpuLocks(csched, cproc, pc, c) && holder[P(p)] == c;
    var cproc2 := cproc[c := -1];
    forall d | 0 <= d < k.ncpu && d != c
      ensures CpuLocks(csched, cproc2, pc, d) == CpuLocks(csched, cproc, pc, d)
    {
    }
    assert CpuLocks(csched, cproc2, pc, c) == {};
  }

  /** The scheduler locks a runnable process and hands the lock to it. */
  lemma DispatchLocks(k: Params, holder: map<LockId, int>, cproc: seq<int>, csched: seq<bool>, at: seq<int>,
      pc: seq<Pc>,
                      c: int, j: int)
    requires |cproc| == |csched| == k.ncpu && |at| == |pc| == k.n && CpuInv(k, cproc, csched, at)
    requires LockInv(k, holder, cproc, csched, pc)
    requires 0 <= c < k.ncpu && csched[c] && cproc[c] == -1 && 0 <= j < k.n && at[j] == -1 && P(j) !in holder
    requires Locks(j, pc[j]) == {P(j)}
    ensures LockInv(k, holder[P(j) := c], cproc[c := j], csched[c := false], pc)
    ensures CpuInv(k, cproc[c := j], csched[c := false], at[j := c])
  {
    var csched2, cproc2 := csched[c := false], cproc[c := j];
    forall d | 0 <= d < k.ncpu && d != c
      ensures CpuLocks(csched2, cproc2, pc, d) == CpuLocks(csched, cproc, pc, d)
    {
    }
    assert CpuLocks(csched2, cproc2, pc, c) == {P(j)};
    assert CpuLocks(csched, cproc, pc, c) == {};
  }

  // ----- process states, one component at a time -----

  lemma PcProc(k: Params, st: seq<PState>, chan: seq<Chan>, pc: seq<Pc>, saved: seq<Pc>, csched: seq<bool>,
      at: seq<int>,
               p: int, pc': Pc)
    requires |st| == |chan| == |pc| == |saved| == |at| == k.n && ProcInv(k, st, chan, pc, saved, csched, at)
    requires 0 <= p < k.n && ProcOk(st[p], chan[p], pc', saved[p], p, On(csched, at[p]))
    ensures ProcInv(k, st, chan, pc[p := pc'], saved, csched, at)
  {
  }

  lemma StProc(k: Params, st: seq<PState>, chan: seq<Chan>, pc: seq<Pc>, saved: seq<Pc>, csched: seq<bool>,
      at: seq<int>,
               p: int, x: PState, pc': Pc)
    requires |st| == |chan| == |pc| == |saved| == |at| == k.n && ProcInv(k, st, chan, pc, saved, csched, at)
    requires 0 <= p < k.n && ProcOk(x, chan[p], pc', saved[p], p, On(csched, at[p]))
    ensures ProcInv(k, st[p := x], chan, pc[p := pc'], saved, csched, at)
    ensures pc' == pc[p] ==> ProcInv(k, st[p := x], chan, pc, saved, csched, at)
  {
  }

  /** swtch: the process is no longer executing. */
  lemma OffProc(k: Params, st: seq<PState>, chan: seq<Chan>, pc: seq<Pc>, saved: seq<Pc>, cproc: seq<int>,
      csched: seq<bool>,
                at: seq<int>, c: int, pc': Pc)
    requires |st| == |chan| == |pc| == |saved| == |at| == k.n && ProcInv(k, st, chan, pc, saved, csched, at)
    requires |cproc| == |csched| == k.ncpu && CpuInv(k, cproc, csched, at) && 0 <= c < k.ncpu && 0 <= cproc[c] < k.n
    requires ProcOk(st[cproc[c]], chan[cproc[c]], pc', saved[cproc[c]], cproc[c], false)
    ensures ProcInv(k, st, chan, pc[cproc[c] := pc'], saved, csched[c := true], at)
  {
  }

  /** freeproc of a process that is on no CPU. */
  lemma FreeProcOk(k: Params, st: seq<PState>, chan: seq<Chan>, pc: seq<Pc>, saved: seq<Pc>, csched: seq<bool>,
      at: seq<int>,
                   j: int)
    requires |st| == |chan| == |pc| == |saved| == |at| == k.n && ProcInv(k, st, chan, pc, saved, csched, at)
    requires 0 <= j < k.n && at[j] == -1
    ensures ProcInv(k, st[j := UNUSED], chan[j := NoChan], pc[j := NoThread], saved, csched, at)
  {
  }

  /** The slot process p is setting up: on no CPU, not touched by anyone else. */
  lemma ForkSlot(k: Params, s: State, c: int)
    requires ControlInv(k, s) && Exec(k, s, c) && InFork(s.pc[s.cproc[c]])
    ensures var p, j := s.cproc[c], s.pc[s.cproc[c]].j;
            0 <= j < k.n && j != p && s.st[j] == USED && s.forker[j] == p && (s.pc[p].FkHold? ==> s.at[j] == -1)
            && (s.pc[p].FkHold? ==> s.pc[j] == NoThread) && (!s.pc[p].FkHold? ==> s.pc[j] == FkRet)
            && !InFork(Cur(s.pc[j], s.saved[j]))
  {
    var p, j := s.cproc[c], s.pc[s.cproc[c]].j;
    assert Forks(s.pc[p], p, j, s.st[j], s.pc[j], s.parent[j], s.forker[j]);
    assert ProcOk(s.st[j], s.chan[j], s.pc[j], s.saved[j], j, On(s.csched, s.at[j]));
    if s.pc[p].FkHold? {
      assert P(j) in CpuLocks(s.csched, s.cproc, s.pc, c) && s.holder[P(j)] == c;
      assert s.at[j] >= 0 ==> P(j) in CpuLocks(s.csched, s.cproc, s.pc, s.at[j]);
    }
  }

  lemma AllocFork(k: Params, st: seq<PState>, pc: seq<Pc>, saved: seq<Pc>, parent: seq<int>, forker: seq<int>, p: int,
      j: int)
    requires |st| == |pc| == |saved| == |parent| == |forker| == k.n && ForkInv(k, st, pc, saved, parent, forker)
    requires 0 <= p < k.n && pc[p] == FkAlloc && st[p] == RUNNING && 0 <= j < k.n && st[j] == UNUSED
    ensures ForkInv(k, st[j := USED], pc[p := FkHold(j)], saved, parent, forker[j := p])
  {
  }

  lemma LeaveFork(k: Params, st: seq<PState>, pc: seq<Pc>, saved: seq<Pc>, parent: seq<int>, forker: seq<int>, p: int,
      j: int)
    requires |st| == |pc| == |saved| == |parent| == |forker| == k.n && ForkInv(k, st, pc, saved, parent, forker)
    requires 0 <= p < k.n && pc[p] == FkHold(j) && st[p] == RUNNING
    ensures ForkInv(k, st, pc[p := Run], saved, parent, forker)
  {
  }

  lemma CopiedFork(k: Params, st: seq<PState>, pc: seq<Pc>, saved: seq<Pc>, parent: seq<int>, forker: seq<int>, p: int,
      j: int)
    requires |st| == |pc| == |saved| == |parent| == |forker| == k.n && ForkInv(k, st, pc, saved, parent, forker)
    requires 0 <= p < k.n && pc[p] == FkHold(j) && st[p] == RUNNING && 0 <= j < k.n
    ensures ForkInv(k, st, pc[j := FkRet][p := FkParent(j)], saved, parent, forker)
  {
    assert Forks(pc[p], p, j, st[j], pc[j], parent[j], forker[j]);
  }

  lemma ParentFork(k: Params, st: seq<PState>, pc: seq<Pc>, saved: seq<Pc>, parent: seq<int>, forker: seq<int>, p: int,
      j: int)
    requires |st| == |pc| == |saved| == |parent| == |forker| == k.n && ForkInv(k, st, pc, saved, parent, forker)
    requires 0 <= p < k.n && pc[p] == FkParent(j) && st[p] == RUNNING && 0 <= j < k.n
    ensures ForkInv(k, st, pc[p := FkReady(j)], saved, parent[j := p], forker)
  {
    assert Forks(pc[p], p, j, st[j], pc[j], parent[j], forker[j]);
  }

  lemma ReadyFork(k: Params, st: seq<PState>, pc: seq<Pc>, saved: seq<Pc>, parent: seq<int>, forker: seq<int>, p: int,
      j: int)
    requires |st| == |pc| == |saved| == |parent| == |forker| == k.n && ForkInv(k, st, pc, saved, parent, forker)
    requires 0 <= p < k.n && pc[p] == FkReady(j) && st[p] == RUNNING && 0 <= j < k.n
    ensures ForkInv(k, st[j := RUNNABLE], pc[p := Run], saved, parent, forker)
  {
    assert Forks(pc[p], p, j, st[j], pc[j], parent[j], forker[j]);
  }

  /** A child handed to init is not one that is being set up: its parent is the exiting process. */
  lemma AdoptFork(k: Params, s: State, c: int)
    requires ControlInv(k, s) && Enabled(k, s, Adopt(c))
    ensures var p, j := s.cproc[c], s.pc[s.cproc[c]].j;
            ForkInv(k, s.st, s.pc[p := Wk(ProcCh(k.init), 0, AfterReparent(j + 1))], s.saved, s.parent[j := k.init],
                s.forker)
  {
    hide CpuInv, LockInv, ProcInv, ForkInv;
    Executing(k, s, c);
    var p, j, to := s.cproc[c], s.pc[s.cproc[c]].j, Wk(ProcCh(k.init), 0, AfterReparent(s.pc[s.cproc[c]].j + 1));
    KeepFork(k, s.st, s.pc, s.saved, s.parent, s.forker, p, to);
    ForkParent(k, s.st, s.pc[p := to], s.saved, s.parent, s.forker, p, j, k.init);
  }

  /** A child of a process that is not in fork gets another parent. */
  lemma ForkParent(k: Params, st: seq<PState>, pc: seq<Pc>, saved: seq<Pc>, parent: seq<int>, forker: seq<int>,
      p: int, j: int, x: int)
    requires |st| == |pc| == |saved| == |parent| == |forker| == k.n && ForkInv(k, st, pc, saved, parent, forker)
    requires 0 <= p < k.n && 0 <= j < k.n && parent[j] == p && !InFork(Cur(pc[p], saved[p]))
    ensures ForkInv(k, st, pc, saved, parent[j := x], forker)
  {
    forall q | 0 <= q < k.n ensures Forks(Cur(pc[q], saved[q]), q, j, st[j], pc[j], x, forker[j]) {
      assert Forks(Cur(pc[q], saved[q]), q, j, st[j], pc[j], parent[j], forker[j]);
    }
  }

  // ----- every step keeps the control part -----

  lemma CallControl(k: Params, s: State, c: int, to: Pc)
    requires ControlInv(k, s) && Enabled(k, s, Call(c, to))
    ensures ControlInv(k, Apply(k, s, Call(c, to)))
  {
    hide CpuInv, ProcInv, LockInv, ForkInv;
    Executing(k, s, c);
    var p, pc := s.cproc[c], s.pc[s.cproc[c]];
    KeepLocks(k, s.holder, s.cproc, s.csched, s.at, s.pc, c, to);
    KeepFork(k, s.st, s.pc, s.saved, s.parent, s.forker, p, to);
    PcProc(k, s.st, s.chan, s.pc, s.saved, s.csched, s.at, p, to);
  }

  lemma AcquireControl(k: Params, s: State, c: int)
    requires ControlInv(k, s) && Enabled(k, s, Acquire(c))
    ensures ControlInv(k, Apply(k, s, Acquire(c)))
  {
    hide CpuInv, ProcInv, LockInv, ForkInv;
    Executing(k, s, c);
    var p, pc := s.cproc[c], s.pc[s.cproc[c]];
    var (_, x, pc') := Wants(p, pc);
    WantsLocks(p, pc);
    AddLock(k, s.holder, s.cproc, s.csched, s.at, s.pc, c, pc', x);
    KeepFork(k, s.st, s.pc, s.saved, s.parent, s.forker, p, pc');
    PcProc(k, s.st, s.chan, s.pc, s.saved, s.csched, s.at, p, pc');
  }

  lemma ReleaseControl(k: Params, s: State, c: int)
    requires ControlInv(k, s) && Enabled(k, s, Release(c))
    ensures ControlInv(k, Apply(k, s, Release(c)))
  {
    hide CpuInv, ProcInv, LockInv, ForkInv;
    Executing(k, s, c);
    var p, pc := s.cproc[c], s.pc[s.cproc[c]];
    var (_, x, pc') := Drops(p, pc, s.saved[p]);
    DropsLocks(p, pc, s.saved[p]);
    DropLock(k, s.holder, s.cproc, s.csched, s.at, s.pc, c, pc', x);
    KeepFork(k, s.st, s.pc, s.saved, s.parent, s.forker, p, pc');
    PcProc(k, s.st, s.chan, s.pc, s.saved, s.csched, s.at, p, pc');
  }

  lemma MoveControl(k: Params, s: State, c: int)
    requires ControlInv(k, s) && Enabled(k, s, Move(c))
    ensures ControlInv(k, Apply(k, s, Move(c)))
  {
    hide CpuInv, ProcInv, LockInv, ForkInv;
    Executing(k, s, c);
    var p, pc := s.cproc[c], s.pc[s.cproc[c]];
    var pc' := Moved(k, s, p).1;
    MovedLocks(k, s, p);
    KeepLocks(k, s.holder, s.cproc, s.csched, s.at, s.pc, c, pc');
    KeepFork(k, s.st, s.pc, s.saved, s.parent, s.forker, p, pc');
    PcProc(k, s.st, s.chan, s.pc, s.saved, s.csched, s.at, p, pc');
  }

  lemma TakeLockControl(k: Params, s: State, c: int)
    requires ControlInv(k, s) && Enabled(k, s, TakeLock(c))
    ensures ControlInv(k, Apply(k, s, TakeLock(c)))
  {
    hide CpuInv, ProcInv, LockInv, ForkInv;
    Executing(k, s, c);
    var p, pc := s.cproc[c], s.pc[s.cproc[c]];
    KeepLocks(k, s.holder, s.cproc, s.csched, s.at, s.pc, c, AsRel(pc.l));
    KeepFork(k, s.st, s.pc, s.saved, s.parent, s.forker, p, AsRel(pc.l));
    PcProc(k, s.st, s.chan, s.pc, s.saved, s.csched, s.at, p, AsRel(pc.l));
  }

  lemma ClearLockControl(k: Params, s: State, c: int)
    requires ControlInv(k, s) && Enabled(k, s, ClearLock(c))
    ensures ControlInv(k, Apply(k, s, ClearLock(c)))
  {
    hide CpuInv, ProcInv, LockInv, ForkInv;
    Executing(k, s, c);
    var p, pc := s.cproc[c], s.pc[s.cproc[c]];
    var pc' := Wk(LockCh(pc.l), 0, AfterRelease(pc.l));
    KeepLocks(k, s.holder, s.cproc, s.csched, s.at, s.pc, c, pc');
    KeepFork(k, s.st, s.pc, s.saved, s.parent, s.forker, p, pc');
    PcProc(k, s.st, s.chan, s.pc, s.saved, s.csched, s.at, p, pc');
  }

  /** One round of wakeup, the process's lock being free. */
  lemma WakeControl(k: Params, s: State, ch: Chan, i: int)
    requires ControlInv(k, s) && 0 <= i < k.n && P(i) !in s.holder
    ensures ControlInv(k, Wake(k, s, ch, i))
  {
    hide CpuInv, ProcInv, LockInv, ForkInv;
    LockFree(k, s, i);
    if s.st[i] == SLEEPING {
      KeepForkState(k, s.st, s.pc, s.saved, s.parent, s.forker, i, RUNNABLE);
      StProc(k, s.st, s.chan, s.pc, s.saved, s.csched, s.at, i, RUNNABLE, s.pc[i]);
    }
  }

  lemma GotoControl(k: Params, s: State, c: int, pc': Pc)
    requires ControlInv(k, s) && Exec(k, s, c) && s.st[s.cproc[c]] == RUNNING
    requires var p := s.cproc[c];
             && Locks(p, pc') == Locks(p, s.pc[p]) && ProcOk(RUNNING, s.chan[p], pc', s.saved[p], p, true)
             && !InFork(Cur(s.pc[p], s.saved[p])) && !InFork(Cur(pc', s.saved[p]))
    ensures ControlInv(k, Goto(s, s.cproc[c], pc'))
  {
    hide CpuInv, ProcInv, LockInv, ForkInv;
    Executing(k, s, c);
    var p := s.cproc[c];
    KeepLocks(k, s.holder, s.cproc, s.csched, s.at, s.pc, c, pc');
    KeepFork(k, s.st, s.pc, s.saved, s.parent, s.forker, p, pc');
    PcProc(k, s.st, s.chan, s.pc, s.saved, s.csched, s.at, p, pc');
  }

  lemma WakeOneControl(k: Params, s: State, c: int)
    requires ControlInv(k, s) && Enabled(k, s, WakeOne(c))
    ensures ControlInv(k, Apply(k, s, WakeOne(c)))
  {
    hide CpuInv, ProcInv, LockInv, ForkInv;
    Executing(k, s, c);
    var p, pc := s.cproc[c], s.pc[s.cproc[c]];
    var pc' := Wk(pc.ch, pc.i + 1, pc.r);
    assert Apply(k, s, WakeOne(c)) == Wake(k, Goto(s, p, pc'), pc.ch, pc.i);
    GotoControl(k, s, c, pc');
    WakeControl(k, Goto(s, p, pc'), pc.ch, pc.i);
  }

  lemma GoToSleepControl(k: Params, s: State, c: int)
    requires ControlInv(k, s) && Enabled(k, s, GoToSleep(c))
    ensures ControlInv(k, Apply(k, s, GoToSleep(c)))
  {
    hide CpuInv, LockInv, ForkInv;
    Executing(k, s, c);
    var p, pc := s.cproc[c], s.pc[s.cproc[c]];
    KeepLocks(k, s.holder, s.cproc, s.csched, s.at, s.pc, c, SlSched(pc.w));
    KeepFork(k, s.st, s.pc, s.saved, s.parent, s.forker, p, SlSched(pc.w));
    KeepForkState(k, s.st, s.pc[p := SlSched(pc.w)], s.saved, s.parent, s.forker, p, SLEEPING);
  }

  lemma SwtchControl(k: Params, s: State, c: int)
    requires ControlInv(k, s) && Enabled(k, s, Swtch(c))
    ensures ControlInv(k, Apply(k, s, Swtch(c)))
  {
    hide CpuInv, ProcInv, LockInv, ForkInv;
    Executing(k, s, c);
    var p, pc := s.cproc[c], s.pc[s.cproc[c]];
    var pc' := if pc.SlSched? then SlWake(pc.w) else if pc.YSched? then YRel else Dead;
    HandOver(k, s.holder, s.cproc, s.csched, s.at, s.pc, c, pc');
    OffProc(k, s.st, s.chan, s.pc, s.saved, s.cproc, s.csched, s.at, c, pc');
    KeepFork(k, s.st, s.pc, s.saved, s.parent, s.forker, p, pc');
  }

  lemma ResumedControl(k: Params, s: State, c: int)
    requires ControlInv(k, s) && Enabled(k, s, Resumed(c))
    ensures ControlInv(k, Apply(k, s, Resumed(c)))
  {
    hide CpuInv, LockInv, ForkInv;
    Executing(k, s, c);
    var p, pc := s.cproc[c], s.pc[s.cproc[c]];
    KeepLocks(k, s.holder, s.cproc, s.csched, s.at, s.pc, c, SlUnlock(pc.w));
    KeepFork(k, s.st, s.pc, s.saved, s.parent, s.forker, p, SlUnlock(pc.w));
  }

  lemma ReapControl(k: Params, s: State, c: int)
    requires ControlInv(k, s) && Enabled(k, s, Reap(c))
    ensures ControlInv(k, Apply(k, s, Reap(c)))
  {
    hide CpuInv, ProcInv, LockInv, ForkInv;
    Executing(k, s, c);
    var p, pc := s.cproc[c], s.pc[s.cproc[c]];
    var j := pc.j;
    LockFree(k, s, j);
    OffCpuLocks(k, s.holder, s.cproc, s.csched, s.at, s.pc, j, NoThread);
    KeepLocks(k, s.holder, s.cproc, s.csched, s.at, s.pc[j := NoThread], c, WtRel);
    FreeFork(k, s.st, s.pc, s.saved, s.parent, s.forker, j);
    KeepFork(k, s.st[j := UNUSED], s.pc[j := NoThread], s.saved, s.parent[j := -1], s.forker, p, WtRel);
    FreeProcOk(k, s.st, s.chan, s.pc, s.saved, s.csched, s.at, j);
    PcProc(k, s.st[j := UNUSED], s.chan[j := NoChan], s.pc[j := NoThread], s.saved, s.csched, s.at, p, WtRel);
  }

  lemma ReapFailedControl(k: Params, s: State, c: int)
    requires ControlInv(k, s) && Enabled(k, s, ReapFailed(c))
    ensures ControlInv(k, Apply(k, s, ReapFailed(c)))
  {
    hide CpuInv, ProcInv, LockInv, ForkInv;
    Executing(k, s, c);
    var p, pc := s.cproc[c], s.pc[s.cproc[c]];
    KeepLocks(k, s.holder, s.cproc, s.csched, s.at, s.pc, c, WtRel);
    KeepFork(k, s.st, s.pc, s.saved, s.parent, s.forker, p, WtRel);
    PcProc(k, s.st, s.chan, s.pc, s.saved, s.csched, s.at, p, WtRel);
  }

  lemma AdoptControl(k: Params, s: State, c: int)
    requires ControlInv(k, s) && Enabled(k, s, Adopt(c))
    ensures ControlInv(k, Apply(k, s, Adopt(c)))
  {
    hide CpuInv, ProcInv, LockInv, ForkInv;
    Executing(k, s, c);
    var p, pc := s.cproc[c], s.pc[s.cproc[c]];
    var pc' := Wk(ProcCh(k.init), 0, AfterReparent(pc.j + 1));
    KeepLocks(k, s.holder, s.cproc, s.csched, s.at, s.pc, c, pc');
    KeepFork(k, s.st, s.pc, s.saved, s.parent, s.forker, p, pc');
    PcProc(k, s.st, s.chan, s.pc, s.saved, s.csched, s.at, p, pc');
    AdoptFork(k, s, c);
  }

  lemma BecomeZombieControl(k: Params, s: State, c: int)
    requires ControlInv(k, s) && Enabled(k, s, BecomeZombie(c))
    ensures ControlInv(k, Apply(k, s, BecomeZombie(c)))
  {
    hide CpuInv, ProcInv, LockInv, ForkInv;
    Executing(k, s, c);
    var p, pc := s.cproc[c], s.pc[s.cproc[c]];
    KeepLocks(k, s.holder, s.cproc, s.csched, s.at, s.pc, c, ExRelWait);
    KeepFork(k, s.st, s.pc, s.saved, s.parent, s.forker, p, ExRelWait);
    KeepForkState(k, s.st, s.pc[p := ExRelWait], s.saved, s.parent, s.forker, p, ZOMBIE);
    StProc(k, s.st, s.chan, s.pc, s.saved, s.csched, s.at, p, ZOMBIE, ExRelWait);
  }

  lemma PreemptControl(k: Params, s: State, c: int)
    requires ControlInv(k, s) && Enabled(k, s, Preempt(c))
    ensures ControlInv(k, Apply(k, s, Preempt(c)))
  {
    hide CpuInv, LockInv, ForkInv;
    Executing(k, s, c);
    var p, pc := s.cproc[c], s.pc[s.cproc[c]];
    AddLock(k, s.holder, s.cproc, s.csched, s.at, s.pc, c, YSched, P(p));
    KeepForkSaved(k, s.st, s.pc, s.saved, s.parent, s.forker, p);
    KeepForkState(k, s.st, s.pc[p := YSched], s.saved[p := s.pc[p]], s.parent, s.forker, p, RUNNABLE);
  }

  lemma AllocFailedControl(k: Params, s: State, c: int)
    requires ControlInv(k, s) && Enabled(k, s, AllocFailed(c))
    ensures ControlInv(k, Apply(k, s, AllocFailed(c)))
  {
    hide CpuInv, ProcInv, LockInv, ForkInv;
    Executing(k, s, c);
    var p, pc := s.cproc[c], s.pc[s.cproc[c]];
    KeepLocks(k, s.holder, s.cproc, s.csched, s.at, s.pc, c, Run);
    KeepFork(k, s.st, s.pc, s.saved, s.parent, s.forker, p, Run);
    PcProc(k, s.st, s.chan, s.pc, s.saved, s.csched, s.at, p, Run);
  }

  lemma ForkFailedControl(k: Params, s: State, c: int)
    requires ControlInv(k, s) && Enabled(k, s, ForkFailed(c))
    ensures ControlInv(k, Apply(k, s, ForkFailed(c)))
  {
    hide CpuInv, ProcInv, LockInv, ForkInv;
    Executing(k, s, c);
    var p, pc := s.cproc[c], s.pc[s.cproc[c]];
    var j := pc.j;
    ForkSlot(k, s, c);
    OffCpuLocks(k, s.holder, s.cproc, s.csched, s.at, s.pc, j, NoThread);
    DropLock(k, s.holder, s.cproc, s.csched, s.at, s.pc[j := NoThread], c, Run, P(j));
    LeaveFork(k, s.st, s.pc, s.saved, s.parent, s.forker, p, j);
    FreeFork(k, s.st, s.pc[p := Run], s.saved, s.parent, s.forker, j);
    FreeProcOk(k, s.st, s.chan, s.pc, s.saved, s.csched, s.at, j);
    PcProc(k, s.st[j := UNUSED], s.chan[j := NoChan], s.pc[j := NoThread], s.saved, s.csched, s.at, p, Run);
    assert s.pc[p := Run][j := NoThread] == s.pc[j := NoThread][p := Run];
  }

  lemma ForkCopiedControl(k: Params, s: State, c: int)
    requires ControlInv(k, s) && Enabled(k, s, ForkCopied(c))
    ensures ControlInv(k, Apply(k, s, ForkCopied(c)))
  {
    hide CpuInv, ProcInv, LockInv, ForkInv;
    Executing(k, s, c);
    var p, pc := s.cproc[c], s.pc[s.cproc[c]];
    var j := pc.j;
    ForkSlot(k, s, c);
    OffCpuLocks(k, s.holder, s.cproc, s.csched, s.at, s.pc, j, FkRet);
    DropLock(k, s.holder, s.cproc, s.csched, s.at, s.pc[j := FkRet], c, FkParent(j), P(j));
    CopiedFork(k, s.st, s.pc, s.saved, s.parent, s.forker, p, j);
    PcProc(k, s.st, s.chan, s.pc, s.saved, s.csched, s.at, j, FkRet);
    PcProc(k, s.st, s.chan, s.pc[j := FkRet], s.saved, s.csched, s.at, p, FkParent(j));
  }

  lemma SetParentControl(k: Params, s: State, c: int)
    requires ControlInv(k, s) && Enabled(k, s, SetParent(c))
    ensures ControlInv(k, Apply(k, s, SetParent(c)))
  {
    hide CpuInv, ProcInv, LockInv, ForkInv;
    Executing(k, s, c);
    var p, pc := s.cproc[c], s.pc[s.cproc[c]];
    KeepLocks(k, s.holder, s.cproc, s.csched, s.at, s.pc, c, FkReady(pc.j));
    PcProc(k, s.st, s.chan, s.pc, s.saved, s.csched, s.at, p, FkReady(pc.j));
    ParentFork(k, s.st, s.pc, s.saved, s.parent, s.forker, p, pc.j);
  }

  lemma MakeReadyControl(k: Params, s: State, c: int)
    requires ControlInv(k, s) && Enabled(k, s, MakeReady(c))
    ensures ControlInv(k, Apply(k, s, MakeReady(c)))
  {
    hide CpuInv, LockInv;
    Executing(k, s, c);
    var p, pc := s.cproc[c], s.pc[s.cproc[c]];
    KeepLocks(k, s.holder, s.cproc, s.csched, s.at, s.pc, c, Run);
    PcProc(k, s.st, s.chan, s.pc, s.saved, s.csched, s.at, p, Run);
    ReadyFork(k, s.st, s.pc, s.saved, s.parent, s.forker, p, pc.j);
    StProc(k, s.st, s.chan, s.pc[p := Run], s.saved, s.csched, s.at, pc.j, RUNNABLE, FkRet);
  }

  lemma BackControl(k: Params, s: State, c: int)
    requires ControlInv(k, s) && Enabled(k, s, Back(c))
    ensures ControlInv(k, Apply(k, s, Back(c)))
  {
    hide LockInv, ForkInv;
    BackLocks(k, s.holder, s.cproc, s.csched, s.at, s.pc, c);
  }

  lemma AllocControl(k: Params, s: State, c: int, j: int)
    requires ControlInv(k, s) && Enabled(k, s, Alloc(c, j))
    ensures ControlInv(k, Apply(k, s, Alloc(c, j)))
  {
    hide CpuInv, LockInv, ForkInv;
    Executing(k, s, c);
    var p, pc := s.cproc[c], s.pc[s.cproc[c]];
    AddLock(k, s.holder, s.cproc, s.csched, s.at, s.pc, c, FkHold(j), P(j));
    AllocFork(k, s.st, s.pc, s.saved, s.parent, s.forker, p, j);
    LockFree(k, s, j);
    PcProc(k, s.st, s.chan, s.pc, s.saved, s.csched, s.at, p, FkHold(j));
    StProc(k, s.st, s.chan, s.pc[p := FkHold(j)], s.saved, s.csched, s.at, j, USED, s.pc[j]);
  }

  lemma KillControl(k: Params, s: State, c: int, j: int)
    requires ControlInv(k, s) && Enabled(k, s, Kill(c, j))
    ensures ControlInv(k, Apply(k, s, Kill(c, j)))
  {
    hide CpuInv, LockInv, ForkInv;
    LockFree(k, s, j);
    if s.st[j] == SLEEPING {
      KeepForkState(k, s.st, s.pc, s.saved, s.parent, s.forker, j, RUNNABLE);
    }
  }

  lemma DispatchControl(k: Params, s: State, c: int, j: int)
    requires ControlInv(k, s) && Enabled(k, s, Dispatch(c, j))
    ensures ControlInv(k, Apply(k, s, Dispatch(c, j)))
  {
    hide LockInv, ForkInv;
    LockFree(k, s, j);
    DispatchLocks(k, s.holder, s.cproc, s.csched, s.at, s.pc, c, j);
    KeepForkState(k, s.st, s.pc, s.saved, s.parent, s.forker, j, RUNNING);
  }
}

/**
  Runs of the process machine from boot: a fork, exit and wait from beginning to end; two processes that contend
  for a sleep-lock; and a child that is born killed.
 */
module ProcsRun {
  import opened Procs
  import opened ProcsFamily
  import opened ProcsWakeup
  import opened ProcsSafety
  import opened ProcsCalls

  /** One CPU and two slots, of which the first is init's. */
  const TWO := Params(2, 1, 0)

  /** One step further. */
  lemma Go(s: State, step: Step, t: State)
    requires Reachable(TWO, s) && Shape(TWO, s) && Enabled(TWO, s, step) && t == Apply(TWO, s, step)
    ensures Reachable(TWO, t) && Shape(TWO, t)
  {
    hide Apply, Enabled, Inv;
    var states, steps :| IsRun(TWO, states, steps) && states[|states| - 1] == s;
    var states', steps' := states + [t], steps + [step];
    forall i | 0 <= i < |steps'| ensures Next(TWO, states'[i], steps'[i], states'[i + 1]) {
      if i < |steps| { assert steps'[i] == steps[i] && Next(TWO, states[i], steps[i], states[i + 1]); }
    }
    assert IsRun(TWO, states', steps') && states'[|states'| - 1] == t;
    ReachInv(TWO, t);
    InvShape(TWO, t);
  }

  lemma InvShape(k: Params, s: State)
    requires Inv(k, s)
    ensures Shape(k, s)
  {
  }

  /** What of the two processes changes in the runs below. */
  datatype Pair = Pair(x0: PState, x1: PState, ch0: Chan, dead1: bool, par1: int, a0: Pc, a1: Pc,
      ch1: Chan := NoChan, own: map<int, int> := map[])

  /** A state of these two; c is the process on the CPU, -1 for none, and sched whether its scheduler runs. */
  function Both(q: Pair, c: int, sched: bool, holder: map<LockId, int>, h: Hist): State {
    State([q.x0, q.x1], [q.ch0, q.ch1], [false, q.dead1], [1, if q.x1 == UNUSED then 0 else 2], [-1, q.par1],
          [q.a0, q.a1], [Run, Run], [c], [sched], holder, q.own,
          [if c == 0 then 0 else -1, if c == 1 then 0 else -1], [-1, if h.nextpid == 2 then -1 else 0], h)
  }

  const BORN := Hist(2, map[1 := 0], {}, [])
  const FORKED := Hist(3, map[1 := 0, 2 := 1], {}, [])

  ghost predicate At(q: Pair, c: int, sched: bool, holder: map<LockId, int>, h: Hist) {
    Reachable(TWO, Both(q, c, sched, holder, h)) && Shape(TWO, Both(q, c, sched, holder, h))
  }

  lemma Then(q: Pair, c: int, sched: bool, holder: map<LockId, int>, h: Hist, step: Step,
      q': Pair, c': int, sched': bool, holder': map<LockId, int>, h': Hist)
    requires At(q, c, sched, holder, h) && Enabled(TWO, Both(q, c, sched, holder, h), step)
    requires Apply(TWO, Both(q, c, sched, holder, h), step) == Both(q', c', sched', holder', h')
    ensures At(q', c', sched', holder', h')
  {
    hide Apply, Enabled;
    Go(Both(q, c, sched, holder, h), step, Both(q', c', sched', holder', h'));
  }

  lemma Booted()
    ensures At(Pair(RUNNABLE, UNUSED, NoChan, false, -1, FkRet, NoThread), -1, true, map[], BORN)
  {
    var s := Both(Pair(RUNNABLE, UNUSED, NoChan, false, -1, FkRet, NoThread), -1, true, map[], BORN);
    assert s == Init(TWO);
    assert IsRun(TWO, [s], []) && [s][0] == s;
  }

  /** init is dispatched for the first time. */
  lemma InitRuns()
    ensures At(Pair(RUNNING, UNUSED, NoChan, false, -1, Run, NoThread), 0, false, map[], BORN)
  {
    hide Reachable;
    Booted();
    var q := Pair(RUNNABLE, UNUSED, NoChan, false, -1, FkRet, NoThread);
    Then(q, -1, true, map[], BORN, Dispatch(0, 0), q.(x0 := RUNNING), 0, false, map[P(0) := 0], BORN);
    Then(q.(x0 := RUNNING), 0, false, map[P(0) := 0], BORN, Release(0), q.(x0 := RUNNING, a0 := Run), 0, false, map[],
        BORN);
  }

  /** fork, from call to return. */
  lemma Forks1(d: bool)
    requires At(Pair(RUNNING, UNUSED, NoChan, d, -1, Run, NoThread), 0, false, map[], BORN)
    ensures At(Pair(RUNNING, USED, NoChan, d, -1, FkHold(1), NoThread), 0, false, map[P(1) := 0], FORKED)
  {
    hide Reachable, Wants, Drops, Moved;
    var q := Pair(RUNNING, UNUSED, NoChan, d, -1, Run, NoThread);
    Then(q, 0, false, map[], BORN, Call(0, FkAlloc), q.(a0 := FkAlloc), 0, false, map[], BORN);
    var q2 := q.(x1 := USED, a0 := FkHold(1));
    Then(q.(a0 := FkAlloc), 0, false, map[], BORN, Alloc(0, 1), q2, 0, false, map[P(1) := 0], FORKED);
  }

  lemma Forks2(d: bool)
    requires At(Pair(RUNNING, USED, NoChan, d, -1, FkHold(1), NoThread), 0, false, map[P(1) := 0], FORKED)
    ensures At(Pair(RUNNING, USED, NoChan, d, 0, FkReady(1), FkRet), 0, false, map[], FORKED)
  {
    hide Reachable, Wants, Moved;
    var q := Pair(RUNNING, USED, NoChan, d, -1, FkHold(1), NoThread);
    var q2 := q.(a0 := FkParent(1), a1 := FkRet);
    Then(q, 0, false, map[P(1) := 0], FORKED, ForkCopied(0), q2, 0, false, map[], FORKED);
    Then(q2, 0, false, map[], FORKED, SetParent(0), q2.(par1 := 0, a0 := FkReady(1)), 0, false, map[], FORKED);
  }

  lemma Forks3(d: bool)
    requires At(Pair(RUNNING, USED, NoChan, d, 0, FkReady(1), FkRet), 0, false, map[], FORKED)
    ensures At(Pair(RUNNING, RUNNABLE, NoChan, d, 0, Run, FkRet), 0, false, map[], FORKED)
  {
    hide Reachable;
    var q := Pair(RUNNING, USED, NoChan, d, 0, FkReady(1), FkRet);
    Then(q, 0, false, map[], FORKED, MakeReady(0), q.(x1 := RUNNABLE, a0 := Run), 0, false, map[], FORKED);
  }

  /** kill(0) finds an unused slot, and the next child is marked killed before it has run. */
  lemma BornKilled() returns (s: State)
    ensures Reachable(TWO, s) && Shape(TWO, s) && s.st[1] == RUNNABLE && s.pc[1] == FkRet && s.parent[1] == 0
        && s.killed[1]
    ensures s.pid[1] == 2
  {
    InitRuns();
    var q := Pair(RUNNING, UNUSED, NoChan, false, -1, Run, NoThread);
    Then(q, 0, false, map[], BORN, Kill(0, 1), q.(dead1 := true), 0, false, map[], BORN);
    Forks1(true);
    Forks2(true);
    Forks3(true);
    s := Both(Pair(RUNNING, RUNNABLE, NoChan, true, 0, Run, FkRet), 0, false, map[], FORKED);
  }

  // ----- the parent waits -----

  lemma Waits1(q: Pair)
    requires q == Pair(RUNNING, RUNNABLE, NoChan, false, 0, Run, FkRet) && At(q, 0, false, map[], FORKED)
    ensures At(q.(a0 := WtScan(1, false)), 0, false, map[W := 0], FORKED)
  {
    hide Reachable;
    Then(q, 0, false, map[], FORKED, Call(0, WtAcq), q.(a0 := WtAcq), 0, false, map[], FORKED);
    Then(q.(a0 := WtAcq), 0, false, map[], FORKED, Acquire(0), q.(a0 := WtScan(0, false)), 0, false, map[W := 0],
        FORKED);
    Then(q.(a0 := WtScan(0, false)), 0, false, map[W := 0], FORKED, Move(0),
        q.(a0 := WtScan(1, false)), 0, false, map[W := 0], FORKED);
  }

  lemma Waits2(q: Pair)
    requires q == Pair(RUNNING, RUNNABLE, NoChan, false, 0, WtScan(1, false), FkRet)
    requires At(q, 0, false, map[W := 0], FORKED)
    ensures At(q.(a0 := SlRel(OnChild)), 0, false, map[W := 0, P(0) := 0], FORKED)
  {
    hide Reachable;
    var w := map[W := 0];
    Then(q, 0, false, w, FORKED, Move(0), q.(a0 := WtScan(2, true)), 0, false, w, FORKED);
    Then(q.(a0 := WtScan(2, true)), 0, false, w, FORKED, Move(0), q.(a0 := SlAcq(OnChild)), 0, false, w, FORKED);
    Then(q.(a0 := SlAcq(OnChild)), 0, false, w, FORKED, Acquire(0),
        q.(a0 := SlRel(OnChild)), 0, false, map[W := 0, P(0) := 0], FORKED);
  }

  lemma Waits3(q: Pair)
    requires q == Pair(RUNNING, RUNNABLE, NoChan, false, 0, SlRel(OnChild), FkRet)
    requires At(q, 0, false, map[W := 0, P(0) := 0], FORKED)
    ensures At(q.(x0 := SLEEPING, ch0 := ProcCh(0), a0 := SlWake(OnChild)), -1, true, map[], FORKED)
  {
    hide Reachable;
    var w := map[P(0) := 0];
    Then(q, 0, false, map[W := 0, P(0) := 0], FORKED, Release(0), q.(a0 := SlSet(OnChild)), 0, false, w, FORKED);
    var q2 := q.(x0 := SLEEPING, ch0 := ProcCh(0), a0 := SlSched(OnChild));
    Then(q.(a0 := SlSet(OnChild)), 0, false, w, FORKED, GoToSleep(0), q2, 0, false, w, FORKED);
    var q3 := q2.(a0 := SlWake(OnChild));
    Then(q2, 0, false, w, FORKED, Swtch(0), q3, 0, true, w, FORKED);
    Then(q3, 0, true, w, FORKED, Back(0), q3, -1, true, map[], FORKED);
  }

  // ----- the child exits -----

  lemma Exits1(q: Pair)
    requires q == Pair(SLEEPING, RUNNABLE, ProcCh(0), false, 0, SlWake(OnChild), FkRet)
        && At(q, -1, true, map[], FORKED)
    ensures At(q.(x1 := RUNNING, a1 := ExReparent(0)), 1, false, map[W := 0], FORKED)
  {
    hide Reachable;
    var q2 := q.(x1 := RUNNING);
    Then(q, -1, true, map[], FORKED, Dispatch(0, 1), q2, 1, false, map[P(1) := 0], FORKED);
    Then(q2, 1, false, map[P(1) := 0], FORKED, Release(0), q2.(a1 := Run), 1, false, map[], FORKED);
    Then(q2.(a1 := Run), 1, false, map[], FORKED, Call(0, ExAcq), q2.(a1 := ExAcq), 1, false, map[], FORKED);
    Then(q2.(a1 := ExAcq), 1, false, map[], FORKED, Acquire(0), q2.(a1 := ExReparent(0)), 1, false, map[W := 0],
        FORKED);
  }

  lemma Exits2(q: Pair)
    requires q == Pair(SLEEPING, RUNNING, ProcCh(0), false, 0, SlWake(OnChild), ExReparent(0))
    requires At(q, 1, false, map[W := 0], FORKED)
    ensures At(q.(x0 := RUNNABLE, a1 := Wk(ProcCh(0), 1, AfterParent)), 1, false, map[W := 0], FORKED)
  {
    hide Reachable;
    var w := map[W := 0];
    Then(q, 1, false, w, FORKED, Move(0), q.(a1 := ExReparent(1)), 1, false, w, FORKED);
    Then(q.(a1 := ExReparent(1)), 1, false, w, FORKED, Move(0), q.(a1 := ExReparent(2)), 1, false, w, FORKED);
    var q2 := q.(a1 := Wk(ProcCh(0), 0, AfterParent));
    Then(q.(a1 := ExReparent(2)), 1, false, w, FORKED, Move(0), q2, 1, false, w, FORKED);
    Then(q2, 1, false, w, FORKED, WakeOne(0),
        q2.(x0 := RUNNABLE, a1 := Wk(ProcCh(0), 1, AfterParent)), 1, false, w, FORKED);
  }

  const EXITED := FORKED.(exited := {2})
  const REAPED := EXITED.(reaped := [2])

  lemma Exits3(q: Pair)
    requires q == Pair(RUNNABLE, RUNNING, ProcCh(0), false, 0, SlWake(OnChild), Wk(ProcCh(0), 1, AfterParent))
    requires At(q, 1, false, map[W := 0], FORKED)
    ensures At(q.(a1 := ExZombie), 1, false, map[W := 0, P(1) := 0], FORKED)
  {
    hide Reachable;
    var w := map[W := 0];
    var q2 := q.(a1 := Wk(ProcCh(0), 2, AfterParent));
    Then(q, 1, false, w, FORKED, Move(0), q2, 1, false, w, FORKED);
    Then(q2, 1, false, w, FORKED, Move(0), q.(a1 := ExLock), 1, false, w, FORKED);
    Then(q.(a1 := ExLock), 1, false, w, FORKED, Acquire(0),
        q.(a1 := ExZombie), 1, false, map[W := 0, P(1) := 0], FORKED);
  }

  lemma Exits4(q: Pair)
    requires q == Pair(RUNNABLE, RUNNING, ProcCh(0), false, 0, SlWake(OnChild), ExZombie)
    requires At(q, 1, false, map[W := 0, P(1) := 0], FORKED)
    ensures At(q.(x1 := ZOMBIE, a1 := ExSched), 1, false, map[P(1) := 0], EXITED)
  {
    hide Reachable;
    var q2 := q.(x1 := ZOMBIE, a1 := ExRelWait);
    var w := map[W := 0, P(1) := 0];
    Then(q, 1, false, w, FORKED, BecomeZombie(0), q2, 1, false, w, EXITED);
    Then(q2, 1, false, w, EXITED, Release(0), q2.(a1 := ExSched), 1, false, map[P(1) := 0], EXITED);
  }

  lemma Exits5(q: Pair)
    requires q == Pair(RUNNABLE, ZOMBIE, ProcCh(0), false, 0, SlWake(OnChild), ExSched)
    requires At(q, 1, false, map[P(1) := 0], EXITED)
    ensures At(q.(a1 := Dead), -1, true, map[], EXITED)
  {
    hide Reachable;
    var w := map[P(1) := 0];
    Then(q, 1, false, w, EXITED, Swtch(0), q.(a1 := Dead), 1, true, w, EXITED);
    Then(q.(a1 := Dead), 1, true, w, EXITED, Back(0), q.(a1 := Dead), -1, true, map[], EXITED);
  }

  // ----- the parent goes on -----

  lemma Reaps1(q: Pair)
    requires q == Pair(RUNNABLE, ZOMBIE, ProcCh(0), false, 0, SlWake(OnChild), Dead) && At(q, -1, true, map[], EXITED)
    ensures At(q.(x0 := RUNNING, ch0 := NoChan, a0 := WtScan(0, false)), 0, false, map[W := 0], EXITED)
  {
    hide Reachable;
    var w := map[P(0) := 0];
    var q2 := q.(x0 := RUNNING);
    Then(q, -1, true, map[], EXITED, Dispatch(0, 0), q2, 0, false, w, EXITED);
    var q3 := q2.(ch0 := NoChan, a0 := SlUnlock(OnChild));
    Then(q2, 0, false, w, EXITED, Resumed(0), q3, 0, false, w, EXITED);
    Then(q3, 0, false, w, EXITED, Release(0), q3.(a0 := SlReacq(OnChild)), 0, false, map[], EXITED);
    Then(q3.(a0 := SlReacq(OnChild)), 0, false, map[], EXITED, Acquire(0),
        q3.(a0 := WtScan(0, false)), 0, false, map[W := 0], EXITED);
  }

  lemma Reaps2(q: Pair)
    requires q == Pair(RUNNING, ZOMBIE, NoChan, false, 0, WtScan(0, false), Dead)
        && At(q, 0, false, map[W := 0], EXITED)
    ensures At(Pair(RUNNING, UNUSED, NoChan, false, -1, WtRel, NoThread), 0, false, map[W := 0], REAPED)
  {
    hide Reachable;
    var w := map[W := 0];
    Then(q, 0, false, w, EXITED, Move(0), q.(a0 := WtScan(1, false)), 0, false, w, EXITED);
    var q2 := Pair(RUNNING, UNUSED, NoChan, false, -1, WtRel, NoThread);
    Then(q.(a0 := WtScan(1, false)), 0, false, w, EXITED, Reap(0), q2, 0, false, w, REAPED);
  }

  lemma Reaps3(q: Pair)
    requires q == Pair(RUNNING, UNUSED, NoChan, false, -1, WtRel, NoThread) && At(q, 0, false, map[W := 0], REAPED)
    ensures At(q.(a0 := Run), 0, false, map[], REAPED)
  {
    hide Reachable;
    Then(q, 0, false, map[W := 0], REAPED, Release(0), q.(a0 := Run), 0, false, map[], REAPED);
  }

  /** init forks, waits and sleeps; the child exits and wakes it; wait returns the child's pid, and the slot is free. */
  lemma ForkExitWait() returns (s: State)
    ensures Reachable(TWO, s) && s.st == [RUNNING, UNUSED] && s.pc == [Run, NoThread] && s.holder == map[]
    ensures s.h.exited == {2} && s.h.reaped == [2]
  {
    hide Reachable, Both;
    InitRuns();
    Forks1(false);
    Forks2(false);
    Forks3(false);
    var q := Pair(RUNNING, RUNNABLE, NoChan, false, 0, Run, FkRet);
    Waits1(q);
    Waits2(q.(a0 := WtScan(1, false)));
    Waits3(q.(a0 := SlRel(OnChild)));
    q := Pair(SLEEPING, RUNNABLE, ProcCh(0), false, 0, SlWake(OnChild), FkRet);
    Exits1(q);
    Exits2(q.(x1 := RUNNING, a1 := ExReparent(0)));
    q := Pair(RUNNABLE, RUNNING, ProcCh(0), false, 0, SlWake(OnChild), ExZombie);
    Exits3(q.(a1 := Wk(ProcCh(0), 1, AfterParent)));
    Exits4(q);
    Exits5(q.(x1 := ZOMBIE, a1 := ExSched));
    q := Pair(RUNNABLE, ZOMBIE, ProcCh(0), false, 0, SlWake(OnChild), Dead);
    Reaps1(q);
    Reaps2(q.(x0 := RUNNING, ch0 := NoChan, a0 := WtScan(0, false)));
    q := Pair(RUNNING, UNUSED, NoChan, false, -1, WtRel, NoThread);
    Reaps3(q);
    s := Both(q.(a0 := Run), 0, false, map[], REAPED);
    BothIs(q.(a0 := Run), REAPED);
  }

  lemma BothIs(q: Pair, h: Hist)
    ensures var s := Both(q, 0, false, map[], h);
        && s.st == [q.x0, q.x1] && s.pc == [q.a0, q.a1] && s.h == h && s.holder == map[]
  {
  }

  // ----- a sleep-lock -----

  const LK := 7

  /** The parent takes the lock ... */
  lemma Locks1(q: Pair)
    requires q == Pair(RUNNING, RUNNABLE, NoChan, false, 0, Run, FkRet) && At(q, 0, false, map[], FORKED)
    ensures At(q.(own := map[LK := 0]), 0, false, map[], FORKED)
  {
    hide Reachable;
    var w := map[S(LK) := 0];
    Then(q, 0, false, map[], FORKED, Call(0, AsAcq(LK)), q.(a0 := AsAcq(LK)), 0, false, map[], FORKED);
    Then(q.(a0 := AsAcq(LK)), 0, false, map[], FORKED, Acquire(0), q.(a0 := AsTest(LK)), 0, false, w, FORKED);
    var q2 := q.(a0 := AsRel(LK), own := map[LK := 0]);
    Then(q.(a0 := AsTest(LK)), 0, false, w, FORKED, TakeLock(0), q2, 0, false, w, FORKED);
    Then(q2, 0, false, w, FORKED, Release(0), q2.(a0 := Run), 0, false, map[], FORKED);
  }

  /** ... is preempted ... */
  lemma Yields1(q: Pair)
    requires q.x0 == RUNNING && q.a0 == Run && q.x1 == RUNNABLE && At(q, 0, false, map[], FORKED)
    ensures At(q.(x0 := RUNNABLE, a0 := YSched), 0, false, map[P(0) := 0], FORKED)
  {
    hide Reachable;
    Then(q, 0, false, map[], FORKED, Preempt(0), q.(x0 := RUNNABLE, a0 := YSched), 0, false, map[P(0) := 0], FORKED);
  }

  lemma Yields2(q: Pair)
    requires q.x0 == RUNNABLE && q.a0 == YSched && q.x1 == RUNNABLE && At(q, 0, false, map[P(0) := 0], FORKED)
    ensures At(q.(a0 := YRel), -1, true, map[], FORKED)
  {
    hide Reachable;
    var w := map[P(0) := 0];
    Then(q, 0, false, w, FORKED, Swtch(0), q.(a0 := YRel), 0, true, w, FORKED);
    Then(q.(a0 := YRel), 0, true, w, FORKED, Back(0), q.(a0 := YRel), -1, true, map[], FORKED);
  }

  lemma Yields(q: Pair)
    requires q.x0 == RUNNING && q.a0 == Run && q.x1 == RUNNABLE && At(q, 0, false, map[], FORKED)
    ensures At(q.(x0 := RUNNABLE, a0 := YRel), -1, true, map[], FORKED)
  {
    hide At;
    Yields1(q);
    Yields2(q.(x0 := RUNNABLE, a0 := YSched));
  }

  /** ... and the child, which is now run, ... */
  lemma Locks2(q: Pair)
    requires q == Pair(RUNNABLE, RUNNABLE, NoChan, false, 0, YRel, FkRet, NoChan, map[LK := 0])
    requires At(q, -1, true, map[], FORKED)
    ensures At(q.(x1 := RUNNING), 1, false, map[P(1) := 0], FORKED)
  {
    hide Reachable, Wants, Moved;
    Then(q, -1, true, map[], FORKED, Dispatch(0, 1), q.(x1 := RUNNING), 1, false, map[P(1) := 0], FORKED);
  }

  lemma Locks2b(q: Pair)
    requires q == Pair(RUNNABLE, RUNNING, NoChan, false, 0, YRel, FkRet, NoChan, map[LK := 0])
    requires At(q, 1, false, map[P(1) := 0], FORKED)
    ensures At(q.(a1 := Run), 1, false, map[], FORKED)
  {
    hide Reachable, Wants, Moved;
    Then(q, 1, false, map[P(1) := 0], FORKED, Release(0), q.(a1 := Run), 1, false, map[], FORKED);
  }

  /** ... finds it taken ... */
  lemma Locks3(q: Pair)
    requires q == Pair(RUNNABLE, RUNNING, NoChan, false, 0, YRel, Run, NoChan, map[LK := 0])
    requires At(q, 1, false, map[], FORKED)
    ensures At(q.(a1 := SlAcq(OnLock(LK))), 1, false, map[S(LK) := 0], FORKED)
  {
    hide Reachable;
    var w := map[S(LK) := 0];
    Then(q, 1, false, map[], FORKED, Call(0, AsAcq(LK)), q.(a1 := AsAcq(LK)), 1, false, map[], FORKED);
    Then(q.(a1 := AsAcq(LK)), 1, false, map[], FORKED, Acquire(0), q.(a1 := AsTest(LK)), 1, false, w, FORKED);
    Then(q.(a1 := AsTest(LK)), 1, false, w, FORKED, Move(0), q.(a1 := SlAcq(OnLock(LK))), 1, false, w, FORKED);
  }

  lemma Locks3b(q: Pair)
    requires q == Pair(RUNNABLE, RUNNING, NoChan, false, 0, YRel, SlAcq(OnLock(LK)), NoChan, map[LK := 0])
    requires At(q, 1, false, map[S(LK) := 0], FORKED)
    ensures At(q.(a1 := SlRel(OnLock(LK))), 1, false, map[S(LK) := 0, P(1) := 0], FORKED)
  {
    hide Reachable, Drops, Moved;
    var w := map[S(LK) := 0, P(1) := 0];
    assert w == map[S(LK) := 0][P(1) := 0];
    Then(q, 1, false, map[S(LK) := 0], FORKED, Acquire(0), q.(a1 := SlRel(OnLock(LK))), 1, false, w, FORKED);
  }

  lemma Locks3c(q: Pair)
    requires q == Pair(RUNNABLE, RUNNING, NoChan, false, 0, YRel, SlRel(OnLock(LK)), NoChan, map[LK := 0])
    requires At(q, 1, false, map[S(LK) := 0, P(1) := 0], FORKED)
    ensures At(q.(a1 := SlSet(OnLock(LK))), 1, false, map[P(1) := 0], FORKED)
  {
    hide Reachable, Wants, Moved;
    var w := map[S(LK) := 0, P(1) := 0];
    assert w - {S(LK)} == map[P(1) := 0];
    Then(q, 1, false, w, FORKED, Release(0), q.(a1 := SlSet(OnLock(LK))), 1, false, map[P(1) := 0], FORKED);
  }

  /** ... and sleeps. */
  lemma Locks4(q: Pair)
    requires q == Pair(RUNNABLE, RUNNING, NoChan, false, 0, YRel, SlSet(OnLock(LK)), NoChan, map[LK := 0])
    requires At(q, 1, false, map[P(1) := 0], FORKED)
    ensures At(q.(x1 := SLEEPING, a1 := SlWake(OnLock(LK)), ch1 := LockCh(LK)), -1, true, map[], FORKED)
  {
    hide Reachable;
    var w, o := map[P(1) := 0], OnLock(LK);
    var q2 := q.(x1 := SLEEPING, a1 := SlSched(o), ch1 := LockCh(LK));
    Then(q, 1, false, w, FORKED, GoToSleep(0), q2, 1, false, w, FORKED);
    Then(q2, 1, false, w, FORKED, Swtch(0), q2.(a1 := SlWake(o)), 1, true, w, FORKED);
    Then(q2.(a1 := SlWake(o)), 1, true, w, FORKED, Back(0), q2.(a1 := SlWake(o)), -1, true, map[], FORKED);
  }

  /** The parent goes on ... */
  lemma Locks5(q: Pair)
    requires q == Pair(RUNNABLE, SLEEPING, NoChan, false, 0, YRel, SlWake(OnLock(LK)), LockCh(LK), map[LK := 0])
    requires At(q, -1, true, map[], FORKED)
    ensures At(q.(x0 := RUNNING), 0, false, map[P(0) := 0], FORKED)
  {
    hide Reachable, Wants, Moved;
    Then(q, -1, true, map[], FORKED, Dispatch(0, 0), q.(x0 := RUNNING), 0, false, map[P(0) := 0], FORKED);
  }

  lemma Locks5a(q: Pair)
    requires q == Pair(RUNNING, SLEEPING, NoChan, false, 0, YRel, SlWake(OnLock(LK)), LockCh(LK), map[LK := 0])
    requires At(q, 0, false, map[P(0) := 0], FORKED)
    ensures At(q.(a0 := Run), 0, false, map[], FORKED)
  {
    hide Reachable, Wants, Moved;
    Then(q, 0, false, map[P(0) := 0], FORKED, Release(0), q.(a0 := Run), 0, false, map[], FORKED);
  }

  /** ... clears the lock ... */
  lemma Locks5b(q: Pair)
    requires q == Pair(RUNNING, SLEEPING, NoChan, false, 0, Run, SlWake(OnLock(LK)), LockCh(LK), map[LK := 0])
    requires At(q, 0, false, map[], FORKED)
    ensures At(q.(a0 := RsClear(LK)), 0, false, map[S(LK) := 0], FORKED)
  {
    hide Reachable;
    Then(q, 0, false, map[], FORKED, Call(0, RsAcq(LK)), q.(a0 := RsAcq(LK)), 0, false, map[], FORKED);
    Then(q.(a0 := RsAcq(LK)), 0, false, map[], FORKED, Acquire(0),
        q.(a0 := RsClear(LK)), 0, false, map[S(LK) := 0], FORKED);
  }

  /** ... and wakes the child. */
  lemma Locks6(q: Pair)
    requires q == Pair(RUNNING, SLEEPING, NoChan, false, 0, RsClear(LK), SlWake(OnLock(LK)), LockCh(LK), map[LK := 0])
    requires At(q, 0, false, map[S(LK) := 0], FORKED)
    ensures At(q.(x1 := RUNNABLE, a0 := Wk(LockCh(LK), 2, AfterRelease(LK)), own := map[]), 0, false, map[S(LK) := 0],
        FORKED)
  {
    hide Reachable;
    var w, r := map[S(LK) := 0], AfterRelease(LK);
    var q2 := q.(own := map[]);
    Then(q, 0, false, w, FORKED, ClearLock(0), q2.(a0 := Wk(LockCh(LK), 0, r)), 0, false, w, FORKED);
    Then(q2.(a0 := Wk(LockCh(LK), 0, r)), 0, false, w, FORKED, Move(0),
        q2.(a0 := Wk(LockCh(LK), 1, r)), 0, false, w, FORKED);
    Then(q2.(a0 := Wk(LockCh(LK), 1, r)), 0, false, w, FORKED, WakeOne(0),
        q2.(x1 := RUNNABLE, a0 := Wk(LockCh(LK), 2, r)), 0, false, w, FORKED);
  }

  lemma Locks7(q: Pair)
    requires q == Pair(RUNNING, RUNNABLE, NoChan, false, 0, Wk(LockCh(LK), 2, AfterRelease(LK)), SlWake(OnLock(LK)),
        LockCh(LK), map[])
    requires At(q, 0, false, map[S(LK) := 0], FORKED)
    ensures At(q.(a0 := Run), 0, false, map[], FORKED)
  {
    hide Reachable;
    var w := map[S(LK) := 0];
    Then(q, 0, false, w, FORKED, Move(0), q.(a0 := RsRel(LK)), 0, false, w, FORKED);
    Then(q.(a0 := RsRel(LK)), 0, false, w, FORKED, Release(0), q.(a0 := Run), 0, false, map[], FORKED);
  }

  /** The child goes on and takes the lock. */
  lemma Locks8(q: Pair)
    requires q == Pair(RUNNABLE, RUNNABLE, NoChan, false, 0, YRel, SlWake(OnLock(LK)), LockCh(LK), map[])
    requires At(q, -1, true, map[], FORKED)
    ensures At(q.(x1 := RUNNING, a1 := SlReacq(OnLock(LK)), ch1 := NoChan), 1, false, map[], FORKED)
  {
    hide Reachable;
    var w, o := map[P(1) := 0], OnLock(LK);
    var q2 := q.(x1 := RUNNING);
    Then(q, -1, true, map[], FORKED, Dispatch(0, 1), q2, 1, false, w, FORKED);
    var q3 := q2.(a1 := SlUnlock(o), ch1 := NoChan);
    Then(q2, 1, false, w, FORKED, Resumed(0), q3, 1, false, w, FORKED);
    Then(q3, 1, false, w, FORKED, Release(0), q3.(a1 := SlReacq(o)), 1, false, map[], FORKED);
  }

  lemma Locks9(q: Pair)
    requires q == Pair(RUNNABLE, RUNNING, NoChan, false, 0, YRel, SlReacq(OnLock(LK)), NoChan, map[])
    requires At(q, 1, false, map[], FORKED)
    ensures At(q.(a1 := Run, own := map[LK := 1]), 1, false, map[], FORKED)
  {
    hide Reachable;
    var w := map[S(LK) := 0];
    Then(q, 1, false, map[], FORKED, Acquire(0), q.(a1 := AsTest(LK)), 1, false, w, FORKED);
    var q2 := q.(a1 := AsRel(LK), own := map[LK := 1]);
    Then(q.(a1 := AsTest(LK)), 1, false, w, FORKED, TakeLock(0), q2, 1, false, w, FORKED);
    Then(q2, 1, false, w, FORKED, Release(0), q2.(a1 := Run), 1, false, map[], FORKED);
  }

  /** The parent takes a sleep-lock, the child sleeps for it, the parent releases it, and the child has it. */
  lemma LockHandedOver() returns (s: State)
    ensures Reachable(TWO, s) && s.owner == map[LK := 1] && s.pc == [YRel, Run] && s.holder == map[]
    ensures s.chan == [NoChan, NoChan] && s.cproc == [1]
  {
    hide Reachable, Both;
    InitRuns();
    Forks1(false);
    Forks2(false);
    Forks3(false);
    var q := Pair(RUNNING, RUNNABLE, NoChan, false, 0, Run, FkRet);
    Locks1(q);
    Yields(q.(own := map[LK := 0]));
    q := Pair(RUNNABLE, RUNNABLE, NoChan, false, 0, YRel, FkRet, NoChan, map[LK := 0]);
    Locks2(q);
    q := q.(x1 := RUNNING);
    Locks2b(q);
    Locks3(q.(a1 := Run));
    Locks3b(q.(a1 := SlAcq(OnLock(LK))));
    Locks3c(q.(a1 := SlRel(OnLock(LK))));
    Locks4(q.(a1 := SlSet(OnLock(LK))));
    q := Pair(RUNNABLE, SLEEPING, NoChan, false, 0, YRel, SlWake(OnLock(LK)), LockCh(LK), map[LK := 0]);
    Locks5(q);
    Locks5a(q.(x0 := RUNNING));
    Locks5b(q.(x0 := RUNNING, a0 := Run));
    Locks6(q.(x0 := RUNNING, a0 := RsClear(LK)));
    q := Pair(RUNNING, RUNNABLE, NoChan, false, 0, Run, SlWake(OnLock(LK)), LockCh(LK), map[]);
    Locks7(q.(a0 := Wk(LockCh(LK), 2, AfterRelease(LK))));
    Yields(q);
    Locks8(q.(x0 := RUNNABLE, a0 := YRel));
    q := Pair(RUNNABLE, RUNNING, NoChan, false, 0, YRel, SlReacq(OnLock(LK)), NoChan, map[]);
    Locks9(q);
    s := Both(q.(a1 := Run, own := map[LK := 1]), 1, false, map[], FORKED);
    BothAre(q.(a1 := Run, own := map[LK := 1]));
  }

  lemma BothAre(q: Pair)
    ensures var s := Both(q, 1, false, map[], FORKED);
        && s.owner == q.own && s.pc == [q.a0, q.a1] && s.holder == map[] && s.chan == [q.ch0, q.ch1] && s.cproc == [1]
  {
  }
}

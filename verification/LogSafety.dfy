/**
  What the log guarantees over whole runs: crash atomicity with any number of crashes,
  durability, group commit, and that bread always returns the plain block map.
 */
module LogSafety {
  import opened LogModel

  ghost predicate Next(p: Params, s: State, step: Step, s': State) {
    Shape(p, s) && Enabled(p, s, step) && s' == Apply(p, s, step)
  }

  /** A run: states[i+1] is the outcome of the enabled step steps[i] in states[i]. */
  ghost predicate IsRun(p: Params, states: seq<State>, steps: seq<Step>) {
    && ValidParams(p) && |states| == |steps| + 1 && states[0] == Init(p)
    && forall i {:trigger steps[i]} :: 0 <= i < |steps| ==> Next(p, states[i], steps[i], states[i + 1])
  }

  lemma ExtendRun(p: Params, states: seq<State>, steps: seq<Step>, step: Step, s': State)
    requires IsRun(p, states, steps) && Next(p, states[|states| - 1], step, s')
    ensures IsRun(p, states + [s'], steps + [step])
  {
    var states', steps' := states + [s'], steps + [step];
    forall i | 0 <= i < |steps'| ensures Next(p, states'[i], steps'[i], states'[i + 1]) {
      if i < |steps| {
        assert steps'[i] == steps[i];
      }
    }
  }

  lemma {:induction false} RunInv(p: Params, states: seq<State>, steps: seq<Step>, i: nat)
    requires IsRun(p, states, steps) && i < |states|
    ensures Inv(p, states[i])
  {
    if i == 0 {
      InitInv(p);
    } else {
      RunInv(p, states, steps, i - 1);
      StepInv(p, states[i - 1], steps[i - 1]);
    }
  }

  // ----- what recovery computes -----

  /** install_trans(1) on the entries of h before k. */
  function RedoFrom(p: Params, d: Disk, h: seq<int>, k: nat): (r: Disk)
    requires k <= |h| && p.start + 1 + |h| <= |d|
    ensures |r| == |d|
  {
    if k == 0 then d
    else
      var r := RedoFrom(p, d, h, k - 1);
      if 0 <= h[k - 1] < |r| then r[h[k - 1] := r[Slot(p, k - 1)]] else r
  }

  /** The disk recover_from_log leaves when it runs to the end on disk d. */
  ghost function RecoverDisk(p: Params, d: Disk): (r: Disk)
    requires p.start < |d| && |d[p.start]| == BWORDS && p.start + 1 + |GetHeader(d[p.start])| <= |d|
  {
    var r := RedoFrom(p, d, GetHeader(d[p.start]), |GetHeader(d[p.start])|);
    if |r[p.start]| == BWORDS then r[p.start := PutHeader(r[p.start], [])] else r
  }

  lemma {:induction false} RedoFromHolds(p: Params, d: Disk, h: seq<int>, k: nat, r: Disk)
    requires ValidParams(p) && |d| == |r| == p.total && GoodList(p, h) && k <= |h|
    requires Holds(p, d, h, r)
    ensures Holds(p, RedoFrom(p, d, h, k), h, r) && Installed(p, h, RedoFrom(p, d, h, k), k)
    ensures RedoFrom(p, d, h, k)[p.start] == d[p.start]
  {
    if k > 0 {
      RedoFromHolds(p, d, h, k - 1, r);
      var d' := RedoFrom(p, d, h, k - 1);
      InstallHolds(p, h, d', k - 1, d'[Slot(p, k - 1)], r);
      InstallNext(p, h, d', k - 1, d'[Slot(p, k - 1)]);
    }
  }

  lemma RecoverDiskHolds(p: Params, d: Disk, h: seq<int>, r: Disk)
    requires ValidParams(p) && |d| == |r| == p.total && GoodList(p, h) && HeaderIs(d[p.start], h)
    requires Holds(p, d, h, r)
    ensures GetHeader(d[p.start]) == h
    ensures forall b {:trigger Home(p, b)} :: Home(p, b) ==> RecoverDisk(p, d)[b] == r[b]
    ensures GetHeader(RecoverDisk(p, d)[p.start]) == []
  {
    ReadHeader(d[p.start], h);
    RedoFromHolds(p, d, h, |h|, r);
    var d' := RedoFrom(p, d, h, |h|);
    var hdr := PutHeader(d'[p.start], []);
    HeaderRoundTrip(d'[p.start], []);
    EraseHolds(p, h, d', hdr, r);
  }

  // ----- the theorems -----

  /** A prefix of a history that no operation straddles. */
  ghost predicate WholeOps(hist: seq<Event>, n: nat) {
    n <= |hist| && forall i, j :: 0 <= i < n <= j < |hist| ==> hist[i].op != hist[j].op
  }

  /**
    Crash atomicity.  Stop any run after any number of steps, also in the middle of
    commit() or of a recovery that itself follows other crashes.  Recovery then
    leaves in the home blocks exactly the modifications of a prefix of the history
    that no operation straddles: all of each operation or nothing of it.
   */
  lemma CrashAtomicity(p: Params, states: seq<State>, steps: seq<Step>, i: nat)
    requires IsRun(p, states, steps) && i < |states|
    ensures var s := states[i];
            && Shape(p, s) && HeaderIs(s.disk[p.start], s.onDisk) && GetHeader(s.disk[p.start]) == s.onDisk
            && WholeOps(s.hist, s.durable)
            && forall b {:trigger Home(p, b)} :: Home(p, b) ==>
                 RecoverDisk(p, s.disk)[b] == Replay(p.init, s.hist[..s.durable])[b]
    ensures Made(states[i].hist, states[i].durable) == MadeBy(steps[..i])
  {
    RunHistory(p, states, steps, i);
    RunInv(p, states, steps, i);
    var s := states[i];
    RecoverDiskHolds(p, s.disk, s.onDisk, Replay(p.init, s.hist[..s.durable]));
  }

  lemma StepDurable(p: Params, s: State, step: Step)
    requires Inv(p, s) && Enabled(p, s, step)
    ensures s.hist[..s.durable] <= Apply(p, s, step).hist[..Apply(p, s, step).durable]
  {
    StepInv(p, s, step);
  }

  lemma DurableIn(p: Params, s: State)
    requires Inv(p, s)
    ensures s.durable <= |s.hist|
  {
  }

  /** No finished commit is lost: what is durable stays durable, over any number of crashes. */
  lemma {:induction false} Durability(p: Params, states: seq<State>, steps: seq<Step>, i: nat, j: nat)
    requires IsRun(p, states, steps) && i <= j < |states|
    ensures states[i].durable <= |states[i].hist| && states[j].durable <= |states[j].hist|
    ensures states[i].hist[..states[i].durable] <= states[j].hist[..states[j].durable]
    decreases j - i
  {
    hide Inv, Apply, Enabled, Shape;
    RunInv(p, states, steps, i);
    RunInv(p, states, steps, j);
    DurableIn(p, states[i]);
    DurableIn(p, states[j]);
    if i < j {
      Durability(p, states, steps, i, j - 1);
      RunInv(p, states, steps, j - 1);
      StepDurable(p, states[j - 1], steps[j - 1]);
    }
  }

  lemma PendingBlock(hist: seq<Event>, durable: nat, lh: seq<int>, dirty: set<int>)
    requires PendingInv(hist, durable, lh, dirty) && durable < |hist|
    ensures exists b :: b in lh || b in dirty
  {
    assert hist[durable].blk in lh || hist[durable].blk in dirty;
  }

  /**
    When the last end_op has returned (no operation outstanding, not committing), every
    modification made so far is durable.
   */
  lemma EndOpDurable(p: Params, states: seq<State>, steps: seq<Step>, i: nat)
    requires IsRun(p, states, steps) && i < |states|
    requires states[i].pc.Normal? && states[i].active == map[]
    ensures states[i].durable == |states[i].hist|
  {
    RunInv(p, states, steps, i);
    var s := states[i];
    assert forall b :: b !in s.dirty;
    if s.durable < |s.hist| {
      PendingBlock(s.hist, s.durable, s.lh, s.dirty);
      assert false;
    }
  }

  lemma StepCommit(p: Params, s: State, step: Step)
    requires Inv(p, s) && Enabled(p, s, step)
    ensures Apply(p, s, step).durable != s.durable ==>
              step == WriteHead && s.active == map[] && Apply(p, s, step).durable == |s.hist|
    ensures step.EndOp? && |s.active| > 1 ==> !Committing(Apply(p, s, step))
  {
    if step.EndOp? {
      var rest := s.active - {step.t};
      assert rest.Keys == s.active.Keys - {step.t};
      assert |rest| == |rest.Keys| && |s.active| == |s.active.Keys|;
    }
  }

  /**
    Group commit.  While an operation is outstanding no commit is under way, so the
    "log.committing" panic of end_op and the "outside of trans" panic of log_write
    cannot happen, and the write of the header, the one step at which the durable
    prefix changes, takes in the whole history with no operation outstanding.
   */
  lemma GroupCommit(p: Params, states: seq<State>, steps: seq<Step>, i: nat)
    requires IsRun(p, states, steps) && i < |states|
    ensures |states[i].active| > 0 ==> !Committing(states[i])
    ensures i < |steps| && states[i + 1].durable != states[i].durable ==>
              && steps[i] == WriteHead && states[i].active == map[]
              && states[i + 1].durable == |states[i].hist|
    ensures i < |steps| && steps[i].EndOp? && |states[i].active| > 1 ==> !Committing(states[i + 1])
  {
    RunInv(p, states, steps, i);
    if i < |steps| {
      StepCommit(p, states[i], steps[i]);
    }
  }

  /**
    Cache refinement.  Outside recovery, bread of a home block returns what a plain
    block map would: the effect of every modification so far, whatever has been
    evicted, logged or installed in between.
   */
  lemma BreadReturnsBlockMap(p: Params, states: seq<State>, steps: seq<Step>, i: nat, b: int)
    requires IsRun(p, states, steps) && i < |states| && !Recovering(states[i]) && Home(p, b)
    ensures |states[i].disk| == p.total
    ensures Cached(states[i].disk, states[i].cache, b) == Replay(p.init, MadeBy(steps[..i]).hist)[b]
  {
    RunHistory(p, states, steps, i);
    RunInv(p, states, steps, i);
  }

  // ----- the history is what the operations did -----

  /** A modification shows at once in its block, in no other block, and in the history. */
  lemma ModifyStep(p: Params, s: State, t: int, b: int, data: Block, s': State)
    requires Inv(p, s) && Next(p, s, Modify(t, b, data), s')
    ensures |s'.disk| == |s.disk| == p.total && 0 <= b < p.total
    ensures Cached(s'.disk, s'.cache, b) == data
    ensures forall c :: 0 <= c < p.total && c != b ==> Cached(s'.disk, s'.cache, c) == Cached(s.disk, s.cache, c)
    ensures s'.hist == s.hist + [Event(t, b, data)] && s'.durable == s.durable
  {
  }

  /** Every other step but a crash leaves history and home blocks as they are. */
  lemma OtherStep(p: Params, s: State, step: Step, s': State)
    requires Inv(p, s) && Next(p, s, step, s') && !step.Modify? && !step.Crash?
    ensures s'.hist == s.hist && |s'.disk| == |s.disk| == p.total
    ensures !Recovering(s) ==>
        forall c {:trigger Home(p, c)} :: Home(p, c) ==> Cached(s'.disk, s'.cache, c) == Cached(s.disk, s.cache, c)
  {
    StepInv(p, s, step);
  }

  /** A crash keeps the disk and nothing of memory. */
  lemma CrashStep(p: Params, s: State, s': State)
    requires Inv(p, s) && Next(p, s, Crash, s')
    ensures s'.disk == s.disk && s'.cache == map[] && s'.locked == map[] && s'.active == map[] && s'.lh == []
    ensures s'.pc == ReadHead && s'.hist == s.hist[..s.durable] && s'.durable == s.durable
  {
  }

  /** The modifications the steps make, and how many of them the last commit took in; a crash loses the others. */
  datatype Made = Made(hist: seq<Event>, durable: nat)

  function MadeBy(steps: seq<Step>): (r: Made)
    ensures r.durable <= |r.hist|
  {
    if steps == [] then Made([], 0)
    else
      var r := MadeBy(steps[..|steps| - 1]);
      match steps[|steps| - 1]
      case Modify(t, b, data) => Made(r.hist + [Event(t, b, data)], r.durable)
      case WriteHead => Made(r.hist, |r.hist|)
      case Crash => Made(r.hist[..r.durable], r.durable)
      case _ => r
  }

  /** In every run the history is what the steps so far have made. */
  lemma {:induction false} RunHistory(p: Params, states: seq<State>, steps: seq<Step>, i: nat)
    requires IsRun(p, states, steps) && i < |states|
    ensures Made(states[i].hist, states[i].durable) == MadeBy(steps[..i])
  {
    hide Inv, Apply, Enabled, Shape;
    if i > 0 {
      RunHistory(p, states, steps, i - 1);
      RunInv(p, states, steps, i - 1);
      assert steps[..i][..i - 1] == steps[..i - 1] && steps[..i][i - 1] == steps[i - 1];
      HistoryStep(p, states[i - 1], steps[i - 1], states[i]);
    }
  }

  lemma HistoryStep(p: Params, s: State, step: Step, s': State)
    requires Inv(p, s) && Next(p, s, step, s')
    ensures s'.hist == (match step
                        case Modify(t, b, data) => s.hist + [Event(t, b, data)]
                        case Crash => s.hist[..s.durable]
                        case _ => s.hist)
    ensures s'.durable == (if step == WriteHead then |s.hist| else s.durable)
  {
  }
}

/**
  Log space.  begin_op reserves MAXOPBLOCKS blocks for every outstanding operation;
  log_write panics when log.lh.n reaches LOGSIZE or log.size - 1, and tests that before
  it looks for a block to absorb.  For operations that log at most p.opBlocks distinct
  blocks this module finds exactly when that panic can happen.
 */
module LogCapacity {
  import opened LogModel
  import opened LogSafety

  ghost function Pick<T>(s: set<T>): (x: T)
    requires |s| > 0
    ensures x in s
  {
    var x :| x in s;
    x
  }

  /** The blocks the outstanding operations may still log. */
  ghost function Unused(active: map<int, set<int>>, k: nat): int {
    if |active.Keys| == 0 then 0
    else
      var t := Pick(active.Keys);
      k - |active[t]| + Unused(active - {t}, k)
  }

  lemma {:induction false} UnusedRemove(active: map<int, set<int>>, k: nat, t: int)
    requires t in active
    ensures Unused(active, k) == k - |active[t]| + Unused(active - {t}, k)
    decreases |active|
  {
    var u := Pick(active.Keys);
    if u != t {
      UnusedRemove(active - {u}, k, t);
      UnusedRemove(active - {t}, k, u);
      assert active - {u} - {t} == active - {t} - {u};
    }
  }

  lemma UnusedUpdate(active: map<int, set<int>>, k: nat, t: int, blocks: set<int>)
    ensures Unused(active[t := blocks], k) == k - |blocks| + Unused(active - {t}, k)
  {
    UnusedRemove(active[t := blocks], k, t);
    assert active[t := blocks] - {t} == active - {t};
  }

  lemma FewerKeys(active: map<int, set<int>>, t: int)
    requires t in active
    ensures |active| == |active - {t}| + 1
  {
    assert (active - {t}).Keys == active.Keys - {t};
    assert |active| == |active.Keys| && |active - {t}| == |(active - {t}).Keys|;
  }

  lemma {:induction false} UnusedBound(active: map<int, set<int>>, k: nat)
    requires forall t :: t in active ==> |active[t]| <= k
    ensures 0 <= Unused(active, k) <= k * |active|
    decreases |active|
  {
    if |active.Keys| != 0 {
      hide Unused;
      var t := Pick(active.Keys);
      UnusedRemove(active, k, t);
      var rest := active - {t};
      FewerKeys(active, t);
      UnusedBound(rest, k);
      assert k * (|rest| + 1) == k * |rest| + k;
    }
  }

  /** The most blocks the log can be asked to hold. */
  function Peak(p: Params): nat { MAXOPBLOCKS + 2 * p.opBlocks }

  ghost predicate SpaceInv(p: Params, s: State) {
    && (forall t :: t in s.active ==> |s.active[t]| <= p.opBlocks)
    && (s.pc.Normal? ==> |s.lh| + Unused(s.active, p.opBlocks) <= Peak(p))
  }

  /** The arithmetic of begin_op's test: n operations outstanding, x blocks logged. */
  lemma BeginArithmetic(x: nat, n: nat, k: nat, u: int)
    requires n >= 1 && k <= MAXOPBLOCKS && u <= k * n
    requires x + (n + 1) * MAXOPBLOCKS <= LOGSIZE
    ensures x + u + k <= MAXOPBLOCKS + 2 * k
  {
    assert n == 1 || n == 2;
  }

  lemma BeginSpace(active: map<int, set<int>>, k: nat, x: nat, t: int)
    requires t !in active && k <= MAXOPBLOCKS && (forall u :: u in active ==> |active[u]| <= k)
    requires x + (|active| + 1) * MAXOPBLOCKS <= LOGSIZE && (|active| == 0 ==> x == 0)
    ensures x + Unused(active[t := {}], k) <= MAXOPBLOCKS + 2 * k
  {
    UnusedUpdate(active, k, t, {});
    assert active - {t} == active;
    UnusedBound(active, k);
    if |active| != 0 {
      BeginArithmetic(x, |active|, k, Unused(active, k));
    }
  }

  lemma BeginOpSpace(p: Params, s: State, t: int)
    requires ControlInv(p, s) && Enabled(p, s, BeginOp(t)) && SpaceInv(p, s)
    ensures SpaceInv(p, Apply(p, s, BeginOp(t)))
  {
    if |s.active| == 0 {
      assert s.active == map[];
    }
    BeginSpace(s.active, p.opBlocks, |s.lh|, t);
  }

  lemma LogWriteSpace(p: Params, s: State, t: int, b: int)
    requires ControlInv(p, s) && Enabled(p, s, LogWrite(t, b)) && SpaceInv(p, s)
    ensures SpaceInv(p, Apply(p, s, LogWrite(t, b)))
  {
    UnusedUpdate(s.active, p.opBlocks, t, s.active[t] + {b});
    UnusedRemove(s.active, p.opBlocks, t);
    if b in s.active[t] {
      assert s.active[t] + {b} == s.active[t];
      assert b in s.lh;
    }
  }

  lemma EndOpSpace(p: Params, s: State, t: int)
    requires ControlInv(p, s) && Enabled(p, s, EndOp(t)) && SpaceInv(p, s)
    ensures SpaceInv(p, Apply(p, s, EndOp(t)))
  {
    UnusedRemove(s.active, p.opBlocks, t);
  }

  lemma StepSpace(p: Params, s: State, step: Step)
    requires Inv(p, s) && Enabled(p, s, step) && SpaceInv(p, s)
    ensures SpaceInv(p, Apply(p, s, step))
  {
    match step
    case BeginOp(t) => BeginOpSpace(p, s, t);
    case LogWrite(t, b) => LogWriteSpace(p, s, t, b);
    case EndOp(t) => EndOpSpace(p, s, t);
    case _ =>
  }

  /**
    The reservation invariant: in every run the logged blocks and the unused reservations
    of the outstanding operations together stay within Peak(p), hence within LOGSIZE.
   */
  lemma {:induction false} Reservation(p: Params, states: seq<State>, steps: seq<Step>, i: nat)
    requires IsRun(p, states, steps) && i < |states|
    ensures SpaceInv(p, states[i]) && Peak(p) <= LOGSIZE
  {
    if i > 0 {
      Reservation(p, states, steps, i - 1);
      RunInv(p, states, steps, i - 1);
      StepSpace(p, states[i - 1], steps[i - 1]);
    }
  }

  /** An outstanding operation within its budget is about to call log_write, which panics. */
  ghost predicate Panics(p: Params, s: State, t: int, b: int) {
    && t in s.active && b in s.locked && s.locked[b] == t
    && |s.active[t] + {b}| <= p.opBlocks
    && TooBig(p, s)
  }

  lemma NoPanic(p: Params, states: seq<State>, steps: seq<Step>, i: nat, t: int, b: int)
    requires IsRun(p, states, steps) && i < |states|
    requires Peak(p) < LOGSIZE && Peak(p) < p.size - 1
    ensures !Panics(p, states[i], t, b)
  {
    RunInv(p, states, steps, i);
    Reservation(p, states, steps, i);
    UnusedBound(states[i].active, p.opBlocks);
  }

  // ----- reaching the panic -----

  ghost predicate Reachable(p: Params, s: State) {
    exists states, steps :: IsRun(p, states, steps) && states[|states| - 1] == s
  }

  lemma ReachInit(p: Params)
    requires ValidParams(p)
    ensures Reachable(p, Init(p))
  {
    var states: seq<State>, steps: seq<Step> := [Init(p)], [];
    assert IsRun(p, states, steps) && states[|states| - 1] == Init(p);
  }

  lemma ReachInv(p: Params, s: State)
    requires Reachable(p, s)
    ensures Inv(p, s)
  {
    var states, steps :| IsRun(p, states, steps) && states[|states| - 1] == s;
    RunInv(p, states, steps, |states| - 1);
  }

  lemma ReachStep(p: Params, s: State, step: Step) returns (s': State)
    requires Reachable(p, s) && Enabled(p, s, step)
    ensures Shape(p, s) && s' == Apply(p, s, step)
    ensures Reachable(p, s')
  {
    ReachInv(p, s);
    s' := Apply(p, s, step);
    var states, steps :| IsRun(p, states, steps) && states[|states| - 1] == s;
    var states', steps' := states + [s'], steps + [step];
    ExtendRun(p, states, steps, step, s');
    assert IsRun(p, states', steps') && states'[|states'| - 1] == s';
  }

  /** The i-th home block. */
  function HomeBlock(p: Params, i: nat): int { if i < p.start then i else i + p.size }

  function Blocks(p: Params, n: nat): seq<int> { seq(n, i requires 0 <= i < n => HomeBlock(p, i)) }

  /** Between operations' calls: no buffer held, the first n home blocks logged, nothing modified. */
  ghost predicate Ready(p: Params, s: State, n: nat) {
    && Reachable(p, s) && s.pc.Normal? && s.locked == map[] && s.dirty == {} && s.hist == []
    && s.lh == Blocks(p, n)
  }

  ghost predicate Room(p: Params, n: nat) {
    ValidParams(p) && n <= LOGSIZE && n <= p.size - 1 && n <= p.total - p.size
  }

  lemma Boot(p: Params) returns (s: State)
    requires ValidParams(p)
    ensures Ready(p, s, 0) && s.active == map[]
  {
    ReachInit(p);
    var s1 := ReachStep(p, Init(p), RecoverRead);
    ReachInv(p, s1);
    s := ReachStep(p, s1, RedoErase);
  }

  lemma FreshBlock(p: Params, s: State, t: int, n: nat)
    requires Room(p, n + 1) && Ready(p, s, n) && t in s.active
    ensures var b := HomeBlock(p, n);
            Home(p, b) && b !in s.lh && |s.active[t] + {b}| == |s.active[t]| + 1
  {
    var b := HomeBlock(p, n);
    forall i | 0 <= i < n ensures s.lh[i] != b {}
    ReachInv(p, s);
    assert b in s.active[t] ==> b in s.lh;
  }

  /** One operation reads, logs and releases one more block. */
  lemma LogOne(p: Params, s: State, t: int, n: nat) returns (s': State)
    requires Room(p, n + 1) && Ready(p, s, n)
    requires t in s.active && |s.active[t]| < p.opBlocks
    ensures Ready(p, s', n + 1)
    ensures s'.active == s.active[t := s.active[t] + {HomeBlock(p, n)}]
    ensures |s'.active[t]| == |s.active[t]| + 1
  {
    var b := HomeBlock(p, n);
    FreshBlock(p, s, t, n);
    var s1 := ReachStep(p, s, Bread(t, b));
    var s2 := ReachStep(p, s1, LogWrite(t, b));
    s' := ReachStep(p, s2, Brelse(t, b));
    assert s'.lh == Blocks(p, n + 1);
    assert s'.locked == map[];
  }

  lemma {:induction false} LogMany(p: Params, s: State, t: int, n: nat, m: nat) returns (s': State)
    requires Room(p, n + m) && Ready(p, s, n)
    requires t in s.active && |s.active[t]| + m <= p.opBlocks
    ensures Ready(p, s', n + m)
    ensures s'.active.Keys == s.active.Keys && (forall u :: u in s.active && u != t ==> s'.active[u] == s.active[u])
    ensures |s'.active[t]| == |s.active[t]| + m
    decreases m
  {
    if m == 0 {
      s' := s;
    } else {
      var s1 := LogOne(p, s, t, n);
      s' := LogMany(p, s1, t, n + 1, m - 1);
    }
  }

  lemma Begin(p: Params, s: State, t: int, n: nat) returns (s': State)
    requires Ready(p, s, n) && t !in s.active && n + (|s.active| + 1) * MAXOPBLOCKS <= LOGSIZE
    ensures Ready(p, s', n) && s'.active == s.active[t := {}]
  {
    s' := ReachStep(p, s, BeginOp(t));
  }

  lemma End(p: Params, s: State, t: int, u: int, n: nat) returns (s': State)
    requires Ready(p, s, n) && t in s.active && u in s.active && t != u
    ensures Ready(p, s', n) && s'.active == s.active - {t}
  {
    ReachInv(p, s);
    s' := ReachStep(p, s, EndOp(t));
    assert u in s.active - {t};
    assert |s.active - {t}| > 0;
  }

  /** Operation 0 stays outstanding while n short operations log one block each. */
  lemma {:induction false} Fill(p: Params, n: nat) returns (s: State)
    requires Room(p, n) && n <= MAXOPBLOCKS && p.opBlocks >= 1
    ensures Ready(p, s, n) && s.active == map[0 := {}]
  {
    if n == 0 {
      var s0 := Boot(p);
      s := Begin(p, s0, 0, 0);
    } else {
      var s0 := Fill(p, n - 1);
      assert |s0.active| == 1;
      var s1 := Begin(p, s0, 1, n - 1);
      var s2 := LogOne(p, s1, 1, n - 1);
      s := End(p, s2, 1, 0, n);
      assert s.active == map[0 := {}];
    }
  }

  /** An outstanding operation with room in its budget, or that has logged a block, can try again. */
  lemma TryAgain(p: Params, s: State, n: nat) returns (s': State, b: int)
    requires Ready(p, s, n) && 0 in s.active && TooBig(p, s) && p.total > p.size
    requires |s.active[0]| < p.opBlocks || (0 < |s.active[0]| <= p.opBlocks)
    ensures Reachable(p, s') && Panics(p, s', 0, b)
  {
    ReachInv(p, s);
    if |s.active[0]| < p.opBlocks {
      b := HomeBlock(p, 0);
    } else {
      b := Pick(s.active[0]);
      assert s.active[0] + {b} == s.active[0];
      assert b in s.lh;
    }
    s' := ReachStep(p, s, Bread(0, b));
  }

  /** If the log cannot hold Peak(p) blocks, some run panics. */
  lemma PanicReachable(p: Params) returns (s: State, b: int)
    requires ValidParams(p) && p.opBlocks >= 1
    requires Peak(p) >= LOGSIZE || Peak(p) >= p.size - 1
    requires p.total - p.size >= LOGSIZE
    ensures Reachable(p, s) && Panics(p, s, 0, b)
  {
    var k := p.opBlocks;
    var cap: nat := if LOGSIZE < p.size - 1 then LOGSIZE else p.size - 1;
    var s0 := Fill(p, if cap < MAXOPBLOCKS then cap else MAXOPBLOCKS);
    if cap <= MAXOPBLOCKS {
      s, b := TryAgain(p, s0, cap);
    } else {
      assert |s0.active| == 1;
      var s1 := Begin(p, s0, 1, MAXOPBLOCKS);
      var m: nat := if k < cap - MAXOPBLOCKS then k else cap - MAXOPBLOCKS;
      var s2 := LogMany(p, s1, 1, MAXOPBLOCKS, m);
      if MAXOPBLOCKS + m == cap {
        s, b := TryAgain(p, s2, cap);
      } else {
        var s3 := End(p, s2, 1, 0, MAXOPBLOCKS + m);
        var s4 := LogMany(p, s3, 0, MAXOPBLOCKS + m, cap - MAXOPBLOCKS - m);
        s, b := TryAgain(p, s4, cap);
      }
    }
  }

  /**
    Exactly when log_write can panic with "too big a transaction": the log has room for
    Peak(p) = MAXOPBLOCKS + 2 * p.opBlocks blocks and one more.
   */
  lemma PanicFreeIff(p: Params)
    requires ValidParams(p) && p.opBlocks >= 1 && p.total - p.size >= LOGSIZE
    ensures (forall s, t, b :: Reachable(p, s) ==> !Panics(p, s, t, b))
            <==> (Peak(p) < LOGSIZE && Peak(p) < p.size - 1)
  {
    if Peak(p) < LOGSIZE && Peak(p) < p.size - 1 {
      forall s, t, b | Reachable(p, s) ensures !Panics(p, s, t, b) {
        var states, steps :| IsRun(p, states, steps) && states[|states| - 1] == s;
        NoPanic(p, states, steps, |states| - 1, t, b);
      }
    } else {
      var s, b := PanicReachable(p);
    }
  }

  /**
    With the log mkfs lays out (nlog = LOGSIZE) and operations that use all of
    MAXOPBLOCKS, the panic is reachable; with at most MAXOPBLOCKS - 1 it is not.
   */
  lemma MkfsLayout(p: Params)
    requires ValidParams(p) && p.size == LOGSIZE && p.total - p.size >= LOGSIZE && p.opBlocks >= 1
    ensures (forall s, t, b :: Reachable(p, s) ==> !Panics(p, s, t, b)) <==> p.opBlocks < MAXOPBLOCKS
  {
    PanicFreeIff(p);
  }
}

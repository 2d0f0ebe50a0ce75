/**
 * The order of replayed calls across threads.  Every recorded call carries a sync id; its arm
 * spins until the shared counter is one less, runs its side effects, and adds one.  An exit adds
 * one first, because the host call does not come back: its thread makes no further call.
 */
module Ticket {

  /** One recorded call: its position in the global order, and whether it ends the thread. */
  datatype Call = Call(syncId: nat, exits: bool)

  /** Waiting for the turn of call `at`; past the wait; past the increment of an exit; gone with the exit. */
  datatype Phase = Waiting | Working | Leaving | Gone

  datatype Thread = Thread(calls: seq<Call>, at: nat, phase: Phase)

  datatype State = State(counter: nat, threads: seq<Thread>, passed: seq<nat>)

  predicate Done(t: Thread) {
    t.at >= |t.calls| || t.phase.Gone?
  }

  predicate AllDone(s: State) {
    forall t <- s.threads :: Done(t)
  }

  function Current(t: Thread): Call
    requires !Done(t)
  {
    t.calls[t.at]
  }

  function NextCall(t: Thread): Thread {
    t.(at := t.at + 1, phase := Waiting)
  }

  /**
   * One step of thread `i`: pass the wait when the counter is right; then side effects and
   * increment, in the order the arm has them.  `passed` records the ids in the order of the waits.
   */
  function Step(s: State, i: nat): (r: State)
    requires i < |s.threads| && CanStep(s, i)
  {
    var t := s.threads[i];
    var c := Current(t);
    match t.phase
    case Waiting =>
      s.(threads := s.threads[i := t.(phase := Working)], passed := s.passed + [c.syncId])
    case Working =>
      State(s.counter + 1, s.threads[i := if c.exits then t.(phase := Leaving) else NextCall(t)], s.passed)
    case Leaving => s.(threads := s.threads[i := t.(at := t.at + 1, phase := Gone)])
  }

  predicate CanStep(s: State, i: nat) {
    i < |s.threads| && !Done(s.threads[i])
    && (s.threads[i].phase.Waiting? ==> s.counter + 1 == Current(s.threads[i]).syncId)
  }

  predicate IsStep(s: State, t: State, i: nat) {
    CanStep(s, i) && t == Step(s, i)
  }

  function Start(program: seq<seq<Call>>): State {
    State(0, seq(|program|, i requires 0 <= i < |program| => Thread(program[i], 0, Waiting)), [])
  }

  ghost predicate Reachable(program: seq<seq<Call>>, s: State, steps: nat)
    decreases steps
  {
    if steps == 0 then s == Start(program)
    else exists r, i: nat :: Reachable(program, r, steps - 1) && IsStep(r, s, i)
  }

  // ----- recordings -----

  predicate HasId(program: seq<seq<Call>>, id: nat, i: nat, j: nat) {
    i < |program| && j < |program[i]| && program[i][j].syncId == id
  }

  ghost predicate Occurs(program: seq<seq<Call>>, id: nat) {
    exists i: nat, j: nat :: HasId(program, id, i, j)
  }

  /** Sync ids are exactly 1..n, each once. */
  ghost predicate Complete(program: seq<seq<Call>>, n: nat) {
    && (forall i, j :: 0 <= i < |program| && 0 <= j < |program[i]| ==> 1 <= program[i][j].syncId <= n)
    && (forall id: nat :: 1 <= id <= n ==> Occurs(program, id))
    && (forall id: nat, i: nat, j: nat, k: nat, l: nat :: HasId(program, id, i, j) && HasId(program, id, k, l) ==> i == k && j == l)
  }

  /** The first `m` ids of a thread go up. */
  ghost predicate AscendingTo(calls: seq<Call>, m: nat) {
    forall j, k :: 0 <= j < k < |calls| && k < m ==> calls[j].syncId < calls[k].syncId
  }

  /** Within each thread, ids go up. */
  ghost predicate Ascending(program: seq<seq<Call>>) {
    forall i :: 0 <= i < |program| ==> AscendingTo(program[i], |program[i]|)
  }

  /** No thread makes a call after it exits. */
  ghost predicate ExitsLast(program: seq<seq<Call>>) {
    forall i, j :: 0 <= i < |program| && 0 <= j < |program[i]| - 1 ==> !program[i][j].exits
  }

  // ----- the invariant -----

  /** How many calls of the thread have passed their wait. */
  function Started(t: Thread): nat {
    if t.phase.Waiting? || t.phase.Gone? then t.at else t.at + 1
  }

  function Iota1(n: nat): (s: seq<nat>)
    ensures |s| == n && forall k :: 0 <= k < n ==> s[k] == k + 1
  {
    seq(n, k => k + 1)
  }

  /** Between its wait and its increment. */
  predicate Busy(t: Thread) {
    !Done(t) && t.phase.Working?
  }

  ghost predicate AnyBusy(s: State) {
    exists i :: 0 <= i < |s.threads| && Busy(s.threads[i])
  }

  /** A thread follows its part of the recording, up to its first exit. */
  predicate Follows(calls: seq<Call>, t: Thread) {
    && t.calls == calls && t.at <= |calls| && (Done(t) ==> t.phase.Waiting? || t.phase.Gone?)
    && (t.phase.Gone? ==> t.at > 0 && calls[t.at - 1].exits) && (t.phase.Leaving? ==> calls[t.at].exits)
    && (forall j :: 0 <= j < t.at && calls[j].exits ==> j == t.at - 1 && t.phase.Gone?)
  }

  /** With exits last, a thread that is done has made all its calls. */
  lemma DoneAtEnd(program: seq<seq<Call>>, i: nat, t: Thread)
    requires i < |program| && Follows(program[i], t) && Done(t) && ExitsLast(program)
    ensures t.at == |program[i]| == Started(t)
  {
  }

  /** The calls that passed their wait are those with the ids passed so far, and they went up. */
  ghost predicate InOrder(calls: seq<Call>, t: Thread, passed: nat) {
    && (forall j :: 0 <= j < |calls| ==> (j < Started(t) <==> calls[j].syncId <= passed))
    && AscendingTo(calls, Started(t))
  }

  ghost predicate Inv(program: seq<seq<Call>>, n: nat, s: State) {
    && |s.threads| == |program| && |s.passed| <= n && s.passed == Iota1(|s.passed|)
    && (forall i :: 0 <= i < |program| ==> Follows(program[i], s.threads[i]))
    && (forall i :: 0 <= i < |program| ==> InOrder(program[i], s.threads[i], |s.passed|))
    && (forall i :: 0 <= i < |program| && Busy(s.threads[i]) ==> Current(s.threads[i]).syncId == s.counter + 1)
    && (forall i, j :: 0 <= i < |program| && 0 <= j < |program| && Busy(s.threads[i]) && Busy(s.threads[j]) ==> i == j)
    && |s.passed| == s.counter + (if AnyBusy(s) then 1 else 0)
  }

  lemma InitInv(program: seq<seq<Call>>, n: nat)
    requires Complete(program, n)
    ensures Inv(program, n, Start(program))
  {
  }

  /** The turn of a waiting call comes only when nobody is busy. */
  lemma TurnAlone(program: seq<seq<Call>>, n: nat, s: State, i: nat)
    requires Complete(program, n) && Inv(program, n, s) && CanStep(s, i) && s.threads[i].phase.Waiting?
    ensures !AnyBusy(s) && |s.passed| == s.counter
  {
    var t := s.threads[i];
    assert Follows(program[i], t) && InOrder(program[i], t, |s.passed|);
  }

  lemma InvPass(program: seq<seq<Call>>, n: nat, s: State, i: nat)
    requires Complete(program, n) && Inv(program, n, s) && CanStep(s, i) && s.threads[i].phase.Waiting?
    ensures Inv(program, n, Step(s, i))
  {
    TurnAlone(program, n, s, i);
    var t, c, r := s.threads[i], Current(s.threads[i]), Step(s, i);
    assert Follows(program[i], t);
    assert r.passed == Iota1(s.counter + 1);
    assert Busy(r.threads[i]);
    forall k | 0 <= k < |program|
      ensures InOrder(program[k], r.threads[k], |r.passed|)
    {
      PassInOrder(program, n, s, i, k);
    }
  }

  lemma PassInOrder(program: seq<seq<Call>>, n: nat, s: State, i: nat, k: nat)
    requires Complete(program, n) && Inv(program, n, s) && CanStep(s, i) && s.threads[i].phase.Waiting?
    requires k < |program| && |s.passed| == s.counter
    ensures InOrder(program[k], Step(s, i).threads[k], s.counter + 1)
  {
    var t := s.threads[i];
    var r := Step(s, i).threads[k];
    assert Follows(program[i], t) && InOrder(program[k], s.threads[k], s.counter);
    assert HasId(program, s.counter + 1, i, t.at);
    forall j | 0 <= j < |program[k]|
      ensures j < Started(r) <==> program[k][j].syncId <= s.counter + 1
    {
      if program[k][j].syncId == s.counter + 1 {
        assert HasId(program, s.counter + 1, k, j);
      }
    }
  }

  /** The increment: nobody is busy afterwards. */
  lemma InvIncrement(program: seq<seq<Call>>, n: nat, s: State, i: nat)
    requires Inv(program, n, s) && CanStep(s, i) && s.threads[i].phase.Working?
    ensures Inv(program, n, Step(s, i))
  {
    var t, r := s.threads[i], Step(s, i);
    assert Busy(t);
    InvThread(program, s, r, i);
    assert !AnyBusy(r);
    hide InOrder, Follows, AscendingTo;
  }

  /** An exit's thread is gone. */
  lemma InvLeave(program: seq<seq<Call>>, n: nat, s: State, i: nat)
    requires Inv(program, n, s) && CanStep(s, i) && s.threads[i].phase.Leaving?
    ensures Inv(program, n, Step(s, i))
  {
    var r := Step(s, i);
    InvThread(program, s, r, i);
    hide InOrder, Follows, AscendingTo;
    assert forall k :: 0 <= k < |s.threads| ==> Busy(r.threads[k]) == Busy(s.threads[k]);
    if AnyBusy(s) {
      var k :| 0 <= k < |s.threads| && Busy(s.threads[k]);
      assert Busy(r.threads[k]);
    }
  }

  /** Past its wait, a thread's steps do not change what it has started. */
  lemma InvThread(program: seq<seq<Call>>, s: State, r: State, i: nat)
    requires CanStep(s, i) && !s.threads[i].phase.Waiting? && r == Step(s, i) && i < |program|
    requires Follows(program[i], s.threads[i]) && InOrder(program[i], s.threads[i], |s.passed|)
    ensures Follows(program[i], r.threads[i]) && InOrder(program[i], r.threads[i], |r.passed|)
  {
    assert Started(r.threads[i]) == Started(s.threads[i]);
  }

  lemma {:induction false} ReachableInv(program: seq<seq<Call>>, n: nat, s: State, steps: nat)
    requires Complete(program, n) && Reachable(program, s, steps)
    ensures Inv(program, n, s)
    decreases steps
  {
    hide Complete, Inv, Step;
    if steps == 0 {
      InitInv(program, n);
    } else {
      var r, i: nat :| Reachable(program, r, steps - 1) && IsStep(r, s, i);
      ReachableInv(program, n, r, steps - 1);
      match r.threads[i].phase
      case Waiting => InvPass(program, n, r, i);
      case Working => InvIncrement(program, n, r, i);
      case Leaving => InvLeave(program, n, r, i);
    }
  }

  // ----- what the tickets are for -----

  /** In every interleaving the waits are passed in the order 1, 2, 3, ... */
  lemma PassedInOrder(program: seq<seq<Call>>, n: nat, s: State, steps: nat)
    requires Complete(program, n) && Reachable(program, s, steps)
    ensures s.passed == Iota1(|s.passed|) && |s.passed| <= n
    ensures AllDone(s) && ExitsLast(program) ==> s.passed == Iota1(n)
  {
    ReachableInv(program, n, s, steps);
    if AllDone(s) && ExitsLast(program) && n > 0 {
      assert Occurs(program, n);
      var i: nat, j: nat :| HasId(program, n, i, j);
      assert Follows(program[i], s.threads[i]) && InOrder(program[i], s.threads[i], |s.passed|);
      assert s.threads[i] in s.threads;
      DoneAtEnd(program, i, s.threads[i]);
    }
  }

  /** At most one call is between its wait and its increment. */
  lemma OneAtATime(program: seq<seq<Call>>, n: nat, s: State, steps: nat, i: nat, j: nat)
    requires Complete(program, n) && Reachable(program, s, steps)
    requires i < |s.threads| && j < |s.threads| && Busy(s.threads[i]) && Busy(s.threads[j])
    ensures i == j && Current(s.threads[i]).syncId == s.counter + 1
  {
    ReachableInv(program, n, s, steps);
  }

  /** With ids that go up within each thread and exits last, no reachable state is stuck before all calls are done. */
  lemma Progress(program: seq<seq<Call>>, n: nat, s: State, steps: nat)
    requires Complete(program, n) && Ascending(program) && ExitsLast(program) && Reachable(program, s, steps) && !AllDone(s)
    ensures exists i: nat :: CanStep(s, i)
  {
    ReachableInv(program, n, s, steps);
    var k :| 0 <= k < |s.threads| && !Done(s.threads[k]);
    if !s.threads[k].phase.Waiting? {
      assert CanStep(s, k);
    } else if AnyBusy(s) {
      var b :| 0 <= b < |s.threads| && Busy(s.threads[b]);
      assert CanStep(s, b);
    } else {
      NextTurn(program, n, s, k);
    }
  }

  lemma IsCurrent(calls: seq<Call>, t: Thread, passed: nat, j: nat)
    requires Follows(calls, t) && InOrder(calls, t, passed) && AscendingTo(calls, |calls|) && t.phase.Waiting?
    requires j < |calls| && calls[j].syncId == passed + 1
    ensures j == t.at
  {
    var k := t.at;
    assert k < |calls| ==> calls[k].syncId > passed;
  }

  /** Nobody busy: the call whose turn it is, is its thread's current one. */
  lemma NextTurn(program: seq<seq<Call>>, n: nat, s: State, k: nat)
    requires Complete(program, n) && Ascending(program) && ExitsLast(program) && Inv(program, n, s)
    requires !AnyBusy(s) && k < |s.threads| && !Done(s.threads[k]) && s.threads[k].phase.Waiting?
    ensures exists i: nat :: CanStep(s, i)
  {
    var c := s.counter;
    assert Follows(program[k], s.threads[k]) && InOrder(program[k], s.threads[k], c);
    assert program[k][s.threads[k].at].syncId > c;
    assert Occurs(program, c + 1);
    var i: nat, j: nat :| HasId(program, c + 1, i, j);
    var t := s.threads[i];
    assert Follows(program[i], t) && InOrder(program[i], t, c);
    if Done(t) { DoneAtEnd(program, i, t); }
    assert !Done(t);
    if t.phase.Waiting? { IsCurrent(program[i], t, c, j); }
    assert CanStep(s, i);
  }

  // ----- runs end -----

  function PhaseRank(p: Phase): nat {
    match p case Waiting => 3 case Working => 2 case Leaving => 1 case Gone => 0
  }

  function ThreadRank(t: Thread): nat {
    if Done(t) then 0 else 3 * (|t.calls| - t.at - 1) + PhaseRank(t.phase)
  }

  function Rank(ts: seq<Thread>): nat {
    if ts == [] then 0 else Rank(ts[..|ts| - 1]) + ThreadRank(ts[|ts| - 1])
  }

  lemma {:induction false} RankUpdate(ts: seq<Thread>, i: nat, t: Thread)
    requires i < |ts| && ThreadRank(t) < ThreadRank(ts[i])
    ensures Rank(ts[i := t]) < Rank(ts)
    decreases |ts|
  {
    var last := |ts| - 1;
    if i == last {
      assert ts[i := t][..last] == ts[..last];
    } else {
      assert ts[i := t][..last] == ts[..last][i := t];
      RankUpdate(ts[..last], i, t);
    }
  }

  /** Every step brings the end closer. */
  lemma StepRank(s: State, i: nat)
    requires CanStep(s, i)
    ensures Rank(Step(s, i).threads) < Rank(s.threads)
  {
    RankUpdate(s.threads, i, Step(s, i).threads[i]);
  }

  /** `k` steps lead from `s` to `t`. */
  ghost predicate Leads(s: State, t: State, k: nat)
    decreases k
  {
    if k == 0 then s == t else exists u, i: nat :: IsStep(s, u, i) && Leads(u, t, k - 1)
  }

  /** What a reachable state leads to is reachable, and every step of the way uses up some of its rank. */
  lemma {:induction false} LeadsOn(program: seq<seq<Call>>, s: State, steps: nat, t: State, k: nat)
    requires Reachable(program, s, steps) && Leads(s, t, k)
    ensures Reachable(program, t, steps + k) && k + Rank(t.threads) <= Rank(s.threads)
    decreases k
  {
    hide Step, Rank;
    if k > 0 {
      var u, i: nat :| IsStep(s, u, i) && Leads(u, t, k - 1);
      StepRank(s, i);
      assert Reachable(program, u, steps + 1);
      LeadsOn(program, u, steps + 1, t, k - 1);
    }
  }

  lemma LeadsFurther(s: State, u: State, i: nat, t: State, k: nat)
    requires IsStep(s, u, i) && Leads(u, t, k)
    ensures Leads(s, t, k + 1)
  {
    hide IsStep;
  }

  /** From any reachable state some continuation makes all calls. */
  lemma {:induction false} Finishes(program: seq<seq<Call>>, n: nat, s: State, steps: nat)
    requires Complete(program, n) && Ascending(program) && ExitsLast(program) && Reachable(program, s, steps)
    ensures exists t, k: nat :: Leads(s, t, k) && AllDone(t) && t.passed == Iota1(n)
    decreases Rank(s.threads)
  {
    hide Complete, Ascending, ExitsLast, Step, AllDone, Leads;
    if AllDone(s) {
      PassedInOrder(program, n, s, steps);
      LeadsNowhere(s);
    } else {
      Progress(program, n, s, steps);
      var i: nat :| CanStep(s, i);
      var u := Step(s, i);
      StepRank(s, i);
      assert IsStep(s, u, i);
      assert Reachable(program, u, steps + 1);
      Finishes(program, n, u, steps + 1);
      var t, k: nat :| Leads(u, t, k) && AllDone(t) && t.passed == Iota1(n);
      LeadsFurther(s, u, i, t, k);
    }
  }

  lemma LeadsNowhere(s: State)
    ensures Leads(s, s, 0)
  {
  }

  /**
   * Every run finishes, whoever takes the next step: from a reachable state there are no more steps than
   * its rank, and where no thread can take one, all calls have been made, in order.
   */
  lemma {:induction false} EveryRunFinishes(program: seq<seq<Call>>, n: nat, s: State, steps: nat, t: State, k: nat)
    requires Complete(program, n) && Ascending(program) && ExitsLast(program)
    requires Reachable(program, s, steps) && Leads(s, t, k)
    ensures k <= Rank(s.threads)
    ensures (forall i: nat :: !CanStep(t, i)) <==> AllDone(t)
    ensures AllDone(t) ==> t.passed == Iota1(n)
  {
    hide Complete, Ascending, ExitsLast, Leads, Rank;
    LeadsOn(program, s, steps, t, k);
    PassedInOrder(program, n, t, steps + k);
    if !AllDone(t) { Progress(program, n, t, steps + k); }
  }

  /**
   * Given ids 1..n, each once, the replay can make all recorded calls just when the ids go up within
   * every thread and no thread has a call after its exit.
   */
  lemma {:induction false} CompletesIffAscending(program: seq<seq<Call>>, n: nat)
    requires Complete(program, n)
    ensures (exists s, steps: nat :: Reachable(program, s, steps) && AllDone(s) && s.passed == Iota1(n))
      <==> Ascending(program) && ExitsLast(program)
  {
    hide Leads;
    if Ascending(program) && ExitsLast(program) {
      var s := Start(program);
      assert Reachable(program, s, 0);
      Finishes(program, n, s, 0);
      var t, k: nat :| Leads(s, t, k) && AllDone(t) && t.passed == Iota1(n);
      LeadsOn(program, s, 0, t, k);
    }
    if s, steps: nat :| Reachable(program, s, steps) && AllDone(s) && s.passed == Iota1(n) {
      ReachableInv(program, n, s, steps);
      forall i | 0 <= i < |program|
        ensures AscendingTo(program[i], |program[i]|)
        ensures forall j :: 0 <= j < |program[i]| - 1 ==> !program[i][j].exits
      {
        AllMade(program, n, s, i);
      }
    }
  }

  /** When all ids have been passed, every thread has made all its calls. */
  lemma AllMade(program: seq<seq<Call>>, n: nat, s: State, i: nat)
    requires Complete(program, n) && Inv(program, n, s) && AllDone(s) && |s.passed| == n && i < |program|
    ensures AscendingTo(program[i], |program[i]|)
    ensures forall j :: 0 <= j < |program[i]| - 1 ==> !program[i][j].exits
  {
    var t := s.threads[i];
    assert t in s.threads;
    assert Follows(program[i], t) && InOrder(program[i], t, n);
    var last := |program[i]| - 1;
    if last >= 0 { assert program[i][last].syncId <= n && last < Started(t); }
  }

  /** One thread whose second recorded call came before its first. */
  const BACKWARDS: seq<seq<Call>> := [[Call(2, false), Call(1, false)]]

  /** It waits for its first call for ever. */
  lemma {:induction false} BackwardsStuck(s: State, steps: nat)
    requires Reachable(BACKWARDS, s, steps)
    ensures Complete(BACKWARDS, 2)
    ensures s == Start(BACKWARDS) && !AllDone(s) && forall i: nat :: !CanStep(s, i)
    decreases steps
  {
    assert HasId(BACKWARDS, 1, 0, 1) && HasId(BACKWARDS, 2, 0, 0);
    var t := Start(BACKWARDS).threads[0];
    assert t in Start(BACKWARDS).threads && !Done(t);
    if steps > 0 {
      var r, i: nat :| Reachable(BACKWARDS, r, steps - 1) && IsStep(r, s, i);
      BackwardsStuck(r, steps - 1);
    }
  }

  /** One thread with a call recorded behind its exit. */
  const EARLY: seq<seq<Call>> := [[Call(1, true), Call(2, false)]]

  /** It goes with the exit, and the other call is never made. */
  lemma {:induction false} EarlyExitStops(s: State, steps: nat)
    requires Reachable(EARLY, s, steps)
    ensures Complete(EARLY, 2) && Ascending(EARLY)
    ensures |s.passed| <= 1 && (AllDone(s) ==> s.passed == [1])
    decreases steps
  {
    assert HasId(EARLY, 1, 0, 0) && HasId(EARLY, 2, 0, 1);
    EarlyExitStates(s, steps);
  }

  lemma {:induction false} EarlyExitStates(s: State, steps: nat)
    requires Reachable(EARLY, s, steps)
    ensures |s.threads| == 1 && s.threads[0].calls == EARLY[0] && s.threads[0] in s.threads
    ensures match s.threads[0].phase
      case Waiting => s.threads[0].at == 0 && s.passed == []
      case Gone => s.threads[0].at == 1 && s.passed == [1]
      case _ => s.threads[0].at == 0 && s.passed == [1]
    decreases steps
  {
    if steps > 0 {
      var r, i: nat :| Reachable(EARLY, r, steps - 1) && IsStep(r, s, i);
      EarlyExitStates(r, steps - 1);
      assert [] + [1] == [1];
    }
  }
}

/**
 * The mutex the rewriter emits: a `lock` and an `unlock` function over one shared 32-bit word,
 * built from compare-exchange, wait32 and notify.  Any number of threads run the emitted lists,
 * interleaved instruction by instruction; waiting and notifying are those of the WebAssembly
 * threads proposal.
 */
module Mutex {

  datatype Ins =
    | BlockI
    | LoopI
    | EndI
    | ConstI(n: int)
    | CmpxchgI
    | EqzI
    | BrI(l: nat)
    | BrIfI(l: nat)
    | Wait32I
    | NotifyI
    | StoreI
    | DropI

  function LockCode(addr: int): seq<Ins> {
    [BlockI, LoopI, ConstI(addr), ConstI(0), ConstI(1), CmpxchgI, EqzI, BrIfI(1),
     ConstI(addr), ConstI(1), ConstI(-1), Wait32I, DropI, BrI(0), EndI, EndI, EndI]
  }

  function UnlockCode(addr: int): seq<Ins> {
    [ConstI(addr), ConstI(0), StoreI, ConstI(addr), ConstI(1), NotifyI, DropI, EndI]
  }

  datatype Fn = LockFn | UnlockFn

  function Code(f: Fn, addr: int): seq<Ins> {
    if f.LockFn? then LockCode(addr) else UnlockCode(addr)
  }

  /**
   * A thread outside the mutex, running one of the functions, asleep in wait32, or holding the
   * lock.  `labels` are the positions that branches lead to, the innermost last.
   */
  datatype Thread =
    | Idle
    | Holding
    | Running(f: Fn, pc: nat, labels: seq<nat>, stack: seq<int>)
    | Asleep(labels: seq<nat>)

  /** The index of the `end` that closes what is open at `depth` when reading from `pc`. */
  function CloseOf(code: seq<Ins>, pc: nat, depth: nat): nat
    decreases |code| - pc
  {
    if pc >= |code| then pc
    else if code[pc].EndI? then (if depth == 0 then pc else CloseOf(code, pc + 1, depth - 1))
    else CloseOf(code, pc + 1, if code[pc].BlockI? || code[pc].LoopI? then depth + 1 else depth)
  }

  /** Effects of one instruction: on the thread and the word, or one that involves other threads. */
  datatype Effect =
    | Go(t: Thread, word: int)
    | GoToSleep(labels: seq<nat>)
    | Notify(pc: nat, labels: seq<nat>, stack: seq<int>)
    | Return
    | Bad

  function Jump(f: Fn, l: nat, labels: seq<nat>, stack: seq<int>, word: int): Effect {
    if l >= |labels| then Bad
    else Go(Running(f, labels[|labels| - 1 - l], labels[..|labels| - 1 - l], stack), word)
  }

  function Pop(s: seq<int>): seq<int>
    requires |s| > 0
  {
    s[..|s| - 1]
  }

  function Top(s: seq<int>): int
    requires |s| > 0
  {
    s[|s| - 1]
  }

  function Do(addr: int, f: Fn, pc: nat, labels: seq<nat>, s: seq<int>, word: int): Effect {
    var code := Code(f, addr);
    if pc >= |code| then Bad
    else
      match code[pc]
      case BlockI => Go(Running(f, pc + 1, labels + [CloseOf(code, pc + 1, 0) + 1], s), word)
      case LoopI => Go(Running(f, pc + 1, labels + [pc], s), word)
      case EndI => if labels == [] then Return else Go(Running(f, pc + 1, labels[..|labels| - 1], s), word)
      case ConstI(n) => Go(Running(f, pc + 1, labels, s + [n]), word)
      case CmpxchgI =>
        if |s| < 3 then Bad
        else Go(Running(f, pc + 1, labels, s[..|s| - 3] + [word]), if word == s[|s| - 2] then s[|s| - 1] else word)
      case EqzI => if |s| < 1 then Bad else Go(Running(f, pc + 1, labels, Pop(s) + [if Top(s) == 0 then 1 else 0]), word)
      case BrI(l) => Jump(f, l, labels, s, word)
      case BrIfI(l) =>
        if |s| < 1 then Bad
        else if Top(s) != 0 then Jump(f, l, labels, Pop(s), word)
        else Go(Running(f, pc + 1, labels, Pop(s)), word)
      case Wait32I =>
        if |s| < 3 then Bad
        else if word != s[|s| - 2] then Go(Running(f, pc + 1, labels, s[..|s| - 3] + [1]), word)
        else GoToSleep(labels)
      case NotifyI => if |s| < 2 then Bad else Notify(pc + 1, labels, s[..|s| - 2])
      case StoreI => if |s| < 2 then Bad else Go(Running(f, pc + 1, labels, s[..|s| - 2]), Top(s))
      case DropI => if |s| < 1 then Bad else Go(Running(f, pc + 1, labels, Pop(s)), word)
  }

  datatype State = State(word: int, threads: seq<Thread>)

  predicate IsAsleep(s: State, w: nat) {
    w < |s.threads| && s.threads[w].Asleep?
  }

  predicate AnyAsleep(s: State) {
    exists w :: 0 <= w < |s.threads| && s.threads[w].Asleep?
  }

  /** The position behind wait32 in `lock`, where a woken thread goes on with result 0. */
  const AFTER_WAIT: nat := 12

  function Woken(t: Thread): Thread
    requires t.Asleep?
  {
    Running(LockFn, AFTER_WAIT, t.labels, [0])
  }

  /** Thread `i` makes a step from `s` to `t`; a notify wakes one sleeper, whichever, if there is one. */
  ghost predicate Step(addr: int, s: State, t: State, i: nat) {
    i < |s.threads| &&
    match s.threads[i]
    case Idle => t == s.(threads := s.threads[i := Running(LockFn, 0, [], [])])
    case Holding => t == s.(threads := s.threads[i := Running(UnlockFn, 0, [], [])])
    case Asleep(_) => false
    case Running(f, pc, labels, stack) =>
      match Do(addr, f, pc, labels, stack, s.word)
      case Go(th, word) => t == State(word, s.threads[i := th])
      case GoToSleep(ls) => t == s.(threads := s.threads[i := Asleep(ls)])
      case Return => t == s.(threads := s.threads[i := if f.LockFn? then Holding else Idle])
      case Notify(pc', ls, st) =>
        if AnyAsleep(s) then
          exists w :: IsAsleep(s, w) && t == s.(threads := Notified(s, i, Running(f, pc', ls, st + [1]), w))
        else t == s.(threads := s.threads[i := Running(f, pc', ls, st + [0])])
      case Bad => false
  }

  function Notified(s: State, i: nat, me: Thread, w: nat): seq<Thread>
    requires i < |s.threads| && IsAsleep(s, w)
  {
    s.threads[i := me][w := Woken(s.threads[w])]
  }

  ghost predicate Reachable(addr: int, n: nat, s: State, steps: nat)
    decreases steps
  {
    if steps == 0 then s == State(0, seq(n, _ => Idle))
    else exists r, i :: Reachable(addr, n, r, steps - 1) && Step(addr, r, s, i)
  }

  // ----- the invariant -----

  /** Labels and operands a thread has at each position of the emitted functions. */
  predicate Shape(addr: int, t: Thread) {
    match t
    case Idle => true
    case Holding => true
    case Asleep(labels) => labels == [16, 1]
    case Running(LockFn, pc, labels, s) =>
      && (pc == 0 ==> labels == [] && s == [])
      && (pc == 1 ==> labels == [16] && s == [])
      && (2 <= pc <= 13 ==> labels == [16, 1])
      && (pc == 2 || pc == 8 || pc == 13 ==> s == [])
      && (pc == 3 || pc == 9 ==> s == [addr])
      && (pc == 4 ==> s == [addr, 0])
      && (pc == 5 ==> s == [addr, 0, 1])
      && (pc == 6 || pc == 7 ==> s == [0] || s == [1])
      && (pc == 10 ==> s == [addr, 1])
      && (pc == 11 ==> s == [addr, 1, -1])
      && (pc == 12 ==> |s| == 1)
      && (pc == 16 ==> labels == [] && s == [])
      && (pc <= 13 || pc == 16)
    case Running(UnlockFn, pc, labels, s) =>
      && labels == [] && pc <= 7
      && (pc == 0 || pc == 3 || pc == 7 ==> s == [])
      && (pc == 1 || pc == 4 ==> s == [addr])
      && (pc == 2 ==> s == [addr, 0])
      && (pc == 5 ==> s == [addr, 1])
      && (pc == 6 ==> |s| == 1)
  }

  /** From the successful compare-exchange to the store that frees the word. */
  predicate Owner(t: Thread) {
    match t
    case Holding => true
    case Running(LockFn, pc, _, s) => (pc == 6 && s == [0]) || (pc == 7 && s == [1]) || pc == 16
    case Running(UnlockFn, pc, _, _) => pc <= 2
    case _ => false
  }

  /** In `lock` without the lock, on the way to the next compare-exchange. */
  predicate Retrying(t: Thread) {
    t.Running? && t.f.LockFn? && !Owner(t)
  }

  /** Behind the store of `unlock`, not yet through with the notify. */
  predicate AboutToNotify(t: Thread) {
    t.Running? && t.f.UnlockFn? && 3 <= t.pc <= 5
  }

  ghost predicate Helped(s: State) {
    exists i :: 0 <= i < |s.threads| && (Retrying(s.threads[i]) || AboutToNotify(s.threads[i]))
  }

  ghost predicate HasOwner(s: State) {
    exists i :: 0 <= i < |s.threads| && Owner(s.threads[i])
  }

  ghost predicate Inv(addr: int, s: State) {
    && (forall i :: 0 <= i < |s.threads| ==> Shape(addr, s.threads[i]))
    && (forall i, j :: 0 <= i < |s.threads| && 0 <= j < |s.threads| && Owner(s.threads[i]) && Owner(s.threads[j]) ==> i == j)
    && (s.word == 0 || s.word == 1)
    && (s.word == 1 <==> HasOwner(s))
    && (s.word == 0 && AnyAsleep(s) ==> Helped(s))
  }

  lemma CloseOfBlock(addr: int)
    ensures CloseOf(LockCode(addr), 1, 0) == 15
  {
    var c := LockCode(addr);
    assert CloseOf(c, 15, 0) == 15;
    assert CloseOf(c, 14, 1) == CloseOf(c, 15, 0);
    assert CloseOf(c, 12, 1) == CloseOf(c, 14, 1);
    assert CloseOf(c, 10, 1) == CloseOf(c, 12, 1);
    assert CloseOf(c, 8, 1) == CloseOf(c, 10, 1);
    assert CloseOf(c, 6, 1) == CloseOf(c, 8, 1);
    assert CloseOf(c, 4, 1) == CloseOf(c, 6, 1);
    assert CloseOf(c, 2, 1) == CloseOf(c, 4, 1);
    assert CloseOf(c, 1, 0) == CloseOf(c, 2, 1);
  }

  /** What one instruction of `lock` may do to the thread and the word. */
  ghost predicate LockEffect(addr: int, t: Thread, word: int, e: Effect) {
    match e
    case Go(t', w') =>
      && Shape(addr, t') && t'.Running? && t'.f.LockFn?
      && (if t.Running? && t.pc == 5 && word == 0 then !Owner(t) && Owner(t') && w' == 1
          else Owner(t') == Owner(t) && w' == word)
    case GoToSleep(ls) => word == 1 && !Owner(t) && ls == [16, 1]
    case Return => Owner(t)
    case _ => false
  }

  lemma LockStart(addr: int, t: Thread, word: int)
    requires t.Running? && t.f.LockFn? && t.pc <= 4 && Shape(addr, t)
    ensures LockEffect(addr, t, word, Do(addr, t.f, t.pc, t.labels, t.stack, word))
  {
    CloseOfBlock(addr);
  }

  lemma LockTry(addr: int, t: Thread, word: int)
    requires t.Running? && t.f.LockFn? && 5 <= t.pc <= 7 && Shape(addr, t) && (word == 0 || word == 1)
    ensures LockEffect(addr, t, word, Do(addr, t.f, t.pc, t.labels, t.stack, word))
  {
    if t.pc == 5 {
      assert LockCode(addr)[5] == CmpxchgI;
    } else if t.pc == 6 {
      LockEqz(addr, t, word);
    } else {
      LockBranch(addr, t, word);
    }
  }

  lemma LockEqz(addr: int, t: Thread, word: int)
    requires t.Running? && t.f.LockFn? && t.pc == 6 && Shape(addr, t)
    ensures LockEffect(addr, t, word, Do(addr, t.f, t.pc, t.labels, t.stack, word))
  {
    assert LockCode(addr)[6] == EqzI;
    assert Pop(t.stack) == [] && (Top(t.stack) == 0 || Top(t.stack) == 1);
  }

  lemma LockBranch(addr: int, t: Thread, word: int)
    requires t.Running? && t.f.LockFn? && t.pc == 7 && Shape(addr, t)
    ensures LockEffect(addr, t, word, Do(addr, t.f, t.pc, t.labels, t.stack, word))
  {
    assert LockCode(addr)[7] == BrIfI(1);
    assert Pop(t.stack) == [] && t.labels[..0] == [];
    if t.stack == [1] {
      assert Do(addr, t.f, t.pc, t.labels, t.stack, word) == Go(Running(LockFn, 16, [], []), word);
    } else {
      assert Do(addr, t.f, t.pc, t.labels, t.stack, word) == Go(Running(LockFn, 8, t.labels, []), word);
    }
  }

  lemma LockWait(addr: int, t: Thread, word: int)
    requires t.Running? && t.f.LockFn? && 8 <= t.pc && Shape(addr, t) && (word == 0 || word == 1)
    ensures LockEffect(addr, t, word, Do(addr, t.f, t.pc, t.labels, t.stack, word))
  {
    var c := LockCode(addr);
    assert c[8] == ConstI(addr) && c[9] == ConstI(1) && c[10] == ConstI(-1);
    assert c[11] == Wait32I && c[12] == DropI && c[13] == BrI(0) && c[16] == EndI;
  }

  /** What one instruction of `unlock` may do: only the store frees the word. */
  ghost predicate UnlockEffect(addr: int, t: Thread, word: int, e: Effect)
    requires t.Running?
  {
    match e
    case Go(t', w') =>
      && Shape(addr, t') && t'.Running? && t'.f.UnlockFn?
      && (if t.pc == 2 then Owner(t) && !Owner(t') && w' == 0 && AboutToNotify(t')
          else Owner(t') == Owner(t) && w' == word && AboutToNotify(t') == AboutToNotify(t))
    case Notify(pc, ls, st) => t.pc == 5 && pc == 6 && ls == [] && st == []
    case Return => !Owner(t) && !AboutToNotify(t)
    case _ => false
  }

  lemma UnlockDo(addr: int, t: Thread, word: int)
    requires t.Running? && t.f.UnlockFn? && Shape(addr, t)
    ensures UnlockEffect(addr, t, word, Do(addr, t.f, t.pc, t.labels, t.stack, word))
  {
    assert UnlockCode(addr)[7] == EndI && UnlockCode(addr)[6] == DropI && UnlockCode(addr)[5] == NotifyI;
  }

  // ----- steps keep the invariant -----

  ghost predicate Active(t: Thread) {
    Retrying(t) || AboutToNotify(t)
  }

  /** A thread changes without taking or giving up the lock. */
  lemma InvSame(addr: int, s: State, i: nat, t: Thread)
    requires Inv(addr, s) && i < |s.threads| && Shape(addr, t) && Owner(t) == Owner(s.threads[i])
    requires Active(s.threads[i]) ==> Active(t) || s.word == 1 || !AnyAsleep(s)
    requires t.Asleep? ==> s.word == 1
    ensures Inv(addr, s.(threads := s.threads[i := t]))
  {
    hide Shape, Owner, Retrying, AboutToNotify;
    var s' := s.(threads := s.threads[i := t]);
    if HasOwner(s) {
      var k :| 0 <= k < |s.threads| && Owner(s.threads[k]);
      assert Owner(s'.threads[k]);
    }
    if HasOwner(s') {
      var k :| 0 <= k < |s'.threads| && Owner(s'.threads[k]);
      assert Owner(s.threads[k]);
    }
    if s.word == 0 && AnyAsleep(s') {
      var w :| 0 <= w < |s'.threads| && s'.threads[w].Asleep?;
      assert s.threads[w].Asleep?;
      var k :| 0 <= k < |s.threads| && Active(s.threads[k]);
      assert Active(s'.threads[k]);
    }
  }

  lemma InvAcquire(addr: int, s: State, i: nat, t: Thread)
    requires Inv(addr, s) && i < |s.threads| && Shape(addr, t) && s.word == 0
    requires Owner(t)
    ensures Inv(addr, State(1, s.threads[i := t]))
  {
    var s' := State(1, s.threads[i := t]);
    assert Owner(s'.threads[i]);
    forall k | 0 <= k < |s.threads| ensures !Owner(s.threads[k]) {
    }
  }

  lemma InvRelease(addr: int, s: State, i: nat, t: Thread)
    requires Inv(addr, s) && i < |s.threads| && Shape(addr, t)
    requires Owner(s.threads[i]) && !Owner(t) && AboutToNotify(t)
    ensures Inv(addr, State(0, s.threads[i := t]))
  {
    var s' := State(0, s.threads[i := t]);
    assert AboutToNotify(s'.threads[i]);
    forall k | 0 <= k < |s'.threads| ensures !Owner(s'.threads[k]) {
    }
  }

  lemma InvNotified(addr: int, s: State, i: nat, me: Thread, w: nat)
    requires Inv(addr, s) && i < |s.threads| && IsAsleep(s, w)
    requires s.threads[i].Running? && !Owner(s.threads[i]) && Shape(addr, me) && !Owner(me) && me.Running?
    ensures Inv(addr, s.(threads := Notified(s, i, me, w)))
  {
    var s' := s.(threads := Notified(s, i, me, w));
    var woken := Woken(s.threads[w]);
    assert Shape(addr, s.threads[w]);
    assert Shape(addr, woken) && !Owner(woken) && Retrying(woken);
    assert s'.threads[w] == woken && i != w;
    if HasOwner(s) {
      var k :| 0 <= k < |s.threads| && Owner(s.threads[k]);
      assert Owner(s'.threads[k]);
    }
    assert forall k :: 0 <= k < |s'.threads| && Owner(s'.threads[k]) ==> Owner(s.threads[k]);
  }

  lemma InvLockStep(addr: int, s: State, t: State, i: nat)
    requires Inv(addr, s) && Step(addr, s, t, i)
    requires s.threads[i].Running? && s.threads[i].f.LockFn?
    ensures Inv(addr, t)
  {
    var th := s.threads[i];
    assert Shape(addr, th);
    if th.pc <= 4 {
      LockStart(addr, th, s.word);
    } else if th.pc <= 7 {
      LockTry(addr, th, s.word);
    } else {
      LockWait(addr, th, s.word);
    }
    hide Do, Shape, Inv;
    match Do(addr, th.f, th.pc, th.labels, th.stack, s.word)
    case Go(t', w') => InvLockGo(addr, s, i, t', w');
    case GoToSleep(ls) => InvSleep(addr, s, i, ls);
    case Return => InvReturn(addr, s, i);
    case _ =>
  }

  lemma InvLockGo(addr: int, s: State, i: nat, t: Thread, w: int)
    requires Inv(addr, s) && i < |s.threads| && LockEffect(addr, s.threads[i], s.word, Go(t, w))
    requires s.threads[i].Running? && s.threads[i].f.LockFn?
    ensures Inv(addr, State(w, s.threads[i := t]))
  {
    hide Shape, Inv;
    if s.threads[i].pc == 5 && s.word == 0 {
      InvAcquire(addr, s, i, t);
    } else {
      assert s.(threads := s.threads[i := t]) == State(w, s.threads[i := t]);
      InvSame(addr, s, i, t);
    }
  }

  lemma InvSleep(addr: int, s: State, i: nat, ls: seq<nat>)
    requires Inv(addr, s) && i < |s.threads| && s.word == 1 && ls == [16, 1] && !Owner(s.threads[i])
    ensures Inv(addr, s.(threads := s.threads[i := Asleep(ls)]))
  {
    hide Inv;
    InvSame(addr, s, i, Asleep(ls));
  }

  lemma InvReturn(addr: int, s: State, i: nat)
    requires Inv(addr, s) && i < |s.threads| && Owner(s.threads[i])
    ensures Inv(addr, s.(threads := s.threads[i := Holding]))
  {
    hide Inv;
    InvSame(addr, s, i, Holding);
  }

  lemma InvUnlockStep(addr: int, s: State, t: State, i: nat)
    requires Inv(addr, s) && Step(addr, s, t, i)
    requires s.threads[i].Running? && s.threads[i].f.UnlockFn?
    ensures Inv(addr, t)
  {
    var th := s.threads[i];
    assert Shape(addr, th);
    UnlockDo(addr, th, s.word);
    hide Do, Inv;
    match Do(addr, th.f, th.pc, th.labels, th.stack, s.word)
    case Go(t', w') =>
      if th.pc == 2 {
        InvRelease(addr, s, i, t');
      } else {
        assert s.(threads := s.threads[i := t']) == State(w', s.threads[i := t']);
        InvSame(addr, s, i, t');
      }
    case Return => InvSame(addr, s, i, Idle);
    case Notify(pc, ls, st) =>
      if AnyAsleep(s) {
        var w :| IsAsleep(s, w) && t == s.(threads := Notified(s, i, Running(th.f, pc, ls, st + [1]), w));
        InvNotified(addr, s, i, Running(th.f, pc, ls, st + [1]), w);
      } else {
        InvSame(addr, s, i, Running(th.f, pc, ls, st + [0]));
      }
    case _ =>
  }

  lemma InvStep(addr: int, s: State, t: State, i: nat)
    requires Inv(addr, s) && Step(addr, s, t, i)
    ensures Inv(addr, t) && |t.threads| == |s.threads|
  {
    match s.threads[i]
    case Idle => InvSame(addr, s, i, Running(LockFn, 0, [], []));
    case Holding => InvSame(addr, s, i, Running(UnlockFn, 0, [], []));
    case Running(f, _, _, _) =>
      if f.LockFn? { InvLockStep(addr, s, t, i); } else { InvUnlockStep(addr, s, t, i); }
    case Asleep(_) =>
  }

  lemma InitInv(addr: int, n: nat)
    ensures Inv(addr, State(0, seq(n, _ => Idle)))
  {
  }

  lemma {:induction false} ReachableInv(addr: int, n: nat, s: State, steps: nat)
    requires Reachable(addr, n, s, steps)
    ensures Inv(addr, s) && |s.threads| == n
    decreases steps
  {
    hide Inv, Step;
    if steps == 0 {
      InitInv(addr, n);
    } else {
      var r, i :| Reachable(addr, n, r, steps - 1) && Step(addr, r, s, i);
      ReachableInv(addr, n, r, steps - 1);
      InvStep(addr, r, s, i);
    }
  }

  // ----- what the mutex is for -----

  /** In every state of every interleaving, at most one thread holds the lock. */
  lemma MutualExclusion(addr: int, n: nat, s: State, steps: nat, i: nat, j: nat)
    requires Reachable(addr, n, s, steps) && i < |s.threads| && j < |s.threads|
    requires s.threads[i].Holding? && s.threads[j].Holding?
    ensures i == j && s.word == 1
  {
    ReachableInv(addr, n, s, steps);
  }

  /** No wake-up is lost: with the word free and a sleeper, some thread is about to notify or to retry. */
  lemma NoLostWakeUp(addr: int, n: nat, s: State, steps: nat, w: nat)
    requires Reachable(addr, n, s, steps) && s.word == 0 && w < |s.threads| && s.threads[w].Asleep?
    ensures exists i :: 0 <= i < |s.threads| && Active(s.threads[i])
  {
    ReachableInv(addr, n, s, steps);
    var i :| 0 <= i < |s.threads| && (Retrying(s.threads[i]) || AboutToNotify(s.threads[i]));
    assert Active(s.threads[i]);
  }

  /** The emitted lists never get stuck: a thread that is not asleep can always make its next step. */
  lemma NeverStuck(addr: int, n: nat, s: State, steps: nat, i: nat)
    requires Reachable(addr, n, s, steps) && i < |s.threads| && !s.threads[i].Asleep?
    ensures exists t :: Step(addr, s, t, i)
  {
    ReachableInv(addr, n, s, steps);
    Enabled(addr, s, i);
  }

  /** While a thread sleeps, another one runs or holds the lock: there is no deadlock. */
  lemma NoDeadlock(addr: int, n: nat, s: State, steps: nat, w: nat)
    requires Reachable(addr, n, s, steps) && w < |s.threads| && s.threads[w].Asleep?
    ensures exists k :: 0 <= k < |s.threads| && (s.threads[k].Running? || s.threads[k].Holding?)
  {
    ReachableInv(addr, n, s, steps);
    if s.word == 1 {
      var k :| 0 <= k < |s.threads| && Owner(s.threads[k]);
      assert s.threads[k].Running? || s.threads[k].Holding?;
    } else {
      NoLostWakeUp(addr, n, s, steps, w);
      var k :| 0 <= k < |s.threads| && Active(s.threads[k]);
      assert s.threads[k].Running?;
    }
  }

  /** Instructions until the next successful compare-exchange, the word staying free. */
  function Distance(t: Thread): nat
    requires Retrying(t)
  {
    if t.pc <= 5 then 5 - t.pc else if t.pc <= 13 then 18 - t.pc else 0
  }

  lemma RetryComesCloser(addr: int, t: Thread)
    requires Retrying(t) && Shape(addr, t)
    ensures match Do(addr, t.f, t.pc, t.labels, t.stack, 0)
            case Go(t', w) => Shape(addr, t') &&
              (if t.pc == 5 then Owner(t') && w == 1 else Retrying(t') && Distance(t') < Distance(t) && w == 0)
            case _ => false
  {
    if t.pc <= 4 {
      LockStart(addr, t, 0);
      CloseOfBlock(addr);
    } else if t.pc <= 7 {
      LockTry(addr, t, 0);
    } else {
      LockWait(addr, t, 0);
    }
  }

  /** Thread `i` alone gets from `s` to `t` in `k` steps. */
  ghost predicate Alone(addr: int, s: State, t: State, i: nat, k: nat)
    decreases k
  {
    if k == 0 then s == t else exists r :: Step(addr, s, r, i) && Alone(addr, r, t, i, k - 1)
  }

  /** A free word is there for the taking: a retrying thread that runs gets the lock within 13 instructions. */
  lemma {:induction false} RetrySucceeds(addr: int, s: State, i: nat)
    requires Inv(addr, s) && s.word == 0 && i < |s.threads| && Retrying(s.threads[i])
    ensures exists t, k: nat :: k <= Distance(s.threads[i]) + 1 && Alone(addr, s, t, i, k)
                                && |t.threads| == |s.threads| && Owner(t.threads[i])
    decreases Distance(s.threads[i])
  {
    var th := s.threads[i];
    assert Shape(addr, th);
    RetryComesCloser(addr, th);
    var e := Do(addr, th.f, th.pc, th.labels, th.stack, 0);
    var r := State(e.word, s.threads[i := e.t]);
    assert Step(addr, s, r, i);
    InvStep(addr, s, r, i);
    hide Do, Inv, Shape, Owner, Retrying, Step;
    if th.pc == 5 {
      assert Alone(addr, r, r, i, 0);
      assert Alone(addr, s, r, i, 1);
    } else {
      RetrySucceeds(addr, r, i);
      var t, k: nat :| k <= Distance(r.threads[i]) + 1 && Alone(addr, r, t, i, k)
                       && |t.threads| == |r.threads| && Owner(t.threads[i]);
      assert Alone(addr, s, t, i, k + 1);
    }
  }

  lemma Enabled(addr: int, s: State, i: nat)
    requires Inv(addr, s) && i < |s.threads| && !s.threads[i].Asleep?
    ensures exists t :: Step(addr, s, t, i)
  {
    match s.threads[i]
    case Idle => assert Step(addr, s, s.(threads := s.threads[i := Running(LockFn, 0, [], [])]), i);
    case Holding => assert Step(addr, s, s.(threads := s.threads[i := Running(UnlockFn, 0, [], [])]), i);
    case Running(f, pc, labels, stack) => EnabledRunning(addr, s, i, f, pc, labels, stack);
    case Asleep(_) =>
  }

  lemma EnabledRunning(addr: int, s: State, i: nat, f: Fn, pc: nat, labels: seq<nat>, stack: seq<int>)
    requires Inv(addr, s) && i < |s.threads| && s.threads[i] == Running(f, pc, labels, stack)
    ensures exists t :: Step(addr, s, t, i)
  {
    var th := s.threads[i];
    assert Shape(addr, th);
    if f.UnlockFn? {
      UnlockDo(addr, th, s.word);
    } else if pc <= 4 {
      LockStart(addr, th, s.word);
    } else if pc <= 7 {
      LockTry(addr, th, s.word);
    } else {
      LockWait(addr, th, s.word);
    }
    hide Do, Shape, Inv;
    match Do(addr, f, pc, labels, stack, s.word)
    case Go(t', w') => assert Step(addr, s, State(w', s.threads[i := t']), i);
    case GoToSleep(ls) => assert Step(addr, s, s.(threads := s.threads[i := Asleep(ls)]), i);
    case Return => assert Step(addr, s, s.(threads := s.threads[i := if f.LockFn? then Holding else Idle]), i);
    case Notify(pc', ls, st) =>
      if AnyAsleep(s) {
        var w :| 0 <= w < |s.threads| && s.threads[w].Asleep?;
        assert IsAsleep(s, w);
        assert Step(addr, s, s.(threads := Notified(s, i, Running(f, pc', ls, st + [1]), w)), i);
      } else {
        assert Step(addr, s, s.(threads := s.threads[i := Running(f, pc', ls, st + [0])]), i);
      }
    case Bad =>
  }
}

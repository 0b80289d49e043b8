/** No lost wake-up: the idle protocol of CoreMain against SendMessage. */
module MachineWake {
  import opened Options
  import opened Machine
  import opened MachineShape
  import opened MachineTotals
  import opened MachineLocks
  import opened MachineCount

  /** A sender between its increment and the end of its check whether to signal. */
  predicate Pending(th: Thread) {
    th.send.SLockIdle? || th.send.SCheck? || th.send.SNotify?
  }

  ghost predicate Covered(s: State) {
    s.g.count == 0 || exists t :: 0 <= t < |s.threads| && Pending(s.threads[t])
  }

  /** The core will sleep or leave: it has passed the test made under idle_lock. */
  predicate Committed(pc: Pc) {
    pc.GoIdle? || pc.LastTest? || pc.SayBye? || pc.Bye? || pc.Enter?
  }

  /** Gone, or asleep and not signalled. */
  predicate Down(s: State, t: nat)
    requires t < |s.threads|
  {
    s.threads[t].pc.Exited? || (s.threads[t].pc.Asleep? && t in s.g.waiters)
  }

  predicate AllDown(s: State)
    requires |s.g.queues| <= |s.threads|
  {
    forall t :: 0 <= t < |s.g.queues| ==> Down(s, t)
  }

  predicate AllExited(s: State)
    requires |s.g.queues| <= |s.threads|
  {
    forall t :: 0 <= t < |s.g.queues| ==> s.threads[t].pc.Exited?
  }

  predicate Waiters(s: State) {
    forall t :: t in s.g.waiters ==> t < |s.g.queues| <= |s.threads| && s.threads[t].pc.Asleep?
  }

  /** A core at pc is the last one up. */
  predicate LastPc(g: Shared, pc: Pc) {
    Committed(pc) && g.idle + (if pc.GoIdle? then 1 else 0) == |g.queues|
  }

  predicate LastUp(s: State, t: nat)
    requires t < |s.threads|
  {
    LastPc(s.g, s.threads[t].pc)
  }

  ghost predicate Wake(s: State)
    requires |s.g.queues| <= |s.threads|
  {
    && Waiters(s)
    && (forall t :: 0 <= t < |s.threads| && LastUp(s, t) ==> Covered(s))
    && (AllDown(s) && !AllExited(s) ==> Covered(s))
  }

  lemma OneAwake(s: State, t: nat)
    requires IdleCount(s) && t < |s.threads| && Weight(Awake, s.threads[t]) == 1
    ensures s.g.idle < |s.g.queues|
  {
    TotalBound(Awake, s.threads, t);
  }

  lemma TwoAwake(s: State, t: nat, u: nat)
    requires IdleCount(s) && t < |s.threads| && u < |s.threads| && t != u
    requires Weight(Awake, s.threads[t]) == 1 && Weight(Awake, s.threads[u]) == 1
    ensures s.g.idle + 1 < |s.g.queues|
  {
    if t < u { TotalTwo(Awake, s.threads, t, u); } else { TotalTwo(Awake, s.threads, u, t); }
  }

  lemma NoneAwake(s: State)
    requires Shape(s) && IdleCount(s)
    requires forall t :: 0 <= t < |s.g.queues| ==> IdlePc(s.threads[t].pc)
    ensures s.g.idle == |s.g.queues|
  {
    forall t | 0 <= t < |s.threads| ensures Weight(Awake, s.threads[t]) == 0 {
      assert ThreadOk(s.g, t, s.threads[t]);
    }
    TotalZero(Awake, s.threads);
  }

  lemma CoveredKept(s: State, t: nat, r: Local)
    requires t < |s.threads| && Covered(s)
    requires Pending(r.th) || (r.g.count == s.g.count && (!Pending(s.threads[t]) || r.g.count == 0))
    ensures Covered(State(r.g, s.threads[t := r.th]))
  {
    var s1 := State(r.g, s.threads[t := r.th]);
    assert s1.threads[t] == r.th;
    if !Pending(r.th) && s.g.count != 0 {
      var u :| 0 <= u < |s.threads| && Pending(s.threads[u]);
      assert s1.threads[u] == s.threads[u];
    }
  }

  /** A core that is awake and not committed leaves nobody else as the last one up. */
  lemma WakeBusy(s1: State, t: nat)
    requires Shape(s1) && IdleCount(s1) && Waiters(s1) && t < |s1.g.queues|
    requires Weight(Awake, s1.threads[t]) == 1 && !s1.threads[t].pc.GoIdle?
    ensures Wake(s1)
  {
    assert !Down(s1, t);
    forall u | 0 <= u < |s1.threads| ensures !LastUp(s1, u) {
      if LastUp(s1, u) {
        assert ThreadOk(s1.g, u, s1.threads[u]);
        OneAwake(s1, t);
        TwoAwake(s1, t, u);
      }
    }
  }

  lemma WaitersStep(s: State, t: nat, a: Act, r: Local)
    requires Shape(s) && t < |s.threads| && ActEnabled(s.g, t, s.threads[t], a) && r == ActStep(s.g, t, s.threads[t], a)
    requires Waiters(s)
    ensures |r.g.queues| == |s.g.queues| && Waiters(State(r.g, s.threads[t := r.th]))
  {
    var g, th := s.g, s.threads[t];
    match a
    case Scanning => ScanFrame(g, t, th, r);
    case Collecting => CollectFrame(g, t, th, r);
    case Running(c) => RunFrame(g, t, th, c, r);
    case Napping(c) => NapFrame(g, t, th, c, r);
    case Posting(c) => PostFrame(g, t, th, c, r);
    case Outside(c) => OutFrame(g, t, th, c, r);
  }

  /** An outside thread that does not send. */
  lemma WakeOutside(s: State, t: nat, c: Choice, r: Local, s1: State)
    requires Shape(s) && t < |s.threads| && OutsidePc(s.threads[t].pc) && OutEnabled(s.g, t, s.threads[t], c)
    requires r == OutStep(s.g, t, s.threads[t], c) && s1 == State(r.g, s.threads[t := r.th])
    requires Wake(s) && Waiters(s1)
    ensures Wake(s1)
  {
    OutFrame(s.g, t, s.threads[t], c, r);
    assert r.g.waiters == s.g.waiters || r.g.waiters == {};
    if Covered(s) { CoveredKept(s, t, r); }
    forall u | 0 <= u < |s1.threads| && LastUp(s1, u) ensures Covered(s1) {
      assert LastUp(s, u);
    }
    if AllDown(s1) && !AllExited(s1) {
      forall u | 0 <= u < |s.g.queues| ensures Down(s, u) { assert Down(s1, u); }
    }
  }

  /** A holder of idle_lock keeps every other core from being the last one up. */
  lemma SoleCommitted(s: State, t: nat)
    requires Shape(s) && Locks(s) && t < |s.threads| && HoldsMutex(s.threads[t])
    ensures forall u :: 0 <= u < |s.threads| && u != t ==> !LastUp(s, u)
  {
    assert s.g.mutex == Some(t);
    forall u | 0 <= u < |s.threads| && u != t ensures !LastUp(s, u) {
      assert !HoldsMutex(s.threads[u]);
    }
  }

  /** A thread that only changes itself, and neither starts nor stops being a pending sender. */
  lemma WakeSame(s: State, t: nat, r: Local, s1: State)
    requires t < |s.threads| && |s.g.queues| <= |s.threads| && Wake(s) && s1 == State(r.g, s.threads[t := r.th]) && Waiters(s1)
    requires r.g.count == s.g.count && r.g.idle == s.g.idle && r.g.waiters == s.g.waiters && |r.g.queues| == |s.g.queues|
    requires r.th.pc == s.threads[t].pc && !Pending(s.threads[t])
    ensures Wake(s1)
  {
    if Covered(s) { CoveredKept(s, t, r); }
    forall u | 0 <= u < |s1.threads| && LastUp(s1, u) ensures Covered(s1) {
      assert LastUp(s, u);
    }
    if AllDown(s1) && !AllExited(s1) {
      forall u | 0 <= u < |s.g.queues| ensures Down(s, u) { assert Down(s1, u); }
    }
  }

  /** The end of the check: the sender has found nothing to signal, or has signalled somebody. */
  lemma WakeChecked(s: State, t: nat, r: Local, s1: State)
    requires Shape(s) && t < |s.threads| && Wake(s) && Locks(s) && IdleCount(s) && Account(s)
    requires s1 == State(r.g, s.threads[t := r.th]) && Waiters(s1) && r.th.pc == s.threads[t].pc
    requires HoldsMutex(s.threads[t]) && !IdlePc(s.threads[t].pc) && !Committed(s.threads[t].pc) && |r.g.queues| == |s.g.queues|
    requires r.g.count == s.g.count && r.g.idle == s.g.idle && r.g.waiters <= s.g.waiters
    requires s.g.count <= |s.g.queues| - s.g.idle || r.g.waiters == {} || r.g.waiters < s.g.waiters
    ensures Wake(s1)
  {
    SoleCommitted(s, t);
    forall u | 0 <= u < |s1.threads| ensures !LastUp(s1, u) {
      assert u != t ==> !LastUp(s, u);
    }
    if r.g.waiters < s.g.waiters {
      var w :| w in s.g.waiters && w !in r.g.waiters;
      assert !Down(s1, w);
    }
    if AllDown(s1) && !AllExited(s1) {
      forall u | 0 <= u < |s.g.queues| ensures IdlePc(s.threads[u].pc) { assert Down(s1, u); }
      NoneAwake(s);
      var alive :| 0 <= alive < |s1.g.queues| && !s1.threads[alive].pc.Exited?;
      assert Down(s1, alive) && alive in r.g.waiters;
    }
  }

  lemma WakePost(s: State, t: nat, c: Choice, r: Local, s1: State)
    requires Shape(s) && t < |s.threads| && PostEnabled(s.g, s.threads[t], c)
    requires r == PostStep(s.g, t, s.threads[t], c) && s1 == State(r.g, s.threads[t := r.th])
    requires Wake(s) && Waiters(s1) && Shape(s1) && IdleCount(s) && IdleCount(s1) && Locks(s) && Account(s)
    ensures Wake(s1)
  {
    var th := s.threads[t];
    PostFrame(s.g, t, th, c, r);
    assert ThreadOk(s.g, t, th);
    if t < |s.g.queues| {
      WakeBusy(s1, t);
    } else if Pending(r.th) {
      assert s1.threads[t] == r.th;
    } else if th.send.SCheck? || th.send.SNotify? {
      WakeChecked(s, t, r, s1);
    } else {
      WakeSame(s, t, r, s1);
    }
  }

  /** The idle protocol itself. */
  lemma WakeNap(s: State, t: nat, c: Choice, r: Local, s1: State)
    requires Shape(s) && t < |s.threads| && NapPc(s.threads[t].pc) && NapEnabled(s.g, s.threads[t], c)
    requires r == NapStep(s.g, t, s.threads[t], c) && s1 == State(r.g, s.threads[t := r.th])
    requires Wake(s) && Waiters(s1) && Shape(s1) && IdleCount(s) && IdleCount(s1) && Locks(s) && Account(s)
    ensures Wake(s1)
  {
    var th := s.threads[t];
    assert ThreadOk(s.g, t, th) && s1.threads[t] == r.th;
    NapFrame(s.g, t, th, c, r);
    if !IdlePc(r.th.pc) && !r.th.pc.GoIdle? {
      WakeBusy(s1, t);
    } else {
      NapFalling(s.g, t, th, c, r);
      WakeFalling(s, t, r, s1);
    }
  }

  /** What the steps from the test under idle_lock to sleep or exit have in common. */
  predicate Falling(g: Shared, th: Thread, r: Local) {
    && r.g.count == g.count && |r.g.queues| == |g.queues|
    && (if th.pc.Asleep? then g.mutex == None && r.th.pc.Woken? else HoldsMutex(th))
    && (LastPc(r.g, r.th.pc) ==> g.count == 0 || LastPc(g, th.pc))
    && (r.th.pc.Exited? || r.th.pc.Asleep? ==> Committed(th.pc) && !th.pc.GoIdle? && r.g.idle == g.idle)
    && th.send.NoSend? && r.th.send.NoSend?
  }

  lemma NapFalling(g: Shared, t: nat, th: Thread, c: Choice, r: Local)
    requires SharedOk(g) && ThreadOk(g, t, th) && NapPc(th.pc) && NapEnabled(g, th, c) && r == NapStep(g, t, th, c)
    requires IdlePc(r.th.pc) || r.th.pc.GoIdle?
    requires 0 <= g.count
    ensures Falling(g, th, r)
  {
  }

  lemma WakeFalling(s: State, t: nat, r: Local, s1: State)
    requires Shape(s) && t < |s.g.queues| && Falling(s.g, s.threads[t], r) && s1 == State(r.g, s.threads[t := r.th])
    requires Wake(s) && Waiters(s1) && Shape(s1) && IdleCount(s) && IdleCount(s1) && Locks(s)
    ensures Wake(s1)
  {
    var th := s.threads[t];
    if Covered(s) { CoveredKept(s, t, r); }
    if th.pc.Asleep? {
      forall u | 0 <= u < |s1.threads| ensures !LastUp(s1, u) { assert !HoldsMutex(s.threads[u]); }
      assert !Down(s1, t);
    } else {
      assert s.g.mutex == Some(t);
      forall u | 0 <= u < |s1.threads| && u != t ensures !LastUp(s1, u) { assert !HoldsMutex(s.threads[u]); }
      assert LastUp(s1, t) ==> s.g.count == 0 || LastUp(s, t);
      if AllDown(s1) && !AllExited(s1) {
        assert Down(s1, t);
        forall u | 0 <= u < |s1.g.queues| ensures IdlePc(s1.threads[u].pc) { assert Down(s1, u); }
        NoneAwake(s1);
        assert LastUp(s, t);
      }
    }
  }

  lemma WakeTick(s: State, dt: nat, s1: State)
    requires |s.g.queues| <= |s.threads| && Wake(s) && s1 == s.(g := s.g.(now := s.g.now + dt))
    ensures Wake(s1)
  {
    forall t | 0 <= t < |s1.threads| && LastUp(s1, t) ensures Covered(s1) { assert LastUp(s, t); }
    if AllDown(s1) && !AllExited(s1) {
      forall u | 0 <= u < |s.g.queues| ensures Down(s, u) { assert Down(s1, u); }
    }
  }

  lemma WakeCore(s: State, t: nat, a: Act, r: Local, s1: State)
    requires Shape(s) && t < |s.threads| && ActEnabled(s.g, t, s.threads[t], a)
    requires r == ActStep(s.g, t, s.threads[t], a) && s1 == State(r.g, s.threads[t := r.th])
    requires Shape(s1) && IdleCount(s1) && Waiters(s1) && (a.Scanning? || a.Collecting? || a.Running?)
    ensures Wake(s1)
  {
    var th := s.threads[t];
    assert ThreadOk(s.g, t, th);
    match a
    case Scanning => ScanFrame(s.g, t, th, r); WakeBusy(s1, t);
    case Collecting => CollectFrame(s.g, t, th, r); WakeBusy(s1, t);
    case Running(c) => RunFrame(s.g, t, th, c, r); WakeBusy(s1, t);
    case _ =>
  }

  lemma WakeStep(s: State, e: Event, s1: State)
    requires Shape(s) && Enabled(s, e) && s1 == Next(s, e)
    requires Wake(s) && Shape(s1) && IdleCount(s) && IdleCount(s1) && Locks(s) && Account(s)
    ensures Wake(s1)
  {
    match e
    case Tick(dt) => WakeTick(s, dt, s1);
    case Act(t, a) =>
      var r := Local(s1.g, s1.threads[t]);
      WaitersStep(s, t, a, r);
      match a
      case Napping(c) => WakeNap(s, t, c, r, s1);
      case Posting(c) => WakePost(s, t, c, r, s1);
      case Outside(c) => WakeOutside(s, t, c, r, s1);
      case _ => WakeCore(s, t, a, r, s1);
  }

  lemma WakeInit(s: State)
    requires Init(s)
    ensures Wake(s)
  {
  }
}

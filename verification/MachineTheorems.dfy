/** The guarantees of the scheduler, for every state of every run. */
module MachineTheorems {
  import opened Options
  import opened Machine
  import opened MachineShape
  import opened MachineTotals
  import opened MachineLocks
  import opened MachineCount
  import opened MachineWake
  import opened MachineExit
  import opened MachineOrder
  import opened MachinePromises
  import opened MachineWhen
  import opened MachineRuns

  // ---------------------------------------------------------------- locks

  /** Every lock word counts its holders and its failed attempts not yet undone; a queue, a process and
      idle_lock each have at most one holder. */
  lemma LockExclusion(s: State)
    requires Reachable(s)
    ensures forall q :: 0 <= q < |s.g.qlock| ==> s.g.qlock[q] == Total(QWord(q), s.threads)
    ensures forall p :: 0 <= p < |s.g.plock| ==> s.g.plock[p] == Total(PWord(p), s.threads)
    ensures forall t, u :: 0 <= t < u < |s.threads| ==>
              && (forall q :: 0 <= q < |s.g.qlock| ==> !(OwnsQueue(s.threads[t], q) && OwnsQueue(s.threads[u], q)))
              && (forall p :: 0 <= p < |s.g.plock| ==> !(OwnsProcess(s.threads[t], p) && OwnsProcess(s.threads[u], p)))
              && !(HoldsMutex(s.threads[t]) && HoldsMutex(s.threads[u]))
  {
    InvReachable(s);
    forall q | 0 <= q < |s.g.qlock| ensures s.g.qlock[q] == Total(QWord(q), s.threads) { assert QueueLock(s, q); }
    forall p | 0 <= p < |s.g.plock| ensures s.g.plock[p] == Total(PWord(p), s.threads) { assert ProcessLock(s, p); }
    forall t, u | 0 <= t < u < |s.threads|
      ensures (forall q :: 0 <= q < |s.g.qlock| ==> !(OwnsQueue(s.threads[t], q) && OwnsQueue(s.threads[u], q)))
      ensures (forall p :: 0 <= p < |s.g.plock| ==> !(OwnsProcess(s.threads[t], p) && OwnsProcess(s.threads[u], p)))
      ensures !(HoldsMutex(s.threads[t]) && HoldsMutex(s.threads[u]))
    {
      Exclusion(s, t, u);
    }
  }

  // ---------------------------------------------------------------- accounting

  /** In every state message_count, which wraps at 2^32, and the senders between push and increment
      account for the queued messages, those put back later, and what each core still owes. */
  lemma MessageAccounting(s: State)
    requires Reachable(s)
    ensures Account(s)
  {
    InvReachable(s);
  }

  // ---------------------------------------------------------------- rest

  predicate NobodySends(s: State) {
    forall t :: 0 <= t < |s.threads| ==> s.threads[t].send.NoSend?
  }

  /** Nothing is queued or in anybody's hands, and everything ever sent has been delivered, in order. */
  ghost predicate Delivered(s: State)
    requires |s.g.past.order| == |s.g.past.log|
  {
    && (forall q :: 0 <= q < |s.g.queues| ==> s.g.queues[q] == [])
    && (forall t :: 0 <= t < |s.threads| ==> !s.threads[t].pc.Hold? && !s.threads[t].pc.Run?)
    && s.g.past.done == s.g.past.sent
    && s.g.past.log == s.g.past.order
  }

  lemma RestDelivers(s: State)
    requires Inv(s) && s.g.idle == |s.g.queues| && NobodySends(s) && s.g.count == 0 && Load(s.g.queues) < WORD
    ensures Delivered(s)
  {
    RestingCount(s);
    forall q | 0 <= q < |s.g.queues| ensures s.g.queues[q] == [] { LoadBound(s.g.queues, q); }
    forall m: Msg ensures s.g.past.done[m] == s.g.past.sent[m] {
      assert Kept(s, m);
      QueuedZero(s.g.queues, m);
      TotalZero(HandOf(m), s.threads);
    }
    forall p | 0 <= p < |s.g.plock| ensures s.g.past.log[p] == s.g.past.order[p] {
      assert OrderFor(s, p) && NoLine(s.g, p);
      assert s.g.queues[p % |s.g.queues|] == [];
    }
  }

  // ---------------------------------------------------------------- wake-ups

  /** When every core still there sleeps unsignalled and a message is counted, a sender is about to check. */
  lemma NoLostWakeup(s: State)
    requires Reachable(s) && |s.g.queues| <= |s.threads| && AllDown(s) && !AllExited(s) && s.g.count != 0
    ensures exists t :: 0 <= t < |s.threads| && Pending(s.threads[t])
  {
    InvReachable(s);
  }

  /** So when nobody sends either, nothing is left to do. */
  lemma AsleepMeansDelivered(s: State)
    requires Reachable(s) && Shape(s) && AllDown(s) && !AllExited(s) && NobodySends(s) && Load(s.g.queues) < WORD
    ensures Delivered(s)
  {
    InvReachable(s);
    forall t | 0 <= t < |s.g.queues| ensures IdlePc(s.threads[t].pc) { assert Down(s, t); }
    NoneAwake(s);
    if s.g.count != 0 { NoLostWakeup(s); }
    RestDelivers(s);
  }

  // ---------------------------------------------------------------- shutdown

  /** A core returns from CoreMain (eople_vm.cpp:280-284) only when, unless an outside thread is still
      sending, message_count is 0, every core is idle or gone, and everything sent has been delivered. */
  lemma ShutdownDrains(s: State, t: nat)
    requires Reachable(s) && Shape(s) && t < |s.threads| && s.threads[t].pc.Bye?
    requires forall u :: |s.g.queues| <= u < |s.threads| ==> s.threads[u].send.NoSend?
    requires Load(s.g.queues) < WORD
    ensures s.g.exit && s.g.count == 0 && Delivered(s)
    ensures forall u :: 0 <= u < |s.g.queues| ==> IdlePc(s.threads[u].pc)
  {
    InvReachable(s);
    LastLeaves(s, t);
    RestDelivers(s);
  }

  lemma LastLeaves(s: State, t: nat)
    requires Shape(s) && IdleCount(s) && Wake(s) && Farewell(s) && t < |s.threads| && s.threads[t].pc.Bye?
    requires forall u :: |s.g.queues| <= u < |s.threads| ==> s.threads[u].send.NoSend?
    ensures s.g.exit && s.g.count == 0 && s.g.idle == |s.g.queues| && NobodySends(s)
    ensures forall u :: 0 <= u < |s.g.queues| ==> IdlePc(s.threads[u].pc)
  {
    assert FarewellThread(s.g, s.threads[t]) && LastUp(s, t);
    forall u | 0 <= u < |s.threads|
      ensures s.threads[u].send.NoSend? && (u < |s.g.queues| ==> IdlePc(s.threads[u].pc))
    {
      assert ThreadOk(s.g, u, s.threads[u]);
      TotalBound(Awake, s.threads, u);
    }
  }

  /** Once Shutdown has signalled, no core is ever left asleep for good: either all have returned, or
      one is awake or has been signalled.  It takes two cores: see eople_vm.cpp:310. */
  lemma NobodyStranded(s: State)
    requires Reachable(s) && |s.g.queues| <= |s.threads| && s.g.past.told && !AllExited(s)
    ensures !AllDown(s)
  {
    InvReachable(s);
  }

  // ---------------------------------------------------------------- order

  /** For every process, the messages delivered to it, then those in the batch of the core that runs it,
      then those queued for it are exactly the messages pushed for it, in push order. */
  lemma PerProcessOrder(s: State, p: nat)
    requires Reachable(s) && Shape(s) && p < |s.g.plock|
    ensures forall t :: 0 <= t < |s.threads| && InBatch(s.threads[t], p) ==>
              s.g.past.order[p] == s.g.past.log[p] + Sel(Rest(s.threads[t], p), p) + Sel(s.g.queues[p % |s.g.queues|], p)
    ensures (forall t :: 0 <= t < |s.threads| ==> !InBatch(s.threads[t], p)) ==>
              s.g.past.order[p] == s.g.past.log[p] + Sel(s.g.queues[p % |s.g.queues|], p)
    ensures s.g.past.log[p] <= s.g.past.order[p]
  {
    InvReachable(s);
    assert OrderFor(s, p);
    forall t | 0 <= t < |s.threads| && InBatch(s.threads[t], p)
      ensures s.g.past.order[p] == s.g.past.log[p] + Sel(Rest(s.threads[t], p), p) + Sel(s.g.queues[p % |s.g.queues|], p)
    {
      assert InLine(s.g, s.threads[t], p);
    }
    if t :| 0 <= t < |s.threads| && InBatch(s.threads[t], p) {
      assert InLine(s.g, s.threads[t], p);
    } else {
      assert NoLine(s.g, p);
    }
  }

  // ---------------------------------------------------------------- timers and promises

  /** A timer is ready only from its due time on; its message is in one place, if queued then in its own
      process's queue, and is delivered at most once and not before the timer is ready. */
  lemma TimerLife(s: State, x: nat)
    requires Reachable(s) && Shape(s) && x < |s.g.promises| && s.g.promises[x].timer
    ensures s.g.promises[x].ready ==> s.g.promises[x].msg.time <= s.g.now
    ensures var m := s.g.promises[x].msg; s.g.past.done[m] + Queued(s.g.queues, m) + Total(HandOf(m), s.threads) == 1
    ensures forall q :: 0 <= q < |s.g.queues| && s.g.promises[x].msg in s.g.queues[q] ==>
              q == s.g.promises[x].owner % |s.g.queues|
    ensures s.g.promises[x].msg in s.g.past.done ==> s.g.promises[x].ready
  {
    InvReachable(s);
    var m := s.g.promises[x].msg;
    assert PromiseOk(s.g, x) && Kept(s, m);
    forall q | 0 <= q < |s.g.queues| && m in s.g.queues[q] ensures q == s.g.promises[x].owner % |s.g.queues| {
      assert QueueOk(s.g, q);
    }
  }

  /** A call that carries a promise is delivered at most once, and the promise is ready exactly when that
      delivery has happened and the function has ended. */
  lemma PromiseLife(s: State, x: nat)
    requires Reachable(s) && x < |s.g.promises| && !s.g.promises[x].timer
    ensures s.g.past.sent[s.g.promises[x].msg] == 1
    ensures s.g.promises[x].ready <==>
              s.g.past.done[s.g.promises[x].msg] == 1 && forall t :: 0 <= t < |s.threads| ==> !InBody(s.threads[t], x)
  {
    InvReachable(s);
    assert PromiseOk(s.g, x) && Ledger(s, x) && Kept(s, s.g.promises[x].msg);
    LedgerReads(s, x);
  }

  lemma LedgerReads(s: State, x: nat)
    requires x < |s.g.promises| && !s.g.promises[x].timer && Ledger(s, x) && Kept(s, s.g.promises[x].msg)
    requires s.g.past.sent[s.g.promises[x].msg] == 1
    ensures s.g.promises[x].ready <==>
              s.g.past.done[s.g.promises[x].msg] == 1 && forall t :: 0 <= t < |s.threads| ==> !InBody(s.threads[t], x)
  {
    forall t | 0 <= t < |s.threads| && InBody(s.threads[t], x) ensures Total(BodyOf(x), s.threads) > 0 {
      TotalBound(BodyOf(x), s.threads, t);
    }
    if forall t :: 0 <= t < |s.threads| ==> !InBody(s.threads[t], x) { TotalZero(BodyOf(x), s.threads); }
  }

  /** Readiness never reverts, and no promise changes its owner or kind. */
  lemma {:induction false} ReadyStays(s: State, es: seq<Event>, s1: State, x: nat)
    requires Shape(s) && Replay(s, es) == Some(s1) && x < |s.g.promises|
    ensures x < |s1.g.promises| && (s.g.promises[x].ready ==> s1.g.promises[x].ready)
    ensures s1.g.promises[x].owner == s.g.promises[x].owner && s1.g.promises[x].timer == s.g.promises[x].timer
  {
    if es != [] {
      LastEvent(s, es);
      var before := Replay(s, es[..|es| - 1]).value;
      ReadyStays(s, es[..|es| - 1], before, x);
      NextShape(before, es[|es| - 1], s1);
    }
  }

  // ---------------------------------------------------------------- when blocks

  /** A block of p that waits for a promise it could act on. */
  predicate Waiting(g: Shared, p: nat, i: nat)
    requires p < |g.whens| && i < |g.whens[p]|
  {
    var w := g.whens[p][i];
    && w.OnReady? && w.x < |g.promises| && p !in g.past.repl
    && g.promises[w.x].ready && !g.promises[w.x].chained && g.promises[w.x].owner == p
  }

  /** While nobody runs p, a block that waits for a ready promise and was not registered late has its
      notification still on the way: sent, and not delivered. */
  lemma NoMissedWhen(s: State, p: nat, i: nat)
    requires Reachable(s) && p < |s.g.whens| && i < |s.g.whens[p]| && Waiting(s.g, p, i) && !s.g.whens[p][i].late
    requires forall t :: 0 <= t < |s.threads| ==> !OwnsProcess(s.threads[t], p)
    ensures exists m :: Notice(m, s.g.whens[p][i].x) && s.g.past.done[m] == 0 && Queued(s.g.queues, m) + Total(HandOf(m), s.threads) > 0
  {
    InvReachable(s);
    var x := s.g.whens[p][i].x;
    assert Served(s, p, i) && Obliged(s.g, p, i);
    assert x !in s.g.past.heard by {
      forall t | 0 <= t < |s.threads| ensures !Reach(s.threads[t], p, i) { assert !OwnsProcess(s.threads[t], p); }
    }
    assert PromiseOk(s.g, x);
    var m :| m in s.g.past.sent && Notice(m, x);
    assert Kept(s, m);
  }

  /** What "late" means: the block was registered by the body of a whenever, after the notice of its promise had been
      delivered. */
  lemma LateMeans(g: Shared, t: nat, th: Thread, c: Choice, r: Local)
    requires SharedOk(g) && ThreadOk(g, t, th) && th.pc.Run? && RunEnabled(g, t, th, c) && r == RunStep(g, t, th, c) && c.Watch?
    ensures var p := th.pc.p;
      r.g.whens == g.whens[p := g.whens[p] + [OnReady(c.x, th.pc.phase.EverBody? && c.x in g.past.heard)]] && r.th == th
  {
  }

  lemma ReachableLates(s: State)
    requires Reachable(s)
    ensures Lates(s.g) && HistoryOk(s.g)
  {
    InvReachable(s);
  }

  /** At rest a block that waits for a ready promise is exactly a block a whenever body registered late
      (on a plain promise of its own process): only those are missed. */
  lemma MissedIffLate(s: State, p: nat, i: nat)
    requires Reachable(s) && |s.g.past.order| == |s.g.past.log| && Delivered(s) && NobodySends(s)
    requires p < |s.g.whens| && i < |s.g.whens[p]| && p !in s.g.past.repl
    requires forall t :: 0 <= t < |s.threads| ==> !OwnsProcess(s.threads[t], p)
    requires s.g.whens[p][i].OnReady? && s.g.whens[p][i].x < |s.g.promises|
    requires s.g.promises[s.g.whens[p][i].x].owner == p && !s.g.promises[s.g.whens[p][i].x].chained
    ensures s.g.promises[s.g.whens[p][i].x].ready <==> s.g.whens[p][i].late
  {
    ReachableLates(s);
    assert LateOk(s.g, s.g.whens[p][i]);
    if Waiting(s.g, p, i) && !s.g.whens[p][i].late {
      NoMissedWhen(s, p, i);
      var m :| Notice(m, s.g.whens[p][i].x) && s.g.past.done[m] == 0 && Queued(s.g.queues, m) + Total(HandOf(m), s.threads) > 0;
      QueuedZero(s.g.queues, m);
      TotalZero(HandOf(m), s.threads);
    }
  }
}

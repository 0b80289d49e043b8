/** Every step keeps the machine well formed. */
module MachineShape {
  import opened Machine

  /** g1 may know more promises than g0, but none has changed its identity and none has been un-readied. */
  predicate Extends(g0: Shared, g1: Shared) {
    && |g0.plock| == |g1.plock|
    && |g0.queues| == |g1.queues|
    && |g0.promises| <= |g1.promises|
    && forall x :: 0 <= x < |g0.promises| ==>
         && g1.promises[x].owner == g0.promises[x].owner
         && g1.promises[x].timer == g0.promises[x].timer
         && g1.promises[x].msg == g0.promises[x].msg
         && (g0.promises[x].ready ==> g1.promises[x].ready)
  }

  lemma OkExtends(g0: Shared, g1: Shared, t: nat, th: Thread)
    requires Extends(g0, g1) && ThreadOk(g0, t, th)
    ensures ThreadOk(g1, t, th)
  {
  }

  lemma QueuesExtend(g0: Shared, g1: Shared, q: nat)
    requires Extends(g0, g1) && q < |g0.queues| && QueueOk(g0, q) && g1.queues[q] == g0.queues[q]
    ensures QueueOk(g1, q)
  {
  }

  /** A step that leaves the queues and the sizes of the tables alone. */
  lemma SharedExtends(g0: Shared, g1: Shared)
    requires SharedOk(g0) && Extends(g0, g1) && g1.queues == g0.queues && |g1.qlock| == |g0.qlock|
    requires |g1.whens| == |g1.whenevers| == |g1.past.order| == |g1.past.log| == |g1.plock|
    requires forall x :: |g0.promises| <= x < |g1.promises| ==> g1.promises[x].owner < |g1.plock|
    ensures SharedOk(g1)
  {
    forall q | 0 <= q < |g0.queues| ensures QueueOk(g1, q) { QueuesExtend(g0, g1, q); }
  }

  /** A step that changes one queue, to one made of well-formed messages. */
  lemma SharedRequeue(g0: Shared, g1: Shared, q: nat)
    requires SharedOk(g0) && Extends(g0, g1) && q < |g0.queues|
    requires g1.queues == g0.queues[q := g1.queues[q]] && QueueOk(g1, q)
    requires |g1.qlock| == |g0.qlock| && |g1.promises| == |g0.promises|
    requires |g1.whens| == |g1.whenevers| == |g1.past.order| == |g1.past.log| == |g1.plock|
    ensures SharedOk(g1)
  {
    forall k | 0 <= k < |g0.queues| ensures QueueOk(g1, k) {
      if k != q { QueuesExtend(g0, g1, k); }
    }
  }

  lemma ScanShared(g: Shared, t: nat, th: Thread, r: Local)
    requires SharedOk(g) && ThreadOk(g, t, th) && ScanPc(th.pc) && r == ScanStep(g, t, th)
    ensures SharedOk(r.g) && Extends(g, r.g)
  {
    SharedExtends(g, r.g);
  }

  lemma ScanThread(g: Shared, t: nat, th: Thread, r: Local)
    requires SharedOk(g) && ThreadOk(g, t, th) && ScanPc(th.pc) && r == ScanStep(g, t, th)
    ensures ThreadOk(r.g, t, r.th)
  {
    if th.pc.QLook? { assert QueueOk(g, th.pc.q); }
  }

  lemma CollectShared(g: Shared, t: nat, th: Thread, r: Local)
    requires SharedOk(g) && ThreadOk(g, t, th) && th.pc.Hold? && r == CollectStep(g, t, th)
    ensures SharedOk(r.g) && Extends(g, r.g)
  {
    var q := th.pc.q;
    assert QueueOk(g, q);
    assert Extends(g, r.g);
    if r.g.queues == g.queues {
      SharedExtends(g, r.g);
    } else {
      SharedRequeue(g, r.g, q);
    }
  }

  lemma BatchAppend(g: Shared, p: nat, ms: seq<Msg>, m: Msg)
    requires BatchOk(g, p, ms) && MsgOk(g, m) && m.target == p
    ensures BatchOk(g, p, ms + [m])
  {
  }

  lemma CollectThread(g: Shared, t: nat, th: Thread, r: Local)
    requires SharedOk(g) && ThreadOk(g, t, th) && th.pc.Hold? && r == CollectStep(g, t, th)
    requires Extends(g, r.g)
    ensures ThreadOk(r.g, t, r.th)
  {
    var Hold(j, q, p, time, taken, future, stage) := th.pc;
    OkExtends(g, r.g, t, th);
    if stage.Draining? && g.queues[q] != [] && g.queues[q][0].target == p && |taken| < BATCH {
      assert QueueOk(g, q);
      var m := g.queues[q][0];
      assert MsgOk(g, m) && MsgOk(r.g, m);
      BatchAppend(r.g, p, taken, m);
      BatchAppend(r.g, p, future, m);
    }
  }

  lemma UserShape(g: Shared, t: nat, th: Thread, p: nat, c: Choice, ever: bool, r: Local)
    requires SharedOk(g) && ThreadOk(g, t, th) && p < |g.whens| && UserChoice(g, c, p)
    requires th.pc.Run? || th.pc.Out? || th.pc.XHold?
    requires r == UserStep(g, th, p, c, ever)
    ensures SharedOk(r.g) && ThreadOk(r.g, t, r.th) && Extends(g, r.g)
  {
    assert Extends(g, r.g);
    OkExtends(g, r.g, t, th);
    SharedExtends(g, r.g);
  }

  lemma FinishShape(g: Shared, t: nat, th: Thread, c: Choice, r: Local)
    requires SharedOk(g) && ThreadOk(g, t, th) && th.pc.Run? && RunEnabled(g, t, th, c) && th.pc.phase.Body? && c.Finish?
    requires r == RunStep(g, t, th, c)
    ensures SharedOk(r.g) && ThreadOk(r.g, t, r.th) && Extends(g, r.g)
  {
    assert MsgOk(g, th.pc.taken[th.pc.f - 1]);
    assert Extends(g, r.g);
    OkExtends(g, r.g, t, th);
    SharedExtends(g, r.g);
  }

  /** The steps of delivery that neither run user code nor end a function body. */
  predicate PassChoice(g: Shared, th: Thread, c: Choice) {
    th.pc.Run? && !UserChoice(g, c, th.pc.p) && !(th.pc.phase.Body? && c.Finish?)
  }

  lemma PassShared(g: Shared, t: nat, th: Thread, c: Choice, r: Local)
    requires SharedOk(g) && ThreadOk(g, t, th) && PassChoice(g, th, c) && RunEnabled(g, t, th, c) && r == RunStep(g, t, th, c)
    ensures SharedOk(r.g) && Extends(g, r.g)
  {
    SharedExtends(g, r.g);
  }

  lemma PassThread(g: Shared, t: nat, th: Thread, c: Choice, r: Local)
    requires SharedOk(g) && ThreadOk(g, t, th) && PassChoice(g, th, c) && RunEnabled(g, t, th, c) && r == RunStep(g, t, th, c)
    ensures ThreadOk(r.g, t, r.th)
  {
    assert r.g.promises == g.promises && |r.g.plock| == |g.plock| && r.g.queues == g.queues && r.th.send == th.send;
    match th.pc.phase
    case Start => if th.pc.f < |th.pc.taken| { assert MsgOk(g, th.pc.taken[th.pc.f]); }
    case _ =>
  }

  lemma RunShape(g: Shared, t: nat, th: Thread, c: Choice, r: Local)
    requires SharedOk(g) && ThreadOk(g, t, th) && th.pc.Run? && RunEnabled(g, t, th, c) && r == RunStep(g, t, th, c)
    ensures SharedOk(r.g) && ThreadOk(r.g, t, r.th) && Extends(g, r.g)
  {
    if UserChoice(g, c, th.pc.p) {
      UserShape(g, t, th, th.pc.p, c, th.pc.phase.EverBody?, r);
    } else if th.pc.phase.Body? {
      FinishShape(g, t, th, c, r);
    } else {
      PassShared(g, t, th, c, r);
      PassThread(g, t, th, c, r);
    }
  }

  lemma NapShared(g: Shared, t: nat, th: Thread, c: Choice, r: Local)
    requires SharedOk(g) && ThreadOk(g, t, th) && NapPc(th.pc) && NapEnabled(g, th, c) && r == NapStep(g, t, th, c)
    ensures SharedOk(r.g) && Extends(g, r.g)
  {
    SharedExtends(g, r.g);
  }

  lemma NapThread(g: Shared, t: nat, th: Thread, c: Choice, r: Local)
    requires SharedOk(g) && ThreadOk(g, t, th) && NapPc(th.pc) && NapEnabled(g, th, c) && r == NapStep(g, t, th, c)
    ensures ThreadOk(r.g, t, r.th)
  {
  }

  lemma PostShared(g: Shared, t: nat, th: Thread, c: Choice, r: Local)
    requires SharedOk(g) && ThreadOk(g, t, th) && PostEnabled(g, th, c) && r == PostStep(g, t, th, c)
    ensures SharedOk(r.g) && Extends(g, r.g)
  {
    if th.send.SPush? {
      var q := th.send.q;
      assert QueueOk(g, q);
      SharedRequeue(g, r.g, q);
    } else {
      SharedExtends(g, r.g);
    }
  }

  lemma PostThread(g: Shared, t: nat, th: Thread, c: Choice, r: Local)
    requires SharedOk(g) && ThreadOk(g, t, th) && PostEnabled(g, th, c) && r == PostStep(g, t, th, c)
    ensures ThreadOk(r.g, t, r.th)
  {
    PostShared(g, t, th, c, r);
    OkExtends(g, r.g, t, th);
    assert r.th.pc == th.pc;
  }

  lemma OutShape(g: Shared, t: nat, th: Thread, c: Choice, r: Local)
    requires SharedOk(g) && ThreadOk(g, t, th) && OutsidePc(th.pc) && OutEnabled(g, t, th, c) && r == OutStep(g, t, th, c)
    ensures SharedOk(r.g) && ThreadOk(r.g, t, r.th) && Extends(g, r.g)
  {
    if c.Ask? || c.SetTimer? || c.Watch? || c.WatchOther? || c.WatchEver? {
      UserShape(g, t, th, if th.pc.Out? then c.owner else th.pc.p, c, false, r);
    } else {
      SharedExtends(g, r.g);
    }
  }

  lemma ActShape(g: Shared, t: nat, th: Thread, a: Act, r: Local)
    requires SharedOk(g) && ThreadOk(g, t, th) && ActEnabled(g, t, th, a) && r == ActStep(g, t, th, a)
    ensures SharedOk(r.g) && ThreadOk(r.g, t, r.th) && Extends(g, r.g)
  {
    match a
    case Scanning => ScanShared(g, t, th, r); ScanThread(g, t, th, r);
    case Collecting => CollectShared(g, t, th, r); CollectThread(g, t, th, r);
    case Running(c) => RunShape(g, t, th, c, r);
    case Napping(c) => NapShared(g, t, th, c, r); NapThread(g, t, th, c, r);
    case Posting(c) => PostShared(g, t, th, c, r); PostThread(g, t, th, c, r);
    case Outside(c) => OutShape(g, t, th, c, r);
  }

  lemma NextShape(s: State, e: Event, s1: State)
    requires Shape(s) && Enabled(s, e) && s1 == Next(s, e)
    ensures Shape(s1) && Extends(s.g, s1.g) && |s1.threads| == |s.threads|
  {
    if e.Act? {
      ActShape(s.g, e.t, s.threads[e.t], e.a, Local(s1.g, s1.threads[e.t]));
    } else {
      SharedExtends(s.g, s1.g);
    }
    forall t | 0 <= t < |s1.threads| ensures ThreadOk(s1.g, t, s1.threads[t]) {
      if e.Tick? || t != e.t { OkExtends(s.g, s1.g, t, s.threads[t]); }
    }
  }

  // ---------------------------------------------------------------- what each kind of step leaves alone

  lemma ScanFrame(g: Shared, t: nat, th: Thread, r: Local)
    requires SharedOk(g) && ThreadOk(g, t, th) && ScanPc(th.pc) && r == ScanStep(g, t, th)
    ensures r.g == g.(qlock := r.g.qlock, plock := r.g.plock) && r.th.send == th.send
    ensures ScanPc(r.th.pc) || r.th.pc.Hold? || r.th.pc.Nap?
  {
  }

  lemma CollectFrame(g: Shared, t: nat, th: Thread, r: Local)
    requires SharedOk(g) && ThreadOk(g, t, th) && th.pc.Hold? && r == CollectStep(g, t, th)
    ensures r.g == g.(queues := r.g.queues, qlock := r.g.qlock, count := r.g.count, promises := r.g.promises)
    ensures r.th.send == th.send && (r.th.pc.Hold? || r.th.pc.Run?) && r.th.pc.p == th.pc.p
    ensures |r.g.queues| == |g.queues| && |r.g.promises| == |g.promises|
  {
    assert QueueOk(g, th.pc.q);
    assert g.queues[th.pc.q] != [] ==> MsgOk(g, g.queues[th.pc.q][0]);
  }

  lemma RunFrame(g: Shared, t: nat, th: Thread, c: Choice, r: Local)
    requires SharedOk(g) && ThreadOk(g, t, th) && th.pc.Run? && RunEnabled(g, t, th, c) && r == RunStep(g, t, th, c)
    ensures r.g == g.(plock := r.g.plock, promises := r.g.promises, whens := r.g.whens,
                      whenevers := r.g.whenevers, past := r.g.past)
    ensures r.g.past.order == g.past.order && r.g.past.repl == g.past.repl && r.g.past.told == g.past.told
    ensures th.send.NoSend? && (r.th.send.NoSend? || r.th.send.STry?)
    ensures r.th.pc.Settle? || (r.th.pc.Run? && r.th.pc.p == th.pc.p && r.th.pc.taken == th.pc.taken)
  {
  }

  lemma NapFrame(g: Shared, t: nat, th: Thread, c: Choice, r: Local)
    requires SharedOk(g) && ThreadOk(g, t, th) && NapPc(th.pc) && NapEnabled(g, th, c) && r == NapStep(g, t, th, c)
    ensures r.g == g.(count := r.g.count, idle := r.g.idle, mutex := r.g.mutex, waiters := r.g.waiters)
    ensures r.th.send == th.send == NoSend
    ensures NapPc(r.th.pc) || r.th.pc.Top? || r.th.pc.Scan? || r.th.pc.Exited?
  {
  }

  lemma PostFrame(g: Shared, t: nat, th: Thread, c: Choice, r: Local)
    requires SharedOk(g) && ThreadOk(g, t, th) && PostEnabled(g, th, c) && r == PostStep(g, t, th, c)
    ensures r.g == g.(queues := r.g.queues, qlock := r.g.qlock, count := r.g.count, mutex := r.g.mutex,
                      waiters := r.g.waiters, past := g.past.(order := r.g.past.order))
    ensures r.th.pc == th.pc && |r.g.queues| == |g.queues|
    ensures !th.send.SPush? ==> r.g.queues == g.queues && r.g.past == g.past
    ensures !th.send.SCount? ==> r.g.count == g.count
  {
  }

  lemma OutFrame(g: Shared, t: nat, th: Thread, c: Choice, r: Local)
    requires SharedOk(g) && ThreadOk(g, t, th) && OutsidePc(th.pc) && OutEnabled(g, t, th, c) && r == OutStep(g, t, th, c)
    ensures r.g == g.(plock := r.g.plock, exit := r.g.exit, waiters := r.g.waiters, promises := r.g.promises,
                      whens := r.g.whens, whenevers := r.g.whenevers, past := r.g.past)
    ensures r.g.past == g.past.(sent := r.g.past.sent, repl := r.g.past.repl, told := r.g.past.told)
    ensures th.send.NoSend? && (r.th.send.NoSend? || r.th.send.STry?) && OutsidePc(r.th.pc)
  {
  }
}

/** Routing, due times and delivery order. */
module MachineOrder {
  import opened Machine
  import opened MachineShape
  import opened MachineTotals
  import opened MachineLocks

  // ---------------------------------------------------------------- due times

  predicate Due(m: Msg, time: int) {
    m.Timer? || m.time <= time
  }

  predicate AllDue(ms: seq<Msg>, time: int) {
    forall i :: 0 <= i < |ms| ==> Due(ms[i], time)
  }

  /** Only timers are ever in the future, so only timers are deferred. */
  predicate ClockThread(g: Shared, th: Thread) {
    && (th.pc.PTry? && th.pc.q < |g.queues| ==> th.pc.time <= g.now && AllDue(g.queues[th.pc.q], th.pc.time))
    && (th.pc.Hold? && th.pc.q < |g.queues| ==>
          && th.pc.time <= g.now
          && (th.pc.stage.Draining? ==> AllDue(g.queues[th.pc.q], th.pc.time))
          && (forall i :: 0 <= i < |th.pc.future| ==> th.pc.future[i].Timer?)
          && (forall i :: 0 <= i < |th.pc.taken| ==> th.pc.taken[i].time <= g.now))
    && (th.send.STry? || th.send.SFail? || th.send.SPush? ==> Due(th.send.m, g.now))
  }

  predicate ClockShared(g: Shared) {
    && (forall q :: 0 <= q < |g.queues| ==> AllDue(g.queues[q], g.now))
    && (forall x :: 0 <= x < |g.promises| && g.promises[x].timer && g.promises[x].ready ==> g.promises[x].msg.time <= g.now)
  }

  predicate Clock(s: State) {
    && ClockShared(s.g)
    && (forall t :: 0 <= t < |s.threads| ==> ClockThread(s.g, s.threads[t]))
  }

  /** A step touches the contents of a queue only while it holds that queue. */
  lemma QueueOwner(g: Shared, t: nat, th: Thread, a: Act, r: Local, q: nat)
    requires SharedOk(g) && ThreadOk(g, t, th) && ActEnabled(g, t, th, a) && r == ActStep(g, t, th, a)
    requires q < |g.queues| && !OwnsQueue(th, q)
    ensures |r.g.queues| == |g.queues| && r.g.queues[q] == g.queues[q] && r.g.now == g.now
  {
    match a
    case Scanning => ScanFrame(g, t, th, r);
    case Collecting => CollectFrame(g, t, th, r);
    case Running(c) => RunFrame(g, t, th, c, r);
    case Napping(c) => NapFrame(g, t, th, c, r);
    case Posting(c) => PostFrame(g, t, th, c, r);
    case Outside(c) => OutFrame(g, t, th, c, r);
  }

  lemma ClockScan(g: Shared, t: nat, th: Thread, r: Local)
    requires SharedOk(g) && ThreadOk(g, t, th) && ScanPc(th.pc) && r == ScanStep(g, t, th)
    requires ClockShared(g) && ClockThread(g, th)
    ensures ClockShared(r.g) && ClockThread(r.g, r.th)
  {
  }

  lemma ClockCollect(g: Shared, t: nat, th: Thread, r: Local)
    requires SharedOk(g) && ThreadOk(g, t, th) && th.pc.Hold? && r == CollectStep(g, t, th)
    requires ClockShared(g) && ClockThread(g, th)
    ensures ClockShared(r.g) && ClockThread(r.g, r.th)
  {
    var Hold(_, q, p, time, taken, future, stage) := th.pc;
    assert QueueOk(g, q);
    if stage.Draining? && g.queues[q] != [] {
      assert Due(g.queues[q][0], time) && MsgOk(g, g.queues[q][0]);
    }
  }

  lemma ClockRun(g: Shared, t: nat, th: Thread, c: Choice, r: Local)
    requires SharedOk(g) && ThreadOk(g, t, th) && th.pc.Run? && RunEnabled(g, t, th, c) && r == RunStep(g, t, th, c)
    requires ClockShared(g) && ClockThread(g, th)
    ensures ClockShared(r.g) && ClockThread(r.g, r.th)
  {
    RunFrame(g, t, th, c, r);
    if th.pc.phase.Body? { assert MsgOk(g, th.pc.taken[th.pc.f - 1]); }
  }

  lemma ClockPost(g: Shared, t: nat, th: Thread, c: Choice, r: Local)
    requires SharedOk(g) && ThreadOk(g, t, th) && PostEnabled(g, th, c) && r == PostStep(g, t, th, c)
    requires ClockShared(g) && ClockThread(g, th)
    ensures ClockShared(r.g) && ClockThread(r.g, r.th)
  {
    PostFrame(g, t, th, c, r);
  }

  lemma ClockOut(g: Shared, t: nat, th: Thread, c: Choice, r: Local)
    requires SharedOk(g) && ThreadOk(g, t, th) && OutsidePc(th.pc) && OutEnabled(g, t, th, c) && r == OutStep(g, t, th, c)
    requires ClockShared(g) && ClockThread(g, th)
    ensures ClockShared(r.g) && ClockThread(r.g, r.th)
  {
    OutFrame(g, t, th, c, r);
  }

  lemma ClockAct(g: Shared, t: nat, th: Thread, a: Act, r: Local)
    requires SharedOk(g) && ThreadOk(g, t, th) && ActEnabled(g, t, th, a) && r == ActStep(g, t, th, a)
    requires ClockShared(g) && ClockThread(g, th)
    ensures ClockShared(r.g) && ClockThread(r.g, r.th)
  {
    match a
    case Scanning => ClockScan(g, t, th, r);
    case Collecting => ClockCollect(g, t, th, r);
    case Running(c) => ClockRun(g, t, th, c, r);
    case Napping(c) => NapFrame(g, t, th, c, r);
    case Posting(c) => ClockPost(g, t, th, c, r);
    case Outside(c) => ClockOut(g, t, th, c, r);
  }

  /** Another thread's view of the clock survives, because it owns the queue it has looked at. */
  lemma ClockOther(s: State, t: nat, a: Act, r: Local, u: nat)
    requires Shape(s) && t < |s.threads| && ActEnabled(s.g, t, s.threads[t], a) && r == ActStep(s.g, t, s.threads[t], a)
    requires Locks(s) && u < |s.threads| && u != t && ClockThread(s.g, s.threads[u])
    ensures ClockThread(r.g, s.threads[u])
  {
    var th := s.threads[u];
    assert ThreadOk(s.g, u, th);
    Exclusion(s, t, u);
    if th.pc.PTry? || th.pc.Hold? {
      assert OwnsQueue(th, th.pc.q);
      QueueOwner(s.g, t, s.threads[t], a, r, th.pc.q);
    } else {
      NowSame(s.g, t, s.threads[t], a, r);
    }
  }

  lemma NowSame(g: Shared, t: nat, th: Thread, a: Act, r: Local)
    requires SharedOk(g) && ThreadOk(g, t, th) && ActEnabled(g, t, th, a) && r == ActStep(g, t, th, a)
    ensures r.g.now == g.now
  {
    match a
    case Scanning => ScanFrame(g, t, th, r);
    case Collecting => CollectFrame(g, t, th, r);
    case Running(c) => RunFrame(g, t, th, c, r);
    case Napping(c) => NapFrame(g, t, th, c, r);
    case Posting(c) => PostFrame(g, t, th, c, r);
    case Outside(c) => OutFrame(g, t, th, c, r);
  }

  lemma ClockStep(s: State, e: Event, s1: State)
    requires Shape(s) && Enabled(s, e) && s1 == Next(s, e) && Locks(s) && Clock(s)
    ensures Clock(s1)
  {
    match e
    case Tick(dt) =>
      assert forall ms :: AllDue(ms, s.g.now) ==> AllDue(ms, s1.g.now);
      forall t | 0 <= t < |s.threads| ensures ClockThread(s1.g, s1.threads[t]) { assert ClockThread(s.g, s.threads[t]); }
    case Act(t, a) =>
      var r := Local(s1.g, s1.threads[t]);
      assert ClockThread(s.g, s.threads[t]);
      ClockAct(s.g, t, s.threads[t], a, r);
      forall u | 0 <= u < |s.threads| && u != t ensures ClockThread(s1.g, s1.threads[u]) { ClockOther(s, t, a, r, u); }
  }

  // ---------------------------------------------------------------- order

  /** The calls and notifications for process p among ms, in order. */
  function Sel(ms: seq<Msg>, p: nat): seq<Msg> {
    if ms == [] then []
    else (if ms[0].target == p && !ms[0].Timer? then [ms[0]] else []) + Sel(ms[1..], p)
  }

  lemma Assoc<T>(a: seq<T>, b: seq<T>, c: seq<T>)
    ensures a + (b + c) == (a + b) + c
  {
  }

  lemma {:induction false} SelConcat(a: seq<Msg>, b: seq<Msg>, p: nat)
    ensures Sel(a + b, p) == Sel(a, p) + Sel(b, p)
  {
    if a == [] {
      assert a + b == b;
    } else {
      SelConcat(a[1..], b, p);
      assert (a + b)[0] == a[0] && (a + b)[1..] == a[1..] + b;
      var one := if a[0].target == p && !a[0].Timer? then [a[0]] else [];
      Assoc(one, Sel(a[1..], p), Sel(b, p));
    }
  }

  predicate InBatch(th: Thread, p: nat) {
    (th.pc.Hold? || th.pc.Run?) && th.pc.p == p
  }

  /** What the thread still has to deliver to p. */
  function Rest(th: Thread, p: nat): seq<Msg> {
    if th.pc.Hold? && th.pc.p == p then th.pc.taken
    else if th.pc.Run? && th.pc.p == p && th.pc.f <= |th.pc.taken| then th.pc.taken[th.pc.f..]
    else []
  }

  /** Delivered to p, then in the thread's batch, then queued for p. */
  function Line(g: Shared, th: Thread, p: nat): seq<Msg>
    requires g.queues != [] && p < |g.past.log|
  {
    g.past.log[p] + Sel(Rest(th, p), p) + Sel(g.queues[p % |g.queues|], p)
  }

  /** Every process: delivered, in the batch of the core that runs it, still queued; read in this order
      they are the messages pushed for it, in push order. */
  predicate OrderFor(s: State, p: nat)
    requires s.g.queues != [] && p < |s.g.past.log| == |s.g.past.order|
  {
    && (forall t :: 0 <= t < |s.threads| && InBatch(s.threads[t], p) ==> InLine(s.g, s.threads[t], p))
    && ((forall t :: 0 <= t < |s.threads| ==> !InBatch(s.threads[t], p)) ==> NoLine(s.g, p))
  }

  predicate InLine(g: Shared, th: Thread, p: nat)
    requires g.queues != [] && p < |g.past.log| == |g.past.order|
  {
    g.past.order[p] == Line(g, th, p)
  }

  predicate NoLine(g: Shared, p: nat)
    requires g.queues != [] && p < |g.past.log| == |g.past.order|
  {
    g.past.order[p] == g.past.log[p] + Sel(g.queues[p % |g.queues|], p)
  }

  predicate Order(s: State)
    requires SharedOk(s.g)
  {
    forall p :: 0 <= p < |s.g.plock| ==> OrderFor(s, p)
  }

  /** One step pushes `more` for p, and neither loses nor reorders anything. */
  predicate OrderFair(g: Shared, th: Thread, r: Local, p: nat, more: seq<Msg>)
    requires p < |g.past.log| == |g.past.order| == |r.g.past.log| == |r.g.past.order| && 0 < |g.queues| == |r.g.queues|
  {
    && r.g.past.order[p] == g.past.order[p] + more
    && Line(r.g, r.th, p) == Line(g, th, p) + more
    && (!InBatch(th, p) ==>
          && r.g.past.log[p] == g.past.log[p]
          && Sel(r.g.queues[p % |g.queues|], p) == Sel(g.queues[p % |g.queues|], p) + more)
    && (InBatch(r.th, p) && !InBatch(th, p) ==> Rest(r.th, p) == [])
    && (InBatch(th, p) && !InBatch(r.th, p) ==> Rest(th, p) == [])
  }

  /** A step that leaves log, queues and the thread's own batch alone. */
  lemma OrderSame(g: Shared, th: Thread, r: Local, p: nat)
    requires SharedOk(g) && SharedOk(r.g) && p < |g.plock| == |r.g.plock| && r.g.queues == g.queues
    requires r.g.past.order == g.past.order && r.g.past.log == g.past.log
    requires Rest(r.th, p) == Rest(th, p) && (InBatch(th, p) != InBatch(r.th, p) ==> Rest(th, p) == [])
    ensures OrderFair(g, th, r, p, [])
  {
    assert g.past.order[p] + [] == g.past.order[p];
    assert Line(g, th, p) + [] == Line(g, th, p);
    var q := g.queues[p % |g.queues|];
    assert Sel(q, p) + [] == Sel(q, p);
  }

  lemma OrderScan(g: Shared, t: nat, th: Thread, r: Local, p: nat)
    requires SharedOk(g) && ThreadOk(g, t, th) && ScanPc(th.pc) && r == ScanStep(g, t, th)
    requires SharedOk(r.g) && p < |g.plock| == |r.g.plock|
    ensures |r.g.queues| == |g.queues| && OrderFair(g, th, r, p, [])
  {
    ScanFrame(g, t, th, r);
    OrderSame(g, th, r, p);
  }

  /** One message leaves the front of the queue for the batch or, if it is a timer, for later. */
  lemma OrderDrain(g: Shared, t: nat, th: Thread, r: Local, p: nat)
    requires SharedOk(g) && ThreadOk(g, t, th) && th.pc.Hold? && th.pc.stage.Draining? && r == CollectStep(g, t, th)
    requires SharedOk(r.g) && p < |g.plock| == |r.g.plock| && ClockThread(g, th)
    ensures |r.g.queues| == |g.queues| && OrderFair(g, th, r, p, [])
  {
    CollectFrame(g, t, th, r);
    if r.g.queues == g.queues {
      OrderSame(g, th, r, p);
    } else {
      var q, m := th.pc.q, g.queues[th.pc.q][0];
      assert Due(m, th.pc.time);
      OrderTake(g, th, r, p, m);
    }
  }

  lemma Regroup<T>(a: seq<T>, b: seq<T>, c: seq<T>, d: seq<T>)
    ensures a + b + (c + d) == a + (b + c) + d
  {
  }

  lemma OrderTake(g: Shared, th: Thread, r: Local, p: nat, m: Msg)
    requires p < |g.past.log| == |g.past.order| && 0 < |g.queues| && r.g.past == g.past
    requires th.pc.Hold? && r.th.pc.Hold? && th.pc.p == r.th.pc.p == m.target
    requires th.pc.q < |g.queues| && g.queues[th.pc.q] != [] && g.queues[th.pc.q][0] == m && th.pc.p % |g.queues| == th.pc.q
    requires r.g.queues == g.queues[th.pc.q := g.queues[th.pc.q][1..]]
    requires r.th.pc.taken == th.pc.taken + [m] || (r.th.pc.taken == th.pc.taken && m.Timer?)
    ensures OrderFair(g, th, r, p, [])
  {
    var ms, k := g.queues[th.pc.q], p % |g.queues|;
    assert g.past.order[p] + [] == g.past.order[p];
    if m.target == p {
      var one := if m.Timer? then [] else [m];
      assert Sel(ms, p) == one + Sel(ms[1..], p);
      SelConcat(th.pc.taken, [m], p);
      assert Sel([m], p) == one;
      assert Sel(r.th.pc.taken, p) == Sel(th.pc.taken, p) + one;
      Regroup(g.past.log[p], Sel(th.pc.taken, p), one, Sel(ms[1..], p));
    } else {
      assert Sel(ms[1..], p) == Sel(ms, p);
      assert Sel(r.g.queues[k], p) == Sel(g.queues[k], p) + [];
    }
    assert Line(r.g, r.th, p) == Line(g, th, p) + [];
  }

  lemma OrderReturn(g: Shared, t: nat, th: Thread, r: Local, p: nat)
    requires SharedOk(g) && ThreadOk(g, t, th) && th.pc.Hold? && !th.pc.stage.Draining? && r == CollectStep(g, t, th)
    requires SharedOk(r.g) && p < |g.plock| == |r.g.plock| && ClockThread(g, th)
    ensures |r.g.queues| == |g.queues| && OrderFair(g, th, r, p, [])
  {
    CollectFrame(g, t, th, r);
    var Hold(_, q, p0, _, taken, future, stage) := th.pc;
    assert taken[0..] == taken;
    if r.g.queues == g.queues {
      OrderSame(g, th, r, p);
    } else {
      SelConcat(g.queues[q], [future[0]], p);
      assert Sel([future[0]], p) == [];
      assert Sel(r.g.queues[q], p) == Sel(g.queues[q], p);
      assert forall k :: 0 <= k < |g.queues| && k != q ==> r.g.queues[k] == g.queues[k];
      assert Line(r.g, r.th, p) == Line(g, th, p) + [];
      assert g.past.order[p] + [] == g.past.order[p];
      var k := p % |g.queues|;
      assert Sel(r.g.queues[k], p) == Sel(g.queues[k], p) + [];
    }
  }

  lemma OrderRun(g: Shared, t: nat, th: Thread, c: Choice, r: Local, p: nat)
    requires SharedOk(g) && ThreadOk(g, t, th) && th.pc.Run? && RunEnabled(g, t, th, c) && r == RunStep(g, t, th, c)
    requires SharedOk(r.g) && p < |g.plock| == |r.g.plock|
    ensures |r.g.queues| == |g.queues| && OrderFair(g, th, r, p, [])
  {
    RunFrame(g, t, th, c, r);
    var Run(_, p0, taken, f, phase) := th.pc;
    if phase.Start? && f < |taken| && p == p0 {
      var m := taken[f];
      assert m.target == p;
      assert taken[f..][0] == m && taken[f..][1..] == taken[f + 1..];
      assert Line(r.g, r.th, p) == Line(g, th, p) + [];
      assert g.past.order[p] + [] == g.past.order[p];
    } else {
      OrderStart(g, t, th, c, r, p);
    }
  }

  lemma OrderStart(g: Shared, t: nat, th: Thread, c: Choice, r: Local, p: nat)
    requires SharedOk(g) && ThreadOk(g, t, th) && th.pc.Run? && RunEnabled(g, t, th, c) && r == RunStep(g, t, th, c)
    requires SharedOk(r.g) && p < |g.plock| == |r.g.plock|
    requires th.pc.phase.Start? && th.pc.f < |th.pc.taken| ==> p != th.pc.p
    ensures |r.g.queues| == |g.queues| && OrderFair(g, th, r, p, [])
  {
    RunFrame(g, t, th, c, r);
    assert r.g.past.log[p] == g.past.log[p];
    assert Rest(r.th, p) == Rest(th, p);
    assert Line(r.g, r.th, p) == Line(g, th, p) + [];
    assert g.past.order[p] + [] == g.past.order[p];
    var q := g.queues[p % |g.queues|];
    assert Sel(q, p) + [] == Sel(q, p);
  }

  lemma OrderPush(g: Shared, th: Thread, r: Local, p: nat, m: Msg, q: nat) returns (more: seq<Msg>)
    requires SharedOk(g) && SharedOk(r.g) && p < |g.plock| == |r.g.plock| && r.th.pc == th.pc && q < |g.queues|
    requires MsgOk(g, m) && q == m.target % |g.queues|
    requires r.g.queues == g.queues[q := g.queues[q] + [m]] && r.g.past.log == g.past.log
    requires r.g.past.order == if m.Timer? then g.past.order else g.past.order[m.target := g.past.order[m.target] + [m]]
    ensures OrderFair(g, th, r, p, more)
  {
    more := if m.target == p && !m.Timer? then [m] else [];
    SelConcat(g.queues[q], [m], p);
    assert Sel([m], p) == more;
    var k := p % |g.queues|;
    assert Sel(r.g.queues[k], p) == Sel(g.queues[k], p) + more;
    var before, tail := g.past.log[p] + Sel(Rest(th, p), p), Sel(g.queues[k], p);
    assert before + (tail + more) == before + tail + more;
    assert r.g.past.order[p] == g.past.order[p] + more;
  }

  lemma OrderPost(g: Shared, t: nat, th: Thread, c: Choice, r: Local, p: nat) returns (more: seq<Msg>)
    requires SharedOk(g) && ThreadOk(g, t, th) && PostEnabled(g, th, c) && r == PostStep(g, t, th, c)
    requires SharedOk(r.g) && p < |g.plock| == |r.g.plock|
    ensures |r.g.queues| == |g.queues| && OrderFair(g, th, r, p, more)
  {
    PostFrame(g, t, th, c, r);
    if th.send.SPush? {
      more := OrderPush(g, th, r, p, th.send.m, th.send.q);
    } else {
      more := [];
      OrderSame(g, th, r, p);
    }
  }

  lemma OrderAct(g: Shared, t: nat, th: Thread, a: Act, r: Local, p: nat) returns (more: seq<Msg>)
    requires SharedOk(g) && ThreadOk(g, t, th) && ActEnabled(g, t, th, a) && r == ActStep(g, t, th, a)
    requires SharedOk(r.g) && p < |g.plock| == |r.g.plock| && ClockThread(g, th)
    ensures |r.g.queues| == |g.queues| && OrderFair(g, th, r, p, more)
  {
    more := [];
    match a
    case Scanning => OrderScan(g, t, th, r, p);
    case Collecting => if th.pc.stage.Draining? { OrderDrain(g, t, th, r, p); } else { OrderReturn(g, t, th, r, p); }
    case Running(c) => OrderRun(g, t, th, c, r, p);
    case Napping(c) => NapFrame(g, t, th, c, r); OrderSame(g, th, r, p);
    case Posting(c) => more := OrderPost(g, t, th, c, r, p);
    case Outside(c) => OutFrame(g, t, th, c, r); OrderSame(g, th, r, p);
  }

  /** The line of the stepping thread, whether or not it has the batch. */
  lemma OrderBatch(g: Shared, th: Thread, r: Local, p: nat, more: seq<Msg>)
    requires p < |g.past.log| == |g.past.order| == |r.g.past.log| == |r.g.past.order| && 0 < |g.queues| == |r.g.queues|
    requires OrderFair(g, th, r, p, more)
    requires if InBatch(th, p) then InLine(g, th, p) else NoLine(g, p)
    ensures if InBatch(r.th, p) then InLine(r.g, r.th, p) else NoLine(r.g, p)
  {
    var q, q1 := Sel(g.queues[p % |g.queues|], p), Sel(r.g.queues[p % |g.queues|], p);
    if !InBatch(th, p) {
      assert Rest(th, p) == [];
      assert Line(g, th, p) == g.past.log[p] + q;
    }
    if !InBatch(r.th, p) {
      assert Rest(r.th, p) == [];
      assert Line(r.g, r.th, p) == r.g.past.log[p] + q1;
    }
  }

  /** The line of the core that has the batch, when another thread steps. */
  lemma OrderOther(g: Shared, th: Thread, r: Local, p: nat, more: seq<Msg>, other: Thread)
    requires p < |g.past.log| == |g.past.order| == |r.g.past.log| == |r.g.past.order| && 0 < |g.queues| == |r.g.queues|
    requires OrderFair(g, th, r, p, more) && !InBatch(th, p) && InLine(g, other, p)
    ensures InLine(r.g, other, p)
  {
    var before := g.past.log[p] + Sel(Rest(other, p), p);
    var q := Sel(g.queues[p % |g.queues|], p);
    assert g.past.order[p] == before + q;
    assert before + q + more == before + (q + more);
  }

  lemma BatchAlone(s: State, t: nat, u: nat, p: nat)
    requires Shape(s) && Locks(s) && t < |s.threads| && u < |s.threads| && p < |s.g.plock|
    requires InBatch(s.threads[t], p) && InBatch(s.threads[u], p)
    ensures t == u
  {
    Exclusion(s, t, u);
    assert OwnsProcess(s.threads[t], p) && OwnsProcess(s.threads[u], p);
  }

  /** From the step of one thread to the whole machine: only one core has a batch for p. */
  lemma OrderLift(s: State, t: nat, r: Local, s1: State, p: nat, more: seq<Msg>)
    requires Shape(s) && Locks(s) && t < |s.threads| && s1 == State(r.g, s.threads[t := r.th]) && Shape(s1) && Locks(s1)
    requires p < |s.g.plock| == |r.g.plock| && |r.g.queues| == |s.g.queues|
    requires OrderFor(s, p) && OrderFair(s.g, s.threads[t], r, p, more)
    ensures OrderFor(s1, p)
  {
    if u :| 0 <= u < |s1.threads| && u != t && InBatch(s1.threads[u], p) {
      assert s1.threads[u] == s.threads[u];
      if InBatch(s.threads[t], p) { BatchAlone(s, t, u, p); }
      OrderOther(s.g, s.threads[t], r, p, more, s.threads[u]);
      forall v | 0 <= v < |s1.threads| && InBatch(s1.threads[v], p) ensures v == u { BatchAlone(s1, v, u, p); }
    } else {
      assert forall u :: 0 <= u < |s.threads| && u != t ==> s1.threads[u] == s.threads[u] && !InBatch(s.threads[u], p);
      assert s1.threads[t] == r.th;
      OrderBatch(s.g, s.threads[t], r, p, more);
    }
  }

  lemma OrderStep(s: State, t: nat, a: Act, r: Local, s1: State)
    requires Shape(s) && t < |s.threads| && ActEnabled(s.g, t, s.threads[t], a) && r == ActStep(s.g, t, s.threads[t], a)
    requires s1 == State(r.g, s.threads[t := r.th]) && Shape(s1) && |r.g.plock| == |s.g.plock|
    requires Locks(s) && Locks(s1) && Clock(s) && Order(s)
    ensures Order(s1)
  {
    assert ClockThread(s.g, s.threads[t]);
    forall p | 0 <= p < |s1.g.plock| ensures OrderFor(s1, p) {
      var more := OrderAct(s.g, t, s.threads[t], a, r, p);
      OrderLift(s, t, r, s1, p, more);
    }
  }
}

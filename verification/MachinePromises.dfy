/** Conservation of messages, and the life of promises and timers. */
module MachinePromises {
  import opened Options
  import opened Machine
  import opened MachineShape
  import opened MachineTotals
  import opened MachineLocks
  import opened MachineOrder

  // ---------------------------------------------------------------- conservation

  /** Every copy of every message sent is in one queue, or in one thread's hand, or delivered. */
  ghost predicate Conserve(s: State) {
    forall m: Msg :: Kept(s, m)
  }

  predicate Kept(s: State, m: Msg) {
    s.g.past.sent[m] == s.g.past.done[m] + Queued(s.g.queues, m) + Total(HandOf(m), s.threads)
  }

  predicate HandFair(g: Shared, th: Thread, r: Local, m: Msg) {
    r.g.past.sent[m] + g.past.done[m] + Queued(g.queues, m) + Weight(HandOf(m), th)
      == g.past.sent[m] + r.g.past.done[m] + Queued(r.g.queues, m) + Weight(HandOf(m), r.th)
  }

  lemma HandDrain(g: Shared, t: nat, th: Thread, r: Local, m: Msg)
    requires SharedOk(g) && ThreadOk(g, t, th) && th.pc.Hold? && th.pc.stage.Draining? && r == CollectStep(g, t, th)
    ensures HandFair(g, th, r, m)
  {
    CollectFrame(g, t, th, r);
    var q := th.pc.q;
    if r.g.queues != g.queues {
      QueuedUpdate(g.queues, q, r.g.queues[q], m);
      CountPush(th.pc.taken, g.queues[q][0], m);
      CountPush(th.pc.future, g.queues[q][0], m);
    }
  }

  lemma HandReturn(g: Shared, t: nat, th: Thread, r: Local, m: Msg)
    requires SharedOk(g) && ThreadOk(g, t, th) && th.pc.Hold? && !th.pc.stage.Draining? && r == CollectStep(g, t, th)
    ensures HandFair(g, th, r, m)
  {
    CollectFrame(g, t, th, r);
    var q, future := th.pc.q, th.pc.future;
    assert th.pc.taken[0..] == th.pc.taken;
    if th.pc.stage.Requeue? && future != [] {
      QueuedUpdate(g.queues, q, r.g.queues[q], m);
      CountPush(g.queues[q], future[0], m);
    }
  }

  lemma HandUser(g: Shared, th: Thread, p: nat, c: Choice, ever: bool, r: Local, m: Msg)
    requires p < |g.whens| == |g.whenevers| && UserChoice(g, c, p) && r == UserStep(g, th, p, c, ever) && th.send.NoSend?
    ensures HandFair(g, th, r, m)
  {
  }

  lemma HandRun(g: Shared, t: nat, th: Thread, c: Choice, r: Local, m: Msg)
    requires SharedOk(g) && ThreadOk(g, t, th) && th.pc.Run? && RunEnabled(g, t, th, c) && r == RunStep(g, t, th, c)
    ensures HandFair(g, th, r, m)
  {
    if UserChoice(g, c, th.pc.p) {
      HandUser(g, th, th.pc.p, c, th.pc.phase.EverBody?, r, m);
    } else if th.pc.phase.Start? {
      HandStart(g, t, th, r, m);
    } else {
      RunFrame(g, t, th, c, r);
      assert r.th.pc.Run? && r.th.pc.f == th.pc.f && r.g.past.done == g.past.done;
    }
  }

  lemma HandStart(g: Shared, t: nat, th: Thread, r: Local, m: Msg)
    requires SharedOk(g) && ThreadOk(g, t, th) && th.pc.Run? && th.pc.phase.Start? && r == StartStep(g, th)
    ensures HandFair(g, th, r, m)
  {
    var taken, f := th.pc.taken, th.pc.f;
    if f < |taken| { assert taken[f..][0] == taken[f] && taken[f..][1..] == taken[f + 1..]; }
  }

  lemma HandOut(g: Shared, t: nat, th: Thread, c: Choice, r: Local, m: Msg)
    requires SharedOk(g) && ThreadOk(g, t, th) && OutsidePc(th.pc) && OutEnabled(g, t, th, c) && r == OutStep(g, t, th, c)
    ensures HandFair(g, th, r, m)
  {
    if c.Ask? || c.SetTimer? || c.Watch? || c.WatchOther? || c.WatchEver? {
      HandUser(g, th, if th.pc.Out? then c.owner else th.pc.p, c, false, r, m);
    }
  }

  lemma HandPost(g: Shared, t: nat, th: Thread, c: Choice, r: Local, m: Msg)
    requires SharedOk(g) && ThreadOk(g, t, th) && PostEnabled(g, th, c) && r == PostStep(g, t, th, c)
    ensures HandFair(g, th, r, m)
  {
    PostFrame(g, t, th, c, r);
    if th.send.SPush? {
      QueuedUpdate(g.queues, th.send.q, r.g.queues[th.send.q], m);
      CountPush(g.queues[th.send.q], th.send.m, m);
    }
  }

  lemma HandStep(g: Shared, t: nat, th: Thread, a: Act, r: Local, m: Msg)
    requires SharedOk(g) && ThreadOk(g, t, th) && ActEnabled(g, t, th, a) && r == ActStep(g, t, th, a)
    ensures HandFair(g, th, r, m)
  {
    match a
    case Scanning => ScanFrame(g, t, th, r);
    case Collecting => if th.pc.stage.Draining? { HandDrain(g, t, th, r, m); } else { HandReturn(g, t, th, r, m); }
    case Running(c) => HandRun(g, t, th, c, r, m);
    case Napping(c) => NapFrame(g, t, th, c, r);
    case Posting(c) => HandPost(g, t, th, c, r, m);
    case Outside(c) => HandOut(g, t, th, c, r, m);
  }

  lemma ConserveStep(s: State, t: nat, a: Act, r: Local)
    requires Shape(s) && t < |s.threads| && ActEnabled(s.g, t, s.threads[t], a) && r == ActStep(s.g, t, s.threads[t], a)
    requires Conserve(s)
    ensures Conserve(State(r.g, s.threads[t := r.th]))
  {
    var s1 := State(r.g, s.threads[t := r.th]);
    forall m: Msg ensures Kept(s1, m) {
      assert Kept(s, m);
      HandStep(s.g, t, s.threads[t], a, r, m);
      TotalUpdate(HandOf(m), s.threads, t, r.th);
    }
  }

  lemma DoneBound(s: State, m: Msg)
    requires Conserve(s)
    ensures s.g.past.done[m] <= s.g.past.sent[m]
  {
    assert Kept(s, m);
  }

  lemma HandSent(s: State, t: nat, m: Msg)
    requires Conserve(s) && t < |s.threads| && Weight(HandOf(m), s.threads[t]) > 0
    ensures m in s.g.past.sent
  {
    assert Kept(s, m);
    TotalBound(HandOf(m), s.threads, t);
  }

  // ---------------------------------------------------------------- promises

  /** m is the notification of promise x: the reply, or the timer message. */
  predicate Notice(m: Msg, x: nat) {
    (m.Reply? && m.answer == x) || (m.Timer? && m.timer == x)
  }

  /** m is the message that produces promise x. */
  predicate Produces(m: Msg, x: nat) {
    (m.Call? && m.promise == Some(x)) || (m.Timer? && m.timer == x)
  }

  /** The message behind each promise was sent once, and a promise that is ready has sent its notice. */
  ghost predicate PromiseOk(g: Shared, x: nat)
    requires x < |g.promises|
  {
    var pr := g.promises[x];
    && MsgOk(g, pr.msg) && Produces(pr.msg, x) && g.past.sent[pr.msg] == 1
    && (pr.ready ==> exists m :: m in g.past.sent && Notice(m, x))
  }

  /** What is known of the messages sent and delivered. */
  predicate HistoryOk(g: Shared) {
    && (forall m :: m in g.past.sent ==> MsgOk(g, m) && (m.Reply? ==> g.promises[m.answer].ready))
    && (forall m :: m in g.past.done && m.Reply? ==> m.answer in g.past.heard)
    && (forall m :: m in g.past.done && m.Timer? ==> m.timer in g.past.heard)
    && (forall x :: x in g.past.heard ==> x < |g.promises| && g.promises[x].ready)
  }

  /** A timer that has left its queue for a batch is ready. */
  predicate TakenOk(g: Shared, th: Thread) {
    th.pc.Hold? || th.pc.Run? ==>
      forall i :: 0 <= i < |th.pc.taken| && th.pc.taken[i].Timer? ==>
        th.pc.taken[i].timer < |g.promises| && g.promises[th.pc.taken[i].timer].ready
  }

  /** A promise becomes ready when its function ends, and its function runs once. */
  predicate Ledger(s: State, x: nat)
    requires x < |s.g.promises|
  {
    !s.g.promises[x].timer ==>
      Total(BodyOf(x), s.threads) + (if s.g.promises[x].ready then 1 else 0) == s.g.past.done[s.g.promises[x].msg]
  }

  ghost predicate Promises(s: State) {
    && HistoryOk(s.g)
    && (forall x :: 0 <= x < |s.g.promises| ==> PromiseOk(s.g, x) && Ledger(s, x))
    && (forall t :: 0 <= t < |s.threads| ==> TakenOk(s.g, s.threads[t]))
  }

  /** While the function of x runs, x is not ready. */
  lemma BodyNotReady(s: State, t: nat, x: nat)
    requires Conserve(s) && Promises(s) && t < |s.threads| && x < |s.g.promises| && InBody(s.threads[t], x)
    requires !s.g.promises[x].timer
    ensures !s.g.promises[x].ready
  {
    assert Ledger(s, x) && PromiseOk(s.g, x);
    DoneBound(s, s.g.promises[x].msg);
    TotalBound(BodyOf(x), s.threads, t);
  }

  /** Steps that add nothing to the history. */
  lemma HistorySame(g: Shared, r: Shared)
    requires HistoryOk(g) && Extends(g, r) && (forall x :: 0 <= x < |g.promises| ==> PromiseOk(g, x))
    requires forall x :: 0 <= x < |g.promises| && r.promises[x].ready ==> g.promises[x].ready || g.promises[x].timer
    requires r.past.sent == g.past.sent && r.past.done == g.past.done && r.past.heard == g.past.heard
    ensures HistoryOk(r)
    ensures forall x :: 0 <= x < |g.promises| ==> PromiseOk(r, x)
  {
    forall x | 0 <= x < |g.promises| ensures PromiseOk(r, x) {
      assert PromiseOk(g, x);
      if g.promises[x].timer { assert Notice(g.promises[x].msg, x); }
    }
  }

  /** The step of one thread, as far as the history and the promises go. */
  ghost predicate PromiseFair(g: Shared, th: Thread, r: Local) {
    && HistoryOk(r.g)
    && (forall x :: 0 <= x < |r.g.promises| ==> PromiseOk(r.g, x))
    && TakenOk(r.g, r.th)
    && (forall x :: 0 <= x < |g.promises| <= |r.g.promises| ==> LedgerFair(g, th, r, x))
    && (forall x :: |g.promises| <= x < |r.g.promises| ==> NewPromise(g, r, x))
  }

  predicate LedgerFair(g: Shared, th: Thread, r: Local, x: nat)
    requires x < |g.promises| <= |r.g.promises|
  {
    !g.promises[x].timer ==>
      r.g.past.done[g.promises[x].msg] + Weight(BodyOf(x), th) + (if g.promises[x].ready then 1 else 0)
        == g.past.done[g.promises[x].msg] + Weight(BodyOf(x), r.th) + (if r.g.promises[x].ready then 1 else 0)
  }

  predicate NewPromise(g: Shared, r: Local, x: nat)
    requires x < |r.g.promises|
  {
    r.g.past.done == g.past.done && r.g.promises[x].msg !in g.past.sent && !r.g.promises[x].ready && !InBody(r.th, x)
  }

  /** Scanning, sleeping and the steps of a send. */
  lemma PromiseIdle(g: Shared, th: Thread, r: Local)
    requires HistoryOk(g) && (forall x :: 0 <= x < |g.promises| ==> PromiseOk(g, x)) && TakenOk(g, th)
    requires Extends(g, r.g) && r.g.promises == g.promises
    requires r.g.past.sent == g.past.sent && r.g.past.done == g.past.done && r.g.past.heard == g.past.heard
    requires r.th.pc == th.pc || ((!r.th.pc.Hold? || r.th.pc.taken == []) && !r.th.pc.Run? && !th.pc.Hold? && !th.pc.Run?)
    ensures PromiseFair(g, th, r)
  {
    HistorySame(g, r.g);
  }

  lemma TakenCollect(g: Shared, t: nat, th: Thread, r: Local)
    requires SharedOk(g) && ThreadOk(g, t, th) && th.pc.Hold? && r == CollectStep(g, t, th) && Extends(g, r.g)
    requires TakenOk(g, th)
    ensures TakenOk(r.g, r.th)
    ensures forall x :: 0 <= x < |g.promises| && r.g.promises[x].ready ==> g.promises[x].ready || g.promises[x].timer
  {
    CollectFrame(g, t, th, r);
    var q := th.pc.q;
    assert QueueOk(g, q);
    if th.pc.stage.Draining? && g.queues[q] != [] {
      var m := g.queues[q][0];
      assert MsgOk(g, m);
      assert r.th.pc.Hold? && r.th.pc.taken != th.pc.taken ==> r.th.pc.taken == th.pc.taken + [m];
    }
  }

  lemma PromiseCollect(g: Shared, t: nat, th: Thread, r: Local)
    requires SharedOk(g) && ThreadOk(g, t, th) && th.pc.Hold? && r == CollectStep(g, t, th) && Extends(g, r.g)
    requires HistoryOk(g) && (forall x :: 0 <= x < |g.promises| ==> PromiseOk(g, x)) && TakenOk(g, th)
    ensures PromiseFair(g, th, r)
  {
    CollectFrame(g, t, th, r);
    TakenCollect(g, t, th, r);
    PromiseReady(g, th, r);
  }

  /** Steps after which only timers may be newly ready. */
  lemma PromiseReady(g: Shared, th: Thread, r: Local)
    requires HistoryOk(g) && (forall x :: 0 <= x < |g.promises| ==> PromiseOk(g, x)) && TakenOk(r.g, r.th)
    requires Extends(g, r.g) && |r.g.promises| == |g.promises| && r.g.past == g.past
    requires forall x :: 0 <= x < |g.promises| && r.g.promises[x].ready ==> g.promises[x].ready || g.promises[x].timer
    requires forall x :: InBody(th, x) <==> InBody(r.th, x)
    ensures PromiseFair(g, th, r)
  {
    HistorySame(g, r.g);
  }

  /** A message about to be sent that is new to the history. */
  lemma SentMore(g: Shared, r: Shared, m: Msg)
    requires HistoryOk(g) && Extends(g, r) && MsgOk(r, m) && (m.Reply? ==> r.promises[m.answer].ready)
    requires r.past.sent == g.past.sent + multiset{m} && r.past.done == g.past.done && r.past.heard == g.past.heard
    ensures HistoryOk(r)
  {
  }

  lemma PromiseKept(g: Shared, r: Shared, m: Msg, x: nat)
    requires x < |g.promises| && PromiseOk(g, x) && Extends(g, r) && r.past.sent == g.past.sent + multiset{m}
    requires !Produces(m, x) && (r.promises[x].ready ==> g.promises[x].ready || Notice(m, x))
    ensures PromiseOk(r, x)
  {
    if g.promises[x].ready {
      var n :| n in g.past.sent && Notice(n, x);
      assert n in r.past.sent;
    }
    assert m in r.past.sent;
  }

  lemma NeverSent(g: Shared, m: Msg, x: nat)
    requires HistoryOk(g) && Produces(m, x) && |g.promises| <= x
    ensures m !in g.past.sent
  {
  }

  /** Starting a send: of a message that names no older promise, or of the notice of x0. */
  lemma PromiseSend(g: Shared, th: Thread, r: Local, m: Msg)
    requires HistoryOk(g) && (forall x :: 0 <= x < |g.promises| ==> PromiseOk(g, x)) && TakenOk(r.g, r.th)
    requires Extends(g, r.g) && MsgOk(r.g, m) && (m.Reply? ==> r.g.promises[m.answer].ready)
    requires r.g.past == g.past.(sent := g.past.sent + multiset{m})
    requires forall x :: 0 <= x < |g.promises| ==>
               !Produces(m, x) && (r.g.promises[x].ready ==> g.promises[x].ready || Notice(m, x))
               && LedgerFair(g, th, r, x)
    requires forall x :: |g.promises| <= x < |r.g.promises| ==>
               r.g.promises[x].msg == m && Produces(m, x) && !r.g.promises[x].ready && !InBody(r.th, x)
    ensures PromiseFair(g, th, r)
  {
    SentMore(g, r.g, m);
    forall x | 0 <= x < |r.g.promises| ensures PromiseOk(r.g, x) {
      if x < |g.promises| {
        PromiseKept(g, r.g, m, x);
      } else {
        NeverSent(g, m, x);
      }
    }
    forall x | |g.promises| <= x < |r.g.promises| ensures NewPromise(g, r, x) { NeverSent(g, m, x); }
  }

  lemma PromiseUser(g: Shared, th: Thread, p: nat, c: Choice, ever: bool, r: Local)
    requires SharedOk(g) && SharedOk(r.g) && p < |g.whens| && UserChoice(g, c, p) && r == UserStep(g, th, p, c, ever) && Extends(g, r.g)
    requires HistoryOk(g) && (forall x :: 0 <= x < |g.promises| ==> PromiseOk(g, x)) && TakenOk(g, th)
    requires forall x :: |g.promises| <= x ==> !InBody(th, x)
    ensures PromiseFair(g, th, r)
  {
    assert r.th.pc == th.pc;
    if c.Ask? {
      PromiseAsk(g, th, p, c, ever, r);
    } else if c.SetTimer? {
      PromiseTimer(g, th, p, c, ever, r);
    } else {
      assert r.g.promises == g.promises && r.g.past == g.past;
      HistorySame(g, r.g);
    }
  }

  lemma PromiseTimer(g: Shared, th: Thread, p: nat, c: Choice, ever: bool, r: Local)
    requires SharedOk(g) && SharedOk(r.g) && p < |g.whens| && UserChoice(g, c, p) && r == UserStep(g, th, p, c, ever) && Extends(g, r.g)
    requires HistoryOk(g) && (forall x :: 0 <= x < |g.promises| ==> PromiseOk(g, x)) && TakenOk(g, th)
    requires (forall x :: |g.promises| <= x ==> !InBody(th, x)) && c.SetTimer?
    ensures PromiseFair(g, th, r)
  {
    var m := r.th.send.m;
    assert m == Timer(p, |g.promises|, g.now + c.duration);
    assert r.g.promises == g.promises + [Promise(p, true, false, false, m)];
    assert forall x: nat :: InBody(r.th, x) <==> InBody(th, x);
    PromiseSend(g, th, r, m);
  }

  lemma PromiseAsk(g: Shared, th: Thread, p: nat, c: Choice, ever: bool, r: Local)
    requires SharedOk(g) && SharedOk(r.g) && p < |g.whens| && UserChoice(g, c, p) && r == UserStep(g, th, p, c, ever) && Extends(g, r.g)
    requires HistoryOk(g) && (forall x :: 0 <= x < |g.promises| ==> PromiseOk(g, x)) && TakenOk(g, th)
    requires (forall x :: |g.promises| <= x ==> !InBody(th, x)) && c.Ask?
    ensures PromiseFair(g, th, r)
  {
    var m := r.th.send.m;
    if c.wants { assert r.g.promises == g.promises + [Promise(p, false, false, false, m)]; }
    assert forall x: nat :: InBody(r.th, x) <==> InBody(th, x);
    PromiseSend(g, th, r, m);
  }

  /** The end of a function body: nothing happens, or promise x0 becomes ready and its notice is sent. */
  ghost predicate Ends(g: Shared, th: Thread, r: Local)
    requires th.pc.Run?
  {
    && (forall x: nat :: !InBody(th, x))
    && r.g == g && r.th.pc.Run? && !r.th.pc.phase.Body? && r.th.pc.taken == th.pc.taken
  }

  predicate Replies(g: Shared, th: Thread, r: Local, x0: nat, m: Msg)
    requires th.pc.Run?
  {
    && x0 < |g.promises| && MsgOk(r.g, m) && m.Reply? && m.answer == x0 && InBody(th, x0)
    && r.th.pc.Run? && !r.th.pc.phase.Body? && r.th.pc.taken == th.pc.taken && r.th.send == STry(m)
    && |r.g.promises| == |g.promises| && r.g.promises[x0].ready
    && (forall x :: 0 <= x < |g.promises| && x != x0 ==> r.g.promises[x] == g.promises[x])
    && r.g.past == g.past.(sent := g.past.sent + multiset{m})
  }

  lemma FinishFacts(g: Shared, t: nat, th: Thread, c: Choice, r: Local)
    requires SharedOk(g) && ThreadOk(g, t, th) && th.pc.Run? && RunEnabled(g, t, th, c) && th.pc.phase.Body? && c.Finish?
    requires r == RunStep(g, t, th, c)
    ensures if th.pc.taken[th.pc.f - 1].promise.Some?
            then r.th.send.STry? && Replies(g, th, r, th.pc.taken[th.pc.f - 1].promise.value, r.th.send.m)
            else Ends(g, th, r)
  {
    assert MsgOk(g, th.pc.taken[th.pc.f - 1]);
  }

  lemma PromiseReply(g: Shared, th: Thread, r: Local, x0: nat, m: Msg)
    requires HistoryOk(g) && (forall x :: 0 <= x < |g.promises| ==> PromiseOk(g, x)) && TakenOk(g, th)
    requires Extends(g, r.g) && th.pc.Run? && Replies(g, th, r, x0, m) && !g.promises[x0].ready
    ensures PromiseFair(g, th, r)
  {
    assert forall x: nat :: !InBody(r.th, x) && (InBody(th, x) <==> x == x0);
    PromiseSend(g, th, r, m);
  }

  lemma PromiseEnds(g: Shared, th: Thread, r: Local)
    requires HistoryOk(g) && (forall x :: 0 <= x < |g.promises| ==> PromiseOk(g, x)) && TakenOk(g, th)
    requires th.pc.Run? && Ends(g, th, r)
    ensures PromiseFair(g, th, r)
  {
    assert forall x: nat :: !InBody(r.th, x);
  }

  /** Taking up a message: it is delivered, and a notification is heard. */
  ghost predicate TakesUp(g: Shared, th: Thread, r: Local, m: Msg) {
    && th.pc.Run? && th.pc.phase.Start? && MsgOk(g, m) && m in g.past.sent
    && (m.Timer? ==> g.promises[m.timer].ready)
    && r.g == g.(past := r.g.past) && r.g.past.sent == g.past.sent && r.g.past.done == g.past.done + multiset{m}
    && r.g.past.heard == (if m.Call? then g.past.heard else g.past.heard + {if m.Reply? then m.answer else m.timer})
    && r.th.pc.Run? && r.th.pc.taken == th.pc.taken
    && forall x: nat :: InBody(r.th, x) <==> m.Call? && m.promise == Some(x)
  }

  lemma StartFacts(g: Shared, t: nat, th: Thread, r: Local)
    requires SharedOk(g) && ThreadOk(g, t, th) && th.pc.Run? && th.pc.phase.Start? && r == StartStep(g, th) && TakenOk(g, th)
    requires th.pc.f < |th.pc.taken| && th.pc.taken[th.pc.f] in g.past.sent
    ensures TakesUp(g, th, r, th.pc.taken[th.pc.f])
  {
    assert MsgOk(g, th.pc.taken[th.pc.f]);
  }

  lemma PromiseStart(g: Shared, th: Thread, r: Local, m: Msg)
    requires HistoryOk(g) && (forall x :: 0 <= x < |g.promises| ==> PromiseOk(g, x)) && TakenOk(g, th)
    requires TakesUp(g, th, r, m)
    ensures PromiseFair(g, th, r)
  {
    HistoryStart(g, th, r, m);
    forall x | 0 <= x < |g.promises| ensures LedgerFair(g, th, r, x) { PromiseTakes(g, th, r, m, x); }
  }

  lemma HistoryStart(g: Shared, th: Thread, r: Local, m: Msg)
    requires HistoryOk(g) && (forall x :: 0 <= x < |g.promises| ==> PromiseOk(g, x)) && MsgOk(g, m) && m in g.past.sent
    requires m.Timer? ==> g.promises[m.timer].ready
    requires r.g.promises == g.promises && |r.g.plock| == |g.plock| && r.g.past.sent == g.past.sent
    requires r.g.past.done == g.past.done + multiset{m}
    requires r.g.past.heard == if m.Call? then g.past.heard else g.past.heard + {if m.Reply? then m.answer else m.timer}
    ensures HistoryOk(r.g)
    ensures forall x :: 0 <= x < |g.promises| ==> PromiseOk(r.g, x)
  {
    forall x | 0 <= x < |g.promises| ensures PromiseOk(r.g, x) { assert PromiseOk(g, x); }
  }

  lemma PromiseTakes(g: Shared, th: Thread, r: Local, m: Msg, x: nat)
    requires x < |g.promises| && PromiseOk(g, x) && MsgOk(g, m) && r.g.promises == g.promises
    requires th.pc.Run? && th.pc.phase.Start? && r.g.past.done == g.past.done + multiset{m}
    requires InBody(r.th, x) <==> m.Call? && m.promise == Some(x)
    ensures LedgerFair(g, th, r, x)
  {
  }

  /** The other steps of delivery. */
  lemma PassFacts(g: Shared, t: nat, th: Thread, c: Choice, r: Local)
    requires SharedOk(g) && ThreadOk(g, t, th) && PassChoice(g, th, c) && RunEnabled(g, t, th, c) && r == RunStep(g, t, th, c)
    requires th.pc.phase.Start? ==> th.pc.f == |th.pc.taken|
    ensures r.g.promises == g.promises && r.g.past == g.past
    ensures !th.pc.phase.Body? && (r.th.pc.Settle? || (r.th.pc.Run? && r.th.pc.taken == th.pc.taken && !r.th.pc.phase.Body?))
  {
  }

  lemma PromisePass(g: Shared, th: Thread, r: Local)
    requires HistoryOk(g) && (forall x :: 0 <= x < |g.promises| ==> PromiseOk(g, x)) && TakenOk(g, th)
    requires Extends(g, r.g) && r.g.promises == g.promises && r.g.past == g.past
    requires th.pc.Run? && !th.pc.phase.Body?
    requires r.th.pc.Settle? || (r.th.pc.Run? && r.th.pc.taken == th.pc.taken && !r.th.pc.phase.Body?)
    ensures PromiseFair(g, th, r)
  {
    HistorySame(g, r.g);
    assert forall x: nat :: !InBody(th, x) && !InBody(r.th, x);
  }

  lemma NoOldBody(g: Shared, t: nat, th: Thread)
    requires ThreadOk(g, t, th)
    ensures forall x: nat :: |g.promises| <= x ==> !InBody(th, x)
  {
    if th.pc.Run? && th.pc.phase.Body? { assert MsgOk(g, th.pc.taken[th.pc.f - 1]); }
  }

  lemma PromiseFinish(s: State, t: nat, c: Choice, r: Local)
    requires Shape(s) && t < |s.threads| && Conserve(s) && Promises(s)
    requires s.threads[t].pc.Run? && RunEnabled(s.g, t, s.threads[t], c) && r == RunStep(s.g, t, s.threads[t], c)
    requires s.threads[t].pc.phase.Body? && c.Finish?
    ensures PromiseFair(s.g, s.threads[t], r)
  {
    var g, th := s.g, s.threads[t];
    var Run(_, _, taken, f, _) := th.pc;
    FinishFacts(g, t, th, c, r);
    assert MsgOk(g, taken[f - 1]);
    if taken[f - 1].promise.Some? {
      BodyNotReady(s, t, taken[f - 1].promise.value);
      PromiseReply(g, th, r, taken[f - 1].promise.value, r.th.send.m);
    } else {
      PromiseEnds(g, th, r);
    }
  }

  lemma PromiseTake(s: State, t: nat, r: Local)
    requires Shape(s) && t < |s.threads| && Conserve(s) && Promises(s)
    requires s.threads[t].pc.Run? && s.threads[t].pc.phase.Start? && s.threads[t].pc.f < |s.threads[t].pc.taken|
    requires r == StartStep(s.g, s.threads[t])
    ensures PromiseFair(s.g, s.threads[t], r)
  {
    var g, th := s.g, s.threads[t];
    var m := th.pc.taken[th.pc.f];
    CountIn(th.pc.taken[th.pc.f..], 0);
    HandSent(s, t, m);
    StartFacts(g, t, th, r);
    PromiseStart(g, th, r, m);
  }

  lemma PromiseRun(s: State, t: nat, c: Choice, r: Local)
    requires Shape(s) && t < |s.threads| && Conserve(s) && Promises(s)
    requires s.threads[t].pc.Run? && RunEnabled(s.g, t, s.threads[t], c) && r == RunStep(s.g, t, s.threads[t], c)
    ensures PromiseFair(s.g, s.threads[t], r)
  {
    var g, th := s.g, s.threads[t];
    var Run(_, p, taken, f, phase) := th.pc;
    if UserChoice(g, c, p) {
      RunShape(g, t, th, c, r);
      NoOldBody(g, t, th);
      PromiseUser(g, th, p, c, phase.EverBody?, r);
    } else if phase.Body? {
      PromiseFinish(s, t, c, r);
    } else if phase.Start? && f < |taken| {
      PromiseTake(s, t, r);
    } else {
      PassFacts(g, t, th, c, r);
      PromisePass(g, th, r);
    }
  }

  lemma PromiseAct(s: State, t: nat, a: Act, r: Local)
    requires Shape(s) && t < |s.threads| && ActEnabled(s.g, t, s.threads[t], a) && r == ActStep(s.g, t, s.threads[t], a)
    requires Conserve(s) && Promises(s)
    ensures PromiseFair(s.g, s.threads[t], r)
  {
    var g, th := s.g, s.threads[t];
    ActShape(g, t, th, a, r);
    match a
    case Scanning => ScanFrame(g, t, th, r); assert r.th.pc.Hold? ==> r.th.pc.taken == []; PromiseIdle(g, th, r);
    case Collecting => PromiseCollect(g, t, th, r);
    case Running(c) => PromiseRun(s, t, c, r);
    case Napping(c) => NapFrame(g, t, th, c, r); PromiseIdle(g, th, r);
    case Posting(c) => PostFrame(g, t, th, c, r); PromiseIdle(g, th, r);
    case Outside(c) => PromiseOut(g, t, th, c, r);
  }

  lemma PromiseOut(g: Shared, t: nat, th: Thread, c: Choice, r: Local)
    requires SharedOk(g) && SharedOk(r.g) && ThreadOk(g, t, th) && OutsidePc(th.pc) && OutEnabled(g, t, th, c)
    requires r == OutStep(g, t, th, c) && Extends(g, r.g)
    requires HistoryOk(g) && (forall x :: 0 <= x < |g.promises| ==> PromiseOk(g, x)) && TakenOk(g, th)
    ensures PromiseFair(g, th, r)
  {
    OutFrame(g, t, th, c, r);
    if c.Ask? || c.SetTimer? || c.Watch? || c.WatchOther? || c.WatchEver? {
      PromiseUser(g, th, if th.pc.Out? then c.owner else th.pc.p, c, false, r);
    } else {
      PromiseIdle(g, th, r);
    }
  }

  lemma LedgerStep(s: State, t: nat, r: Local, s1: State, x: nat)
    requires Shape(s) && t < |s.threads| && s1 == State(r.g, s.threads[t := r.th]) && Extends(s.g, r.g)
    requires Conserve(s) && Conserve(s1) && Promises(s) && PromiseFair(s.g, s.threads[t], r) && x < |r.g.promises|
    ensures Ledger(s1, x)
  {
    if x < |s.g.promises| {
      assert Ledger(s, x);
      TotalUpdate(BodyOf(x), s.threads, t, r.th);
      assert LedgerFair(s.g, s.threads[t], r, x);
    } else {
      assert NewPromise(s.g, r, x);
      DoneBound(s, r.g.promises[x].msg);
      forall u | 0 <= u < |s1.threads| ensures Weight(BodyOf(x), s1.threads[u]) == 0 {
        if u != t { NoOldBody(s.g, u, s.threads[u]); }
      }
      TotalZero(BodyOf(x), s1.threads);
    }
  }

  lemma PromisesStep(s: State, t: nat, a: Act, r: Local, s1: State)
    requires Shape(s) && t < |s.threads| && ActEnabled(s.g, t, s.threads[t], a) && r == ActStep(s.g, t, s.threads[t], a)
    requires s1 == State(r.g, s.threads[t := r.th]) && Extends(s.g, r.g)
    requires Conserve(s) && Conserve(s1) && Promises(s)
    ensures Promises(s1)
  {
    PromiseAct(s, t, a, r);
    forall x | 0 <= x < |r.g.promises| ensures PromiseOk(s1.g, x) && Ledger(s1, x) { LedgerStep(s, t, r, s1, x); }
    forall u | 0 <= u < |s1.threads| ensures TakenOk(s1.g, s1.threads[u]) {
      if u != t { assert TakenOk(s.g, s.threads[u]); }
    }
  }
}

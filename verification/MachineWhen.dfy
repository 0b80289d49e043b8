/** No missed when: a block that waits for a ready promise will be looked at. */
module MachineWhen {
  import opened Options
  import Passes
  import opened Machine
  import opened MachineShape
  import opened MachineTotals
  import opened MachineLocks
  import opened MachineOrder
  import opened MachinePromises

  /** Block i of process p waits for a promise that p owns, that is ready and stands for a plain value;
      p never ran incremental code, and no whenever body registered the block too late. */
  predicate Obliged(g: Shared, p: nat, i: nat)
    requires p < |g.whens| && i < |g.whens[p]|
  {
    var w := g.whens[p][i];
    && w.OnReady? && !w.late && w.x < |g.promises| && p !in g.past.repl
    && g.promises[w.x].ready && !g.promises[w.x].chained && g.promises[w.x].owner == p
  }

  /** The thread's pass over the blocks of p has block i still before it. */
  predicate Reach(th: Thread, p: nat, i: nat) {
    && th.pc.Run? && th.pc.p == p
    && (th.pc.phase.Body? || ((th.pc.phase.WhenAt? || th.pc.phase.WhenBody?) && th.pc.phase.i <= i))
  }

  ghost predicate Served(s: State, p: nat, i: nat)
    requires p < |s.g.whens| && i < |s.g.whens[p]|
  {
    Obliged(s.g, p, i) ==>
      s.g.whens[p][i].x !in s.g.past.heard || exists t :: 0 <= t < |s.threads| && Reach(s.threads[t], p, i)
  }

  predicate PassOk(g: Shared, th: Thread) {
    && (th.pc.Run? && th.pc.phase.WhenBody? && th.pc.p < |g.whens| ==> th.pc.phase.i < |g.whens[th.pc.p]|)
    && (th.pc.XHold? ==> th.pc.p in g.past.repl)
  }

  ghost predicate Whens(s: State) {
    && (forall p, i :: 0 <= p < |s.g.whens| && 0 <= i < |s.g.whens[p]| ==> Served(s, p, i))
    && (forall t :: 0 <= t < |s.threads| ==> PassOk(s.g, s.threads[t]))
  }

  /** The same, as seen by one thread. */
  predicate Seen(g: Shared, th: Thread, p: nat, i: nat)
    requires p < |g.whens| && i < |g.whens[p]|
  {
    Obliged(g, p, i) ==> g.whens[p][i].x !in g.past.heard || Reach(th, p, i)
  }

  predicate AllSeen(g: Shared, th: Thread, p: nat)
    requires p < |g.whens|
  {
    forall i :: 0 <= i < |g.whens[p]| ==> Seen(g, th, p, i)
  }

  /** User code of process p may add a block: in the body or a when body it is still ahead of the pass,
      in a whenever body it is late if its promise is ready. */
  lemma WhenUser(g: Shared, th: Thread, p: nat, c: Choice, r: Local)
    requires p < |g.whens| == |g.whenevers| && UserChoice(g, c, p) && th.pc.Run? && th.pc.p == p && PassOk(g, th)
    requires r == UserStep(g, th, p, c, th.pc.phase.EverBody?)
    requires th.pc.phase.Body? || th.pc.phase.WhenBody? || th.pc.phase.EverBody?
    requires AllSeen(g, th, p)
    ensures |r.g.whens| == |g.whens| && AllSeen(r.g, r.th, p) && PassOk(r.g, r.th)
  {
    forall i | 0 <= i < |r.g.whens[p]| ensures Seen(r.g, r.th, p, i) {
      assert i < |g.whens[p]| ==> Seen(g, th, p, i);
    }
  }

  lemma WhenTaken(g: Shared, th: Thread, p: nat, r: Local)
    requires th.pc.Run? && th.pc.p == p < |g.whens| && th.pc.phase.WhenBody? && th.pc.phase.i < |g.whens[p]|
    requires r.g == g.(whens := g.whens[p := Passes.SwapRemoved(g.whens[p], th.pc.phase.i)])
    requires r.th == th.(pc := th.pc.(phase := WhenAt(th.pc.phase.i)))
    requires AllSeen(g, th, p)
    ensures AllSeen(r.g, r.th, p)
  {
    forall i | 0 <= i < |r.g.whens[p]| ensures Seen(r.g, r.th, p, i) {
      if i < th.pc.phase.i { assert Seen(g, th, p, i) && r.g.whens[p][i] == g.whens[p][i]; }
    }
  }

  /** A promise becomes ready: nobody has heard of it yet. */
  lemma WhenResolve(g: Shared, r: Shared, th0: Thread, th1: Thread, p: nat, x0: nat)
    requires p < |g.whens| && r.whens == g.whens && r.past.heard == g.past.heard && r.past.repl == g.past.repl
    requires |g.promises| == |r.promises| && HistoryOk(g) && x0 < |g.promises|
    requires forall x :: 0 <= x < |g.promises| && x != x0 ==> r.promises[x] == g.promises[x]
    requires r.promises[x0].owner == g.promises[x0].owner
    requires g.promises[x0].ready ==> r.promises[x0].chained == g.promises[x0].chained
    requires forall i: nat :: Reach(th0, p, i) ==> Reach(th1, p, i)
    requires AllSeen(g, th0, p)
    ensures AllSeen(r, th1, p)
  {
    forall i | 0 <= i < |g.whens[p]| ensures Seen(r, th1, p, i) { assert Seen(g, th0, p, i); }
  }

  /** Taking up a message: the pass that follows reaches every block. */
  lemma WhenStart(g: Shared, t: nat, th: Thread, r: Local, p: nat)
    requires SharedOk(g) && ThreadOk(g, t, th) && th.pc.Run? && th.pc.phase.Start? && r == StartStep(g, th)
    requires p < |g.whens| && AllSeen(g, th, p)
    ensures |r.g.whens| == |g.whens| && AllSeen(r.g, r.th, p)
  {
    if th.pc.f < |th.pc.taken| { assert MsgOk(g, th.pc.taken[th.pc.f]); }
    forall i | 0 <= i < |r.g.whens[p]| ensures Seen(r.g, r.th, p, i) { assert Seen(g, th, p, i); }
  }

  /** Looking at block k: a ready one is taken. */
  lemma WhenLook(g: Shared, t: nat, th: Thread, c: Choice, r: Local, p: nat)
    requires SharedOk(g) && ThreadOk(g, t, th) && th.pc.Run? && RunEnabled(g, t, th, c) && r == RunStep(g, t, th, c)
    requires th.pc.phase.WhenAt? || th.pc.phase.EverAt? || (th.pc.phase.EverBody? && c.Finish?)
    requires p < |g.whens| && AllSeen(g, th, p)
    ensures r.g == g && AllSeen(g, r.th, p) && PassOk(g, r.th)
  {
    forall i | 0 <= i < |g.whens[p]| ensures Seen(g, r.th, p, i) { assert Seen(g, th, p, i); }
  }

  /** The core that runs p: what it owes to the blocks of p it still owes after its step. */
  lemma WhenOwn(s: State, t: nat, c: Choice, r: Local, p: nat)
    requires Shape(s) && t < |s.threads| && Conserve(s) && Promises(s)
    requires s.threads[t].pc.Run? && RunEnabled(s.g, t, s.threads[t], c) && r == RunStep(s.g, t, s.threads[t], c)
    requires p == s.threads[t].pc.p && AllSeen(s.g, s.threads[t], p) && PassOk(s.g, s.threads[t])
    ensures |r.g.whens| == |s.g.whens| && AllSeen(r.g, r.th, p) && PassOk(r.g, r.th)
  {
    var g, th := s.g, s.threads[t];
    if UserChoice(g, c, p) {
      WhenUser(g, th, p, c, r);
    } else if th.pc.phase.Body? {
      WhenFinish(s, t, c, r, p);
    } else if th.pc.phase.Start? {
      WhenStart(g, t, th, r, p);
    } else if th.pc.phase.WhenBody? {
      WhenTaken(g, th, p, r);
    } else {
      WhenLook(g, t, th, c, r, p);
    }
  }

  lemma WhenFinish(s: State, t: nat, c: Choice, r: Local, p: nat)
    requires Shape(s) && t < |s.threads| && Conserve(s) && Promises(s)
    requires s.threads[t].pc.Run? && RunEnabled(s.g, t, s.threads[t], c) && r == RunStep(s.g, t, s.threads[t], c)
    requires s.threads[t].pc.phase.Body? && c.Finish? && p < |s.g.whens|
    requires p == s.threads[t].pc.p && AllSeen(s.g, s.threads[t], p)
    ensures |r.g.whens| == |s.g.whens| && AllSeen(r.g, r.th, p) && PassOk(r.g, r.th)
  {
    var g, th := s.g, s.threads[t];
    var call := th.pc.taken[th.pc.f - 1];
    FinishFacts(g, t, th, c, r);
    RunFrame(g, t, th, c, r);
    assert r.g.whens == g.whens && r.th.pc.phase == WhenAt(0);
    assert MsgOk(g, call);
    if call.promise.Some? {
      BodyNotReady(s, t, call.promise.value);
      RunShape(g, t, th, c, r);
      WhenResolve(g, r.g, th, r.th, p, call.promise.value);
    } else {
      forall i | 0 <= i < |g.whens[p]| ensures Seen(r.g, r.th, p, i) { assert Seen(g, th, p, i); }
    }
  }

  /** A thread that does not run p leaves its blocks alone; a promise it makes ready has not been heard of,
      and what it makes heard belongs to another process. */
  predicate Foreign(g: Shared, r: Local, p: nat)
    requires p < |g.whens|
  {
    && |r.g.whens| == |g.whens| && r.g.whens[p] == g.whens[p]
    && forall i :: 0 <= i < |g.whens[p]| ==>
         Obliged(r.g, p, i) && g.whens[p][i].x in r.g.past.heard ==> Obliged(g, p, i) && g.whens[p][i].x in g.past.heard
  }

  lemma ForeignCollect(g: Shared, t: nat, th: Thread, r: Local, p: nat)
    requires SharedOk(g) && ThreadOk(g, t, th) && th.pc.Hold? && r == CollectStep(g, t, th) && p < |g.whens|
    requires HistoryOk(g)
    ensures Foreign(g, r, p)
  {
    CollectFrame(g, t, th, r);
    assert QueueOk(g, th.pc.q);
    assert th.pc.stage.Draining? && g.queues[th.pc.q] != [] ==> MsgOk(g, g.queues[th.pc.q][0]);
  }

  lemma ForeignUser(g: Shared, th: Thread, p0: nat, c: Choice, ever: bool, r: Local, p: nat)
    requires p0 < |g.whens| == |g.whenevers| && UserChoice(g, c, p0) && r == UserStep(g, th, p0, c, ever)
    requires p < |g.whens| && p != p0
    ensures Foreign(g, r, p)
  {
  }

  lemma ForeignRun(s: State, t: nat, c: Choice, r: Local, p: nat)
    requires Shape(s) && t < |s.threads| && Conserve(s) && Promises(s) && p < |s.g.whens|
    requires s.threads[t].pc.Run? && RunEnabled(s.g, t, s.threads[t], c) && r == RunStep(s.g, t, s.threads[t], c)
    requires s.threads[t].pc.p != p
    ensures Foreign(s.g, r, p)
  {
    var g, th := s.g, s.threads[t];
    RunFrame(g, t, th, c, r);
    if UserChoice(g, c, th.pc.p) {
      ForeignUser(g, th, th.pc.p, c, th.pc.phase.EverBody?, r, p);
    } else if th.pc.phase.Body? {
      var call := th.pc.taken[th.pc.f - 1];
      assert MsgOk(g, call);
      FinishFacts(g, t, th, c, r);
      RunShape(g, t, th, c, r);
      if call.promise.Some? { BodyNotReady(s, t, call.promise.value); }
    } else if th.pc.phase.Start? && th.pc.f < |th.pc.taken| {
      assert MsgOk(g, th.pc.taken[th.pc.f]);
    } else {
      PassFacts(g, t, th, c, r);
    }
  }

  lemma ForeignOut(g: Shared, t: nat, th: Thread, c: Choice, r: Local, p: nat)
    requires SharedOk(g) && ThreadOk(g, t, th) && OutsidePc(th.pc) && OutEnabled(g, t, th, c) && r == OutStep(g, t, th, c)
    requires p < |g.whens| && PassOk(g, th)
    ensures PassOk(r.g, r.th)
    ensures Foreign(g, r, p) || (th.pc.XHold? && th.pc.p == p && p in r.g.past.repl && |r.g.whens| == |g.whens|)
  {
    if th.pc.Out? && (c.Ask? || c.SetTimer?) {
      assert r.g.whens == g.whens;
      assert forall x :: 0 <= x < |g.promises| ==> r.g.promises[x] == g.promises[x];
    } else if th.pc.XHold? && !c.Finish? && th.pc.p != p {
      ForeignUser(g, th, th.pc.p, c, false, r, p);
    }
  }

  lemma ForeignStep(s: State, t: nat, a: Act, r: Local, p: nat)
    requires Shape(s) && t < |s.threads| && ActEnabled(s.g, t, s.threads[t], a) && r == ActStep(s.g, t, s.threads[t], a)
    requires Conserve(s) && Promises(s) && p < |s.g.whens| && PassOk(s.g, s.threads[t])
    requires s.threads[t].pc.Run? ==> !a.Running? || s.threads[t].pc.p != p
    ensures Foreign(s.g, r, p)
            || (OwnsProcess(s.threads[t], p) && s.threads[t].pc.XHold? && p in r.g.past.repl && |r.g.whens| == |s.g.whens|)
  {
    var g, th := s.g, s.threads[t];
    match a
    case Scanning => ScanFrame(g, t, th, r);
    case Collecting => ForeignCollect(g, t, th, r, p);
    case Running(c) => ForeignRun(s, t, c, r, p);
    case Napping(c) => NapFrame(g, t, th, c, r);
    case Posting(c) => PostFrame(g, t, th, c, r);
    case Outside(c) => ForeignOut(g, t, th, c, r, p);
  }

  /** Whoever runs p is the only one that can have its blocks before it. */
  lemma SeenAlone(s: State, t: nat, p: nat)
    requires Shape(s) && Locks(s) && Whens(s) && t < |s.threads| && p < |s.g.whens| && s.threads[t].pc.Run? && s.threads[t].pc.p == p
    ensures AllSeen(s.g, s.threads[t], p)
  {
    forall i | 0 <= i < |s.g.whens[p]| ensures Seen(s.g, s.threads[t], p, i) {
      assert Served(s, p, i);
      if Obliged(s.g, p, i) && s.g.whens[p][i].x in s.g.past.heard {
        var u :| 0 <= u < |s.threads| && Reach(s.threads[u], p, i);
        Exclusion(s, t, u);
        assert OwnsProcess(s.threads[u], p);
      }
    }
  }

  lemma ServedStep(s: State, t: nat, a: Act, r: Local, s1: State, p: nat, i: nat)
    requires Shape(s) && t < |s.threads| && ActEnabled(s.g, t, s.threads[t], a) && r == ActStep(s.g, t, s.threads[t], a)
    requires s1 == State(r.g, s.threads[t := r.th]) && Locks(s) && Conserve(s) && Promises(s) && Whens(s)
    requires p < |s.g.whens| == |r.g.whens| && i < |r.g.whens[p]|
    ensures Served(s1, p, i)
  {
    var th := s.threads[t];
    assert PassOk(s.g, th);
    assert s1.threads[t] == r.th;
    if a.Running? && th.pc.p == p {
      SeenAlone(s, t, p);
      WhenOwn(s, t, a.c, r, p);
      assert Seen(r.g, r.th, p, i);
    } else {
      ForeignStep(s, t, a, r, p);
      if Obliged(s1.g, p, i) && s1.g.whens[p][i].x in s1.g.past.heard {
        assert Served(s, p, i);
        var u :| 0 <= u < |s.threads| && Reach(s.threads[u], p, i);
        if u == t { PostFrame(s.g, t, th, a.c, r); }
        assert Reach(s1.threads[u], p, i);
      }
    }
  }

  lemma PassStep(s: State, t: nat, a: Act, r: Local, s1: State, u: nat)
    requires Shape(s) && t < |s.threads| && ActEnabled(s.g, t, s.threads[t], a) && r == ActStep(s.g, t, s.threads[t], a)
    requires s1 == State(r.g, s.threads[t := r.th]) && Locks(s) && Conserve(s) && Promises(s) && Whens(s)
    requires u < |s.threads| && u != t
    ensures PassOk(s1.g, s1.threads[u])
  {
    var th := s.threads[u];
    assert PassOk(s.g, th) && PassOk(s.g, s.threads[t]) && ThreadOk(s.g, u, th);
    ReplGrows(s.g, t, s.threads[t], a, r);
    if th.pc.Run? {
      Exclusion(s, t, u);
      assert OwnsProcess(th, th.pc.p);
      ForeignStep(s, t, a, r, th.pc.p);
    }
  }

  lemma ReplGrows(g: Shared, t: nat, th: Thread, a: Act, r: Local)
    requires SharedOk(g) && ThreadOk(g, t, th) && ActEnabled(g, t, th, a) && r == ActStep(g, t, th, a)
    ensures g.past.repl <= r.g.past.repl && |r.g.whens| == |g.whens|
  {
    match a
    case Scanning => ScanFrame(g, t, th, r);
    case Collecting => CollectFrame(g, t, th, r);
    case Running(c) => RunFrame(g, t, th, c, r); RunShape(g, t, th, c, r);
    case Napping(c) => NapFrame(g, t, th, c, r);
    case Posting(c) => PostFrame(g, t, th, c, r);
    case Outside(c) => OutShape(g, t, th, c, r);
  }

  lemma PassSelf(s: State, t: nat, a: Act, r: Local)
    requires Shape(s) && t < |s.threads| && ActEnabled(s.g, t, s.threads[t], a) && r == ActStep(s.g, t, s.threads[t], a)
    requires Locks(s) && Conserve(s) && Promises(s) && Whens(s)
    ensures PassOk(r.g, r.th)
  {
    var g, th := s.g, s.threads[t];
    assert PassOk(g, th);
    match a
    case Scanning => ScanFrame(g, t, th, r);
    case Collecting => CollectFrame(g, t, th, r); assert r.th.pc.Run? ==> r.th.pc.phase.Start?;
    case Running(c) => SeenAlone(s, t, th.pc.p); WhenOwn(s, t, c, r, th.pc.p);
    case Napping(c) => NapFrame(g, t, th, c, r);
    case Posting(c) => PostFrame(g, t, th, c, r);
    case Outside(c) => if |g.whens| > 0 { ForeignOut(g, t, th, c, r, 0); }
  }

  lemma WhensStep(s: State, t: nat, a: Act, r: Local, s1: State)
    requires Shape(s) && t < |s.threads| && ActEnabled(s.g, t, s.threads[t], a) && r == ActStep(s.g, t, s.threads[t], a)
    requires s1 == State(r.g, s.threads[t := r.th]) && Locks(s) && Conserve(s) && Promises(s) && Whens(s)
    ensures Whens(s1)
  {
    ReplGrows(s.g, t, s.threads[t], a, r);
    forall p, i | 0 <= p < |s1.g.whens| && 0 <= i < |s1.g.whens[p]| ensures Served(s1, p, i) {
      ServedStep(s, t, a, r, s1, p, i);
    }
    PassSelf(s, t, a, r);
    forall u | 0 <= u < |s1.threads| ensures PassOk(s1.g, s1.threads[u]) {
      if u != t { PassStep(s, t, a, r, s1, u); }
    }
  }

  // ---------------------------------------------------------------- late blocks

  predicate LateOk(g: Shared, w: When) {
    w.OnReady? && w.late ==> w.x in g.past.heard
  }

  /** A late block waits for a promise whose notice has been delivered. */
  predicate Lates(g: Shared) {
    forall p, i :: 0 <= p < |g.whens| && 0 <= i < |g.whens[p]| ==> LateOk(g, g.whens[p][i])
  }

  lemma LatesUser(g: Shared, th: Thread, p: nat, c: Choice, ever: bool, r: Local)
    requires p < |g.whens| == |g.whenevers| && UserChoice(g, c, p) && r == UserStep(g, th, p, c, ever) && Lates(g)
    ensures Lates(r.g)
  {
    forall q, i | 0 <= q < |r.g.whens| && 0 <= i < |r.g.whens[q]| ensures LateOk(r.g, r.g.whens[q][i]) {
      if i < |g.whens[q]| { assert LateOk(g, g.whens[q][i]); }
    }
  }

  lemma LatesSame(g: Shared, r: Shared)
    requires Lates(g) && g.past.heard <= r.past.heard && r.whens == g.whens
    ensures Lates(r)
  {
    forall q, i | 0 <= q < |r.whens| && 0 <= i < |r.whens[q]| ensures LateOk(r, r.whens[q][i]) { assert LateOk(g, g.whens[q][i]); }
  }

  lemma LatesRun(g: Shared, t: nat, th: Thread, c: Choice, r: Local)
    requires SharedOk(g) && ThreadOk(g, t, th) && th.pc.Run? && RunEnabled(g, t, th, c) && r == RunStep(g, t, th, c) && Lates(g)
    ensures Lates(r.g)
  {
    var p := th.pc.p;
    if UserChoice(g, c, p) {
      LatesUser(g, th, p, c, th.pc.phase.EverBody?, r);
    } else if th.pc.phase.WhenBody? {
      var ws := g.whens[p];
      forall q, i | 0 <= q < |r.g.whens| && 0 <= i < |r.g.whens[q]| ensures LateOk(r.g, r.g.whens[q][i]) {
        assert LateOk(g, ws[|ws| - 1]);
        assert i < |g.whens[q]| && LateOk(g, g.whens[q][i]);
      }
    } else {
      assert r.g.whens == g.whens;
      LatesSame(g, r.g);
    }
  }

  lemma LatesStep(s: State, t: nat, a: Act, r: Local)
    requires Shape(s) && t < |s.threads| && ActEnabled(s.g, t, s.threads[t], a) && r == ActStep(s.g, t, s.threads[t], a)
    requires Lates(s.g)
    ensures Lates(r.g)
  {
    var g, th := s.g, s.threads[t];
    match a
    case Scanning => ScanFrame(g, t, th, r); LatesSame(g, r.g);
    case Collecting => CollectFrame(g, t, th, r); LatesSame(g, r.g);
    case Running(c) => LatesRun(g, t, th, c, r);
    case Napping(c) => NapFrame(g, t, th, c, r); LatesSame(g, r.g);
    case Posting(c) => PostFrame(g, t, th, c, r); LatesSame(g, r.g);
    case Outside(c) => LatesOut(g, t, th, c, r);
  }

  lemma LatesOut(g: Shared, t: nat, th: Thread, c: Choice, r: Local)
    requires SharedOk(g) && ThreadOk(g, t, th) && OutsidePc(th.pc) && OutEnabled(g, t, th, c) && r == OutStep(g, t, th, c)
    requires Lates(g)
    ensures Lates(r.g)
  {
    if c.Ask? || c.SetTimer? || c.Watch? || c.WatchOther? || c.WatchEver? {
      LatesUser(g, th, if th.pc.Out? then c.owner else th.pc.p, c, false, r);
    } else {
      assert r.g.whens == g.whens;
      LatesSame(g, r.g);
    }
  }
}

/** The try-locks of queues and processes, and the mutex idle_lock. */
module MachineLocks {
  import opened Options
  import opened Machine
  import opened MachineShape
  import opened MachineTotals

  predicate HoldsMutex(th: Thread) {
    || th.pc.Recheck? || th.pc.GoIdle? || th.pc.LastTest? || th.pc.SayBye? || th.pc.Bye?
    || th.pc.Enter? || th.pc.Woken? || th.pc.Rouse? || th.pc.LeaveIdle?
    || th.send.SCheck? || th.send.SNotify? || th.send.SLeave?
  }

  /** Each lock word is the number of holders plus the failed attempts not yet undone, and a lock has
      at most one holder: AutoTryLock, eople_vm.h:35-77. */
  predicate QueueLock(s: State, q: nat)
    requires q < |s.g.qlock|
  {
    s.g.qlock[q] == Total(QWord(q), s.threads) && Total(QOwn(q), s.threads) <= 1
  }

  predicate ProcessLock(s: State, p: nat)
    requires p < |s.g.plock|
  {
    s.g.plock[p] == Total(PWord(p), s.threads) && Total(POwn(p), s.threads) <= 1
  }

  predicate Mutex(s: State) {
    && (forall t :: 0 <= t < |s.threads| ==> (HoldsMutex(s.threads[t]) <==> s.g.mutex == Some(t)))
    && (s.g.mutex.Some? ==> s.g.mutex.value < |s.threads|)
  }

  predicate Locks(s: State) {
    && (forall q :: 0 <= q < |s.g.qlock| ==> QueueLock(s, q))
    && (forall p :: 0 <= p < |s.g.plock| ==> ProcessLock(s, p))
    && Mutex(s)
  }

  /** The account of one step with a lock word: what the thread adds is what it now answers for, and
      it becomes the holder only when it found the word zero. */
  predicate QueueFair(g: Shared, th: Thread, r: Local, q: nat)
    requires |r.g.qlock| == |g.qlock| && q < |g.qlock|
  {
    && r.g.qlock[q] - Weight(QWord(q), r.th) == g.qlock[q] - Weight(QWord(q), th)
    && (OwnsQueue(r.th, q) ==> OwnsQueue(th, q) || g.qlock[q] == 0)
  }

  predicate ProcessFair(g: Shared, th: Thread, r: Local, p: nat)
    requires |r.g.plock| == |g.plock| && p < |g.plock|
  {
    && r.g.plock[p] - Weight(PWord(p), r.th) == g.plock[p] - Weight(PWord(p), th)
    && (OwnsProcess(r.th, p) ==> OwnsProcess(th, p) || g.plock[p] == 0)
  }

  lemma QueueScan(g: Shared, t: nat, th: Thread, r: Local, q: nat)
    requires SharedOk(g) && ThreadOk(g, t, th) && ScanPc(th.pc) && r == ScanStep(g, t, th) && q < |g.qlock|
    ensures |r.g.qlock| == |g.qlock| && QueueFair(g, th, r, q)
  {
  }

  lemma QueueCollect(g: Shared, t: nat, th: Thread, r: Local, q: nat)
    requires SharedOk(g) && ThreadOk(g, t, th) && th.pc.Hold? && r == CollectStep(g, t, th) && q < |g.qlock|
    ensures |r.g.qlock| == |g.qlock| && QueueFair(g, th, r, q)
  {
  }

  lemma QueuePost(g: Shared, t: nat, th: Thread, c: Choice, r: Local, q: nat)
    requires SharedOk(g) && ThreadOk(g, t, th) && PostEnabled(g, th, c) && r == PostStep(g, t, th, c) && q < |g.qlock|
    ensures |r.g.qlock| == |g.qlock| && QueueFair(g, th, r, q)
  {
  }

  lemma QueueStep(g: Shared, t: nat, th: Thread, a: Act, r: Local, q: nat)
    requires SharedOk(g) && ThreadOk(g, t, th) && ActEnabled(g, t, th, a) && r == ActStep(g, t, th, a)
    requires q < |g.qlock|
    ensures |r.g.qlock| == |g.qlock| && QueueFair(g, th, r, q)
  {
    match a
    case Scanning => QueueScan(g, t, th, r, q);
    case Collecting => QueueCollect(g, t, th, r, q);
    case Running(c) => RunFrame(g, t, th, c, r);
    case Napping(c) => NapFrame(g, t, th, c, r);
    case Posting(c) => QueuePost(g, t, th, c, r, q);
    case Outside(c) => OutFrame(g, t, th, c, r);
  }

  lemma ProcessScan(g: Shared, t: nat, th: Thread, r: Local, p: nat)
    requires SharedOk(g) && ThreadOk(g, t, th) && ScanPc(th.pc) && r == ScanStep(g, t, th) && p < |g.plock|
    ensures |r.g.plock| == |g.plock| && ProcessFair(g, th, r, p)
  {
  }

  lemma ProcessRun(g: Shared, t: nat, th: Thread, c: Choice, r: Local, p: nat)
    requires SharedOk(g) && ThreadOk(g, t, th) && th.pc.Run? && RunEnabled(g, t, th, c) && r == RunStep(g, t, th, c)
    requires p < |g.plock|
    ensures |r.g.plock| == |g.plock| && ProcessFair(g, th, r, p)
  {
    RunFrame(g, t, th, c, r);
    assert !th.pc.phase.Start? ==> r.g.plock == g.plock && r.th.pc.Run?;
  }

  lemma ProcessOut(g: Shared, t: nat, th: Thread, c: Choice, r: Local, p: nat)
    requires SharedOk(g) && ThreadOk(g, t, th) && OutsidePc(th.pc) && OutEnabled(g, t, th, c) && r == OutStep(g, t, th, c)
    requires p < |g.plock|
    ensures |r.g.plock| == |g.plock| && ProcessFair(g, th, r, p)
  {
  }

  lemma ProcessStep(g: Shared, t: nat, th: Thread, a: Act, r: Local, p: nat)
    requires SharedOk(g) && ThreadOk(g, t, th) && ActEnabled(g, t, th, a) && r == ActStep(g, t, th, a)
    requires p < |g.plock|
    ensures |r.g.plock| == |g.plock| && ProcessFair(g, th, r, p)
  {
    match a
    case Scanning => ProcessScan(g, t, th, r, p);
    case Collecting => CollectFrame(g, t, th, r);
    case Running(c) => ProcessRun(g, t, th, c, r, p);
    case Napping(c) => NapFrame(g, t, th, c, r);
    case Posting(c) => PostFrame(g, t, th, c, r);
    case Outside(c) => ProcessOut(g, t, th, c, r, p);
  }

  predicate MutexFair(g: Shared, t: nat, th: Thread, r: Local) {
    && ((HoldsMutex(th) <==> g.mutex == Some(t)) ==> (HoldsMutex(r.th) <==> r.g.mutex == Some(t)))
    && (r.g.mutex == g.mutex || (g.mutex == None && r.g.mutex == Some(t)) || (g.mutex == Some(t) && r.g.mutex == None))
  }

  lemma MutexNap(g: Shared, t: nat, th: Thread, c: Choice, r: Local)
    requires SharedOk(g) && ThreadOk(g, t, th) && NapPc(th.pc) && NapEnabled(g, th, c) && r == NapStep(g, t, th, c)
    requires HoldsMutex(th) <==> g.mutex == Some(t)
    ensures MutexFair(g, t, th, r)
  {
  }

  lemma MutexPost(g: Shared, t: nat, th: Thread, c: Choice, r: Local)
    requires SharedOk(g) && ThreadOk(g, t, th) && PostEnabled(g, th, c) && r == PostStep(g, t, th, c)
    requires HoldsMutex(th) <==> g.mutex == Some(t)
    ensures MutexFair(g, t, th, r)
  {
  }

  lemma MutexStep(g: Shared, t: nat, th: Thread, a: Act, r: Local)
    requires SharedOk(g) && ThreadOk(g, t, th) && ActEnabled(g, t, th, a) && r == ActStep(g, t, th, a)
    requires HoldsMutex(th) <==> g.mutex == Some(t)
    ensures MutexFair(g, t, th, r)
  {
    match a
    case Scanning => ScanFrame(g, t, th, r);
    case Collecting => CollectFrame(g, t, th, r);
    case Running(c) => RunFrame(g, t, th, c, r);
    case Napping(c) => MutexNap(g, t, th, c, r);
    case Posting(c) => MutexPost(g, t, th, c, r);
    case Outside(c) => OutFrame(g, t, th, c, r);
  }

  /** If every thread gives a word to one queue's or process's sum, a zero word has no holder. */
  lemma NoHolder(own: Measure, word: Measure, ts: seq<Thread>)
    requires (own.QOwn? && word == QWord(own.q)) || (own.POwn? && word == PWord(own.p))
    requires Total(word, ts) == 0
    ensures Total(own, ts) == 0
  {
    if Total(own, ts) > 0 {
      var t := TotalWitness(own, ts);
      TotalBound(word, ts, t);
    }
  }

  lemma QueueLockStep(s: State, t: nat, a: Act, r: Local, q: nat)
    requires Shape(s) && t < |s.threads| && ActEnabled(s.g, t, s.threads[t], a) && r == ActStep(s.g, t, s.threads[t], a)
    requires q < |s.g.qlock| && QueueLock(s, q)
    ensures |r.g.qlock| == |s.g.qlock| && QueueLock(State(r.g, s.threads[t := r.th]), q)
  {
    QueueStep(s.g, t, s.threads[t], a, r, q);
    TotalUpdate(QWord(q), s.threads, t, r.th);
    TotalUpdate(QOwn(q), s.threads, t, r.th);
    if s.g.qlock[q] == 0 { NoHolder(QOwn(q), QWord(q), s.threads); }
  }

  lemma ProcessLockStep(s: State, t: nat, a: Act, r: Local, p: nat)
    requires Shape(s) && t < |s.threads| && ActEnabled(s.g, t, s.threads[t], a) && r == ActStep(s.g, t, s.threads[t], a)
    requires p < |s.g.plock| && ProcessLock(s, p)
    ensures |r.g.plock| == |s.g.plock| && ProcessLock(State(r.g, s.threads[t := r.th]), p)
  {
    ProcessStep(s.g, t, s.threads[t], a, r, p);
    TotalUpdate(PWord(p), s.threads, t, r.th);
    TotalUpdate(POwn(p), s.threads, t, r.th);
    if s.g.plock[p] == 0 { NoHolder(POwn(p), PWord(p), s.threads); }
  }

  lemma LocksStep(s: State, e: Event, s1: State)
    requires Shape(s) && Enabled(s, e) && s1 == Next(s, e) && Locks(s)
    ensures Locks(s1)
  {
    if e.Act? {
      var t, r := e.t, Local(s1.g, s1.threads[e.t]);
      ActShape(s.g, t, s.threads[t], e.a, r);
      forall q | 0 <= q < |s.g.qlock| ensures QueueLock(s1, q) { QueueLockStep(s, t, e.a, r, q); }
      forall p | 0 <= p < |s.g.plock| ensures ProcessLock(s1, p) { ProcessLockStep(s, t, e.a, r, p); }
      assert HoldsMutex(s.threads[t]) <==> s.g.mutex == Some(t);
      MutexStep(s.g, t, s.threads[t], e.a, r);
      assert Mutex(s1);
    } else {
      forall q | 0 <= q < |s.g.qlock| ensures QueueLock(s1, q) { assert QueueLock(s, q); }
      forall p | 0 <= p < |s.g.plock| ensures ProcessLock(s1, p) { assert ProcessLock(s, p); }
    }
  }

  /** No two threads hold the same queue, and no two threads run the same process. */
  lemma Exclusion(s: State, t: nat, u: nat)
    requires Shape(s) && Locks(s) && t < |s.threads| && u < |s.threads|
    ensures forall q :: 0 <= q < |s.g.qlock| && OwnsQueue(s.threads[t], q) && OwnsQueue(s.threads[u], q) ==> t == u
    ensures forall p :: 0 <= p < |s.g.plock| && OwnsProcess(s.threads[t], p) && OwnsProcess(s.threads[u], p) ==> t == u
    ensures HoldsMutex(s.threads[t]) && HoldsMutex(s.threads[u]) ==> t == u
  {
    forall q | 0 <= q < |s.g.qlock| && OwnsQueue(s.threads[t], q) && OwnsQueue(s.threads[u], q) ensures t == u {
      assert QueueLock(s, q);
      if t < u { TotalTwo(QOwn(q), s.threads, t, u); } else if u < t { TotalTwo(QOwn(q), s.threads, u, t); }
    }
    forall p | 0 <= p < |s.g.plock| && OwnsProcess(s.threads[t], p) && OwnsProcess(s.threads[u], p) ensures t == u {
      assert ProcessLock(s, p);
      if t < u { TotalTwo(POwn(p), s.threads, t, u); } else if u < t { TotalTwo(POwn(p), s.threads, u, t); }
    }
  }

  lemma LocksInit(s: State)
    requires Init(s)
    ensures Shape(s) && Locks(s)
  {
    forall q | 0 <= q < |s.g.qlock| ensures QueueLock(s, q) {
      TotalZero(QWord(q), s.threads);
      TotalZero(QOwn(q), s.threads);
    }
    forall p | 0 <= p < |s.g.plock| ensures ProcessLock(s, p) {
      TotalZero(PWord(p), s.threads);
      TotalZero(POwn(p), s.threads);
    }
  }
}

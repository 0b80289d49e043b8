/** idle_count and message_count. */
module MachineCount {
  import opened Machine
  import opened MachineShape
  import opened MachineTotals

  /** idle_count is the number of cores asleep, about to be, or gone. */
  predicate IdleCount(s: State) {
    s.g.idle == Total(Idler, s.threads) && |s.g.queues| == s.g.idle + Total(Awake, s.threads)
  }

  /** message_count, as a u32, plus the senders past their push but not their increment, equals the
      queued messages plus what the cores still owe. */
  predicate Account(s: State) {
    && 0 <= s.g.count < WORD
    && Balance(s) % WORD == 0
  }

  function Balance(s: State): int {
    s.g.count + Total(PastPush, s.threads) - Load(s.g.queues) - Total(Debt, s.threads)
  }

  predicate IdleFair(g: Shared, th: Thread, r: Local) {
    && r.g.idle - Weight(Idler, r.th) == g.idle - Weight(Idler, th)
    && Weight(Idler, r.th) + Weight(Awake, r.th) == Weight(Idler, th) + Weight(Awake, th)
    && |r.g.queues| == |g.queues|
  }

  lemma IdleNap(g: Shared, t: nat, th: Thread, c: Choice, r: Local)
    requires SharedOk(g) && ThreadOk(g, t, th) && NapPc(th.pc) && NapEnabled(g, th, c) && r == NapStep(g, t, th, c)
    ensures IdleFair(g, th, r)
  {
  }

  lemma IdleStep(g: Shared, t: nat, th: Thread, a: Act, r: Local)
    requires SharedOk(g) && ThreadOk(g, t, th) && ActEnabled(g, t, th, a) && r == ActStep(g, t, th, a)
    ensures IdleFair(g, th, r)
  {
    match a
    case Scanning => ScanFrame(g, t, th, r);
    case Collecting => CollectFrame(g, t, th, r);
    case Running(c) => RunFrame(g, t, th, c, r);
    case Napping(c) => IdleNap(g, t, th, c, r);
    case Posting(c) => PostFrame(g, t, th, c, r);
    case Outside(c) => OutFrame(g, t, th, c, r);
  }

  /** How far one step moves the account; a wrapped subtraction or increment moves it by 2^32. */
  function Drift(g: Shared, th: Thread, r: Local): int {
    (r.g.count - g.count) + (Weight(PastPush, r.th) - Weight(PastPush, th))
    - (Load(r.g.queues) - Load(g.queues)) - (Weight(Debt, r.th) - Weight(Debt, th))
  }

  predicate CountFair(g: Shared, th: Thread, r: Local) {
    0 <= r.g.count < WORD && Drift(g, th, r) in {0, WORD, -WORD}
  }

  lemma CountDrain(g: Shared, t: nat, th: Thread, r: Local)
    requires SharedOk(g) && ThreadOk(g, t, th) && th.pc.Hold? && th.pc.stage.Draining? && r == CollectStep(g, t, th)
    requires 0 <= g.count < WORD
    ensures CountFair(g, th, r)
  {
    if r.g.queues != g.queues { LoadUpdate(g.queues, th.pc.q, r.g.queues[th.pc.q]); }
  }

  lemma CountReturn(g: Shared, t: nat, th: Thread, r: Local)
    requires SharedOk(g) && ThreadOk(g, t, th) && th.pc.Hold? && !th.pc.stage.Draining? && r == CollectStep(g, t, th)
    requires 0 <= g.count < WORD
    ensures CountFair(g, th, r)
  {
    if th.pc.stage.Requeue? && th.pc.future != [] { LoadUpdate(g.queues, th.pc.q, r.g.queues[th.pc.q]); }
  }

  lemma CountCollect(g: Shared, t: nat, th: Thread, r: Local)
    requires SharedOk(g) && ThreadOk(g, t, th) && th.pc.Hold? && r == CollectStep(g, t, th) && 0 <= g.count < WORD
    ensures CountFair(g, th, r)
  {
    if th.pc.stage.Draining? { CountDrain(g, t, th, r); } else { CountReturn(g, t, th, r); }
  }

  lemma CountNap(g: Shared, t: nat, th: Thread, c: Choice, r: Local)
    requires SharedOk(g) && ThreadOk(g, t, th) && NapPc(th.pc) && NapEnabled(g, th, c) && r == NapStep(g, t, th, c)
    requires 0 <= g.count < WORD
    ensures CountFair(g, th, r)
  {
    NapFrame(g, t, th, c, r);
  }

  lemma CountPost(g: Shared, t: nat, th: Thread, c: Choice, r: Local)
    requires SharedOk(g) && ThreadOk(g, t, th) && PostEnabled(g, th, c) && r == PostStep(g, t, th, c) && 0 <= g.count < WORD
    ensures CountFair(g, th, r)
  {
    PostFrame(g, t, th, c, r);
    assert Weight(Debt, r.th) == Weight(Debt, th);
    if th.send.SPush? {
      LoadUpdate(g.queues, th.send.q, r.g.queues[th.send.q]);
      assert |r.g.queues[th.send.q]| == |g.queues[th.send.q]| + 1;
    }
  }

  lemma CountRun(g: Shared, t: nat, th: Thread, c: Choice, r: Local)
    requires SharedOk(g) && ThreadOk(g, t, th) && th.pc.Run? && RunEnabled(g, t, th, c) && r == RunStep(g, t, th, c)
    requires 0 <= g.count < WORD
    ensures CountFair(g, th, r)
  {
    RunFrame(g, t, th, c, r);
    assert r.th.pc.Settle? ==> r.th.pc.n == |th.pc.taken|;
  }

  lemma CountStep(g: Shared, t: nat, th: Thread, a: Act, r: Local)
    requires SharedOk(g) && ThreadOk(g, t, th) && ActEnabled(g, t, th, a) && r == ActStep(g, t, th, a) && 0 <= g.count < WORD
    ensures CountFair(g, th, r)
  {
    match a
    case Scanning => ScanFrame(g, t, th, r); assert r.th.pc.Hold? ==> Weight(Debt, r.th) == 0;
    case Collecting => CountCollect(g, t, th, r);
    case Running(c) => CountRun(g, t, th, c, r);
    case Napping(c) => CountNap(g, t, th, c, r);
    case Posting(c) => CountPost(g, t, th, c, r);
    case Outside(c) => OutFrame(g, t, th, c, r);
  }

  lemma WrapStep(b: int, d: int)
    requires b % WORD == 0 && d in {0, WORD, -WORD}
    ensures (b + d) % WORD == 0
  {
  }

  lemma IdleCountStep(s: State, t: nat, r: Local)
    requires t < |s.threads| && IdleFair(s.g, s.threads[t], r) && IdleCount(s)
    ensures IdleCount(State(r.g, s.threads[t := r.th]))
  {
    TotalUpdate(Idler, s.threads, t, r.th);
    TotalUpdate(Awake, s.threads, t, r.th);
  }

  lemma AccountStep(s: State, t: nat, r: Local)
    requires t < |s.threads| && CountFair(s.g, s.threads[t], r) && Account(s)
    ensures Account(State(r.g, s.threads[t := r.th]))
  {
    var s1 := State(r.g, s.threads[t := r.th]);
    TotalUpdate(PastPush, s.threads, t, r.th);
    TotalUpdate(Debt, s.threads, t, r.th);
    var d := Drift(s.g, s.threads[t], r);
    assert Balance(s1) == Balance(s) + d;
    WrapStep(Balance(s), d);
  }

  lemma CountsStep(s: State, e: Event, s1: State)
    requires Shape(s) && Enabled(s, e) && s1 == Next(s, e) && IdleCount(s) && Account(s)
    ensures IdleCount(s1) && Account(s1)
  {
    if e.Act? {
      var th, r := s.threads[e.t], Local(s1.g, s1.threads[e.t]);
      IdleStep(s.g, e.t, th, e.a, r);
      CountStep(s.g, e.t, th, e.a, r);
      IdleCountStep(s, e.t, r);
      AccountStep(s, e.t, r);
    }
  }

  lemma CountsInit(s: State)
    requires Init(s)
    ensures IdleCount(s) && Account(s)
  {
    TotalZero(Idler, s.threads);
    TotalPrefix(Awake, s.threads, |s.g.queues|);
    TotalZero(PastPush, s.threads);
    TotalZero(Debt, s.threads);
    LoadZero(s.g.queues);
  }

  /** When every core is idle and nobody sends, message_count is the number of queued messages. */
  lemma RestingCount(s: State)
    requires Shape(s) && IdleCount(s) && Account(s) && s.g.idle == |s.g.queues|
    requires forall t :: 0 <= t < |s.threads| ==> s.threads[t].send.NoSend?
    ensures s.g.count == Load(s.g.queues) % WORD
    ensures forall t :: 0 <= t < |s.threads| ==> !s.threads[t].pc.Hold? && !s.threads[t].pc.Run?
  {
    forall t | 0 <= t < |s.threads| ensures Weight(Awake, s.threads[t]) == Weight(Debt, s.threads[t]) == 0 {
      TotalBound(Awake, s.threads, t);
    }
    TotalZero(PastPush, s.threads);
    TotalZero(Debt, s.threads);
  }
}

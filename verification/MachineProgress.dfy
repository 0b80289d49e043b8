/** What a scan reaches: every core tries every queue, and the first message of a free queue can be delivered. */
module MachineProgress {
  import opened Options
  import opened Machine
  import opened MachineShape
  import opened MachineTotals
  import opened MachineLocks
  import opened MachineRuns

  // ---------------------------------------------------------------- one scan

  /** Of the n steps of a scan exactly one tries queue q, for every core and every queue. */
  lemma {:induction false} OneTryEach(g: Shared, t: nat, tries: nat, q: nat) returns (j: nat)
    requires SharedOk(g) && t < |g.queues| && q < |g.queues|
    ensures j < |g.queues|
    ensures forall k: nat :: k < |g.queues| ==>
      && ThreadOk(g, t, Thread(Scan(k), NoSend, tries))
      && ScanStep(g, t, Thread(Scan(k), NoSend, tries)).g.qlock[q] == g.qlock[q] + if k == j then 1 else 0
  {
    j := Turn(|g.queues|, t, q);
    forall k: nat | k < |g.queues|
      ensures ThreadOk(g, t, Thread(Scan(k), NoSend, tries))
      ensures ScanStep(g, t, Thread(Scan(k), NoSend, tries)).g.qlock[q] == g.qlock[q] + if k == j then 1 else 0
    {
      if k != j { OneTurn(|g.queues|, t, j, k); }
    }
  }

  lemma Turn(n: nat, t: nat, q: nat) returns (j: nat)
    requires t < n && q < n
    ensures j < n && (j + t + 1) % n == q
  {
    j := if q >= t + 1 then q - t - 1 else q + n - t - 1;
    if q < t + 1 { assert (q + n) % n == q; }
  }

  lemma OneTurn(n: nat, t: nat, j: nat, k: nat)
    requires t < n && j < n && k < n && j != k
    ensures (j + t + 1) % n != (k + t + 1) % n
  {
    Mod(n, j + t + 1);
    Mod(n, k + t + 1);
  }

  lemma Mod(n: nat, x: nat)
    requires 0 < n && x < 2 * n
    ensures x % n == if x < n then x else x - n
  {
    if x >= n { assert x % n == (x - n) % n; }
  }

  /** The thread is at queue j of its scan: at 2j before it tries the lock, at 2j + 1 until it is done with it. */
  function Place(pc: Pc): Option<nat> {
    match pc
    case Scan(j) => Some(2 * j)
    case QFail(j, _) => Some(2 * j + 1)
    case QLook(j, _) => Some(2 * j + 1)
    case QSkip(j, _) => Some(2 * j + 1)
    case PTry(j, _, _, _) => Some(2 * j + 1)
    case PFail(j, _, _) => Some(2 * j + 1)
    case Hold(j, _, _, _, _, _, _) => Some(2 * j + 1)
    case Run(j, _, _, _, _) => Some(2 * j + 1)
    case Settle(j, _) => Some(2 * j + 1)
    case _ => None
  }

  /** Event e tries the lock of queue q on behalf of core t. */
  predicate Tries(s: State, e: Event, t: nat, q: nat)
    requires Shape(s) && Enabled(s, e) && q < |s.g.queues|
  {
    e.Act? && e.t == t && s.threads[t].pc.Scan? && Next(s, e).g.qlock[q] == s.g.qlock[q] + 1
  }

  /** How often the events try queue q on behalf of core t. */
  ghost function Attempts(s: State, es: seq<Event>, t: nat, q: nat): nat
    requires Replay(s, es).Some?
    decreases |es|
  {
    if es == [] then 0
    else
      var most, e := es[..|es| - 1], es[|es| - 1];
      LastEvent(s, es);
      var before := Replay(s, most).value;
      Attempts(s, most, t, q) + if q < |before.g.queues| && Tries(before, e, t, q) then 1 else 0
  }

  /** Core t does not go on behind the end of its scan. */
  ghost predicate WithinScan(s: State, es: seq<Event>, t: nat)
    requires Replay(s, es).Some?
    decreases |es|
  {
    if es == [] then true
    else
      var most, e := es[..|es| - 1], es[|es| - 1];
      LastEvent(s, es);
      var before := Replay(s, most).value;
      WithinScan(s, most, t) && (e.Act? && e.t == t ==> before.threads[t].pc != Scan(|before.g.queues|))
  }

  /** Whatever the other threads do meanwhile, in one scan a core tries every queue exactly once. */
  lemma {:induction false} WholeScan(s: State, es: seq<Event>, s1: State, t: nat, q: nat)
    requires Shape(s) && Replay(s, es) == Some(s1) && t < |s.g.queues| && q < |s.g.queues| && WithinScan(s, es, t)
    requires s.threads[t].pc == Scan(0) && t < |s1.threads| && s1.threads[t].pc == Scan(|s.g.queues|)
    ensures Attempts(s, es, t, q) == 1
  {
    var k := Turn(|s.g.queues|, t, q);
    ScanSoFar(s, es, s1, t, q, k);
  }

  lemma {:induction false} ScanSoFar(s: State, es: seq<Event>, s1: State, t: nat, q: nat, k: nat)
    requires Shape(s) && Replay(s, es) == Some(s1) && t < |s.g.queues| && q < |s.g.queues| && WithinScan(s, es, t)
    requires s.threads[t].pc == Scan(0) && k < |s.g.queues| && (k + t + 1) % |s.g.queues| == q
    ensures Shape(s1) && |s1.g.queues| == |s.g.queues| && Place(s1.threads[t].pc).Some?
    ensures Attempts(s, es, t, q) == if Place(s1.threads[t].pc).value > 2 * k then 1 else 0
    decreases |es|
  {
    if es != [] {
      var most, e := es[..|es| - 1], es[|es| - 1];
      LastEvent(s, es);
      var before := Replay(s, most).value;
      ScanSoFar(s, most, before, t, q, k);
      NextShape(before, e, s1);
      if e.Act? && e.t == t { ScanMoves(before.g, t, before.threads[t], e.a, Local(s1.g, s1.threads[t]), q, k); }
    }
  }

  lemma {:induction false} ScanMoves(g: Shared, t: nat, th: Thread, a: Act, r: Local, q: nat, k: nat)
    requires SharedOk(g) && ThreadOk(g, t, th) && ActEnabled(g, t, th, a) && r == ActStep(g, t, th, a)
    requires t < |g.queues| && q < |g.queues| && k < |g.queues| && (k + t + 1) % |g.queues| == q
    requires Place(th.pc).Some? && th.pc != Scan(|g.queues|)
    ensures |r.g.qlock| == |g.qlock| && Place(r.th.pc).Some? && Place(th.pc).value <= Place(r.th.pc).value <= Place(th.pc).value + 1
    ensures th.pc.Scan? ==> !r.th.pc.Scan? && (r.g.qlock[q] == g.qlock[q] + 1 <==> th.pc.j == k)
  {
    match a
    case Scanning => if th.pc.Scan? && th.pc.j != k { OneTurn(|g.queues|, t, th.pc.j, k); }
    case Collecting => CollectPlace(g, t, th, r);
    case Running(c) => RunPlace(g, t, th, c, r);
    case Napping(c) =>
    case Posting(c) => PostFrame(g, t, th, c, r);
    case Outside(c) =>
  }

  lemma CollectPlace(g: Shared, t: nat, th: Thread, r: Local)
    requires SharedOk(g) && ThreadOk(g, t, th) && th.pc.Hold? && r == CollectStep(g, t, th)
    ensures |r.g.qlock| == |g.qlock| && Place(r.th.pc) == Place(th.pc)
  {
  }

  lemma RunPlace(g: Shared, t: nat, th: Thread, c: Choice, r: Local)
    requires SharedOk(g) && ThreadOk(g, t, th) && th.pc.Run? && RunEnabled(g, t, th, c) && r == RunStep(g, t, th, c)
    ensures r.g.qlock == g.qlock && Place(r.th.pc) == Place(th.pc)
  {
  }

  /** A core goes to sleep only at the end of a scan, and only after more than ten scans since its last batch, its last
      nap or its start: `tries` counts them. */
  lemma {:induction false} NapsAfterTen(g: Shared, t: nat, th: Thread, a: Act, r: Local)
    requires SharedOk(g) && ThreadOk(g, t, th) && ActEnabled(g, t, th, a) && r == ActStep(g, t, th, a)
    ensures r.th.pc.Nap? && !th.pc.Nap? <==> th.pc == Scan(|g.queues|) && th.tries > 10
    ensures r.th.tries ==
      if th.pc.Top? then th.tries + 1
      else if (th.pc == Scan(|g.queues|) && th.tries > 10) || (th.pc.Settle? && th.pc.n > 0) then 0
      else th.tries
  {
    match a
    case Scanning =>
    case Collecting => CollectTries(g, t, th, r);
    case Running(c) => RunTries(g, t, th, c, r);
    case Napping(c) =>
    case Posting(c) => PostTries(g, t, th, c, r);
    case Outside(c) => OutTries(g, t, th, c, r);
  }

  lemma CollectTries(g: Shared, t: nat, th: Thread, r: Local)
    requires SharedOk(g) && ThreadOk(g, t, th) && th.pc.Hold? && r == CollectStep(g, t, th)
    ensures r.th.tries == th.tries && !r.th.pc.Nap?
  {
  }

  lemma RunTries(g: Shared, t: nat, th: Thread, c: Choice, r: Local)
    requires SharedOk(g) && ThreadOk(g, t, th) && th.pc.Run? && RunEnabled(g, t, th, c) && r == RunStep(g, t, th, c)
    ensures r.th.tries == th.tries && !r.th.pc.Nap?
  {
    RunFrame(g, t, th, c, r);
  }

  lemma PostTries(g: Shared, t: nat, th: Thread, c: Choice, r: Local)
    requires SharedOk(g) && ThreadOk(g, t, th) && PostEnabled(g, th, c) && r == PostStep(g, t, th, c)
    ensures r.th == th.(send := r.th.send) && !th.pc.Top? && !th.pc.Settle? && !th.pc.Scan? && !th.pc.Nap?
  {
  }

  lemma OutTries(g: Shared, t: nat, th: Thread, c: Choice, r: Local)
    requires SharedOk(g) && ThreadOk(g, t, th) && OutsidePc(th.pc) && OutEnabled(g, t, th, c) && r == OutStep(g, t, th, c)
    ensures r.th.tries == th.tries && OutsidePc(r.th.pc)
  {
  }

  // ---------------------------------------------------------------- runs, piece by piece

  ghost predicate Leads(s: State, s1: State) {
    exists es :: Replay(s, es) == Some(s1)
  }

  lemma LeadsStep(s: State, e: Event, s1: State)
    requires Shape(s) && Enabled(s, e) && s1 == Next(s, e)
    ensures Leads(s, s1)
  {
    var es := [e];
    assert es[..0] == [];
    LastEvent(s, es);
    assert Replay(s, es) == Some(s1);
  }

  lemma {:induction false} Joined(s: State, es: seq<Event>, s1: State, fs: seq<Event>, s2: State)
    requires Replay(s, es) == Some(s1) && Replay(s1, fs) == Some(s2)
    ensures Replay(s, es + fs) == Some(s2)
  {
    if fs == [] {
      assert es + fs == es;
    } else {
      var n := |fs| - 1;
      LastEvent(s1, fs);
      Joined(s, es, s1, fs[..n], Replay(s1, fs[..n]).value);
      assert (es + fs)[..|es + fs| - 1] == es + fs[..n];
      LastEvent(s, es + fs);
    }
  }

  /** s1 is reached from s, the locks still count right, and what was delivered stays delivered. */
  ghost predicate Goes(s: State, s1: State) {
    && Leads(s, s1) && Shape(s1) && Locks(s1)
    && |s1.threads| == |s.threads| && |s1.g.queues| == |s.g.queues| && |s1.g.plock| == |s.g.plock|
    && s.g.now <= s1.g.now && s.g.past.done <= s1.g.past.done
  }

  lemma Stays(s: State)
    requires Shape(s) && Locks(s)
    ensures Goes(s, s)
  {
    assert Replay(s, []) == Some(s);
  }

  lemma Then(s: State, s1: State, s2: State)
    requires Goes(s, s1) && Goes(s1, s2)
    ensures Goes(s, s2)
  {
    var es :| Replay(s, es) == Some(s1);
    var fs :| Replay(s1, fs) == Some(s2);
    Joined(s, es, s1, fs, s2);
  }

  lemma ActKeeps(g: Shared, t: nat, th: Thread, a: Act, r: Local)
    requires SharedOk(g) && ThreadOk(g, t, th) && ActEnabled(g, t, th, a) && r == ActStep(g, t, th, a)
    ensures r.g.now == g.now && g.past.done <= r.g.past.done
  {
    match a
    case Scanning => ScanFrame(g, t, th, r);
    case Collecting => CollectFrame(g, t, th, r);
    case Running(c) => RunFrame(g, t, th, c, r); RunKeeps(g, t, th, c, r);
    case Napping(c) => NapFrame(g, t, th, c, r);
    case Posting(c) => PostFrame(g, t, th, c, r);
    case Outside(c) => OutFrame(g, t, th, c, r);
  }

  lemma RunKeeps(g: Shared, t: nat, th: Thread, c: Choice, r: Local)
    requires SharedOk(g) && ThreadOk(g, t, th) && th.pc.Run? && RunEnabled(g, t, th, c) && r == RunStep(g, t, th, c)
    ensures g.past.done <= r.g.past.done
  {
  }

  /** One step. */
  lemma Moves(s: State, t: nat, a: Act, r: Local)
    requires Shape(s) && Locks(s) && t < |s.threads| && ThreadOk(s.g, t, s.threads[t])
    requires ActEnabled(s.g, t, s.threads[t], a) && r == ActStep(s.g, t, s.threads[t], a)
    ensures Goes(s, State(r.g, s.threads[t := r.th]))
  {
    var s1 := State(r.g, s.threads[t := r.th]);
    LeadsStep(s, Act(t, a), s1);
    NextShape(s, Act(t, a), s1);
    LocksStep(s, Act(t, a), s1);
    ActKeeps(s.g, t, s.threads[t], a, r);
  }

  lemma Waits(s: State, dt: nat) returns (s1: State)
    requires Shape(s) && Locks(s)
    ensures s1 == s.(g := s.g.(now := s.g.now + dt)) && Goes(s, s1)
  {
    s1 := Next(s, Tick(dt));
    LeadsStep(s, Tick(dt), s1);
    NextShape(s, Tick(dt), s1);
    LocksStep(s, Tick(dt), s1);
  }

  lemma Scans(s: State, t: nat) returns (s1: State)
    requires Shape(s) && Locks(s) && t < |s.threads| && ScanPc(s.threads[t].pc)
    ensures ThreadOk(s.g, t, s.threads[t])
    ensures var r := ScanStep(s.g, t, s.threads[t]); s1 == State(r.g, s.threads[t := r.th]) && Goes(s, s1)
  {
    assert ThreadOk(s.g, t, s.threads[t]);
    var r := ScanStep(s.g, t, s.threads[t]);
    s1 := State(r.g, s.threads[t := r.th]);
    Moves(s, t, Scanning, r);
  }

  lemma Collects(s: State, t: nat) returns (s1: State)
    requires Shape(s) && Locks(s) && t < |s.threads| && s.threads[t].pc.Hold?
    ensures ThreadOk(s.g, t, s.threads[t])
    ensures var r := CollectStep(s.g, t, s.threads[t]); s1 == State(r.g, s.threads[t := r.th]) && Goes(s, s1)
  {
    assert ThreadOk(s.g, t, s.threads[t]);
    var r := CollectStep(s.g, t, s.threads[t]);
    s1 := State(r.g, s.threads[t := r.th]);
    Moves(s, t, Collecting, r);
  }

  lemma Runs(s: State, t: nat, c: Choice) returns (s1: State)
    requires Shape(s) && Locks(s) && t < |s.threads| && s.threads[t].pc.Run?
    requires ThreadOk(s.g, t, s.threads[t]) ==> RunEnabled(s.g, t, s.threads[t], c)
    ensures ThreadOk(s.g, t, s.threads[t])
    ensures var r := RunStep(s.g, t, s.threads[t], c); s1 == State(r.g, s.threads[t := r.th]) && Goes(s, s1)
  {
    assert ThreadOk(s.g, t, s.threads[t]);
    var r := RunStep(s.g, t, s.threads[t], c);
    s1 := State(r.g, s.threads[t := r.th]);
    Moves(s, t, Running(c), r);
  }

  lemma Naps(s: State, t: nat, c: Choice) returns (s1: State)
    requires Shape(s) && Locks(s) && t < |s.threads| && NapPc(s.threads[t].pc) && NapEnabled(s.g, s.threads[t], c)
    ensures ThreadOk(s.g, t, s.threads[t])
    ensures var r := NapStep(s.g, t, s.threads[t], c); s1 == State(r.g, s.threads[t := r.th]) && Goes(s, s1)
  {
    assert ThreadOk(s.g, t, s.threads[t]);
    var r := NapStep(s.g, t, s.threads[t], c);
    s1 := State(r.g, s.threads[t := r.th]);
    Moves(s, t, Napping(c), r);
  }

  lemma Posts(s: State, t: nat, c: Choice) returns (s1: State)
    requires Shape(s) && Locks(s) && t < |s.threads| && PostEnabled(s.g, s.threads[t], c)
    ensures ThreadOk(s.g, t, s.threads[t])
    ensures var r := PostStep(s.g, t, s.threads[t], c); s1 == State(r.g, s.threads[t := r.th]) && Goes(s, s1)
  {
    assert ThreadOk(s.g, t, s.threads[t]);
    var r := PostStep(s.g, t, s.threads[t], c);
    s1 := State(r.g, s.threads[t := r.th]);
    Moves(s, t, Posting(c), r);
  }

  // ---------------------------------------------------------------- letting a queue go

  /** What a core does with queue k from the moment it has the lock: the rest of the machine as far as the way to
      another queue is concerned. */
  ghost predicate OnlyAt(g: Shared, g1: Shared, k: nat) {
    && |g.qlock| == |g.queues| == |g1.qlock| == |g1.queues| && 0 < |g.queues| && |g1.plock| == |g.plock|
    && (forall i :: 0 <= i < |g.queues| && i != k ==> g1.queues[i] == g.queues[i] && g1.qlock[i] == g.qlock[i])
    && (forall p :: 0 <= p < |g.plock| && p % |g.queues| != k ==> g1.plock[p] == g.plock[p])
  }

  function Rank(pc: Pc): nat {
    match pc
    case QLook(_, _) => 6
    case PTry(_, _, _, _) => 5
    case Hold(_, _, _, _, _, _, stage) => if stage.Draining? then 4 else if stage.Early? then 3 else 2
    case PFail(_, _, _) => 1
    case _ => 0
  }

  function Work(g: Shared, pc: Pc): nat {
    if pc.Hold? && pc.stage.Draining? && pc.q < |g.queues| then |g.queues[pc.q]|
    else if pc.Hold? && pc.stage.Requeue? then |pc.future|
    else 0
  }

  predicate HasQueue(pc: Pc) {
    pc.QLook? || pc.QSkip? || pc.PTry? || pc.PFail? || pc.Hold?
  }

  /** A core that holds a queue lets it go: it goes on to the next queue, or delivers the batch it has collected. */
  lemma {:induction false} LetsGo(s: State, u: nat) returns (s1: State)
    requires Shape(s) && Locks(s) && u < |s.threads| && HasQueue(s.threads[u].pc) && s.threads[u].pc.q < |s.g.qlock|
    ensures Goes(s, s1) && s1.threads == s.threads[u := s1.threads[u]]
    ensures OnlyAt(s.g, s1.g, s.threads[u].pc.q) && s1.g.qlock[s.threads[u].pc.q] == s.g.qlock[s.threads[u].pc.q] - 1
    ensures s1.g.mutex == s.g.mutex
    ensures var pc, th := s.threads[u].pc, s1.threads[u];
      && th.send.NoSend?
      && (th.pc == Scan(pc.j + 1) || (th.pc.Run? && th.pc.j == pc.j && th.pc.f == 0 && th.pc.phase.Start?))
      && (pc.Hold? && pc.taken != [] ==> th.pc.Run? && th.pc.taken != [] && th.pc.taken[0] == pc.taken[0])
    decreases Rank(s.threads[u].pc), Work(s.g, s.threads[u].pc)
  {
    var pc := s.threads[u].pc;
    var s0: State;
    if pc.Hold? { s0 := Collects(s, u); } else { s0 := Scans(s, u); }
    HoldsStep(s, u, s0);
    if HasQueue(s0.threads[u].pc) {
      s1 := LetsGo(s0, u);
      Then(s, s0, s1);
    } else {
      s1 := s0;
    }
  }

  /** One step on the way. */
  lemma {:induction false} HoldsStep(s: State, u: nat, s0: State)
    requires Shape(s) && u < |s.threads| && HasQueue(s.threads[u].pc) && ThreadOk(s.g, u, s.threads[u])
    requires var r := if s.threads[u].pc.Hold? then CollectStep(s.g, u, s.threads[u]) else ScanStep(s.g, u, s.threads[u]);
      s0 == State(r.g, s.threads[u := r.th])
    ensures var pc, pc0 := s.threads[u].pc, s0.threads[u].pc;
      && OnlyAt(s.g, s0.g, pc.q) && s0.g.mutex == s.g.mutex && s0.threads[u].send.NoSend?
      && (if HasQueue(pc0) then
           && s0.g.qlock == s.g.qlock && pc0.q == pc.q && pc0.j == pc.j
           && (Rank(pc0) < Rank(pc) || (Rank(pc0) == Rank(pc) && Work(s0.g, pc0) < Work(s.g, pc)))
           && (pc.Hold? && pc.taken != [] ==> pc0.Hold? && pc0.taken != [] && pc0.taken[0] == pc.taken[0])
         else
           && s0.g.qlock[pc.q] == s.g.qlock[pc.q] - 1
           && (pc0 == Scan(pc.j + 1) || (pc0.Run? && pc0.j == pc.j && pc0.f == 0 && pc0.phase.Start?))
           && (pc.Hold? ==> pc0.Run? && pc0.taken == pc.taken))
  {
    var pc := s.threads[u].pc;
    if pc.Hold? {
      CollectFrame(s.g, u, s.threads[u], Local(s0.g, s0.threads[u]));
    } else {
      ScanFrame(s.g, u, s.threads[u], Local(s0.g, s0.threads[u]));
    }
  }

  // ---------------------------------------------------------------- the batch

  /** The messages that are due at the given time, or those that are not, in their order. */
  function Sift(ms: seq<Msg>, time: int, due: bool): seq<Msg> {
    if ms == [] then []
    else
      var rest := Sift(ms[..|ms| - 1], time, due);
      if (ms[|ms| - 1].time <= time) == due then rest + [ms[|ms| - 1]] else rest
  }

  /** The first n messages of the old queue are in hand. */
  ghost predicate Drained(queue: seq<Msg>, n: nat, left: seq<Msg>, pc: Pc) {
    && pc.Hold? && n <= |queue| && left == queue[n..] && |pc.taken| <= 16
    && pc.taken == Sift(queue[..n], pc.time, true) && pc.future == Sift(queue[..n], pc.time, false)
    && forall i :: 0 <= i < n ==> queue[i].target == pc.p
  }

  /** The batch of a core that holds queue and process: the messages for the process at the head of the queue, up to
      the first for another process or until 16 are due.  Those that are due are delivered in their order; the others
      go to the end of the queue, in theirs. */
  lemma {:induction false} BatchExact(s: State, u: nat) returns (s1: State, n: nat)
    requires Shape(s) && Locks(s) && u < |s.threads| && s.threads[u].pc.Hold? && s.threads[u].pc.q < |s.g.queues|
    requires var pc := s.threads[u].pc; pc.stage.Draining? && pc.taken == [] && pc.future == []
    ensures Goes(s, s1) && s1.threads == s.threads[u := s1.threads[u]]
    ensures var pc, pc1 := s.threads[u].pc, s1.threads[u].pc;
      var queue := s.g.queues[pc.q];
      && n <= |queue| && (forall i :: 0 <= i < n ==> queue[i].target == pc.p)
      && pc1 == Run(pc.j, pc.p, Sift(queue[..n], pc.time, true), 0, Start)
      && s1.g.queues == s.g.queues[pc.q := queue[n..] + Sift(queue[..n], pc.time, false)]
      && |pc1.taken| <= 16
      && (n == |queue| || queue[n].target != pc.p || |pc1.taken| == 16)
  {
    var queue := s.g.queues[s.threads[u].pc.q];
    assert queue[..0] == [];
    var s0: State;
    s0, n := Drains(s, u, queue, 0);
    s1 := PutsBack(s0, u);
    Then(s, s0, s1);
  }

  lemma {:induction false} Drains(s: State, u: nat, queue: seq<Msg>, k: nat) returns (s1: State, n: nat)
    requires Shape(s) && Locks(s) && u < |s.threads| && s.threads[u].pc.Hold? && s.threads[u].pc.q < |s.g.queues|
    requires s.threads[u].pc.stage.Draining? && Drained(queue, k, s.g.queues[s.threads[u].pc.q], s.threads[u].pc)
    ensures Goes(s, s1) && s1.threads == s.threads[u := s1.threads[u]]
    ensures var pc, pc1 := s.threads[u].pc, s1.threads[u].pc;
      && pc1.Hold? && pc1 == pc.(taken := pc1.taken, future := pc1.future, stage := Early)
      && s1.g.queues == s.g.queues[pc.q := s1.g.queues[pc.q]] && Drained(queue, n, s1.g.queues[pc.q], pc1)
      && (n == |queue| || queue[n].target != pc.p || |pc1.taken| == 16)
    decreases |queue| - k
  {
    var s0 := Collects(s, u);
    if s0.threads[u].pc.stage.Early? {
      s1, n := s0, k;
    } else {
      assert queue[..k + 1][..k] == queue[..k];
      s1, n := Drains(s0, u, queue, k + 1);
      Then(s, s0, s1);
    }
  }

  lemma {:induction false} PutsBack(s: State, u: nat) returns (s1: State)
    requires Shape(s) && Locks(s) && u < |s.threads| && s.threads[u].pc.Hold? && s.threads[u].pc.q < |s.g.queues|
    requires !s.threads[u].pc.stage.Draining?
    ensures Goes(s, s1) && s1.threads == s.threads[u := s1.threads[u]]
    ensures var pc := s.threads[u].pc;
      && s1.threads[u].pc == Run(pc.j, pc.p, pc.taken, 0, Start)
      && s1.g.queues == s.g.queues[pc.q := s.g.queues[pc.q] + pc.future]
    decreases if s.threads[u].pc.stage.Early? then 1 else 0, |s.threads[u].pc.future|
  {
    var queue, future := s.g.queues[s.threads[u].pc.q], s.threads[u].pc.future;
    var s0 := Collects(s, u);
    if s0.threads[u].pc.Hold? {
      if s.threads[u].pc.stage.Requeue? { assert (queue + [future[0]]) + future[1..] == queue + future; }
      s1 := PutsBack(s0, u);
      Then(s, s0, s1);
    } else {
      assert queue + future == queue;
      s1 := s0;
    }
  }

  // ---------------------------------------------------------------- the message that waits

  /** m is the first message of queue q; the locks of the queue and of the process are free. */
  ghost predicate Aim(g: Shared, q: nat, m: Msg) {
    && q < |g.queues| == |g.qlock| && g.queues[q] != [] && g.queues[q][0] == m && g.qlock[q] == 0
    && m.target < |g.plock| && m.target % |g.queues| == q && g.plock[m.target] == 0
  }

  lemma AimStays(g: Shared, g1: Shared, k: nat, q: nat, m: Msg)
    requires OnlyAt(g, g1, k) && k != q && Aim(g, q, m)
    ensures Aim(g1, q, m)
  {
  }

  lemma {:induction false} Unsends(s: State, u: nat, k: nat) returns (s1: State)
    requires Shape(s) && Locks(s) && u < |s.threads| && k < |s.g.qlock|
    requires var send := s.threads[u].send; (send.SPush? || send.SFree? || send.SFail?) && send.q == k
    ensures Goes(s, s1) && s1.threads == s.threads[u := s1.threads[u]]
    ensures OnlyAt(s.g, s1.g, k) && s1.g.qlock[k] == s.g.qlock[k] - 1
  {
    s1 := Posts(s, u, Plain);
    if s.threads[u].send.SPush? {
      var s0 := s1;
      s1 := Posts(s0, u, Plain);
      Then(s, s0, s1);
    }
  }

  /** A thread that blocks a queue gives it up. */
  lemma {:induction false} Undoes(s: State, u: nat, k: nat) returns (s1: State)
    requires Shape(s) && Locks(s) && u < |s.threads| && k < |s.g.qlock|
    requires OwnsQueue(s.threads[u], k) || SpoilsQueue(s.threads[u], k)
    ensures Goes(s, s1) && s1.threads == s.threads[u := s1.threads[u]]
    ensures OnlyAt(s.g, s1.g, k) && s1.g.qlock[k] == s.g.qlock[k] - 1
  {
    var th := s.threads[u];
    assert ThreadOk(s.g, u, th);
    if th.send.SPush? || th.send.SFree? || th.send.SFail? {
      s1 := Unsends(s, u, k);
    } else if th.pc.QFail? {
      s1 := Scans(s, u);
    } else {
      s1 := LetsGo(s, u);
    }
  }

  /** The other threads can give up queue k. */
  lemma {:induction false} Frees(s: State, t: nat, k: nat, q: nat, m: Msg) returns (s1: State)
    requires Shape(s) && Locks(s) && t < |s.threads| && k < |s.g.qlock| && k != q && Aim(s.g, q, m)
    requires Weight(QWord(k), s.threads[t]) == 0
    ensures Goes(s, s1) && Aim(s1.g, q, m) && k < |s1.g.qlock| && s1.g.qlock[k] == 0 && s1.threads[t] == s.threads[t]
    decreases s.g.qlock[k]
  {
    assert QueueLock(s, k);
    if s.g.qlock[k] == 0 {
      Stays(s);
      s1 := s;
    } else {
      var u := TotalWitness(QWord(k), s.threads);
      var s0 := Undoes(s, u, k);
      AimStays(s.g, s0.g, k, q, m);
      s1 := Frees(s0, t, k, q, m);
      Then(s, s0, s1);
    }
  }

  function MutexRank(th: Thread): nat {
    if th.send.SCheck? then 3 else if th.send.SNotify? then 2 else if th.send.SLeave? then 1
    else
      match th.pc
      case Recheck => 6
      case GoIdle => 5
      case LastTest => 4
      case SayBye => 3
      case Woken => 3
      case Rouse => 2
      case _ => 1
  }

  /** The holder of idle_lock can give it up. */
  lemma {:induction false} FreesMutex(s: State, t: nat) returns (s1: State)
    requires Shape(s) && Locks(s) && t < |s.threads| && s.g.mutex != Some(t)
    ensures Goes(s, s1) && s1.g.mutex == None && s1.threads[t] == s.threads[t]
    ensures s1.g.queues == s.g.queues && s1.g.qlock == s.g.qlock && s1.g.plock == s.g.plock
    decreases if s.g.mutex.Some? then 1 else 0, if s.g.mutex.Some? && s.g.mutex.value < |s.threads| then MutexRank(s.threads[s.g.mutex.value]) else 0
  {
    if s.g.mutex == None {
      Stays(s);
      s1 := s;
    } else {
      var u := s.g.mutex.value;
      assert HoldsMutex(s.threads[u]) && ThreadOk(s.g, u, s.threads[u]);
      var s0 := HolderMoves(s, u);
      s1 := FreesMutex(s0, t);
      Then(s, s0, s1);
    }
  }

  lemma {:induction false} HolderMoves(s: State, u: nat) returns (s0: State)
    requires Shape(s) && Locks(s) && u < |s.threads| && s.g.mutex == Some(u) && HoldsMutex(s.threads[u])
    ensures Goes(s, s0) && s0.threads == s.threads[u := s0.threads[u]]
    ensures s0.g.queues == s.g.queues && s0.g.qlock == s.g.qlock && s0.g.plock == s.g.plock
    ensures s0.g.mutex == None || (s0.g.mutex == Some(u) && MutexRank(s0.threads[u]) < MutexRank(s.threads[u]))
  {
    assert ThreadOk(s.g, u, s.threads[u]);
    if s.threads[u].send.NoSend? {
      s0 := Naps(s, u, Plain);
      NapRank(s.g, u, s.threads[u], Local(s0.g, s0.threads[u]));
    } else {
      s0 := Leaves(s, u);
    }
  }

  lemma NapRank(g: Shared, u: nat, th: Thread, r: Local)
    requires SharedOk(g) && ThreadOk(g, u, th) && NapPc(th.pc) && NapEnabled(g, th, Plain) && r == NapStep(g, u, th, Plain)
    requires g.mutex == Some(u) && HoldsMutex(th) && th.send.NoSend?
    ensures r.g.queues == g.queues && r.g.qlock == g.qlock && r.g.plock == g.plock
    ensures r.g.mutex == None || (r.g.mutex == Some(u) && MutexRank(r.th) < MutexRank(th))
  {
  }

  /** The end of SendMessage. */
  lemma {:induction false} Leaves(s: State, u: nat) returns (s0: State)
    requires Shape(s) && Locks(s) && u < |s.threads| && s.g.mutex == Some(u)
    requires s.threads[u].send.SCheck? || s.threads[u].send.SNotify? || s.threads[u].send.SLeave?
    ensures Goes(s, s0) && s0.threads == s.threads[u := s.threads[u].(send := s0.threads[u].send)]
    ensures s0.g.queues == s.g.queues && s0.g.qlock == s.g.qlock && s0.g.plock == s.g.plock
    ensures match s.threads[u].send
      case SCheck => s0.g.mutex == Some(u) && (s0.threads[u].send.SNotify? || s0.threads[u].send.SLeave?)
      case SNotify => s0.g.mutex == Some(u) && s0.threads[u].send.SLeave?
      case _ => s0.g.mutex == None && s0.threads[u].send.NoSend?
  {
    var c := Plain;
    if s.threads[u].send.SNotify? && s.g.waiters != {} {
      var w :| w in s.g.waiters;
      c := Signal(w);
    }
    s0 := Posts(s, u, c);
  }

  /** A send that has begun can be completed, with the help of the threads that are in its way. */
  lemma {:induction false} Sends(s: State, t: nat, q: nat, m: Msg) returns (s1: State)
    requires Shape(s) && Locks(s) && t < |s.threads| && s.threads[t].send.STry? && s.threads[t].pc.Run? && Aim(s.g, q, m)
    ensures Goes(s, s1) && Aim(s1.g, q, m) && s1.threads[t] == s.threads[t].(send := NoSend)
  {
    assert ThreadOk(s.g, t, s.threads[t]);
    var k := s.threads[t].send.m.target % |s.g.queues|;
    var s0 := s;
    if k == q { Stays(s); } else { s0 := Frees(s, t, k, q, m); }
    var s2 := Pushes(s0, t, q, m);
    Then(s, s0, s2);
    var s3 := Counts(s2, t, q, m);
    Then(s, s2, s3);
    s1 := Notifies(s3, t, q, m);
    Then(s, s3, s1);
  }

  lemma {:induction false} Pushes(s: State, t: nat, q: nat, m: Msg) returns (s1: State)
    requires Shape(s) && Locks(s) && t < |s.threads| && s.threads[t].send.STry? && Aim(s.g, q, m)
    requires MsgOk(s.g, s.threads[t].send.m) && s.g.qlock[s.threads[t].send.m.target % |s.g.queues|] == 0
    ensures Goes(s, s1) && Aim(s1.g, q, m) && s1.threads[t] == s.threads[t].(send := SCount)
  {
    var sa := Posts(s, t, Plain);
    var sb := Posts(sa, t, Plain);
    Then(s, sa, sb);
    s1 := Posts(sb, t, Plain);
    Then(s, sb, s1);
  }

  lemma {:induction false} Counts(s: State, t: nat, q: nat, m: Msg) returns (s1: State)
    requires Shape(s) && Locks(s) && t < |s.threads| && s.threads[t].send.SCount? && s.threads[t].pc.Run? && Aim(s.g, q, m)
    ensures Goes(s, s1) && Aim(s1.g, q, m) && s1.threads[t] == s.threads[t].(send := SLockIdle) && s1.g.mutex == None
  {
    var sa := Posts(s, t, Plain);
    assert !HoldsMutex(sa.threads[t]);
    s1 := FreesMutex(sa, t);
    Then(s, sa, s1);
  }

  lemma {:induction false} Notifies(s: State, t: nat, q: nat, m: Msg) returns (s1: State)
    requires Shape(s) && Locks(s) && t < |s.threads| && s.threads[t].send.SLockIdle? && s.g.mutex == None && Aim(s.g, q, m)
    ensures Goes(s, s1) && Aim(s1.g, q, m) && s1.threads[t] == s.threads[t].(send := NoSend)
  {
    var sa := Posts(s, t, Plain);
    var sb := Leaves(sa, t);
    Then(s, sa, sb);
    if sb.threads[t].send.SNotify? {
      var sc := Leaves(sb, t);
      Then(s, sb, sc);
      sb := sc;
    }
    s1 := Leaves(sb, t);
    Then(s, sb, s1);
  }

  // ---------------------------------------------------------------- delivering a batch

  /** At the given phase of message f of the batch, and the same in all else that matters here. */
  predicate At(s: State, t: nat, pc: Pc, f: nat, phase: Phase)
    requires pc.Run?
  {
    t < |s.threads| && s.threads[t].send.NoSend? && s.threads[t].pc == pc.(f := f, phase := phase)
  }

  ghost predicate SameAim(s: State, s1: State) {
    s1.g.queues == s.g.queues && s1.g.qlock == s.g.qlock && s1.g.plock == s.g.plock
  }

  /** The when blocks are passed; one that waits for a ready promise is taken. */
  lemma {:induction false} PassesWhens(s: State, t: nat, pc: Pc, f: nat, i: nat) returns (s1: State)
    requires Shape(s) && Locks(s) && pc.Run? && At(s, t, pc, f, WhenAt(i)) && pc.p < |s.g.whens|
    ensures Goes(s, s1) && SameAim(s, s1) && At(s1, t, pc, f, EverAt(0))
    decreases if i < |s.g.whens[pc.p]| then |s.g.whens[pc.p]| - i else 0
  {
    if i >= |s.g.whens[pc.p]| {
      s1 := Runs(s, t, Plain);
    } else {
      var s0, next := PassesWhen(s, t, pc, f, i);
      s1 := PassesWhens(s0, t, pc, f, next);
      Then(s, s0, s1);
    }
  }

  lemma {:induction false} PassesWhen(s: State, t: nat, pc: Pc, f: nat, i: nat) returns (s1: State, next: nat)
    requires Shape(s) && Locks(s) && pc.Run? && At(s, t, pc, f, WhenAt(i)) && pc.p < |s.g.whens| && i < |s.g.whens[pc.p]|
    ensures Goes(s, s1) && SameAim(s, s1) && At(s1, t, pc, f, WhenAt(next)) && pc.p < |s1.g.whens|
    ensures next <= |s1.g.whens[pc.p]| && |s1.g.whens[pc.p]| - next < |s.g.whens[pc.p]| - i
  {
    var w := s.g.whens[pc.p][i];
    var yes := w.OnReady? && w.x < |s.g.promises| && s.g.promises[w.x].ready;
    s1 := Runs(s, t, Taken(yes));
    next := i + 1;
    if yes {
      var s0 := s1;
      s1 := Runs(s0, t, Finish(false));
      Then(s, s0, s1);
      next := i;
    }
  }

  lemma {:induction false} PassesEvers(s: State, t: nat, pc: Pc, f: nat, i: nat) returns (s1: State)
    requires Shape(s) && Locks(s) && pc.Run? && At(s, t, pc, f, EverAt(i)) && pc.p < |s.g.whenevers|
    ensures Goes(s, s1) && SameAim(s, s1) && At(s1, t, pc, f, Start)
    decreases if i < s.g.whenevers[pc.p] then s.g.whenevers[pc.p] - i else 0
  {
    if i >= s.g.whenevers[pc.p] {
      s1 := Runs(s, t, Plain);
    } else {
      var s0 := Runs(s, t, Taken(false));
      s1 := PassesEvers(s0, t, pc, f, i + 1);
      Then(s, s0, s1);
    }
  }

  lemma {:induction false} PassesBlocks(s: State, t: nat, pc: Pc, f: nat) returns (s1: State)
    requires Shape(s) && Locks(s) && pc.Run? && At(s, t, pc, f, WhenAt(0))
    ensures Goes(s, s1) && SameAim(s, s1) && At(s1, t, pc, f, Start)
  {
    assert ThreadOk(s.g, t, s.threads[t]);
    var s0 := PassesWhens(s, t, pc, f, 0);
    assert ThreadOk(s0.g, t, s0.threads[t]);
    s1 := PassesEvers(s0, t, pc, f, 0);
    Then(s, s0, s1);
  }

  /** The function of a call ends, and its result is sent if a promise waits for it. */
  lemma {:induction false} Ends(s: State, t: nat, pc: Pc, f: nat, q: nat, m: Msg) returns (s1: State)
    requires Shape(s) && Locks(s) && pc.Run? && At(s, t, pc, f, Body) && Aim(s.g, q, m)
    ensures Goes(s, s1) && Aim(s1.g, q, m) && At(s1, t, pc, f, WhenAt(0))
  {
    assert ThreadOk(s.g, t, s.threads[t]);
    s1 := Runs(s, t, Finish(false));
    assert SameAim(s, s1);
    if s1.threads[t].send.STry? {
      var sa := Sends(s1, t, q, m);
      Then(s, s1, sa);
      s1 := sa;
    }
  }

  lemma {:induction false} DeliversOne(s: State, t: nat, pc: Pc, f: nat, q: nat, m: Msg) returns (s1: State)
    requires Shape(s) && Locks(s) && pc.Run? && At(s, t, pc, f, Start) && f < |pc.taken| && Aim(s.g, q, m)
    ensures Goes(s, s1) && Aim(s1.g, q, m) && At(s1, t, pc, f + 1, Start)
  {
    assert ThreadOk(s.g, t, s.threads[t]);
    var s0 := Runs(s, t, Plain);
    assert SameAim(s, s0);
    if s0.threads[t].pc.phase.Body? {
      var sa := Ends(s0, t, pc, f + 1, q, m);
      Then(s, s0, sa);
      s0 := sa;
    }
    s1 := PassesBlocks(s0, t, pc, f + 1);
    Then(s, s0, s1);
  }

  lemma {:induction false} Delivers(s: State, t: nat, pc: Pc, f: nat, q: nat, m: Msg) returns (s1: State)
    requires Shape(s) && Locks(s) && pc.Run? && At(s, t, pc, f, Start) && f <= |pc.taken| && Aim(s.g, q, m)
    ensures Goes(s, s1) && Aim(s1.g, q, m) && At(s1, t, pc, |pc.taken|, Start)
    decreases |pc.taken| - f
  {
    if f == |pc.taken| {
      Stays(s);
      s1 := s;
    } else {
      var s0 := DeliversOne(s, t, pc, f, q, m);
      s1 := Delivers(s0, t, pc, f + 1, q, m);
      Then(s, s0, s1);
    }
  }

  /** The process is released and the core goes on to the next queue. */
  lemma {:induction false} Settles(s: State, t: nat, pc: Pc, q: nat, m: Msg) returns (s1: State)
    requires Shape(s) && Locks(s) && pc.Run? && At(s, t, pc, |pc.taken|, Start) && Aim(s.g, q, m)
    ensures Goes(s, s1) && Aim(s1.g, q, m) && s1.threads[t].send.NoSend? && s1.threads[t].pc == Scan(pc.j + 1)
  {
    OtherProcess(s, t, pc.p, m.target);
    var s0 := Releases(s, t);
    s1 := Naps(s0, t, Plain);
    NapFrame(s0.g, t, s0.threads[t], Plain, Local(s1.g, s1.threads[t]));
    Then(s, s0, s1);
  }

  lemma {:induction false} OtherProcess(s: State, t: nat, p: nat, p1: nat)
    requires Shape(s) && Locks(s) && t < |s.threads| && OwnsProcess(s.threads[t], p) && p1 < |s.g.plock| && s.g.plock[p1] == 0
    ensures p < |s.g.plock| && p != p1
  {
    assert ThreadOk(s.g, t, s.threads[t]) && ProcessLock(s, p);
    TotalBound(PWord(p), s.threads, t);
  }

  lemma {:induction false} Releases(s: State, t: nat) returns (s0: State)
    requires Shape(s) && Locks(s) && t < |s.threads| && s.threads[t].send.NoSend?
    requires var pc := s.threads[t].pc; pc.Run? && pc.phase.Start? && pc.f == |pc.taken| && pc.p < |s.g.plock|
    ensures Goes(s, s0) && s0.g == PAdd(s.g, s.threads[t].pc.p, -1)
    ensures s0.threads[t] == s.threads[t].(pc := Settle(s.threads[t].pc.j, |s.threads[t].pc.taken|))
  {
    s0 := Runs(s, t, Plain);
  }

  // ---------------------------------------------------------------- the way to the queue

  /** A queue other than q is passed, whatever is in it. */
  lemma {:induction false} PassesQueue(s: State, t: nat, j: nat, q: nat, m: Msg) returns (s1: State)
    requires Shape(s) && Locks(s) && t < |s.g.queues| <= |s.threads| && j < |s.g.queues| && Aim(s.g, q, m)
    requires s.threads[t].pc == Scan(j) && s.threads[t].send.NoSend? && (j + t + 1) % |s.g.queues| != q
    ensures Goes(s, s1) && Aim(s1.g, q, m) && s1.threads[t].send.NoSend? && s1.threads[t].pc == Scan(j + 1)
  {
    var k := (j + t + 1) % |s.g.queues|;
    var s0 := Scans(s, t);
    AimStays(s.g, s0.g, k, q, m);
    if s0.threads[t].pc.QFail? {
      s1 := Scans(s0, t);
      AimStays(s0.g, s1.g, k, q, m);
      Then(s, s0, s1);
    } else {
      s1 := PassesLocked(s0, t, q, m);
      Then(s, s0, s1);
    }
  }

  /** With the lock of another queue: it is empty, or its process is not free, or a batch is delivered. */
  lemma {:induction false} PassesLocked(s: State, t: nat, q: nat, m: Msg) returns (s1: State)
    requires Shape(s) && Locks(s) && t < |s.threads| && Aim(s.g, q, m)
    requires s.threads[t].pc.QLook? && s.threads[t].pc.q != q && s.threads[t].pc.q < |s.g.qlock|
    ensures Goes(s, s1) && Aim(s1.g, q, m) && s1.threads[t].send.NoSend? && s1.threads[t].pc == Scan(s.threads[t].pc.j + 1)
  {
    var sa := LetsGo(s, t);
    AimStays(s.g, sa.g, s.threads[t].pc.q, q, m);
    if sa.threads[t].pc.Run? {
      var pc := sa.threads[t].pc;
      var sb := Delivers(sa, t, pc, 0, q, m);
      s1 := Settles(sb, t, pc, q, m);
      Then(sa, sb, s1);
      Then(s, sa, s1);
    } else {
      s1 := sa;
    }
  }

  lemma {:induction false} Arrives(s: State, t: nat, j: nat, k: nat, q: nat, m: Msg) returns (s1: State)
    requires Shape(s) && Locks(s) && t < |s.g.queues| <= |s.threads| && j <= k < |s.g.queues| && Aim(s.g, q, m)
    requires s.threads[t].pc == Scan(j) && s.threads[t].send.NoSend? && (k + t + 1) % |s.g.queues| == q
    ensures Goes(s, s1) && Aim(s1.g, q, m) && s1.threads[t].send.NoSend? && s1.threads[t].pc == Scan(k)
    decreases k - j
  {
    if j == k {
      Stays(s);
      s1 := s;
    } else {
      OneTurn(|s.g.queues|, t, j, k);
      var s0 := PassesQueue(s, t, j, q, m);
      s1 := Arrives(s0, t, j + 1, k, q, m);
      Then(s, s0, s1);
    }
  }

  /** The core takes m, with the batch behind it, and m is the first to be delivered. */
  lemma {:induction false} Takes(s: State, t: nat, k: nat, q: nat, m: Msg) returns (s1: State)
    requires Shape(s) && Locks(s) && t < |s.g.queues| <= |s.threads| && k < |s.g.queues| && Aim(s.g, q, m) && m.time <= s.g.now
    requires s.threads[t].pc == Scan(k) && s.threads[t].send.NoSend? && (k + t + 1) % |s.g.queues| == q
    ensures Goes(s, s1) && s.g.past.done[m] < s1.g.past.done[m]
  {
    var sc := Gets(s, t, k, q, m);
    var sd := Collects(sc, t);
    Then(s, sc, sd);
    var se := LetsGo(sd, t);
    Then(s, sd, se);
    s1 := Hears(se, t, m);
    Then(s, se, s1);
    assert s.g.past.done <= se.g.past.done;
  }

  lemma {:induction false} Gets(s: State, t: nat, k: nat, q: nat, m: Msg) returns (s1: State)
    requires Shape(s) && Locks(s) && t < |s.g.queues| <= |s.threads| && k < |s.g.queues| && Aim(s.g, q, m)
    requires s.threads[t].pc == Scan(k) && s.threads[t].send.NoSend? && (k + t + 1) % |s.g.queues| == q
    ensures Goes(s, s1) && s1.threads[t].pc == Hold(k, q, m.target, s.g.now, [], [], Draining)
    ensures s1.g.queues == s.g.queues
  {
    var sa := Scans(s, t);
    var sb := Scans(sa, t);
    Then(s, sa, sb);
    s1 := Scans(sb, t);
    Then(s, sb, s1);
  }

  lemma {:induction false} Hears(s: State, t: nat, m: Msg) returns (s1: State)
    requires Shape(s) && Locks(s) && t < |s.threads| && s.threads[t].send.NoSend?
    requires var pc := s.threads[t].pc; pc.Run? && pc.phase.Start? && pc.f == 0 && pc.taken != [] && pc.taken[0] == m
    ensures Goes(s, s1) && s1.g.past.done == s.g.past.done + multiset{m}
  {
    s1 := Runs(s, t, Plain);
  }

  /** No reachable state dooms a message: if a core is about to scan, the first message of any queue that is free,
      for a process that is free, can still be delivered. */
  lemma CanBeDelivered(s: State, t: nat, q: nat) returns (es: seq<Event>, s1: State)
    requires Reachable(s) && t < |s.g.queues| <= |s.threads| && s.threads[t].pc.Top? && q < |s.g.queues| == |s.g.qlock|
    requires s.g.queues[q] != [] && s.g.qlock[q] == 0
    requires s.g.queues[q][0].target < |s.g.plock| && s.g.plock[s.g.queues[q][0].target] == 0
    ensures Replay(s, es) == Some(s1) && s1.g.past.done[s.g.queues[q][0]] > s.g.past.done[s.g.queues[q][0]]
  {
    ReachableOk(s);
    assert ThreadOk(s.g, t, s.threads[t]) && QueueOk(s.g, q);
    var m := s.g.queues[q][0];
    var sa := Waits(s, if m.time > s.g.now then m.time - s.g.now else 0);
    var sb := Scans(sa, t);
    Then(s, sa, sb);
    var k := Turn(|s.g.queues|, t, q);
    var sc := Arrives(sb, t, 0, k, q, m);
    Then(s, sb, sc);
    s1 := Takes(sc, t, k, q, m);
    Then(s, sc, s1);
    es :| Replay(s, es) == Some(s1);
  }

  lemma ReachableOk(s: State)
    requires Reachable(s)
    ensures Shape(s) && Locks(s)
  {
    InvReachable(s);
  }

  // ---------------------------------------------------------------- sleep

  /** What a core does that is about to sleep and is not disturbed: if as many messages are counted as cores are awake
      it scans again; otherwise it is counted as idle and sleeps, or, if it is the last one and Shutdown was called, it
      signals all the others and returns. */
  lemma {:induction false} SleepsIff(s: State, t: nat) returns (s1: State)
    requires Shape(s) && Locks(s) && t < |s.threads| && s.threads[t].pc.Nap? && s.g.mutex == None
    ensures Goes(s, s1) && s1.threads == s.threads[t := s1.threads[t]]
    ensures s1.g.queues == s.g.queues && s1.g.count == s.g.count && s1.g.mutex == None
    ensures
      if s.g.count >= |s.g.queues| - s.g.idle then s1.threads[t].pc.Top? && s1.g.idle == s.g.idle && s1.g.waiters == s.g.waiters
      else if s.g.idle + 1 == |s.g.queues| && s.g.exit then
        s1.threads[t].pc.Exited? && s1.g.idle == s.g.idle + 1 && s1.g.waiters == {}
      else s1.threads[t].pc.Asleep? && s1.g.idle == s.g.idle + 1 && s1.g.waiters == s.g.waiters + {t}
  {
    var sb := Decides(s, t);
    if sb.threads[t].pc.Top? {
      s1 := sb;
    } else {
      var sc := Commits(sb, t);
      Then(s, sb, sc);
      s1 := LiesDown(sc, t);
      Then(s, sc, s1);
    }
  }

  lemma {:induction false} Decides(s: State, t: nat) returns (s1: State)
    requires Shape(s) && Locks(s) && t < |s.threads| && s.threads[t].pc.Nap?
    ensures Goes(s, s1)
    ensures s1 == s.(threads := s.threads[t := s.threads[t].(pc := if s.g.count < |s.g.queues| - s.g.idle then LockIdle else Top)])
  {
    var sa := Naps(s, t, Taken(true));
    s1 := NapsOne(sa, t, if s.g.count < |s.g.queues| - s.g.idle then LockIdle else Top, s.g);
    Then(s, sa, s1);
  }

  /** It still has a reason to sleep when it has idle_lock. */
  lemma {:induction false} Commits(s: State, t: nat) returns (s1: State)
    requires Shape(s) && Locks(s) && t < |s.threads| && s.threads[t].pc.LockIdle? && s.g.mutex == None
    requires s.g.count < |s.g.queues| - s.g.idle
    ensures Goes(s, s1) && s1.threads == s.threads[t := s.threads[t].(pc := LastTest)]
    ensures s1.g == s.g.(mutex := Some(t), idle := s.g.idle + 1)
  {
    var sa := NapsOne(s, t, Recheck, s.g.(mutex := Some(t)));
    var sb := NapsOne(sa, t, GoIdle, sa.g);
    Then(s, sa, sb);
    s1 := NapsOne(sb, t, LastTest, sb.g.(idle := sb.g.idle + 1));
    Then(s, sb, s1);
  }

  /** One step to the given place. */
  lemma {:induction false} NapsOne(s: State, t: nat, pc: Pc, g: Shared) returns (s1: State)
    requires Shape(s) && Locks(s) && t < |s.threads| && NapPc(s.threads[t].pc) && NapEnabled(s.g, s.threads[t], Plain)
    requires ThreadOk(s.g, t, s.threads[t]) ==> NapStep(s.g, t, s.threads[t], Plain) == Local(g, s.threads[t].(pc := pc))
    ensures Goes(s, s1) && s1 == State(g, s.threads[t := s.threads[t].(pc := pc)])
  {
    s1 := Naps(s, t, Plain);
  }

  lemma {:induction false} LiesDown(s: State, t: nat) returns (s1: State)
    requires Shape(s) && Locks(s) && t < |s.threads| && s.threads[t].pc.LastTest?
    ensures Goes(s, s1) && s1.threads == s.threads[t := s1.threads[t]]
    ensures
      if s.g.idle == |s.g.queues| && s.g.exit then s1.threads[t].pc.Exited? && s1.g == s.g.(mutex := None, waiters := {})
      else s1.threads[t].pc.Asleep? && s1.g == s.g.(mutex := None, waiters := s.g.waiters + {t})
  {
    if s.g.idle == |s.g.queues| && s.g.exit {
      s1 := SaysBye(s, t);
    } else {
      var sa := NapsOne(s, t, Enter, s.g);
      s1 := NapsOne(sa, t, Asleep, sa.g.(mutex := None, waiters := sa.g.waiters + {t}));
      Then(s, sa, s1);
    }
  }

  lemma {:induction false} SaysBye(s: State, t: nat) returns (s1: State)
    requires Shape(s) && Locks(s) && t < |s.threads| && s.threads[t].pc.LastTest? && s.g.idle == |s.g.queues| && s.g.exit
    ensures Goes(s, s1) && s1 == State(s.g.(mutex := None, waiters := {}), s.threads[t := s.threads[t].(pc := Exited)])
  {
    var sa := NapsOne(s, t, SayBye, s.g);
    var sb := NapsOne(sa, t, Bye, sa.g.(waiters := {}));
    Then(s, sa, sb);
    s1 := NapsOne(sb, t, Exited, sb.g.(mutex := None));
    Then(s, sb, s1);
  }

  /** A core that is woken is no longer idle and scans; one that slept as the last has no other way out. */
  lemma {:induction false} WakesUp(s: State, t: nat) returns (s1: State)
    requires Shape(s) && Locks(s) && t < |s.threads| && s.threads[t].pc.Asleep? && s.g.mutex == None && 0 <= s.g.count
    ensures Goes(s, s1) && s1.threads == s.threads[t := s.threads[t].(pc := Top)]
    ensures s1.g == s.g.(idle := s.g.idle - 1, waiters := s.g.waiters - {t})
  {
    var sa := Rises(s, t);
    s1 := Returns(sa, t);
    Then(s, sa, s1);
  }

  lemma {:induction false} Rises(s: State, t: nat) returns (s1: State)
    requires Shape(s) && Locks(s) && t < |s.threads| && s.threads[t].pc.Asleep? && s.g.mutex == None && 0 <= s.g.count
    ensures Goes(s, s1)
    ensures s1 == State(s.g.(mutex := Some(t), waiters := s.g.waiters - {t}), s.threads[t := s.threads[t].(pc := Rouse)])
  {
    var sa := NapsOne(s, t, Woken, s.g.(mutex := Some(t), waiters := s.g.waiters - {t}));
    s1 := NapsOne(sa, t, Rouse, sa.g);
    Then(s, sa, s1);
  }

  lemma {:induction false} Returns(s: State, t: nat) returns (s1: State)
    requires Shape(s) && Locks(s) && t < |s.threads| && s.threads[t].pc.Rouse?
    ensures Goes(s, s1) && s1 == State(s.g.(mutex := None, idle := s.g.idle - 1), s.threads[t := s.threads[t].(pc := Top)])
  {
    var sa := NapsOne(s, t, LeaveIdle, s.g.(idle := s.g.idle - 1));
    s1 := NapsOne(sa, t, Top, sa.g.(mutex := None));
    Then(s, sa, s1);
  }

  // ---------------------------------------------------------------- incremental code

  lemma Outs(s: State, t: nat, c: Choice) returns (s1: State)
    requires Shape(s) && Locks(s) && t < |s.threads| && OutsidePc(s.threads[t].pc)
    requires ThreadOk(s.g, t, s.threads[t]) ==> OutEnabled(s.g, t, s.threads[t], c)
    ensures ThreadOk(s.g, t, s.threads[t])
    ensures var r := OutStep(s.g, t, s.threads[t], c); s1 == State(r.g, s.threads[t := r.th]) && Goes(s, s1)
  {
    assert ThreadOk(s.g, t, s.threads[t]);
    var r := OutStep(s.g, t, s.threads[t], c);
    s1 := State(r.g, s.threads[t := r.th]);
    Moves(s, t, Outside(c), r);
  }

  /** An outside thread that wants to run code in process p gets the process exactly when its lock is free; otherwise it
      is back where it was, and the lock word too.  When its code ends the lock is free again. */
  lemma {:induction false} GetsProcessIff(s: State, t: nat) returns (held: State, s1: State)
    requires Shape(s) && Locks(s) && t < |s.threads| && s.threads[t].send.NoSend? && s.threads[t].pc.XTry?
    requires s.threads[t].pc.p < |s.g.plock|
    ensures Goes(s, held) && Goes(held, s1) && s1.g.plock == s.g.plock && s1.g.queues == s.g.queues
    ensures
      if s.g.plock[s.threads[t].pc.p] == 0 then
        held.threads[t].pc == XHold(s.threads[t].pc.p) && held.g.plock[s.threads[t].pc.p] == 1 && s1.threads[t].pc.Out?
      else s1.threads == s.threads
  {
    held := Outs(s, t, Plain);
    s1 := LeavesProcess(held, t);
    assert s1.g.plock == s.g.plock;
  }

  lemma {:induction false} LeavesProcess(s: State, t: nat) returns (s1: State)
    requires Shape(s) && Locks(s) && t < |s.threads| && s.threads[t].send.NoSend? && (s.threads[t].pc.XHold? || s.threads[t].pc.XFail?)
    requires s.threads[t].pc.p < |s.g.plock|
    ensures Goes(s, s1) && s1.g == PAdd(s.g, s.threads[t].pc.p, -1)
    ensures s1.threads == s.threads[t := s.threads[t].(pc := if s.threads[t].pc.XHold? then Out else XTry(s.threads[t].pc.p))]
  {
    s1 := Outs(s, t, if s.threads[t].pc.XHold? then Finish(false) else Plain);
  }
}

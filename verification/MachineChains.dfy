/** Who waits for whom: no deadlock among queue locks, process locks and idle_lock. */
module MachineChains {
  import opened Options
  import opened Machine
  import opened MachineShape
  import opened MachineTotals
  import opened MachineLocks
  import opened MachineCount
  import opened MachineWake
  import opened MachineExit
  import opened MachineWhen
  import opened MachineRuns
  import opened MachineTheorems

  datatype Lock = Queue(q: nat) | Process(p: nat) | IdleLock

  /** The lock that the thread's next action asks for and finds taken.  A scanning core never waits:
      it passes over a queue or a process it does not get. */
  function Wanted(s: State, t: nat): Option<Lock>
    requires Shape(s) && t < |s.threads|
  {
    var g, th := s.g, s.threads[t];
    assert ThreadOk(g, t, th);
    if th.send.STry? then
      var q := th.send.m.target % |g.queues|;
      if g.qlock[q] != 0 then Some(Queue(q)) else None
    else if th.send.SLockIdle? || (th.send.NoSend? && (th.pc.LockIdle? || (th.pc.Asleep? && t !in g.waiters))) then
      if g.mutex.Some? then Some(IdleLock) else None
    else if th.send.NoSend? && th.pc.XTry? && g.plock[th.pc.p] != 0 then Some(Process(th.pc.p))
    else None
  }

  /** The thread keeps others from getting the lock: it holds it, or has not yet undone a failed attempt. */
  predicate Blocks(s: State, u: nat, l: Lock)
    requires u < |s.threads|
  {
    match l
    case Queue(q) => OwnsQueue(s.threads[u], q) || SpoilsQueue(s.threads[u], q)
    case Process(p) => OwnsProcess(s.threads[u], p) || SpoilsProcess(s.threads[u], p)
    case IdleLock => s.g.mutex == Some(u)
  }

  /** Nothing to do: finished, between two operations of an outside thread, or asleep and not signalled. */
  predicate AtRest(s: State, t: nat)
    requires t < |s.threads|
  {
    var th := s.threads[t];
    th.send.NoSend? && (th.pc.Out? || th.pc.XDone? || th.pc.Exited? || (th.pc.Asleep? && t in s.g.waiters))
  }

  predicate Free(s: State, t: nat)
    requires Shape(s) && t < |s.threads|
  {
    !AtRest(s, t) && Wanted(s, t).None?
  }

  /** A free thread has an action that gets it further. */
  lemma FreeMoves(s: State, t: nat) returns (a: Act)
    requires Shape(s) && t < |s.threads| && PassOk(s.g, s.threads[t]) && Free(s, t)
    ensures ThreadOk(s.g, t, s.threads[t]) && ActEnabled(s.g, t, s.threads[t], a)
    ensures ActStep(s.g, t, s.threads[t], a).th != s.threads[t]
  {
    var g, th := s.g, s.threads[t];
    assert ThreadOk(g, t, th);
    if !th.send.NoSend? {
      var c := Plain;
      if th.send.SNotify? && g.waiters != {} {
        var w :| w in g.waiters;
        c := Signal(w);
      }
      a := Posting(c);
    } else if ScanPc(th.pc) {
      a := Scanning;
    } else if th.pc.Hold? {
      a := Collecting;
      CollectMoves(g, t, th);
    } else if th.pc.Run? {
      a := Running(NextChoice(g, th));
    } else if OutsidePc(th.pc) {
      a := Outside(if th.pc.XHold? then Finish(false) else Plain);
    } else {
      a := Napping(if th.pc.Nap? then Taken(true) else Plain);
    }
  }

  lemma CollectMoves(g: Shared, t: nat, th: Thread)
    requires SharedOk(g) && ThreadOk(g, t, th) && th.pc.Hold?
    ensures CollectStep(g, t, th).th != th
  {
    var Hold(_, _, _, _, taken, future, stage) := th.pc;
    var r := CollectStep(g, t, th);
    if r.th.pc.Hold? && r.th.pc.stage == stage {
      assert |r.th.pc.taken| + |r.th.pc.future| != |taken| + |future|;
    }
  }

  /** Finishes a body, takes a block that is ready, passes over the others. */
  function NextChoice(g: Shared, th: Thread): Choice
    requires th.pc.Run? && th.pc.p < |g.whens| == |g.whenevers|
  {
    match th.pc.phase
    case Start => Plain
    case WhenAt(i) =>
      if i < |g.whens[th.pc.p]| then
        var w := g.whens[th.pc.p][i];
        Taken(w.OnReady? && w.x < |g.promises| && g.promises[w.x].ready)
      else Plain
    case EverAt(i) => if i < g.whenevers[th.pc.p] then Taken(false) else Plain
    case _ => Finish(false)
  }

  // ---------------------------------------------------------------- chains

  /** Whoever waits is kept waiting by another thread. */
  lemma WaitsForSomebody(s: State, t: nat, l: Lock) returns (u: nat)
    requires Shape(s) && Locks(s) && t < |s.threads| && Wanted(s, t) == Some(l)
    ensures u < |s.threads| && u != t && Blocks(s, u, l)
  {
    assert ThreadOk(s.g, t, s.threads[t]);
    match l
    case Queue(q) =>
      assert QueueLock(s, q);
      u := TotalWitness(QWord(q), s.threads);
    case Process(p) =>
      assert ProcessLock(s, p);
      u := TotalWitness(PWord(p), s.threads);
    case IdleLock => u := s.g.mutex.value;
  }

  /** Whoever blocks a queue lock or idle_lock can move.  Whoever blocks a process lock can move, or waits
      itself, and then for a queue lock or idle_lock. */
  lemma BlockerMoves(s: State, u: nat, l: Lock)
    requires Shape(s) && Locks(s) && u < |s.threads| && Blocks(s, u, l)
    ensures Free(s, u) || (l.Process? && Wanted(s, u).Some? && !Wanted(s, u).value.Process?)
  {
    assert ThreadOk(s.g, u, s.threads[u]);
    assert HoldsMutex(s.threads[u]) <==> s.g.mutex == Some(u);
  }

  /** Each thread waits for a lock that the next one blocks. */
  predicate Chain(s: State, ts: seq<nat>)
    requires Shape(s)
  {
    && (forall i :: 0 <= i < |ts| ==> ts[i] < |s.threads|)
    && (forall i :: 0 <= i < |ts| - 1 ==> Wanted(s, ts[i]).Some? && Blocks(s, ts[i + 1], Wanted(s, ts[i]).value))
  }

  /** No chain of waiting threads is longer than a thread that waits for a process lock, the one that runs
      the process and waits for a queue lock or idle_lock, and the one that has that lock; so none closes
      on itself. */
  lemma ChainsAreShort(s: State, ts: seq<nat>)
    requires Reachable(s) && Shape(s) && Chain(s, ts)
    ensures |ts| <= 3
    ensures |ts| == 3 ==> Free(s, ts[2])
    ensures forall i, j :: 0 <= i < j < |ts| ==> ts[i] != ts[j]
  {
    ReachableLocks(s);
    if |ts| > 1 { BlockerMoves(s, ts[1], Wanted(s, ts[0]).value); }
    if |ts| > 2 { BlockerMoves(s, ts[2], Wanted(s, ts[1]).value); }
  }

  /** Every thread that waits waits, in the end, for a free one, and that one has an action that gets it
      further. */
  lemma ChainsEndFree(s: State, t: nat) returns (ts: seq<nat>, u: nat, a: Act)
    requires Reachable(s) && Shape(s) && t < |s.threads| && !AtRest(s, t)
    ensures Chain(s, ts) && ts != [] && ts[0] == t && ts[|ts| - 1] == u && Free(s, u)
    ensures ThreadOk(s.g, u, s.threads[u]) && ActEnabled(s.g, u, s.threads[u], a)
    ensures ActStep(s.g, u, s.threads[u], a).th != s.threads[u]
  {
    ts := FreeChain(s, t);
    u := ts[|ts| - 1];
    ReachablePass(s, u);
    a := FreeMoves(s, u);
  }

  lemma ReachablePass(s: State, t: nat)
    requires Reachable(s) && t < |s.threads|
    ensures PassOk(s.g, s.threads[t])
  {
    InvReachable(s);
  }

  lemma FreeChain(s: State, t: nat) returns (ts: seq<nat>)
    requires Reachable(s) && Shape(s) && t < |s.threads| && !AtRest(s, t)
    ensures Chain(s, ts) && ts != [] && ts[0] == t && Free(s, ts[|ts| - 1])
  {
    ReachableLocks(s);
    if Wanted(s, t).None? {
      ts := [t];
    } else {
      var u := WaitsForSomebody(s, t, Wanted(s, t).value);
      var rest := BlockerChain(s, u, Wanted(s, t).value);
      ts := [t] + rest;
    }
  }

  lemma ReachableLocks(s: State)
    requires Reachable(s)
    ensures Locks(s)
  {
    InvReachable(s);
  }

  lemma BlockerChain(s: State, u: nat, l: Lock) returns (ts: seq<nat>)
    requires Shape(s) && Locks(s) && u < |s.threads| && Blocks(s, u, l)
    ensures Chain(s, ts) && ts != [] && ts[0] == u && Free(s, ts[|ts| - 1])
  {
    BlockerMoves(s, u, l);
    if Wanted(s, u).None? {
      ts := [u];
    } else {
      var v := WaitsForSomebody(s, u, Wanted(s, u).value);
      BlockerMoves(s, v, Wanted(s, u).value);
      ts := [u, v];
    }
  }

  /** The machine can stand still only at rest: unless every core has returned, Shutdown has not
      signalled, and every message ever sent has been delivered. */
  lemma StandstillIsRest(s: State)
    requires Reachable(s) && Shape(s) && Load(s.g.queues) < WORD
    requires forall t :: 0 <= t < |s.threads| ==> !Free(s, t)
    ensures forall t :: 0 <= t < |s.threads| ==> AtRest(s, t)
    ensures AllExited(s) || (!s.g.past.told && |s.g.past.order| == |s.g.past.log| && Delivered(s))
  {
    forall t | 0 <= t < |s.threads| ensures AtRest(s, t) {
      if !AtRest(s, t) { var ts := FreeChain(s, t); }
    }
    forall t | 0 <= t < |s.g.queues| ensures Down(s, t) { assert ThreadOk(s.g, t, s.threads[t]) && AtRest(s, t); }
    forall t | 0 <= t < |s.threads| ensures s.threads[t].send.NoSend? { assert AtRest(s, t); }
    if !AllExited(s) {
      if s.g.past.told { NobodyStranded(s); }
      AsleepMeansDelivered(s);
    }
  }
}

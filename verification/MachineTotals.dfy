/** Sums over all threads: how one thread's step changes them. */
module MachineTotals {
  import opened Options
  import opened Machine

  datatype Measure =
    | QWord(q: nat)   // what the thread has added to the lock word of queue q
    | QOwn(q: nat)    // 1 when it holds the lock of queue q
    | PWord(p: nat)
    | POwn(p: nat)
    | Idler           // 1 when it is counted in idle_count
    | Awake           // 1 for a core that is not
    | PastPush        // 1 between the push and the increment of a send
    | Debt            // messages it has taken off a queue and message_count still has to forget
    | HandOf(m: Msg)  // copies of m it has in hand: started to send, or taken and not delivered
    | BodyOf(x: nat)  // 1 while it runs the function whose result promise x awaits

  predicate IdlePc(pc: Pc) {
    pc.LastTest? || pc.SayBye? || pc.Bye? || pc.Enter? || pc.Asleep? || pc.Woken? || pc.Rouse? || pc.Exited?
  }

  predicate OwnsQueue(th: Thread, q: nat) {
    || ((th.pc.QLook? || th.pc.QSkip? || th.pc.PTry? || th.pc.PFail? || th.pc.Hold?) && th.pc.q == q)
    || ((th.send.SPush? || th.send.SFree?) && th.send.q == q)
  }

  /** A failed attempt whose increment has not been taken back. */
  predicate SpoilsQueue(th: Thread, q: nat) {
    (th.pc.QFail? && th.pc.q == q) || (th.send.SFail? && th.send.q == q)
  }

  predicate OwnsProcess(th: Thread, p: nat) {
    (th.pc.Hold? || th.pc.Run? || th.pc.XHold?) && th.pc.p == p
  }

  predicate SpoilsProcess(th: Thread, p: nat) {
    (th.pc.PFail? || th.pc.XFail?) && th.pc.p == p
  }

  function Count(ms: seq<Msg>, m: Msg): nat {
    if ms == [] then 0 else (if ms[0] == m then 1 else 0) + Count(ms[1..], m)
  }

  lemma {:induction false} CountPush(ms: seq<Msg>, last: Msg, m: Msg)
    ensures Count(ms + [last], m) == Count(ms, m) + if last == m then 1 else 0
  {
    if ms != [] {
      CountPush(ms[1..], last, m);
      assert (ms + [last])[0] == ms[0] && (ms + [last])[1..] == ms[1..] + [last];
    }
  }

  lemma {:induction false} CountIn(ms: seq<Msg>, i: nat)
    requires i < |ms|
    ensures Count(ms, ms[i]) > 0
  {
    if i > 0 { CountIn(ms[1..], i - 1); }
  }

  predicate InBody(th: Thread, x: nat) {
    && th.pc.Run? && th.pc.phase.Body? && 0 < th.pc.f <= |th.pc.taken|
    && th.pc.taken[th.pc.f - 1].Call? && th.pc.taken[th.pc.f - 1].promise == Some(x)
  }

  function Weight(m: Measure, th: Thread): nat {
    match m
    case QWord(q) => if OwnsQueue(th, q) || SpoilsQueue(th, q) then 1 else 0
    case QOwn(q) => if OwnsQueue(th, q) then 1 else 0
    case PWord(p) => if OwnsProcess(th, p) || SpoilsProcess(th, p) then 1 else 0
    case POwn(p) => if OwnsProcess(th, p) then 1 else 0
    case Idler => if IdlePc(th.pc) then 1 else 0
    case Awake => if IdlePc(th.pc) || OutsidePc(th.pc) then 0 else 1
    case PastPush => if th.send.SFree? || th.send.SCount? then 1 else 0
    case Debt =>
      (match th.pc
      case Hold(_, _, _, _, taken, future, stage) =>
        (if stage.Requeue? && taken != [] then 1 else |taken|) + |future|
      case Run(_, _, taken, _, _) => if taken != [] then 1 else 0
      case Settle(_, n) => if n > 0 then 1 else 0
      case _ => 0)
    case HandOf(m) =>
      (if (th.send.STry? || th.send.SFail? || th.send.SPush?) && th.send.m == m then 1 else 0)
      + (if th.pc.Hold? then Count(th.pc.taken, m) + Count(th.pc.future, m)
         else if th.pc.Run? && th.pc.f <= |th.pc.taken| then Count(th.pc.taken[th.pc.f..], m)
         else 0)
    case BodyOf(x) => if InBody(th, x) then 1 else 0
  }

  function Total(m: Measure, ts: seq<Thread>): nat {
    if ts == [] then 0 else Total(m, ts[..|ts| - 1]) + Weight(m, ts[|ts| - 1])
  }

  lemma {:induction false} TotalUpdate(m: Measure, ts: seq<Thread>, t: nat, th: Thread)
    requires t < |ts|
    ensures Total(m, ts[t := th]) + Weight(m, ts[t]) == Total(m, ts) + Weight(m, th)
  {
    var last := |ts| - 1;
    if t < last {
      TotalUpdate(m, ts[..last], t, th);
      assert ts[t := th][..last] == ts[..last][t := th];
    } else {
      assert ts[t := th][..last] == ts[..last];
    }
  }

  lemma {:induction false} TotalBound(m: Measure, ts: seq<Thread>, t: nat)
    requires t < |ts|
    ensures Weight(m, ts[t]) <= Total(m, ts)
  {
    var last := |ts| - 1;
    if t < last { TotalBound(m, ts[..last], t); }
  }

  lemma {:induction false} TotalTwo(m: Measure, ts: seq<Thread>, t: nat, u: nat)
    requires t < u < |ts|
    ensures Weight(m, ts[t]) + Weight(m, ts[u]) <= Total(m, ts)
  {
    var last := |ts| - 1;
    if u < last { TotalTwo(m, ts[..last], t, u); } else { TotalBound(m, ts[..last], t); }
  }

  /** A positive total has a thread behind it. */
  lemma {:induction false} TotalWitness(m: Measure, ts: seq<Thread>) returns (t: nat)
    requires Total(m, ts) > 0
    ensures t < |ts| && Weight(m, ts[t]) > 0
  {
    var last := |ts| - 1;
    if Weight(m, ts[last]) > 0 { t := last; } else { t := TotalWitness(m, ts[..last]); }
  }

  lemma {:induction false} TotalZero(m: Measure, ts: seq<Thread>)
    requires forall t :: 0 <= t < |ts| ==> Weight(m, ts[t]) == 0
    ensures Total(m, ts) == 0
  {
    if ts != [] { TotalZero(m, ts[..|ts| - 1]); }
  }

  lemma {:induction false} TotalPrefix(m: Measure, ts: seq<Thread>, n: nat)
    requires n <= |ts|
    requires forall t :: 0 <= t < |ts| ==> Weight(m, ts[t]) == if t < n then 1 else 0
    ensures Total(m, ts) == n
  {
    var last := |ts| - 1;
    if ts != [] { TotalPrefix(m, ts[..last], if n == |ts| then last else n); }
  }

  /** Total length of the queues. */
  function Load(queues: seq<seq<Msg>>): nat {
    if queues == [] then 0 else Load(queues[..|queues| - 1]) + |queues[|queues| - 1]|
  }

  lemma {:induction false} LoadUpdate(queues: seq<seq<Msg>>, q: nat, ms: seq<Msg>)
    requires q < |queues|
    ensures Load(queues[q := ms]) + |queues[q]| == Load(queues) + |ms|
  {
    var last := |queues| - 1;
    if q < last {
      LoadUpdate(queues[..last], q, ms);
      assert queues[q := ms][..last] == queues[..last][q := ms];
    } else {
      assert queues[q := ms][..last] == queues[..last];
    }
  }

  lemma {:induction false} LoadBound(queues: seq<seq<Msg>>, q: nat)
    requires q < |queues|
    ensures |queues[q]| <= Load(queues)
  {
    var last := |queues| - 1;
    if q < last { LoadBound(queues[..last], q); }
  }

  lemma {:induction false} LoadZero(queues: seq<seq<Msg>>)
    requires forall q :: 0 <= q < |queues| ==> queues[q] == []
    ensures Load(queues) == 0
  {
    if queues != [] { LoadZero(queues[..|queues| - 1]); }
  }

  /** Copies of m in the queues. */
  function Queued(queues: seq<seq<Msg>>, m: Msg): nat {
    if queues == [] then 0 else Queued(queues[..|queues| - 1], m) + Count(queues[|queues| - 1], m)
  }

  lemma {:induction false} QueuedUpdate(queues: seq<seq<Msg>>, q: nat, ms: seq<Msg>, m: Msg)
    requires q < |queues|
    ensures Queued(queues[q := ms], m) + Count(queues[q], m) == Queued(queues, m) + Count(ms, m)
  {
    var last := |queues| - 1;
    if q < last {
      QueuedUpdate(queues[..last], q, ms, m);
      assert queues[q := ms][..last] == queues[..last][q := ms];
    } else {
      assert queues[q := ms][..last] == queues[..last];
    }
  }

  lemma {:induction false} QueuedBound(queues: seq<seq<Msg>>, q: nat, m: Msg)
    requires q < |queues|
    ensures Count(queues[q], m) <= Queued(queues, m)
  {
    var last := |queues| - 1;
    if q < last { QueuedBound(queues[..last], q, m); }
  }

  lemma {:induction false} QueuedZero(queues: seq<seq<Msg>>, m: Msg)
    requires forall q :: 0 <= q < |queues| ==> queues[q] == []
    ensures Queued(queues, m) == 0
  {
    if queues != [] { QueuedZero(queues[..|queues| - 1], m); }
  }
}

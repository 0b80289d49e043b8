/** A when block that is missed: a whenever body registers it for a timer that has already been handled. */
module MachineMissed {
  import opened Options
  import opened Machine
  import opened MachineShape
  import opened MachineTotals
  import opened MachineLocks
  import opened MachineRuns
  import opened MachineTheorems

  /** One more step of a run. */
  lemma Step(s: State, t: nat, a: Act, s1: State)
    requires Reachable(s)
    requires Shape(s) ==> Enabled(s, Act(t, a)) && s1 == Next(s, Act(t, a))
    ensures Reachable(s1)
  {
    InvReachable(s);
    var s0, es :| Init(s0) && Replay(s0, es) == Some(s);
    var more := es + [Act(t, a)];
    assert more[..|more| - 1] == es;
    LastEvent(s0, more);
    assert Replay(s0, more) == Some(s1);
  }

  lemma Scans(s: State, t: nat, s1: State)
    requires Reachable(s) && t < |s.threads| == |s1.threads| && s1.threads == s.threads[t := s1.threads[t]]
    requires SharedOk(s.g) && ThreadOk(s.g, t, s.threads[t]) ==>
               ScanPc(s.threads[t].pc) && ScanStep(s.g, t, s.threads[t]) == Local(s1.g, s1.threads[t])
    ensures Reachable(s1)
  {
    Step(s, t, Scanning, s1);
  }

  lemma Collects(s: State, t: nat, s1: State)
    requires Reachable(s) && t < |s.threads| == |s1.threads| && s1.threads == s.threads[t := s1.threads[t]]
    requires SharedOk(s.g) && ThreadOk(s.g, t, s.threads[t]) ==>
               s.threads[t].pc.Hold? && CollectStep(s.g, t, s.threads[t]) == Local(s1.g, s1.threads[t])
    ensures Reachable(s1)
  {
    Step(s, t, Collecting, s1);
  }

  lemma Runs(s: State, t: nat, c: Choice, s1: State)
    requires Reachable(s) && t < |s.threads| == |s1.threads| && s1.threads == s.threads[t := s1.threads[t]]
    requires SharedOk(s.g) && ThreadOk(s.g, t, s.threads[t]) ==>
               s.threads[t].pc.Run? && RunEnabled(s.g, t, s.threads[t], c) && RunStep(s.g, t, s.threads[t], c) == Local(s1.g, s1.threads[t])
    ensures Reachable(s1)
  {
    Step(s, t, Running(c), s1);
  }

  lemma Posts(s: State, t: nat, c: Choice, s1: State)
    requires Reachable(s) && t < |s.threads| == |s1.threads| && s1.threads == s.threads[t := s1.threads[t]]
    requires SharedOk(s.g) && ThreadOk(s.g, t, s.threads[t]) ==>
               PostEnabled(s.g, s.threads[t], c) && PostStep(s.g, t, s.threads[t], c) == Local(s1.g, s1.threads[t])
    ensures Reachable(s1)
  {
    Step(s, t, Posting(c), s1);
  }

  // ---------------------------------------------------------------- the example

  const CALL := Call(0, None, 0)
  const TIMER := Timer(0, 0, 0)

  /** Two cores, one process, one outside thread.  Core 0 has not started. */
  ghost predicate Gets(pc: Pc, tries: nat, out: Sending, g: Shared) {
    && |g.queues| == |g.qlock| == 2 && |g.plock| == 1 && g.now == 0 && g.idle == 0
    && |g.whens| == |g.whenevers| == |g.past.order| == |g.past.log| == 1
    && Reachable(State(g, [Thread(Top, NoSend, 0), Thread(pc, NoSend, tries), Thread(Out, out, 0)]))
  }

  function At(pc: Pc, tries: nat, out: Sending, g: Shared): State {
    State(g, [Thread(Top, NoSend, 0), Thread(pc, NoSend, tries), Thread(Out, out, 0)])
  }

  // ---------------------------------------------------------------- stretches of the run

  /** Core 1 gets the queue and the process. */
  lemma Locked(g: Shared)
    requires Gets(Top, 0, NoSend, g) && g.qlock[0] == g.plock[0] == 0 && g.queues[0] != [] && g.queues[0][0].target == 0
    ensures Gets(Hold(0, 0, 0, 0, [], [], Draining), 1, NoSend, PAdd(QAdd(g, 0, 1), 0, 1))
  {
    var g1 := QAdd(g, 0, 1);
    assert Reachable(At(Scan(0), 1, NoSend, g)) by { Scans(At(Top, 0, NoSend, g), 1, At(Scan(0), 1, NoSend, g)); }
    assert Reachable(At(QLook(0, 0), 1, NoSend, g1)) by { Scans(At(Scan(0), 1, NoSend, g), 1, At(QLook(0, 0), 1, NoSend, g1)); }
    assert Reachable(At(PTry(0, 0, 0, 0), 1, NoSend, g1)) by { Scans(At(QLook(0, 0), 1, NoSend, g1), 1, At(PTry(0, 0, 0, 0), 1, NoSend, g1)); }
    var s2 := At(Hold(0, 0, 0, 0, [], [], Draining), 1, NoSend, PAdd(g1, 0, 1));
    assert Reachable(s2) by { Scans(At(PTry(0, 0, 0, 0), 1, NoSend, g1), 1, s2); }
  }

  lemma TakeCall(g: Shared, taken: seq<Msg>)
    requires Gets(Hold(0, 0, 0, 0, taken, [], Draining), 1, NoSend, g) && g.queues[0] != [] && g.queues[0][0] == CALL && |taken| < 2
    ensures Gets(Hold(0, 0, 0, 0, taken + [CALL], [], Draining), 1, NoSend, g.(queues := g.queues[0 := g.queues[0][1..]]))
  {
    var s1 := At(Hold(0, 0, 0, 0, taken + [CALL], [], Draining), 1, NoSend, g.(queues := g.queues[0 := g.queues[0][1..]]));
    Collects(At(Hold(0, 0, 0, 0, taken, [], Draining), 1, NoSend, g), 1, s1);
  }

  lemma TakeTimer(g: Shared, taken: seq<Msg>)
    requires Gets(Hold(0, 0, 0, 0, taken, [], Draining), 1, NoSend, g) && g.queues[0] != [] && g.queues[0][0] == TIMER && |taken| < 2
    requires |g.promises| == 1
    ensures Gets(Hold(0, 0, 0, 0, taken + [TIMER], [], Draining), 1, NoSend,
                 Resolve(g, 0, g.promises[0].chained).(queues := g.queues[0 := g.queues[0][1..]]))
  {
    var s1 := At(Hold(0, 0, 0, 0, taken + [TIMER], [], Draining), 1, NoSend,
                 Resolve(g, 0, g.promises[0].chained).(queues := g.queues[0 := g.queues[0][1..]]));
    Collects(At(Hold(0, 0, 0, 0, taken, [], Draining), 1, NoSend, g), 1, s1);
  }

  /** The queue is empty: the core settles the count and starts to deliver its two messages. */
  lemma Gathered(g: Shared, taken: seq<Msg>)
    requires Gets(Hold(0, 0, 0, 0, taken, [], Draining), 1, NoSend, g) && g.queues[0] == [] && |taken| == 2
    ensures Gets(Run(0, 0, taken, 0, Start), 1, NoSend, QAdd(g.(count := Wrap(g.count - 1)), 0, -1))
  {
    var s1 := At(Hold(0, 0, 0, 0, taken, [], Early), 1, NoSend, g);
    assert Reachable(s1) by { Collects(At(Hold(0, 0, 0, 0, taken, [], Draining), 1, NoSend, g), 1, s1); }
    var g2 := g.(count := Wrap(g.count - 1));
    var s2 := At(Hold(0, 0, 0, 0, taken, [], Requeue), 1, NoSend, g2);
    assert Reachable(s2) by { Collects(s1, 1, s2); }
    Collects(s2, 1, At(Run(0, 0, taken, 0, Start), 1, NoSend, QAdd(g2, 0, -1)));
  }

  /** m is taken up for delivery. */
  function Heard(g: Shared, m: Msg): Shared
    requires |g.past.log| == 1
  {
    g.(past := g.past.(
        done := g.past.done + multiset{m},
        log := if m.Timer? then g.past.log else g.past.log[0 := g.past.log[0] + [m]],
        heard := if m.Call? then g.past.heard else g.past.heard + {if m.Reply? then m.answer else m.timer}))
  }

  predicate Both(taken: seq<Msg>) {
    |taken| == 2 && taken[0] == CALL && taken[1] == TIMER
  }

  /** The function starts a whenever, which does not run yet. */
  lemma Called(g: Shared, taken: seq<Msg>)
    requires Gets(Run(0, 0, taken, 0, Start), 1, NoSend, g) && Both(taken)
    ensures Gets(Run(0, 0, taken, 1, Body), 1, NoSend, Heard(g, CALL))
  {
    Runs(At(Run(0, 0, taken, 0, Start), 1, NoSend, g), 1, Plain, At(Run(0, 0, taken, 1, Body), 1, NoSend, Heard(g, CALL)));
  }

  /** One more whenever block. */
  function Evermore(g: Shared): Shared
    requires |g.whenevers| == 1
  {
    g.(whenevers := g.whenevers[0 := g.whenevers[0] + 1])
  }

  lemma Started(g: Shared, taken: seq<Msg>)
    requires Gets(Run(0, 0, taken, 1, Body), 1, NoSend, g) && Both(taken)
    ensures Gets(Run(0, 0, taken, 1, Body), 1, NoSend, Evermore(g))
  {
    var s0 := At(Run(0, 0, taken, 1, Body), 1, NoSend, g);
    EverStep(g, s0.threads[1]);
    Runs(s0, 1, WatchEver, At(Run(0, 0, taken, 1, Body), 1, NoSend, Evermore(g)));
  }

  lemma EverStep(g: Shared, th: Thread)
    requires |g.whenevers| == |g.whens| == 1
    ensures UserStep(g, th, 0, WatchEver, false) == Local(Evermore(g), th)
  {
  }

  lemma Ended(g: Shared, taken: seq<Msg>)
    requires Gets(Run(0, 0, taken, 1, Body), 1, NoSend, g) && Both(taken)
    ensures Gets(Run(0, 0, taken, 1, WhenAt(0)), 1, NoSend, g)
  {
    Runs(At(Run(0, 0, taken, 1, Body), 1, NoSend, g), 1, Finish(false), At(Run(0, 0, taken, 1, WhenAt(0)), 1, NoSend, g));
  }

  lemma Passed(g: Shared, taken: seq<Msg>)
    requires Gets(Run(0, 0, taken, 1, WhenAt(0)), 1, NoSend, g) && Both(taken) && g.whens[0] == [] && g.whenevers[0] == 1
    ensures Gets(Run(0, 0, taken, 1, Start), 1, NoSend, g)
  {
    var s1 := At(Run(0, 0, taken, 1, EverAt(0)), 1, NoSend, g);
    assert Reachable(s1) by { Runs(At(Run(0, 0, taken, 1, WhenAt(0)), 1, NoSend, g), 1, Plain, s1); }
    var s2 := At(Run(0, 0, taken, 1, EverAt(1)), 1, NoSend, g);
    assert Reachable(s2) by { Runs(s1, 1, Taken(false), s2); }
    Runs(s2, 1, Plain, At(Run(0, 0, taken, 1, Start), 1, NoSend, g));
  }

  /** The timer is delivered, and then the whenever body runs. */
  lemma Fired(g: Shared, taken: seq<Msg>)
    requires Gets(Run(0, 0, taken, 1, Start), 1, NoSend, g) && Both(taken) && g.whens[0] == [] && g.whenevers[0] == 1
    ensures Gets(Run(0, 0, taken, 2, EverBody(0)), 1, NoSend, Heard(g, TIMER))
  {
    var g1 := Heard(g, TIMER);
    var s1 := At(Run(0, 0, taken, 2, WhenAt(0)), 1, NoSend, g1);
    assert Reachable(s1) by { Runs(At(Run(0, 0, taken, 1, Start), 1, NoSend, g), 1, Plain, s1); }
    var s2 := At(Run(0, 0, taken, 2, EverAt(0)), 1, NoSend, g1);
    assert Reachable(s2) by { Runs(s1, 1, Plain, s2); }
    Runs(s2, 1, Taken(true), At(Run(0, 0, taken, 2, EverBody(0)), 1, NoSend, g1));
  }

  /** It registers a when on the timer. */
  lemma Registered(g: Shared, taken: seq<Msg>)
    requires Gets(Run(0, 0, taken, 2, EverBody(0)), 1, NoSend, g) && |g.promises| == 1 && 0 in g.past.heard
    ensures Gets(Run(0, 0, taken, 2, EverBody(0)), 1, NoSend, Register(g, 0, OnReady(0, true)))
  {
    var s0 := At(Run(0, 0, taken, 2, EverBody(0)), 1, NoSend, g);
    var g1 := Register(g, 0, OnReady(0, true));
    assert UserStep(g, s0.threads[1], 0, Watch(0), true) == Local(g1, s0.threads[1]);
    Runs(s0, 1, Watch(0), At(Run(0, 0, taken, 2, EverBody(0)), 1, NoSend, g1));
  }

  /** The core is done. */
  lemma Finished(g: Shared, taken: seq<Msg>)
    requires Gets(Run(0, 0, taken, 2, EverBody(0)), 1, NoSend, g) && Both(taken) && g.whenevers[0] == 1
    ensures Gets(Run(0, 0, taken, 2, Start), 1, NoSend, g)
  {
    var s1 := At(Run(0, 0, taken, 2, EverAt(1)), 1, NoSend, g);
    assert Reachable(s1) by { Runs(At(Run(0, 0, taken, 2, EverBody(0)), 1, NoSend, g), 1, Finish(false), s1); }
    Runs(s1, 1, Plain, At(Run(0, 0, taken, 2, Start), 1, NoSend, g));
  }

  lemma Done(g: Shared, taken: seq<Msg>)
    requires Gets(Run(0, 0, taken, 2, Start), 1, NoSend, g) && Both(taken) && g.count == 1
    ensures Gets(Scan(1), 0, NoSend, PAdd(g, 0, -1).(count := 0))
  {
    var s1 := At(Settle(0, 2), 1, NoSend, PAdd(g, 0, -1));
    assert Reachable(s1) by { Runs(At(Run(0, 0, taken, 2, Start), 1, NoSend, g), 1, Plain, s1); }
    Step(s1, 1, Napping(Plain), At(Scan(1), 0, NoSend, PAdd(g, 0, -1).(count := 0)));
  }

  // ---------------------------------------------------------------- the two sends

  lemma Pushed(g: Shared, m: Msg)
    requires Gets(Top, 0, STry(m), g) && m.target == 0 && g.qlock[0] == 0
    ensures Gets(Top, 0, SFree(0), Sent(QAdd(g, 0, 1), m))
  {
    var s1 := At(Top, 0, SPush(0, m), QAdd(g, 0, 1));
    assert Reachable(s1) by { Posts(At(Top, 0, STry(m), g), 2, Plain, s1); }
    Posts(s1, 2, Plain, At(Top, 0, SFree(0), Sent(QAdd(g, 0, 1), m)));
  }

  /** m at the end of queue 0. */
  function Sent(g: Shared, m: Msg): Shared
    requires |g.queues| == 2 && |g.past.order| == 1
  {
    var order := g.past.order;
    var h := g.past.(order := if m.Timer? then order else order[0 := order[0] + [m]]);
    g.(queues := g.queues[0 := g.queues[0] + [m]], past := h)
  }

  lemma Freed(g: Shared)
    requires Gets(Top, 0, SFree(0), g)
    ensures Gets(Top, 0, SCount, QAdd(g, 0, -1))
  {
    Posts(At(Top, 0, SFree(0), g), 2, Plain, At(Top, 0, SCount, QAdd(g, 0, -1)));
  }

  lemma Counted(g: Shared, k: nat)
    requires Gets(Top, 0, SCount, g) && g.count == k < 2 && g.mutex == None
    ensures Gets(Top, 0, NoSend, g.(count := k + 1))
  {
    CountedOne(g);
    Checked(g.(count := k + 1));
  }

  lemma CountedOne(g: Shared)
    requires Gets(Top, 0, SCount, g)
    ensures Gets(Top, 0, SLockIdle, g.(count := Wrap(g.count + 1)))
  {
    Posts(At(Top, 0, SCount, g), 2, Plain, At(Top, 0, SLockIdle, g.(count := Wrap(g.count + 1))));
  }

  /** Nobody sleeps. */
  lemma Checked(g: Shared)
    requires Gets(Top, 0, SLockIdle, g) && g.count <= 2 && g.mutex == None
    ensures Gets(Top, 0, NoSend, g)
  {
    var g1 := g.(mutex := Some(2));
    var s1 := At(Top, 0, SCheck, g1);
    assert Reachable(s1) by { Posts(At(Top, 0, SLockIdle, g), 2, Plain, s1); }
    var s2 := At(Top, 0, SLeave, g1);
    assert Reachable(s2) by { Posts(s1, 2, Plain, s2); }
    Posts(s2, 2, Plain, At(Top, 0, NoSend, g));
  }

  lemma Undone(g: Shared, m: Msg)
    requires |g.queues| == 2 && |g.past.order| == 1 && |g.qlock| == 2 && g.qlock[0] == 0
    ensures QAdd(Sent(QAdd(g, 0, 1), m), 0, -1) == Sent(g, m)
  {
    assert g.qlock[0 := 1][0 := 0] == g.qlock;
  }

  /** A whole SendMessage that nobody disturbs. */
  lemma Delivers(g: Shared, m: Msg, k: nat) returns (g1: Shared)
    requires Gets(Top, 0, STry(m), g) && m.target == 0 && g.qlock[0] == 0 && g.count == k < 2 && g.mutex == None
    ensures Gets(Top, 0, NoSend, g1) && g1 == Sent(g, m).(count := k + 1)
  {
    Pushed(g, m);
    g1 := Sent(QAdd(g, 0, 1), m);
    Freed(g1);
    Undone(g, m);
    g1 := QAdd(g1, 0, -1);
    Counted(g1, k);
    g1 := g1.(count := k + 1);
  }

  lemma Asked(g: Shared)
    requires Gets(Top, 0, NoSend, g)
    ensures Gets(Top, 0, STry(CALL), g.(past := g.past.(sent := g.past.sent + multiset{CALL})))
  {
    Step(At(Top, 0, NoSend, g), 2, Outside(Ask(0, 0, false)),
         At(Top, 0, STry(CALL), g.(past := g.past.(sent := g.past.sent + multiset{CALL}))));
  }

  lemma TimerSet(g: Shared)
    requires Gets(Top, 0, NoSend, g) && g.promises == []
    ensures Gets(Top, 0, STry(TIMER), g.(promises := g.promises + [Promise(0, true, false, false, TIMER)],
                                         past := g.past.(sent := g.past.sent + multiset{TIMER})))
  {
    Step(At(Top, 0, NoSend, g), 2, Outside(SetTimer(0, 0)),
         At(Top, 0, STry(TIMER), g.(promises := g.promises + [Promise(0, true, false, false, TIMER)],
                                    past := g.past.(sent := g.past.sent + multiset{TIMER}))));
  }

  // ---------------------------------------------------------------- the whole run

  function Fresh(): Shared {
    Shared([[], []], [0, 0], [0], 0, 0, false, None, {}, 0, [], [[]], [0],
           History(multiset{}, multiset{}, [[]], [[]], {}, {}, false))
  }

  lemma Begun()
    ensures Gets(Top, 0, NoSend, Fresh())
  {
    var s := At(Top, 0, NoSend, Fresh());
    assert Init(s) && Replay(s, []) == Some(s);
  }

  /** What holds of the example throughout. */
  predicate Example(g: Shared) {
    && |g.queues| == |g.qlock| == 2 && |g.plock| == |g.whens| == |g.whenevers| == |g.promises| == 1
    && |g.past.order| == |g.past.log| == 1 && g.past.order[0] == [] + [CALL] && g.past.repl == {}
    && g.past.sent == multiset{} + multiset{CALL} + multiset{TIMER} && g.queues[1] == []
  }

  /** Two sends are done and nothing else has happened. */
  predicate Posted(g: Shared) {
    && Example(g) && Both(g.queues[0]) && g.qlock[0] == 0 && g.plock[0] == 0 && g.count == 2
    && g.promises[0] == Promise(0, true, false, false, TIMER) && g.whens[0] == [] && g.whenevers[0] == 0
    && g.past.done == multiset{} && g.past.log[0] == []
  }

  function CallBegun(): Shared {
    Fresh().(past := Fresh().past.(sent := Fresh().past.sent + multiset{CALL}))
  }

  lemma SendsCall() returns (g: Shared)
    ensures Gets(Top, 0, NoSend, g) && g == Sent(CallBegun(), CALL).(count := 1)
  {
    Begun();
    Asked(Fresh());
    g := Delivers(CallBegun(), CALL, 0);
  }

  lemma Sends() returns (g: Shared)
    ensures Gets(Top, 0, NoSend, g) && Posted(g)
  {
    var g1 := SendsCall();
    TimerSet(g1);
    var g2 := g1.(promises := g1.promises + [Promise(0, true, false, false, TIMER)], past := g1.past.(sent := g1.past.sent + multiset{TIMER}));
    g := Delivers(g2, TIMER, 1);
  }

  /** Core 1 has taken both messages. */
  predicate Batched(g: Shared) {
    && Example(g) && g.queues[0] == [] && g.plock[0] == 1 && g.count == 1
    && g.promises[0] == Promise(0, true, true, false, TIMER) && g.whens[0] == [] && g.whenevers[0] == 0
    && g.past.done == multiset{} && g.past.log[0] == []
  }

  lemma Takes(g0: Shared) returns (g: Shared, taken: seq<Msg>)
    requires Gets(Hold(0, 0, 0, 0, [], [], Draining), 1, NoSend, g0) && Both(g0.queues[0]) && |g0.promises| == 1
    ensures Gets(Hold(0, 0, 0, 0, taken, [], Draining), 1, NoSend, g) && Both(taken)
    ensures g == Resolve(g0, 0, g0.promises[0].chained).(queues := g.queues)
    ensures |g.queues| == 2 && g.queues[0] == [] && g.queues[1] == g0.queues[1]
  {
    TakeCall(g0, []);
    var g1, t1 := g0.(queues := g0.queues[0 := g0.queues[0][1..]]), [] + [CALL];
    TakeTimer(g1, t1);
    g, taken := Resolve(g1, 0, g1.promises[0].chained).(queues := g1.queues[0 := g1.queues[0][1..]]), t1 + [TIMER];
  }

  lemma Batches(g0: Shared) returns (g: Shared, taken: seq<Msg>)
    requires Gets(Top, 0, NoSend, g0) && Posted(g0)
    ensures Gets(Run(0, 0, taken, 0, Start), 1, NoSend, g) && Both(taken) && Batched(g)
  {
    Locked(g0);
    var g1;
    g1, taken := Takes(PAdd(QAdd(g0, 0, 1), 0, 1));
    Gathered(g1, taken);
    g := QAdd(g1.(count := 1), 0, -1);
  }

  /** Core 1 is back to scanning. */
  predicate Over(g: Shared) {
    && Example(g) && g.queues[0] == [] && g.count == 0
    && g.promises[0] == Promise(0, true, true, false, TIMER) && g.whens[0] == [] + [OnReady(0, true)]
    && g.past.sent == g.past.done && g.past.log[0] == g.past.order[0]
  }

  lemma CallRuns(g0: Shared, taken: seq<Msg>) returns (g: Shared)
    requires Gets(Run(0, 0, taken, 0, Start), 1, NoSend, g0) && Both(taken) && Batched(g0)
    ensures Gets(Run(0, 0, taken, 1, WhenAt(0)), 1, NoSend, g) && g == Evermore(Heard(g0, CALL))
  {
    Called(g0, taken);
    Started(Heard(g0, CALL), taken);
    g := Evermore(Heard(g0, CALL));
    Ended(g, taken);
  }

  lemma TimerRuns(g0: Shared, taken: seq<Msg>) returns (g: Shared)
    requires Gets(Run(0, 0, taken, 1, WhenAt(0)), 1, NoSend, g0) && Both(taken) && g0.whens[0] == [] && g0.whenevers[0] == 1
    requires |g0.promises| == 1 && g0.count == 1
    ensures Gets(Scan(1), 0, NoSend, g) && g == PAdd(Register(Heard(g0, TIMER), 0, OnReady(0, true)), 0, -1).(count := 0)
  {
    Passed(g0, taken);
    Fired(g0, taken);
    g := Heard(g0, TIMER);
    Registered(g, taken);
    g := Register(g, 0, OnReady(0, true));
    Finished(g, taken);
    Done(g, taken);
    g := PAdd(g, 0, -1).(count := 0);
  }

  lemma OverAtLast(g: Shared)
    requires Batched(g)
    ensures Over(PAdd(Register(Heard(Evermore(Heard(g, CALL)), TIMER), 0, OnReady(0, true)), 0, -1).(count := 0))
  {
  }

  lemma Ends() returns (g: Shared)
    ensures Gets(Scan(1), 0, NoSend, g) && Over(g)
  {
    var g0 := Sends();
    var g1, taken := Batches(g0);
    OverAtLast(g1);
    var g2 := CallRuns(g1, taken);
    g := TimerRuns(g2, taken);
  }

  /** A run at whose end everything is delivered, and a when block of a process that ran no incremental code
      waits for a timer of its own that is ready. */
  lemma MissedWhen() returns (s: State)
    ensures Reachable(s) && |s.g.past.order| == |s.g.past.log| && Delivered(s) && NobodySends(s)
    ensures forall t :: 0 <= t < |s.threads| ==> !OwnsProcess(s.threads[t], 0)
    ensures |s.g.whens| == 1 && |s.g.whens[0]| == 1 && Waiting(s.g, 0, 0)
  {
    var g := Ends();
    s := At(Scan(1), 0, NoSend, g);
    OverWaits(g, s.threads);
  }

  lemma OverWaits(g: Shared, ts: seq<Thread>)
    requires Over(g) && forall t :: 0 <= t < |ts| ==> ts[t].send.NoSend? && (ts[t].pc.Top? || ts[t].pc.Scan? || ts[t].pc.Out?)
    ensures Delivered(State(g, ts)) && NobodySends(State(g, ts)) && Waiting(g, 0, 0)
  {
    assert g.past.log == g.past.order;
  }
}

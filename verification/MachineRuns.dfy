/** The invariant of the machine, and what it says about every state of every run. */
module MachineRuns {
  import opened Options
  import opened Machine
  import opened MachineShape
  import opened MachineTotals
  import opened MachineLocks
  import opened MachineCount
  import opened MachineWake
  import opened MachineExit
  import opened MachineOrder
  import opened MachinePromises
  import opened MachineWhen

  ghost predicate Inv(s: State) {
    && Shape(s) && Locks(s) && IdleCount(s) && Account(s) && Wake(s) && Farewell(s)
    && Clock(s) && Order(s) && Conserve(s) && Promises(s) && Whens(s) && Lates(s.g)
  }

  lemma InvInit(s: State)
    requires Init(s)
    ensures Inv(s)
  {
    LocksInit(s);
    CountsInit(s);
    WakeInit(s);
    ConserveInit(s);
    HistoryInit(s);
  }

  lemma ConserveInit(s: State)
    requires Init(s)
    ensures Conserve(s)
  {
    forall m: Msg ensures Kept(s, m) {
      QueuedZero(s.g.queues, m);
      TotalZero(HandOf(m), s.threads);
    }
  }

  lemma HistoryInit(s: State)
    requires Init(s)
    ensures Clock(s) && Order(s) && Promises(s) && Whens(s) && Lates(s.g)
  {
  }

  lemma {:induction false} InvTick(s: State, dt: nat)
    requires Inv(s)
    ensures Inv(Next(s, Tick(dt)))
  {
    var s1 := Next(s, Tick(dt));
    NextShape(s, Tick(dt), s1);
    LocksStep(s, Tick(dt), s1);
    WakeTick(s, dt, s1);
    ClockStep(s, Tick(dt), s1);
    TickExit(s, dt, s1);
    TickMessages(s, dt, s1);
    LatesSame(s.g, s1.g);
  }

  lemma TickExit(s: State, dt: nat, s1: State)
    requires Shape(s) && Farewell(s) && IdleCount(s) && Account(s) && s1 == s.(g := s.g.(now := s.g.now + dt))
    ensures Farewell(s1) && IdleCount(s1) && Account(s1)
  {
    forall t | 0 <= t < |s1.threads| ensures FarewellThread(s1.g, s1.threads[t]) { assert FarewellThread(s.g, s.threads[t]); }
    forall t | 0 <= t < |s1.threads| && s1.threads[t].pc.Enter? && s1.g.idle == |s1.g.queues| ensures NobodyGone(s1) {
      assert NobodyGone(s);
    }
    if s1.g.past.told && !AllExited(s1) {
      assert !AllExited(s);
      var d :| 0 <= d < |s.g.queues| && !Down(s, d);
      assert !Down(s1, d);
    }
  }

  lemma TickMessages(s: State, dt: nat, s1: State)
    requires Shape(s) && Shape(s1) && s1 == s.(g := s.g.(now := s.g.now + dt))
    requires Order(s) && Conserve(s) && Promises(s) && Whens(s)
    ensures Order(s1) && Conserve(s1) && Promises(s1) && Whens(s1)
  {
    forall p | 0 <= p < |s1.g.plock| ensures OrderFor(s1, p) {
      assert OrderFor(s, p);
      forall t | 0 <= t < |s1.threads| && InBatch(s1.threads[t], p) ensures InLine(s1.g, s1.threads[t], p) {
        assert InLine(s.g, s.threads[t], p);
      }
      if forall t :: 0 <= t < |s1.threads| ==> !InBatch(s1.threads[t], p) { assert NoLine(s.g, p); }
    }
    forall m: Msg ensures Kept(s1, m) { assert Kept(s, m); }
    HistorySame(s.g, s1.g);
    forall x | 0 <= x < |s1.g.promises| ensures PromiseOk(s1.g, x) && Ledger(s1, x) { assert PromiseOk(s.g, x) && Ledger(s, x); }
    forall t | 0 <= t < |s1.threads| ensures TakenOk(s1.g, s1.threads[t]) && PassOk(s1.g, s1.threads[t]) {
      assert TakenOk(s.g, s.threads[t]) && PassOk(s.g, s.threads[t]);
    }
    forall p, i | 0 <= p < |s1.g.whens| && 0 <= i < |s1.g.whens[p]| ensures Served(s1, p, i) { assert Served(s, p, i); }
  }

  lemma InvAct(s: State, t: nat, a: Act)
    requires Inv(s) && Enabled(s, Act(t, a))
    ensures Inv(Next(s, Act(t, a)))
  {
    var e := Act(t, a);
    var s1 := Next(s, e);
    var r := Local(s1.g, s1.threads[t]);
    NextShape(s, e, s1);
    LocksStep(s, e, s1);
    CountsStep(s, e, s1);
    WakeStep(s, e, s1);
    FarewellStep(s, t, a, r, s1);
    ClockStep(s, e, s1);
    OrderStep(s, t, a, r, s1);
    ConserveStep(s, t, a, r);
    PromisesStep(s, t, a, r, s1);
    WhensStep(s, t, a, r, s1);
    LatesStep(s, t, a, r);
  }

  lemma InvStep(s: State, e: Event)
    requires Inv(s) && Enabled(s, e)
    ensures Inv(Next(s, e))
  {
    match e
    case Tick(dt) => InvTick(s, dt);
    case Act(t, a) => InvAct(s, t, a);
  }

  /** The state after the given events, when each is possible where it stands. */
  function Replay(s: State, es: seq<Event>): Option<State>
    decreases |es|, 2
  {
    if es == [] then Some(s) else Extended(s, es)
  }

  function Extended(s: State, es: seq<Event>): Option<State>
    requires es != []
    decreases |es|, 1
  {
    After(s, es[..|es| - 1], es[|es| - 1])
  }

  /** One more event. */
  function After(s: State, es: seq<Event>, e: Event): Option<State>
    decreases |es|, 3
  {
    var before := Replay(s, es);
    if before.Some? && Shape(before.value) && Enabled(before.value, e) then Some(Next(before.value, e)) else None
  }

  lemma LastEvent(s: State, es: seq<Event>)
    requires es != []
    ensures var before, e := Replay(s, es[..|es| - 1]), es[|es| - 1];
      Replay(s, es) ==
        if before.Some? && Shape(before.value) && Enabled(before.value, e) then Some(Next(before.value, e)) else None
  {
    assert Replay(s, es) == Extended(s, es) == After(s, es[..|es| - 1], es[|es| - 1]);
  }

  ghost predicate Reachable(s: State) {
    exists s0, es :: Init(s0) && Replay(s0, es) == Some(s)
  }

  lemma {:induction false} InvReplay(s0: State, es: seq<Event>, s: State)
    requires Inv(s0) && Replay(s0, es) == Some(s)
    ensures Inv(s)
  {
    if es != [] {
      LastEvent(s0, es);
      var before := Replay(s0, es[..|es| - 1]);
      InvReplay(s0, es[..|es| - 1], before.value);
      InvStep(before.value, es[|es| - 1]);
    }
  }

  lemma InvReachable(s: State)
    requires Reachable(s)
    ensures Inv(s)
  {
    var s0, es :| Init(s0) && Replay(s0, es) == Some(s);
    InvInit(s0);
    InvReplay(s0, es, s);
  }
}

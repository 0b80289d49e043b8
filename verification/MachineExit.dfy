/** Shutdown: who may leave, and that nobody is left asleep. */
module MachineExit {
  import opened Machine
  import opened MachineShape
  import opened MachineTotals
  import opened MachineLocks
  import opened MachineCount
  import opened MachineWake

  predicate FarewellThread(g: Shared, th: Thread) {
    && (th.pc.Exited? || th.pc.SayBye? || th.pc.Bye? || th.pc.XStored? ==> g.exit)
    && (th.pc.SayBye? || th.pc.Bye? ==> g.idle == |g.queues|)
    && (th.pc.Bye? ==> g.waiters == {})
    && (th.pc.Enter? && g.idle == |g.queues| && g.past.told ==> g.waiters == {})
  }

  predicate NobodyGone(s: State)
    requires |s.g.queues| <= |s.threads|
  {
    forall u :: 0 <= u < |s.g.queues| ==> !s.threads[u].pc.Exited?
  }

  predicate Farewell(s: State)
    requires |s.g.queues| <= |s.threads|
  {
    && (forall t :: 0 <= t < |s.threads| ==> FarewellThread(s.g, s.threads[t]))
    && (s.g.past.told ==> s.g.exit)
    && (forall t :: 0 <= t < |s.threads| && s.threads[t].pc.Enter? && s.g.idle == |s.g.queues| ==> NobodyGone(s))
    && (s.g.past.told ==> AllExited(s) || !AllDown(s))
  }

  /** What one step does to the flags; only a holder of idle_lock counts itself idle or waits. */
  predicate ExitFair(g: Shared, t: nat, th: Thread, r: Local) {
    && |r.g.queues| == |g.queues|
    && (g.exit ==> r.g.exit)
    && (g.past.told ==> r.g.past.told)
    && (r.g.past.told ==> g.past.told || (r.g.waiters == {} && r.g.exit))
    && (!HoldsMutex(th) ==> r.g.idle == g.idle && r.g.waiters <= g.waiters)
    && r.g.waiters <= g.waiters + {t}
    && (t in r.g.waiters && t !in g.waiters ==> th.pc.Enter? && r.th.pc.Asleep? && r.g.idle == g.idle && r.g.waiters == g.waiters + {t})
    && (r.th.pc.Exited? && !th.pc.Exited? ==> th.pc.Bye?)
    && (th.pc.Bye? ==> r.g.waiters == g.waiters)
    && (th.pc.Exited? ==> r.th.pc.Exited?)
    && (r.th.pc.Asleep? ==> th.pc.Enter? && t in r.g.waiters)
    && (r.th.pc.Enter? ==> th.pc.LastTest? && r.g == g && (g.exit ==> g.idle != |g.queues|))
    && FarewellThread(r.g, r.th)
  }

  lemma ExitNap(g: Shared, t: nat, th: Thread, c: Choice, r: Local)
    requires SharedOk(g) && ThreadOk(g, t, th) && NapPc(th.pc) && NapEnabled(g, th, c) && r == NapStep(g, t, th, c)
    requires FarewellThread(g, th) && 0 <= g.count && (g.past.told ==> g.exit) && (t in g.waiters ==> th.pc.Asleep?)
    ensures ExitFair(g, t, th, r)
  {
  }

  lemma ExitOut(g: Shared, t: nat, th: Thread, c: Choice, r: Local)
    requires SharedOk(g) && ThreadOk(g, t, th) && OutsidePc(th.pc) && OutEnabled(g, t, th, c) && r == OutStep(g, t, th, c)
    requires FarewellThread(g, th) && (g.past.told ==> g.exit)
    ensures ExitFair(g, t, th, r)
  {
    OutFrame(g, t, th, c, r);
  }

  lemma ExitStep(g: Shared, t: nat, th: Thread, a: Act, r: Local)
    requires SharedOk(g) && ThreadOk(g, t, th) && ActEnabled(g, t, th, a) && r == ActStep(g, t, th, a)
    requires FarewellThread(g, th) && 0 <= g.count && (g.past.told ==> g.exit) && (t in g.waiters ==> th.pc.Asleep?)
    ensures ExitFair(g, t, th, r)
  {
    match a
    case Scanning => ScanFrame(g, t, th, r);
    case Collecting => CollectFrame(g, t, th, r);
    case Running(c) => RunFrame(g, t, th, c, r);
    case Napping(c) => ExitNap(g, t, th, c, r);
    case Posting(c) => PostFrame(g, t, th, c, r);
    case Outside(c) => ExitOut(g, t, th, c, r);
  }

  lemma NobodyGoneStep(s: State, t: nat, r: Local, s1: State)
    requires Shape(s) && t < |s.threads| && s1 == State(r.g, s.threads[t := r.th])
    requires ExitFair(s.g, t, s.threads[t], r) && Farewell(s) && Locks(s)
    ensures forall u :: 0 <= u < |s1.threads| && s1.threads[u].pc.Enter? && s1.g.idle == |s1.g.queues| ==> NobodyGone(s1)
  {
    var th := s.threads[t];
    forall u | 0 <= u < |s1.threads| && s1.threads[u].pc.Enter? && s1.g.idle == |s1.g.queues| ensures NobodyGone(s1) {
      if u == t {
        assert FarewellThread(s.g, th);
        forall v | 0 <= v < |s.g.queues| ensures !s1.threads[v].pc.Exited? { assert FarewellThread(s.g, s.threads[v]); }
      } else {
        assert HoldsMutex(s.threads[u]);
        assert !HoldsMutex(th);
        assert NobodyGone(s);
      }
    }
  }

  /** The core that falls asleep after Shutdown's signal leaves somebody up. */
  lemma LastSleeper(s: State, t: nat, r: Local, s1: State)
    requires Shape(s) && t < |s.threads| && s1 == State(r.g, s.threads[t := r.th]) && |r.g.queues| == |s.g.queues|
    requires ExitFair(s.g, t, s.threads[t], r) && Farewell(s) && IdleCount(s)
    requires s.threads[t].pc.Enter? && r.th.pc.Asleep? && r.g.waiters == s.g.waiters + {t} && s.g.past.told
    ensures !AllDown(s1)
  {
    assert FarewellThread(s.g, s.threads[t]);
    assert ThreadOk(s.g, t, s.threads[t]);
    if s.g.idle == |s.g.queues| {
      var u := if t == 0 then 1 else 0;
      assert NobodyGone(s) && !Down(s1, u);
    } else {
      assert Total(Awake, s.threads) > 0;
      var u := TotalWitness(Awake, s.threads);
      assert ThreadOk(s.g, u, s.threads[u]);
      assert !Down(s1, u);
    }
  }

  lemma ToldStep(s: State, t: nat, r: Local, s1: State)
    requires Shape(s) && t < |s.threads| && s1 == State(r.g, s.threads[t := r.th]) && |r.g.queues| == |s.g.queues|
    requires ExitFair(s.g, t, s.threads[t], r) && Farewell(s) && IdleCount(s) && Waiters(s)
    ensures s1.g.past.told ==> AllExited(s1) || !AllDown(s1)
  {
    var th := s.threads[t];
    if s1.g.past.told && !AllExited(s1) {
      var e :| 0 <= e < |s.g.queues| && !s1.threads[e].pc.Exited?;
      assert FarewellThread(s.g, th);
      if !s.g.past.told || th.pc.Bye? {
        assert !Down(s1, e);
      } else {
        assert !s.threads[e].pc.Exited?;
        var d :| 0 <= d < |s.g.queues| && !Down(s, d);
        if d == t && r.th.pc.Asleep? && t in r.g.waiters {
          LastSleeper(s, t, r, s1);
        } else {
          assert !Down(s1, d);
        }
      }
    }
  }

  lemma FarewellStep(s: State, t: nat, a: Act, r: Local, s1: State)
    requires Shape(s) && t < |s.threads| && ActEnabled(s.g, t, s.threads[t], a) && r == ActStep(s.g, t, s.threads[t], a)
    requires s1 == State(r.g, s.threads[t := r.th]) && Shape(s1)
    requires Farewell(s) && Locks(s) && IdleCount(s) && Waiters(s) && Account(s)
    ensures Farewell(s1)
  {
    var th := s.threads[t];
    assert FarewellThread(s.g, th);
    ExitStep(s.g, t, th, a, r);
    NobodyGoneStep(s, t, r, s1);
    ToldStep(s, t, r, s1);
    forall u | 0 <= u < |s1.threads| ensures FarewellThread(s1.g, s1.threads[u]) {
      if u != t {
        assert FarewellThread(s.g, s.threads[u]);
        assert HoldsMutex(s.threads[u]) ==> !HoldsMutex(th);
      }
    }
  }
}

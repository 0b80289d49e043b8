/**
 The message scheduler of the virtual machine as a transition system.

 N cores run CoreMain; any number of outside threads send messages, run
 incremental code under a process lock and call Shutdown.  Every step is one
 atomic action of one thread (a fetch-add, a mutex acquisition, an access made
 under a lock), taken in any order; the clock moves in steps of its own.
 */
module Machine {
  import opened Options
  import Passes

  const WORD: int := 0x1_0000_0000  // message_count is a u32
  const BATCH: nat := 16            // size of the local message buffer
  const RETRIES: nat := 10          // scans without work before a nap

  /** A queued call: CallData with a function, a promise notification, or a timer. */
  datatype Msg =
    | Call(target: nat, promise: Option<nat>, time: int)
    | Reply(target: nat, answer: nat, time: int)
    | Timer(target: nat, timer: nat, time: int)

  /** `msg` is the message that carries the promise to its producer (a call, or the timer itself). */
  datatype Promise = Promise(owner: nat, timer: bool, ready: bool, chained: bool, msg: Msg)

  /** A registered when block: one that waits for a promise, or any other condition.  `late` is history:
      a whenever body registered it after the notice of its promise had been delivered. */
  datatype When = OnReady(x: nat, late: bool) | Other

  /** Where delivery of one message stands: between messages, in the function body,
      at or inside when block i, at or inside whenever block i. */
  datatype Phase = Start | Body | WhenAt(i: nat) | WhenBody(i: nat) | EverAt(i: nat) | EverBody(i: nat)

  datatype Stage = Draining | Early | Requeue

  datatype Pc =
    // scanning the queues
    | Top
    | Scan(j: nat)
    | QFail(j: nat, q: nat)
    | QLook(j: nat, q: nat)
    | QSkip(j: nat, q: nat)
    | PTry(j: nat, q: nat, p: nat, time: int)
    | PFail(j: nat, q: nat, p: nat)
    // holding queue q and process p, collecting a batch
    | Hold(j: nat, q: nat, p: nat, time: int, taken: seq<Msg>, future: seq<Msg>, stage: Stage)
    // holding process p, delivering the batch
    | Run(j: nat, p: nat, taken: seq<Msg>, f: nat, phase: Phase)
    | Settle(j: nat, n: nat)
    // going to sleep
    | Nap
    | NapCount(m: int)
    | NapIdle(k: int)
    | LockIdle
    | Recheck
    | GoIdle
    | LastTest
    | SayBye
    | Bye
    | Enter
    | Asleep
    | Woken
    | Rouse
    | LeaveIdle
    | Exited
    // outside threads
    | Out
    | XTry(p: nat)
    | XFail(p: nat)
    | XHold(p: nat)
    | XStored
    | XDone

  /** Progress of a SendMessage call made by the thread. */
  datatype Sending =
    | NoSend
    | STry(m: Msg)
    | SFail(q: nat, m: Msg)
    | SPush(q: nat, m: Msg)
    | SFree(q: nat)
    | SCount
    | SLockIdle
    | SCheck
    | SNotify
    | SLeave

  datatype Thread = Thread(pc: Pc, send: Sending, tries: nat)

  /** What has happened so far; no step depends on it.  Per process: `order` is the sequence of calls and
      notifications pushed for it, `log` the sequence delivered to it. */
  datatype History = History(
    sent: multiset<Msg>,
    done: multiset<Msg>,
    order: seq<seq<Msg>>,
    log: seq<seq<Msg>>,
    heard: set<nat>,    // promises whose notification or timer message has been delivered
    repl: set<nat>,     // processes that ran incremental code
    told: bool          // Shutdown has signalled every sleeper
  )

  /** `waiters` are the threads blocked on message_waiting_event and not signalled since. */
  datatype Shared = Shared(
    queues: seq<seq<Msg>>,
    qlock: seq<int>,
    plock: seq<int>,
    count: int,
    idle: int,
    exit: bool,
    mutex: Option<nat>,
    waiters: set<nat>,
    now: int,
    promises: seq<Promise>,
    whens: seq<seq<When>>,
    whenevers: seq<nat>,
    past: History
  )

  datatype State = State(g: Shared, threads: seq<Thread>)

  /** The outcome of one step of one thread. */
  datatype Local = Local(g: Shared, th: Thread)

  /** What running code does next, where the machine leaves it open. */
  datatype Choice =
    | Plain
    | Taken(yes: bool)                          // outcome of a condition
    | Ask(target: nat, owner: nat, wants: bool) // process message
    | SetTimer(owner: nat, duration: int)
    | Watch(x: nat)                             // register a when block on a promise
    | WatchOther
    | WatchEver
    | Finish(chained: bool)
    | Lock(p: nat)
    | Shut
    | Quit
    | Signal(w: nat)

  datatype Act = Scanning | Collecting | Running(c: Choice) | Napping(c: Choice) | Posting(c: Choice) | Outside(c: Choice)

  datatype Event = Act(t: nat, a: Act) | Tick(dt: nat)

  // ---------------------------------------------------------------- shape

  predicate MsgOk(g: Shared, m: Msg) {
    && m.target < |g.plock|
    && match m
       case Call(_, promise, _) => promise.Some? ==>
         promise.value < |g.promises| && !g.promises[promise.value].timer && g.promises[promise.value].msg == m
       case Reply(p, x, _) => x < |g.promises| && !g.promises[x].timer && g.promises[x].owner == p
       case Timer(p, x, _) => x < |g.promises| && g.promises[x].timer && g.promises[x].owner == p && g.promises[x].msg == m
  }

  predicate BatchOk(g: Shared, p: nat, ms: seq<Msg>) {
    forall i :: 0 <= i < |ms| ==> MsgOk(g, ms[i]) && ms[i].target == p
  }

  predicate PcOk(g: Shared, pc: Pc) {
    var n := |g.queues|;
    match pc
    case Scan(j) => j <= n
    case QFail(j, q) => j < n && q < n
    case QLook(j, q) => j < n && q < n
    case QSkip(j, q) => j < n && q < n
    case PTry(j, q, p, _) => j < n && q < n && p < |g.plock| && p % n == q
    case PFail(j, q, p) => j < n && q < n && p < |g.plock| && p % n == q
    case Hold(j, q, p, _, taken, future, _) =>
      && j < n && q < n && p < |g.plock| && p % n == q
      && |taken| <= BATCH && BatchOk(g, p, taken) && BatchOk(g, p, future)
    case Run(j, p, taken, f, phase) =>
      && j < n && p < |g.plock| && |taken| <= BATCH && BatchOk(g, p, taken) && f <= |taken|
      && (phase.Start? || f > 0) && (phase.Body? ==> taken[f - 1].Call?)
    case Settle(j, _) => j < n
    case XTry(p) => p < |g.plock|
    case XFail(p) => p < |g.plock|
    case XHold(p) => p < |g.plock|
    case _ => true
  }

  predicate SendOk(g: Shared, send: Sending)
    requires g.queues != []
  {
    match send
    case STry(m) => MsgOk(g, m)
    case SFail(q, m) => MsgOk(g, m) && q == m.target % |g.queues|
    case SPush(q, m) => MsgOk(g, m) && q == m.target % |g.queues|
    case SFree(q) => q < |g.queues|
    case _ => true
  }

  predicate OutsidePc(pc: Pc) {
    pc.Out? || pc.XTry? || pc.XFail? || pc.XHold? || pc.XStored? || pc.XDone?
  }

  /** Threads 0..N-1 are the cores; only running code sends. */
  predicate ThreadOk(g: Shared, t: nat, th: Thread) {
    && g.queues != []
    && PcOk(g, th.pc)
    && SendOk(g, th.send)
    && (t < |g.queues| <==> !OutsidePc(th.pc))
    && (th.send.NoSend? || th.pc.Run? || th.pc.Out? || th.pc.XHold?)
  }

  predicate QueueOk(g: Shared, q: nat)
    requires q < |g.queues|
  {
    forall i :: 0 <= i < |g.queues[q]| ==> MsgOk(g, g.queues[q][i]) && g.queues[q][i].target % |g.queues| == q
  }

  /** There are as many queues as cores, and at least two (eople_vm.cpp:310). */
  predicate SharedOk(g: Shared) {
    && 2 <= |g.queues|
    && |g.qlock| == |g.queues|
    && |g.whens| == |g.whenevers| == |g.past.order| == |g.past.log| == |g.plock|
    && (forall q :: 0 <= q < |g.queues| ==> QueueOk(g, q))
    && (forall x :: 0 <= x < |g.promises| ==> g.promises[x].owner < |g.plock|)
  }

  /** What typing and the index arithmetic of the program guarantee. */
  predicate Shape(s: State) {
    && SharedOk(s.g)
    && |s.g.queues| <= |s.threads|
    && (forall t :: 0 <= t < |s.threads| ==> ThreadOk(s.g, t, s.threads[t]))
  }

  // ---------------------------------------------------------------- steps

  function QAdd(g: Shared, q: nat, d: int): Shared
    requires q < |g.qlock|
  {
    g.(qlock := g.qlock[q := g.qlock[q] + d])
  }

  function PAdd(g: Shared, p: nat, d: int): Shared
    requires p < |g.plock|
  {
    g.(plock := g.plock[p := g.plock[p] + d])
  }

  /** u32 arithmetic, for a result less than one word out of range. */
  function Wrap(x: int): int {
    if x < 0 then x + WORD else if x < WORD then x else x - WORD
  }

  predicate ScanPc(pc: Pc) {
    pc.Top? || pc.Scan? || pc.QFail? || pc.QLook? || pc.QSkip? || pc.PTry? || pc.PFail?
  }

  /** Scanning the queues for work: eople_vm.cpp:180-194, and lines 263-269 on the way out. */
  function ScanStep(g: Shared, t: nat, th: Thread): Local
    requires SharedOk(g) && ThreadOk(g, t, th) && ScanPc(th.pc)
  {
    var n := |g.queues|;
    match th.pc
    case Top => Local(g, th.(pc := Scan(0), tries := th.tries + 1))
    case Scan(j) =>
      if j < n then
        var q := (j + t + 1) % n;
        Local(QAdd(g, q, 1), th.(pc := if g.qlock[q] == 0 then QLook(j, q) else QFail(j, q)))
      else if th.tries > RETRIES then Local(g, th.(pc := Nap, tries := 0))
      else Local(g, th.(pc := Top))
    case QFail(j, q) => Local(QAdd(g, q, -1), th.(pc := Scan(j + 1)))
    case QLook(j, q) =>
      if g.queues[q] == [] then Local(g, th.(pc := QSkip(j, q)))
      else
        assert QueueOk(g, q);
        Local(g, th.(pc := PTry(j, q, g.queues[q][0].target, g.now)))
    case QSkip(j, q) => Local(QAdd(g, q, -1), th.(pc := Scan(j + 1)))
    case PTry(j, q, p, time) =>
      Local(PAdd(g, p, 1), th.(pc := if g.plock[p] == 0 then Hold(j, q, p, time, [], [], Draining) else PFail(j, q, p)))
    case PFail(j, q, p) => Local(PAdd(g, p, -1), th.(pc := QSkip(j, q)))
    case _ => Local(g, th)
  }

  /** Marks a promise ready. */
  function Resolve(g: Shared, x: nat, chained: bool): Shared
    requires x < |g.promises|
  {
    g.(promises := g.promises[x := g.promises[x].(ready := true, chained := chained)])
  }

  /** Collecting a batch under the queue lock and the process lock: eople_vm.cpp:196-240. */
  function CollectStep(g: Shared, t: nat, th: Thread): Local
    requires SharedOk(g) && ThreadOk(g, t, th) && th.pc.Hold?
  {
    var Hold(j, q, p, time, taken, future, stage) := th.pc;
    assert QueueOk(g, q);
    match stage
    case Draining =>
      if g.queues[q] != [] && g.queues[q][0].target == p && |taken| < BATCH then
        var m := g.queues[q][0];
        var g1 := g.(queues := g.queues[q := g.queues[q][1..]]);
        if m.time > time then Local(g1, th.(pc := Hold(j, q, p, time, taken, future + [m], Draining)))
        else
          var g2 := if m.Timer? then Resolve(g1, m.timer, g.promises[m.timer].chained) else g1;
          Local(g2, th.(pc := Hold(j, q, p, time, taken + [m], future, Draining)))
      else Local(g, th.(pc := Hold(j, q, p, time, taken, future, Early)))
    case Early =>
      var g1 := if taken != [] then g.(count := Wrap(g.count - (|taken| - 1))) else g;
      Local(g1, th.(pc := Hold(j, q, p, time, taken, future, Requeue)))
    case Requeue =>
      if future != [] then
        var g1 := g.(queues := g.queues[q := g.queues[q] + [future[0]]]);
        Local(g1, th.(pc := Hold(j, q, p, time, taken, future[1..], Requeue)))
      else Local(QAdd(g, q, -1), th.(pc := Run(j, p, taken, 0, Start)))
  }

  /** Starts SendMessage with a new message. */
  function Begin(g: Shared, th: Thread, m: Msg): Local {
    Local(g.(past := g.past.(sent := g.past.sent + multiset{m})), th.(send := STry(m)))
  }

  function Register(g: Shared, p: nat, w: When): Shared
    requires p < |g.whens|
  {
    g.(whens := g.whens[p := g.whens[p] + [w]])
  }

  predicate UserChoice(g: Shared, c: Choice, p: nat) {
    match c
    case Ask(target, owner, _) => target < |g.plock| && owner == p
    case SetTimer(owner, _) => owner == p
    case Watch(x) => x < |g.promises|
    case WatchOther => true
    case WatchEver => true
    case _ => false
  }

  /** One action of the code that runs for process p: eople_control_flow.cpp:14-33, 483-495 and
      eople_stdlib.cpp:306-316. `ever`: inside a whenever body. */
  function UserStep(g: Shared, th: Thread, p: nat, c: Choice, ever: bool): Local
    requires p < |g.whens| == |g.whenevers| && UserChoice(g, c, p)
  {
    var x := |g.promises|;
    match c
    case Ask(target, _, wants) =>
      var m := Call(target, if wants then Some(x) else None, g.now);
      Begin(if wants then g.(promises := g.promises + [Promise(p, false, false, false, m)]) else g, th, m)
    case SetTimer(_, duration) =>
      var m := Timer(p, x, g.now + duration);
      Begin(g.(promises := g.promises + [Promise(p, true, false, false, m)]), th, m)
    case Watch(y) => Local(Register(g, p, OnReady(y, ever && y in g.past.heard)), th)
    case WatchOther => Local(Register(g, p, Other), th)
    case WatchEver => Local(g.(whenevers := g.whenevers[p := g.whenevers[p] + 1]), th)
    case _ => Local(g, th)
  }

  /** Whether evaluating a block now may give this outcome: Ready, eople_control_flow.cpp:35-60.
      A chained promise also asks the promises behind it, which the model leaves open. */
  predicate Outcome(g: Shared, w: When, yes: bool) {
    match w
    case OnReady(x, _) => if x < |g.promises| && g.promises[x].ready then g.promises[x].chained || yes else !yes
    case Other => true
  }

  predicate RunEnabled(g: Shared, t: nat, th: Thread, c: Choice)
    requires SharedOk(g) && ThreadOk(g, t, th) && th.pc.Run?
  {
    var Run(_, p, taken, f, phase) := th.pc;
    && th.send.NoSend?
    && match phase
       case Start => c.Plain?
       case Body => UserChoice(g, c, p) || c.Finish?
       case WhenAt(i) => if i < |g.whens[p]| then c.Taken? && Outcome(g, g.whens[p][i], c.yes) else c.Plain?
       case WhenBody(i) => UserChoice(g, c, p) || (c.Finish? && i < |g.whens[p]|)
       case EverAt(i) => if i < g.whenevers[p] then c.Taken? else c.Plain?
       case EverBody(_) => UserChoice(g, c, p) || c.Finish?
  }

  /** Between two messages of a batch, eople_vm.cpp:243-253: takes up message f, or releases the process. */
  function StartStep(g: Shared, th: Thread): Local
    requires th.pc.Run? && th.pc.phase.Start? && th.pc.f <= |th.pc.taken| && th.pc.p < |g.plock| == |g.past.log|
  {
    var Run(j, p, taken, f, _) := th.pc;
    if f == |taken| then Local(PAdd(g, p, -1), th.(pc := Settle(j, |taken|)))
    else
      var m := taken[f];
      var h := g.past.(
        done := g.past.done + multiset{m},
        log := if m.Timer? then g.past.log else g.past.log[p := g.past.log[p] + [m]],
        heard := if m.Call? then g.past.heard else g.past.heard + {if m.Reply? then m.answer else m.timer});
      Local(g.(past := h), th.(pc := Run(j, p, taken, f + 1, if m.Call? then Body else WhenAt(0))))
  }

  /** Delivering a batch; ExecuteProcessMessage is eople_vm.cpp:412-501. */
  function RunStep(g: Shared, t: nat, th: Thread, c: Choice): Local
    requires SharedOk(g) && ThreadOk(g, t, th) && th.pc.Run? && RunEnabled(g, t, th, c)
  {
    var pc := th.pc;
    var Run(j, p, taken, f, phase) := pc;
    match phase
    case Start => StartStep(g, th)
    case Body =>
      if !c.Finish? then UserStep(g, th, p, c, false)
      else
        var th1 := th.(pc := pc.(phase := WhenAt(0)));
        if taken[f - 1].promise.Some? then
          assert MsgOk(g, taken[f - 1]);
          var x := taken[f - 1].promise.value;
          Begin(Resolve(g, x, c.chained), th1, Reply(g.promises[x].owner, x, g.now))
        else Local(g, th1)
    case WhenAt(i) =>
      if i < |g.whens[p]| then Local(g, th.(pc := pc.(phase := if c.yes then WhenBody(i) else WhenAt(i + 1))))
      else Local(g, th.(pc := pc.(phase := EverAt(0))))
    case WhenBody(i) =>
      if !c.Finish? then UserStep(g, th, p, c, false)
      else Local(g.(whens := g.whens[p := Passes.SwapRemoved(g.whens[p], i)]), th.(pc := pc.(phase := WhenAt(i))))
    case EverAt(i) =>
      if i < g.whenevers[p] then Local(g, th.(pc := pc.(phase := if c.yes then EverBody(i) else EverAt(i + 1))))
      else Local(g, th.(pc := pc.(phase := Start)))
    case EverBody(i) =>
      if !c.Finish? then UserStep(g, th, p, c, true)
      else Local(g, th.(pc := pc.(phase := EverAt(i + 1))))
  }

  predicate NapPc(pc: Pc) {
    || pc.Settle? || pc.Nap? || pc.NapCount? || pc.NapIdle? || pc.LockIdle? || pc.Recheck? || pc.GoIdle?
    || pc.LastTest? || pc.SayBye? || pc.Bye? || pc.Enter? || pc.Asleep? || pc.Woken? || pc.Rouse? || pc.LeaveIdle?
  }

  predicate NapEnabled(g: Shared, th: Thread, c: Choice) {
    match th.pc
    case Nap => c.Taken?
    case LockIdle => c.Plain? && g.mutex.None?
    case Asleep => c.Plain? && g.mutex.None?
    case _ => c.Plain?
  }

  /** The end of a scan step and the idle protocol: eople_vm.cpp:255-262 and 267-295.  The two reads of
      the first test may come in either order, and a sleeper may wake without a signal. */
  function NapStep(g: Shared, t: nat, th: Thread, c: Choice): Local
    requires SharedOk(g) && ThreadOk(g, t, th) && NapPc(th.pc) && NapEnabled(g, th, c)
  {
    var n := |g.queues|;
    match th.pc
    case Settle(j, k) =>
      if k > 0 then Local(g.(count := Wrap(g.count - 1)), th.(pc := Scan(j + 1), tries := 0))
      else Local(g, th.(pc := Scan(j + 1)))
    case Nap => Local(g, th.(pc := if c.yes then NapCount(g.count) else NapIdle(g.idle)))
    case NapCount(m) => Local(g, th.(pc := if m < n - g.idle then LockIdle else Top))
    case NapIdle(k) => Local(g, th.(pc := if g.count < n - k then LockIdle else Top))
    case LockIdle => Local(g.(mutex := Some(t)), th.(pc := Recheck))
    case Recheck => Local(g, th.(pc := if g.count < n - g.idle then GoIdle else LeaveIdle))
    case GoIdle => Local(g.(idle := g.idle + 1), th.(pc := LastTest))
    case LastTest => Local(g, th.(pc := if g.idle == n && g.exit then SayBye else Enter))
    case SayBye => Local(g.(waiters := {}), th.(pc := Bye))
    case Bye => Local(g.(mutex := None), th.(pc := Exited))
    case Enter => Local(g.(mutex := None, waiters := g.waiters + {t}), th.(pc := Asleep))
    case Asleep => Local(g.(mutex := Some(t), waiters := g.waiters - {t}), th.(pc := Woken))
    case Woken => Local(g, th.(pc := if g.count < n - g.idle && g.idle == n && g.exit then Bye else Rouse))
    case Rouse => Local(g.(idle := g.idle - 1), th.(pc := LeaveIdle))
    case LeaveIdle => Local(g.(mutex := None), th.(pc := Top))
    case _ => Local(g, th)
  }

  predicate PostEnabled(g: Shared, th: Thread, c: Choice) {
    match th.send
    case NoSend => false
    case SLockIdle => c.Plain? && g.mutex.None?
    case SNotify => if g.waiters == {} then c.Plain? else c.Signal? && c.w in g.waiters
    case _ => c.Plain?
  }

  /** SendMessage: eople_vm.cpp:366-390. */
  function PostStep(g: Shared, t: nat, th: Thread, c: Choice): Local
    requires SharedOk(g) && ThreadOk(g, t, th) && PostEnabled(g, th, c)
  {
    var n := |g.queues|;
    match th.send
    case STry(m) =>
      var q := m.target % n;
      Local(QAdd(g, q, 1), th.(send := if g.qlock[q] == 0 then SPush(q, m) else SFail(q, m)))
    case SFail(q, m) => Local(QAdd(g, q, -1), th.(send := STry(m)))
    case SPush(q, m) =>
      var order := g.past.order;
      var h := g.past.(order := if m.Timer? then order else order[m.target := order[m.target] + [m]]);
      Local(g.(queues := g.queues[q := g.queues[q] + [m]], past := h), th.(send := SFree(q)))
    case SFree(q) => Local(QAdd(g, q, -1), th.(send := SCount))
    case SCount => Local(g.(count := Wrap(g.count + 1)), th.(send := SLockIdle))
    case SLockIdle => Local(g.(mutex := Some(t)), th.(send := SCheck))
    case SCheck => Local(g, th.(send := if g.count > n - g.idle then SNotify else SLeave))
    case SNotify => Local(if c.Signal? then g.(waiters := g.waiters - {c.w}) else g, th.(send := SLeave))
    case SLeave => Local(g.(mutex := None), th.(send := NoSend))
  }

  predicate OutEnabled(g: Shared, t: nat, th: Thread, c: Choice)
    requires SharedOk(g) && ThreadOk(g, t, th) && OutsidePc(th.pc)
  {
    && th.send.NoSend?
    && match th.pc
       case Out =>
         || ((c.Ask? || c.SetTimer?) && c.owner < |g.plock| && UserChoice(g, c, c.owner))
         || (c.Lock? && c.p < |g.plock|) || c.Shut? || c.Quit?
       case XHold(p) => UserChoice(g, c, p) || c.Finish?
       case XDone => false
       case _ => c.Plain?
  }

  /** Threads that are not cores: code that only sends (ExecuteFunction sends while it runs without a
      lock), ExecuteFunctionIncremental (eople_vm.cpp:521-536, 727), Shutdown (eople_vm.cpp:321-331). */
  function OutStep(g: Shared, t: nat, th: Thread, c: Choice): Local
    requires SharedOk(g) && ThreadOk(g, t, th) && OutsidePc(th.pc) && OutEnabled(g, t, th, c)
  {
    match th.pc
    case Out =>
      if c.Lock? then Local(g, th.(pc := XTry(c.p)))
      else if c.Shut? then Local(g.(exit := true), th.(pc := XStored))
      else if c.Quit? then Local(g, th.(pc := XDone))
      else UserStep(g, th, c.owner, c, false)
    case XTry(p) =>
      var g1 := PAdd(g, p, 1);
      if g.plock[p] == 0 then Local(g1.(past := g1.past.(repl := g1.past.repl + {p})), th.(pc := XHold(p)))
      else Local(g1, th.(pc := XFail(p)))
    case XFail(p) => Local(PAdd(g, p, -1), th.(pc := XTry(p)))
    case XHold(p) =>
      if c.Finish? then Local(PAdd(g, p, -1), th.(pc := Out)) else UserStep(g, th, p, c, false)
    case XStored => Local(g.(waiters := {}, past := g.past.(told := true)), th.(pc := XDone))
    case _ => Local(g, th)
  }

  predicate ActEnabled(g: Shared, t: nat, th: Thread, a: Act)
    requires SharedOk(g) && ThreadOk(g, t, th)
  {
    match a
    case Scanning => ScanPc(th.pc)
    case Collecting => th.pc.Hold?
    case Running(c) => th.pc.Run? && RunEnabled(g, t, th, c)
    case Napping(c) => NapPc(th.pc) && NapEnabled(g, th, c)
    case Posting(c) => PostEnabled(g, th, c)
    case Outside(c) => OutsidePc(th.pc) && OutEnabled(g, t, th, c)
  }

  function ActStep(g: Shared, t: nat, th: Thread, a: Act): Local
    requires SharedOk(g) && ThreadOk(g, t, th) && ActEnabled(g, t, th, a)
  {
    match a
    case Scanning => ScanStep(g, t, th)
    case Collecting => CollectStep(g, t, th)
    case Running(c) => RunStep(g, t, th, c)
    case Napping(c) => NapStep(g, t, th, c)
    case Posting(c) => PostStep(g, t, th, c)
    case Outside(c) => OutStep(g, t, th, c)
  }

  predicate Enabled(s: State, e: Event)
    requires Shape(s)
  {
    match e
    case Tick(_) => true
    case Act(t, a) => t < |s.threads| && ActEnabled(s.g, t, s.threads[t], a)
  }

  function Next(s: State, e: Event): State
    requires Shape(s) && Enabled(s, e)
  {
    match e
    case Tick(dt) => s.(g := s.g.(now := s.g.now + dt))
    case Act(t, a) =>
      var r := ActStep(s.g, t, s.threads[t], a);
      State(r.g, s.threads[t := r.th])
  }

  /** A virtual machine just started: Run has spawned its cores and nothing has been sent. */
  predicate Init(s: State) {
    var g := s.g;
    && 2 <= |g.queues| <= |s.threads|
    && |g.qlock| == |g.queues|
    && |g.whens| == |g.whenevers| == |g.past.order| == |g.past.log| == |g.plock|
    && (forall q :: 0 <= q < |g.queues| ==> g.queues[q] == [] && g.qlock[q] == 0)
    && (forall p :: 0 <= p < |g.plock| ==> g.plock[p] == 0 && g.whens[p] == [] && g.whenevers[p] == 0)
    && (forall p :: 0 <= p < |g.plock| ==> g.past.order[p] == [] && g.past.log[p] == [])
    && (forall t :: 0 <= t < |s.threads| ==> s.threads[t] == Thread(if t < |g.queues| then Top else Out, NoSend, 0))
    && g.count == 0 && g.idle == 0 && !g.exit && g.mutex == None && g.waiters == {} && g.promises == []
    && g.past.sent == multiset{} && g.past.done == multiset{}
    && g.past.heard == {} && g.past.repl == {} && !g.past.told
  }
}

/** A process over its life: code runs, blocks are registered, and after every delivery the blocks are looked
    at.  Whatever the order, every block can be evaluated in the frame it came from. */
module Deliveries {
  import opened Frames
  import opened ProcessStacks
  import opened Calls
  import opened Passes
  import opened Blocks

  datatype World = World(cells: seq<Object>, whens: seq<Block>, whenevers: seq<Block>)

  predicate Hosted(w: World) {
    AllHosted(w.cells, w.whens) && AllHosted(w.cells, w.whenevers)
  }

  /** What happens in a process: an instruction registers a block (its closure is what is captured then), code
      runs, both in the frame of `room` slots at `base`; or the passes follow a delivery, in the frame at
      `base`. */
  datatype Deed =
    | Register(base: nat, room: nat, b: Block)
    | Execute(base: nat, room: nat, code: Code)
    | Deliver(base: nat)

  const NOTHING := Closure(0, [])

  predicate Possible(cells: seq<Object>, d: Deed) {
    match d
    case Register(base, room, b) => base + room < |cells| && BlockOk(b.(closure := NOTHING)) && b.f.tempEnd <= room
    case Execute(base, room, code) => base + room < |cells| && CodeOk(code, room)
    case Deliver(base) => base < |cells|
  }

  /** The block with what CaptureClosure finds in the frame at `base`. */
  function Captures(cells: seq<Object>, base: nat, b: Block): (r: Block)
    requires BlockOk(b.(closure := NOTHING)) && base + b.f.tempEnd < |cells|
    ensures Hosts(cells, r)
  {
    var at, n := base + b.f.parametersStart, CaptureSize(b.f);
    b.(closure := if n == 0 then NOTHING else Closure(base, cells[at..at + n]))
  }

  ghost function Delivered(w: World, base: nat): World
    requires Hosted(w)
  {
    var whens := WhenPass(Looker(base), w.cells, w.whens, 0);
    var whenevers := EverPass(Looker(base), Recaptured, whens.state, w.whenevers, 0);
    World(whenevers.state, whens.left, whenevers.left)
  }

  ghost function Do(w: World, d: Deed): (r: World)
    requires Hosted(w) && Possible(w.cells, d)
    ensures Hosted(r) && |w.cells| <= |r.cells|
  {
    match d
    case Register(base, _, b) =>
      var registered := Captures(w.cells, base, b);
      if b.ever then w.(whenevers := w.whenevers + [registered]) else w.(whens := w.whens + [registered])
    case Execute(base, room, code) =>
      HostedLater(w.cells, Run(code, w.cells, base, room), w.whens);
      HostedLater(w.cells, Run(code, w.cells, base, room), w.whenevers);
      w.(cells := Run(code, w.cells, base, room))
    case Deliver(base) =>
      DeliveredHosted(w, base);
      Delivered(w, base)
  }

  lemma {:induction false} DeliveredHosted(w: World, base: nat)
    requires Hosted(w)
    ensures Hosted(Delivered(w, base)) && |w.cells| <= |Delivered(w, base).cells|
    ensures |Delivered(w, base).whenevers| == |w.whenevers|
    ensures forall k :: 0 <= k < |w.whenevers| ==> SameBlock(w.whenevers[k], Delivered(w, base).whenevers[k])
  {
    WhenPassHosted(base, w.cells, w.whens, 0);
    var whens := WhenPass(Looker(base), w.cells, w.whens, 0);
    HostedLater(w.cells, whens.state, w.whenevers);
    EverPassHosted(base, whens.state, w.whenevers, 0);
    HostedLater(whens.state, Delivered(w, base).cells, whens.left);
  }

  /** What is possible stays possible: memory only grows. */
  ghost predicate Feasible(w: World, ds: seq<Deed>)
    requires Hosted(w)
    decreases |ds|
  {
    ds == [] || (Possible(w.cells, ds[0]) && Feasible(Do(w, ds[0]), ds[1..]))
  }

  ghost function After(w: World, ds: seq<Deed>): (r: World)
    requires Hosted(w) && Feasible(w, ds)
    ensures Hosted(r) && |w.cells| <= |r.cells|
    decreases |ds|
  {
    if ds == [] then w else After(Do(w, ds[0]), ds[1..])
  }

  /** The when blocks registered, and the whenever blocks, in order. */
  ghost function Registered(w: World, ds: seq<Deed>, ever: bool): seq<Block>
    requires Hosted(w) && Feasible(w, ds)
    decreases |ds|
  {
    if ds == [] then []
    else
      var rest := Registered(Do(w, ds[0]), ds[1..], ever);
      if ds[0].Register? && ds[0].b.ever == ever then [Captures(w.cells, ds[0].base, ds[0].b)] + rest else rest
  }

  /** The when blocks whose condition was true, in the deliveries of a life. */
  ghost function FiredOver(w: World, ds: seq<Deed>): seq<Block>
    requires Hosted(w) && Feasible(w, ds)
    decreases |ds|
  {
    if ds == [] then []
    else
      (if ds[0].Deliver? then Fired(WhenPass(Looker(ds[0].base), w.cells, w.whens, 0).log) else []) + FiredOver(Do(w, ds[0]), ds[1..])
  }

  // ---------------------------------------------------------------- a registration

  /** Registering adds one block at the end of its list, with parameters, constants and locals as they are in the
      frame at that moment, and changes nothing else. */
  lemma {:induction false} RegisterAdds(w: World, base: nat, room: nat, b: Block) returns (x: Block)
    requires Hosted(w) && Possible(w.cells, Register(base, room, b))
    ensures Do(w, Register(base, room, b)) == if b.ever then w.(whenevers := w.whenevers + [x]) else w.(whens := w.whens + [x])
    ensures x == b.(closure := x.closure) && Hosts(w.cells, x)
    ensures x.closure ==
      if b.f.parametersStart == b.f.tempStart then NOTHING
      else Closure(base, w.cells[base + b.f.parametersStart..base + b.f.tempStart])
  {
    x := Captures(w.cells, base, b);
  }

  // ---------------------------------------------------------------- a delivery

  /** The blocks of the log evaluated one after the other, in a process whose frame is at `base`, take the memory to
      `end`; each has the outcome its condition has at that moment. */
  ghost predicate Evaluations(base: nat, log: Log<Block>, cells: seq<Object>, end: seq<Object>) {
    match log
    case Done => end == cells
    case Look(b, taken, rest) =>
      Hosts(cells, b) && taken == Taken(cells, base, b) && Evaluations(base, rest, Evaluated(cells, base, b), end)
  }

  /** Every block of the log whose condition was true is left with the captured slots as its own body left them, and
      every other one as it was. */
  ghost predicate Renewals(base: nat, log: Log<Block>, cells: seq<Object>, left: seq<Block>) {
    match log
    case Done => left == []
    case Look(b, taken, rest) =>
      && Hosts(cells, b) && left != []
      && (if taken then Renewed(b, Evaluated(cells, base, b), left[0]) else left[0] == b)
      && Renewals(base, rest, Evaluated(cells, base, b), left[1..])
  }

  lemma {:induction false} WhenEvaluations(base: nat, cells: seq<Object>, blocks: seq<Block>, i: nat)
    requires i <= |blocks| && AllHosted(cells, blocks)
    ensures var r := WhenPass(Looker(base), cells, blocks, i); Evaluations(base, r.log, cells, r.state)
    decreases |blocks| - i
  {
    if i < |blocks| {
      var after, taken := Evaluated(cells, base, blocks[i]), Taken(cells, base, blocks[i]);
      var left, j := if taken then SwapRemoved(blocks, i) else blocks, if taken then i else i + 1;
      WhenStep(base, cells, blocks, i, after, taken, left, j);
      WhenEvaluations(base, after, left, j);
      assert Looker(base)(cells, blocks[i]) == (after, taken);
    }
  }

  lemma {:induction false} EverEvaluations(base: nat, cells: seq<Object>, blocks: seq<Block>, i: nat)
    requires i <= |blocks| && AllHosted(cells, blocks)
    ensures var r := EverPass(Looker(base), Recaptured, cells, blocks, i); Evaluations(base, r.log, cells, r.state)
    decreases |blocks| - i
  {
    if i < |blocks| {
      var after, taken := Evaluated(cells, base, blocks[i]), Taken(cells, base, blocks[i]);
      var left := if taken then blocks[i := Recaptured(after, blocks[i])] else blocks;
      EverStep(base, cells, blocks, i, after, taken, left);
      EverEvaluations(base, after, left, i + 1);
      assert Looker(base)(cells, blocks[i]) == (after, taken);
    }
  }

  lemma {:induction false} EverRenewals(base: nat, cells: seq<Object>, blocks: seq<Block>, i: nat)
    requires i <= |blocks| && AllHosted(cells, blocks)
    ensures var r := EverPass(Looker(base), Recaptured, cells, blocks, i);
      |r.left| == |blocks| && Renewals(base, r.log, cells, r.left[i..])
    decreases |blocks| - i
  {
    EverPassExact(Looker(base), Recaptured, cells, blocks, i);
    if i < |blocks| {
      var after, taken := Evaluated(cells, base, blocks[i]), Taken(cells, base, blocks[i]);
      var left := if taken then blocks[i := Recaptured(after, blocks[i])] else blocks;
      EverStep(base, cells, blocks, i, after, taken, left);
      EverRenewals(base, after, left, i + 1);
      var r := EverPass(Looker(base), Recaptured, after, left, i + 1);
      assert r.left[i] == left[i] by { EverPassExact(Looker(base), Recaptured, after, left, i + 1); }
      RenewalsOne(base, blocks[i], taken, r.log, cells, r.left[i..]);
    }
  }

  lemma {:induction false} RenewalsOne(base: nat, b: Block, taken: bool, rest: Log<Block>, cells: seq<Object>, left: seq<Block>)
    requires Hosts(cells, b) && taken == Taken(cells, base, b) && left != []
    requires left[0] == if taken then Recaptured(Evaluated(cells, base, b), b) else b
    requires Renewals(base, rest, Evaluated(cells, base, b), left[1..])
    ensures Renewals(base, Look(b, taken, rest), cells, left)
  {
    if taken { RecapturedRenewed(Evaluated(cells, base, b), b); }
  }

  /** What a delivery does to the blocks.  First all when blocks are evaluated, each exactly once, where the last one
      takes the place of one whose condition was true; those are gone, and the others are left in the order they were
      evaluated.  From the memory that leaves, all whenever blocks are evaluated in order. */
  lemma {:induction false} DeliveryEvaluates(w: World, base: nat) returns (whens: Log<Block>, mid: seq<Object>, whenevers: Log<Block>)
    requires Hosted(w) && base < |w.cells|
    ensures var r := Do(w, Deliver(base));
      && Evaluations(base, whens, w.cells, mid) && Visits(whens, w.whens)
      && Looked(whens) == multiset(w.whens) && r.whens == Refused(whens)
      && Evaluations(base, whenevers, mid, r.cells) && Order(whenevers) == w.whenevers
      && Renewals(base, whenevers, mid, r.whenevers)
  {
    var r := WhenPass(Looker(base), w.cells, w.whens, 0);
    whens, mid := r.log, r.state;
    WhenEvaluations(base, w.cells, w.whens, 0);
    WhenPassExact(Looker(base), w.cells, w.whens, 0);
    assert w.whens[..0] + Refused(whens) == Refused(whens) && w.whens[0..] == w.whens;
    WhenPassHosted(base, w.cells, w.whens, 0);
    HostedLater(w.cells, mid, w.whenevers);
    var r1 := EverPass(Looker(base), Recaptured, mid, w.whenevers, 0);
    whenevers := r1.log;
    EverEvaluations(base, mid, w.whenevers, 0);
    EverRenewals(base, mid, w.whenevers, 0);
    EverPassExact(Looker(base), Recaptured, mid, w.whenevers, 0);
    assert r1.left[0..] == r1.left && w.whenevers[0..] == w.whenevers;
  }

  // ---------------------------------------------------------------- a whole life

  lemma {:induction false} DeliverKeeps(w: World, base: nat)
    requires Hosted(w)
    ensures multiset(Delivered(w, base).whens) + multiset(Fired(WhenPass(Looker(base), w.cells, w.whens, 0).log)) == multiset(w.whens)
  {
    WhenPassExact(Looker(base), w.cells, w.whens, 0);
    var r := WhenPass(Looker(base), w.cells, w.whens, 0);
    FiredOrRefused(r.log);
    assert w.whens[..0] + Refused(r.log) == Refused(r.log) && w.whens[0..] == w.whens;
  }

  /** However often code runs, blocks are registered and deliveries are made: every when block that was there or was
      registered, with the closure captured then, is either left or was taken, exactly once; and every whenever block
      is still there, in its place, with the base offset it was captured at. */
  lemma {:induction false} BlocksOverALife(w: World, ds: seq<Deed>)
    requires Hosted(w) && Feasible(w, ds)
    ensures Kept(w, Registered(w, ds, false), Registered(w, ds, true), FiredOver(w, ds), After(w, ds))
    decreases |ds|
  {
    if ds != [] {
      var w1 := Do(w, ds[0]);
      BlocksOverALife(w1, ds[1..]);
      var whens, whenevers, fired := Registered(w1, ds[1..], false), Registered(w1, ds[1..], true), FiredOver(w1, ds[1..]);
      match ds[0]
      case Register(base, _, b) =>
        var c := Captures(w.cells, base, b);
        assert [] + fired == fired;
        if b.ever { RegisterEverKeeps(w, c, w1, whens, whenevers, fired, After(w, ds)); }
        else { RegisterWhenKeeps(w, c, w1, whens, whenevers, fired, After(w, ds)); }
      case Execute(_, _, _) =>
        assert [] + fired == fired;
        assert w1 == w.(cells := w1.cells);
      case Deliver(base) =>
        DeliverKeeps(w, base);
        DeliveredHosted(w, base);
        var now := Fired(WhenPass(Looker(base), w.cells, w.whens, 0).log);
        PassKeeps(w, w1, whens, whenevers, now, fired, After(w, ds));
        assert FiredOver(w, ds) == now + fired;
    }
  }

  /** The blocks of r are those of w and those registered in between, less the when blocks that were taken. */
  ghost predicate Kept(w: World, whens: seq<Block>, whenevers: seq<Block>, fired: seq<Block>, r: World) {
    && multiset(r.whens) + multiset(fired) == multiset(w.whens) + multiset(whens)
    && |r.whenevers| == |w.whenevers| + |whenevers|
    && forall k {:trigger r.whenevers[k]} :: 0 <= k < |r.whenevers| ==> SameBlock((w.whenevers + whenevers)[k], r.whenevers[k])
  }

  lemma {:induction false} RegisterWhenKeeps(
      w: World, c: Block, w1: World, whens: seq<Block>, whenevers: seq<Block>, fired: seq<Block>, r: World)
    requires w1 == w.(whens := w.whens + [c]) && Kept(w1, whens, whenevers, fired, r)
    ensures Kept(w, [c] + whens, whenevers, fired, r)
  {
    assert multiset([c] + whens) == multiset{c} + multiset(whens);
  }

  lemma {:induction false} RegisterEverKeeps(
      w: World, c: Block, w1: World, whens: seq<Block>, whenevers: seq<Block>, fired: seq<Block>, r: World)
    requires w1 == w.(whenevers := w.whenevers + [c]) && Kept(w1, whens, whenevers, fired, r)
    ensures Kept(w, whens, [c] + whenevers, fired, r)
  {
    assert w1.whenevers + whenevers == w.whenevers + ([c] + whenevers);
  }

  lemma {:induction false} PassKeeps(
      w: World, w1: World, whens: seq<Block>, whenevers: seq<Block>, now: seq<Block>, fired: seq<Block>, r: World)
    requires multiset(w1.whens) + multiset(now) == multiset(w.whens) && |w1.whenevers| == |w.whenevers|
    requires forall k :: 0 <= k < |w.whenevers| ==> SameBlock(w.whenevers[k], w1.whenevers[k])
    requires Kept(w1, whens, whenevers, fired, r)
    ensures Kept(w, whens, whenevers, now + fired, r)
  {
    assert multiset(r.whens) + multiset(now + fired) == multiset(w.whens) + multiset(whens) by {
      assert multiset(now + fired) == multiset(now) + multiset(fired);
      assert multiset(r.whens) + (multiset(now) + multiset(fired)) == (multiset(w1.whens) + multiset(whens)) + multiset(now);
      assert (multiset(w1.whens) + multiset(whens)) + multiset(now) == (multiset(w1.whens) + multiset(now)) + multiset(whens);
    }
    forall k | 0 <= k < |r.whenevers| ensures SameBlock((w.whenevers + whenevers)[k], r.whenevers[k]) {
      assert SameBlock((w1.whenevers + whenevers)[k], r.whenevers[k]);
    }
  }

  /** The memory that the body of the k-th block of the log left, or `was` if it did not run. */
  ghost function LeftBy(base: nat, log: Log<Block>, cells: seq<Object>, k: nat, was: seq<Object>): (r: seq<Object>)
    requires |was| <= |cells|
    ensures |was| <= |r|
    decreases log
  {
    match log
    case Done => was
    case Look(b, taken, rest) =>
      if !Hosts(cells, b) then was
      else if k > 0 then LeftBy(base, rest, Evaluated(cells, base, b), k - 1, was)
      else if taken then Evaluated(cells, base, b)
      else was
  }

  lemma {:induction false} LeftWithin(base: nat, log: Log<Block>, cells: seq<Object>, k: nat, was: seq<Object>, end: seq<Object>)
    requires |was| <= |cells| && Evaluations(base, log, cells, end)
    ensures |cells| <= |end| && |LeftBy(base, log, cells, k, was)| <= |end|
    decreases log
  {
    match log
    case Done =>
    case Look(b, taken, rest) => LeftWithin(base, rest, Evaluated(cells, base, b), if k > 0 then k - 1 else 0, was, end);
  }

  /** The memory that the last run of whenever block k left; `was` if it has not run. */
  ghost function LastLeft(w: World, ds: seq<Deed>, k: nat, was: seq<Object>): (r: seq<Object>)
    requires Hosted(w) && Feasible(w, ds) && |was| <= |w.cells|
    ensures |was| <= |r|
    decreases |ds|
  {
    if ds == [] then was
    else LastLeft(Do(w, ds[0]), ds[1..], k, LeftIn(w, ds[0], k, was))
  }

  ghost function LeftIn(w: World, d: Deed, k: nat, was: seq<Object>): (r: seq<Object>)
    requires Hosted(w) && Possible(w.cells, d) && |was| <= |w.cells|
    ensures |was| <= |r| <= |Do(w, d).cells|
  {
    if !d.Deliver? then was
    else
      var mid := WhenPass(Looker(d.base), w.cells, w.whens, 0).state;
      var r := EverPass(Looker(d.base), Recaptured, mid, w.whenevers, 0);
      WhenPassHosted(d.base, w.cells, w.whens, 0);
      HostedLater(w.cells, mid, w.whenevers);
      EverEvaluations(d.base, mid, w.whenevers, 0);
      LeftWithin(d.base, r.log, mid, k, was, r.state);
      LeftBy(d.base, r.log, mid, k, was)
  }
  /** The captured slots of a block are those of the memory m. */
  ghost predicate Carries(b: Block, m: seq<Object>) {
    && BlockOk(b) && 0 <= b.closure.base && b.closure.base + b.f.tempEnd < |m|
    && b.closure.state == m[b.closure.base + b.f.parametersStart..b.closure.base + b.f.tempStart]
  }

  lemma {:induction false} CarriedBy(base: nat, log: Log<Block>, cells: seq<Object>, left: seq<Block>, k: nat, was: seq<Object>)
    requires Renewals(base, log, cells, left) && |was| <= |cells|
    requires k < |Order(log)| && Carries(Order(log)[k], was) && Order(log)[k].f.parametersStart < Order(log)[k].f.tempStart
    ensures k < |left| && Carries(left[k], LeftBy(base, log, cells, k, was)) && left[k] == Order(log)[k].(closure := left[k].closure)
    ensures left[k].closure.base == Order(log)[k].closure.base
    decreases log
  {
    var after := Evaluated(cells, base, log.b);
    if k > 0 {
      CarriedBy(base, log.rest, after, left[1..], k - 1, was);
    } else if log.taken {
      RenewedCarries(log.b, after, left[0]);
    }
  }

  lemma {:induction false} RenewedCarries(b: Block, after: seq<Object>, b1: Block)
    requires BlockOk(b) && Renewed(b, after, b1) && b.f.parametersStart < b.f.tempStart
    ensures Carries(b1, after)
  {
  }

  /** A block is evaluated with its captured slots in place. */
  lemma {:induction false} CarriedRestored(x: Block, m: seq<Object>, cells: seq<Object>, later: nat)
    requires Hosts(cells, x) && Carries(x, m)
    ensures forall i {:trigger Restored(cells, later, x)[i]} ::
      x.closure.base + x.f.parametersStart <= i < x.closure.base + x.f.tempStart ==> Restored(cells, later, x)[i] == m[i]
  {
  }

  /** A whenever block keeps the captured slots as its last run left them. */
  lemma {:induction false} CarriedOver(w: World, ds: seq<Deed>, k: nat, was: seq<Object>)
    requires Hosted(w) && Feasible(w, ds) && |was| <= |w.cells|
    requires k < |w.whenevers| && Carries(w.whenevers[k], was) && w.whenevers[k].f.parametersStart < w.whenevers[k].f.tempStart
    ensures var r := After(w, ds);
      && k < |r.whenevers| && Carries(r.whenevers[k], LastLeft(w, ds, k, was))
      && r.whenevers[k] == w.whenevers[k].(closure := r.whenevers[k].closure)
      && r.whenevers[k].closure.base == w.whenevers[k].closure.base
    decreases |ds|
  {
    if ds != [] {
      CarriedIn(w, ds[0], k, was);
      CarriedOver(Do(w, ds[0]), ds[1..], k, LeftIn(w, ds[0], k, was));
    }
  }

  lemma {:induction false} CarriedIn(w: World, d: Deed, k: nat, was: seq<Object>)
    requires Hosted(w) && Possible(w.cells, d) && |was| <= |w.cells|
    requires k < |w.whenevers| && Carries(w.whenevers[k], was) && w.whenevers[k].f.parametersStart < w.whenevers[k].f.tempStart
    ensures var r := Do(w, d);
      && k < |r.whenevers| && Carries(r.whenevers[k], LeftIn(w, d, k, was))
      && r.whenevers[k] == w.whenevers[k].(closure := r.whenevers[k].closure)
      && r.whenevers[k].closure.base == w.whenevers[k].closure.base
  {
    if d.Deliver? {
      var mid := WhenPass(Looker(d.base), w.cells, w.whens, 0).state;
      WhenPassHosted(d.base, w.cells, w.whens, 0);
      HostedLater(w.cells, mid, w.whenevers);
      var r := EverPass(Looker(d.base), Recaptured, mid, w.whenevers, 0);
      EverRenewals(d.base, mid, w.whenevers, 0);
      EverPassExact(Looker(d.base), Recaptured, mid, w.whenevers, 0);
      assert r.left[0..] == r.left && w.whenevers[0..] == w.whenevers;
      CarriedBy(d.base, r.log, mid, r.left, k, was);
    }
  }

  /** Whatever happens after a block is registered: a when block that is still there is evaluated in the frame it came
      from, with every captured slot as it was at registration.  A whenever block is always there, and its captured
      slots are as its last run left them, or as they were at registration. */
  lemma {:induction false} BlockStartsFromItsClosure(w: World, base: nat, room: nat, b: Block, ds: seq<Deed>, later: nat) returns (x: Block)
    requires Hosted(w) && Possible(w.cells, Register(base, room, b)) && b.f.parametersStart < b.f.tempStart
    requires Feasible(Do(w, Register(base, room, b)), ds)
    ensures Do(w, Register(base, room, b)) == if b.ever then w.(whenevers := w.whenevers + [x]) else w.(whens := w.whens + [x])
    ensures var w1 := Do(w, Register(base, room, b));
      var r, k := After(w1, ds), |w.whenevers|;
      if b.ever then
        && k < |r.whenevers| && Hosts(r.cells, r.whenevers[k])
        && r.whenevers[k] == b.(closure := r.whenevers[k].closure) && r.whenevers[k].closure.base == base
        && forall i {:trigger Restored(r.cells, later, r.whenevers[k])[i]} :: base + b.f.parametersStart <= i < base + b.f.tempStart ==>
          Restored(r.cells, later, r.whenevers[k])[i] == LastLeft(w1, ds, k, w.cells)[i]
      else
        x in r.whens ==>
          && Hosts(r.cells, x) && x == b.(closure := x.closure) && x.closure.base == base
          && forall i {:trigger Restored(r.cells, later, x)[i]} :: base + b.f.parametersStart <= i < base + b.f.tempStart ==>
            Restored(r.cells, later, x)[i] == w.cells[i]
  {
    x := RegisterAdds(w, base, room, b);
    if b.ever {
      var w1, k := Do(w, Register(base, room, b)), |w.whenevers|;
      assert w1.whenevers[k] == x && Carries(x, w.cells);
      CarriedOver(w1, ds, k, w.cells);
      var r := After(w1, ds);
      CarriedRestored(r.whenevers[k], LastLeft(w1, ds, k, w.cells), r.cells, later);
    } else if x in After(Do(w, Register(base, room, b)), ds).whens {
      CarriedRestored(x, w.cells, After(Do(w, Register(base, room, b)), ds).cells, later);
    }
  }

  // ---------------------------------------------------------------- the process

  class Process {
    const stack: ProcessStack
    var whenBlocks: seq<Block>
    var wheneverBlocks: seq<Block>

    ghost function Now(): World
      reads this, stack, stack.stack
    {
      World(stack.stack[..], whenBlocks, wheneverBlocks)
    }

    ghost predicate Valid(base: nat, room: nat)
      reads this, stack, stack.stack
    {
      InFrame(stack.Value(), base, room) && Hosted(Now())
    }

    constructor (stack: ProcessStack, ghost base: nat, ghost room: nat)
      requires InFrame(stack.Value(), base, room)
      ensures this.stack == stack && whenBlocks == wheneverBlocks == [] && Valid(base, room)
    {
      this.stack := stack;
      whenBlocks, wheneverBlocks := [], [];
    }

    /** WhenRegister and WheneverRegister. */
    method RegisterBlock(b: Block, ghost base: nat, ghost room: nat)
      requires Valid(base, room) && Possible(stack.stack[..], Register(base, room, b))
      modifies this`whenBlocks, this`wheneverBlocks
      ensures Valid(base, room) && Now() == Do(old(Now()), Register(base, room, b))
    {
      var c := stack.CaptureClosure(b.f);
      assert b.(closure := c) == Captures(stack.stack[..], base, b);
      if b.ever {
        wheneverBlocks := wheneverBlocks + [b.(closure := c)];
      } else {
        whenBlocks := whenBlocks + [b.(closure := c)];
      }
    }

    method ExecuteCode(code: Code, ghost base: nat, ghost room: nat)
      requires Valid(base, room) && CodeOk(code, room)
      modifies stack, stack.stack
      ensures Valid(base, room) && Now() == Do(old(Now()), Execute(base, room, code))
      ensures stack.Value() == old(stack.Value()).(cells := Run(code, old(stack.stack[..]), base, room))
      ensures whenBlocks == old(whenBlocks) && wheneverBlocks == old(wheneverBlocks)
    {
      CodeOkIff(code, room);
      var _ := ExecutionLoop(stack, code, base, room);
      HostedLater(old(stack.stack[..]), stack.stack[..], whenBlocks);
      HostedLater(old(stack.stack[..]), stack.stack[..], wheneverBlocks);
    }

    /** The two loops after a delivery, eople_vm.cpp:444-495.  The frame of the process is as before.  The logs say
        which blocks were evaluated in which order, and `mid` is the memory between the loops. */
    method RunBlocks(ghost base: nat, ghost room: nat) returns (ghost whens: Log<Block>, ghost mid: seq<Object>, ghost whenevers: Log<Block>)
      requires Valid(base, room)
      modifies this`whenBlocks, this`wheneverBlocks, stack, stack.stack
      ensures Valid(base, room) && Now() == Do(old(Now()), Deliver(base))
      ensures Evaluations(base, whens, old(stack.stack[..]), mid) && Visits(whens, old(whenBlocks)) && whenBlocks == Refused(whens)
      ensures Evaluations(base, whenevers, mid, stack.stack[..]) && Order(whenevers) == old(wheneverBlocks)
      ensures Renewals(base, whenevers, mid, wheneverBlocks)
      ensures stack.Value() == old(stack.Value()).(cells := stack.stack[..])
      ensures stack.stack == old(stack.stack) || fresh(stack.stack)
    {
      ghost var w := Now();
      RunWhens(base);
      WhenPassHosted(base, w.cells, w.whens, 0);
      HostedLater(w.cells, WhenPass(Looker(base), w.cells, w.whens, 0).state, w.whenevers);
      RunWhenevers(base);
      DeliveredHosted(w, base);
      assert Now() == Delivered(w, base);
      whens, mid, whenevers := DeliveryEvaluates(w, base);
    }

    method RunWhens(ghost base: nat)
      requires Roomy(stack.Value()) && stack.base == base && AllHosted(stack.stack[..], whenBlocks)
      modifies this`whenBlocks, stack, stack.stack
      ensures var r := WhenPass(Looker(base), old(stack.stack[..]), old(whenBlocks), 0);
        whenBlocks == r.left && stack.Value() == old(stack.Value()).(cells := r.state)
      ensures AllHosted(stack.stack[..], whenBlocks) && |old(stack.stack[..])| <= stack.stack.Length
      ensures stack.stack == old(stack.stack) || fresh(stack.stack)
    {
      ghost var was, end := stack.Value(), WhenPass(Looker(base), stack.stack[..], whenBlocks, 0);
      var i: nat := 0;
      while i < |whenBlocks|
        invariant i <= |whenBlocks|
        invariant WhensFrom(was, base, i, end)
        invariant stack.stack == old(stack.stack) || fresh(stack.stack)
        decreases |whenBlocks| - i
      {
        i := RunWhen(i, was, base, end);
      }
    }

    /** What is left of the pass, from block i on, leads to `end`. */
    ghost predicate WhensFrom(was: Stack, base: nat, i: nat, end: PassEnd<seq<Object>, Block>)
      reads this, stack, stack.stack
    {
      && i <= |whenBlocks| && was.base == base && Roomy(was) && stack.Value() == was.(cells := stack.stack[..])
      && |was.cells| <= stack.stack.Length && AllHosted(stack.stack[..], whenBlocks)
      && SameEnd(WhenPass(Looker(base), stack.stack[..], whenBlocks, i), end)
    }

    /** One turn of the loop; `next` is the index it goes on with. */
    method RunWhen(i: nat, ghost was: Stack, ghost base: nat, ghost end: PassEnd<seq<Object>, Block>) returns (next: nat)
      requires i < |whenBlocks| && WhensFrom(was, base, i, end)
      modifies this`whenBlocks, stack, stack.stack
      ensures next <= |whenBlocks| && |whenBlocks| - next == |old(whenBlocks)| - i - 1 && WhensFrom(was, base, next, end)
      ensures stack.stack == old(stack.stack) || fresh(stack.stack)
    {
      var _, taken := Evaluate(stack, whenBlocks[i], base);
      stack.PopStackFrame();
      if taken {
        whenBlocks, next := SwapRemoved(whenBlocks, i), i;
      } else {
        next := i + 1;
      }
      WhenStep(base, old(stack.stack[..]), old(whenBlocks), i, stack.stack[..], taken, whenBlocks, next);
    }

    method RunWhenevers(ghost base: nat)
      requires Roomy(stack.Value()) && stack.base == base && AllHosted(stack.stack[..], wheneverBlocks)
      modifies this`wheneverBlocks, stack, stack.stack
      ensures var r := EverPass(Looker(base), Recaptured, old(stack.stack[..]), old(wheneverBlocks), 0);
        wheneverBlocks == r.left && stack.Value() == old(stack.Value()).(cells := r.state)
      ensures AllHosted(stack.stack[..], wheneverBlocks) && |old(stack.stack[..])| <= stack.stack.Length
      ensures stack.stack == old(stack.stack) || fresh(stack.stack)
    {
      ghost var was, end := stack.Value(), EverPass(Looker(base), Recaptured, stack.stack[..], wheneverBlocks, 0);
      var i: nat := 0;
      while i < |wheneverBlocks|
        invariant i <= |wheneverBlocks|
        invariant EversFrom(was, base, i, end)
        invariant stack.stack == old(stack.stack) || fresh(stack.stack)
        decreases |wheneverBlocks| - i
      {
        RunWhenever(i, was, base, end);
        i := i + 1;
      }
    }

    /** What is left of the pass, from block i on, leads to `end`. */
    ghost predicate EversFrom(was: Stack, base: nat, i: nat, end: PassEnd<seq<Object>, Block>)
      reads this, stack, stack.stack
    {
      && i <= |wheneverBlocks| && was.base == base && Roomy(was) && stack.Value() == was.(cells := stack.stack[..])
      && |was.cells| <= stack.stack.Length && AllHosted(stack.stack[..], wheneverBlocks)
      && SameEnd(EverPass(Looker(base), Recaptured, stack.stack[..], wheneverBlocks, i), end)
    }

    method RunWhenever(i: nat, ghost was: Stack, ghost base: nat, ghost end: PassEnd<seq<Object>, Block>)
      requires i < |wheneverBlocks| && EversFrom(was, base, i, end)
      modifies this`wheneverBlocks, stack, stack.stack
      ensures |wheneverBlocks| == |old(wheneverBlocks)| && EversFrom(was, base, i + 1, end)
      ensures stack.stack == old(stack.stack) || fresh(stack.stack)
    {
      var taken, after := RunBody(wheneverBlocks[i], base);
      if taken { wheneverBlocks := wheneverBlocks[i := after]; }
      EverStep(base, old(stack.stack[..]), old(wheneverBlocks), i, stack.stack[..], taken, wheneverBlocks);
    }

    /** `after` is the block with the closure captured at the end of its body, while its frame is still there. */
    method RunBody(b: Block, ghost base: nat) returns (taken: bool, after: Block)
      requires Roomy(stack.Value()) && stack.base == base && Hosts(stack.stack[..], b)
      modifies stack, stack.stack
      ensures taken == Taken(old(stack.stack[..]), base, b)
      ensures stack.Value() == old(stack.Value()).(cells := Evaluated(old(stack.stack[..]), base, b))
      ensures after == if taken then Recaptured(stack.stack[..], b) else b
      ensures stack.stack == old(stack.stack) || fresh(stack.stack)
    {
      var _, outcome := Evaluate(stack, b, base);
      taken := outcome;
      after := b;
      if taken { after := Renew(b); }
      stack.PopStackFrame();
    }

    method Renew(b: Block) returns (after: Block)
      requires Hosts(stack.stack[..], b) && stack.base == b.closure.base
      ensures after == Recaptured(stack.stack[..], b)
    {
      var c := stack.CaptureClosure(b.f);
      after := b.(closure := c);
    }
  }
}

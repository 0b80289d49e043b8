/** When and whenever blocks: closures, and the passes over the blocks after a delivery. */
module Blocks {
  import opened Frames
  import opened ProcessStacks
  import opened Calls
  import opened Passes

  // ---------------------------------------------------------------- closures

  /** The running function, which shares its layout with the when blocks in it, has its whole frame in
      place. */
  predicate Live(s: Stack, f: Function) {
    Laid(f) && f.isWhenEval && f.reuseContext && Roomy(s) && s.base + f.tempEnd <= s.top
  }

  /** Parameters, constants and locals captured in a live frame and applied later, whatever frames and reallocations
      came between, are back, slot by slot, at the same base offset; the rest of the memory is as it was.  Top and
      temporaries are as far from the base as SetupStackFrame put them, and the slot at the top is there for results.
      Only a block that captures nothing moves: its base offset is 0. */
  lemma {:induction false} ClosureRoundTrip(s: Stack, t: Stack, f: Function)
    requires Live(s, f) && Roomy(t) && |s.cells| <= |t.cells|
    ensures var c, e := Captured(s, f), Entered(t, f);
      && Fits(Moved(e, c.base), f.parametersStart, |c.state|)
      && (var r := Applied(e, f, c);
          && (r.base == s.base <==> f.parametersStart < f.tempStart || s.base == 0)
          && (forall i {:trigger r.cells[i]} :: s.base + f.parametersStart <= i < s.base + f.tempStart ==> r.cells[i] == s.cells[i])
          && (forall i {:trigger r.cells[i]} :: 0 <= i < |t.cells| && !(s.base + f.parametersStart <= i < s.base + f.tempStart)
                ==> r.cells[i] == t.cells[i])
          && r.top == r.base + f.tempEnd < |r.cells|
          && (r.temps == r.base + f.tempStart <==> t.base == 0)
          && Popped(r) == t.(cells := r.cells))
  {
    var c := Captured(s, f);
    assert c.base + f.tempEnd < |s.cells|;
  }

  // ---------------------------------------------------------------- blocks

  /** A registered block.  `condition` is the slot its test code leaves the outcome in; `stray` stands for what
      is read as the outcome when the test has moved the stack, because the pointer to the slot is taken
      before (eople_control_flow.cpp:99-115 and 136-152).  `ever` is a whenever block. */
  datatype Block = Block(
    f: Function, closure: Closure, test: Code, condition: nat, stray: seq<Object> -> Object, body: Code, ever: bool)

  /** Code that is run from end to end; Return only marks the end of it. */
  predicate Straight(code: Code) {
    code.Return? || ((Continues(code) || code.Carrier?) && Straight(code.next))
  }

  /** What code generation guarantees (GenWhen, eople_vmcode_gen.cpp:837-890).  A return leaves the body of a
      whenever, but is ignored in the body of a when and in a test. */
  predicate BlockFormed(b: Block) {
    && Laid(b.f) && b.f.isWhenEval && b.f.reuseContext
    && Straight(b.test) && (b.ever || Straight(b.body)) && Formed(b.test, b.f.tempEnd, 0) && Formed(b.body, b.f.tempEnd, 0)
    && b.condition <= b.f.tempEnd
    && (b.closure.state == [] || |b.closure.state| == CaptureSize(b.f))
  }

  /** And its code gets to its end: Calls.AliveIff. */
  predicate BlockOk(b: Block) {
    BlockFormed(b) && CodeOk(b.test, b.f.tempEnd) && CodeOk(b.body, b.f.tempEnd)
  }

  /** The frame that the block was registered from lies within the memory. */
  predicate Framed(cells: seq<Object>, b: Block) {
    BlockFormed(b) && 0 <= b.closure.base && b.closure.base + b.f.tempEnd < |cells|
  }

  predicate Testable(cells: seq<Object>, b: Block) {
    Framed(cells, b) && CodeOk(b.test, b.f.tempEnd)
  }

  predicate Hosts(cells: seq<Object>, b: Block) {
    Framed(cells, b) && BlockOk(b)
  }

  predicate AllHosted(cells: seq<Object>, blocks: seq<Block>) {
    forall i :: 0 <= i < |blocks| ==> Hosts(cells, blocks[i])
  }

  /** Memory only grows, so the frames of registered blocks stay. */
  lemma {:induction false} HostedLater(cells: seq<Object>, more: seq<Object>, blocks: seq<Block>)
    requires AllHosted(cells, blocks) && |cells| <= |more|
    ensures AllHosted(more, blocks)
  {
  }

  /** The captured slots of a block. */
  function Slots(cells: seq<Object>, b: Block): seq<Object>
    requires Framed(cells, b)
  {
    var at := b.closure.base + b.f.parametersStart;
    cells[at..at + CaptureSize(b.f)]
  }

  /** The memory with the closure restored, in a process whose own frame is at `base`. */
  ghost function Restored(cells: seq<Object>, base: nat, b: Block): (r: seq<Object>)
    requires Framed(cells, b)
    ensures |cells| <= |r|
    ensures |b.closure.state| == CaptureSize(b.f) ==> Slots(r, b) == b.closure.state
  {
    Splice(Grown(cells, base + b.f.tempEnd + 1), b.closure.base + b.f.parametersStart, b.closure.state)
  }

  ghost function Tested(cells: seq<Object>, base: nat, b: Block): (r: seq<Object>)
    requires Testable(cells, b)
    ensures |cells| <= |Restored(cells, base, b)| <= |r|
  {
    Run(b.test, Restored(cells, base, b), b.closure.base, b.f.tempEnd)
  }

  /** What is read as the outcome of the test. */
  ghost function Outcome(cells: seq<Object>, base: nat, b: Block): Object
    requires Testable(cells, b)
  {
    var tested := Tested(cells, base, b);
    if |tested| == |Restored(cells, base, b)| then tested[b.closure.base + b.condition] else b.stray(tested)
  }

  ghost predicate Taken(cells: seq<Object>, base: nat, b: Block)
    requires Testable(cells, b)
  {
    True(Outcome(cells, base, b))
  }

  /** The body; Whenever then overwrites the flag that says whether it was left by a return. */
  ghost function Performed(cells: seq<Object>, b: Block): (r: seq<Object>)
    requires Framed(cells, b) && CodeOk(b.body, b.f.tempEnd)
    ensures |cells| <= |r|
  {
    var r := Run(b.body, cells, b.closure.base, b.f.tempEnd);
    var at := b.closure.base + b.f.tempEnd;
    if b.ever then r[at := Flagged(r[at], true)] else r
  }

  /** The instructions When and Whenever, eople_control_flow.cpp:95-173. */
  ghost function Evaluated(cells: seq<Object>, base: nat, b: Block): (r: seq<Object>)
    requires Testable(cells, b) && (Taken(cells, base, b) ==> CodeOk(b.body, b.f.tempEnd))
    ensures |cells| <= |r|
  {
    if Taken(cells, base, b) then Performed(Tested(cells, base, b), b) else Tested(cells, base, b)
  }

  /** What When and Whenever do if there is room for the test and all its calls: the test runs in the restored frame;
      the body then runs in the same frame exactly when the low byte of the condition is not 0, and Whenever ends with
      a flag in the slot at the top. */
  lemma {:induction false} EvaluatesAs(cells: seq<Object>, base: nat, b: Block)
    requires Hosts(cells, b) && TestFits(Restored(cells, base, b), b)
    ensures var at, room := b.closure.base, b.f.tempEnd;
      var tested := Run(b.test, Restored(cells, base, b), at, room);
      var after := Evaluated(cells, base, b);
      if tested[at + b.condition] % 0x100 == 0 then !Taken(cells, base, b) && after == tested
      else
        var r := Run(b.body, tested, at, room);
        && Taken(cells, base, b) && |after| == |r|
        && (forall i {:trigger after[i]} :: 0 <= i < |r| && (i != at + room || !b.ever) ==> after[i] == r[i])
        && (b.ever ==> after[at + room] == r[at + room] - r[at + room] % 0x100 + 1)
  {
    ConditionRead(cells, base, b);
  }

  /** One evaluation of a when block that assigns to one slot under a condition computed in another. */
  lemma {:induction false} GuardedAssignment(cells: seq<Object>, base: nat, b: Block)
    requires Hosts(cells, b) && b.test.Op? && b.test.next.Return? && b.test.to == b.condition
    requires b.body.Op? && b.body.next.Return? && !b.ever
    ensures var at, room, m := b.closure.base, b.f.tempEnd, Restored(cells, base, b);
      var condition := b.test.compute(m[at..at + room + 1]);
      var tested := m[at + b.condition := condition];
      && b.body.to <= room
      && Evaluated(cells, base, b) ==
        if condition % 0x100 == 0 then tested else tested[at + b.body.to := b.body.compute(tested[at..at + room + 1])]
  {
    var at, room := b.closure.base, b.f.tempEnd;
    var m := Restored(cells, base, b);
    OneAssignment(b.test, m, at, room);
    var tested := Run(b.test, m, at, room);
    OneAssignment(b.body, tested, at, room);
    PeakIsReached(b.test, m, at, room);
    EvaluatesAs(cells, base, b);
  }

  lemma {:induction false} OneAssignment(code: Code, cells: seq<Object>, base: nat, room: nat)
    requires base + room < |cells| && CodeOk(code, room) && code.Op? && code.next.Return?
    ensures code.to <= room && Run(code, cells, base, room) == cells[base + code.to := code.compute(cells[base..base + room + 1])]
  {
    assert CodeOk(code.next, room);
    assert Run(code.next, Stepped(code, cells, base, room), base, room) == Stepped(code.next, Stepped(code, cells, base, room), base, room);
  }

  /** There is room for the test and every call in it. */
  predicate TestFits(cells: seq<Object>, b: Block)
    requires Testable(cells, b)
  {
    b.closure.base + Peak(b.test, b.f.tempEnd) <= |cells|
  }

  /** The outcome read is the condition the test has computed exactly when the test did not have to move the
      stack; otherwise it is whatever freed memory holds. */
  lemma {:induction false} ConditionRead(cells: seq<Object>, base: nat, b: Block)
    requires Testable(cells, b)
    ensures Outcome(cells, base, b) ==
      if TestFits(Restored(cells, base, b), b) then Tested(cells, base, b)[b.closure.base + b.condition]
      else b.stray(Tested(cells, base, b))
  {
    PeakIsReached(b.test, Restored(cells, base, b), b.closure.base, b.f.tempEnd);
  }

  /** Without that room some content of freed memory makes the block do the opposite. */
  lemma {:induction false} ConditionLost(cells: seq<Object>, base: nat, b: Block) returns (stray: seq<Object> -> Object)
    requires Testable(cells, b) && !TestFits(Restored(cells, base, b), b)
    ensures Taken(cells, base, b.(stray := stray)) <==> !True(Tested(cells, base, b)[b.closure.base + b.condition])
  {
    var x := Flagged(NIL, !True(Tested(cells, base, b)[b.closure.base + b.condition]));
    stray := (_: seq<Object>) => x;
    ConditionRead(cells, base, b.(stray := stray));
  }

  /** There are such blocks: one whose test calls a function, in a frame that fills the memory. */
  lemma {:induction false} TestMoves(z: nat, n: nat, no: bool, x: Object, end: Code) returns (cells: seq<Object>, b: Block)
    requires z == 0 && n == 1 && !no && end == Return
    ensures |cells| == n + 1 && Hosts(cells, b) && b.test.FunctionCall? && !TestFits(Restored(cells, z, b), b)
  {
    var f, args := ArgumentLost(z, n, no, x, x);
    var test := FunctionCall(f, args, [x], end, end);
    cells := [x, x];
    b := Block(Function(!no, !no, no, z, z, z, z, n, n, []), Closure(z, []), test, z, (_: seq<Object>) => x, end, no);
    CodeOkIff(end, f.storage);
    assert CodeOk(test, n);
    CodeOkIff(test, n);
  }

  // ---------------------------------------------------------------- evaluating a block

  /** Sets up the frame of a block and runs When or Whenever; the frame is still there afterwards.  It gets to its
      end exactly when the test does, and the body if the condition is true. */
  method Evaluate(process: ProcessStack, b: Block, ghost base: nat) returns (alive: bool, taken: bool)
    requires Roomy(process.Value()) && process.base == base && Framed(process.stack[..], b)
    modifies process, process.stack
    ensures alive <==> CodeOk(b.test, b.f.tempEnd) && (Taken(old(process.stack[..]), base, b) ==> CodeOk(b.body, b.f.tempEnd))
    ensures alive ==> taken == Taken(old(process.stack[..]), base, b) && process.stack[..] == Evaluated(old(process.stack[..]), base, b)
    ensures alive ==> process.stack == old(process.stack) || fresh(process.stack)
    ensures alive ==> process.base == b.closure.base && Popped(process.Value()) == old(process.Value()).(cells := process.stack[..])
  {
    alive, taken := Test(process, b, base);
    if alive && taken {
      alive := Perform(process, b);
    }
  }

  /** The pointer to the outcome is taken before the test. */
  method Test(process: ProcessStack, b: Block, ghost base: nat) returns (alive: bool, taken: bool)
    requires Roomy(process.Value()) && process.base == base && Framed(process.stack[..], b)
    modifies process, process.stack
    ensures alive == CodeOk(b.test, b.f.tempEnd)
    ensures alive ==> taken == Taken(old(process.stack[..]), base, b) && process.stack[..] == Tested(old(process.stack[..]), base, b)
    ensures alive ==> process.stack == old(process.stack) || fresh(process.stack)
    ensures alive ==> InFrame(process.Value(), b.closure.base, b.f.tempEnd)
    ensures alive ==> Popped(process.Value()) == old(process.Value()).(cells := process.stack[..])
  {
    Restore(process, b, base);
    var stack, at := process.stack, process.base + b.condition;
    CodeOkIff(b.test, b.f.tempEnd);
    alive := ExecutionLoop(process, b.test, b.closure.base, b.f.tempEnd);
    if !alive {
      return false, false;
    }
    if process.stack == stack {
      taken := True(stack[at]);
    } else {
      taken := True(b.stray(process.stack[..]));
    }
  }

  method Perform(process: ProcessStack, b: Block) returns (alive: bool)
    requires Framed(process.stack[..], b) && InFrame(process.Value(), b.closure.base, b.f.tempEnd)
    modifies process, process.stack
    ensures alive == CodeOk(b.body, b.f.tempEnd)
    ensures alive ==> process.Value() == old(process.Value()).(cells := Performed(old(process.stack[..]), b))
    ensures alive ==> process.stack == old(process.stack) || fresh(process.stack)
  {
    CodeOkIff(b.body, b.f.tempEnd);
    alive := ExecutionLoop(process, b.body, b.closure.base, b.f.tempEnd);
    if alive && b.ever {
      WriteSlot(process, b.f.tempEnd, Flagged(process.stack[process.top], true));
    }
  }

  method Restore(process: ProcessStack, b: Block, ghost base: nat)
    requires Roomy(process.Value()) && process.base == base && Framed(process.stack[..], b)
    modifies process, process.stack
    ensures process.stack[..] == Restored(old(process.stack[..]), base, b)
    ensures process.stack == old(process.stack) || fresh(process.stack)
    ensures InFrame(process.Value(), b.closure.base, b.f.tempEnd)
    ensures Popped(process.Value()) == old(process.Value()).(cells := process.stack[..])
  {
    process.SetupStackFrame(b.f);
    process.ApplyClosureState(b.f, b.closure);
  }

  // ---------------------------------------------------------------- the passes

  /** Evaluating a block in a process whose frame is at `base`.  Blocks outside the memory do not arise. */
  ghost function Looker(base: nat): (seq<Object>, Block) -> (seq<Object>, bool) {
    (cells: seq<Object>, b: Block) => if Hosts(cells, b) then (Evaluated(cells, base, b), Taken(cells, base, b)) else (cells, false)
  }

  /** The closure a whenever block is left with: what its body made of the captured slots. */
  function Recaptured(cells: seq<Object>, b: Block): Block {
    if !Hosts(cells, b) then b
    else b.(closure := if CaptureSize(b.f) == 0 then Closure(0, []) else Closure(b.closure.base, Slots(cells, b)))
  }

  /** b1 is the block b with the captured slots as they are in `after`. */
  ghost predicate Renewed(b: Block, after: seq<Object>, b1: Block) {
    && b1 == b.(closure := b1.closure)
    && if b.f.parametersStart < b.f.tempStart then
         && b1.closure.base == b.closure.base && Laid(b.f)
         && 0 <= b.closure.base && b.closure.base + b.f.tempEnd < |after|
         && b1.closure.state == after[b.closure.base + b.f.parametersStart..b.closure.base + b.f.tempStart]
       else b1.closure == Closure(0, [])
  }

  lemma {:induction false} RecapturedRenewed(cells: seq<Object>, b: Block)
    requires Hosts(cells, b)
    ensures Renewed(b, cells, Recaptured(cells, b))
  {
  }

  /** The next run of a whenever body starts from the captured slots exactly as its last run left them, however
      the memory was used in between. */
  lemma {:induction false} BodyCarriesOver(cells: seq<Object>, base: nat, b: Block, next: Block, later: seq<Object>, base1: nat)
    requires Hosts(cells, b) && Taken(cells, base, b) && b.f.parametersStart < b.f.tempStart
    requires Renewed(b, Evaluated(cells, base, b), next) && |Evaluated(cells, base, b)| <= |later|
    ensures Hosts(later, next)
    ensures forall i {:trigger Restored(later, base1, next)[i]} ::
      b.closure.base + b.f.parametersStart <= i < b.closure.base + b.f.tempStart ==>
        Restored(later, base1, next)[i] == Evaluated(cells, base, b)[i]
  {
  }

  ghost predicate SameEnd(r: PassEnd<seq<Object>, Block>, r1: PassEnd<seq<Object>, Block>) {
    r.left == r1.left && r.state == r1.state
  }

  lemma {:induction false} WhenStep(base: nat, cells: seq<Object>, blocks: seq<Block>, i: nat, after: seq<Object>, taken: bool, left: seq<Block>, j: nat)
    requires i < |blocks| && AllHosted(cells, blocks)
    requires after == Evaluated(cells, base, blocks[i]) && taken == Taken(cells, base, blocks[i])
    requires if taken then left == SwapRemoved(blocks, i) && j == i else left == blocks && j == i + 1
    ensures AllHosted(after, left) && j <= |left|
    ensures SameEnd(WhenPass(Looker(base), cells, blocks, i), WhenPass(Looker(base), after, left, j))
  {
    assert Looker(base)(cells, blocks[i]) == (after, taken);
  }

  lemma {:induction false} EverStep(base: nat, cells: seq<Object>, blocks: seq<Block>, i: nat, after: seq<Object>, taken: bool, left: seq<Block>)
    requires i < |blocks| && AllHosted(cells, blocks)
    requires after == Evaluated(cells, base, blocks[i]) && taken == Taken(cells, base, blocks[i])
    requires left == if taken then blocks[i := Recaptured(after, blocks[i])] else blocks
    ensures AllHosted(after, left)
    ensures SameEnd(EverPass(Looker(base), Recaptured, cells, blocks, i), EverPass(Looker(base), Recaptured, after, left, i + 1))
  {
    assert Looker(base)(cells, blocks[i]) == (after, taken);
  }

  lemma {:induction false} WhenPassHosted(base: nat, cells: seq<Object>, blocks: seq<Block>, i: nat)
    requires i <= |blocks| && AllHosted(cells, blocks)
    ensures var r := WhenPass(Looker(base), cells, blocks, i); |cells| <= |r.state| && AllHosted(r.state, r.left)
    decreases |blocks| - i
  {
    if i < |blocks| {
      var after, taken := Evaluated(cells, base, blocks[i]), Taken(cells, base, blocks[i]);
      var left, j := if taken then SwapRemoved(blocks, i) else blocks, if taken then i else i + 1;
      WhenStep(base, cells, blocks, i, after, taken, left, j);
      WhenPassHosted(base, after, left, j);
    }
  }

  /** A whenever block that is renewed keeps all but the captured objects. */
  ghost predicate SameBlock(b: Block, b1: Block) {
    && b1 == b.(closure := b1.closure)
    && (Laid(b.f) && CaptureSize(b.f) > 0 ==> b1.closure.base == b.closure.base && |b.closure.state| <= |b1.closure.state|)
  }

  lemma {:induction false} SameTwice(b: Block, b1: Block, b2: Block)
    requires SameBlock(b, b1) && SameBlock(b1, b2)
    ensures SameBlock(b, b2)
  {
  }

  lemma {:induction false} EverPassHosted(base: nat, cells: seq<Object>, blocks: seq<Block>, i: nat)
    requires i <= |blocks| && AllHosted(cells, blocks)
    ensures var r := EverPass(Looker(base), Recaptured, cells, blocks, i);
      && |cells| <= |r.state| && AllHosted(r.state, r.left) && |r.left| == |blocks|
      && forall k :: 0 <= k < |blocks| ==> SameBlock(blocks[k], r.left[k])
    decreases |blocks| - i
  {
    if i < |blocks| {
      var after, taken := Evaluated(cells, base, blocks[i]), Taken(cells, base, blocks[i]);
      var left := if taken then blocks[i := Recaptured(after, blocks[i])] else blocks;
      var r, r1 := EverPass(Looker(base), Recaptured, cells, blocks, i), EverPass(Looker(base), Recaptured, after, left, i + 1);
      assert AllHosted(after, left) && SameEnd(r, r1) by { EverStep(base, cells, blocks, i, after, taken, left); }
      EverPassHosted(base, after, left, i + 1);
      forall k | 0 <= k < |blocks| ensures SameBlock(blocks[k], r.left[k]) { SameTwice(blocks[k], left[k], r1.left[k]); }
    }
  }
}

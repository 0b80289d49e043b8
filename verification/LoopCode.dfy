/** Structured statements and where their bytecode stands (eople_vmcode_gen.cpp:522-556, 965-981 and 1029-1153):
    bytecode that stands so means what the statements mean. */
module LoopCode {
  import opened Options
  import opened Frames
  import opened Loops

  /** A condition whose value is in a slot, because it is a variable or a literal or has been computed there; or a
      comparison of two integer slots, which writes no slot because it becomes the jump. */
  datatype Condition = Bare(b: nat) | Less(a: nat, b: nat, to: nat)

  predicate IsTrue(mem: seq<Object>, condition: Condition) {
    match condition
    case Bare(b) => True(Slot(mem, b))
    case Less(a, b, _) => Slot(mem, a) < Slot(mem, b)
  }

  /** The jump over n instructions that is taken when the condition is false. */
  function JumpUnless(condition: Condition, n: nat): Instr {
    match condition
    case Bare(b) => JumpIf(n, b)
    case Less(a, b, _) => JumpGEQ(n, a, b)
  }

  /** A statement list.  `Do` is one instruction that writes one slot, `Compare` one that writes the outcome of an
      integer comparison, as an assignment or as a part of an expression.  An If that is `chained` has as its
      `otherwise` an elseif: the instructions of its test and an If with nothing after it. */
  datatype Stmt =
    | Done
    | Do(to: nat, compute: seq<Object> -> Object, next: Stmt)
    | Compare(a: nat, b: nat, to: nat, next: Stmt)
    | If(condition: Condition, body: Stmt, chained: bool, otherwise: Stmt, next: Stmt)
    | For(counter: nat, start: nat, stop: nat, step: nat, body: Stmt, next: Stmt)

  /** What the statements mean: no positions, no jumps.  None when a loop never ends, or overflows. */
  function Eval(p: Stmt, mem: seq<Object>): (r: Option<seq<Object>>)
    decreases p, 1, 0
  {
    match p
    case Done => Some(mem)
    case Do(to, compute, next) => Eval(next, SetSlot(mem, to, compute(mem)))
    case Compare(a, b, to, next) => Eval(next, SetSlot(mem, to, Compared(mem, a, b, to)))
    case If(_, _, _, _, next) =>
      var branch := EvalBranch(p, mem);
      if branch.None? then None else Eval(next, branch.value)
    case For(counter, start, stop, step, body, next) =>
      var mem1 := SetSlot(mem, counter, Slot(mem, start));
      var end := EvalLoop(body, counter, Slot(mem1, counter), Slot(mem1, stop), Slot(mem1, step), mem1);
      if end.None? then None else Eval(next, end.value)
  }

  function EvalBranch(p: Stmt, mem: seq<Object>): Option<seq<Object>>
    requires p.If?
    decreases p, 0, 0
  {
    if IsTrue(mem, p.condition) then Eval(p.body, mem) else Eval(p.otherwise, mem)
  }

  function EvalLoop(body: Stmt, counter: nat, i: int, stop: int, step: int, mem: seq<Object>): Option<seq<Object>>
    decreases body, 2, Distance(i, stop, step)
  {
    if !Enters(i, stop, step) then Some(mem)
    else if step == 0 then None
    else
      var turn := Eval(body, SetSlot(mem, counter, i));
      if turn.None? || !(INT_MIN <= i + step <= INT_MAX) then None
      else EvalLoop(body, counter, i + step, stop, step, turn.value)
  }

  // ---------------------------------------------------------------- blocks one after the other

  /** A block is two blocks one after the other, and runs as such. */
  lemma {:induction false} BlockJoins(code: seq<Instr>, s: nat, mid: nat, e: nat)
    requires s <= mid && Block(code, s, mid) && Block(code, mid, e)
    ensures Block(code, s, e)
    decreases mid - s
  {
    if s < mid { BlockJoins(code, s + 1, mid, e); }
  }

  lemma {:induction false} RunJoins(code: seq<Instr>, s: nat, mid: nat, e: nat, mem: seq<Object>)
    requires Block(code, s, mid) && mid <= e <= |code|
    ensures Run(code, s, e, mem)
      == var first := Run(code, s, mid, mem); if first.None? then None else Run(code, mid, e, first.value)
    decreases mid - s
  {
    if s < mid {
      assert Step(code, s, e, mem) == Step(code, s, mid, mem);
      var next := Step(code, s, mid, mem);
      if next.Some? {
        BlockFrom(code, s, mid, next.value.0);
        RunJoins(code, next.value.0, mid, e, next.value.1);
      }
    }
  }

  // ---------------------------------------------------------------- where the code stands

  function Size(p: Stmt): nat {
    match p
    case Done => 0
    case Do(_, _, next) => 1 + Size(next)
    case Compare(_, _, _, next) => 1 + Size(next)
    case If(_, body, _, otherwise, next) => IfSize(Size(body), Size(otherwise)) + Size(next)
    case For(_, _, _, _, body, next) => 2 + Size(body) + Size(next)
  }

  function IfSize(n: nat, m: nat): nat {
    if m == 0 then 1 + n else 2 + n + m
  }

  /** At `at` a jump on a condition over n instructions, which end with a jump over m more when m > 0. */
  ghost predicate IfLayout(code: seq<Instr>, at: nat, condition: Condition, n: nat, m: nat) {
    if m == 0 then at + 1 + n <= |code| && code[at] == JumpUnless(condition, n)
    else at + 2 + n + m <= |code| && code[at] == JumpUnless(condition, n + 1) && code[at + 1 + n] == Jump(m)
  }

  /** What a Store copies. */
  function Copied(from: nat): seq<Object> -> Object {
    (mem: seq<Object>) => Slot(mem, from)
  }

  /** At `at` the store of the start value and the loop over the n instructions after it. */
  ghost predicate ForLayout(code: seq<Instr>, at: nat, counter: nat, start: nat, stop: nat, step: nat, n: nat) {
    at + 2 + n <= |code| && code[at] == Op(counter, Copied(start)) && code[at + 1] == ForI(counter, stop, step, n)
  }

  /** The code of p stands at `at`, instruction by instruction. */
  ghost predicate Placed(code: seq<Instr>, at: nat, p: Stmt)
    decreases p, 2
  {
    at + Size(p) <= |code| && Stands(code, at, p)
  }

  ghost predicate Stands(code: seq<Instr>, at: nat, p: Stmt)
    requires at + Size(p) <= |code|
    decreases p, 1
  {
    match p
    case Done => true
    case Do(to, compute, next) => code[at] == Op(to, compute) && Placed(code, at + 1, next)
    case Compare(a, b, to, next) => code[at] == LessThanI(a, b, to) && Placed(code, at + 1, next)
    case If(_, body, _, otherwise, next) => IfOnly(code, at, p) && Placed(code, at + IfSize(Size(body), Size(otherwise)), next)
    case For(_, _, _, _, body, next) => ForOnly(code, at, p) && Placed(code, at + 2 + Size(body), next)
  }

  /** An If at `at`, without what follows it. */
  ghost predicate IfOnly(code: seq<Instr>, at: nat, p: Stmt)
    requires p.If?
    decreases p, 0
  {
    var n, m := Size(p.body), Size(p.otherwise);
    && IfLayout(code, at, p.condition, n, m)
    && Placed(code, at + 1, p.body) && (m > 0 ==> Placed(code, at + 2 + n, p.otherwise))
  }

  ghost predicate ForOnly(code: seq<Instr>, at: nat, p: Stmt)
    requires p.For?
    decreases p, 0
  {
    ForLayout(code, at, p.counter, p.start, p.stop, p.step, Size(p.body)) && Placed(code, at + 2, p.body)
  }

  /** Only the instructions of p matter. */
  lemma {:induction false} PlacedSame(code: seq<Instr>, code1: seq<Instr>, at: nat, p: Stmt)
    requires Placed(code, at, p) && at + Size(p) <= |code1|
    requires forall i :: at <= i < at + Size(p) ==> code1[i] == code[i]
    ensures Placed(code1, at, p)
    decreases p, 1
  {
    match p
    case Done =>
    case Do(_, _, next) => PlacedSame(code, code1, at + 1, next);
    case Compare(_, _, _, next) => PlacedSame(code, code1, at + 1, next);
    case If(_, body, _, otherwise, next) =>
      var end := at + IfSize(Size(body), Size(otherwise));
      assert end + Size(next) == at + Size(p);
      assert IfOnly(code1, at, p) by { IfSame(code, code1, at, p); }
      assert Placed(code1, end, next) by { PlacedSame(code, code1, end, next); }
    case For(_, _, _, _, body, next) =>
      var end := at + 2 + Size(body);
      assert end + Size(next) == at + Size(p);
      assert ForOnly(code1, at, p) by { ForSame(code, code1, at, p); }
      assert Placed(code1, end, next) by { PlacedSame(code, code1, end, next); }
  }

  lemma {:induction false} ForSame(code: seq<Instr>, code1: seq<Instr>, at: nat, p: Stmt)
    requires p.For? && ForOnly(code, at, p) && at + 2 + Size(p.body) <= |code1|
    requires forall i :: at <= i < at + 2 + Size(p.body) ==> code1[i] == code[i]
    ensures ForOnly(code1, at, p)
    decreases p, 0
  {
    PlacedSame(code, code1, at + 2, p.body);
  }

  lemma {:induction false} IfSame(code: seq<Instr>, code1: seq<Instr>, at: nat, p: Stmt)
    requires p.If? && IfOnly(code, at, p) && at + IfSize(Size(p.body), Size(p.otherwise)) <= |code1|
    requires forall i :: at <= i < at + IfSize(Size(p.body), Size(p.otherwise)) ==> code1[i] == code[i]
    ensures IfOnly(code1, at, p)
    decreases p, 0
  {
    var n := Size(p.body);
    PlacedSame(code, code1, at + 1, p.body);
    if Size(p.otherwise) > 0 { PlacedSame(code, code1, at + 2 + n, p.otherwise); }
  }

  lemma {:induction false} BehindChange(code: seq<Instr>, at: nat, ins: Instr, p: Stmt)
    requires at < |code| && Placed(code, at + 1, p)
    ensures Placed(code[at := ins], at + 1, p)
  {
    PlacedSame(code, code[at := ins], at + 1, p);
  }

  predicate NoReturns(code: seq<Instr>, at: nat, e: nat)
    requires e <= |code|
  {
    forall k :: at <= k < e ==> !code[k].Return?
  }

  /** The code of statements has no Return. */
  lemma {:induction false} NoReturn(code: seq<Instr>, at: nat, p: Stmt)
    requires Placed(code, at, p)
    ensures NoReturns(code, at, at + Size(p))
    decreases p, 1
  {
    match p
    case Done =>
    case Do(_, _, next) => NoReturn(code, at + 1, next);
    case Compare(_, _, _, next) => NoReturn(code, at + 1, next);
    case If(_, body, _, otherwise, next) =>
      var end := at + IfSize(Size(body), Size(otherwise));
      assert end + Size(next) == at + Size(p);
      assert NoReturns(code, at, end) by { IfNoReturn(code, at, p); }
      assert NoReturns(code, end, at + Size(p)) by { NoReturn(code, end, next); }
    case For(_, _, _, _, body, next) =>
      var mid := at + 2 + Size(body);
      assert mid + Size(next) == at + Size(p);
      assert NoReturns(code, at, mid) by { ForNoReturn(code, at, p); }
      assert NoReturns(code, mid, at + Size(p)) by { NoReturn(code, mid, next); }
  }

  lemma {:induction false} ForNoReturn(code: seq<Instr>, at: nat, p: Stmt)
    requires p.For? && ForOnly(code, at, p)
    ensures NoReturns(code, at, at + 2 + Size(p.body))
    decreases p, 0
  {
    NoReturn(code, at + 2, p.body);
  }

  lemma {:induction false} IfNoReturn(code: seq<Instr>, at: nat, p: Stmt)
    requires p.If? && IfOnly(code, at, p)
    ensures NoReturns(code, at, at + IfSize(Size(p.body), Size(p.otherwise)))
    decreases p, 0
  {
    var mid, end := at + 1 + Size(p.body), at + IfSize(Size(p.body), Size(p.otherwise));
    assert NoReturns(code, at, mid) by { NoReturn(code, at + 1, p.body); }
    if mid < end {
      assert NoReturns(code, mid, end) by { NoReturn(code, mid + 1, p.otherwise); }
    }
  }

  // ---------------------------------------------------------------- elseif chains

  /** A statement of one instruction. */
  predicate Plain(p: Stmt) {
    p.Do? || p.Compare?
  }

  function Instruction(p: Stmt): Instr
    requires Plain(p)
  {
    if p.Do? then Op(p.to, p.compute) else LessThanI(p.a, p.b, p.to)
  }

  /** The test of an elseif and its If. */
  predicate IsElseIf(p: Stmt) {
    if Plain(p) then IsElseIf(p.next) else p.If? && p.next.Done?
  }

  predicate Formed(p: Stmt) {
    match p
    case Done => true
    case Do(_, _, next) => Formed(next)
    case Compare(_, _, _, next) => Formed(next)
    case If(_, body, chained, otherwise, next) =>
      Formed(body) && Formed(otherwise) && Formed(next) && (chained ==> IsElseIf(otherwise))
    case For(_, _, _, _, body, next) => Formed(body) && Formed(next)
  }

  function Tests(p: Stmt): (n: nat)
    requires IsElseIf(p)
  {
    if Plain(p) then 1 + Tests(p.next) else 0
  }

  function Inner(p: Stmt): (r: Stmt)
    requires IsElseIf(p)
    ensures r.If? && r.next.Done? && Size(p) == Tests(p) + Size(r) && Size(r) > 0 && (Formed(p) ==> Formed(r))
    ensures r == p || r < p
  {
    if Plain(p) then Inner(p.next) else p
  }

  ghost predicate TestsPlaced(code: seq<Instr>, at: nat, p: Stmt)
    requires IsElseIf(p)
    decreases p
  {
    Plain(p) ==> at < |code| && code[at] == Instruction(p) && TestsPlaced(code, at + 1, p.next)
  }

  lemma {:induction false} ElseIfPlaced(code: seq<Instr>, at: nat, p: Stmt)
    requires IsElseIf(p) && TestsPlaced(code, at, p) && Placed(code, at + Tests(p), Inner(p))
    ensures Placed(code, at, p)
    decreases p
  {
    if Plain(p) { ElseIfPlaced(code, at + 1, p.next); }
  }

  lemma {:induction false} TestsSame(code: seq<Instr>, code1: seq<Instr>, at: nat, p: Stmt)
    requires IsElseIf(p) && TestsPlaced(code, at, p) && at + Tests(p) <= |code1|
    requires forall i :: at <= i < at + Tests(p) && i < |code| ==> code1[i] == code[i]
    ensures TestsPlaced(code1, at, p)
    decreases p
  {
    if Plain(p) { TestsSame(code, code1, at + 1, p.next); }
  }

  // ---------------------------------------------------------------- putting code together

  lemma {:induction false} ElseIfWhole(code: seq<Instr>, at: nat, p: Stmt)
    requires IsElseIf(p) && TestsPlaced(code, at, p) && IfOnly(code, at + Tests(p), Inner(p)) && at + Size(p) <= |code|
    ensures Placed(code, at, p)
  {
    assert Placed(code, at + Tests(p), Inner(p));
    ElseIfPlaced(code, at, p);
  }

  /** The parts of an If in place. */
  lemma {:induction false} IfMade(code: seq<Instr>, test: nat, p: Stmt)
    requires p.If? && IfLayout(code, test, p.condition, Size(p.body), Size(p.otherwise))
    requires Placed(code, test + 1, p.body) && (Size(p.otherwise) > 0 ==> Placed(code, test + 2 + Size(p.body), p.otherwise))
    ensures IfOnly(code, test, p)
  {
  }

  lemma {:induction false} IfPlaced(before: seq<Instr>, code: seq<Instr>, at: nat, p: Stmt)
    requires p.If? && IfOnly(before, at, p) && |before| == at + IfSize(Size(p.body), Size(p.otherwise))
    requires |before| <= |code| && (forall i :: 0 <= i < |before| ==> code[i] == before[i]) && Placed(code, |before|, p.next)
    ensures Placed(code, at, p)
  {
    IfSame(before, code, at, p);
  }

  lemma {:induction false} ForPlaced(before: seq<Instr>, code: seq<Instr>, at: nat, p: Stmt)
    requires p.For? && ForOnly(before, at, p) && |before| == at + 2 + Size(p.body)
    requires |before| <= |code| && (forall i :: 0 <= i < |before| ==> code[i] == before[i]) && Placed(code, |before|, p.next)
    ensures Placed(code, at, p)
  {
    ForSame(before, code, at, p);
  }

  // ---------------------------------------------------------------- it is well formed

  lemma {:induction false} PlacedBlock(code: seq<Instr>, at: nat, p: Stmt)
    requires Placed(code, at, p)
    ensures Block(code, at, at + Size(p))
    decreases p, 1
  {
    match p
    case Done =>
    case Do(_, _, next) => PlacedBlock(code, at + 1, next);
    case Compare(_, _, _, next) => PlacedBlock(code, at + 1, next);
    case If(_, body, _, otherwise, next) =>
      var mid := at + IfSize(Size(body), Size(otherwise));
      assert mid + Size(next) == at + Size(p);
      assert Block(code, at, mid) by { IfBlock(code, at, p); }
      assert Block(code, mid, at + Size(p)) by { PlacedBlock(code, mid, next); }
      BlockJoins(code, at, mid, at + Size(p));
    case For(_, _, _, _, body, next) =>
      var mid := at + 2 + Size(body);
      assert mid + Size(next) == at + Size(p);
      assert Block(code, at, mid) by { ForBlock(code, at, p); }
      assert Block(code, mid, at + Size(p)) by { PlacedBlock(code, mid, next); }
      BlockJoins(code, at, mid, at + Size(p));
  }

  lemma {:induction false} IfBlock(code: seq<Instr>, at: nat, p: Stmt)
    requires p.If? && IfOnly(code, at, p)
    ensures Block(code, at, at + IfSize(Size(p.body), Size(p.otherwise)))
    decreases p, 0
  {
    var mid, end := at + 1 + Size(p.body), at + IfSize(Size(p.body), Size(p.otherwise));
    assert Block(code, at + 1, mid) by { PlacedBlock(code, at + 1, p.body); }
    if mid < end {
      assert Block(code, mid + 1, end) by { PlacedBlock(code, mid + 1, p.otherwise); }
      assert Block(code, mid, end);
      BlockJoins(code, at + 1, mid, end);
    }
  }

  lemma {:induction false} ForBlock(code: seq<Instr>, at: nat, p: Stmt)
    requires p.For? && ForOnly(code, at, p)
    ensures Block(code, at, at + 2 + Size(p.body))
    decreases p, 0
  {
    PlacedBlock(code, at + 2, p.body);
    assert Block(code, at + 2 + Size(p.body), at + 2 + Size(p.body));
    assert Block(code, at + 1, at + 2 + Size(p.body));
  }

  // ---------------------------------------------------------------- and means what the statements mean

  /** Wherever the code of a statement list stands, running it does what the statements say. */
  lemma {:induction false} PlacedRuns(code: seq<Instr>, at: nat, p: Stmt, mem: seq<Object>)
    requires Placed(code, at, p)
    ensures Run(code, at, at + Size(p), mem) == Eval(p, mem)
    decreases p, 2, 0
  {
    match p
    case Done =>
    case Do(to, compute, next) =>
      assert Step(code, at, at + Size(p), mem) == Some((at + 1, SetSlot(mem, to, compute(mem))));
      PlacedRuns(code, at + 1, next, SetSlot(mem, to, compute(mem)));
    case Compare(a, b, to, next) =>
      assert Step(code, at, at + Size(p), mem) == Some((at + 1, SetSlot(mem, to, Compared(mem, a, b, to))));
      PlacedRuns(code, at + 1, next, SetSlot(mem, to, Compared(mem, a, b, to)));
    case If(_, _, _, _, _) => IfPlacedRuns(code, at, p, mem);
    case For(_, _, _, _, _, _) => ForPlacedRuns(code, at, p, mem);
  }

  lemma {:induction false} IfPlacedRuns(code: seq<Instr>, at: nat, p: Stmt, mem: seq<Object>)
    requires p.If? && Placed(code, at, p)
    ensures Run(code, at, at + Size(p), mem) == Eval(p, mem)
    decreases p, 1, 0
  {
    IfRuns(code, at, p, mem);
    IfBlock(code, at, p);
    JoinNext(code, at, at + IfSize(Size(p.body), Size(p.otherwise)), p.next, mem, EvalBranch(p, mem));
  }

  lemma {:induction false} ForPlacedRuns(code: seq<Instr>, at: nat, p: Stmt, mem: seq<Object>)
    requires p.For? && Placed(code, at, p)
    ensures Run(code, at, at + Size(p), mem) == Eval(p, mem)
    decreases p, 1, 0
  {
    var first := ForRuns(code, at, p, mem);
    ForBlock(code, at, p);
    JoinNext(code, at, at + 2 + Size(p.body), p.next, mem, first);
  }

  /** The rest of a list after its first statement. */
  lemma {:induction false} JoinNext(code: seq<Instr>, at: nat, mid: nat, next: Stmt, mem: seq<Object>, first: Option<seq<Object>>)
    requires Block(code, at, mid) && Placed(code, mid, next) && Run(code, at, mid, mem) == first
    ensures Run(code, at, mid + Size(next), mem) == if first.None? then None else Eval(next, first.value)
    decreases next, 3, 0
  {
    RunJoins(code, at, mid, mid + Size(next), mem);
    if first.Some? { PlacedRuns(code, mid, next, first.value); }
  }

  lemma {:induction false} IfRuns(code: seq<Instr>, at: nat, p: Stmt, mem: seq<Object>)
    requires p.If? && IfOnly(code, at, p)
    ensures Run(code, at, at + IfSize(Size(p.body), Size(p.otherwise)), mem) == EvalBranch(p, mem)
    decreases p, 0, 0
  {
    var n, m := Size(p.body), Size(p.otherwise);
    if IsTrue(mem, p.condition) {
      assert Run(code, at + 1, at + 1 + n, mem) == Eval(p.body, mem) by { PlacedRuns(code, at + 1, p.body, mem); }
      assert Block(code, at + 1, at + 1 + n) by { PlacedBlock(code, at + 1, p.body); }
      IfTaken(code, at, p.condition, n, m, mem, Eval(p.body, mem));
    } else {
      IfPassed(code, at, p.condition, n, m, mem);
      if m > 0 {
        assert Run(code, at + 2 + n, at + 2 + n + m, mem) == Eval(p.otherwise, mem) by {
          PlacedRuns(code, at + 2 + n, p.otherwise, mem);
        }
      }
    }
  }

  lemma {:induction false} IfTaken(code: seq<Instr>, at: nat, condition: Condition, n: nat, m: nat, mem: seq<Object>, end: Option<seq<Object>>)
    requires IfLayout(code, at, condition, n, m) && IsTrue(mem, condition)
    requires Block(code, at + 1, at + 1 + n) && Run(code, at + 1, at + 1 + n, mem) == end
    ensures Run(code, at, at + IfSize(n, m), mem) == end
  {
    var e := at + IfSize(n, m);
    assert Step(code, at, e, mem) == Some((at + 1, mem));
    if m > 0 {
      RunJoins(code, at + 1, at + 1 + n, e, mem);
      if end.Some? { JumpsToEnd(code, at + 1 + n, e, end.value); }
    }
  }

  lemma {:induction false} IfPassed(code: seq<Instr>, at: nat, condition: Condition, n: nat, m: nat, mem: seq<Object>)
    requires IfLayout(code, at, condition, n, m) && !IsTrue(mem, condition)
    ensures Run(code, at, at + IfSize(n, m), mem) == if m > 0 then Run(code, at + 2 + n, at + 2 + n + m, mem) else Some(mem)
  {
    var e := at + IfSize(n, m);
    assert Step(code, at, e, mem) == Some((if m > 0 then at + 2 + n else e, mem));
  }

  lemma {:induction false} JumpsToEnd(code: seq<Instr>, ip: nat, e: nat, mem: seq<Object>)
    requires ip < e <= |code| && code[ip] == Jump(e - ip - 1)
    ensures Run(code, ip, e, mem) == Some(mem)
  {
    assert Step(code, ip, e, mem) == Some((e, mem));
  }

  lemma {:induction false} ForRuns(code: seq<Instr>, at: nat, p: Stmt, mem: seq<Object>) returns (first: Option<seq<Object>>)
    requires p.For? && ForOnly(code, at, p)
    ensures Run(code, at, at + 2 + Size(p.body), mem) == first
    ensures var mem1 := SetSlot(mem, p.counter, Slot(mem, p.start));
      first == EvalLoop(p.body, p.counter, Slot(mem1, p.counter), Slot(mem1, p.stop), Slot(mem1, p.step), mem1)
    decreases p, 0, 0
  {
    var e, mem1 := at + 2 + Size(p.body), SetSlot(mem, p.counter, Slot(mem, p.start));
    assert Step(code, at, e, mem) == Some((at + 1, mem1));
    LoopRuns(code, at + 2, p.body, p.counter, Slot(mem1, p.counter), Slot(mem1, p.stop), Slot(mem1, p.step), mem1);
    LoopToEnd(code, at + 1, e, mem1);
    first := Run(code, at, e, mem);
  }

  lemma {:induction false} LoopToEnd(code: seq<Instr>, ip: nat, e: nat, mem: seq<Object>)
    requires ip < e <= |code| && code[ip].ForI? && ip + 1 + code[ip].count == e
    ensures Run(code, ip, e, mem)
      == Loop(code, ip + 1, e, code[ip].counter, Slot(mem, code[ip].counter), Slot(mem, code[ip].stop), Slot(mem, code[ip].step), mem)
  {
    var end := Loop(code, ip + 1, e, code[ip].counter,
                    Slot(mem, code[ip].counter), Slot(mem, code[ip].stop), Slot(mem, code[ip].step), mem);
    assert Step(code, ip, e, mem) == if end.None? then None else Some((e, end.value));
  }

  lemma {:induction false} LoopRuns(code: seq<Instr>, at: nat, body: Stmt, counter: nat, i: int, stop: int, step: int, mem: seq<Object>)
    requires Placed(code, at, body)
    ensures Loop(code, at, at + Size(body), counter, i, stop, step, mem) == EvalLoop(body, counter, i, stop, step, mem)
    decreases body, 4, Distance(i, stop, step)
  {
    if Enters(i, stop, step) && step != 0 {
      PlacedRuns(code, at, body, SetSlot(mem, counter, i));
      var turn := Eval(body, SetSlot(mem, counter, i));
      if turn.Some? && INT_MIN <= i + step <= INT_MAX { LoopRuns(code, at, body, counter, i + step, stop, step, turn.value); }
    }
  }

  // ---------------------------------------------------------------- when it ends

  /** Every statement keeps the invariant, and it bounds every loop once its counter has its first value. */
  ghost predicate Preserves(p: Stmt, inv: seq<Object> -> bool) {
    match p
    case Done => true
    case Do(to, compute, next) => Keeps(Op(to, compute), inv) && Preserves(next, inv)
    case Compare(a, b, to, next) => Keeps(LessThanI(a, b, to), inv) && Preserves(next, inv)
    case If(_, body, _, otherwise, next) => Preserves(body, inv) && Preserves(otherwise, inv) && Preserves(next, inv)
    case For(counter, start, stop, step, body, next) =>
      && Keeps(Op(counter, Copied(start)), inv) && Keeps(ForI(counter, stop, step, Size(body)), inv)
      && Preserves(body, inv) && Preserves(next, inv)
  }

  /** Then so does every instruction of their code. */
  lemma {:induction false} PlacedKeeps(code: seq<Instr>, at: nat, p: Stmt, inv: seq<Object> -> bool)
    requires Placed(code, at, p) && Preserves(p, inv)
    ensures AllKeep(code, at, at + Size(p), inv)
    decreases p, 1
  {
    match p
    case Done =>
    case Do(_, _, next) => PlacedKeeps(code, at + 1, next, inv);
    case Compare(_, _, _, next) => PlacedKeeps(code, at + 1, next, inv);
    case If(_, body, _, otherwise, next) =>
      var mid := at + IfSize(Size(body), Size(otherwise));
      assert mid + Size(next) == at + Size(p);
      assert AllKeep(code, at, mid, inv) by { IfKeeps(code, at, p, inv); }
      assert AllKeep(code, mid, at + Size(p), inv) by { PlacedKeeps(code, mid, next, inv); }
    case For(_, _, _, _, body, next) =>
      var mid := at + 2 + Size(body);
      assert mid + Size(next) == at + Size(p);
      assert AllKeep(code, at, mid, inv) by { ForKeeps(code, at, p, inv); }
      assert AllKeep(code, mid, at + Size(p), inv) by { PlacedKeeps(code, mid, next, inv); }
  }

  lemma {:induction false} ForKeeps(code: seq<Instr>, at: nat, p: Stmt, inv: seq<Object> -> bool)
    requires p.For? && ForOnly(code, at, p) && Preserves(p, inv)
    ensures AllKeep(code, at, at + 2 + Size(p.body), inv)
    decreases p, 0
  {
    assert Keeps(code[at], inv) && Keeps(code[at + 1], inv);
    PlacedKeeps(code, at + 2, p.body, inv);
  }

  lemma {:induction false} IfKeeps(code: seq<Instr>, at: nat, p: Stmt, inv: seq<Object> -> bool)
    requires p.If? && IfOnly(code, at, p) && Preserves(p.body, inv) && Preserves(p.otherwise, inv)
    ensures AllKeep(code, at, at + IfSize(Size(p.body), Size(p.otherwise)), inv)
    decreases p, 0
  {
    var mid, end := at + 1 + Size(p.body), at + IfSize(Size(p.body), Size(p.otherwise));
    assert AllKeep(code, at + 1, mid, inv) by { PlacedKeeps(code, at + 1, p.body, inv); }
    assert AllKeep(code, at, mid, inv) by { assert Keeps(code[at], inv); }
    if mid < end {
      assert AllKeep(code, mid + 1, end, inv) by { PlacedKeeps(code, mid + 1, p.otherwise, inv); }
      assert AllKeep(code, mid, end, inv) by { assert Keeps(code[mid], inv); }
    }
  }

  /** So the code of statements ends, however deeply their loops are nested, and the process can run it. */
  lemma {:induction false} PlacedEnds(code: seq<Instr>, at: nat, p: Stmt, inv: seq<Object> -> bool, mem: seq<Object>)
    requires Placed(code, at, p) && Preserves(p, inv) && inv(mem)
    ensures Block(code, at, at + Size(p)) && Run(code, at, at + Size(p), mem) == Eval(p, mem)
    ensures Eval(p, mem).Some? && inv(Eval(p, mem).value)
  {
    PlacedBlock(code, at, p);
    PlacedRuns(code, at, p, mem);
    PlacedKeeps(code, at, p, inv);
    KeptRuns(code, at, at + Size(p), inv, mem);
  }
}

/** Code generation for statements (eople_vmcode_gen.cpp:522-556, 965-981 and 1029-1153).  Which jump an If gets is
    decided by the last instruction generated so far. */
module Generation {
  import opened Options
  import opened Frames
  import opened Loops
  import opened LoopCode

  // ---------------------------------------------------------------- what is generated

  predicate EndsInLess(code: seq<Instr>) {
    code != [] && code[|code| - 1].LessThanI?
  }

  /** The condition has been generated, and the jump on it, with its distance still open.  If the last instruction
      is a comparison, whatever it is for, it becomes the jump. */
  function Tested(code: seq<Instr>, condition: Condition): (r: seq<Instr>)
    ensures |code| <= |r| && |r| > 0
  {
    var code1 := if condition.Less? then code + [LessThanI(condition.a, condition.b, condition.to)] else code;
    var last := |code1| - 1;
    if EndsInLess(code1) then code1[last := JumpGEQ(0, code1[last].a, code1[last].b)]
    else code1 + [JumpIf(0, condition.b)]
  }

  /** A jump made n longer. */
  function Longer(ins: Instr, n: nat): Instr {
    match ins
    case Jump(a) => Jump(a + n)
    case JumpIf(a, b) => JumpIf(a + n, b)
    case JumpGEQ(a, b, c) => JumpGEQ(a + n, b, c)
    case _ => ins
  }

  /** A loop over n instructions. */
  function Spanning(ins: Instr, n: nat): Instr {
    match ins
    case ForI(counter, stop, step, _) => ForI(counter, stop, step, n)
    case _ => ins
  }

  function LongerAt(code: seq<Instr>, at: nat, n: nat): seq<Instr>
    requires at < |code|
  {
    code[at := Longer(code[at], n)]
  }

  /** The jumps to the end have been made to pass the code from `own` on, and the one at `own` the rest of it. */
  function Stretched(code: seq<Instr>, jumps: set<nat>, own: nat): (r: seq<Instr>)
    ensures |r| == |code|
  {
    seq(|code|, i requires 0 <= i < |code| =>
      if i == own then Longer(code[i], |code| - i - 1) else if i in jumps && own < |code| then Longer(code[i], |code| - own) else code[i])
  }

  /** The code after the statements have been generated. */
  function Gen(code: seq<Instr>, p: Stmt): (r: seq<Instr>)
    requires Formed(p)
    ensures |code| <= |r|
    decreases p, 1
  {
    match p
    case Done => code
    case Do(to, compute, next) => Gen(code + [Op(to, compute)], next)
    case Compare(a, b, to, next) => Gen(code + [LessThanI(a, b, to)], next)
    case If(_, _, _, _, next) => Gen(GenIf(code, p), next)
    case For(_, _, _, _, _, next) => Gen(GenFor(code, p), next)
  }

  function GenIf(code: seq<Instr>, p: Stmt): (r: seq<Instr>)
    requires p.If? && Formed(p)
    ensures |code| <= |r| && |r| > 0
    decreases p, 0
  {
    GenRest(Arm(code, p), p.otherwise, p.chained, |Tested(code, p.condition)| - 1, {})
  }

  /** The condition, the jump on it, and the body. */
  function Arm(code: seq<Instr>, p: Stmt): (r: seq<Instr>)
    requires p.If? && Formed(p.body)
    ensures |Tested(code, p.condition)| <= |r|
    decreases p.body, 2
  {
    var tested := Tested(code, p.condition);
    var r := Gen(tested, p.body);
    LongerAt(r, |tested| - 1, |r| - |tested|)
  }

  /** The elseif arms that are left, and the else. */
  function GenRest(code: seq<Instr>, otherwise: Stmt, chained: bool, last: nat, jumps: set<nat>): (r: seq<Instr>)
    requires Formed(otherwise) && (chained ==> IsElseIf(otherwise)) && last < |code|
    ensures |code| <= |r|
    decreases otherwise, 4
  {
    if chained then GenElseIf(code, otherwise, last, jumps)
    else if otherwise.Done? then code
    else GenElse(code, otherwise, last, jumps)
  }

  /** The jump that ends the arm before. */
  function Ended(code: seq<Instr>, last: nat): (r: seq<Instr>)
    requires last < |code|
    ensures |r| == |code| + 1 && r[|code|] == Jump(0)
    ensures forall i {:trigger r[i]} :: 0 <= i < |code| ==> r[i] == if i == last then Longer(code[i], 1) else code[i]
  {
    LongerAt(code, last, 1) + [Jump(0)]
  }

  function GenElse(code: seq<Instr>, otherwise: Stmt, last: nat, jumps: set<nat>): (r: seq<Instr>)
    requires Formed(otherwise) && last < |code|
    ensures |code| <= |r|
    decreases otherwise, 3
  {
    Stretched(Gen(Ended(code, last), otherwise), jumps, |code|)
  }

  function GenElseIf(code: seq<Instr>, otherwise: Stmt, last: nat, jumps: set<nat>): (r: seq<Instr>)
    requires Formed(otherwise) && IsElseIf(otherwise) && last < |code|
    ensures |code| <= |r|
    decreases otherwise, 3
  {
    GenRest(Stretched(ElseIfArm(code, otherwise, last), jumps, |code|), Inner(otherwise).otherwise, Inner(otherwise).chained,
            ElseIfJump(code, otherwise, last), jumps + {|code|})
  }

  /** An elseif without what follows it. */
  function ElseIfArm(code: seq<Instr>, otherwise: Stmt, last: nat): (r: seq<Instr>)
    requires Formed(otherwise) && IsElseIf(otherwise) && last < |code|
    ensures |code| < |r| && ElseIfJump(code, otherwise, last) < |r|
    decreases otherwise, 2
  {
    Arm(GenTests(Ended(code, last), otherwise), Inner(otherwise))
  }

  /** Where its conditional jump is. */
  function ElseIfJump(code: seq<Instr>, otherwise: Stmt, last: nat): nat
    requires IsElseIf(otherwise) && last < |code|
  {
    |Tested(GenTests(Ended(code, last), otherwise), Inner(otherwise).condition)| - 1
  }

  /** The instructions of a test. */
  function GenTests(code: seq<Instr>, p: Stmt): (r: seq<Instr>)
    requires IsElseIf(p)
    ensures |code| <= |r|
    decreases p
  {
    if Plain(p) then GenTests(code + [Instruction(p)], p.next) else code
  }

  function GenFor(code: seq<Instr>, p: Stmt): (r: seq<Instr>)
    requires p.For? && Formed(p.body)
    ensures |code| + 2 <= |r|
    decreases p, 0
  {
    var r := Gen(code + [Op(p.counter, Copied(p.start)), ForI(p.counter, p.stop, p.step, 0)], p.body);
    r[|code| + 1 := Spanning(r[|code| + 1], |r| - |code| - 2)]
  }

  // ---------------------------------------------------------------- how long it is

  /** Whether the code ends in a comparison afterwards, if it did or did not before. */
  predicate Ending(p: Stmt, less: bool)
    decreases p, 1
  {
    match p
    case Done => less
    case Do(_, _, next) => Ending(next, false)
    case Compare(_, _, _, next) => Ending(next, true)
    case If(_, _, _, _, next) => Ending(next, IfEnding(p))
    case For(_, _, _, _, body, next) => Ending(next, Ending(body, false))
  }

  predicate IfEnding(p: Stmt)
    requires p.If?
    decreases p, 0
  {
    if p.otherwise.Done? then Ending(p.body, false) else Ending(p.otherwise, false)
  }

  /** The number of bare conditions that directly follow a comparison, of an assignment or of another part of the
      program. */
  function Lost(p: Stmt, less: bool): nat {
    match p
    case Done => 0
    case Do(_, _, next) => Lost(next, false)
    case Compare(_, _, _, next) => Lost(next, true)
    case If(condition, body, _, otherwise, next) =>
      (if condition.Bare? && less then 1 else 0) + Lost(body, false) + Lost(otherwise, false) + Lost(next, IfEnding(p))
    case For(_, _, _, _, body, next) => Lost(body, false) + Lost(next, Ending(body, false))
  }

  /** What a chain still adds after an arm, and how the code ends then. */
  function RestSize(otherwise: Stmt): int {
    (if otherwise.Done? then 0 else 1 + Size(otherwise)) - Lost(otherwise, false)
  }

  predicate RestEnding(otherwise: Stmt, less: bool) {
    if otherwise.Done? then less else Ending(otherwise, false)
  }

  /** Each of them takes the place of the comparison before it. */
  lemma {:induction false} GenLength(code: seq<Instr>, p: Stmt)
    requires Formed(p)
    ensures |Gen(code, p)| == |code| + Size(p) - Lost(p, EndsInLess(code))
    ensures EndsInLess(Gen(code, p)) == Ending(p, EndsInLess(code))
    decreases p, 1
  {
    match p
    case Done =>
    case Do(to, compute, next) => GenLength(code + [Op(to, compute)], next);
    case Compare(a, b, to, next) => GenLength(code + [LessThanI(a, b, to)], next);
    case If(_, _, _, _, next) =>
      IfLength(code, p);
      GenLength(GenIf(code, p), next);
    case For(_, _, _, _, _, next) =>
      ForLength(code, p);
      GenLength(GenFor(code, p), next);
  }

  lemma {:induction false} ForLength(code: seq<Instr>, p: Stmt)
    requires p.For? && Formed(p.body)
    ensures |GenFor(code, p)| == |code| + 2 + Size(p.body) - Lost(p.body, false)
    ensures EndsInLess(GenFor(code, p)) == Ending(p.body, false)
    decreases p, 0
  {
    var start := code + [Op(p.counter, Copied(p.start)), ForI(p.counter, p.stop, p.step, 0)];
    GenLength(start, p.body);
  }

  lemma {:induction false} IfLength(code: seq<Instr>, p: Stmt)
    requires p.If? && Formed(p)
    ensures |GenIf(code, p)|
      == |code| + IfSize(Size(p.body), Size(p.otherwise)) - Lost(p.body, false) - Lost(p.otherwise, false)
         - if p.condition.Bare? && EndsInLess(code) then 1 else 0
    ensures EndsInLess(GenIf(code, p)) == IfEnding(p)
    decreases p, 0
  {
    ArmLength(code, p);
    RestLength(Arm(code, p), p.otherwise, p.chained, |Tested(code, p.condition)| - 1, {});
  }

  lemma {:induction false} ArmLength(code: seq<Instr>, p: Stmt)
    requires p.If? && Formed(p.body)
    ensures |Arm(code, p)| == |code| + 1 + Size(p.body) - Lost(p.body, false) - if p.condition.Bare? && EndsInLess(code) then 1 else 0
    ensures EndsInLess(Arm(code, p)) == Ending(p.body, false)
    decreases p.body, 2
  {
    GenLength(Tested(code, p.condition), p.body);
  }

  lemma {:induction false} RestLength(code: seq<Instr>, otherwise: Stmt, chained: bool, last: nat, jumps: set<nat>)
    requires Formed(otherwise) && (chained ==> IsElseIf(otherwise)) && last < |code|
    ensures |GenRest(code, otherwise, chained, last, jumps)| == |code| + RestSize(otherwise)
    ensures EndsInLess(GenRest(code, otherwise, chained, last, jumps)) == RestEnding(otherwise, EndsInLess(code))
    decreases otherwise, 4
  {
    if chained {
      var r := ElseIfLength(code, otherwise, last, jumps);
    } else if !otherwise.Done? {
      ElseLength(code, otherwise, last, jumps);
    }
  }

  lemma {:induction false} ElseLength(code: seq<Instr>, otherwise: Stmt, last: nat, jumps: set<nat>)
    requires Formed(otherwise) && last < |code|
    ensures |GenElse(code, otherwise, last, jumps)| == |code| + 1 + Size(otherwise) - Lost(otherwise, false)
    ensures EndsInLess(GenElse(code, otherwise, last, jumps)) == Ending(otherwise, false)
    decreases otherwise, 3
  {
    GenLength(Ended(code, last), otherwise);
  }

  lemma {:induction false} ElseIfLength(code: seq<Instr>, otherwise: Stmt, last: nat, jumps: set<nat>) returns (r: seq<Instr>)
    requires Formed(otherwise) && IsElseIf(otherwise) && last < |code|
    ensures r == GenElseIf(code, otherwise, last, jumps)
    ensures |r| == |code| + 1 + Size(otherwise) - Lost(otherwise, false) && EndsInLess(r) == Ending(otherwise, false)
    decreases otherwise, 3
  {
    var joined;
    r, joined := ElseIfRest(code, otherwise, last, jumps);
    JoinedLength(code, otherwise, last, jumps, joined);
  }

  lemma {:induction false} JoinedLength(code: seq<Instr>, otherwise: Stmt, last: nat, jumps: set<nat>, joined: seq<Instr>)
    requires Formed(otherwise) && IsElseIf(otherwise) && last < |code|
    requires joined == Stretched(ElseIfArm(code, otherwise, last), jumps, |code|)
    ensures |joined| + RestSize(Inner(otherwise).otherwise) == |code| + 1 + Size(otherwise) - Lost(otherwise, false)
    ensures RestEnding(Inner(otherwise).otherwise, EndsInLess(joined)) == Ending(otherwise, false)
    decreases otherwise, 2
  {
    StretchedEnds(ElseIfArm(code, otherwise, last), jumps, |code|, joined);
    ElseIfArmLength(code, otherwise, last);
  }

  lemma {:induction false} ElseIfRest(code: seq<Instr>, otherwise: Stmt, last: nat, jumps: set<nat>)
      returns (r: seq<Instr>, joined: seq<Instr>)
    requires Formed(otherwise) && IsElseIf(otherwise) && last < |code|
    ensures r == GenElseIf(code, otherwise, last, jumps) && joined == Stretched(ElseIfArm(code, otherwise, last), jumps, |code|)
    ensures |r| == |joined| + RestSize(Inner(otherwise).otherwise)
    ensures EndsInLess(r) == RestEnding(Inner(otherwise).otherwise, EndsInLess(joined))
    decreases otherwise, 2
  {
    var inner, next := Inner(otherwise), ElseIfJump(code, otherwise, last);
    joined := Stretched(ElseIfArm(code, otherwise, last), jumps, |code|);
    r := ElseIfUnfolds(code, otherwise, last, jumps, joined, next);
    RestLength(joined, inner.otherwise, inner.chained, next, jumps + {|code|});
  }

  lemma {:induction false} StretchedEnds(code: seq<Instr>, jumps: set<nat>, own: nat, r: seq<Instr>)
    requires r == Stretched(code, jumps, own)
    ensures |r| == |code| && EndsInLess(r) == EndsInLess(code)
  {
  }

  lemma {:induction false} ElseIfArmLength(code: seq<Instr>, otherwise: Stmt, last: nat)
    requires Formed(otherwise) && IsElseIf(otherwise) && last < |code|
    ensures |ElseIfArm(code, otherwise, last)| + RestSize(Inner(otherwise).otherwise) == |code| + 1 + Size(otherwise) - Lost(otherwise, false)
    ensures RestEnding(Inner(otherwise).otherwise, EndsInLess(ElseIfArm(code, otherwise, last))) == Ending(otherwise, false)
    decreases otherwise, 1
  {
    var inner, tests := Inner(otherwise), GenTests(Ended(code, last), otherwise);
    TestsLength(Ended(code, last), otherwise);
    ArmLength(tests, inner);
    InnerLost(inner, EndsInLess(tests));
  }

  lemma {:induction false} InnerLost(inner: Stmt, less: bool)
    requires inner.If? && inner.next.Done?
    ensures Size(inner) == IfSize(Size(inner.body), Size(inner.otherwise))
    ensures Lost(inner, less)
      == (if inner.condition.Bare? && less then 1 else 0) + Lost(inner.body, false) + Lost(inner.otherwise, false)
    ensures Ending(inner, less) == IfEnding(inner)
    ensures inner.otherwise.Done? <==> Size(inner.otherwise) == 0
  {
  }

  lemma {:induction false} TestsLength(code: seq<Instr>, p: Stmt)
    requires IsElseIf(p)
    ensures |GenTests(code, p)| == |code| + Tests(p)
    ensures Lost(p, EndsInLess(code)) == Lost(Inner(p), EndsInLess(GenTests(code, p)))
    ensures Ending(p, EndsInLess(code)) == Ending(Inner(p), EndsInLess(GenTests(code, p)))
    decreases p
  {
    if Plain(p) { TestsLength(code + [Instruction(p)], p.next); }
  }

  // ---------------------------------------------------------------- where it stands

  ghost predicate Extends(code: seq<Instr>, more: seq<Instr>) {
    |code| <= |more| && forall i {:trigger more[i]} :: 0 <= i < |code| ==> more[i] == code[i]
  }

  /** The code from `own` on has been added to the chain: the earlier jumps to the end have been stretched over it,
      and its own first instruction jumps over the rest of it. */
  ghost predicate Joined(code: seq<Instr>, code1: seq<Instr>, jumps: set<nat>, own: nat) {
    && own < |code| == |code1| && code1[own] == Jump(|code| - own - 1)
    && forall i {:trigger code1[i]} :: 0 <= i < |code| && i != own ==>
         code1[i] == if i in jumps then Longer(code[i], |code| - own) else code[i]
  }

  /** More code has been added after the jumps, and they have been stretched to its end; the conditional jump at
      `last` has become one longer if anything was added. */
  ghost predicate Continued(code: seq<Instr>, code1: seq<Instr>, last: nat, jumps: set<nat>) {
    && |code| <= |code1|
    && forall i {:trigger code1[i]} :: 0 <= i < |code| ==>
         code1[i] ==
           if i in jumps then Longer(code[i], |code1| - |code|)
           else if i == last && |code| < |code1| then Longer(code[i], 1)
           else code[i]
  }

  /** The test, the conditional jump and the body of an elseif. */
  ghost predicate ArmPlaced(code: seq<Instr>, at: nat, otherwise: Stmt)
    requires IsElseIf(otherwise)
  {
    var inner, next := Inner(otherwise), at + Tests(otherwise);
    && TestsPlaced(code, at, otherwise)
    && next < |code| && code[next] == JumpUnless(inner.condition, Size(inner.body)) && Placed(code, next + 1, inner.body)
  }

  /** When no comparison is lost, the code of the statements stands after the code there was. */
  lemma {:induction false} GenPlaced(code: seq<Instr>, p: Stmt)
    requires Formed(p) && Lost(p, EndsInLess(code)) == 0
    ensures Extends(code, Gen(code, p)) && Placed(Gen(code, p), |code|, p)
    decreases p, 1
  {
    match p
    case Done =>
    case Do(to, compute, next) => GenPlaced(code + [Op(to, compute)], next);
    case Compare(a, b, to, next) => GenPlaced(code + [LessThanI(a, b, to)], next);
    case If(_, _, _, _, next) =>
      IfGenerated(code, p);
      IfLength(code, p);
      GenPlaced(GenIf(code, p), next);
      IfPlaced(GenIf(code, p), Gen(code, p), |code|, p);
    case For(_, _, _, _, _, next) =>
      ForGenerated(code, p);
      ForLength(code, p);
      GenPlaced(GenFor(code, p), next);
      ForPlaced(GenFor(code, p), Gen(code, p), |code|, p);
  }

  lemma {:induction false} ForGenerated(code: seq<Instr>, p: Stmt)
    requires p.For? && Formed(p.body) && Lost(p.body, false) == 0
    ensures Extends(code, GenFor(code, p)) && ForOnly(GenFor(code, p), |code|, p)
    decreases p, 0
  {
    var start := code + [Op(p.counter, Copied(p.start)), ForI(p.counter, p.stop, p.step, 0)];
    GenPlaced(start, p.body);
    GenLength(start, p.body);
    ForDone(code, p, start, Gen(start, p.body), GenFor(code, p));
  }

  /** The length filled in, once the body is there. */
  lemma {:induction false} ForDone(code: seq<Instr>, p: Stmt, start: seq<Instr>, was: seq<Instr>, r: seq<Instr>)
    requires p.For? && start == code + [Op(p.counter, Copied(p.start)), ForI(p.counter, p.stop, p.step, 0)]
    requires Extends(start, was) && |was| == |start| + Size(p.body) && Placed(was, |start|, p.body)
    requires r == was[|code| + 1 := Spanning(was[|code| + 1], |was| - |code| - 2)]
    ensures Extends(code, r) && ForOnly(r, |code|, p)
  {
    var at := |code|;
    assert was[at] == start[at] && was[at + 1] == start[at + 1];
    assert Extends(code, r) by { assert Extends(code, start); }
    assert Placed(r, at + 2, p.body) by { BehindChange(was, at + 1, r[at + 1], p.body); }
  }

  lemma {:induction false} IfGenerated(code: seq<Instr>, p: Stmt)
    requires p.If? && Formed(p) && !(p.condition.Bare? && EndsInLess(code)) && Lost(p.body, false) == 0 && Lost(p.otherwise, false) == 0
    ensures Extends(code, GenIf(code, p)) && IfOnly(GenIf(code, p), |code|, p)
    decreases p, 0
  {
    ArmGenerated(code, p);
    var arm := Arm(code, p);
    RestGenerated(arm, p.otherwise, p.chained, |code|, {});
    IfContinued(arm, GenIf(code, p), |code|, p);
  }

  lemma {:induction false} ArmGenerated(code: seq<Instr>, p: Stmt)
    requires p.If? && Formed(p.body) && !(p.condition.Bare? && EndsInLess(code)) && Lost(p.body, false) == 0
    ensures var r := Arm(code, p);
      && |Tested(code, p.condition)| == |code| + 1 && |r| == |code| + 1 + Size(p.body) && Extends(code, r)
      && r[|code|] == JumpUnless(p.condition, Size(p.body)) && Placed(r, |code| + 1, p.body)
    decreases p.body, 2
  {
    var tested := Tested(code, p.condition);
    GenPlaced(tested, p.body);
    GenLength(tested, p.body);
    ArmDone(code, p, tested, Gen(tested, p.body), Arm(code, p));
  }

  lemma {:induction false} ArmDone(code: seq<Instr>, p: Stmt, tested: seq<Instr>, was: seq<Instr>, r: seq<Instr>)
    requires p.If? && !(p.condition.Bare? && EndsInLess(code)) && tested == Tested(code, p.condition)
    requires Extends(tested, was) && |was| == |tested| + Size(p.body) && Placed(was, |tested|, p.body)
    requires r == LongerAt(was, |tested| - 1, |was| - |tested|)
    ensures |tested| == |code| + 1 && |r| == |code| + 1 + Size(p.body) && Extends(code, r)
    ensures r[|code|] == JumpUnless(p.condition, Size(p.body)) && Placed(r, |code| + 1, p.body)
  {
    var at := |code|;
    assert tested == code + [JumpUnless(p.condition, 0)];
    assert was[at] == JumpUnless(p.condition, 0) by { assert was[at] == tested[at]; }
    assert Placed(r, at + 1, p.body) by { BehindChange(was, at, Longer(was[at], |was| - |tested|), p.body); }
  }

  /** The rest of a chain has been added to the code. */
  ghost predicate RestDone(code: seq<Instr>, r: seq<Instr>, otherwise: Stmt, last: nat, jumps: set<nat>) {
    && Continued(code, r, last, jumps)
    && |r| == |code| + (if Size(otherwise) == 0 then 0 else 1 + Size(otherwise))
    && (Size(otherwise) > 0 ==> r[|code|] == Jump(Size(otherwise)) && Placed(r, |code| + 1, otherwise))
  }

  lemma {:induction false} RestGenerated(code: seq<Instr>, otherwise: Stmt, chained: bool, last: nat, jumps: set<nat>)
    requires Formed(otherwise) && (chained ==> IsElseIf(otherwise)) && last < |code| && Lost(otherwise, false) == 0
    requires last !in jumps && forall j :: j in jumps ==> j < |code| && code[j].Jump?
    ensures RestDone(code, GenRest(code, otherwise, chained, last, jumps), otherwise, last, jumps)
    decreases otherwise, 4
  {
    if chained {
      ElseIfGenerated(code, otherwise, last, jumps);
    } else if !otherwise.Done? {
      ElseGenerated(code, otherwise, last, jumps);
    }
  }

  lemma {:induction false} StretchedJoins(code: seq<Instr>, jumps: set<nat>, own: nat)
    requires own < |code| && code[own] == Jump(0)
    ensures Joined(code, Stretched(code, jumps, own), jumps, own)
  {
  }

  lemma {:induction false} ElseGenerated(code: seq<Instr>, otherwise: Stmt, last: nat, jumps: set<nat>)
    requires Formed(otherwise) && !otherwise.Done? && last < |code| && Lost(otherwise, false) == 0
    requires last !in jumps && forall j :: j in jumps ==> j < |code|
    ensures RestDone(code, GenElse(code, otherwise, last, jumps), otherwise, last, jumps)
    decreases otherwise, 3
  {
    var start := Ended(code, last);
    GenPlaced(start, otherwise);
    GenLength(start, otherwise);
    ElseDone(code, start, Gen(start, otherwise), GenElse(code, otherwise, last, jumps), otherwise, last, jumps);
  }

  /** The jumps stretched over an else that is there. */
  lemma {:induction false} ElseDone(code: seq<Instr>, start: seq<Instr>, was: seq<Instr>, r: seq<Instr>, otherwise: Stmt, last: nat, jumps: set<nat>)
    requires !otherwise.Done? && last < |code| && last !in jumps && forall j :: j in jumps ==> j < |code|
    requires start == Ended(code, last) && Extends(start, was) && |was| == |start| + Size(otherwise)
    requires Placed(was, |start|, otherwise) && r == Stretched(was, jumps, |code|)
    ensures RestDone(code, r, otherwise, last, jumps)
  {
    assert Joined(was, r, jumps, |code|) by {
      assert was[|code|] == start[|code|];
      StretchedJoins(was, jumps, |code|);
    }
    assert Continued(code, r, last, jumps) by { ElseContinued(code, start, was, r, last, jumps); }
    assert Placed(r, |code| + 1, otherwise) by { ElsePlaced(was, r, otherwise, jumps, |code|); }
  }

  lemma {:induction false} ElseIfGenerated(code: seq<Instr>, otherwise: Stmt, last: nat, jumps: set<nat>)
    requires Formed(otherwise) && IsElseIf(otherwise) && last < |code| && Lost(otherwise, false) == 0
    requires last !in jumps && forall j :: j in jumps ==> j < |code| && code[j].Jump?
    ensures RestDone(code, GenElseIf(code, otherwise, last, jumps), otherwise, last, jumps)
    decreases otherwise, 3
  {
    var armed := ElseIfStands(code, otherwise, last);
    var joined := ArmStretched(code, armed, last, jumps);
    ElseIfNext(code, otherwise, last);
    var r := RestOfElseIf(code, joined, otherwise, last, jumps, |code| + 1 + Tests(otherwise));
    ChainDone(code, armed, joined, r, otherwise, last, jumps);
  }

  /** The rest of the chain after an elseif that is there. */
  lemma {:induction false} ChainDone(code: seq<Instr>, armed: seq<Instr>, joined: seq<Instr>, r: seq<Instr>, otherwise: Stmt, last: nat, jumps: set<nat>)
    requires IsElseIf(otherwise) && last < |code| && Extends(Ended(code, last), armed) && last !in jumps
    requires forall j :: j in jumps ==> j < |code| && code[j].Jump?
    requires |armed| == |code| + 2 + Tests(otherwise) + Size(Inner(otherwise).body) && ArmPlaced(armed, |code| + 1, otherwise)
    requires Joined(armed, joined, jumps, |code|)
    requires RestDone(joined, r, Inner(otherwise).otherwise, |code| + 1 + Tests(otherwise), jumps + {|code|})
    ensures RestDone(code, r, otherwise, last, jumps)
  {
    var next := |code| + 1 + Tests(otherwise);
    assert Placed(r, |code| + 1, otherwise) && |r| == |code| + 1 + Size(otherwise) by {
      ChainPlaced(armed, joined, r, otherwise, jumps, |code|, next);
    }
    assert Continued(code, r, last, jumps) && r[|code|] == Jump(|r| - |code| - 1) by {
      ElseIfContinued(code, armed, joined, r, last, jumps, next);
    }
  }

  lemma {:induction false} ArmStretched(code: seq<Instr>, armed: seq<Instr>, last: nat, jumps: set<nat>) returns (joined: seq<Instr>)
    requires last < |code| && Extends(Ended(code, last), armed) && last !in jumps && forall j :: j in jumps ==> j < |code| && code[j].Jump?
    ensures joined == Stretched(armed, jumps, |code|) && Joined(armed, joined, jumps, |code|)
    ensures forall j :: j in jumps + {|code|} ==> j < |joined| && joined[j].Jump?
  {
    assert armed[|code|] == Ended(code, last)[|code|];
    forall j | j in jumps ensures armed[j] == code[j] { assert armed[j] == Ended(code, last)[j]; }
    StretchedJoins(armed, jumps, |code|);
    joined := Stretched(armed, jumps, |code|);
  }

  lemma {:induction false} ElseIfContinued(code: seq<Instr>, armed: seq<Instr>, joined: seq<Instr>, r: seq<Instr>, last: nat, jumps: set<nat>, next: nat)
    requires last < |code| && Extends(Ended(code, last), armed) && last !in jumps && forall j :: j in jumps ==> j < |code| && code[j].Jump?
    requires |code| < next < |armed| && Joined(armed, joined, jumps, |code|) && Continued(joined, r, next, jumps + {|code|})
    ensures Continued(code, r, last, jumps) && r[|code|] == Jump(|r| - |code| - 1)
  {
    forall i | 0 <= i < |code| ensures armed[i] == if i == last then Longer(code[i], 1) else code[i] {
      assert armed[i] == Ended(code, last)[i];
    }
    ChainContinued(code, armed, joined, r, last, jumps, next);
  }

  lemma {:induction false} RestOfElseIf(code: seq<Instr>, joined: seq<Instr>, otherwise: Stmt, last: nat, jumps: set<nat>, next: nat)
      returns (r: seq<Instr>)
    requires Formed(otherwise) && IsElseIf(otherwise) && last < |code| && Lost(Inner(otherwise).otherwise, false) == 0
    requires joined == Stretched(ElseIfArm(code, otherwise, last), jumps, |code|) && next == ElseIfJump(code, otherwise, last) < |joined|
    requires next !in jumps + {|code|} && forall j :: j in jumps + {|code|} ==> j < |joined| && joined[j].Jump?
    ensures r == GenElseIf(code, otherwise, last, jumps)
    ensures RestDone(joined, r, Inner(otherwise).otherwise, next, jumps + {|code|})
    decreases otherwise, 2
  {
    r := ElseIfUnfolds(code, otherwise, last, jumps, joined, next);
    RestGenerated(joined, Inner(otherwise).otherwise, Inner(otherwise).chained, next, jumps + {|code|});
  }

  lemma {:induction false} ElseIfNext(code: seq<Instr>, otherwise: Stmt, last: nat)
    requires IsElseIf(otherwise) && Formed(otherwise) && last < |code| && Lost(otherwise, false) == 0
    ensures ElseIfJump(code, otherwise, last) == |code| + 1 + Tests(otherwise)
    ensures Lost(Inner(otherwise).otherwise, false) == 0
  {
    TestsLength(Ended(code, last), otherwise);
    InnerLost(Inner(otherwise), EndsInLess(GenTests(Ended(code, last), otherwise)));
  }

  lemma {:induction false} ElseIfUnfolds(code: seq<Instr>, otherwise: Stmt, last: nat, jumps: set<nat>, joined: seq<Instr>, next: nat) returns (r: seq<Instr>)
    requires Formed(otherwise) && IsElseIf(otherwise) && last < |code| && next < |joined|
    requires next == ElseIfJump(code, otherwise, last) && joined == Stretched(ElseIfArm(code, otherwise, last), jumps, |code|)
    ensures r == GenElseIf(code, otherwise, last, jumps)
    ensures r == GenRest(joined, Inner(otherwise).otherwise, Inner(otherwise).chained, next, jumps + {|code|})
  {
    r := GenElseIf(code, otherwise, last, jumps);
  }

  /** An elseif without what follows it. */
  lemma {:induction false} ElseIfStands(code: seq<Instr>, otherwise: Stmt, last: nat) returns (armed: seq<Instr>)
    requires Formed(otherwise) && IsElseIf(otherwise) && last < |code| && Lost(otherwise, false) == 0
    ensures armed == ElseIfArm(code, otherwise, last)
    ensures |armed| == |code| + 2 + Tests(otherwise) + Size(Inner(otherwise).body)
    ensures Extends(Ended(code, last), armed) && ArmPlaced(armed, |code| + 1, otherwise)
    decreases otherwise, 2
  {
    var start, inner := Ended(code, last), Inner(otherwise);
    var tests := GenTests(start, otherwise);
    armed := Arm(tests, inner);
    TestsLength(start, otherwise);
    TestsGenerated(start, otherwise);
    InnerLost(inner, EndsInLess(tests));
    ArmGenerated(tests, inner);
    ArmTested(start, tests, armed, otherwise, |tests|);
  }

  lemma {:induction false} TestsGenerated(code: seq<Instr>, p: Stmt)
    requires IsElseIf(p)
    ensures Extends(code, GenTests(code, p)) && TestsPlaced(GenTests(code, p), |code|, p)
    decreases p
  {
    if Plain(p) { TestsGenerated(code + [Instruction(p)], p.next); }
  }

  /** An If whose body stands at the end of `before`, and what has been added after it. */
  lemma {:induction false} IfContinued(before: seq<Instr>, code: seq<Instr>, at: nat, p: Stmt)
    requires p.If? && |before| == at + 1 + Size(p.body) && Continued(before, code, at, {})
    requires before[at] == JumpUnless(p.condition, Size(p.body)) && Placed(before, at + 1, p.body)
    requires |code| == |before| + if Size(p.otherwise) == 0 then 0 else 1 + Size(p.otherwise)
    requires Size(p.otherwise) > 0 ==> code[|before|] == Jump(Size(p.otherwise)) && Placed(code, |before| + 1, p.otherwise)
    ensures IfOnly(code, at, p) && |code| == at + IfSize(Size(p.body), Size(p.otherwise))
    ensures forall i :: 0 <= i < at ==> code[i] == before[i]
  {
    OneLonger(before, code, at);
    assert Placed(code, at + 1, p.body) by { PlacedSame(before, code, at + 1, p.body); }
    assert IfLayout(code, at, p.condition, Size(p.body), Size(p.otherwise));
    IfMade(code, at, p);
  }

  lemma {:induction false} OneLonger(before: seq<Instr>, code: seq<Instr>, at: nat)
    requires at < |before| && Continued(before, code, at, {})
    ensures |before| <= |code| && forall i :: 0 <= i < |before| && i != at ==> code[i] == before[i]
    ensures code[at] == if |before| < |code| then Longer(before[at], 1) else before[at]
  {
  }

  lemma {:induction false} ElsePlaced(was: seq<Instr>, code: seq<Instr>, otherwise: Stmt, jumps: set<nat>, own: nat)
    requires own + 1 + Size(otherwise) == |was| && Placed(was, own + 1, otherwise)
    requires Joined(was, code, jumps, own) && forall j :: j in jumps ==> j < own
    ensures Placed(code, own + 1, otherwise)
  {
    assert forall i :: own < i < |was| ==> code[i] == was[i];
    PlacedSame(was, code, own + 1, otherwise);
  }

  /** `start` has the jump over the else, `was` the else itself, `code` the jumps stretched. */
  lemma {:induction false} ElseContinued(before: seq<Instr>, start: seq<Instr>, was: seq<Instr>, code: seq<Instr>, last: nat, jumps: set<nat>)
    requires last < |before| && (forall j :: j in jumps ==> j < |before| && j != last)
    requires start == Ended(before, last)
    requires Extends(start, was) && Joined(was, code, jumps, |before|)
    ensures Continued(before, code, last, jumps)
  {
  }

  /** `tested` ends with the test of an elseif, `armed` with its body. */
  lemma {:induction false} ArmTested(start: seq<Instr>, tested: seq<Instr>, armed: seq<Instr>, otherwise: Stmt, next: nat)
    requires IsElseIf(otherwise) && next == |tested| == |start| + Tests(otherwise) && Extends(tested, armed)
    requires Extends(start, tested) && TestsPlaced(tested, |start|, otherwise)
    ensures TestsPlaced(armed, |start|, otherwise)
  {
    TestsSame(tested, armed, |start|, otherwise);
  }

  /** An elseif has been added to `before`, giving `armed`; then the jumps have been stretched, and the rest of the
      chain has been added. */
  lemma {:induction false} ChainContinued(
      before: seq<Instr>, armed: seq<Instr>, joined: seq<Instr>, code: seq<Instr>, last: nat, jumps: set<nat>, next: nat)
    requires last < |before| < |armed| && |before| < next && (forall j :: j in jumps ==> j < |before| && j != last && before[j].Jump?)
    requires forall i :: 0 <= i < |before| ==> armed[i] == if i == last then Longer(before[i], 1) else before[i]
    requires Joined(armed, joined, jumps, |before|) && Continued(joined, code, next, jumps + {|before|})
    ensures Continued(before, code, last, jumps) && code[|before|] == Jump(|code| - |before| - 1)
  {
    forall i {:trigger code[i]} | 0 <= i < |before|
      ensures code[i] ==
        if i in jumps then Longer(before[i], |code| - |before|) else if i == last then Longer(before[i], 1) else before[i]
    {
      assert joined[i] == if i in jumps then Longer(armed[i], |armed| - |before|) else armed[i];
    }
  }

  lemma {:induction false} ChainPlaced(
      armed: seq<Instr>, joined: seq<Instr>, code: seq<Instr>, otherwise: Stmt, jumps: set<nat>, own: nat, next: nat)
    requires IsElseIf(otherwise) && next == own + 1 + Tests(otherwise) && (forall j :: j in jumps ==> j < own)
    requires |armed| == next + 1 + Size(Inner(otherwise).body) && ArmPlaced(armed, own + 1, otherwise)
    requires Joined(armed, joined, jumps, own) && RestDone(joined, code, Inner(otherwise).otherwise, next, jumps + {own})
    ensures Placed(code, own + 1, otherwise) && |code| == own + 1 + Size(otherwise)
  {
    SameArm(armed, joined, code, jumps, own, next);
    ArmWhole(armed, code, otherwise, own, next);
  }

  lemma {:induction false} SameArm(armed: seq<Instr>, joined: seq<Instr>, code: seq<Instr>, jumps: set<nat>, own: nat, next: nat)
    requires own < next < |armed| && (forall j :: j in jumps ==> j < own)
    requires Joined(armed, joined, jumps, own) && Continued(joined, code, next, jumps + {own})
    ensures |armed| <= |code| && forall i :: own < i < |armed| && i != next ==> code[i] == armed[i]
    ensures code[next] == if |armed| < |code| then Longer(armed[next], 1) else armed[next]
  {
    forall i | own < i < |armed| && i != next ensures code[i] == armed[i] { assert joined[i] == armed[i]; }
    assert joined[next] == armed[next];
  }

  lemma {:induction false} ArmWhole(armed: seq<Instr>, code: seq<Instr>, otherwise: Stmt, own: nat, next: nat)
    requires IsElseIf(otherwise) && next == own + 1 + Tests(otherwise)
    requires |armed| == next + 1 + Size(Inner(otherwise).body) && ArmPlaced(armed, own + 1, otherwise)
    requires |armed| <= |code| && forall i :: own < i < |armed| && i != next ==> code[i] == armed[i]
    requires code[next] == if |armed| < |code| then Longer(armed[next], 1) else armed[next]
    requires |code| == |armed| + if Size(Inner(otherwise).otherwise) == 0 then 0 else 1 + Size(Inner(otherwise).otherwise)
    requires Size(Inner(otherwise).otherwise) > 0 ==>
               code[|armed|] == Jump(Size(Inner(otherwise).otherwise)) && Placed(code, |armed| + 1, Inner(otherwise).otherwise)
    ensures Placed(code, own + 1, otherwise) && |code| == own + 1 + Size(otherwise)
  {
    var inner := Inner(otherwise);
    assert Size(inner.next) == 0 && Size(inner) == IfSize(Size(inner.body), Size(inner.otherwise));
    assert IfOnly(code, next, inner) by { ArmJoins(armed, code, otherwise, own, next); }
    assert TestsPlaced(code, own + 1, otherwise) by { TestsSame(armed, code, own + 1, otherwise); }
    ElseIfWhole(code, own + 1, otherwise);
  }

  /** The arm is an If once the rest of the chain stands after it. */
  lemma {:induction false} ArmJoins(armed: seq<Instr>, code: seq<Instr>, otherwise: Stmt, own: nat, next: nat)
    requires IsElseIf(otherwise) && next == own + 1 + Tests(otherwise)
    requires |armed| == next + 1 + Size(Inner(otherwise).body) && ArmPlaced(armed, own + 1, otherwise)
    requires |armed| <= |code| && forall i :: own < i < |armed| && i != next ==> code[i] == armed[i]
    requires code[next] == if |armed| < |code| then Longer(armed[next], 1) else armed[next]
    requires |code| == |armed| + if Size(Inner(otherwise).otherwise) == 0 then 0 else 1 + Size(Inner(otherwise).otherwise)
    requires Size(Inner(otherwise).otherwise) > 0 ==>
               code[|armed|] == Jump(Size(Inner(otherwise).otherwise)) && Placed(code, |armed| + 1, Inner(otherwise).otherwise)
    ensures IfOnly(code, next, Inner(otherwise))
  {
    var inner := Inner(otherwise);
    assert Placed(code, next + 1, inner.body) by { PlacedSame(armed, code, next + 1, inner.body); }
    IfMade(code, next, inner);
  }

  // ---------------------------------------------------------------- when it is right

  /** The code of the statements stands where it should exactly when no bare condition directly follows a
      comparison; otherwise it is too short by one instruction for each that does. */
  lemma {:induction false} GeneratedIff(code: seq<Instr>, p: Stmt)
    requires Formed(p)
    ensures var r := Gen(code, p);
      && |r| == |code| + Size(p) - Lost(p, EndsInLess(code))
      && (Extends(code, r) && Placed(r, |code|, p) <==> Lost(p, EndsInLess(code)) == 0)
  {
    GenLength(code, p);
    if Lost(p, EndsInLess(code)) == 0 { GenPlaced(code, p); }
  }

  /** Then running it does what the statements say. */
  lemma {:induction false} GeneratedRuns(code: seq<Instr>, p: Stmt, mem: seq<Object>)
    requires Formed(p) && Lost(p, EndsInLess(code)) == 0
    ensures Block(Gen(code, p), |code|, |Gen(code, p)|) && Run(Gen(code, p), |code|, |Gen(code, p)|, mem) == Eval(p, mem)
  {
    GenLength(code, p);
    GenPlaced(code, p);
    PlacedBlock(Gen(code, p), |code|, p);
    PlacedRuns(Gen(code, p), |code|, p, mem);
  }

  /** And it ends, if an invariant bounds its loops. */
  lemma {:induction false} GeneratedEnds(code: seq<Instr>, p: Stmt, inv: seq<Object> -> bool, mem: seq<Object>)
    requires Formed(p) && Lost(p, EndsInLess(code)) == 0 && Preserves(p, inv) && inv(mem)
    ensures Run(Gen(code, p), |code|, |Gen(code, p)|, mem) == Eval(p, mem)
    ensures Eval(p, mem).Some? && inv(Eval(p, mem).value)
  {
    GenLength(code, p);
    GenPlaced(code, p);
    PlacedEnds(Gen(code, p), |code|, p, inv, mem);
  }

  /** An If on slot b with one instruction as its body. */
  function BareIf(b: nat, to: nat, compute: seq<Object> -> Object): (p: Stmt)
    ensures Formed(p) && p.If? && Lost(p, true) == 1
  {
    assert Formed(Do(to, compute, Done)) && Lost(Do(to, compute, Done), false) == 0;
    If(Bare(b), Do(to, compute, Done), false, Done, Done)
  }

  lemma {:induction false} GenBareIf(code: seq<Instr>, a: nat, b: nat, to: nat, c: nat, to1: nat, compute: seq<Object> -> Object)
    ensures Gen(code + [LessThanI(a, b, to)], BareIf(c, to1, compute)) == code + [JumpGEQ(1, a, b), Op(to1, compute)]
  {
    var before, p := code + [LessThanI(a, b, to)], BareIf(c, to1, compute);
    assert Tested(before, p.condition) == code + [JumpGEQ(0, a, b)];
    assert Gen(code + [JumpGEQ(0, a, b)], p.body) == code + [JumpGEQ(0, a, b)] + [Op(to1, compute)];
    assert GenIf(before, p) == code + [JumpGEQ(1, a, b), Op(to1, compute)];
  }

  /** An input for which it is not right: an assignment of a comparison to slot 2, and then an If on slot 3.  The
      assignment is gone, and the If depends on the comparison. */
  lemma {:induction false} AssignmentLost(compute: seq<Object> -> Object)
    ensures var p := Compare(0, 1, 2, BareIf(3, 4, compute));
      var mem := [3, 7, 0, 0, 0];
      && Formed(p) && Lost(p, false) == 1 && Gen([], p) == [JumpGEQ(1, 0, 1), Op(4, compute)]
      && Eval(p, mem) == Some([3, 7, 1, 0, 0])
      && Run(Gen([], p), 0, 2, mem) == Some(mem[4 := compute(mem)])
  {
    var less: seq<Instr> := [LessThanI(0, 1, 2)];
    var code, mem: seq<Object> := [JumpGEQ(1, 0, 1), Op(4, compute)], [3, 7, 0, 0, 0];
    GenBareIf([], 0, 1, 2, 3, 4, compute);
    assert [] + less == less;
    var after := mem[2 := 1];
    assert SetSlot(mem, 2, Compared(mem, 0, 1, 2)) == after == [3, 7, 1, 0, 0];
    assert EvalBranch(BareIf(3, 4, compute), after) == Some(after) by { assert Slot(after, 3) == 0; }
    assert Eval(BareIf(3, 4, compute), after) == Some(after);
    assert Step(code, 0, 2, mem) == Some((1, mem)) && Step(code, 1, 2, mem) == Some((2, mem[4 := compute(mem)]));
  }

  /** When the assignment ends the body of a loop, the jump it becomes leaves the body: the interpreter, which waits
      for its exact end, runs on. */
  lemma {:induction false} JumpLeaves(compute: seq<Object> -> Object)
    ensures var p := For(0, 1, 2, 3, Compare(4, 5, 6, Done), BareIf(7, 8, compute));
      && Formed(p) && Lost(p, false) == 1
      && Gen([], p) == [Op(0, Copied(1)), ForI(0, 2, 3, 1), JumpGEQ(1, 4, 5), Op(8, compute)]
      && !Block(Gen([], p), 0, 4)
  {
    var p := For(0, 1, 2, 3, Compare(4, 5, 6, Done), BareIf(7, 8, compute));
    var start := [Op(0, Copied(1)), ForI(0, 2, 3, 0)];
    assert Formed(p.body) && Gen(start, p.body) == start + [LessThanI(4, 5, 6)];
    assert GenFor([], p) == [Op(0, Copied(1)), ForI(0, 2, 3, 1)] + [LessThanI(4, 5, 6)];
    GenBareIf([Op(0, Copied(1)), ForI(0, 2, 3, 1)], 4, 5, 6, 7, 8, compute);
  }

  lemma {:induction false} StatementsEnd(p: Stmt, inv: seq<Object> -> bool, mem: seq<Object>)
    requires Formed(p) && Lost(p, false) == 0 && Preserves(p, inv) && inv(mem)
    ensures Eval(p, mem).Some?
  {
    GeneratedEnds([], p, inv, mem);
  }

  /** A frame of 64-bit integers with the constants 0 and 1 in two slots. */
  function Frame01(zero: nat, one: nat): seq<Object> -> bool {
    (m: seq<Object>) => zero < |m| && one < |m| && (forall k :: 0 <= k < |m| ==> Word(m[k])) && m[zero] == 0 && m[one] == 1
  }

  function Count(counter: nat, zero: nat, limit: nat, one: nat, body: Stmt): Stmt {
    For(counter, zero, limit, one, body, Done)
  }

  /** Two nested loops, the inner one up to the counter of the outer one, end from every such frame, for every limit
      and every body that leaves the constants alone. */
  lemma {:induction false} TriangleEnds(i: nat, j: nat, limit: nat, zero: nat, one: nat, body: Stmt, mem: seq<Object>)
    requires {i, j} !! {zero, one}
    requires Formed(body) && Lost(body, false) == 0 && Preserves(body, Frame01(zero, one)) && Frame01(zero, one)(mem)
    ensures Eval(Count(i, zero, limit, one, Count(j, zero, i, one, body)), mem).Some?
  {
    var row := Count(j, zero, i, one, body);
    CountKept(j, i, zero, one, body);
    CountKept(i, limit, zero, one, row);
    StatementsEnd(Count(i, zero, limit, one, row), Frame01(zero, one), mem);
  }

  lemma {:induction false} CountKept(counter: nat, limit: nat, zero: nat, one: nat, body: Stmt)
    requires counter != zero && counter != one
    requires Formed(body) && Lost(body, false) == 0 && Preserves(body, Frame01(zero, one))
    ensures var p := Count(counter, zero, limit, one, body); Formed(p) && Lost(p, false) == 0 && Preserves(p, Frame01(zero, one))
  {
    var inv := Frame01(zero, one);
    forall m: seq<Object> | inv(m) ensures Bounded(m, counter, limit, one) && Counts(inv, counter, limit, one, m) {}
    assert Keeps(ForI(counter, limit, one, Size(body)), inv);
  }

  // ---------------------------------------------------------------- the generator

  /** The last instruction is asked for where there is none: the If reads what lies before the code. */
  predicate Outside(code: seq<Instr>, p: Stmt) {
    code == [] && p.If? && p.condition.Bare?
  }

  /** A return at the end changes nothing for the statements. */
  lemma {:induction false} ReturnAdded(r: seq<Instr>, code: seq<Instr>, p: Stmt)
    requires Formed(p) && r == Gen([], p) && (code == r || code == r + [Return])
    ensures Placed(code, 0, p) <==> Lost(p, false) == 0
  {
    GeneratedIff([], p);
    if Lost(p, false) == 0 {
      PlacedSame(r, code, 0, p);
    } else if Placed(code, 0, p) {
      assert |code| == Size(p) && code == r + [Return] && code[|r|] == Return;
      NoReturn(code, 0, p);
      assert false;
    }
  }

  predicate Rising(jumps: seq<nat>, limit: nat) {
    forall i :: 0 <= i < |jumps| ==> jumps[i] < limit && forall j :: i < j < |jumps| ==> jumps[i] < jumps[j]
  }

  function Elems(jumps: seq<nat>): set<nat> {
    set j | j in jumps
  }

  /** The code added to a function so far.  `wild` says that an instruction before the first one has been read; the
      code is then as it is when no comparison is found there. */
  class CodeGen {
    var code: seq<Instr>
    var wild: bool

    constructor ()
      ensures code == [] && !wild
    {
      code, wild := [], false;
    }

    method GenStatements(p: Stmt)
      requires Formed(p)
      modifies this
      ensures code == Gen(old(code), p) && wild == (old(wild) || Outside(old(code), p))
      decreases p, 1
    {
      match p {
        case Done =>
        case Do(to, compute, next) =>
          code := code + [Op(to, compute)];
          GenStatements(next);
        case Compare(a, b, to, next) =>
          code := code + [LessThanI(a, b, to)];
          GenStatements(next);
        case If(_, _, _, _, next) =>
          EmitIf(p);
          GenStatements(next);
        case For(_, _, _, _, _, next) =>
          EmitFor(p);
          GenStatements(next);
      }
    }

    /** The code of a function: it is right exactly when its first statement is not an If on a bare condition and no
        bare condition directly follows a comparison. */
    method GenFunction(body: Stmt)
      requires Formed(body) && code == [] && !wild
      modifies this
      ensures !wild && Placed(code, 0, body) <==> !Outside([], body) && Lost(body, false) == 0
      ensures wild == Outside([], body) && Extends(Gen([], body), code) && |code| <= |Gen([], body)| + 1
    {
      GenStatements(body);
      GeneratedIff([], body);
      ghost var r := code;
      if code == [] || !(code[|code| - 1].Return? || code[|code| - 1].ReturnValue?) {
        code := code + [Return];
      }
      ReturnAdded(r, code, body);
    }

    method EmitIf(p: Stmt)
      requires p.If? && Formed(p)
      modifies this
      ensures code == GenIf(old(code), p) && wild == (old(wild) || Outside(old(code), p))
      decreases p, 0
    {
      var last := EmitArm(p);
      assert Elems([]) == {};
      EmitRest(p.otherwise, p.chained, last, []);
    }

    /** The condition, the jump on it, and the body; `last` is where the jump is. */
    method EmitArm(p: Stmt) returns (last: nat)
      requires p.If? && Formed(p.body)
      modifies this
      ensures code == Arm(old(code), p) && last == |Tested(old(code), p.condition)| - 1
      ensures wild == (old(wild) || Outside(old(code), p))
      decreases p.body, 2
    {
      if p.condition.Less? {
        code := code + [LessThanI(p.condition.a, p.condition.b, p.condition.to)];
      }
      wild := wild || code == [];
      if code != [] && code[|code| - 1].LessThanI? {
        last := |code| - 1;
        code := code[last := JumpGEQ(0, code[last].a, code[last].b)];
      } else {
        last := |code|;
        code := code + [JumpIf(0, p.condition.b)];
      }
      assert code == Tested(old(code), p.condition);
      GenStatements(p.body);
      code := code[last := Longer(code[last], |code| - last - 1)];
    }

    /** The elseif arms that are left and the else: each begins with a jump over all that follows, which ends the
        arm before it, and the jumps to the end so far are stretched every time. */
    method EmitRest(otherwise: Stmt, chained: bool, last: nat, jumps: seq<nat>)
      requires Formed(otherwise) && (chained ==> IsElseIf(otherwise)) && last < |code| && Rising(jumps, |code|)
      modifies this
      ensures code == GenRest(old(code), otherwise, chained, last, Elems(jumps)) && wild == old(wild)
      decreases otherwise, 4
    {
      if chained {
        EmitElseIf(otherwise, last, jumps);
      } else if !otherwise.Done? {
        EmitElse(otherwise, last, jumps);
      }
    }

    method EmitElse(otherwise: Stmt, last: nat, jumps: seq<nat>)
      requires Formed(otherwise) && last < |code| && Rising(jumps, |code|)
      modifies this
      ensures code == GenElse(old(code), otherwise, last, Elems(jumps)) && wild == old(wild)
      decreases otherwise, 3
    {
      var jump := EndArm(last);
      GenStatements(otherwise);
      Stretch(jumps, jump);
    }

    /** The jump that ends an arm; the jump on its condition goes one further. */
    method EndArm(last: nat) returns (jump: nat)
      requires last < |code|
      modifies this`code
      ensures code == Ended(old(code), last) && jump == |old(code)|
    {
      jump := |code|;
      code := code + [Jump(0)];
      code := code[last := Longer(code[last], 1)];
    }

    method EmitElseIf(otherwise: Stmt, last: nat, jumps: seq<nat>)
      requires Formed(otherwise) && IsElseIf(otherwise) && last < |code| && Rising(jumps, |code|)
      modifies this
      ensures code == GenElseIf(old(code), otherwise, last, Elems(jumps)) && wild == old(wild)
      decreases otherwise, 3
    {
      var inner := Inner(otherwise);
      var jump := |code|;
      var next := EmitJoined(otherwise, last, jumps);
      var more := jumps + [jump];
      assert Elems(more) == Elems(jumps) + {jump} && Rising(more, |code|);
      ghost var r := ElseIfUnfolds(old(code), otherwise, last, Elems(jumps), code, next);
      EmitRest(inner.otherwise, inner.chained, next, more);
      assert code == r;
    }

    /** An elseif without the arms after it. */
    method EmitJoined(otherwise: Stmt, last: nat, jumps: seq<nat>) returns (next: nat)
      requires Formed(otherwise) && IsElseIf(otherwise) && last < |code| && Rising(jumps, |code|)
      modifies this
      ensures code == Stretched(ElseIfArm(old(code), otherwise, last), Elems(jumps), |old(code)|)
      ensures next == ElseIfJump(old(code), otherwise, last)
      ensures wild == old(wild) && |old(code)| < |code|
      decreases otherwise, 2
    {
      var jump := EndArm(last);
      EmitTests(otherwise);
      next := EmitArm(Inner(otherwise));
      Stretch(jumps, jump);
    }

    method EmitTests(p: Stmt)
      requires IsElseIf(p)
      modifies this`code
      ensures code == GenTests(old(code), p)
      decreases p
    {
      if Plain(p) {
        code := code + [Instruction(p)];
        EmitTests(p.next);
      }
    }

    /** Makes every jump so far pass the code from `own` on, and the one at `own` the rest of it. */
    method Stretch(jumps: seq<nat>, own: nat)
      requires own < |code| && Rising(jumps, own)
      modifies this`code
      ensures code == Stretched(old(code), Elems(jumps), own)
    {
      var k, n := 0, |code| - own;
      while k < |jumps|
        invariant 0 <= k <= |jumps| && |code| == |old(code)|
        invariant forall i {:trigger code[i]} :: 0 <= i < |code| ==>
          code[i] == if i in Elems(jumps[..k]) then Longer(old(code)[i], n) else old(code)[i]
      {
        assert jumps[k] !in Elems(jumps[..k]);
        assert Elems(jumps[..k + 1]) == Elems(jumps[..k]) + {jumps[k]} by { assert jumps[..k + 1] == jumps[..k] + [jumps[k]]; }
        code := code[jumps[k] := Longer(code[jumps[k]], n)];
        k := k + 1;
      }
      assert jumps[..k] == jumps;
      code := code[own := Longer(code[own], |code| - own - 1)];
      assert code == Stretched(old(code), Elems(jumps), own);
    }

    /** The store of the start value, the loop and its body. */
    method EmitFor(p: Stmt)
      requires p.For? && Formed(p.body)
      modifies this
      ensures code == GenFor(old(code), p) && wild == old(wild)
      decreases p, 0
    {
      var at := |code|;
      code := code + [Op(p.counter, Copied(p.start))];
      code := code + [ForI(p.counter, p.stop, p.step, 0)];
      assert code == old(code) + [Op(p.counter, Copied(p.start)), ForI(p.counter, p.stop, p.step, 0)];
      GenStatements(p.body);
      code := code[at + 1 := Spanning(code[at + 1], |code| - at - 2)];
    }
  }
}

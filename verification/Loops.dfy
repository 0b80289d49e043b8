/** Nested ForI loops and forward jumps in bytecode: eople_control_flow.cpp:216-256 and 329-347. */
module Loops {
  import opened Options
  import opened Frames

  const INT_MIN := -0x8000_0000_0000_0000
  const INT_MAX := 0x7fff_ffff_ffff_ffff

  /** Instructions of a loop body; slots are those of the current frame.  `Op` is any instruction that only
      writes one slot, other than LessThanI, which code generation looks for.  ForI ignores what an instruction returns, so Return does nothing there, and ReturnValue
      only copies its operand to slot 0. */
  datatype Instr =
    | Op(to: nat, compute: seq<Object> -> Object)
    | LessThanI(a: nat, b: nat, to: nat)
    | Jump(a: nat)
    | JumpIf(a: nat, b: nat)
    | JumpGEQ(a: nat, b: nat, c: nat)
    | ForI(counter: nat, stop: nat, step: nat, count: nat)
    | Return
    | ReturnValue(from: nat)

  /** The instruction at ip does not leave the block that ends at e. */
  predicate Inside(ins: Instr, ip: nat, e: nat) {
    match ins
    case Jump(a) => ip + 1 + a <= e
    case JumpIf(a, _) => ip + 1 + a <= e
    case JumpGEQ(a, _, _) => ip + 1 + a <= e
    case ForI(_, _, _, count) => ip + 1 + count <= e
    case _ => true
  }

  /** From ip on, everything in the block stays inside it, and so does the body of every loop. */
  predicate Block(code: seq<Instr>, ip: nat, e: nat)
    decreases e - ip
  {
    && ip <= e <= |code|
    && (ip < e ==>
          && Inside(code[ip], ip, e)
          && (code[ip].ForI? ==> Block(code, ip + 1, ip + 1 + code[ip].count))
          && Block(code, ip + 1, e))
  }

  lemma {:induction false} BlockFrom(code: seq<Instr>, ip: nat, e: nat, later: nat)
    requires Block(code, ip, e) && ip <= later <= e
    ensures Block(code, later, e)
    decreases e - ip
  {
    if ip < later { BlockFrom(code, ip + 1, e, later); }
  }

  /** The slots an instruction names lie in a frame of the given size. */
  predicate SlotsOk(ins: Instr, size: nat) {
    match ins
    case Op(to, _) => to < size
    case LessThanI(a, b, to) => a < size && b < size && to < size
    case JumpIf(_, b) => b < size
    case JumpGEQ(_, b, c) => b < size && c < size
    case ForI(counter, stop, step, _) => counter < size && stop < size && step < size
    case ReturnValue(from) => from < size
    case _ => true
  }

  function Slot(mem: seq<Object>, slot: nat): Object {
    if slot < |mem| then mem[slot] else NIL
  }

  function SetSlot(mem: seq<Object>, slot: nat, x: Object): (r: seq<Object>)
    ensures |r| == |mem|
  {
    if slot < |mem| then mem[slot := x] else mem
  }

  /** The slot `to` with the outcome of a comparison in it. */
  function Compared(mem: seq<Object>, a: nat, b: nat, to: nat): Object {
    Flagged(Slot(mem, to), Slot(mem, a) < Slot(mem, b))
  }

  /** Whether the loop goes on with this value of its counter. */
  predicate Enters(i: int, stop: int, step: int) {
    if step >= 0 then i < stop else i > stop
  }

  function Distance(i: int, stop: int, step: int): nat {
    if !Enters(i, stop, step) then 0 else if step >= 0 then stop - i else i - stop
  }

  /** One instruction: the position after it and the frame; None when it never ends, overflows, or leaves the
      block. */
  function Step(code: seq<Instr>, ip: nat, e: nat, mem: seq<Object>): (r: Option<(nat, seq<Object>)>)
    requires ip < e <= |code|
    ensures r.Some? ==> ip < r.value.0 <= e && |r.value.1| == |mem|
    decreases e - ip, 0, 0
  {
    if !Inside(code[ip], ip, e) then None
    else
      match code[ip]
      case Op(to, compute) => Some((ip + 1, SetSlot(mem, to, compute(mem))))
      case LessThanI(a, b, to) => Some((ip + 1, SetSlot(mem, to, Compared(mem, a, b, to))))
      case Jump(a) => Some((ip + 1 + a, mem))
      case JumpIf(a, b) => Some((if !True(Slot(mem, b)) then ip + 1 + a else ip + 1, mem))
      case JumpGEQ(a, b, c) => Some((if Slot(mem, b) >= Slot(mem, c) then ip + 1 + a else ip + 1, mem))
      case ForI(counter, stop, step, count) =>
        var end := Loop(code, ip + 1, ip + 1 + count, counter, Slot(mem, counter), Slot(mem, stop), Slot(mem, step), mem);
        if end.None? then None else Some((ip + 1 + count, end.value))
      case Return => Some((ip + 1, mem))
      case ReturnValue(from) => Some((ip + 1, SetSlot(mem, 0, Slot(mem, from))))
  }

  /** Runs to the end of the block. */
  function Run(code: seq<Instr>, ip: nat, e: nat, mem: seq<Object>): (r: Option<seq<Object>>)
    requires ip <= e <= |code|
    ensures r.Some? ==> |r.value| == |mem|
    decreases e - ip, 1, 0
  {
    if ip == e then Some(mem)
    else
      var next := Step(code, ip, e, mem);
      if next.None? then None else Run(code, next.value.0, e, next.value.1)
  }

  /** The loop from counter value i on.  The counter slot is written before each turn and never read back. */
  function Loop(code: seq<Instr>, s: nat, e: nat, counter: nat, i: int, stop: int, step: int, mem: seq<Object>): (r: Option<seq<Object>>)
    requires s <= e <= |code|
    ensures r.Some? ==> |r.value| == |mem|
    decreases e - s, 2, Distance(i, stop, step)
  {
    if !Enters(i, stop, step) then Some(mem)
    else if step == 0 then None
    else
      var turn := Run(code, s, e, SetSlot(mem, counter, i));
      if turn.None? || !(INT_MIN <= i + step <= INT_MAX) then None
      else Loop(code, s, e, counter, i + step, stop, step, turn.value)
  }

  // ---------------------------------------------------------------- how often a loop runs

  function Turns(i: int, stop: int, step: int): nat
    requires step != 0
    decreases Distance(i, stop, step)
  {
    if Enters(i, stop, step) then 1 + Turns(i + step, stop, step) else 0
  }

  /** The number of turns is (stop - start) / step rounded up, or 0 when that is negative. */
  lemma {:induction false} TurnsIsCeiling(start: int, stop: int, step: int)
    requires step != 0
    ensures var n := Turns(start, stop, step);
      && (n == 0 <==> if step > 0 then stop <= start else start <= stop)
      && (n > 0 && step > 0 ==> (n - 1) * step < stop - start <= n * step)
      && (n > 0 && step < 0 ==> (n - 1) * -step < start - stop <= n * -step)
    decreases Distance(start, stop, step)
  {
    if Enters(start, stop, step) {
      TurnsIsCeiling(start + step, stop, step);
      var n := Turns(start + step, stop, step);
      assert (n + 1) * step == n * step + step && (n + 1) * -step == n * -step - step;
      assert n > 0 ==> n * step == (n - 1) * step + step;
    }
  }

  /** The values the counter takes. */
  function Values(start: int, step: int, n: nat): seq<int>
    decreases n
  {
    if n == 0 then [] else [start] + Values(start + step, step, n - 1)
  }

  lemma {:induction false} ValueAt(start: int, step: int, n: nat, k: nat)
    requires k < n
    ensures |Values(start, step, n)| == n && Values(start, step, n)[k] == start + k * step
    decreases n
  {
    if n > 1 {
      ValueAt(start + step, step, n - 1, if k > 0 then k - 1 else 0);
      if k > 0 { assert (start + step) + (k - 1) * step == start + k * step; }
    }
  }

  /** The body, once for each value. */
  function Over(code: seq<Instr>, s: nat, e: nat, counter: nat, values: seq<int>, mem: seq<Object>): Option<seq<Object>>
    requires s <= e <= |code|
    decreases |values|
  {
    if values == [] then Some(mem)
    else
      var turn := Run(code, s, e, SetSlot(mem, counter, values[0]));
      if turn.None? then None else Over(code, s, e, counter, values[1..], turn.value)
  }

  /** A loop runs its body once for each of start, start + step, ..., whatever the body does to the counter's
      slot or to the slots of stop and step, when no counter value can overflow. */
  lemma {:induction false} LoopRunsOver(code: seq<Instr>, s: nat, e: nat, counter: nat, start: int, stop: int, step: int, mem: seq<Object>)
    requires s <= e <= |code| && step != 0
    requires if step > 0 then stop - 1 + step <= INT_MAX else INT_MIN <= stop + 1 + step
    requires INT_MIN <= start <= INT_MAX
    ensures Loop(code, s, e, counter, start, stop, step, mem)
      == Over(code, s, e, counter, Values(start, step, Turns(start, stop, step)), mem)
    decreases Distance(start, stop, step)
  {
    if Enters(start, stop, step) {
      var turn := Run(code, s, e, SetSlot(mem, counter, start));
      var values := Values(start, step, Turns(start, stop, step));
      assert values[0] == start && values[1..] == Values(start + step, step, Turns(start + step, stop, step));
      if turn.Some? { LoopRunsOver(code, s, e, counter, start + step, stop, step, turn.value); }
    }
  }

  /** The counter and the frame after n turns, when the body ends and nothing overflows in each of them. */
  function Turned(code: seq<Instr>, s: nat, e: nat, counter: nat, i: int, stop: int, step: int, mem: seq<Object>, n: nat): Option<(int, seq<Object>)>
    requires s <= e <= |code|
    decreases n
  {
    if n == 0 then Some((i, mem))
    else if !Enters(i, stop, step) then None
    else
      var turn := Run(code, s, e, SetSlot(mem, counter, i));
      if turn.None? || !(INT_MIN <= i + step <= INT_MAX) then None
      else Turned(code, s, e, counter, i + step, stop, step, turn.value, n - 1)
  }

  /** The result of a loop is the frame after some number of turns at which its condition is false; it has none
      exactly when there is no such number, whatever the step. */
  lemma {:induction false} LoopIsIteration(code: seq<Instr>, s: nat, e: nat, counter: nat, i: int, stop: int, step: int, mem: seq<Object>, m: seq<Object>)
    requires s <= e <= |code|
    ensures Loop(code, s, e, counter, i, stop, step, mem) == Some(m)
      <==> exists n, j :: Turned(code, s, e, counter, i, stop, step, mem, n) == Some((j, m)) && !Enters(j, stop, step)
  {
    if Loop(code, s, e, counter, i, stop, step, mem) == Some(m) {
      var n, j := LoopEnds(code, s, e, counter, i, stop, step, mem);
    }
    forall n, j | Turned(code, s, e, counter, i, stop, step, mem, n) == Some((j, m)) && !Enters(j, stop, step)
      ensures Loop(code, s, e, counter, i, stop, step, mem) == Some(m)
    {
      EndsLoop(code, s, e, counter, i, stop, step, mem, n);
    }
  }

  lemma {:induction false} LoopEnds(code: seq<Instr>, s: nat, e: nat, counter: nat, i: int, stop: int, step: int, mem: seq<Object>)
      returns (n: nat, j: int)
    requires s <= e <= |code| && Loop(code, s, e, counter, i, stop, step, mem).Some?
    ensures Turned(code, s, e, counter, i, stop, step, mem, n) == Some((j, Loop(code, s, e, counter, i, stop, step, mem).value))
    ensures !Enters(j, stop, step)
    decreases Distance(i, stop, step)
  {
    if Enters(i, stop, step) {
      n, j := LoopEnds(code, s, e, counter, i + step, stop, step, Run(code, s, e, SetSlot(mem, counter, i)).value);
      n := n + 1;
    } else {
      n, j := 0, i;
    }
  }

  lemma {:induction false} EndsLoop(code: seq<Instr>, s: nat, e: nat, counter: nat, i: int, stop: int, step: int, mem: seq<Object>, n: nat)
    requires s <= e <= |code| && Turned(code, s, e, counter, i, stop, step, mem, n).Some?
    requires !Enters(Turned(code, s, e, counter, i, stop, step, mem, n).value.0, stop, step)
    ensures Loop(code, s, e, counter, i, stop, step, mem) == Some(Turned(code, s, e, counter, i, stop, step, mem, n).value.1)
    decreases n
  {
    if step == 0 {
      StepZero(code, s, e, counter, i, stop, mem, n);
    } else if n > 0 {
      EndsLoop(code, s, e, counter, i + step, stop, step, Run(code, s, e, SetSlot(mem, counter, i)).value, n - 1);
    }
  }

  /** A loop with step 0 is entered when its counter is below the bound, and then never ends. */
  lemma {:induction false} ZeroNeverEnds(code: seq<Instr>, s: nat, e: nat, counter: nat, start: int, stop: int, mem: seq<Object>)
    requires s <= e <= |code|
    ensures Loop(code, s, e, counter, start, stop, 0, mem) == if start < stop then None else Some(mem)
  {
  }

  /** After any number of turns of such a loop its condition still holds. */
  lemma {:induction false} StepZero(code: seq<Instr>, s: nat, e: nat, counter: nat, start: int, stop: int, mem: seq<Object>, n: nat)
    requires s <= e <= |code| && Turned(code, s, e, counter, start, stop, 0, mem, n).Some?
    ensures var i := Turned(code, s, e, counter, start, stop, 0, mem, n).value.0;
      i == start && (Enters(start, stop, 0) ==> Enters(i, stop, 0))
    decreases n
  {
    if n > 0 { StepZero(code, s, e, counter, start, stop, Run(code, s, e, SetSlot(mem, counter, start)).value, n - 1); }
  }

  // ---------------------------------------------------------------- which way a test goes

  /** A comparison and a jump over one instruction: the instruction is executed exactly when a < b.  The comparison
      sets the low byte of its slot to 1 or 0 and leaves the others. */
  lemma {:induction false} LessGuards(code: seq<Instr>, mem: seq<Object>, n: nat, a: nat, b: nat, to: nat, x: nat, compute: seq<Object> -> Object)
    requires |code| == 3 && n == 1 && code[0] == LessThanI(a, b, to) && code[1] == JumpIf(n, to) && code[2] == Op(x, compute)
    requires a < |mem| && b < |mem| && to < |mem| && x < |mem|
    ensures var flag := mem[to] - mem[to] % 0x100 + if mem[a] < mem[b] then 1 else 0;
      var tested := mem[to := flag];
      Run(code, 0, 3, mem) == Some(if mem[a] < mem[b] then tested[x := compute(tested)] else tested)
  {
    var flag := mem[to] - mem[to] % 0x100 + if mem[a] < mem[b] then 1 else 0;
    var tested := mem[to := flag];
    assert Step(code, 0, 3, mem) == Some((1, tested));
    assert Step(code, 1, 3, tested) == Some((if mem[a] < mem[b] then 2 else 3, tested)) by { OneByte(mem[to], mem[a] < mem[b]); }
    assert Run(code, 0, 3, mem) == Run(code, 1, 3, tested);
    OneOp(code, 2, 3, tested);
  }

  /** The fused jump does the same without writing a flag, and a plain one passes the instruction in any case. */
  lemma {:induction false} JumpGuards(code: seq<Instr>, mem: seq<Object>, n: nat, a: nat, b: nat, x: nat, compute: seq<Object> -> Object)
    requires |code| == 2 && n == 1 && (code[0] == JumpGEQ(n, a, b) || code[0] == Jump(n)) && code[1] == Op(x, compute)
    requires a < |mem| && b < |mem| && x < |mem|
    ensures Run(code, 0, 2, mem) == Some(if code[0].JumpGEQ? && mem[a] < mem[b] then mem[x := compute(mem)] else mem)
  {
    var taken := code[0].Jump? || mem[a] >= mem[b];
    assert Step(code, 0, 2, mem) == Some((if taken then 2 else 1, mem));
    OneOp(code, 1, 2, mem);
  }

  lemma {:induction false} OneOp(code: seq<Instr>, ip: nat, e: nat, mem: seq<Object>)
    requires e == ip + 1 && e <= |code| && code[ip].Op?
    ensures Run(code, ip, e, mem) == Some(SetSlot(mem, code[ip].to, code[ip].compute(mem)))
    ensures Run(code, e, e, mem) == Some(mem)
  {
    assert Step(code, ip, e, mem) == Some((e, SetSlot(mem, code[ip].to, code[ip].compute(mem))));
  }

  // ---------------------------------------------------------------- when nested loops end

  predicate Word(x: int) {
    INT_MIN <= x <= INT_MAX
  }

  /** The loop whose stop and step are read from this frame counts in range and comes to its end. */
  predicate Bounded(mem: seq<Object>, counter: nat, stop: nat, step: nat) {
    && Word(Slot(mem, counter)) && Slot(mem, step) != 0
    && if Slot(mem, step) > 0 then Slot(mem, stop) - 1 + Slot(mem, step) <= INT_MAX
       else INT_MIN <= Slot(mem, stop) + 1 + Slot(mem, step)
  }

  /** Writing the counter keeps the invariant, as long as the loop that was entered with frame m0 goes on. */
  ghost predicate Counts(inv: seq<Object> -> bool, counter: nat, stop: nat, step: nat, m0: seq<Object>) {
    forall m: seq<Object>, i: int {:trigger SetSlot(m, counter, i)} ::
      inv(m) && Word(i) && Enters(i, Slot(m0, stop), Slot(m0, step)) ==> inv(SetSlot(m, counter, i))
  }

  /** The instruction keeps the invariant; of a loop, its header does, and the invariant bounds it. */
  ghost predicate Keeps(ins: Instr, inv: seq<Object> -> bool) {
    match ins
    case Op(to, compute) => forall m: seq<Object> :: inv(m) ==> inv(SetSlot(m, to, compute(m)))
    case LessThanI(a, b, to) => forall m: seq<Object> :: inv(m) ==> inv(SetSlot(m, to, Compared(m, a, b, to)))
    case ReturnValue(from) => forall m: seq<Object> :: inv(m) ==> inv(SetSlot(m, 0, Slot(m, from)))
    case ForI(counter, stop, step, _) =>
      forall m: seq<Object> :: inv(m) ==> Bounded(m, counter, stop, step) && Counts(inv, counter, stop, step, m)
    case _ => true
  }

  ghost predicate AllKeep(code: seq<Instr>, s: nat, e: nat, inv: seq<Object> -> bool)
    requires e <= |code|
  {
    forall k :: s <= k < e ==> Keeps(code[k], inv)
  }

  /** However deeply the loops are nested, and whatever of each other's counters they use, the code ends, if there
      is an invariant of the frame that every instruction keeps and that bounds every loop when it is entered. */
  lemma {:induction false} KeptRuns(code: seq<Instr>, s: nat, e: nat, inv: seq<Object> -> bool, mem: seq<Object>)
    requires Block(code, s, e) && AllKeep(code, s, e, inv) && inv(mem)
    ensures Run(code, s, e, mem).Some? && inv(Run(code, s, e, mem).value)
    decreases e - s, 1, 0
  {
    if s < e {
      KeptStep(code, s, e, inv, mem);
      var next := Step(code, s, e, mem).value;
      BlockFrom(code, s, e, next.0);
      KeptRuns(code, next.0, e, inv, next.1);
    }
  }

  lemma {:induction false} KeptStep(code: seq<Instr>, s: nat, e: nat, inv: seq<Object> -> bool, mem: seq<Object>)
    requires Block(code, s, e) && s < e && AllKeep(code, s, e, inv) && inv(mem)
    ensures Step(code, s, e, mem).Some? && inv(Step(code, s, e, mem).value.1)
    decreases e - s, 0, 0
  {
    assert Keeps(code[s], inv);
    if code[s].ForI? {
      var ForI(counter, stop, step, count) := code[s];
      BlockFrom(code, s, e, s + 1);
      KeptLoop(code, s + 1, s + 1 + count, inv, counter, Slot(mem, counter), stop, step, mem, mem);
    }
  }

  /** The loop was entered with frame m0. */
  lemma {:induction false} KeptLoop(
      code: seq<Instr>, s: nat, e: nat, inv: seq<Object> -> bool, counter: nat, i: int, stop: nat, step: nat, m0: seq<Object>, mem: seq<Object>)
    requires Block(code, s, e) && AllKeep(code, s, e, inv) && inv(mem) && Word(i)
    requires Bounded(m0, counter, stop, step) && Counts(inv, counter, stop, step, m0)
    ensures var r := Loop(code, s, e, counter, i, Slot(m0, stop), Slot(m0, step), mem); r.Some? && inv(r.value)
    decreases e - s, 2, Distance(i, Slot(m0, stop), Slot(m0, step))
  {
    if Enters(i, Slot(m0, stop), Slot(m0, step)) {
      KeptRuns(code, s, e, inv, SetSlot(mem, counter, i));
      var turn := Run(code, s, e, SetSlot(mem, counter, i)).value;
      KeptLoop(code, s, e, inv, counter, i + Slot(m0, step), stop, step, m0, turn);
    }
  }

  // ---------------------------------------------------------------- the interpreter

  /** The instruction pointer and the frame of a process. */
  class Process {
    var ip: nat
    const frame: array<Object>

    constructor (frame: array<Object>)
      ensures this.frame == frame && ip == 0
    {
      this.frame := frame;
      ip := 0;
    }

    /** The block from `from` to e can run here, and does not run forever or overflow. */
    ghost predicate Ready(code: seq<Instr>, from: nat, e: nat)
      reads this, frame
    {
      && frame.Length > 0 && Block(code, from, e) && Run(code, from, e, frame[..]).Some?
      && forall k :: from <= k < e ==> SlotsOk(code[k], frame.Length)
    }

    /** One instruction; the caller then moves ip one further. */
    method Instruction(code: seq<Instr>, ghost e: nat)
      requires ip < e && Ready(code, ip, e)
      modifies this, frame
      ensures (ip + 1, frame[..]) == old(Step(code, ip, e, frame[..])).value
      decreases e - ip, 1
    {
      match code[ip]
      case Op(to, compute) => frame[to] := compute(frame[..]);
      case LessThanI(a, b, to) => frame[to] := Flagged(frame[to], frame[a] < frame[b]);
      case Jump(a) => ip := ip + a;
      case JumpIf(a, b) =>
        if !True(frame[b]) { ip := ip + a; }
      case JumpGEQ(a, b, c) =>
        if frame[b] >= frame[c] { ip := ip + a; }
      case ForI(_, _, _, _) => For(code, e);
      case Return =>
      case ReturnValue(from) => frame[0] := frame[from];
    }

    /** The body of the loop is run while ip has not reached its end exactly. */
    method Body(code: seq<Instr>, startIp: nat, endIp: nat)
      requires Ready(code, startIp, endIp)
      modifies this, frame
      ensures ip == endIp && Some(frame[..]) == old(Run(code, startIp, endIp, frame[..]))
      decreases endIp - startIp, 2
    {
      ip := startIp;
      while ip != endIp
        invariant startIp <= ip <= endIp && Ready(code, ip, endIp)
        invariant Run(code, ip, endIp, frame[..]) == old(Run(code, startIp, endIp, frame[..]))
        decreases endIp - ip
      {
        ghost var at := ip;
        Instruction(code, endIp);
        ip := ip + 1;
        BlockFrom(code, at, endIp, ip);
      }
    }

    /** ForI.  Where it ends, ip is one before the end of the body. */
    method For(code: seq<Instr>, ghost e: nat)
      requires ip < e && Ready(code, ip, e) && code[ip].ForI?
      modifies this, frame
      ensures ip == old(ip) + code[old(ip)].count && frame[..] == old(Step(code, ip, e, frame[..])).value.1
      decreases e - ip, 0
    {
      var ForI(counter, _, _, count) := code[ip];
      var start, stop, step := frame[counter], frame[code[ip].stop], frame[code[ip].step];
      ip := ip + 1;
      var startIp, endIp := ip, ip + count;
      ghost var end := Loop(code, startIp, endIp, counter, start, stop, step, frame[..]);
      var i := start;
      if step >= 0 {
        while i < stop
          invariant Loop(code, startIp, endIp, counter, i, stop, step, frame[..]) == end
          decreases Distance(i, stop, step)
        {
          frame[counter] := i;
          Body(code, startIp, endIp);
          i := i + step;
        }
      } else {
        while i > stop
          invariant Loop(code, startIp, endIp, counter, i, stop, step, frame[..]) == end
          decreases Distance(i, stop, step)
        {
          frame[counter] := i;
          Body(code, startIp, endIp);
          i := i + step;
        }
      }
      ip := endIp - 1;
    }
  }

  /** Code with an invariant that bounds its loops is ready to run. */
  lemma {:induction false} KeptReady(p: Process, code: seq<Instr>, from: nat, e: nat, inv: seq<Object> -> bool)
    requires p.frame.Length > 0 && Block(code, from, e) && (forall k :: from <= k < e ==> SlotsOk(code[k], p.frame.Length))
    requires AllKeep(code, from, e, inv) && inv(p.frame[..])
    ensures p.Ready(code, from, e)
  {
    KeptRuns(code, from, e, inv, p.frame[..]);
  }
}

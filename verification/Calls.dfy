/** Nested function calls on one process stack: ExecutionLoop and ExecuteFunction. */
module Calls {
  import opened Options
  import opened Frames
  import opened ProcessStacks

  /** The code ahead of the instruction pointer, as far as one execution goes through it and touches the
      stack.  `Op` writes one slot from the contents of the frame.  `stray` stands for what a call copies as its
      arguments when the stack has moved and their source points to freed memory (eople_vm.cpp:509-513).  A
      `Carrier` holds arguments of the call before it, the fourth to the seventh, and so on; its instruction is
      NOP, for which there is no function (eople_vmcode_gen.cpp:650-658, eople_vm.cpp:94-165). */
  datatype Code =
    | Op(to: nat, compute: seq<Object> -> Object, next: Code)
    | FunctionCall(f: Function, args: seq<VMCode>, stray: seq<Object>, body: Code, next: Code)
    | Carrier(next: Code)
    | Return
    | ReturnValue(from: nat)

  /** What code generation guarantees of code that runs in a frame of `room` slots, and that has this number of
      carriers in front; the slot above the frame takes the results of calls. */
  predicate Formed(code: Code, room: nat, carriers: nat)
    decreases code
  {
    if carriers > 0 then code.Carrier? && Formed(code.next, room, carriers - 1)
    else
      match code
      case Op(to, _, next) => to <= room && Formed(next, room, 0)
      case FunctionCall(f, args, stray, body, next) =>
        CallOk(f, args, stray, room) && Formed(body, f.storage, 0) && Formed(next, room, |args| - 1)
      case Carrier(_) => false
      case Return => true
      case ReturnValue(from) => from <= room
  }

  /** The first instruction of a call holds three arguments, and every other one four. */
  predicate CallOk(f: Function, args: seq<VMCode>, stray: seq<Object>, room: nat) {
    && Plain(f) && HasArgs(f, args) && |args| == 1 + Parameters(f) / 4
    && ArgsBelow(ArgOperands(f, args), 0, room) && |stray| == Parameters(f)
  }

  // ---------------------------------------------------------------- getting past a call

  /** The code gets to its end: after a call the interpreter goes on with the next instruction (the frame of the
      call is popped and with it the pointer to the call), and a carrier has no function. */
  predicate Alive(code: Code) {
    match code
    case Op(_, _, next) => Alive(next)
    case FunctionCall(_, _, _, body, next) => Alive(body) && Alive(next)
    case Carrier(_) => false
    case _ => true
  }

  predicate FewArgs(code: Code) {
    match code
    case Op(_, _, next) => FewArgs(next)
    case FunctionCall(f, _, _, body, next) => f.constantsStart <= f.parametersStart + 3 && FewArgs(body) && FewArgs(next)
    case Carrier(next) => FewArgs(next)
    case _ => true
  }

  /** It does exactly when every call has at most three arguments. */
  lemma {:induction false} AliveIff(code: Code, room: nat)
    requires Formed(code, room, 0)
    ensures Alive(code) <==> FewArgs(code)
    decreases code
  {
    match code
    case Op(_, _, next) => AliveIff(next, room);
    case FunctionCall(f, args, _, body, next) =>
      AliveIff(body, f.storage);
      if |args| == 1 { AliveIff(next, room); }
    case _ =>
  }

  /** The carriers of a call and what follows them. */
  function Carriers(n: nat, end: Code): Code {
    if n == 0 then end else Carrier(Carriers(n - 1, end))
  }

  /** So a call with more arguments is the end, whatever the function does. */
  lemma {:induction false} ManyArguments(f: Function, args: seq<VMCode>, stray: seq<Object>, body: Code, end: Code, room: nat)
    requires CallOk(f, args, stray, room) && Parameters(f) > 3 && Formed(body, f.storage, 0) && Formed(end, room, 0)
    ensures var code := FunctionCall(f, args, stray, body, Carriers(|args| - 1, end)); Formed(code, room, 0) && !Alive(code)
  {
    CarriersFormed(|args| - 1, end, room);
  }

  lemma {:induction false} CarriersFormed(n: nat, end: Code, room: nat)
    requires Formed(end, room, 0)
    ensures Formed(Carriers(n, end), room, n)
    decreases n
  {
    if n > 0 { CarriersFormed(n - 1, end, room); }
  }

  /** There is such a call, with four arguments, all from slot z. */
  lemma {:induction false} FourArguments(z: nat, n: nat, no: bool) returns (f: Function, args: seq<VMCode>)
    requires z == 0 && n == 4 && !no
    ensures CallOk(f, args, Zeros(n), 1) && Parameters(f) == n
  {
    f := Function(no, no, no, z, n, n, n, n, n, []);
    args := [VMCode(z, z, z, z), VMCode(z, z, z, z)];
    SameOperands(args[0], z);
    forall k | 0 <= k < n ensures ArgOperands(f, args)[k] == z { PickedAt(Operands(args), 1, n, k); }
  }

  lemma {:induction false} SameOperands(call: VMCode, z: nat)
    requires call == VMCode(z, z, z, z)
    ensures |Operands([call, call])| == 8 && forall k :: 0 <= k < 8 ==> Operands([call, call])[k] == z
  {
    var args := [call, call];
    assert args[1..] == [call] && [call][1..] == [];
    assert Operands([call]) == [z, z, z, z] + Operands([]);
    assert Operands(args) == [z, z, z, z] + Operands([call]);
  }

  /** Code that gets to its end. */
  predicate CodeOk(code: Code, room: nat) {
    match code
    case Op(to, _, next) => to <= room && CodeOk(next, room)
    case FunctionCall(f, args, stray, body, next) =>
      CallOk(f, args, stray, room) && |args| == 1 && CodeOk(body, f.storage) && CodeOk(next, room)
    case Carrier(_) => false
    case Return => true
    case ReturnValue(from) => from <= room
  }

  lemma {:induction false} CodeOkIff(code: Code, room: nat)
    ensures CodeOk(code, room) <==> Formed(code, room, 0) && Alive(code)
    decreases code
  {
    match code
    case Op(_, _, next) => CodeOkIff(next, room);
    case FunctionCall(f, args, _, body, next) =>
      CodeOkIff(body, f.storage);
      if |args| == 1 { CodeOkIff(next, room); }
    case _ =>
  }

  /** One instruction can be executed, with all the calls in it. */
  predicate StepOk(code: Code, room: nat) {
    match code
    case Op(to, _, _) => to <= room
    case FunctionCall(f, args, stray, body, _) => CallOk(f, args, stray, room) && CodeOk(body, f.storage)
    case Carrier(_) => false
    case Return => true
    case ReturnValue(from) => from <= room
  }

  /** A function that is neither a method nor a constructor nor a when block, the only kind that FunctionCall
      is generated for (eople_vmcode_gen.cpp:731-752): its frame starts where the caller's ends. */
  predicate Plain(f: Function) {
    && Laid(f) && !f.reuseContext && !f.isWhenEval && !f.isConstructor
    && f.parametersStart == 0 && f.tempEnd == f.storage
  }

  predicate Moves(f: Function, cells: seq<Object>, top: nat) {
    |cells| < top + f.storage + 1
  }

  /** The arguments that reach the callee. */
  function Passed(f: Function, args: seq<VMCode>, stray: seq<Object>, cells: seq<Object>, base: nat, room: nat): (r: seq<Object>)
    requires base + room < |cells| && CallOk(f, args, stray, room)
    ensures |r| == Parameters(f)
  {
    if Moves(f, cells, base + room) then stray else Args(ArgOperands(f, args), cells, base)
  }

  /** The memory when the callee's code starts: arguments, constants and zeroed locals at the caller's top. */
  ghost function Loaded(f: Function, xs: seq<Object>, cells: seq<Object>, top: nat): (r: seq<Object>)
    requires top < |cells| && Plain(f) && |xs| == Parameters(f)
    ensures |r| == if Moves(f, cells, top) then top + f.storage + 1 else |cells|
    ensures forall i {:trigger r[i]} :: 0 <= i < top ==> r[i] == cells[i]
  {
    Splice(Grown(cells, top + f.storage + 1), top, xs + f.constants + Zeros(Locals(f)))
  }

  /** An instruction that returns false ends the code: ExecutionLoop, eople_vm.h:80-94. */
  predicate Continues(code: Code) {
    code.Op? || code.FunctionCall?
  }

  /** The memory after the code has run in the frame of `room` slots at `base`. */
  ghost function Run(code: Code, cells: seq<Object>, base: nat, room: nat): (r: seq<Object>)
    requires base + room < |cells| && CodeOk(code, room)
    ensures |cells| <= |r|
    ensures forall i {:trigger r[i]} :: 0 <= i < base ==> r[i] == cells[i]
    decreases code, 2
  {
    if Continues(code) then Run(code.next, Stepped(code, cells, base, room), base, room)
    else Stepped(code, cells, base, room)
  }

  /** One instruction; a call runs the whole callee. */
  ghost function Stepped(code: Code, cells: seq<Object>, base: nat, room: nat): (r: seq<Object>)
    requires base + room < |cells| && StepOk(code, room)
    ensures |cells| <= |r| && (!code.FunctionCall? ==> |r| == |cells|)
    ensures forall i {:trigger r[i]} :: 0 <= i < base ==> r[i] == cells[i]
    ensures code.FunctionCall? ==> forall i {:trigger r[i]} :: 0 <= i < base + room ==> r[i] == cells[i]
    decreases code, 1
  {
    match code
    case Op(to, compute, _) => cells[base + to := compute(cells[base..base + room + 1])]
    case FunctionCall(f, _, _, body, _) => Called(f, body, Entry(code, cells, base, room), base + room)
    case Return => cells
    case ReturnValue(from) => cells[base := cells[base + from]]
  }

  /** Runs a body in the frame at `top`. */
  ghost function Called(f: Function, body: Code, cells: seq<Object>, top: nat): (r: seq<Object>)
    requires top + f.storage < |cells| && CodeOk(body, f.storage)
    ensures |cells| <= |r|
    ensures forall i {:trigger r[i]} :: 0 <= i < top ==> r[i] == cells[i]
    decreases body, 3
  {
    Run(body, cells, top, f.storage)
  }

  /** The memory as the called function finds it. */
  ghost function Entry(code: Code, cells: seq<Object>, base: nat, room: nat): (r: seq<Object>)
    requires base + room < |cells| && code.FunctionCall? && CallOk(code.f, code.args, code.stray, room)
    ensures |r| == if Moves(code.f, cells, base + room) then base + room + code.f.storage + 1 else |cells|
    ensures forall i {:trigger r[i]} :: 0 <= i < base + room ==> r[i] == cells[i]
  {
    Loaded(code.f, Passed(code.f, code.args, code.stray, cells, base, room), cells, base + room)
  }

  // ---------------------------------------------------------------- what a call does

  /** The value the code returns: the operand of the ReturnValue it reaches, read at that moment. */
  ghost function Returned(code: Code, cells: seq<Object>, base: nat, room: nat): Option<Object>
    requires base + room < |cells| && CodeOk(code, room)
  {
    if Continues(code) then Returned(code.next, Stepped(code, cells, base, room), base, room)
    else if code.ReturnValue? then Some(cells[base + code.from])
    else None
  }

  lemma {:induction false} ReturnedAtBase(code: Code, cells: seq<Object>, base: nat, room: nat)
    requires base + room < |cells| && CodeOk(code, room) && Returned(code, cells, base, room).Some?
    ensures Run(code, cells, base, room)[base] == Returned(code, cells, base, room).value
  {
    if Continues(code) { ReturnedAtBase(code.next, Stepped(code, cells, base, room), base, room); }
  }

  /** A call, with all the calls nested in it and however often the stack moves, leaves every slot below the
      caller's top alone, and the value it returns is in the slot at the caller's top. */
  lemma {:induction false} CallIsolation(code: Code, cells: seq<Object>, base: nat, room: nat) returns (r: seq<Object>, e: seq<Object>)
    requires base + room < |cells| && code.FunctionCall? && StepOk(code, room)
    ensures r == Stepped(code, cells, base, room) && e == Entry(code, cells, base, room)
    ensures |cells| <= |r| && forall i :: 0 <= i < base + room ==> r[i] == cells[i]
    ensures var v := Returned(code.body, e, base + room, code.f.storage); v.Some? ==> r[base + room] == v.value
  {
    e := Entry(code, cells, base, room);
    CalledReturns(code.f, code.body, e, base + room);
    r := Called(code.f, code.body, e, base + room);
  }

  lemma {:induction false} CalledReturns(f: Function, body: Code, e: seq<Object>, top: nat)
    requires top + f.storage < |e| && CodeOk(body, f.storage)
    ensures var v := Returned(body, e, top, f.storage); v.Some? ==> Called(f, body, e, top)[top] == v.value
  {
    if Returned(body, e, top, f.storage).Some? { ReturnedAtBase(body, e, top, f.storage); }
  }

  /** The callee starts with its arguments, constants and zeroed locals in place. */
  lemma {:induction false} CalleeStarts(f: Function, xs: seq<Object>, cells: seq<Object>, top: nat)
    requires top < |cells| && Plain(f) && |xs| == Parameters(f)
    ensures var e := Loaded(f, xs, cells, top)[top..];
      && e[..f.constantsStart] == xs
      && e[f.constantsStart..f.localsStart] == f.constants
      && e[f.localsStart..f.tempStart] == Zeros(Locals(f))
  {
    var image := xs + f.constants + Zeros(Locals(f));
    var e := Loaded(f, xs, cells, top)[top..];
    assert |image| == f.tempStart && e[..f.tempStart] == image;
    assert e[..f.constantsStart] == image[..f.constantsStart];
    assert e[f.constantsStart..f.localsStart] == image[f.constantsStart..f.localsStart];
    assert e[f.localsStart..f.tempStart] == image[f.localsStart..f.tempStart];
  }

  /** The arguments are the slots of the caller that the call and the m-th instruction after it name, unless the stack
      moves; then they are what the freed memory holds. */
  lemma {:induction false} ArgumentsArrive(f: Function, args: seq<VMCode>, stray: seq<Object>, cells: seq<Object>, base: nat, room: nat, m: nat)
    requires base + room < |cells| && CallOk(f, args, stray, room)
    ensures var xs, n := Passed(f, args, stray, cells, base, room), f.constantsStart;
      && |xs| == n
      && (|cells| < base + room + f.storage + 1 ==> xs == stray)
      && (base + room + f.storage + 1 <= |cells| ==>
          && (0 < n ==> args[0].b < room && xs[0] == cells[base + args[0].b])
          && (1 < n ==> args[0].c < room && xs[1] == cells[base + args[0].c])
          && (2 < n ==> args[0].d < room && xs[2] == cells[base + args[0].d])
          && (3 + 4 * m < n ==> 1 + m < |args| && args[1 + m].a < room && xs[3 + 4 * m] == cells[base + args[1 + m].a])
          && (4 + 4 * m < n ==> args[1 + m].b < room && xs[4 + 4 * m] == cells[base + args[1 + m].b])
          && (5 + 4 * m < n ==> args[1 + m].c < room && xs[5 + 4 * m] == cells[base + args[1 + m].c])
          && (6 + 4 * m < n ==> args[1 + m].d < room && xs[6 + 4 * m] == cells[base + args[1 + m].d]))
  {
    if !Moves(f, cells, base + room) {
      var xs := ArgOperands(f, args);
      ArgumentFields(f, args, m);
      forall k | 0 <= k < |xs| ensures Passed(f, args, stray, cells, base, room)[k] == cells[base + xs[k]] && xs[k] < room {
        ArgsAt(xs, cells, base, k);
      }
    }
  }

  /** The second happens: a call of a function with one argument, in a frame of one slot that fills the memory. */
  lemma {:induction false} ArgumentLost(z: nat, n: nat, no: bool, x: Object, y: Object) returns (f: Function, args: seq<VMCode>)
    requires z == 0 && n == 1 && !no
    ensures CallOk(f, args, [y], n) && |args| == n && Moves(f, [x, x], z + n)
    ensures Passed(f, args, [y], [x, x], z, n) == [y]
  {
    f := Function(no, no, no, z, n, n, n, n, n, []);
    args := [VMCode(z, z, z, z)];
    assert Operands(args) == [z, z, z, z] + Operands([]);
    PickedAt(Operands(args), 1, n, 0);
  }

  /** The frame of a called function when its code starts, if the stack does not move: the first argument in its first
      slot, then the constants, and zeros in the locals. */
  lemma {:induction false} CalleeFrame(code: Code, cells: seq<Object>, base: nat, room: nat)
    requires base + room < |cells| && code.FunctionCall? && CallOk(code.f, code.args, code.stray, room)
    requires base + room + code.f.storage + 1 <= |cells|
    ensures var e, f, top := Entry(code, cells, base, room), code.f, base + room;
      && |e| == |cells|
      && (f.constantsStart > 0 ==> code.args[0].b < room && e[top] == cells[base + code.args[0].b])
      && e[top + f.constantsStart..top + f.localsStart] == f.constants
      && forall i {:trigger e[i]} :: top + f.localsStart <= i < top + f.tempStart ==> e[i] == 0
  {
    ArgumentsArrive(code.f, code.args, code.stray, cells, base, room, 0);
  }

  /** A whole call: what a function of one instruction returns is computed from that frame, and is in the slot at the
      caller's top. */
  lemma {:induction false} CallComputes(code: Code, cells: seq<Object>, base: nat, room: nat)
    requires base + room < |cells| && code.FunctionCall? && StepOk(code, room) && code.body.Op? && code.body.next.ReturnValue?
    ensures var e, top := Entry(code, cells, base, room), base + room;
      var frame := e[top..top + code.f.storage + 1];
      && code.body.next.from <= code.f.storage
      && Stepped(code, cells, base, room)[top]
        == if code.body.next.from == code.body.to then code.body.compute(frame) else frame[code.body.next.from]
  {
    var e := Entry(code, cells, base, room);
    OneInstruction(code.body, e, base + room, code.f.storage);
    assert Stepped(code, cells, base, room) == Called(code.f, code.body, e, base + room);
  }

  lemma {:induction false} OneInstruction(body: Code, e: seq<Object>, top: nat, storage: nat)
    requires top + storage < |e| && CodeOk(body, storage) && body.Op? && body.next.ReturnValue?
    ensures var frame := e[top..top + storage + 1];
      && body.next.from <= storage
      && Run(body, e, top, storage)[top] == if body.next.from == body.to then body.compute(frame) else frame[body.next.from]
  {
    var after := Stepped(body, e, top, storage);
    assert CodeOk(body.next, storage);
    assert Run(body.next, after, top, storage) == Stepped(body.next, after, top, storage);
  }

  // ---------------------------------------------------------------- how much stack is needed

  function Max(a: nat, b: nat): nat {
    if a < b then b else a
  }

  /** Slots, counted from the base of a frame of `room` slots, that running the code takes. */
  function Peak(code: Code, room: nat): (n: nat)
    ensures room < n
  {
    match code
    case Op(_, _, next) => Peak(next, room)
    case FunctionCall(f, _, _, body, next) => Max(room + Peak(body, f.storage), Peak(next, room))
    case _ => room + 1
  }

  /** The stack grows to exactly what the deepest chain of calls takes, and never shrinks. */
  lemma {:induction false} PeakIsReached(code: Code, cells: seq<Object>, base: nat, room: nat)
    requires base + room < |cells| && CodeOk(code, room)
    ensures |Run(code, cells, base, room)| == Max(|cells|, base + Peak(code, room))
    decreases code, 1
  {
    if Continues(code) {
      StepPeak(code, cells, base, room);
      PeakIsReached(code.next, Stepped(code, cells, base, room), base, room);
    }
  }

  lemma {:induction false} StepPeak(code: Code, cells: seq<Object>, base: nat, room: nat)
    requires base + room < |cells| && CodeOk(code, room) && Continues(code)
    ensures |Stepped(code, cells, base, room)|
      == if code.FunctionCall? then Max(|cells|, base + room + Peak(code.body, code.f.storage)) else |cells|
    ensures Peak(code, room)
      == if code.FunctionCall? then Max(room + Peak(code.body, code.f.storage), Peak(code.next, room)) else Peak(code.next, room)
    decreases code, 0
  {
    if code.FunctionCall? { CallPeak(code, cells, base, room); }
  }

  lemma {:induction false} CallPeak(code: Code, cells: seq<Object>, base: nat, room: nat)
    requires base + room < |cells| && StepOk(code, room) && code.FunctionCall?
    ensures |Stepped(code, cells, base, room)| == Max(|cells|, base + room + Peak(code.body, code.f.storage))
    decreases code.body, 3
  {
    var e := Entry(code, cells, base, room);
    CallPeakIn(code.f, code.body, e, base + room);
    assert |e| == Max(|cells|, base + room + code.f.storage + 1);
    assert Stepped(code, cells, base, room) == Called(code.f, code.body, e, base + room);
  }

  lemma {:induction false} CallPeakIn(f: Function, body: Code, e: seq<Object>, top: nat)
    requires top + f.storage < |e| && CodeOk(body, f.storage)
    ensures |Called(f, body, e, top)| == Max(|e|, top + Peak(body, f.storage))
    decreases body, 2
  {
    PeakIsReached(body, e, top, f.storage);
  }

  /** The same code but for the stray arguments of its calls. */
  ghost predicate Alike(a: Code, b: Code) {
    match a
    case Op(to, compute, next) => b.Op? && b.to == to && b.compute == compute && Alike(next, b.next)
    case FunctionCall(f, args, _, body, next) =>
      b.FunctionCall? && b.f == f && b.args == args && Alike(body, b.body) && Alike(next, b.next)
    case Carrier(next) => b.Carrier? && Alike(next, b.next)
    case _ => a == b
  }

  /** On a stack large enough from the start no call loses its arguments: the run does not depend on what
      freed memory holds. */
  lemma {:induction false} EnoughRoom(a: Code, b: Code, cells: seq<Object>, base: nat, room: nat)
    requires base + room < |cells| && CodeOk(a, room) && CodeOk(b, room) && Alike(a, b)
    requires base + Peak(a, room) <= |cells|
    ensures Run(a, cells, base, room) == Run(b, cells, base, room)
    decreases a, 1
  {
    if Continues(a) {
      if a.FunctionCall? { EnoughForCall(a, b, cells, base, room); }
      EnoughRoom(a.next, b.next, Stepped(a, cells, base, room), base, room);
    }
  }

  lemma {:induction false} EnoughForCall(a: Code, b: Code, cells: seq<Object>, base: nat, room: nat)
    requires base + room < |cells| && StepOk(a, room) && StepOk(b, room) && Alike(a, b)
    requires a.FunctionCall? && base + room + Peak(a.body, a.f.storage) <= |cells|
    ensures Stepped(a, cells, base, room) == Stepped(b, cells, base, room) && |Stepped(a, cells, base, room)| == |cells|
    decreases a.body, 3
  {
    var e := Entry(a, cells, base, room);
    assert e == Entry(b, cells, base, room);
    EnoughIn(a.f, a.body, b.body, e, base + room);
    assert Stepped(a, cells, base, room) == Called(a.f, a.body, e, base + room);
    assert Stepped(b, cells, base, room) == Called(a.f, b.body, e, base + room);
  }

  lemma {:induction false} EnoughIn(f: Function, a: Code, b: Code, e: seq<Object>, top: nat)
    requires top + f.storage < |e| && CodeOk(a, f.storage) && CodeOk(b, f.storage) && Alike(a, b)
    requires top + Peak(a, f.storage) <= |e|
    ensures Called(f, a, e, top) == Called(f, b, e, top) && |Called(f, a, e, top)| == |e|
    decreases a, 2
  {
    EnoughRoom(a, b, e, top, f.storage);
    CallPeakIn(f, a, e, top);
  }

  // ---------------------------------------------------------------- the interpreter

  /** The memory is the same, or larger. */
  predicate Kept(stack: array<Object>, was: array<Object>, length: nat) {
    stack == was || length < stack.Length
  }

  /** The frame registers of the process. */
  predicate InFrame(s: Stack, base: nat, room: nat) {
    s.base == base && s.top == base + room < |s.cells|
  }

  /** ExecuteFunction at eople_vm.cpp:503-519.  All three frame registers come back as they were, if the code of
      the function gets to its end. */
  method ExecuteFunction(process: ProcessStack, code: Code, ghost base: nat, ghost room: nat) returns (alive: bool)
    requires InFrame(process.Value(), base, room) && code.FunctionCall? && Formed(code, room, 0)
    modifies process, process.stack
    ensures alive == Alive(code.body) && (alive ==> StepOk(code, room))
    ensures alive ==> process.Value() == old(process.Value()).(cells := Stepped(code, old(process.stack[..]), base, room))
    ensures alive ==> Kept(process.stack, old(process.stack), old(process.stack.Length)) && (process.stack != old(process.stack) ==> fresh(process.stack))
    decreases code, 0
  {
    EnterFunction(process, code, base, room);
    ghost var e := process.stack[..];
    alive := ExecutionLoop(process, code.body, base + room, code.f.storage);
    if alive {
      assert process.stack[..] == Called(code.f, code.body, e, base + room);
      process.PopStackFrame();
    }
  }

  /** The source of the arguments is fixed before the stack may move. */
  method EnterFunction(process: ProcessStack, code: Code, ghost base: nat, ghost room: nat)
    requires InFrame(process.Value(), base, room) && code.FunctionCall? && CallOk(code.f, code.args, code.stray, room)
    modifies process, process.stack
    ensures process.Value() == Entered(old(process.Value()), code.f).(cells := Entry(code, old(process.stack[..]), base, room))
    ensures process.stack == old(process.stack) || (fresh(process.stack) && old(process.stack.Length) < process.stack.Length)
  {
    ghost var s := process.Value();
    var stack, dest := process.stack, process.base;
    process.SetupStackFrame(code.f);
    if process.stack == stack {
      process.PushArgs(code.f, code.args, stack, dest);
    } else {
      process.Write(0, code.stray);
    }
    process.PushConstants(code.f);
    process.InitializeLocals(code.f);
    EntryInSteps(code, s, base, room);
  }

  /** Copying arguments, constants and zeros one after the other fills the callee's frame. */
  lemma {:induction false} EntryInSteps(code: Code, s: Stack, base: nat, room: nat)
    requires InFrame(s, base, room) && code.FunctionCall? && CallOk(code.f, code.args, code.stray, room)
    ensures var xs := Passed(code.f, code.args, code.stray, s.cells, base, room);
      Cleared(Constants(Put(Entered(s, code.f), 0, xs), code.f), code.f)
        == Entered(s, code.f).(cells := Entry(code, s.cells, base, room))
  {
  }

  /** What is left to run behind an instruction that has been executed. */
  ghost function Left(ip: Code, cells: seq<Object>, base: nat, room: nat): seq<Object>
    requires base + room < |cells| && CodeOk(ip, room)
  {
    if Continues(ip) then Run(ip.next, cells, base, room) else cells
  }

  /** The instructions up to ip have been executed. */
  ghost predicate Along(code: Code, was: Stack, ip: Code, now: Stack, base: nat, room: nat)
    requires base + room < |was.cells|
  {
    && now == was.(cells := now.cells) && base + room < |now.cells|
    && (CodeOk(code, room) ==> CodeOk(ip, room) && Run(code, was.cells, base, room) == Left(ip, now.cells, base, room))
  }

  lemma {:induction false} AlongStep(code: Code, was: Stack, ip: Code, now: Stack, after: Stack, base: nat, room: nat)
    requires base + room < |was.cells| && Along(code, was, ip, now, base, room) && Continues(ip) && StepOk(ip.next, room)
    requires after == now.(cells := Stepped(ip.next, now.cells, base, room))
    ensures Along(code, was, ip.next, after, base, room)
  {
  }

  method ExecutionLoop(process: ProcessStack, code: Code, ghost base: nat, ghost room: nat) returns (alive: bool)
    requires InFrame(process.Value(), base, room) && Formed(code, room, 0)
    modifies process, process.stack
    ensures alive == Alive(code) && (alive ==> CodeOk(code, room))
    ensures alive ==> process.Value() == old(process.Value()).(cells := Run(code, old(process.stack[..]), base, room))
    ensures alive ==> Kept(process.stack, old(process.stack), old(process.stack.Length)) && (process.stack != old(process.stack) ==> fresh(process.stack))
    decreases code, 2
  {
    CodeOkIff(code, room);
    var ip := code;
    alive := Instruction(process, ip, base, room, 0);
    var running := alive && Continues(ip);
    while running
      invariant ip == code || ip < code
      invariant running ==> alive && Continues(ip) && Formed(ip, room, 0)
      invariant alive && !running ==> Alive(ip) && !Continues(ip)
      invariant Alive(code) == (alive && (running ==> Alive(ip.next)))
      invariant alive ==> Kept(process.stack, old(process.stack), old(process.stack.Length)) && (process.stack != old(process.stack) ==> fresh(process.stack))
      invariant alive ==> Along(code, old(process.Value()), ip, process.Value(), base, room)
      decreases ip, running
    {
      ghost var carriers := if ip.FunctionCall? then |ip.args| - 1 else 0;
      ghost var at, now := ip, process.Value();
      ip := ip.next;
      alive := Instruction(process, ip, base, room, carriers);
      running := alive && Continues(ip);
      if alive { AlongStep(code, old(process.Value()), at, now, process.Value(), base, room); }
    }
  }

  method Instruction(process: ProcessStack, ip: Code, ghost base: nat, ghost room: nat, ghost carriers: nat) returns (alive: bool)
    requires InFrame(process.Value(), base, room) && Formed(ip, room, carriers)
    modifies process, process.stack
    ensures alive == (!ip.Carrier? && (ip.FunctionCall? ==> Alive(ip.body))) && (alive ==> StepOk(ip, room))
    ensures alive ==> carriers == 0 && process.Value() == old(process.Value()).(cells := Stepped(ip, old(process.stack[..]), base, room))
    ensures alive ==> Kept(process.stack, old(process.stack), old(process.stack.Length)) && (process.stack != old(process.stack) ==> fresh(process.stack))
    decreases ip, 1
  {
    alive := true;
    match ip
    case Op(to, compute, next) => WriteSlot(process, to, compute(process.stack[process.base..process.top + 1]));
    case FunctionCall(_, _, _, _, next) => alive := ExecuteFunction(process, ip, base, room);
    case Carrier(_) => alive := false;
    case Return =>
    case ReturnValue(from) => WriteSlot(process, 0, process.stack[process.base + from]);
  }

  method WriteSlot(process: ProcessStack, to: nat, value: Object)
    requires 0 <= process.base && process.base + to < process.stack.Length
    modifies process.stack
    ensures process.Value() == old(process.Value()).(cells := old(process.stack[..])[process.base + to := value])
  {
    process.Write(to, [value]);
    assert process.stack[..] == old(process.stack[..])[process.base + to := value];
  }
}

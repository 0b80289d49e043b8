/**
 The stack of one process, as a value: frames are kept as offsets, because
 the memory behind them moves when it grows.
 */
module Frames {

  type Object = int  // the 64-bit payload of a slot

  const NIL: Object := 0

  /** The boolean in a slot is its low byte; writing it leaves the other bytes alone. */
  predicate True(x: Object) {
    x % 0x100 != 0
  }

  function Flagged(x: Object, b: bool): (r: Object)
    ensures True(r) <==> b
  {
    x - x % 0x100 + if b then 1 else 0
  }

  /** The low byte becomes 1 or 0, and no other byte changes. */
  lemma OneByte(x: Object, b: bool)
    ensures Flagged(x, b) % 0x100 == (if b then 1 else 0) && Flagged(x, b) / 0x100 == x / 0x100
  {
    assert x == 0x100 * (x / 0x100) + x % 0x100;
  }

  /** The layout of a compiled function: [parameters][constants][locals][temporaries]. */
  datatype Function = Function(
    reuseContext: bool,
    isWhenEval: bool,
    isConstructor: bool,
    parametersStart: nat,
    constantsStart: nat,
    localsStart: nat,
    tempStart: nat,
    tempEnd: nat,
    storage: nat,
    constants: seq<Object>)

  /** What code generation guarantees of a layout: InitFunction, eople_vmcode_gen.cpp:1229-1260. */
  predicate Laid(f: Function) {
    && f.parametersStart <= f.constantsStart <= f.localsStart <= f.tempStart <= f.tempEnd
    && |f.constants| == f.localsStart - f.constantsStart
  }

  function Parameters(f: Function): nat
    requires Laid(f)
  {
    f.constantsStart - f.parametersStart
  }

  function Locals(f: Function): nat
    requires Laid(f)
  {
    f.tempStart - f.localsStart
  }

  datatype Frame = Frame(bp: int, sp: int, tp: int)

  /** `cells` is the allocated memory; `base`, `top` and `temps` are offsets into it. */
  datatype Stack = Stack(cells: seq<Object>, base: int, top: int, temps: int, frames: seq<Frame>)

  const EMPTY := Stack([], 0, 0, 0, [])

  /** The slot at `top` exists: a called function leaves its result there. */
  predicate Roomy(s: Stack) {
    0 <= s.base <= s.top < |s.cells|
  }

  /** What SetupStackFrame needs: a stack that is in use, or one not allocated yet. */
  predicate Usable(s: Stack) {
    Roomy(s) || (s.cells == [] && s.base == 0 && s.top == 0)
  }

  function Zeros(n: nat): (r: seq<Object>)
    ensures |r| == n && forall i :: 0 <= i < n ==> r[i] == NIL
  {
    seq(n, _ => NIL)
  }

  predicate IsSplice(cells: seq<Object>, at: nat, xs: seq<Object>, r: seq<Object>) {
    && |r| == |cells|
    && forall i {:trigger r[i]} :: 0 <= i < |cells| ==> r[i] == if at <= i < at + |xs| then xs[i - at] else cells[i]
  }

  /** memcpy or memmove of xs to offset `at`: the memory with xs there and its old contents elsewhere. */
  ghost function Splice(cells: seq<Object>, at: nat, xs: seq<Object>): (r: seq<Object>)
    requires at + |xs| <= |cells|
    ensures IsSplice(cells, at, xs, r)
  {
    assert IsSplice(cells, at, xs, cells[..at] + xs + cells[at + |xs|..]);
    var r :| IsSplice(cells, at, xs, r);
    r
  }

  predicate IsGrown(cells: seq<Object>, size: nat, r: seq<Object>) {
    && |r| == (if size < |cells| then |cells| else size)
    && forall i {:trigger r[i]} :: 0 <= i < |r| ==> r[i] == if i < |cells| then cells[i] else NIL
  }

  /** The memory with zeros after its old contents, up to `size` slots. */
  ghost function Grown(cells: seq<Object>, size: nat): (r: seq<Object>)
    ensures IsGrown(cells, size, r) && (size <= |cells| ==> r == cells)
  {
    assert IsGrown(cells, size, if size < |cells| then cells else cells + Zeros(size - |cells|));
    var r :| IsGrown(cells, size, r);
    r
  }

  // ---------------------------------------------------------------- frames

  function Pushed(s: Stack): Stack {
    s.(frames := s.frames + [Frame(s.base, s.top, s.temps)])
  }

  function Popped(s: Stack): Stack {
    if s.frames == [] then s
    else
      var frame := s.frames[|s.frames| - 1];
      s.(base := frame.bp, top := frame.sp, temps := frame.tp, frames := s.frames[..|s.frames| - 1])
  }

  /** The offsets of a frame set up for f on top of s. */
  function FrameOf(s: Stack, f: Function): Frame {
    var base := if f.reuseContext then s.base else s.top;
    Frame(base,
          if f.isWhenEval then base + f.tempEnd else s.top + f.storage,
          f.tempStart + if f.reuseContext then 0 else base)
  }

  ghost function Entered(s: Stack, f: Function): (r: Stack)
    requires Usable(s)
    ensures r.top < |r.cells| && |s.cells| <= |r.cells|
    ensures forall i {:trigger r.cells[i]} :: 0 <= i < |s.cells| ==> r.cells[i] == s.cells[i]
    ensures Popped(r) == s.(cells := r.cells)
  {
    var frame := FrameOf(s, f);
    Stack(Grown(s.cells, frame.sp + 1), frame.bp, frame.sp, frame.tp, Pushed(s).frames)
  }

  /** The frame of a plain function starts where the caller's ends.  A method stays at the base of its caller, where
      the class members are, and takes its room above the caller's top; a when block takes the frame of the function
      it stands in.  The temporaries of both are counted from the bottom of the stack, so they are in the frame's
      own place only when the frame is at the bottom. */
  lemma FrameKinds(s: Stack, f: Function)
    requires Usable(s)
    ensures var r := Entered(s, f);
      && (!f.reuseContext && !f.isWhenEval ==> r.base == s.top && r.top == s.top + f.storage)
      && (f.reuseContext && !f.isWhenEval ==> r.base == s.base && r.top == s.top + f.storage)
      && (f.reuseContext && f.isWhenEval ==> r.base == s.base && r.top == s.base + f.tempEnd)
      && (r.temps == r.base + f.tempStart <==> !f.reuseContext || s.base == 0)
      && (f.reuseContext ==> r.temps == f.tempStart)
      && |r.cells| == if r.top < |s.cells| then |s.cells| else r.top + 1
  {
  }

  // ---------------------------------------------------------------- the contents of a frame

  predicate Fits(s: Stack, from: int, n: nat) {
    0 <= s.base + from && s.base + from + n <= |s.cells|
  }

  ghost function Put(s: Stack, offset: int, xs: seq<Object>): Stack
    requires Fits(s, offset, |xs|)
  {
    s.(cells := Splice(s.cells, s.base + offset, xs))
  }

  function Get(s: Stack, offset: int, n: nat): seq<Object>
    requires Fits(s, offset, n)
  {
    s.cells[s.base + offset..s.base + offset + n]
  }

  ghost function Constants(s: Stack, f: Function): Stack
    requires Fits(s, f.constantsStart, |f.constants|)
  {
    Put(s, f.constantsStart, f.constants)
  }

  ghost function Cleared(s: Stack, f: Function): Stack
    requires Laid(f) && Fits(s, f.localsStart, Locals(f))
  {
    Put(s, f.localsStart, Zeros(Locals(f)))
  }

  // ---------------------------------------------------------------- arguments

  /** One instruction: the four operands are offsets from stack_base. */
  datatype VMCode = VMCode(a: nat, b: nat, c: nat, d: nat)

  /** All operands of a run of instructions. */
  function Operands(code: seq<VMCode>): seq<nat> {
    if code == [] then [] else [code[0].a, code[0].b, code[0].c, code[0].d] + Operands(code[1..])
  }

  function Operand(code: VMCode, slot: nat): nat {
    if slot == 0 then code.a else if slot == 1 then code.b else if slot == 2 then code.c else code.d
  }

  lemma {:induction false} OperandAt(code: seq<VMCode>, at: nat, slot: nat)
    requires slot < 4 && 4 * at + slot < |Operands(code)|
    ensures at < |code| && Operands(code)[4 * at + slot] == Operand(code[at], slot)
  {
    if at > 0 {
      OperandAt(code[1..], at - 1, slot);
      assert Operands(code)[4 * at + slot] == Operands(code[1..])[4 * (at - 1) + slot];
    }
  }

  /** The arguments stand among the operands of the call instruction and those after it: operand a of the
      call names the function, and operand b of a constructor call the new process. */
  function ArgPlace(f: Function): nat {
    if f.isConstructor then 2 else 1
  }

  predicate HasArgs(f: Function, code: seq<VMCode>)
    requires Laid(f)
  {
    Parameters(f) == 0 || ArgPlace(f) + Parameters(f) <= |Operands(code)|
  }

  function ArgOperands(f: Function, code: seq<VMCode>): (r: seq<nat>)
    requires Laid(f) && HasArgs(f, code)
    ensures |r| == Parameters(f)
  {
    Picked(Operands(code), ArgPlace(f), Parameters(f))
  }

  function Picked(operands: seq<nat>, from: nat, n: nat): (r: seq<nat>)
    requires n == 0 || from + n <= |operands|
    ensures |r| == n
  {
    if n == 0 then [] else Picked(operands, from, n - 1) + [operands[from + n - 1]]
  }

  lemma {:induction false} PickedAt(operands: seq<nat>, from: nat, n: nat, k: nat)
    requires k < n && from + n <= |operands|
    ensures Picked(operands, from, n)[k] == operands[from + k]
  {
    if k < n - 1 { PickedAt(operands, from, n - 1, k); }
  }

  /** Walking through the operands one by one, as the copy does. */
  lemma ArgAt(f: Function, code: seq<VMCode>, k: nat, at: nat, slot: nat)
    requires Laid(f) && HasArgs(f, code) && k < Parameters(f) && slot < 4 && 4 * at + slot == ArgPlace(f) + k
    ensures at < |code| && Operand(code[at], slot) == ArgOperands(f, code)[k]
  {
    OperandAt(code, at, slot);
    PickedAt(Operands(code), ArgPlace(f), Parameters(f), k);
  }

  /** Every instruction has four operands. */
  lemma {:induction false} OperandCount(code: seq<VMCode>)
    ensures |Operands(code)| == 4 * |code|
  {
    if code != [] { OperandCount(code[1..]); }
  }

  /** The arguments by the fields that hold them.  Those of a plain call are b, c, d of the call and then all four
      operands of each instruction that follows; a constructor call has only c and d to give. */
  lemma {:induction false} ArgumentFields(f: Function, code: seq<VMCode>, m: nat)
    requires Laid(f) && HasArgs(f, code)
    ensures var xs := ArgOperands(f, code);
      && (0 < |xs| ==> 0 < |code|)
      && (!f.isConstructor ==>
          && (0 < |xs| ==> xs[0] == code[0].b)
          && (1 < |xs| ==> xs[1] == code[0].c)
          && (2 < |xs| ==> xs[2] == code[0].d)
          && (3 + 4 * m < |xs| ==> 1 + m < |code| && xs[3 + 4 * m] == code[1 + m].a)
          && (4 + 4 * m < |xs| ==> xs[4 + 4 * m] == code[1 + m].b)
          && (5 + 4 * m < |xs| ==> xs[5 + 4 * m] == code[1 + m].c)
          && (6 + 4 * m < |xs| ==> xs[6 + 4 * m] == code[1 + m].d))
      && (f.isConstructor ==>
          && (0 < |xs| ==> xs[0] == code[0].c)
          && (1 < |xs| ==> xs[1] == code[0].d)
          && (2 + 4 * m < |xs| ==> 1 + m < |code| && xs[2 + 4 * m] == code[1 + m].a)
          && (3 + 4 * m < |xs| ==> xs[3 + 4 * m] == code[1 + m].b)
          && (4 + 4 * m < |xs| ==> xs[4 + 4 * m] == code[1 + m].c)
          && (5 + 4 * m < |xs| ==> xs[5 + 4 * m] == code[1 + m].d))
  {
    var n, first := Parameters(f), ArgPlace(f);
    OperandCount(code);
    if 0 < n { ArgAt(f, code, 0, 0, first); }
    if 1 < n { ArgAt(f, code, 1, 0, first + 1); }
    if 2 < n && !f.isConstructor { ArgAt(f, code, 2, 0, 3); }
    var k := 4 - first + 4 * m;
    if k < n { ArgAt(f, code, k, 1 + m, 0); }
    if k + 1 < n { ArgAt(f, code, k + 1, 1 + m, 1); }
    if k + 2 < n { ArgAt(f, code, k + 2, 1 + m, 2); }
    if k + 3 < n { ArgAt(f, code, k + 3, 1 + m, 3); }
  }

  /** The operands, counted from offset src, lie below the limit. */
  predicate ArgsBelow(operands: seq<nat>, src: int, limit: int) {
    forall k :: 0 <= k < |operands| ==> 0 <= src + operands[k] < limit
  }

  function Args(operands: seq<nat>, cells: seq<Object>, src: int): (r: seq<Object>)
    requires ArgsBelow(operands, src, |cells|)
    ensures |r| == |operands|
  {
    if operands == [] then []
    else
      var last := |operands| - 1;
      Args(operands[..last], cells, src) + [cells[src + operands[last]]]
  }

  lemma {:induction false} ArgsAt(operands: seq<nat>, cells: seq<Object>, src: int, k: nat)
    requires ArgsBelow(operands, src, |cells|) && k < |operands|
    ensures Args(operands, cells, src)[k] == cells[src + operands[k]]
  {
    var last := |operands| - 1;
    if k < last { ArgsAt(operands[..last], cells, src, k); }
  }

  /** Where they go: for a constructor after the `this` slot at the bottom of the stack. */
  function ArgsStart(s: Stack, f: Function): int {
    if f.isConstructor then 1 else s.base
  }

  /** What PushArgs leaves behind: the arguments of a plain call at the base of the frame, those of a constructor from
      slot 1 of the stack on, after the `this` slot, and the rest as it was. */
  lemma {:induction false} ArgumentsLand(s: Stack, f: Function, code: seq<VMCode>, src: seq<Object>, from: int)
    requires Laid(f) && HasArgs(f, code) && ArgsBelow(ArgOperands(f, code), from, |src|)
    requires 0 <= ArgsStart(s, f) && ArgsStart(s, f) + Parameters(f) <= |s.cells|
    ensures
      var r, xs := Splice(s.cells, ArgsStart(s, f), Args(ArgOperands(f, code), src, from)), ArgOperands(f, code);
      var dest := if f.isConstructor then 1 else s.base;
      && |xs| == f.constantsStart - f.parametersStart
      && forall i {:trigger r[i]} :: 0 <= i < |r| ==> r[i] == if dest <= i < dest + |xs| then src[from + xs[i - dest]] else s.cells[i]
  {
    var xs, dest := ArgOperands(f, code), ArgsStart(s, f);
    var args := Args(xs, src, from);
    var r := Splice(s.cells, dest, args);
    forall i | 0 <= i < |r| && dest <= i < dest + |xs| ensures r[i] == src[from + xs[i - dest]] {
      ArgsAt(xs, src, from, i - dest);
      assert r[i] == args[i - dest];
    }
  }

  // ---------------------------------------------------------------- closures

  /** What a when block captured, and the base offset it goes back to. */
  datatype Closure = Closure(base: int, state: seq<Object>)

  /** The parameters, constants and locals of f. */
  function CaptureSize(f: Function): nat
    requires Laid(f)
  {
    Locals(f) + Parameters(f) + |f.constants|
  }

  /** Nothing to capture gives a default ClosureState, whose base offset is 0. */
  function Captured(s: Stack, f: Function): Closure
    requires Laid(f) && Fits(s, f.parametersStart, CaptureSize(f))
  {
    if CaptureSize(f) == 0 then Closure(0, []) else Closure(s.base, Get(s, f.parametersStart, CaptureSize(f)))
  }

  function Moved(s: Stack, base: int): Stack {
    s.(base := base, top := s.top + (base - s.base), temps := s.temps + (base - s.base))
  }

  ghost function Applied(s: Stack, f: Function, c: Closure): Stack
    requires Fits(Moved(s, c.base), f.parametersStart, |c.state|)
  {
    Put(Moved(s, c.base), f.parametersStart, c.state)
  }
}

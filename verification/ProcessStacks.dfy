/** ProcessStack of eople_core.h: memory that is reallocated when a frame does not fit. */
module ProcessStacks {
  import opened Frames

  class ProcessStack {
    var stack: array<Object>
    var base: int
    var top: int
    var temps: int
    var frames: seq<Frame>

    /** The whole state: a pointer into the stack is its offset. */
    ghost function Value(): Stack
      reads this, stack
    {
      Stack(stack[..], base, top, temps, frames)
    }

    constructor ()
      ensures Value() == EMPTY && fresh(stack)
    {
      stack := new Object[0];
      base, top, temps, frames := 0, 0, 0, [];
    }

    /** Makes room for `size` slots and one more; the old contents stay and the new slots are zero. */
    method ReallocStack(size: nat)
      requires stack.Length <= size + 1
      modifies this`stack
      ensures fresh(stack)
      ensures Value() == old(Value()).(cells := Grown(old(stack[..]), size + 1))
      ensures stack.Length == size + 1 && stack[..old(stack.Length)] == old(stack[..])
      ensures forall i :: old(stack.Length) <= i < stack.Length ==> stack[i] == 0
    {
      var data := new Object[size + 1];
      forall i | 0 <= i < stack.Length { data[i] := stack[i]; }
      forall i | stack.Length <= i < size + 1 { data[i] := NIL; }
      assert data[..] == Grown(stack[..], size + 1);
      stack := data;
    }

    method PushStackFrame()
      modifies this`frames
      ensures Value() == Pushed(old(Value()))
    {
      frames := frames + [Frame(base, top, temps)];
    }

    method PopStackFrame()
      modifies this`base, this`top, this`temps, this`frames
      ensures Value() == Popped(old(Value()))
    {
      if frames != [] {
        var frame := frames[|frames| - 1];
        frames := frames[..|frames| - 1];
        base, top, temps := frame.bp, frame.sp, frame.tp;
      }
    }

    method SetupStackFrame(f: Function)
      requires Usable(Value())
      modifies this
      ensures Value() == Entered(old(Value()), f)
      ensures stack == old(stack) || (fresh(stack) && old(stack.Length) < stack.Length)
      ensures stack == old(stack) <==> FrameOf(old(Value()), f).sp + 1 <= |old(stack[..])|
    {
      PushStackFrame();
      base := if f.reuseContext then base else top;
      top := if f.isWhenEval then base + f.tempEnd else top + f.storage;
      temps := f.tempStart + if f.reuseContext then 0 else base;
      if top + 1 > stack.Length {
        ReallocStack(top);
      } else {
        assert Grown(stack[..], top + 1) == stack[..];
      }
    }

    /** memcpy into the frame; the source's assertion is the precondition. */
    method Write(offset: int, xs: seq<Object>)
      requires Fits(Value(), offset, |xs|)
      modifies stack
      ensures Value() == Put(old(Value()), offset, xs)
    {
      forall i | 0 <= i < |xs| { stack[base + offset + i] := xs[i]; }
      assert stack[..] == Splice(old(stack[..]), base + offset, xs);
    }

    method InitializeLocals(f: Function)
      requires Laid(f) && Fits(Value(), f.localsStart, Locals(f))
      modifies stack
      ensures Value() == Cleared(old(Value()), f)
    {
      Write(f.localsStart, Zeros(Locals(f)));
    }

    method PushConstants(f: Function)
      requires Laid(f) && Fits(Value(), f.constantsStart, |f.constants|)
      modifies stack
      ensures Value() == Constants(old(Value()), f)
    {
      Write(f.constantsStart, f.constants);
    }

    /** Copies the operands of the call one at a time: eople_core.h:330-388.  A call in the same process
        names operands below the slots that are filled. */
    method PushArgs(f: Function, code: seq<VMCode>, src: array<Object>, from: int)
      requires Laid(f) && HasArgs(f, code) && ArgsBelow(ArgOperands(f, code), from, src.Length)
      requires 0 <= ArgsStart(Value(), f) && ArgsStart(Value(), f) + Parameters(f) <= stack.Length
      requires src == stack ==> ArgsBelow(ArgOperands(f, code), from, ArgsStart(Value(), f))
      modifies stack
      ensures Value() == old(Value()).(
                cells := Splice(old(stack[..]), ArgsStart(old(Value()), f), Args(ArgOperands(f, code), old(src[..]), from)))
    {
      ghost var operands := ArgOperands(f, code);
      ghost var args := Args(operands, src[..], from);
      var n, dest, at, slot, k := f.constantsStart - f.parametersStart, if f.isConstructor then 1 else base, 0, ArgPlace(f), 0;
      while k < n
        invariant 0 <= k <= n && slot < 4 && 4 * at + slot == ArgPlace(f) + k
        invariant forall i :: 0 <= i < stack.Length ==> stack[i] == if dest <= i < dest + k then args[i - dest] else old(stack[i])
      {
        ArgAt(f, code, k, at, slot);
        var operand := Operand(code[at], slot);
        ArgsAt(operands, old(src[..]), from, k);
        stack[dest + k] := src[from + operand];
        k := k + 1;
        if slot < 3 { slot := slot + 1; } else { at, slot := at + 1, 0; }
      }
      assert stack[..] == Splice(old(stack[..]), dest, args);
    }

    method CaptureClosure(f: Function) returns (c: Closure)
      requires Laid(f) && Fits(Value(), f.parametersStart, CaptureSize(f))
      ensures c == Captured(Value(), f)
      ensures if f.parametersStart == f.tempStart then c == Closure(0, [])
              else c == Closure(base, stack[base + f.parametersStart..base + f.tempStart])
    {
      var n := Locals(f) + Parameters(f) + |f.constants|;
      if n != 0 {
        c := Closure(base, stack[base + f.parametersStart..base + f.parametersStart + n]);
        assert c.state == Get(Value(), f.parametersStart, n);
      } else {
        c := Closure(0, []);
      }
    }

    method ApplyClosureState(f: Function, c: Closure)
      requires Fits(Moved(Value(), c.base), f.parametersStart, |c.state|)
      modifies this`base, this`top, this`temps, stack
      ensures Value() == Applied(old(Value()), f, c)
    {
      var old_base := base;
      base := c.base;
      top := top + (base - old_base);
      temps := temps + (base - old_base);
      Write(f.parametersStart, c.state);
    }

    /** memmove inside the frame: the two segments may overlap. */
    method ShiftSegment(from: nat, to: nat, size: nat)
      requires Fits(Value(), from, size) && Fits(Value(), to, size)
      modifies stack
      ensures Value() == Put(old(Value()), to, Get(old(Value()), from, size))
    {
      var segment := stack[base + from..base + from + size];
      assert segment == Get(Value(), from, size);
      Write(to, segment);
    }
  }
}

/** Whole programs: statements for which code is generated and run, from the frame they start with to the one they
    leave. */
module Programs {
  import opened Options
  import opened Frames
  import opened Loops
  import opened LoopCode
  import opened Generation

  lemma {:induction false} OneInstruction(to: nat, compute: seq<Object> -> Object)
    ensures Formed(Do(to, compute, Done)) && Lost(Do(to, compute, Done), false) == 0
  {
    assert Formed(Done) && Lost(Done, false) == 0;
  }

  /** An If with an else, each of one instruction: on a comparison of two slots the first is executed exactly when it
      holds, on a slot exactly when the low byte of the slot is not 0. */
  lemma {:induction false} BranchRuns(
      code: seq<Instr>, condition: Condition, x: nat, f: seq<Object> -> Object, y: nat, g: seq<Object> -> Object, mem: seq<Object>)
    requires x < |mem| && y < |mem|
    requires match condition case Less(a, b, _) => a < |mem| && b < |mem| case Bare(b) => b < |mem| && !EndsInLess(code)
    ensures var p := If(condition, Do(x, f, Done), false, Do(y, g, Done), Done);
      var holds := match condition case Less(a, b, _) => mem[a] < mem[b] case Bare(b) => mem[b] % 0x100 != 0;
      && Formed(p)
      && Run(Gen(code, p), |code|, |Gen(code, p)|, mem) == Some(if holds then mem[x := f(mem)] else mem[y := g(mem)])
  {
    var first, second := Do(x, f, Done), Do(y, g, Done);
    var p := If(condition, first, false, second, Done);
    OneInstruction(x, f);
    OneInstruction(y, g);
    assert Formed(p) && Lost(p, EndsInLess(code)) == 0 by { assert Lost(Done, IfEnding(p)) == 0; }
    GeneratedRuns(code, p, mem);
    assert Eval(first, mem) == Some(mem[x := f(mem)]) && Eval(second, mem) == Some(mem[y := g(mem)]);
    var branch := EvalBranch(p, mem);
    assert branch.Some? && Eval(Done, branch.value) == branch;
  }

  /** A loop that adds its counter to slot s leaves the sum of the integers from the start value up to the limit, which
      it does not reach, in s. */
  lemma {:induction false} SumRuns(i: nat, from: nat, limit: nat, one: nat, s: nat, add: seq<Object> -> Object, mem: seq<Object>)
    requires i < |mem| && from < |mem| && limit < |mem| && one < |mem| && s < |mem| && {i, s} !! {limit, one} && i != s
    requires (forall m: seq<Object> :: s < |m| && i < |m| ==> add(m) == m[s] + m[i]) && mem[one] == 1
    requires Word(mem[from]) && Word(mem[limit])
    ensures var p := For(i, from, limit, one, Do(s, add, Done), Done);
      var r := Run(Gen([], p), 0, |Gen([], p)|, mem);
      && Formed(p) && r.Some? && |r.value| == |mem|
      && (mem[from] < mem[limit] ==> 2 * (r.value[s] - mem[s]) == (mem[limit] - mem[from]) * (mem[limit] + mem[from] - 1))
      && (mem[from] >= mem[limit] ==> r.value[s] == mem[s])
  {
    var body := Do(s, add, Done);
    var p := For(i, from, limit, one, body, Done);
    OneInstruction(s, add);
    assert Formed(p) && Lost(p, false) == 0 by { assert Lost(Done, Ending(body, false)) == 0; }
    GeneratedRuns([], p, mem);
    OneLoop(i, from, limit, one, body, mem);
    SumLoop(i, mem[from], mem[limit], mem[one], s, add, mem[i := mem[from]]);
  }

  lemma {:induction false} OneLoop(i: nat, from: nat, limit: nat, one: nat, body: Stmt, mem: seq<Object>)
    requires i < |mem| && from < |mem| && limit < |mem| && one < |mem| && i != limit && i != one
    ensures Eval(For(i, from, limit, one, body, Done), mem)
      == EvalLoop(body, i, mem[from], mem[limit], mem[one], mem[i := mem[from]])
  {
    var p, mem1 := For(i, from, limit, one, body, Done), mem[i := mem[from]];
    assert SetSlot(mem, i, Slot(mem, from)) == mem1;
    assert Slot(mem1, i) == mem[from] && Slot(mem1, limit) == mem[limit] && Slot(mem1, one) == mem[one];
    var end := EvalLoop(body, i, mem[from], mem[limit], mem[one], mem1);
    assert end.Some? ==> Eval(Done, end.value) == end;
    assert Eval(p, mem) == if end.None? then None else Eval(Done, end.value);
  }

  lemma {:induction false} SumLoop(i: nat, k: int, limit: int, one: int, s: nat, add: seq<Object> -> Object, mem: seq<Object>)
    requires i < |mem| && s < |mem| && i != s && Word(k) && Word(limit) && one == 1
    requires forall m: seq<Object> :: s < |m| && i < |m| ==> add(m) == m[s] + m[i]
    ensures var r := EvalLoop(Do(s, add, Done), i, k, limit, one, mem);
      && r.Some? && |r.value| == |mem|
      && (k < limit ==> 2 * (r.value[s] - mem[s]) == (limit - k) * (limit + k - 1))
      && (k >= limit ==> r.value[s] == mem[s])
    decreases limit - k
  {
    if k < limit {
      var turn := mem[i := k][s := mem[s] + k];
      assert Eval(Do(s, add, Done), mem[i := k]) == Some(turn);
      SumLoop(i, k + 1, limit, one, s, add, turn);
      assert (limit - k) * (limit + k - 1) == 2 * k + (limit - (k + 1)) * (limit + (k + 1) - 1);
    }
  }
}

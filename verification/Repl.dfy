/** The interactive session: its function is compiled again with every line, and the stack is shifted so that
    the registers of the grown symbol table find the values they had. */
module Repl {
  import opened Options
  import opened Frames
  import opened ProcessStacks
  import opened Symbols

  // ---------------------------------------------------------------- one shift

  /** IncrementalStackShift, eople_core.h:593-625, on the frame at `base`; `consts` and `locals` are the counts
      of the round before. */
  ghost function Shifted(cells: seq<Object>, base: nat, f: Function, consts: nat, locals: nat): (r: seq<Object>)
    requires Laid(f) && consts <= |f.constants| && locals <= Locals(f) && base + f.tempStart <= |cells|
    ensures |r| == |cells|
  {
    var from := f.constantsStart + consts;
    if f.localsStart == from then cells
    else Splice(LocalsShifted(cells, base, f, from, locals), base + from, f.constants[consts..])
  }

  /** The locals moved up, and the new ones after them cleared. */
  ghost function LocalsShifted(cells: seq<Object>, base: nat, f: Function, from: nat, locals: nat): (r: seq<Object>)
    requires Laid(f) && locals <= Locals(f) && from <= f.localsStart && base + f.tempStart <= |cells|
    ensures |r| == |cells|
  {
    var moved := Splice(cells, base + f.localsStart, cells[base + from..base + from + locals]);
    Splice(moved, base + f.localsStart + locals, Zeros(Locals(f) - locals))
  }

  /** The shifted frame, slot by slot. */
  predicate ShiftedTo(cells: seq<Object>, base: nat, f: Function, consts: nat, locals: nat, r: seq<Object>)
    requires Laid(f) && consts <= |f.constants| && locals <= Locals(f) && base + f.tempStart <= |cells|
  {
    && |r| == |cells|
    && (forall i {:trigger r[i]} :: 0 <= i < base + f.constantsStart + consts ==> r[i] == cells[i])
    && (forall i {:trigger r[i]} :: base + f.constantsStart + consts <= i < base + f.localsStart ==>
          r[i] == f.constants[i - base - f.constantsStart])
    && (forall i {:trigger r[i]} :: base + f.localsStart <= i < base + f.localsStart + locals ==>
          r[i] == cells[i - f.localsStart + f.constantsStart + consts])
    && (consts < |f.constants| ==> forall i {:trigger r[i]} :: base + f.localsStart + locals <= i < base + f.tempStart ==> r[i] == NIL)
  }

  lemma ShiftedAt(cells: seq<Object>, base: nat, f: Function, consts: nat, locals: nat)
    requires Laid(f) && consts <= |f.constants| && locals <= Locals(f) && base + f.tempStart <= |cells|
    ensures ShiftedTo(cells, base, f, consts, locals, Shifted(cells, base, f, consts, locals))
  {
  }

  // ---------------------------------------------------------------- one round

  /** The table after more symbols have been added. */
  predicate Extends(t: Table, t1: Table) {
    && |t.entries| <= |t1.entries| && t.consts <= t1.consts && t.vars <= t1.vars
    && (forall i :: 0 <= i < |t.entries| ==> t1.entries[i] == t.entries[i])
    && (forall i :: |t.entries| <= i < |t1.entries| ==> t1.entries[i].index >= if t1.entries[i].constant then t.consts else t.vars)
  }

  /** The table after GetTableEntryIndex has added the given symbols, each a constant or a variable. */
  function AddedAll(t: Table, adds: seq<(string, bool)>): Table
    decreases |adds|
  {
    if adds == [] then t
    else
      var last := |adds| - 1;
      Added(AddedAll(t, adds[..last]), adds[last].0, adds[last].1)
  }

  /** Each symbol is new when it is added; GetTableEntryIndex finds the others. */
  predicate AllNew(t: Table, adds: seq<(string, bool)>)
    decreases |adds|
  {
    adds == [] || (AllNew(t, adds[..|adds| - 1]) && adds[|adds| - 1].0 !in AddedAll(t, adds[..|adds| - 1]).names)
  }

  /** So a round that only adds symbols keeps the table sound and extends it. */
  lemma {:induction false} AddingExtends(t: Table, adds: seq<(string, bool)>)
    requires Sound(t) && AllNew(t, adds)
    ensures Sound(AddedAll(t, adds)) && Extends(t, AddedAll(t, adds))
    decreases |adds|
  {
    if adds != [] {
      var last := |adds| - 1;
      var t1 := AddedAll(t, adds[..last]);
      AddingExtends(t, adds[..last]);
      AddedSound(t1, adds[last].0, adds[last].1);
      AddedExtends(t, t1, adds[last].0, adds[last].1);
    }
  }

  lemma AddedExtends(t: Table, t1: Table, name: string, constant: bool)
    requires Extends(t, t1)
    ensures Extends(t, Added(t1, name, constant))
  {
  }

  /** The function compiled from the table; `first` counts `this` and the parameters, which the table keeps as
      its first constants (InitFunction, eople_vmcode_gen.cpp:1229-1260). */
  predicate Compiled(f: Function, t: Table, first: nat) {
    && Laid(f) && !f.reuseContext && !f.isWhenEval
    && f.constantsStart == first && f.localsStart == t.consts && f.tempStart == t.consts + t.vars
    && f.storage == f.tempEnd
  }

  /** The frame at `base` gives every symbol the value the map gives its name. */
  ghost predicate Holds(cells: seq<Object>, base: nat, t: Table, m: map<string, Object>) {
    && base + SymbolCount(t) <= |cells|
    && (forall i {:trigger Register(t, i)} :: 0 <= i < |t.entries| ==>
          Register(t, i) < SymbolCount(t) && t.entries[i].ident in m && cells[base + Register(t, i)] == m[t.entries[i].ident])
  }

  /** What a round does to the map before its code runs: old symbols keep their values, a new constant has
      its compiled value, and a new variable is zero when the round brought a constant. */
  ghost predicate RoundMap(m: map<string, Object>, t: Table, t1: Table, f: Function, first: nat, m1: map<string, Object>) {
    forall i :: 0 <= i < |t1.entries| ==> t1.entries[i].ident in m1 && SymbolValue(m, t, t1, f, first, i, m1[t1.entries[i].ident])
  }

  ghost predicate SymbolValue(m: map<string, Object>, t: Table, t1: Table, f: Function, first: nat, i: nat, x: Object)
    requires i < |t1.entries|
  {
    var e := t1.entries[i];
    if i < |t.entries| then e.ident in m && x == m[e.ident]
    else if e.constant then 0 <= e.index - first < |f.constants| && x == f.constants[e.index - first]
    else t.consts < t1.consts ==> x == NIL
  }

  /** The map that the shifted frame shows. */
  ghost function Shown(cells: seq<Object>, base: nat, t: Table): (m: map<string, Object>)
    requires Sound(t) && base + SymbolCount(t) <= |cells|
  {
    map name | name in t.names :: Value(cells, base, t, t.names[name])
  }

  function Value(cells: seq<Object>, base: nat, t: Table, id: nat): Object
    requires base + SymbolCount(t) <= |cells|
  {
    if id < |t.entries| && Register(t, id) < SymbolCount(t) then cells[base + Register(t, id)] else NIL
  }

  lemma ShownHolds(cells: seq<Object>, base: nat, t: Table)
    requires Sound(t) && base + SymbolCount(t) <= |cells|
    ensures Holds(cells, base, t, Shown(cells, base, t))
  {
    forall i | 0 <= i < |t.entries|
      ensures Register(t, i) < SymbolCount(t) && t.entries[i].ident in t.names && t.names[t.entries[i].ident] == i
    {
      RegistersDistinct(t, i, i);
    }
  }

  lemma ShiftSymbol(
      cells: seq<Object>, base: nat, t: Table, m: map<string, Object>, t1: Table, f: Function, first: nat, i: nat, r: seq<Object>)
    requires Extends(t, t1) && Compiled(f, t1, first) && first <= t.consts
    requires Holds(cells, base, t, m) && base + f.tempStart <= |cells| && i < |t1.entries|
    requires t1.entries[i].index < if t1.entries[i].constant then t1.consts else t1.vars
    requires i < |t.entries| ==> t.entries[i].index < if t.entries[i].constant then t.consts else t.vars
    requires ShiftedTo(cells, base, f, t.consts - first, t.vars, r)
    ensures SymbolValue(m, t, t1, f, first, i, r[base + Register(t1, i)])
  {
    if i < |t.entries| {
      assert Register(t, i) < SymbolCount(t) && t.entries[i].ident in m;
      assert t1.entries[i] == t.entries[i] && cells[base + Register(t, i)] == m[t.entries[i].ident];
    }
  }

  /** After the shift the registers of the grown table show the old map, extended as RoundMap says.  When the
      round brings no constant, nothing moves and nothing is cleared: a new variable then shows what its slot
      held, a temporary of the round before perhaps. */
  lemma ShiftRefines(cells: seq<Object>, base: nat, t: Table, m: map<string, Object>, t1: Table, f: Function, first: nat)
    requires Sound(t) && Sound(t1) && Extends(t, t1) && Compiled(f, t1, first) && first <= t.consts
    requires Holds(cells, base, t, m) && base + f.tempStart <= |cells|
    ensures var r := Shifted(cells, base, f, t.consts - first, t.vars);
      && Holds(r, base, t1, Shown(r, base, t1))
      && RoundMap(m, t, t1, f, first, Shown(r, base, t1))
      && (t.consts == t1.consts ==> r == cells)
  {
    var r := Shifted(cells, base, f, t.consts - first, t.vars);
    ShiftedAt(cells, base, f, t.consts - first, t.vars);
    ShownHolds(r, base, t1);
    SymbolsShown(cells, base, t, m, t1, f, first, r);
  }

  lemma SymbolsShown(
      cells: seq<Object>, base: nat, t: Table, m: map<string, Object>, t1: Table, f: Function, first: nat, r: seq<Object>)
    requires Sound(t) && Sound(t1) && Extends(t, t1) && Compiled(f, t1, first) && first <= t.consts
    requires Holds(cells, base, t, m) && base + f.tempStart <= |cells|
    requires ShiftedTo(cells, base, f, t.consts - first, t.vars, r)
    ensures RoundMap(m, t, t1, f, first, Shown(r, base, t1))
  {
    var m1 := Shown(r, base, t1);
    forall i | 0 <= i < |t1.entries|
      ensures t1.entries[i].ident in m1 && SymbolValue(m, t, t1, f, first, i, m1[t1.entries[i].ident])
    {
      ShiftSymbol(cells, base, t, m, t1, f, first, i, r);
      ShownAt(r, base, t1, i);
    }
  }

  lemma ShownAt(cells: seq<Object>, base: nat, t: Table, i: nat)
    requires Sound(t) && base + SymbolCount(t) <= |cells| && i < |t.entries|
    ensures Register(t, i) < SymbolCount(t) && t.entries[i].ident in Shown(cells, base, t)
    ensures Shown(cells, base, t)[t.entries[i].ident] == cells[base + Register(t, i)]
  {
    RegistersDistinct(t, i, i);
  }

  // ---------------------------------------------------------------- the code of a round

  datatype Write = Write(offset: nat, x: Object)

  /** Code writes variables, temporaries and the slot for results, never constants. */
  predicate WritesOk(writes: seq<Write>, t: Table, f: Function) {
    forall i :: 0 <= i < |writes| ==> t.consts <= writes[i].offset <= f.storage
  }

  function Written(cells: seq<Object>, base: nat, writes: seq<Write>): (r: seq<Object>)
    ensures |r| == |cells|
    decreases |writes|
  {
    if writes == [] then cells
    else
      var w := writes[0];
      Written(if base + w.offset < |cells| then cells[base + w.offset := w.x] else cells, base, writes[1..])
  }

  ghost predicate Names(t: Table, name: string, offset: nat) {
    exists i :: 0 <= i < |t.entries| && t.entries[i].ident == name && Register(t, i) == offset
  }

  /** The same writes on the map: a write to the register of a variable changes that variable only. */
  ghost function MapWritten(m: map<string, Object>, t: Table, writes: seq<Write>): (r: map<string, Object>)
    ensures r.Keys == m.Keys
    decreases |writes|
  {
    if writes == [] then m
    else MapWritten(map name | name in m :: if Names(t, name, writes[0].offset) then writes[0].x else m[name], t, writes[1..])
  }

  lemma {:induction false} WritesRefine(cells: seq<Object>, base: nat, t: Table, f: Function, m: map<string, Object>, writes: seq<Write>)
    requires Sound(t) && Holds(cells, base, t, m) && WritesOk(writes, t, f) && base + f.storage < |cells|
    ensures Holds(Written(cells, base, writes), base, t, MapWritten(m, t, writes))
    decreases |writes|
  {
    if writes != [] {
      var w := writes[0];
      var m1 := map name | name in m :: if Names(t, name, w.offset) then w.x else m[name];
      OneWrite(cells, base, t, m, w, m1);
      WritesRefine(cells[base + w.offset := w.x], base, t, f, m1, writes[1..]);
    }
  }

  lemma OneWrite(cells: seq<Object>, base: nat, t: Table, m: map<string, Object>, w: Write, m1: map<string, Object>)
    requires Sound(t) && Holds(cells, base, t, m) && base + w.offset < |cells|
    requires m1 == map name | name in m :: if Names(t, name, w.offset) then w.x else m[name]
    ensures Holds(cells[base + w.offset := w.x], base, t, m1)
  {
    var cells1 := cells[base + w.offset := w.x];
    forall i | 0 <= i < |t.entries|
      ensures Register(t, i) < SymbolCount(t) && t.entries[i].ident in m1 && cells1[base + Register(t, i)] == m1[t.entries[i].ident]
    {
      OnlyRegister(t, i, w.offset);
    }
  }

  lemma OnlyRegister(t: Table, i: nat, offset: nat)
    requires Sound(t) && i < |t.entries|
    ensures Names(t, t.entries[i].ident, offset) <==> Register(t, i) == offset
  {
  }

  // ---------------------------------------------------------------- a session

  /** One line: the table and the function after it is compiled, and what its code writes. */
  datatype Round = Round(t: Table, f: Function, writes: seq<Write>)

  ghost predicate RoundOk(t: Table, r: Round, first: nat) {
    && Sound(r.t) && Extends(t, r.t) && Compiled(r.f, r.t, first) && WritesOk(r.writes, r.t, r.f)
  }

  /** ExecuteFunctionIncremental, eople_vm.cpp:538-542 and 633-636, with the counts of the round before. */
  ghost function Played(s: Stack, t: Table, r: Round, first: nat): Stack
    requires Usable(Popped(s)) && Compiled(r.f, r.t, first) && first <= t.consts <= r.t.consts && t.vars <= r.t.vars
  {
    var e := Entered(Popped(s), r.f);
    e.(cells := Written(Shifted(e.cells, e.base, r.f, t.consts - first, t.vars), e.base, r.writes))
  }

  /** Between rounds the frame of the session stays on the stack; it starts where it always did. */
  predicate Resting(s: Stack, base: nat) {
    Usable(Popped(s)) && Popped(s).top == base
  }

  ghost predicate Plays(m: map<string, Object>, t: Table, rounds: seq<Round>, first: nat, m1: map<string, Object>)
    decreases |rounds|
  {
    if rounds == [] then m1 == m
    else
      var r := rounds[0];
      exists mid {:trigger RoundMap(m, t, r.t, r.f, first, mid)} ::
        RoundMap(m, t, r.t, r.f, first, mid) && Plays(MapWritten(mid, r.t, r.writes), r.t, rounds[1..], first, m1)
  }

  ghost predicate RoundsOk(t: Table, rounds: seq<Round>, first: nat)
    decreases |rounds|
  {
    rounds == [] || (RoundOk(t, rounds[0], first) && RoundsOk(rounds[0].t, rounds[1..], first))
  }

  function End(t: Table, rounds: seq<Round>): Table {
    if rounds == [] then t else rounds[|rounds| - 1].t
  }

  lemma RoundRefines(s: Stack, base: nat, t: Table, m: map<string, Object>, r: Round, first: nat) returns (s1: Stack, mid: map<string, Object>)
    requires Sound(t) && first <= t.consts && RoundOk(t, r, first) && Resting(s, base) && Holds(s.cells, base, t, m)
    ensures s1 == Played(s, t, r, first) && Resting(s1, base)
    ensures RoundMap(m, t, r.t, r.f, first, mid) && Holds(s1.cells, base, r.t, MapWritten(mid, r.t, r.writes))
  {
    var cells := EnteredCells(s, base, r.f);
    HoldsLater(s.cells, base, t, m, cells);
    var shifted := Shifted(cells, base, r.f, t.consts - first, t.vars);
    ShiftRefines(cells, base, t, m, r.t, r.f, first);
    mid := Shown(shifted, base, r.t);
    WritesRefine(shifted, base, r.t, r.f, mid, r.writes);
    s1 := PlayedCells(s, base, t, r, first);
  }

  lemma EnteredCells(s: Stack, base: nat, f: Function) returns (cells: seq<Object>)
    requires Resting(s, base) && !f.reuseContext && !f.isWhenEval
    ensures cells == Entered(Popped(s), f).cells && base + f.storage < |cells| && |s.cells| <= |cells|
    ensures forall i :: 0 <= i < |s.cells| ==> cells[i] == s.cells[i]
  {
    cells := Entered(Popped(s), f).cells;
  }

  lemma PlayedCells(s: Stack, base: nat, t: Table, r: Round, first: nat) returns (s1: Stack)
    requires Resting(s, base) && Compiled(r.f, r.t, first) && first <= t.consts <= r.t.consts && t.vars <= r.t.vars
    ensures s1 == Played(s, t, r, first) && Resting(s1, base)
    ensures s1.cells == Written(Shifted(Entered(Popped(s), r.f).cells, base, r.f, t.consts - first, t.vars), base, r.writes)
  {
    s1 := Played(s, t, r, first);
  }

  /** The state after several rounds, each starting from the table of the one before. */
  ghost function Session(s: Stack, t: Table, rounds: seq<Round>, first: nat): Option<Stack>
    decreases |rounds|
  {
    if rounds == [] then Some(s)
    else
      var r := rounds[0];
      if Usable(Popped(s)) && Compiled(r.f, r.t, first) && first <= t.consts <= r.t.consts && t.vars <= r.t.vars
      then Session(Played(s, t, r, first), r.t, rounds[1..], first)
      else None
  }

  /** Over any number of rounds the registers and the stack are a faithful map from names to values. */
  lemma {:induction false} SessionRefines(s: Stack, base: nat, t: Table, m: map<string, Object>, rounds: seq<Round>, first: nat)
      returns (m1: map<string, Object>)
    requires Sound(t) && first <= t.consts && Resting(s, base) && Holds(s.cells, base, t, m) && RoundsOk(t, rounds, first)
    ensures Session(s, t, rounds, first).Some?
    ensures Plays(m, t, rounds, first, m1)
    ensures Holds(Session(s, t, rounds, first).value.cells, base, End(t, rounds), m1)
    decreases |rounds|
  {
    if rounds == [] {
      m1 := m;
    } else {
      var r := rounds[0];
      var s1, mid := RoundRefines(s, base, t, m, r, first);
      m1 := SessionRefines(s1, base, r.t, MapWritten(mid, r.t, r.writes), rounds[1..], first);
    }
  }

  lemma HoldsLater(cells: seq<Object>, base: nat, t: Table, m: map<string, Object>, more: seq<Object>)
    requires Holds(cells, base, t, m) && |cells| <= |more| && forall i :: 0 <= i < |cells| ==> more[i] == cells[i]
    ensures Holds(more, base, t, m)
  {
  }

  // ---------------------------------------------------------------- the process

  class Process {
    const stack: ProcessStack
    var incrementalConstants: nat
    var incrementalLocals: nat

    constructor (stack: ProcessStack)
      ensures this.stack == stack && incrementalConstants == incrementalLocals == 0
    {
      this.stack := stack;
      incrementalConstants, incrementalLocals := 0, 0;
    }

    method IncrementalStackShift(f: Function, ghost base: nat) returns (shifted: bool)
      requires Laid(f) && incrementalConstants <= |f.constants| && incrementalLocals <= Locals(f)
      requires stack.base == base && base + f.tempStart <= stack.stack.Length
      modifies stack.stack
      ensures shifted <==> incrementalConstants < |f.constants|
      ensures stack.Value()
        == old(stack.Value()).(cells := Shifted(old(stack.stack[..]), base, f, incrementalConstants, incrementalLocals))
    {
      var from, to := f.constantsStart + incrementalConstants, f.localsStart;
      if to == from {
        return false;
      }
      ShiftLocals(f, from, incrementalLocals, base);
      stack.Write(from, f.constants[incrementalConstants..]);
      shifted := true;
    }

    method ShiftLocals(f: Function, from: nat, locals: nat, ghost base: nat)
      requires Laid(f) && locals <= Locals(f) && from <= f.localsStart
      requires stack.base == base && base + f.tempStart <= stack.stack.Length
      modifies stack.stack
      ensures stack.stack[..] == LocalsShifted(old(stack.stack[..]), base, f, from, locals)
    {
      stack.ShiftSegment(from, f.localsStart, locals);
      stack.Write(f.localsStart + locals, Zeros(Locals(f) - locals));
    }

    /** ExecuteFunctionIncremental up to the code of the round. */
    method EnterIncremental(f: Function, t: Table, t1: Table, first: nat)
      requires Usable(Popped(stack.Value())) && Compiled(f, t1, first) && first <= t.consts <= t1.consts && t.vars <= t1.vars
      requires incrementalConstants == t.consts - first && incrementalLocals == t.vars
      modifies this, stack, stack.stack
      ensures var e := Entered(Popped(old(stack.Value())), f);
        stack.Value() == e.(cells := Shifted(e.cells, e.base, f, t.consts - first, t.vars))
      ensures incrementalConstants == t1.consts - first && incrementalLocals == t1.vars
      ensures stack.stack == old(stack.stack) || fresh(stack.stack)
    {
      stack.PopStackFrame();
      stack.SetupStackFrame(f);
      var shifted := IncrementalStackShift(f, stack.base);
      incrementalConstants, incrementalLocals := |f.constants|, Locals(f);
    }
  }
}

/** SymbolTable of eople_symbol_table.h: names, entry ids and registers. */
module Symbols {
  import opened Options
  import opened Frames

  /** `index` counts constants and variables separately. */
  datatype Entry = Entry(ident: string, index: nat, constant: bool)

  datatype Table = Table(names: map<string, nat>, entries: seq<Entry>, consts: nat, vars: nat)

  const NO_SYMBOLS := Table(map[], [], 0, 0)

  /** Names and entry ids are in bijection; constants and variables each have an index of their own. */
  ghost predicate Sound(t: Table) {
    && (forall i :: 0 <= i < |t.entries| ==> t.entries[i].ident in t.names && t.names[t.entries[i].ident] == i)
    && (forall name :: name in t.names ==> t.names[name] < |t.entries| && t.entries[t.names[name]].ident == name)
    && (forall i :: 0 <= i < |t.entries| ==> t.entries[i].index < if t.entries[i].constant then t.consts else t.vars)
    && (forall i, j :: 0 <= i < j < |t.entries| && t.entries[i].constant == t.entries[j].constant ==>
          t.entries[i].index != t.entries[j].index)
  }

  /** GetRegisterIndex: variables stand above the constants. */
  function Register(t: Table, id: nat): nat
    requires id < |t.entries|
  {
    t.entries[id].index + if t.entries[id].constant then 0 else t.consts
  }

  function SymbolCount(t: Table): nat {
    t.consts + t.vars
  }

  /** No two symbols share a register, all registers are below the symbol count, and the constants come
      first. */
  lemma RegistersDistinct(t: Table, i: nat, j: nat)
    requires Sound(t) && i < |t.entries| && j < |t.entries|
    ensures Register(t, i) < SymbolCount(t)
    ensures Register(t, i) == Register(t, j) <==> i == j
    ensures t.entries[i].constant && !t.entries[j].constant ==> Register(t, i) < t.consts <= Register(t, j)
  {
    if i < j { assert t.entries[i].constant == t.entries[j].constant ==> t.entries[i].index != t.entries[j].index; }
    if j < i { assert t.entries[j].constant == t.entries[i].constant ==> t.entries[j].index != t.entries[i].index; }
  }

  /** The lookup, with the scope and without. */
  function Find(t: Table, scope: string, ident: string): Option<nat> {
    if scope + ident in t.names then Some(t.names[scope + ident])
    else if ident in t.names then Some(t.names[ident])
    else None
  }

  function Added(t: Table, name: string, constant: bool): Table {
    Table(t.names[name := |t.entries|],
          t.entries + [Entry(name, if constant then t.consts else t.vars, constant)],
          if constant then t.consts + 1 else t.consts,
          if constant then t.vars else t.vars + 1)
  }

  /** A new symbol has the next id and the given name.  A new constant has the register after the other constants, a
      new variable that after all symbols; every older symbol keeps its register, but a new constant pushes the
      variables up by one. */
  lemma AddedRegisters(t: Table, name: string, constant: bool, i: nat)
    requires Sound(t) && name !in t.names && i < |t.entries|
    ensures var r := Added(t, name, constant);
      && |r.entries| == |t.entries| + 1 && r.names == t.names[name := |t.entries|]
      && r.entries[|t.entries|].ident == name && r.entries[|t.entries|].constant == constant
      && Register(r, |t.entries|) == (if constant then t.consts else SymbolCount(t))
      && r.entries[i] == t.entries[i]
      && Register(r, i) == Register(t, i) + if constant && !t.entries[i].constant then 1 else 0
  {
  }

  lemma AddedSound(t: Table, name: string, constant: bool)
    requires Sound(t) && name !in t.names
    ensures Sound(Added(t, name, constant))
  {
  }

  /** A variable gives up its index, which is free again only if it was the last one. */
  function Converted(t: Table, id: nat): Table
    requires id < |t.entries|
  {
    var entry := t.entries[id];
    if entry.constant then t
    else t.(entries := t.entries[id := entry.(constant := true, index := t.consts)],
            consts := t.consts + 1,
            vars := if entry.index + 1 == t.vars then t.vars - 1 else t.vars)
  }

  /** A converted variable becomes the last constant; the other constants keep their registers, and the other variables
      move up by one.  Unless it was the last variable its register stays behind, unused. */
  lemma ConvertedRegisters(t: Table, id: nat, i: nat)
    requires Sound(t) && id < |t.entries| && !t.entries[id].constant && i < |t.entries| && i != id
    ensures var r := Converted(t, id);
      && |r.entries| == |t.entries| && r.names == t.names && r.entries[id].ident == t.entries[id].ident
      && r.entries[id].constant && Register(r, id) == t.consts
      && SymbolCount(r) == SymbolCount(t) + (if t.entries[id].index + 1 == t.vars then 0 else 1)
      && r.entries[i] == t.entries[i]
      && Register(r, i) == Register(t, i) + if t.entries[i].constant then 0 else 1
  {
  }

  lemma ConvertedSound(t: Table, id: nat)
    requires Sound(t) && id < |t.entries|
    ensures Sound(Converted(t, id))
  {
    var r := Converted(t, id);
    forall i, j | 0 <= i < j < |r.entries| && r.entries[i].constant == r.entries[j].constant
      ensures r.entries[i].index != r.entries[j].index
    {
      assert t.entries[i].constant == t.entries[j].constant ==> t.entries[i].index != t.entries[j].index;
    }
    forall i | 0 <= i < |r.entries| ensures r.entries[i].index < if r.entries[i].constant then r.consts else r.vars {
      if i < id { assert !t.entries[i].constant && !t.entries[id].constant ==> t.entries[i].index != t.entries[id].index; }
      if id < i { assert !t.entries[i].constant && !t.entries[id].constant ==> t.entries[id].index != t.entries[i].index; }
    }
  }

  class SymbolTable {
    var scopeName: string
    var forceConstant: bool
    var table: map<string, nat>
    var entries: seq<Entry>
    var nextConstReg: nat
    var nextVarReg: nat

    ghost function Value(): Table
      reads this
    {
      Table(table, entries, nextConstReg, nextVarReg)
    }

    constructor ()
      ensures Value() == NO_SYMBOLS && Sound(Value()) && scopeName == "" && !forceConstant
    {
      scopeName, forceConstant, table, entries, nextConstReg, nextVarReg := "", false, map[], [], 0, 0;
    }

    method SetScopeName(name: string)
      modifies this`scopeName
      ensures scopeName == name + "::"
    {
      scopeName := name + "::";
    }

    method ForceConstant(force: bool)
      modifies this`forceConstant
      ensures forceConstant == force
    {
      forceConstant := force;
    }

    /** The id of a symbol, which is added if it is new, unless it must exist.  The name with the scope comes first. */
    method GetTableEntryIndex(ident: string, isConstant: bool, mustExist: bool) returns (id: Option<nat>)
      requires Sound(Value())
      modifies this`table, this`entries, this`nextConstReg, this`nextVarReg
      ensures Sound(Value())
      ensures scopeName + ident in old(table) ==> id == Some(old(table)[scopeName + ident]) && Value() == old(Value())
      ensures scopeName + ident !in old(table) && ident in old(table) ==> id == Some(old(table)[ident]) && Value() == old(Value())
      ensures scopeName + ident !in old(table) && ident !in old(table) ==>
        if mustExist then id == None && Value() == old(Value())
        else id == Some(|old(entries)|) && Value() == Added(old(Value()), scopeName + ident, forceConstant || isConstant)
      ensures id.Some? ==> Find(Value(), scopeName, ident) == id
    {
      ghost var t := Value();
      var name := scopeName + ident;
      if name in table {
        return Some(table[name]);
      }
      if ident in table {
        return Some(table[ident]);
      }
      if mustExist {
        return None;
      }
      id := Some(|entries|);
      table := table[name := |entries|];
      if forceConstant || isConstant {
        entries := entries + [Entry(name, nextConstReg, true)];
        nextConstReg := nextConstReg + 1;
      } else {
        entries := entries + [Entry(name, nextVarReg, false)];
        nextVarReg := nextVarReg + 1;
      }
      AddedSound(t, name, forceConstant || isConstant);
    }

    method ConvertToConstant(id: nat)
      requires Sound(Value()) && id < |entries|
      modifies this`entries, this`nextConstReg, this`nextVarReg
      ensures Sound(Value()) && Value() == Converted(old(Value()), id)
      ensures entries[id].constant && (old(entries[id].constant) ==> Value() == old(Value()))
    {
      ghost var t := Value();
      var entry := entries[id];
      if !entry.constant {
        if entry.index + 1 == nextVarReg {
          nextVarReg := nextVarReg - 1;
        }
        entries := entries[id := entry.(constant := true, index := nextConstReg)];
        nextConstReg := nextConstReg + 1;
      }
      ConvertedSound(t, id);
    }

    method GetRegisterIndex(id: nat) returns (register: nat)
      requires id < |entries|
      ensures register == Register(Value(), id)
      ensures if entries[id].constant then register == entries[id].index else register - nextConstReg == entries[id].index
    {
      register := entries[id].index;
      if !entries[id].constant {
        register := register + nextConstReg;
      }
    }
  }

  // ---------------------------------------------------------------- nested scopes

  /** Where a symbol stands that is found `depth` scopes out, when every scope sits on the scopes around it. */
  function Intended(own: Table, outer: seq<Table>, id: nat, depth: nat): nat
    requires depth <= |outer| && id < |(if depth == 0 then own else outer[depth - 1]).entries|
  {
    Register(if depth == 0 then own else outer[depth - 1], id) + Sizes(outer[depth..])
  }

  function Sizes(tables: seq<Table>): nat {
    if tables == [] then 0 else SymbolCount(tables[0]) + Sizes(tables[1..])
  }

  /** Function::GetStackIndex, eople_ast.cpp:329-380: the loop over the scopes around never counts up its
      depth, so every one of them is taken for the first. */
  method GetStackIndex(own: Table, outer: seq<Table>, id: nat, depth: nat) returns (index: nat)
    requires depth == 0 ==> id < |own.entries|
    requires depth == 1 ==> forall k :: 0 <= k < |outer| ==> id < |outer[k].entries|
    ensures index == StackIndex(own, outer, id, depth)
  {
    var stackIndex := 0;
    if depth == 0 {
      stackIndex := Register(own, id);
    }
    var offset := 0;
    for k := 0 to |outer|
      invariant offset == if depth == 0 then Sizes(outer[..k]) else 0
      invariant stackIndex == if depth == 0 then Register(own, id) else if depth == 1 && k > 0 then Register(outer[k - 1], id) else 0
    {
      if 1 > depth {
        SizesSnoc(outer[..k], outer[k]);
        assert outer[..k + 1] == outer[..k] + [outer[k]];
        offset := offset + SymbolCount(outer[k]);
      } else if 1 == depth {
        stackIndex := Register(outer[k], id);
      }
    }
    assert outer[..|outer|] == outer;
    index := stackIndex + offset;
  }

  lemma {:induction false} SizesSnoc(tables: seq<Table>, last: Table)
    ensures Sizes(tables + [last]) == Sizes(tables) + SymbolCount(last)
  {
    if tables == [] {
      assert Sizes([last][1..]) == 0;
    } else {
      SizesSnoc(tables[1..], last);
      assert (tables + [last])[1..] == tables[1..] + [last];
    }
  }

  function StackIndex(own: Table, outer: seq<Table>, id: nat, depth: nat): nat
    requires depth == 0 ==> id < |own.entries|
    requires depth == 1 && outer != [] ==> id < |outer[|outer| - 1].entries|
  {
    if depth == 0 then Register(own, id) + Sizes(outer)
    else if depth == 1 && outer != [] then Register(outer[|outer| - 1], id)
    else 0
  }

  /** For a member function of a class the result is as intended: the symbols of the class lie below the
      class's symbol count, the function's own above it, and no two symbols share a slot. */
  lemma MemberSlots(own: Table, class_: Table, id: nat, depth: nat, id1: nat, depth1: nat)
    requires Sound(own) && Sound(class_) && depth <= 1 && depth1 <= 1
    requires id < |(if depth == 0 then own else class_).entries| && id1 < |(if depth1 == 0 then own else class_).entries|
    ensures StackIndex(own, [class_], id, depth) == Intended(own, [class_], id, depth)
    ensures depth == 1 ==> StackIndex(own, [class_], id, depth) < SymbolCount(class_)
    ensures depth == 0 ==> SymbolCount(class_) <= StackIndex(own, [class_], id, depth) < SymbolCount(class_) + SymbolCount(own)
    ensures StackIndex(own, [class_], id, depth) == StackIndex(own, [class_], id1, depth1) <==> (id == id1 && depth == depth1)
  {
    RegistersDistinct(if depth == 0 then own else class_, id, if depth == depth1 then id1 else id);
    RegistersDistinct(if depth1 == 0 then own else class_, id1, id1);
    assert Sizes([class_]) == SymbolCount(class_) + Sizes([]);
    assert [class_][1..] == [];
  }

  /** When the result is the intended slot, for every nesting of sound tables: the symbols of the function
      itself always, those of the scope around it when that is the outermost, and those further out only when
      the intended slot happens to be 0. */
  lemma IntendedIff(own: Table, outer: seq<Table>, id: nat, depth: nat)
    requires depth <= |outer| && (forall k :: 0 <= k < |outer| ==> Sound(outer[k]))
    requires id < |(if depth == 0 then own else outer[depth - 1]).entries|
    requires depth == 1 ==> forall k :: 0 <= k < |outer| ==> id < |outer[k].entries|
    ensures StackIndex(own, outer, id, depth) == Intended(own, outer, id, depth) <==>
      if depth <= 1 then depth == 0 || |outer| == 1
      else Register(outer[depth - 1], id) == 0 && Sizes(outer[depth..]) == 0
  {
    if depth == 0 {
      assert outer[0..] == outer;
    } else if depth == 1 {
      var last := |outer| - 1;
      RegistersDistinct(outer[last], id, id);
      if |outer| == 1 { assert outer[1..] == []; } else { SizeWithin(outer[1..], last - 1); }
    }
  }

  lemma {:induction false} SizeWithin(tables: seq<Table>, k: nat)
    requires k < |tables|
    ensures SymbolCount(tables[k]) <= Sizes(tables)
  {
    if k > 0 { SizeWithin(tables[1..], k - 1); }
  }

  /** The first input that fails: a symbol of the scope around the function, with one more scope around it. */
  lemma DeeperScopesClash()
    ensures var own, mid, far := NO_SYMBOLS, Added(NO_SYMBOLS, "x", false), Added(NO_SYMBOLS, "y", false);
      && Sound(mid) && Sound(far)
      && StackIndex(own, [mid, far], 0, 1) == 0 != Intended(own, [mid, far], 0, 1)
  {
    var own, mid, far := NO_SYMBOLS, Added(NO_SYMBOLS, "x", false), Added(NO_SYMBOLS, "y", false);
    assert Sizes([mid, far][1..]) == 1 by { assert [mid, far][1..] == [far]; assert [far][1..] == []; }
  }
}

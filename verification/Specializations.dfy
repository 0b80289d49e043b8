/** The cache of specializations of a function: FindSpecializationForArgs, eople_ast.cpp:482-530. */
module Specializations {

  /** An interned type: equal types are the same type.  `open` says that its varying type is ANY. */
  datatype Type = Type(id: nat, kind: nat, open: bool)

  /** The types of the symbols of one table. */
  type Types = map<string, Type>

  /** The parameter type fits the type of an argument: it is ANY, the same, or open and of the same kind. */
  predicate TypeFits(any: Type, parameter: Type, arg: Type) {
    parameter == any || arg == parameter || (parameter.open && arg.kind == parameter.kind)
  }

  predicate Typed(types: Types, parameters: seq<string>) {
    forall i :: 0 <= i < |parameters| ==> parameters[i] in types
  }

  predicate Accepts(any: Type, types: Types, parameters: seq<string>, args: seq<Type>)
    requires Typed(types, parameters) && |args| == |parameters|
  {
    forall i :: 0 <= i < |args| ==> TypeFits(any, types[parameters[i]], args[i])
  }

  predicate Distinct(parameters: seq<string>) {
    forall i, j :: 0 <= i < j < |parameters| ==> parameters[i] != parameters[j]
  }

  /** The last parameter with the same name as parameter i: its argument decides. */
  function LastOf(parameters: seq<string>, i: nat): (j: nat)
    requires i < |parameters|
    ensures i <= j < |parameters| && parameters[j] == parameters[i]
    ensures forall k :: j < k < |parameters| ==> parameters[k] != parameters[i]
    decreases |parameters|
  {
    var last := |parameters| - 1;
    if parameters[last] == parameters[i] then last else LastOf(parameters[..last], i)
  }

  /** For each parameter the argument that decides its type. */
  function Deciding(parameters: seq<string>, args: seq<Type>): (r: seq<Type>)
    requires |args| == |parameters|
    ensures |r| == |args| && forall i :: 0 <= i < |r| ==> r[i] == args[LastOf(parameters, i)]
  {
    seq(|args|, i requires 0 <= i < |args| => args[LastOf(parameters, i)])
  }

  predicate AllFit(any: Type, types: seq<Type>, args: seq<Type>) {
    |types| == |args| && forall i :: 0 <= i < |args| ==> TypeFits(any, types[i], args[i])
  }

  lemma {:induction false} OwnLast(parameters: seq<string>, i: nat)
    requires Distinct(parameters) && i < |parameters|
    ensures LastOf(parameters, i) == i
  {
    assert parameters[LastOf(parameters, i)] == parameters[i];
  }

  lemma {:induction false} SameFits(any: Type, types: Types, parameters: seq<string>, args: seq<Type>, last: seq<Type>)
    requires Typed(types, parameters) && |args| == |parameters| == |last|
    requires forall i :: 0 <= i < |args| ==> types[parameters[i]] == last[i]
    ensures Accepts(any, types, parameters, args) <==> AllFit(any, last, args)
  {
    if AllFit(any, last, args) {
      forall i | 0 <= i < |args| ensures TypeFits(any, types[parameters[i]], args[i]) { assert TypeFits(any, last[i], args[i]); }
    }
  }

  // ---------------------------------------------------------------- the cache

  /** The table of a function and those of its specializations, which are copies of it; and the table of the class
      that a member function is in.  A parameter that is named like a symbol of the class has no entry in the
      tables of the function (eople_parse.cpp:567-592). */
  datatype Cache = Cache(tables: seq<Types>, outer: Types)

  /** Every parameter has an entry, in every table of the function or in none of them. */
  predicate Known(c: Cache, parameters: seq<string>) {
    && c.tables != [] && (forall k :: 0 <= k < |c.tables| ==> c.tables[k].Keys == c.tables[0].Keys)
    && forall i :: 0 <= i < |parameters| ==> parameters[i] in c.tables[0] || parameters[i] in c.outer
  }

  predicate Own(c: Cache, parameter: string)
    requires c.tables != []
  {
    parameter in c.tables[0]
  }

  predicate AllOwn(c: Cache, parameters: seq<string>)
    requires c.tables != []
  {
    forall i :: 0 <= i < |parameters| ==> Own(c, parameters[i])
  }

  /** What specialization k sees: its own table, and behind it that of the class. */
  function Table(c: Cache, k: nat): Types
    requires k < |c.tables|
  {
    c.outer + c.tables[k]
  }

  function Seen(c: Cache): (r: seq<Types>)
    ensures |r| == |c.tables| && forall k :: 0 <= k < |r| ==> r[k] == Table(c, k)
  {
    seq(|c.tables|, k requires 0 <= k < |c.tables| => Table(c, k))
  }

  predicate AllTyped(tables: seq<Types>, parameters: seq<string>) {
    forall k :: 0 <= k < |tables| ==> Typed(tables[k], parameters)
  }

  /** The first specialization that accepts the arguments; their number when there is none. */
  function FirstMatch(any: Type, tables: seq<Types>, parameters: seq<string>, args: seq<Type>): (k: nat)
    requires AllTyped(tables, parameters) && |args| == |parameters|
    ensures k <= |tables| && (k < |tables| ==> Accepts(any, tables[k], parameters, args))
    ensures forall j :: 0 <= j < k ==> !Accepts(any, tables[j], parameters, args)
    decreases |tables|
  {
    if tables == [] then 0
    else if Accepts(any, tables[0], parameters, args) then 0
    else
      var k := FirstMatch(any, tables[1..], parameters, args);
      assert forall j :: 1 <= j < k + 1 ==> tables[j] == tables[1..][j - 1];
      k + 1
  }

  lemma {:induction false} FirstIs(any: Type, tables: seq<Types>, parameters: seq<string>, args: seq<Type>, k: nat)
    requires AllTyped(tables, parameters) && |args| == |parameters|
    requires k <= |tables| && (k < |tables| ==> Accepts(any, tables[k], parameters, args))
    requires forall j :: 0 <= j < k ==> !Accepts(any, tables[j], parameters, args)
    ensures FirstMatch(any, tables, parameters, args) == k
  {
  }

  /** The answer to a request. */
  function Answer(any: Type, c: Cache, parameters: seq<string>, args: seq<Type>): (k: nat)
    requires Known(c, parameters) && |args| == |parameters|
    ensures k <= |c.tables|
  {
    FirstMatch(any, Seen(c), parameters, args)
  }

  /** The answer is the first specialization that has for each parameter ANY, the type of the argument, or an open type
      of the argument's kind; a parameter's type is in the specialization's own table or else in that of the class. */
  lemma {:induction false} AnswerIsFirst(any: Type, c: Cache, parameters: seq<string>, args: seq<Type>, k: nat)
    requires Known(c, parameters) && |args| == |parameters| && k < |c.tables|
    ensures var fits :=
        forall i :: 0 <= i < |args| ==>
          var p := if parameters[i] in c.tables[k] then c.tables[k][parameters[i]] else c.outer[parameters[i]];
          p == any || p == args[i] || (p.open && p.kind == args[i].kind);
      && (k == Answer(any, c, parameters, args) ==> fits)
      && (k < Answer(any, c, parameters, args) ==> !fits)
  {
    assert Seen(c)[k] == Table(c, k);
    forall i | 0 <= i < |args|
      ensures Table(c, k)[parameters[i]] == if parameters[i] in c.tables[k] then c.tables[k][parameters[i]] else c.outer[parameters[i]]
    {
    }
  }

  /** Sets the types of those parameters that have their entry here. */
  function AssignedHere(types: Types, here: set<string>, parameters: seq<string>, args: seq<Type>): (r: Types)
    requires |args| == |parameters| && forall i :: 0 <= i < |parameters| && parameters[i] in here ==> parameters[i] in types
    ensures r.Keys == types.Keys && forall p :: p in types && p !in here ==> r[p] == types[p]
    decreases |args|
  {
    if args == [] then types
    else
      var last := |args| - 1;
      var r := AssignedHere(types, here, parameters[..last], args[..last]);
      if parameters[last] in here then r[parameters[last] := args[last]] else r
  }

  /** The cache after a request: a new specialization when no other accepts the arguments. */
  function Requested(any: Type, c: Cache, parameters: seq<string>, args: seq<Type>): (r: Cache)
    requires Known(c, parameters) && |args| == |parameters|
    ensures Known(r, parameters) && c.tables <= r.tables && (forall p :: Own(r, p) <==> Own(c, p))
  {
    if Answer(any, c, parameters, args) < |c.tables| then c else Added(c, parameters, args)
  }

  function Added(c: Cache, parameters: seq<string>, args: seq<Type>): (r: Cache)
    requires Known(c, parameters) && |args| == |parameters|
    ensures Known(r, parameters) && c.tables <= r.tables && |r.tables| == |c.tables| + 1 && (forall p :: Own(r, p) <==> Own(c, p))
  {
    var own := c.tables[0].Keys;
    Cache(c.tables + [AssignedHere(c.tables[0], own, parameters, args)],
          AssignedHere(c.outer, c.outer.Keys - own, parameters, args))
  }

  function RequestedAll(any: Type, c: Cache, parameters: seq<string>, requests: seq<seq<Type>>): (r: Cache)
    requires Known(c, parameters) && Fitting(requests, parameters)
    ensures Known(r, parameters) && c.tables <= r.tables && (forall p :: Own(r, p) <==> Own(c, p))
    decreases |requests|
  {
    if requests == [] then c
    else RequestedAll(any, Requested(any, c, parameters, requests[0]), parameters, requests[1..])
  }

  predicate Fitting(requests: seq<seq<Type>>, parameters: seq<string>) {
    forall i :: 0 <= i < |requests| ==> |requests[i]| == |parameters|
  }

  lemma {:induction false} HereAt(types: Types, here: set<string>, parameters: seq<string>, args: seq<Type>, i: nat)
    requires |args| == |parameters| && forall j :: 0 <= j < |parameters| && parameters[j] in here ==> parameters[j] in types
    requires i < |args| && parameters[i] in here
    ensures AssignedHere(types, here, parameters, args)[parameters[i]] == args[LastOf(parameters, i)]
    decreases |args|
  {
    var last := |args| - 1;
    if parameters[last] != parameters[i] { HereAt(types, here, parameters[..last], args[..last], i); }
  }

  /** What the tables say of a parameter after a specialization has been added: the new table what it was made for,
      and so do the others if the parameter has its entry in the class. */
  lemma {:induction false} AddedAt(c: Cache, parameters: seq<string>, args: seq<Type>, k: nat, i: nat)
    requires Known(c, parameters) && |args| == |parameters| && k <= |c.tables| && i < |parameters|
    ensures parameters[i] in Table(Added(c, parameters, args), k)
    ensures Table(Added(c, parameters, args), k)[parameters[i]]
      == if k < |c.tables| && Own(c, parameters[i]) then c.tables[k][parameters[i]] else Deciding(parameters, args)[i]
  {
    var own := c.tables[0].Keys;
    if Own(c, parameters[i]) {
      HereAt(c.tables[0], own, parameters, args, i);
    } else {
      HereAt(c.outer, c.outer.Keys - own, parameters, args, i);
    }
  }

  /** A new specialization is a copy of the function's own table in all but its parameters, and no other symbol of the
      class changes its type. */
  lemma {:induction false} AddedCopies(c: Cache, parameters: seq<string>, args: seq<Type>, name: string)
    requires Known(c, parameters) && |args| == |parameters| && name !in parameters
    ensures var r := Added(c, parameters, args);
      && (name in c.tables[0] ==> name in r.tables[|c.tables|] && r.tables[|c.tables|][name] == c.tables[0][name])
      && (name in c.outer ==> name in r.outer && r.outer[name] == c.outer[name])
  {
    var own := c.tables[0].Keys;
    if name in c.tables[0] { OthersStay(c.tables[0], own, parameters, args, name); }
    if name in c.outer { OthersStay(c.outer, c.outer.Keys - own, parameters, args, name); }
  }

  lemma {:induction false} OthersStay(types: Types, here: set<string>, parameters: seq<string>, args: seq<Type>, name: string)
    requires |args| == |parameters| && forall i :: 0 <= i < |parameters| && parameters[i] in here ==> parameters[i] in types
    requires name !in parameters && name in types
    ensures AssignedHere(types, here, parameters, args)[name] == types[name]
    decreases |args|
  {
    if args != [] {
      var last := |args| - 1;
      assert parameters[last] != name;
      OthersStay(types, here, parameters[..last], args[..last], name);
    }
  }

  // ---------------------------------------------------------------- what a new specialization accepts

  /** The arguments of the parameters that have their entry in the function's own table. */
  predicate TakesOwn(any: Type, types: Types, parameters: seq<string>, args: seq<Type>)
    requires |args| == |parameters|
  {
    forall i :: 0 <= i < |args| && parameters[i] in types ==> TypeFits(any, types[parameters[i]], args[i])
  }

  /** The arguments of the others fit those that decide. */
  predicate OuterFit(any: Type, c: Cache, parameters: seq<string>, args: seq<Type>)
    requires c.tables != [] && |args| == |parameters|
  {
    forall i :: 0 <= i < |args| && !Own(c, parameters[i]) ==> TypeFits(any, Deciding(parameters, args)[i], args[i])
  }

  /** A new specialization accepts the arguments it was made for exactly when parameters that share a name got
      arguments that fit the one that decides (always, when the names are distinct); an older one exactly when it
      takes the arguments of the function's own parameters and those of the others fit each other. */
  lemma {:induction false} AddedAccepts(any: Type, c: Cache, parameters: seq<string>, args: seq<Type>, k: nat)
    requires Known(c, parameters) && |args| == |parameters| && k <= |c.tables|
    ensures Accepts(any, Table(Added(c, parameters, args), k), parameters, args)
      <==> if k == |c.tables| then AllFit(any, Deciding(parameters, args), args)
           else TakesOwn(any, c.tables[k], parameters, args) && OuterFit(any, c, parameters, args)
    ensures Distinct(parameters) ==> AllFit(any, Deciding(parameters, args), args)
  {
    var types := Table(Added(c, parameters, args), k);
    forall i | 0 <= i < |args|
      ensures types[parameters[i]]
        == if k < |c.tables| && Own(c, parameters[i]) then c.tables[k][parameters[i]] else Deciding(parameters, args)[i]
    {
      AddedAt(c, parameters, args, k, i);
    }
    if k == |c.tables| { SameFits(any, types, parameters, args, Deciding(parameters, args)); }
    if Distinct(parameters) {
      forall i | 0 <= i < |args| ensures LastOf(parameters, i) == i { OwnLast(parameters, i); }
    }
  }

  // ---------------------------------------------------------------- what the cache remembers

  predicate Answered(any: Type, c: Cache, parameters: seq<string>, args: seq<Type>)
    requires Known(c, parameters) && |args| == |parameters|
  {
    Answer(any, c, parameters, args) < |c.tables|
  }

  predicate AnyTakesOwn(any: Type, c: Cache, parameters: seq<string>, args: seq<Type>)
    requires |args| == |parameters|
  {
    exists k :: 0 <= k < |c.tables| && TakesOwn(any, c.tables[k], parameters, args)
  }

  /** Asking again adds nothing exactly when the request was answered, or the new specialization accepts it, or an
      older one does now that the class has changed. */
  lemma {:induction false} RepeatAddsNothingIff(any: Type, c: Cache, parameters: seq<string>, args: seq<Type>)
    requires Known(c, parameters) && |args| == |parameters|
    ensures var after := Requested(any, c, parameters, args);
      && (Requested(any, after, parameters, args) == after <==>
            || Answered(any, c, parameters, args)
            || AllFit(any, Deciding(parameters, args), args)
            || (AnyTakesOwn(any, c, parameters, args) && OuterFit(any, c, parameters, args)))
      && (Requested(any, after, parameters, args) != after ==> |Requested(any, after, parameters, args).tables| == |c.tables| + 2)
  {
    var after := Requested(any, c, parameters, args);
    if !Answered(any, c, parameters, args) {
      forall k | 0 <= k <= |c.tables|
        ensures Accepts(any, Seen(after)[k], parameters, args)
          <==> if k == |c.tables| then AllFit(any, Deciding(parameters, args), args)
               else TakesOwn(any, c.tables[k], parameters, args) && OuterFit(any, c, parameters, args)
      {
        AddedAccepts(any, c, parameters, args, k);
      }
      var again := Answer(any, after, parameters, args);
      if again < |after.tables| {
        assert Accepts(any, Seen(after)[again], parameters, args);
      } else {
        assert !Accepts(any, Seen(after)[|c.tables|], parameters, args);
        forall k | 0 <= k < |c.tables| ensures !(TakesOwn(any, c.tables[k], parameters, args) && OuterFit(any, c, parameters, args)) {
          assert !Accepts(any, Seen(after)[k], parameters, args);
        }
      }
    }
  }

  /** The request is answered with the specialization that it got, now that it has been made: it was there already,
      or it accepts the arguments and no older one does. */
  predicate Remembered(any: Type, c: Cache, parameters: seq<string>, args: seq<Type>)
    requires Known(c, parameters) && |args| == |parameters|
  {
    || Answered(any, c, parameters, args)
    || (AllFit(any, Deciding(parameters, args), args) && !AnyTakesOwn(any, c, parameters, args))
  }

  lemma {:induction false} RememberedIff(any: Type, c: Cache, parameters: seq<string>, args: seq<Type>)
    requires Known(c, parameters) && |args| == |parameters|
    ensures Remembered(any, c, parameters, args) <==> Settled(any, Requested(any, c, parameters, args), parameters, args, Answer(any, c, parameters, args))
  {
    if !Answered(any, c, parameters, args) {
      if Remembered(any, c, parameters, args) { MissSettles(any, c, parameters, args); } else { MissUnsettled(any, c, parameters, args); }
    }
  }

  lemma {:induction false} MissSettles(any: Type, c: Cache, parameters: seq<string>, args: seq<Type>)
    requires Known(c, parameters) && |args| == |parameters|
    requires AllFit(any, Deciding(parameters, args), args) && !AnyTakesOwn(any, c, parameters, args)
    ensures Settled(any, Added(c, parameters, args), parameters, args, |c.tables|)
  {
    var after, k := Added(c, parameters, args), |c.tables|;
    forall j | 0 <= j <= k ensures Accepts(any, Seen(after)[j], parameters, args) <==> j == k {
      AddedAccepts(any, c, parameters, args, j);
    }
    FirstIs(any, Seen(after), parameters, args, k);
  }

  lemma {:induction false} MissUnsettled(any: Type, c: Cache, parameters: seq<string>, args: seq<Type>)
    requires Known(c, parameters) && |args| == |parameters|
    requires AllFit(any, Deciding(parameters, args), args) ==> AnyTakesOwn(any, c, parameters, args)
    ensures !Settled(any, Added(c, parameters, args), parameters, args, |c.tables|)
  {
    var after, k := Added(c, parameters, args), |c.tables|;
    if AllFit(any, Deciding(parameters, args), args) {
      var j :| 0 <= j < k && TakesOwn(any, c.tables[j], parameters, args);
      AddedAccepts(any, c, parameters, args, j);
      assert OuterFit(any, c, parameters, args) && Accepts(any, Seen(after)[j], parameters, args);
    } else {
      AddedAccepts(any, c, parameters, args, k);
      assert !Accepts(any, Seen(after)[k], parameters, args);
    }
  }

  /** Specialization k is there and is the answer. */
  predicate Settled(any: Type, c: Cache, parameters: seq<string>, args: seq<Type>, k: nat)
    requires Known(c, parameters) && |args| == |parameters|
  {
    k < |c.tables| && Answer(any, c, parameters, args) == k
  }

  /** Some specialization takes arguments of any type. */
  predicate TakesAll(any: Type, c: Cache, parameters: seq<string>)
    requires Known(c, parameters)
  {
    exists k :: 0 <= k < |c.tables| && forall i :: 0 <= i < |parameters| ==> Table(c, k)[parameters[i]] == any
  }

  /** Whatever is requested afterwards, in any number, the answer to the same arguments is the same. */
  ghost predicate Stays(any: Type, c: Cache, parameters: seq<string>, args: seq<Type>)
    requires Known(c, parameters) && |args| == |parameters|
  {
    forall requests: seq<seq<Type>> :: Fitting(requests, parameters) ==>
      Settled(any, RequestedAll(any, Requested(any, c, parameters, args), parameters, requests), parameters, args,
              Answer(any, c, parameters, args))
  }

  /** The cache works as one exactly when the request is remembered, and either every parameter has its entry in the
      function's own table or some specialization takes whatever comes. */
  lemma {:induction false} AnswerStaysIff(any: Type, c: Cache, parameters: seq<string>, args: seq<Type>)
    requires Known(c, parameters) && |args| == |parameters|
    ensures Stays(any, c, parameters, args) <==>
      && Remembered(any, c, parameters, args)
      && (AllOwn(c, parameters) || TakesAll(any, Requested(any, c, parameters, args), parameters))
  {
    RememberedIff(any, c, parameters, args);
    if Remembered(any, c, parameters, args) && (AllOwn(c, parameters) || TakesAll(any, Requested(any, c, parameters, args), parameters)) {
      StaysIf(any, c, parameters, args);
    } else {
      StaysOnlyIf(any, c, parameters, args);
    }
  }

  lemma {:induction false} StaysIf(any: Type, c: Cache, parameters: seq<string>, args: seq<Type>)
    requires Known(c, parameters) && |args| == |parameters| && Remembered(any, c, parameters, args)
    requires AllOwn(c, parameters) || TakesAll(any, Requested(any, c, parameters, args), parameters)
    ensures Stays(any, c, parameters, args)
  {
    var after, k := Requested(any, c, parameters, args), Answer(any, c, parameters, args);
    RememberedIff(any, c, parameters, args);
    forall requests: seq<seq<Type>> | Fitting(requests, parameters)
      ensures Settled(any, RequestedAll(any, after, parameters, requests), parameters, args, k)
    {
      StaysSettled(any, after, parameters, args, k, requests);
    }
  }

  lemma {:induction false} StaysOnlyIf(any: Type, c: Cache, parameters: seq<string>, args: seq<Type>)
    requires Known(c, parameters) && |args| == |parameters|
    requires !Remembered(any, c, parameters, args)
          || (!AllOwn(c, parameters) && !TakesAll(any, Requested(any, c, parameters, args), parameters))
    ensures !Stays(any, c, parameters, args)
  {
    var after, k := Requested(any, c, parameters, args), Answer(any, c, parameters, args);
    RememberedIff(any, c, parameters, args);
    var requests: seq<seq<Type>> := [];
    if Remembered(any, c, parameters, args) {
      var request := Unsettling(any, after, parameters, args, k);
      requests := [request];
      assert RequestedAll(any, after, parameters, requests) == RequestedAll(any, Requested(any, after, parameters, request), parameters, []);
    }
    assert Fitting(requests, parameters) && !Settled(any, RequestedAll(any, after, parameters, requests), parameters, args, k);
  }

  lemma {:induction false} StaysSettled(any: Type, c: Cache, parameters: seq<string>, args: seq<Type>, k: nat, requests: seq<seq<Type>>)
    requires Known(c, parameters) && |args| == |parameters| && Fitting(requests, parameters)
    requires Settled(any, c, parameters, args, k) && (AllOwn(c, parameters) || TakesAll(any, c, parameters))
    ensures Settled(any, RequestedAll(any, c, parameters, requests), parameters, args, k)
    decreases |requests|
  {
    if requests != [] {
      var next := Requested(any, c, parameters, requests[0]);
      if TakesAll(any, c, parameters) {
        var j :| 0 <= j < |c.tables| && forall i :: 0 <= i < |parameters| ==> Table(c, j)[parameters[i]] == any;
        assert Accepts(any, Seen(c)[j], parameters, requests[0]);
        assert next == c;
      } else {
        OwnSettled(any, c, parameters, args, k, requests[0]);
      }
      StaysSettled(any, next, parameters, args, k, requests[1..]);
    }
  }

  /** A request changes nothing for parameters of the function's own. */
  lemma {:induction false} OwnSettled(any: Type, c: Cache, parameters: seq<string>, args: seq<Type>, k: nat, request: seq<Type>)
    requires Known(c, parameters) && |args| == |parameters| == |request| && AllOwn(c, parameters)
    requires Settled(any, c, parameters, args, k)
    ensures Settled(any, Requested(any, c, parameters, request), parameters, args, k)
  {
    var next := Requested(any, c, parameters, request);
    forall j | 0 <= j < |c.tables|
      ensures Accepts(any, Seen(next)[j], parameters, args) == Accepts(any, Seen(c)[j], parameters, args)
    {
      assert next.tables[j] == c.tables[j];
      assert forall i :: 0 <= i < |parameters| ==> Table(next, j)[parameters[i]] == Table(c, j)[parameters[i]];
    }
    FirstIs(any, Seen(next), parameters, args, k);
  }

  /** Otherwise a request for a type that occurs nowhere changes the class, and the answer with it. */
  lemma {:induction false} Unsettling(any: Type, c: Cache, parameters: seq<string>, args: seq<Type>, k: nat) returns (request: seq<Type>)
    requires Known(c, parameters) && |args| == |parameters| && k < |c.tables|
    requires !AllOwn(c, parameters) && !TakesAll(any, c, parameters)
    ensures |request| == |parameters| && !Settled(any, Requested(any, c, parameters, request), parameters, args, k)
  {
    var kind := UnseenKind(any, c, parameters, args);
    request := seq(|parameters|, i => Type(0, kind, false));
    forall j | 0 <= j < |c.tables| ensures !Accepts(any, Seen(c)[j], parameters, request) {
      var i :| 0 <= i < |parameters| && Table(c, j)[parameters[i]] != any;
      assert !TypeFits(any, Table(c, j)[parameters[i]], request[i]);
    }
    Unseen(any, c, parameters, args, k, request, kind);
  }

  lemma {:induction false} Unseen(any: Type, c: Cache, parameters: seq<string>, args: seq<Type>, k: nat, request: seq<Type>, kind: nat)
    requires Known(c, parameters) && |args| == |parameters| && k < |c.tables| && !AllOwn(c, parameters)
    requires request == seq(|parameters|, i => Type(0, kind, false)) && Answer(any, c, parameters, request) == |c.tables|
    requires any.kind < kind && forall i :: 0 <= i < |args| ==> args[i].kind < kind
    ensures !Settled(any, Requested(any, c, parameters, request), parameters, args, k)
  {
    var next := Requested(any, c, parameters, request);
    var i :| 0 <= i < |parameters| && !Own(c, parameters[i]);
    AddedAt(c, parameters, request, k, i);
    assert Seen(next)[k][parameters[i]] == Type(0, kind, false);
    assert !TypeFits(any, Seen(next)[k][parameters[i]], args[i]);
  }

  lemma {:induction false} UnseenKind(any: Type, c: Cache, parameters: seq<string>, args: seq<Type>) returns (kind: nat)
    requires Known(c, parameters)
    ensures any.kind < kind && (forall i :: 0 <= i < |args| ==> args[i].kind < kind)
    ensures forall j, i :: 0 <= j < |c.tables| && 0 <= i < |parameters| ==> Table(c, j)[parameters[i]].kind < kind
  {
    var seen := set j, i | 0 <= j < |c.tables| && 0 <= i < |parameters| :: Table(c, j)[parameters[i]];
    var given := set i | 0 <= i < |args| :: args[i];
    kind := FreshKind({any} + given + seen);
    forall i | 0 <= i < |args| ensures args[i].kind < kind { assert args[i] in given; }
    forall j, i | 0 <= j < |c.tables| && 0 <= i < |parameters| ensures Table(c, j)[parameters[i]].kind < kind {
      assert Table(c, j)[parameters[i]] in seen;
    }
  }

  /** A kind that none of the types has. */
  lemma {:induction false} FreshKind(types: set<Type>) returns (kind: nat)
    ensures forall t :: t in types ==> t.kind < kind
    decreases |types|
  {
    if types == {} {
      kind := 0;
    } else {
      var t :| t in types;
      kind := FreshKind(types - {t});
      if kind <= t.kind { kind := t.kind + 1; }
    }
  }

  /** Two inputs that are not remembered: two parameters of one name, asked for with types that do not fit... */
  lemma {:induction false} SharedNameMisses(any: Type, a: Type, b: Type)
    requires any.id == 0 && a.id == 1 && b.id == 2 && !b.open
    ensures var c := Cache([map["x" := b]], map[]);
      && Known(c, ["x", "x"])
      && var after := Requested(any, c, ["x", "x"], [a, b]);
      && |after.tables| == 2 && |Requested(any, after, ["x", "x"], [a, b]).tables| == 3
  {
    var c := Cache([map["x" := b]], map[]);
    assert !Accepts(any, Seen(c)[0], ["x", "x"], [a, b]) by { assert !TypeFits(any, Seen(c)[0]["x"], [a, b][0]); }
    assert LastOf(["x", "x"], 0) == 1;
    assert !AllFit(any, Deciding(["x", "x"], [a, b]), [a, b]) by {
      assert !TypeFits(any, Deciding(["x", "x"], [a, b])[0], [a, b][0]);
    }
    assert !TakesOwn(any, c.tables[0], ["x", "x"], [a, b]) by { assert !TypeFits(any, c.tables[0]["x"], [a, b][0]); }
    RepeatAddsNothingIff(any, c, ["x", "x"], [a, b]);
  }

  /** ... and a parameter with the name of a symbol of the class: the answer to the same request is first the new
      specialization, 1, and then the function itself, 0. */
  lemma {:induction false} ClassSymbolMisses(any: Type, a: Type, b: Type)
    requires any.id == 0 && a.id == 1 && b.id == 2 && !b.open
    ensures var c := Cache([map[]], map["x" := b]);
      && Known(c, ["x"]) && Answer(any, c, ["x"], [a]) == 1
      && Answer(any, Requested(any, c, ["x"], [a]), ["x"], [a]) == 0
  {
    var c := Cache([map[]], map["x" := b]);
    assert !Accepts(any, Seen(c)[0], ["x"], [a]) by { assert !TypeFits(any, Seen(c)[0]["x"], [a][0]); }
    AddedAccepts(any, c, ["x"], [a], 0);
    assert OuterFit(any, c, ["x"], [a]);
  }

  // ---------------------------------------------------------------- the function node

  /** The table of the class that a member function is in; empty for any other function. */
  class Scope {
    var types: Types

    constructor (types: Types)
      ensures this.types == types
    {
      this.types := types;
    }
  }

  class FunctionNode {
    const parameters: seq<string>
    const any: Type
    const context: Scope
    var symbols: Types
    var specializations: seq<Types>
    var currentSpecialization: nat

    ghost function Value(): Cache
      reads this`symbols, this`specializations, context
    {
      Cache([symbols] + specializations, context.types)
    }

    ghost predicate Valid()
      reads this, context
    {
      Known(Value(), parameters) && currentSpecialization <= |specializations|
    }

    constructor (parameters: seq<string>, any: Type, context: Scope, symbols: Types)
      requires Known(Cache([symbols], context.types), parameters)
      ensures Valid() && Value() == Cache([symbols], context.types)
      ensures this.parameters == parameters && this.any == any && this.context == context
    {
      this.parameters, this.any, this.context, this.symbols := parameters, any, context, symbols;
      specializations, currentSpecialization := [], 0;
    }

    /** GetTableEntryForName, eople_ast.cpp:92-107: the entry in the current table, or else in the class's. */
    method GetParameterType(i: nat) returns (t: Type)
      requires Valid() && i < |parameters|
      ensures t == Table(Value(), currentSpecialization)[parameters[i]]
    {
      var types := if currentSpecialization == 0 then symbols else specializations[currentSpecialization - 1];
      assert types == Value().tables[currentSpecialization] && types.Keys == symbols.Keys;
      if parameters[i] in types {
        t := types[parameters[i]];
      } else {
        t := context.types[parameters[i]];
      }
    }

    method SetParameterType(i: nat, t: Type)
      requires 0 < currentSpecialization <= |specializations| && i < |parameters|
      requires parameters[i] in specializations[currentSpecialization - 1] || parameters[i] in context.types
      modifies this`specializations, context
      ensures var k, p := old(currentSpecialization) - 1, parameters[i];
        if p in old(specializations)[k] then
          specializations == old(specializations)[k := old(specializations)[k][p := t]] && context.types == old(context.types)
        else specializations == old(specializations) && context.types == old(context.types)[p := t]
    {
      var k, p := currentSpecialization - 1, parameters[i];
      if p in specializations[k] {
        specializations := specializations[k := specializations[k][p := t]];
      } else {
        context.types := context.types[p := t];
      }
    }

    /** Tries the specializations in turn, each by making it current for a while. */
    method Matches(s: nat, args: seq<Type>) returns (match_: bool)
      requires Valid() && s <= |specializations| && |args| == |parameters|
      modifies this`currentSpecialization
      ensures currentSpecialization == s
      ensures match_ <==> Accepts(any, Seen(Value())[s], parameters, args)
    {
      currentSpecialization := s;
      match_ := true;
      ghost var types := Table(Value(), s);
      var i := 0;
      while i < |args|
        invariant 0 <= i <= |args|
        invariant currentSpecialization == s && match_
        invariant forall j :: 0 <= j < i ==> TypeFits(any, types[parameters[j]], args[j])
      {
        var t := GetParameterType(i);
        if t != any && args[i] != t && (!t.open || args[i].kind != t.kind) {
          assert !TypeFits(any, types[parameters[i]], args[i]);
          return false;
        }
        i := i + 1;
      }
    }

    method FindSpecializationForArgs(args: seq<Type>) returns (index: nat)
      requires Valid() && |args| == |parameters|
      modifies this`currentSpecialization, this`specializations, context
      ensures Valid() && currentSpecialization == old(currentSpecialization)
      ensures index == Answer(any, old(Value()), parameters, args)
      ensures Value() == Requested(any, old(Value()), parameters, args)
    {
      var temp := currentSpecialization;
      var s := 0;
      while s < |specializations| + 1
        invariant 0 <= s <= |specializations| + 1 && currentSpecialization == temp && Value() == old(Value())
        invariant forall k :: 0 <= k < s ==> !Accepts(any, Seen(Value())[k], parameters, args)
      {
        var found := Matches(s, args);
        currentSpecialization := temp;
        if found {
          FirstIs(any, Seen(Value()), parameters, args, s);
          return s;
        }
        s := s + 1;
      }
      FirstIs(any, Seen(Value()), parameters, args, s);
      AddSpecialization(args);
      index := |specializations|;
    }

    method AddSpecialization(args: seq<Type>)
      requires Valid() && |args| == |parameters|
      modifies this`currentSpecialization, this`specializations, context
      ensures Valid() && currentSpecialization == old(currentSpecialization) && symbols == old(symbols)
      ensures Value() == Added(old(Value()), parameters, args)
    {
      var temp := currentSpecialization;
      ghost var before, was := specializations, Value();
      specializations := specializations + [symbols];
      currentSpecialization := |specializations|;
      SetParameterTypes(args, before);
      currentSpecialization := temp;
      Appended(symbols, before, specializations[|before|]);
      assert Value() == Added(was, parameters, args);
    }

    method SetParameterTypes(args: seq<Type>, ghost before: seq<Types>)
      requires specializations == before + [symbols] && currentSpecialization == |before| + 1 && |args| == |parameters|
      requires forall i :: 0 <= i < |parameters| ==> parameters[i] in symbols || parameters[i] in context.types
      modifies this`specializations, context
      ensures specializations == before + [AssignedHere(symbols, symbols.Keys, parameters, args)]
      ensures context.types == AssignedHere(old(context.types), old(context.types).Keys - symbols.Keys, parameters, args)
    {
      ghost var own, outer := symbols.Keys, context.types.Keys - symbols.Keys;
      var i := 0;
      while i < |args|
        invariant 0 <= i <= |args|
        invariant specializations == before + [AssignedHere(symbols, own, parameters[..i], args[..i])]
        invariant context.types == AssignedHere(old(context.types), outer, parameters[..i], args[..i])
      {
        HereStep(symbols, own, parameters, args, i);
        HereStep(old(context.types), outer, parameters, args, i);
        SetParameterType(i, args[i]);
        i := i + 1;
      }
      assert args[..i] == args && parameters[..i] == parameters;
    }
  }

  lemma {:induction false} HereStep(types: Types, here: set<string>, parameters: seq<string>, args: seq<Type>, i: nat)
    requires i < |args| == |parameters| && forall j :: 0 <= j < |parameters| && parameters[j] in here ==> parameters[j] in types
    ensures var r := AssignedHere(types, here, parameters[..i], args[..i]);
      AssignedHere(types, here, parameters[..i + 1], args[..i + 1]) == if parameters[i] in here then r[parameters[i] := args[i]] else r
  {
    assert args[..i + 1][..i] == args[..i] && parameters[..i + 1][..i] == parameters[..i];
  }

  lemma {:induction false} Appended(symbols: Types, before: seq<Types>, last: Types)
    ensures [symbols] + (before + [last]) == [symbols] + before + [last]
  {
  }
}

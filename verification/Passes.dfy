/** The two loops over the blocks of a process, for any way of evaluating a block: `look` gives the new state
    and whether the block's condition was true. */
module Passes {

  /** The blocks looked at in turn, each with the outcome of its condition. */
  datatype Log<B> = Done | Look(b: B, taken: bool, rest: Log)

  /** The end of a pass: the state, the blocks left, and the blocks looked at. */
  datatype PassEnd<W, B> = PassEnd(state: W, left: seq<B>, log: Log<B>)

  function SwapRemoved<B>(blocks: seq<B>, i: nat): seq<B>
    requires i < |blocks|
  {
    blocks[i := blocks[|blocks| - 1]][..|blocks| - 1]
  }

  /** A block whose condition was true is replaced by the last one, which is looked at next. */
  function WhenPass<W, B>(look: (W, B) -> (W, bool), state: W, blocks: seq<B>, i: nat): PassEnd<W, B>
    requires i <= |blocks|
    decreases |blocks| - i
  {
    if i == |blocks| then PassEnd(state, blocks, Done)
    else
      var (after, taken) := look(state, blocks[i]);
      var rest := if taken then WhenPass(look, after, SwapRemoved(blocks, i), i) else WhenPass(look, after, blocks, i + 1);
      rest.(log := Look(blocks[i], taken, rest.log))
  }

  /** A block whose condition was true is replaced by what `renew` makes of it. */
  function EverPass<W, B>(look: (W, B) -> (W, bool), renew: (W, B) -> B, state: W, blocks: seq<B>, i: nat): PassEnd<W, B>
    requires i <= |blocks|
    decreases |blocks| - i
  {
    if i == |blocks| then PassEnd(state, blocks, Done)
    else
      var (after, taken) := look(state, blocks[i]);
      var rest := EverPass(look, renew, after, if taken then blocks[i := renew(after, blocks[i])] else blocks, i + 1);
      rest.(log := Look(blocks[i], taken, rest.log))
  }

  function Looked<B>(log: Log<B>): multiset<B> {
    match log
    case Done => multiset{}
    case Look(b, _, rest) => Looked(rest) + multiset{b}
  }

  function Refused<B>(log: Log<B>): seq<B> {
    match log
    case Done => []
    case Look(b, taken, rest) => if taken then Refused(rest) else [b] + Refused(rest)
  }

  /** The blocks whose condition was true, in the order of the looks. */
  function Fired<B>(log: Log<B>): seq<B> {
    match log
    case Done => []
    case Look(b, taken, rest) => if taken then [b] + Fired(rest) else Fired(rest)
  }

  lemma {:induction false} FiredOrRefused<B>(log: Log<B>)
    ensures Looked(log) == multiset(Fired(log)) + multiset(Refused(log))
  {
    match log
    case Done =>
    case Look(b, taken, rest) =>
      FiredOrRefused(rest);
      assert multiset([b] + Refused(rest)) == multiset{b} + multiset(Refused(rest));
      assert multiset([b] + Fired(rest)) == multiset{b} + multiset(Fired(rest));
  }

  /** The order of the looks, told on the list of the blocks still to come: always its head, and when the condition
      was true the last one moves to the front. */
  predicate Visits<B(==)>(log: Log<B>, queue: seq<B>) {
    match log
    case Done => queue == []
    case Look(b, taken, rest) => queue != [] && b == queue[0] && Visits(rest, if taken then LastFirst(queue[1..]) else queue[1..])
  }

  function LastFirst<B>(queue: seq<B>): seq<B> {
    if queue == [] then [] else [queue[|queue| - 1]] + queue[..|queue| - 1]
  }

  /** Every look found what its block's condition is at that moment, and `end` is the state after the last. */
  ghost predicate Faithful<W(!new), B(!new)>(look: (W, B) -> (W, bool), log: Log<B>, state: W, end: W) {
    match log
    case Done => end == state
    case Look(b, taken, rest) => look(state, b).1 == taken && Faithful(look, rest, look(state, b).0, end)
  }

  /** The pass does nothing to the state but look at blocks, each with the outcome its condition has then. */
  lemma {:induction false} WhenPassFaithful<W(!new), B(!new)>(look: (W, B) -> (W, bool), state: W, blocks: seq<B>, i: nat)
    requires i <= |blocks|
    ensures var r := WhenPass(look, state, blocks, i); Faithful(look, r.log, state, r.state)
    decreases |blocks| - i
  {
    if i < |blocks| {
      var (after, taken) := look(state, blocks[i]);
      if taken { WhenPassFaithful(look, after, SwapRemoved(blocks, i), i); } else { WhenPassFaithful(look, after, blocks, i + 1); }
    }
  }

  /** It looks at every block exactly once, and keeps exactly those whose condition was false, in the order it
      came to them. */
  lemma {:induction false} WhenPassExact<W(!new), B(!new)>(look: (W, B) -> (W, bool), state: W, blocks: seq<B>, i: nat)
    requires i <= |blocks|
    ensures var r := WhenPass(look, state, blocks, i);
      && Looked(r.log) == multiset(blocks[i..])
      && r.left == blocks[..i] + Refused(r.log)
      && Visits(r.log, blocks[i..])
    decreases |blocks| - i
  {
    if i < |blocks| {
      var (after, taken) := look(state, blocks[i]);
      if taken {
        WhenPassExact(look, after, SwapRemoved(blocks, i), i);
        SwapRemovedRest(blocks, i);
      } else {
        WhenPassExact(look, after, blocks, i + 1);
        KeptBlock(blocks, i, Refused(WhenPass(look, after, blocks, i + 1).log));
      }
    }
  }

  lemma KeptBlock<B>(blocks: seq<B>, i: nat, rest: seq<B>)
    requires i < |blocks|
    ensures multiset(blocks[i..]) == multiset(blocks[i + 1..]) + multiset{blocks[i]}
    ensures blocks[..i + 1] + rest == blocks[..i] + ([blocks[i]] + rest) && blocks[i..][1..] == blocks[i + 1..]
  {
    assert blocks[i..] == [blocks[i]] + blocks[i + 1..];
    assert blocks[..i + 1] == blocks[..i] + [blocks[i]];
  }

  lemma SwapRemovedRest<B>(blocks: seq<B>, i: nat)
    requires i < |blocks|
    ensures multiset(blocks[i..]) == multiset(SwapRemoved(blocks, i)[i..]) + multiset{blocks[i]}
    ensures SwapRemoved(blocks, i)[..i] == blocks[..i] && SwapRemoved(blocks, i)[i..] == LastFirst(blocks[i..][1..])
  {
    var last := |blocks| - 1;
    assert blocks[i..] == [blocks[i]] + blocks[i + 1..];
    if i < last {
      assert blocks[i + 1..] == blocks[i + 1..last] + [blocks[last]];
      assert SwapRemoved(blocks, i)[i..] == [blocks[last]] + blocks[i + 1..last];
    } else {
      assert SwapRemoved(blocks, i)[i..] == [];
    }
  }

  function Outcomes<B>(log: Log<B>): seq<bool> {
    match log
    case Done => []
    case Look(_, taken, rest) => [taken] + Outcomes(rest)
  }

  function Order<B>(log: Log<B>): seq<B> {
    match log
    case Done => []
    case Look(b, _, rest) => [b] + Order(rest)
  }

  lemma {:induction false} EverPassFaithful<W(!new), B(!new)>(
      look: (W, B) -> (W, bool), renew: (W, B) -> B, state: W, blocks: seq<B>, i: nat)
    requires i <= |blocks|
    ensures var r := EverPass(look, renew, state, blocks, i); Faithful(look, r.log, state, r.state)
    decreases |blocks| - i
  {
    if i < |blocks| {
      var (after, taken) := look(state, blocks[i]);
      EverPassFaithful(look, renew, after, if taken then blocks[i := renew(after, blocks[i])] else blocks, i + 1);
    }
  }

  /** No whenever block is ever removed.  Each is looked at once, in order; the blocks whose condition was
      false are left alone. */
  lemma {:induction false} EverPassExact<W(!new), B(!new)>(
      look: (W, B) -> (W, bool), renew: (W, B) -> B, state: W, blocks: seq<B>, i: nat)
    requires i <= |blocks|
    ensures var r := EverPass(look, renew, state, blocks, i);
      && Order(r.log) == blocks[i..]
      && |r.left| == |blocks| && |Outcomes(r.log)| == |blocks| - i
      && (forall k :: 0 <= k < i ==> r.left[k] == blocks[k])
      && (forall k :: i <= k < |blocks| && !Outcomes(r.log)[k - i] ==> r.left[k] == blocks[k])
    decreases |blocks| - i
  {
    if i < |blocks| {
      var (after, taken) := look(state, blocks[i]);
      var next := if taken then blocks[i := renew(after, blocks[i])] else blocks;
      EverPassExact(look, renew, after, next, i + 1);
      assert blocks[i..] == [blocks[i]] + next[i + 1..];
    }
  }
}

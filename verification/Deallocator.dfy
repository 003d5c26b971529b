/** Frees that are delayed in memory, and the deallocator's loop over them. */
module Deallocator {
  import opened EpochPhase
  import opened Sequences
  import opened Protocol
  import E = Epochs

  /** The allocator, seen as the addresses that it has been given back, in order. */
  class Allocator {
    var freed: seq<int>

    constructor ()
      ensures freed == []
    {
      freed := [];
    }

    method Free(addr: int)
      modifies this
      ensures freed == old(freed) + [addr]
    {
      freed := freed + [addr];
    }
  }

  class Context {
    var epoch: E.Word
    var delayed: Pair<seq<int>>

    constructor ()
      ensures epoch == E.OUTSIDE && delayed == Pair([], [])
    {
      epoch := E.OUTSIDE;
      delayed := Pair([], []);
    }

    /**
     * Gives the address back, or delays it if the operation began while two epochs existed. Outside an operation it
     * is one of its own: `global` is the word that its begin_op agrees on.
     */
    method Free(addr: int, allocator: Allocator, global: E.Word)
      requires global != E.OUTSIDE
      modifies this, allocator
      ensures epoch == old(epoch)
      ensures
        var e := if old(epoch) == E.OUTSIDE then global else old(epoch);
        var p, late := E.Parity(e.num), e.phase == MultiEpochExistence;
        && delayed == (if late then old(delayed).With(p, old(delayed).At(p) + [addr]) else old(delayed))
        && allocator.freed == if late then old(allocator.freed) else old(allocator.freed) + [addr]
    {
      var isOutOfTransaction := epoch == E.OUTSIDE;
      if isOutOfTransaction {
        epoch := global;
      }
      var curr := epoch.num % 2 == 1;
      if epoch.phase == MultiEpochExistence {
        delayed := delayed.With(curr, delayed.At(curr) + [addr]);
      } else {
        allocator.Free(addr);
      }
      if isOutOfTransaction {
        epoch := E.OUTSIDE;
      }
    }
  }

  /** How often an address is in some lists. */
  function Times(lists: seq<seq<int>>, addr: int): nat {
    if lists == [] then 0 else Times(lists[..|lists| - 1], addr) + multiset(lists[|lists| - 1])[addr]
  }

  /** Every occurrence of an address in a list is one free of it. */
  lemma {:induction false} EachFreedOnce(lists: seq<seq<int>>, addr: int)
    ensures multiset(Concat(lists))[addr] == Times(lists, addr)
  {
    if lists != [] {
      EachFreedOnce(lists[..|lists| - 1], addr);
    }
  }

  ghost function Delayed(ctxs: seq<Context>, p: bool): (lists: seq<seq<int>>)
    reads ctxs
    ensures |lists| == |ctxs| && forall c | 0 <= c < |ctxs| :: lists[c] == ctxs[c].delayed.At(p)
  {
    if ctxs == [] then [] else Delayed(ctxs[..|ctxs| - 1], p) + [ctxs[|ctxs| - 1].delayed.At(p)]
  }

  method FreeAll(list: seq<int>, allocator: Allocator)
    modifies allocator
    ensures allocator.freed == old(allocator.freed) + list
  {
    for i := 0 to |list|
      invariant allocator.freed == old(allocator.freed) + list[..i]
    {
      allocator.Free(list[i]);
    }
    assert list[..|list|] == list;
  }

  /** Frees what the previous epoch delayed, context by context, and empties those lists. */
  method Dealloc(globalEpoch: nat, ctxs: seq<Context>, allocator: Allocator)
    requires 0 < globalEpoch
    requires forall i, j | 0 <= i < j < |ctxs| :: ctxs[i] != ctxs[j]
    modifies ctxs`delayed, allocator
    ensures allocator.freed == old(allocator.freed) + Concat(old(Delayed(ctxs, E.Parity(globalEpoch - 1))))
    ensures forall c | 0 <= c < |ctxs| :: ctxs[c].delayed == old(ctxs[c].delayed).With(E.Parity(globalEpoch - 1), [])
  {
    var prev := (globalEpoch - 1) % 2 == 1;
    ghost var lists := Delayed(ctxs, prev);
    for c := 0 to |ctxs|
      invariant allocator.freed == old(allocator.freed) + Concat(lists[..c])
      invariant forall i | 0 <= i < c :: ctxs[i].delayed == old(ctxs[i].delayed).With(prev, [])
      invariant forall i | c <= i < |ctxs| :: ctxs[i].delayed == old(ctxs[i].delayed)
    {
      assert lists[..c + 1][..c] == lists[..c];
      FreeAll(ctxs[c].delayed.At(prev), allocator);
      ctxs[c].delayed := ctxs[c].delayed.With(prev, []);
    }
    assert lists[..|ctxs|] == lists;
  }
}

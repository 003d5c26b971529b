/** The checkpointing thread's loop over the lines that users marked in the previous epoch. */
module Persisting {
  import opened Redo
  import opened Protocol
  import opened Marking
  import E = Epochs

  /** A bitmap and the log of the checkpointing thread. */
  datatype Work = Work(bits: seq<bool>, log: seq<Entry>)

  /** What visiting some lines, one after the other, does. */
  ghost predicate Persisted(lines: seq<nat>, dram: seq<Value>, was: Work, next: Work) {
    && |was.bits| == |next.bits| == |dram|
    && (forall l | 0 <= l < |dram| :: next.bits[l] == (was.bits[l] && l !in lines))
    && next.log == was.log + Dump(was.bits, dram, lines)
  }

  lemma {:induction false} DumpConcat(mask: seq<bool>, rest: seq<bool>, dram: seq<Value>, a: seq<nat>, b: seq<nat>)
    requires |mask| == |rest| == |dram|
    requires forall l | 0 <= l < |dram| :: rest[l] == (mask[l] && l !in a)
    ensures Dump(mask, dram, a + b) == Dump(mask, dram, a) + Dump(rest, dram, b)
    decreases |b|
  {
    if b == [] {
      assert a + b == a;
    } else {
      var n := |b| - 1;
      DumpConcat(mask, rest, dram, a, b[..n]);
      assert (a + b)[..|a + b| - 1] == a + b[..n];
    }
  }

  lemma PersistedConcat(a: seq<nat>, b: seq<nat>, dram: seq<Value>, start: Work, was: Work, next: Work)
    requires Persisted(a, dram, start, was) && Persisted(b, dram, was, next)
    ensures Persisted(a + b, dram, start, next)
  {
    DumpConcat(start.bits, was.bits, dram, a, b);
  }

  lemma PersistedNothing(dram: seq<Value>, was: Work)
    requires |was.bits| == |dram|
    ensures Persisted([], dram, was, was)
  {
  }

  /** The lines in the lists of all contexts. */
  function Visited(lists: seq<seq<Range>>): seq<nat> {
    if lists == [] then [] else Visited(lists[..|lists| - 1]) + AllLines(lists[|lists| - 1])
  }

  ghost predicate Listed(lists: seq<seq<Range>>, l: nat) {
    exists c :: 0 <= c < |lists| && Covers(lists[c], l)
  }

  lemma ListedStep(lists: seq<seq<Range>>, l: nat)
    requires lists != []
    ensures Listed(lists, l) <==> Listed(lists[..|lists| - 1], l) || Covers(lists[|lists| - 1], l)
  {
    hide Covers;
    var n := |lists| - 1;
    if Listed(lists[..n], l) {
      var c :| 0 <= c < n && Covers(lists[..n][c], l);
      assert Covers(lists[c], l);
    }
    if Listed(lists, l) {
      var c :| 0 <= c < |lists| && Covers(lists[c], l);
      assert c < n ==> Covers(lists[..n][c], l);
    }
  }

  lemma {:induction false} InVisited(lists: seq<seq<Range>>, l: nat)
    ensures l in Visited(lists) <==> Listed(lists, l)
  {
    if lists != [] {
      hide Listed, Covers;
      InVisited(lists[..|lists| - 1], l);
      InAllLines(lists[|lists| - 1], l);
      ListedStep(lists, l);
    }
  }

  ghost predicate Fits(ranges: seq<Range>, size: nat) {
    forall k | 0 <= k < |ranges| :: ranges[k].base + ranges[k].count <= size
  }

  ghost function Lists(ctxs: seq<Context>, p: bool): (lists: seq<seq<Range>>)
    reads ctxs
    ensures |lists| == |ctxs| && forall c | 0 <= c < |ctxs| :: lists[c] == ctxs[c].lists.At(p)
  {
    if ctxs == [] then [] else Lists(ctxs[..|ctxs| - 1], p) + [ctxs[|ctxs| - 1].lists.At(p)]
  }

  class Checkpointer {
    var log: seq<Entry>

    constructor ()
      ensures log == []
    {
      log := [];
    }

    ghost function Seen(bitmap: Bitmap): Work
      reads this, bitmap.bits
    {
      Work(bitmap.bits[..], log)
    }

    method PersistLine(bitmap: Bitmap, dram: array<Value>, l: nat)
      requires l < bitmap.bits.Length == dram.Length
      modifies this`log, bitmap.bits
      ensures Persisted([l], dram[..], old(Seen(bitmap)), Seen(bitmap))
    {
      assert [l][..0] == [];
      if bitmap.IsSet(l) {
        log := log + [Entry(l, dram[l])];
        bitmap.Clear(l);
      }
    }

    method PersistRange(bitmap: Bitmap, dram: array<Value>, range: Range)
      requires range.base + range.count <= bitmap.bits.Length == dram.Length
      modifies this`log, bitmap.bits
      ensures Persisted(Lines(range), dram[..], old(Seen(bitmap)), Seen(bitmap))
    {
      ghost var start, heap := Seen(bitmap), dram[..];
      PersistedNothing(heap, start);
      assert Lines(Range(range.base, 0)) == [];
      for i := 0 to range.count
        invariant Persisted(Lines(Range(range.base, i)), heap, start, Seen(bitmap))
      {
        hide Persisted, Dump;
        ghost var was := Seen(bitmap);
        PersistLine(bitmap, dram, range.base + i);
        PersistedConcat(Lines(Range(range.base, i)), [range.base + i], heap, start, was, Seen(bitmap));
        assert Lines(Range(range.base, i + 1)) == Lines(Range(range.base, i)) + [range.base + i];
      }
    }

    /** One context: afterwards its list is empty. */
    method PersistContext(bitmap: Bitmap, dram: array<Value>, ctx: Context, prev: bool)
      requires bitmap.bits.Length == dram.Length && Fits(ctx.lists.At(prev), dram.Length)
      modifies this`log, bitmap.bits, ctx`lists
      ensures Persisted(AllLines(old(ctx.lists.At(prev))), dram[..], old(Seen(bitmap)), Seen(bitmap))
      ensures ctx.lists == old(ctx.lists).With(prev, [])
    {
      ghost var start, heap := Seen(bitmap), dram[..];
      PersistedNothing(heap, start);
      var list := ctx.lists.At(prev);
      for k := 0 to |list|
        invariant Persisted(AllLines(list[..k]), heap, start, Seen(bitmap))
        invariant ctx.lists == old(ctx.lists)
      {
        ghost var was := Seen(bitmap);
        PersistRange(bitmap, dram, list[k]);
        PersistedConcat(AllLines(list[..k]), Lines(list[k]), heap, start, was, Seen(bitmap));
        assert list[..k + 1][..k] == list[..k];
      }
      assert list[..|list|] == list;
      ctx.lists := ctx.lists.With(prev, []);
    }

    method PersistContexts(bitmap: Bitmap, dram: array<Value>, ctxs: seq<Context>, prev: bool, ghost lists: seq<seq<Range>>)
      requires bitmap.bits.Length == dram.Length
      requires forall i, j | 0 <= i < j < |ctxs| :: ctxs[i] != ctxs[j]
      requires |lists| == |ctxs|
      requires forall c | 0 <= c < |ctxs| :: lists[c] == ctxs[c].lists.At(prev) && Fits(lists[c], dram.Length)
      modifies this`log, bitmap.bits, ctxs`lists
      ensures Persisted(Visited(lists), dram[..], old(Seen(bitmap)), Seen(bitmap))
      ensures forall c | 0 <= c < |ctxs| :: ctxs[c].lists == old(ctxs[c].lists).With(prev, [])
    {
      ghost var start, heap := Seen(bitmap), dram[..];
      PersistedNothing(heap, start);
      for c := 0 to |ctxs|
        invariant Persisted(Visited(lists[..c]), heap, start, Seen(bitmap))
        invariant forall i | 0 <= i < c :: ctxs[i].lists == old(ctxs[i].lists).With(prev, [])
        invariant forall i | c <= i < |ctxs| :: ctxs[i].lists == old(ctxs[i].lists)
      {
        ghost var was := Seen(bitmap);
        PersistContext(bitmap, dram, ctxs[c], prev);
        PersistedConcat(Visited(lists[..c]), AllLines(lists[c]), heap, start, was, Seen(bitmap));
        assert lists[..c + 1][..c] == lists[..c];
      }
      assert lists[..|ctxs|] == lists;
    }

    /** Writes out, once each, the marked lines of the previous epoch that no user has saved. */
    method LogPersistenceUnit(globalEpoch: nat, bitmaps: Pair<Bitmap>, dram: array<Value>, ctxs: seq<Context>)
      requires 0 < globalEpoch
      requires bitmaps.even.bits.Length == bitmaps.odd.bits.Length == dram.Length
      requires forall i, j | 0 <= i < j < |ctxs| :: ctxs[i] != ctxs[j]
      requires forall c | 0 <= c < |ctxs| :: Fits(ctxs[c].lists.At(E.Parity(globalEpoch - 1)), dram.Length)
      modifies this`log, bitmaps.At(E.Parity(globalEpoch - 1)).bits, ctxs`lists
      ensures
        var p := E.Parity(globalEpoch - 1);
        Persisted(Visited(old(Lists(ctxs, p))), dram[..], old(Seen(bitmaps.At(p))), Seen(bitmaps.At(p)))
      ensures forall c | 0 <= c < |ctxs| :: ctxs[c].lists == old(ctxs[c].lists).With(E.Parity(globalEpoch - 1), [])
    {
      var prev := (globalEpoch - 1) % 2 == 1;
      PersistContexts(bitmaps.At(prev), dram, ctxs, prev, Lists(ctxs, prev));
    }
  }

  /**
   * If every set bit is in some list, the bitmap is all clear afterwards, and the new entries are exactly one for
   * each line that was set, with its content.
   */
  lemma EveryDirtyLineOnce(lists: seq<seq<Range>>, dram: seq<Value>, was: Work, next: Work)
    requires Persisted(Visited(lists), dram, was, next)
    requires forall l | 0 <= l < |dram| && was.bits[l] :: Listed(lists, l)
    ensures forall l | 0 <= l < |dram| :: !next.bits[l]
    ensures |was.log| <= |next.log| && next.log[..|was.log|] == was.log
    ensures
      var added := next.log[|was.log|..];
      && (forall l: nat :: HasLine(added, l) <==> l < |dram| && was.bits[l])
      && (forall x | x in added :: x.line < |dram| && x.val == dram[x.line])
      && (forall i, j | 0 <= i < j < |added| :: added[i].line != added[j].line)
  {
    forall l: nat | l < |dram| && was.bits[l]
      ensures l in Visited(lists)
    {
      InVisited(lists, l);
    }
    DumpExact(was.bits, dram, Visited(lists));
    assert next.log[|was.log|..] == Dump(was.bits, dram, Visited(lists));
  }
}

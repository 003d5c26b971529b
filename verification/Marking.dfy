/**
 * The user's and the checkpointing thread's loops over dirty lines, on the bitmaps and logs as they are in memory.
 * Addresses count from the start of the heap, which is aligned to a cache line.
 */
module Marking {
  import opened Redo
  import opened Protocol
  import E = Epochs

  const CACHE_LINE_SIZE: nat := 64

  function Index(addr: nat): nat {
    addr / CACHE_LINE_SIZE
  }

  function NumBits(size: nat): nat {
    (size + CACHE_LINE_SIZE - 1) / CACHE_LINE_SIZE
  }

  function Aligned(addr: nat): nat {
    addr - addr % CACHE_LINE_SIZE
  }

  /** The range of lines that `mark` visits. */
  function Marked(addr: nat, size: nat): Range {
    Range(Index(addr), NumBits(size))
  }

  predicate InLine(a: nat, l: nat) {
    a / 64 == l
  }

  /** Some byte of the region is in the line. */
  ghost predicate Touched(addr: nat, size: nat, l: nat) {
    exists a :: addr <= a < addr + size && InLine(a, l)
  }

  /** How many lines are visited, and from which on: those of a region of that size that begins with a line. */
  lemma MarkedCount(addr: nat, size: nat)
    ensures
      var r := Marked(addr, size);
      && InLine(addr, r.base)
      && (size == 0 <==> r.count == 0)
      && (0 < size ==> 64 * (r.count - 1) < size <= 64 * r.count)
  {
  }

  /** No line is visited that has no byte of the region. */
  lemma MarkedIsTouched(addr: nat, size: nat, l: nat)
    requires Marked(addr, size).Has(l)
    ensures Touched(addr, size, l)
  {
    MarkedCount(addr, size);
    var a := if l == addr / 64 then addr else 64 * l;
    assert InLine(a, l) && addr <= a < addr + size;
  }

  /** All the lines of its bytes are visited exactly if the region does not begin too late in its first line. */
  lemma Coverage(addr: nat, size: nat)
    ensures (forall l: nat :: Marked(addr, size).Has(l) <==> Touched(addr, size, l))
       <==> size == 0 || addr % 64 + size <= 64 * ((size + 63) / 64)
    ensures Index(Aligned(addr)) == Index(addr)
  {
    MarkedCount(addr, size);
    forall l: nat | Marked(addr, size).Has(l)
      ensures Touched(addr, size, l)
    {
      MarkedIsTouched(addr, size, l);
    }
    if 0 < size && addr % 64 + size > 64 * ((size + 63) / 64) {
      var a := addr + size - 1;
      assert InLine(a, a / 64) && Touched(addr, size, a / 64);
      assert !Marked(addr, size).Has(a / 64);
    }
  }

  /** Of an aligned region, as `pnew` allocates, exactly the lines of its bytes are visited. */
  lemma AlignedMarksExactly(addr: nat, size: nat, l: nat)
    requires addr % 64 == 0
    ensures Marked(addr, size).Has(l) <==> Touched(addr, size, l)
  {
    Coverage(addr, size);
  }

  /** Eight bytes across the end of a line: the second line is not marked. */
  lemma StraddlingMissed()
    ensures !Marked(60, 8).Has(Index(67))
  {
  }

  /** The lines of a range, in order. */
  function Lines(r: Range): (lines: seq<nat>)
    ensures |lines| == r.count && forall i | 0 <= i < r.count :: lines[i] == r.base + i
  {
    seq(r.count, i requires 0 <= i => r.base + i)
  }

  /** The lines of some ranges; one that is in several ranges comes several times. */
  function AllLines(ranges: seq<Range>): seq<nat> {
    if ranges == [] then [] else AllLines(ranges[..|ranges| - 1]) + Lines(ranges[|ranges| - 1])
  }

  lemma {:induction false} InAllLines(ranges: seq<Range>, l: nat)
    ensures l in AllLines(ranges) <==> Covers(ranges, l)
  {
    if ranges != [] {
      var n := |ranges| - 1;
      InAllLines(ranges[..n], l);
      assert Covers(ranges, l) <==> Covers(ranges[..n], l) || ranges[n].Has(l);
      if ranges[n].Has(l) {
        assert Lines(ranges[n])[l - ranges[n].base] == l;
      }
    }
  }

  /** An entry for each line of `lines` that is in the set, when it is met for the first time. */
  function Dump(mask: seq<bool>, dram: seq<Value>, lines: seq<nat>): seq<Entry>
    requires |mask| == |dram|
  {
    if lines == [] then []
    else
      var l := lines[|lines| - 1];
      var front := lines[..|lines| - 1];
      Dump(mask, dram, front) + if l < |mask| && mask[l] && l !in front then [Entry(l, dram[l])] else []
  }

  /** Exactly one entry for each visited line of the set, with its content, and none for other lines. */
  lemma {:induction false} DumpExact(mask: seq<bool>, dram: seq<Value>, lines: seq<nat>)
    requires |mask| == |dram|
    ensures forall l: nat :: HasLine(Dump(mask, dram, lines), l) <==> l in lines && l < |mask| && mask[l]
    ensures forall x | x in Dump(mask, dram, lines) :: x.line < |dram| && x.val == dram[x.line]
    ensures forall i, j | 0 <= i < j < |Dump(mask, dram, lines)| ::
              Dump(mask, dram, lines)[i].line != Dump(mask, dram, lines)[j].line
  {
    if lines != [] {
      var n := |lines| - 1;
      var l := lines[n];
      var front := Dump(mask, dram, lines[..n]);
      var all := Dump(mask, dram, lines);
      DumpExact(mask, dram, lines[..n]);
      assert lines == lines[..n] + [l];
      forall m: nat
        ensures HasLine(all, m) <==> m in lines && m < |mask| && mask[m]
      {
        if HasLine(front, m) {
          var j :| 0 <= j < |front| && front[j].line == m;
          assert all[j].line == m;
        }
        if |all| == |front| + 1 && m == l {
          assert all[|front|].line == m;
        }
      }
      forall i, j | 0 <= i < j < |all|
        ensures all[i].line != all[j].line
      {
        if j == |front| {
          assert HasLine(front, all[i].line);
        }
      }
    }
  }

  class Bitmap {
    const bits: array<bool>

    constructor (size: nat)
      ensures fresh(bits) && bits.Length == size && forall i | 0 <= i < size :: !bits[i]
    {
      bits := new bool[size](_ => false);
    }

    predicate IsSet(index: nat)
      requires index < bits.Length
      reads bits
    {
      bits[index]
    }

    /** The assertion of the library that the bit is clear holds in programs without data races. */
    method Set(index: nat)
      requires index < bits.Length && !bits[index]
      modifies bits
      ensures bits[..] == old(bits[..])[index := true]
    {
      bits[index] := true;
    }

    method Clear(index: nat)
      requires index < bits.Length
      modifies bits
      ensures bits[..] == old(bits[..])[index := false]
    {
      bits[index] := false;
    }
  }

  /** Lines that are dirty for the previous epoch and not yet marked in this one: their old content must be saved. */
  function ToSave(curr: seq<bool>, prev: seq<bool>): (mask: seq<bool>)
    requires |curr| == |prev|
    ensures |mask| == |prev| && forall l | 0 <= l < |mask| :: mask[l] == (prev[l] && !curr[l])
  {
    seq(|curr|, l requires 0 <= l < |curr| => prev[l] && !curr[l])
  }

  /** The lines of the range are marked; those marked before keep their bit for the previous epoch. */
  ghost predicate BitsMarked(range: Range, wasCurr: seq<bool>, wasPrev: seq<bool>, curr: seq<bool>, prev: seq<bool>) {
    && |wasCurr| == |wasPrev| == |curr| == |prev|
    && (forall l | 0 <= l < |curr| :: curr[l] == (wasCurr[l] || range.Has(l)))
    && (forall l | 0 <= l < |prev| :: prev[l] == (wasPrev[l] && (range.Has(l) ==> wasCurr[l])))
  }

  ghost predicate AnyNew(range: Range, wasCurr: seq<bool>) {
    exists l :: 0 <= l < |wasCurr| && range.Has(l) && !wasCurr[l]
  }

  /** The bitmaps, as they were or are, and the redo log and the flag of a thread that marks. */
  datatype View = View(curr: seq<bool>, prev: seq<bool>, log: seq<Entry>, isNew: bool)

  /** What marking a range does. */
  ghost predicate RangeMarked(range: Range, dram: seq<Value>, was: View, next: View) {
    && |was.curr| == |was.prev| == |dram|
    && BitsMarked(range, was.curr, was.prev, next.curr, next.prev)
    && next.log == was.log + Dump(ToSave(was.curr, was.prev), dram, Lines(range))
    && next.isNew == AnyNew(range, was.curr)
  }

  /** What marking one line does. */
  ghost predicate LineMarked(l: nat, dram: seq<Value>, was: View, next: View) {
    && l < |was.curr| == |was.prev| == |dram|
    && next.curr == was.curr[l := true]
    && next.prev == was.prev[l := was.prev[l] && was.curr[l]]
    && next.log == was.log + (if was.prev[l] && !was.curr[l] then [Entry(l, dram[l])] else [])
    && next.isNew == (was.isNew || !was.curr[l])
  }

  lemma AnyNewStep(base: nat, n: nat, curr: seq<bool>)
    requires base + n < |curr|
    ensures AnyNew(Range(base, n + 1), curr) <==> AnyNew(Range(base, n), curr) || !curr[base + n]
  {
    var l := base + n;
    if AnyNew(Range(base, n), curr) {
      var m :| 0 <= m < |curr| && Range(base, n).Has(m) && !curr[m];
      assert Range(base, n + 1).Has(m);
    }
    if !curr[l] {
      assert Range(base, n + 1).Has(l);
    }
  }

  lemma DumpStep(base: nat, n: nat, mask: seq<bool>, dram: seq<Value>)
    requires base + n < |mask| == |dram|
    ensures Dump(mask, dram, Lines(Range(base, n + 1))) ==
            Dump(mask, dram, Lines(Range(base, n))) + if mask[base + n] then [Entry(base + n, dram[base + n])] else []
  {
    var lines := Lines(Range(base, n));
    assert Lines(Range(base, n + 1)) == lines + [base + n];
    assert (lines + [base + n])[..n] == lines;
  }

  lemma MarkStep(base: nat, n: nat, dram: seq<Value>, start: View, was: View, next: View)
    requires RangeMarked(Range(base, n), dram, start, was)
    requires LineMarked(base + n, dram, was, next)
    ensures RangeMarked(Range(base, n + 1), dram, start, next)
  {
    hide Dump, AnyNew, Lines;
    AnyNewStep(base, n, start.curr);
    DumpStep(base, n, ToSave(start.curr, start.prev), dram);
    assert was.curr[base + n] == start.curr[base + n] && was.prev[base + n] == start.prev[base + n];
  }

  /** The fields of a user's context that marking works with; its redo log is seen as the sequence of its entries. */
  class Context {
    var epoch: nat
    var lists: Pair<seq<Range>>
    var log: seq<Entry>

    constructor ()
      ensures epoch == 0 && lists == Pair([], []) && log == []
    {
      epoch := 0;
      lists := Pair([], []);
      log := [];
    }

    ghost function Seen(curr: Bitmap, prev: Bitmap, isNew: bool): View
      reads this, curr.bits, prev.bits
    {
      View(curr.bits[..], prev.bits[..], log, isNew)
    }

    /** The work on one line; the flag is raised if the line was not marked before. */
    method MarkLine(curr: Bitmap, prev: Bitmap, dram: array<Value>, index: nat, isAppendList: bool) returns (r: bool)
      requires curr.bits != prev.bits && curr.bits.Length == prev.bits.Length == dram.Length && index < dram.Length
      modifies this`log, curr.bits, prev.bits
      ensures LineMarked(index, dram[..], old(Seen(curr, prev, isAppendList)), Seen(curr, prev, r))
    {
      r := isAppendList;
      if !curr.IsSet(index) {
        if prev.IsSet(index) {
          prev.Clear(index);
          log := log + [Entry(index, dram[index])];
        }
        curr.Set(index);
        r := true;
      }
    }

    method MarkLines(curr: Bitmap, prev: Bitmap, dram: array<Value>, base: nat, numBits: nat) returns (isAppendList: bool)
      requires curr.bits != prev.bits && curr.bits.Length == prev.bits.Length == dram.Length
      requires base + numBits <= dram.Length
      modifies this`log, curr.bits, prev.bits
      ensures RangeMarked(Range(base, numBits), dram[..], old(Seen(curr, prev, false)), Seen(curr, prev, isAppendList))
    {
      isAppendList := false;
      ghost var start, heap := Seen(curr, prev, false), dram[..];
      for index := base to base + numBits
        invariant RangeMarked(Range(base, index - base), heap, start, Seen(curr, prev, isAppendList))
      {
        ghost var was := Seen(curr, prev, isAppendList);
        isAppendList := MarkLine(curr, prev, dram, index, isAppendList);
        assert base + (index - base) == index;
        MarkStep(base, index - base, heap, start, was, Seen(curr, prev, isAppendList));
      }
    }

    /** Marks a region: saves the old content of its lines that the checkpointing thread still has to write out. */
    method Mark(bitmaps: Pair<Bitmap>, dram: array<Value>, addr: nat, size: nat)
      requires epoch != 0
      requires bitmaps.even.bits != bitmaps.odd.bits
      requires bitmaps.even.bits.Length == bitmaps.odd.bits.Length == dram.Length
      requires Index(addr) + NumBits(size) <= dram.Length
      modifies this`lists, this`log, bitmaps.even.bits, bitmaps.odd.bits
      ensures
        var p := E.Parity(epoch);
        var curr, prev := bitmaps.At(p).bits, bitmaps.At(!p).bits;
        var range := Marked(addr, size);
        && BitsMarked(range, old(curr[..]), old(prev[..]), curr[..], prev[..])
        && log == old(log) + Dump(ToSave(old(curr[..]), old(prev[..])), dram[..], Lines(range))
        && lists == if AnyNew(range, old(curr[..])) then old(lists).With(p, old(lists).At(p) + [range]) else old(lists)
    {
      var p := epoch % 2 == 1;
      var curr, prev := bitmaps.At(p), bitmaps.At(!p);
      var base, numBits := Index(addr), NumBits(size);
      var isAppendList := MarkLines(curr, prev, dram, base, numBits);
      if isAppendList {
        lists := lists.With(p, lists.At(p) + [Range(base, numBits)]);
      }
    }
  }
}

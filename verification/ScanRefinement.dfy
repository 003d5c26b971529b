/** The checkpointing thread's loop over dirty lines as steps of the transition system, run alone. */
module ScanRefinement {
  import opened Redo
  import opened Protocol
  import opened Marking
  import opened MarkRefinement
  import opened Solo
  import P = Persisting

  ghost function WorkOf(s: State): P.Work {
    P.Work(s.bits.At(Prev(s)), s.master)
  }

  /** Nothing but the old bitmap, the master log and the lists may differ. */
  ghost predicate OnlyScan(s: State, s': State) {
    && s' == s.(bits := s'.bits, master := s'.master, cp := s'.cp, ctxs := s'.ctxs)
    && s'.bits.At(!Prev(s)) == s.bits.At(!Prev(s))
  }

  /** The lines have been visited, one after the other. */
  ghost predicate Scanned(lines: seq<nat>, s: State, s': State) {
    Sized(s) && Sized(s') && OnlyScan(s, s') && P.Persisted(lines, s.dram, WorkOf(s), WorkOf(s'))
  }

  lemma ScannedFacts(lines: seq<nat>, s: State, s': State)
    requires Scanned(lines, s, s')
    ensures Sized(s') && s'.dram == s.dram && s'.ep == s.ep && OnlyScan(s, s')
    ensures P.Persisted(lines, s.dram, WorkOf(s), WorkOf(s'))
  {
  }

  lemma ScannedConcat(a: seq<nat>, b: seq<nat>, s: State, mid: State, s': State)
    requires Scanned(a, s, mid) && Scanned(b, mid, s')
    ensures Scanned(a + b, s, s')
  {
    P.PersistedConcat(a, b, s.dram, WorkOf(s), WorkOf(mid), WorkOf(s'));
  }

  lemma ScannedNothing(s: State, s': State)
    requires Sized(s) && s' == s.(cp := s'.cp, ctxs := s'.ctxs)
    ensures Scanned([], s, s')
  {
    P.PersistedNothing(s.dram, WorkOf(s));
  }

  ghost predicate Ran(lines: seq<nat>, s: State, acts: seq<Action>, s': State) {
    SoloRun(Scanner, s, acts, s') && Scanned(lines, s, s')
  }

  lemma RanConcat(a: seq<nat>, b: seq<nat>, s: State, front: seq<Action>, mid: State, back: seq<Action>, s': State)
    requires Ran(a, s, front, mid) && Ran(b, mid, back, s')
    ensures Ran(a + b, s, front + back, s')
  {
    hide SoloRun, Scanned;
    SoloConcat(Scanner, s, front, mid, back, s');
    ScannedConcat(a, b, s, mid, s');
  }

  lemma RanNothing(s: State)
    requires Sized(s)
    ensures Ran([], s, [], s)
  {
    ScannedNothing(s, s);
  }

  /** A step that only moves the checkpointing thread on, or clears a list, at the end. */
  lemma RanFinally(lines: seq<nat>, s: State, front: seq<Action>, mid: State, s': State)
    requires Ran(lines, s, front, mid) && Enabled(mid, ScanStep) && s' == Next(mid, ScanStep)
    requires s' == mid.(cp := s'.cp, ctxs := s'.ctxs)
    ensures Ran(lines, s, front + [ScanStep], s')
  {
    SoloCons(Scanner, mid, ScanStep, [], s');
    ScannedNothing(mid, s');
    assert [ScanStep] + [] == [ScanStep];
    assert Ran([], mid, [ScanStep], s');
    RanConcat(lines, [], s, front, mid, [ScanStep], s');
    assert lines + [] == lines;
  }

  ghost predicate AtScan(s: State, c: nat, k: nat, i: nat) {
    && Sized(s) && s.cp == Scan(c, k, i) && ScanInRange(s, c, k) && i < ScanRange(s, c, k).count
    && ScanRange(s, c, k).base + i < |s.dram|
  }

  /** What testing, copying and clearing a set line does. */
  ghost function LineCopied(s: State, l: nat): State
    requires l < |s.dram|
  {
    s.(bits := s.bits.With(Prev(s), SetBit(s.bits.At(Prev(s)), l, false)), master := s.master + [Entry(l, s.dram[l])])
  }

  lemma CopyAndClearSteps(s: State, c: nat, k: nat, i: nat) returns (acts: seq<Action>, s': State)
    requires AtScan(s.(cp := Scan(c, k, i)), c, k, i) && s.cp == Copy(c, k, i)
    ensures SoloRun(Scanner, s, acts, s') && s' == LineCopied(s, ScanRange(s, c, k).base + i).(cp := Scan(c, k, i + 1))
  {
    var l := ScanRange(s, c, k).base + i;
    var s1 := Next(s, CopyLine(s.dram[l]));
    assert s1 == s.(cp := Clear(c, k, i), master := s.master + [Entry(l, s.dram[l])]);
    s' := Next(s1, ClearLine);
    SoloCons(Scanner, s1, ClearLine, [], s');
    SoloCons(Scanner, s, CopyLine(s.dram[l]), [ClearLine] + [], s');
    acts := [CopyLine(s.dram[l])] + ([ClearLine] + []);
  }

  lemma SetLineSteps(s: State, c: nat, k: nat, i: nat) returns (acts: seq<Action>, s': State)
    requires AtScan(s, c, k, i) && BitAt(s, Prev(s), ScanRange(s, c, k).base + i)
    ensures SoloRun(Scanner, s, acts, s') && s' == LineCopied(s, ScanRange(s, c, k).base + i).(cp := Scan(c, k, i + 1))
  {
    var mid := Next(s, ScanStep);
    assert mid == s.(cp := Copy(c, k, i));
    assert mid.(cp := Scan(c, k, i)) == s;
    hide SoloRun;
    var rest;
    rest, s' := CopyAndClearSteps(mid, c, k, i);
    acts := [ScanStep] + rest;
    SoloCons(Scanner, s, ScanStep, rest, s');
  }

  lemma DumpOne(mask: seq<bool>, dram: seq<Value>, l: nat)
    requires l < |mask| == |dram|
    ensures Dump(mask, dram, [l]) == if mask[l] then [Entry(l, dram[l])] else []
  {
    assert [l][..0] == [];
  }

  lemma LineCopiedScanned(s: State, l: nat, s': State)
    requires Sized(s) && l < |s.dram| && BitAt(s, Prev(s), l) && s' == LineCopied(s, l).(cp := s'.cp)
    ensures Scanned([l], s, s')
  {
    DumpOne(s.bits.At(Prev(s)), s.dram, l);
  }

  lemma ClearLineSteps(s: State, c: nat, k: nat, i: nat) returns (acts: seq<Action>, s': State)
    requires AtScan(s, c, k, i) && !BitAt(s, Prev(s), ScanRange(s, c, k).base + i)
    ensures Ran([ScanRange(s, c, k).base + i], s, acts, s') && s'.cp == Scan(c, k, i + 1) && s'.ctxs == s.ctxs
  {
    s' := Next(s, ScanStep);
    acts := [ScanStep] + [];
    SoloCons(Scanner, s, ScanStep, [], s');
    DumpOne(s.bits.At(Prev(s)), s.dram, ScanRange(s, c, k).base + i);
  }

  lemma ScanLineSteps(s: State, c: nat, k: nat, i: nat) returns (acts: seq<Action>, s': State)
    requires AtScan(s, c, k, i)
    ensures Ran([ScanRange(s, c, k).base + i], s, acts, s') && s'.cp == Scan(c, k, i + 1) && s'.ctxs == s.ctxs
  {
    hide SoloRun, Scanned;
    if BitAt(s, Prev(s), ScanRange(s, c, k).base + i) {
      acts, s' := SetLineSteps(s, c, k, i);
      LineCopiedScanned(s, ScanRange(s, c, k).base + i, s');
    } else {
      acts, s' := ClearLineSteps(s, c, k, i);
    }
  }

  ghost predicate AtRange(s: State, c: nat, k: nat) {
    && Sized(s) && s.cp == Scan(c, k, 0) && ScanInRange(s, c, k)
    && ScanRange(s, c, k).base + ScanRange(s, c, k).count <= |s.dram|
  }

  lemma InsideRange(lines: seq<nat>, s: State, acts: seq<Action>, mid: State, c: nat, k: nat, n: nat)
    requires AtRange(s, c, k) && Ran(lines, s, acts, mid) && mid.cp == Scan(c, k, n) && mid.ctxs == s.ctxs
    ensures ScanInRange(mid, c, k) && ScanRange(mid, c, k) == ScanRange(s, c, k)
    ensures n < ScanRange(s, c, k).count ==> AtScan(mid, c, k, n)
  {
    ScannedFacts(lines, s, mid);
  }

  /** The first `n` lines of a range. */
  lemma {:induction false} ScanLinesSteps(s: State, c: nat, k: nat, n: nat) returns (acts: seq<Action>, s': State)
    requires AtRange(s, c, k) && n <= ScanRange(s, c, k).count
    ensures Ran(Lines(Range(ScanRange(s, c, k).base, n)), s, acts, s') && s'.cp == Scan(c, k, n) && s'.ctxs == s.ctxs
  {
    var base := ScanRange(s, c, k).base;
    if n == 0 {
      acts, s' := [], s;
      RanNothing(s);
      assert Lines(Range(base, 0)) == [];
    } else {
      hide Ran, AtRange, AtScan, Lines;
      var i: nat := n - 1;
      var lines := Lines(Range(base, i));
      var front, mid := ScanLinesSteps(s, c, k, i);
      InsideRange(lines, s, front, mid, c, k, i);
      var last := ScanRange(mid, c, k).base + i;
      var back;
      back, s' := ScanLineSteps(mid, c, k, i);
      acts := front + back;
      RanConcat(lines, [last], s, front, mid, back, s');
      assert lines + [last] == Lines(Range(base, n)) by {
        LinesOneMore(base, i);
      }
    }
  }

  lemma LinesOneMore(base: nat, n: nat)
    ensures Lines(Range(base, n + 1)) == Lines(Range(base, n)) + [base + n]
  {
  }

  lemma ScanRangeSteps(s: State, c: nat, k: nat) returns (acts: seq<Action>, s': State)
    requires AtRange(s, c, k)
    ensures Ran(Lines(ScanRange(s, c, k)), s, acts, s') && s'.cp == Scan(c, k + 1, 0) && s'.ctxs == s.ctxs
  {
    var r := ScanRange(s, c, k);
    var front, mid := ScanLinesSteps(s, c, k, r.count);
    assert Range(r.base, r.count) == r;
    InsideRange(Lines(r), s, front, mid, c, k, r.count);
    hide Ran;
    s' := Next(mid, ScanStep);
    acts := front + [ScanStep];
    RanFinally(Lines(r), s, front, mid, s');
  }

  ghost predicate AtContext(s: State, c: nat) {
    && Sized(s) && s.cp == Scan(c, 0, 0) && c < |s.ctxs|
    && P.Fits(s.ctxs[c].lists.At(Prev(s)), |s.dram|)
  }

  lemma InsideContext(lines: seq<nat>, s: State, acts: seq<Action>, mid: State, c: nat, k: nat)
    requires AtContext(s, c) && Ran(lines, s, acts, mid) && mid.cp == Scan(c, k, 0) && mid.ctxs == s.ctxs
    ensures Prev(mid) == Prev(s)
    ensures k < |s.ctxs[c].lists.At(Prev(s))| ==>
              AtRange(mid, c, k) && ScanRange(mid, c, k) == s.ctxs[c].lists.At(Prev(s))[k]
  {
    ScannedFacts(lines, s, mid);
  }

  /** The first `n` ranges of a context. */
  lemma {:induction false} ScanRangesSteps(s: State, c: nat, n: nat) returns (acts: seq<Action>, s': State)
    requires AtContext(s, c) && n <= |s.ctxs[c].lists.At(Prev(s))|
    ensures Ran(AllLines(s.ctxs[c].lists.At(Prev(s))[..n]), s, acts, s') && s'.cp == Scan(c, n, 0) && s'.ctxs == s.ctxs
  {
    var list := s.ctxs[c].lists.At(Prev(s));
    if n == 0 {
      acts, s' := [], s;
      RanNothing(s);
    } else {
      hide Ran, AtContext, AtRange, Lines;
      var front, mid := ScanRangesSteps(s, c, n - 1);
      InsideContext(AllLines(list[..n - 1]), s, front, mid, c, n - 1);
      var back;
      back, s' := ScanRangeSteps(mid, c, n - 1);
      acts := front + back;
      RanConcat(AllLines(list[..n - 1]), Lines(list[n - 1]), s, front, mid, back, s');
      assert list[..n][..n - 1] == list[..n - 1];
    }
  }

  lemma ScanContextSteps(s: State, c: nat) returns (acts: seq<Action>, s': State)
    requires AtContext(s, c)
    ensures Ran(AllLines(s.ctxs[c].lists.At(Prev(s))), s, acts, s') && s'.cp == Scan(c + 1, 0, 0)
    ensures s'.ctxs == s.ctxs[c := s.ctxs[c].(lists := s.ctxs[c].lists.With(Prev(s), []))]
  {
    var list := s.ctxs[c].lists.At(Prev(s));
    var front, mid := ScanRangesSteps(s, c, |list|);
    assert list[..|list|] == list;
    InsideContext(AllLines(list), s, front, mid, c, |list|);
    hide Ran;
    s' := Next(mid, ScanStep);
    acts := front + [ScanStep];
    RanFinally(AllLines(list), s, front, mid, s');
  }

  ghost function ListsOf(s: State): (lists: seq<seq<Range>>)
    ensures |lists| == |s.ctxs| && forall c | 0 <= c < |s.ctxs| :: lists[c] == s.ctxs[c].lists.At(Prev(s))
  {
    seq(|s.ctxs|, c requires 0 <= c < |s.ctxs| => s.ctxs[c].lists.At(Prev(s)))
  }

  /** The contexts when the lists of the first `n` have been cleared. */
  ghost predicate ListsCleared(s: State, n: nat, s': State) {
    && |s'.ctxs| == |s.ctxs|
    && forall c | 0 <= c < |s.ctxs| ::
         s'.ctxs[c] == if c < n then s.ctxs[c].(lists := s.ctxs[c].lists.With(Prev(s), [])) else s.ctxs[c]
  }

  ghost predicate AtStart(s: State) {
    && Sized(s) && s.cp == Scan(0, 0, 0)
    && forall c | 0 <= c < |s.ctxs| :: P.Fits(s.ctxs[c].lists.At(Prev(s)), |s.dram|)
  }

  lemma InsideScan(lines: seq<nat>, s: State, acts: seq<Action>, mid: State, n: nat)
    requires AtStart(s) && Ran(lines, s, acts, mid) && mid.cp == Scan(n, 0, 0) && ListsCleared(s, n, mid)
    ensures Prev(mid) == Prev(s) && |mid.ctxs| == |s.ctxs|
    ensures n < |s.ctxs| ==> AtContext(mid, n) && mid.ctxs[n] == s.ctxs[n]
  {
    ScannedFacts(lines, s, mid);
  }

  /** The first `n` contexts. */
  lemma {:induction false} ScanContextsSteps(s: State, n: nat) returns (acts: seq<Action>, s': State)
    requires AtStart(s) && n <= |s.ctxs|
    ensures Ran(P.Visited(ListsOf(s)[..n]), s, acts, s') && s'.cp == Scan(n, 0, 0) && ListsCleared(s, n, s')
  {
    var lists := ListsOf(s);
    if n == 0 {
      acts, s' := [], s;
      RanNothing(s);
    } else {
      hide Ran, AtStart, AtContext, P.Visited, AllLines, ListsCleared;
      var front, mid := ScanContextsSteps(s, n - 1);
      InsideScan(P.Visited(lists[..n - 1]), s, front, mid, n - 1);
      var back;
      back, s' := ScanContextSteps(mid, n - 1);
      acts := front + back;
      RanConcat(P.Visited(lists[..n - 1]), AllLines(lists[n - 1]), s, front, mid, back, s');
      VisitedStep(lists, n - 1);
      OneMoreCleared(s, n - 1, mid, s');
    }
  }

  lemma OneMoreCleared(s: State, n: nat, mid: State, s': State)
    requires n < |s.ctxs| && ListsCleared(s, n, mid) && Prev(mid) == Prev(s)
    requires s'.ctxs == mid.ctxs[n := mid.ctxs[n].(lists := mid.ctxs[n].lists.With(Prev(s), []))]
    ensures ListsCleared(s, n + 1, s')
  {
  }

  lemma VisitedStep(lists: seq<seq<Range>>, n: nat)
    requires n < |lists|
    ensures P.Visited(lists[..n + 1]) == P.Visited(lists[..n]) + AllLines(lists[n])
  {
    assert lists[..n + 1][..n] == lists[..n];
  }

  /** Run alone, the steps of the checkpointing thread do what `Checkpointer.LogPersistenceUnit` does. */
  lemma LogPersistenceRefines(s: State) returns (acts: seq<Action>, s': State)
    requires AtStart(s)
    ensures SoloRun(Scanner, s, acts, s') && OnlyScan(s, s') && ScanFinished(s')
    ensures P.Persisted(P.Visited(ListsOf(s)), s.dram, WorkOf(s), WorkOf(s'))
    ensures ListsCleared(s, |s.ctxs|, s')
  {
    acts, s' := ScanContextsSteps(s, |s.ctxs|);
    assert ListsOf(s)[..|s.ctxs|] == ListsOf(s);
    ScannedFacts(P.Visited(ListsOf(s)), s, s');
  }
}

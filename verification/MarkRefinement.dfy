/**
 * The loops in memory and the transition system say the same: a thread that runs its steps of the transition system
 * without a step of another thread in between does to bitmaps, lists, logs and heaps what the method does.
 */
module MarkRefinement {
  import opened Redo
  import opened Protocol
  import opened Marking
  import opened Solo

  ghost predicate Sized(s: State) {
    |s.bits.even| == |s.bits.odd| == |s.dram|
  }

  /** Nothing but the bitmaps and what belongs to thread `t` may differ. */
  ghost predicate OnlyThread(s: State, t: nat, s': State) {
    && t < |s.ctxs| == |s'.ctxs|
    && s'.ep == s.ep && s'.dram == s.dram && s'.nvm == s.nvm && s'.pending == s.pending
    && s'.master == s.master && s'.cp == s.cp && s'.hist == s.hist && s'.boot == s.boot
    && (forall u | 0 <= u < |s.ctxs| && u != t :: s'.ctxs[u] == s.ctxs[u])
    && (Num(s, t) < Epoch(s) ==> s'.now == s.now)
  }

  ghost function ViewOf(s: State, t: nat): View
    requires IsMarking(s, t)
  {
    View(s.bits.At(Curr(s, t)), s.bits.At(!Curr(s, t)), s.ctxs[t].log, s.ctxs[t].mark.dirty)
  }

  /** A line of the range, which nobody else is at. */
  ghost predicate AtLine(s: State, t: nat) {
    && Sized(s) && IsAt(s, t, Head) && s.ctxs[t].mark.i < s.ctxs[t].mark.range.count
    && MarkLine(s.ctxs[t].mark) < |s.dram|
    && MayTouch(s, t, MarkLine(s.ctxs[t].mark))
  }

  ghost predicate LineDone(s: State, t: nat, s': State) {
    && IsMarking(s, t) && Sized(s) && MarkLine(s.ctxs[t].mark) < |s.dram| && OnlyThread(s, t, s')
    && Sized(s') && IsAt(s', t, Head) && s'.ctxs[t].lists == s.ctxs[t].lists
    && s'.ctxs[t].mark.i == s.ctxs[t].mark.i + 1 && s'.ctxs[t].mark.range == s.ctxs[t].mark.range
    && s.ctxs[t].marked + {MarkLine(s.ctxs[t].mark)} <= s'.ctxs[t].marked
    && LineMarked(MarkLine(s.ctxs[t].mark), s.dram, ViewOf(s, t), ViewOf(s', t))
  }

  lemma MarkedLine(s: State, t: nat) returns (acts: seq<Action>, s': State)
    requires AtLine(s, t) && BitAt(s, Curr(s, t), MarkLine(s.ctxs[t].mark))
    ensures SoloRun(Marker(t), s, acts, s') && LineDone(s, t, s')
  {
    acts, s' := [MarkTest(t)], Next(s, MarkTest(t));
    SoloCons(Marker(t), s, MarkTest(t), [], s');
    assert [MarkTest(t)] + [] == [MarkTest(t)];
  }

  /** The tests of both bits. */
  lemma TwoTests(s: State, t: nat) returns (acts: seq<Action>, s': State)
    requires AtLine(s, t) && !BitAt(s, Curr(s, t), MarkLine(s.ctxs[t].mark))
    ensures SoloRun(Marker(t), s, acts, s') && OnlyThread(s, t, s') && s'.bits == s.bits
    ensures
      var at := if BitAt(s, !Curr(s, t), MarkLine(s.ctxs[t].mark)) then ClearPrev else SetCurr;
      s'.ctxs[t] == s.ctxs[t].(mark := s.ctxs[t].mark.(at := at))
  {
    var s1 := Next(s, MarkTest(t));
    s' := Next(s1, MarkTestPrev(t));
    SoloCons(Marker(t), s1, MarkTestPrev(t), [], s');
    SoloCons(Marker(t), s, MarkTest(t), [MarkTestPrev(t)] + [], s');
    acts := [MarkTest(t)] + ([MarkTestPrev(t)] + []);
  }

  lemma Save(s: State, t: nat) returns (acts: seq<Action>, s': State)
    requires IsAt(s, t, ClearPrev) && MarkLine(s.ctxs[t].mark) < |s.dram|
    ensures SoloRun(Marker(t), s, acts, s') && OnlyThread(s, t, s')
    ensures
      var l, p := MarkLine(s.ctxs[t].mark), !Curr(s, t);
      && s'.bits == s.bits.With(p, SetBit(s.bits.At(p), l, false))
      && s'.ctxs[t] == s.ctxs[t].(mark := s.ctxs[t].mark.(at := SetCurr), log := s.ctxs[t].log + [Entry(l, s.dram[l])])
  {
    var s1 := Next(s, MarkClearPrev(t));
    s' := Next(s1, MarkPush(t));
    SoloCons(Marker(t), s1, MarkPush(t), [], s');
    SoloCons(Marker(t), s, MarkClearPrev(t), [MarkPush(t)] + [], s');
    acts := [MarkClearPrev(t)] + ([MarkPush(t)] + []);
  }

  /** The setting of the new bit. */
  lemma SetNew(s: State, t: nat) returns (acts: seq<Action>, s': State)
    requires IsAt(s, t, SetCurr)
    ensures SoloRun(Marker(t), s, acts, s') && OnlyThread(s, t, s')
    ensures
      var l, p, m := MarkLine(s.ctxs[t].mark), Curr(s, t), s.ctxs[t].mark;
      && s'.bits == s.bits.With(p, SetBit(s.bits.At(p), l, true))
      && s'.ctxs[t] == s.ctxs[t].(mark := m.(at := Head, i := m.i + 1, dirty := true), marked := s.ctxs[t].marked + {l})
  {
    s' := Next(s, MarkSet(t));
    SoloCons(Marker(t), s, MarkSet(t), [], s');
    acts := [MarkSet(t)] + [];
  }

  lemma UnmarkedLine(s: State, t: nat) returns (acts: seq<Action>, s': State)
    requires AtLine(s, t) && !BitAt(s, Curr(s, t), MarkLine(s.ctxs[t].mark))
    ensures SoloRun(Marker(t), s, acts, s') && LineDone(s, t, s')
  {
    hide SoloRun, Guarded, MayTouch;
    var mid;
    acts, mid := TwoTests(s, t);
    if IsAt(mid, t, ClearPrev) {
      var before := mid;
      var save;
      save, mid := Save(mid, t);
      SoloConcat(Marker(t), s, acts, before, save, mid);
      acts := acts + save;
    }
    var last;
    last, s' := SetNew(mid, t);
    SoloConcat(Marker(t), s, acts, mid, last, s');
    acts := acts + last;
  }

  lemma LineSteps(s: State, t: nat) returns (acts: seq<Action>, s': State)
    requires AtLine(s, t)
    ensures SoloRun(Marker(t), s, acts, s') && LineDone(s, t, s')
  {
    if BitAt(s, Curr(s, t), MarkLine(s.ctxs[t].mark)) {
      acts, s' := MarkedLine(s, t);
    } else {
      acts, s' := UnmarkedLine(s, t);
    }
  }

  /** The first `n` lines of the range that thread `t` began to mark in state `s` are done. */
  ghost predicate LinesDone(s: State, t: nat, r: Range, n: nat, s': State) {
    && t < |s.ctxs| && Sized(s) && OnlyThread(s, t, s')
    && Sized(s') && IsAt(s', t, Head) && s'.ctxs[t].lists == s.ctxs[t].lists
    && s'.ctxs[t].mark.i == n && s'.ctxs[t].mark.range == r
    && (forall l | Range(r.base, n).Has(l) :: l in s'.ctxs[t].marked)
    && var p := Curr(s, t);
    RangeMarked(Range(r.base, n), s.dram, View(s.bits.At(p), s.bits.At(!p), s.ctxs[t].log, false), ViewOf(s', t))
  }

  lemma {:induction false} LinesSteps(s: State, t: nat, r: Range, n: nat) returns (acts: seq<Action>, s': State)
    requires Sized(s) && Enabled(s, MarkCall(t, r)) && n <= r.count
    requires forall l | r.Has(l) :: MayTouch(s, t, l)
    ensures SoloRun(Marker(t), s, acts, s') && LinesDone(s, t, r, n, s')
  {
    if n == 0 {
      s' := Next(s, MarkCall(t, r));
      acts := [MarkCall(t, r)] + [];
      SoloCons(Marker(t), s, MarkCall(t, r), [], s');
      assert Lines(Range(r.base, 0)) == [];
    } else {
      hide SoloRun, RangeMarked, LineMarked;
      var front, mid := LinesSteps(s, t, r, n - 1);
      assert MayTouch(s, t, r.base + n - 1);
      StillMayTouch(s, t, r.base + n - 1, mid);
      var back;
      back, s' := LineSteps(mid, t);
      acts := front + back;
      SoloConcat(Marker(t), s, front, mid, back, s');
      LinesStep(s, t, r, n - 1, mid, s');
    }
  }

  lemma StillMayTouch(s: State, t: nat, l: nat, s': State)
    requires MayTouch(s, t, l) && OnlyThread(s, t, s')
    ensures MayTouch(s', t, l)
  {
    forall u | 0 <= u < |s'.ctxs| && u != t
      ensures !MidMark(s', u, l)
    {
      assert s'.ctxs[u] == s.ctxs[u] && !MidMark(s, u, l);
    }
  }

  lemma LinesStep(s: State, t: nat, r: Range, n: nat, mid: State, s': State)
    requires LinesDone(s, t, r, n, mid) && LineDone(mid, t, s')
    ensures LinesDone(s, t, r, n + 1, s')
  {
    var p := Curr(s, t);
    MarkStep(r.base, n, s.dram, View(s.bits.At(p), s.bits.At(!p), s.ctxs[t].log, false), ViewOf(mid, t), ViewOf(s', t));
  }

  /** Run alone, the steps of `mark` do what `Context.Mark` does. */
  lemma MarkRefines(s: State, t: nat, r: Range) returns (acts: seq<Action>, s': State)
    requires Sized(s) && Enabled(s, MarkCall(t, r))
    requires forall l | r.Has(l) :: MayTouch(s, t, l)
    ensures SoloRun(Marker(t), s, acts, s') && OnlyThread(s, t, s') && s'.ctxs[t].mark == NoMark
    ensures forall l | r.Has(l) :: l in s'.ctxs[t].marked
    ensures
      var p := Curr(s, t);
      var curr, prev := s.bits.At(p), s.bits.At(!p);
      && BitsMarked(r, curr, prev, s'.bits.At(p), s'.bits.At(!p))
      && s'.ctxs[t].log == s.ctxs[t].log + Dump(ToSave(curr, prev), s.dram, Lines(r))
      && s'.ctxs[t].lists ==
           if AnyNew(r, curr) then s.ctxs[t].lists.With(p, s.ctxs[t].lists.At(p) + [r]) else s.ctxs[t].lists
  {
    var front, mid := LinesSteps(s, t, r, r.count);
    s' := Next(mid, MarkReturn(t));
    SoloCons(Marker(t), mid, MarkReturn(t), [], s');
    acts := front + ([MarkReturn(t)] + []);
    SoloConcat(Marker(t), s, front, mid, [MarkReturn(t)] + [], s');
    assert Range(r.base, r.count) == r;
  }
}

/** The bitmaps and address lists are recycled every other epoch: they come back empty. */
module Recycling {
  import opened EpochPhase
  import opened Redo
  import opened Protocol
  import opened Invariant
  import opened CrashSafety
  import U = UserSteps
  import E = Epochs

  /**
   * In every reachable state every set bit, of either parity, is covered by a range in the list of that parity of
   * some registered context, or by the range that an unfinished `mark` of that parity is about to append.
   */
  lemma EverySetBitListed(first: E.Begin, heap: seq<Value>, acts: seq<Action>, s: State, p: bool, l: nat)
    requires Run(Initial(first, heap), acts, s) && BitAt(s, p, l)
    ensures exists t :: 0 <= t < |s.ctxs| && (Covers(List(s, t, p), l) || PendingCover(s, t, p, l))
  {
    InitialInv(first, heap);
    RunKeepsInv(Initial(first, heap), acts, s);
    assert LineInv(s, l);
    U.Parities(s);
    hide Inv, E.Parity;
    var t := Setter(s, p, l);
    if p == Prev(s) && s.ep.stage.Logging? {
      assert Ahead(s, l);
      var list := List(s, t, p);
      if s.cp.c == t && CoversFrom(list, s.cp.k + 1, l) {
        var j :| s.cp.k + 1 <= j < |list| && list[j].Has(l);
        assert list[j].Has(l);
      }
      assert Covers(list, l);
    } else {
      assert Listed(s, p, l);
    }
  }

  /**
   * From the start of NVM_Heap_Update to the start of the next epoch, the bitmap of the previous parity is clear
   * and its lists are empty, and no user can append to its redo log.
   */
  lemma PreviousParityEmpty(first: E.Begin, heap: seq<Value>, acts: seq<Action>, s: State, l: nat, t: nat)
    requires Run(Initial(first, heap), acts, s) && s.ep.global.phase == NvmHeapUpdate
    ensures !BitAt(s, Prev(s), l)
    ensures List(s, t, Prev(s)) == []
    ensures !Enabled(s, MarkPush(t))
  {
    ReachableInv(first, heap, acts, s);
    hide Run;
    assert LineInv(s, l) && UserInv(s, t);
    if IsAt(s, t, PushOld) {
      U.Focus(s, t);
    }
  }

  /**
   * The NVM heap of a library at rest is the DRAM heap, line by line, exactly where the current epoch has stored
   * nothing that differs from what it found; in particular all of it if the current bitmap is clear.
   */
  lemma RestingHeaps(first: E.Begin, heap: seq<Value>, acts: seq<Action>, s: State, l: nat)
    requires Run(Initial(first, heap), acts, s) && s.ep.stage.Resting? && l < |s.dram| && l < |s.nvm|
    ensures s.nvm[l] == Val(Snapshot(heap, s.hist, Epoch(s) - 1), l)
    ensures s.dram[l] == Val(Snapshot(heap, s.hist, Epoch(s)), l)
    ensures !BitAt(s, This(s), l) ==> s.nvm[l] == s.dram[l]
  {
    ReachableInv(first, heap, acts, s);
    hide Run;
    RestingLine(s, l);
  }

  lemma RestingLine(s: State, l: nat)
    requires Inv(s) && s.ep.stage.Resting? && l < |s.dram|
    ensures l < |s.nvm| && s.nvm[l] == Old(s, l) && s.dram[l] == Val(Snap(s, Epoch(s)), l)
    ensures !BitAt(s, This(s), l) ==> s.nvm[l] == s.dram[l]
  {
    assert LineInv(s, l);
    OpenInv(s);
    hide Inv;
  }

  /** A step of a user: of begin_op, end_op or `mark`, or a store. */
  predicate IsUserStep(a: Action) {
    match a
    case Ep(ea) => ea.Load? || ea.Store? || ea.Check? || ea.End?
    case ScanStep => false
    case CopyLine(_) => false
    case ClearLine => false
    case UpdateStep => false
    case _ => true
  }

  /** What a user's step leaves alone of the previous parity. */
  ghost predicate LeavesPrevious(s: State, a: Action, s': State) {
    && s'.ep.global == s.ep.global && s'.master == s.master && s'.nvm == s.nvm && s'.cp == s.cp
    && (forall u: nat :: List(s', u, Prev(s)) == List(s, u, Prev(s)))
    && s'.bits.At(Prev(s)) ==
       if a.MarkClearPrev? && a.t < |s.ctxs| && s.ctxs[a.t].mark.Mark?
       then SetBit(s.bits.At(Prev(s)), MarkLine(s.ctxs[a.t].mark), false) else s.bits.At(Prev(s))
  }

  lemma EpochStepLeaves(s: State, a: Action)
    requires IsUserStep(a) && a.Ep? && Enabled(s, a)
    ensures LeavesPrevious(s, a, Next(s, a))
  {
    hide E.Parity;
  }

  lemma SimpleStepLeaves(s: State, a: Action)
    requires a.MarkCall? || a.MarkTest? || a.MarkTestPrev? || a.MarkPush? || a.Write?
    requires Enabled(s, a)
    ensures LeavesPrevious(s, a, Next(s, a))
  {
    hide E.Parity;
  }

  lemma ParityStepLeaves(s: State, a: Action)
    requires (a.MarkClearPrev? || a.MarkSet? || a.MarkReturn?) && Enabled(s, a)
    requires Curr(s, a.t) != Prev(s)
    ensures LeavesPrevious(s, a, Next(s, a))
  {
    hide E.Parity;
  }

  /**
   * After the wait no step of any user changes an address list of the previous parity, of whatever context; and of
   * the bitmap of that parity users change nothing but the bit of a line that they save, which they clear.
   */
  lemma PreviousParityApart(first: E.Begin, heap: seq<Value>, acts: seq<Action>, s: State, a: Action, u: nat)
    requires Run(Initial(first, heap), acts, s) && s.ep.global.phase != MultiEpochExistence
    requires IsUserStep(a) && Enabled(s, a)
    ensures List(Next(s, a), u, Prev(s)) == List(s, u, Prev(s)) && Prev(Next(s, a)) == Prev(s)
    ensures Next(s, a).bits.At(Prev(s)) ==
            if a.MarkClearPrev? then SetBit(s.bits.At(Prev(s)), MarkLine(s.ctxs[a.t].mark), false) else s.bits.At(Prev(s))
    ensures Next(s, a).master == s.master && Next(s, a).nvm == s.nvm && Next(s, a).cp == s.cp
  {
    ReachableInv(first, heap, acts, s);
    assert !s.ep.stage.Waiting?;
    if a.MarkClearPrev? { MarkInProgress(s, a); }
    hide *;
    UserStepLeaves(s, a);
    LeavesApart(s, a, Next(s, a), u);
  }

  lemma LeavesApart(s: State, a: Action, s': State, u: nat)
    requires LeavesPrevious(s, a, s')
    requires a.MarkClearPrev? ==> a.t < |s.ctxs| && s.ctxs[a.t].mark.Mark?
    ensures List(s', u, Prev(s)) == List(s, u, Prev(s)) && Prev(s') == Prev(s)
    ensures s'.bits.At(Prev(s)) ==
            if a.MarkClearPrev? then SetBit(s.bits.At(Prev(s)), MarkLine(s.ctxs[a.t].mark), false) else s.bits.At(Prev(s))
    ensures s'.master == s.master && s'.nvm == s.nvm && s'.cp == s.cp
  {
    hide E.Parity;
  }

  lemma MarkInProgress(s: State, a: Action)
    requires a.MarkClearPrev? && Enabled(s, a)
    ensures a.t < |s.ctxs| && s.ctxs[a.t].mark.Mark?
  {
  }

  lemma UserStepLeaves(s: State, a: Action)
    requires Inv(s) && !s.ep.stage.Waiting? && IsUserStep(a) && Enabled(s, a)
    ensures LeavesPrevious(s, a, Next(s, a))
  {
    if a.MarkClearPrev? || a.MarkSet? || a.MarkReturn? { CurrentParity(s, a); }
    hide Inv, E.Parity, Next, Enabled, LeavesPrevious;
    if a.Ep? {
      EpochStepLeaves(s, a);
    } else if a.MarkClearPrev? || a.MarkSet? || a.MarkReturn? {
      ParityStepLeaves(s, a);
    } else {
      SimpleStepLeaves(s, a);
    }
  }

  lemma CurrentParity(s: State, a: Action)
    requires Inv(s) && !s.ep.stage.Waiting? && (a.MarkClearPrev? || a.MarkSet? || a.MarkReturn?) && Enabled(s, a)
    ensures Curr(s, a.t) != Prev(s)
  {
    U.Focus(s, a.t);
    hide Inv, E.Parity;
  }
}

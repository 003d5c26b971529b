/**
 * A store that comes before the mark of its line, as in a constructor that runs in place before the region is marked.
 * It is harmless exactly if the line is not dirty from the previous epoch any more: then the mark has nothing to save.
 */
module EarlyStore {
  import opened EpochPhase
  import opened Redo
  import opened Protocol
  import opened Marking
  import opened Solo
  import opened CrashSafety
  import opened Quiesce
  import opened Invariant
  import H = HeapSteps
  import L = Locking
  import U = UserSteps
  import M = MarkRefinement
  import R = Races
  import E = Epochs

  /** An operation may store to a line that it has not marked, as far as other threads and epochs go. */
  predicate EarlyEnabled(s: State, t: nat, l: nat) {
    && E.InOperation(s.ep, t) && t < |s.ctxs| && s.ctxs[t].mark == NoMark
    && l < |s.dram| && l !in s.ctxs[t].marked
    && MayTouch(s, t, l)
  }

  function StoreEvent(s: State, t: nat, l: nat, v: Value): Event
    requires t < |s.ctxs|
  {
    Event(Num(s, t), t, s.ctxs[t].ops, l, v)
  }

  function AfterEarly(s: State, t: nat, l: nat, v: Value): State
    requires t < |s.ctxs| && l < |s.dram|
  {
    s.(dram := s.dram[l := v], hist := s.hist + [StoreEvent(s, t, l, v)])
  }

  /** The bit of the line for the epoch before that of the operation. */
  predicate OldBit(s: State, t: nat, l: nat) {
    BitAt(s, !Curr(s, t), l)
  }

  /** The operation has marked the line, and its call of `mark` has returned. */
  predicate Settled(s: State, t: nat, l: nat) {
    t < |s.ctxs| && l in s.ctxs[t].marked && s.ctxs[t].mark == NoMark
  }

  /** Until then nobody else touches the line, and the operation does not end. */
  ghost predicate Minds(s: State, a: Action, t: nat, l: nat) {
    a != Ep(E.End(t)) && forall u: nat | u != t :: !L.Touches(s, a, u, l)
  }

  /** A run in which the operation marks the line some time after the store. */
  ghost predicate EarlyRun(s: State, acts: seq<Action>, s': State, t: nat, l: nat)
    decreases |acts|
  {
    if acts == [] then s == s'
    else if Settled(s, t, l) then Run(s, acts, s')
    else Guarded(s, acts[0]) && Minds(s, acts[0], t, l) && EarlyRun(Next(s, acts[0]), acts[1..], s', t, l)
  }

  /** Every crash in every such run recovers its boundary. */
  ghost predicate Harmless(heap: seq<Value>, s: State, t: nat, l: nat) {
    forall acts, s', c | EarlyRun(s, acts, s', t, l) && CrashOutcome(s', c) ::
      Recover(c) == Snapshot(heap, s'.hist, Boundary(c.global))
  }

  /** `ev` stands somewhere in the history, and no later store is to its line. */
  ghost predicate Inserted(long: seq<Event>, short: seq<Event>, ev: Event) {
    exists i :: 0 <= i <= |short| && long == short[..i] + [ev] + short[i..]
            && forall j | i <= j < |short| :: short[j].line != ev.line
  }

  lemma InsertedAppend(long: seq<Event>, short: seq<Event>, ev: Event, e: Event)
    requires Inserted(long, short, ev) && e.line != ev.line
    ensures Inserted(long + [e], short + [e], ev)
  {
    var i :| 0 <= i <= |short| && long == short[..i] + [ev] + short[i..]
          && forall j | i <= j < |short| :: short[j].line != ev.line;
    var s := short + [e];
    assert s[..i] == short[..i] && s[i..] == short[i..] + [e];
    assert long + [e] == s[..i] + [ev] + s[i..];
  }

  /** A store commutes with later stores to other lines. */
  lemma {:induction false} SnapshotInserted(boot: seq<Value>, short: seq<Event>, i: nat, ev: Event, k: int)
    requires i <= |short| && forall j | i <= j < |short| :: short[j].line != ev.line
    ensures Snapshot(boot, short[..i] + [ev] + short[i..], k) == Snapshot(boot, short + [ev], k)
    decreases |short|
  {
    if i == |short| {
      assert short[..i] + [ev] + short[i..] == short + [ev];
    } else {
      var n := |short| - 1;
      var front, e := short[..n], short[n];
      SnapshotInserted(boot, front, i, ev, k);
      assert short[..i] + [ev] + short[i..] == (front[..i] + [ev] + front[i..]) + [e];
      H.SnapshotAppend(boot, front[..i] + [ev] + front[i..], e, k);
      H.SnapshotAppend(boot, front, ev, k);
      H.SnapshotAppend(boot, short, ev, k);
      H.SnapshotAppend(boot, front, e, k);
      assert short == front + [e];
    }
  }

  lemma InsertedSnapshot(boot: seq<Value>, long: seq<Event>, short: seq<Event>, ev: Event, k: int)
    requires Inserted(long, short, ev)
    ensures Snapshot(boot, long, k) == Snapshot(boot, short + [ev], k)
    ensures k < ev.epoch ==> Snapshot(boot, long, k) == Snapshot(boot, short, k)
  {
    var i :| 0 <= i <= |short| && long == short[..i] + [ev] + short[i..]
          && forall j | i <= j < |short| :: short[j].line != ev.line;
    SnapshotInserted(boot, short, i, ev, k);
    H.SnapshotAppend(boot, short, ev, k);
  }

  /** The line has been stored to, and not yet marked, by the operation; its old content needs no saving. */
  ghost predicate Early(s: State, t: nat, l: nat) {
    && t < |s.ctxs| && l < |s.dram| && E.InOperation(s.ep, t)
    && !OldBit(s, t, l)
    && (IsMarking(s, t) && MarkLine(s.ctxs[t].mark) == l ==>
          s.ctxs[t].mark.at != ClearPrev && s.ctxs[t].mark.at != PushOld)
    && (forall u: nat | u < |s.ctxs| && u != t :: !MidMark(s, u, l))
    && (Num(s, t) < Epoch(s) ==> l !in s.now)
  }

  /** `x` is `s` with the early store done, which in `s` is yet to come. */
  ghost predicate Postponed(x: State, s: State, t: nat, l: nat, v: Value) {
    && Early(s, t, l)
    && x == s.(dram := s.dram[l := v], hist := x.hist)
    && Inserted(x.hist, s.hist, StoreEvent(s, t, l, v))
  }

  /** `x` and `s` differ only in the order of stores to different lines. */
  ghost predicate SameButOrder(x: State, s: State) {
    && x == s.(hist := x.hist)
    && forall k: int :: Snapshot(s.boot, x.hist, k) == Snapshot(s.boot, s.hist, k)
  }

  /** Whether a step is possible does not depend on the history or, except for a copy, on the DRAM heap. */
  lemma SameGuards(x: State, s: State, a: Action)
    requires x == s.(dram := x.dram, hist := x.hist) && |x.dram| == |s.dram| && Guarded(x, a)
    requires a.CopyLine? ==> Enabled(s, a)
    ensures Guarded(s, a)
  {
    assert forall u: nat, l: nat :: MidMark(s, u, l) == MidMark(x, u, l);
    assert forall u: nat, l: nat :: MayTouch(s, u, l) == MayTouch(x, u, l);
    assert forall u: nat, at: Spot :: IsAt(s, u, at) == IsAt(x, u, at);
    assert SaveInFlight(s) == SaveInFlight(x);
    hide MayTouch, MidMark, SaveInFlight, E.Enabled, E.Parity;
  }

  /** What a step adds to the history. */
  function Added(s: State, a: Action): seq<Event> {
    if a.Write? && a.t < |s.ctxs| then [Event(Num(s, a.t), a.t, s.ctxs[a.t].ops, a.line, a.val)] else []
  }

  /** A step does with another history and another line `l` what it does without. */
  ghost predicate StepsAlike(x: State, s: State, a: Action)
    requires Enabled(x, a) && Enabled(s, a)
  {
    && Next(x, a).hist == x.hist + Added(s, a) && Next(s, a).hist == s.hist + Added(s, a)
    && Next(x, a) == Next(s, a).(dram := Next(x, a).dram, hist := Next(x, a).hist)
    && |Next(s, a).dram| == |s.dram|
    && (if a.Write? then Next(x, a).dram == x.dram[a.line := a.val] && Next(s, a).dram == s.dram[a.line := a.val]
        else Next(x, a).dram == x.dram && Next(s, a).dram == s.dram)
  }

  lemma EpochAlike(x: State, s: State, a: Action)
    requires x == s.(dram := x.dram, hist := x.hist) && a.Ep? && Enabled(x, a) && Enabled(s, a)
    ensures StepsAlike(x, s, a)
  {
    hide Enabled, StepsAlike;
    if a.a.End? || a.a.Register? { ThreadAlike(x, s, a); } else { PhaseAlike(x, s, a); }
  }

  lemma ThreadAlike(x: State, s: State, a: Action)
    requires x == s.(dram := x.dram, hist := x.hist) && a.Ep? && Enabled(x, a) && Enabled(s, a)
    requires a.a.End? || a.a.Register?
    ensures StepsAlike(x, s, a)
  {
    hide E.Parity, E.Next, E.Enabled;
  }

  lemma PhaseAlike(x: State, s: State, a: Action)
    requires x == s.(dram := x.dram, hist := x.hist) && a.Ep? && Enabled(x, a) && Enabled(s, a)
    requires !a.a.End? && !a.a.Register?
    ensures StepsAlike(x, s, a)
  {
    hide E.Parity, E.Next, E.Enabled, ScanFinished;
  }

  lemma CallAlike(x: State, s: State, a: Action)
    requires x == s.(dram := x.dram, hist := x.hist) && |x.dram| == |s.dram| && Enabled(x, a) && Enabled(s, a)
    requires a.MarkCall? || a.MarkReturn? || a.MarkTestPrev?
    ensures StepsAlike(x, s, a)
  {
    hide E.Parity, MayTouch;
  }

  lemma TestAlike(x: State, s: State, a: Action)
    requires x == s.(dram := x.dram, hist := x.hist) && |x.dram| == |s.dram| && Enabled(x, a) && Enabled(s, a)
    requires a.MarkTest?
    ensures StepsAlike(x, s, a)
  {
    hide E.Parity, MayTouch;
  }

  lemma BitAlike(x: State, s: State, a: Action)
    requires x == s.(dram := x.dram, hist := x.hist) && |x.dram| == |s.dram| && Enabled(x, a) && Enabled(s, a)
    requires a.MarkClearPrev? || a.MarkSet? || a.Write?
    ensures StepsAlike(x, s, a)
  {
    hide E.Parity, MayTouch;
  }

  lemma PushAlike(x: State, s: State, a: Action)
    requires x == s.(dram := x.dram, hist := x.hist) && |x.dram| == |s.dram| && Enabled(x, a) && Enabled(s, a)
    requires a.MarkPush? && x.dram[MarkLine(s.ctxs[a.t].mark)] == s.dram[MarkLine(s.ctxs[a.t].mark)]
    ensures StepsAlike(x, s, a)
  {
    hide E.Parity;
  }

  lemma ScanAlike(x: State, s: State, a: Action)
    requires x == s.(dram := x.dram, hist := x.hist) && |x.dram| == |s.dram| && Enabled(x, a) && Enabled(s, a)
    requires a.ScanStep?
    ensures StepsAlike(x, s, a)
  {
    hide E.Parity;
  }

  lemma CopyAlike(x: State, s: State, a: Action)
    requires x == s.(dram := x.dram, hist := x.hist) && |x.dram| == |s.dram| && Enabled(x, a) && Enabled(s, a)
    requires a.CopyLine? || a.ClearLine?
    ensures StepsAlike(x, s, a)
  {
    hide E.Parity;
  }

  lemma UpdateAlike(x: State, s: State, a: Action)
    requires x == s.(dram := x.dram, hist := x.hist) && |x.dram| == |s.dram| && Enabled(x, a) && Enabled(s, a)
    requires a.UpdateStep?
    ensures StepsAlike(x, s, a)
  {
    hide E.Parity, Apply;
  }

  lemma Alike(x: State, s: State, a: Action)
    requires x == s.(dram := x.dram, hist := x.hist) && |x.dram| == |s.dram| && Enabled(x, a) && Enabled(s, a)
    requires a.MarkPush? ==> x.dram[MarkLine(s.ctxs[a.t].mark)] == s.dram[MarkLine(s.ctxs[a.t].mark)]
    ensures StepsAlike(x, s, a)
  {
    hide Enabled, StepsAlike;
    match a
    case Ep(_) => EpochAlike(x, s, a);
    case MarkPush(_) => PushAlike(x, s, a);
    case ScanStep => ScanAlike(x, s, a);
    case CopyLine(_) => CopyAlike(x, s, a);
    case ClearLine => CopyAlike(x, s, a);
    case UpdateStep => UpdateAlike(x, s, a);
    case MarkClearPrev(_) => BitAlike(x, s, a);
    case MarkSet(_) => BitAlike(x, s, a);
    case Write(_, _, _) => BitAlike(x, s, a);
    case MarkTest(_) => TestAlike(x, s, a);
    case _ => CallAlike(x, s, a);
  }

  lemma OrderStep(x: State, s: State, a: Action)
    requires SameButOrder(x, s) && Guarded(x, a)
    ensures Guarded(s, a) && SameButOrder(Next(x, a), Next(s, a))
  {
    SameGuards(x, s, a);
    Alike(x, s, a);
    assert Next(s, a).boot == s.boot by { StepHistory(s, a); }
    hide Guarded, Enabled, Next;
    forall k: int
      ensures Snapshot(s.boot, x.hist + Added(s, a), k) == Snapshot(s.boot, s.hist + Added(s, a), k)
    {
      if a.Write? && a.t < |s.ctxs| {
        var ev := Event(Num(s, a.t), a.t, s.ctxs[a.t].ops, a.line, a.val);
        H.SnapshotAppend(s.boot, x.hist, ev, k);
        H.SnapshotAppend(s.boot, s.hist, ev, k);
      } else {
        assert x.hist + [] == x.hist && s.hist + [] == s.hist;
      }
    }
  }

  /** The mark has returned: now the postponed store is a store to a marked line. */
  lemma Flush(x: State, s: State, t: nat, l: nat, v: Value)
    requires Postponed(x, s, t, l, v) && Settled(x, t, l)
    ensures Guarded(s, Write(t, l, v)) && SameButOrder(x, Next(s, Write(t, l, v)))
  {
    forall k: int
      ensures Snapshot(s.boot, x.hist, k) == Snapshot(s.boot, s.hist + [StoreEvent(s, t, l, v)], k)
    {
      InsertedSnapshot(s.boot, x.hist, s.hist, StoreEvent(s, t, l, v), k);
    }
  }

  /** A step that leaves all marks where they are, and the line unmarked. */
  ghost predicate LeavesMarks(s: State, s': State, t: nat, l: nat) {
    && |s'.dram| == |s.dram| && |s.ctxs| <= |s'.ctxs|
    && Num(s', t) == Num(s, t) && E.InOperation(s'.ep, t) && Epoch(s) <= Epoch(s')
    && (t < |s.ctxs| ==> s'.ctxs[t].ops == s.ctxs[t].ops)
    && (forall u: nat | u < |s'.ctxs| :: s'.ctxs[u].mark == if u < |s.ctxs| then s.ctxs[u].mark else NoMark)
    && (forall p: bool :: BitAt(s', p, l) ==> BitAt(s, p, l))
    && (l in s'.now ==> l in s.now && Epoch(s') == Epoch(s))
  }

  lemma LeavesEarly(s: State, s': State, t: nat, l: nat)
    requires Early(s, t, l) && LeavesMarks(s, s', t, l)
    ensures Early(s', t, l) && s'.ctxs[t].ops == s.ctxs[t].ops
  {
    hide E.Parity;
    forall u: nat | u < |s'.ctxs| && u != t
      ensures !MidMark(s', u, l)
    {
      if u < |s.ctxs| { assert !MidMark(s, u, l); }
    }
  }

  /** Only its own end_op takes a thread out of its operation. */
  lemma StaysInside(ep: E.State, a: E.Action, t: nat)
    requires E.Enabled(ep, a) && E.InOperation(ep, t) && a != E.End(t)
    ensures
      var ep' := E.Next(ep, a);
      && |ep.threads| <= |ep'.threads| && ep'.threads[t] == ep.threads[t]
      && ep.global.num <= ep'.global.num && (!a.Advance? && !a.Finalize? ==> ep'.global.num == ep.global.num)
  {
  }

  lemma EarlyEpochStep(s: State, a: Action, t: nat, l: nat)
    requires Early(s, t, l) && a.Ep? && Enabled(s, a) && a != Ep(E.End(t))
    ensures Early(Next(s, a), t, l) && Num(Next(s, a), t) == Num(s, t) && Next(s, a).ctxs[t].ops == s.ctxs[t].ops
  {
    StaysInside(s.ep, a.a, t);
    hide E.Parity, E.Next, E.Enabled;
    assert LeavesMarks(s, Next(s, a), t, l);
    hide *;
    LeavesEarly(s, Next(s, a), t, l);
  }

  lemma EarlyMarkStep(s: State, a: Action, t: nat, l: nat)
    requires Early(s, t, l) && Enabled(s, a) && Minds(s, a, t, l)
    requires a.MarkCall? || a.MarkTestPrev? || a.MarkReturn? || a.MarkPush?
    ensures Early(Next(s, a), t, l) && Next(s, a).ctxs[t].ops == s.ctxs[t].ops
  {
    hide E.Parity, MayTouch;
    var s' := Next(s, a);
    forall u: nat | u < |s'.ctxs| && u != t
      ensures !MidMark(s', u, l)
    {
      assert !MidMark(s, u, l);
    }
  }

  lemma EarlyTestStep(s: State, a: Action, t: nat, l: nat)
    requires Early(s, t, l) && Enabled(s, a) && Minds(s, a, t, l) && a.MarkTest?
    ensures Early(Next(s, a), t, l) && Next(s, a).ctxs[t].ops == s.ctxs[t].ops
  {
    assert a.t != t ==> !L.Touches(s, a, a.t, l);
    hide E.Parity, MayTouch, Minds, E.InOperation;
    var s' := Next(s, a);
    assert s'.ep == s.ep && s'.bits == s.bits;
    forall u: nat | u < |s'.ctxs| && u != t
      ensures !MidMark(s', u, l)
    {
      assert !MidMark(s, u, l);
    }
  }

  lemma EarlyBitStep(s: State, a: Action, t: nat, l: nat)
    requires Early(s, t, l) && Enabled(s, a) && Minds(s, a, t, l)
    requires a.MarkClearPrev? || a.MarkSet? || a.Write?
    ensures Early(Next(s, a), t, l) && Next(s, a).ctxs[t].ops == s.ctxs[t].ops
  {
    if a.t != t { assert !MidMark(s, a.t, l); }
    hide E.Parity, MayTouch;
    var s' := Next(s, a);
    forall u: nat | u < |s'.ctxs| && u != t
      ensures !MidMark(s', u, l)
    {
      assert u < |s.ctxs| ==> !MidMark(s, u, l);
    }
  }

  lemma ScanLeaves(s: State, a: Action, t: nat, l: nat)
    requires t < |s.ctxs| && E.InOperation(s.ep, t) && Enabled(s, a) && (a.ScanStep? || a.CopyLine? || a.ClearLine?)
    ensures LeavesMarks(s, Next(s, a), t, l)
  {
    hide E.Parity;
  }

  lemma UpdateLeaves(s: State, t: nat, l: nat)
    requires t < |s.ctxs| && E.InOperation(s.ep, t) && Enabled(s, UpdateStep)
    ensures LeavesMarks(s, AfterUpdateStep(s), t, l)
  {
    hide E.Parity, Apply, WithoutSaver;
    var s' := AfterUpdateStep(s);
    assert s'.bits == s.bits && s'.now == s.now && s'.ep == s.ep && s'.dram == s.dram;
    assert |s'.ctxs| == |s.ctxs| && forall u: nat | u < |s.ctxs| :: s'.ctxs[u] == s.ctxs[u].(log := s'.ctxs[u].log);
    hide AfterUpdateStep;
  }

  lemma EarlyCheckpointerStep(s: State, a: Action, t: nat, l: nat)
    requires Early(s, t, l) && Enabled(s, a)
    requires a.ScanStep? || a.CopyLine? || a.ClearLine? || a.UpdateStep?
    ensures Early(Next(s, a), t, l) && Next(s, a).ctxs[t].ops == s.ctxs[t].ops
  {
    assert a.UpdateStep? ==> Next(s, a) == AfterUpdateStep(s);
    hide Next, Enabled, LeavesMarks, AfterUpdateStep, OldBit;
    if a.UpdateStep? { UpdateLeaves(s, t, l); } else { ScanLeaves(s, a, t, l); }
    LeavesEarly(s, Next(s, a), t, l);
  }

  lemma EarlyStep(s: State, a: Action, t: nat, l: nat)
    requires Early(s, t, l) && Enabled(s, a) && Minds(s, a, t, l)
    ensures Early(Next(s, a), t, l) && Next(s, a).ctxs[t].ops == s.ctxs[t].ops && Num(Next(s, a), t) == Num(s, t)
  {
    StepEpoch(s, a);
    hide Early, Enabled, Next, Minds;
    match a
    case Ep(_) => assert a != Ep(E.End(t)) by { NotTheEnd(s, a, t, l); } EarlyEpochStep(s, a, t, l);
    case MarkTest(_) => EarlyTestStep(s, a, t, l);
    case MarkClearPrev(_) => EarlyBitStep(s, a, t, l);
    case MarkSet(_) => EarlyBitStep(s, a, t, l);
    case Write(_, _, _) => EarlyBitStep(s, a, t, l);
    case ScanStep => EarlyCheckpointerStep(s, a, t, l);
    case CopyLine(_) => EarlyCheckpointerStep(s, a, t, l);
    case ClearLine => EarlyCheckpointerStep(s, a, t, l);
    case UpdateStep => EarlyCheckpointerStep(s, a, t, l);
    case _ => EarlyMarkStep(s, a, t, l);
  }

  lemma NotTheEnd(s: State, a: Action, t: nat, l: nat)
    requires Minds(s, a, t, l)
    ensures a != Ep(E.End(t))
  {
  }

  /** Nothing that the step reads has been changed by the early store. */
  lemma NothingRead(s: State, a: Action, t: nat, l: nat)
    requires Inv(s) && Early(s, t, l) && Enabled(s, a)
    ensures a.MarkPush? ==> MarkLine(s.ctxs[a.t].mark) != l
    ensures a.CopyLine? && ScanRange(s, s.cp.c, s.cp.k).base + s.cp.i == l ==> !BitAt(s, Prev(s), l)
  {
    if a.MarkPush? && a.t != t { assert !MidMark(s, a.t, l); }
    if a.CopyLine? {
      assert E.ThreadInv(s.ep, t) && s.ep.stage.Logging?;
      U.OperationParity(s, t);
      U.Parities(s);
    }
    hide Inv, E.Parity;
  }

  lemma CopyPossible(x: State, s: State, a: Action, t: nat, l: nat, v: Value)
    requires Inv(s) && Postponed(x, s, t, l, v) && Enabled(x, a) && a.CopyLine?
    ensures Enabled(s, a)
  {
    assert E.ThreadInv(s.ep, t) && s.ep.stage.Logging?;
    U.OperationParity(s, t);
    hide Inv, E.Parity;
  }

  lemma WriteElsewhere(x: State, s: State, a: Action, t: nat, l: nat)
    requires Enabled(x, a) && a.Write? && Minds(x, a, t, l) && !Settled(x, t, l)
    ensures a.line != l
  {
    assert a.t != t ==> !L.Touches(x, a, a.t, l);
  }

  lemma MindsAlike(x: State, s: State, a: Action, t: nat, l: nat)
    requires x == s.(dram := x.dram, hist := x.hist) && Minds(x, a, t, l)
    ensures Minds(s, a, t, l)
  {
    forall u: nat | u != t
      ensures !L.Touches(s, a, u, l)
    {
      assert !L.Touches(x, a, u, l);
    }
  }

  /** A step on both sides. */
  lemma PostponedStep(x: State, s: State, a: Action, t: nat, l: nat, v: Value)
    requires Inv(s) && Postponed(x, s, t, l, v) && !Settled(x, t, l) && Guarded(x, a) && Minds(x, a, t, l)
    ensures Guarded(s, a) && Postponed(Next(x, a), Next(s, a), t, l, v)
  {
    if a.CopyLine? { CopyPossible(x, s, a, t, l, v); }
    if a.Write? { WriteElsewhere(x, s, a, t, l); }
    SameGuards(x, s, a);
    MindsAlike(x, s, a, t, l);
    NothingRead(s, a, t, l);
    Alike(x, s, a);
    EarlyStep(s, a, t, l);
    hide Inv, Enabled, Guarded, Next, Early, Minds;
    var ev := StoreEvent(s, t, l, v);
    assert StoreEvent(Next(s, a), t, l, v) == ev;
    if Added(s, a) == [] {
      assert x.hist + [] == x.hist && s.hist + [] == s.hist;
    } else {
      InsertedAppend(x.hist, s.hist, ev, Added(s, a)[0]);
    }
  }

  /** From the flush on, the run and its counterpart go side by side. */
  lemma {:induction false} SideBySide(x: State, s: State, acts: seq<Action>, x': State) returns (s': State)
    requires SameButOrder(x, s) && Run(x, acts, x')
    ensures Run(s, acts, s') && SameButOrder(x', s')
    decreases |acts|
  {
    if acts == [] {
      s' := s;
    } else {
      OrderStep(x, s, acts[0]);
      hide SameButOrder, Next, Guarded;
      s' := SideBySide(Next(x, acts[0]), Next(s, acts[0]), acts[1..], x');
    }
  }

  /** Every run with an early store that has nothing to save is, but for that store, a run of the protocol. */
  lemma {:induction false} Simulate(x: State, s: State, acts: seq<Action>, x': State, t: nat, l: nat, v: Value)
      returns (acts': seq<Action>, s': State)
    requires Inv(s) && Postponed(x, s, t, l, v) && EarlyRun(x, acts, x', t, l)
    ensures Run(s, acts', s') && (Postponed(x', s', t, l, v) || SameButOrder(x', s'))
    decreases |acts|
  {
    if acts == [] {
      acts', s' := [], s;
    } else if Settled(x, t, l) {
      Flush(x, s, t, l, v);
      hide Inv, Postponed, SameButOrder, Guarded, Next;
      s' := SideBySide(x, Next(s, Write(t, l, v)), acts, x');
      RunCons(s, Write(t, l, v), acts, s');
      acts' := [Write(t, l, v)] + acts;
    } else {
      var a := acts[0];
      PostponedStep(x, s, a, t, l, v);
      StepKeepsInv(s, a);
      hide Inv, Postponed, SameButOrder, Guarded, Next;
      var rest;
      rest, s' := Simulate(Next(x, a), Next(s, a), acts[1..], x', t, l, v);
      RunCons(s, a, rest, s');
      acts' := [a] + rest;
    }
  }

  /** A crash cannot tell the two apart. */
  lemma SameCrash(x: State, s: State, t: nat, l: nat, v: Value, c: Crash)
    requires Inv(s) && (Postponed(x, s, t, l, v) || SameButOrder(x, s)) && CrashOutcome(x, c)
    ensures CrashOutcome(s, c)
    ensures Snapshot(s.boot, x.hist, Boundary(c.global)) == Snapshot(s.boot, s.hist, Boundary(c.global))
  {
    if Postponed(x, s, t, l, v) {
      assert E.ThreadInv(s.ep, t);
      InsertedSnapshot(s.boot, x.hist, s.hist, StoreEvent(s, t, l, v), Boundary(c.global));
    }
  }

  lemma EarlyBegins(s: State, t: nat, l: nat, v: Value)
    requires EarlyEnabled(s, t, l) && !OldBit(s, t, l)
    ensures Postponed(AfterEarly(s, t, l, v), s, t, l, v)
  {
    var i := |s.hist|;
    var ev := StoreEvent(s, t, l, v);
    assert s.hist + [ev] == s.hist[..i] + [ev] + s.hist[i..];
    forall u: nat | u < |s.ctxs| && u != t
      ensures !MidMark(s, u, l)
    {
    }
  }

  lemma ClearIsHarmless(first: E.Begin, heap: seq<Value>, before: seq<Action>, s: State, t: nat, l: nat, v: Value)
    requires Run(Initial(first, heap), before, s) && EarlyEnabled(s, t, l) && !OldBit(s, t, l)
    ensures Harmless(heap, AfterEarly(s, t, l, v), t, l)
  {
    InitialInv(first, heap);
    RunKeepsInv(Initial(first, heap), before, s);
    EarlyBegins(s, t, l, v);
    var x := AfterEarly(s, t, l, v);
    forall acts, x', c | EarlyRun(x, acts, x', t, l) && CrashOutcome(x', c)
      ensures Recover(c) == Snapshot(heap, x'.hist, Boundary(c.global))
    {
      hide Inv, Run, Postponed, SameButOrder, CrashOutcome, EarlyRun;
      var acts', s' := Simulate(x, s, acts, x', t, l, v);
      RunConcat(Initial(first, heap), before, s, acts', s');
      RunKeepsInv(Initial(first, heap), before + acts', s');
      SameCrash(x', s', t, l, v, c);
      CrashConsistency(first, heap, before + acts', s', c);
    }
  }

  /** Nobody but `t` begins to mark a line or stores, and nobody ends an operation. */
  predicate Polite(a: Action, t: nat) {
    !a.Ep? && (a.MarkTest? || a.Write? ==> a.t == t)
  }

  ghost predicate AllPolite(acts: seq<Action>, t: nat) {
    forall i | 0 <= i < |acts| :: Polite(acts[i], t)
  }

  /** The operation marks the line, and then anything goes. */
  lemma {:induction false} PoliteThenFree(x: State, a: seq<Action>, mid: State, b: seq<Action>, x': State, t: nat, l: nat)
    requires Run(x, a, mid) && AllPolite(a, t)
    requires Settled(mid, t, l) && Run(mid, b, x')
    ensures EarlyRun(x, a + b, x', t, l)
    decreases |a|
  {
    if Settled(x, t, l) {
      hide Settled, AllPolite;
      RunConcat(x, a, mid, b, x');
      FreeRun(x, a + b, x', t, l);
    } else {
      var head, tail := a[0], a[1..];
      assert Guarded(x, head) && Run(Next(x, head), tail, mid);
      assert Polite(head, t) && AllPolite(tail, t);
      hide *;
      PoliteThenFree(Next(x, head), tail, mid, b, x', t, l);
      EarlyCons(x, head, tail + b, x', t, l);
      HeadFirst(a, b);
    }
  }

  lemma HeadFirst(a: seq<Action>, b: seq<Action>)
    requires a != []
    ensures [a[0]] + (a[1..] + b) == a + b
  {
  }

  lemma FreeRun(x: State, acts: seq<Action>, x': State, t: nat, l: nat)
    requires Settled(x, t, l) && Run(x, acts, x')
    ensures EarlyRun(x, acts, x', t, l)
  {
  }

  lemma EarlyCons(x: State, a: Action, acts: seq<Action>, x': State, t: nat, l: nat)
    requires !Settled(x, t, l) && Guarded(x, a) && Polite(a, t) && EarlyRun(Next(x, a), acts, x', t, l)
    ensures EarlyRun(x, [a] + acts, x', t, l)
  {
    assert ([a] + acts)[1..] == acts;
  }

  /** All operations in progress are of the current epoch. */
  ghost predicate AllCurrent(s: State) {
    forall u: nat | E.InOperation(s.ep, u) :: Num(s, u) == Epoch(s)
  }

  /** What the invariant says of a line that is still dirty from the previous epoch. */
  lemma DirtyLine(s: State, t: nat, l: nat)
    requires Inv(s) && AllCurrent(s) && EarlyEnabled(s, t, l) && OldBit(s, t, l)
    ensures Curr(s, t) == This(s) && BitAt(s, Prev(s), l) && !BitAt(s, This(s), l) && l < |s.dram| == |s.boot|
    ensures Snapshot(s.boot, s.hist, Epoch(s) - 1)[l] == s.dram[l]
    ensures (s.ep.stage.Waiting? && s.cp == Rest) || (s.ep.stage.Logging? && InScan(s))
    ensures s.pending == [] && l !in s.now
  {
    U.OperationParity(s, t);
    assert LineInv(s, l) && Sizes(s);
    assert forall u: nat :: !MidMark(s, u, l);
    hide E.Parity;
  }

  lemma DirtyNotLogged(s: State, t: nat, l: nat)
    requires Inv(s) && AllCurrent(s) && EarlyEnabled(s, t, l) && OldBit(s, t, l)
    ensures forall u: nat | u < |s.ctxs| :: !HasLine(s.ctxs[u].log, l)
  {
    DirtyLine(s, t, l);
    assert UserLogsInv(s);
    hide Inv;
    forall u: nat, j | u < |s.ctxs| && 0 <= j < |s.ctxs[u].log|
      ensures s.ctxs[u].log[j].line != l
    {
      assert SavedInv(s, u, s.ctxs[u].log[j]);
    }
  }

  lemma EarlyBase(s: State, t: nat, l: nat, v: Value)
    requires Inv(s) && AllCurrent(s) && EarlyEnabled(s, t, l) && s.pending == []
    ensures Base(AfterEarly(s, t, l, v))
  {
    var x := AfterEarly(s, t, l, v);
    assert Sizes(s);
    forall u: nat
      ensures CtxOk(x, u)
    {
      assert UserInv(s, u);
    }
    assert forall u: nat :: Num(x, u) == Num(s, u);
  }

  /** A thread has finished a call of `mark` of one line, and nothing else has happened. */
  lemma MarkedBase(s: State, t: nat, l: nat, s': State)
    requires Base(s) && M.OnlyThread(s, t, s') && s'.ctxs[t].mark == NoMark && M.Sized(s') && l < |s.dram|
    requires forall p: bool ::
               s'.ctxs[t].lists.At(p) == s.ctxs[t].lists.At(p) ||
               s'.ctxs[t].lists.At(p) == s.ctxs[t].lists.At(p) + [Range(l, 1)]
    ensures Base(s')
  {
    hide E.Inv;
    assert s'.ctxs[t].lists.even == s'.ctxs[t].lists.At(false) && s'.ctxs[t].lists.odd == s'.ctxs[t].lists.At(true);
    forall u: nat
      ensures CtxOk(s', u)
    {
      assert CtxOk(s, u) && CtxOk(s, t);
    }
    assert forall u: nat :: Num(s', u) == Num(s, u);
  }

  /** The store has been followed by the mark: the new content is in the thread's log as if it were the old. */
  lemma MarkDirty(x: State, t: nat, l: nat) returns (acts: seq<Action>, x': State)
    requires Base(x) && EarlyEnabled(x, t, l) && Curr(x, t) == This(x) && Prev(x) == !This(x)
    requires forall u: nat | u < |x.ctxs| :: !HasLine(x.ctxs[u].log, l) && (u != t ==> !Mid(x, u))
    requires BitAt(x, Prev(x), l) && !BitAt(x, This(x), l)
    ensures Run(x, acts, x') && AllPolite(acts, t) && Bait(x', l, x.dram[l]) && Settled(x', t, l)
    ensures SamePlace(x, x') && x'.ep == x.ep
    ensures forall u: nat | u < |x.ctxs| :: x'.ctxs[u].lists.At(Prev(x)) == x.ctxs[u].lists.At(Prev(x))
  {
    var r := Range(l, 1);
    var curr, prev := x.bits.At(This(x)), x.bits.At(Prev(x));
    acts, x' := M.MarkRefines(x, t, r);
    assert forall i | 0 <= i < |acts| :: acts[i] in acts && DoneBy(Marker(t), acts[i]);
    hide SoloRun, Run;
    assert Lines(r) == [l];
    assert [l][..0] == [];
    assert r.Has(l) && x'.ctxs[t].log == x.ctxs[t].log + [Entry(l, x.dram[l])];
    assert AnyNew(r, curr);
    MarkedBase(x, t, l, x');
    hide Base, E.Inv, E.Parity;
    LoggedAtEnd(x, x', t, l);
    forall u: nat | u < |x'.ctxs|
      ensures !Mid(x', u)
    {
      if u != t { assert x'.ctxs[u] == x.ctxs[u] && !Mid(x, u); }
    }
  }

  lemma LoggedAtEnd(x: State, x': State, t: nat, l: nat)
    requires t < |x.ctxs| == |x'.ctxs| && l < |x.dram|
    requires forall u: nat | u < |x.ctxs| :: !HasLine(x.ctxs[u].log, l)
    requires x'.ctxs[t].log == x.ctxs[t].log + [Entry(l, x.dram[l])]
    requires forall u: nat | u < |x.ctxs| && u != t :: x'.ctxs[u] == x.ctxs[u]
    ensures Stale(x', l, x.dram[l])
  {
    var n := |x.ctxs[t].log|;
    assert x'.ctxs[t].log[n].line == l;
    assert HasLine(x'.ctxs[t].log, l);
    forall u, j | 0 <= u < |x'.ctxs| && 0 <= j < |x'.ctxs[u].log|
      ensures x'.ctxs[u].log[j].line == l ==> x'.ctxs[u].log[j].val == x.dram[l]
    {
      assert !HasLine(x.ctxs[u].log, l);
      if j < |x.ctxs[u].log| { assert x'.ctxs[u].log[j] == x.ctxs[u].log[j]; }
    }
  }

  /** The checkpointing thread can go on to the next change of phase. */
  ghost predicate UnderWay(x: State) {
    (x.ep.stage.Waiting? && x.cp == Rest) || (x.ep.stage.Logging? && x.cp.Scan?)
  }

  /** With a stale entry for line `l` in a user's log, the checkpoint in progress goes on to a crash that installs it. */
  lemma StaleToCrash(x: State, l: nat, was: Value) returns (acts: seq<Action>, x': State, c: Crash)
    requires Bait(x, l, was) && UnderWay(x)
    ensures Run(x, acts, x') && CrashOutcome(x', c) && x'.hist == x.hist
    ensures c.global == E.Word(Epoch(x), NvmHeapUpdate) && l < |Recover(c)| && Recover(c)[l] == was
  {
    var mid, more;
    acts, mid := RetireAll(x, |x.ctxs|, l, was);
    BaitParts(mid, l, was);
    assert Quiet(mid);
    hide Run, Bait, Base, CrashOutcome, Quiet;
    more, x' := ToUpdate(mid);
    RunConcat(x, acts, mid, more, x');
    acts := acts + more;
    c := CrashNow(x');
    SameLogs(mid, x', l, was);
    StaleWins(x', l, was, c);
    CrashHere(x');
  }

  lemma CrashHere(x: State)
    requires x.cp == ReplayMaster(0)
    ensures CrashOutcome(x, CrashNow(x))
  {
  }

  /** The same from anywhere in the loop over dirty lines. */
  lemma StaleFromScan(x: State, l: nat, was: Value) returns (acts: seq<Action>, x': State, c: Crash)
    requires Bait(x, l, was) && ((x.ep.stage.Waiting? && x.cp == Rest) || (x.ep.stage.Logging? && InScan(x)))
    ensures Run(x, acts, x') && CrashOutcome(x', c) && x'.hist == x.hist
    ensures c.global == E.Word(Epoch(x), NvmHeapUpdate) && l < |Recover(c)| && Recover(c)[l] == was
  {
    if x.ep.stage.Logging? {
      var mid, more;
      acts, mid := ScanToEnd(x);
      ScanKeepsBait(x, mid, l, was);
      hide Run, Bait, Base, CrashOutcome;
      more, x', c := StaleToCrash(mid, l, was);
      RunConcat(x, acts, mid, more, x');
      acts := acts + more;
    } else {
      acts, x', c := StaleToCrash(x, l, was);
    }
  }

  lemma BaitParts(x: State, l: nat, was: Value)
    requires Bait(x, l, was)
    ensures Base(x) && Stale(x, l, was) && l < |x.nvm|
  {
  }

  lemma ScanKeepsBait(x: State, x': State, l: nat, was: Value)
    requires Bait(x, l, was) && ScanGoesOn(x, x') && Base(x')
    ensures Bait(x', l, was)
  {
    U.Parities(x);
    hide E.Parity, E.Inv;
    assert forall w | 0 <= w < |x.ctxs| :: x'.ctxs[w].log == x.ctxs[w].log && x'.ctxs[w].mark == x.ctxs[w].mark;
    SameLogs(x, x', l, was);
    forall u: nat | u < |x'.ctxs|
      ensures !Mid(x', u)
    {
      assert !Mid(x, u);
    }
  }

  /** A dirty line to which an operation may store without marking it, and which no user has logged. */
  ghost predicate Exposed(x: State, t: nat, l: nat) {
    && Base(x) && EarlyEnabled(x, t, l) && Curr(x, t) == This(x) && Prev(x) == !This(x)
    && (forall u: nat | u < |x.ctxs| :: !HasLine(x.ctxs[u].log, l))
    && BitAt(x, Prev(x), l) && !BitAt(x, This(x), l)
  }

  lemma StillEnabled(s: State, t: nat, l: nat, v: Value)
    requires EarlyEnabled(s, t, l)
    ensures EarlyEnabled(AfterEarly(s, t, l, v), t, l)
  {
    var x := AfterEarly(s, t, l, v);
    forall u | 0 <= u < |x.ctxs| && u != t
      ensures !MidMark(x, u, l)
    {
      assert !MidMark(s, u, l);
    }
  }

  lemma EarlyExposed(s: State, t: nat, l: nat, v: Value)
    requires Inv(s) && AllCurrent(s) && EarlyEnabled(s, t, l) && OldBit(s, t, l)
    ensures Exposed(AfterEarly(s, t, l, v), t, l)
  {
    DirtyLine(s, t, l);
    DirtyNotLogged(s, t, l);
    EarlyBase(s, t, l, v);
    StillEnabled(s, t, l, v);
    U.Parities(s);
    hide Inv, E.Parity, Base;
  }

  /** The line is marked, and some time later a crash installs the content that it had before the mark. */
  lemma ExposedLoses(x: State, t: nat, l: nat) returns (acts: seq<Action>, x': State, c: Crash)
    requires Exposed(x, t, l) && ((x.ep.stage.Waiting? && x.cp == Rest) || (x.ep.stage.Logging? && InScan(x)))
    ensures EarlyRun(x, acts, x', t, l) && CrashOutcome(x', c) && x'.hist == x.hist
    ensures c.global == E.Word(Epoch(x), NvmHeapUpdate) && l < |Recover(c)| && Recover(c)[l] == x.dram[l]
  {
    hide CrashOutcome, Run;
    var x1, x2, more;
    acts, x1 := FinishOtherLines(x, t, |x.ctxs|);
    OthersSettled(x, x1, t, l);
    more, x2 := MarkDirty(x1, t, l);
    hide Base, Bait, EarlyRun, Exposed, E.Parity;
    assert AllPolite(acts, t) by {
      assert forall i | 0 <= i < |acts| :: acts[i] in acts && IsSpotAction(acts[i]);
    }
    RunConcat(x, acts, x1, more, x2);
    acts := acts + more;
    assert AllPolite(acts, t);
    var rest;
    rest, x', c := StaleFromScan(x2, l, x.dram[l]);
    PoliteThenFree(x, acts, x2, rest, x', t, l);
    acts := acts + rest;
  }

  /** The boundary of a crash has content `was` in the line, and recovery installs `v`. */
  ghost predicate Lost(boot: seq<Value>, x: State, c: Crash, l: nat, was: Value, v: Value) {
    l < |Recover(c)| && l < |boot| && Recover(c)[l] == v && Snapshot(boot, x.hist, Boundary(c.global))[l] == was
  }

  /** With the old bit set there is a run, the mark in it right after the store, and a crash that installs what it left. */
  lemma DirtyLoses(s: State, t: nat, l: nat, v: Value) returns (acts: seq<Action>, x': State, c: Crash)
    requires Inv(s) && AllCurrent(s) && EarlyEnabled(s, t, l) && OldBit(s, t, l) && l < |s.dram|
    ensures EarlyRun(AfterEarly(s, t, l, v), acts, x', t, l) && CrashOutcome(x', c)
    ensures Lost(s.boot, x', c, l, s.dram[l], v)
  {
    EarlyExposed(s, t, l, v);
    EarlyUnderWay(s, t, l, v);
    hide *;
    acts, x', c := ExposedLoses(AfterEarly(s, t, l, v), t, l);
    LostThen(s, t, l, v, x', c);
  }

  lemma LostThen(s: State, t: nat, l: nat, v: Value, x': State, c: Crash)
    requires Inv(s) && AllCurrent(s) && EarlyEnabled(s, t, l) && OldBit(s, t, l)
    requires x'.hist == AfterEarly(s, t, l, v).hist && c.global == E.Word(Epoch(s), NvmHeapUpdate)
    requires l < |Recover(c)| && Recover(c)[l] == v
    ensures Lost(s.boot, x', c, l, s.dram[l], v)
  {
    DirtyLine(s, t, l);
    EarlyUnderWay(s, t, l, v);
    BoundaryOf(c.global);
    hide Inv, E.Parity, Recover, Boundary, AfterEarly, EarlyEnabled, AllCurrent;
  }

  lemma BoundaryOf(global: E.Word)
    ensures global.phase == NvmHeapUpdate ==> Boundary(global) == global.num - 1
  {
  }

  /** The checkpoint is on its way, and the store is of an epoch that it does not save. */
  lemma EarlyUnderWay(s: State, t: nat, l: nat, v: Value)
    requires Inv(s) && AllCurrent(s) && EarlyEnabled(s, t, l) && OldBit(s, t, l)
    ensures
      var x := AfterEarly(s, t, l, v);
      && ((x.ep.stage.Waiting? && x.cp == Rest) || (x.ep.stage.Logging? && InScan(x)))
      && Epoch(x) == Epoch(s) && l < |x.dram| && x.dram[l] == v && x.boot == s.boot
      && Snapshot(s.boot, x.hist, Epoch(s) - 1) == Snapshot(s.boot, s.hist, Epoch(s) - 1)
  {
    DirtyLine(s, t, l);
    H.SnapshotAppend(s.boot, s.hist, StoreEvent(s, t, l, v), Epoch(s) - 1);
    hide Inv, E.Parity;
  }

  /** The other threads have finished their lines; line `l` is as it was. */
  lemma OthersSettled(x: State, x1: State, t: nat, l: nat)
    requires EarlyEnabled(x, t, l) && OnlyOthers(x, t, x1) && Base(x1)
    requires forall k: nat | forall u: nat | u < |x.ctxs| && u != t :: !MidMark(x, u, k) :: LineKept(x, x1, k)
    requires forall u: nat | u < |x.ctxs| :: !HasLine(x.ctxs[u].log, l)
    requires forall u: nat | u < |x.ctxs| && u != t :: !Mid(x1, u)
    requires BitAt(x, Prev(x), l) && !BitAt(x, This(x), l) && Curr(x, t) == This(x)
    ensures EarlyEnabled(x1, t, l) && Curr(x1, t) == This(x1) && This(x1) == This(x) && Prev(x1) == Prev(x)
    ensures BitAt(x1, Prev(x1), l) && !BitAt(x1, This(x1), l)
    ensures forall u: nat | u < |x1.ctxs| :: !HasLine(x1.ctxs[u].log, l)
    ensures forall u: nat | u < |x1.ctxs| :: x1.ctxs[u].lists == x.ctxs[u].lists
  {
    forall u: nat | u < |x.ctxs| && u != t
      ensures !MidMark(x, u, l)
    {
    }
    assert LineKept(x, x1, l);
    FreeToTouch(x1, t, l);
    hide E.Parity, Base;
  }

  lemma DirtyIsHarmful(first: E.Begin, heap: seq<Value>, before: seq<Action>, s: State, t: nat, l: nat, v: Value)
    requires Run(Initial(first, heap), before, s) && EarlyEnabled(s, t, l) && OldBit(s, t, l)
    requires AllCurrent(s) && v != s.dram[l]
    ensures !Harmless(heap, AfterEarly(s, t, l, v), t, l)
  {
    ReachableInv(first, heap, before, s);
    hide Inv, Run, CrashOutcome, EarlyRun, OldBit, AllCurrent, AfterEarly, Recover, Boundary;
    var acts, x', c := DirtyLoses(s, t, l, v);
    assert Recover(c) != Snapshot(heap, x'.hist, Boundary(c.global));
  }

  /**
   * When a store that comes before its mark is harmless, whatever happens until the mark and after it: when the line is
   * not dirty from the previous epoch. That no operation of that epoch is left in the way of the checkpoint, and that
   * the store changes the line, is needed only for the harm.
   */
  lemma EarlyStoreExactly(first: E.Begin, heap: seq<Value>, before: seq<Action>, s: State, t: nat, l: nat, v: Value)
    requires Run(Initial(first, heap), before, s) && EarlyEnabled(s, t, l)
    ensures !OldBit(s, t, l) ==> Harmless(heap, AfterEarly(s, t, l, v), t, l)
    ensures AllCurrent(s) && v != s.dram[l] ==> (Harmless(heap, AfterEarly(s, t, l, v), t, l) <==> !OldBit(s, t, l))
  {
    hide Run, Harmless, OldBit, AllCurrent;
    if !OldBit(s, t, l) {
      ClearIsHarmless(first, heap, before, s, t, l, v);
    } else if AllCurrent(s) && v != s.dram[l] {
      DirtyIsHarmful(first, heap, before, s, t, l, v);
    }
  }

  /** The library of one line and one thread, in an operation of epoch 3 while the line is dirty from epoch 2. */
  lemma EarlyStoreLoses()
    ensures
      var s := R.Inside(R.Scanning());
      R.Reachable(R.HEAP, s) && EarlyEnabled(s, 0, 0) && !Harmless(R.HEAP, AfterEarly(s, 0, 0, 2), 0, 0)
  {
    var s := R.Inside(R.Scanning());
    R.ReachScanning();
    R.ReachInside(R.Scanning());
    assert EarlyEnabled(s, 0, 0) && OldBit(s, 0, 0) && AllCurrent(s) && s.dram == [1];
    var before :| Run(Initial(E.FIRST, R.HEAP), before, s);
    hide Run, Harmless, EarlyEnabled, OldBit, AllCurrent, R.Reachable;
    DirtyIsHarmful(E.FIRST, R.HEAP, before, s, 0, 0, 2);
  }
}

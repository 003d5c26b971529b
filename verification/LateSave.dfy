/**
 * What a copy on write that is in flight at the phase change to NVM_Heap_Update can lead to, however harmless it is
 * at that moment: its entry may come after the logs have been cleared, and then overrule the next checkpoint.
 */
module LateSave {
  import opened EpochPhase
  import opened Redo
  import opened Protocol
  import opened Marking
  import opened MarkRefinement
  import opened Solo
  import opened CrashSafety
  import opened Quiesce
  import I = Invariant
  import H = HeapSteps
  import D = UpdateRefinement
  import R = Races
  import E = Epochs

  /** The update of the NVM heap runs to its end and the checkpoint is over. */
  lemma EndCheckpoint(s: State) returns (acts: seq<Action>, s': State)
    requires Base(s) && s.ep.stage.Updating? && s.cp == ReplayMaster(0)
    ensures Run(s, acts, s') && Base(s')
    ensures s'.ep.stage.Resting? && s'.ep.right == E.Nobody
    ensures s'.cp == Rest && s'.dram == s.dram && s'.boot == s.boot
    ensures D.LogsCleared(s, s')
  {
    var mid;
    acts, mid := D.HeapUpdateRefines(s);
    s' := Next(mid, Ep(E.CheckpointerReleases));
    RunCons(mid, Ep(E.CheckpointerReleases), [], s');
    RunConcat(s, acts, mid, [Ep(E.CheckpointerReleases)] + [], s');
    acts := acts + ([Ep(E.CheckpointerReleases)] + []);
    hide Run, SoloRun;
    assert D.LogsCleared(s, s') && s'.ep == s.ep.(stage := E.Resting, right := E.Nobody);
    ReleasedBase(s, s');
  }

  lemma ReleasedBase(s: State, s': State)
    requires Base(s) && s.ep.stage.Updating? && s'.ep == s.ep.(stage := E.Resting, right := E.Nobody)
    requires D.LogsCleared(s, s') && s'.bits == s.bits && s'.dram == s.dram && s'.boot == s.boot
    requires |s'.nvm| == |s.nvm| && s'.pending == []
    ensures Base(s')
  {
    E.InvStep(s.ep, E.CheckpointerReleases);
    hide E.Inv;
    forall w: nat | E.InOperation(s'.ep, w)
      ensures Num(s', w) == Epoch(s')
    {
      assert E.InOperation(s.ep, w);
    }
    forall w: nat
      ensures CtxOk(s', w)
    {
      assert CtxOk(s, w);
    }
  }

  /** The save is pushed after all logs have been cleared. */
  lemma PushLate(s: State, t: nat) returns (acts: seq<Action>, s': State)
    requires Base(s) && s.ep.stage.Resting? && s.ep.right == E.Nobody && s.cp == Rest
    requires IsAt(s, t, ClearPrev) || IsAt(s, t, PushOld)
    requires forall u: nat | u < |s.ctxs| :: s.ctxs[u].log == [] && (u != t ==> !Mid(s, u))
    ensures
      var l := MarkLine(s.ctxs[t].mark);
      && Run(s, acts, s') && OnlyThread(s, t, s')
      && l < |s.dram| && Bait(s', l, s.dram[l]) && l in s'.ctxs[t].marked
  {
    assert CtxOk(s, t);
    var l := MarkLine(s.ctxs[t].mark);
    var s1 := s;
    acts := [];
    if IsAt(s, t, ClearPrev) {
      SpotStep(s, t);
      SpotStepBase(s, t);
      s1 := Next(s, MarkClearPrev(t));
      RunCons(s, MarkClearPrev(t), [], s1);
      acts := [MarkClearPrev(t)] + [];
    }
    assert s1.ctxs[t].log == [] && IsAt(s1, t, PushOld) && MarkLine(s1.ctxs[t].mark) == l;
    var more;
    more, s' := PushAndSet(s1, t);
    RunConcat(s, acts, s1, more, s');
    acts := acts + more;
  }

  /** The push and the setting of the new bit. */
  lemma PushAndSetSteps(s: State, t: nat) returns (acts: seq<Action>, s': State)
    requires Base(s) && IsAt(s, t, PushOld)
    ensures
      var l := MarkLine(s.ctxs[t].mark);
      && Run(s, acts, s') && OnlyThread(s, t, s') && Base(s') && IsAt(s', t, Head)
      && l < |s.dram| && s'.ctxs[t].log == s.ctxs[t].log + [Entry(l, s.dram[l])] && l in s'.ctxs[t].marked
      && BitAt(s', Curr(s, t), l)
  {
    assert CtxOk(s, t);
    SpotStep(s, t);
    SpotStepBase(s, t);
    var s1 := Next(s, MarkPush(t));
    SpotStep(s1, t);
    SpotStepBase(s1, t);
    s' := Next(s1, MarkSet(t));
    hide Base, E.Parity, E.Inv;
    RunCons(s1, MarkSet(t), [], s');
    RunCons(s, MarkPush(t), [MarkSet(t)] + [], s');
    acts := [MarkPush(t)] + ([MarkSet(t)] + []);
  }

  lemma PushAndSet(s: State, t: nat) returns (acts: seq<Action>, s': State)
    requires Base(s) && s.ep.stage.Resting? && s.ep.right == E.Nobody && s.cp == Rest && IsAt(s, t, PushOld)
    requires forall u: nat | u < |s.ctxs| :: s.ctxs[u].log == [] && (u != t ==> !Mid(s, u))
    ensures
      var l := MarkLine(s.ctxs[t].mark);
      && Run(s, acts, s') && OnlyThread(s, t, s')
      && l < |s.dram| && Bait(s', l, s.dram[l]) && l in s'.ctxs[t].marked
  {
    var l := MarkLine(s.ctxs[t].mark);
    assert CtxOk(s, t) && l < |s.dram|;
    FreeToTouch(s, t, l);
    hide Run, Base;
    acts, s' := PushAndSetSteps(s, t);
    OnlyEntry(s', t, l, s.dram[l]);
    forall u: nat | u < |s'.ctxs|
      ensures !Mid(s', u)
    {
      if u != t { assert !Mid(s, u) && s'.ctxs[u] == s.ctxs[u]; }
    }
  }

  /** Besides, the current epoch has left another value in line `l`. */
  ghost predicate Trap(s: State, l: nat, was: Value, v: Value) {
    && Bait(s, l, was) && s.ep.stage.Resting? && s.ep.right == E.Nobody && s.cp == Rest
    && Snapshot(s.boot, s.hist, Epoch(s))[l] == v
  }

  lemma StoreAnother(s: State, t: nat, l: nat, was: Value, v: Value) returns (s': State)
    requires Bait(s, l, was) && s.ep.stage.Resting? && s.ep.right == E.Nobody && s.cp == Rest
    requires E.InOperation(s.ep, t) && t < |s.ctxs| && s.ctxs[t].mark == NoMark && l in s.ctxs[t].marked
    ensures Guarded(s, Write(t, l, v)) && s' == Next(s, Write(t, l, v))
    ensures Trap(s', l, was, v)
  {
    FreeToTouch(s, t, l);
    s' := Next(s, Write(t, l, v));
    SameLogs(s, s', l, was);
    H.SnapshotAppend(s.boot, s.hist, Event(Num(s, t), t, s.ctxs[t].ops, l, v), Epoch(s));
    hide E.Inv;
    forall w: nat
      ensures CtxOk(s', w) && (w < |s'.ctxs| ==> !Mid(s', w))
    {
      assert CtxOk(s, w) && (w < |s.ctxs| ==> !Mid(s, w));
    }
  }

  /** The state when the next checkpoint begins to wait. */
  function Awaiting(s: State): State {
    s.(ep := s.ep.(global := E.Word(Epoch(s) + 1, MultiEpochExistence), stage := E.Waiting(0), right := E.Checkpointer),
       now := {}, before := s.now)
  }

  lemma BeginWait(s: State) returns (acts: seq<Action>)
    requires s.ep.stage.Resting? && s.ep.right == E.Nobody
    ensures Run(s, acts, Awaiting(s))
  {
    var s1 := s.(ep := s.ep.(right := E.Checkpointer));
    RunCons(s1, Ep(E.Advance), [], Awaiting(s));
    RunCons(s, Ep(E.CheckpointerTakes), [Ep(E.Advance)] + [], Awaiting(s));
    acts := [Ep(E.CheckpointerTakes)] + ([Ep(E.Advance)] + []);
  }

  lemma AwaitingBase(s: State)
    requires Base(s) && Quiet(s)
    ensures Base(Awaiting(s)) && Quiet(Awaiting(s))
  {
    var s' := Awaiting(s);
    forall t | 0 <= t < |s'.ep.threads|
      ensures E.ThreadInv(s'.ep, t)
    {
      assert s.ctxs[t].mark == NoMark && E.ThreadInv(s.ep, t);
    }
    assert forall u: nat | u < |s.ctxs| :: s.ctxs[u].mark == NoMark && !E.InOperation(s'.ep, u);
    forall u: nat
      ensures CtxOk(s', u)
    {
      assert CtxOk(s, u);
    }
  }

  /** A crash just after the phase change that a trap has waited for. */
  lemma TrapOutcome(s: State, s': State, l: nat, was: Value, v: Value)
    requires Trap(s, l, was, v) && AtUpdate(Awaiting(s), s')
    ensures
      var c := CrashNow(s');
      && CrashOutcome(s', c)
      && l < |Recover(c)| == |s.boot| && Recover(c)[l] == was && Snapshot(s.boot, s'.hist, Boundary(c.global))[l] == v
  {
    hide E.Inv;
    SameLogs(s, s', l, was);
    StaleWins(s', l, was, CrashNow(s'));
  }

  /** A trap in a quiet library closes at the phase change of the next checkpoint. */
  lemma TrapCloses(s: State, l: nat, was: Value, v: Value) returns (acts: seq<Action>, s': State, c: Crash)
    requires Trap(s, l, was, v) && Quiet(s)
    ensures Run(s, acts, s') && CrashOutcome(s', c) && s'.boot == s.boot
    ensures l < |Recover(c)| == |s.boot| && Recover(c)[l] == was && Snapshot(s.boot, s'.hist, Boundary(c.global))[l] == v
  {
    acts := BeginWait(s);
    AwaitingBase(s);
    hide Run, Quiet, CrashOutcome;
    var more;
    more, s' := ToUpdate(Awaiting(s));
    RunConcat(s, acts, Awaiting(s), more, s');
    acts := acts + more;
    c := CrashNow(s');
    TrapOutcome(s, s', l, was, v);
  }

  lemma BaseAtPhaseChange(s: State)
    requires I.Inv(s) && EpochActionEnabled(s, E.StartUpdating)
    ensures
      var s' := AfterEpochAction(s, E.StartUpdating);
      Base(s') && s'.cp == ReplayMaster(0) && s'.ep.stage.Updating?
  {
    var s' := AfterEpochAction(s, E.StartUpdating);
    E.InvStep(s.ep, E.StartUpdating);
    assert I.Sizes(s);
    forall u: nat | E.InOperation(s'.ep, u)
      ensures Num(s', u) == Epoch(s')
    {
      assert E.ThreadInv(s.ep, u);
    }
    forall u: nat
      ensures CtxOk(s', u)
    {
      assert I.UserInv(s, u);
    }
  }

  /** After a phase change with a save in flight: the checkpoint ends, and everybody else is between lines. */
  lemma ToRest(s: State, t: nat) returns (acts: seq<Action>, s': State)
    requires Base(s) && s.cp == ReplayMaster(0) && s.ep.stage.Updating?
    ensures Run(s, acts, s') && Base(s') && s'.dram == s.dram && s'.boot == s.boot && |s'.ctxs| == |s.ctxs|
    ensures s'.ep.stage.Resting? && s'.ep.right == E.Nobody && s'.cp == Rest
    ensures forall u: nat | u < |s'.ctxs| :: s'.ctxs[u].log == [] && (u != t ==> !Mid(s', u))
    ensures t < |s.ctxs| ==> s'.ctxs[t].mark == s.ctxs[t].mark
  {
    hide Run, Base;
    var mid, more;
    acts, mid := FinishOtherLines(s, t, |s.ctxs|);
    more, s' := EndCheckpoint(mid);
    RunConcat(s, acts, mid, more, s');
    acts := acts + more;
    forall u: nat | u < |s'.ctxs|
      ensures s'.ctxs[u].log == [] && (u != t ==> !Mid(s', u))
    {
      assert (u != t ==> !Mid(mid, u)) && s'.ctxs[u] == mid.ctxs[u].(log := []);
    }
  }

  /** Only then the save is pushed, and another value is stored. */
  lemma SetTrap(s: State, t: nat, v: Value) returns (acts: seq<Action>, s': State)
    requires Base(s) && s.cp == ReplayMaster(0) && s.ep.stage.Updating? && (IsAt(s, t, ClearPrev) || IsAt(s, t, PushOld))
    ensures
      var l := MarkLine(s.ctxs[t].mark);
      l < |s.dram| && Run(s, acts, s') && Trap(s', l, s.dram[l], v) && s'.boot == s.boot
  {
    assert CtxOk(s, t);
    var l := MarkLine(s.ctxs[t].mark);
    var was := s.dram[l];
    hide Run, Base;
    var s1, s2, s3, more;
    acts, s1 := ToRest(s, t);
    assert E.InOperation(s1.ep, t) by { InMark(s1, t); }
    more, s2 := PushLate(s1, t);
    RunConcat(s, acts, s1, more, s2);
    acts := acts + more;
    hide Bait;
    more, s3 := FinishMark(s2, t, l, was);
    RunConcat(s, acts, s2, more, s3);
    acts := acts + more;
    s' := StoreAnother(s3, t, l, was, v);
    RunCons(s3, Write(t, l, v), [], s');
    RunConcat(s, acts, s3, [Write(t, l, v)] + [], s');
    acts := acts + ([Write(t, l, v)] + []);
  }

  lemma InMark(s: State, t: nat)
    requires Base(s) && IsMarking(s, t)
    ensures E.InOperation(s.ep, t)
  {
    assert CtxOk(s, t);
  }

  lemma LosesFrom(s: State, t: nat, v: Value) returns (acts: seq<Action>, s': State, c: Crash)
    requires Base(s) && s.cp == ReplayMaster(0) && s.ep.stage.Updating? && (IsAt(s, t, ClearPrev) || IsAt(s, t, PushOld))
    ensures
      var l := MarkLine(s.ctxs[t].mark);
      && l < |s.dram| && Run(s, acts, s') && CrashOutcome(s', c) && l < |Recover(c)| == |s.boot|
      && Recover(c)[l] == s.dram[l] && Snapshot(s.boot, s'.hist, Boundary(c.global))[l] == v
  {
    var l := MarkLine(s.ctxs[t].mark);
    hide Run, Base, Trap, CrashOutcome;
    var s1, s2, more;
    acts, s1 := SetTrap(s, t, v);
    more, s2 := RetireAll(s1, |s1.ctxs|, l, s.dram[l]);
    RunConcat(s, acts, s1, more, s2);
    acts := acts + more;
    BootKept(s1, more, s2);
    more, s', c := TrapCloses(s2, l, s.dram[l], v);
    RunConcat(s, acts, s2, more, s');
    acts := acts + more;
  }

  /** With a save in flight at the phase change there is a continuation after which a crash loses a store. */
  lemma SaveInFlightLoses(s: State, t: nat, v: Value) returns (acts: seq<Action>, s': State, c: Crash)
    requires I.Inv(s) && EpochActionEnabled(s, E.StartUpdating) && (IsAt(s, t, ClearPrev) || IsAt(s, t, PushOld))
    ensures
      var l := MarkLine(s.ctxs[t].mark);
      && Run(AfterEpochAction(s, E.StartUpdating), acts, s') && CrashOutcome(s', c)
      && l < |Recover(c)| == |s.boot| == |s.dram|
      && Recover(c)[l] == s.dram[l] && Snapshot(s.boot, s'.hist, Boundary(c.global))[l] == v
  {
    var s1 := AfterEpochAction(s, E.StartUpdating);
    assert s1.ctxs == s.ctxs && s1.dram == s.dram && s1.boot == s.boot;
    assert |s.dram| == |s.boot| by { assert I.Sizes(s); }
    BaseAtPhaseChange(s);
    hide Run, Base, CrashOutcome, I.Inv, AfterEpochAction;
    acts, s', c := LosesFrom(s1, t, v);
  }

  /** Whatever happens from `s` on, with the phase changes that follow guarded, every crash recovers its boundary. */
  ghost predicate SafeFrom(heap: seq<Value>, s: State) {
    forall acts, s', c | Run(s, acts, s') && CrashOutcome(s', c) ::
      Recover(c) == Snapshot(heap, s'.hist, Boundary(c.global))
  }

  lemma GuardedIsSafe(first: E.Begin, heap: seq<Value>, acts: seq<Action>, s: State)
    requires Run(Initial(first, heap), acts, s) && Guarded(s, Ep(E.StartUpdating))
    ensures SafeFrom(heap, Next(s, Ep(E.StartUpdating)))
  {
    var a := Ep(E.StartUpdating);
    forall more, s', c | Run(Next(s, a), more, s') && CrashOutcome(s', c)
      ensures Recover(c) == Snapshot(heap, s'.hist, Boundary(c.global))
    {
      RunCons(s, a, more, s');
      RunConcat(Initial(first, heap), acts, s, [a] + more, s');
      hide CrashOutcome, Run;
      CrashConsistency(first, heap, acts + ([a] + more), s', c);
    }
  }

  lemma UnguardedIsUnsafe(first: E.Begin, heap: seq<Value>, acts: seq<Action>, s: State)
    requires Run(Initial(first, heap), acts, s) && EpochActionEnabled(s, E.StartUpdating) && SaveInFlight(s)
    ensures !SafeFrom(heap, AfterEpochAction(s, E.StartUpdating))
  {
    InitialInv(first, heap);
    RunKeepsInv(Initial(first, heap), acts, s);
    hide I.Inv, Run, CrashOutcome, AfterEpochAction;
    var t :| 0 <= t < |s.ctxs| && (IsAt(s, t, ClearPrev) || IsAt(s, t, PushOld));
    var l := MarkLine(s.ctxs[t].mark);
    var v: Value := (if l < |s.dram| then s.dram[l] else 0) + 1;
    var more, s', c := SaveInFlightLoses(s, t, v);
    assert s.boot == heap;
    assert Recover(c) != Snapshot(heap, s'.hist, Boundary(c.global));
  }

  /**
   * Exactly when the phase change to NVM_Heap_Update is safe for good: when no copy on write is in flight, a thread
   * between its test of the old bit of a line and the push of the old content of the line.
   */
  lemma SafePhaseChange(first: E.Begin, heap: seq<Value>, acts: seq<Action>, s: State)
    requires Run(Initial(first, heap), acts, s) && EpochActionEnabled(s, E.StartUpdating)
    ensures SafeFrom(heap, AfterEpochAction(s, E.StartUpdating)) <==> !SaveInFlight(s)
  {
    hide Run, SafeFrom;
    if SaveInFlight(s) {
      UnguardedIsUnsafe(first, heap, acts, s);
    } else {
      GuardedIsSafe(first, heap, acts, s);
    }
  }

  /** One line and one thread: the line has been copied, and then the thread has begun to save it. */
  function CopiedAndSaving(): State {
    var s := R.Saved(R.Scanning().(cp := Clear(0, 0, 0), master := [Entry(0, 1)]));
    s.(cp := Scan(1, 0, 0), ctxs := [s.ctxs[0].(lists := Pair([], []))])
  }

  lemma ReachCopiedAndSaving()
    ensures R.Reachable(R.HEAP, CopiedAndSaving())
  {
    hide Run, R.Reachable;
    R.ReachScanning();
    var s0 := R.Scanning();
    var s1 := s0.(cp := Copy(0, 0, 0));
    R.Extend(R.HEAP, s0, ScanStep, s1);
    var s2 := s1.(cp := Clear(0, 0, 0), master := [Entry(0, 1)]);
    assert [] + [Entry(0, 1)] == [Entry(0, 1)];
    R.Extend(R.HEAP, s1, CopyLine(1), s2);
    R.ReachSaving(s2);
    var s3 := R.Saved(s2);
    var s4 := s3.(cp := Scan(0, 0, 1));
    assert R.CLEAR[0 := false] == R.CLEAR;
    R.Extend(R.HEAP, s3, ClearLine, s4);
    R.FinishScan(s4, 1, CopiedAndSaving());
  }

  /**
   * A save in flight that no crash at the phase change betrays: the line has already been copied. But the entry comes
   * after the logs have been cleared, and in the next checkpoint it overrules the entry with the new content.
   */
  lemma StaleEntry() returns (acts: seq<Action>, s': State, c: Crash)
    ensures
      var s := CopiedAndSaving();
      && R.Reachable(R.HEAP, s) && EpochActionEnabled(s, E.StartUpdating)
      && R.AlreadyCopied(s, 0) && SaveInFlight(s)
      && Run(AfterEpochAction(s, E.StartUpdating), acts, s') && CrashOutcome(s', c)
      && Recover(c) == [1] && Snapshot(R.HEAP, s'.hist, Boundary(c.global)) == [2]
  {
    var s := CopiedAndSaving();
    ReachCopiedAndSaving();
    CopiedFacts();
    ReachableInv(s);
    hide *;
    acts, s', c := SaveInFlightLoses(s, 0, 2);
    assert |Recover(c)| == 1;
  }

  lemma ReachableInv(s: State)
    requires R.Reachable(R.HEAP, s)
    ensures I.Inv(s)
  {
    var acts :| Run(Initial(E.FIRST, R.HEAP), acts, s);
    InitialInv(E.FIRST, R.HEAP);
    hide I.Inv;
    RunKeepsInv(Initial(E.FIRST, R.HEAP), acts, s);
  }

  lemma CopiedFacts()
    ensures
      var s := CopiedAndSaving();
      && EpochActionEnabled(s, E.StartUpdating) && R.AlreadyCopied(s, 0) && SaveInFlight(s) && IsAt(s, 0, PushOld)
      && MarkLine(s.ctxs[0].mark) == 0 && s.dram == [1] && s.boot == R.HEAP
  {
    assert IsAt(CopiedAndSaving(), 0, PushOld);
    assert [Entry(0, 1)][..0] == [];
  }
}

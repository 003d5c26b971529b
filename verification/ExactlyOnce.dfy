/** How often a dirty line is logged, and what that means for the order in which logs are replayed. */
module ExactlyOnce {
  import opened EpochPhase
  import opened Redo
  import opened Protocol
  import opened Invariant
  import opened CrashSafety
  import U = UserSteps
  import E = Epochs

  ghost predicate DistinctLines(log: seq<Entry>) {
    forall i, j | 0 <= i < j < |log| :: log[i].line != log[j].line
  }

  /** The line has been copied only if its bit has been, or is just being, cleared. */
  ghost predicate CopiedOnce(s: State, l: nat) {
    && (ScanPc(s) && HasLine(s.master, l) ==> !BitAt(s, Prev(s), l) || (s.cp.Clear? && ScanLine(s, l)))
    && (s.cp.Copy? && ScanLine(s, l) ==> !HasLine(s.master, l))
  }

  ghost predicate OnceInv(s: State) {
    && (forall l: nat :: CopiedOnce(s, l))
    && DistinctLines(s.master)
    && (forall t | 0 <= t < |s.ctxs| :: DistinctLines(s.ctxs[t].log))
  }

  /** Nothing that `OnceInv` speaks about changes, except that a bit may go or logs may be emptied. */
  ghost predicate OnceFrame(s: State, s': State) {
    && (s'.master == s.master || s'.master == [])
    && (forall t | 0 <= t < |s'.ctxs| :: s'.ctxs[t].log == [] || (t < |s.ctxs| && s'.ctxs[t].log == s.ctxs[t].log))
    && (ScanPc(s') && s'.master != [] ==>
          && s'.cp == s.cp && Prev(s') == Prev(s)
          && (forall l :: ScanLine(s', l) == ScanLine(s, l))
          && (forall l: nat :: BitAt(s', Prev(s), l) ==> BitAt(s, Prev(s), l)))
  }

  lemma OnceFrameKeeps(s: State, s': State)
    requires OnceInv(s) && OnceFrame(s, s')
    ensures OnceInv(s')
  {
    forall l: nat
      ensures CopiedOnce(s', l)
    {
      assert CopiedOnce(s, l);
    }
  }

  /** A step of `mark` other than the push. */
  ghost predicate MarkFrame(s: State, s': State, t: nat) {
    && t < |s.ctxs| == |s'.ctxs| && s'.ctxs == s.ctxs[t := s'.ctxs[t]] && s'.ctxs[t].log == s.ctxs[t].log
    && s'.ep == s.ep && s'.master == s.master && s'.cp == s.cp
    && (ScanPc(s) ==>
          && s'.ctxs[t].lists.At(Prev(s)) == s.ctxs[t].lists.At(Prev(s))
          && forall l: nat :: BitAt(s', Prev(s), l) ==> BitAt(s, Prev(s), l))
  }

  lemma MarkFrameKeeps(s: State, s': State, t: nat)
    requires OnceInv(s) && MarkFrame(s, s', t)
    ensures OnceInv(s')
  {
    hide E.Parity;
    assert forall u | 0 <= u < |s.ctxs| :: s'.ctxs[u].log == s.ctxs[u].log;
    assert ScanPc(s) ==> forall l :: ScanLine(s', l) == ScanLine(s, l);
    assert OnceFrame(s, s');
    hide *;
    OnceFrameKeeps(s, s');
  }

  lemma OnceMark(s: State, a: Action, t: nat)
    requires Inv(s) && OnceInv(s) && Enabled(s, a)
    requires a in {MarkTest(t), MarkTestPrev(t), MarkClearPrev(t), MarkSet(t), MarkReturn(t)}
    ensures OnceInv(Next(s, a))
  {
    U.Focus(s, t);
    hide Inv, OnceInv;
    assert MarkFrame(s, Next(s, a), t) by {
      if a in {MarkSet(t), MarkReturn(t)} {
        LateMarkFrame(s, a, t);
      } else {
        EarlyMarkFrame(s, a, t);
      }
    }
    hide *;
    MarkFrameKeeps(s, Next(s, a), t);
  }

  lemma EarlyMarkFrame(s: State, a: Action, t: nat)
    requires U.Focused(s, t) && Enabled(s, a) && a in {MarkTest(t), MarkTestPrev(t), MarkClearPrev(t)}
    ensures MarkFrame(s, Next(s, a), t)
  {
    hide E.Parity;
  }

  lemma LateMarkFrame(s: State, a: Action, t: nat)
    requires U.Focused(s, t) && Enabled(s, a) && a in {MarkSet(t), MarkReturn(t)}
    ensures MarkFrame(s, Next(s, a), t)
  {
    hide E.Parity;
  }

  lemma OnceSmall(s: State, a: Action)
    requires Inv(s) && OnceInv(s) && Enabled(s, a) && (a.MarkCall? || a.Write?)
    ensures OnceInv(Next(s, a))
  {
    hide Inv, OnceInv, E.Parity;
    var s' := Next(s, a);
    assert MarkFrame(s, s', a.t);
    hide *;
    MarkFrameKeeps(s, s', a.t);
  }

  lemma OnceEpoch(s: State, a: E.Action)
    requires Inv(s) && OnceInv(s) && EpochActionEnabled(s, a)
    ensures OnceInv(AfterEpochAction(s, a))
  {
    hide *;
    OpenInv(s);
    EpochFrame(s, a);
    OnceFrameKeeps(s, AfterEpochAction(s, a));
  }

  lemma EpochFrame(s: State, a: E.Action)
    requires CheckpointInv(s) && MasterInv(s) && EpochActionEnabled(s, a)
    ensures OnceFrame(s, AfterEpochAction(s, a))
  {
    hide OnceFrame, CheckpointInv, MasterInv, EpochActionEnabled;
    if a == E.StartLogging || a == E.Advance || a == E.Finalize {
      NothingCopied(s, a);
    } else {
      ThreadFrame(s, a);
    }
  }

  /** A new scan begins with an empty master log. */
  lemma NothingCopied(s: State, a: E.Action)
    requires CheckpointInv(s) && MasterInv(s) && EpochActionEnabled(s, a)
    requires a == E.StartLogging || a == E.Advance || a == E.Finalize
    ensures OnceFrame(s, AfterEpochAction(s, a))
  {
    assert s.master == [];
    hide E.Parity, E.Next, CheckpointInv, MasterInv;
  }

  lemma ThreadFrame(s: State, a: E.Action)
    requires CheckpointInv(s) && EpochActionEnabled(s, a)
    requires a != E.StartLogging && a != E.Advance && a != E.Finalize
    ensures OnceFrame(s, AfterEpochAction(s, a))
  {
    var s' := AfterEpochAction(s, a);
    assert Epoch(s') == Epoch(s) && Prev(s') == Prev(s) && s'.bits == s.bits && s'.master == s.master;
    assert ScanPc(s') ==> s'.cp == s.cp;
    hide E.Parity, E.Next, E.Enabled, CheckpointInv;
  }

  /** The user who pushes a line is the first to do so. */
  lemma OncePush(s: State, t: nat)
    requires Inv(s) && OnceInv(s) && Enabled(s, MarkPush(t))
    ensures OnceInv(AfterMarkPush(s, t))
  {
    var s' := AfterMarkPush(s, t);
    var l0 := MarkLine(s.ctxs[t].mark);
    U.Focus(s, t);
    assert l0 !in s.saver by {
      OpenInv(s);
      U.NotYetSaved(s, t, l0);
    }
    var log := s.ctxs[t].log;
    forall j | 0 <= j < |log|
      ensures log[j].line != l0
    {
      assert UserLogsInv(s) && SavedInv(s, t, log[j]);
    }
    hide Inv, E.Parity, UserInv, LineInv;
    assert DistinctLines(log + [Entry(l0, s.dram[l0])]);
    forall l: nat
      ensures CopiedOnce(s', l)
    {
      assert CopiedOnce(s, l);
    }
  }

  lemma OnceScan(s: State)
    requires Inv(s) && OnceInv(s) && Enabled(s, ScanStep)
    ensures OnceInv(AfterScanStep(s))
  {
    hide Inv, E.Parity;
    var s' := AfterScanStep(s);
    forall l: nat
      ensures CopiedOnce(s', l)
    {
      assert CopiedOnce(s, l);
    }
  }

  lemma OnceCopy(s: State, v: Value)
    requires Inv(s) && OnceInv(s) && Enabled(s, CopyLine(v))
    ensures OnceInv(AfterCopyLine(s, v))
  {
    hide Inv, E.Parity;
    var s' := AfterCopyLine(s, v);
    var l0 := ScanRange(s, s.cp.c, s.cp.k).base + s.cp.i;
    assert ScanLine(s, l0) && CopiedOnce(s, l0);
    forall l: nat
      ensures CopiedOnce(s', l)
    {
      assert CopiedOnce(s, l);
      if HasLine(s'.master, l) && l != l0 {
        var j :| 0 <= j < |s'.master| && s'.master[j].line == l;
        assert s.master[j].line == l;
      }
    }
  }

  lemma OnceClear(s: State)
    requires Inv(s) && OnceInv(s) && Enabled(s, ClearLine)
    ensures OnceInv(AfterClearLine(s))
  {
    hide Inv, E.Parity;
    var s' := AfterClearLine(s);
    forall l: nat
      ensures CopiedOnce(s', l)
    {
      assert CopiedOnce(s, l);
    }
  }

  lemma OnceUpdate(s: State)
    requires Inv(s) && OnceInv(s) && Enabled(s, UpdateStep)
    ensures OnceInv(AfterUpdateStep(s))
  {
    var s' := AfterUpdateStep(s);
    assert !ScanPc(s');
    hide Inv, OnceInv, E.Parity, Apply, WithoutSaver, ScanLine, BitAt;
    assert OnceFrame(s, s');
    hide *;
    OnceFrameKeeps(s, s');
  }

  lemma OnceStep(s: State, a: Action)
    requires Inv(s) && OnceInv(s) && Enabled(s, a)
    ensures OnceInv(Next(s, a))
  {
    hide Inv, OnceInv;
    match a
    case Ep(ea) => OnceEpoch(s, ea);
    case MarkCall(_, _) => OnceSmall(s, a);
    case Write(_, _, _) => OnceSmall(s, a);
    case MarkPush(t) => OncePush(s, t);
    case ScanStep => OnceScan(s);
    case CopyLine(v) => OnceCopy(s, v);
    case ClearLine => OnceClear(s);
    case UpdateStep => OnceUpdate(s);
    case _ => OnceMark(s, a, a.t);
  }

  lemma {:induction false} RunKeepsOnce(s: State, acts: seq<Action>, s': State)
    requires Inv(s) && OnceInv(s) && Run(s, acts, s')
    ensures OnceInv(s')
    decreases |acts|
  {
    hide Inv, OnceInv;
    if acts != [] {
      OnceStep(s, acts[0]);
      StepKeepsInv(s, acts[0]);
      RunKeepsOnce(Next(s, acts[0]), acts[1..], s');
    }
  }

  /** Number of entries for line `l`. */
  function Count(log: seq<Entry>, l: nat): nat {
    if log == [] then 0
    else Count(log[..|log| - 1], l) + if log[|log| - 1].line == l then 1 else 0
  }

  function CountUsers(ctxs: seq<Ctx>, l: nat): nat {
    if ctxs == [] then 0
    else CountUsers(ctxs[..|ctxs| - 1], l) + Count(ctxs[|ctxs| - 1].log, l)
  }

  lemma {:induction false} CountDistinct(log: seq<Entry>, l: nat)
    requires DistinctLines(log)
    ensures Count(log, l) == if HasLine(log, l) then 1 else 0
  {
    if log != [] {
      var n := |log| - 1;
      var rest := log[..n];
      CountDistinct(rest, l);
      forall j | 0 <= j < n
        ensures rest[j].line == log[j].line
      {
      }
      if HasLine(rest, l) {
        var j :| 0 <= j < n && rest[j].line == l;
        assert log[j].line == l;
      }
    }
  }

  /** A line is in the log of the thread recorded as its saver, and in no other user's log. */
  lemma OnlySaver(s: State, t: nat, l: nat)
    requires UserLogsInv(s) && t < |s.ctxs|
    ensures HasLine(s.ctxs[t].log, l) <==> l in s.saver && s.saver[l] == t
  {
    if HasLine(s.ctxs[t].log, l) {
      var j :| 0 <= j < |s.ctxs[t].log| && s.ctxs[t].log[j].line == l;
      assert SavedInv(s, t, s.ctxs[t].log[j]);
    }
  }

  lemma {:induction false} CountSaver(s: State, n: nat, l: nat)
    requires UserLogsInv(s) && n <= |s.ctxs|
    requires forall t | 0 <= t < |s.ctxs| :: DistinctLines(s.ctxs[t].log)
    ensures CountUsers(s.ctxs[..n], l) == if l in s.saver && s.saver[l] < n then 1 else 0
  {
    if n > 0 {
      CountSaver(s, n - 1, l);
      assert s.ctxs[..n][..n - 1] == s.ctxs[..n - 1];
      OnlySaver(s, n - 1, l);
      CountDistinct(s.ctxs[n - 1].log, l);
    }
  }

  lemma CountsOfLine(s: State, l: nat)
    requires Inv(s) && OnceInv(s)
    ensures Count(s.master, l) == if HasLine(s.master, l) then 1 else 0
    ensures CountUsers(s.ctxs, l) == if l in s.saver then 1 else 0
  {
    CountDistinct(s.master, l);
    OpenInv(s);
    hide Inv;
    CountSaver(s, |s.ctxs|, l);
    assert s.ctxs[..|s.ctxs|] == s.ctxs;
    assert l in s.saver ==> s.saver[l] < |s.ctxs|;
  }

  lemma LoggedIffDirty(s: State, l: nat)
    requires Inv(s) && ScanFinished(s) && !SaveInFlight(s) && l < |s.dram|
    ensures l in s.before <==> HasLine(s.master, l) || l in s.saver
    ensures l in s.saver ==> l in s.now
  {
    assert LineInv(s, l) && UserLogsInv(s) && MasterInv(s);
    assert !BitAt(s, Prev(s), l) by { assert !Ahead(s, l); }
    if l in s.owner {
      assert UserInv(s, s.owner[l]);
      U.OperationParity(s, s.owner[l]);
    }
    hide Inv, E.Inv;
    if l in s.saver { U.SaverLine(s, l); }
    if HasLine(s.master, l) {
      var j :| 0 <= j < |s.master| && s.master[j].line == l;
      assert CopiedInv(s, s.master[j]);
    }
  }

  /**
   * At the end of log persistence, with every step of the checkpointing thread interleaved at will: a line has
   * an entry just when an operation of the previous epoch has marked it, at most one in the master log, at most
   * one over all users' logs together, and one of those only if the current epoch has marked it as well.
   */
  lemma LoggedAtMostTwice(first: E.Begin, heap: seq<Value>, acts: seq<Action>, s: State, l: nat)
    requires Run(Initial(first, heap), acts, s) && ScanFinished(s) && !SaveInFlight(s) && l < |s.dram|
    ensures Count(s.master, l) <= 1 && CountUsers(s.ctxs, l) <= 1
    ensures Count(s.master, l) + CountUsers(s.ctxs, l) >= 1 <==> l in s.before
    ensures CountUsers(s.ctxs, l) == 1 ==> l in s.now
  {
    InitialInv(first, heap);
    InitialOnce(first, heap);
    hide Inv, OnceInv;
    RunKeepsInv(Initial(first, heap), acts, s);
    RunKeepsOnce(Initial(first, heap), acts, s);
    CountsOfLine(s, l);
    LoggedIffDirty(s, l);
  }

  lemma InitialOnce(first: E.Begin, heap: seq<Value>)
    ensures OnceInv(Initial(first, heap))
  {
  }

  predicate InSave(s: State, t: nat) {
    IsAt(s, t, ClearPrev) || IsAt(s, t, PushOld)
  }

  /** Test, copy and clear of one line are one step, and so are test, clear and push of a copy on write. */
  ghost predicate Atomic(s: State, a: Action) {
    && Enabled(s, a)
    && (s.cp.Copy? || s.cp.Clear? ==> a.CopyLine? || a == ClearLine)
    && (forall t: nat | InSave(s, t) :: a == MarkClearPrev(t) || a == MarkPush(t))
  }

  ghost predicate AtomicRun(s: State, acts: seq<Action>, s': State)
    decreases |acts|
  {
    if acts == [] then s == s' else Atomic(s, acts[0]) && AtomicRun(Next(s, acts[0]), acts[1..], s')
  }

  /** With atomic lines no line is both copied and saved. */
  ghost predicate SoloLine(s: State, l: nat) {
    && !(HasLine(s.master, l) && l in s.saver)
    && (s.cp.Copy? && ScanLine(s, l) ==> BitAt(s, Prev(s), l))
    && (OwnerAt(s, l, ClearPrev) ==> BitAt(s, Prev(s), l))
    && (Saving(s, l) ==> !HasLine(s.master, l))
  }

  /** Nobody is in a copy on write, and the logs and savers are the same or fewer. */
  ghost predicate SoloFrame(s: State, s': State) {
    && (s'.master == s.master || s'.master == [])
    && (forall l | l in s'.saver :: l in s.saver)
    && !s'.cp.Copy?
    && forall t: nat :: !InSave(s', t)
  }

  lemma SoloFrameKeeps(s: State, s': State)
    requires SoloFrame(s, s') && forall l: nat :: SoloLine(s, l)
    ensures forall l: nat :: SoloLine(s', l)
  {
    forall l: nat
      ensures SoloLine(s', l)
    {
      assert SoloLine(s, l);
      if l in s'.owner { assert !InSave(s', s'.owner[l]); }
    }
  }

  lemma SoloMark(s: State, a: Action)
    requires (forall l: nat :: SoloLine(s, l)) && Atomic(s, a)
    requires a.MarkCall? || a.MarkTest? || a.MarkSet? || a.MarkReturn? || a.Write?
    ensures forall l: nat :: SoloLine(Next(s, a), l)
  {
    hide E.Parity, SoloLine;
    var s' := Next(s, a);
    forall t: nat
      ensures !InSave(s', t)
    {
      assert !InSave(s, t);
    }
    assert SoloFrame(s, s');
    SoloFrameKeeps(s, s');
  }

  lemma SoloEpoch(s: State, a: E.Action)
    requires (forall l: nat :: SoloLine(s, l)) && Atomic(s, Ep(a))
    ensures forall l: nat :: SoloLine(AfterEpochAction(s, a), l)
  {
    hide E.Parity, SoloLine;
    var s' := AfterEpochAction(s, a);
    forall t: nat
      ensures !InSave(s', t)
    {
      assert !InSave(s, t);
    }
    assert SoloFrame(s, s');
    SoloFrameKeeps(s, s');
  }

  lemma SoloUpdate(s: State)
    requires (forall l: nat :: SoloLine(s, l)) && Atomic(s, UpdateStep)
    ensures forall l: nat :: SoloLine(AfterUpdateStep(s), l)
  {
    hide E.Parity, SoloLine;
    var s' := AfterUpdateStep(s);
    forall t: nat
      ensures !InSave(s', t)
    {
      assert !InSave(s, t);
    }
    assert SoloFrame(s, s');
    SoloFrameKeeps(s, s');
  }

  /** What is known of a line in the middle of being saved, with the checkpointing thread between lines. */
  lemma InMidSave(s: State, t: nat, l: nat)
    requires Inv(s) && OnceInv(s) && SoloLine(s, l) && IsMarking(s, t) && !s.cp.Copy? && !s.cp.Clear?
    ensures OwnerInv(s, l)
    ensures IsAt(s, t, ClearPrev) && MarkLine(s.ctxs[t].mark) == l ==>
              l in s.owner && s.owner[l] == t && Prev(s) == !Curr(s, t) && !HasLine(s.master, l)
    ensures IsAt(s, t, TestPrev) && BitAt(s, !Curr(s, t), MarkLine(s.ctxs[t].mark)) ==> Prev(s) == !Curr(s, t)
  {
    U.Focus(s, t);
    assert CopiedOnce(s, l) && MasterInv(s) && CheckpointInv(s);
    assert l in s.owner ==> LineInv(s, l);
    hide Inv, OnceInv, E.Parity, ValueInv, CoverInv, HasLine;
  }

  lemma SoloTestPrev(s: State, t: nat, l: nat)
    requires Inv(s) && OnceInv(s) && SoloLine(s, l) && Atomic(s, MarkTestPrev(t))
    ensures SoloLine(AfterMarkTestPrev(s, t), l)
  {
    InMidSave(s, t, l);
    hide Inv, OnceInv, E.Parity;
    if l in s.owner && s.owner[l] != t { assert !InSave(s, s.owner[l]); }
  }

  lemma SoloClearPrev(s: State, t: nat, l: nat)
    requires Inv(s) && OnceInv(s) && SoloLine(s, l) && Atomic(s, MarkClearPrev(t))
    ensures SoloLine(AfterMarkClearPrev(s, t), l)
  {
    InMidSave(s, t, l);
    hide Inv, OnceInv, E.Parity;
    if l in s.owner && s.owner[l] != t { assert !InSave(s, s.owner[l]); }
  }

  lemma SoloPush(s: State, t: nat, l: nat)
    requires Inv(s) && OnceInv(s) && SoloLine(s, l) && Atomic(s, MarkPush(t))
    ensures SoloLine(AfterMarkPush(s, t), l)
  {
    U.Focus(s, t);
    InMidSave(s, t, l);
    hide Inv, OnceInv, E.Parity, LineInv;
    if l in s.owner && s.owner[l] != t { assert !InSave(s, s.owner[l]); }
  }

  lemma SetNotSaved(s: State, l: nat)
    requires Inv(s) && BitAt(s, Prev(s), l) && s.ep.stage.Logging?
    ensures l !in s.saver
  {
    assert LineInv(s, l) && UserLogsInv(s);
    if l in s.owner {
      assert UserInv(s, s.owner[l]);
      U.OperationParity(s, s.owner[l]);
    }
    hide Inv, E.Inv, E.Parity;
    if l in s.saver { U.SaverLine(s, l); }
  }

  lemma SoloScan(s: State)
    requires Inv(s) && (forall l: nat :: SoloLine(s, l)) && Atomic(s, ScanStep)
    ensures forall l: nat :: SoloLine(AfterScanStep(s), l)
  {
    hide Inv, E.Parity;
    var s' := AfterScanStep(s);
    forall l: nat
      ensures SoloLine(s', l)
    {
      assert SoloLine(s, l);
      if l in s.owner { assert !InSave(s, s.owner[l]); }
    }
  }

  lemma SoloCopy(s: State, v: Value)
    requires Inv(s) && (forall l: nat :: SoloLine(s, l)) && Atomic(s, CopyLine(v))
    ensures forall l: nat :: SoloLine(AfterCopyLine(s, v), l)
  {
    var s' := AfterCopyLine(s, v);
    var l0 := ScanRange(s, s.cp.c, s.cp.k).base + s.cp.i;
    assert SoloLine(s, l0) && ScanLine(s, l0);
    SetNotSaved(s, l0);
    hide Inv, E.Parity;
    forall l: nat
      ensures SoloLine(s', l)
    {
      assert SoloLine(s, l);
      if l in s.owner { assert !InSave(s, s.owner[l]); }
      if HasLine(s'.master, l) { HasLineSplit(s.master, Entry(l0, v), l); }
    }
  }

  lemma HasLineSplit(log: seq<Entry>, x: Entry, l: nat)
    requires HasLine(log + [x], l)
    ensures HasLine(log, l) || x.line == l
  {
    var j :| 0 <= j < |log + [x]| && (log + [x])[j].line == l;
    assert j == |log| || log[j].line == l;
  }

  lemma SoloClear(s: State)
    requires Inv(s) && (forall l: nat :: SoloLine(s, l)) && Atomic(s, ClearLine)
    ensures forall l: nat :: SoloLine(AfterClearLine(s), l)
  {
    hide Inv, E.Parity;
    var s' := AfterClearLine(s);
    forall l: nat
      ensures SoloLine(s', l)
    {
      assert SoloLine(s, l);
      if l in s.owner { assert !InSave(s, s.owner[l]); }
    }
  }

  lemma SoloStep(s: State, a: Action)
    requires Inv(s) && OnceInv(s) && (forall l: nat :: SoloLine(s, l)) && Atomic(s, a)
    ensures forall l: nat :: SoloLine(Next(s, a), l)
  {
    hide Inv, OnceInv, SoloLine;
    match a
    case Ep(ea) => SoloEpoch(s, ea);
    case MarkTestPrev(t) => forall l: nat ensures SoloLine(Next(s, a), l) { SoloTestPrev(s, t, l); }
    case MarkClearPrev(t) => forall l: nat ensures SoloLine(Next(s, a), l) { SoloClearPrev(s, t, l); }
    case MarkPush(t) => forall l: nat ensures SoloLine(Next(s, a), l) { SoloPush(s, t, l); }
    case ScanStep => SoloScan(s);
    case CopyLine(v) => SoloCopy(s, v);
    case ClearLine => SoloClear(s);
    case UpdateStep => SoloUpdate(s);
    case _ => SoloMark(s, a);
  }

  /** Atomic runs are runs, and keep the two kinds of entries apart. */
  lemma {:induction false} AtomicRunKeeps(s: State, acts: seq<Action>, s': State)
    requires Inv(s) && OnceInv(s) && (forall l: nat :: SoloLine(s, l)) && AtomicRun(s, acts, s')
    ensures Inv(s') && OnceInv(s') && (forall l: nat :: SoloLine(s', l))
    ensures Run(s, acts, s')
    decreases |acts|
  {
    hide Inv, OnceInv, SoloLine;
    if acts != [] {
      AtomicIsGuarded(s, acts[0]);
      StepKeepsInv(s, acts[0]);
      OnceStep(s, acts[0]);
      SoloStep(s, acts[0]);
      AtomicRunKeeps(Next(s, acts[0]), acts[1..], s');
    }
  }

  lemma AtomicIsGuarded(s: State, a: Action)
    requires Atomic(s, a)
    ensures Guarded(s, a)
  {
    if a == Ep(E.StartUpdating) && SaveInFlight(s) {
      var t :| 0 <= t < |s.ctxs| && (IsAt(s, t, ClearPrev) || IsAt(s, t, PushOld));
      assert InSave(s, t);
    }
  }

  lemma AtomicInv(first: E.Begin, heap: seq<Value>, acts: seq<Action>, s: State)
    requires AtomicRun(Initial(first, heap), acts, s)
    ensures Inv(s) && OnceInv(s) && (forall l: nat :: SoloLine(s, l)) && s.boot == heap
  {
    InitialInv(first, heap);
    InitialOnce(first, heap);
    assert forall l: nat :: SoloLine(Initial(first, heap), l);
    hide Inv, OnceInv, SoloLine;
    AtomicRunKeeps(Initial(first, heap), acts, s);
    RunKeepsInv(Initial(first, heap), acts, s);
  }

  /** In a state of an atomic run every entry of a log is right. */
  lemma EntriesRight(s: State, x: Entry)
    requires Inv(s) && SoloLine(s, x.line)
    requires x in s.master || exists t :: 0 <= t < |s.ctxs| && x in s.ctxs[t].log
    ensures x.val == Old(s, x.line)
  {
    OpenInv(s);
    hide Inv;
    if x in s.master {
      var j :| 0 <= j < |s.master| && s.master[j] == x;
      assert CopiedInv(s, s.master[j]) && HasLine(s.master, x.line);
    } else {
      var t :| 0 <= t < |s.ctxs| && x in s.ctxs[t].log;
      var j :| 0 <= j < |s.ctxs[t].log| && s.ctxs[t].log[j] == x;
      assert SavedInv(s, t, s.ctxs[t].log[j]);
    }
  }

  lemma FinishedScan(s: State)
    requires Inv(s) && ScanFinished(s)
    ensures s.ep.stage.Logging? && |s.dram| == |s.boot|
  {
    OpenInv(s);
  }

  /** At the end of log persistence a line that was marked in the previous epoch has one entry, any other none. */
  lemma OnceCount(s: State, l: nat)
    requires Inv(s) && OnceInv(s) && SoloLine(s, l) && ScanFinished(s) && !SaveInFlight(s) && l < |s.dram|
    ensures Count(s.master, l) + CountUsers(s.ctxs, l) == if l in s.before then 1 else 0
  {
    hide Inv, OnceInv;
    LoggedIffDirty(s, l);
    CountsOfLine(s, l);
  }

  lemma OnceRight(s: State, l: nat)
    requires Inv(s) && SoloLine(s, l) && l < |s.boot|
    ensures forall x: Entry | x.line == l && (x in s.master || exists t :: 0 <= t < |s.ctxs| && x in s.ctxs[t].log) ::
              x.val == Snapshot(s.boot, s.hist, Epoch(s) - 1)[l]
  {
    hide Inv, SoloLine;
    forall x: Entry | x.line == l && (x in s.master || exists t :: 0 <= t < |s.ctxs| && x in s.ctxs[t].log)
      ensures x.val == Old(s, l)
    {
      EntriesRight(s, x);
    }
  }

  /**
   * Exactly-once logging: with atomic lines, at the end of log persistence a line marked in the previous epoch has
   * exactly one entry over all logs, any other line has none, and the entry carries the value of the line at the
   * end of the previous epoch.
   */
  lemma ExactlyOnceLogged(first: E.Begin, heap: seq<Value>, acts: seq<Action>, s: State, l: nat)
    requires AtomicRun(Initial(first, heap), acts, s) && ScanFinished(s) && !SaveInFlight(s) && l < |heap|
    ensures Count(s.master, l) + CountUsers(s.ctxs, l) == if l in s.before then 1 else 0
    ensures forall x: Entry | x.line == l && (x in s.master || exists t :: 0 <= t < |s.ctxs| && x in s.ctxs[t].log) ::
              x.val == Snapshot(heap, s.hist, Epoch(s) - 1)[l]
  {
    AtomicInv(first, heap, acts, s);
    assert SoloLine(s, l);
    hide *;
    FinishedScan(s);
    OnceCount(s, l);
    OnceRight(s, l);
  }

  ghost predicate SurvivingEntry(c: Crash, x: Entry) {
    x in c.master || exists t :: 0 <= t < |c.users| && x in c.users[t]
  }

  /**
   * With atomic lines recovery need not know which log a block belongs to: replaying the surviving entries in any
   * order at all, and any number of times, recovers the same epoch boundary.
   */
  lemma AnyOrderRecovery(first: E.Begin, heap: seq<Value>, acts: seq<Action>, s: State, c: Crash, order: seq<Entry>)
    requires AtomicRun(Initial(first, heap), acts, s) && CrashOutcome(s, c) && s.ep.stage.Updating?
    requires forall x :: x in order <==> SurvivingEntry(c, x)
    ensures Apply(c.heap, order) == Snapshot(heap, s.hist, Boundary(c.global))
  {
    AtomicInv(first, heap, acts, s);
    assert |c.heap| == |s.nvm| == |s.boot| && Boundary(c.global) == Epoch(s) - 1 by { assert Sizes(s); }
    hide Inv, OnceInv, SoloLine, CrashOutcome;
    forall l: nat | l < |s.nvm|
      ensures Apply(c.heap, order)[l] == Old(s, l)
    {
      AnyOrderLine(s, c, order, l);
    }
  }

  lemma AnyOrderLine(s: State, c: Crash, order: seq<Entry>, l: nat)
    requires Inv(s) && (forall l: nat :: SoloLine(s, l)) && CrashOutcome(s, c) && s.ep.stage.Updating? && l < |s.nvm|
    requires forall x :: x in order <==> SurvivingEntry(c, x)
    ensures Apply(c.heap, order)[l] == Old(s, l)
  {
    hide Inv, SoloLine;
    forall j | 0 <= j < |order| && order[j].line == l
      ensures order[j].val == Old(s, l)
    {
      SurvivorIsEntry(s, c, order[j]);
      EntriesRight(s, order[j]);
    }
    if !HasLine(order, l) { UntouchedSurvivor(s, c, order, l); }
    ApplyAgreed(c.heap, order, l, Old(s, l));
  }

  lemma SurvivorIsEntry(s: State, c: Crash, x: Entry)
    requires CrashOutcome(s, c) && SurvivingEntry(c, x)
    ensures x in s.master || exists t :: 0 <= t < |s.ctxs| && x in s.ctxs[t].log
  {
    if x in c.master {
      var j :| 0 <= j < |c.master| && c.master[j] == x;
      if s.cp.ClearMaster? { PartOf(c.master, s.master, j); }
    } else {
      var t :| 0 <= t < |c.users| && x in c.users[t];
      var j :| 0 <= j < |c.users[t]| && c.users[t][j] == x;
      if s.cp == ClearUser(t) { PartOf(c.users[t], s.ctxs[t].log, j); }
    }
  }

  /** A line without surviving entries is right in the surviving heap. */
  lemma UntouchedSurvivor(s: State, c: Crash, order: seq<Entry>, l: nat)
    requires Inv(s) && CrashOutcome(s, c) && s.ep.stage.Updating? && l < |s.nvm|
    requires forall x :: x in order <==> SurvivingEntry(c, x)
    requires !HasLine(order, l)
    ensures c.heap[l] == Old(s, l)
  {
    assert Sizes(s);
    forall log: seq<Entry> | log == c.master || exists t :: 0 <= t < |c.users| && log == c.users[t]
      ensures !HasLine(log, l)
    {
      forall j | 0 <= j < |log|
        ensures log[j].line != l
      {
        assert SurvivingEntry(c, log[j]);
      }
    }
    RedoneLine(s, c, l);
    assert s.ep.global.phase == NvmHeapUpdate;
    hide Inv;
    Untouched(c.heap, c.master, l);
    UntouchedAll(Apply(c.heap, c.master), c.users, l);
  }

  lemma Untouched(h: seq<Value>, log: seq<Entry>, l: nat)
    requires l < |h| && !HasLine(log, l)
    ensures Apply(h, log)[l] == h[l]
  {
    ApplyAt(h, log, l);
  }

  lemma {:induction false} UntouchedAll(h: seq<Value>, logs: seq<seq<Entry>>, l: nat)
    requires l < |h| && forall t | 0 <= t < |logs| :: !HasLine(logs[t], l)
    ensures ApplyAll(h, logs)[l] == h[l]
  {
    if logs != [] {
      UntouchedAll(h, logs[..|logs| - 1], l);
      Untouched(ApplyAll(h, logs[..|logs| - 1]), logs[|logs| - 1], l);
    }
  }
}

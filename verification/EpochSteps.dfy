/** The steps of the epoch protocol, seen from the heaps, keep the invariant. */
module EpochSteps {
  import opened Redo
  import opened Protocol
  import opened Invariant
  import U = UserSteps
  import E = Epochs

  /** An epoch step that neither ends an operation nor moves to another phase. */
  ghost predicate EpochFrame(s: State, s': State) {
    && s' == s.(ep := s'.ep)
    && s'.ep.global == s.ep.global && |s'.ep.threads| == |s.ep.threads|
    && s'.ep.stage.Resting? == s.ep.stage.Resting? && s'.ep.stage.Waiting? == s.ep.stage.Waiting?
    && s'.ep.stage.Logging? == s.ep.stage.Logging? && s'.ep.stage.Updating? == s.ep.stage.Updating?
    && forall t: nat | E.InOperation(s.ep, t) :: E.InOperation(s'.ep, t) && Num(s', t) == Num(s, t)
  }

  lemma EpochFrameUser(s: State, s': State, t: nat)
    requires EpochFrame(s, s') && UserInv(s, t)
    ensures UserInv(s', t)
  {
    hide E.Parity;
    if t < |s.ctxs| {
      forall l | l in s'.ctxs[t].marked
        ensures MarkedInv(s', t, l)
      {
        assert MarkedInv(s, t, l);
      }
    }
  }

  lemma EpochFrameLine(s: State, s': State, l: nat)
    requires EpochFrame(s, s') && LineInv(s, l)
    requires l in s.owner ==> UserInv(s, s.owner[l])
    requires forall p :: UserInv(s, Setter(s, p, l))
    ensures LineInv(s', l)
  {
    hide E.Parity;
    assert UserInv(s, Setter(s, This(s), l)) && UserInv(s, Setter(s, Prev(s), l));
  }

  lemma EpochFrameRest(s: State, s': State)
    requires EpochFrame(s, s') && Sizes(s)
    requires UserLogsInv(s) && MasterInv(s) && CheckpointInv(s) && HeapInv(s) && HistoryInv(s)
    ensures Sizes(s')
    ensures UserLogsInv(s') && MasterInv(s') && CheckpointInv(s') && HeapInv(s') && HistoryInv(s')
  {
    hide E.Parity;
    forall u, j | 0 <= u < |s'.ctxs| && 0 <= j < |s'.ctxs[u].log|
      ensures SavedInv(s', u, s'.ctxs[u].log[j])
    {
      assert SavedInv(s, u, s.ctxs[u].log[j]);
    }
    forall j | 0 <= j < |s'.master|
      ensures CopiedInv(s', s'.master[j])
    {
      assert CopiedInv(s, s.master[j]);
    }
    assert Prev(s') == Prev(s);
    forall u: nat
      ensures List(s', u, Prev(s)) == List(s, u, Prev(s))
    {
    }
    forall j | 0 <= j < |s'.hist|
      ensures EventInv(s', s'.hist[j])
    {
      assert EventInv(s, s.hist[j]);
    }
  }

  lemma EpochFrameKeeps(s: State, s': State)
    requires Inv(s) && EpochFrame(s, s') && E.Inv(s'.ep)
    ensures Inv(s')
  {
    hide *;
    OpenInv(s);
    forall t: nat
      ensures UserInv(s', t)
    {
      EpochFrameUser(s, s', t);
    }
    forall l: nat
      ensures LineInv(s', l)
    {
      EpochFrameLine(s, s', l);
    }
    EpochFrameRest(s, s');
    CloseInv(s');
  }

  lemma EndUser(s: State, t: nat, u: nat)
    requires EpochActionEnabled(s, E.End(t)) && UserInv(s, u) && Sizes(s)
    ensures UserInv(AfterEpochAction(s, E.End(t)), u)
  {
    hide E.Parity;
    var s' := AfterEpochAction(s, E.End(t));
    if u < |s.ctxs| {
      forall l | l in s'.ctxs[u].marked
        ensures MarkedInv(s', u, l)
      {
        assert MarkedInv(s, u, l);
      }
    }
  }

  lemma EndLine(s: State, t: nat, l: nat)
    requires EpochActionEnabled(s, E.End(t)) && LineInv(s, l) && Sizes(s)
    ensures LineInv(AfterEpochAction(s, E.End(t)), l)
  {
    hide E.Parity;
  }

  lemma EndLogs(s: State, t: nat)
    requires EpochActionEnabled(s, E.End(t)) && Sizes(s) && (forall l: nat :: LineInv(s, l))
    requires UserLogsInv(s) && MasterInv(s)
    ensures var s' := AfterEpochAction(s, E.End(t)); UserLogsInv(s') && MasterInv(s')
  {
    hide E.Parity;
    var s' := AfterEpochAction(s, E.End(t));
    forall u, j | 0 <= u < |s'.ctxs| && 0 <= j < |s'.ctxs[u].log|
      ensures SavedInv(s', u, s'.ctxs[u].log[j])
    {
      assert SavedInv(s, u, s.ctxs[u].log[j]);
    }
    forall j | 0 <= j < |s'.master|
      ensures CopiedInv(s', s'.master[j])
    {
      assert CopiedInv(s, s.master[j]);
    }
  }

  lemma EndRest(s: State, t: nat)
    requires EpochActionEnabled(s, E.End(t)) && Sizes(s)
    requires CheckpointInv(s) && HeapInv(s) && HistoryInv(s)
    ensures var s' := AfterEpochAction(s, E.End(t));
      Sizes(s') && CheckpointInv(s') && HeapInv(s') && HistoryInv(s')
  {
    hide E.Parity;
    var s' := AfterEpochAction(s, E.End(t));
    assert Prev(s') == Prev(s);
    forall u: nat
      ensures List(s', u, Prev(s)) == List(s, u, Prev(s))
    {
    }
    forall j | 0 <= j < |s'.hist|
      ensures EventInv(s', s'.hist[j])
    {
      assert EventInv(s, s.hist[j]);
    }
  }

  lemma EndKeeps(s: State, t: nat)
    requires Inv(s) && EpochActionEnabled(s, E.End(t))
    ensures Inv(AfterEpochAction(s, E.End(t)))
  {
    var s' := AfterEpochAction(s, E.End(t));
    assert E.Inv(s'.ep) by { E.InvStep(s.ep, E.End(t)); }
    hide *;
    OpenInv(s);
    forall u: nat
      ensures UserInv(s', u)
    {
      EndUser(s, t, u);
    }
    forall l: nat
      ensures LineInv(s', l)
    {
      EndLine(s, t, l);
    }
    EndLogs(s, t);
    EndRest(s, t);
    CloseInv(s');
  }

  /** A registered context is empty and takes no part in anything yet. */
  ghost predicate RegisterFrame(s: State, s': State) {
    && s' == s.(ep := s'.ep, ctxs := s.ctxs + [FRESH_CTX])
    && s'.ep.global == s.ep.global && s'.ep.stage == s.ep.stage && s.ep.stage.Resting?
    && s'.ep.threads == s.ep.threads + [E.Thread(E.OUTSIDE, E.Idle)]
    && |s.ctxs| == |s.ep.threads|
  }

  lemma RegisterUser(s: State, s': State, u: nat)
    requires RegisterFrame(s, s') && UserInv(s, u)
    ensures UserInv(s', u)
  {
    hide E.Parity;
    if u < |s.ctxs| {
      forall l | l in s'.ctxs[u].marked
        ensures MarkedInv(s', u, l)
      {
        assert MarkedInv(s, u, l);
      }
    }
  }

  lemma RegisterLine(s: State, s': State, l: nat)
    requires RegisterFrame(s, s') && LineInv(s, l) && CheckpointInv(s)
    ensures LineInv(s', l)
  {
    hide E.Parity;
  }

  lemma RegisterRest(s: State, s': State)
    requires RegisterFrame(s, s') && Sizes(s)
    requires UserLogsInv(s) && MasterInv(s) && CheckpointInv(s) && HeapInv(s) && HistoryInv(s)
    ensures Sizes(s')
    ensures UserLogsInv(s') && MasterInv(s') && CheckpointInv(s') && HeapInv(s') && HistoryInv(s')
  {
    hide E.Parity;
    assert Prev(s') == Prev(s);
    forall u: nat
      ensures List(s', u, Prev(s)) == List(s, u, Prev(s))
    {
    }
    assert forall u | 0 <= u < |s'.ctxs| :: s'.ctxs[u].log == [];
    forall j | 0 <= j < |s'.hist|
      ensures EventInv(s', s'.hist[j])
    {
      assert EventInv(s, s.hist[j]);
    }
  }

  lemma RegisterKeeps(s: State)
    requires Inv(s) && EpochActionEnabled(s, E.Register)
    ensures Inv(AfterEpochAction(s, E.Register))
  {
    var s' := AfterEpochAction(s, E.Register);
    assert E.Inv(s'.ep) by { E.InvStep(s.ep, E.Register); }
    assert RegisterFrame(s, s');
    hide *;
    OpenInv(s);
    forall u: nat
      ensures UserInv(s', u)
    {
      RegisterUser(s, s', u);
    }
    forall l: nat
      ensures LineInv(s', l)
    {
      RegisterLine(s, s', l);
    }
    RegisterRest(s, s');
    CloseInv(s');
  }

  /** The checkpointing thread moves to its next phase within the epoch, or back to rest. */
  ghost predicate PhaseFrame(s: State, s': State) {
    && s' == s.(ep := s.ep.(global := s'.ep.global, stage := s'.ep.stage, right := s'.ep.right), cp := s'.cp)
    && Epoch(s') == Epoch(s)
  }

  lemma PhaseUser(s: State, s': State, t: nat)
    requires PhaseFrame(s, s') && UserInv(s, t)
    ensures UserInv(s', t)
  {
    hide E.Parity;
    if t < |s.ctxs| {
      forall l | l in s'.ctxs[t].marked
        ensures MarkedInv(s', t, l)
      {
        assert MarkedInv(s, t, l);
      }
    }
  }

  lemma PhaseRest(s: State, s': State)
    requires PhaseFrame(s, s') && Sizes(s) && UserLogsInv(s) && MasterInv(s) && HistoryInv(s)
    requires s'.cp.Rest? ==> s.master == []
    requires !s'.cp.ClearUser? && !s'.cp.Done?
    ensures Sizes(s') && UserLogsInv(s') && MasterInv(s') && HistoryInv(s')
  {
    hide E.Parity;
    forall u, j | 0 <= u < |s'.ctxs| && 0 <= j < |s'.ctxs[u].log|
      ensures SavedInv(s', u, s'.ctxs[u].log[j])
    {
      assert SavedInv(s, u, s.ctxs[u].log[j]);
    }
    forall j | 0 <= j < |s'.master|
      ensures CopiedInv(s', s'.master[j])
    {
      assert CopiedInv(s, s.master[j]);
    }
    forall j | 0 <= j < |s'.hist|
      ensures EventInv(s', s'.hist[j])
    {
      assert EventInv(s, s.hist[j]);
    }
  }

  /** Left to show of a change of phase. */
  lemma PhaseKeeps(s: State, s': State)
    requires Inv(s) && PhaseFrame(s, s') && E.Inv(s'.ep)
    requires s'.cp.Rest? ==> s.master == []
    requires !s'.cp.ClearUser? && !s'.cp.Done?
    requires forall l: nat :: LineInv(s', l)
    requires CheckpointInv(s') && HeapInv(s')
    ensures Inv(s')
  {
    hide *;
    OpenInv(s);
    forall t: nat
      ensures UserInv(s', t)
    {
      PhaseUser(s, s', t);
    }
    PhaseRest(s, s');
    CloseInv(s');
  }

  /** When the wait is over, nobody is left in the middle of a mark of the previous epoch. */
  lemma StartLoggingLine(s: State, s': State, l: nat)
    requires PhaseFrame(s, s') && s.ep.stage.Waiting? && s'.ep.stage.Logging? && s'.cp == Scan(0, 0, 0) && s.cp == Rest
    requires LineInv(s, l)
    requires forall t: nat :: PendingCover(s, t, Prev(s), l) ==> false
    ensures LineInv(s', l)
  {
    hide E.Parity;
    var t := Setter(s, Prev(s), l);
    var list := List(s, t, Prev(s));
    assert Prev(s') == Prev(s);
    if l < |s.dram| && BitAt(s, Prev(s), l) {
      assert Listed(s, Prev(s), l) && !PendingCover(s, t, Prev(s), l);
      var j :| 0 <= j < |list| && list[j].Has(l);
      assert j == 0 || CoversFrom(list, 1, l);
      assert Ahead(s', l);
    }
  }

  lemma NoneLeftBehind(s: State, t: nat, l: nat)
    requires Inv(s) && s.ep.stage.Waiting? && |s.ep.threads| <= s.ep.stage.next
    ensures !PendingCover(s, t, Prev(s), l)
  {
    assert UserInv(s, t);
    if IsMarking(s, t) {
      U.OperationParity(s, t);
      assert E.ThreadInv(s.ep, t);
    }
  }

  lemma StartLoggingKeeps(s: State)
    requires Inv(s) && EpochActionEnabled(s, E.StartLogging)
    ensures Inv(AfterEpochAction(s, E.StartLogging))
  {
    var s' := AfterEpochAction(s, E.StartLogging);
    assert E.Inv(s'.ep) by { E.InvStep(s.ep, E.StartLogging); }
    assert PhaseFrame(s, s') && s'.cp == Scan(0, 0, 0) && s.cp == Rest && s'.ep.stage.Logging? && s.ep.stage.Waiting?;
    assert CheckpointInv(s') && HeapInv(s');
    assert !s'.cp.Rest? && !s'.cp.ClearUser? && !s'.cp.Done?;
    assert |s.ep.threads| <= s.ep.stage.next;
    hide *;
    OpenInv(s);
    forall l: nat
      ensures LineInv(s', l)
    {
      forall t: nat
        ensures !PendingCover(s, t, Prev(s), l)
      {
        NoneLeftBehind(s, t, l);
      }
      StartLoggingLine(s, s', l);
    }
    PhaseKeeps(s, s');
  }

  lemma StartUpdatingLine(s: State, s': State, l: nat)
    requires PhaseFrame(s, s') && s.ep.stage.Logging? && s'.ep.stage.Updating? && s'.cp == ReplayMaster(0)
    requires ScanFinished(s) && !SaveInFlight(s)
    requires LineInv(s, l)
    ensures LineInv(s', l)
  {
    hide E.Parity;
    assert Prev(s') == Prev(s);
    if l < |s.dram| {
      assert !BitAt(s, Prev(s), l) by { assert !Ahead(s, l); }
      if l in s.owner {
        var t := s.owner[l];
        assert !IsAt(s, t, ClearPrev) && !IsAt(s, t, PushOld);
      }
    }
  }

  lemma StartUpdatingKeeps(s: State)
    requires Inv(s) && EpochActionEnabled(s, E.StartUpdating) && !SaveInFlight(s)
    ensures Inv(AfterEpochAction(s, E.StartUpdating))
  {
    var s' := AfterEpochAction(s, E.StartUpdating);
    assert E.Inv(s'.ep) by { E.InvStep(s.ep, E.StartUpdating); }
    assert PhaseFrame(s, s') && s'.cp == ReplayMaster(0) && s'.ep.stage.Updating? && s.ep.stage.Logging?;
    assert ScanFinished(s);
    assert HeapInv(s');
    assert CheckpointInv(s') by {
      assert Prev(s') == Prev(s);
      forall u: nat
        ensures List(s', u, Prev(s)) == []
      {
        assert List(s', u, Prev(s)) == List(s, u, Prev(s));
      }
    }
    hide *;
    OpenInv(s);
    forall l: nat
      ensures LineInv(s', l)
    {
      StartUpdatingLine(s, s', l);
    }
    PhaseKeeps(s, s');
  }

  lemma ReleaseKeeps(s: State)
    requires Inv(s) && EpochActionEnabled(s, E.CheckpointerReleases)
    ensures Inv(AfterEpochAction(s, E.CheckpointerReleases))
  {
    var s' := AfterEpochAction(s, E.CheckpointerReleases);
    assert E.Inv(s'.ep) by { E.InvStep(s.ep, E.CheckpointerReleases); }
    assert PhaseFrame(s, s') && s'.cp == Rest && s'.ep.stage.Resting? && s.ep.stage.Updating? && s.cp == Done;
    assert HeapInv(s') && s.master == [];
    assert CheckpointInv(s') by {
      assert Prev(s') == Prev(s);
      forall u: nat
        ensures List(s', u, Prev(s)) == []
      {
        assert List(s', u, Prev(s)) == List(s, u, Prev(s));
      }
    }
    hide *;
    OpenInv(s);
    forall l: nat
      ensures LineInv(s', l)
    {
      ReleaseLine(s, s', l);
    }
    PhaseKeeps(s, s');
  }

  lemma ReleaseLine(s: State, s': State, l: nat)
    requires PhaseFrame(s, s') && s.ep.stage.Updating? && s'.ep.stage.Resting? && s'.cp == Rest
    requires LineInv(s, l)
    ensures LineInv(s', l)
  {
    hide E.Parity;
    assert Prev(s') == Prev(s);
  }

  /** Snapshots at or after the newest epoch stored in are all the same. */
  lemma {:induction false} SnapshotTop(boot: seq<Value>, hist: seq<Event>, k: int, k': int)
    requires forall j | 0 <= j < |hist| :: hist[j].epoch <= k && hist[j].epoch <= k'
    ensures Snapshot(boot, hist, k) == Snapshot(boot, hist, k')
  {
    if hist != [] {
      SnapshotTop(boot, hist[..|hist| - 1], k, k');
    }
  }

  /** The next epoch begins: what was current is now previous. */
  ghost predicate NewEpochFrame(s: State, s': State) {
    && s.ep.stage.Resting? && (s'.ep.stage.Waiting? || s'.ep.stage.Logging?)
    && s'.ep.threads == s.ep.threads && Epoch(s') == Epoch(s) + 1
    && s' == s.(ep := s'.ep, now := {}, before := s.now, cp := s'.cp)
    && (s'.cp == if s'.ep.stage.Logging? then Scan(0, 0, 0) else Rest)
  }

  lemma NewParity(s: State, s': State)
    requires Epoch(s') == Epoch(s) + 1
    ensures This(s') == Prev(s) == !This(s) && Prev(s') == This(s)
  {
  }

  lemma NewEpochUser(s: State, s': State, t: nat)
    requires NewEpochFrame(s, s') && E.Inv(s.ep) && Sizes(s) && UserInv(s, t)
    requires forall l: nat :: LineInv(s, l)
    ensures UserInv(s', t)
  {
    NewParity(s, s');
    if E.InOperation(s.ep, t) { U.OperationParity(s, t); }
    hide E.Parity, E.Inv;
    if t < |s.ctxs| {
      forall l | l in s'.ctxs[t].marked
        ensures MarkedInv(s', t, l)
      {
        assert MarkedInv(s, t, l);
        assert LineInv(s, l);
        hide ValueInv, CoverInv;
      }
    }
  }

  lemma NewEpochMarks(s: State, s': State, l: nat)
    requires NewEpochFrame(s, s') && E.Inv(s.ep) && OwnerInv(s, l) && BitsInv(s, l)
    requires l in s.owner ==> UserInv(s, s.owner[l])
    ensures OwnerInv(s', l) && BitsInv(s', l)
    ensures l in s.now && !BitAt(s, This(s), l) ==> Early(s', l)
  {
    NewParity(s, s');
    if l in s.owner { U.OperationParity(s, s.owner[l]); }
    hide E.Parity, E.Inv;
  }

  lemma NewEpochValue(s: State, s': State, l: nat)
    requires NewEpochFrame(s, s') && BitsInv(s, l) && ValueInv(s, l) && HeapInv(s) && s.dram == Snap(s, Epoch(s))
    requires l in s.now && !BitAt(s, This(s), l) ==> Early(s', l)
    ensures ValueInv(s', l)
  {
    NewParity(s, s');
    hide E.Parity, Early;
  }

  lemma NewEpochCover(s: State, s': State, l: nat)
    requires NewEpochFrame(s, s') && BitsInv(s, l) && CoverInv(s, l)
    requires s'.ep.stage.Logging? ==> forall t: nat :: !PendingCover(s, t, This(s), l)
    ensures CoverInv(s', l)
  {
    NewParity(s, s');
    hide E.Parity;
    var t := Setter(s, This(s), l);
    var list := List(s, t, This(s));
    if s'.ep.stage.Logging? && BitAt(s, This(s), l) {
      assert Listed(s, This(s), l) && !PendingCover(s, t, This(s), l);
      var j :| 0 <= j < |list| && list[j].Has(l);
      assert j == 0 || CoversFrom(list, 1, l);
      assert Ahead(s', l);
    }
  }

  lemma NewEpochRest(s: State, s': State)
    requires NewEpochFrame(s, s') && Sizes(s)
    requires UserLogsInv(s) && MasterInv(s) && CheckpointInv(s) && HeapInv(s) && HistoryInv(s)
    ensures Sizes(s') && UserLogsInv(s') && MasterInv(s') && CheckpointInv(s') && HeapInv(s')
  {
    hide E.Parity;
  }

  lemma NewEpochHistory(s: State, s': State)
    requires NewEpochFrame(s, s') && HistoryInv(s)
    ensures HistoryInv(s')
  {
    hide E.Parity;
    forall j | 0 <= j < |s'.hist|
      ensures EventInv(s', s'.hist[j])
    {
      assert EventInv(s, s.hist[j]);
    }
    SnapshotTop(s.boot, s.hist, Epoch(s), Epoch(s) + 1);
  }

  lemma NewEpochKeeps(s: State, s': State)
    requires Inv(s) && NewEpochFrame(s, s') && E.Inv(s'.ep)
    requires s'.ep.stage.Logging? ==> forall t | 0 <= t < |s.ctxs| :: s.ctxs[t].mark == NoMark
    ensures Inv(s')
  {
    assert s.dram == Snap(s, Epoch(s)) && |s'.dram| == |s.dram|;
    assert s'.ep.stage.Logging? ==> forall t: nat, p, l :: !PendingCover(s, t, p, l);
    forall l: nat
      ensures LineInv(s', l)
    {
      assert LineInv(s, l);
      hide Inv, OwnerInv, BitsInv, ValueInv, CoverInv, NewEpochFrame, HeapInv, Early;
      if l < |s.dram| {
        OpenInv(s);
        hide UserInv;
        NewEpochMarks(s, s', l);
        NewEpochValue(s, s', l);
        NewEpochCover(s, s', l);
      }
    }
    hide *;
    OpenInv(s);
    forall t: nat
      ensures UserInv(s', t)
    {
      NewEpochUser(s, s', t);
    }
    NewEpochRest(s, s');
    NewEpochHistory(s, s');
    CloseInv(s');
  }

  lemma NewEpochStep(s: State, a: E.Action)
    requires Inv(s) && EpochActionEnabled(s, a) && (a == E.Advance || a == E.Finalize)
    ensures Inv(AfterEpochAction(s, a))
  {
    var s' := AfterEpochAction(s, a);
    E.InvStep(s.ep, a);
    assert NewEpochFrame(s, s');
    if a == E.Finalize {
      forall t | 0 <= t < |s.ctxs|
        ensures s.ctxs[t].mark == NoMark
      {
        assert UserInv(s, t);
      }
    }
    hide Inv, NewEpochFrame;
    NewEpochKeeps(s, s');
  }

  lemma EpochStepKeeps(s: State, a: E.Action)
    requires Inv(s) && EpochActionEnabled(s, a) && (a == E.StartUpdating ==> !SaveInFlight(s))
    ensures Inv(AfterEpochAction(s, a))
  {
    match a
    case End(t) => EndKeeps(s, t);
    case Register => RegisterKeeps(s);
    case Advance => NewEpochStep(s, a);
    case Finalize => NewEpochStep(s, a);
    case StartLogging => StartLoggingKeeps(s);
    case StartUpdating => StartUpdatingKeeps(s);
    case CheckpointerReleases => ReleaseKeeps(s);
    case _ => FrameStep(s, a);
  }

  lemma FrameStep(s: State, a: E.Action)
    requires Inv(s) && EpochActionEnabled(s, a)
    requires !a.End? && a !in {E.Register, E.Advance, E.Finalize, E.StartLogging, E.StartUpdating, E.CheckpointerReleases}
    ensures Inv(AfterEpochAction(s, a))
  {
    var s' := AfterEpochAction(s, a);
    E.InvStep(s.ep, a);
    assert EpochFrame(s, s');
    hide Inv, EpochFrame;
    EpochFrameKeeps(s, s');
  }
}

/** The steps of the checkpointing thread in NVM_Heap_Update keep the invariant. */
module UpdateSteps {
  import opened Redo
  import opened Protocol
  import opened Invariant
  import U = UserSteps
  import E = Epochs

  /** What the steps of the heap update leave alone: everything but logs, NVM heap and control state. */
  ghost predicate UpdateFrame(s: State, s': State) {
    && s'.ep == s.ep && s.ep.stage.Updating?
    && s'.bits == s.bits && s'.dram == s.dram && s'.boot == s.boot && s'.hist == s.hist
    && s'.now == s.now && s'.before == s.before && s'.owner == s.owner && s'.setter == s.setter
    && !ScanPc(s) && !ScanPc(s') && s'.cp != Rest
    && |s'.nvm| == |s.nvm|
    && |s'.ctxs| == |s.ctxs|
    && (forall u | 0 <= u < |s.ctxs| ::
          && s'.ctxs[u].lists == s.ctxs[u].lists && s'.ctxs[u].mark == s.ctxs[u].mark
          && s'.ctxs[u].marked == s.ctxs[u].marked && s'.ctxs[u].ops == s.ctxs[u].ops)
  }

  lemma UpdateFrameLine(s: State, s': State, l: nat)
    requires UpdateFrame(s, s') && LineInv(s, l)
    requires s'.cp.ReplayMaster? && l < |s.dram| ==> Captured(s', l)
    ensures LineInv(s', l)
  {
    hide E.Parity, Captured;
  }

  lemma UpdateFrameUser(s: State, s': State, u: nat)
    requires UpdateFrame(s, s') && UserInv(s, u)
    ensures UserInv(s', u)
  {
    hide E.Parity;
    if u < |s.ctxs| {
      forall l | l in s'.ctxs[u].marked
        ensures MarkedInv(s', u, l)
      {
        assert MarkedInv(s, u, l);
      }
    }
  }

  lemma UpdateFrameRest(s: State, s': State)
    requires UpdateFrame(s, s') && Sizes(s) && CheckpointInv(s) && HistoryInv(s)
    ensures Sizes(s') && CheckpointInv(s') && HistoryInv(s')
  {
    hide E.Parity;
    forall u: nat
      ensures List(s', u, Prev(s)) == List(s, u, Prev(s))
    {
    }
    assert Prev(s') == Prev(s);
    forall j | 0 <= j < |s'.hist|
      ensures EventInv(s', s'.hist[j])
    {
      assert EventInv(s, s.hist[j]);
    }
  }

  /** Left to show of one step of the heap update. */
  lemma UpdateKeeps(s: State, s': State)
    requires Inv(s) && UpdateFrame(s, s')
    requires s'.cp.ReplayMaster? ==> forall l: nat | l < |s.dram| :: Captured(s', l)
    requires UserLogsInv(s') && MasterInv(s') && HeapInv(s')
    ensures Inv(s')
  {
    assert s'.ep == s.ep;
    hide *;
    OpenInv(s);
    forall l: nat
      ensures LineInv(s', l)
    {
      UpdateFrameLine(s, s', l);
    }
    forall u: nat
      ensures UserInv(s', u)
    {
      UpdateFrameUser(s, s', u);
    }
    UpdateFrameRest(s, s');
    CloseInv(s');
  }

  lemma SameUserLogs(s: State, s': State)
    requires UpdateFrame(s, s') && s'.ctxs == s.ctxs && s'.saver == s.saver
    requires UserLogsInv(s)
    ensures UserLogsInv(s')
  {
    hide E.Parity;
    forall u, j | 0 <= u < |s'.ctxs| && 0 <= j < |s'.ctxs[u].log|
      ensures SavedInv(s', u, s'.ctxs[u].log[j])
    {
      assert SavedInv(s, u, s.ctxs[u].log[j]);
    }
  }

  lemma SameMasterLog(s: State, s': State)
    requires UpdateFrame(s, s') && s'.ctxs == s.ctxs && s'.master == s.master && s'.saver == s.saver
    requires MasterInv(s)
    requires s'.cp.ClearUser? || s'.cp.Done? ==> s.master == []
    ensures MasterInv(s')
  {
    hide E.Parity;
    forall j | 0 <= j < |s'.master|
      ensures CopiedInv(s', s'.master[j])
    {
      assert CopiedInv(s, s.master[j]);
    }
  }

  /** With the updating phase under way, no copy on write is in flight and no bit of the previous epoch is set. */
  lemma Settled(s: State, l: nat)
    requires Inv(s) && s.ep.stage.Updating? && l < |s.dram|
    ensures !BitAt(s, Prev(s), l) && !Saving(s, l)
    ensures l in s.owner ==> Num(s, s.owner[l]) == Epoch(s)
  {
    assert LineInv(s, l);
    if l in s.owner {
      assert UserInv(s, s.owner[l]);
      U.OperationParity(s, s.owner[l]);
    }
  }

  lemma ReplayMasterStore(s: State, s': State)
    requires Inv(s) && s.cp.ReplayMaster? && s.cp.n < |s.master| && Enabled(s, UpdateStep) && s' == AfterUpdateStep(s)
    ensures Inv(s')
  {
    assert UpdateFrame(s, s');
    assert HeapInv(s') && s'.ctxs == s.ctxs && s'.master == s.master && s'.saver == s.saver && s'.cp.ReplayMaster?;
    forall l: nat | l < |s.dram|
      ensures Captured(s', l)
    {
      assert LineInv(s, l);
      assert ValueInv(s, l);
    }
    hide *;
    OpenInv(s);
    SameUserLogs(s, s');
    SameMasterLog(s, s');
    UpdateKeeps(s, s');
  }

  /** After the first fence every line that is not in a user's log holds its value of the previous epoch. */
  lemma MasterReplayed(s: State, l: nat)
    requires Inv(s) && s.cp == ReplayMaster(|s.master|) && l < |s.nvm| && l !in s.saver
    ensures Val(Apply(s.nvm, s.pending), l) == Old(s, l)
  {
    assert Captured(s, l) by { assert LineInv(s, l); }
    assert s.pending == s.master;
    Settled(s, l);
    forall j | 0 <= j < |s.master| && s.master[j].line == l
      ensures s.master[j].val == Old(s, l)
    {
      assert CopiedInv(s, s.master[j]);
    }
    assert HasLine(s.master, l) || s.nvm[l] == Old(s, l);
    ApplyAgreed(s.nvm, s.master, l, Old(s, l));
  }

  lemma ReplayMasterFence(s: State, s': State)
    requires Inv(s) && s.cp.ReplayMaster? && s.cp.n >= |s.master| && Enabled(s, UpdateStep) && s' == AfterUpdateStep(s)
    ensures Inv(s')
  {
    assert UpdateFrame(s, s');
    assert s'.ctxs == s.ctxs && s'.master == s.master && s'.saver == s.saver && s'.cp == ReplayUser(0, 0);
    forall l: nat | l < |s'.nvm| && l !in s.saver
      ensures Val(s'.nvm, l) == Old(s', l)
    {
      MasterReplayed(s, l);
    }
    assert HeapInv(s');
    hide *;
    OpenInv(s);
    SameUserLogs(s, s');
    SameMasterLog(s, s');
    UpdateKeeps(s, s');
  }

  lemma ReplayUserStore(s: State, s': State)
    requires Inv(s) && s.cp.ReplayUser? && s.cp.c < |s.ctxs| && Enabled(s, UpdateStep) && s' == AfterUpdateStep(s)
    ensures Inv(s')
  {
    assert UpdateFrame(s, s');
    assert s'.ctxs == s.ctxs && s'.master == s.master && s'.saver == s.saver && s'.cp.ReplayUser?;
    assert HeapInv(s') by { ReplayUserHeap(s, s'); }
    hide *;
    OpenInv(s);
    SameUserLogs(s, s');
    SameMasterLog(s, s');
    UpdateKeeps(s, s');
  }

  lemma ReplayUserHeap(s: State, s': State)
    requires s.cp.ReplayUser? && s.cp.c < |s.ctxs| && Enabled(s, UpdateStep) && s' == AfterUpdateStep(s)
    requires UserLogsInv(s) && HeapInv(s) && s.ep.stage.Updating?
    ensures HeapInv(s')
  {
    hide UserLogsInv, HeapInv;
    if s.cp.n < |s.ctxs[s.cp.c].log| { ReplayEntry(s, s'); } else { ReplayedLog(s, s'); }
  }

  lemma ReplayEntry(s: State, s': State)
    requires s.cp.ReplayUser? && s.cp.c < |s.ctxs| && s.cp.n < |s.ctxs[s.cp.c].log| && s' == AfterUpdateStep(s)
    requires UserLogsInv(s) && HeapInv(s) && s.ep.stage.Updating?
    ensures HeapInv(s')
  {
    hide E.Parity;
    var x := s.ctxs[s.cp.c].log[s.cp.n];
    assert SavedInv(s, s.cp.c, x);
    forall l | HasLine(s.pending, l) || l == x.line
      ensures HasLine(s'.pending, l)
    {
      U.HasLineAppend(s.pending, x, l);
    }
  }

  lemma ReplayedLog(s: State, s': State)
    requires s.cp.ReplayUser? && s.cp.c < |s.ctxs| && s.cp.n >= |s.ctxs[s.cp.c].log| && s' == AfterUpdateStep(s)
    requires UserLogsInv(s) && HeapInv(s) && s.ep.stage.Updating?
    ensures HeapInv(s')
  {
    hide E.Parity;
    var log := s.ctxs[s.cp.c].log;
    forall l | l in s.saver && s.saver[l] == s.cp.c
      ensures HasLine(s.pending, l)
    {
      var j :| 0 <= j < |log| && log[j].line == l;
      assert HasLine(s.pending, log[j].line);
    }
  }

  lemma ReplayUserFence(s: State, s': State)
    requires Inv(s) && s.cp.ReplayUser? && s.cp.c >= |s.ctxs| && Enabled(s, UpdateStep) && s' == AfterUpdateStep(s)
    ensures Inv(s')
  {
    assert UpdateFrame(s, s');
    assert s'.ctxs == s.ctxs && s'.master == s.master && s'.saver == s.saver && s'.cp == ClearMaster;
    assert s'.nvm == Snap(s, Epoch(s) - 1) by {
      forall l: nat | l < |s.nvm|
        ensures s'.nvm[l] == Old(s, l)
      {
        ApplyAgreed(s.nvm, s.pending, l, Old(s, l));
      }
    }
    assert HeapInv(s');
    hide *;
    OpenInv(s);
    SameUserLogs(s, s');
    SameMasterLog(s, s');
    UpdateKeeps(s, s');
  }

  lemma ClearMasterStep(s: State, s': State)
    requires Inv(s) && s.cp.ClearMaster? && Enabled(s, UpdateStep) && s' == AfterUpdateStep(s)
    ensures Inv(s')
  {
    assert UpdateFrame(s, s');
    assert HeapInv(s') && MasterInv(s');
    assert !s'.cp.ReplayMaster?;
    assert UserLogsInv(s') by { SameUserLogs(s, s'); }
    hide *;
    UpdateKeeps(s, s');
  }

  lemma ClearedUserLogs(s: State, s': State, c: nat)
    requires UpdateFrame(s, s') && UserLogsInv(s)
    requires forall u | 0 <= u < |s.ctxs| :: s'.ctxs[u].log == if u == c then [] else s.ctxs[u].log
    requires s'.saver == WithoutSaver(s.saver, c)
    ensures UserLogsInv(s')
  {
    assert |s'.ctxs| == |s.ctxs|;
    hide *;
    forall u, j | 0 <= u < |s'.ctxs| && 0 <= j < |s'.ctxs[u].log|
      ensures SavedInv(s', u, s'.ctxs[u].log[j])
    {
      ClearedEntry(s, s', c, u, j);
    }
    ClearedSavers(s, s', c);
    CloseUserLogs(s');
  }

  lemma ClearedEntry(s: State, s': State, c: nat, u: nat, j: nat)
    requires UpdateFrame(s, s') && UserLogsInv(s) && u < |s.ctxs| && u != c
    requires s'.ctxs[u].log == s.ctxs[u].log && s'.saver == WithoutSaver(s.saver, c) && j < |s.ctxs[u].log|
    ensures SavedInv(s', u, s'.ctxs[u].log[j])
  {
    hide E.Parity;
    assert SavedInv(s, u, s.ctxs[u].log[j]);
  }

  lemma CloseUserLogs(s: State)
    requires forall t, j | 0 <= t < |s.ctxs| && 0 <= j < |s.ctxs[t].log| :: SavedInv(s, t, s.ctxs[t].log[j])
    requires forall l | l in s.saver :: s.saver[l] < |s.ctxs| && HasLine(s.ctxs[s.saver[l]].log, l)
    ensures UserLogsInv(s)
  {
  }

  lemma ClearedSavers(s: State, s': State, c: nat)
    requires |s'.ctxs| == |s.ctxs| && UserLogsInv(s)
    requires forall u | 0 <= u < |s.ctxs| :: s'.ctxs[u].log == if u == c then [] else s.ctxs[u].log
    requires s'.saver == WithoutSaver(s.saver, c)
    ensures forall l | l in s'.saver :: s'.saver[l] < |s'.ctxs| && HasLine(s'.ctxs[s'.saver[l]].log, l)
  {
    hide SavedInv;
    forall l | l in s'.saver
      ensures s'.saver[l] < |s'.ctxs| && HasLine(s'.ctxs[s'.saver[l]].log, l)
    {
      assert HasLine(s.ctxs[s.saver[l]].log, l);
    }
  }

  lemma ClearUserStep(s: State, s': State)
    requires Inv(s) && s.cp.ClearUser? && Enabled(s, UpdateStep) && s' == AfterUpdateStep(s)
    ensures Inv(s')
  {
    hide Inv;
    if s.cp.c < |s.ctxs| { ClearOneUser(s, s'); } else { ClearUsersDone(s, s'); }
  }

  lemma ClearOneUser(s: State, s': State)
    requires Inv(s) && s.cp.ClearUser? && s.cp.c < |s.ctxs| && s' == AfterUpdateStep(s)
    ensures Inv(s')
  {
    var c := s.cp.c;
    OpenInv(s);
    hide Inv;
    assert UpdateFrame(s, s') && s'.cp == ClearUser(c + 1);
    assert s'.saver == WithoutSaver(s.saver, c);
    assert forall u | 0 <= u < |s.ctxs| :: s'.ctxs[u].log == if u == c then [] else s.ctxs[u].log;
    assert HeapInv(s') && MasterInv(s');
    hide *;
    ClearedUserLogs(s, s', c);
    UpdateKeeps(s, s');
  }

  lemma ClearUsersDone(s: State, s': State)
    requires Inv(s) && s.cp.ClearUser? && s.cp.c >= |s.ctxs| && s' == AfterUpdateStep(s)
    ensures Inv(s')
  {
    OpenInv(s);
    hide Inv;
    assert UpdateFrame(s, s') && s'.cp == Done && s'.ctxs == s.ctxs && s'.saver == s.saver;
    assert HeapInv(s') && MasterInv(s');
    hide *;
    SameUserLogs(s, s');
    UpdateKeeps(s, s');
  }

  lemma UpdateStepKeeps(s: State)
    requires Inv(s) && Enabled(s, UpdateStep)
    ensures Inv(AfterUpdateStep(s))
  {
    hide Inv, AfterUpdateStep;
    var s' := AfterUpdateStep(s);
    match s.cp
    case ReplayMaster(n) =>
      if n < |s.master| { ReplayMasterStore(s, s'); } else { ReplayMasterFence(s, s'); }
    case ReplayUser(c, n) =>
      if c < |s.ctxs| { ReplayUserStore(s, s'); } else { ReplayUserFence(s, s'); }
    case ClearMaster => ClearMasterStep(s, s');
    case ClearUser(c) => ClearUserStep(s, s');
  }
}

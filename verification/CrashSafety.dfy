/** Crash consistency of the checkpoint protocol over all runs. */
module CrashSafety {
  import opened EpochPhase
  import opened Redo
  import opened Protocol
  import opened Invariant
  import U = UserSteps
  import H = HeapSteps
  import D = UpdateSteps
  import N = EpochSteps
  import E = Epochs

  lemma InitialInv(first: E.Begin, heap: seq<Value>)
    ensures Inv(Initial(first, heap))
  {
  }

  lemma StepKeepsInv(s: State, a: Action)
    requires Inv(s) && Guarded(s, a)
    ensures Inv(Next(s, a))
  {
    hide Inv;
    match a
    case Ep(ea) => N.EpochStepKeeps(s, ea);
    case MarkCall(t, r) => U.MarkCallKeeps(s, t, r);
    case MarkTest(t) => U.MarkTestKeeps(s, t);
    case MarkTestPrev(t) => U.MarkTestPrevKeeps(s, t);
    case MarkClearPrev(t) => U.MarkClearPrevKeeps(s, t);
    case MarkPush(t) => U.MarkPushKeeps(s, t);
    case MarkSet(t) => U.MarkSetKeeps(s, t);
    case MarkReturn(t) => U.MarkReturnKeeps(s, t);
    case Write(t, l, v) => H.WriteKeeps(s, t, l, v);
    case ScanStep => H.ScanStepKeeps(s);
    case CopyLine(v) => H.CopyLineKeeps(s, v);
    case ClearLine => H.ClearLineKeeps(s);
    case UpdateStep => D.UpdateStepKeeps(s);
  }

  /** Along a run the invariant holds, the history of stores only grows, and the starting heap is remembered. */
  lemma {:induction false} RunKeepsInv(s: State, acts: seq<Action>, s': State)
    requires Inv(s) && Run(s, acts, s')
    ensures Inv(s') && s'.boot == s.boot && s.hist <= s'.hist
    decreases |acts|
  {
    hide Inv;
    if acts != [] {
      StepKeepsInv(s, acts[0]);
      StepHistory(s, acts[0]);
      RunKeepsInv(Next(s, acts[0]), acts[1..], s');
    }
  }

  /** Every reachable state satisfies the invariant, and remembers the heap from the start. */
  lemma ReachableInv(first: E.Begin, heap: seq<Value>, acts: seq<Action>, s: State)
    requires Run(Initial(first, heap), acts, s)
    ensures Inv(s) && s.boot == heap
  {
    InitialInv(first, heap);
    assert Initial(first, heap).boot == heap;
    hide Inv;
    RunKeepsInv(Initial(first, heap), acts, s);
  }

  lemma StepHistory(s: State, a: Action)
    requires Enabled(s, a)
    ensures Next(s, a).boot == s.boot && s.hist <= Next(s, a).hist
    ensures !a.Write? ==> Next(s, a).hist == s.hist
  {
    hide E.Next, E.Enabled, E.Parity, MayTouch, SetBit, Apply;
  }

  /** What a crash leaves: the global word, the NVM heap, and the logs. */
  datatype Crash = Crash(global: E.Word, heap: seq<Value>, master: seq<Entry>, users: seq<seq<Entry>>)

  /** `kept` is `log` with some entries dropped. Dropping whole blocks, in any order, is a case of it. */
  ghost predicate Part(kept: seq<Entry>, log: seq<Entry>) {
    || kept == []
    || (log != [] && (
          || Part(kept, log[..|log| - 1])
          || (kept[|kept| - 1] == log[|log| - 1] && Part(kept[..|kept| - 1], log[..|log| - 1]))))
  }

  /**
   * The outcomes of a crash in state `s`. A line with a store since the last fence may hold anything: a crash can
   * tear a store of 64 bytes. Other lines hold what was fenced. Logs survive, except that the log being cleared may
   * have lost any part of its entries.
   */
  ghost predicate CrashOutcome(s: State, c: Crash) {
    && c.global == s.ep.global
    && |c.heap| == |s.nvm|
    && (forall l: nat | l < |s.nvm| :: c.heap[l] == s.nvm[l] || HasLine(s.pending, l))
    && (if s.cp.ClearMaster? then Part(c.master, s.master) else c.master == s.master)
    && |c.users| == |s.ctxs|
    && (forall t | 0 <= t < |s.ctxs| ::
          if s.cp == ClearUser(t) then Part(c.users[t], s.ctxs[t].log) else c.users[t] == s.ctxs[t].log)
  }

  /** Logs count only if the crash came in NVM_Heap_Update: then the master log is replayed and the users' after it. */
  function Recover(c: Crash): seq<Value> {
    if c.global.phase == NvmHeapUpdate then ApplyAll(Apply(c.heap, c.master), c.users) else c.heap
  }

  /** The last epoch that survives a crash. */
  function Boundary(global: E.Word): int {
    if global.phase == NvmHeapUpdate then global.num - 1 else global.num - 2
  }

  lemma {:induction false} PartOf(kept: seq<Entry>, log: seq<Entry>, j: nat)
    requires Part(kept, log) && j < |kept|
    ensures exists i :: 0 <= i < |log| && log[i] == kept[j]
    decreases |log|
  {
    var n := |log| - 1;
    if Part(kept, log[..n]) {
      PartOf(kept, log[..n], j);
    } else if j < |kept| - 1 {
      PartOf(kept[..|kept| - 1], log[..n], j);
    } else {
      assert log[n] == kept[j];
    }
  }

  /** Every surviving entry of a user's log carries the value of its line at the end of the previous epoch. */
  lemma SurvivingUserEntry(s: State, c: Crash, t: nat, j: nat)
    requires Inv(s) && CrashOutcome(s, c) && t < |c.users| && j < |c.users[t]|
    ensures c.users[t][j].val == Old(s, c.users[t][j].line)
  {
    hide Inv;
    OpenInv(s);
    var i: nat := if s.cp == ClearUser(t) then
      PartOf(c.users[t], s.ctxs[t].log, j);
      var i :| 0 <= i < |s.ctxs[t].log| && s.ctxs[t].log[i] == c.users[t][j]; i
    else j;
    assert SavedInv(s, t, s.ctxs[t].log[i]);
  }

  /** A surviving entry of the master log for a line that no user has saved is right, too. */
  lemma SurvivingMasterEntry(s: State, c: Crash, j: nat)
    requires Inv(s) && CrashOutcome(s, c) && s.ep.stage.Updating? && j < |c.master|
    requires c.master[j].line < |s.dram| && c.master[j].line !in s.saver
    ensures c.master[j].val == Old(s, c.master[j].line)
  {
    D.Settled(s, c.master[j].line);
    hide Inv;
    OpenInv(s);
    var i: nat := if s.cp.ClearMaster? then
      PartOf(c.master, s.master, j);
      var i :| 0 <= i < |s.master| && s.master[i] == c.master[j]; i
    else j;
    assert CopiedInv(s, s.master[i]);
  }

  /** A line that is in no surviving log has its right value in the surviving heap. */
  lemma SurvivingLine(s: State, c: Crash, l: nat)
    requires Inv(s) && CrashOutcome(s, c) && s.ep.stage.Updating? && l < |s.nvm| && l !in s.saver
    ensures (s.cp.ReplayMaster? && HasLine(c.master, l)) || c.heap[l] == Old(s, l)
  {
    D.Settled(s, l);
    assert LineInv(s, l) && ValueInv(s, l);
    hide Inv;
    OpenInv(s);
    if HasLine(s.pending, l) {
      var j :| 0 <= j < |s.pending| && s.pending[j].line == l;
      if s.cp.ReplayMaster? {
        assert s.pending[j] == s.master[j];
        assert HasLine(s.master, l);
      }
    }
  }

  lemma RedoneLine(s: State, c: Crash, l: nat)
    requires Inv(s) && CrashOutcome(s, c) && s.ep.stage.Updating? && l < |s.nvm|
    ensures Recover(c)[l] == Old(s, l)
  {
    var v := Old(s, l);
    var h := Apply(c.heap, c.master);
    forall t, j | 0 <= t < |c.users| && 0 <= j < |c.users[t]| && c.users[t][j].line == l
      ensures c.users[t][j].val == v
    {
      SurvivingUserEntry(s, c, t, j);
    }
    assert s.ep.global.phase == NvmHeapUpdate && Sizes(s);
    if l !in s.saver {
      forall j | 0 <= j < |c.master| && c.master[j].line == l
        ensures c.master[j].val == v
      {
        SurvivingMasterEntry(s, c, j);
      }
      SurvivingLine(s, c, l);
      ApplyAgreed(c.heap, c.master, l, v);
    } else {
      SavedLine(s, c, l);
    }
    ApplyAllAgreed(h, c.users, l, v);
  }

  /** A line that a user has saved is in a surviving user log, or the heap update is past needing it. */
  lemma SavedLine(s: State, c: Crash, l: nat)
    requires Inv(s) && CrashOutcome(s, c) && s.ep.stage.Updating? && l < |s.nvm| && l in s.saver
    ensures Apply(c.heap, c.master)[l] == Old(s, l) || exists t :: 0 <= t < |c.users| && HasLine(c.users[t], l)
  {
    hide Inv;
    OpenInv(s);
    var t := s.saver[l];
    assert HasLine(s.ctxs[t].log, l);
    if s.cp == ClearUser(t) {
      assert c.master == [];
      assert c.heap[l] == s.nvm[l];
    } else {
      assert HasLine(c.users[t], l);
    }
  }

  lemma RecoverFromInv(s: State, c: Crash)
    requires Inv(s) && CrashOutcome(s, c)
    ensures Recover(c) == Snap(s, Boundary(c.global))
  {
    assert Sizes(s);
    if s.ep.stage.Updating? {
      forall l: nat | l < |s.nvm|
        ensures Recover(c)[l] == Snap(s, Boundary(c.global))[l]
      {
        RedoneLine(s, c, l);
      }
    } else {
      assert s.pending == [] && c.heap == s.nvm;
      if s.ep.stage.Resting? {
        assert forall t | 0 <= t < |c.users| :: c.users[t] == [];
        NothingToApply(Apply(c.heap, c.master), c.users);
      }
    }
  }

  lemma {:induction false} NothingToApply(h: seq<Value>, logs: seq<seq<Entry>>)
    requires forall t | 0 <= t < |logs| :: logs[t] == []
    ensures ApplyAll(h, logs) == h
  {
    if logs != [] {
      NothingToApply(h, logs[..|logs| - 1]);
    }
  }

  /**
   * Crash consistency. Whatever any number of threads have done, and wherever the crash falls, recovery ends with
   * exactly the stores of the epochs up to the boundary: e-2 in Multi_Epoch_Existence and Log_Persistence of
   * epoch e, e-1 anywhere in NVM_Heap_Update.
   */
  lemma CrashConsistency(first: E.Begin, heap: seq<Value>, acts: seq<Action>, s: State, c: Crash)
    requires Run(Initial(first, heap), acts, s) && CrashOutcome(s, c)
    ensures Recover(c) == Snapshot(heap, s.hist, Boundary(c.global))
  {
    InitialInv(first, heap);
    hide Inv;
    RunKeepsInv(Initial(first, heap), acts, s);
    RecoverFromInv(s, c);
  }

  /** Before the update of the NVM heap the surviving heap is the boundary as it is, without any replay. */
  lemma UnreplayedHeap(first: E.Begin, heap: seq<Value>, acts: seq<Action>, s: State, c: Crash)
    requires Run(Initial(first, heap), acts, s) && CrashOutcome(s, c) && c.global.phase != NvmHeapUpdate
    ensures c.heap == Snapshot(heap, s.hist, Boundary(c.global))
  {
    CrashConsistency(first, heap, acts, s, c);
  }

  /**
   * The surviving stores are those of whole operations: an operation with a surviving store is finished, all its
   * stores survive, and so does every earlier store to a line that a surviving store goes to.
   */
  lemma WholeOperations(first: E.Begin, heap: seq<Value>, acts: seq<Action>, s: State, i: nat, j: nat)
    requires Run(Initial(first, heap), acts, s) && i < |s.hist| && j < |s.hist|
    requires s.hist[j].epoch <= Boundary(s.ep.global)
    ensures s.hist[j].thread < |s.ctxs| && s.hist[j].op < s.ctxs[s.hist[j].thread].ops
    ensures s.hist[i].thread == s.hist[j].thread && s.hist[i].op == s.hist[j].op ==>
              s.hist[i].epoch <= Boundary(s.ep.global)
    ensures i < j && s.hist[i].line == s.hist[j].line ==> s.hist[i].epoch <= Boundary(s.ep.global)
  {
    InitialInv(first, heap);
    RunKeepsInv(Initial(first, heap), acts, s);
    var t := s.hist[j].thread;
    assert EventInv(s, s.hist[j]);
    if E.InOperation(s.ep, t) { assert E.ThreadInv(s.ep, t); }
  }

  lemma WriteBoundary(s: State, t: nat, l: nat, v: Value, k: int)
    requires Inv(s) && Enabled(s, Write(t, l, v)) && k <= Boundary(s.ep.global)
    ensures Snap(AfterWrite(s, t, l, v), k) == Snap(s, k)
  {
    H.WriteStorable(s, t, l, v);
    assert Sizes(s) && (s.ep.stage.Waiting? ==> s.ep.global.phase == MultiEpochExistence);
    hide Inv, E.Inv, AfterWrite;
    H.WriteSnap(s, t, l, v);
  }

  lemma EpochBoundary(ep: E.State, a: E.Action)
    requires E.Inv(ep) && E.Enabled(ep, a)
    ensures Boundary(ep.global) <= Boundary(E.Next(ep, a).global)
  {
  }

  lemma StepEpoch(s: State, a: Action)
    requires Enabled(s, a)
    ensures Next(s, a).ep == if a.Ep? then E.Next(s.ep, a.a) else s.ep
  {
    hide E.Next;
  }

  /** One step does not move the boundary back, and adds no store of an epoch behind it. */
  lemma StepBoundary(s: State, a: Action, k: int)
    requires Inv(s) && Guarded(s, a) && k <= Boundary(s.ep.global)
    ensures Boundary(s.ep.global) <= Boundary(Next(s, a).ep.global)
    ensures Snap(Next(s, a), k) == Snap(s, k)
  {
    assert E.Inv(s.ep);
    hide Inv, E.Inv, E.Next, Boundary, AfterWrite, AfterEpochAction;
    StepHistory(s, a);
    StepEpoch(s, a);
    if a.Write? { WriteBoundary(s, a.t, a.line, a.val, k); }
    if a.Ep? { EpochBoundary(s.ep, a.a); }
  }

  /** What could be recovered once stays recoverable: later stores never fall behind a boundary already reached. */
  lemma {:induction false} BoundaryIsFinal(s: State, acts: seq<Action>, s': State, k: int)
    requires Inv(s) && Run(s, acts, s') && k <= Boundary(s.ep.global)
    ensures k <= Boundary(s'.ep.global) && Snap(s', k) == Snap(s, k)
    decreases |acts|
  {
    hide Inv;
    if acts != [] {
      StepKeepsInv(s, acts[0]);
      StepBoundary(s, acts[0], k);
      BoundaryIsFinal(Next(s, acts[0]), acts[1..], s', k);
    }
  }
}

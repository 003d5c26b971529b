/**
 * Users that follow the locking discipline of the list test: an operation takes its locks before begin_op, touches
 * a line only while it holds the lock of the line, and may drop a lock before end_op. What the protocol demands of
 * its users about other threads and other epochs then comes for free. That a store follows the mark of its line does
 * not: it remains a demand.
 */
module Locking {
  import opened Redo
  import opened Protocol
  import opened Invariant
  import opened CrashSafety
  import U = UserSteps
  import E = Epochs

  /** A read of, a mark of or a store to a line under its lock, by an operation of the given epoch. */
  datatype Access = Access(lock: nat, epoch: nat)

  /** `held` maps a lock to its holder; `trace` lists the accesses so far. */
  datatype LockState = LockState(s: State, held: map<nat, nat>, trace: seq<Access>)

  datatype LockAction = Acquire(t: nat, lock: nat) | Release(t: nat, lock: nat) | Read(t: nat, line: nat) | Do(a: Action)

  predicate Holds(ls: LockState, t: nat, lock: nat) {
    lock in ls.held && ls.held[lock] == t
  }

  /**
   * The code lets the step happen; nothing is asked about what other threads or epochs have marked. As in every run of
   * the protocol, the phase does not change to NVM_Heap_Update while a copy on write is in flight.
   */
  predicate CodeEnabled(s: State, a: Action) {
    match a
    case MarkTest(t) => IsAt(s, t, Head) && s.ctxs[t].mark.i < s.ctxs[t].mark.range.count
    case Write(t, l, v) =>
      && E.InOperation(s.ep, t) && t < |s.ctxs| && s.ctxs[t].mark == NoMark
      && l < |s.dram| && l in s.ctxs[t].marked
    case Ep(StartUpdating) => Enabled(s, a) && !SaveInFlight(s)
    case _ => Enabled(s, a)
  }

  /** The line that a step starts to mark or stores to. */
  predicate Touches(s: State, a: Action, t: nat, l: nat) {
    || (a == MarkTest(t) && IsMarking(s, t) && MarkLine(s.ctxs[t].mark) == l)
    || (a.Write? && a.t == t && a.line == l)
  }

  ghost predicate LockEnabled(lockOf: nat -> nat, ls: LockState, la: LockAction) {
    match la
    case Acquire(t, k) => t < |ls.s.ep.threads| && ls.s.ep.threads[t].pc == E.Idle && k !in ls.held
    case Release(t, k) => Holds(ls, t, k) && t < |ls.s.ctxs| && ls.s.ctxs[t].mark == NoMark
    case Read(t, l) => E.InOperation(ls.s.ep, t) && Holds(ls, t, lockOf(l))
    case Do(a) => CodeEnabled(ls.s, a) && forall t: nat, l: nat | Touches(ls.s, a, t, l) :: Holds(ls, t, lockOf(l))
  }

  /** No operation of a newer epoch has touched a line whose lock an operation in progress holds. */
  ghost predicate LockInv(lockOf: nat -> nat, ls: LockState) {
    && (forall l | l in ls.s.owner :: Holds(ls, ls.s.owner[l], lockOf(l)))
    && (forall l | l in ls.s.now && lockOf(l) in ls.held && E.InOperation(ls.s.ep, ls.held[lockOf(l)]) ::
          Num(ls.s, ls.held[lockOf(l)]) == Epoch(ls.s))
    && (forall j | 0 <= j < |ls.trace| :: ls.trace[j].epoch <= Epoch(ls.s))
    && (forall j | 0 <= j < |ls.trace| && ls.trace[j].lock in ls.held
          && E.InOperation(ls.s.ep, ls.held[ls.trace[j].lock]) ::
          ls.trace[j].epoch <= Num(ls.s, ls.held[ls.trace[j].lock]))
    && (forall i, j | 0 <= i < j < |ls.trace| && ls.trace[i].lock == ls.trace[j].lock ::
          ls.trace[i].epoch <= ls.trace[j].epoch)
  }

  /** Holding the lock of a line is enough to be allowed to touch it. */
  lemma LockGivesTouch(lockOf: nat -> nat, ls: LockState, t: nat, l: nat)
    requires Inv(ls.s) && LockInv(lockOf, ls) && Holds(ls, t, lockOf(l)) && E.InOperation(ls.s.ep, t)
    ensures MayTouch(ls.s, t, l)
  {
    forall u | 0 <= u < |ls.s.ctxs| && u != t
      ensures !MidMark(ls.s, u, l)
    {
      assert UserInv(ls.s, u);
    }
  }

  lemma CodeStepAllowed(lockOf: nat -> nat, ls: LockState, a: Action)
    requires Inv(ls.s) && LockInv(lockOf, ls) && LockEnabled(lockOf, ls, Do(a))
    ensures Guarded(ls.s, a)
  {
    var s := ls.s;
    match a
    case MarkTest(t) =>
      assert Touches(s, a, t, MarkLine(s.ctxs[t].mark));
      assert UserInv(s, t);
      LockGivesTouch(lockOf, ls, t, MarkLine(s.ctxs[t].mark));
    case Write(t, l, v) =>
      assert Touches(s, a, t, l);
      LockGivesTouch(lockOf, ls, t, l);
    case _ =>
  }

  function AccessOf(lockOf: nat -> nat, s: State, a: Action): seq<Access> {
    match a
    case MarkTest(t) => if IsMarking(s, t) then [Access(lockOf(MarkLine(s.ctxs[t].mark)), Num(s, t))] else []
    case Write(t, l, _) => [Access(lockOf(l), Num(s, t))]
    case _ => []
  }

  /** A step that the protocol does not allow its users would get stuck; `LockedRunIsRun` says that none does. */
  function LockNext(lockOf: nat -> nat, ls: LockState, la: LockAction): LockState {
    match la
    case Acquire(t, k) => ls.(held := ls.held[k := t])
    case Release(t, k) => ls.(held := ls.held - {k})
    case Read(t, l) => ls.(trace := ls.trace + [Access(lockOf(l), Num(ls.s, t))])
    case Do(a) => if !Enabled(ls.s, a) then ls else ls.(s := Next(ls.s, a), trace := ls.trace + AccessOf(lockOf, ls.s, a))
  }

  lemma LocalLockStep(lockOf: nat -> nat, ls: LockState, la: LockAction)
    requires Inv(ls.s) && LockInv(lockOf, ls) && LockEnabled(lockOf, ls, la) && !la.Do?
    ensures LockInv(lockOf, LockNext(lockOf, ls, la))
  {
    var s := ls.s;
    if la.Release? {
      forall l | l in s.owner
        ensures s.owner[l] != la.t
      {
        assert LineInv(s, l);
      }
    }
    if la.Read? && E.InOperation(s.ep, la.t) {
      U.OperationParity(s, la.t);
    }
    hide Inv;
  }

  /** Steps that touch no line leave locks, trace and what is known of them alone. */
  ghost predicate Untouched(s: State, s': State) {
    && (forall l | l in s'.owner :: l in s.owner && s'.owner[l] == s.owner[l])
    && (s'.now == {} || s'.now == s.now)
    && Epoch(s) <= Epoch(s')
    && (s'.now != {} ==> Epoch(s') == Epoch(s))
    && forall t: nat | E.InOperation(s'.ep, t) ::
         Num(s', t) == Epoch(s') || (E.InOperation(s.ep, t) && Num(s', t) == Num(s, t))
  }

  lemma UntouchedKeeps(lockOf: nat -> nat, ls: LockState, s': State)
    requires LockInv(lockOf, ls) && Untouched(ls.s, s')
    ensures LockInv(lockOf, ls.(s := s'))
  {
  }

  lemma MarkUntouched(s: State, a: Action)
    requires Enabled(s, a) && !a.Ep? && !a.MarkTest?
    ensures Untouched(s, Next(s, a))
  {
    assert Next(s, a).ep == s.ep by { StepEpoch(s, a); }
    hide E.Parity;
  }

  lemma EpochUntouched(s: State, a: E.Action)
    requires Inv(s) && EpochActionEnabled(s, a)
    ensures Untouched(s, AfterEpochAction(s, a))
  {
    assert E.Inv(s.ep);
    hide Inv, E.Parity;
  }

  /** A thread that holds the lock of a line begins to mark it. */
  ghost predicate MarkBegins(s: State, s': State, t: nat, l: nat) {
    && s'.ep == s.ep
    && (forall k | k in s'.owner :: (k in s.owner && s'.owner[k] == s.owner[k]) || (k == l && s'.owner[k] == t))
    && (s'.now == s.now || (s'.now == s.now + {l} && Num(s, t) == Epoch(s)))
  }

  lemma MarkBeginsKeeps(lockOf: nat -> nat, ls: LockState, s': State, t: nat, l: nat)
    requires LockInv(lockOf, ls) && MarkBegins(ls.s, s', t, l) && Holds(ls, t, lockOf(l))
    requires E.InOperation(ls.s.ep, t) && Num(ls.s, t) <= Epoch(ls.s)
    ensures LockInv(lockOf, ls.(s := s', trace := ls.trace + [Access(lockOf(l), Num(ls.s, t))]))
  {
    hide E.InOperation;
  }

  lemma DoMarkTest(lockOf: nat -> nat, ls: LockState, t: nat)
    requires Inv(ls.s) && LockInv(lockOf, ls) && LockEnabled(lockOf, ls, Do(MarkTest(t))) && Enabled(ls.s, MarkTest(t))
    ensures LockInv(lockOf, LockNext(lockOf, ls, Do(MarkTest(t))))
  {
    var s := ls.s;
    var l := MarkLine(s.ctxs[t].mark);
    U.Focus(s, t);
    assert Touches(s, MarkTest(t), t, l);
    hide Inv, E.Parity, UserInv, LineInv;
    assert MarkBegins(s, AfterMarkTest(s, t), t, l);
    assert LockNext(lockOf, ls, Do(MarkTest(t))) ==
           ls.(s := AfterMarkTest(s, t), trace := ls.trace + [Access(lockOf(l), Num(s, t))]);
    hide LockInv, MarkBegins, AfterMarkTest, MayTouch;
    MarkBeginsKeeps(lockOf, ls, AfterMarkTest(s, t), t, l);
  }

  lemma DoWrite(lockOf: nat -> nat, ls: LockState, a: Action)
    requires Inv(ls.s) && LockInv(lockOf, ls) && LockEnabled(lockOf, ls, Do(a)) && Enabled(ls.s, a) && a.Write?
    ensures LockInv(lockOf, LockNext(lockOf, ls, Do(a)))
  {
    var s := ls.s;
    assert Touches(s, a, a.t, a.line);
    U.OperationParity(s, a.t);
    hide Inv, E.Parity;
  }

  lemma LockStep(lockOf: nat -> nat, ls: LockState, la: LockAction)
    requires Inv(ls.s) && LockInv(lockOf, ls) && LockEnabled(lockOf, ls, la)
    ensures la.Do? ==> Guarded(ls.s, la.a)
    ensures la.Do? ==> Inv(Next(ls.s, la.a))
    ensures LockInv(lockOf, LockNext(lockOf, ls, la))
  {
    hide Inv, LockInv;
    if la.Do? {
      CodeStepAllowed(lockOf, ls, la.a);
      StepKeepsInv(ls.s, la.a);
      hide Enabled, Next;
      if la.a.MarkTest? {
        DoMarkTest(lockOf, ls, la.a.t);
      } else if la.a.Write? {
        DoWrite(lockOf, ls, la.a);
      } else {
        DoUntouched(lockOf, ls, la.a);
      }
    } else {
      LocalLockStep(lockOf, ls, la);
    }
  }

  lemma DoUntouched(lockOf: nat -> nat, ls: LockState, a: Action)
    requires Inv(ls.s) && LockInv(lockOf, ls) && Enabled(ls.s, a) && !a.MarkTest? && !a.Write?
    ensures LockInv(lockOf, LockNext(lockOf, ls, Do(a)))
  {
    hide Inv, LockInv, Untouched;
    if a.Ep? { EpochUntouched(ls.s, a.a); } else { MarkUntouched(ls.s, a); }
    assert LockNext(lockOf, ls, Do(a)) == ls.(s := Next(ls.s, a));
    UntouchedKeeps(lockOf, ls, Next(ls.s, a));
  }

  ghost predicate LockRun(lockOf: nat -> nat, ls: LockState, las: seq<LockAction>, ls': LockState)
    decreases |las|
  {
    if las == [] then ls == ls'
    else LockEnabled(lockOf, ls, las[0]) && LockRun(lockOf, LockNext(lockOf, ls, las[0]), las[1..], ls')
  }

  /** The steps of a run of locked users that the protocol sees. */
  function ProtocolSteps(las: seq<LockAction>): seq<Action> {
    if las == [] then []
    else if las[0].Do? then [las[0].a] + ProtocolSteps(las[1..])
    else ProtocolSteps(las[1..])
  }

  lemma {:induction false} LockedRun(lockOf: nat -> nat, ls: LockState, las: seq<LockAction>, ls': LockState)
    requires Inv(ls.s) && LockInv(lockOf, ls) && LockRun(lockOf, ls, las, ls')
    ensures Run(ls.s, ProtocolSteps(las), ls'.s)
    ensures LockInv(lockOf, ls')
    decreases |las|
  {
    hide Inv, LockInv, LockEnabled;
    if las != [] {
      var next := LockNext(lockOf, ls, las[0]);
      LockStep(lockOf, ls, las[0]);
      LockedRun(lockOf, next, las[1..], ls');
      if las[0].Do? {
        var rest := ProtocolSteps(las[1..]);
        assert ([las[0].a] + rest)[1..] == rest;
      }
    }
  }

  function LockedInitial(first: E.Begin, heap: seq<Value>): LockState {
    LockState(Initial(first, heap), map[], [])
  }

  /**
   * Locking gives the discipline: every run of users that take the lock of a line before begin_op and touch the
   * line only while they hold it is a run of the protocol, although nothing checks marks of other epochs. That a store
   * follows its mark is asked of these users as of all.
   */
  lemma LockedRunIsRun(lockOf: nat -> nat, first: E.Begin, heap: seq<Value>, las: seq<LockAction>, ls: LockState)
    requires LockRun(lockOf, LockedInitial(first, heap), las, ls)
    ensures Run(Initial(first, heap), ProtocolSteps(las), ls.s)
  {
    InitialInv(first, heap);
    LockedRun(lockOf, LockedInitial(first, heap), las, ls);
  }

  /**
   * Locked users that mark before they store get crash consistency. That no copy on write is in flight at the
   * phase change to NVM_Heap_Update is asked of the schedule, here as for all users.
   */
  lemma LockedCrashConsistency(lockOf: nat -> nat, first: E.Begin, heap: seq<Value>, las: seq<LockAction>, ls: LockState,
                               c: Crash)
    requires LockRun(lockOf, LockedInitial(first, heap), las, ls) && CrashOutcome(ls.s, c)
    ensures Recover(c) == Snapshot(heap, ls.s.hist, Boundary(c.global))
  {
    hide CrashOutcome, LockRun;
    LockedRunIsRun(lockOf, first, heap, las, ls);
    CrashConsistency(first, heap, ProtocolSteps(las), ls.s, c);
  }

  /**
   * In the order in which a lock is used, the epochs of the accesses under it never go back. So the operations up
   * to any boundary are closed under conflicts, reads included: what precedes a surviving access survives.
   */
  lemma ConflictsInEpochOrder(lockOf: nat -> nat, first: E.Begin, heap: seq<Value>, las: seq<LockAction>, ls: LockState,
                              i: nat, j: nat)
    requires LockRun(lockOf, LockedInitial(first, heap), las, ls)
    requires i < j < |ls.trace| && ls.trace[i].lock == ls.trace[j].lock
    ensures ls.trace[i].epoch <= ls.trace[j].epoch
    ensures ls.trace[j].epoch <= Boundary(ls.s.ep.global) ==> ls.trace[i].epoch <= Boundary(ls.s.ep.global)
  {
    InitialInv(first, heap);
    LockedRun(lockOf, LockedInitial(first, heap), las, ls);
  }

  /** The trace misses no access: whatever starts to mark a line or stores to one is in it, with its lock and epoch. */
  lemma EveryTouchTraced(lockOf: nat -> nat, ls: LockState, a: Action, t: nat, l: nat)
    requires Enabled(ls.s, a) && Touches(ls.s, a, t, l)
    ensures LockNext(lockOf, ls, Do(a)).trace == ls.trace + [Access(lockOf(l), Num(ls.s, t))]
  {
    hide Next;
  }

  /** Stores are in the trace, and those under one lock are in epoch order. */
  ghost predicate StoresTraced(lockOf: nat -> nat, ls: LockState) {
    var hist := ls.s.hist;
    && (forall j | 0 <= j < |hist| :: Access(lockOf(hist[j].line), hist[j].epoch) in ls.trace)
    && (forall i, j | 0 <= i < j < |hist| && lockOf(hist[i].line) == lockOf(hist[j].line) ::
          hist[i].epoch <= hist[j].epoch)
  }

  lemma TraceGrows(lockOf: nat -> nat, ls: LockState, la: LockAction)
    ensures forall x | x in ls.trace :: x in LockNext(lockOf, ls, la).trace
    ensures !la.Do? ==> LockNext(lockOf, ls, la).s == ls.s
  {
    hide Next, Enabled;
  }

  lemma StoreTraced(lockOf: nat -> nat, ls: LockState, a: Action)
    requires Inv(ls.s) && LockInv(lockOf, ls) && StoresTraced(lockOf, ls)
    requires LockEnabled(lockOf, ls, Do(a)) && Enabled(ls.s, a) && a.Write?
    ensures StoresTraced(lockOf, LockNext(lockOf, ls, Do(a)))
  {
    assert Touches(ls.s, a, a.t, a.line);
    EveryTouchTraced(lockOf, ls, a, a.t, a.line);
    var ev := Event(Num(ls.s, a.t), a.t, ls.s.ctxs[a.t].ops, a.line, a.val);
    assert LockNext(lockOf, ls, Do(a)).s.hist == ls.s.hist + [ev];
    assert Holds(ls, a.t, lockOf(a.line)) && E.InOperation(ls.s.ep, a.t);
    hide Inv, Enabled, Next, MayTouch, LockNext;
    forall i | 0 <= i < |ls.s.hist| && lockOf(ls.s.hist[i].line) == lockOf(a.line)
      ensures ls.s.hist[i].epoch <= ev.epoch
    {
      assert Access(lockOf(ls.s.hist[i].line), ls.s.hist[i].epoch) in ls.trace;
    }
  }

  lemma StoresTracedStep(lockOf: nat -> nat, ls: LockState, la: LockAction)
    requires Inv(ls.s) && LockInv(lockOf, ls) && StoresTraced(lockOf, ls) && LockEnabled(lockOf, ls, la)
    ensures StoresTraced(lockOf, LockNext(lockOf, ls, la))
  {
    TraceGrows(lockOf, ls, la);
    if la.Do? {
      CodeStepAllowed(lockOf, ls, la.a);
      if la.a.Write? {
        StoreTraced(lockOf, ls, la.a);
      } else {
        StepHistory(ls.s, la.a);
        hide Inv, LockInv, Enabled, Next;
      }
    }
  }

  lemma {:induction false} StoresTracedRun(lockOf: nat -> nat, ls: LockState, las: seq<LockAction>, ls': LockState)
    requires Inv(ls.s) && LockInv(lockOf, ls) && StoresTraced(lockOf, ls) && LockRun(lockOf, ls, las, ls')
    ensures StoresTraced(lockOf, ls')
    decreases |las|
  {
    if las != [] {
      var next := LockNext(lockOf, ls, las[0]);
      LockStep(lockOf, ls, las[0]);
      StoresTracedStep(lockOf, ls, las[0]);
      assert Inv(next.s) by {
        if las[0].Do? { CodeStepAllowed(lockOf, ls, las[0].a); } else { TraceGrows(lockOf, ls, las[0]); }
      }
      hide Inv, LockInv, StoresTraced, LockEnabled, LockNext;
      StoresTracedRun(lockOf, next, las[1..], ls');
    }
  }

  /** In particular stores to lines under one lock are made in epoch order, whatever lines they are to. */
  lemma StoresInEpochOrder(lockOf: nat -> nat, first: E.Begin, heap: seq<Value>, las: seq<LockAction>, ls: LockState,
                           i: nat, j: nat)
    requires LockRun(lockOf, LockedInitial(first, heap), las, ls)
    requires i < j < |ls.s.hist| && lockOf(ls.s.hist[i].line) == lockOf(ls.s.hist[j].line)
    ensures ls.s.hist[i].epoch <= ls.s.hist[j].epoch
  {
    InitialInv(first, heap);
    hide Inv;
    StoresTracedRun(lockOf, LockedInitial(first, heap), las, ls);
  }
}

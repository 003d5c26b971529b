/**
 * Two interleavings that show what the protocol's guarantees rest on, and what recovery from a crash at the phase
 * change to NVM_Heap_Update needs.
 */
module Races {
  import opened EpochPhase
  import opened Redo
  import opened Protocol
  import opened Invariant
  import opened CrashSafety
  import U = UserSteps
  import X = ExactlyOnce
  import E = Epochs

  ghost predicate Reachable(heap: seq<Value>, s: State) {
    exists acts :: Run(Initial(E.FIRST, heap), acts, s)
  }

  lemma {:induction false} RunAppend(s: State, acts: seq<Action>, s': State, a: Action)
    requires Run(s, acts, s') && Guarded(s', a)
    ensures Run(s, acts + [a], Next(s', a))
    decreases |acts|
  {
    if acts == [] {
      assert [a][1..] == [];
      assert Run(Next(s, a), [], Next(s, a));
    } else {
      RunAppend(Next(s, acts[0]), acts[1..], s', a);
      assert (acts + [a])[1..] == acts[1..] + [a];
    }
  }

  lemma Extend(heap: seq<Value>, s: State, a: Action, s': State)
    requires Reachable(heap, s) && Guarded(s, a) && s' == Next(s, a)
    ensures Reachable(heap, s')
  {
    var acts :| Run(Initial(E.FIRST, heap), acts, s);
    RunAppend(Initial(E.FIRST, heap), acts, s, a);
  }

  const HEAP: seq<Value> := [0]
  const IDLE := E.Thread(E.OUTSIDE, E.Idle)
  const CLEAR: seq<bool> := [false]

  /** One registered thread and one line. */
  function Registered(): State {
    State(E.State(E.FIRST, [IDLE], E.Resting, E.Nobody), [FRESH_CTX], Pair(CLEAR, CLEAR), [],
          HEAP, HEAP, [], Rest, HEAP, [], {}, {}, map[], map[], Pair([0], [0]))
  }

  lemma ReachRegistered()
    ensures Reachable(HEAP, Registered())
  {
    var s0 := Initial(E.FIRST, HEAP);
    assert s0.bits.even == CLEAR && s0.setter.even == [0];
    assert Run(s0, [], s0);
    var s1 := s0.(ep := s0.ep.(right := E.Registrar));
    Extend(HEAP, s0, Ep(E.RegistrarTakes), s1);
    var s2 := s1.(ep := s1.ep.(threads := [IDLE]), ctxs := [FRESH_CTX]);
    Extend(HEAP, s1, Ep(E.Register), s2);
    Extend(HEAP, s2, Ep(E.RegistrarReleases), Registered());
  }

  /** `s` with its only thread in an operation of the current epoch. */
  function Inside(s: State): State {
    s.(ep := s.ep.(threads := [E.Thread(s.ep.global, E.InOp)]))
  }

  lemma ReachInside(s: State)
    requires Reachable(HEAP, s) && s.ep.threads == [IDLE]
    ensures Reachable(HEAP, Inside(s))
  {
    var s1 := s.(ep := s.ep.(threads := [E.Thread(E.OUTSIDE, E.Loaded(s.ep.global))]));
    Extend(HEAP, s, Ep(E.Load(0)), s1);
    var s2 := s1.(ep := s1.ep.(threads := [E.Thread(s.ep.global, E.Stored)]));
    Extend(HEAP, s1, Ep(E.Store(0)), s2);
    Extend(HEAP, s2, Ep(E.Check(0)), Inside(s));
  }

  function Marking(s: State, i: nat, dirty: bool, at: Spot, marked: set<nat>): State
    requires |s.ctxs| == 1
  {
    s.(ctxs := [s.ctxs[0].(mark := Mark(Range(0, 1), i, dirty, at), marked := marked)])
  }

  lemma StartMark(s: State, s': State)
    requires Reachable(HEAP, s) && s.ep.threads == [E.Thread(s.ep.global, E.InOp)] && |s.dram| == 1
    requires |s.ctxs| == 1 && s.ctxs[0].mark == NoMark && s.ctxs[0].marked == {}
    requires !BitAt(s, This(s), 0) && s.owner == map[] && s.now == {}
    requires s' == Marking(s, 0, false, TestPrev, {}).(owner := map[0 := 0], now := {0})
    ensures Reachable(HEAP, s')
  {
    hide E.Parity;
    var s1 := Marking(s, 0, false, Head, {});
    assert s1.ctxs == s.ctxs[0 := s1.ctxs[0]];
    Extend(HEAP, s, MarkCall(0, Range(0, 1)), s1);
    assert s1.owner[0 := 0] == map[0 := 0] && s1.now + {0} == {0};
    assert s'.ctxs == s1.ctxs[0 := s'.ctxs[0]];
    assert MayTouch(s1, 0, 0);
    Extend(HEAP, s1, MarkTest(0), s');
  }

  /** The thread's context after it has marked line 0 at parity `p`, stored to it and ended the operation. */
  function AfterOperation(x: Ctx, p: bool): Ctx {
    Ctx(x.lists.With(p, x.lists.At(p) + [Range(0, 1)]), x.log, NoMark, {}, x.ops + 1)
  }

  lemma FinishMark(s: State, s': State)
    requires Reachable(HEAP, s) && s.ep.threads == [E.Thread(s.ep.global, E.InOp)] && |s.dram| == 1
    requires |s.ctxs| == 1 && s.ctxs[0].mark == Mark(Range(0, 1), 0, false, SetCurr) && s.ctxs[0].marked == {}
    requires s.owner == map[0 := 0] && |s.bits.At(This(s))| == 1 && s.setter == Pair([0], [0])
    requires
      var p := This(s);
      var lists := s.ctxs[0].lists.With(p, s.ctxs[0].lists.At(p) + [Range(0, 1)]);
      s' == s.(ctxs := [s.ctxs[0].(mark := NoMark, marked := {0}, lists := lists)], bits := s.bits.With(p, [true]), owner := map[])
    ensures Reachable(HEAP, s')
  {
    hide E.Parity, Run, Reachable;
    var p := This(s);
    var x := s.ctxs[0];
    var x1 := x.(mark := Mark(Range(0, 1), 1, true, Head), marked := {0});
    var s1 := s.(ctxs := [x1], bits := s.bits.With(p, [true]), owner := map[]);
    assert s.owner - {0} == map[] && x.marked + {0} == {0} && s.ctxs[0 := x1] == [x1];
    assert s.bits.At(p)[0 := true] == [true] && s.setter.At(p)[0 := 0] == [0];
    Extend(HEAP, s, MarkSet(0), s1);
    assert s1.ctxs[0 := s'.ctxs[0]] == s'.ctxs;
    Extend(HEAP, s1, MarkReturn(0), s');
  }

  lemma StoreAndEnd(s: State, v: Value, s': State)
    requires Reachable(HEAP, s) && s.ep.threads == [E.Thread(s.ep.global, E.InOp)] && |s.dram| == 1
    requires |s.ctxs| == 1 && s.ctxs[0].mark == NoMark && s.ctxs[0].marked == {0}
    requires s' == s.(ep := s.ep.(threads := [IDLE]), ctxs := [s.ctxs[0].(marked := {}, ops := s.ctxs[0].ops + 1)],
                      dram := [v], hist := s.hist + [Event(Epoch(s), 0, s.ctxs[0].ops, 0, v)])
    ensures Reachable(HEAP, s')
  {
    hide E.Parity, Run, Reachable;
    var s1 := s.(dram := [v], hist := s'.hist);
    assert s.dram[0 := v] == [v];
    assert MayTouch(s, 0, 0);
    Extend(HEAP, s, Write(0, 0, v), s1);
    assert s1.ep.threads[0 := IDLE] == [IDLE] && s1.ctxs[0 := s'.ctxs[0]] == s'.ctxs;
    Extend(HEAP, s1, Ep(E.End(0)), s');
  }

  lemma FinishOperation(s: State, v: Value, s': State)
    requires Reachable(HEAP, s) && s.ep.threads == [E.Thread(s.ep.global, E.InOp)] && |s.dram| == 1
    requires |s.ctxs| == 1 && s.ctxs[0].mark == Mark(Range(0, 1), 0, false, SetCurr) && s.ctxs[0].marked == {}
    requires s.owner == map[0 := 0] && |s.bits.At(This(s))| == 1 && s.setter == Pair([0], [0])
    requires s' == s.(ep := s.ep.(threads := [IDLE]), ctxs := [AfterOperation(s.ctxs[0], This(s))],
                      bits := s.bits.With(This(s), [true]), owner := map[], dram := [v],
                      hist := s.hist + [Event(Epoch(s), 0, s.ctxs[0].ops, 0, v)])
    ensures Reachable(HEAP, s')
  {
    hide E.Parity, Run, Reachable;
    var p := This(s);
    var lists := s.ctxs[0].lists.With(p, s.ctxs[0].lists.At(p) + [Range(0, 1)]);
    var mid := s.(ctxs := [s.ctxs[0].(mark := NoMark, marked := {0}, lists := lists)], bits := s.bits.With(p, [true]), owner := map[]);
    FinishMark(s, mid);
    StoreAndEnd(mid, v, s');
  }

  /** Epoch 2: the thread has stored 1 to line 0. */
  function Dirty(): State {
    Registered().(ctxs := [Ctx(Pair([Range(0, 1)], []), [], NoMark, {}, 1)], bits := Pair([true], CLEAR),
                  dram := [1], hist := [Event(2, 0, 0, 0, 1)], now := {0})
  }

  /** Epoch 2: the thread is about to set the bit of line 0. */
  function Unset(): State {
    Marking(Inside(Registered()), 0, false, SetCurr, {}).(owner := map[0 := 0], now := {0})
  }

  lemma ReachUnset()
    ensures Reachable(HEAP, Unset())
  {
    ReachRegistered();
    ReachInside(Registered());
    var s0 := Inside(Registered());
    var s1 := Marking(s0, 0, false, TestPrev, {}).(owner := map[0 := 0], now := {0});
    StartMark(s0, s1);
    assert s1.ctxs[0 := Unset().ctxs[0]] == Unset().ctxs;
    Extend(HEAP, s1, MarkTestPrev(0), Unset());
  }

  lemma ReachDirty()
    ensures Reachable(HEAP, Dirty())
  {
    ReachUnset();
    var s := Unset();
    assert !This(s) && s.hist + [Event(2, 0, 0, 0, 1)] == [Event(2, 0, 0, 0, 1)];
    assert [] + [Range(0, 1)] == [Range(0, 1)] && AfterOperation(s.ctxs[0], false) == Dirty().ctxs[0];
    hide Run, Reachable;
    FinishOperation(s, 1, Dirty());
  }

  /** Epoch 3, Log_Persistence: the wait is over and nothing has been scanned yet. */
  function Scanning(): State {
    Dirty().(ep := E.State(E.Word(3, LogPersistence), [IDLE], E.Logging, E.Checkpointer), now := {}, before := {0},
             cp := Scan(0, 0, 0))
  }

  lemma ReachScanning()
    ensures Reachable(HEAP, Scanning())
  {
    ReachDirty();
    var s0 := Dirty();
    var s1 := s0.(ep := s0.ep.(right := E.Checkpointer));
    Extend(HEAP, s0, Ep(E.CheckpointerTakes), s1);
    var s2 := s1.(ep := s1.ep.(global := E.Word(3, MultiEpochExistence), stage := E.Waiting(0)), now := {}, before := {0});
    Extend(HEAP, s1, Ep(E.Advance), s2);
    var s3 := s2.(ep := s2.ep.(stage := E.Waiting(1)));
    Extend(HEAP, s2, Ep(E.PassContext), s3);
    Extend(HEAP, s3, Ep(E.StartLogging), Scanning());
  }

  /** `s`, in which the old bit of line 0 is set, after the thread has started to save the line. */
  function Saved(s: State): State
    requires |s.ctxs| == 1
  {
    Marking(Inside(s), 0, false, PushOld, {}).(owner := map[0 := 0], now := {0}, bits := s.bits.With(Prev(s), CLEAR))
  }

  lemma ReachSaving(s: State)
    requires Reachable(HEAP, s) && s.ep == Scanning().ep && s.ctxs == Scanning().ctxs && s.bits == Scanning().bits
    requires s.dram == [1] && s.owner == map[] && s.now == {}
    ensures Reachable(HEAP, Saved(s))
  {
    hide Run, Reachable;
    ReachInside(s);
    var s0 := Inside(s);
    var s1 := Marking(s0, 0, false, TestPrev, {}).(owner := map[0 := 0], now := {0});
    StartMark(s0, s1);
    var s2 := Marking(s1, 0, false, ClearPrev, {});
    assert s1.ctxs[0 := s2.ctxs[0]] == s2.ctxs;
    Extend(HEAP, s1, MarkTestPrev(0), s2);
    assert s2.ctxs[0 := Saved(s).ctxs[0]] == Saved(s).ctxs && [true][0 := false] == CLEAR;
    Extend(HEAP, s2, MarkClearPrev(0), Saved(s));
  }

  /** The scan is over: the list of the previous parity is cleared, the old bit of line 0 is not set. */
  lemma FinishScan(s: State, i: nat, s': State)
    requires Reachable(HEAP, s) && s.cp == Scan(0, 0, i) && (i == 1 || !BitAt(s, false, 0)) && i <= 1 && !Prev(s)
    requires |s.ctxs| == 1 && s.ctxs[0].lists.even == [Range(0, 1)]
    requires s' == s.(cp := Scan(1, 0, 0), ctxs := [s.ctxs[0].(lists := Pair([], s.ctxs[0].lists.odd))])
    ensures Reachable(HEAP, s')
  {
    hide E.Parity, Run, Reachable;
    var s1 := s.(cp := Scan(0, 0, 1));
    if i == 0 { Extend(HEAP, s, ScanStep, s1); }
    var s2 := s1.(cp := Scan(0, 1, 0));
    Extend(HEAP, s1, ScanStep, s2);
    assert s2.ctxs[0 := s'.ctxs[0]] == s'.ctxs;
    Extend(HEAP, s2, ScanStep, s');
  }

  /** The scan has gone past line 0 while its save was in flight. */
  function ScannedPast(): State {
    var s := Saved(Scanning());
    s.(cp := Scan(1, 0, 0), ctxs := [s.ctxs[0].(lists := Pair([], []))])
  }

  /**
   * `mark` clears the old bit before it pushes the old content. A checkpointing thread that enters NVM_Heap_Update
   * in between has no copy of the line: a crash then loses a store of the epoch that the boundary includes.
   */
  lemma LostSave()
    ensures var s, c := ScannedPast(), Crash(E.Word(3, NvmHeapUpdate), HEAP, [], [[]]);
      && Reachable(HEAP, s) && EpochActionEnabled(s, E.StartUpdating) && SaveInFlight(s)
      && CrashOutcome(AfterEpochAction(s, E.StartUpdating), c)
      && Recover(c) == [0] && Snapshot(HEAP, s.hist, Boundary(c.global)) == [1]
  {
    hide Run, Reachable;
    ReachScanning();
    ReachSaving(Scanning());
    FinishScan(Saved(Scanning()), 0, ScannedPast());
    LostSaveOutcome();
  }

  lemma LostSaveOutcome()
    ensures var s, c := ScannedPast(), Crash(E.Word(3, NvmHeapUpdate), HEAP, [], [[]]);
      && EpochActionEnabled(s, E.StartUpdating) && SaveInFlight(s)
      && CrashOutcome(AfterEpochAction(s, E.StartUpdating), c)
      && Recover(c) == [0] && Snapshot(HEAP, s.hist, Boundary(c.global)) == [1]
  {
    var s, c := ScannedPast(), Crash(E.Word(3, NvmHeapUpdate), HEAP, [], [[]]);
    assert IsAt(s, 0, PushOld);
    assert s.hist == [] + [Event(2, 0, 0, 0, 1)];
    NothingToApply(HEAP, c.users);
    assert s.hist[..0] == [];
  }

  /** The checkpointing thread has tested line 0; then the thread saves the line and stores 2 to it. */
  function Overtaken(): State {
    Scanning().(cp := Copy(0, 0, 0),
                ctxs := [Ctx(Pair([Range(0, 1)], [Range(0, 1)]), [Entry(0, 1)], NoMark, {}, 2)],
                bits := Pair(CLEAR, [true]), now := {0}, saver := map[0 := 0], dram := [2],
                hist := [Event(2, 0, 0, 0, 1), Event(3, 0, 1, 0, 2)])
  }

  /** The save that overtakes the copy has been pushed. */
  function Pushed(): State {
    var s := Marking(Saved(Scanning().(cp := Copy(0, 0, 0))), 0, false, SetCurr, {});
    s.(ctxs := [s.ctxs[0].(log := [Entry(0, 1)])], saver := map[0 := 0])
  }

  lemma ReachPushed()
    ensures Reachable(HEAP, Pushed())
  {
    hide Run, Reachable;
    ReachScanning();
    var s0 := Scanning().(cp := Copy(0, 0, 0));
    Extend(HEAP, Scanning(), ScanStep, s0);
    ReachSaving(s0);
    var s1 := Saved(s0);
    assert [] + [Entry(0, 1)] == [Entry(0, 1)] && s1.saver[0 := 0] == map[0 := 0];
    assert s1.ctxs[0 := Pushed().ctxs[0]] == Pushed().ctxs;
    Extend(HEAP, s1, MarkPush(0), Pushed());
  }

  lemma ReachOvertaken()
    ensures Reachable(HEAP, Overtaken())
  {
    hide Run, Reachable;
    ReachPushed();
    var s := Pushed();
    assert [] + [Range(0, 1)] == [Range(0, 1)] && AfterOperation(s.ctxs[0], true) == Overtaken().ctxs[0];
    assert s.hist + [Event(3, 0, 1, 0, 2)] == Overtaken().hist;
    FinishOperation(s, 2, Overtaken());
  }

  /** The end of log persistence after that: the checkpointing thread has logged the new content of the line. */
  function LoggedTwice(): State {
    Overtaken().(cp := Scan(1, 0, 0), master := [Entry(0, 2)],
                 ctxs := [Ctx(Pair([], [Range(0, 1)]), [Entry(0, 1)], NoMark, {}, 2)])
  }

  lemma ReachLoggedTwice()
    ensures Reachable(HEAP, LoggedTwice())
  {
    ReachOvertaken();
    hide Run, Reachable;
    var s0 := Overtaken();
    var s1 := s0.(cp := Clear(0, 0, 0), master := [Entry(0, 2)]);
    assert [] + [Entry(0, 2)] == [Entry(0, 2)];
    Extend(HEAP, s0, CopyLine(2), s1);
    var s2 := s1.(cp := Scan(0, 0, 1));
    assert CLEAR[0 := false] == CLEAR;
    Extend(HEAP, s1, ClearLine, s2);
    FinishScan(s2, 1, LoggedTwice());
  }

  /**
   * The copy race: the bit is tested, the line is saved and overwritten by the new epoch, and its new content is
   * copied. Replaying the master log and then the users' installs the old content; the other order does not.
   */
  lemma ReplayOrderMatters()
    ensures var s := LoggedTwice();
      && Reachable(HEAP, s) && Guarded(s, Ep(E.StartUpdating))
      && var users := [s.ctxs[0].log];
      && ApplyAll(Apply(s.nvm, s.master), users) == Snapshot(HEAP, s.hist, 2) == [1]
      && Apply(ApplyAll(s.nvm, users), s.master) == [2]
  {
    ReachLoggedTwice();
    var s := LoggedTwice();
    var users := [s.ctxs[0].log];
    assert users[..0] == [] && s.master[..0] == [] && users[0][..0] == [];
    assert s.hist[..1] == [Event(2, 0, 0, 0, 1)] && s.hist[..1][..0] == [];
  }

  /** At the end of log persistence a line that nobody is saving is redone to its old value. */
  lemma SettledLine(s: State, l: nat)
    requires Inv(s) && ScanFinished(s) && l < |s.dram| && !Saving(s, l)
    ensures ApplyAll(Apply(s.nvm, s.master), Logs(s))[l] == Old(s, l)
  {
    var v := Old(s, l);
    assert LineInv(s, l) && Captured(s, l) && Sizes(s);
    assert !BitAt(s, Prev(s), l) by { assert !Ahead(s, l); }
    OpenInv(s);
    hide Inv;
    RightLogs(s, l);
    if l in s.saver {
      assert HasLine(Logs(s)[s.saver[l]], l);
    } else {
      forall j | 0 <= j < |s.master| && s.master[j].line == l
        ensures s.master[j].val == v
      {
        assert CopiedInv(s, s.master[j]);
      }
      ApplyAgreed(s.nvm, s.master, l, v);
    }
    ApplyAllAgreed(Apply(s.nvm, s.master), Logs(s), l, v);
  }

  lemma RightLogs(s: State, l: nat)
    requires UserLogsInv(s)
    ensures forall t, j | 0 <= t < |Logs(s)| && 0 <= j < |Logs(s)[t]| && Logs(s)[t][j].line == l ::
              Logs(s)[t][j].val == Old(s, l)
    ensures l !in s.saver ==> forall t | 0 <= t < |Logs(s)| :: !HasLine(Logs(s)[t], l)
  {
    forall t, j | 0 <= t < |Logs(s)| && 0 <= j < |Logs(s)[t]|
      ensures SavedInv(s, t, Logs(s)[t][j])
    {
      assert Logs(s)[t] == s.ctxs[t].log;
    }
  }

  /** A line that is being saved is in no user's log; what redo makes of it is up to the NVM heap and the master log. */
  lemma UnsettledLine(s: State, l: nat)
    requires Inv(s) && l < |s.dram| && Saving(s, l)
    ensures ApplyAll(Apply(s.nvm, s.master), Logs(s))[l] == Apply(s.nvm, s.master)[l]
    ensures Old(s, l) == s.dram[l]
  {
    var t := s.owner[l];
    assert LineInv(s, l) && UserInv(s, t) && UserLogsInv(s) && Sizes(s);
    U.Focus(s, t);
    assert Num(s, t) == Epoch(s);
    U.NotYetSaved(s, t, l);
    hide Inv;
    RightLogs(s, l);
    X.UntouchedAll(Apply(s.nvm, s.master), Logs(s), l);
  }

  /** The master log, or the NVM heap if the line is not in it, holds the content of the line in DRAM. */
  predicate AlreadyCopied(s: State, l: nat) {
    l < |s.nvm| && l < |s.dram| && Apply(s.nvm, s.master)[l] == s.dram[l]
  }

  lemma PhaseChangeOutcome(s: State, c: Crash)
    requires Inv(s) && EpochActionEnabled(s, E.StartUpdating)
    requires CrashOutcome(AfterEpochAction(s, E.StartUpdating), c)
    ensures Recover(c) == ApplyAll(Apply(s.nvm, s.master), Logs(s))
    ensures Boundary(c.global) == Epoch(s) - 1 && |s.nvm| == |s.dram| == |s.boot|
  {
    assert Sizes(s) && s.pending == [];
    hide Inv;
    assert c.heap == s.nvm && c.users == Logs(s) && c.master == s.master;
  }

  lemma RedoneLineExactly(s: State, l: nat)
    requires Inv(s) && ScanFinished(s) && l < |s.dram| == |s.nvm|
    ensures ApplyAll(Apply(s.nvm, s.master), Logs(s))[l] == Old(s, l) <==> (Saving(s, l) ==> AlreadyCopied(s, l))
  {
    hide Inv, Old;
    if Saving(s, l) { UnsettledLine(s, l); } else { SettledLine(s, l); }
  }

  /**
   * A crash at the very moment of the phase change to NVM_Heap_Update recovers the boundary exactly if every line
   * whose old content is being saved has already been copied. The condition compares what a replay would give with
   * what is wanted, and says nothing of crashes later on: `LateSave.SafePhaseChange` does.
   */
  lemma CrashAtPhaseChange(first: E.Begin, heap: seq<Value>, acts: seq<Action>, s: State, c: Crash)
    requires Run(Initial(first, heap), acts, s) && EpochActionEnabled(s, E.StartUpdating)
    requires CrashOutcome(AfterEpochAction(s, E.StartUpdating), c)
    ensures Recover(c) == Snapshot(heap, s.hist, Boundary(c.global)) <==>
            forall l: nat | l < |s.dram| && Saving(s, l) :: AlreadyCopied(s, l)
  {
    InitialInv(first, heap);
    assert Initial(first, heap).boot == heap;
    hide Inv, CrashOutcome, Run, AfterEpochAction, Saving, AlreadyCopied, EpochActionEnabled;
    RunKeepsInv(Initial(first, heap), acts, s);
    PhaseChangeOutcome(s, c);
    var redone := ApplyAll(Apply(s.nvm, s.master), Logs(s));
    assert ScanFinished(s) by { LogPersistenceOver(s); }
    forall l: nat | l < |s.dram|
      ensures redone[l] == Old(s, l) <==> (Saving(s, l) ==> AlreadyCopied(s, l))
    {
      RedoneLineExactly(s, l);
    }
    assert redone == Snap(s, Epoch(s) - 1) <==> forall l: nat | l < |s.dram| :: redone[l] == Old(s, l);
  }

  lemma LogPersistenceOver(s: State)
    requires EpochActionEnabled(s, E.StartUpdating)
    ensures ScanFinished(s)
  {
  }
}

/**
 * How a library comes to rest, from any moment: users finish the lines that they mark, their calls of `mark` and their
 * operations, and the checkpointing thread goes on to the next change of phase. A stale entry in a user's log survives
 * all of it.
 */
module Quiesce {
  import opened EpochPhase
  import opened Redo
  import opened Protocol
  import opened Marking
  import opened MarkRefinement
  import opened Solo
  import opened CrashSafety
  import I = Invariant
  import E = Epochs

  predicate Mid(s: State, u: nat) {
    IsMarking(s, u) && s.ctxs[u].mark.at != Head
  }

  ghost predicate CtxOk(s: State, u: nat) {
    u < |s.ctxs| ==>
      var x := s.ctxs[u];
      && (x.mark.Mark? ==>
            && E.InOperation(s.ep, u)
            && x.mark.range.base + x.mark.range.count <= |s.dram|
            && x.mark.i <= x.mark.range.count
            && (x.mark.at != Head ==> x.mark.i < x.mark.range.count))
      && I.InLines(x.lists.even, |s.dram|) && I.InLines(x.lists.odd, |s.dram|)
  }

  /**
   * What the steps below rely on; the invariant of the protocol need not hold any more. All operations in progress are
   * of the current epoch.
   */
  ghost predicate Base(s: State) {
    && E.Inv(s.ep)
    && (forall u: nat | E.InOperation(s.ep, u) :: Num(s, u) == Epoch(s))
    && |s.ctxs| == |s.ep.threads|
    && Sized(s) && |s.dram| == |s.nvm| == |s.boot|
    && s.pending == []
    && forall u: nat :: CtxOk(s, u)
  }

  /** Only marks in progress can be in the way of an operation of the current epoch. */
  lemma FreeToTouch(s: State, u: nat, l: nat)
    requires Base(s) && E.InOperation(s.ep, u)
    requires forall w: nat | w < |s.ctxs| && w != u :: !Mid(s, w)
    ensures Num(s, u) == Epoch(s) && Curr(s, u) == This(s) && MayTouch(s, u, l)
  {
    forall w | 0 <= w < |s.ctxs| && w != u
      ensures !MidMark(s, w, l)
    {
      assert !Mid(s, w);
    }
  }

  function Rank(at: Spot): nat {
    match at
    case Head => 0
    case SetCurr => 1
    case PushOld => 2
    case ClearPrev => 3
    case TestPrev => 4
  }

  function SpotAction(s: State, u: nat): Action
    requires Mid(s, u)
  {
    match s.ctxs[u].mark.at
    case TestPrev => MarkTestPrev(u)
    case ClearPrev => MarkClearPrev(u)
    case PushOld => MarkPush(u)
    case SetCurr => MarkSet(u)
  }

  /** One more step on a line that has been begun. */
  lemma SpotStep(s: State, u: nat)
    requires Base(s) && Mid(s, u)
    ensures
      var a := SpotAction(s, u);
      && Guarded(s, a)
      && var s' := Next(s, a);
      && OnlyThread(s, u, s') && IsMarking(s', u)
      && Rank(s'.ctxs[u].mark.at) < Rank(s.ctxs[u].mark.at)
  {
    assert CtxOk(s, u);
  }

  lemma SpotSameLine(s: State, u: nat)
    requires Mid(s, u) && Enabled(s, SpotAction(s, u))
    ensures
      var s' := Next(s, SpotAction(s, u));
      IsMarking(s', u) && (s'.ctxs[u].mark.at == Head || MarkLine(s'.ctxs[u].mark) == MarkLine(s.ctxs[u].mark))
  {
    hide E.Parity;
  }

  lemma SpotStepBase(s: State, u: nat)
    requires Base(s) && Mid(s, u) && Enabled(s, SpotAction(s, u))
    ensures Base(Next(s, SpotAction(s, u)))
  {
    var s' := Next(s, SpotAction(s, u));
    assert s'.ep == s.ep;
    hide E.Inv;
    forall w: nat
      ensures CtxOk(s', w)
    {
      assert CtxOk(s, w);
    }
  }

  /** The bits of a line and the lists are as before, and no log has an entry for the line that had none. */
  ghost predicate LineKept(s: State, s': State, l: nat) {
    && |s'.ctxs| == |s.ctxs|
    && (forall p: bool :: BitAt(s', p, l) == BitAt(s, p, l))
    && (forall w: nat | w < |s.ctxs| ::
          s'.ctxs[w].lists == s.ctxs[w].lists && (HasLine(s'.ctxs[w].log, l) ==> HasLine(s.ctxs[w].log, l)))
  }

  lemma LineKeptTwice(s: State, mid: State, s': State, l: nat)
    requires LineKept(s, mid, l) && LineKept(mid, s', l)
    ensures LineKept(s, s', l)
  {
  }

  lemma SpotKeepsLines(s: State, u: nat, l: nat)
    requires Mid(s, u) && Enabled(s, SpotAction(s, u)) && MarkLine(s.ctxs[u].mark) != l
    ensures LineKept(s, Next(s, SpotAction(s, u)), l)
  {
    var s' := Next(s, SpotAction(s, u));
    hide E.Parity;
    forall w: nat | w < |s.ctxs|
      ensures s'.ctxs[w].lists == s.ctxs[w].lists
      ensures HasLine(s'.ctxs[w].log, l) ==> HasLine(s.ctxs[w].log, l)
    {
      if HasLine(s'.ctxs[w].log, l) {
        var j :| 0 <= j < |s'.ctxs[w].log| && s'.ctxs[w].log[j].line == l;
        assert j < |s.ctxs[w].log| && s.ctxs[w].log[j].line == l;
      }
    }
  }

  /** Steps inside the work on one line. */
  predicate IsSpotAction(a: Action) {
    a.MarkTestPrev? || a.MarkClearPrev? || a.MarkPush? || a.MarkSet?
  }

  lemma {:induction false} FinishLine(s: State, u: nat) returns (acts: seq<Action>, s': State)
    requires Base(s) && IsMarking(s, u)
    ensures Run(s, acts, s') && OnlyThread(s, u, s') && Base(s') && IsAt(s', u, Head)
    ensures forall a | a in acts :: IsSpotAction(a)
    ensures forall l: nat | l != MarkLine(s.ctxs[u].mark) :: LineKept(s, s', l)
    ensures s.ctxs[u].mark.at == Head ==> s' == s
    decreases Rank(s.ctxs[u].mark.at)
  {
    if s.ctxs[u].mark.at == Head {
      acts, s' := [], s;
    } else {
      var a := SpotAction(s, u);
      SpotStep(s, u);
      SpotStepBase(s, u);
      var mid := Next(s, a);
      SpotSameLine(s, u);
      forall l: nat | l != MarkLine(s.ctxs[u].mark)
        ensures LineKept(s, mid, l)
      {
        SpotKeepsLines(s, u, l);
      }
      hide Base, Next, Guarded, LineKept;
      var rest;
      rest, s' := FinishLine(mid, u);
      acts := [a] + rest;
      RunCons(s, a, rest, s');
      forall l: nat | l != MarkLine(s.ctxs[u].mark)
        ensures LineKept(s, s', l)
      {
        assert LineKept(s, mid, l);
        if mid.ctxs[u].mark.at != Head {
          assert LineKept(mid, s', l);
          LineKeptTwice(s, mid, s', l);
        }
      }
    }
  }

  /** The contexts of all threads but `t` may differ, and the bitmaps. */
  ghost predicate OnlyOthers(s: State, t: nat, s': State) {
    && |s'.ctxs| == |s.ctxs| && (t < |s.ctxs| ==> s'.ctxs[t] == s.ctxs[t])
    && s'.ep == s.ep && s'.dram == s.dram && s'.nvm == s.nvm && s'.pending == s.pending
    && s'.master == s.master && s'.cp == s.cp && s'.hist == s.hist && s'.boot == s.boot
  }

  /** The first `n` threads, except `t`, finish the line that they are at. */
  lemma {:induction false} FinishOtherLines(s: State, t: nat, n: nat) returns (acts: seq<Action>, s': State)
    requires Base(s) && n <= |s.ctxs|
    ensures Run(s, acts, s') && OnlyOthers(s, t, s') && Base(s')
    ensures forall u: nat | u < n && u != t :: !Mid(s', u)
    ensures forall u: nat | n <= u < |s.ctxs| :: s'.ctxs[u] == s.ctxs[u]
    ensures forall a | a in acts :: IsSpotAction(a)
    ensures forall l: nat | forall u: nat | u < |s.ctxs| && u != t :: !MidMark(s, u, l) :: LineKept(s, s', l)
  {
    if n == 0 {
      acts, s' := [], s;
    } else {
      hide Base, Run, LineKept;
      var mid;
      acts, mid := FinishOtherLines(s, t, n - 1);
      s' := mid;
      if n - 1 != t && IsMarking(mid, n - 1) {
        var more;
        more, s' := FinishLine(mid, n - 1);
        RunConcat(s, acts, mid, more, s');
        acts := acts + more;
        assert !Mid(s', n - 1);
        assert mid.ctxs[n - 1] == s.ctxs[n - 1];
        forall l: nat | forall u: nat | u < |s.ctxs| && u != t :: !MidMark(s, u, l)
          ensures LineKept(s, s', l)
        {
          assert LineKept(s, mid, l) && !MidMark(s, n - 1, l);
          if mid.ctxs[n - 1].mark.at != Head {
            assert l != MarkLine(mid.ctxs[n - 1].mark) && LineKept(mid, s', l);
            LineKeptTwice(s, mid, s', l);
          }
        }
      }
      forall u: nat | u < n && u != t
        ensures !Mid(s', u)
      {
        if u < n - 1 { assert !Mid(mid, u) && s'.ctxs[u] == mid.ctxs[u]; }
      }
    }
  }

  /** The users' logs have entries for line `l`, and all of them carry `was`. */
  ghost predicate Stale(s: State, l: nat, was: Value) {
    && (exists u :: 0 <= u < |s.ctxs| && HasLine(s.ctxs[u].log, l))
    && (forall u, j | 0 <= u < |s.ctxs| && 0 <= j < |s.ctxs[u].log| && s.ctxs[u].log[j].line == l ::
          s.ctxs[u].log[j].val == was)
  }

  /** Nobody is in the middle of a line, line `l` is marked and a user's log has an entry for it. */
  ghost predicate Bait(s: State, l: nat, was: Value) {
    && Base(s)
    && (forall u: nat | u < |s.ctxs| :: !Mid(s, u))
    && l < |s.dram| && BitAt(s, This(s), l)
    && Stale(s, l, was)
  }

  lemma OnlyEntry(s: State, t: nat, l: nat, was: Value)
    requires t < |s.ctxs| && s.ctxs[t].log == [Entry(l, was)]
    requires forall u: nat | u < |s.ctxs| && u != t :: s.ctxs[u].log == []
    ensures Stale(s, l, was)
  {
    assert s.ctxs[t].log[0].line == l;
    assert HasLine(s.ctxs[t].log, l);
  }

  /** Steps of thread `u` inside `mark` that leave the bait where it is. */
  ghost predicate Onward(s: State, u: nat, s': State, l: nat, was: Value) {
    && OnlyThread(s, u, s') && Bait(s', l, was) && s.ctxs[u].marked <= s'.ctxs[u].marked
  }

  lemma LineKeepsStale(s: State, u: nat, s': State, l: nat, was: Value)
    requires Base(s) && LineDone(s, u, s') && l < |s.dram| && Curr(s, u) == This(s)
    requires BitAt(s, This(s), l) && Stale(s, l, was)
    ensures BitAt(s', This(s'), l) && Stale(s', l, was)
  {
    var l0 := MarkLine(s.ctxs[u].mark);
    var log, log' := s.ctxs[u].log, s'.ctxs[u].log;
    assert log <= log' && forall j | |log| <= j < |log'| :: log'[j].line != l;
    var w :| 0 <= w < |s.ctxs| && HasLine(s.ctxs[w].log, l);
    var j :| 0 <= j < |s.ctxs[w].log| && s.ctxs[w].log[j].line == l;
    assert s'.ctxs[w].log[j].line == l;
    assert HasLine(s'.ctxs[w].log, l);
    forall v, k | 0 <= v < |s'.ctxs| && 0 <= k < |s'.ctxs[v].log| && s'.ctxs[v].log[k].line == l
      ensures s'.ctxs[v].log[k].val == was
    {
      assert s'.ctxs[v].log[k] == s.ctxs[v].log[k];
    }
  }

  lemma LineKeepsBase(s: State, u: nat, s': State)
    requires Base(s) && LineDone(s, u, s') && s.ctxs[u].mark.i < s.ctxs[u].mark.range.count
    ensures Base(s')
  {
    hide E.Inv;
    forall w: nat
      ensures CtxOk(s', w)
    {
      assert CtxOk(s, w);
    }
  }

  lemma OneLineOn(s: State, u: nat, l: nat, was: Value) returns (acts: seq<Action>, s': State)
    requires Bait(s, l, was) && IsMarking(s, u) && s.ctxs[u].mark.i < s.ctxs[u].mark.range.count
    ensures Run(s, acts, s') && Onward(s, u, s', l, was) && IsMarking(s', u)
    ensures s'.ctxs[u].mark.range == s.ctxs[u].mark.range && s'.ctxs[u].mark.i == s.ctxs[u].mark.i + 1
  {
    assert CtxOk(s, u) && !Mid(s, u);
    FreeToTouch(s, u, MarkLine(s.ctxs[u].mark));
    hide E.Inv, Run;
    acts, s' := LineSteps(s, u);
    LineKeepsStale(s, u, s', l, was);
    LineKeepsBase(s, u, s');
    forall w: nat | w < |s'.ctxs|
      ensures !Mid(s', w)
    {
      if w != u { assert !Mid(s, w) && s'.ctxs[w] == s.ctxs[w]; }
    }
  }

  lemma SameLogs(s: State, s': State, l: nat, was: Value)
    requires Stale(s, l, was) && |s'.ctxs| == |s.ctxs|
    requires forall w | 0 <= w < |s.ctxs| :: s'.ctxs[w].log == s.ctxs[w].log
    ensures Stale(s', l, was)
  {
    var w :| 0 <= w < |s.ctxs| && HasLine(s.ctxs[w].log, l);
    assert HasLine(s'.ctxs[w].log, l);
  }

  lemma ReturnOn(s: State, u: nat, l: nat, was: Value) returns (s': State)
    requires Bait(s, l, was) && IsMarking(s, u) && s.ctxs[u].mark.i >= s.ctxs[u].mark.range.count
    ensures Guarded(s, MarkReturn(u)) && s' == Next(s, MarkReturn(u))
    ensures Onward(s, u, s', l, was) && s'.ctxs[u].mark == NoMark
  {
    assert !Mid(s, u);
    s' := Next(s, MarkReturn(u));
    SameLogs(s, s', l, was);
    hide E.Inv;
    forall w: nat
      ensures CtxOk(s', w)
    {
      assert CtxOk(s, w) && CtxOk(s, u);
    }
    forall w: nat | w < |s'.ctxs|
      ensures !Mid(s', w)
    {
      if w != u { assert !Mid(s, w) && s'.ctxs[w] == s.ctxs[w]; }
    }
  }

  /** Thread `u` finishes its call of `mark`, if it is in one. */
  lemma {:induction false} FinishMark(s: State, u: nat, l: nat, was: Value) returns (acts: seq<Action>, s': State)
    requires Bait(s, l, was) && u < |s.ctxs|
    ensures Run(s, acts, s') && Onward(s, u, s', l, was) && s'.ctxs[u].mark == NoMark
    decreases if s.ctxs[u].mark.Mark? then s.ctxs[u].mark.range.count - s.ctxs[u].mark.i else -1
  {
    hide Bait;
    if s.ctxs[u].mark == NoMark {
      acts, s' := [], s;
    } else if s.ctxs[u].mark.i >= s.ctxs[u].mark.range.count {
      s' := ReturnOn(s, u, l, was);
      acts := [MarkReturn(u)] + [];
      RunCons(s, MarkReturn(u), [], s');
    } else {
      var mid, more;
      acts, mid := OneLineOn(s, u, l, was);
      more, s' := FinishMark(mid, u, l, was);
      RunConcat(s, acts, mid, more, s');
      acts := acts + more;
    }
  }

  /** The next step of a thread on its way out of begin_op or out of its operation. */
  function LeaveAction(s: State, u: nat): E.Action
    requires u < |s.ep.threads| && s.ep.threads[u].pc != E.Idle
  {
    match s.ep.threads[u].pc
    case Retry => E.Load(u)
    case Loaded(_) => E.Store(u)
    case Stored => E.Check(u)
    case InOp => E.End(u)
  }

  /** How many such steps there are at most. */
  function Distance(s: State, u: nat): nat
    requires u < |s.ep.threads|
  {
    var th := s.ep.threads[u];
    match th.pc
    case Idle => 0
    case InOp => 1
    case Stored => if th.epoch == s.ep.global then 2 else 5
    case Loaded(seen) => if seen == s.ep.global then 3 else 6
    case Retry => 4
  }

  /** Threads come and go and marks end, and nothing else changes but bitmaps. */
  ghost predicate SamePlace(s: State, s': State) {
    && s'.ep.global == s.ep.global && s'.ep.stage == s.ep.stage && s'.ep.right == s.ep.right
    && s'.cp == s.cp && s'.dram == s.dram && s'.nvm == s.nvm && s'.pending == s.pending
    && s'.master == s.master && s'.hist == s.hist && s'.boot == s.boot && |s'.ctxs| == |s.ctxs|
  }

  ghost predicate OnlyLeaves(s: State, u: nat, s': State) {
    && SamePlace(s, s') && |s'.ep.threads| == |s.ep.threads| && |s'.ctxs| == |s.ctxs|
    && (forall w: nat | w < |s.ctxs| && w != u :: s'.ctxs[w] == s.ctxs[w])
    && (forall w: nat | w < |s.ep.threads| && w != u :: s'.ep.threads[w] == s.ep.threads[w])
  }

  lemma LeaveStep(s: State, u: nat, l: nat, was: Value) returns (s': State)
    requires Bait(s, l, was) && u < |s.ctxs| && s.ctxs[u].mark == NoMark && s.ep.threads[u].pc != E.Idle
    ensures
      var a := Ep(LeaveAction(s, u));
      Guarded(s, a) && s' == Next(s, a)
    ensures Bait(s', l, was) && OnlyLeaves(s, u, s') && s'.ctxs[u].mark == NoMark && Distance(s', u) < Distance(s, u)
  {
    var a := LeaveAction(s, u);
    E.InvStep(s.ep, a);
    s' := Next(s, Ep(a));
    SameLogs(s, s', l, was);
    hide E.Inv;
    forall w: nat | E.InOperation(s'.ep, w)
      ensures Num(s', w) == Epoch(s')
    {
      if w != u || a.End? { assert E.InOperation(s.ep, w); }
    }
    forall w: nat
      ensures CtxOk(s', w) && (w < |s'.ctxs| ==> !Mid(s', w))
    {
      assert CtxOk(s, w) && (w < |s.ctxs| ==> !Mid(s, w));
    }
  }

  lemma {:induction false} Leave(s: State, u: nat, l: nat, was: Value) returns (acts: seq<Action>, s': State)
    requires Bait(s, l, was) && u < |s.ctxs| == |s.ep.threads| && s.ctxs[u].mark == NoMark
    ensures Run(s, acts, s') && Bait(s', l, was) && OnlyLeaves(s, u, s')
    ensures s'.ctxs[u].mark == NoMark && s'.ep.threads[u].pc == E.Idle
    decreases Distance(s, u)
  {
    if s.ep.threads[u].pc == E.Idle {
      acts, s' := [], s;
    } else {
      hide Bait;
      var mid := LeaveStep(s, u, l, was);
      var rest;
      rest, s' := Leave(mid, u, l, was);
      acts := [Ep(LeaveAction(s, u))] + rest;
      RunCons(s, Ep(LeaveAction(s, u)), rest, s');
    }
  }

  /** Thread `u` finishes its call of `mark` and then its operation. */
  lemma Retire(s: State, u: nat, l: nat, was: Value) returns (acts: seq<Action>, s': State)
    requires Bait(s, l, was) && u < |s.ctxs|
    ensures Run(s, acts, s') && Bait(s', l, was) && OnlyLeaves(s, u, s')
    ensures s'.ctxs[u].mark == NoMark && s'.ep.threads[u].pc == E.Idle
  {
    hide Run;
    var mid, more;
    acts, mid := FinishMark(s, u, l, was);
    hide Bait;
    more, s' := Leave(mid, u, l, was);
    RunConcat(s, acts, mid, more, s');
    acts := acts + more;
  }

  /** The first `n` threads are outside operations. */
  lemma {:induction false} RetireAll(s: State, n: nat, l: nat, was: Value) returns (acts: seq<Action>, s': State)
    requires Bait(s, l, was) && n <= |s.ctxs|
    ensures Run(s, acts, s') && Bait(s', l, was) && SamePlace(s, s') && |s'.ep.threads| == |s'.ctxs|
    ensures forall u: nat | u < n :: s'.ctxs[u].mark == NoMark && s'.ep.threads[u].pc == E.Idle
  {
    if n == 0 {
      acts, s' := [], s;
    } else {
      var mid, more;
      acts, mid := RetireAll(s, n - 1, l, was);
      hide Run, Bait;
      more, s' := Retire(mid, n - 1, l, was);
      RunConcat(s, acts, mid, more, s');
      acts := acts + more;
    }
  }

  /** Everybody is outside. */
  ghost predicate Quiet(s: State) {
    |s.ctxs| == |s.ep.threads| &&
    forall u: nat | u < |s.ctxs| :: s.ctxs[u].mark == NoMark && s.ep.threads[u].pc == E.Idle
  }

  function CrashNow(s: State): Crash {
    Crash(s.ep.global, s.nvm, s.master, Logs(s))
  }

  lemma StaleWins(s: State, l: nat, was: Value, c: Crash)
    requires Stale(s, l, was) && c == CrashNow(s) && l < |s.nvm| && s.ep.global.phase == NvmHeapUpdate
    ensures l < |Recover(c)| && Recover(c)[l] == was
  {
    ApplyAllAgreed(Apply(c.heap, c.master), c.users, l, was);
  }

  lemma {:induction false} BootKept(s: State, acts: seq<Action>, s': State)
    requires Run(s, acts, s')
    ensures s'.boot == s.boot
    decreases |acts|
  {
    if acts != [] {
      StepHistory(s, acts[0]);
      hide Next;
      BootKept(Next(s, acts[0]), acts[1..], s');
    }
  }

  /** The checkpointing thread is somewhere in its loop over dirty lines. */
  ghost predicate InScan(s: State) {
    && I.ScanPc(s)
    && (s.cp.Copy? || s.cp.Clear? ==>
          ScanInRange(s, s.cp.c, s.cp.k) && s.cp.i < ScanRange(s, s.cp.c, s.cp.k).count)
  }

  /** The old bitmap, the master log and the lists of the previous parity may differ, and where the loop is. */
  ghost predicate ScanGoesOn(s: State, s': State) {
    && s' == s.(bits := s'.bits, master := s'.master, cp := s'.cp, ctxs := s'.ctxs)
    && s'.bits.At(!Prev(s)) == s.bits.At(!Prev(s))
    && |s'.ctxs| == |s.ctxs|
    && forall c | 0 <= c < |s.ctxs| :: s'.ctxs[c] == s.ctxs[c].(lists := s'.ctxs[c].lists)
  }

  lemma ScanGoesOnTwice(s: State, mid: State, s': State)
    requires ScanGoesOn(s, mid) && ScanGoesOn(mid, s')
    ensures ScanGoesOn(s, s')
  {
    assert Prev(mid) == Prev(s);
    hide E.Parity;
    forall c | 0 <= c < |s.ctxs|
      ensures s'.ctxs[c] == s.ctxs[c].(lists := s'.ctxs[c].lists)
    {
      assert mid.ctxs[c] == s.ctxs[c].(lists := mid.ctxs[c].lists);
    }
  }

  function ScanAction(s: State): Action {
    if s.cp.Copy? && ScanInRange(s, s.cp.c, s.cp.k) then
      var l := ScanRange(s, s.cp.c, s.cp.k).base + s.cp.i;
      CopyLine(if l < |s.dram| then s.dram[l] else 0)
    else if s.cp.Clear? then ClearLine
    else ScanStep
  }

  /** How far the loop has come: contexts, ranges and lines to go, and the steps of one line. */
  function ToGo(s: State): (int, int, int, int) {
    if s.cp.Scan? || s.cp.Copy? || s.cp.Clear? then
      var c, k, i := s.cp.c, s.cp.k, s.cp.i;
      (|s.ctxs| - c,
       if c < |s.ctxs| then |s.ctxs[c].lists.At(Prev(s))| - k else 0,
       if ScanInRange(s, c, k) then ScanRange(s, c, k).count - i else 0,
       if s.cp.Scan? then 2 else if s.cp.Copy? then 1 else 0)
    else (0, 0, 0, 0)
  }

  ghost predicate Sooner(a: (int, int, int, int), b: (int, int, int, int)) {
    || (a.0 < b.0 && 0 < b.0)
    || (a.0 == b.0 && a.1 < b.1 && 0 < b.1)
    || (a.0 == b.0 && a.1 == b.1 && a.2 < b.2 && 0 < b.2)
    || (a.0 == b.0 && a.1 == b.1 && a.2 == b.2 && a.3 < b.3 && 0 < b.3)
  }

  lemma ScanOn(s: State) returns (s': State)
    requires Base(s) && InScan(s) && !ScanFinished(s)
    ensures Guarded(s, ScanAction(s)) && s' == Next(s, ScanAction(s))
    ensures ScanGoesOn(s, s') && InScan(s') && Sooner(ToGo(s'), ToGo(s))
  {
    hide E.Parity, E.Inv;
    if s.cp.c < |s.ctxs| { assert CtxOk(s, s.cp.c); }
    s' := Next(s, ScanAction(s));
  }

  lemma ScanOnBase(s: State, s': State)
    requires Base(s) && ScanGoesOn(s, s') && Sized(s')
    requires forall c: nat | c < |s.ctxs| ::
               (s'.ctxs[c].lists.even == s.ctxs[c].lists.even || s'.ctxs[c].lists.even == []) &&
               (s'.ctxs[c].lists.odd == s.ctxs[c].lists.odd || s'.ctxs[c].lists.odd == [])
    ensures Base(s')
  {
    hide E.Inv;
    forall u: nat
      ensures CtxOk(s', u)
    {
      assert CtxOk(s, u);
    }
    forall u: nat | E.InOperation(s'.ep, u)
      ensures Num(s', u) == Epoch(s')
    {
      assert E.InOperation(s.ep, u);
    }
  }

  lemma ScanOnLists(s: State)
    requires Enabled(s, ScanAction(s)) && Sized(s)
    ensures
      var s' := Next(s, ScanAction(s));
      && Sized(s') && |s'.ctxs| == |s.ctxs|
      && forall c: nat | c < |s.ctxs| ::
           (s'.ctxs[c].lists.even == s.ctxs[c].lists.even || s'.ctxs[c].lists.even == []) &&
           (s'.ctxs[c].lists.odd == s.ctxs[c].lists.odd || s'.ctxs[c].lists.odd == [])
  {
    hide E.Parity;
  }

  /** The loop comes to its end, wherever it is. */
  lemma {:induction false} ScanToEnd(s: State) returns (acts: seq<Action>, s': State)
    requires Base(s) && InScan(s)
    ensures Run(s, acts, s') && ScanGoesOn(s, s') && ScanFinished(s') && Base(s')
    decreases ToGo(s).0, ToGo(s).1, ToGo(s).2, ToGo(s).3
  {
    if ScanFinished(s) {
      acts, s' := [], s;
    } else {
      var mid := ScanOn(s);
      ScanOnLists(s);
      ScanOnBase(s, mid);
      hide Base, ScanGoesOn, InScan, ToGo, ScanAction, Next, Guarded;
      var rest;
      rest, s' := ScanToEnd(mid);
      ScanGoesOnTwice(s, mid, s');
      acts := [ScanAction(s)] + rest;
      RunCons(s, ScanAction(s), rest, s');
    }
  }

  /** The rest of the wait, with everybody outside, and the change to Log_Persistence. */
  lemma {:induction false} WaitToEnd(s: State) returns (acts: seq<Action>, s': State)
    requires Base(s) && Quiet(s) && s.ep.stage.Waiting? && s.cp == Rest
    ensures Run(s, acts, s')
    ensures s' == s.(ep := s.ep.(global := E.Word(Epoch(s), LogPersistence), stage := E.Logging), cp := Scan(0, 0, 0))
    decreases |s.ctxs| - s.ep.stage.next
  {
    var n := s.ep.stage.next;
    if n >= |s.ctxs| {
      s' := Next(s, Ep(E.StartLogging));
      RunCons(s, Ep(E.StartLogging), [], s');
      acts := [Ep(E.StartLogging)] + [];
    } else {
      assert s.ctxs[n].mark == NoMark && E.ThreadInv(s.ep, n);
      var mid := s.(ep := s.ep.(stage := E.Waiting(n + 1)));
      E.InvStep(s.ep, E.PassContext);
      assert mid == Next(s, Ep(E.PassContext));
      assert Base(mid) by {
        forall u: nat
          ensures CtxOk(mid, u)
        {
          assert CtxOk(s, u);
        }
        assert forall u: nat | E.InOperation(mid.ep, u) :: E.InOperation(s.ep, u);
      }
      assert Quiet(mid);
      hide Base, Quiet;
      var rest;
      rest, s' := WaitToEnd(mid);
      RunCons(s, Ep(E.PassContext), rest, s');
      acts := [Ep(E.PassContext)] + rest;
    }
  }

  lemma LoggingBase(s: State, s': State)
    requires Base(s) && Quiet(s) && s.ep.stage.Waiting?
    requires s' == s.(ep := s.ep.(global := E.Word(Epoch(s), LogPersistence), stage := E.Logging), cp := Scan(0, 0, 0))
    ensures Base(s') && InScan(s')
  {
    forall t | 0 <= t < |s'.ep.threads|
      ensures E.ThreadInv(s'.ep, t)
    {
      assert s.ctxs[t].mark == NoMark && E.ThreadInv(s.ep, t);
    }
    forall u: nat
      ensures CtxOk(s', u)
    {
      assert CtxOk(s, u);
    }
    assert forall u: nat | u < |s.ctxs| :: s.ctxs[u].mark == NoMark && !E.InOperation(s'.ep, u);
  }

  /** What the next change of phase finds: both heaps, the history and the users' logs as they were. */
  ghost predicate AtUpdate(s: State, s': State) {
    && s'.ep.stage.Updating? && s'.ep.global == E.Word(Epoch(s), NvmHeapUpdate) && s'.cp == ReplayMaster(0)
    && s'.nvm == s.nvm && s'.pending == [] && s'.hist == s.hist && s'.boot == s.boot
    && |s'.ctxs| == |s.ctxs| && forall w | 0 <= w < |s.ctxs| :: s'.ctxs[w].log == s.ctxs[w].log
  }

  lemma ScanToUpdate(s: State) returns (acts: seq<Action>, s': State)
    requires Base(s) && Quiet(s) && s.ep.stage.Logging? && InScan(s)
    ensures Run(s, acts, s') && AtUpdate(s, s')
  {
    var mid;
    acts, mid := ScanToEnd(s);
    assert !SaveInFlight(mid) by {
      forall t | 0 <= t < |mid.ctxs|
        ensures !IsAt(mid, t, ClearPrev) && !IsAt(mid, t, PushOld)
      {
        assert s.ctxs[t].mark == NoMark && mid.ctxs[t].mark == s.ctxs[t].mark;
      }
    }
    s' := Next(mid, Ep(E.StartUpdating));
    RunCons(mid, Ep(E.StartUpdating), [], s');
    RunConcat(s, acts, mid, [Ep(E.StartUpdating)] + [], s');
    acts := acts + ([Ep(E.StartUpdating)] + []);
    hide Run, E.Inv;
    assert forall w | 0 <= w < |s.ctxs| :: mid.ctxs[w].log == s.ctxs[w].log;
  }

  /** With everybody outside, the checkpoint goes on to the change to NVM_Heap_Update. */
  lemma ToUpdate(s: State) returns (acts: seq<Action>, s': State)
    requires Base(s) && Quiet(s)
    requires (s.ep.stage.Waiting? && s.cp == Rest) || (s.ep.stage.Logging? && InScan(s))
    ensures Run(s, acts, s') && AtUpdate(s, s')
  {
    if s.ep.stage.Waiting? {
      var mid, more;
      acts, mid := WaitToEnd(s);
      LoggingBase(s, mid);
      assert Quiet(mid);
      hide Base, Quiet, Run, InScan;
      more, s' := ScanToUpdate(mid);
      RunConcat(s, acts, mid, more, s');
      acts := acts + more;
    } else {
      acts, s' := ScanToUpdate(s);
    }
  }
}

/**
 * The allocation logs and the DRAM byte maps over whole runs: who uses which of the two of each at what time, that the
 * check of a checkpoint sees exactly the operations of the previous epoch, and that they come back clean.
 */
module Ledgers {
  import opened EpochPhase
  import opened AllocationLog
  import P = Protocol
  import E = Epochs

  /** A malloc or free, with the epoch of the operation that it is part of. */
  datatype Stamped = Stamped(epoch: nat, op: Operation)

  /** The context that the check, or the clearing of the allocation logs, has come to. */
  datatype Pc = Off | Checking(c: nat) | Clearing(c: nat)

  /** For each parity a byte map and the logs of all threads. History: all mallocs and frees. */
  datatype State = State(ep: E.State, lines: nat, ledgers: P.Pair<Ledger>, pc: Pc, ops: seq<Stamped>)

  /** `Touch` is a malloc or a free of the object whose first line is `index`. */
  datatype Action = Ep(a: E.Action) | Touch(t: nat, index: nat, size: nat) | CheckStep | ClearStep

  function Epoch(s: State): nat {
    s.ep.global.num
  }

  function Num(s: State, t: nat): nat {
    if t < |s.ep.threads| then s.ep.threads[t].epoch.num else 0
  }

  function This(s: State): bool {
    E.Parity(Epoch(s))
  }

  function Prev(s: State): bool {
    E.Parity(Epoch(s) - 1)
  }

  function Threads(s: State): nat {
    |s.ep.threads|
  }

  ghost predicate Enabled(s: State, a: Action) {
    match a
    case Ep(ea) =>
      && E.Enabled(s.ep, ea)
      && (ea == E.StartUpdating ==> s.pc.Checking? && s.pc.c >= Threads(s))
      && (ea == E.CheckpointerReleases ==> s.pc.Clearing? && s.pc.c >= Threads(s))
    case Touch(t, index, size) =>
      var p := E.Parity(Num(s, t));
      E.InOperation(s.ep, t) && index < s.lines && Known(s.ledgers.At(p), Operation(t, index, size))
    case CheckStep =>
      var l := s.ledgers.At(Prev(s));
      s.pc.Checking? && s.pc.c < Threads(s) && s.pc.c < |l.logs| && InHeap(l)
    case ClearStep => s.pc.Clearing? && s.pc.c < Threads(s) && s.pc.c < |s.ledgers.At(Prev(s)).logs|
  }

  /** A registered thread gets an empty log of either parity. */
  function AddLog(l: Ledger): Ledger {
    l.(logs := l.logs + [[]])
  }

  ghost function AfterEpochStep(s: State, a: E.Action): State
    requires Enabled(s, Ep(a))
  {
    var s1 := s.(ep := E.Next(s.ep, a));
    match a
    case Register => s1.(ledgers := P.Pair(AddLog(s.ledgers.even), AddLog(s.ledgers.odd)))
    case StartLogging => s1.(pc := Checking(0))
    case Finalize => s1.(pc := Checking(0))
    case StartUpdating => s1.(pc := Clearing(0))
    case CheckpointerReleases => s1.(pc := Off)
    case _ => s1
  }

  ghost function Next(s: State, a: Action): State
    requires Enabled(s, a)
  {
    match a
    case Ep(ea) => AfterEpochStep(s, ea)
    case Touch(t, index, size) =>
      var p, op := E.Parity(Num(s, t)), Operation(t, index, size);
      s.(ledgers := s.ledgers.With(p, Record(s.ledgers.At(p), op)), ops := s.ops + [Stamped(Num(s, t), op)])
    case CheckStep =>
      var l, c := s.ledgers.At(Prev(s)), s.pc.c;
      var (bytes, log) := CheckLog(l.bytes, l.logs[c]);
      s.(ledgers := s.ledgers.With(Prev(s), Ledger(bytes, l.logs[c := log])), pc := Checking(c + 1))
    case ClearStep =>
      var l, c := s.ledgers.At(Prev(s)), s.pc.c;
      s.(ledgers := s.ledgers.With(Prev(s), l.(logs := l.logs[c := []])), pc := Clearing(c + 1))
  }

  function Blank(lines: nat, threads: nat): Ledger {
    RecordAll(lines, threads, [])
  }

  function Initial(first: E.Begin, lines: nat): State {
    State(E.Start(first), lines, P.Pair(Blank(lines, 0), Blank(lines, 0)), Off, [])
  }

  /** The operations of one epoch, in order. */
  function OpsOf(ops: seq<Stamped>, e: int): seq<Operation> {
    if ops == [] then []
    else
      var front := OpsOf(ops[..|ops| - 1], e);
      if ops[|ops| - 1].epoch == e then front + [ops[|ops| - 1].op] else front
  }

  ghost predicate OpsInv(s: State) {
    forall x | x in s.ops :: x.op.thread < Threads(s) && x.op.index < s.lines && x.epoch <= Epoch(s)
  }

  lemma {:induction false} OpsOfInRange(ops: seq<Stamped>, e: int)
    ensures forall op | op in OpsOf(ops, e) :: exists x :: x in ops && x.op == op && x.epoch == e
  {
    if ops != [] {
      var n := |ops| - 1;
      OpsOfInRange(ops[..n], e);
      forall op | op in OpsOf(ops, e)
        ensures exists x :: x in ops && x.op == op && x.epoch == e
      {
        if op in OpsOf(ops[..n], e) {
          var x :| x in ops[..n] && x.op == op && x.epoch == e;
          assert x in ops;
        } else {
          assert ops[n] in ops;
        }
      }
    }
  }

  /** What the operations of epoch `e` by themselves make of an empty ledger. */
  ghost function Recorded(s: State, e: int): (l: Ledger)
    requires OpsInv(s)
    ensures |l.bytes| == s.lines && |l.logs| == Threads(s)
  {
    OpsOfInRange(s.ops, e);
    RecordAll(s.lines, Threads(s), OpsOf(s.ops, e))
  }

  lemma RecordedFresh(s: State, e: int)
    requires OpsInv(s)
    ensures Fresh(Recorded(s, e).logs, s.lines) && InHeap(Recorded(s, e))
  {
    OpsOfInRange(s.ops, e);
    EntriesAreFresh(s.lines, Threads(s), OpsOf(s.ops, e));
  }

  /** The ledger when the first `c` logs have been checked, and when they have been cleared. */
  ghost function Checked(l: Ledger, c: nat): Ledger
    requires c <= |l.logs| && InHeap(l)
  {
    Ledger(CheckFirst(l, c).bytes, CheckFirst(l, c).logs + l.logs[c..])
  }

  function Cleared(l: Ledger, c: nat): Ledger
    requires c <= |l.logs|
  {
    l.(logs := seq(c, _ => []) + l.logs[c..])
  }

  ghost predicate PrevInv(s: State)
    requires OpsInv(s)
  {
    var l, was := s.ledgers.At(Prev(s)), Recorded(s, Epoch(s) - 1);
    match s.ep.stage
    case Waiting(_) => s.pc == Off && l == was
    case Logging => s.pc.Checking? && s.pc.c <= Threads(s) && InHeap(was) && l == Checked(was, s.pc.c)
    case Updating => s.pc.Clearing? && s.pc.c <= Threads(s) && InHeap(was) && l == Cleared(CheckLogs(was), s.pc.c)
    case Resting => s.pc == Off && l == Blank(s.lines, Threads(s))
  }

  ghost predicate Inv(s: State) {
    && E.Inv(s.ep)
    && OpsInv(s)
    && s.ledgers.At(This(s)) == Recorded(s, Epoch(s))
    && PrevInv(s)
  }

  /** What the invariant says while the check runs, and while the logs are being cleared. */
  lemma OpenChecking(s: State)
    requires Inv(s) && s.pc.Checking?
    ensures E.Inv(s.ep) && s.ep.stage.Logging? && OpsInv(s) && s.pc.c <= Threads(s)
    ensures
      var was := Recorded(s, Epoch(s) - 1);
      InHeap(was) && s.ledgers.At(Prev(s)) == Checked(was, s.pc.c) && s.ledgers.At(This(s)) == Recorded(s, Epoch(s))
  {
    hide E.Parity, E.Inv, Recorded, OpsInv;
  }

  lemma OpenClearing(s: State)
    requires Inv(s) && s.pc.Clearing?
    ensures E.Inv(s.ep) && s.ep.stage.Updating? && OpsInv(s) && s.pc.c <= Threads(s)
    ensures
      var was := Recorded(s, Epoch(s) - 1);
      && InHeap(was) && s.ledgers.At(Prev(s)) == Cleared(CheckLogs(was), s.pc.c)
      && s.ledgers.At(This(s)) == Recorded(s, Epoch(s))
  {
    hide E.Parity, E.Inv, Recorded, OpsInv;
  }

  lemma CloseClearing(s: State)
    requires E.Inv(s.ep) && OpsInv(s) && s.ledgers.At(This(s)) == Recorded(s, Epoch(s))
    requires s.ep.stage.Updating? && s.pc.Clearing? && s.pc.c <= Threads(s)
    requires
      var was := Recorded(s, Epoch(s) - 1);
      InHeap(was) && s.ledgers.At(Prev(s)) == Cleared(CheckLogs(was), s.pc.c)
    ensures Inv(s)
  {
    hide E.Parity, E.Inv, Recorded, OpsInv;
  }

  /** Only the phase and the program counter change. */
  ghost predicate PhaseStep(s: State, a: E.Action, s': State) {
    && E.Enabled(s.ep, a) && s'.ep == E.Next(s.ep, a) && s'.ep.global.num == s.ep.global.num && Threads(s') == Threads(s)
    && s'.ledgers == s.ledgers && s'.ops == s.ops && s'.lines == s.lines
  }

  lemma PhaseStepFacts(s: State, a: E.Action)
    requires a == E.StartLogging || a == E.StartUpdating || a == E.CheckpointerReleases
    requires Enabled(s, Ep(a))
    ensures PhaseStep(s, a, AfterEpochStep(s, a))
  {
  }

  lemma Parities(s: State)
    requires E.Inv(s.ep)
    ensures Prev(s) == !This(s)
    ensures E.Parity(Epoch(s) + 1) == Prev(s)
  {
  }

  lemma {:induction false} NoOpsYet(ops: seq<Stamped>, e: int)
    requires forall x | x in ops :: x.epoch < e
    ensures OpsOf(ops, e) == []
  {
    if ops != [] {
      assert ops[|ops| - 1] in ops;
      NoOpsYet(ops[..|ops| - 1], e);
    }
  }

  lemma {:induction false} RecordOneThreadMore(lines: nat, threads: nat, ops: seq<Operation>)
    requires forall op | op in ops :: op.thread < threads && op.index < lines
    ensures RecordAll(lines, threads + 1, ops) == AddLog(RecordAll(lines, threads, ops))
  {
    if ops == [] {
      assert RecordAll(lines, threads + 1, []).logs == RecordAll(lines, threads, []).logs + [[]];
    } else {
      assert ops[|ops| - 1] in ops;
      RecordOneThreadMore(lines, threads, ops[..|ops| - 1]);
    }
  }

  /** Which ledger a malloc or free uses: its own epoch's, which is the previous one's only before the wait is over. */
  lemma TouchParity(s: State, a: Action)
    requires E.Inv(s.ep) && a.Touch? && Enabled(s, a)
    ensures Num(s, a.t) == Epoch(s) || (Num(s, a.t) == Epoch(s) - 1 && s.ep.stage.Waiting?)
  {
    assert E.ThreadInv(s.ep, a.t);
  }

  lemma OneOpMore(ops: seq<Stamped>, x: Stamped, e: int)
    ensures OpsOf(ops + [x], e) == if x.epoch == e then OpsOf(ops, e) + [x.op] else OpsOf(ops, e)
  {
    assert (ops + [x])[..|ops|] == ops;
  }

  /** What one more operation makes of a recorded ledger. */
  lemma RecordedStep(s: State, s': State, x: Stamped, e: int)
    requires OpsInv(s) && OpsInv(s') && s'.ops == s.ops + [x] && s'.ep == s.ep && s'.lines == s.lines
    ensures x.epoch != e ==> Recorded(s', e) == Recorded(s, e)
    ensures x.epoch == e ==> Known(Recorded(s, e), x.op) && Recorded(s', e) == Record(Recorded(s, e), x.op)
  {
    OneOpMore(s.ops, x, e);
    assert x in s'.ops;
    OpsOfInRange(s'.ops, e);
    var ops := OpsOf(s'.ops, e);
    if x.epoch == e { assert ops[..|ops| - 1] == OpsOf(s.ops, e); }
  }

  /** One operation is recorded in the ledger of its epoch. */
  ghost predicate Touched(s: State, x: Stamped, s': State) {
    var p := E.Parity(x.epoch);
    && s'.ep == s.ep && s'.lines == s.lines && s'.pc == s.pc && s'.ops == s.ops + [x]
    && Known(s.ledgers.At(p), x.op) && s'.ledgers == s.ledgers.With(p, Record(s.ledgers.At(p), x.op))
  }

  lemma TouchedFacts(s: State, a: Action)
    requires OpsInv(s) && a.Touch? && Enabled(s, a) && Num(s, a.t) <= Epoch(s)
    ensures Touched(s, Stamped(Num(s, a.t), Operation(a.t, a.index, a.size)), Next(s, a)) && OpsInv(Next(s, a))
  {
    hide E.Parity, Record;
  }

  lemma TouchedThis(s: State, x: Stamped, s': State)
    requires Inv(s) && OpsInv(s') && Touched(s, x, s') && x.epoch == Epoch(s)
    ensures Inv(s')
  {
    Parities(s);
    RecordedStep(s, s', x, Epoch(s));
    RecordedStep(s, s', x, Epoch(s) - 1);
    hide E.Parity, E.Inv, OpsInv, Recorded, Record, Checked, Cleared, CheckLogs, InHeap, Blank;
  }

  lemma TouchedPrev(s: State, x: Stamped, s': State)
    requires Inv(s) && OpsInv(s') && Touched(s, x, s') && x.epoch == Epoch(s) - 1 && s.ep.stage.Waiting?
    ensures Inv(s')
  {
    Parities(s);
    RecordedStep(s, s', x, Epoch(s));
    RecordedStep(s, s', x, Epoch(s) - 1);
    hide E.Parity, E.Inv, OpsInv, Recorded, Record, Checked, Cleared, CheckLogs, InHeap, Blank;
  }

  lemma TouchKeeps(s: State, a: Action)
    requires Inv(s) && a.Touch? && Enabled(s, a)
    ensures Inv(Next(s, a))
  {
    var x := Stamped(Num(s, a.t), Operation(a.t, a.index, a.size));
    TouchParity(s, a);
    TouchedFacts(s, a);
    hide *;
    if x.epoch == Epoch(s) { TouchedThis(s, x, Next(s, a)); } else { TouchedPrev(s, x, Next(s, a)); }
  }

  lemma SameRecorded(s: State, s': State, e: int)
    requires OpsInv(s) && s'.ops == s.ops && s'.lines == s.lines && Threads(s') == Threads(s) && Epoch(s) <= Epoch(s')
    ensures OpsInv(s') && Recorded(s', e) == Recorded(s, e)
  {
  }

  lemma CheckStepKeeps(s: State)
    requires Inv(s) && Enabled(s, CheckStep)
    ensures Inv(Next(s, CheckStep))
  {
    var was, c := Recorded(s, Epoch(s) - 1), s.pc.c;
    var s' := Next(s, CheckStep);
    Parities(s);
    assert s.ep.stage.Logging?;
    SameRecorded(s, s', Epoch(s));
    SameRecorded(s, s', Epoch(s) - 1);
    hide E.Parity, E.Inv, Recorded, OpsInv;
    CheckedStep(was, c);
  }

  lemma CheckedStep(l: Ledger, c: nat)
    requires c < |l.logs| && InHeap(l)
    ensures
      var half := Checked(l, c);
      var (bytes, log) := CheckLog(half.bytes, half.logs[c]);
      Checked(l, c + 1) == Ledger(bytes, half.logs[c := log])
  {
    CheckFirstStep(l, c);
  }

  lemma ClearStepKeeps(s: State)
    requires Inv(s) && Enabled(s, ClearStep)
    ensures Inv(Next(s, ClearStep))
  {
    OpenClearing(s);
    ClearStepFacts(s);
    hide *;
    ClearOne(s, Next(s, ClearStep));
  }

  /** One log is cleared. */
  ghost predicate OneCleared(s: State, s': State) {
    && s.pc.Clearing?
    && var l, c := s.ledgers.At(Prev(s)), s.pc.c;
    && c < Threads(s) && c < |l.logs|
    && s' == s.(ledgers := s.ledgers.With(Prev(s), l.(logs := l.logs[c := []])), pc := Clearing(c + 1))
  }

  lemma ClearStepFacts(s: State)
    requires Enabled(s, ClearStep)
    ensures OneCleared(s, Next(s, ClearStep)) && s.pc.Clearing?
  {
  }

  lemma ClearOne(s: State, s': State)
    requires E.Inv(s.ep) && s.ep.stage.Updating? && OpsInv(s) && OneCleared(s, s')
    requires s.ledgers.At(This(s)) == Recorded(s, Epoch(s))
    requires
      var was := Recorded(s, Epoch(s) - 1);
      InHeap(was) && s.ledgers.At(Prev(s)) == Cleared(CheckLogs(was), s.pc.c)
    ensures Inv(s')
  {
    Parities(s);
    SameRecorded(s, s', Epoch(s));
    SameRecorded(s, s', Epoch(s) - 1);
    ClearedStep(CheckLogs(Recorded(s, Epoch(s) - 1)), s.pc.c);
    hide E.Parity, E.Inv, Recorded, OpsInv, Cleared, CheckLogs, InHeap;
    assert s'.ledgers.At(This(s)) == s.ledgers.At(This(s));
    CloseClearing(s');
  }

  lemma ClearedStep(l: Ledger, c: nat)
    requires c < |l.logs|
    ensures Cleared(l, c + 1) == l.(logs := Cleared(l, c).logs[c := []])
  {
    assert Cleared(l, c + 1).logs == Cleared(l, c).logs[c := []];
  }

  /** After the check every byte is zero, so when the logs have been cleared as well the ledger is blank. */
  lemma ClearedIsBlank(s: State, e: int)
    requires OpsInv(s) && InHeap(Recorded(s, e))
    ensures Cleared(CheckLogs(Recorded(s, e)), Threads(s)) == Blank(s.lines, Threads(s))
  {
    var done := CheckLogs(Recorded(s, e));
    forall i | 0 <= i < s.lines
      ensures done.bytes[i] == 0
    {
      OpsOfInRange(s.ops, e);
      Cancellation(s.lines, Threads(s), OpsOf(s.ops, e), i);
    }
    assert done.bytes == Blank(s.lines, Threads(s)).bytes;
  }

  lemma RegisteredMore(s: State, s': State, e: int)
    requires OpsInv(s) && s'.ops == s.ops && s'.lines == s.lines && Threads(s') == Threads(s) + 1 && Epoch(s) == Epoch(s')
    ensures OpsInv(s') && Recorded(s', e) == AddLog(Recorded(s, e))
  {
    OpsOfInRange(s.ops, e);
    RecordOneThreadMore(s.lines, Threads(s), OpsOf(s.ops, e));
  }

  lemma RegisterKeeps(s: State)
    requires Inv(s) && Enabled(s, Ep(E.Register))
    ensures Inv(AfterEpochStep(s, E.Register))
  {
    var s' := AfterEpochStep(s, E.Register);
    E.InvStep(s.ep, E.Register);
    assert s.ep.stage.Resting?;
    Parities(s);
    RegisteredMore(s, s', Epoch(s));
    RecordOneThreadMore(s.lines, Threads(s), []);
    hide E.Parity, E.Inv, Recorded, OpsInv;
  }

  /** A new epoch begins, and nothing has been done in it. */
  lemma NewRecorded(s: State, s': State)
    requires OpsInv(s) && s'.ops == s.ops && s'.lines == s.lines && Threads(s') == Threads(s) && Epoch(s') == Epoch(s) + 1
    ensures OpsInv(s') && Recorded(s', Epoch(s)) == Recorded(s, Epoch(s))
    ensures Recorded(s', Epoch(s')) == Blank(s.lines, Threads(s))
  {
    NoOpsYet(s.ops, Epoch(s'));
  }

  lemma OpenResting(s: State)
    requires Inv(s) && s.ep.stage.Resting?
    ensures E.Inv(s.ep) && OpsInv(s) && s.pc == Off
    ensures s.ledgers.At(This(s)) == Recorded(s, Epoch(s)) && s.ledgers.At(Prev(s)) == Blank(s.lines, Threads(s))
  {
    hide E.Parity, E.Inv, Recorded, OpsInv;
  }

  lemma NewEpochKeeps(s: State, a: E.Action)
    requires Inv(s) && Enabled(s, Ep(a)) && (a == E.Advance || a == E.Finalize)
    ensures Inv(AfterEpochStep(s, a))
  {
    var s' := AfterEpochStep(s, a);
    OpenResting(s);
    E.InvStep(s.ep, a);
    Parities(s);
    Parities(s');
    NewRecorded(s, s');
    RecordedFresh(s, Epoch(s));
    CheckedNothing(Recorded(s, Epoch(s)));
    assert Prev(s') == This(s) && s'.ledgers == s.ledgers;
    hide Inv, E.Parity, E.Inv, E.Next, E.Enabled, Recorded, OpsInv, Blank, Checked, InHeap;
    NewEpochInv(s');
  }

  lemma NewEpochInv(s': State)
    requires OpsInv(s') && E.Inv(s'.ep) && s'.ledgers.At(This(s')) == Recorded(s', Epoch(s'))
    requires s'.ledgers.At(Prev(s')) == Recorded(s', Epoch(s') - 1)
    requires InHeap(Recorded(s', Epoch(s') - 1)) && Checked(Recorded(s', Epoch(s') - 1), 0) == Recorded(s', Epoch(s') - 1)
    requires (s'.ep.stage.Waiting? && s'.pc == Off) || (s'.ep.stage.Logging? && s'.pc == Checking(0))
    ensures Inv(s')
  {
    hide E.Parity, E.Inv, Recorded, OpsInv, Checked;
  }

  lemma CheckedNothing(l: Ledger)
    requires InHeap(l)
    ensures Checked(l, 0) == l
  {
    assert l.(logs := l.logs[..0]).logs == [];
  }

  lemma CheckedAll(l: Ledger)
    requires InHeap(l)
    ensures Checked(l, |l.logs|) == CheckLogs(l)
  {
    assert l.(logs := l.logs[..|l.logs|]) == l;
  }

  /** The wait is over and the check begins. */
  lemma BeginCheck(s: State, s': State)
    requires OpsInv(s) && E.Inv(s'.ep) && PhaseStep(s, E.StartLogging, s') && s'.pc == Checking(0)
    requires s.ledgers.At(This(s)) == Recorded(s, Epoch(s)) && s.ledgers.At(Prev(s)) == Recorded(s, Epoch(s) - 1)
    ensures Inv(s')
  {
    assert s'.ops == s.ops && s'.lines == s.lines && Threads(s') == Threads(s) && s'.ledgers == s.ledgers;
    assert Epoch(s') == Epoch(s) && This(s') == This(s) && Prev(s') == Prev(s) && s'.ep.stage.Logging?;
    hide *;
    SameRecorded(s, s', Epoch(s));
    SameRecorded(s, s', Epoch(s) - 1);
    RecordedFresh(s, Epoch(s) - 1);
    CheckedNothing(Recorded(s, Epoch(s) - 1));
    CloseChecking(s');
  }

  lemma CloseChecking(s: State)
    requires E.Inv(s.ep) && OpsInv(s) && s.ledgers.At(This(s)) == Recorded(s, Epoch(s))
    requires s.ep.stage.Logging? && s.pc.Checking? && s.pc.c <= Threads(s)
    requires
      var was := Recorded(s, Epoch(s) - 1);
      InHeap(was) && s.ledgers.At(Prev(s)) == Checked(was, s.pc.c)
    ensures Inv(s)
  {
    hide E.Parity, E.Inv, Recorded, OpsInv, Checked;
  }

  lemma OpenWaiting(s: State)
    requires Inv(s) && s.ep.stage.Waiting?
    ensures E.Inv(s.ep) && OpsInv(s)
    ensures s.ledgers.At(This(s)) == Recorded(s, Epoch(s)) && s.ledgers.At(Prev(s)) == Recorded(s, Epoch(s) - 1)
  {
    hide E.Parity, E.Inv, Recorded, OpsInv;
  }

  lemma StartLoggingKeeps(s: State)
    requires Inv(s) && Enabled(s, Ep(E.StartLogging))
    ensures Inv(AfterEpochStep(s, E.StartLogging))
  {
    var s' := AfterEpochStep(s, E.StartLogging);
    PhaseStepFacts(s, E.StartLogging);
    assert s.ep.stage.Waiting? && s'.pc == Checking(0);
    hide *;
    OpenWaiting(s);
    PhaseStepInv(s, E.StartLogging, s');
    BeginCheck(s, s');
  }

  lemma ClearedNothing(l: Ledger)
    ensures Cleared(l, 0) == l
  {
  }

  /** The phase has changed and the clearing begins. */
  lemma BeginClearing(s: State, s': State)
    requires OpsInv(s) && E.Inv(s'.ep) && PhaseStep(s, E.StartUpdating, s') && s'.pc == Clearing(0)
    requires s.ledgers.At(This(s)) == Recorded(s, Epoch(s))
    requires
      var was := Recorded(s, Epoch(s) - 1);
      InHeap(was) && s.ledgers.At(Prev(s)) == Checked(was, Threads(s))
    ensures Inv(s')
  {
    var was := Recorded(s, Epoch(s) - 1);
    assert s'.ops == s.ops && s'.lines == s.lines && Threads(s') == Threads(s) && s'.ledgers == s.ledgers;
    assert Epoch(s') == Epoch(s) && This(s') == This(s) && Prev(s') == Prev(s) && s'.ep.stage.Updating?;
    hide *;
    SameRecorded(s, s', Epoch(s));
    SameRecorded(s, s', Epoch(s) - 1);
    CheckedAll(was);
    ClearedNothing(CheckLogs(was));
    CloseClearing(s');
  }

  lemma StartUpdatingKeeps(s: State)
    requires Inv(s) && Enabled(s, Ep(E.StartUpdating))
    ensures Inv(AfterEpochStep(s, E.StartUpdating))
  {
    var s' := AfterEpochStep(s, E.StartUpdating);
    PhaseStepFacts(s, E.StartUpdating);
    assert s.pc.Checking? && s.pc.c >= Threads(s) && s'.pc == Clearing(0);
    hide *;
    OpenChecking(s);
    PhaseStepInv(s, E.StartUpdating, s');
    BeginClearing(s, s');
  }

  lemma PhaseStepInv(s: State, a: E.Action, s': State)
    requires E.Inv(s.ep) && PhaseStep(s, a, s')
    ensures E.Inv(s'.ep)
  {
    E.InvStep(s.ep, a);
  }

  /** The logs are cleared and the checkpoint ends. */
  lemma EndClearing(s: State, s': State)
    requires OpsInv(s) && E.Inv(s'.ep) && PhaseStep(s, E.CheckpointerReleases, s') && s'.pc == Off
    requires s.ledgers.At(This(s)) == Recorded(s, Epoch(s))
    requires
      var was := Recorded(s, Epoch(s) - 1);
      InHeap(was) && s.ledgers.At(Prev(s)) == Cleared(CheckLogs(was), Threads(s))
    ensures Inv(s')
  {
    SameRecorded(s, s', Epoch(s));
    ClearedIsBlank(s, Epoch(s) - 1);
    hide E.Parity, E.Inv, Recorded, OpsInv, Cleared, CheckLogs, Blank;
  }

  lemma ReleaseKeeps(s: State)
    requires Inv(s) && Enabled(s, Ep(E.CheckpointerReleases))
    ensures Inv(AfterEpochStep(s, E.CheckpointerReleases))
  {
    var s' := AfterEpochStep(s, E.CheckpointerReleases);
    PhaseStepFacts(s, E.CheckpointerReleases);
    assert s.pc.Clearing? && s.pc.c >= Threads(s) && s'.pc == Off;
    hide *;
    OpenClearing(s);
    PhaseStepInv(s, E.CheckpointerReleases, s');
    EndClearing(s, s');
  }

  /** Only threads, the execute right or the progress of the wait change. */
  ghost predicate QuietStep(s: State, s': State) {
    && s' == s.(ep := s'.ep) && s'.ep.global == s.ep.global && Threads(s') == Threads(s)
    && (s'.ep.stage == s.ep.stage || (s'.ep.stage.Waiting? && s.ep.stage.Waiting?))
  }

  lemma QuietStepKeeps(s: State, s': State)
    requires Inv(s) && E.Inv(s'.ep) && QuietStep(s, s')
    ensures Inv(s')
  {
    SameRecorded(s, s', Epoch(s));
    SameRecorded(s, s', Epoch(s) - 1);
    hide E.Parity, E.Inv, Recorded, OpsInv, Cleared, Checked, Blank;
  }

  lemma OtherEpochStepKeeps(s: State, a: E.Action)
    requires Inv(s) && Enabled(s, Ep(a))
    requires !a.Register? && !a.Advance? && !a.Finalize? && !a.StartLogging? && !a.StartUpdating? && !a.CheckpointerReleases?
    ensures Inv(AfterEpochStep(s, a))
  {
    var s' := AfterEpochStep(s, a);
    E.InvStep(s.ep, a);
    assert QuietStep(s, s') by { hide Inv, E.Inv; }
    hide Inv, E.Inv, E.Next, E.Enabled, AfterEpochStep;
    QuietStepKeeps(s, s');
  }

  lemma StepKeepsInv(s: State, a: Action)
    requires Inv(s) && Enabled(s, a)
    ensures Inv(Next(s, a))
  {
    hide Inv;
    match a
    case Ep(ea) =>
      if ea.Register? { RegisterKeeps(s); }
      else if ea.Advance? || ea.Finalize? { NewEpochKeeps(s, ea); }
      else if ea.StartLogging? { StartLoggingKeeps(s); }
      else if ea.StartUpdating? { StartUpdatingKeeps(s); }
      else if ea.CheckpointerReleases? { ReleaseKeeps(s); }
      else { OtherEpochStepKeeps(s, ea); }
    case Touch(_, _, _) => TouchKeeps(s, a);
    case CheckStep => CheckStepKeeps(s);
    case ClearStep => ClearStepKeeps(s);
  }

  ghost predicate Run(s: State, acts: seq<Action>, s': State)
    decreases |acts|
  {
    if acts == [] then s == s' else Enabled(s, acts[0]) && Run(Next(s, acts[0]), acts[1..], s')
  }

  lemma {:induction false} RunKeepsInv(s: State, acts: seq<Action>, s': State)
    requires Inv(s) && Run(s, acts, s')
    ensures Inv(s')
    decreases |acts|
  {
    hide Inv;
    if acts != [] {
      StepKeepsInv(s, acts[0]);
      RunKeepsInv(Next(s, acts[0]), acts[1..], s');
    }
  }

  lemma InitialInv(first: E.Begin, lines: nat)
    ensures Inv(Initial(first, lines))
  {
  }

  lemma ReachableInv(first: E.Begin, lines: nat, acts: seq<Action>, s: State)
    requires Run(Initial(first, lines), acts, s)
    ensures Inv(s)
  {
    InitialInv(first, lines);
    hide Inv;
    RunKeepsInv(Initial(first, lines), acts, s);
  }

  /** When the check begins, the ledger of the previous parity holds exactly the operations of the previous epoch. */
  lemma CheckSeesPreviousEpoch(first: E.Begin, lines: nat, acts: seq<Action>, s: State)
    requires Run(Initial(first, lines), acts, s) && s.pc == Checking(0)
    ensures OpsInv(s) && s.ledgers.At(Prev(s)) == Recorded(s, Epoch(s) - 1)
  {
    ReachableInv(first, lines, acts, s);
    OpenChecking(s);
    hide *;
    CheckedNothing(Recorded(s, Epoch(s) - 1));
  }

  /**
   * Each thread's log of that parity then holds, in order, those operations that it did on an object as the first, third
   * and so on of the previous epoch, with their sizes.
   */
  lemma CheckSeesEntries(first: E.Begin, lines: nat, acts: seq<Action>, s: State, t: nat)
    requires Run(Initial(first, lines), acts, s) && s.pc == Checking(0) && t < Threads(s)
    ensures |s.ledgers.At(Prev(s)).logs| == Threads(s)
    ensures s.ledgers.At(Prev(s)).logs[t] == Expected(OpsOf(s.ops, Epoch(s) - 1), t)
  {
    CheckSeesPreviousEpoch(first, lines, acts, s);
    hide Run;
    OpsOfInRange(s.ops, Epoch(s) - 1);
    LogsOfOperations(s.lines, Threads(s), OpsOf(s.ops, Epoch(s) - 1), t);
  }

  lemma RecordedCancels(s: State, e: int, i: nat)
    requires OpsInv(s) && InHeap(Recorded(s, e)) && i < s.lines
    ensures
      var l := CheckLogs(Recorded(s, e));
      AllValidEntries(l.logs, i) == Count(OpsOf(s.ops, e), i) % 2 && l.bytes[i] == 0
  {
    OpsOfInRange(s.ops, e);
    Cancellation(s.lines, Threads(s), OpsOf(s.ops, e), i);
  }

  lemma CheckedCancels(s: State, i: nat)
    requires Inv(s) && s.pc == Checking(Threads(s)) && i < s.lines
    ensures
      var l := s.ledgers.At(Prev(s));
      && AllValidEntries(l.logs, i) == Count(OpsOf(s.ops, Epoch(s) - 1), i) % 2
      && |l.bytes| == s.lines && l.bytes[i] == 0
  {
    OpenChecking(s);
    hide Inv, Recorded, Checked, CheckLogs, AllValidEntries, Count, OpsOf, E.Parity;
    var was := Recorded(s, Epoch(s) - 1);
    RecordedCancels(s, Epoch(s) - 1, i);
    CheckedAll(was);
    assert s.ledgers.At(Prev(s)) == CheckLogs(was);
  }

  /**
   * When it ends, an object has one valid entry over all the logs of that parity if the previous epoch's operations
   * on it were odd in number and none if they were even, and its byte is zero.
   */
  lemma CheckCancels(first: E.Begin, lines: nat, acts: seq<Action>, s: State, i: nat)
    requires Run(Initial(first, lines), acts, s) && s.pc == Checking(Threads(s)) && i < s.lines
    ensures
      var l := s.ledgers.At(Prev(s));
      && AllValidEntries(l.logs, i) == Count(OpsOf(s.ops, Epoch(s) - 1), i) % 2
      && |l.bytes| == s.lines && l.bytes[i] == 0
  {
    ReachableInv(first, lines, acts, s);
    hide Run, Inv;
    CheckedCancels(s, i);
  }

  /** Between checkpoints the ledger of the previous parity is blank; the next epoch will use it. */
  lemma ReusedBlank(first: E.Begin, lines: nat, acts: seq<Action>, s: State)
    requires Run(Initial(first, lines), acts, s) && s.ep.stage.Resting?
    ensures s.ledgers.At(E.Parity(Epoch(s) + 1)) == Blank(s.lines, Threads(s))
  {
    ReachableInv(first, lines, acts, s);
    hide Run;
    Parities(s);
  }

  /** After the wait no malloc or free touches the byte map or a log of the previous parity. */
  lemma PreviousLedgerApart(first: E.Begin, lines: nat, acts: seq<Action>, s: State, a: Action)
    requires Run(Initial(first, lines), acts, s) && s.ep.global.phase != MultiEpochExistence
    requires a.Touch? && Enabled(s, a)
    ensures Next(s, a).ledgers.At(Prev(s)) == s.ledgers.At(Prev(s))
  {
    ReachableInv(first, lines, acts, s);
    hide Run;
    TouchParity(s, a);
    Parities(s);
  }

  lemma RightShape(s: State)
    requires Inv(s)
    ensures |s.ledgers.even.logs| == |s.ledgers.odd.logs| == Threads(s)
    ensures |s.ledgers.even.bytes| == |s.ledgers.odd.bytes| == s.lines
    ensures s.pc.Checking? ==> InHeap(s.ledgers.At(Prev(s)))
  {
    Parities(s);
    hide E.Parity, E.Inv;
    var was := Recorded(s, Epoch(s) - 1);
    if s.pc.Checking? { CheckedInHeap(was, s.pc.c); }
  }

  lemma CheckedInHeap(l: Ledger, c: nat)
    requires InHeap(l) && c <= |l.logs|
    ensures InHeap(Checked(l, c))
  {
    var r := Checked(l, c);
    var first := l.(logs := l.logs[..c]);
    forall t, j | 0 <= t < |r.logs| && 0 <= j < |r.logs[t]|
      ensures r.logs[t][j].index < |r.bytes|
    {
      if t < c {
        assert first.logs[t] == l.logs[t];
        CheckLogsKeeps(first, t, j);
      } else {
        assert r.logs[t] == l.logs[t];
      }
    }
  }

  /** Nothing holds up a malloc or free, the check, or the clearing: the logs that they need are there. */
  lemma AlwaysPossible(first: E.Begin, lines: nat, acts: seq<Action>, s: State, t: nat, index: nat, size: nat)
    requires Run(Initial(first, lines), acts, s)
    ensures E.InOperation(s.ep, t) && index < s.lines ==> Enabled(s, Touch(t, index, size))
    ensures s.pc.Checking? && s.pc.c < Threads(s) ==> Enabled(s, CheckStep)
    ensures s.pc.Clearing? && s.pc.c < Threads(s) ==> Enabled(s, ClearStep)
  {
    ReachableInv(first, lines, acts, s);
    hide *;
    RightShape(s);
    ShapeEnables(s, t, index, size);
  }

  lemma ShapeEnables(s: State, t: nat, index: nat, size: nat)
    requires |s.ledgers.even.logs| == |s.ledgers.odd.logs| == Threads(s)
    requires |s.ledgers.even.bytes| == |s.ledgers.odd.bytes| == s.lines
    requires s.pc.Checking? ==> InHeap(s.ledgers.At(Prev(s)))
    ensures E.InOperation(s.ep, t) && index < s.lines ==> Enabled(s, Touch(t, index, size))
    ensures s.pc.Checking? && s.pc.c < Threads(s) ==> Enabled(s, CheckStep)
    ensures s.pc.Clearing? && s.pc.c < Threads(s) ==> Enabled(s, ClearStep)
  {
  }
}

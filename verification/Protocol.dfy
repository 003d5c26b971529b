/**
 * The checkpoint protocol as a transition system: any number of user threads, one checkpointing thread, one
 * shared DRAM heap, one NVM heap, and the bitmaps, address lists and redo logs between them.
 *
 * The user's work on one line in `mark` is split into its test of the current bitmap, its test of the previous
 * one, the clearing of the previous bit, the push of the old content, and the setting of the current bit. The
 * checkpointing thread's work on one line is split into test, copy and clear.
 */
module Protocol {
  import opened Redo
  import E = Epochs

  /** `X[2]`, indexed by the parity of an epoch number. */
  datatype Pair<T> = Pair(even: T, odd: T) {
    function At(p: bool): T {
      if p then odd else even
    }

    function With(p: bool, v: T): Pair<T> {
      if p then Pair(even, v) else Pair(v, odd)
    }
  }

  /** An address list entry: the first line and the number of lines. */
  datatype Range = Range(base: nat, count: nat) {
    predicate Has(l: nat) {
      base <= l < base + count
    }
  }

  ghost predicate Covers(list: seq<Range>, l: nat) {
    exists j :: 0 <= j < |list| && list[j].Has(l)
  }

  /** The program counter inside the loop of `mark`. */
  datatype Spot = Head | TestPrev | ClearPrev | PushOld | SetCurr
  datatype Mark = NoMark | Mark(range: Range, i: nat, dirty: bool, at: Spot)

  /**
   * One user context. `marked` (lines marked by the operation in progress) and `ops` (operations finished so
   * far) are history variables.
   */
  datatype Ctx = Ctx(lists: Pair<seq<Range>>, log: seq<Entry>, mark: Mark, marked: set<nat>, ops: nat)

  /** The program counter of the checkpointing thread in `log_persistence_unit` and `nvm_heap_update_unit`. */
  datatype Cp =
    | Rest
    | Scan(c: nat, k: nat, i: nat) | Copy(c: nat, k: nat, i: nat) | Clear(c: nat, k: nat, i: nat)
    | ReplayMaster(n: nat) | ReplayUser(c: nat, n: nat)
    | ClearMaster | ClearUser(c: nat)
    | Done

  /** One store to the DRAM heap: by which operation (thread and running number), in which epoch. */
  datatype Event = Event(epoch: nat, thread: nat, op: nat, line: nat, val: Value)

  /**
   * The shared state. `nvm` is what a crash is sure to leave of the NVM heap and `pending` the stores made to it
   * since the last fence. The fields from `boot` on are history and auxiliary variables:
   *   boot    the heap before the first operation        hist    every store to the DRAM heap so far
   *   now     lines marked in the current epoch          before  lines marked in the previous epoch
   *   owner   the thread in the middle of marking a line saver   the thread whose redo log has a line
   *   setter  the thread that last set a bit
   */
  datatype State = State(
    ep: E.State, ctxs: seq<Ctx>, bits: Pair<seq<bool>>, master: seq<Entry>,
    dram: seq<Value>, nvm: seq<Value>, pending: seq<Entry>, cp: Cp,
    boot: seq<Value>, hist: seq<Event>, now: set<nat>, before: set<nat>,
    owner: map<nat, nat>, saver: map<nat, nat>, setter: Pair<seq<nat>>)

  datatype Action =
    | Ep(a: E.Action)
    | MarkCall(t: nat, range: Range) | MarkTest(t: nat) | MarkTestPrev(t: nat) | MarkClearPrev(t: nat)
    | MarkPush(t: nat) | MarkSet(t: nat) | MarkReturn(t: nat)
    | Write(t: nat, line: nat, val: Value)
    | ScanStep | CopyLine(copied: Value) | ClearLine
    | UpdateStep

  function Epoch(s: State): nat {
    s.ep.global.num
  }

  function Num(s: State, t: nat): nat {
    if t < |s.ep.threads| then s.ep.threads[t].epoch.num else 0
  }

  /** The parity `curr` of a user, and the parities of the current and previous global epoch. */
  function Curr(s: State, t: nat): bool {
    E.Parity(Num(s, t))
  }

  function This(s: State): bool {
    E.Parity(Epoch(s))
  }

  function Prev(s: State): bool {
    E.Parity(Epoch(s) - 1)
  }

  /** The redo logs of all users. */
  function Logs(s: State): (logs: seq<seq<Entry>>)
    ensures |logs| == |s.ctxs| && forall t | 0 <= t < |logs| :: logs[t] == s.ctxs[t].log
  {
    seq(|s.ctxs|, t requires 0 <= t < |s.ctxs| => s.ctxs[t].log)
  }

  predicate IsMarking(s: State, t: nat) {
    t < |s.ctxs| && s.ctxs[t].mark.Mark?
  }

  /** The line that `mark` is working on. */
  function MarkLine(m: Mark): nat
    requires m.Mark?
  {
    m.range.base + m.i
  }

  predicate IsAt(s: State, t: nat, at: Spot) {
    IsMarking(s, t) && s.ctxs[t].mark.at == at
  }

  /** Thread `u` is between its test of the current bit of `l` and the setting of that bit. */
  predicate MidMark(s: State, u: nat, l: nat) {
    IsMarking(s, u) && s.ctxs[u].mark.at != Head && MarkLine(s.ctxs[u].mark) == l
  }

  /**
   * What the library demands of its users when thread `t` touches line `l`: nobody else is marking the line at
   * the same time (the program is free of data races), and no operation of a newer epoch has marked it before.
   */
  predicate MayTouch(s: State, t: nat, l: nat) {
    && (forall u | 0 <= u < |s.ctxs| && u != t :: !MidMark(s, u, l))
    && (Num(s, t) < Epoch(s) ==> l !in s.now)
  }

  predicate ScanInRange(s: State, c: nat, k: nat) {
    c < |s.ctxs| && k < |s.ctxs[c].lists.At(Prev(s))|
  }

  function ScanRange(s: State, c: nat, k: nat): Range
    requires ScanInRange(s, c, k)
  {
    s.ctxs[c].lists.At(Prev(s))[k]
  }

  predicate BitAt(s: State, p: bool, l: nat) {
    l < |s.bits.At(p)| && s.bits.At(p)[l]
  }

  predicate ScanFinished(s: State) {
    s.cp.Scan? && s.cp.c >= |s.ctxs|
  }

  predicate EpochActionEnabled(s: State, a: E.Action) {
    && E.Enabled(s.ep, a)
    && match a
       case End(t) => t < |s.ctxs| && s.ctxs[t].mark == NoMark
       case StartUpdating => ScanFinished(s)
       case CheckpointerReleases => s.cp == Done
       case _ => true
  }

  predicate Enabled(s: State, a: Action) {
    match a
    case Ep(ea) => EpochActionEnabled(s, ea)
    case MarkCall(t, r) =>
      && E.InOperation(s.ep, t) && t < |s.ctxs| && s.ctxs[t].mark == NoMark
      && r.base + r.count <= |s.dram|
    case MarkTest(t) =>
      && IsAt(s, t, Head) && s.ctxs[t].mark.i < s.ctxs[t].mark.range.count
      && MayTouch(s, t, MarkLine(s.ctxs[t].mark))
    case MarkTestPrev(t) => IsAt(s, t, TestPrev)
    case MarkClearPrev(t) => IsAt(s, t, ClearPrev)
    case MarkPush(t) => IsAt(s, t, PushOld) && MarkLine(s.ctxs[t].mark) < |s.dram|
    case MarkSet(t) => IsAt(s, t, SetCurr)
    case MarkReturn(t) => IsAt(s, t, Head) && s.ctxs[t].mark.i >= s.ctxs[t].mark.range.count
    case Write(t, l, v) =>
      && E.InOperation(s.ep, t) && t < |s.ctxs| && s.ctxs[t].mark == NoMark
      && l < |s.dram| && l in s.ctxs[t].marked
      && MayTouch(s, t, l)
    case ScanStep => s.cp.Scan? && s.cp.c < |s.ctxs|
    // The copy of a line whose bit is gone may race with a store of its new owner and tear.
    case CopyLine(v) =>
      && s.cp.Copy? && ScanInRange(s, s.cp.c, s.cp.k)
      && var l := ScanRange(s, s.cp.c, s.cp.k).base + s.cp.i;
      l < |s.dram| && (BitAt(s, Prev(s), l) ==> v == s.dram[l])
    case ClearLine => s.cp.Clear? && ScanInRange(s, s.cp.c, s.cp.k)
    case UpdateStep => s.cp.ReplayMaster? || s.cp.ReplayUser? || s.cp.ClearMaster? || s.cp.ClearUser?
  }

  const FRESH_CTX := Ctx(Pair([], []), [], NoMark, {}, 0)

  function SetCtx(s: State, t: nat, x: Ctx): State
    requires t < |s.ctxs|
  {
    s.(ctxs := s.ctxs[t := x])
  }

  function SetMark(s: State, t: nat, m: Mark): State
    requires t < |s.ctxs|
  {
    SetCtx(s, t, s.ctxs[t].(mark := m))
  }

  function SetBit(bits: seq<bool>, l: nat, b: bool): (r: seq<bool>)
    ensures |r| == |bits|
  {
    if l < |bits| then bits[l := b] else bits
  }

  function AfterEpochAction(s: State, a: E.Action): State
    requires EpochActionEnabled(s, a)
  {
    var s1 := s.(ep := E.Next(s.ep, a));
    match a
    case End(t) => SetCtx(s1, t, s.ctxs[t].(marked := {}, ops := s.ctxs[t].ops + 1))
    case Register => s1.(ctxs := s.ctxs + [FRESH_CTX])
    case Advance => s1.(now := {}, before := s.now)
    case Finalize => s1.(now := {}, before := s.now, cp := Scan(0, 0, 0))
    case StartLogging => s1.(cp := Scan(0, 0, 0))
    case StartUpdating => s1.(cp := ReplayMaster(0))
    case CheckpointerReleases => s1.(cp := Rest)
    case _ => s1
  }

  function AfterMarkTest(s: State, t: nat): State
    requires Enabled(s, MarkTest(t))
  {
    var m := s.ctxs[t].mark;
    var l := MarkLine(m);
    if BitAt(s, Curr(s, t), l) then
      SetCtx(s, t, s.ctxs[t].(mark := m.(i := m.i + 1), marked := s.ctxs[t].marked + {l}))
    else
      SetMark(s, t, m.(at := TestPrev)).(
      owner := s.owner[l := t],
      now := if Num(s, t) == Epoch(s) then s.now + {l} else s.now,
      before := if Num(s, t) == Epoch(s) then s.before else s.before + {l})
  }

  function AfterMarkTestPrev(s: State, t: nat): State
    requires Enabled(s, MarkTestPrev(t))
  {
    var m := s.ctxs[t].mark;
    SetMark(s, t, m.(at := if BitAt(s, !Curr(s, t), MarkLine(m)) then ClearPrev else SetCurr))
  }

  function AfterMarkClearPrev(s: State, t: nat): State
    requires Enabled(s, MarkClearPrev(t))
  {
    var m := s.ctxs[t].mark;
    var p := !Curr(s, t);
    SetMark(s, t, m.(at := PushOld)).(bits := s.bits.With(p, SetBit(s.bits.At(p), MarkLine(m), false)))
  }

  function AfterMarkPush(s: State, t: nat): State
    requires Enabled(s, MarkPush(t))
  {
    var m := s.ctxs[t].mark;
    var l := MarkLine(m);
    SetCtx(s, t, s.ctxs[t].(mark := m.(at := SetCurr), log := s.ctxs[t].log + [Entry(l, s.dram[l])])).(
    saver := s.saver[l := t])
  }

  function AfterMarkSet(s: State, t: nat): State
    requires Enabled(s, MarkSet(t))
  {
    var m := s.ctxs[t].mark;
    var l := MarkLine(m);
    var p := Curr(s, t);
    SetCtx(s, t, s.ctxs[t].(mark := m.(at := Head, i := m.i + 1, dirty := true),
                            marked := s.ctxs[t].marked + {l})).(
    bits := s.bits.With(p, SetBit(s.bits.At(p), l, true)),
    setter := if l < |s.setter.At(p)| then s.setter.With(p, s.setter.At(p)[l := t]) else s.setter,
    owner := s.owner - {l})
  }

  function AfterMarkReturn(s: State, t: nat): State
    requires Enabled(s, MarkReturn(t))
  {
    var m := s.ctxs[t].mark;
    var p := Curr(s, t);
    var lists := s.ctxs[t].lists;
    SetCtx(s, t, s.ctxs[t].(mark := NoMark,
                            lists := if m.dirty then lists.With(p, lists.At(p) + [m.range]) else lists))
  }

  function AfterWrite(s: State, t: nat, l: nat, v: Value): State
    requires Enabled(s, Write(t, l, v))
  {
    s.(dram := s.dram[l := v], hist := s.hist + [Event(Num(s, t), t, s.ctxs[t].ops, l, v)])
  }

  /** One test, or the move to the next range, or the end of a context with the clearing of its list. */
  function AfterScanStep(s: State): State
    requires Enabled(s, ScanStep)
  {
    var Scan(c, k, i) := s.cp;
    if !ScanInRange(s, c, k) then
      SetCtx(s, c, s.ctxs[c].(lists := s.ctxs[c].lists.With(Prev(s), []))).(cp := Scan(c + 1, 0, 0))
    else if i >= ScanRange(s, c, k).count then
      s.(cp := Scan(c, k + 1, 0))
    else if BitAt(s, Prev(s), ScanRange(s, c, k).base + i) then
      s.(cp := Copy(c, k, i))
    else
      s.(cp := Scan(c, k, i + 1))
  }

  function AfterCopyLine(s: State, v: Value): State
    requires Enabled(s, CopyLine(v))
  {
    var Copy(c, k, i) := s.cp;
    s.(master := s.master + [Entry(ScanRange(s, c, k).base + i, v)], cp := Clear(c, k, i))
  }

  function AfterClearLine(s: State): State
    requires Enabled(s, ClearLine)
  {
    var Clear(c, k, i) := s.cp;
    var p := Prev(s);
    s.(bits := s.bits.With(p, SetBit(s.bits.At(p), ScanRange(s, c, k).base + i, false)), cp := Scan(c, k, i + 1))
  }

  function WithoutSaver(saver: map<nat, nat>, t: nat): map<nat, nat> {
    map l | l in saver && saver[l] != t :: saver[l]
  }

  /** One replay store, one fence, or the end of clearing one log. */
  function AfterUpdateStep(s: State): State
    requires Enabled(s, UpdateStep)
  {
    match s.cp
    case ReplayMaster(n) =>
      if n < |s.master| then s.(pending := s.pending + [s.master[n]], cp := ReplayMaster(n + 1))
      else s.(nvm := Apply(s.nvm, s.pending), pending := [], cp := ReplayUser(0, 0))
    case ReplayUser(c, n) =>
      if c < |s.ctxs| then
        if n < |s.ctxs[c].log| then
          s.(pending := s.pending + [s.ctxs[c].log[n]], cp := ReplayUser(c, n + 1))
        else s.(cp := ReplayUser(c + 1, 0))
      else s.(nvm := Apply(s.nvm, s.pending), pending := [], cp := ClearMaster)
    case ClearMaster => s.(master := [], cp := ClearUser(0))
    case ClearUser(c) =>
      if c < |s.ctxs| then
        SetCtx(s, c, s.ctxs[c].(log := [])).(saver := WithoutSaver(s.saver, c), cp := ClearUser(c + 1))
      else s.(cp := Done)
  }

  function Next(s: State, a: Action): State
    requires Enabled(s, a)
  {
    match a
    case Ep(ea) => AfterEpochAction(s, ea)
    case MarkCall(t, r) => SetMark(s, t, Mark(r, 0, false, Head))
    case MarkTest(t) => AfterMarkTest(s, t)
    case MarkTestPrev(t) => AfterMarkTestPrev(s, t)
    case MarkClearPrev(t) => AfterMarkClearPrev(s, t)
    case MarkPush(t) => AfterMarkPush(s, t)
    case MarkSet(t) => AfterMarkSet(s, t)
    case MarkReturn(t) => AfterMarkReturn(s, t)
    case Write(t, l, v) => AfterWrite(s, t, l, v)
    case ScanStep => AfterScanStep(s)
    case CopyLine(v) => AfterCopyLine(s, v)
    case ClearLine => AfterClearLine(s)
    case UpdateStep => AfterUpdateStep(s)
  }

  /** A library that starts with a global word: both heaps hold the same content, nothing is dirty, no thread is registered. */
  function Initial(first: E.Begin, heap: seq<Value>): State {
    var clear := seq(|heap|, _ => false);
    var nobody := seq(|heap|, _ => 0);
    State(E.Start(first), [], Pair(clear, clear), [], heap, heap, [], Rest, heap, [], {}, {}, map[], map[],
          Pair(nobody, nobody))
  }

  /** Some thread has found the old bit of a line set and has not yet pushed the old content of the line. */
  predicate SaveInFlight(s: State) {
    exists t | 0 <= t < |s.ctxs| :: IsAt(s, t, ClearPrev) || IsAt(s, t, PushOld)
  }

  /**
   * A step of the code, except that the checkpointing thread does not enter NVM_Heap_Update while a copy on
   * write is in flight. Every step of a program whose copy on write is atomic is of this kind.
   */
  predicate Guarded(s: State, a: Action) {
    Enabled(s, a) && (a == Ep(E.StartUpdating) ==> !SaveInFlight(s))
  }

  ghost predicate Run(s: State, acts: seq<Action>, s': State)
    decreases |acts|
  {
    if acts == [] then s == s' else Guarded(s, acts[0]) && Run(Next(s, acts[0]), acts[1..], s')
  }

  /** The heap as the stores of epochs up to `k`, and no others, make it. */
  function Snapshot(boot: seq<Value>, hist: seq<Event>, k: int): (r: seq<Value>)
    ensures |r| == |boot|
  {
    if hist == [] then boot
    else
      var r := Snapshot(boot, hist[..|hist| - 1], k);
      var ev := hist[|hist| - 1];
      if ev.epoch <= k then Store(r, Entry(ev.line, ev.val)) else r
  }

  function Snap(s: State, k: int): (r: seq<Value>)
    ensures |r| == |s.boot|
  {
    Snapshot(s.boot, s.hist, k)
  }
}

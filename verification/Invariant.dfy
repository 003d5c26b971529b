/** What every reachable state of the checkpoint protocol satisfies. */
module Invariant {
  import opened EpochPhase
  import opened Redo
  import opened Protocol
  import E = Epochs

  function Val(h: seq<Value>, l: nat): Value {
    if l < |h| then h[l] else 0
  }

  /** The content of line `l` at the end of the previous epoch, made by the stores of that and earlier epochs. */
  function Old(s: State, l: nat): Value {
    Val(Snap(s, Epoch(s) - 1), l)
  }

  ghost predicate CoversFrom(list: seq<Range>, k: nat, l: nat) {
    exists j :: k <= j < |list| && list[j].Has(l)
  }

  predicate InLines(list: seq<Range>, n: nat) {
    forall j | 0 <= j < |list| :: list[j].base + list[j].count <= n
  }

  /** Bits, DRAM, NVM and the auxiliary arrays all have one element per line. */
  ghost predicate Sizes(s: State) {
    && |s.ctxs| == |s.ep.threads|
    && |s.dram| == |s.nvm| == |s.boot|
    && |s.bits.even| == |s.bits.odd| == |s.setter.even| == |s.setter.odd| == |s.dram|
    && (forall l | l in s.owner :: l < |s.dram|)
  }

  /** One user: where it is in `mark`, and what the lines it has marked in this operation look like. */
  ghost predicate UserInv(s: State, t: nat) {
    t < |s.ctxs| ==>
      var x := s.ctxs[t];
      && (x.mark.Mark? ==>
            && E.InOperation(s.ep, t)
            && x.mark.range.base + x.mark.range.count <= |s.dram|
            && x.mark.i <= x.mark.range.count
            && (x.mark.at != Head ==>
                  && x.mark.i < x.mark.range.count
                  && MarkLine(x.mark) in s.owner && s.owner[MarkLine(x.mark)] == t))
      && InLines(x.lists.even, |s.dram|)
      && InLines(x.lists.odd, |s.dram|)
      && (!E.InOperation(s.ep, t) ==> x.marked == {})
      && (forall l | l in x.marked :: MarkedInv(s, t, l))
  }

  /** A line that the operation of thread `t` has marked. */
  ghost predicate MarkedInv(s: State, t: nat, l: nat) {
    if Num(s, t) == Epoch(s) then BitAt(s, This(s), l)
    else l in s.before && (BitAt(s, Prev(s), l) || l in s.now)
  }

  /** One line in the middle of a mark. */
  ghost predicate OwnerInv(s: State, l: nat) {
    l in s.owner ==>
      var t := s.owner[l];
      && MidMark(s, t, l)
      && !BitAt(s, Curr(s, t), l)
      && (Num(s, t) == Epoch(s) ==> l in s.now)
      && (Num(s, t) != Epoch(s) ==>
            && l in s.before && l !in s.now
            && (IsAt(s, t, TestPrev) || IsAt(s, t, SetCurr)))
      && (IsAt(s, t, ClearPrev) || IsAt(s, t, PushOld) ==> l in s.before)
      && (s.ep.stage.Updating? || s.ep.stage.Resting? ==> IsAt(s, t, TestPrev) || IsAt(s, t, SetCurr))
  }

  predicate OwnerAt(s: State, l: nat, at: Spot) {
    l in s.owner && IsAt(s, s.owner[l], at)
  }

  /** The bits of one line against the epochs in which it has been marked. */
  ghost predicate BitsInv(s: State, l: nat) {
    && (BitAt(s, This(s), l) ==> l in s.now)
    && (l in s.now ==> BitAt(s, This(s), l) || (l in s.owner && Num(s, s.owner[l]) == Epoch(s)))
    && (BitAt(s, Prev(s), l) ==>
          && l in s.before
          && (l in s.now ==> OwnerAt(s, l, TestPrev) || OwnerAt(s, l, ClearPrev)))
    && (s.ep.stage.Updating? || s.ep.stage.Resting? ==> !BitAt(s, Prev(s), l))
  }

  /** The old content of `l` is in the hands of a thread that has cleared the old bit. */
  predicate Saving(s: State, l: nat) {
    OwnerAt(s, l, PushOld)
  }

  /** `l` is being marked for the first time in the previous epoch, by an operation of that epoch. */
  predicate Early(s: State, l: nat) {
    l in s.owner && Num(s, s.owner[l]) != Epoch(s)
  }

  /** The content of `l` at the end of the previous epoch is not lost. */
  ghost predicate Captured(s: State, l: nat) {
    || BitAt(s, Prev(s), l)
    || Saving(s, l)
    || l in s.saver
    || HasLine(s.master, l)
    || ((l !in s.before || Early(s, l)) && Val(s.nvm, l) == Old(s, l))
  }

  predicate ScanPc(s: State) {
    s.cp.Scan? || s.cp.Copy? || s.cp.Clear?
  }

  /** The line that the checkpointing thread is testing, copying or clearing. */
  predicate ScanLine(s: State, l: nat) {
    ScanPc(s) && ScanInRange(s, s.cp.c, s.cp.k) && l == ScanRange(s, s.cp.c, s.cp.k).base + s.cp.i
  }

  ghost predicate ValueInv(s: State, l: nat) {
    && (!BitAt(s, This(s), l) ==> Old(s, l) == Val(s.dram, l))
    && (s.ep.stage.Waiting? || s.ep.stage.Logging? || s.cp.ReplayMaster? ==> Captured(s, l))
    && (s.cp.Copy? && ScanLine(s, l) ==> BitAt(s, Prev(s), l) || Saving(s, l) || l in s.saver)
    && (s.cp.Clear? && ScanLine(s, l) ==> HasLine(s.master, l))
  }

  /** The range that a pending `mark` will append covers `l`. */
  predicate PendingCover(s: State, t: nat, p: bool, l: nat) {
    && IsMarking(s, t) && s.ctxs[t].mark.dirty && Curr(s, t) == p
    && s.ctxs[t].mark.range.Has(l)
  }

  function Setter(s: State, p: bool, l: nat): nat {
    if l < |s.setter.At(p)| then s.setter.At(p)[l] else 0
  }

  function List(s: State, t: nat, p: bool): seq<Range> {
    if t < |s.ctxs| then s.ctxs[t].lists.At(p) else []
  }

  /** A set bit is covered by the list of the thread that set it, or will be when its `mark` returns. */
  ghost predicate Listed(s: State, p: bool, l: nat) {
    var t := Setter(s, p, l);
    t < |s.ctxs| && (Covers(List(s, t, p), l) || PendingCover(s, t, p, l))
  }

  /** During log persistence: a set bit of the previous parity is covered by what is still to be scanned. */
  ghost predicate Ahead(s: State, l: nat) {
    var t := Setter(s, Prev(s), l);
    && ScanPc(s)
    && t < |s.ctxs|
    && var list := List(s, t, Prev(s));
    && s.cp.c <= t
    && (s.cp.c < t ==> Covers(list, l))
    && (s.cp.c == t ==>
          || CoversFrom(list, s.cp.k + 1, l)
          || (s.cp.k < |list| && list[s.cp.k].Has(l) && list[s.cp.k].base + s.cp.i <= l))
  }

  ghost predicate CoverInv(s: State, l: nat) {
    && (BitAt(s, This(s), l) ==> Listed(s, This(s), l))
    && (BitAt(s, Prev(s), l) ==> if s.ep.stage.Logging? then Ahead(s, l) else Listed(s, Prev(s), l))
  }

  ghost predicate LineInv(s: State, l: nat) {
    l < |s.dram| ==> OwnerInv(s, l) && BitsInv(s, l) && ValueInv(s, l) && CoverInv(s, l)
  }

  /** One entry of the redo log of thread `t`. */
  ghost predicate SavedInv(s: State, t: nat, x: Entry) {
    && x.line < |s.boot|
    && x.val == Old(s, x.line)
    && x.line in s.saver && s.saver[x.line] == t
    && x.line in s.now && x.line in s.before
    && (BitAt(s, This(s), x.line) || OwnerAt(s, x.line, SetCurr))
  }

  ghost predicate UserLogsInv(s: State) {
    && (forall t, j | 0 <= t < |s.ctxs| && 0 <= j < |s.ctxs[t].log| :: SavedInv(s, t, s.ctxs[t].log[j]))
    && (forall l | l in s.saver :: s.saver[l] < |s.ctxs| && HasLine(s.ctxs[s.saver[l]].log, l))
  }

  /** One entry of the checkpointing thread's log: right, or overruled by a user's entry for the same line. */
  ghost predicate CopiedInv(s: State, x: Entry) {
    && x.line < |s.boot|
    && x.line in s.before
    && (x.val == Old(s, x.line) || x.line in s.saver || Saving(s, x.line))
  }

  ghost predicate MasterInv(s: State) {
    && (s.cp.Rest? || s.cp.ClearUser? || s.cp.Done? ==> s.master == [])
    && (forall j | 0 <= j < |s.master| :: CopiedInv(s, s.master[j]))
  }

  /** Program counter of the checkpointing thread and address lists. */
  ghost predicate CheckpointInv(s: State) {
    && (s.ep.stage.Resting? || s.ep.stage.Waiting? <==> s.cp == Rest)
    && (s.ep.stage.Logging? <==> ScanPc(s))
    && (s.cp.Scan? ==> s.cp.c <= |s.ctxs|)
    && (s.cp.Copy? || s.cp.Clear? ==>
          && ScanInRange(s, s.cp.c, s.cp.k)
          && s.cp.i < ScanRange(s, s.cp.c, s.cp.k).count)
    && (ScanPc(s) ==> forall t: nat | t < s.cp.c :: List(s, t, Prev(s)) == [])
    && (s.ep.stage.Updating? || s.ep.stage.Resting? ==> forall t: nat :: List(s, t, Prev(s)) == [])
  }

  /** The two sides of the NVM heap, durable and not yet durable. */
  ghost predicate HeapInv(s: State) {
    && (s.ep.stage.Waiting? || s.ep.stage.Logging? || s.cp.ReplayMaster? ==> s.nvm == Snap(s, Epoch(s) - 2))
    && (s.ep.stage.Resting? || s.cp.ClearMaster? || s.cp.ClearUser? || s.cp.Done? ==>
          s.nvm == Snap(s, Epoch(s) - 1))
    && (s.ep.stage.Resting? && s.ep.global.phase != NvmHeapUpdate ==> s.nvm == Snap(s, Epoch(s) - 2))
    && (!s.cp.ReplayMaster? && !s.cp.ReplayUser? ==> s.pending == [])
    && (s.cp.ReplayMaster? ==> s.cp.n <= |s.master| && s.pending == s.master[..s.cp.n])
    && (s.cp.ReplayUser? ==> ReplayUserInv(s))
    && (s.cp.ClearUser? ==> forall t | 0 <= t < s.cp.c && t < |s.ctxs| :: s.ctxs[t].log == [])
    && (s.cp.Done? || s.ep.stage.Resting? ==> forall t | 0 <= t < |s.ctxs| :: s.ctxs[t].log == [])
  }

  ghost predicate ReplayUserInv(s: State)
    requires s.cp.ReplayUser?
  {
    && (forall j | 0 <= j < |s.pending| ::
          s.pending[j].line in s.saver && s.pending[j].val == Old(s, s.pending[j].line))
    && (forall l: nat | l < |s.nvm| && l !in s.saver :: Val(s.nvm, l) == Old(s, l))
    && (forall l | l in s.saver && s.saver[l] < s.cp.c :: HasLine(s.pending, l))
    && s.cp.c <= |s.ctxs|
    && (s.cp.c < |s.ctxs| ==>
          && s.cp.n <= |s.ctxs[s.cp.c].log|
          && forall j | 0 <= j < s.cp.n :: HasLine(s.pending, s.ctxs[s.cp.c].log[j].line))
  }

  /** The history of stores: of which operations and in which epochs. */
  ghost predicate EventInv(s: State, ev: Event) {
    && ev.line < |s.boot|
    && ev.epoch <= Epoch(s)
    && (ev.epoch == Epoch(s) ==> ev.line in s.now && BitAt(s, This(s), ev.line))
    && ev.thread < |s.ctxs|
    && ev.op <= s.ctxs[ev.thread].ops
    && (ev.op == s.ctxs[ev.thread].ops ==>
          E.InOperation(s.ep, ev.thread) && Num(s, ev.thread) == ev.epoch)
  }

  /** Stores to one line happen in epoch order, and one operation stores in one epoch. */
  ghost predicate InEpochOrder(hist: seq<Event>) {
    forall i, j | 0 <= i < j < |hist| ::
      && (hist[i].line == hist[j].line ==> hist[i].epoch <= hist[j].epoch)
      && (hist[i].thread == hist[j].thread && hist[i].op == hist[j].op ==> hist[i].epoch == hist[j].epoch)
  }

  ghost predicate HistoryInv(s: State) {
    && s.dram == Snap(s, Epoch(s))
    && (forall j | 0 <= j < |s.hist| :: EventInv(s, s.hist[j]))
    && InEpochOrder(s.hist)
  }

  ghost predicate Inv(s: State) {
    && E.Inv(s.ep)
    && Sizes(s)
    && (forall t: nat :: UserInv(s, t))
    && (forall l: nat :: LineInv(s, l))
    && UserLogsInv(s)
    && MasterInv(s)
    && CheckpointInv(s)
    && HeapInv(s)
    && HistoryInv(s)
  }

  /** `Inv` as its parts, for proofs that work on one part and hide the others. */
  lemma OpenInv(s: State)
    requires Inv(s)
    ensures E.Inv(s.ep) && Sizes(s)
    ensures forall t: nat :: UserInv(s, t)
    ensures forall l: nat :: LineInv(s, l)
    ensures UserLogsInv(s) && MasterInv(s) && CheckpointInv(s) && HeapInv(s) && HistoryInv(s)
  {
  }

  lemma CloseInv(s: State)
    requires E.Inv(s.ep) && Sizes(s)
    requires forall t: nat :: UserInv(s, t)
    requires forall l: nat :: LineInv(s, l)
    requires UserLogsInv(s) && MasterInv(s) && CheckpointInv(s) && HeapInv(s) && HistoryInv(s)
    ensures Inv(s)
  {
  }
}

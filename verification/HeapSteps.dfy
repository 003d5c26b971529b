/** Stores to the DRAM heap and the steps of the checkpointing thread keep the invariant. */
module HeapSteps {
  import opened Redo
  import opened Protocol
  import opened Invariant
  import U = UserSteps
  import E = Epochs

  lemma SnapshotAppend(boot: seq<Value>, hist: seq<Event>, ev: Event, k: int)
    ensures Snapshot(boot, hist + [ev], k) ==
            if ev.epoch <= k then Store(Snapshot(boot, hist, k), Entry(ev.line, ev.val)) else Snapshot(boot, hist, k)
  {
    assert (hist + [ev])[..|hist|] == hist;
  }

  /** A store leaves the snapshots of earlier epochs alone and is seen in its own and later ones. */
  lemma WriteSnap(s: State, t: nat, l0: nat, v: Value)
    requires Enabled(s, Write(t, l0, v)) && |s.boot| == |s.dram|
    ensures forall k: int, l: nat :: l != l0 || k < Num(s, t) ==>
              Val(Snap(AfterWrite(s, t, l0, v), k), l) == Val(Snap(s, k), l)
    ensures forall k: int :: k < Num(s, t) ==> Snap(AfterWrite(s, t, l0, v), k) == Snap(s, k)
    ensures forall k: int :: k >= Num(s, t) ==>
              && Snap(AfterWrite(s, t, l0, v), k) == Snap(s, k)[l0 := v]
              && Val(Snap(AfterWrite(s, t, l0, v), k), l0) == v
  {
    forall k: int
      ensures Snap(AfterWrite(s, t, l0, v), k) == if k < Num(s, t) then Snap(s, k) else Snap(s, k)[l0 := v]
    {
      SnapshotAppend(s.boot, s.hist, Event(Num(s, t), t, s.ctxs[t].ops, l0, v), k);
    }
  }

  /** What is known of a line that an operation may store to. */
  predicate Storable(s: State, t: nat, l0: nat) {
    && E.InOperation(s.ep, t)
    && l0 < |s.dram| == |s.boot|
    && Prev(s) == !This(s)
    && (Num(s, t) == Epoch(s) ==> BitAt(s, This(s), l0) && l0 in s.now)
    && (Num(s, t) != Epoch(s) ==>
          && Num(s, t) == Epoch(s) - 1 && s.ep.stage.Waiting? && s.cp == Rest
          && l0 !in s.now && BitAt(s, Prev(s), l0) && !BitAt(s, This(s), l0))
  }

  lemma WriteStorable(s: State, t: nat, l0: nat, v: Value)
    requires Inv(s) && Enabled(s, Write(t, l0, v))
    ensures Storable(s, t, l0)
  {
    assert UserInv(s, t) && MarkedInv(s, t, l0);
    assert LineInv(s, l0);
    assert E.ThreadInv(s.ep, t);
    U.OperationParity(s, t);
  }

  lemma WriteLine(s: State, t: nat, l0: nat, v: Value, l: nat)
    requires Enabled(s, Write(t, l0, v)) && Storable(s, t, l0) && Sizes(s) && LineInv(s, l)
    ensures LineInv(AfterWrite(s, t, l0, v), l)
  {
    hide E.Parity;
    WriteSnap(s, t, l0, v);
  }

  lemma WriteLogs(s: State, t: nat, l0: nat, v: Value)
    requires Enabled(s, Write(t, l0, v)) && Storable(s, t, l0) && UserLogsInv(s) && MasterInv(s)
    ensures UserLogsInv(AfterWrite(s, t, l0, v)) && MasterInv(AfterWrite(s, t, l0, v))
  {
    hide E.Parity;
    var s' := AfterWrite(s, t, l0, v);
    WriteSnap(s, t, l0, v);
    forall u, j | 0 <= u < |s'.ctxs| && 0 <= j < |s'.ctxs[u].log|
      ensures SavedInv(s', u, s'.ctxs[u].log[j])
    {
      assert SavedInv(s, u, s.ctxs[u].log[j]);
    }
    forall j | 0 <= j < |s'.master|
      ensures CopiedInv(s', s'.master[j])
    {
      assert CopiedInv(s, s.master[j]);
    }
  }

  lemma WriteHeap(s: State, t: nat, l0: nat, v: Value)
    requires Enabled(s, Write(t, l0, v)) && Storable(s, t, l0) && HeapInv(s)
    ensures HeapInv(AfterWrite(s, t, l0, v))
  {
    hide E.Parity;
    WriteSnap(s, t, l0, v);
  }

  lemma WriteEvents(s: State, t: nat, l0: nat, v: Value, j: nat)
    requires Enabled(s, Write(t, l0, v)) && Storable(s, t, l0) && HistoryInv(s) && j < |AfterWrite(s, t, l0, v).hist|
    ensures EventInv(AfterWrite(s, t, l0, v), AfterWrite(s, t, l0, v).hist[j])
  {
    hide E.Parity, Snap;
    if j < |s.hist| { assert EventInv(s, s.hist[j]); }
  }

  lemma WriteInOrder(s: State, t: nat, l0: nat, v: Value)
    requires Enabled(s, Write(t, l0, v)) && Storable(s, t, l0) && HistoryInv(s)
    ensures InEpochOrder(AfterWrite(s, t, l0, v).hist)
  {
    hide E.Parity, Snap;
    forall i | 0 <= i < |s.hist|
      ensures s.hist[i].line == l0 ==> s.hist[i].epoch <= Num(s, t)
      ensures s.hist[i].thread == t && s.hist[i].op == s.ctxs[t].ops ==> s.hist[i].epoch == Num(s, t)
    {
      assert EventInv(s, s.hist[i]);
    }
  }

  lemma WriteHistory(s: State, t: nat, l0: nat, v: Value)
    requires Enabled(s, Write(t, l0, v)) && Storable(s, t, l0) && HistoryInv(s)
    ensures HistoryInv(AfterWrite(s, t, l0, v))
  {
    var s' := AfterWrite(s, t, l0, v);
    WriteSnap(s, t, l0, v);
    assert s'.dram == Snap(s', Epoch(s'));
    hide EventInv, InEpochOrder, Snap, AfterWrite;
    forall j | 0 <= j < |s'.hist|
      ensures EventInv(s', s'.hist[j])
    {
      WriteEvents(s, t, l0, v, j);
    }
    WriteInOrder(s, t, l0, v);
  }

  lemma WriteCheckpoint(s: State, t: nat, l0: nat, v: Value)
    requires Enabled(s, Write(t, l0, v)) && CheckpointInv(s)
    ensures CheckpointInv(AfterWrite(s, t, l0, v))
  {
    hide E.Parity;
    var s' := AfterWrite(s, t, l0, v);
    assert s'.ctxs == s.ctxs && s'.cp == s.cp && s'.ep == s.ep && Prev(s') == Prev(s);
    assert ScanPc(s') == ScanPc(s);
    forall u: nat
      ensures List(s', u, Prev(s')) == List(s, u, Prev(s))
    {
    }
  }

  lemma WriteKeeps(s: State, t: nat, l0: nat, v: Value)
    requires Inv(s) && Enabled(s, Write(t, l0, v))
    ensures Inv(AfterWrite(s, t, l0, v))
  {
    var s' := AfterWrite(s, t, l0, v);
    assert s'.ep == s.ep && Sizes(s');
    forall u: nat
      ensures UserInv(s', u)
    {
      assert UserInv(s, u);
    }
    hide *;
    OpenInv(s);
    WriteStorable(s, t, l0, v);
    forall l: nat
      ensures LineInv(s', l)
    {
      WriteLine(s, t, l0, v, l);
    }
    WriteLogs(s, t, l0, v);
    WriteCheckpoint(s, t, l0, v);
    WriteHeap(s, t, l0, v);
    WriteHistory(s, t, l0, v);
    CloseInv(s');
  }

  /** What the steps of log persistence leave alone. */
  ghost predicate ScanFrame(s: State, s': State) {
    && s'.ep == s.ep && s.ep.stage.Logging? && ScanPc(s) && ScanPc(s')
    && s'.dram == s.dram && s'.nvm == s.nvm && s'.pending == s.pending && s'.boot == s.boot && s'.hist == s.hist
    && s'.now == s.now && s'.before == s.before && s'.owner == s.owner && s'.saver == s.saver && s'.setter == s.setter
    && |s'.ctxs| == |s.ctxs|
    && (forall u | 0 <= u < |s.ctxs| ::
          && s'.ctxs[u].log == s.ctxs[u].log && s'.ctxs[u].mark == s.ctxs[u].mark
          && s'.ctxs[u].marked == s.ctxs[u].marked && s'.ctxs[u].ops == s.ctxs[u].ops
          && s'.ctxs[u].lists.At(This(s)) == s.ctxs[u].lists.At(This(s))
          && (s'.ctxs[u].lists.At(Prev(s)) == s.ctxs[u].lists.At(Prev(s)) || s'.ctxs[u].lists.At(Prev(s)) == []))
    && |s'.bits.even| == |s.bits.even| && |s'.bits.odd| == |s.bits.odd|
    && (forall l: nat :: BitAt(s', This(s), l) == BitAt(s, This(s), l) && (BitAt(s', Prev(s), l) ==> BitAt(s, Prev(s), l)))
    && Prev(s) == !This(s)
  }

  lemma ScanFrameUser(s: State, s': State, u: nat)
    requires ScanFrame(s, s') && E.Inv(s.ep) && Sizes(s) && UserInv(s, u)
    ensures UserInv(s', u)
  {
    if E.InOperation(s.ep, u) { U.OperationParity(s, u); }
    hide E.Inv, E.Parity;
    if u < |s.ctxs| {
      forall l | l in s'.ctxs[u].marked
        ensures MarkedInv(s', u, l)
      {
        assert MarkedInv(s, u, l);
      }
    }
  }

  lemma ScanFrameMarks(s: State, s': State, l: nat)
    requires ScanFrame(s, s') && E.Inv(s.ep) && OwnerInv(s, l) && BitsInv(s, l)
    requires l in s.owner ==> UserInv(s, s.owner[l])
    ensures OwnerInv(s', l) && BitsInv(s', l)
  {
    if l in s.owner { U.OperationParity(s, s.owner[l]); }
    hide E.Inv, E.Parity;
  }

  lemma ScanFrameRest(s: State, s': State)
    requires ScanFrame(s, s') && UserLogsInv(s) && HeapInv(s) && HistoryInv(s)
    ensures UserLogsInv(s') && HeapInv(s') && HistoryInv(s')
  {
    hide E.Parity;
    forall u, j | 0 <= u < |s'.ctxs| && 0 <= j < |s'.ctxs[u].log|
      ensures SavedInv(s', u, s'.ctxs[u].log[j])
    {
      assert SavedInv(s, u, s.ctxs[u].log[j]);
    }
    forall j | 0 <= j < |s'.hist|
      ensures EventInv(s', s'.hist[j])
    {
      assert EventInv(s, s.hist[j]);
    }
  }

  /** Left to show of one step of log persistence: the values and coverage of lines, the log, the control state. */
  lemma ScanKeeps(s: State, s': State)
    requires Inv(s) && ScanFrame(s, s')
    requires forall l: nat | l < |s.dram| :: ValueInv(s', l) && CoverInv(s', l)
    requires MasterInv(s') && CheckpointInv(s')
    ensures Inv(s')
  {
    assert Sizes(s');
    assert s'.ep == s.ep;
    forall l: nat
      ensures LineInv(s', l)
    {
      assert LineInv(s, l);
      hide ValueInv, CoverInv, OwnerInv, BitsInv, Inv;
      if l < |s.dram| {
        OpenInv(s);
        ScanFrameMarks(s, s', l);
      }
    }
    hide *;
    OpenInv(s);
    forall u: nat
      ensures UserInv(s', u)
    {
      ScanFrameUser(s, s', u);
    }
    ScanFrameRest(s, s');
    CloseInv(s');
  }

  lemma PrevLists(s: State, s': State)
    requires ScanFrame(s, s')
    ensures forall u: nat :: List(s', u, This(s)) == List(s, u, This(s))
    ensures forall u: nat :: List(s', u, Prev(s)) == List(s, u, Prev(s)) || List(s', u, Prev(s)) == []
  {
    hide E.Parity;
  }

  lemma HasLinePrefix(log: seq<Entry>, more: seq<Entry>, l: nat)
    requires log <= more && HasLine(log, l)
    ensures HasLine(more, l)
  {
    var j :| 0 <= j < |log| && log[j].line == l;
    assert more[j].line == l;
  }

  lemma ScanValue(s: State, s': State, l: nat)
    requires ScanFrame(s, s') && ValueInv(s, l) && s.master <= s'.master
    requires BitAt(s, Prev(s), l) ==> BitAt(s', Prev(s), l) || HasLine(s'.master, l)
    requires s'.cp.Copy? && ScanLine(s', l) ==> BitAt(s', Prev(s), l)
    requires s'.cp.Clear? && ScanLine(s', l) ==> HasLine(s'.master, l)
    ensures ValueInv(s', l)
  {
    hide E.Parity;
    if HasLine(s.master, l) { HasLinePrefix(s.master, s'.master, l); }
  }

  lemma ScanCover(s: State, s': State, l: nat)
    requires ScanFrame(s, s') && CoverInv(s, l)
    requires BitAt(s', Prev(s), l) && Ahead(s, l) ==> Ahead(s', l)
    ensures CoverInv(s', l)
  {
    hide E.Parity, Ahead;
    PrevLists(s, s');
  }

  lemma SameMaster(s: State, s': State)
    requires ScanFrame(s, s') && MasterInv(s) && s'.master == s.master
    ensures MasterInv(s')
  {
    hide E.Parity;
    forall j | 0 <= j < |s'.master|
      ensures CopiedInv(s', s'.master[j])
    {
      assert CopiedInv(s, s.master[j]);
    }
  }

  /** The list of context `c` has been scanned to its end and is cleared. */
  lemma ClearListAhead(s: State, s': State, c: nat, k: nat, i: nat, l: nat)
    requires ScanFrame(s, s') && s.cp == Scan(c, k, i) && !ScanInRange(s, c, k) && s'.cp == Scan(c + 1, 0, 0)
    requires forall u: nat | u != c :: List(s', u, Prev(s)) == List(s, u, Prev(s))
    requires Ahead(s, l)
    ensures Ahead(s', l)
  {
    hide E.Parity;
    var t := Setter(s, Prev(s), l);
    var list := List(s, t, Prev(s));
    if t == c + 1 {
      var j :| 0 <= j < |list| && list[j].Has(l);
      assert j == 0 || CoversFrom(list, 1, l);
    }
  }

  /** Range `k` has been scanned to its end. */
  lemma NextRangeAhead(s: State, s': State, c: nat, k: nat, i: nat, l: nat)
    requires s.cp == Scan(c, k, i) && ScanInRange(s, c, k) && ScanRange(s, c, k).count <= i
    requires s' == s.(cp := Scan(c, k + 1, 0))
    requires Ahead(s, l)
    ensures Ahead(s', l)
  {
    hide E.Parity;
    var t := Setter(s, Prev(s), l);
    var list := List(s, t, Prev(s));
    if t == c {
      var j :| k + 1 <= j < |list| && list[j].Has(l);
      assert j == k + 1 || CoversFrom(list, k + 2, l);
    }
  }

  /** The scan moves past a line whose bit is clear. */
  lemma NextLineAhead(s: State, s': State, l: nat)
    requires ScanPc(s) && ScanInRange(s, s.cp.c, s.cp.k) && s'.cp == Scan(s.cp.c, s.cp.k, s.cp.i + 1)
    requires s'.ep == s.ep && s'.ctxs == s.ctxs && s'.setter == s.setter
    requires Ahead(s, l) && !ScanLine(s, l)
    ensures Ahead(s', l)
  {
    hide E.Parity;
  }

  lemma LineParts(s: State, l: nat)
    requires Inv(s) && l < |s.dram|
    ensures BitsInv(s, l) && OwnerInv(s, l) && ValueInv(s, l) && CoverInv(s, l)
  {
    assert LineInv(s, l);
  }

  lemma ClearListStep(s: State, c: nat, k: nat, i: nat)
    requires Enabled(s, ScanStep) && s.cp == Scan(c, k, i) && !ScanInRange(s, c, k)
    requires CheckpointInv(s)
    ensures var s' := AfterScanStep(s);
      && ScanFrame(s, s') && CheckpointInv(s')
      && s'.cp == Scan(c + 1, 0, 0) && s'.master == s.master && s'.bits == s.bits
      && forall u: nat | u != c :: List(s', u, Prev(s)) == List(s, u, Prev(s))
  {
    U.Parities(s);
    hide E.Parity;
    var s' := AfterScanStep(s);
    assert forall u: nat | u != c :: List(s', u, Prev(s)) == List(s, u, Prev(s));
    assert List(s', c, Prev(s)) == [];
  }

  lemma ClearListKeeps(s: State, c: nat, k: nat, i: nat)
    requires Inv(s) && Enabled(s, ScanStep) && s.cp == Scan(c, k, i) && !ScanInRange(s, c, k)
    ensures Inv(AfterScanStep(s))
  {
    hide Enabled, AfterScanStep, Inv, UserInv, LineInv, OwnerInv, BitsInv, ValueInv, CoverInv, Ahead, ScanFrame;
    hide UserLogsInv, MasterInv, CheckpointInv, HeapInv, HistoryInv, E.Inv, E.Parity;
    var s' := AfterScanStep(s);
    OpenInv(s);
    ClearListStep(s, c, k, i);
    forall l: nat | l < |s.dram|
      ensures ValueInv(s', l) && CoverInv(s', l)
    {
      LineParts(s, l);
      ScanValue(s, s', l);
      if Ahead(s, l) { ClearListAhead(s, s', c, k, i, l); }
      ScanCover(s, s', l);
    }
    SameMaster(s, s');
    ScanKeeps(s, s');
  }

  lemma NextRangeStep(s: State, s': State, c: nat, k: nat, i: nat)
    requires s.cp == Scan(c, k, i) && s'.cp.Scan? && s'.cp.c == c && s' == s.(cp := s'.cp)
    requires CheckpointInv(s)
    ensures ScanFrame(s, s') && CheckpointInv(s')
  {
    U.Parities(s);
    hide E.Parity;
    assert forall u: nat :: List(s', u, Prev(s)) == List(s, u, Prev(s));
  }

  lemma NextRangeKeeps(s: State, s': State, c: nat, k: nat, i: nat)
    requires Inv(s) && s.cp == Scan(c, k, i) && ScanInRange(s, c, k) && ScanRange(s, c, k).count <= i
    requires s' == s.(cp := Scan(c, k + 1, 0))
    ensures Inv(s')
  {
    hide Enabled, AfterScanStep, Inv, UserInv, LineInv, OwnerInv, BitsInv, ValueInv, CoverInv, Ahead, ScanFrame;
    hide UserLogsInv, MasterInv, CheckpointInv, HeapInv, HistoryInv, E.Inv, E.Parity;
    OpenInv(s);
    NextRangeStep(s, s', c, k, i);
    forall l: nat | l < |s.dram|
      ensures ValueInv(s', l) && CoverInv(s', l)
    {
      LineParts(s, l);
      ScanValue(s, s', l);
      if Ahead(s, l) { NextRangeAhead(s, s', c, k, i, l); }
      ScanCover(s, s', l);
    }
    SameMaster(s, s');
    ScanKeeps(s, s');
  }

  /** The test finds the bit clear. */
  lemma SkipLineKeeps(s: State, s': State, c: nat, k: nat, i: nat)
    requires Inv(s) && s.cp == Scan(c, k, i) && ScanInRange(s, c, k)
    requires !BitAt(s, Prev(s), ScanRange(s, c, k).base + i)
    requires s' == s.(cp := Scan(c, k, i + 1))
    ensures Inv(s')
  {
    hide Enabled, AfterScanStep, Inv, UserInv, LineInv, OwnerInv, BitsInv, ValueInv, CoverInv, Ahead, ScanFrame;
    hide UserLogsInv, MasterInv, CheckpointInv, HeapInv, HistoryInv, E.Inv, E.Parity;
    OpenInv(s);
    NextRangeStep(s, s', c, k, i);
    forall l: nat | l < |s.dram|
      ensures ValueInv(s', l) && CoverInv(s', l)
    {
      LineParts(s, l);
      ScanValue(s, s', l);
      if Ahead(s, l) && !ScanLine(s, l) { NextLineAhead(s, s', l); }
      ScanCover(s, s', l);
    }
    SameMaster(s, s');
    ScanKeeps(s, s');
  }

  lemma TestLineStep(s: State, s': State, c: nat, k: nat, i: nat)
    requires s.cp == Scan(c, k, i) && ScanInRange(s, c, k) && i < ScanRange(s, c, k).count
    requires s' == s.(cp := Copy(c, k, i))
    requires CheckpointInv(s)
    ensures ScanFrame(s, s') && CheckpointInv(s')
    ensures forall l: nat :: Ahead(s, l) ==> Ahead(s', l)
  {
    U.Parities(s);
    hide E.Parity;
    assert forall u: nat :: List(s', u, Prev(s)) == List(s, u, Prev(s));
  }

  /** The test finds the bit set. */
  lemma TestLineKeeps(s: State, s': State, c: nat, k: nat, i: nat)
    requires Inv(s) && s.cp == Scan(c, k, i) && ScanInRange(s, c, k) && i < ScanRange(s, c, k).count
    requires BitAt(s, Prev(s), ScanRange(s, c, k).base + i)
    requires s' == s.(cp := Copy(c, k, i))
    ensures Inv(s')
  {
    hide Enabled, AfterScanStep, Inv, UserInv, LineInv, OwnerInv, BitsInv, ValueInv, CoverInv, Ahead, ScanFrame;
    hide UserLogsInv, MasterInv, CheckpointInv, HeapInv, HistoryInv, E.Inv, E.Parity;
    OpenInv(s);
    TestLineStep(s, s', c, k, i);
    forall l: nat | l < |s.dram|
      ensures ValueInv(s', l) && CoverInv(s', l)
    {
      LineParts(s, l);
      ScanValue(s, s', l);
      ScanCover(s, s', l);
    }
    SameMaster(s, s');
    ScanKeeps(s, s');
  }

  lemma ScanStepKeeps(s: State)
    requires Inv(s) && Enabled(s, ScanStep)
    ensures Inv(AfterScanStep(s))
  {
    hide Inv, E.Parity;
    var Scan(c, k, i) := s.cp;
    if !ScanInRange(s, c, k) {
      ClearListKeeps(s, c, k, i);
    } else if i >= ScanRange(s, c, k).count {
      NextRangeKeeps(s, AfterScanStep(s), c, k, i);
    } else if BitAt(s, Prev(s), ScanRange(s, c, k).base + i) {
      TestLineKeeps(s, AfterScanStep(s), c, k, i);
    } else {
      SkipLineKeeps(s, AfterScanStep(s), c, k, i);
    }
  }

  /** The copied entry is right, or its line is in the hands of a user or in a user's log already. */
  lemma CopiedEntry(s: State, v: Value, l: nat)
    requires Inv(s) && Enabled(s, CopyLine(v)) && ScanLine(s, l)
    ensures CopiedInv(s, Entry(l, v))
  {
    LineParts(s, l);
    U.Parities(s);
    assert UserLogsInv(s) && Sizes(s) && s.ep.stage.Logging?;
    if l in s.owner {
      assert UserInv(s, s.owner[l]);
      U.OperationParity(s, s.owner[l]);
    }
    hide Inv, E.Inv, E.Parity, Ahead, CoverInv;
    if !BitAt(s, Prev(s), l) && l in s.saver {
      var log := s.ctxs[s.saver[l]].log;
      var j :| 0 <= j < |log| && log[j].line == l;
      assert SavedInv(s, s.saver[l], log[j]);
    }
  }

  lemma CopyLineStep(s: State, v: Value, l: nat)
    requires Enabled(s, CopyLine(v)) && ScanLine(s, l)
    requires CheckpointInv(s) && MasterInv(s) && CopiedInv(s, Entry(l, v))
    ensures var s' := AfterCopyLine(s, v);
      && ScanFrame(s, s') && CheckpointInv(s') && MasterInv(s')
      && s'.cp == Clear(s.cp.c, s.cp.k, s.cp.i) && s'.bits == s.bits && s'.master == s.master + [Entry(l, v)]
    ensures forall l: nat :: Ahead(s, l) ==> Ahead(AfterCopyLine(s, v), l)
    ensures forall l': nat :: ScanLine(AfterCopyLine(s, v), l') <==> l' == l
  {
    U.Parities(s);
    hide E.Parity;
    var s' := AfterCopyLine(s, v);
    assert forall u: nat :: List(s', u, Prev(s)) == List(s, u, Prev(s));
    forall j | 0 <= j < |s'.master|
      ensures CopiedInv(s', s'.master[j])
    {
      if j < |s.master| { assert CopiedInv(s, s.master[j]); }
    }
  }

  lemma CopyLineKeeps(s: State, v: Value)
    requires Inv(s) && Enabled(s, CopyLine(v))
    ensures Inv(AfterCopyLine(s, v))
  {
    var s' := AfterCopyLine(s, v);
    var l0 := ScanRange(s, s.cp.c, s.cp.k).base + s.cp.i;
    assert ScanLine(s, l0);
    hide Enabled, AfterScanStep, Inv, UserInv, LineInv, OwnerInv, BitsInv, ValueInv, CoverInv, Ahead, ScanFrame;
    hide UserLogsInv, MasterInv, CheckpointInv, HeapInv, HistoryInv, E.Inv, E.Parity;
    hide AfterCopyLine, CopiedInv, ScanLine;
    OpenInv(s);
    CopiedEntry(s, v, l0);
    CopyLineStep(s, v, l0);
    U.HasLineAppend(s.master, Entry(l0, v), l0);
    forall l: nat | l < |s.dram|
      ensures ValueInv(s', l) && CoverInv(s', l)
    {
      LineParts(s, l);
      ScanValue(s, s', l);
      ScanCover(s, s', l);
    }
    ScanKeeps(s, s');
  }

  lemma ClearLineStep(s: State, l: nat)
    requires Enabled(s, ClearLine) && ScanLine(s, l) && CheckpointInv(s) && l < |s.bits.even| == |s.bits.odd|
    ensures var s' := AfterClearLine(s);
      && ScanFrame(s, s') && CheckpointInv(s') && s'.master == s.master
      && s'.ep == s.ep && s'.ctxs == s.ctxs && s'.setter == s.setter
      && s'.cp == Scan(s.cp.c, s.cp.k, s.cp.i + 1)
      && forall l': nat :: BitAt(s', Prev(s), l') <==> BitAt(s, Prev(s), l') && l' != l
  {
    U.Parities(s);
    hide E.Parity;
    var s' := AfterClearLine(s);
    assert forall u: nat :: List(s', u, Prev(s)) == List(s, u, Prev(s));
  }

  lemma ClearLineKeeps(s: State)
    requires Inv(s) && Enabled(s, ClearLine)
    ensures Inv(AfterClearLine(s))
  {
    var s' := AfterClearLine(s);
    var l0 := ScanRange(s, s.cp.c, s.cp.k).base + s.cp.i;
    assert ScanLine(s, l0) && l0 < |s.dram| && l0 < |s.bits.even| == |s.bits.odd| by {
      assert UserInv(s, s.cp.c);
    }
    assert HasLine(s.master, l0) by { LineParts(s, l0); }
    assert ScanInRange(s, s.cp.c, s.cp.k) && ScanPc(s) && s.cp.Clear?;
    assert forall l :: ScanLine(s, l) <==> l == l0;
    hide Enabled, AfterScanStep, Inv, UserInv, LineInv, OwnerInv, BitsInv, ValueInv, CoverInv, Ahead, ScanFrame;
    hide UserLogsInv, MasterInv, CheckpointInv, HeapInv, HistoryInv, E.Inv, E.Parity;
    hide AfterClearLine, ScanLine;
    OpenInv(s);
    ClearLineStep(s, l0);
    forall l: nat | l < |s.dram|
      ensures ValueInv(s', l) && CoverInv(s', l)
    {
      LineParts(s, l);
      ScanValue(s, s', l);
      if Ahead(s, l) && l != l0 { NextLineAhead(s, s', l); }
      ScanCover(s, s', l);
    }
    SameMaster(s, s');
    ScanKeeps(s, s');
  }
}

/** The steps of user threads inside `mark` keep the invariant. */
module UserSteps {
  import opened Redo
  import opened Protocol
  import opened Invariant
  import E = Epochs

  /** An operation in progress works with the parity of the current epoch, or of the previous one before the wait. */
  lemma OperationParity(s: State, t: nat)
    requires E.Inv(s.ep) && E.InOperation(s.ep, t)
    ensures Prev(s) == !This(s)
    ensures Num(s, t) == Epoch(s) ==> Curr(s, t) == This(s)
    ensures Num(s, t) != Epoch(s) ==> Curr(s, t) == Prev(s) && s.ep.stage.Waiting? && Num(s, t) < Epoch(s)
  {
    assert E.ThreadInv(s.ep, t);
  }

  lemma Parities(s: State)
    ensures Prev(s) == !This(s)
  {
  }

  /** The part of the state that no step of `mark` changes. */
  predicate SameHeaps(s: State, s': State) {
    && s'.ep == s.ep && s'.master == s.master && s'.dram == s.dram && s'.nvm == s.nvm && s'.pending == s.pending
    && s'.cp == s.cp && s'.boot == s.boot && s'.hist == s.hist
  }

  ghost predicate SameLine(s: State, s': State, l: nat) {
    && (forall p :: BitAt(s', p, l) == BitAt(s, p, l) && Setter(s', p, l) == Setter(s, p, l))
    && (l in s'.now <==> l in s.now)
    && (l in s'.before <==> l in s.before)
    && (l in s'.owner <==> l in s.owner)
    && (l in s.owner ==> s'.owner[l] == s.owner[l])
    && (l in s'.saver <==> l in s.saver)
    && (l in s.saver ==> s'.saver[l] == s.saver[l])
  }

  predicate OnlyMarks(m: Mark, l0: nat) {
    m.Mark? && m.at != Head ==> MarkLine(m) == l0
  }

  /** A step of `mark` by thread `t` that works on line `l0`: it leaves every other line and thread alone. */
  ghost predicate MarkStep(s: State, s': State, t: nat, l0: nat) {
    && SameHeaps(s, s')
    && t < |s.ctxs| == |s'.ctxs|
    && E.InOperation(s.ep, t)
    && s'.ctxs == s.ctxs[t := s'.ctxs[t]]
    && s'.ctxs[t].ops == s.ctxs[t].ops
    && OnlyMarks(s.ctxs[t].mark, l0) && OnlyMarks(s'.ctxs[t].mark, l0)
    && (l0 in s.owner ==> s.owner[l0] == t)
    && (forall l: nat | l != l0 :: SameLine(s, s', l))
    && s.now <= s'.now && s.before <= s'.before
    && (BitAt(s, This(s), l0) ==> BitAt(s', This(s), l0))
    && (BitAt(s, Prev(s), l0) && !BitAt(s', Prev(s), l0) ==> l0 in s.now)
    && (forall l: nat, p: bool :: Covers(List(s, t, p), l) || PendingCover(s, t, p, l) ==>
                               Covers(List(s', t, p), l) || PendingCover(s', t, p, l))
    && ((s.ep.stage.Waiting? && s.cp == Rest) || List(s', t, Prev(s)) == List(s, t, Prev(s)))
    && InLines(s'.ctxs[t].lists.even, |s.dram|) && InLines(s'.ctxs[t].lists.odd, |s.dram|)
  }

  lemma OtherLineMarks(s: State, s': State, t: nat, l0: nat, l: nat)
    requires MarkStep(s, s', t, l0) && l != l0 && SameLine(s, s', l) && OwnerInv(s, l)
    ensures OwnerInv(s', l)
    ensures l in s.owner ==> s.owner[l] != t
    ensures BitsInv(s, l) ==> BitsInv(s', l)
  {
  }

  lemma OtherLineValue(s: State, s': State, t: nat, l0: nat, l: nat)
    requires MarkStep(s, s', t, l0) && SameLine(s, s', l) && (l in s.owner ==> s.owner[l] != t) && ValueInv(s, l)
    ensures ValueInv(s', l)
  {
  }

  lemma LineCover(s: State, s': State, t: nat, l0: nat, l: nat)
    requires MarkStep(s, s', t, l0) && CoverInv(s, l)
    requires forall p :: BitAt(s', p, l) ==> BitAt(s, p, l) && Setter(s', p, l) == Setter(s, p, l)
    ensures CoverInv(s', l)
  {
  }

  lemma OtherLine(s: State, s': State, t: nat, l0: nat, l: nat)
    requires MarkStep(s, s', t, l0) && l != l0 && LineInv(s, l)
    ensures LineInv(s', l)
  {
    assert SameLine(s, s', l) && |s'.dram| == |s.dram|;
    if l < |s.dram| {
      hide MarkStep, SameLine, OwnerInv, BitsInv, ValueInv, CoverInv;
      OtherLineMarks(s, s', t, l0, l);
      OtherLineValue(s, s', t, l0, l);
      assert forall p :: BitAt(s', p, l) ==> BitAt(s, p, l) && Setter(s', p, l) == Setter(s, p, l);
      LineCover(s, s', t, l0, l);
    }
  }

  lemma OtherUser(s: State, s': State, t: nat, l0: nat, u: nat)
    requires MarkStep(s, s', t, l0) && u != t && UserInv(s, u)
    ensures UserInv(s', u)
  {
    if u < |s.ctxs| {
      var x := s.ctxs[u];
      if x.mark.Mark? && x.mark.at != Head {
        assert SameLine(s, s', MarkLine(x.mark));
      }
      forall l | l in x.marked
        ensures MarkedInv(s', u, l)
      {
        assert MarkedInv(s, u, l);
        assert l != l0 ==> SameLine(s, s', l);
      }
    }
  }

  /** What a step of `mark` that does not push to the log has to keep of its own line for the logs. */
  predicate KeepsOwnLine(s: State, s': State, t: nat, l0: nat) {
    && (t < |s.ctxs| == |s'.ctxs| ==> s'.ctxs[t].log == s.ctxs[t].log)
    && s'.saver == s.saver
    && (OwnerAt(s, l0, SetCurr) && l0 in s.now ==> OwnerAt(s', l0, SetCurr) || BitAt(s', This(s'), l0))
    && (Saving(s, l0) ==> Saving(s', l0))
  }

  lemma MarkStepLogs(s: State, s': State, t: nat, l0: nat)
    requires MarkStep(s, s', t, l0) && KeepsOwnLine(s, s', t, l0)
    requires forall l: nat :: LineInv(s, l)
    requires Sizes(s) && UserLogsInv(s) && MasterInv(s)
    ensures UserLogsInv(s') && MasterInv(s')
  {
    forall u, j | 0 <= u < |s'.ctxs| && 0 <= j < |s'.ctxs[u].log|
      ensures SavedInv(s', u, s'.ctxs[u].log[j])
    {
      var x := s.ctxs[u].log[j];
      assert SavedInv(s, u, x);
      if x.line != l0 {
        assert LineInv(s, x.line) && SameLine(s, s', x.line);
      }
    }
    forall j | 0 <= j < |s'.master|
      ensures CopiedInv(s', s'.master[j])
    {
      var x := s.master[j];
      assert CopiedInv(s, x);
      if x.line != l0 {
        assert LineInv(s, x.line) && SameLine(s, s', x.line);
      }
    }
  }

  lemma MarkStepCheckpoint(s: State, s': State, t: nat, l0: nat)
    requires MarkStep(s, s', t, l0) && CheckpointInv(s)
    ensures CheckpointInv(s')
  {
    assert forall u: nat | u != t :: List(s', u, Prev(s)) == List(s, u, Prev(s));
  }

  lemma MarkStepHeap(s: State, s': State, t: nat, l0: nat)
    requires MarkStep(s, s', t, l0) && HeapInv(s) && CheckpointInv(s)
    requires s.ep.stage.Waiting? || s.ep.stage.Logging? || (s'.ctxs[t].log == s.ctxs[t].log && s'.saver == s.saver)
    ensures HeapInv(s')
  {
  }

  lemma MarkStepHistory(s: State, s': State, t: nat, l0: nat)
    requires MarkStep(s, s', t, l0) && HistoryInv(s)
    ensures HistoryInv(s')
  {
    forall j | 0 <= j < |s'.hist|
      ensures EventInv(s', s'.hist[j])
    {
      assert EventInv(s, s.hist[j]);
      assert s.hist[j].line != l0 ==> SameLine(s, s', s.hist[j].line);
    }
  }

  /** The facts about the acting thread that every step lemma starts from. */
  predicate Focused(s: State, t: nat) {
    && IsMarking(s, t) && E.InOperation(s.ep, t)
    && Prev(s) == !This(s)
    && (Num(s, t) == Epoch(s) ==> Curr(s, t) == This(s))
    && (Num(s, t) != Epoch(s) ==>
          Curr(s, t) == Prev(s) && s.ep.stage.Waiting? && s.cp == Rest && Num(s, t) < Epoch(s))
  }

  lemma Focus(s: State, t: nat)
    requires Inv(s) && IsMarking(s, t)
    ensures Focused(s, t) && UserInv(s, t) && Sizes(s) && LineInv(s, MarkLine(s.ctxs[t].mark))
  {
    assert UserInv(s, t);
    assert LineInv(s, MarkLine(s.ctxs[t].mark));
    OperationParity(s, t);
  }

  /** What remains to be shown of one step of `mark`: its own thread, its own line, and the logs. */
  lemma MarkStepKeeps(s: State, s': State, t: nat, l0: nat)
    requires Inv(s) && MarkStep(s, s', t, l0)
    requires Sizes(s') && UserInv(s', t) && LineInv(s', l0)
    requires KeepsOwnLine(s, s', t, l0) || (UserLogsInv(s') && MasterInv(s') && !s.ep.stage.Updating? && !s.ep.stage.Resting?)
    ensures Inv(s')
  {
    assert s'.ep == s.ep;
    assert KeepsOwnLine(s, s', t, l0) ==> s'.ctxs[t].log == s.ctxs[t].log && s'.saver == s.saver;
    hide *;
    OpenInv(s);
    forall u: nat
      ensures UserInv(s', u)
    {
      if u != t { OtherUser(s, s', t, l0, u); }
    }
    forall l: nat
      ensures LineInv(s', l)
    {
      if l != l0 { OtherLine(s, s', t, l0, l); }
    }
    if KeepsOwnLine(s, s', t, l0) {
      MarkStepLogs(s, s', t, l0);
    }
    MarkStepCheckpoint(s, s', t, l0);
    MarkStepHeap(s, s', t, l0);
    MarkStepHistory(s, s', t, l0);
    CloseInv(s');
  }

  lemma MarkTestStep(s: State, t: nat, l0: nat)
    requires Enabled(s, MarkTest(t)) && l0 == MarkLine(s.ctxs[t].mark)
    requires Focused(s, t) && Sizes(s) && UserInv(s, t) && LineInv(s, l0) && l0 !in s.owner
    ensures MarkStep(s, AfterMarkTest(s, t), t, l0) && Sizes(AfterMarkTest(s, t))
  {
    hide E.Parity, ValueInv, CoverInv;
  }

  lemma MarkTestUser(s: State, t: nat, l0: nat)
    requires Enabled(s, MarkTest(t)) && l0 == MarkLine(s.ctxs[t].mark)
    requires Focused(s, t) && Sizes(s) && UserInv(s, t) && LineInv(s, l0)
    ensures UserInv(AfterMarkTest(s, t), t)
  {
    hide E.Parity, ValueInv, CoverInv;
  }

  lemma MarkTestLine(s: State, t: nat, l0: nat)
    requires Enabled(s, MarkTest(t)) && l0 == MarkLine(s.ctxs[t].mark)
    requires Focused(s, t) && Sizes(s) && UserInv(s, t) && LineInv(s, l0) && l0 !in s.owner
    requires MarkStep(s, AfterMarkTest(s, t), t, l0)
    ensures LineInv(AfterMarkTest(s, t), l0)
  {
    hide E.Parity;
    LineCover(s, AfterMarkTest(s, t), t, l0, l0);
    hide CoverInv;
    if BitAt(s, Curr(s, t), l0) {
      assert LineInv(AfterMarkTest(s, t), l0);
    } else {
      assert LineInv(AfterMarkTest(s, t), l0);
    }
  }

  lemma MarkTestKeeps(s: State, t: nat)
    requires Inv(s) && Enabled(s, MarkTest(t))
    ensures Inv(AfterMarkTest(s, t))
  {
    var s' := AfterMarkTest(s, t);
    var l0 := MarkLine(s.ctxs[t].mark);
    Focus(s, t);
    assert l0 !in s.owner;
    assert KeepsOwnLine(s, s', t, l0);
    hide *;
    MarkTestStep(s, t, l0);
    MarkTestUser(s, t, l0);
    MarkTestLine(s, t, l0);
    MarkStepKeeps(s, s', t, l0);
  }

  lemma MarkTestPrevStep(s: State, t: nat, l0: nat)
    requires Enabled(s, MarkTestPrev(t)) && l0 == MarkLine(s.ctxs[t].mark)
    requires Focused(s, t) && Sizes(s) && UserInv(s, t) && LineInv(s, l0)
    ensures MarkStep(s, AfterMarkTestPrev(s, t), t, l0) && Sizes(AfterMarkTestPrev(s, t))
  {
    hide E.Parity, ValueInv, CoverInv;
  }

  lemma MarkTestPrevUser(s: State, t: nat, l0: nat)
    requires Enabled(s, MarkTestPrev(t)) && l0 == MarkLine(s.ctxs[t].mark)
    requires Focused(s, t) && Sizes(s) && UserInv(s, t) && LineInv(s, l0)
    ensures UserInv(AfterMarkTestPrev(s, t), t)
  {
    hide E.Parity, ValueInv, CoverInv;
  }

  lemma MarkTestPrevLine(s: State, t: nat, l0: nat)
    requires Enabled(s, MarkTestPrev(t)) && l0 == MarkLine(s.ctxs[t].mark)
    requires Focused(s, t) && Sizes(s) && UserInv(s, t) && LineInv(s, l0)
    ensures LineInv(AfterMarkTestPrev(s, t), l0)
  {
    hide E.Parity;
  }

  lemma MarkTestPrevKeeps(s: State, t: nat)
    requires Inv(s) && Enabled(s, MarkTestPrev(t))
    ensures Inv(AfterMarkTestPrev(s, t))
  {
    var s' := AfterMarkTestPrev(s, t);
    var l0 := MarkLine(s.ctxs[t].mark);
    Focus(s, t);
    assert KeepsOwnLine(s, s', t, l0);
    hide *;
    MarkTestPrevStep(s, t, l0);
    MarkTestPrevUser(s, t, l0);
    MarkTestPrevLine(s, t, l0);
    MarkStepKeeps(s, s', t, l0);
  }

  lemma MarkClearPrevStep(s: State, t: nat, l0: nat)
    requires Enabled(s, MarkClearPrev(t)) && l0 == MarkLine(s.ctxs[t].mark)
    requires Focused(s, t) && Sizes(s) && UserInv(s, t) && LineInv(s, l0)
    ensures MarkStep(s, AfterMarkClearPrev(s, t), t, l0) && Sizes(AfterMarkClearPrev(s, t))
  {
    hide E.Parity, ValueInv, CoverInv;
  }

  lemma MarkClearPrevUser(s: State, t: nat, l0: nat)
    requires Enabled(s, MarkClearPrev(t)) && l0 == MarkLine(s.ctxs[t].mark)
    requires Focused(s, t) && Sizes(s) && UserInv(s, t) && LineInv(s, l0)
    ensures UserInv(AfterMarkClearPrev(s, t), t)
  {
    hide E.Parity, ValueInv, CoverInv;
  }

  lemma MarkClearPrevLine(s: State, t: nat, l0: nat)
    requires Enabled(s, MarkClearPrev(t)) && l0 == MarkLine(s.ctxs[t].mark)
    requires Focused(s, t) && Sizes(s) && UserInv(s, t) && LineInv(s, l0)
    ensures LineInv(AfterMarkClearPrev(s, t), l0)
  {
    hide E.Parity;
  }

  lemma MarkClearPrevKeeps(s: State, t: nat)
    requires Inv(s) && Enabled(s, MarkClearPrev(t))
    ensures Inv(AfterMarkClearPrev(s, t))
  {
    var s' := AfterMarkClearPrev(s, t);
    var l0 := MarkLine(s.ctxs[t].mark);
    Focus(s, t);
    assert KeepsOwnLine(s, s', t, l0);
    hide *;
    MarkClearPrevStep(s, t, l0);
    MarkClearPrevUser(s, t, l0);
    MarkClearPrevLine(s, t, l0);
    MarkStepKeeps(s, s', t, l0);
  }

  lemma MarkSetStep(s: State, t: nat, l0: nat)
    requires Enabled(s, MarkSet(t)) && l0 == MarkLine(s.ctxs[t].mark)
    requires Focused(s, t) && Sizes(s) && UserInv(s, t) && LineInv(s, l0)
    ensures MarkStep(s, AfterMarkSet(s, t), t, l0) && Sizes(AfterMarkSet(s, t))
  {
    hide E.Parity, ValueInv, CoverInv;
  }

  lemma MarkSetUser(s: State, t: nat, l0: nat)
    requires Enabled(s, MarkSet(t)) && l0 == MarkLine(s.ctxs[t].mark)
    requires Focused(s, t) && Sizes(s) && UserInv(s, t) && LineInv(s, l0)
    ensures UserInv(AfterMarkSet(s, t), t)
  {
    hide E.Parity, ValueInv, CoverInv;
  }

  lemma MarkSetLine(s: State, t: nat, l0: nat)
    requires Enabled(s, MarkSet(t)) && l0 == MarkLine(s.ctxs[t].mark)
    requires Focused(s, t) && Sizes(s) && UserInv(s, t) && LineInv(s, l0)
    ensures LineInv(AfterMarkSet(s, t), l0)
  {
    hide E.Parity;
  }

  lemma MarkSetKeeps(s: State, t: nat)
    requires Inv(s) && Enabled(s, MarkSet(t))
    ensures Inv(AfterMarkSet(s, t))
  {
    var s' := AfterMarkSet(s, t);
    var l0 := MarkLine(s.ctxs[t].mark);
    Focus(s, t);
    assert KeepsOwnLine(s, s', t, l0);
    hide *;
    MarkSetStep(s, t, l0);
    MarkSetUser(s, t, l0);
    MarkSetLine(s, t, l0);
    MarkStepKeeps(s, s', t, l0);
  }

  lemma MarkPushStep(s: State, t: nat, l0: nat)
    requires Enabled(s, MarkPush(t)) && l0 == MarkLine(s.ctxs[t].mark)
    requires Focused(s, t) && Sizes(s) && UserInv(s, t) && LineInv(s, l0)
    ensures MarkStep(s, AfterMarkPush(s, t), t, l0) && Sizes(AfterMarkPush(s, t))
    ensures UserInv(AfterMarkPush(s, t), t) && LineInv(AfterMarkPush(s, t), l0)
  {
    hide E.Parity;
    LineCover(s, AfterMarkPush(s, t), t, l0, l0);
    hide CoverInv;
  }

  /** A line that is in a user's log has been marked in both epochs, and its mark has got past the push. */
  lemma SaverLine(s: State, l: nat)
    requires UserLogsInv(s) && l in s.saver
    ensures l in s.now && l in s.before
    ensures BitAt(s, This(s), l) || OwnerAt(s, l, SetCurr)
  {
    var log := s.ctxs[s.saver[l]].log;
    var j :| 0 <= j < |log| && log[j].line == l;
    assert SavedInv(s, s.saver[l], log[j]);
  }

  /** A line that a thread is about to save has not been saved before. */
  lemma NotYetSaved(s: State, t: nat, l0: nat)
    requires IsAt(s, t, PushOld) && l0 == MarkLine(s.ctxs[t].mark)
    requires Focused(s, t) && UserInv(s, t) && LineInv(s, l0) && UserLogsInv(s) && l0 < |s.dram|
    ensures l0 !in s.saver
  {
    if l0 in s.saver { SaverLine(s, l0); }
  }

  lemma HasLineAppend(log: seq<Entry>, x: Entry, l: nat)
    requires HasLine(log, l) || x.line == l
    ensures HasLine(log + [x], l)
  {
    if x.line == l {
      assert (log + [x])[|log|].line == l;
    } else {
      var j :| 0 <= j < |log| && log[j].line == l;
      assert (log + [x])[j].line == l;
    }
  }

  /** The entry that a copy on write pushes holds the content of the line at the end of the previous epoch. */
  lemma MarkPushLogs(s: State, t: nat, l0: nat)
    requires Enabled(s, MarkPush(t)) && l0 == MarkLine(s.ctxs[t].mark)
    requires Focused(s, t) && UserInv(s, t) && Sizes(s) && l0 !in s.saver
    requires forall l: nat :: LineInv(s, l)
    requires UserLogsInv(s)
    requires MarkStep(s, AfterMarkPush(s, t), t, l0)
    ensures UserLogsInv(AfterMarkPush(s, t))
  {
    var s' := AfterMarkPush(s, t);
    hide CoverInv, ValueInv, E.Parity;
    assert LineInv(s, l0);
    forall u, j | 0 <= u < |s'.ctxs| && 0 <= j < |s'.ctxs[u].log|
      ensures SavedInv(s', u, s'.ctxs[u].log[j])
    {
      if u != t || j < |s.ctxs[t].log| {
        var x := s.ctxs[u].log[j];
        assert SavedInv(s, u, x);
        assert LineInv(s, x.line) && SameLine(s, s', x.line);
      }
    }
    hide LineInv, SavedInv, MarkStep, UserInv;
    PushedSavers(s, t, l0);
  }

  lemma PushedSavers(s: State, t: nat, l0: nat)
    requires Enabled(s, MarkPush(t)) && l0 == MarkLine(s.ctxs[t].mark)
    requires forall l | l in s.saver :: s.saver[l] < |s.ctxs| && HasLine(s.ctxs[s.saver[l]].log, l)
    ensures
      var s' := AfterMarkPush(s, t);
      forall l | l in s'.saver :: s'.saver[l] < |s'.ctxs| && HasLine(s'.ctxs[s'.saver[l]].log, l)
  {
    var s' := AfterMarkPush(s, t);
    forall l | l in s'.saver
      ensures s'.saver[l] < |s'.ctxs| && HasLine(s'.ctxs[s'.saver[l]].log, l)
    {
      if l == l0 || s.saver[l] == t {
        HasLineAppend(s.ctxs[t].log, Entry(l0, s.dram[l0]), l);
      }
    }
  }

  lemma MarkPushMaster(s: State, t: nat, l0: nat)
    requires Enabled(s, MarkPush(t)) && l0 == MarkLine(s.ctxs[t].mark)
    requires Focused(s, t) && Sizes(s) && l0 !in s.saver
    requires forall l: nat :: LineInv(s, l)
    requires MasterInv(s)
    requires MarkStep(s, AfterMarkPush(s, t), t, l0)
    ensures MasterInv(AfterMarkPush(s, t))
  {
    var s' := AfterMarkPush(s, t);
    forall j | 0 <= j < |s'.master|
      ensures CopiedInv(s', s'.master[j])
    {
      var x := s.master[j];
      assert CopiedInv(s, x);
      if x.line != l0 {
        assert LineInv(s, x.line) && SameLine(s, s', x.line);
      }
    }
  }

  lemma MarkPushKeeps(s: State, t: nat)
    requires Inv(s) && Enabled(s, MarkPush(t))
    ensures Inv(AfterMarkPush(s, t))
  {
    var s' := AfterMarkPush(s, t);
    var l0 := MarkLine(s.ctxs[t].mark);
    Focus(s, t);
    assert !s.ep.stage.Updating? && !s.ep.stage.Resting?;
    hide *;
    OpenInv(s);
    MarkPushStep(s, t, l0);
    NotYetSaved(s, t, l0);
    MarkPushLogs(s, t, l0);
    MarkPushMaster(s, t, l0);
    MarkStepKeeps(s, s', t, l0);
  }

  /** The call and the return of `mark` work on no line at all. */
  lemma MarkCallKeeps(s: State, t: nat, range: Range)
    requires Inv(s) && Enabled(s, MarkCall(t, range))
    ensures Inv(Next(s, MarkCall(t, range)))
  {
    var s' := Next(s, MarkCall(t, range));
    assert UserInv(s, t);
    assert LineInv(s', |s.dram|);
    hide Inv, ValueInv, CoverInv, E.Inv, E.Parity;
    assert MarkStep(s, s', t, |s.dram|) && UserInv(s', t) && Sizes(s');
    assert KeepsOwnLine(s, s', t, |s.dram|);
    hide *;
    MarkStepKeeps(s, s', t, |s.dram|);
  }

  lemma CoversAppend(list: seq<Range>, r: Range, l: nat)
    requires Covers(list, l) || r.Has(l)
    ensures Covers(list + [r], l)
  {
    if r.Has(l) {
      assert (list + [r])[|list|].Has(l);
    } else {
      var j :| 0 <= j < |list| && list[j].Has(l);
      assert (list + [r])[j].Has(l);
    }
  }

  lemma MarkReturnStep(s: State, t: nat)
    requires Enabled(s, MarkReturn(t))
    requires Focused(s, t) && Sizes(s) && UserInv(s, t)
    ensures MarkStep(s, AfterMarkReturn(s, t), t, |s.dram|)
    ensures UserInv(AfterMarkReturn(s, t), t) && Sizes(AfterMarkReturn(s, t))
  {
    hide E.Parity;
    var s' := AfterMarkReturn(s, t);
    var m := s.ctxs[t].mark;
    forall l: nat, p: bool | Covers(List(s, t, p), l) || PendingCover(s, t, p, l)
      ensures Covers(List(s', t, p), l) || PendingCover(s', t, p, l)
    {
      if p == Curr(s, t) && m.dirty {
        CoversAppend(List(s, t, p), m.range, l);
      }
    }
  }

  lemma MarkReturnKeeps(s: State, t: nat)
    requires Inv(s) && Enabled(s, MarkReturn(t))
    ensures Inv(AfterMarkReturn(s, t))
  {
    var s' := AfterMarkReturn(s, t);
    Focus(s, t);
    assert Sizes(s);
    assert KeepsOwnLine(s, s', t, |s.dram|);
    assert |s'.dram| == |s.dram|;
    assert LineInv(s', |s.dram|);
    hide *;
    MarkReturnStep(s, t);
    MarkStepKeeps(s, s', t, |s.dram|);
  }
}

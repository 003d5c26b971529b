/**
 * Recovery that takes blocks in the order of the pool does not know whose they are. What a crash leaves can be
 * redone in that way exactly if the surviving entries agree, which recovery can check before it replays anything.
 */
module PoolOrder {
  import opened EpochPhase
  import opened Sequences
  import opened Redo
  import opened Protocol
  import opened Invariant
  import opened CrashSafety
  import X = ExactlyOnce
  import R = Recovery
  import C = Races
  import E = Epochs

  /** All surviving entries, in the order in which `Recover` replays them. */
  function Surviving(c: Crash): seq<Entry> {
    c.master + Concat(c.users)
  }

  /** Entries for the same line of the heap have the same value. */
  predicate Agreeing(log: seq<Entry>, size: nat) {
    forall i, j | 0 <= i < |log| && 0 <= j < |log| && log[i].line == log[j].line < size :: log[i].val == log[j].val
  }

  lemma {:induction false} ApplyConcatAll(h: seq<Value>, logs: seq<seq<Entry>>)
    ensures Apply(h, Concat(logs)) == ApplyAll(h, logs)
  {
    if logs != [] {
      var n := |logs| - 1;
      ApplyConcatAll(h, logs[..n]);
      ApplyConcat(h, Concat(logs[..n]), logs[n]);
    }
  }

  lemma RecoverIsReplay(c: Crash)
    requires c.global.phase == NvmHeapUpdate
    ensures Recover(c) == Apply(c.heap, Surviving(c))
  {
    ApplyConcat(c.heap, c.master, Concat(c.users));
    ApplyConcatAll(Apply(c.heap, c.master), c.users);
  }

  /** With agreeing entries only the set of the entries counts, not their order or number. */
  lemma SameEntries(h: seq<Value>, a: seq<Entry>, b: seq<Entry>)
    requires Agreeing(a, |h|) && forall x :: x in a <==> x in b
    ensures Apply(h, a) == Apply(h, b)
  {
    forall l: nat | l < |h|
      ensures Apply(h, a)[l] == Apply(h, b)[l]
    {
      SameLine(h, a, b, l);
    }
  }

  lemma SameLine(h: seq<Value>, a: seq<Entry>, b: seq<Entry>, l: nat)
    requires Agreeing(a, |h|) && (forall x :: x in a <==> x in b) && l < |h|
    ensures Apply(h, a)[l] == Apply(h, b)[l]
  {
    if HasLine(a, l) {
      var i :| 0 <= i < |a| && a[i].line == l;
      assert a[i] in b;
      var k :| 0 <= k < |b| && b[k] == a[i];
      assert HasLine(b, l);
      forall j | 0 <= j < |b| && b[j].line == l
        ensures b[j].val == a[i].val
      {
        assert b[j] in a;
      }
      ApplyAgreed(h, a, l, a[i].val);
      ApplyAgreed(h, b, l, a[i].val);
    } else {
      forall k | 0 <= k < |b|
        ensures b[k].line != l
      {
        assert b[k] in a;
      }
      X.Untouched(h, a, l);
      X.Untouched(h, b, l);
    }
  }

  /** One entry moved to the end. */
  function Last(log: seq<Entry>, i: nat): (r: seq<Entry>)
    requires i < |log|
    ensures multiset(r) == multiset(log)
  {
    assert log == log[..i] + [log[i]] + log[i + 1..];
    log[..i] + log[i + 1..] + [log[i]]
  }

  /** Every order of the entries leads to the given heap. */
  ghost predicate EveryOrder(h: seq<Value>, log: seq<Entry>, target: seq<Value>) {
    forall order | multiset(order) == multiset(log) :: Apply(h, order) == target
  }

  lemma LastHasTheWord(h: seq<Value>, log: seq<Entry>, target: seq<Value>, i: nat)
    requires EveryOrder(h, log, target) && i < |log| && log[i].line < |h| == |target|
    ensures target[log[i].line] == log[i].val
  {
    var order := Last(log, i);
    var n := |order| - 1;
    assert order[n] == log[i];
    assert Apply(h, order)[log[i].line] == log[i].val;
  }

  lemma SameMembers(a: seq<Entry>, b: seq<Entry>)
    requires multiset(a) == multiset(b)
    ensures forall x :: x in a <==> x in b
  {
    forall x
      ensures x in a <==> x in b
    {
      assert x in a <==> x in multiset(a);
    }
  }

  /** Replay in the order of the logs leads to the target; every order does exactly if the entries agree. */
  lemma EveryOrderIffAgreeing(h: seq<Value>, log: seq<Entry>)
    ensures EveryOrder(h, log, Apply(h, log)) <==> Agreeing(log, |h|)
  {
    if EveryOrder(h, log, Apply(h, log)) {
      forall i, j | 0 <= i < |log| && 0 <= j < |log| && log[i].line == log[j].line < |h|
        ensures log[i].val == log[j].val
      {
        LastHasTheWord(h, log, Apply(h, log), i);
        LastHasTheWord(h, log, Apply(h, log), j);
      }
    }
    if Agreeing(log, |h|) {
      forall order | multiset(order) == multiset(log)
        ensures Apply(h, order) == Apply(h, log)
      {
        SameMembers(order, log);
        SameEntries(h, log, order);
      }
    }
  }

  lemma RecoveredBoundary(first: E.Begin, heap: seq<Value>, acts: seq<Action>, s: State, c: Crash)
    requires Run(Initial(first, heap), acts, s) && CrashOutcome(s, c) && s.ep.stage.Updating?
    ensures Apply(c.heap, Surviving(c)) == Snapshot(heap, s.hist, Boundary(c.global))
  {
    CrashConsistency(first, heap, acts, s, c);
    assert c.global.phase == NvmHeapUpdate by {
      InitialInv(first, heap);
      RunKeepsInv(Initial(first, heap), acts, s);
    }
    RecoverIsReplay(c);
  }

  /**
   * Of a crash anywhere in the update of the NVM heap, in any run: every order of the surviving entries recovers the
   * epoch boundary exactly if the surviving entries agree.
   */
  lemma AnyOrderRecovers(first: E.Begin, heap: seq<Value>, acts: seq<Action>, s: State, c: Crash)
    requires Run(Initial(first, heap), acts, s) && CrashOutcome(s, c) && s.ep.stage.Updating?
    ensures EveryOrder(c.heap, Surviving(c), Snapshot(heap, s.hist, Boundary(c.global)))
       <==> Agreeing(Surviving(c), |c.heap|)
  {
    RecoveredBoundary(first, heap, acts, s, c);
    EveryOrderIffAgreeing(c.heap, Surviving(c));
  }

  lemma {:induction false} InConcat(logs: seq<seq<Entry>>, b: nat, x: Entry)
    requires b < |logs| && x in logs[b]
    ensures x in Concat(logs)
  {
    var n := |logs| - 1;
    if b < n {
      assert logs[..n][b] == logs[b];
      InConcat(logs[..n], b, x);
    }
  }

  /** Blocks that hold agreeing entries agree. */
  lemma BlocksAgree(log: seq<Entry>, blocks: seq<seq<Entry>>, size: nat)
    requires Agreeing(log, size) && forall x :: x in Concat(blocks) <==> x in log
    ensures R.Agree(blocks, size)
  {
    forall b: nat, c: nat, i: nat, j: nat, l: nat | b < |blocks| && c < |blocks| && l < size
      && LastFor(blocks[b], i, l) && LastFor(blocks[c], j, l)
      ensures blocks[b][i].val == blocks[c][j].val
    {
      InConcat(blocks, b, blocks[b][i]);
      InConcat(blocks, c, blocks[c][j]);
      assert blocks[b][i] in log && blocks[c][j] in log;
    }
  }

  /**
   * If the surviving entries agree, recovery that takes the blocks in which they are in any order, is cut short by
   * any number of further crashes, and then completes, ends with the epoch boundary.
   */
  lemma PoolRecovery(first: E.Begin, heap: seq<Value>, acts: seq<Action>, s: State, c: Crash,
                     blocks: seq<seq<Entry>>, order: seq<nat>, steps: seq<R.Action>, r: R.State)
    requires Run(Initial(first, heap), acts, s) && CrashOutcome(s, c) && s.ep.stage.Updating?
    requires Agreeing(Surviving(c), |c.heap|) && forall x :: x in Concat(blocks) <==> x in Surviving(c)
    requires R.Lists(order, |blocks|) && R.Run(R.Start(c.heap, blocks, order), steps, r) && r.todo == []
    ensures r.nvm == Snapshot(heap, s.hist, Boundary(c.global))
  {
    RecoveredBoundary(first, heap, acts, s, c);
    SameEntries(c.heap, Surviving(c), Concat(blocks));
    ApplyConcatAll(c.heap, blocks);
    BlocksAgree(Surviving(c), blocks, |c.heap|);
    R.AgreedRecovery(c.heap, blocks, order, steps, r);
  }

  /** With atomic lines the surviving entries always agree. */
  lemma AtomicAgrees(first: E.Begin, heap: seq<Value>, acts: seq<Action>, s: State, c: Crash)
    requires X.AtomicRun(Initial(first, heap), acts, s) && CrashOutcome(s, c) && s.ep.stage.Updating?
    ensures Agreeing(Surviving(c), |c.heap|)
  {
    X.AtomicInv(first, heap, acts, s);
    hide Inv, X.OnceInv, CrashOutcome;
    var log := Surviving(c);
    forall i, j | 0 <= i < |log| && 0 <= j < |log| && log[i].line == log[j].line
      ensures log[i].val == log[j].val
    {
      SurvivorIn(c, log[i]);
      SurvivorIn(c, log[j]);
      X.SurvivorIsEntry(s, c, log[i]);
      X.SurvivorIsEntry(s, c, log[j]);
      X.EntriesRight(s, log[i]);
      X.EntriesRight(s, log[j]);
    }
  }

  lemma {:induction false} FromConcat(logs: seq<seq<Entry>>, x: Entry)
    requires x in Concat(logs)
    ensures exists t :: 0 <= t < |logs| && x in logs[t]
  {
    var n := |logs| - 1;
    if x in logs[n] {
    } else {
      FromConcat(logs[..n], x);
      var t :| 0 <= t < n && x in logs[..n][t];
      assert x in logs[t];
    }
  }

  lemma SurvivorIn(c: Crash, x: Entry)
    requires x in Surviving(c)
    ensures X.SurvivingEntry(c, x)
  {
    if x !in c.master { FromConcat(c.users, x); }
  }

  /** The state of the copy race, just after the phase change, and what a crash then leaves. */
  function RaceUpdating(): State {
    var s := C.LoggedTwice();
    s.(ep := s.ep.(global := E.Word(3, NvmHeapUpdate), stage := E.Updating), cp := ReplayMaster(0))
  }

  /** The entry with the new content and the entry with the old one. */
  const NEW := Entry(0, 2)
  const OLD := Entry(0, 1)
  const RACE_CRASH := Crash(E.Word(3, NvmHeapUpdate), [0], [NEW], [[OLD]])

  lemma ReachRaceUpdating()
    ensures C.Reachable(C.HEAP, RaceUpdating()) && CrashOutcome(RaceUpdating(), RACE_CRASH)
  {
    C.ReachLoggedTwice();
    hide Run, C.Reachable;
    C.Extend(C.HEAP, C.LoggedTwice(), Ep(E.StartUpdating), RaceUpdating());
  }

  /** During the update the surviving heap is not the boundary: without a replay a store is lost. */
  lemma ReplayNeeded()
    ensures C.Reachable(C.HEAP, RaceUpdating()) && CrashOutcome(RaceUpdating(), RACE_CRASH)
    ensures RACE_CRASH.heap != Snapshot(C.HEAP, RaceUpdating().hist, Boundary(RACE_CRASH.global)) == Recover(RACE_CRASH)
  {
    ReachRaceUpdating();
    var before :| Run(Initial(E.FIRST, C.HEAP), before, RaceUpdating());
    CrashConsistency(E.FIRST, C.HEAP, before, RaceUpdating(), RACE_CRASH);
    PoolOrderFails();
  }

  /** After the copy race the surviving entries disagree, and an order that puts the user's entry first fails. */
  lemma PoolOrderFails()
    ensures C.Reachable(C.HEAP, RaceUpdating()) && CrashOutcome(RaceUpdating(), RACE_CRASH)
    ensures !Agreeing(Surviving(RACE_CRASH), 1)
    ensures multiset([OLD, NEW]) == multiset(Surviving(RACE_CRASH))
    ensures Apply([0], [OLD, NEW]) == [2] && Snapshot(C.HEAP, RaceUpdating().hist, Boundary(RACE_CRASH.global)) == [1]
  {
    ReachRaceUpdating();
    hide Run, C.Reachable, CrashOutcome;
    RaceEntries();
    RaceValues();
  }

  lemma RaceEntries()
    ensures Surviving(RACE_CRASH) == [NEW, OLD] && !Agreeing(Surviving(RACE_CRASH), 1)
  {
    var logs := [[OLD]];
    assert logs[..0] == [] && Concat(logs) == Concat([]) + [OLD];
    var all := Surviving(RACE_CRASH);
    assert all == [NEW, OLD];
    assert all[0].line == all[1].line && all[0].val != all[1].val;
  }

  lemma RaceValues()
    ensures Apply([0], [OLD, NEW]) == [2] && Snapshot(C.HEAP, RaceUpdating().hist, Boundary(RACE_CRASH.global)) == [1]
  {
    var order := [OLD, NEW];
    assert order[..1] == [OLD] && [OLD][..0] == [];
    var hist := RaceUpdating().hist;
    assert hist[..1] == [Event(2, 0, 0, 0, 1)] && hist[..1][..0] == [];
  }
}

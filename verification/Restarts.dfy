/** Any number of lives of the library, each ended by a crash and followed by recovery and a restart. */
module Restarts {
  import opened Redo
  import opened Protocol
  import opened CrashSafety
  import E = Epochs

  /** A run from the start, the state that it ends in, and what a crash leaves of it. */
  datatype Life = Life(acts: seq<Action>, s: State, c: Crash)

  /**
   * The library starts with a word and a heap. After each crash it starts anew, with the global word that survived and
   * with both heaps as recovery leaves them; bitmaps, lists and logs are empty, and no thread is registered.
   */
  ghost predicate Lives(first: E.Begin, heap: seq<Value>, lives: seq<Life>)
    decreases |lives|
  {
    lives == [] || (
      var x := lives[0];
      && Run(Initial(first, heap), x.acts, x.s) && CrashOutcome(x.s, x.c)
      && 2 <= x.c.global.num
      && Lives(x.c.global, Recover(x.c), lives[1..]))
  }

  function LastHeap(heap: seq<Value>, lives: seq<Life>): seq<Value> {
    if lives == [] then heap else Recover(lives[|lives| - 1].c)
  }

  function LastNumber(first: E.Begin, lives: seq<Life>): nat {
    if lives == [] then first.num else lives[|lives| - 1].c.global.num
  }

  /** The stores of epochs up to `k`, in order. */
  function Survivors(hist: seq<Event>, k: int): seq<Entry> {
    if hist == [] then []
    else
      var front, ev := Survivors(hist[..|hist| - 1], k), hist[|hist| - 1];
      if ev.epoch <= k then front + [Entry(ev.line, ev.val)] else front
  }

  /** The stores that survive the crashes at the ends of the lives, one life after the other. */
  function AllSurvivors(lives: seq<Life>): seq<Entry> {
    if lives == [] then []
    else Survivors(lives[0].s.hist, Boundary(lives[0].c.global)) + AllSurvivors(lives[1..])
  }

  lemma {:induction false} SnapshotIsReplay(boot: seq<Value>, hist: seq<Event>, k: int)
    ensures Snapshot(boot, hist, k) == Apply(boot, Survivors(hist, k))
  {
    if hist != [] {
      var n := |hist| - 1;
      var front := Survivors(hist[..n], k);
      SnapshotIsReplay(boot, hist[..n], k);
      assert (front + [Entry(hist[n].line, hist[n].val)])[..|front|] == front;
    }
  }

  lemma {:induction false} NumberGrows(s: State, acts: seq<Action>, s': State)
    requires Run(s, acts, s')
    ensures Epoch(s) <= Epoch(s')
    decreases |acts|
  {
    if acts != [] {
      StepEpoch(s, acts[0]);
      hide Next, Guarded;
      NumberGrows(Next(s, acts[0]), acts[1..], s');
    }
  }

  /** What one life leaves to the next. */
  lemma OneLife(first: E.Begin, heap: seq<Value>, x: Life)
    requires Run(Initial(first, heap), x.acts, x.s) && CrashOutcome(x.s, x.c)
    ensures Recover(x.c) == Apply(heap, Survivors(x.s.hist, Boundary(x.c.global)))
    ensures first.num <= x.c.global.num
  {
    CrashConsistency(first, heap, x.acts, x.s, x.c);
    SnapshotIsReplay(heap, x.s.hist, Boundary(x.c.global));
    NumberGrows(Initial(first, heap), x.acts, x.s);
  }

  /**
   * After any number of crashes, recoveries and restarts the heap is the very first one with exactly the surviving
   * stores of all lives applied in order: what has once survived a crash survives all later ones, until a surviving
   * store overwrites it. And epoch numbers go on where they were.
   */
  lemma {:induction false} SurvivesAllCrashes(first: E.Begin, heap: seq<Value>, lives: seq<Life>)
    requires Lives(first, heap, lives)
    ensures LastHeap(heap, lives) == Apply(heap, AllSurvivors(lives))
    ensures first.num <= LastNumber(first, lives)
    decreases |lives|
  {
    if lives != [] {
      var x := lives[0];
      OneLife(first, heap, x);
      SurvivesAllCrashes(x.c.global, Recover(x.c), lives[1..]);
      hide Run, CrashOutcome, Recover;
      ApplyConcat(heap, Survivors(x.s.hist, Boundary(x.c.global)), AllSurvivors(lives[1..]));
      if |lives| == 1 {
        assert lives[1..] == [];
      } else {
        assert lives[1..][|lives| - 2] == lives[|lives| - 1];
      }
    }
  }

  /** A restart is always possible: the number in the surviving word is one to start with. */
  lemma CanRestart(first: E.Begin, heap: seq<Value>, acts: seq<Action>, s: State, c: Crash)
    requires Run(Initial(first, heap), acts, s) && CrashOutcome(s, c)
    ensures 2 <= c.global.num && |Recover(c)| == |heap|
  {
    CrashConsistency(first, heap, acts, s, c);
    NumberGrows(Initial(first, heap), acts, s);
  }
}

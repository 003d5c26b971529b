/** Runs put together, and runs in which only one party takes steps. */
module Solo {
  import opened Protocol

  lemma RunCons(s: State, a: Action, acts: seq<Action>, s': State)
    requires Guarded(s, a) && Run(Next(s, a), acts, s')
    ensures Run(s, [a] + acts, s')
  {
    assert ([a] + acts)[1..] == acts;
  }

  lemma {:induction false} RunConcat(s: State, a: seq<Action>, mid: State, b: seq<Action>, s': State)
    requires Run(s, a, mid) && Run(mid, b, s')
    ensures Run(s, a + b, s')
    decreases |a|
  {
    if a == [] {
      assert a + b == b;
    } else {
      RunConcat(Next(s, a[0]), a[1..], mid, b, s');
      RunCons(s, a[0], a[1..] + b, s');
      assert [a[0]] + (a[1..] + b) == a + b;
    }
  }

  /** A user in `mark`, or the checkpointing thread in one of its two loops. */
  datatype Party = Marker(t: nat) | Scanner | Updater

  predicate DoneBy(who: Party, a: Action) {
    match who
    case Marker(t) =>
      a in {MarkTest(t), MarkTestPrev(t), MarkClearPrev(t), MarkPush(t), MarkSet(t), MarkReturn(t)} ||
      (a.MarkCall? && a.t == t)
    case Scanner => a.ScanStep? || a.CopyLine? || a.ClearLine?
    case Updater => a.UpdateStep?
  }

  /** A run of steps of one party. */
  ghost predicate SoloRun(who: Party, s: State, acts: seq<Action>, s': State) {
    Run(s, acts, s') && forall a | a in acts :: DoneBy(who, a)
  }

  lemma SoloCons(who: Party, s: State, a: Action, acts: seq<Action>, s': State)
    requires Guarded(s, a) && DoneBy(who, a) && SoloRun(who, Next(s, a), acts, s')
    ensures SoloRun(who, s, [a] + acts, s')
  {
    RunCons(s, a, acts, s');
  }

  lemma SoloConcat(who: Party, s: State, a: seq<Action>, mid: State, b: seq<Action>, s': State)
    requires SoloRun(who, s, a, mid) && SoloRun(who, mid, b, s')
    ensures SoloRun(who, s, a + b, s')
  {
    RunConcat(s, a, mid, b, s');
  }
}

/** The replay and the clearing of the redo logs as steps of the transition system, run alone. */
module UpdateRefinement {
  import opened Redo
  import opened Protocol
  import opened Solo

  lemma OneUpdateStep(s: State, acts: seq<Action>, mid: State, s': State) returns (all: seq<Action>)
    requires SoloRun(Updater, s, acts, mid) && Enabled(mid, UpdateStep) && s' == Next(mid, UpdateStep)
    ensures SoloRun(Updater, s, all, s')
  {
    SoloCons(Updater, mid, UpdateStep, [], s');
    all := acts + ([UpdateStep] + []);
    SoloConcat(Updater, s, acts, mid, [UpdateStep] + [], s');
  }

  lemma {:induction false} ReplayMasterSteps(s: State, n: nat) returns (acts: seq<Action>, s': State)
    requires s.cp == ReplayMaster(0) && s.pending == [] && n <= |s.master|
    ensures SoloRun(Updater, s, acts, s') && s' == s.(cp := ReplayMaster(n), pending := s.master[..n])
  {
    if n == 0 {
      acts, s' := [], s;
    } else {
      var front, mid := ReplayMasterSteps(s, n - 1);
      s' := Next(mid, UpdateStep);
      acts := OneUpdateStep(s, front, mid, s');
    }
  }

  lemma {:induction false} ReplayUserSteps(s: State, c: nat, n: nat) returns (acts: seq<Action>, s': State)
    requires s.cp == ReplayUser(c, 0) && c < |s.ctxs| && n <= |s.ctxs[c].log|
    ensures SoloRun(Updater, s, acts, s') && s' == s.(cp := ReplayUser(c, n), pending := s.pending + s.ctxs[c].log[..n])
  {
    if n == 0 {
      acts, s' := [], s;
    } else {
      var front, mid := ReplayUserSteps(s, c, n - 1);
      s' := Next(mid, UpdateStep);
      acts := OneUpdateStep(s, front, mid, s');
    }
  }

  lemma {:induction false} ReplayUsersSteps(s: State, n: nat) returns (acts: seq<Action>, s': State)
    requires s.cp == ReplayUser(0, 0) && s.pending == [] && n <= |s.ctxs|
    ensures SoloRun(Updater, s, acts, s') && s' == s.(cp := ReplayUser(n, 0), pending := s'.pending)
    ensures Apply(s.nvm, s'.pending) == ApplyAll(s.nvm, Logs(s)[..n])
  {
    if n == 0 {
      acts, s' := [], s;
    } else {
      hide SoloRun;
      var front, mid := ReplayUsersSteps(s, n - 1);
      var log := s.ctxs[n - 1].log;
      var back, last := ReplayUserSteps(mid, n - 1, |log|);
      SoloConcat(Updater, s, front, mid, back, last);
      assert log[..|log|] == log;
      s' := Next(last, UpdateStep);
      acts := OneUpdateStep(s, front + back, last, s');
      ApplyConcat(s.nvm, mid.pending, log);
      assert Logs(s)[..n][..n - 1] == Logs(s)[..n - 1];
    }
  }

  lemma {:induction false} ClearSteps(s: State, n: nat) returns (acts: seq<Action>, s': State)
    requires s.cp == ClearUser(0) && n <= |s.ctxs|
    ensures SoloRun(Updater, s, acts, s') && s' == s.(cp := ClearUser(n), ctxs := s'.ctxs, saver := s'.saver)
    ensures |s'.ctxs| == |s.ctxs| && forall c | 0 <= c < |s.ctxs| :: s'.ctxs[c] == if c < n then s.ctxs[c].(log := []) else s.ctxs[c]
  {
    if n == 0 {
      acts, s' := [], s;
    } else {
      var front, mid := ClearSteps(s, n - 1);
      s' := Next(mid, UpdateStep);
      acts := OneUpdateStep(s, front, mid, s');
    }
  }

  lemma ReplaySteps(s: State) returns (acts: seq<Action>, s': State)
    requires s.cp == ReplayMaster(0) && s.pending == []
    ensures SoloRun(Updater, s, acts, s') && s' == s.(cp := ReplayUser(0, 0), nvm := Apply(s.nvm, s.master))
  {
    var mid;
    acts, mid := ReplayMasterSteps(s, |s.master|);
    assert s.master[..|s.master|] == s.master;
    s' := Next(mid, UpdateStep);
    acts := OneUpdateStep(s, acts, mid, s');
  }

  lemma ReplayRestSteps(s: State) returns (acts: seq<Action>, s': State)
    requires s.cp == ReplayUser(0, 0) && s.pending == []
    ensures SoloRun(Updater, s, acts, s') && s' == s.(cp := ClearMaster, nvm := ApplyAll(s.nvm, Logs(s)))
  {
    var mid;
    acts, mid := ReplayUsersSteps(s, |s.ctxs|);
    assert Logs(s)[..|s.ctxs|] == Logs(s);
    s' := Next(mid, UpdateStep);
    acts := OneUpdateStep(s, acts, mid, s');
  }

  /** The contexts without their redo logs. */
  ghost predicate LogsCleared(s: State, s': State) {
    && |s'.ctxs| == |s.ctxs|
    && forall c | 0 <= c < |s.ctxs| :: s'.ctxs[c] == s.ctxs[c].(log := [])
  }

  lemma ClearAllSteps(s: State) returns (acts: seq<Action>, s': State)
    requires s.cp == ClearMaster
    ensures SoloRun(Updater, s, acts, s') && s' == s.(cp := Done, master := [], ctxs := s'.ctxs, saver := s'.saver)
    ensures LogsCleared(s, s')
  {
    var first := Next(s, UpdateStep);
    SoloCons(Updater, s, UpdateStep, [], first);
    acts := [UpdateStep] + [];
    var more, mid := ClearSteps(first, |s.ctxs|);
    SoloConcat(Updater, s, acts, first, more, mid);
    s' := Next(mid, UpdateStep);
    acts := OneUpdateStep(s, acts + more, mid, s');
  }

  /** Run alone, the steps of the checkpointing thread do what `HeapUpdate.NvmHeapUpdateUnit` does. */
  lemma HeapUpdateRefines(s: State) returns (acts: seq<Action>, s': State)
    requires s.cp == ReplayMaster(0) && s.pending == []
    ensures SoloRun(Updater, s, acts, s') && LogsCleared(s, s')
    ensures s' == s.(cp := Done, nvm := ApplyAll(s.nvm, [s.master] + Logs(s)), master := [],
                     ctxs := s'.ctxs, saver := s'.saver)
  {
    hide SoloRun;
    var first, s1 := ReplaySteps(s);
    var second, s2 := ReplayRestSteps(s1);
    SoloConcat(Updater, s, first, s1, second, s2);
    var third;
    third, s' := ClearAllSteps(s2);
    acts := first + second + third;
    SoloConcat(Updater, s, first + second, s2, third, s');
    assert Logs(s1) == Logs(s);
    ApplyAllCons(s.nvm, s.master, Logs(s));
  }

  lemma {:induction false} ApplyAllCons(h: seq<Value>, log: seq<Entry>, logs: seq<seq<Entry>>)
    ensures ApplyAll(h, [log] + logs) == ApplyAll(Apply(h, log), logs)
  {
    if logs == [] {
      assert [log] + logs == [log] && [log][..0] == [];
    } else {
      var n := |logs| - 1;
      ApplyAllCons(h, log, logs[..n]);
      assert ([log] + logs)[..n + 1] == [log] + logs[..n];
    }
  }
}

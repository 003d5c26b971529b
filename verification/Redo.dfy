/** Redo-log entries and what replaying them into a heap of cache lines does. */
module Redo {
  /** The content of one cache line, read as one number; the protocol only copies and compares it. */
  type Value = int
  datatype Entry = Entry(line: nat, val: Value)

  ghost predicate HasLine(log: seq<Entry>, l: nat) {
    exists j :: 0 <= j < |log| && log[j].line == l
  }

  function Store(h: seq<Value>, x: Entry): (r: seq<Value>)
    ensures |r| == |h|
  {
    if x.line < |h| then h[x.line := x.val] else h
  }

  /** The heap after the stores of `log`, in order. */
  function Apply(h: seq<Value>, log: seq<Entry>): (r: seq<Value>)
    ensures |r| == |h|
  {
    if log == [] then h else Store(Apply(h, log[..|log| - 1]), log[|log| - 1])
  }

  /** `j` is the last entry for line `l`. */
  ghost predicate LastFor(log: seq<Entry>, j: nat, l: nat) {
    && j < |log| && log[j].line == l
    && forall i :: j < i < |log| ==> log[i].line != l
  }

  /** Last writer wins: a replayed line holds its last entry, a line without entries is left alone. */
  lemma {:induction false} ApplyAt(h: seq<Value>, log: seq<Entry>, l: nat)
    requires l < |h|
    ensures HasLine(log, l) ==> exists j: nat :: LastFor(log, j, l) && Apply(h, log)[l] == log[j].val
    ensures !HasLine(log, l) ==> Apply(h, log)[l] == h[l]
  {
    if log != [] {
      var n := |log| - 1;
      var rest := log[..n];
      ApplyAt(h, rest, l);
      if log[n].line == l {
        assert LastFor(log, n, l);
      } else if HasLine(rest, l) {
        var j: nat :| LastFor(rest, j, l) && Apply(h, rest)[l] == rest[j].val;
        assert LastFor(log, j, l);
      } else if HasLine(log, l) {
        var j :| 0 <= j < |log| && log[j].line == l;
        assert rest[j].line == l;
      }
    }
  }

  lemma {:induction false} ApplyConcat(h: seq<Value>, a: seq<Entry>, b: seq<Entry>)
    ensures Apply(h, a + b) == Apply(Apply(h, a), b)
    decreases |b|
  {
    if b == [] {
      assert a + b == a;
    } else {
      var n := |b| - 1;
      ApplyConcat(h, a, b[..n]);
      assert (a + b)[..|a + b| - 1] == a + b[..n];
    }
  }

  /** Replaying the logs one after the other. */
  function ApplyAll(h: seq<Value>, logs: seq<seq<Entry>>): (r: seq<Value>)
    ensures |r| == |h|
  {
    if logs == [] then h else Apply(ApplyAll(h, logs[..|logs| - 1]), logs[|logs| - 1])
  }

  /** If every entry for a line carries `v`, and the line starts with `v` or has an entry, it ends with `v`. */
  lemma ApplyAgreed(h: seq<Value>, log: seq<Entry>, l: nat, v: Value)
    requires l < |h|
    requires forall j | 0 <= j < |log| && log[j].line == l :: log[j].val == v
    requires HasLine(log, l) || h[l] == v
    ensures Apply(h, log)[l] == v
  {
    ApplyAt(h, log, l);
  }

  lemma {:induction false} ApplyAllAgreed(h: seq<Value>, logs: seq<seq<Entry>>, l: nat, v: Value)
    requires l < |h|
    requires forall t, j | 0 <= t < |logs| && 0 <= j < |logs[t]| && logs[t][j].line == l :: logs[t][j].val == v
    requires h[l] == v || exists t :: 0 <= t < |logs| && HasLine(logs[t], l)
    ensures ApplyAll(h, logs)[l] == v
    decreases |logs|
  {
    if logs != [] {
      var n := |logs| - 1;
      var rest := logs[..n];
      if h[l] == v || exists t :: 0 <= t < n && HasLine(rest[t], l) {
        ApplyAllAgreed(h, rest, l, v);
      } else {
        forall t | 0 <= t < n
          ensures !HasLine(logs[t], l)
        {
          assert rest[t] == logs[t];
        }
      }
      ApplyAgreed(ApplyAll(h, rest), logs[n], l, v);
    }
  }
}

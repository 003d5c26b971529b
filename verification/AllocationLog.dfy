/**
 * The allocation logs of one epoch. A malloc and a free of the same object cancel: the byte of the object in the
 * DRAM byte map tells whether the operations on it so far are odd in number.
 */
module AllocationLog {
  datatype AllocEntry = AllocEntry(index: nat, size: nat, isValid: bool)

  /** The byte map and the log of each thread, as values. */
  datatype Ledger = Ledger(bytes: seq<int>, logs: seq<seq<AllocEntry>>)

  /** One malloc or free by a thread, of the object whose first line is `index`. */
  datatype Operation = Operation(thread: nat, index: nat, size: nat)

  predicate Known(s: Ledger, op: Operation) {
    op.thread < |s.logs| && op.index < |s.bytes|
  }

  function Record(s: Ledger, op: Operation): (r: Ledger)
    requires Known(s, op)
    ensures |r.bytes| == |s.bytes| && |r.logs| == |s.logs|
  {
    if s.bytes[op.index] == 1 then s.(bytes := s.bytes[op.index := -s.bytes[op.index]])
    else Ledger(s.bytes[op.index := 1], s.logs[op.thread := s.logs[op.thread] + [AllocEntry(op.index, op.size, true)]])
  }

  /** All operations of an epoch, from an all-zero byte map and empty logs, in the order in which they happened. */
  function RecordAll(lines: nat, threads: nat, ops: seq<Operation>): (r: Ledger)
    requires forall op | op in ops :: op.thread < threads && op.index < lines
    ensures |r.bytes| == lines && |r.logs| == threads
  {
    if ops == [] then Ledger(seq(lines, _ => 0), seq(threads, _ => []))
    else Record(RecordAll(lines, threads, ops[..|ops| - 1]), ops[|ops| - 1])
  }

  /** How many operations were on object `i`. */
  function Count(ops: seq<Operation>, i: nat): nat {
    if ops == [] then 0 else Count(ops[..|ops| - 1], i) + if ops[|ops| - 1].index == i then 1 else 0
  }

  /** How many entries of a log are for `i`, or are for `i` and valid. */
  function Entries(log: seq<AllocEntry>, i: nat): nat {
    if log == [] then 0 else Entries(log[..|log| - 1], i) + if log[|log| - 1].index == i then 1 else 0
  }

  function ValidEntries(log: seq<AllocEntry>, i: nat): nat {
    if log == [] then 0
    else ValidEntries(log[..|log| - 1], i) + if log[|log| - 1].index == i && log[|log| - 1].isValid then 1 else 0
  }

  function AllEntries(logs: seq<seq<AllocEntry>>, i: nat): nat {
    if logs == [] then 0 else AllEntries(logs[..|logs| - 1], i) + Entries(logs[|logs| - 1], i)
  }

  function AllValidEntries(logs: seq<seq<AllocEntry>>, i: nat): nat {
    if logs == [] then 0 else AllValidEntries(logs[..|logs| - 1], i) + ValidEntries(logs[|logs| - 1], i)
  }

  lemma {:induction false} AllEntriesAppend(logs: seq<seq<AllocEntry>>, t: nat, x: AllocEntry, i: nat)
    requires t < |logs|
    ensures AllEntries(logs[t := logs[t] + [x]], i) == AllEntries(logs, i) + if x.index == i then 1 else 0
  {
    var n := |logs| - 1;
    var next := logs[t := logs[t] + [x]];
    if t == n {
      assert next[..n] == logs[..n];
      assert (logs[t] + [x])[..|logs[t]|] == logs[t];
    } else {
      assert next[..n] == logs[..n][t := logs[t] + [x]];
      AllEntriesAppend(logs[..n], t, x, i);
    }
  }

  lemma {:induction false} NoEntries(threads: nat, i: nat)
    ensures AllEntries(seq(threads, _ => []), i) == 0
  {
    var logs: seq<seq<AllocEntry>> := seq(threads, _ => []);
    if threads != 0 {
      NoEntries(threads - 1, i);
      assert logs[..threads - 1] == seq(threads - 1, _ => []);
    }
  }

  /** In any interleaving, `k` operations on an object make every other one an entry, and its byte tells the parity. */
  lemma {:induction false} EntriesOfOperations(lines: nat, threads: nat, ops: seq<Operation>, i: nat)
    requires forall op | op in ops :: op.thread < threads && op.index < lines
    requires i < lines
    ensures
      var s, k := RecordAll(lines, threads, ops), Count(ops, i);
      && AllEntries(s.logs, i) == (k + 1) / 2
      && s.bytes[i] == if k % 2 == 1 then 1 else if k == 0 then 0 else -1
  {
    if ops == [] {
      NoEntries(threads, i);
    } else {
      var n := |ops| - 1;
      var before := RecordAll(lines, threads, ops[..n]);
      EntriesOfOperations(lines, threads, ops[..n], i);
      assert ops[n] in ops;
      AllEntriesAppend(before.logs, ops[n].thread, AllocEntry(ops[n].index, ops[n].size, true), i);
    }
  }

  /**
   * The log of one thread, told without the byte map: of the operations on an object the first, third and so on make an
   * entry, in the log of the thread that does them, with their size.
   */
  function Expected(ops: seq<Operation>, t: nat): seq<AllocEntry> {
    if ops == [] then []
    else
      var n := |ops| - 1;
      var op := ops[n];
      Expected(ops[..n], t) +
      if op.thread == t && Count(ops[..n], op.index) % 2 == 0 then [AllocEntry(op.index, op.size, true)] else []
  }

  /** In any interleaving the logs are just these. */
  lemma {:induction false} LogsOfOperations(lines: nat, threads: nat, ops: seq<Operation>, t: nat)
    requires forall op | op in ops :: op.thread < threads && op.index < lines
    requires t < threads
    ensures RecordAll(lines, threads, ops).logs[t] == Expected(ops, t)
  {
    if ops != [] {
      var n := |ops| - 1;
      assert ops[n] in ops;
      LogsOfOperations(lines, threads, ops[..n], t);
      EntriesOfOperations(lines, threads, ops[..n], ops[n].index);
    }
  }

  /** Every entry is made valid and for an object of the heap. */
  ghost predicate Fresh(logs: seq<seq<AllocEntry>>, lines: nat) {
    forall t, j | 0 <= t < |logs| && 0 <= j < |logs[t]| :: logs[t][j].isValid && logs[t][j].index < lines
  }

  lemma {:induction false} EntriesAreFresh(lines: nat, threads: nat, ops: seq<Operation>)
    requires forall op | op in ops :: op.thread < threads && op.index < lines
    ensures Fresh(RecordAll(lines, threads, ops).logs, lines)
  {
    if ops != [] {
      EntriesAreFresh(lines, threads, ops[..|ops| - 1]);
    }
  }

  /** `check_valid` on one log: the bytes and the log afterwards. */
  function CheckLog(bytes: seq<int>, log: seq<AllocEntry>): (r: (seq<int>, seq<AllocEntry>))
    requires forall j | 0 <= j < |log| :: log[j].index < |bytes|
    ensures |r.0| == |bytes| && |r.1| == |log|
  {
    if log == [] then (bytes, log)
    else
      var n := |log| - 1;
      var (b, front) := CheckLog(bytes, log[..n]);
      var x := log[n];
      (b[x.index := 0], front + [if b[x.index] == 1 then x else x.(isValid := false)])
  }

  ghost predicate InHeap(s: Ledger) {
    forall t, j | 0 <= t < |s.logs| && 0 <= j < |s.logs[t]| :: s.logs[t][j].index < |s.bytes|
  }

  function CheckLogs(s: Ledger): (r: Ledger)
    requires InHeap(s)
    ensures |r.bytes| == |s.bytes| && |r.logs| == |s.logs|
    decreases |s.logs|
  {
    if s.logs == [] then s
    else
      var n := |s.logs| - 1;
      var front := CheckLogs(s.(logs := s.logs[..n]));
      var (bytes, log) := CheckLog(front.bytes, s.logs[n]);
      Ledger(bytes, front.logs + [log])
  }

  lemma {:induction false} CheckLogEffect(bytes: seq<int>, log: seq<AllocEntry>, i: nat)
    requires forall j | 0 <= j < |log| :: log[j].index < |bytes| && log[j].isValid
    requires i < |bytes|
    ensures
      var (b, l) := CheckLog(bytes, log);
      && b[i] == (if Entries(log, i) > 0 then 0 else bytes[i])
      && ValidEntries(l, i) == if Entries(log, i) > 0 && bytes[i] == 1 then 1 else 0
  {
    if log != [] {
      var n := |log| - 1;
      CheckLogEffect(bytes, log[..n], i);
      var (b, l) := CheckLog(bytes, log);
      assert l[..n] == CheckLog(bytes, log[..n]).1;
    }
  }

  /** An earlier entry of the log is for the same object. */
  ghost predicate SeenBefore(log: seq<AllocEntry>, j: nat, i: nat) {
    exists k :: 0 <= k < j && k < |log| && log[k].index == i
  }

  lemma {:induction false} CheckedByte(bytes: seq<int>, log: seq<AllocEntry>, i: nat)
    requires forall j | 0 <= j < |log| :: log[j].index < |bytes|
    requires i < |bytes|
    ensures CheckLog(bytes, log).0[i] == if SeenBefore(log, |log|, i) then 0 else bytes[i]
  {
    if log != [] {
      var n := |log| - 1;
      CheckedByte(bytes, log[..n], i);
      if SeenBefore(log[..n], n, i) {
        var k :| 0 <= k < n && log[..n][k].index == i;
        assert log[k].index == i;
      } else {
        assert forall k | 0 <= k < n :: log[..n][k] == log[k];
      }
    }
  }

  /** The check changes nothing of an entry but its validity, and of an object it leaves valid the first entry only. */
  lemma {:induction false} CheckLogKeeps(bytes: seq<int>, log: seq<AllocEntry>, j: nat)
    requires forall k | 0 <= k < |log| :: log[k].index < |bytes|
    requires j < |log|
    ensures
      var x, y := log[j], CheckLog(bytes, log).1[j];
      && y.index == x.index && y.size == x.size
      && (y.isValid <==> x.isValid && bytes[x.index] == 1 && !SeenBefore(log, j, x.index))
  {
    var n := |log| - 1;
    if j < n {
      CheckLogKeeps(bytes, log[..n], j);
      assert SeenBefore(log[..n], j, log[j].index) <==> SeenBefore(log, j, log[j].index) by {
        assert forall k | 0 <= k < j :: log[..n][k] == log[k];
      }
    } else {
      CheckedByte(bytes, log[..n], log[n].index);
      assert SeenBefore(log[..n], n, log[n].index) <==> SeenBefore(log, n, log[n].index) by {
        assert forall k | 0 <= k < n :: log[..n][k] == log[k];
      }
    }
  }

  /** The same of the logs of all contexts. */
  lemma {:induction false} CheckLogsKeeps(l: Ledger, t: nat, j: nat)
    requires InHeap(l) && t < |l.logs|
    ensures |CheckLogs(l).logs[t]| == |l.logs[t]|
    ensures j < |l.logs[t]| ==>
              var x, y := l.logs[t][j], CheckLogs(l).logs[t][j];
              y.index == x.index && y.size == x.size && (y.isValid ==> x.isValid)
    decreases |l.logs|
  {
    var n := |l.logs| - 1;
    var front := l.(logs := l.logs[..n]);
    if t < n {
      CheckLogsKeeps(front, t, j);
    } else if j < |l.logs[t]| {
      CheckLogKeeps(CheckLogs(front).bytes, l.logs[n], j);
    }
  }

  /** An object with entries keeps one valid entry if its byte was 1 and none otherwise; its byte becomes 0. */
  lemma {:induction false} CheckLogsEffect(s: Ledger, i: nat)
    requires Fresh(s.logs, |s.bytes|) && i < |s.bytes|
    ensures
      var r := CheckLogs(s);
      && r.bytes[i] == (if AllEntries(s.logs, i) > 0 then 0 else s.bytes[i])
      && AllValidEntries(r.logs, i) == if AllEntries(s.logs, i) > 0 && s.bytes[i] == 1 then 1 else 0
    decreases |s.logs|
  {
    if s.logs != [] {
      var n := |s.logs| - 1;
      var init := s.(logs := s.logs[..n]);
      assert Fresh(init.logs, |init.bytes|);
      CheckLogsEffect(init, i);
      var front := CheckLogs(init);
      CheckLogEffect(front.bytes, s.logs[n], i);
      assert CheckLogs(s).logs[..n] == front.logs;
    }
  }

  /**
   * Whatever mallocs and frees an epoch had, in whatever order and by whatever threads: after the check an object
   * has one valid entry in all the logs together if the operations on it were odd in number, and none if they were
   * even; and the byte map is all zero, ready for use by a later epoch.
   */
  lemma Cancellation(lines: nat, threads: nat, ops: seq<Operation>, i: nat)
    requires forall op | op in ops :: op.thread < threads && op.index < lines
    requires i < lines
    ensures Fresh(RecordAll(lines, threads, ops).logs, lines)
    ensures
      var r := CheckLogs(RecordAll(lines, threads, ops));
      && AllValidEntries(r.logs, i) == Count(ops, i) % 2
      && r.bytes[i] == 0
  {
    EntriesAreFresh(lines, threads, ops);
    EntriesOfOperations(lines, threads, ops, i);
    CheckLogsEffect(RecordAll(lines, threads, ops), i);
  }

  class ByteMap {
    const bytes: array<int>

    /** The library does not clear the memory of the map; it is taken to be zero. */
    constructor (size: nat)
      ensures fresh(bytes) && bytes[..] == seq(size, _ => 0)
    {
      bytes := new int[size](_ => 0);
    }

    predicate IsSet(index: nat)
      requires index < bytes.Length
      reads bytes
    {
      bytes[index] == 1
    }

    method Set(index: nat)
      requires index < bytes.Length
      modifies bytes
      ensures bytes[..] == old(bytes[..])[index := 1]
    {
      bytes[index] := 1;
    }

    method Reverse(index: nat)
      requires index < bytes.Length
      modifies bytes
      ensures bytes[..] == old(bytes[..])[index := -old(bytes[index])]
    {
      bytes[index] := bytes[index] * -1;
    }

    method Clear(index: nat)
      requires index < bytes.Length
      modifies bytes
      ensures bytes[..] == old(bytes[..])[index := 0]
    {
      bytes[index] := 0;
    }
  }

  /** A thread's log of one parity, seen as the sequence of its entries. */
  class AllocatorLog {
    var entries: seq<AllocEntry>

    constructor ()
      ensures entries == []
    {
      entries := [];
    }
  }

  ghost function Contents(logs: seq<AllocatorLog>): (contents: seq<seq<AllocEntry>>)
    reads logs
    ensures |contents| == |logs| && forall t | 0 <= t < |logs| :: contents[t] == logs[t].entries
  {
    if logs == [] then [] else Contents(logs[..|logs| - 1]) + [logs[|logs| - 1].entries]
  }

  ghost predicate Distinct(logs: seq<AllocatorLog>) {
    forall i, j | 0 <= i < j < |logs| :: logs[i] != logs[j]
  }

  /** What malloc and free have in common. */
  method RecordOperation(byteMap: ByteMap, logs: seq<AllocatorLog>, op: Operation)
    requires Distinct(logs) && op.thread < |logs| && op.index < byteMap.bytes.Length
    modifies byteMap.bytes, logs[op.thread]
    ensures Ledger(byteMap.bytes[..], Contents(logs)) == Record(old(Ledger(byteMap.bytes[..], Contents(logs))), op)
  {
    var log := logs[op.thread];
    if byteMap.IsSet(op.index) {
      byteMap.Reverse(op.index);
    } else {
      byteMap.Set(op.index);
      log.entries := log.entries + [AllocEntry(op.index, op.size, true)];
    }
  }

  lemma CheckLogStep(bytes: seq<int>, log: seq<AllocEntry>, i: nat)
    requires i < |log| && forall j | 0 <= j < |log| :: log[j].index < |bytes|
    ensures
      var (b, front) := CheckLog(bytes, log[..i]);
      var x := log[i];
      CheckLog(bytes, log[..i + 1]) == (b[x.index := 0], front + [if b[x.index] == 1 then x else x.(isValid := false)])
  {
    assert log[..i + 1][..i] == log[..i];
  }

  method CheckOne(byteMap: ByteMap, log: AllocatorLog)
    requires forall j | 0 <= j < |log.entries| :: log.entries[j].index < byteMap.bytes.Length
    modifies byteMap.bytes, log
    ensures (byteMap.bytes[..], log.entries) == CheckLog(old(byteMap.bytes[..]), old(log.entries))
  {
    ghost var bytes := byteMap.bytes[..];
    var entries := log.entries;
    for i := 0 to |entries|
      invariant |log.entries| == |entries|
      invariant forall j | i <= j < |entries| :: log.entries[j] == entries[j]
      invariant byteMap.bytes[..] == CheckLog(bytes, entries[..i]).0
      invariant log.entries[..i] == CheckLog(bytes, entries[..i]).1
    {
      CheckLogStep(bytes, entries, i);
      hide CheckLog;
      ghost var front := log.entries[..i];
      var index := entries[i].index;
      if !byteMap.IsSet(index) {
        log.entries := log.entries[i := entries[i].(isValid := false)];
      }
      byteMap.Clear(index);
      assert log.entries[..i + 1] == front + [log.entries[i]];
    }
    assert entries[..|entries|] == entries && log.entries[..|entries|] == log.entries;
  }

  /** The result of checking the first `t` logs. */
  ghost function CheckFirst(s: Ledger, t: nat): (r: Ledger)
    requires t <= |s.logs| && InHeap(s)
    ensures |r.bytes| == |s.bytes| && |r.logs| == t
  {
    CheckLogs(s.(logs := s.logs[..t]))
  }

  lemma CheckFirstStep(s: Ledger, t: nat)
    requires t < |s.logs| && InHeap(s)
    ensures
      var front := CheckFirst(s, t);
      var (bytes, log) := CheckLog(front.bytes, s.logs[t]);
      CheckFirst(s, t + 1) == Ledger(bytes, front.logs + [log])
  {
    assert s.logs[..t + 1][..t] == s.logs[..t];
  }

  method CheckAll(byteMap: ByteMap, logs: seq<AllocatorLog>, ghost s: Ledger)
    requires Distinct(logs) && s.bytes == byteMap.bytes[..] && |s.logs| == |logs|
    requires forall t | 0 <= t < |logs| :: logs[t].entries == s.logs[t]
    requires InHeap(s)
    modifies byteMap.bytes, logs
    ensures byteMap.bytes[..] == CheckLogs(s).bytes
    ensures forall t | 0 <= t < |logs| :: logs[t].entries == CheckLogs(s).logs[t]
  {
    for t := 0 to |logs|
      invariant forall u | t <= u < |logs| :: logs[u].entries == s.logs[u]
      invariant byteMap.bytes[..] == CheckFirst(s, t).bytes
      invariant forall u | 0 <= u < t :: logs[u].entries == CheckFirst(s, t).logs[u]
    {
      CheckFirstStep(s, t);
      hide CheckFirst;
      CheckOne(byteMap, logs[t]);
    }
    assert s.(logs := s.logs[..|logs|]) == s;
  }

  /** The log of each context in turn. */
  method CheckValid(byteMap: ByteMap, logs: seq<AllocatorLog>)
    requires Distinct(logs)
    requires forall t, j | 0 <= t < |logs| && 0 <= j < |logs[t].entries| :: logs[t].entries[j].index < byteMap.bytes.Length
    modifies byteMap.bytes, logs
    ensures Ledger(byteMap.bytes[..], Contents(logs)) == CheckLogs(old(Ledger(byteMap.bytes[..], Contents(logs))))
  {
    CheckAll(byteMap, logs, Ledger(byteMap.bytes[..], Contents(logs)));
  }
}

/** Recovery: replaying the blocks of the pool, clearing each, and copying the NVM heap into DRAM. */
module Recovery {
  import opened Redo
  import opened ChunkedLog
  import opened HeapUpdate

  /**
   * Recovery as it runs, is cut short by a crash, and starts again. `nvm` is what a crash is sure to leave and
   * `pending` the stores since the last fence. `todo` are the blocks still to be replayed, the first of them up to
   * entry `n`. `original` are the blocks at the very beginning.
   */
  datatype State = State(nvm: seq<Value>, pending: seq<Entry>, blocks: seq<seq<Entry>>, todo: seq<nat>, n: nat,
                         original: seq<seq<Entry>>)

  /**
   * A crash may leave anything in a line with a store since the last fence, and may bring back cleared blocks; the pool
   * may list its blocks in another order when it is read again.
   */
  datatype Action = Replay | FenceAndClear | Crash(heap: seq<Value>, back: set<nat>, order: seq<nat>)

  ghost predicate Lists(order: seq<nat>, blocks: nat) {
    && (forall k | 0 <= k < |order| :: order[k] < blocks)
    && (forall b: nat | b < blocks :: b in order)
  }

  ghost predicate Enabled(s: State, a: Action) {
    match a
    case Replay => s.todo != [] && s.todo[0] < |s.blocks| && s.n < |s.blocks[s.todo[0]]|
    case FenceAndClear => s.todo != [] && s.todo[0] < |s.blocks| && s.n >= |s.blocks[s.todo[0]]|
    case Crash(heap, back, order) =>
      && |heap| == |s.nvm|
      && (forall l: nat | l < |heap| :: heap[l] == s.nvm[l] || HasLine(s.pending, l))
      && Lists(order, |s.blocks|)
  }

  function Back(s: State, back: set<nat>): (r: seq<seq<Entry>>)
    requires |s.blocks| == |s.original|
    ensures |r| == |s.blocks|
    ensures forall b | 0 <= b < |r| :: r[b] == if b in back then s.original[b] else s.blocks[b]
  {
    seq(|s.blocks|, b requires 0 <= b < |s.blocks| => if b in back then s.original[b] else s.blocks[b])
  }

  ghost function Next(s: State, a: Action): State
    requires Enabled(s, a) && |s.blocks| == |s.original|
  {
    match a
    case Replay => s.(pending := s.pending + [s.blocks[s.todo[0]][s.n]], n := s.n + 1)
    case FenceAndClear =>
      s.(nvm := Apply(s.nvm, s.pending), pending := [], blocks := s.blocks[s.todo[0] := []], todo := s.todo[1..], n := 0)
    case Crash(heap, back, order) => s.(nvm := heap, pending := [], blocks := Back(s, back), todo := order, n := 0)
  }

  /** For every line of the heap, the last entries that different blocks have for it agree. */
  ghost predicate Agree(blocks: seq<seq<Entry>>, size: nat) {
    forall b: nat, c: nat, i: nat, j: nat, l: nat | b < |blocks| && c < |blocks| && l < size ::
      LastFor(blocks[b], i, l) && LastFor(blocks[c], j, l) ==> blocks[b][i].val == blocks[c][j].val
  }

  ghost predicate InBlocks(blocks: seq<seq<Entry>>, l: nat) {
    exists b :: 0 <= b < |blocks| && HasLine(blocks[b], l)
  }

  /** The line has its final value, or still has an entry. */
  ghost predicate LineRight(s: State, target: seq<Value>, l: nat) {
    l < |s.nvm| == |target| && (s.nvm[l] == target[l] || InBlocks(s.blocks, l))
  }

  ghost predicate EntriesRight(log: seq<Entry>, target: seq<Value>) {
    forall j: nat, l: nat | l < |target| && LastFor(log, j, l) :: log[j].val == target[l]
  }

  ghost predicate Inv(s: State, target: seq<Value>) {
    && |s.nvm| == |target| && |s.blocks| == |s.original|
    && (forall b | 0 <= b < |s.original| :: EntriesRight(s.original[b], target))
    && (forall b | 0 <= b < |s.blocks| :: s.blocks[b] == s.original[b] || s.blocks[b] == [])
    && (forall b | 0 <= b < |s.blocks| && s.blocks[b] != [] :: b in s.todo)
    && (forall k | 0 <= k < |s.todo| :: s.todo[k] < |s.blocks|)
    && (if s.todo == [] then s.pending == [] else s.n <= |s.blocks[s.todo[0]]| && s.pending == s.blocks[s.todo[0]][..s.n])
    && (forall l: nat | l < |target| :: LineRight(s, target, l))
  }

  lemma ReplayKeeps(s: State, target: seq<Value>)
    requires Inv(s, target) && Enabled(s, Replay)
    ensures Inv(Next(s, Replay), target)
  {
    forall l: nat | l < |target|
      ensures LineRight(Next(s, Replay), target, l)
    {
      assert LineRight(s, target, l);
    }
  }

  lemma ClearedLine(s: State, target: seq<Value>, l: nat)
    requires Inv(s, target) && Enabled(s, FenceAndClear) && l < |target|
    ensures LineRight(Next(s, FenceAndClear), target, l)
  {
    var b := s.todo[0];
    var next := Next(s, FenceAndClear);
    assert s.blocks[b][..s.n] == s.blocks[b];
    assert LineRight(s, target, l);
    assert EntriesRight(s.original[b], target);
    ApplyAt(s.nvm, s.pending, l);
    if s.nvm[l] != target[l] && !HasLine(s.pending, l) {
      var c :| 0 <= c < |s.blocks| && HasLine(s.blocks[c], l);
      assert next.blocks[c] == s.blocks[c];
    }
  }

  lemma ClearKeeps(s: State, target: seq<Value>)
    requires Inv(s, target) && Enabled(s, FenceAndClear)
    ensures Inv(Next(s, FenceAndClear), target)
  {
    forall l: nat | l < |target|
      ensures LineRight(Next(s, FenceAndClear), target, l)
    {
      ClearedLine(s, target, l);
    }
  }

  lemma CrashedLine(s: State, a: Action, target: seq<Value>, l: nat)
    requires Inv(s, target) && a.Crash? && Enabled(s, a) && l < |target|
    ensures LineRight(Next(s, a), target, l)
  {
    var next := Next(s, a);
    assert LineRight(s, target, l);
    if a.heap[l] == s.nvm[l] {
      if s.nvm[l] != target[l] {
        var c :| 0 <= c < |s.blocks| && HasLine(s.blocks[c], l);
        assert next.blocks[c] == s.blocks[c];
      }
    } else {
      var j :| 0 <= j < |s.pending| && s.pending[j].line == l;
      var b := s.todo[0];
      assert s.blocks[b][j] == s.pending[j];
      assert next.blocks[b] == s.blocks[b] && HasLine(next.blocks[b], l);
    }
  }

  lemma CrashKeeps(s: State, a: Action, target: seq<Value>)
    requires Inv(s, target) && a.Crash? && Enabled(s, a)
    ensures Inv(Next(s, a), target)
  {
    forall l: nat | l < |target|
      ensures LineRight(Next(s, a), target, l)
    {
      CrashedLine(s, a, target, l);
    }
  }

  /** The final heap: all the blocks replayed without a crash, in the order in which they come. */
  function Target(heap: seq<Value>, blocks: seq<seq<Entry>>): seq<Value> {
    ApplyAll(heap, blocks)
  }

  /** A line that starts right, or has an entry, ends right if the last entries that blocks have for it are right. */
  lemma {:induction false} AgreedTarget(heap: seq<Value>, blocks: seq<seq<Entry>>, l: nat, v: Value)
    requires l < |heap| && (heap[l] == v || InBlocks(blocks, l))
    requires forall b: nat, j: nat | b < |blocks| && LastFor(blocks[b], j, l) :: blocks[b][j].val == v
    ensures Target(heap, blocks)[l] == v
  {
    if blocks != [] {
      var n := |blocks| - 1;
      ApplyAt(Target(heap, blocks[..n]), blocks[n], l);
      if !HasLine(blocks[n], l) {
        assert forall b | 0 <= b < n :: blocks[..n][b] == blocks[b];
        AgreedTarget(heap, blocks[..n], l, v);
      }
    }
  }

  function Start(heap: seq<Value>, blocks: seq<seq<Entry>>, order: seq<nat>): State {
    State(heap, [], blocks, order, 0, blocks)
  }

  lemma StartInv(heap: seq<Value>, blocks: seq<seq<Entry>>, order: seq<nat>)
    requires Agree(blocks, |heap|) && Lists(order, |blocks|)
    ensures Inv(Start(heap, blocks, order), Target(heap, blocks))
  {
    var target := Target(heap, blocks);
    forall b | 0 <= b < |blocks|
      ensures EntriesRight(blocks[b], target)
    {
      forall j: nat, l: nat | l < |target| && LastFor(blocks[b], j, l)
        ensures blocks[b][j].val == target[l]
      {
        assert HasLine(blocks[b], l);
        AgreedTarget(heap, blocks, l, blocks[b][j].val);
      }
    }
    forall l: nat | l < |target|
      ensures LineRight(Start(heap, blocks, order), target, l)
    {
      if !InBlocks(blocks, l) {
        NotListed(blocks, l);
        AgreedTarget(heap, blocks, l, heap[l]);
      }
    }
  }

  lemma NotListed(blocks: seq<seq<Entry>>, l: nat)
    requires !InBlocks(blocks, l)
    ensures forall b: nat, j: nat | b < |blocks| :: !LastFor(blocks[b], j, l)
  {
    forall b: nat, j: nat | b < |blocks|
      ensures !LastFor(blocks[b], j, l)
    {
      if LastFor(blocks[b], j, l) { assert HasLine(blocks[b], l); }
    }
  }

  ghost predicate Run(s: State, acts: seq<Action>, s': State)
    requires |s.blocks| == |s.original|
    decreases |acts|
  {
    if acts == [] then s' == s
    else Enabled(s, acts[0]) && |Next(s, acts[0]).blocks| == |s.original| && Run(Next(s, acts[0]), acts[1..], s')
  }

  lemma {:induction false} RunKeepsInv(s: State, acts: seq<Action>, s': State, target: seq<Value>)
    requires Inv(s, target) && Run(s, acts, s')
    ensures Inv(s', target)
    decreases |acts|
  {
    if acts != [] {
      match acts[0]
      case Replay => ReplayKeeps(s, target); RunKeepsInv(Next(s, acts[0]), acts[1..], s', target);
      case FenceAndClear => ClearKeeps(s, target); RunKeepsInv(Next(s, acts[0]), acts[1..], s', target);
      case Crash(_, _, _) => CrashKeeps(s, acts[0], target); RunKeepsInv(Next(s, acts[0]), acts[1..], s', target);
    }
  }

  lemma FinishedLine(s: State, target: seq<Value>, l: nat)
    requires Inv(s, target) && l < |target|
    ensures Target(s.nvm, s.blocks)[l] == target[l]
    ensures s.todo == [] ==> s.nvm[l] == target[l]
  {
    assert LineRight(s, target, l);
    forall b: nat, j: nat | b < |s.blocks| && LastFor(s.blocks[b], j, l)
      ensures s.blocks[b][j].val == target[l]
    {
      assert EntriesRight(s.original[b], target);
    }
    AgreedTarget(s.nvm, s.blocks, l, target[l]);
  }

  /** At every moment of recovery, replaying the blocks that are left leads to the final heap; at the end it is there. */
  lemma AgreedRecovery(heap: seq<Value>, blocks: seq<seq<Entry>>, order: seq<nat>, acts: seq<Action>, s: State)
    requires Agree(blocks, |heap|) && Lists(order, |blocks|)
    requires Run(Start(heap, blocks, order), acts, s)
    ensures Target(s.nvm, s.blocks) == Target(heap, blocks)
    ensures s.todo == [] ==> s.nvm == Target(heap, blocks) && forall b | 0 <= b < |s.blocks| :: s.blocks[b] == []
  {
    var target := Target(heap, blocks);
    StartInv(heap, blocks, order);
    RunKeepsInv(Start(heap, blocks, order), acts, s, target);
    forall l: nat | l < |target|
      ensures Target(s.nvm, s.blocks)[l] == target[l]
      ensures s.todo == [] ==> s.nvm[l] == target[l]
    {
      FinishedLine(s, target, l);
    }
  }

  lemma RunPrepend(s: State, a: Action, acts: seq<Action>, s': State)
    requires |s.blocks| == |s.original| && Enabled(s, a)
    requires |Next(s, a).blocks| == |s.original| && Next(s, a).original == s.original && Run(Next(s, a), acts, s')
    ensures Run(s, [a] + acts, s')
  {
    assert ([a] + acts)[1..] == acts;
  }

  ghost predicate Ready(s: State) {
    && |s.blocks| == |s.original| && s.pending == [] && s.n == 0
    && forall k | 0 <= k < |s.todo| :: s.todo[k] < |s.blocks|
  }

  /** The state after the first block has been replayed and cleared. */
  function OneDone(s: State): State
    requires s.todo != [] && s.todo[0] < |s.blocks|
  {
    var b := s.todo[0];
    s.(nvm := Apply(s.nvm, s.blocks[b]), pending := [], blocks := s.blocks[b := []], todo := s.todo[1..], n := 0)
  }

  /** Replaying what is left of the first block and clearing it. */
  lemma {:induction false} RestOfBlock(s: State, start: State, acts: seq<Action>, s': State) returns (all: seq<Action>)
    requires Ready(start) && start.todo != [] && Run(OneDone(start), acts, s')
    requires
      var log := start.blocks[start.todo[0]];
      s.n <= |log| && s == start.(pending := log[..s.n], n := s.n)
    ensures Run(s, all, s')
    decreases |start.blocks[start.todo[0]]| - s.n
  {
    var log := start.blocks[start.todo[0]];
    if s.n == |log| {
      assert log[..s.n] == log;
      all := [FenceAndClear] + acts;
      RunPrepend(s, FenceAndClear, acts, s');
    } else {
      var rest := RestOfBlock(Next(s, Replay), start, acts, s');
      all := [Replay] + rest;
      RunPrepend(s, Replay, rest, s');
    }
  }

  /** The heap after a recovery that is not interrupted. */
  function Sweep(nvm: seq<Value>, blocks: seq<seq<Entry>>, todo: seq<nat>): (r: seq<Value>)
    requires forall k | 0 <= k < |todo| :: todo[k] < |blocks|
    ensures |r| == |nvm|
    decreases |todo|
  {
    if todo == [] then nvm else Sweep(Apply(nvm, blocks[todo[0]]), blocks[todo[0] := []], todo[1..])
  }

  lemma {:induction false} Uninterrupted(s: State) returns (acts: seq<Action>, s': State)
    requires Ready(s)
    ensures Run(s, acts, s') && s'.todo == [] && s'.nvm == Sweep(s.nvm, s.blocks, s.todo)
    decreases |s.todo|
  {
    if s.todo == [] {
      acts, s' := [], s;
    } else {
      var rest;
      rest, s' := Uninterrupted(OneDone(s));
      assert s.blocks[s.todo[0]][..0] == [];
      acts := RestOfBlock(s, s, rest, s');
    }
  }

  /** The block that is taken last has the last word. */
  lemma {:induction false} LastBlockWins(nvm: seq<Value>, blocks: seq<seq<Entry>>, front: seq<nat>, b: nat, j: nat, l: nat)
    requires b < |blocks| && b !in front && forall k | 0 <= k < |front| :: front[k] < |blocks|
    requires l < |nvm| && LastFor(blocks[b], j, l)
    ensures Sweep(nvm, blocks, front + [b])[l] == blocks[b][j].val
    decreases |front|
  {
    if front == [] {
      assert HasLine(blocks[b], l);
      ApplyAt(nvm, blocks[b], l);
      assert ([] + [b])[1..] == [];
    } else {
      assert front[0] in front;
      assert (front + [b])[1..] == front[1..] + [b];
      LastBlockWins(Apply(nvm, blocks[front[0]]), blocks[front[0] := []], front[1..], b, j, l);
    }
  }

  /** All blocks but one, in order. */
  function Others(blocks: nat, b: nat): seq<nat>
    requires b < blocks
  {
    seq(blocks - 1, k requires 0 <= k => if k < b then k else k + 1)
  }

  lemma OthersFirst(blocks: nat, b: nat)
    requires b < blocks
    ensures b !in Others(blocks, b) && Lists(Others(blocks, b) + [b], blocks)
  {
    var order := Others(blocks, b) + [b];
    forall k: nat | k < blocks
      ensures k in order
    {
      var at := if k < b then k else if k == b then blocks - 1 else k - 1;
      assert order[at] == k;
    }
  }

  lemma TakenLast(heap: seq<Value>, blocks: seq<seq<Entry>>, b: nat, j: nat, l: nat)
      returns (order: seq<nat>, acts: seq<Action>, s: State)
    requires b < |blocks| && l < |heap| && LastFor(blocks[b], j, l)
    ensures Lists(order, |blocks|) && Run(Start(heap, blocks, order), acts, s) && s.todo == []
    ensures |s.nvm| == |heap| && s.nvm[l] == blocks[b][j].val
  {
    OthersFirst(|blocks|, b);
    var front := Others(|blocks|, b);
    order := front + [b];
    acts, s := Uninterrupted(Start(heap, blocks, order));
    LastBlockWins(heap, blocks, front, b, j, l);
  }

  /** Recovery completes with the same heap, whatever crashes come and in whatever orders blocks are taken. */
  ghost predicate AlwaysRecovers(heap: seq<Value>, blocks: seq<seq<Entry>>) {
    forall order, acts, s | Lists(order, |blocks|) && Run(Start(heap, blocks, order), acts, s) && s.todo == [] ::
      s.nvm == Target(heap, blocks)
  }

  /**
   * Recovery that may be cut short any number of times, at any points, and takes blocks in any orders, ends with the
   * heap of one replay without a crash exactly if the blocks agree on the last entries of the lines that they share.
   */
  lemma RestartableRecovery(heap: seq<Value>, blocks: seq<seq<Entry>>)
    ensures AlwaysRecovers(heap, blocks) <==> Agree(blocks, |heap|)
  {
    if Agree(blocks, |heap|) {
      forall order, acts, s | Lists(order, |blocks|) && Run(Start(heap, blocks, order), acts, s) && s.todo == []
        ensures s.nvm == Target(heap, blocks)
      {
        AgreedRecovery(heap, blocks, order, acts, s);
      }
    } else {
      var b: nat, c: nat, i: nat, j: nat, l: nat :| b < |blocks| && c < |blocks| && l < |heap|
        && LastFor(blocks[b], i, l) && LastFor(blocks[c], j, l) && blocks[b][i].val != blocks[c][j].val;
      var order, acts, s := TakenLast(heap, blocks, b, i, l);
      var order', acts', s' := TakenLast(heap, blocks, c, j, l);
      assert s.nvm != Target(heap, blocks) || s'.nvm != Target(heap, blocks);
    }
  }

  /** Two blocks that disagree on a line: recovery does not always end with the same heap. */
  lemma DisagreementMatters()
    ensures !AlwaysRecovers([0], [[Entry(0, 1)], [Entry(0, 2)]])
  {
    var blocks := [[Entry(0, 1)], [Entry(0, 2)]];
    assert LastFor(blocks[0], 0, 0) && LastFor(blocks[1], 0, 0);
    RestartableRecovery([0], blocks);
  }

  /** Replays and clears the blocks in the order of the pool. */
  method ReplayRedoLogs(blocks: seq<Block<Entry>>, ghost contents: seq<seq<Entry>>, nvm: array<Value>)
    requires BlocksHold(blocks, contents, nvm.Length)
    requires NoDup(blocks)
    modifies nvm, blocks`size
    ensures nvm[..] == Target(old(nvm[..]), contents)
    ensures forall b | b in blocks :: b.size == 0
  {
    ghost var start := nvm[..];
    for b := 0 to |blocks|
      invariant nvm[..] == Target(start, contents[..b])
      invariant forall c | 0 <= c < b :: blocks[c].size == 0
      invariant forall c | b <= c < |blocks| ::
                  blocks[c].size <= blocks[c].entries.Length && contents[c] == blocks[c].Content()
    {
      assert contents[..b + 1][..b] == contents[..b];
      ReplayBlock(blocks[b], nvm);
      blocks[b].Clear();
    }
    assert contents[..|blocks|] == contents;
  }

  const PAGE: nat := 4096

  /** Only bytes that are zero in DRAM are copied, and only in pages that can be made writable. */
  predicate Copies(dram: seq<int>, nvm: seq<int>, writable: seq<bool>, k: nat)
    requires k < |dram| == |nvm| == 4096 * |writable|
  {
    writable[k / 4096] && dram[k] == 0 && nvm[k] != 0
  }

  method Copy(dram: array<int>, nvm: array<int>, writable: seq<bool>)
    requires dram != nvm && dram.Length == nvm.Length == 4096 * |writable|
    modifies dram
    ensures forall k | 0 <= k < dram.Length ::
              dram[k] == if Copies(old(dram[..]), nvm[..], writable, k) then nvm[k] else old(dram[k])
  {
    ghost var was := dram[..];
    var at := 0;
    for page := 0 to |writable|
      invariant at == PAGE * page
      invariant forall k | 0 <= k < at :: dram[k] == if Copies(was, nvm[..], writable, k) then nvm[k] else was[k]
      invariant forall k | at <= k < dram.Length :: dram[k] == was[k]
    {
      if !writable[page] {
        at := at + PAGE;
        continue;
      }
      for j := 0 to PAGE
        invariant at == PAGE * page + j
        invariant forall k | 0 <= k < at :: dram[k] == if Copies(was, nvm[..], writable, k) then nvm[k] else was[k]
        invariant forall k | at <= k < dram.Length :: dram[k] == was[k]
      {
        assert at / PAGE == page;
        if dram[at] == 0 && nvm[at] != 0 {
          dram[at] := nvm[at];
        }
        at := at + 1;
      }
    }
  }

  /** Copying makes the DRAM heap equal to the NVM heap exactly if it has no byte of its own that differs. */
  lemma CopyRestores(dram: seq<int>, nvm: seq<int>, writable: seq<bool>, copied: seq<int>)
    requires |dram| == |nvm| == |copied| == 4096 * |writable|
    requires forall k | 0 <= k < |dram| :: copied[k] == if Copies(dram, nvm, writable, k) then nvm[k] else dram[k]
    ensures copied == nvm <==>
            forall k | 0 <= k < |dram| :: dram[k] == nvm[k] || (dram[k] == 0 && writable[k / 4096])
  {
    if copied == nvm {
      forall k | 0 <= k < |dram|
        ensures dram[k] == nvm[k] || (dram[k] == 0 && writable[k / 4096])
      {
        assert copied[k] == nvm[k];
      }
    }
  }
}

/**
 * Logs made of fixed-size blocks that are drawn from one shared pool and given back to it. Redo logs and allocator
 * logs have this structure; they differ in the entries and in the capacity of a block.
 */
module ChunkedLog {
  ghost predicate NoDup<T>(s: seq<T>) {
    forall i, j | 0 <= i < j < |s| :: s[i] != s[j]
  }

  lemma NoDupAppend<T>(s: seq<T>, x: T)
    requires NoDup(s) && x !in s
    ensures NoDup(s + [x])
  {
  }

  /** `std::list::remove`: all occurrences go. */
  function Without<T(==)>(s: seq<T>, x: T): (r: seq<T>)
    ensures forall y | y in s :: y in r <==> y != x
    ensures forall y | y in r :: y in s
    ensures |r| <= |s|
  {
    if s == [] then []
    else if s[|s| - 1] == x then Without(s[..|s| - 1], x)
    else Without(s[..|s| - 1], x) + [s[|s| - 1]]
  }

  lemma {:induction false} WithoutNoDup<T>(s: seq<T>, x: T)
    requires NoDup(s)
    ensures NoDup(Without(s, x))
  {
    if s != [] {
      var n := |s| - 1;
      WithoutNoDup(s[..n], x);
      var r := Without(s[..n], x);
      assert forall k | 0 <= k < |r| :: r[k] in r && r[k] in s[..n];
      assert s[n] !in s[..n];
    }
  }

  class Block<T(0)> {
    const entries: array<T>
    var size: nat
    /** The log that has the block, or null while it is in the free list. */
    ghost var owner: object?

    constructor (capacity: nat)
      ensures fresh(entries) && entries.Length == capacity && size == 0 && owner == null
    {
      entries := new T[capacity];
      size := 0;
      owner := null;
    }

    ghost function Content(): seq<T>
      requires size <= entries.Length
      reads this, entries
    {
      entries[..size]
    }

    /** Refuses, and changes nothing, exactly when the block is full. */
    method Append(x: T) returns (ok: bool)
      requires size <= entries.Length
      modifies this`size, entries
      ensures size <= entries.Length
      ensures ok <==> old(size) < entries.Length
      ensures Content() == if ok then old(Content()) + [x] else old(Content())
    {
      if size == entries.Length {
        return false;
      }
      entries[size] := x;
      size := size + 1;
      ok := true;
    }

    method Clear()
      modifies this`size
      ensures size == 0
    {
      size := 0;
    }
  }

  class Pool<T(0)> {
    const capacity: nat
    var free: seq<Block<T>>
    var used: seq<Block<T>>
    /** The blocks that the pool was built with. */
    ghost const all: set<Block<T>>

    /** Every block is in exactly one of the two lists, and the free ones are empty. */
    ghost predicate Valid()
      reads this, all
    {
      && 0 < capacity
      && NoDup(free) && NoDup(used)
      && (forall b | b in free :: b in all)
      && (forall b | b in used :: b in all)
      && (forall b | b in all ::
            && (b in free <==> b.owner == null)
            && (b in used <==> b.owner != null)
            && b.entries.Length == capacity
            && b.size <= capacity
            && (b in free ==> b.size == 0))
    }

    /** No two blocks share memory. */
    ghost predicate Separate() {
      forall b, b' | b in all && b' in all && b != b' :: b.entries != b'.entries
    }

    constructor (capacity: nat, numBlocks: nat)
      requires 0 < capacity
      ensures Valid() && Separate() && fresh(all) && fresh(set b | b in all :: b.entries)
      ensures this.capacity == capacity && |free| == numBlocks && used == []
    {
      var blocks: seq<Block<T>> := [];
      for i := 0 to numBlocks
        invariant |blocks| == i && NoDup(blocks)
        invariant forall b | b in blocks ::
                    fresh(b) && fresh(b.entries) && b.entries.Length == capacity && b.size == 0 && b.owner == null
        invariant forall b, b' | b in blocks && b' in blocks && b != b' :: b.entries != b'.entries
      {
        var block := new Block<T>(capacity);
        blocks := blocks + [block];
      }
      this.capacity := capacity;
      free := blocks;
      used := [];
      all := set b | b in blocks;
    }

    /** Takes the last free block; running out of blocks is an assertion failure of the library. */
    method Pop(ghost owner: object) returns (block: Block<T>)
      requires Valid() && free != []
      modifies this, all`owner
      ensures Valid()
      ensures block == old(free[|free| - 1]) && free == old(free[..|free| - 1]) && used == old(used) + [block]
      ensures block.owner == owner
      ensures forall b | b in all && b != block :: b.owner == old(b.owner)
    {
      block := free[|free| - 1];
      free := free[..|free| - 1];
      used := used + [block];
      block.owner := owner;
    }

    method Push(block: Block<T>)
      requires Valid() && block in used && block.size == 0
      modifies this, block`owner
      ensures Valid()
      ensures block.owner == null && free == old(free) + [block] && used == Without(old(used), block)
    {
      WithoutNoDup(used, block);
      free := free + [block];
      used := Without(used, block);
      block.owner := null;
    }
  }

  /** The entries of a list of blocks, one block after the other. */
  ghost function Flatten<T(0)>(blocks: seq<Block<T>>): seq<T>
    reads blocks, set b | b in blocks :: b.entries
  {
    if blocks == [] then []
    else
      var last := blocks[|blocks| - 1];
      Flatten(blocks[..|blocks| - 1]) + if last.size <= last.entries.Length then last.Content() else []
  }

  lemma FlattenEmpty<T(0)>(front: seq<Block<T>>, tail: Block<T>)
    requires tail.size == 0
    ensures Flatten(front + [tail]) == Flatten(front)
  {
    assert (front + [tail])[..|front|] == front;
  }

  twostate lemma {:induction false} FlattenSame<T(0)>(blocks: seq<Block<T>>)
    requires forall b | b in blocks :: b.size == old(b.size) && b.entries[..] == old(b.entries[..])
    ensures Flatten(blocks) == old(Flatten(blocks))
  {
    if blocks != [] {
      FlattenSame(blocks[..|blocks| - 1]);
      var last := blocks[|blocks| - 1];
      if last.size <= last.entries.Length {
        assert last.entries[..][..last.size] == last.Content();
        assert old(last.entries[..][..last.size]) == old(last.Content());
      }
    }
  }

  class Log<T(0)> {
    var blocks: seq<Block<T>>

    constructor ()
      ensures blocks == []
    {
      blocks := [];
    }

    /** `chain` is exactly the blocks that the log owns, and all but the last are full. */
    ghost predicate Chain(pool: Pool<T>, chain: seq<Block<T>>)
      reads pool, pool.all
    {
      && pool.Valid() && pool.Separate()
      && NoDup(chain)
      && (forall b | b in pool.all :: b in chain <==> b.owner == this)
      && (forall b | b in chain :: b in pool.all)
      && (forall i | 0 <= i < |chain| - 1 :: chain[i].size == pool.capacity)
    }

    ghost predicate Chained(pool: Pool<T>)
      reads this, pool, pool.all
    {
      Chain(pool, blocks)
    }

    /** Besides, the last block is not empty. */
    ghost predicate Valid(pool: Pool<T>)
      reads this, pool, pool.all
    {
      Chained(pool) && (blocks != [] ==> 0 < blocks[|blocks| - 1].size)
    }

    ghost function Contents(): seq<T>
      reads this, blocks, set b | b in blocks :: b.entries
    {
      Flatten(blocks)
    }

    predicate NeedsBlock()
      reads this, blocks
    {
      blocks == [] || blocks[|blocks| - 1].size >= blocks[|blocks| - 1].entries.Length
    }

    /** Blocks move only between this log and the free list; those of other logs stay, with what is in them. */
    twostate predicate OthersUntouched(pool: Pool<T>)
      reads pool.all, set b | b in pool.all :: b.entries
    {
      && (forall b | b in pool.all && old(b.owner) != this && old(b.owner) != null ::
            b.owner == old(b.owner) && b.size == old(b.size) && b.entries[..] == old(b.entries[..]))
      && (forall b | b in pool.all && (old(b.owner) == this || old(b.owner) == null) ::
            b.owner == this || b.owner == null)
    }

    /** Takes an empty block from the pool, to be put behind full ones. */
    method TakeBlock(pool: Pool<T>) returns (tail: Block<T>)
      requires Chained(pool) && NeedsBlock() && pool.free != []
      modifies pool, pool.all`owner
      ensures Chain(pool, blocks + [tail]) && tail.size == 0
      ensures Contents() == old(Contents())
      ensures forall b | b in pool.all :: b.owner == old(b.owner) || (b.owner == this && old(b.owner) == null)
    {
      tail := pool.Pop(this);
      NoDupAppend(blocks, tail);
    }

    method Attach(pool: Pool<T>, tail: Block<T>)
      requires Chain(pool, blocks + [tail]) && tail.size == 0
      modifies this`blocks
      ensures Chained(pool) && |blocks| == old(|blocks|) + 1 && blocks[|blocks| - 1].size == 0
      ensures Contents() == old(Contents())
    {
      hide Chain;
      FlattenEmpty(blocks, tail);
      blocks := blocks + [tail];
    }

    /** Puts an empty block at the end. */
    method AddBlock(pool: Pool<T>)
      requires Chained(pool) && NeedsBlock() && pool.free != []
      modifies this`blocks, pool, pool.all`owner
      ensures Chained(pool) && |blocks| == old(|blocks|) + 1 && blocks[|blocks| - 1].size == 0
      ensures Contents() == old(Contents())
      ensures forall b | b in pool.all :: b.owner == old(b.owner) || (b.owner == this && old(b.owner) == null)
    {
      hide Chain, Flatten, pool.Valid, pool.Separate, NoDup;
      var tail := TakeBlock(pool);
      Attach(pool, tail);
    }

    /** Only the last block of the log, and what is in it, has changed. */
    twostate lemma TailContents(pool: Pool<T>)
      requires old(Chained(pool))
      requires blocks == old(blocks) && blocks != []
      requires pool.free == old(pool.free) && pool.used == old(pool.used)
      requires blocks[|blocks| - 1].size <= pool.capacity
      requires forall b | b in pool.all :: b.owner == old(b.owner)
      requires forall b | b in pool.all && b != blocks[|blocks| - 1] :: b.size == old(b.size)
      requires forall b | b in pool.all && b != blocks[|blocks| - 1] :: b.entries[..] == old(b.entries[..])
      ensures Chained(pool)
      ensures Contents() == old(Flatten(blocks[..|blocks| - 1])) + blocks[|blocks| - 1].Content()
    {
      FlattenSame(blocks[..|blocks| - 1]);
    }

    /** Appends to the last block, or reports that it is full. */
    method AppendToTail(pool: Pool<T>, tail: Block<T>, x: T) returns (ok: bool)
      requires Chained(pool) && blocks != [] && tail == blocks[|blocks| - 1]
      modifies tail`size, tail.entries
      ensures Chained(pool)
      ensures ok <==> old(!NeedsBlock())
      ensures Contents() == if ok then old(Contents()) + [x] else old(Contents())
      ensures 0 < tail.size
      ensures !ok ==> NeedsBlock()
      ensures forall b | b in pool.all && b != tail :: b.entries[..] == old(b.entries[..])
    {
      ok := tail.Append(x);
      TailContents(pool);
    }

    /** Appends to a new block. */
    method AppendToNew(pool: Pool<T>, x: T)
      requires Chained(pool) && NeedsBlock() && pool.free != []
      modifies this, pool, pool.all, set b | b in pool.all :: b.entries
      ensures Valid(pool)
      ensures Contents() == old(Contents()) + [x]
      ensures |blocks| == old(|blocks|) + 1
      ensures OthersUntouched(pool)
    {
      AddBlock(pool);
      var ok := AppendToTail(pool, blocks[|blocks| - 1], x);
    }

    /** The first entry of an empty log needs a block. */
    method StartBlock(pool: Pool<T>)
      requires Valid(pool)
      requires blocks == [] ==> pool.free != []
      modifies this`blocks, pool, pool.all`owner
      ensures Chained(pool) && blocks != []
      ensures Contents() == old(Contents())
      ensures old(blocks) == [] ==> |blocks| == 1 && !NeedsBlock()
      ensures old(blocks) != [] ==> blocks == old(blocks) && pool.free == old(pool.free)
      ensures forall b | b in pool.all :: b.owner == old(b.owner) || (b.owner == this && old(b.owner) == null)
    {
      if blocks == [] {
        AddBlock(pool);
      }
    }

    /** Appends to the last block, of which there is one afterwards, or reports that it is full. */
    method AppendToLast(pool: Pool<T>, x: T) returns (isSucc: bool)
      requires Valid(pool)
      requires blocks == [] ==> pool.free != []
      modifies this`blocks, pool, pool.all, set b | b in pool.all :: b.entries
      ensures Chained(pool) && OthersUntouched(pool)
      ensures isSucc <==> old(blocks == [] || !NeedsBlock())
      ensures isSucc ==> Valid(pool) && |blocks| == if old(blocks) == [] then 1 else old(|blocks|)
      ensures Contents() == if isSucc then old(Contents()) + [x] else old(Contents())
      ensures !isSucc ==> NeedsBlock() && blocks == old(blocks) && pool.free == old(pool.free)
      ensures !isSucc ==> forall b | b in pool.all :: b.owner == old(b.owner)
    {
      StartBlock(pool);
      assert OthersUntouched(pool);
      isSucc := AppendToTail(pool, blocks[|blocks| - 1], x);
    }

    /** Appends one entry, on a new block if there is no block yet or the last one is full. */
    method PushBack(pool: Pool<T>, x: T)
      requires Valid(pool)
      requires NeedsBlock() ==> pool.free != []
      modifies this, pool, pool.all, set b | b in pool.all :: b.entries
      ensures Valid(pool)
      ensures Contents() == old(Contents()) + [x]
      ensures |blocks| == old(|blocks|) + if old(NeedsBlock()) then 1 else 0
      ensures OthersUntouched(pool)
    {
      var isSucc := AppendToLast(pool, x);
      if !isSucc {
        AppendToNew(pool, x);
      }
    }

    /** The last block of the log has gone back to the pool, and nothing else has changed. */
    twostate predicate LastGone(pool: Pool<T>)
      reads this, pool, pool.all, set b | b in pool.all :: b.entries
    {
      && old(blocks) != [] && blocks == old(blocks[..|blocks| - 1])
      && pool.Valid()
      && (forall b | b in pool.all && b == old(blocks[|blocks| - 1]) :: b.owner == null)
      && (forall b | b in pool.all && b != old(blocks[|blocks| - 1]) ::
            b.owner == old(b.owner) && b.size == old(b.size) && b.entries[..] == old(b.entries[..]))
    }

    twostate lemma LastGoneContents(pool: Pool<T>)
      requires old(Chained(pool)) && LastGone(pool)
      ensures Contents() == old(Flatten(blocks[..|blocks| - 1]))
    {
      FlattenSame(blocks);
    }

    twostate lemma LastGoneChained(pool: Pool<T>)
      requires old(Chained(pool)) && LastGone(pool)
      ensures Chained(pool) && OthersUntouched(pool)
    {
      hide pool.Valid;
    }

    /** Gives the last block back to the pool. */
    method ClearLast(pool: Pool<T>)
      requires Chained(pool) && blocks != []
      modifies this, pool, pool.all`size, pool.all`owner
      ensures Chained(pool) && blocks == old(blocks[..|blocks| - 1])
      ensures Contents() == old(Flatten(blocks[..|blocks| - 1]))
      ensures pool.free == old(pool.free) + [old(blocks[|blocks| - 1])]
      ensures OthersUntouched(pool)
    {
      var tail := blocks[|blocks| - 1];
      tail.Clear();
      pool.Push(tail);
      blocks := blocks[..|blocks| - 1];
      LastGoneContents(pool);
      LastGoneChained(pool);
    }

    method Clear(pool: Pool<T>)
      requires Chained(pool)
      modifies this, pool, pool.all`size, pool.all`owner
      ensures Valid(pool) && blocks == [] && Contents() == []
      ensures |pool.free| == old(|pool.free|) + old(|blocks|)
      ensures OthersUntouched(pool)
    {
      while blocks != []
        invariant Chained(pool)
        invariant |pool.free| + |blocks| == old(|pool.free|) + old(|blocks|)
        invariant OthersUntouched(pool)
        decreases |blocks|
      {
        ClearLast(pool);
      }
    }

    /** What one log does leaves the others as they are. */
    twostate lemma SharedKept(system: System<T>)
      requires old(Shared(system)) && this in system.logs
      requires Valid(system.pool) && OthersUntouched(system.pool)
      requires forall other | other in system.logs && other != this :: other.blocks == old(other.blocks)
      ensures Shared(system)
      ensures forall other | other in system.logs && other != this :: other.Contents() == old(other.Contents())
    {
      var System(pool, logs) := system;
      forall other | other in logs && other != this
        ensures other.Valid(pool) && other.Contents() == old(other.Contents())
      {
        FlattenSame(other.blocks);
      }
      forall b | b in pool.all && b.owner != null
        ensures exists l | l in logs :: b.owner == l
      {
      }
    }
  }

  /** A pool and all the logs that draw on it. */
  datatype System<T(0)> = System(pool: Pool<T>, logs: set<Log<T>>)

  /** Every block that is not free belongs to one of the logs. */
  ghost predicate Shared<T(0)>(system: System<T>)
    reads system.pool, system.pool.all, system.logs
  {
    var System(pool, logs) := system;
    && pool.Valid() && pool.Separate()
    && (forall log | log in logs :: log.Valid(pool))
    && (forall b | b in pool.all && b.owner != null :: exists log | log in logs :: b.owner == log)
  }

  /** No block is lost, and none is in two places. */
  lemma BlocksConserved<T(0)>(pool: Pool<T>, logs: set<Log<T>>)
    requires Shared(System(pool, logs))
    ensures forall b | b in pool.free :: b.size == 0 && forall log | log in logs :: b !in log.blocks
    ensures forall b | b in pool.all :: b in pool.free || exists log | log in logs :: b in log.blocks
    ensures forall b :: b in pool.used <==> exists log | log in logs :: b in log.blocks
    ensures forall log, log' | log in logs && log' in logs && log != log' :: forall b | b in log.blocks :: b !in log'.blocks
    ensures forall log | log in logs :: NoDup(log.blocks)
    ensures NoDup(pool.free) && NoDup(pool.used)
  {
    forall b
      ensures b in pool.used <==> exists log | log in logs :: b in log.blocks
    {
      if b in pool.used {
        assert b in pool.all && b.owner != null;
      }
      if log :| log in logs && b in log.blocks {
        assert log.Valid(pool);
        assert b in pool.all && b.owner == log;
      }
    }
  }

  /** A new pool and new logs that draw on it. */
  method Create<T(0)>(capacity: nat, numBlocks: nat, numLogs: nat) returns (pool: Pool<T>, logs: seq<Log<T>>)
    requires 0 < capacity
    ensures Shared(System(pool, set log | log in logs))
    ensures |logs| == numLogs && forall i, j | 0 <= i < j < |logs| :: logs[i] != logs[j]
    ensures forall log | log in logs :: log.Contents() == []
    ensures |pool.free| == numBlocks && pool.capacity == capacity
  {
    logs := [];
    for i := 0 to numLogs
      invariant |logs| == i && forall j, k | 0 <= j < k < |logs| :: logs[j] != logs[k]
      invariant forall log | log in logs :: log.blocks == []
    {
      var log := new Log<T>();
      logs := logs + [log];
    }
    pool := new Pool<T>(capacity, numBlocks);
  }

  datatype Request<T> = Append(log: nat, x: T) | Clear(log: nat)

  /** The contents of log `i` after some requests, from none. */
  function After<T>(requests: seq<Request<T>>, i: nat): seq<T> {
    if requests == [] then []
    else
      var last := requests[|requests| - 1];
      var before := After(requests[..|requests| - 1], i);
      if last.log != i then before else if last.Append? then before + [last.x] else []
  }

  /**
   * Appends for one of the logs of a pool. Running out of blocks is an assertion failure of the library, which
   * happens exactly when a block is needed and there is none.
   */
  method PushShared<T(0)>(pool: Pool<T>, ghost logs: set<Log<T>>, log: Log<T>, x: T) returns (ok: bool)
    requires Shared(System(pool, logs)) && log in logs
    modifies log, pool, pool.all, set b | b in pool.all :: b.entries
    ensures Shared(System(pool, logs))
    ensures ok <==> !old(log.NeedsBlock() && pool.free == [])
    ensures log.Contents() == if ok then old(log.Contents()) + [x] else old(log.Contents())
    ensures !ok ==> pool.free == []
    ensures forall other | other in logs && other != log :: other.Contents() == old(other.Contents())
  {
    if log.NeedsBlock() && pool.free == [] {
      return false;
    }
    log.PushBack(pool, x);
    log.SharedKept(System(pool, logs));
    ok := true;
  }

  method ClearShared<T(0)>(pool: Pool<T>, ghost logs: set<Log<T>>, log: Log<T>)
    requires Shared(System(pool, logs)) && log in logs
    modifies log, pool, pool.all`size, pool.all`owner
    ensures Shared(System(pool, logs))
    ensures log.blocks == [] && log.Contents() == []
    ensures |pool.free| == old(|pool.free|) + old(|log.blocks|)
    ensures forall other | other in logs && other != log :: other.Contents() == old(other.Contents())
  {
    log.Clear(pool);
    log.SharedKept(System(pool, logs));
  }

  method ServeOne<T(0)>(pool: Pool<T>, ghost logs: set<Log<T>>, log: Log<T>, request: Request<T>) returns (ok: bool)
    requires Shared(System(pool, logs)) && log in logs
    modifies log, pool, pool.all, set b | b in pool.all :: b.entries
    ensures Shared(System(pool, logs))
    ensures !ok ==> request.Append? && pool.free == [] && log.Contents() == old(log.Contents())
    ensures ok ==> log.Contents() == if request.Append? then old(log.Contents()) + [request.x] else []
    ensures forall other | other in logs && other != log :: other.Contents() == old(other.Contents())
  {
    match request
    case Append(_, x) =>
      ok := PushShared(pool, logs, log, x);
    case Clear(_) =>
      ClearShared(pool, logs, log);
      ok := true;
  }

  /** Any sequence of appends and clears on any logs of one pool, until the pool runs out of blocks. */
  method Serve<T(0)>(pool: Pool<T>, logs: seq<Log<T>>, requests: seq<Request<T>>) returns (served: nat)
    requires Shared(System(pool, set log | log in logs))
    requires forall i, j | 0 <= i < j < |logs| :: logs[i] != logs[j]
    requires forall log | log in logs :: log.Contents() == []
    requires forall request | request in requests :: request.log < |logs|
    modifies logs, pool, pool.all, set b | b in pool.all :: b.entries
    ensures Shared(System(pool, set log | log in logs))
    ensures served <= |requests|
    ensures served < |requests| ==> pool.free == [] && requests[served].Append?
    ensures forall i | 0 <= i < |logs| :: logs[i].Contents() == After(requests[..served], i)
  {
    ghost var system := System(pool, set log | log in logs);
    served := 0;
    while served < |requests|
      invariant served <= |requests|
      invariant Shared(system)
      invariant forall i | 0 <= i < |logs| :: logs[i].Contents() == After(requests[..served], i)
    {
      hide Shared;
      var request := requests[served];
      assert request in requests;
      var log := logs[request.log];
      assert requests[..served + 1][..served] == requests[..served];
      var ok := ServeOne(pool, system.logs, log, request);
      if !ok {
        return;
      }
      forall i | 0 <= i < |logs|
        ensures logs[i].Contents() == After(requests[..served + 1], i)
      {
        assert logs[i] in system.logs;
        if i != request.log {
          assert logs[i] != log;
        }
      }
      served := served + 1;
    }
    assert requests[..served] == requests;
  }
}

/** Replaying the redo logs, block by block, into the NVM heap, and emptying them. */
module HeapUpdate {
  import opened Redo
  import opened ChunkedLog

  /** Entries name lines of the heap. */
  ghost predicate Within(log: seq<Entry>, size: nat) {
    forall x | x in log :: x.line < size
  }

  method ReplayBlock(block: Block<Entry>, nvm: array<Value>)
    requires block.size <= block.entries.Length && Within(block.Content(), nvm.Length)
    modifies nvm
    ensures nvm[..] == Apply(old(nvm[..]), block.Content())
  {
    ghost var start, content := nvm[..], block.Content();
    for i := 0 to block.size
      invariant nvm[..] == Apply(start, content[..i])
    {
      var entry := block.entries[i];
      assert entry == content[i] && content[..i + 1][..i] == content[..i];
      nvm[entry.line] := entry.val;
    }
    assert content[..block.size] == content;
  }

  ghost predicate BlocksHold(blocks: seq<Block<Entry>>, contents: seq<seq<Entry>>, size: nat)
    reads blocks, set b | b in blocks :: b.entries
  {
    && |contents| == |blocks|
    && forall b | 0 <= b < |blocks| ::
         && blocks[b].size <= blocks[b].entries.Length
         && contents[b] == blocks[b].Content()
         && Within(contents[b], size)
  }

  method ReplayBlocks(blocks: seq<Block<Entry>>, ghost contents: seq<seq<Entry>>, nvm: array<Value>)
    requires BlocksHold(blocks, contents, nvm.Length)
    modifies nvm
    ensures nvm[..] == ApplyAll(old(nvm[..]), contents)
  {
    ghost var start := nvm[..];
    for b := 0 to |blocks|
      invariant nvm[..] == ApplyAll(start, contents[..b])
    {
      assert contents[..b + 1][..b] == contents[..b];
      ReplayBlock(blocks[b], nvm);
    }
    assert contents[..|blocks|] == contents;
  }

  /** The contents of each block. */
  ghost function BlockContents(blocks: seq<Block<Entry>>): (contents: seq<seq<Entry>>)
    requires forall b | b in blocks :: b.size <= b.entries.Length
    reads blocks, set b | b in blocks :: b.entries
    ensures |contents| == |blocks| && forall b | 0 <= b < |blocks| :: contents[b] == blocks[b].Content()
  {
    if blocks == [] then [] else BlockContents(blocks[..|blocks| - 1]) + [blocks[|blocks| - 1].Content()]
  }

  lemma {:induction false} ApplyBlocks(h: seq<Value>, blocks: seq<Block<Entry>>)
    requires forall b | b in blocks :: b.size <= b.entries.Length
    ensures Apply(h, Flatten(blocks)) == ApplyAll(h, BlockContents(blocks))
    ensures forall c, x | c in BlockContents(blocks) && x in c :: x in Flatten(blocks)
  {
    if blocks != [] {
      var n := |blocks| - 1;
      ApplyBlocks(h, blocks[..n]);
      ApplyConcat(h, Flatten(blocks[..n]), blocks[n].Content());
      assert BlockContents(blocks)[..n] == BlockContents(blocks[..n]);
    }
  }

  lemma BlocksWithin(blocks: seq<Block<Entry>>, size: nat)
    requires forall b | b in blocks :: b.size <= b.entries.Length
    requires Within(Flatten(blocks), size)
    ensures BlocksHold(blocks, BlockContents(blocks), size)
  {
    ApplyBlocks([], blocks);
    var contents := BlockContents(blocks);
    forall b | 0 <= b < |blocks|
      ensures blocks[b].size <= blocks[b].entries.Length && contents[b] == blocks[b].Content() && Within(contents[b], size)
    {
      assert blocks[b] in blocks && contents[b] in contents;
      forall x: Entry | x in contents[b]
        ensures x.line < size
      {
        assert x in Flatten(blocks);
      }
    }
  }

  /** The nested loops over blocks and entries are one fold over the contents of the log. */
  method ReplayRedoLog(log: Log<Entry>, pool: Pool<Entry>, nvm: array<Value>)
    requires log.Valid(pool) && Within(log.Contents(), nvm.Length)
    modifies nvm
    ensures nvm[..] == old(Apply(nvm[..], log.Contents()))
  {
    ghost var contents := BlockContents(log.blocks);
    ApplyBlocks(nvm[..], log.blocks);
    BlocksWithin(log.blocks, nvm.Length);
    ReplayBlocks(log.blocks, contents, nvm);
  }

  /** The logs hold these entries. */
  ghost predicate LogsHold(logs: seq<Log<Entry>>, pool: Pool<Entry>, contents: seq<seq<Entry>>, size: nat)
    reads logs, pool, pool.all, set b | b in pool.all :: b.entries
  {
    && |contents| == |logs|
    && forall t | 0 <= t < |logs| ::
         logs[t].Valid(pool) && contents[t] == logs[t].Contents() && Within(contents[t], size)
  }

  method ReplayAll(logs: seq<Log<Entry>>, pool: Pool<Entry>, ghost contents: seq<seq<Entry>>, nvm: array<Value>)
    requires LogsHold(logs, pool, contents, nvm.Length)
    modifies nvm
    ensures nvm[..] == ApplyAll(old(nvm[..]), contents)
  {
    ghost var start := nvm[..];
    for t := 0 to |logs|
      invariant nvm[..] == ApplyAll(start, contents[..t])
      invariant LogsHold(logs, pool, contents, nvm.Length)
    {
      assert contents[..t + 1][..t] == contents[..t];
      ReplayRedoLog(logs[t], pool, nvm);
    }
    assert contents[..|logs|] == contents;
  }

  method ClearRedoLogs(logs: seq<Log<Entry>>, pool: Pool<Entry>, ghost all: set<Log<Entry>>)
    requires Shared(System(pool, all)) && forall log | log in logs :: log in all
    modifies logs, pool, pool.all`size, pool.all`owner
    ensures Shared(System(pool, all))
    ensures forall log | log in logs :: log.blocks == []
  {
    for t := 0 to |logs|
      invariant Shared(System(pool, all))
      invariant forall i | 0 <= i < t :: logs[i].blocks == []
    {
      ClearShared(pool, all, logs[t]);
    }
  }

  /** First the log of the checkpointing thread, then those of the users; the later entries win. */
  method NvmHeapUpdateUnit(master: Log<Entry>, users: seq<Log<Entry>>, pool: Pool<Entry>, ghost all: set<Log<Entry>>,
                           ghost contents: seq<seq<Entry>>, nvm: array<Value>)
    requires Shared(System(pool, all)) && forall log | log in [master] + users :: log in all
    requires LogsHold([master] + users, pool, contents, nvm.Length)
    modifies nvm, master, users, pool, pool.all`size, pool.all`owner
    ensures nvm[..] == ApplyAll(old(nvm[..]), contents)
    ensures Shared(System(pool, all))
    ensures forall log | log in [master] + users :: log.blocks == []
  {
    hide LogsHold, Shared, ApplyAll;
    ReplayAll([master] + users, pool, contents, nvm);
    ClearRedoLogs([master] + users, pool, all);
  }
}

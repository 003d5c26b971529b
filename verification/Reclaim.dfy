/**
 * Freed addresses and epochs. A free by an operation that began in Multi_Epoch_Existence is delayed and carried out
 * by the deallocator of the next checkpoint; any other free is carried out at once.
 */
module Reclaim {
  import opened EpochPhase
  import P = Protocol
  import E = Epochs

  /** Where an address is: free, in use, or in the delay list of a thread for a parity. */
  datatype Place = Available | InUse | Delayed(t: nat, p: bool)

  /** `dealloc` over the contexts, and the position in the list of the current one. */
  datatype Dealloc = NotRunning | At(c: nat, i: nat)

  /**
   * `free` is the allocator's set of free addresses and `lists` the delay lists. History: the latest epoch of the
   * operations that ever freed an address, where an address is, and how often users and the allocator freed it.
   */
  datatype Heap = Heap(
    ep: E.State, free: set<int>, lists: seq<P.Pair<seq<int>>>, dealloc: Dealloc,
    freedIn: map<int, nat>, place: map<int, Place>, requests: map<int, nat>, executed: map<int, nat>)

  datatype Action = Ep(a: E.Action) | Malloc(t: nat, addr: int) | Free(t: nat, addr: int) | DeallocStep

  function Epoch(h: Heap): nat {
    h.ep.global.num
  }

  function Num(h: Heap, t: nat): nat {
    if t < |h.ep.threads| then h.ep.threads[t].epoch.num else 0
  }

  function This(h: Heap): bool {
    E.Parity(Epoch(h))
  }

  function Prev(h: Heap): bool {
    E.Parity(Epoch(h) - 1)
  }

  function Times(m: map<int, nat>, addr: int): nat {
    if addr in m then m[addr] else 0
  }

  /** The latest epoch in which an address has been freed, with one more free in epoch `num`. */
  function Later(freedIn: map<int, nat>, addr: int, num: nat): nat {
    if addr in freedIn && freedIn[addr] > num then freedIn[addr] else num
  }

  predicate Enabled(h: Heap, a: Action) {
    match a
    case Ep(ea) =>
      && E.Enabled(h.ep, ea)
      && ea != E.Finalize
      && (ea == E.CheckpointerReleases ==> h.dealloc.At? && h.dealloc.c >= |h.lists|)
    case Malloc(t, addr) => E.InOperation(h.ep, t) && addr in h.free
    case Free(t, addr) => E.InOperation(h.ep, t) && t < |h.lists| && addr in h.place && h.place[addr] == InUse
    case DeallocStep => h.dealloc.At? && h.dealloc.c < |h.lists|
  }

  function AfterEpochStep(h: Heap, a: E.Action): Heap
    requires Enabled(h, Ep(a))
  {
    var h1 := h.(ep := E.Next(h.ep, a));
    match a
    case Register => h1.(lists := h.lists + [P.Pair([], [])])
    case StartLogging => h1.(dealloc := At(0, 0))
    case CheckpointerReleases => h1.(dealloc := NotRunning)
    case _ => h1
  }

  /** The internal free: the address is available again. */
  function Release(h: Heap, addr: int): Heap {
    h.(free := h.free + {addr}, place := h.place[addr := Available],
       executed := h.executed[addr := Times(h.executed, addr) + 1])
  }

  function AfterFree(h: Heap, t: nat, addr: int): Heap
    requires Enabled(h, Free(t, addr))
  {
    var h1 := h.(freedIn := h.freedIn[addr := Later(h.freedIn, addr, Num(h, t))],
                 requests := h.requests[addr := Times(h.requests, addr) + 1]);
    var p := E.Parity(Num(h, t));
    if h.ep.threads[t].epoch.phase == MultiEpochExistence then
      h1.(lists := h.lists[t := h.lists[t].With(p, h.lists[t].At(p) + [addr])], place := h.place[addr := Delayed(t, p)])
    else Release(h1, addr)
  }

  function AfterDealloc(h: Heap): Heap
    requires Enabled(h, DeallocStep)
  {
    var At(c, i) := h.dealloc;
    var list := h.lists[c].At(Prev(h));
    if i < |list| then Release(h, list[i]).(dealloc := At(c, i + 1))
    else h.(lists := h.lists[c := h.lists[c].With(Prev(h), [])], dealloc := At(c + 1, 0))
  }

  function Next(h: Heap, a: Action): Heap
    requires Enabled(h, a)
  {
    match a
    case Ep(ea) => AfterEpochStep(h, ea)
    case Malloc(t, addr) => h.(free := h.free - {addr}, place := h.place[addr := InUse])
    case Free(t, addr) => AfterFree(h, t, addr)
    case DeallocStep => AfterDealloc(h)
  }

  function Initial(first: E.Begin, addrs: set<int>): Heap {
    Heap(E.Start(first), addrs, [], NotRunning, map[], map addr | addr in addrs :: Available, map[], map[])
  }

  function List(h: Heap, t: nat, p: bool): seq<int> {
    if t < |h.lists| then h.lists[t].At(p) else []
  }

  /** How much of a list the deallocator has already freed. */
  function Done(h: Heap, t: nat, p: bool): nat {
    if h.dealloc.At? && h.dealloc.c == t && p == Prev(h) then h.dealloc.i else 0
  }

  /** `addr` waits at position `j` of a delay list. */
  predicate Pending(h: Heap, t: nat, p: bool, j: nat, addr: int) {
    Done(h, t, p) <= j < |List(h, t, p)| && List(h, t, p)[j] == addr
  }

  /** An address whose frees have all been carried out was freed in no epoch that an operation in progress is before. */
  ghost predicate SafeToReuse(h: Heap, addr: int) {
    addr in h.place && !h.place[addr].Delayed? && addr in h.freedIn ==>
      h.freedIn[addr] <= Epoch(h) && (h.freedIn[addr] == Epoch(h) ==> !h.ep.stage.Waiting?)
  }

  /** The entries of one delay list, in terms of epochs and of places. */
  ghost predicate ListInv(h: Heap, t: nat, p: bool) {
    && Done(h, t, p) <= |List(h, t, p)|
    && (forall j: nat | Done(h, t, p) <= j < |List(h, t, p)| :: EntryInv(h, t, p, List(h, t, p)[j]))
    && (forall i, j | Done(h, t, p) <= i < j < |List(h, t, p)| :: List(h, t, p)[i] != List(h, t, p)[j])
  }

  ghost predicate EntryInv(h: Heap, t: nat, p: bool, addr: int) {
    && addr in h.place && h.place[addr] == Delayed(t, p)
    && addr in h.freedIn
    && h.freedIn[addr] <= if p == This(h) then Epoch(h) else Epoch(h) - 1
  }

  ghost predicate PlaceInv(h: Heap, addr: int) {
    && (addr in h.free <==> addr in h.place && h.place[addr] == Available)
    && (addr in h.place && h.place[addr].Delayed? ==>
          exists j: nat :: Pending(h, h.place[addr].t, h.place[addr].p, j, addr))
    && Times(h.requests, addr) ==
       Times(h.executed, addr) + if addr in h.place && h.place[addr].Delayed? then 1 else 0
  }

  ghost predicate Inv(h: Heap) {
    && E.Inv(h.ep)
    && |h.lists| == |h.ep.threads|
    && (h.dealloc.At? <==> h.ep.stage.Logging? || h.ep.stage.Updating?)
    && (h.dealloc.At? ==> forall t: nat | t < h.dealloc.c :: List(h, t, Prev(h)) == [])
    && (h.dealloc.At? ==> h.dealloc.c <= |h.lists| && (h.dealloc.c == |h.lists| ==> h.dealloc.i == 0))
    && (h.ep.stage.Resting? ==> forall t: nat :: List(h, t, Prev(h)) == [])
    && (forall t: nat, p: bool :: ListInv(h, t, p))
    && (forall addr: int :: SafeToReuse(h, addr))
    && (forall addr: int :: PlaceInv(h, addr))
  }

  predicate SamePlace(h: Heap, h': Heap, addr: int) {
    && (addr in h'.place <==> addr in h.place)
    && (addr in h.place ==> h'.place[addr] == h.place[addr])
    && (addr in h'.free <==> addr in h.free)
    && Times(h'.requests, addr) == Times(h.requests, addr)
    && Times(h'.executed, addr) == Times(h.executed, addr)
    && (addr in h'.freedIn <==> addr in h.freedIn)
    && (addr in h.freedIn ==> h'.freedIn[addr] == h.freedIn[addr])
  }

  /** An address that a step leaves alone stays where it is. */
  lemma SamePlaceKeeps(h: Heap, h': Heap, addr: int)
    requires PlaceInv(h, addr) && SamePlace(h, h', addr)
    requires forall t: nat, p: bool, j: nat :: Pending(h, t, p, j, addr) ==> Pending(h', t, p, j, addr)
    ensures PlaceInv(h', addr)
  {
    if addr in h.place && h.place[addr].Delayed? {
      var t, p := h.place[addr].t, h.place[addr].p;
      var j: nat :| Pending(h, t, p, j, addr);
      assert Pending(h', t, p, j, addr);
    }
  }

  lemma SameList(h: Heap, h': Heap, t: nat, p: bool)
    requires ListInv(h, t, p) && List(h', t, p) == List(h, t, p) && Done(h', t, p) == Done(h, t, p) && h'.ep == h.ep
    requires forall j | Done(h, t, p) <= j < |List(h, t, p)| :: SamePlace(h, h', List(h, t, p)[j])
    ensures ListInv(h', t, p)
  {
    hide E.Parity;
    forall j: nat | Done(h, t, p) <= j < |List(h, t, p)|
      ensures EntryInv(h', t, p, List(h, t, p)[j])
    {
      assert EntryInv(h, t, p, List(h, t, p)[j]);
    }
  }

  /** An address that is not delayed is in no list. */
  lemma NotListed(h: Heap, t: nat, p: bool, addr: int)
    requires ListInv(h, t, p) && (addr in h.place ==> h.place[addr] != Delayed(t, p))
    ensures forall j: nat :: !Pending(h, t, p, j, addr)
  {
    forall j: nat
      ensures !Pending(h, t, p, j, addr)
    {
    }
  }

  /** Everything but one address `addr`, which is in no list before, stays as it is. */
  ghost predicate OneAddress(h: Heap, h': Heap, addr: int) {
    && h'.ep == h.ep && h'.lists == h.lists && h'.dealloc == h.dealloc
    && (forall b: int | b != addr :: SamePlace(h, h', b))
    && (addr in h.place ==> !h.place[addr].Delayed?)
  }

  lemma OneAddressKeeps(h: Heap, h': Heap, addr: int)
    requires Inv(h) && OneAddress(h, h', addr)
    requires PlaceInv(h', addr) && SafeToReuse(h', addr)
    ensures Inv(h')
  {
    hide E.Inv, E.Parity;
    assert Prev(h') == Prev(h);
    forall t: nat, p: bool
      ensures List(h', t, p) == List(h, t, p) && Done(h', t, p) == Done(h, t, p)
    {
    }
    forall t: nat, p: bool
      ensures ListInv(h', t, p)
    {
      assert ListInv(h, t, p);
      NotListed(h, t, p, addr);
      forall j: nat | Done(h, t, p) <= j < |List(h, t, p)|
        ensures SamePlace(h, h', List(h, t, p)[j])
      {
        assert !Pending(h, t, p, j, addr);
      }
      SameList(h, h', t, p);
    }
    forall b: int
      ensures PlaceInv(h', b) && SafeToReuse(h', b)
    {
      if b != addr {
        assert SamePlace(h, h', b) && PlaceInv(h, b) && SafeToReuse(h, b);
        SamePlaceKeeps(h, h', b);
      }
    }
  }

  lemma MallocKeeps(h: Heap, t: nat, addr: int)
    requires Inv(h) && Enabled(h, Malloc(t, addr))
    ensures Inv(Next(h, Malloc(t, addr)))
  {
    var h' := Next(h, Malloc(t, addr));
    assert PlaceInv(h, addr) && SafeToReuse(h, addr);
    assert OneAddress(h, h', addr) && PlaceInv(h', addr) && SafeToReuse(h', addr) by { hide Inv; }
    hide Inv;
    OneAddressKeeps(h, h', addr);
  }

  /** An operation that may free at once keeps no older operation company. */
  lemma FreeNowSafe(h: Heap, t: nat)
    requires E.Inv(h.ep) && E.InOperation(h.ep, t) && h.ep.threads[t].epoch.phase != MultiEpochExistence
    ensures Num(h, t) <= Epoch(h) && (Num(h, t) == Epoch(h) ==> !h.ep.stage.Waiting?)
  {
    assert E.ThreadInv(h.ep, t);
  }

  lemma FreeNowKeeps(h: Heap, t: nat, addr: int)
    requires Inv(h) && Enabled(h, Free(t, addr)) && h.ep.threads[t].epoch.phase != MultiEpochExistence
    ensures Inv(AfterFree(h, t, addr))
  {
    var h' := AfterFree(h, t, addr);
    assert PlaceInv(h, addr) && SafeToReuse(h, addr);
    FreeNowSafe(h, t);
    hide Inv, E.Inv;
    assert OneAddress(h, h', addr) && PlaceInv(h', addr) && SafeToReuse(h', addr);
    OneAddressKeeps(h, h', addr);
  }

  lemma DelayParity(h: Heap, t: nat)
    requires Inv(h) && E.InOperation(h.ep, t)
    ensures var p := E.Parity(Num(h, t));
      && Prev(h) != This(h)
      && (p == This(h) ==> Num(h, t) == Epoch(h))
      && (p != This(h) ==> p == Prev(h) && h.ep.stage.Waiting? && Num(h, t) == Epoch(h) - 1)
      && Done(h, t, p) == 0
  {
    assert E.ThreadInv(h.ep, t);
  }

  lemma FreeLaterLists(h: Heap, t: nat, addr: int, u: nat, q: bool)
    requires Inv(h) && Enabled(h, Free(t, addr)) && h.ep.threads[t].epoch.phase == MultiEpochExistence
    ensures ListInv(AfterFree(h, t, addr), u, q)
    ensures Done(AfterFree(h, t, addr), u, q) == Done(h, u, q)
    ensures List(h, u, q) <= List(AfterFree(h, t, addr), u, q)
    ensures q != E.Parity(Num(h, t)) ==> List(AfterFree(h, t, addr), u, q) == List(h, u, q)
  {
    var h' := AfterFree(h, t, addr);
    DelayParity(h, t);
    assert ListInv(h, u, q) && PlaceInv(h, addr) && SafeToReuse(h, addr);
    hide Inv, E.Inv, E.Parity;
    NotListed(h, u, q, addr);
    forall j: nat | Done(h, u, q) <= j < |List(h', u, q)|
      ensures EntryInv(h', u, q, List(h', u, q)[j])
    {
      if j < |List(h, u, q)| {
        assert !Pending(h, u, q, j, addr);
        assert EntryInv(h, u, q, List(h, u, q)[j]);
      }
    }
    forall j: nat | Done(h, u, q) <= j < |List(h, u, q)|
      ensures List(h, u, q)[j] != addr
    {
      assert !Pending(h, u, q, j, addr);
    }
  }

  lemma FreeLaterKeeps(h: Heap, t: nat, addr: int)
    requires Inv(h) && Enabled(h, Free(t, addr)) && h.ep.threads[t].epoch.phase == MultiEpochExistence
    ensures Inv(AfterFree(h, t, addr))
  {
    var h' := AfterFree(h, t, addr);
    var p := E.Parity(Num(h, t));
    DelayParity(h, t);
    assert h'.ep == h.ep && E.Inv(h'.ep) && Prev(h') == Prev(h);
    forall u: nat, q: bool
      ensures ListInv(h', u, q) && Done(h', u, q) == Done(h, u, q) && List(h, u, q) <= List(h', u, q)
      ensures q != p ==> List(h', u, q) == List(h, u, q)
    {
      FreeLaterLists(h, t, addr, u, q);
    }
    hide E.Inv, E.Parity, ListInv;
    forall b: int
      ensures PlaceInv(h', b) && SafeToReuse(h', b)
    {
      assert PlaceInv(h, b) && SafeToReuse(h, b);
      if b != addr {
        SamePlaceKeeps(h, h', b);
      } else {
        var list := List(h, t, p);
        assert List(h', t, p) == list + [addr] && Pending(h', t, p, |list|, addr);
      }
    }
  }

  lemma DeallocOneList(h: Heap, u: nat, q: bool)
    requires Inv(h) && Enabled(h, DeallocStep) && h.dealloc.i < |List(h, h.dealloc.c, Prev(h))|
    ensures ListInv(AfterDealloc(h), u, q)
  {
    var h' := AfterDealloc(h);
    var At(c, i) := h.dealloc;
    var addr := List(h, c, Prev(h))[i];
    assert ListInv(h, u, q) && ListInv(h, c, Prev(h));
    hide Inv, E.Inv, E.Parity;
    assert EntryInv(h, c, Prev(h), addr);
    forall j: nat | Done(h', u, q) <= j < |List(h', u, q)|
      ensures EntryInv(h', u, q, List(h', u, q)[j])
    {
      assert EntryInv(h, u, q, List(h, u, q)[j]);
    }
  }

  lemma DeallocOneKeeps(h: Heap)
    requires Inv(h) && Enabled(h, DeallocStep) && h.dealloc.i < |List(h, h.dealloc.c, Prev(h))|
    ensures Inv(AfterDealloc(h))
  {
    var h' := AfterDealloc(h);
    var At(c, i) := h.dealloc;
    var addr := List(h, c, Prev(h))[i];
    forall u: nat, q: bool
      ensures ListInv(h', u, q) && List(h', u, q) == List(h, u, q)
    {
      DeallocOneList(h, u, q);
    }
    assert ListInv(h, c, Prev(h)) && EntryInv(h, c, Prev(h), addr);
    assert E.Inv(h'.ep) && Prev(h') == Prev(h) && Prev(h) != This(h);
    hide E.Inv, E.Parity, ListInv;
    forall b: int
      ensures PlaceInv(h', b) && SafeToReuse(h', b)
    {
      assert PlaceInv(h, b) && SafeToReuse(h, b);
      if b != addr { SamePlaceKeeps(h, h', b); }
    }
  }

  lemma DeallocListKeeps(h: Heap)
    requires Inv(h) && Enabled(h, DeallocStep) && h.dealloc.i >= |List(h, h.dealloc.c, Prev(h))|
    ensures Inv(AfterDealloc(h))
  {
    var h' := AfterDealloc(h);
    var At(c, i) := h.dealloc;
    assert E.Inv(h'.ep) && Prev(h') == Prev(h);
    hide E.Inv, E.Parity;
    forall u: nat, q: bool
      ensures List(h', u, q) == (if u == c && q == Prev(h) then [] else List(h, u, q))
      ensures ListInv(h', u, q)
    {
      assert ListInv(h, u, q);
      forall j: nat | Done(h', u, q) <= j < |List(h', u, q)|
        ensures EntryInv(h', u, q, List(h', u, q)[j])
      {
        assert EntryInv(h, u, q, List(h, u, q)[j]);
      }
    }
    forall b: int
      ensures PlaceInv(h', b) && SafeToReuse(h', b)
    {
      assert PlaceInv(h, b) && SafeToReuse(h, b);
      SamePlaceKeeps(h, h', b);
    }
  }

  /** What an epoch step does to the lists: nothing, except that their roles swap when an epoch begins. */
  ghost predicate EpochFrame(h: Heap, h': Heap) {
    && h' == h.(ep := h'.ep, lists := h'.lists, dealloc := h'.dealloc)
    && (forall u: nat, q: bool :: List(h', u, q) == List(h, u, q))
    && (forall u: nat, q: bool :: Done(h', u, q) == Done(h, u, q))
    && (Epoch(h') == Epoch(h) || (Epoch(h') == Epoch(h) + 1 && h.ep.stage.Resting?))
    && (Epoch(h') == Epoch(h) && h'.ep.stage.Waiting? ==> h.ep.stage.Waiting?)
  }

  lemma EpochFrameKeeps(h: Heap, h': Heap)
    requires Inv(h) && EpochFrame(h, h')
    ensures forall t: nat, p: bool :: ListInv(h', t, p)
    ensures forall addr: int :: PlaceInv(h', addr) && SafeToReuse(h', addr)
  {
    assert Epoch(h') == Epoch(h) + 1 ==> This(h') == Prev(h) && Prev(h') == This(h);
    assert Epoch(h') == Epoch(h) ==> This(h') == This(h);
    assert Epoch(h') != Epoch(h) ==> forall u: nat :: List(h, u, Prev(h)) == [];
    hide E.Inv, E.Parity;
    forall u: nat, q: bool
      ensures ListInv(h', u, q)
    {
      assert ListInv(h, u, q) && List(h', u, q) == List(h, u, q) && Done(h', u, q) == Done(h, u, q);
      forall j: nat | Done(h', u, q) <= j < |List(h', u, q)|
        ensures EntryInv(h', u, q, List(h', u, q)[j])
      {
        assert EntryInv(h, u, q, List(h, u, q)[j]);
      }
    }
    forall b: int
      ensures PlaceInv(h', b) && SafeToReuse(h', b)
    {
      assert PlaceInv(h, b) && SafeToReuse(h, b);
      SamePlaceKeeps(h, h', b);
    }
  }

  lemma EpochKeeps(h: Heap, a: E.Action)
    requires Inv(h) && Enabled(h, Ep(a))
    ensures Inv(AfterEpochStep(h, a))
  {
    var h' := AfterEpochStep(h, a);
    E.InvStep(h.ep, a);
    assert a == E.Advance ==> This(h') == Prev(h) && Prev(h') == This(h) && forall u: nat :: List(h, u, Prev(h)) == [];
    assert EpochFrame(h, h') by { hide E.Inv, E.Parity; }
    EpochFrameKeeps(h, h');
    assert h'.ep.stage.Waiting? || Prev(h') == Prev(h);
    assert E.Inv(h'.ep) && |h'.lists| == |h'.ep.threads|;
    hide E.Inv, E.Parity, ListInv, PlaceInv, SafeToReuse;
    forall u: nat
      ensures !h'.ep.stage.Waiting? ==> List(h', u, Prev(h')) == List(h, u, Prev(h))
    {
    }
  }

  lemma StepKeepsInv(h: Heap, a: Action)
    requires Inv(h) && Enabled(h, a)
    ensures Inv(Next(h, a))
  {
    hide Inv;
    match a
    case Ep(ea) => EpochKeeps(h, ea);
    case Malloc(t, addr) => MallocKeeps(h, t, addr);
    case Free(t, addr) =>
      if h.ep.threads[t].epoch.phase == MultiEpochExistence { FreeLaterKeeps(h, t, addr); } else { FreeNowKeeps(h, t, addr); }
    case DeallocStep =>
      if h.dealloc.i < |List(h, h.dealloc.c, Prev(h))| { DeallocOneKeeps(h); } else { DeallocListKeeps(h); }
  }

  ghost predicate Run(h: Heap, acts: seq<Action>, h': Heap)
    decreases |acts|
  {
    if acts == [] then h == h' else Enabled(h, acts[0]) && Run(Next(h, acts[0]), acts[1..], h')
  }

  lemma {:induction false} RunKeepsInv(h: Heap, acts: seq<Action>, h': Heap)
    requires Inv(h) && Run(h, acts, h')
    ensures Inv(h')
    decreases |acts|
  {
    hide Inv;
    if acts != [] {
      StepKeepsInv(h, acts[0]);
      RunKeepsInv(Next(h, acts[0]), acts[1..], h');
    }
  }

  lemma InitialInv(first: E.Begin, addrs: set<int>)
    ensures Inv(Initial(first, addrs))
  {
  }

  /**
   * Which frees wait. One by an operation that began outside Multi_Epoch_Existence is carried out at once: the address
   * can be handed out again, and no list changes. One by an operation that began in it changes nothing in the allocator
   * and puts the address at the end of just one list, the thread's own of its epoch's parity.
   */
  lemma WhichFreesWait(h: Heap, t: nat, addr: int)
    requires Enabled(h, Free(t, addr))
    ensures
      var h', p := Next(h, Free(t, addr)), E.Parity(h.ep.threads[t].epoch.num);
      if h.ep.threads[t].epoch.phase == MultiEpochExistence then
        && h'.free == h.free && h'.executed == h.executed
        && List(h', t, p) == List(h, t, p) + [addr]
        && (forall u: nat, q: bool | u != t || q != p :: List(h', u, q) == List(h, u, q))
      else
        && h'.free == h.free + {addr} && h'.lists == h.lists
        && Enabled(h', Malloc(t, addr)) && Times(h'.executed, addr) == Times(h.executed, addr) + 1
  {
    hide E.Parity;
  }

  lemma LatestFree(h: Heap, t: nat, addr: int)
    requires Inv(h) && Enabled(h, Malloc(t, addr)) && addr in h.freedIn
    ensures h.freedIn[addr] <= Num(h, t)
  {
    assert PlaceInv(h, addr) && SafeToReuse(h, addr);
    assert E.ThreadInv(h.ep, t);
  }

  lemma FreedInGrows(h: Heap, a: Action, addr: int)
    requires Enabled(h, a) && addr in h.freedIn
    ensures addr in Next(h, a).freedIn && h.freedIn[addr] <= Next(h, a).freedIn[addr]
  {
    hide E.Next, E.Enabled;
  }

  lemma {:induction false} RunFreedInGrows(h: Heap, acts: seq<Action>, h': Heap, addr: int)
    requires Run(h, acts, h') && addr in h.freedIn
    ensures addr in h'.freedIn && h.freedIn[addr] <= h'.freedIn[addr]
    decreases |acts|
  {
    hide Enabled, Next;
    if acts != [] {
      FreedInGrows(h, acts[0], addr);
      RunFreedInGrows(Next(h, acts[0]), acts[1..], h', addr);
    }
  }

  /**
   * An address that an operation has freed is never handed to an operation of an earlier epoch, now or later, and
   * however often it is reused and freed again in between.
   */
  lemma MallocSafe(first: E.Begin, addrs: set<int>, before: seq<Action>, h: Heap, u: nat, between: seq<Action>, h': Heap,
                   t: nat, addr: int)
    requires Run(Initial(first, addrs), before, h) && Enabled(h, Free(u, addr))
    requires Run(Next(h, Free(u, addr)), between, h') && Enabled(h', Malloc(t, addr))
    ensures Num(h, u) <= Num(h', t)
  {
    var freed := Next(h, Free(u, addr));
    assert addr in freed.freedIn && Num(h, u) <= freed.freedIn[addr];
    InitialInv(first, addrs);
    hide *;
    RunKeepsInv(Initial(first, addrs), before, h);
    StepKeepsInv(h, Free(u, addr));
    RunKeepsInv(freed, between, h');
    RunFreedInGrows(freed, between, h', addr);
    LatestFree(h', t, addr);
  }

  /**
   * Every free of an address has been carried out exactly once, or waits at exactly one place of exactly one delay
   * list; and an address that waits is not free in the allocator, so that no free is carried out twice.
   */
  lemma FreedExactlyOnce(first: E.Begin, addrs: set<int>, acts: seq<Action>, h: Heap, addr: int)
    requires Run(Initial(first, addrs), acts, h)
    ensures Times(h.requests, addr) == Times(h.executed, addr) ||
            (Times(h.requests, addr) == Times(h.executed, addr) + 1 && addr !in h.free)
    ensures Times(h.requests, addr) != Times(h.executed, addr) <==> exists t: nat, p: bool, j: nat :: Pending(h, t, p, j, addr)
    ensures forall t: nat, p: bool, j: nat, t': nat, p': bool, j': nat ::
              Pending(h, t, p, j, addr) && Pending(h, t', p', j', addr) ==> t == t' && p == p' && j == j'
  {
    InitialInv(first, addrs);
    RunKeepsInv(Initial(first, addrs), acts, h);
    assert PlaceInv(h, addr);
    forall t: nat, p: bool, j: nat | Pending(h, t, p, j, addr)
      ensures addr in h.place && h.place[addr] == Delayed(t, p)
    {
      assert ListInv(h, t, p) && EntryInv(h, t, p, List(h, t, p)[j]);
    }
    forall t: nat, p: bool, j: nat, j': nat | Pending(h, t, p, j, addr) && Pending(h, t, p, j', addr)
      ensures j == j'
    {
      assert ListInv(h, t, p);
    }
  }

  /** Between checkpoints nothing that was delayed in the previous epoch is still waiting. */
  lemma DelaysEndWithCheckpoint(first: E.Begin, addrs: set<int>, acts: seq<Action>, h: Heap, t: nat)
    requires Run(Initial(first, addrs), acts, h) && h.ep.stage.Resting?
    ensures List(h, t, Prev(h)) == []
  {
    InitialInv(first, addrs);
    RunKeepsInv(Initial(first, addrs), acts, h);
  }

  /** While the deallocator runs, users add to no list that it reads. */
  lemma ListsApart(first: E.Begin, addrs: set<int>, acts: seq<Action>, h: Heap, t: nat, addr: int)
    requires Run(Initial(first, addrs), acts, h) && Enabled(h, Free(t, addr)) && h.dealloc.At?
    ensures forall u: nat :: List(AfterFree(h, t, addr), u, Prev(h)) == List(h, u, Prev(h))
  {
    InitialInv(first, addrs);
    RunKeepsInv(Initial(first, addrs), acts, h);
    DelayParity(h, t);
    hide Inv, E.Parity;
  }
}

/**
 * The epoch protocol between the user threads and the checkpointing thread, without the heap: which epoch an
 * operation runs in, when the checkpointing thread may believe that the previous epoch is over, and who may
 * change the array of registered contexts.
 */
module Epochs {
  import opened EpochPhase

  /** A global or stored epoch word; `EpochWord.SameWord` says that comparing packed words is comparing these. */
  datatype Word = Word(num: nat, phase: Phase)

  /** `_epoch == 0`: the thread is not in an operation. */
  const OUTSIDE := Word(0, NvmHeapUpdate)

  /** A word that the library can start with: in its first execution `FIRST`, after recovery the one that survived. */
  type Begin = w: Word | 2 <= w.num witness Word(2, NvmHeapUpdate)

  const FIRST: Begin := Word(2, NvmHeapUpdate)

  /** Where a user thread is in `begin_op`: load the global word, store it, load the global word again. */
  datatype Pc = Idle | Retry | Loaded(seen: Word) | Stored | InOp
  datatype Thread = Thread(epoch: Word, pc: Pc)

  datatype Right = Nobody | Checkpointer | Registrar
  datatype Stage = Resting | Waiting(next: nat) | Logging | Updating

  /** `threads` is the array of registered contexts. */
  datatype State = State(global: Word, threads: seq<Thread>, stage: Stage, right: Right)

  datatype Action =
    | Load(t: nat) | Store(t: nat) | Check(t: nat) | End(t: nat)
    | RegistrarTakes | Register | RegistrarReleases
    | CheckpointerTakes | Advance | PassContext | StartLogging | StartUpdating | CheckpointerReleases
    | Finalize

  /** No thread is registered. */
  function Start(first: Begin): State {
    State(first, [], Resting, Nobody)
  }

  predicate Enabled(s: State, a: Action) {
    match a
    case Load(t) => t < |s.threads| && (s.threads[t].pc == Idle || s.threads[t].pc == Retry)
    case Store(t) => t < |s.threads| && s.threads[t].pc.Loaded?
    case Check(t) => t < |s.threads| && s.threads[t].pc == Stored
    case End(t) => t < |s.threads| && s.threads[t].pc == InOp
    case RegistrarTakes => s.right == Nobody
    case Register => s.right == Registrar
    case RegistrarReleases => s.right == Registrar
    case CheckpointerTakes => s.stage == Resting && s.right == Nobody
    case Advance => s.stage == Resting && s.right == Checkpointer
    case PassContext =>
      && s.stage.Waiting?
      && s.stage.next < |s.threads|
      && s.threads[s.stage.next].epoch.num != s.global.num - 1
    case StartLogging => s.stage.Waiting? && s.stage.next >= |s.threads|
    case StartUpdating => s.stage == Logging
    case CheckpointerReleases => s.stage == Updating
    // finalize() is called once the users have stopped; it neither waits nor takes the execute right
    case Finalize =>
      && s.stage == Resting
      && s.right == Nobody
      && forall t | 0 <= t < |s.threads| :: s.threads[t].pc == Idle
  }

  function SetThread(s: State, t: nat, th: Thread): State
    requires t < |s.threads|
  {
    s.(threads := s.threads[t := th])
  }

  function Next(s: State, a: Action): State
    requires Enabled(s, a)
  {
    match a
    case Load(t) => SetThread(s, t, s.threads[t].(pc := Loaded(s.global)))
    case Store(t) => SetThread(s, t, Thread(s.threads[t].pc.seen, Stored))
    case Check(t) => SetThread(s, t, s.threads[t].(pc := if s.threads[t].epoch == s.global then InOp else Retry))
    case End(t) => SetThread(s, t, Thread(OUTSIDE, Idle))
    case RegistrarTakes => s.(right := Registrar)
    case Register => s.(threads := s.threads + [Thread(OUTSIDE, Idle)])
    case RegistrarReleases => s.(right := Nobody)
    case CheckpointerTakes => s.(right := Checkpointer)
    case Advance => s.(global := Word(s.global.num + 1, MultiEpochExistence), stage := Waiting(0))
    case PassContext => s.(stage := Waiting(s.stage.next + 1))
    case StartLogging => s.(global := s.global.(phase := LogPersistence), stage := Logging)
    case StartUpdating => s.(global := s.global.(phase := NvmHeapUpdate), stage := Updating)
    case CheckpointerReleases => s.(stage := Resting, right := Nobody)
    case Finalize =>
      s.(global := Word(s.global.num + 1, LogPersistence), stage := Logging, right := Checkpointer)
  }

  predicate InOperation(s: State, t: nat) {
    t < |s.threads| && s.threads[t].pc == InOp
  }

  /** Phases in the order in which one epoch goes through them. */
  function Rank(p: Phase): nat {
    match p
    case MultiEpochExistence => 0
    case LogPersistence => 1
    case NvmHeapUpdate => 2
  }

  predicate NotLater(a: Word, b: Word) {
    a.num < b.num || (a.num == b.num && Rank(a.phase) <= Rank(b.phase))
  }

  ghost predicate ThreadInv(s: State, t: nat)
    requires t < |s.threads|
  {
    var th := s.threads[t];
    && (th.pc == Idle ==> th.epoch == OUTSIDE)
    && (th.pc == InOp ==>
          && NotLater(th.epoch, s.global)
          && s.global.num - 1 <= th.epoch.num
          && (th.epoch.num == s.global.num - 1 ==> s.stage.Waiting? && s.stage.next <= t))
  }

  ghost predicate Inv(s: State) {
    && 2 <= s.global.num
    && (s.stage.Waiting? ==> s.global.phase == MultiEpochExistence)
    && (s.stage.Logging? ==> s.global.phase == LogPersistence)
    && (s.stage.Updating? ==> s.global.phase == NvmHeapUpdate)
    && (s.stage != Resting ==> s.right == Checkpointer)
    && forall t | 0 <= t < |s.threads| :: ThreadInv(s, t)
  }

  lemma InvStep(s: State, a: Action)
    requires Inv(s) && Enabled(s, a)
    ensures Inv(Next(s, a))
  {
    var s' := Next(s, a);
    forall t | 0 <= t < |s'.threads|
      ensures ThreadInv(s', t)
    {
      if t < |s.threads| {
        assert ThreadInv(s, t);
      }
    }
  }

  /** `acts` can be carried out one after the other from `s`, and ends in `s'`. */
  ghost predicate Run(s: State, acts: seq<Action>, s': State)
    decreases |acts|
  {
    if acts == [] then s == s'
    else Enabled(s, acts[0]) && Run(Next(s, acts[0]), acts[1..], s')
  }

  lemma {:induction false} RunKeepsInv(s: State, acts: seq<Action>, s': State)
    requires Inv(s) && Run(s, acts, s')
    ensures Inv(s')
    ensures s.global.num <= s'.global.num
    ensures s.global.num == s'.global.num && !s.stage.Waiting? ==> !s'.stage.Waiting?
    decreases |acts|
  {
    if acts != [] {
      InvStep(s, acts[0]);
      RunKeepsInv(Next(s, acts[0]), acts[1..], s');
    }
  }

  /**
   * In every reachable state the operations in progress belong to the current epoch or the one before, and
   * outside Multi_Epoch_Existence only to the current one.
   */
  lemma OperationEpochs(first: Begin, acts: seq<Action>, s: State, t: nat)
    requires Run(Start(first), acts, s) && InOperation(s, t)
    ensures s.threads[t].epoch.num == s.global.num || s.threads[t].epoch.num == s.global.num - 1
    ensures s.global.phase != MultiEpochExistence ==> s.threads[t].epoch.num == s.global.num
    ensures s.threads[t].epoch != OUTSIDE
  {
    RunKeepsInv(Start(first), acts, s);
    assert ThreadInv(s, t);
  }

  /**
   * Quiescence: once the checkpointing thread has waited for every context, no thread is in an operation of
   * an earlier epoch, and whatever happens afterwards none ever is again, not even a thread that had loaded
   * or stored the old global word before.
   */
  lemma Quiescence(first: Begin, before: seq<Action>, waited: State, after: seq<Action>, later: State, t: nat)
    requires Run(Start(first), before, waited) && waited.global.phase != MultiEpochExistence
    requires Run(waited, after, later) && InOperation(later, t)
    ensures waited.global.num <= later.threads[t].epoch.num
  {
    RunKeepsInv(Start(first), before, waited);
    RunKeepsInv(waited, after, later);
    assert ThreadInv(later, t);
  }

  /**
   * The execute right: as long as the main loop is inside a checkpoint nobody else can change the array of
   * contexts, so every thread that can be in an operation has its context in the array being waited on.
   */
  lemma ContextsFixedDuringCheckpoint(first: Begin, before: seq<Action>, s: State, a: Action)
    requires Run(Start(first), before, s) && s.stage != Resting && Enabled(s, a)
    ensures |Next(s, a).threads| == |s.threads|
    ensures s.right == Checkpointer
  {
    RunKeepsInv(Start(first), before, s);
  }

  /** A step of begin_op or end_op of thread `t`. */
  predicate IsStepOf(a: Action, t: nat) {
    a in {Load(t), Store(t), Check(t), End(t)}
  }

  /** What others do, however long it takes, changes nothing of a thread. */
  lemma {:induction false} OthersLeaveThread(s: State, acts: seq<Action>, s': State, t: nat)
    requires Run(s, acts, s') && t < |s.threads| && forall a | a in acts :: !IsStepOf(a, t)
    ensures t < |s'.threads| && s'.threads[t] == s.threads[t]
    decreases |acts|
  {
    if acts != [] {
      assert !IsStepOf(acts[0], t);
      OthersLeaveThread(Next(s, acts[0]), acts[1..], s', t);
    }
  }

  /**
   * The late store: a thread that has read the global word stores that very word, whatever has become of the global
   * word by then; and its re-check lets it into its operation exactly if the word is still, or again, the global one.
   */
  lemma LateStore(s: State, t: nat, between: seq<Action>, s1: State, after: seq<Action>, s2: State)
    requires Enabled(s, Load(t))
    requires Run(Next(s, Load(t)), between, s1) && forall a | a in between :: !IsStepOf(a, t)
    requires Enabled(s1, Store(t)) ==> Run(Next(s1, Store(t)), after, s2)
    requires forall a | a in after :: !IsStepOf(a, t)
    ensures Enabled(s1, Store(t)) && Next(s1, Store(t)).threads[t] == Thread(s.global, Stored)
    ensures Enabled(s2, Check(t))
    ensures Next(s2, Check(t)).threads[t] == Thread(s.global, if s2.global == s.global then InOp else Retry)
    ensures Enabled(Next(s2, Check(t)), if s2.global == s.global then End(t) else Load(t))
  {
    OthersLeaveThread(Next(s, Load(t)), between, s1, t);
    OthersLeaveThread(Next(s1, Store(t)), after, s2, t);
  }

  /** The wait passes a context exactly if what it has stored is not of the previous epoch, in an operation or not. */
  lemma WaitsForPrevious(first: Begin, acts: seq<Action>, s: State, t: nat)
    requires Run(Start(first), acts, s) && s.stage == Waiting(t) && t < |s.threads|
    ensures Enabled(s, PassContext) <==> s.threads[t].epoch.num + 1 != s.global.num
    ensures s.threads[t].pc == Idle ==> Enabled(s, PassContext)
    ensures InOperation(s, t) ==> (Enabled(s, PassContext) <==> s.threads[t].epoch.num == s.global.num)
  {
    RunKeepsInv(Start(first), acts, s);
    assert ThreadInv(s, t);
  }

  function Parity(num: int): bool {
    num % 2 == 1
  }

  /**
   * Parity separation: after the wait, whatever a user keeps per parity and addresses by its own epoch (address
   * lists, allocator logs, delay lists, byte maps) is not what the checkpointing thread addresses as `prev`.
   */
  lemma ParitySeparation(first: Begin, before: seq<Action>, s: State, t: nat)
    requires Run(Start(first), before, s) && s.global.phase != MultiEpochExistence && InOperation(s, t)
    ensures Parity(s.threads[t].epoch.num) != Parity(s.global.num - 1)
  {
    OperationEpochs(first, before, s, t);
  }
}

module EpochPhase {
  datatype Phase = MultiEpochExistence | LogPersistence | NvmHeapUpdate
}

/** The packed 64-bit epoch word: the two high bits hold the phase, the other 62 the epoch number. */
module EpochWord {
  import opened EpochPhase

  const EPOCH_MASK: bv64 := 0x3fffffffffffffff
  const MASK_MULTIPLE_EPOCH_EXISTENCE: bv64 := 0x8000000000000000
  const MASK_LOG_PERSISTENCE: bv64 := 0x4000000000000000
  const MASK_NVM_HEAP_UPDATE: bv64 := 0

  /** The result of `get_phase`; the process exits on the fourth combination of phase bits. */
  datatype PhaseResult = Is(phase: Phase) | NotReachable

  function Number(word: bv64): bv64 {
    word & EPOCH_MASK
  }

  function PhaseMask(phase: Phase): bv64 {
    match phase
    case MultiEpochExistence => MASK_MULTIPLE_EPOCH_EXISTENCE
    case LogPersistence => MASK_LOG_PERSISTENCE
    case NvmHeapUpdate => MASK_NVM_HEAP_UPDATE
  }

  function SetPhase(word: bv64, phase: Phase): bv64 {
    Number(word) | PhaseMask(phase)
  }

  function GetPhase(word: bv64): PhaseResult {
    var maskPhase := (word & EPOCH_MASK) ^ word;
    if maskPhase == MASK_MULTIPLE_EPOCH_EXISTENCE then Is(MultiEpochExistence)
    else if maskPhase == MASK_LOG_PERSISTENCE then Is(LogPersistence)
    else if maskPhase == MASK_NVM_HEAP_UPDATE then Is(NvmHeapUpdate)
    else NotReachable
  }

  lemma HighBits(word: bv64)
    ensures (word & 0x3fffffffffffffff) ^ word == word & 0xc000000000000000
  {
  }

  lemma FourHighBits(word: bv64)
    ensures word & 0xc000000000000000 in {0, 0x4000000000000000, 0x8000000000000000, 0xc000000000000000}
  {
  }

  /** Which of the two high bits say which phase, in words that survive in NVM; both together are no phase. */
  lemma PhaseBits(word: bv64)
    ensures GetPhase(word) == Is(MultiEpochExistence) <==> word & 0xc000000000000000 == 0x8000000000000000
    ensures GetPhase(word) == Is(LogPersistence) <==> word & 0xc000000000000000 == 0x4000000000000000
    ensures GetPhase(word) == Is(NvmHeapUpdate) <==> word & 0xc000000000000000 == 0
    ensures GetPhase(word) == NotReachable <==> word & 0xc000000000000000 == 0xc000000000000000
  {
    HighBits(word);
    FourHighBits(word);
    var high := word & 0xc000000000000000;
    assert (word & EPOCH_MASK) ^ word == high;
    PhaseOfBits(word, high);
  }

  lemma PhaseOfBits(word: bv64, high: bv64)
    requires (word & EPOCH_MASK) ^ word == high
    requires high in {0, 0x4000000000000000, 0x8000000000000000, 0xc000000000000000}
    ensures GetPhase(word) == Is(MultiEpochExistence) <==> high == 0x8000000000000000
    ensures GetPhase(word) == Is(LogPersistence) <==> high == 0x4000000000000000
    ensures GetPhase(word) == Is(NvmHeapUpdate) <==> high == 0
    ensures GetPhase(word) == NotReachable <==> high == 0xc000000000000000
  {
  }

  /** The number is what the other 62 bits say. */
  lemma NumberBits(word: bv64)
    ensures Number(word) & 0xc000000000000000 == 0
    ensures Number(word) | (word & 0xc000000000000000) == word
  {
  }

  /** The first execution starts with the word 2: number 2, and nothing to recover. */
  lemma FirstWord()
    ensures Number(2) == 2 && GetPhase(2) == Is(NvmHeapUpdate)
  {
  }

  /** What is packed can be unpacked, and packing keeps the number of the word it is given. */
  lemma PackUnpack(word: bv64, phase: Phase)
    ensures Number(SetPhase(word, phase)) == Number(word)
    ensures GetPhase(SetPhase(word, phase)) == Is(phase)
  {
  }

  /**
   * What `escort_init` tests after a crash is a word without its phase bits: it reads as NVM_Heap_Update whatever the
   * phase was, and never as Log_Persistence, so that the logs are not replayed.
   */
  lemma UnphasedWord(word: bv64)
    ensures GetPhase(Number(word)) == Is(NvmHeapUpdate)
  {
  }

  lemma Rejoin(word: bv64, mask: bv64, rest: bv64)
    requires (word & mask) ^ word == rest
    ensures (word & mask) | rest == word
  {
  }

  /** Every word that `get_phase` accepts is the packing of its own number and phase. */
  lemma UnpackPack(word: bv64, phase: Phase)
    requires GetPhase(word) == Is(phase)
    ensures SetPhase(word, phase) == word
  {
    Rejoin(word, EPOCH_MASK, PhaseMask(phase));
  }

  /** Two packed words that compare equal, as in the re-check of `begin_op`, agree in number and in phase. */
  lemma SameWord(a: bv64, p: Phase, b: bv64, q: Phase)
    requires SetPhase(a, p) == SetPhase(b, q)
    ensures Number(a) == Number(b) && p == q
  {
    PackUnpack(a, p);
    PackUnpack(b, q);
  }

  /**
   * Starting the next epoch, `set_phase(epoch + 1, phase)`, moves the number on by one exactly when the
   * number has not used up its 62 bits; there it falls back to 0, the value that means "no operation".
   */
  lemma NextEpoch(word: bv64, phase: Phase)
    ensures Number(SetPhase(word + 1, phase)) == Number(word) + 1 <==> Number(word) != EPOCH_MASK
    ensures Number(word) == EPOCH_MASK ==> Number(SetPhase(word + 1, phase)) == 0
  {
  }

  /** The parity that selects a bitmap may be read off the packed word or off the number. */
  lemma ParityOfWord(word: bv64, phase: Phase)
    ensures word & 1 == Number(word) & 1
    ensures SetPhase(word, phase) & 1 == word & 1
    ensures (word + 1) & 1 != word & 1
  {
  }
}

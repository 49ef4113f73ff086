/** The three ring-index routines, which store through their argument and read the two globals. */
module ModuloBenchmark {
  import opened Arithmetic
  import opened BitMask

  /** The uint64_t behind a void pointer. */
  class Word {
    var value: nat
  }

  /** The slot reached by counting idx slots round a ring of cap slots. */
  function SlotOf(idx: nat, cap: nat): (slot: nat)
    requires cap > 0
    ensures slot < cap
  {
    if idx < cap then idx else SlotOf(idx - cap, cap)
  }

  lemma OneTurnLess(idx: nat, cap: nat)
    requires 0 < cap <= idx
    ensures (idx - cap) % cap == idx % cap
  {
    DivModEquation(idx, cap);
    assert (idx / cap - 1) * cap == idx / cap * cap - cap;
    DivModUnique(idx - cap, cap, idx / cap - 1, idx % cap);
  }

  lemma FirstTurn(idx: nat, cap: nat)
    requires idx < cap
    ensures idx % cap == idx
  {
    DivModUnique(idx, cap, 0, idx);
  }

  lemma {:induction false} SlotIsRemainder(idx: nat, cap: nat)
    requires cap > 0
    ensures SlotOf(idx, cap) == idx % cap
  {
    if idx < cap {
      FirstTurn(idx, cap);
    } else {
      OneTurnLess(idx, cap);
      SlotIsRemainder(idx - cap, cap);
    }
  }

  class Globals {
    var cap: nat
    var capSub1: nat

    /** What main establishes from muggle_next_pow_of_2: a power of two, and its predecessor. */
    ghost predicate Valid()
      reads this
    {
      exists k: nat :: k < 64 && Pow2(k) == cap && capSub1 == cap - 1
    }

    /** Stores the slot of idx by division. */
    method FuncModulo(args: Word, idx: nat)
      requires Valid()
      modifies args
      ensures cap > 0 && args.value == SlotOf(idx, cap)
    {
      SlotIsRemainder(idx, cap);
      args.value := idx % cap;
    }

    /** Stores the same slot by masking. */
    method FuncIdxInPowOf2Ring(args: Word, idx: nat)
      requires Valid()
      modifies args
      ensures cap > 0 && args.value == SlotOf(idx, cap)
    {
      ghost var k: nat :| k < 64 && Pow2(k) == cap && capSub1 == cap - 1;
      MaskIsModulo(idx, k);
      SlotIsRemainder(idx, cap);
      args.value := BitAnd(idx, cap - 1);
    }

    /** Stores the same slot by masking with the precomputed predecessor. */
    method FuncIdxInPowOf2RingCapSub1(args: Word, idx: nat)
      requires Valid()
      modifies args
      ensures cap > 0 && args.value == SlotOf(idx, cap)
    {
      ghost var k: nat :| k < 64 && Pow2(k) == cap && capSub1 == cap - 1;
      MaskIsModulo(idx, k);
      SlotIsRemainder(idx, cap);
      args.value := BitAnd(idx, capSub1);
    }
  }
}

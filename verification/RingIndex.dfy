/** Ring positions: a logical position grows without bound, and the cell it names is the
    position reduced to the capacity (`pos & MASK` in the source). */
module RingIndex {
  import Bits

  /** The cell of position `pos` in a ring of `capacity` cells. The recursion keeps the
      remainder operator out of the proofs about the queues; `SlotIsMask` says that it is
      the source's masking. */
  function Slot(pos: nat, capacity: nat): (cell: nat)
    requires 0 < capacity
    ensures cell < capacity
    decreases pos
  {
    if pos < capacity then pos else Slot(pos - capacity, capacity)
  }

  lemma {:induction false} SlotIsModulo(pos: nat, capacity: nat)
    requires 0 < capacity
    ensures Slot(pos, capacity) == pos % capacity
    decreases pos
  {
    if pos < capacity {
      Bits.SmallModulo(pos, capacity);
    } else {
      SlotIsModulo(pos - capacity, capacity);
      Bits.ModuloPeriod(pos - capacity, capacity);
    }
  }

  /** For every power-of-two capacity the cell is the position masked with capacity - 1. */
  lemma SlotIsMask(pos: nat, k: nat)
    ensures Slot(pos, Bits.Pow2(k)) == Bits.And(pos, Bits.Pow2(k) - 1)
  {
    SlotIsModulo(pos, Bits.Pow2(k));
    Bits.MaskIsModulo(pos, k);
  }

  /** Two positions less than one lap apart never name the same cell. */
  lemma {:induction false} SlotInjective(p: nat, q: nat, capacity: nat)
    requires 0 < capacity
    requires p < q < p + capacity
    ensures Slot(p, capacity) != Slot(q, capacity)
    decreases p
  {
    if capacity <= p {
      SlotInjective(p - capacity, q - capacity, capacity);
    } else if capacity <= q {
      assert Slot(q, capacity) == q - capacity;
    }
  }

  /** Positions in one window of `capacity` positions name pairwise different cells. */
  lemma SlotWindow(low: nat, capacity: nat)
    requires 0 < capacity
    ensures forall p: nat, q: nat ::
              low <= p < low + capacity && low <= q < low + capacity && p != q
              ==> Slot(p, capacity) != Slot(q, capacity)
  {
    forall p: nat, q: nat | low <= p < low + capacity && low <= q < low + capacity && p != q
      ensures Slot(p, capacity) != Slot(q, capacity)
    {
      if p < q {
        SlotInjective(p, q, capacity);
      } else {
        SlotInjective(q, p, capacity);
      }
    }
  }
}

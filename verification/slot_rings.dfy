/** Rings of equal slots: a write index that wraps, and what the slots hold after any number of
    writes. Message buffers and IOSB arrays of the handles are such rings. */
module SlotRings {
  import opened RingLayout

  /** The ring holds as many of the last entries of h as it has slots, entry k in slot k mod n. */
  ghost predicate Holds<T>(cells: seq<T>, h: seq<T>) {
    cells != [] ==>
      forall k: nat :: |h| - |cells| <= k < |h| ==> cells[Offset(|cells|, k)] == h[k]
  }

  lemma NextSlot(n: nat, k: nat)
    requires n > 0
    ensures Offset(n, k + 1) == (Offset(n, k) + 1) % n
  {
    OffsetStep(n, k, 1);
    OffsetIsRemainder(n, Offset(n, k) + 1);
    OffsetOfOffset(n, k, 1);
  }

  lemma SlotsDiffer(n: nat, j: nat, k: nat)
    requires 0 < n && j < k < j + n
    ensures Offset(n, j) != Offset(n, k)
  {
    OffsetStep(n, j, k - j);
  }

  /** Writing the next entry into the slot at the write index keeps the others. */
  lemma HoldsPush<T>(cells: seq<T>, h: seq<T>, x: T)
    requires cells != [] && Holds(cells, h)
    ensures Holds(cells[Offset(|cells|, |h|) := x], h + [x])
  {
    var n := |cells|;
    forall k: nat | |h| + 1 - n <= k < |h| + 1
      ensures cells[Offset(n, |h|) := x][Offset(n, k)] == (h + [x])[k]
    {
      if k < |h| { SlotsDiffer(n, k, |h|); }
    }
  }

  lemma {:induction false} OffsetOfOffset(n: nat, p: nat, d: nat)
    requires n > 0
    ensures Offset(n, Offset(n, p) + d) == Offset(n, p + d)
  {
    if p >= n {
      OffsetOfOffset(n, p - n, d);
    }
  }

  /** The i-th oldest of the last c entries sits (index - c + i) mod n. */
  lemma CountedBack(n: nat, written: nat, c: nat, i: nat)
    requires 0 < n && i < c <= n && c <= written
    ensures Offset(n, Offset(n, written) + n - c + i) == Offset(n, written - c + i)
  {
    OffsetOfOffset(n, written, n - c + i);
  }
}

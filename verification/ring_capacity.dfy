/** Which messages the ring can take: exact conditions on the size of a reservation. */
module RingCapacity {
  import opened Records
  import opened RingLayout
  import opened ShmResults
  import opened ShmRing
  import opened LabelFrame

  /** A drained ring takes a reservation wherever its head stands exactly if twice the reservation
      is at most eight bytes more than the usable part of the block. */
  lemma DrainedFits(B: nat, r: nat)
    requires Geometry(B) && Aligned(r) && r >= HEADER_SIZE
    ensures (forall h: nat :: Boundary(B, h) ==> HasRoom(B, h, h, r))
            <==> r <= UsableLimit(B) && 2 * r <= UsableLimit(B) + 8
  {
    var limit := UsableLimit(B);
    if r > limit {
      assert Boundary(B, 0) && !HasRoom(B, 0, 0, r);
    } else if 2 * r > limit + 8 {
      var h := r - 8;
      AlignedDifference(r, 8);
      assert Boundary(B, h) && !HasRoom(B, h, h, r);
    } else {
      forall h: nat | Boundary(B, h)
        ensures HasRoom(B, h, h, r)
      {
        if Offset(B, h) < r {
          OffsetAligned(B, h);
          MultiplesApart(Offset(B, h), r);
        }
      }
    }
  }

  lemma MultiplesApart(a: nat, r: nat)
    requires Aligned(a) && Aligned(r) && a < r
    ensures a + 8 <= r
  {
    AlignedDifference(r, a);
  }

  /** A reservation that fits the block but not its usable part is refused for ever: the size check
      lets it through, and no amount of draining makes room. */
  lemma NeverFits(B: nat, h: nat, t: nat, size: nat)
    requires Geometry(B) && t <= h && UsableLimit(B) < Reserve(size) <= B
    ensures SendOutcome(B, Ready, h, t, size) == NotEnoughSpace
  {
  }

  /** A send refused on a drained ring has moved the head to a block start; once the consumer has
      passed the filler, the same send finds room. */
  lemma RetryFits(B: nat, h: nat, r: nat)
    requires Geometry(B) && Boundary(B, h) && Aligned(r) && HEADER_SIZE <= r <= UsableLimit(B)
    requires !HasRoom(B, h, h, r)
    ensures var h' := HeadAfterRefusal(B, h, h, r); Offset(B, h') == 0 && HasRoom(B, h', h', r)
  {
    OffsetStep(B, h, B - Offset(B, h));
  }

  /** A message carrying a label frame. */
  predicate FromManager(m: Msg) {
    LABEL_HEADER_SIZE < |m.payload| <= LABEL_HEADER_SIZE + MAX_LABEL_SIZE
  }

  /** In a deployed block a label of any legal size finds room whenever the ring is drained, and
      the receive worker's buffer is large enough for it: recv answers nothing but records and
      NoRecords. */
  lemma ManagerTraffic(h: nat, m: Msg, q: seq<Msg>)
    requires Geometry(DATA_BLOCK_SIZE) && Boundary(DATA_BLOCK_SIZE, h)
    requires FromManager(m) && forall i :: 0 <= i < |q| ==> FromManager(q[i])
    ensures SendOutcome(DATA_BLOCK_SIZE, Ready, h, h, |m.payload|) == SendOk
    ensures RecvOutcome(Ready, q, AtHead, MAX_LABEL_SIZE + LABEL_HEADER_SIZE) == if q == [] then NoRecords else RecvOk
  {
    hide Aligned, Offset;
    DrainedFits(DATA_BLOCK_SIZE, Reserve(|m.payload|));
  }
}

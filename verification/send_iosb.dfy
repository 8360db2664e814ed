/** A publisher's IOSB ring (write_send_iosb, SendJob::finalize_send_iosb). */
module SendIosbs {
  import opened Bytes
  import opened RingLayout
  import opened SlotRings

  /** What a send IOSB says about a finished job. */
  datatype SendIosb = SendIosb(status: int, size: nat, source: int32, labelId: int32)

  class Publisher {
    const iosb: array<SendIosb>   // empty when the publisher gave none
    var iosbIndex: nat
    var signals: nat              // posts of the publisher's semaphore

    ghost var records: seq<SendIosb>

    ghost predicate Valid()
      reads this`iosbIndex, this`records, iosb
    {
      (iosb.Length > 0 ==> iosbIndex == Offset(iosb.Length, |records|)) && Holds(iosb[..], records)
    }

    constructor (iosb: array<SendIosb>)
      ensures Valid() && this.iosb == iosb && records == [] && signals == 0
    {
      this.iosb := iosb;
      iosbIndex, signals := 0, 0;
      records := [];
    }

    /** One record, marked failed if any receiver was missed, and one post. */
    method Finalize(source: int32, labelId: int32, size: nat, fails: nat)
      requires Valid()
      modifies iosb, this
      ensures Valid() && signals == old(signals) + 1
      ensures records == if iosb.Length == 0 then old(records)
                         else old(records) + [SendIosb(if fails > 0 then -1 else 0, size, source, labelId)]
    {
      if iosb.Length != 0 {
        var r := SendIosb(if fails > 0 then -1 else 0, size, source, labelId);
        HoldsPush(iosb[..], records, r);
        NextSlot(iosb.Length, |records|);
        iosb[iosbIndex] := r;
        iosbIndex := (iosbIndex + 1) % iosb.Length;
        records := records + [r];
      }
      signals := signals + 1;
    }

    /** The ring holds the latest records. */
    lemma LatestRecords(i: nat)
      requires Valid() && i < iosb.Length && i < |records|
      ensures iosb[Offset(iosb.Length, iosbIndex + iosb.Length - 1 - i)] == records[|records| - 1 - i]
    {
      CountedBack(iosb.Length, |records|, i + 1, 0);
      assert iosb[..][Offset(iosb.Length, |records| - 1 - i)] == records[|records| - 1 - i];
    }
  }
}

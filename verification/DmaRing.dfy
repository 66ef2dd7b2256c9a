/** The S2MM descriptor ring: harvest, requeue and stop latch, and why in-order requeue keeps the
    hardware's descriptors one circular interval. */
module DmaRing {

  /** A descriptor's status word, as far as the harvester reads it. */
  datatype Status = Status(completed: bool, error: bool, length: nat)

  const CLEARED := Status(false, false, 0)

  datatype Ring = Ring(status: seq<Status>, next: nat, hwCount: nat, sequence: nat, tail: nat,
                       stopLatched: bool, requeueEnabled: bool, afterStop: nat)

  predicate RingOk(r: Ring) {
    0 < |r.status| && r.next < |r.status| && r.hwCount <= |r.status| && r.tail < |r.status|
  }

  /** `dma_start_s2mm_ring`: every descriptor belongs to the hardware. */
  function Started(n: nat): (r: Ring)
    requires n > 0
    ensures RingOk(r)
  {
    Ring(seq(n, _ => CLEARED), 0, n, 0, n - 1, false, true, 0)
  }

  // ---- Harvest ----

  datatype HarvestItem = HarvestItem(slot: nat, bytes: nat, sequence: nat)

  datatype Harvest = Empty(ring: Ring) | Fault(ring: Ring) | Got(ring: Ring, item: HarvestItem)

  /** One turn of the loop of `dma_harvest_batch_impl`. `sick` says that the channel shows an error (or
      is halted while it must not be). */
  function HarvestOne(r: Ring, halted: bool, sick: bool): Harvest
    requires RingOk(r)
  {
    var i := r.next;
    if r.hwCount == 0 && !halted then Empty(r)
    else if sick then Fault(r)
    else if !r.status[i].completed then Empty(r)
    else if r.status[i].error then Fault(r)
    else
      Got(r.(status := if halted then r.status[i := CLEARED] else r.status,
             next := (i + 1) % |r.status|,
             hwCount := if r.hwCount != 0 then r.hwCount - 1 else 0,
             sequence := r.sequence + 1),
          HarvestItem(i, r.status[i].length, r.sequence))
  }

  /** `items` harvested one after the other. */
  ghost predicate Harvested(r: Ring, halted: bool, items: seq<HarvestItem>, r': Ring)
    decreases |items|
  {
    RingOk(r) &&
    if items == [] then r' == r
    else
      var h := HarvestOne(r, halted, false);
      h.Got? && h.item == items[0] && Harvested(h.ring, halted, items[1..], r')
  }

  lemma {:induction false} HarvestedMore(r: Ring, halted: bool, items: seq<HarvestItem>, r': Ring)
    requires Harvested(r, halted, items, r') && RingOk(r')
    requires HarvestOne(r', halted, false).Got?
    ensures var h := HarvestOne(r', halted, false); Harvested(r, halted, items + [h.item], h.ring)
    decreases |items|
  {
    var h := HarvestOne(r', halted, false);
    if items == [] {
      assert [h.item][1..] == [];
    } else {
      assert (items + [h.item])[1..] == items[1..] + [h.item];
      HarvestedMore(HarvestOne(r, halted, false).ring, halted, items[1..], r');
    }
  }

  // ---- Requeue and stop ----

  datatype Requeue = Requeue(ring: Ring, rc: int)

  /** `dma_requeue_one`. */
  function RequeueOne(r: Ring, slot: nat, sick: bool): (q: Requeue)
    requires RingOk(r)
    ensures q.rc in {0, -1, -2}
  {
    if r.stopLatched || !r.requeueEnabled then Requeue(r.(afterStop := r.afterStop + 1), -2)
    else if slot >= |r.status| then Requeue(r, -1)
    else
      var given := r.(status := r.status[slot := CLEARED], tail := slot);
      if sick then Requeue(given, -1)
      else if r.hwCount + 1 > |r.status| then Requeue(given.(hwCount := |r.status|), -1)
      else Requeue(given.(hwCount := r.hwCount + 1), 0)
  }

  /** `dma_latch_stop`. */
  function LatchStop(r: Ring): Ring {
    r.(requeueEnabled := false, stopLatched := true)
  }

  // ---- The ring as the object that runs ----

  class DmaChannel {
    const status: array<Status>
    var next: nat
    var hwCount: nat
    var sequence: nat
    var tail: nat
    var stopLatched: bool
    var requeueEnabled: bool
    var afterStop: nat

    ghost predicate Valid()
      reads this, status
    {
      RingOk(View())
    }

    ghost function View(): Ring
      reads this, status
    {
      Ring(status[..], next, hwCount, sequence, tail, stopLatched, requeueEnabled, afterStop)
    }

    constructor (n: nat)
      requires n > 0
      ensures Valid() && fresh(status) && View() == Started(n)
    {
      status := new Status[n](_ => CLEARED);
      next, hwCount, sequence, tail := 0, n, 0, n - 1;
      stopLatched, requeueEnabled, afterStop := false, true, 0;
      new;
      assert status[..] == Started(n).status;
    }

    /** What the channel's error bits show right now. */
    method Sick() returns (sick: bool)
    {
      sick := *;
    }

    /** One item for the batch; `halted` is the harvest of a stopped channel. */
    method TryHarvest(halted: bool) returns (got: bool, fault: bool, item: HarvestItem, ghost sick: bool)
      requires Valid()
      modifies this, status
      ensures Valid()
      ensures match HarvestOne(old(View()), halted, sick)
              case Empty(r) => !got && !fault && View() == r
              case Fault(r) => !got && fault && View() == r
              case Got(r, it) => got && !fault && item == it && View() == r
    {
      got, fault, item, sick := false, false, HarvestItem(0, 0, 0), false;
      if hwCount == 0 && !halted { return; }
      var bad := Sick();
      sick := bad;
      if bad { fault := true; return; }
      var i := next;
      var st := status[i];
      if !st.completed { return; }
      if st.error { fault := true; return; }
      got, item := true, HarvestItem(i, st.length, sequence);
      sequence := sequence + 1;
      if halted { status[i] := CLEARED; }
      if hwCount != 0 { hwCount := hwCount - 1; }
      next := (i + 1) % status.Length;
    }

    /** `dma_harvest_batch_impl`; the time budget may end the batch after any item. */
    method HarvestBatch(max: nat, halted: bool) returns (rc: int, items: seq<HarvestItem>)
      requires Valid()
      modifies this, status
      ensures Valid() && |items| <= max
      ensures Harvested(old(View()), halted, items, View())
      ensures rc in {-1, 0} && (max == 0 ==> rc == -1)
    {
      items := [];
      if max == 0 { return -1, items; }
      while |items| < max
        invariant Valid() && |items| <= max && Harvested(old(View()), halted, items, View())
        decreases max - |items|
      {
        ghost var before := View();
        var got, fault, item, sick := TryHarvest(halted);
        if fault { return -1, items; }
        if !got { break; }
        HarvestedMore(old(View()), halted, items, before);
        items := items + [item];
        if * { break; }
      }
      rc := 0;
    }

    method Give(slot: nat) returns (rc: int, ghost sick: bool)
      requires Valid()
      modifies this, status
      ensures Valid() && View() == RequeueOne(old(View()), slot, sick).ring && rc == RequeueOne(old(View()), slot, sick).rc
    {
      sick := false;
      if stopLatched || !requeueEnabled {
        afterStop := afterStop + 1;
        return -2, sick;
      }
      if slot >= status.Length { return -1, sick; }
      status[slot] := CLEARED;
      tail := slot;
      var bad := Sick();
      sick := bad;
      if bad { return -1, sick; }
      hwCount := hwCount + 1;
      if hwCount > status.Length {
        hwCount := status.Length;
        return -1, sick;
      }
      rc := 0;
    }

    method Latch()
      requires Valid()
      modifies this
      ensures Valid() && View() == LatchStop(old(View()))
    {
      requeueEnabled := false;
      stopLatched := true;
    }
  }
}

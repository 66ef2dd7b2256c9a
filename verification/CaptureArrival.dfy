/** What the hardware delivered and what the file holds: the stream is the descriptors in the order in which
    they arrived, but for those whose bytes do not fill sectors. */
module CaptureArrival {
  import opened Media
  import opened Modular
  import opened EngineModel
  import opened EngineSafety
  import opened DmaRing
  import opened SlotTable
  import opened WriteQueue
  import opened Capture
  import opened CaptureInvariant
  import opened CaptureSteps
  import opened CaptureWriter
  import opened CaptureTheorems

  predicate WholeSectors(bytes: nat) {
    bytes % SECTOR_BYTES == 0
  }

  /** The descriptors whose bytes fill sectors, one after the other. */
  function Joined(arrived: seq<seq<Byte>>): seq<Byte> {
    if arrived == [] then []
    else
      var last := arrived[|arrived| - 1];
      Joined(arrived[..|arrived| - 1]) + (if WholeSectors(|last|) then last else [])
  }

  lemma JoinedMore(arrived: seq<seq<Byte>>, k: nat)
    requires k < |arrived|
    ensures Joined(arrived[..k + 1]) == Joined(arrived[..k]) + (if WholeSectors(|arrived[k]|) then arrived[k] else [])
  {
    assert arrived[..k + 1][..k] == arrived[..k];
  }

  // ---- The invariant ----

  /** What of a capture matters here. */
  datatype Arrivals = Arrivals(geo: Geometry, ddr: Ddr, ring: Ring, owned: set<nat>, arrived: seq<seq<Byte>>,
                               batch: seq<HarvestItem>, pending: seq<Item>, stream: seq<Byte>)

  function ArrivalsOf(c: Cap): Arrivals {
    Arrivals(c.geo, c.s.w.ddr, c.ch.ring, c.h.owned, c.h.arrived, c.p.batch, c.p.pending, c.h.stream)
  }

  /** The place of the `p`-th descriptor in the ring. */
  function PlaceOf(n: nat, p: nat): (i: nat)
    requires n > 0
    ensures i < n
  {
    p % n
  }

  /** The harvester is at the descriptor after the ones harvested, the hardware at the one after those that
      arrived, and between the two lie the completed ones the hardware still owns. */
  ghost predicate PositionsOk(ring: Ring, arrived: seq<seq<Byte>>, owned: set<nat>) {
    var n := |ring.status|;
    && RingOk(ring) && ring.next == PlaceOf(n, ring.sequence) && ring.sequence <= |arrived| <= ring.sequence + n
    && (forall p :: ring.sequence <= p < |arrived| ==> PlaceOf(n, p) in owned && ring.status[PlaceOf(n, p)].completed)
    && (forall p :: |arrived| <= p < ring.sequence + n && PlaceOf(n, p) in owned ==> !ring.status[PlaceOf(n, p)].completed)
  }

  /** Completed descriptors still hold what arrived. */
  ghost predicate RingHolds(geo: Geometry, ddr: Ddr, ring: Ring, arrived: seq<seq<Byte>>)
    requires |ring.status| > 0
  {
    forall p :: ring.sequence <= p < |arrived| ==>
      arrived[p] == Received(geo, PlaceOf(|ring.status|, p), ddr, ring.status[PlaceOf(|ring.status|, p)].length)
  }

  /** So does the batch, which is what was harvested last. */
  ghost predicate BatchHolds(geo: Geometry, ddr: Ddr, batch: seq<HarvestItem>, first: int, arrived: seq<seq<Byte>>) {
    && 0 <= first && first + |batch| <= |arrived|
    && (forall i :: 0 <= i < |batch| ==> arrived[first + i] == Received(geo, batch[i].slot, ddr, batch[i].bytes))
  }

  /** What was sorted so far is the stream followed by the items about to be pushed. */
  ghost predicate SortedOk(x: Arrivals) {
    var first := x.ring.sequence - |x.batch|;
    0 <= first <= |x.arrived| && Joined(x.arrived[..first]) == StreamAfter(x.stream, x.ddr, x.pending)
  }

  ghost predicate ArrivalsOk(x: Arrivals) {
    && PositionsOk(x.ring, x.arrived, x.owned) && RingHolds(x.geo, x.ddr, x.ring, x.arrived)
    && BatchHolds(x.geo, x.ddr, x.batch, x.ring.sequence - |x.batch|, x.arrived) && SortedOk(x)
  }

  lemma StartArrivals(c: Cap)
    requires Start(c)
    ensures ArrivalsOk(ArrivalsOf(c))
  {
    ModSmall(0, |c.ch.ring.status|);
  }

  // ---- The hardware ----

  lemma ReceivedUntouched(geo: Geometry, slot: nat, other: nat, ddr: Ddr, ddr': Ddr, length: nat)
    requires slot != other && forall addr: nat :: !InDdrSlot(geo, other, addr) ==> ddr'(addr) == ddr(addr)
    ensures Received(geo, slot, ddr', length) == Received(geo, slot, ddr, length)
  {
    forall i | 0 <= i < Min(length, geo.descBytes)
      ensures Received(geo, slot, ddr', length)[i] == Received(geo, slot, ddr, length)[i]
    {
      var addr := geo.hwBase + slot * geo.descBytes + i;
      assert InDdrSlot(geo, slot, addr);
      if InDdrSlot(geo, other, addr) { SlotsApart(geo, slot, other, addr); }
    }
  }

  lemma {:induction false} StreamUntouched(geo: Geometry, n: nat, stream: seq<Byte>, ddr: Ddr, ddr': Ddr, items: seq<Item>, other: nat)
    requires AllGood(geo, n, items) && !HasSlot(items, other)
    requires forall addr: nat :: !InDdrSlot(geo, other, addr) ==> ddr'(addr) == ddr(addr)
    ensures StreamAfter(stream, ddr', items) == StreamAfter(stream, ddr, items)
    decreases |items|
  {
    if items != [] {
      var rest, it := items[..|items| - 1], items[|items| - 1];
      forall k | 0 <= k < |rest| ensures rest[k].slot != other { assert items[k] == rest[k]; }
      StreamUntouched(geo, n, stream, ddr, ddr', rest, other);
      assert ItemBytes(ddr', it) == ItemBytes(ddr, it) by {
        ReceivedUntouched(geo, it.slot, other, ddr, ddr', it.bytes);
        ItemIsReceived(geo, n, ddr, it);
        ItemIsReceived(geo, n, ddr', it);
      }
    }
  }

  lemma ItemIsReceived(geo: Geometry, n: nat, ddr: Ddr, it: Item)
    requires ItemGood(geo, n, it)
    ensures ItemBytes(ddr, it) == Received(geo, it.slot, ddr, it.bytes)
  {
  }

  lemma PlacesDiffer(n: nat, low: nat, p: nat, q: nat)
    requires n > 0 && low <= p < low + n && low <= q < low + n && p != q
    ensures PlaceOf(n, p) != PlaceOf(n, q)
  {
    if p < q { ModDistinct(p, q, n); } else { ModDistinct(q, p, n); }
  }

  /** There is a descriptor left to fill when the next in turn is empty. */
  lemma RoomToFill(x: Arrivals)
    requires PositionsOk(x.ring, x.arrived, x.owned) && !x.ring.status[PlaceOf(|x.ring.status|, |x.arrived|)].completed
    ensures |x.arrived| < x.ring.sequence + |x.ring.status|
  {
    if |x.arrived| == x.ring.sequence + |x.ring.status| {
      DivStep(x.ring.sequence, |x.ring.status|);
      assert false;
    }
  }

  /** The hardware writes into the next descriptor in turn. */
  ghost predicate Written(x: Arrivals, y: Arrivals, slot: nat, status: Status) {
    && RingOk(x.ring) && slot == PlaceOf(|x.ring.status|, |x.arrived|) && !x.ring.status[slot].completed && slot in x.owned
    && (forall addr: nat :: !InDdrSlot(x.geo, slot, addr) ==> y.ddr(addr) == x.ddr(addr))
    && y == x.(ddr := y.ddr, ring := x.ring.(status := x.ring.status[slot := status]),
               arrived := if status.completed then x.arrived + [Received(x.geo, slot, y.ddr, status.length)] else x.arrived)
  }

  lemma WrittenPositions(x: Arrivals, y: Arrivals, slot: nat, status: Status)
    requires PositionsOk(x.ring, x.arrived, x.owned) && Written(x, y, slot, status)
    ensures PositionsOk(y.ring, y.arrived, y.owned)
  {
    var n, a := |x.ring.status|, |x.arrived|;
    RoomToFill(x);
    forall p | x.ring.sequence <= p < x.ring.sequence + n && p != a
      ensures PlaceOf(n, p) != slot
    {
      PlacesDiffer(n, x.ring.sequence, p, a);
    }
  }

  lemma WrittenContent(x: Arrivals, y: Arrivals, slot: nat, status: Status)
    requires ArrivalsOk(x) && Written(x, y, slot, status) && !InBatch(x.batch, slot)
    ensures RingHolds(y.geo, y.ddr, y.ring, y.arrived)
    ensures BatchHolds(y.geo, y.ddr, y.batch, y.ring.sequence - |y.batch|, y.arrived)
  {
    var n, a, first := |x.ring.status|, |x.arrived|, x.ring.sequence - |x.batch|;
    RoomToFill(x);
    forall p | x.ring.sequence <= p < a
      ensures y.arrived[p] == Received(y.geo, PlaceOf(n, p), y.ddr, y.ring.status[PlaceOf(n, p)].length)
    {
      PlacesDiffer(n, x.ring.sequence, p, a);
      ReceivedUntouched(x.geo, PlaceOf(n, p), slot, x.ddr, y.ddr, x.ring.status[PlaceOf(n, p)].length);
    }
    forall i | 0 <= i < |x.batch|
      ensures y.arrived[first + i] == Received(y.geo, x.batch[i].slot, y.ddr, x.batch[i].bytes)
    {
      assert InBatch(x.batch, x.batch[i].slot);
      ReceivedUntouched(x.geo, x.batch[i].slot, slot, x.ddr, y.ddr, x.batch[i].bytes);
    }
  }

  lemma WrittenKeeps(x: Arrivals, y: Arrivals, slot: nat, status: Status, n: nat)
    requires ArrivalsOk(x) && Written(x, y, slot, status)
    requires !InBatch(x.batch, slot) && AllGood(x.geo, n, x.pending) && !HasSlot(x.pending, slot)
    ensures ArrivalsOk(y)
  {
    WrittenPositions(x, y, slot, status);
    WrittenContent(x, y, slot, status);
    StreamUntouched(x.geo, n, x.stream, x.ddr, y.ddr, x.pending, slot);
    var first := x.ring.sequence - |x.batch|;
    assert y.arrived[..first] == x.arrived[..first];
  }

  lemma HwWriteArrivals(c: Cap, v: Event)
    requires OwnersOk(c) && Shape(c.s.e) && Allowed(c, v) && v.HwWrite? && AddReady(c)
    ensures Written(ArrivalsOf(c), ArrivalsOf(Next(c, v)), v.slot, v.status)
    ensures !InBatch(c.p.batch, v.slot) && !HasSlot(c.p.pending, v.slot)
  {
  }

  // ---- The harvest ----

  /** The oldest completed descriptor is harvested. */
  ghost predicate Taken(x: Arrivals, y: Arrivals, halted: bool, sick: bool) {
    && RingOk(x.ring)
    && var h := HarvestOne(x.ring, halted, sick);
       h.Got? && x.ring.next in x.owned && y == x.(ring := h.ring, owned := x.owned - {x.ring.next}, batch := x.batch + [h.item])
  }

  lemma TakenPositions(x: Arrivals, y: Arrivals, halted: bool, sick: bool)
    requires PositionsOk(x.ring, x.arrived, x.owned) && Taken(x, y, halted, sick)
    ensures x.ring.sequence < |x.arrived| && PositionsOk(y.ring, y.arrived, y.owned)
  {
    var n, k := |x.ring.status|, x.ring.sequence;
    assert PlaceOf(n, k) == x.ring.next;
    ModNext(k, n);
    DivStep(k, n);
    forall p | k < p < k + n
      ensures PlaceOf(n, p) != x.ring.next
    {
      PlacesDiffer(n, k, p, k);
    }
  }

  lemma TakenRing(x: Arrivals, y: Arrivals, halted: bool, sick: bool)
    requires PositionsOk(x.ring, x.arrived, x.owned) && RingHolds(x.geo, x.ddr, x.ring, x.arrived) && Taken(x, y, halted, sick)
    ensures RingHolds(y.geo, y.ddr, y.ring, y.arrived)
  {
    var n, k := |x.ring.status|, x.ring.sequence;
    forall p | k < p < |x.arrived|
      ensures y.ring.status[PlaceOf(n, p)] == x.ring.status[PlaceOf(n, p)]
    {
      if p < k + n { PlacesDiffer(n, k, p, k); }
    }
  }

  lemma TakenBatch(x: Arrivals, y: Arrivals, halted: bool, sick: bool)
    requires ArrivalsOk(x) && Taken(x, y, halted, sick) && x.ring.sequence < |x.arrived|
    ensures BatchHolds(y.geo, y.ddr, y.batch, y.ring.sequence - |y.batch|, y.arrived)
  {
    var k, first := x.ring.sequence, x.ring.sequence - |x.batch|;
    assert x.arrived[k] == Received(x.geo, PlaceOf(|x.ring.status|, k), x.ddr, x.ring.status[PlaceOf(|x.ring.status|, k)].length);
    forall i | 0 <= i < |y.batch|
      ensures y.arrived[first + i] == Received(y.geo, y.batch[i].slot, y.ddr, y.batch[i].bytes)
    {
      if i < |x.batch| { assert y.batch[i] == x.batch[i]; }
    }
  }

  lemma TakenKeeps(x: Arrivals, y: Arrivals, halted: bool, sick: bool)
    requires ArrivalsOk(x) && Taken(x, y, halted, sick)
    ensures ArrivalsOk(y)
  {
    TakenPositions(x, y, halted, sick);
    TakenRing(x, y, halted, sick);
    TakenBatch(x, y, halted, sick);
  }

  lemma HarvestArrivals(c: Cap, sick: bool)
    requires OwnersOk(c) && c.p.stage == Collecting && HarvestOne(c.ch.ring, c.halted, sick).Got?
    requires !StaleHarvest(c, HarvestEvent(sick))
    ensures Taken(ArrivalsOf(c), ArrivalsOf(HarvestStep(c, sick)), c.halted, sick)
  {
    HarvestExact(c, sick);
  }

  // ---- Sorting and pushing ----

  /** The first descriptor of the batch is kept when its bytes fill sectors. */
  ghost predicate Sorted(x: Arrivals, y: Arrivals, it: Item) {
    && x.batch != []
    && var d := x.batch[0];
       && 0 < d.bytes <= x.geo.descBytes
       && (WholeSectors(d.bytes) ==> it.bytes == d.bytes && it.hwAddr == x.geo.hwBase + d.slot * x.geo.descBytes)
       && y == x.(batch := x.batch[1..], pending := if WholeSectors(d.bytes) then x.pending + [it] else x.pending)
  }

  lemma SortedKeeps(x: Arrivals, y: Arrivals, it: Item)
    requires ArrivalsOk(x) && Sorted(x, y, it)
    ensures ArrivalsOk(y)
  {
    var d, first := x.batch[0], x.ring.sequence - |x.batch|;
    JoinedMore(x.arrived, first);
    assert x.arrived[first + 0] == Received(x.geo, d.slot, x.ddr, d.bytes);
    if WholeSectors(d.bytes) {
      assert ItemBytes(x.ddr, it) == x.arrived[first];
      assert y.pending[..|x.pending|] == x.pending;
    }
    forall i | 0 <= i < |y.batch|
      ensures y.arrived[first + 1 + i] == Received(y.geo, y.batch[i].slot, y.ddr, y.batch[i].bytes)
    {
      assert y.batch[i] == x.batch[i + 1];
      assert x.arrived[first + (i + 1)] == Received(x.geo, x.batch[i + 1].slot, x.ddr, x.batch[i + 1].bytes);
    }
  }

  lemma WholeIsWhole(bytes: nat)
    ensures WholeSectors(bytes) <==> BytesToSectors(bytes) * SECTOR_BYTES == bytes
  {
  }

  lemma TakeArrivals(c: Cap)
    requires c.p.batch != [] && !Bad(TakeStep(c))
    ensures Sorted(ArrivalsOf(c), ArrivalsOf(TakeStep(c)), NewItem(c, c.p.batch[0]))
  {
    WholeIsWhole(c.p.batch[0].bytes);
  }

  lemma PushedKeeps(x: Arrivals, y: Arrivals)
    requires ArrivalsOk(x) && x.batch == [] && y == x.(pending := [], stream := StreamAfter(x.stream, x.ddr, x.pending))
    ensures ArrivalsOk(y)
  {
  }

  lemma PushArrivals(c: Cap)
    requires c.p.batch == [] && !Bad(PushStep(c))
    ensures ArrivalsOf(PushStep(c)) ==
            ArrivalsOf(c).(pending := [], stream := StreamAfter(c.h.stream, c.s.w.ddr, c.p.pending))
  {
    PushEffect(c);
  }

  // ---- The writer ----

  /** A descriptor is requeued: it is empty again, and not one of those that wait to be harvested. */
  ghost predicate Requeued(x: Arrivals, y: Arrivals, slot: nat) {
    && slot < |x.ring.status| && slot !in x.owned && y == x.(ring := y.ring, owned := x.owned + {slot})
    && y.ring.status == x.ring.status[slot := CLEARED] && y.ring.next == x.ring.next && y.ring.sequence == x.ring.sequence
    && RingOk(y.ring)
  }

  lemma RequeuedKeeps(x: Arrivals, y: Arrivals, slot: nat)
    requires ArrivalsOk(x) && Requeued(x, y, slot)
    ensures ArrivalsOk(y)
  {
    forall p | x.ring.sequence <= p < |x.arrived|
      ensures PlaceOf(|x.ring.status|, p) != slot
    {
    }
  }

  /** Only counts and flags of the ring differ. */
  ghost predicate SameArrivals(x: Arrivals, y: Arrivals) {
    && y == x.(ring := y.ring) && RingOk(y.ring)
    && y.ring.status == x.ring.status && y.ring.next == x.ring.next && y.ring.sequence == x.ring.sequence
  }

  lemma SameKeeps(x: Arrivals, y: Arrivals)
    requires ArrivalsOk(x) && SameArrivals(x, y)
    ensures ArrivalsOk(y)
  {
  }

  lemma CompletedArrivals(q: Queue, ring: Ring, item: Item, sick: bool)
    requires RingOk(ring) && item.slot < |q.slots| == |ring.status| && Complete(q, ring, item, sick).ok
    ensures var r := Complete(q, ring, item, sick);
            && RingOk(r.ring) && r.ring.next == ring.next && r.ring.sequence == ring.sequence && |r.q.slots| == |q.slots|
            && (if r.q.slots[item.slot] == DmaWritable then r.ring.status == ring.status[item.slot := CLEARED]
                else r.ring.status == ring.status)
  {
  }

  lemma ReportArrivals(c: Cap, t: Cap, i: nat, k: nat, sick: bool)
    requires OwnersOk(c) && Shape(c.s.e) && Reported(c, t, i, k, sick)
    ensures SameArrivals(ArrivalsOf(c), ArrivalsOf(t)) || Requeued(ArrivalsOf(c), ArrivalsOf(t), c.h.busy[k].slot)
  {
    ReportEngine(c, t, i, k, sick);
    SlotTaken(c.h.busy, k);
    CompletedArrivals(c.ch.q, c.ch.ring, c.h.busy[k], sick);
    assert c.ch.q.slots[c.h.busy[k].slot] == NvmeBusy && c.h.busy[k].slot !in c.h.owned;
  }

  lemma EngineArrivals(c: Cap, a: Action)
    requires Inv(c.s) && Enabled(c.s, a) && WriterOnly(a) && RingOk(c.ch.ring)
    ensures SameArrivals(ArrivalsOf(c), ArrivalsOf(c.(s := EngineModel.Apply(c.s, a))))
  {
    WriterOnlyEffect(c.s, a);
  }

  lemma AddArrivals(c: Cap)
    requires RingOk(c.ch.ring) && Shape(c.s.e) && c.held.Some? && Enabled(c.s, Add(ReqOf(c.held.value)))
    ensures SameArrivals(ArrivalsOf(c), ArrivalsOf(AddHeldStep(c)))
  {
  }

  lemma PopArrivals(c: Cap)
    requires RingOk(c.ch.ring)
    ensures SameArrivals(ArrivalsOf(c), ArrivalsOf(PopStep(c)))
  {
  }

  lemma ControlArrivals(c: Cap, v: Event)
    requires RingOk(c.ch.ring) && Shape(c.s.e) && Allowed(c, v) && StopControl(v) && AddReady(c)
    ensures SameArrivals(ArrivalsOf(c), ArrivalsOf(Next(c, v)))
  {
  }

  // ---- Every run ----

  lemma HwWriteArrives(c: Cap, v: Event)
    requires Sound(c) && ArrivalsOk(ArrivalsOf(c)) && Allowed(c, v) && v.HwWrite? && AddReady(c)
    ensures ArrivalsOk(ArrivalsOf(Next(c, v)))
  {
    HwWriteArrivals(c, v);
    WrittenKeeps(ArrivalsOf(c), ArrivalsOf(Next(c, v)), v.slot, v.status, |c.ch.q.slots|);
  }

  lemma HarvestArrives(c: Cap, sick: bool)
    requires OwnersOk(c) && ArrivalsOk(ArrivalsOf(c)) && c.p.stage == Collecting && !StaleHarvest(c, HarvestEvent(sick))
    ensures Bad(HarvestStep(c, sick)) || ArrivalsOk(ArrivalsOf(HarvestStep(c, sick)))
  {
    if HarvestOne(c.ch.ring, c.halted, sick).Got? {
      HarvestArrivals(c, sick);
      TakenKeeps(ArrivalsOf(c), ArrivalsOf(HarvestStep(c, sick)), c.halted, sick);
    }
  }

  lemma TakeArrives(c: Cap)
    requires ArrivalsOk(ArrivalsOf(c)) && c.p.batch != []
    ensures Bad(TakeStep(c)) || ArrivalsOk(ArrivalsOf(TakeStep(c)))
  {
    if !Bad(TakeStep(c)) {
      TakeArrivals(c);
      SortedKeeps(ArrivalsOf(c), ArrivalsOf(TakeStep(c)), NewItem(c, c.p.batch[0]));
    }
  }

  lemma PushArrives(c: Cap)
    requires ArrivalsOk(ArrivalsOf(c)) && c.p.batch == []
    ensures Bad(PushStep(c)) || ArrivalsOk(ArrivalsOf(PushStep(c)))
  {
    if !Bad(PushStep(c)) {
      PushArrivals(c);
      PushedKeeps(ArrivalsOf(c), ArrivalsOf(PushStep(c)));
    }
  }

  lemma ProducerArrives(c: Cap, v: Event)
    requires Sound(c) && ArrivalsOk(ArrivalsOf(c)) && Allowed(c, v) && AddReady(c) && !StaleHarvest(c, v)
    requires v.HwWrite? || v.HarvestEvent? || v.TakeEvent? || v.PushEvent?
    ensures Bad(Next(c, v)) || ArrivalsOk(ArrivalsOf(Next(c, v)))
  {
    match v
    case HwWrite(_, _, _) => HwWriteArrives(c, v);
    case HarvestEvent(sick) => HarvestArrives(c, sick);
    case TakeEvent => TakeArrives(c);
    case PushEvent => PushArrives(c);
  }

  /** What concerns neither the ring's descriptors nor the producer's variables. */
  lemma WriterSame(c: Cap, v: Event)
    requires Inv(c.s) && RingOk(c.ch.ring) && Allowed(c, v) && AddReady(c)
    requires v.PopEvent? || v.AddEvent? || v.EngineEvent? || StopControl(v)
    ensures SameArrivals(ArrivalsOf(c), ArrivalsOf(Next(c, v)))
  {
    match v {
      case PopEvent => PopArrivals(c);
      case AddEvent => AddArrivals(c);
      case EngineEvent(a) => EngineArrivals(c, a);
      case _ => ControlArrivals(c, v);
    }
  }

  lemma WriterArrives(c: Cap, v: Event)
    requires Inv(c.s) && RingOk(c.ch.ring) && ArrivalsOk(ArrivalsOf(c)) && Allowed(c, v) && AddReady(c)
    requires v.PopEvent? || v.AddEvent? || v.EngineEvent? || StopControl(v)
    ensures ArrivalsOk(ArrivalsOf(Next(c, v)))
  {
    WriterSame(c, v);
    SameKeeps(ArrivalsOf(c), ArrivalsOf(Next(c, v)));
  }

  lemma ReportArrives(c: Cap, i: nat, k: nat, sick: bool)
    requires OwnersOk(c) && Shape(c.s.e) && ArrivalsOk(ArrivalsOf(c)) && Allowed(c, ReportEvent(i, k, sick))
    ensures Bad(ReportSlot(c, i, k, sick)) || ArrivalsOk(ArrivalsOf(ReportSlot(c, i, k, sick)))
  {
    var t := ReportSlot(c, i, k, sick);
    if !Bad(t) {
      ReportEffect(c, i, k, sick);
      ReportArrivals(c, t, i, k, sick);
      if SameArrivals(ArrivalsOf(c), ArrivalsOf(t)) { SameKeeps(ArrivalsOf(c), ArrivalsOf(t)); }
      else { RequeuedKeeps(ArrivalsOf(c), ArrivalsOf(t), c.h.busy[k].slot); }
    }
  }

  lemma EventArrives(c: Cap, v: Event)
    requires Sound(c) && ArrivalsOk(ArrivalsOf(c)) && Allowed(c, v) && !StaleHarvest(c, v)
    ensures AddReady(c)
    ensures Bad(Next(c, v)) || (Sound(Next(c, v)) && ArrivalsOk(ArrivalsOf(Next(c, v))))
  {
    EventKeeps(c, v);
    if v.HwWrite? || v.HarvestEvent? || v.TakeEvent? || v.PushEvent? { ProducerArrives(c, v); }
    else if v.ReportEvent? { ReportArrives(c, v.i, v.k, v.sick); }
    else { WriterArrives(c, v); }
  }

  lemma {:induction false} LeadsArrives(c: Cap, vs: seq<Event>, d: Cap)
    requires Sound(c) && ArrivalsOk(ArrivalsOf(c)) && !Bad(c) && Leads(c, vs, d) && !Bad(d)
    ensures ArrivalsOk(ArrivalsOf(d))
    decreases vs
  {
    if vs != [] {
      EventArrives(c, vs[0]);
      assert !Bad(Next(c, vs[0]));
      LeadsArrives(Next(c, vs[0]), vs[1..], d);
    }
  }

  lemma CapturedArrives(d: Cap)
    requires SomeCaptureLeads(d) && !Bad(d)
    ensures ArrivalsOk(ArrivalsOf(d))
  {
    var c, vs :| Start(c) && Leads(c, vs, d);
    StartSound(c);
    StartArrivals(c);
    LeadsArrives(c, vs, d);
  }

  /** At the producer's loop head nothing is between the batch and the file. */
  lemma LoopHead(d: Cap)
    requires OwnersOk(d) && ArrivalsOk(ArrivalsOf(d)) && d.p.stage == Collecting && d.p.batch == []
    ensures d.ch.ring.sequence <= |d.h.arrived| && d.h.stream == Joined(d.h.arrived[..d.ch.ring.sequence])
  {
  }

  /** The stream is what the hardware delivered, in the order in which it delivered it: at the producer's loop
      head it is the descriptors harvested so far, in order of arrival, without those whose bytes do not fill
      sectors. Every harvested descriptor has arrived. */
  lemma StreamIsArrived(d: Cap)
    requires Captured(d) && d.p.stage == Collecting && d.p.batch == []
    ensures d.ch.ring.sequence <= |d.h.arrived|
    ensures d.h.stream == Joined(d.h.arrived[..d.ch.ring.sequence])
  {
    CapturedArrives(d);
    CapturedSound(d);
    LoopHead(d);
  }

  /** End to end: once everything that arrived was harvested and written, the disk holds all of it. */
  lemma DiskHoldsArrived(d: Cap, s: nat)
    requires Captured(d) && CaptureTheorems.Drained(d) && d.p.stage == Collecting && d.p.batch == []
    requires d.ch.ring.sequence == |d.h.arrived|
    requires (s + 1) * SECTOR_BYTES <= |Joined(d.h.arrived)|
    ensures d.s.w.ssd(d.h.start + s) == FileSector(Joined(d.h.arrived), s)
  {
    StreamIsArrived(d);
    assert d.h.arrived[..|d.h.arrived|] == d.h.arrived;
    DiskHoldsStream(d);
    assert d.s.w.ssd(d.h.start + s) == FileSector(d.h.stream, s);
  }
}

/** Why the captures of `CaptureTheorems` exclude the harvest of a stale descriptor. With slots completed out
    of order, as the cross-slot writer does, a descriptor whose Completed bit was never cleared is harvested
    again; if its slot completes before the push, the push accepts it and the hardware overwrites the slot
    while it waits to be written. */
module StaleDescriptor {
  import opened Media
  import opened NvmeTables
  import opened EngineModel
  import opened EngineSafety
  import opened TwoSlots
  import opened DmaRing
  import opened SlotTable
  import opened WriteQueue
  import opened Capture
  import opened CaptureInvariant
  import opened CaptureTheorems
  import opened OutOfOrder
  import opened StaleQueue

  /** Where the run is: queue and ring, memory, items with the writer, length of the stream. */
  ghost predicate Stands(c: Cap, q: Queue, ring: Ring, ddr: Ddr, busy: seq<Item>, length: nat) {
    && Idle(c) && c.geo == GEO && c.ch == Channel(q, ring) && c.s.w.ddr == ddr && |c.h.arrived| == 2
    && c.h.busy == busy && !c.halted && c.h.start == 0 && |c.h.stream| == length
  }

  // ---- Effects of single events ----

  lemma HarvestNext(c: Cap)
    requires !c.halted && RingOk(c.ch.ring) && c.ch.ring.hwCount > 0 && c.ch.ring.status[c.ch.ring.next] == FULL
    ensures var t, ring := HarvestStep(c, false), c.ch.ring;
            && t == c.(ch := t.ch, p := t.p, h := c.h.(owned := t.h.owned)) && t.ch.q == c.ch.q
            && t.ch.ring == ring.(next := (ring.next + 1) % |ring.status|, hwCount := ring.hwCount - 1, sequence := ring.sequence + 1)
            && t.p == c.p.(batch := c.p.batch + [HarvestItem(ring.next, 512, ring.sequence)])
  {
  }

  lemma Harvest1(c: Cap) returns (d: Cap)
    requires Idle(c) && Shape(c.s.e) && c.s.e.state == Running && c.p.stage == Collecting && |c.p.batch| < BATCH_MAX
    requires !c.halted && c.ch.ring.hwCount > 0 && c.ch.ring.status[c.ch.ring.next] == FULL
    ensures SomeRun(d) && d == HarvestStep(c, false)
  {
    d := HarvestStep(c, false);
    HarvestNext(c);
    GoStill(c, HarvestEvent(false), d);
  }

  lemma TakeOne(c: Cap, it: Item)
    requires c.geo == GEO && c.p.batch != [] && c.p.batch[0] == HarvestItem(it.slot, 512, it.chunkIndex) && it in [FIRST, SECOND, AGAIN]
    requires it.fileOffset == c.p.captured + SumBytes(c.p.pending) && it.startLba == c.p.nextLba + Capture.SumSectors(c.p.pending)
    requires c.p.harvested <= 1024
    ensures TakeStep(c) == c.(p := c.p.(batch := c.p.batch[1..], pending := c.p.pending + [it], harvested := c.p.harvested + 512))
  {
    assert NewItem(c, c.p.batch[0]) == it;
  }

  lemma Take1(c: Cap, it: Item) returns (d: Cap)
    requires Idle(c) && Shape(c.s.e) && c.s.e.state == Running && c.p.stage == Sorting && c.p.batch != []
    requires c.geo == GEO && c.p.batch[0] == HarvestItem(it.slot, 512, it.chunkIndex) && it in [FIRST, SECOND, AGAIN]
    requires it.fileOffset == c.p.captured + SumBytes(c.p.pending) && it.startLba == c.p.nextLba + Capture.SumSectors(c.p.pending)
    requires c.p.harvested <= 1024
    ensures Idle(d) && d == c.(p := c.p.(batch := c.p.batch[1..], pending := c.p.pending + [it], harvested := c.p.harvested + 512))
  {
    TakeOne(c, it);
    d := TakeStep(c);
    GoStill(c, TakeEvent, d);
  }

  lemma Sort1(c: Cap) returns (d: Cap)
    requires Idle(c) && Shape(c.s.e) && c.s.e.state == Running && c.p.stage == Collecting && c.p.batch != []
    ensures Idle(d) && d == c.(p := c.p.(stage := Sorting))
  {
    d := c.(p := c.p.(stage := Sorting));
    GoStill(c, SortEvent, d);
  }

  lemma {:induction false} StreamLength(stream: seq<Byte>, ddr: Ddr, items: seq<Item>)
    ensures |StreamAfter(stream, ddr, items)| == |stream| + SumBytes(items)
    decreases items
  {
    if items != [] { StreamLength(stream, ddr, items[..|items| - 1]); }
  }

  /** The sorted items are pushed and accepted. */
  lemma Push1(c: Cap, after: Queue, bytes: nat, sectors: nat) returns (d: Cap)
    requires Idle(c) && Shape(c.s.e) && c.s.e.state == Running && c.p.stage == Sorting && c.p.batch == []
    requires BatchOk(c.geo, c.ch.q, c.p.pending) && PushBatch(c.geo, c.ch.q, c.p.pending) == after && !after.error
    requires SumBytes(c.p.pending) == bytes && Capture.SumSectors(c.p.pending) == sectors
    requires c.p.captured + bytes <= 4096 && c.p.nextLba + sectors <= 4096
    ensures Idle(d) && d == c.(ch := Channel(after, c.ch.ring), p := d.p, h := d.h)
    ensures d.p == Producer(Collecting, [], [], c.p.captured + bytes, c.p.nextLba + sectors, c.p.harvested, c.p.unqueued)
    ensures d.h.busy == c.h.busy && d.h.arrived == c.h.arrived && d.h.start == c.h.start
    ensures d.h.stream == StreamAfter(c.h.stream, c.s.w.ddr, c.p.pending) && |d.h.stream| == |c.h.stream| + bytes
  {
    d := PushStep(c);
    StreamLength(c.h.stream, c.s.w.ddr, c.p.pending);
    GoStill(c, PushEvent, d);
  }

  /** The oldest item is popped. */
  lemma Pop1(c: Cap) returns (d: Cap)
    requires Idle(c) && Shape(c.s.e) && CanAccept(c.s.e) && c.s.phase == Outside && c.ch.q.fifo != []
    requires c.ch.q.fifo[0].slot < |c.ch.q.slots| && c.ch.q.slots[c.ch.q.fifo[0].slot] == ReadyForNvme
    ensures SomeRun(d)
    ensures var it := c.ch.q.fifo[0];
            d == c.(ch := c.ch.(q := c.ch.q.(fifo := c.ch.q.fifo[1..], slots := c.ch.q.slots[it.slot := NvmeBusy])),
                    held := Some(it), h := c.h.(busy := c.h.busy + [it]))
  {
    d := PopStep(c);
    GoStill(c, PopEvent, d);
  }

  lemma AddOne(c: Cap, x: Req)
    requires c.geo == GEO && |c.ch.q.slots| == 2 && c.held.Some? && c.held.value in [FIRST, SECOND, AGAIN] && ReqOf(c.held.value) == x
    requires Shape(c.s.e) && Enabled(c.s, Add(x)) && JudgeAdd(c.s.e, x).Placed?
    ensures AddHeldStep(c) == c.(s := EngineModel.Apply(c.s, Add(x)), held := None)
  {
  }

  lemma AddAt(c: Cap, r: Req, p: Progress, q: Req, o: Progress, x: Req) returns (t: Sys)
    requires SomeRun(c) && x.sectors == 1
    requires OutOfOrder.At(c.s, Outside, r, p, q, o) && (p == Gone || (p == Fresh && o == Gone)) && Enabled(c.s, Add(x))
    requires JudgeAdd(c.s.e, x) == Placed(if p == Gone then 0 else 1)
    ensures t == EngineModel.Apply(c.s, Add(x)) && Inv(t) && t.w == c.s.w
    ensures if p == Gone then OutOfOrder.At(t, Outside, x, Fresh, q, o) else OutOfOrder.At(t, Outside, r, p, x, Fresh)
  {
    RunInv(c);
    AddServed(c.s, r, p, q, o, x);
    t := EngineModel.Apply(c.s, Add(x));
  }

  lemma AddGoes(c: Cap, x: Req, t: Sys) returns (d: Cap)
    requires SomeRun(c) && RingOk(c.ch.ring) && !c.failed && !c.ch.q.error && c.geo == GEO && |c.ch.q.slots| == 2
    requires c.held.Some? && c.held.value in [FIRST, SECOND, AGAIN] && ReqOf(c.held.value) == x
    requires Shape(c.s.e) && c.s.e.state == Running && c.s.phase == Outside && Enabled(c.s, Add(x)) && JudgeAdd(c.s.e, x).Placed?
    requires t == EngineModel.Apply(c.s, Add(x)) && Inv(t)
    ensures SomeRun(d) && d == c.(s := t, held := None)
  {
    AddOne(c, x);
    d := AddHeldStep(c);
    Go(c, AddEvent, d);
  }

  /** The held item is handed to the engine. */
  lemma Add1(c: Cap, r: Req, p: Progress, q: Req, o: Progress, x: Req) returns (d: Cap)
    requires SomeRun(c) && RingOk(c.ch.ring) && !c.failed && !c.ch.q.error && c.geo == GEO && |c.ch.q.slots| == 2
    requires c.held.Some? && c.held.value in [FIRST, SECOND, AGAIN] && ReqOf(c.held.value) == x && x.sectors == 1
    requires OutOfOrder.At(c.s, Outside, r, p, q, o) && (p == Gone || (p == Fresh && o == Gone)) && Enabled(c.s, Add(x))
    requires JudgeAdd(c.s.e, x) == Placed(if p == Gone then 0 else 1)
    ensures Idle(d) && d == c.(s := d.s, held := None) && d.s.w == c.s.w
    ensures if p == Gone then OutOfOrder.At(d.s, Outside, x, Fresh, q, o) else OutOfOrder.At(d.s, Outside, r, p, x, Fresh)
  {
    var t := AddAt(c, r, p, q, o, x);
    d := AddGoes(c, x, t);
  }

  lemma ReportAt(c: Cap, r: Req, p: Progress, q: Req, o: Progress, i: nat) returns (t: Sys)
    requires SomeRun(c) && OutOfOrder.At(c.s, Reporting, r, p, q, o) && i <= 1 && (if i == 0 then p == Done else o == Done)
    ensures Enabled(c.s, Report(i, true)) && c.s.e.contexts[i].failed == 0
    ensures t == EngineModel.Apply(c.s, Report(i, true)) && Inv(t) && t.w == c.s.w
    ensures if i == 0 then OutOfOrder.At(t, Reporting, r, Gone, q, o) else OutOfOrder.At(t, Reporting, r, p, q, Gone)
  {
    RunInv(c);
    ReportServed(c.s, r, p, q, o, i);
    t := EngineModel.Apply(c.s, Report(i, true));
  }

  lemma ReportGoes(c: Cap, i: nat, k: nat, it: Item, t: Sys) returns (d: Cap)
    requires Idle(c) && Shape(c.s.e) && c.s.e.state == Running && Enabled(c.s, Report(i, true)) && c.s.e.contexts[i].failed == 0
    requires k < |c.h.busy| && c.h.busy[k] == it == ItemOf(c.s.e.reqs[i]) && Complete(c.ch.q, c.ch.ring, it, false).ok
    requires t == EngineModel.Apply(c.s, Report(i, true)) && Inv(t)
    ensures SomeRun(d)
    ensures d == c.(ch := After(Complete(c.ch.q, c.ch.ring, it, false)), s := t, h := c.h.(busy := Without(c.h.busy, k), owned := d.h.owned))
  {
    d := ReportSlot(c, i, k, false);
    Go(c, ReportEvent(i, k, false), d);
  }

  /** A slot is reported and requeued. */
  lemma Report1(c: Cap, r: Req, p: Progress, q: Req, o: Progress, i: nat, k: nat, it: Item) returns (d: Cap)
    requires Idle(c) && OutOfOrder.At(c.s, Reporting, r, p, q, o) && i <= 1 && (if i == 0 then p == Done else o == Done)
    requires k < |c.h.busy| && c.h.busy[k] == it == ItemOf(c.s.e.reqs[i]) && Complete(c.ch.q, c.ch.ring, it, false).ok
    ensures var f := Complete(c.ch.q, c.ch.ring, it, false);
            && SomeRun(d) && d == c.(ch := After(f), s := d.s, h := c.h.(busy := Without(c.h.busy, k), owned := d.h.owned)) && d.s.w == c.s.w
    ensures if i == 0 then OutOfOrder.At(d.s, Reporting, r, Gone, q, o) else OutOfOrder.At(d.s, Reporting, r, p, q, Gone)
  {
    var t := ReportAt(c, r, p, q, o, i);
    d := ReportGoes(c, i, k, it, t);
  }

  lemma OthersFree(e: Engine, r: Req, p: Progress, q: Req, o: Progress, slot: nat)
    requires Two(e, r, p, q, o) && (p != Gone ==> r.slot != slot) && (o != Gone ==> q.slot != slot)
    ensures !SlotActive(e, slot)
  {
  }

  lemma FirstPlaced(s: Sys, x: Req)
    requires OutOfOrder.At(s, Outside, REQ0, Gone, REQ1, Gone) && x in [REQ0, REQ2]
    ensures CanAccept(s.e) && Enabled(s, Add(x)) && JudgeAdd(s.e, x) == Placed(0)
  {
    assert FirstInactive(s.e.active, 0) == 0;
    OthersFree(s.e, REQ0, Gone, REQ1, Gone, 0);
  }

  lemma SecondPlaced(s: Sys)
    requires OutOfOrder.At(s, Outside, REQ0, Fresh, REQ1, Gone)
    ensures CanAccept(s.e) && Enabled(s, Add(REQ1)) && JudgeAdd(s.e, REQ1) == Placed(1)
  {
    assert s.e.active[0] && !s.e.active[1];
    OthersFree(s.e, REQ0, Fresh, REQ1, Gone, 1);
  }

  // ---- The run ----

  /** The hardware delivers zeros, and later ones into the first slot. */
  function Zeros(): Ddr {
    (addr: nat) => 0
  }

  function Ones(): Ddr {
    (addr: nat) => if addr < 512 then 1 else 0
  }

  function Begun(disk: Disk): Cap {
    Cap(GEO, Channel(WriteQueue.Created(2).(worker := WRunning), Started(2)),
        Sys(EngineModel.Created(CFG, 1), World(map[], disk, Zeros()), Shadow(disk, disk, []), Outside),
        None, Producer(Collecting, [], [], 0, 0, 0, 0), false, false,
        Record(AllSlots(2), [], [], [], [], disk, 0, disk))
  }

  lemma BegunRuns(disk: Disk)
    ensures Idle(Begun(disk)) && OutOfOrder.At(Begun(disk).s, Outside, REQ0, Gone, REQ1, Gone)
    ensures Begun(disk).ch == Channel(QueueOf([DmaWritable, DmaWritable], [], 0, 0, 0), RingOf([CLEARED, CLEARED], 0, 2, 0, 1))
  {
    var c := Begun(disk);
    assert ConfigOk(CFG) && Start(c);
    Begins(c);
    assert c.ch.q.slots == [DmaWritable, DmaWritable] && c.ch.ring.status == [CLEARED, CLEARED];
  }

  lemma Fill1(c: Cap, slot: nat) returns (d: Cap)
    requires Idle(c) && Shape(c.s.e) && c.s.e.state == Running && !c.halted && |c.ch.ring.status| == 2
    requires slot == |c.h.arrived| % 2 && !c.ch.ring.status[slot].completed
    ensures Idle(d) && d == c.(ch := c.ch.(ring := c.ch.ring.(status := c.ch.ring.status[slot := FULL])), h := c.h.(arrived := d.h.arrived))
    ensures |d.h.arrived| == |c.h.arrived| + 1
  {
    var v := HwWrite(slot, c.s.w.ddr, FULL);
    assert c.s.(w := c.s.w.(ddr := c.s.w.ddr)) == c.s;
    d := Next(c, v);
    GoStill(c, v, d);
  }

  /** Both descriptors are filled and harvested. */
  lemma HarvestedBoth(disk: Disk) returns (d: Cap)
    ensures Stands(d, QueueOf([DmaWritable, DmaWritable], [], 0, 0, 0), RingOf([FULL, FULL], 0, 0, 2, 1), Zeros(), [], 0)
    ensures OutOfOrder.At(d.s, Outside, REQ0, Gone, REQ1, Gone)
    ensures d.p == Producer(Collecting, [HarvestItem(0, 512, 0), HarvestItem(1, 512, 1)], [], 0, 0, 0, 0)
  {
    BegunRuns(disk);
    var c := Fill1(Begun(disk), 0);
    assert c.ch.ring.status == [FULL, CLEARED];
    c := Fill1(c, 1);
    assert c.ch.ring.status == [FULL, FULL];
    HarvestNext(c);
    c := Harvest1(c);
    HarvestNext(c);
    d := Harvest1(c);
  }

  lemma OneSectors(items: seq<Item>, it: Item)
    requires items == [it]
    ensures Capture.SumSectors(items) == it.sectors
  {
    assert items[..|items| - 1] == [];
  }

  lemma TwoSectors(items: seq<Item>, it: Item, jt: Item)
    requires items == [it, jt]
    ensures Capture.SumSectors(items) == it.sectors + jt.sectors
  {
    assert items[..|items| - 1] == [it];
    OneSectors(items[..|items| - 1], it);
  }

  /** Both are sorted. */
  lemma SortedBoth(disk: Disk) returns (d: Cap)
    ensures Stands(d, QueueOf([DmaWritable, DmaWritable], [], 0, 0, 0), RingOf([FULL, FULL], 0, 0, 2, 1), Zeros(), [], 0)
    ensures OutOfOrder.At(d.s, Outside, REQ0, Gone, REQ1, Gone)
    ensures d.p == Producer(Sorting, [], [FIRST, SECOND], 0, 0, 1024, 0)
  {
    var c := HarvestedBoth(disk);
    c := Sort1(c);
    c := Take1(c, FIRST);
    assert c.p.batch == [HarvestItem(1, 512, 1)] && c.p.pending == [FIRST];
    OneSum(c.p.pending, FIRST);
    OneSectors(c.p.pending, FIRST);
    d := Take1(c, SECOND);
    assert d.p.batch == [] && d.p.pending == [FIRST, SECOND];
  }

  lemma PushBoth(c: Cap, q: Queue) returns (d: Cap)
    requires Idle(c) && Shape(c.s.e) && c.s.e.state == Running && c.geo == GEO && c.ch.q == q
    requires q.slots == [DmaWritable, DmaWritable] && q.fifo == [] && q.buffered == 0 && q.queued == 0
    requires c.p == Producer(Sorting, [], [FIRST, SECOND], 0, 0, 1024, 0)
    ensures Idle(d) && d.geo == c.geo && d.s == c.s && d.halted == c.halted && d.ch.ring == c.ch.ring
    ensures d.ch.q == q.(slots := [ReadyForNvme, ReadyForNvme], fifo := [FIRST, SECOND], buffered := 1024, queued := 2)
    ensures d.p == Producer(Collecting, [], [], 1024, 2, 1024, 0)
    ensures d.h.busy == c.h.busy && d.h.arrived == c.h.arrived && d.h.start == c.h.start && |d.h.stream| == |c.h.stream| + 1024
  {
    var items := c.p.pending;
    PushTwo(q, items);
    TwoSum(items, FIRST, SECOND);
    TwoSectors(items, FIRST, SECOND);
    d := Push1(c, PushBatch(GEO, q, items), 1024, 2);
  }

  /** Both are queued. */
  lemma QueuedBoth(disk: Disk) returns (d: Cap)
    ensures Stands(d, QueueOf([ReadyForNvme, ReadyForNvme], [FIRST, SECOND], 1024, 2, 0), RingOf([FULL, FULL], 0, 0, 2, 1), Zeros(), [], 1024)
    ensures OutOfOrder.At(d.s, Outside, REQ0, Gone, REQ1, Gone) && d.p == Producer(Collecting, [], [], 1024, 2, 1024, 0)
  {
    var c := SortedBoth(disk);
    d := PushBoth(c, c.ch.q);
  }

  /** The first is with the engine. */
  lemma AddedFirst(disk: Disk) returns (d: Cap)
    ensures Stands(d, QueueOf([NvmeBusy, ReadyForNvme], [SECOND], 1024, 2, 0), RingOf([FULL, FULL], 0, 0, 2, 1), Zeros(), [FIRST], 1024)
    ensures OutOfOrder.At(d.s, Outside, REQ0, Fresh, REQ1, Gone) && d.p == Producer(Collecting, [], [], 1024, 2, 1024, 0)
  {
    var c := QueuedBoth(disk);
    FirstPlaced(c.s, REQ0);
    assert c.ch.q.slots[0 := NvmeBusy] == [NvmeBusy, ReadyForNvme] && c.ch.q.fifo[1..] == [SECOND];
    c := Pop1(c);
    assert c.h.busy == [FIRST];
    d := Add1(c, REQ0, Gone, REQ1, Gone, REQ0);
  }

  /** Both are. */
  lemma AddedBoth(disk: Disk) returns (d: Cap)
    ensures Stands(d, QueueOf([NvmeBusy, NvmeBusy], [], 1024, 2, 0), RingOf([FULL, FULL], 0, 0, 2, 1), Zeros(), [FIRST, SECOND], 1024)
    ensures OutOfOrder.At(d.s, Outside, REQ0, Fresh, REQ1, Fresh) && d.p == Producer(Collecting, [], [], 1024, 2, 1024, 0)
  {
    var c := AddedFirst(disk);
    SecondPlaced(c.s);
    assert c.ch.q.slots[1 := NvmeBusy] == [NvmeBusy, NvmeBusy] && c.ch.q.fifo[1..] == [];
    c := Pop1(c);
    assert c.h.busy == [FIRST, SECOND];
    d := Add1(c, REQ0, Fresh, REQ1, Gone, REQ1);
  }

  // ---- Out of order ----

  /** The second slot is written and requeued; the first one is still being written. */
  lemma SecondReported(disk: Disk) returns (d: Cap)
    ensures Stands(d, QueueOf([NvmeBusy, DmaWritable], [], 512, 2, 1), RingOf([FULL, CLEARED], 0, 1, 2, 1), Zeros(), [FIRST], 1024)
    ensures OutOfOrder.At(d.s, Reporting, REQ0, Sent, REQ1, Gone) && d.p == Producer(Collecting, [], [], 1024, 2, 1024, 0)
  {
    var c := AddedBoth(disk);
    c := SecondFirst(c, REQ0, REQ1);
    CompleteSecond(c.ch.q, c.ch.ring);
    d := Report1(c, REQ0, Sent, REQ1, Done, 1, 1, SECOND);
    assert Without([FIRST, SECOND], 1) == [FIRST];
  }

  /** The first descriptor is harvested again while its slot is being written. */
  lemma HarvestedAgain(disk: Disk) returns (d: Cap)
    ensures Stands(d, QueueOf([NvmeBusy, DmaWritable], [], 512, 2, 1), RingOf([FULL, CLEARED], 1, 0, 3, 1), Zeros(), [FIRST], 1024)
    ensures OutOfOrder.At(d.s, Reporting, REQ0, Sent, REQ1, Gone)
    ensures d.p == Producer(Collecting, [HarvestItem(0, 512, 2)], [], 1024, 2, 1024, 0)
  {
    var c := SecondReported(disk);
    HarvestNext(c);
    assert StaleHarvest(c, HarvestEvent(false));
    d := Harvest1(c);
  }

  /** Now the first slot is written and requeued too. */
  lemma FirstReported(disk: Disk) returns (d: Cap)
    ensures Stands(d, QueueOf([DmaWritable, DmaWritable], [], 0, 2, 2), RingOf([CLEARED, CLEARED], 1, 1, 3, 0), Zeros(), [], 1024)
    ensures OutOfOrder.At(d.s, Reporting, REQ0, Gone, REQ1, Gone)
    ensures d.p == Producer(Collecting, [HarvestItem(0, 512, 2)], [], 1024, 2, 1024, 0)
  {
    var c := HarvestedAgain(disk);
    c := ThenFirst(c, REQ0, REQ1);
    CompleteFirst(c.ch.q, c.ch.ring);
    d := Report1(c, REQ0, Done, REQ1, Gone, 0, 0, FIRST);
    assert Without([FIRST], 0) == [];
  }

  lemma Resting(disk: Disk) returns (d: Cap)
    ensures Stands(d, QueueOf([DmaWritable, DmaWritable], [], 0, 2, 2), RingOf([CLEARED, CLEARED], 1, 1, 3, 0), Zeros(), [], 1024)
    ensures OutOfOrder.At(d.s, Outside, REQ0, Gone, REQ1, Gone)
    ensures d.p == Producer(Sorting, [], [AGAIN], 1024, 2, 1536, 0)
  {
    var c := FirstReported(disk);
    c := ToRefill(c, REQ0, Gone, REQ1, Gone);
    c := Leave(c, REQ0, Gone, REQ1, Gone);
    c := Sort1(c);
    d := Take1(c, AGAIN);
    assert d.p.batch == [] && d.p.pending == [AGAIN];
  }

  lemma LastSector(stream: seq<Byte>, items: seq<Item>)
    requires |stream| == 1024 && items == [AGAIN]
    ensures var after := StreamAfter(stream, Zeros(), items); |after| == 1536 && FileSector(after, 2) == SectorAt(Zeros(), 0)
    ensures SumBytes(items) == 512 && Capture.SumSectors(items) == 1
  {
    OneSum(items, AGAIN);
    OneSectors(items, AGAIN);
    assert items[..0] == [] && items[0] == AGAIN;
    var after := StreamAfter(stream, Zeros(), items);
    assert StreamAfter(stream, Zeros(), items[..0]) == stream;
    assert FileSector(after, 2) == ItemBytes(Zeros(), AGAIN) == SectorAt(Zeros(), 0);
  }

  /** The third sector of the stream is zeros. */
  predicate ThirdIsZero(stream: seq<Byte>) {
    |stream| == 1536 && FileSector(stream, 2) == SectorAt(Zeros(), 0)
  }

  lemma PushOnce(c: Cap, q: Queue) returns (d: Cap)
    requires Idle(c) && Shape(c.s.e) && c.s.e.state == Running && c.geo == GEO && c.ch.q == q && c.s.w.ddr == Zeros()
    requires q.slots == [DmaWritable, DmaWritable] && q.fifo == [] && q.buffered == 0 && q.queued == 2
    requires c.p == Producer(Sorting, [], [AGAIN], 1024, 2, 1536, 0) && |c.h.stream| == 1024
    ensures Idle(d) && d.geo == c.geo && d.s == c.s && d.halted == c.halted && d.ch.ring == c.ch.ring
    ensures d.ch.q == q.(slots := [ReadyForNvme, DmaWritable], fifo := [AGAIN], buffered := 512, queued := 3)
    ensures d.h.busy == c.h.busy && d.h.arrived == c.h.arrived && d.h.start == c.h.start && ThirdIsZero(d.h.stream)
  {
    var items := c.p.pending;
    PushAgain(q, items);
    LastSector(c.h.stream, items);
    d := Push1(c, PushBatch(GEO, q, items), 512, 1);
  }

  /** The push accepts the slot. */
  lemma QueuedAgain(disk: Disk) returns (d: Cap)
    ensures Stands(d, QueueOf([ReadyForNvme, DmaWritable], [AGAIN], 512, 3, 2), RingOf([CLEARED, CLEARED], 1, 1, 3, 0), Zeros(), [], 1536)
    ensures OutOfOrder.At(d.s, Outside, REQ0, Gone, REQ1, Gone) && ThirdIsZero(d.h.stream)
  {
    var c := Resting(disk);
    d := PushOnce(c, c.ch.q);
  }

  lemma MemoryServed(s: Sys)
    requires Inv(s) && OutOfOrder.At(s, Outside, REQ0, Gone, REQ1, Gone)
    ensures Inv(s.(w := s.w.(ddr := Ones()))) && OutOfOrder.At(s.(w := s.w.(ddr := Ones())), Outside, REQ0, Gone, REQ1, Gone)
  {
    assert forall i :: 0 <= i < CAPACITY ==> !s.e.active[i];
    StepKeeps(s, MemoryChange(Ones()));
  }

  /** The hardware writes into the slot that waits to be written. */
  lemma Overwritten(disk: Disk) returns (d: Cap)
    ensures Stands(d, QueueOf([ReadyForNvme, DmaWritable], [AGAIN], 512, 3, 2), RingOf([CLEARED, CLEARED], 1, 1, 3, 0), Ones(), [], 1536)
    ensures OutOfOrder.At(d.s, Outside, REQ0, Gone, REQ1, Gone) && ThirdIsZero(d.h.stream)
  {
    var c := QueuedAgain(disk);
    RunInv(c);
    MemoryServed(c.s);
    assert c.ch.ring.status[0 := CLEARED] == [CLEARED, CLEARED];
    d := c.(s := c.s.(w := c.s.w.(ddr := Ones())));
    Go(c, HwWrite(0, Ones(), CLEARED), d);
  }

  /** The slot is with the engine once more. */
  lemma AddedAgain(disk: Disk) returns (d: Cap)
    ensures Stands(d, QueueOf([NvmeBusy, DmaWritable], [], 512, 3, 2), RingOf([CLEARED, CLEARED], 1, 1, 3, 0), Ones(), [AGAIN], 1536)
    ensures OutOfOrder.At(d.s, Outside, REQ2, Fresh, REQ1, Gone) && ThirdIsZero(d.h.stream)
  {
    var c := Overwritten(disk);
    FirstPlaced(c.s, REQ2);
    assert c.ch.q.slots[0 := NvmeBusy] == [NvmeBusy, DmaWritable] && c.ch.q.fifo[1..] == [];
    c := Pop1(c);
    assert c.h.busy == [AGAIN];
    d := Add1(c, REQ0, Gone, REQ1, Gone, REQ2);
  }

  /** It is written; the disk has what the slot held by then. */
  lemma WrittenAgain(disk: Disk) returns (d: Cap)
    ensures Stands(d, QueueOf([NvmeBusy, DmaWritable], [], 512, 3, 2), RingOf([CLEARED, CLEARED], 1, 1, 3, 0), Ones(), [AGAIN], 1536)
    ensures OutOfOrder.At(d.s, Reporting, REQ2, Done, REQ1, Gone) && ThirdIsZero(d.h.stream)
    ensures d.s.w.ssd(2) == SectorAt(Ones(), 0)
  {
    var c := AddedAgain(disk);
    d := WriteAlone(c, REQ2, REQ1);
    RunInv(d);
    DoneIsStored(d.s, REQ2, Done, REQ1, Gone);
  }

  lemma ZerosAreNotOnes()
    ensures SectorAt(Zeros(), 0) != SectorAt(Ones(), 0)
  {
    assert SectorAt(Zeros(), 0)[0] == 0 && SectorAt(Ones(), 0)[0] == 1;
  }

  lemma Ended(disk: Disk) returns (d: Cap)
    ensures SomeRun(d) && !Bad(d) && CaptureTheorems.Drained(d) && d.h.start == 0
    ensures ThirdIsZero(d.h.stream) && d.s.w.ssd(2) == SectorAt(Ones(), 0)
  {
    var c := WrittenAgain(disk);
    CompleteAgain(c.ch.q, c.ch.ring);
    d := Report1(c, REQ2, Done, REQ1, Gone, 0, 0, AGAIN);
  }

  /** A capture in which every operation of both threads succeeds, which ends with the writer drained, and
      whose disk does not hold the stream: its third sector is wrong. */
  lemma StaleHarvestCorrupts(disk: Disk) returns (run: seq<Cap>, d: Cap)
    ensures RunTo(run, d) && !Bad(d) && CaptureTheorems.Drained(d)
    ensures |d.h.stream| == 1536 && d.s.w.ssd(d.h.start + 2) != FileSector(d.h.stream, 2)
  {
    d := Ended(disk);
    ZerosAreNotOnes();
    run :| RunTo(run, d);
  }
}

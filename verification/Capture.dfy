/** A continuous capture as one step system: the DMA hardware, the producer that harvests descriptors
    and queues them, the writer that feeds the cross-slot engine, and the SSD. Every locked section and
    every engine step is one event; events of the two threads and of the hardware interleave freely. */
module Capture {
  import opened Media
  import opened EngineModel
  import opened DmaRing
  import opened SlotTable
  import opened WriteQueue

  datatype Option<T> = None | Some(value: T)

  /** `Collecting`: the producer harvests a batch; `Sorting`: it goes through it. */
  datatype Stage = Collecting | Sorting

  /** What the producer thread keeps in its own variables. `pending` is the part of the batch to be
      pushed, `captured` and `nextLba` the end of the file so far, `harvested` and `unqueued` its counters. */
  datatype Producer = Producer(stage: Stage, batch: seq<HarvestItem>, pending: seq<Item>,
                               captured: nat, nextLba: nat, harvested: nat, unqueued: nat)

  /** What the run is compared with. `owned` are the descriptors given to the hardware and not harvested
      since, `arrived` the bytes of every descriptor completed, in the order in which the hardware completed
      them; `busy` are the items popped and not completed, `queued` every item ever accepted, `stream` the
      bytes held in them when they were pushed and `image` the disk that results from copying each item then;
      the capture began at LBA `start` with disk `before`. */
  datatype Record = Record(owned: set<nat>, arrived: seq<seq<Byte>>, busy: seq<Item>, queued: seq<Item>, stream: seq<Byte>,
                           image: Disk, start: nat, before: Disk)

  /** `held` is the item the writer has popped and not yet handed to the engine; `halted` means that the
      DMA channel was stopped; `failed` that some thread has given up. */
  datatype Cap = Cap(geo: Geometry, ch: Channel, s: Sys, held: Option<Item>, p: Producer,
                     halted: bool, failed: bool, h: Record)

  const BATCH_MAX: nat := 16

  function ReqOf(it: Item): Req {
    Req(it.slot, it.startLba, it.sectors, it.hwAddr, it.bytes, it.chunkIndex, it.fileOffset, it.mediaBytes)
  }

  /** The callback's view of a request. */
  function ItemOf(r: Req): Item {
    Item(r.slot, r.bytes, if r.mediaBytes != 0 then r.mediaBytes else r.sectors * SECTOR_BYTES,
         r.chunkIndex, r.fileOffset, r.startLba, r.sectors, r.hwAddr)
  }

  /** Some thread has seen an error. */
  predicate Bad(c: Cap) {
    c.failed || c.ch.q.error || c.s.e.state != Running
  }

  // ---- The bytes of an item ----

  function ItemBytes(ddr: Ddr, it: Item): (data: seq<Byte>)
    ensures |data| == it.bytes
    ensures forall i :: 0 <= i < it.bytes ==> data[i] == ddr(it.hwAddr + i)
  {
    seq(it.bytes, i requires 0 <= i < it.bytes => ddr(it.hwAddr + i))
  }

  /** The file after `items` were received, in order. */
  function StreamAfter(stream: seq<Byte>, ddr: Ddr, items: seq<Item>): seq<Byte> {
    if items == [] then stream
    else StreamAfter(stream, ddr, items[..|items| - 1]) + ItemBytes(ddr, items[|items| - 1])
  }

  /** The disk after `items` were copied to it, one after the other. */
  function DiskAfter(disk: Disk, ddr: Ddr, items: seq<Item>): Disk {
    if items == [] then disk
    else
      var it := items[|items| - 1];
      CopySectors(DiskAfter(disk, ddr, items[..|items| - 1]), it.startLba, it.sectors, ddr, it.hwAddr)
  }

  function SumSectors(items: seq<Item>): nat {
    if items == [] then 0 else SumSectors(items[..|items| - 1]) + items[|items| - 1].sectors
  }

  /** What a completed descriptor received; its buffer holds no more than `descBytes`. */
  function Received(geo: Geometry, slot: nat, ddr: Ddr, length: nat): (data: seq<Byte>)
    ensures |data| == Min(length, geo.descBytes)
    ensures forall i :: 0 <= i < |data| ==> data[i] == ddr(geo.hwBase + slot * geo.descBytes + i)
  {
    seq(Min(length, geo.descBytes), i requires 0 <= i < Min(length, geo.descBytes) => ddr(geo.hwBase + slot * geo.descBytes + i))
  }

  // ---- Events ----

  datatype Event =
    // The hardware writes into a descriptor's buffer and possibly completes it. It works through the ring
    // descriptor by descriptor.
    | HwWrite(slot: nat, ddr: Ddr, status: Status)
    // The producer.
    | HarvestEvent(sick: bool) | SortEvent | TakeEvent | PushEvent
    | StopEvent | LatchEvent | HaltEvent(reset: bool) | HarvestingEvent | FinishEvent
    // The writer.
    | PopEvent | AddEvent | EngineEvent(a: Action) | ReportEvent(i: nat, k: nat, sick: bool)

  /** The bus addresses of slot `slot`. */
  predicate InDdrSlot(geo: Geometry, slot: nat, addr: nat) {
    geo.hwBase + slot * geo.descBytes <= addr < geo.hwBase + slot * geo.descBytes + geo.descBytes
  }

  /** Engine steps that involve neither the queue nor the hardware's memory. */
  predicate WriterOnly(a: Action) {
    a.EnterIteration? || a.PollsDone? || a.ReportsDone? || a.RefillDone? || a.LeaveStep? || a.Poll? ||
    a.PollFailed? || a.Submit? || a.TimeOut? || a.RequestAbort? || a.Transfer?
  }

  ghost predicate Allowed(c: Cap, v: Event)
    requires RingOk(c.ch.ring) && Shape(c.s.e)
  {
    && !Bad(c)
    && match v
       case HwWrite(slot, ddr, _) =>
         && !c.halted && slot == |c.h.arrived| % |c.ch.ring.status| && !c.ch.ring.status[slot].completed
         && forall addr: nat :: !InDdrSlot(c.geo, slot, addr) ==> ddr(addr) == c.s.w.ddr(addr)
       case HarvestEvent(_) => c.p.stage == Collecting && |c.p.batch| < BATCH_MAX
       case SortEvent => c.p.stage == Collecting && c.p.batch != []
       case TakeEvent => c.p.stage == Sorting && c.p.batch != []
       case PushEvent => c.p.stage == Sorting && c.p.batch == []
       case StopEvent => true
       case LatchEvent => true
       case HaltEvent(_) => c.ch.ring.stopLatched
       case HarvestingEvent => c.ch.q.worker == WDmaQuiescing && c.halted
       case FinishEvent => c.ch.q.worker == WHarvesting && c.p.stage == Collecting && c.p.batch == []
       case PopEvent => c.held == None && CanAccept(c.s.e) && c.s.phase == Outside
       case AddEvent => c.held.Some? && c.s.phase == Outside
       case EngineEvent(a) => WriterOnly(a) && Enabled(c.s, a) && (a.EnterIteration? ==> c.held == None)
       case ReportEvent(i, k, _) =>
         && Enabled(c.s, Report(i, true)) && k < |c.h.busy| && c.h.busy[k] == ItemOf(c.s.e.reqs[i])
  }

  predicate InBatch(batch: seq<HarvestItem>, slot: nat) {
    exists i :: 0 <= i < |batch| && batch[i].slot == slot
  }

  /** A harvest of a descriptor that was harvested before and not requeued since: its slot is not
      DMA_WRITABLE, or it is already in the batch at hand. */
  predicate StaleHarvest(c: Cap, v: Event)
    requires RingOk(c.ch.ring)
  {
    var slot := c.ch.ring.next;
    && v.HarvestEvent? && HarvestOne(c.ch.ring, c.halted, v.sick).Got?
    && (slot >= |c.ch.q.slots| || c.ch.q.slots[slot] != DmaWritable || InBatch(c.p.batch, slot))
  }

  function HarvestStep(c: Cap, sick: bool): Cap
    requires RingOk(c.ch.ring)
  {
    match HarvestOne(c.ch.ring, c.halted, sick)
    case Empty(_) => c
    case Fault(_) => c.(failed := true)
    case Got(ring, item) =>
      c.(ch := c.ch.(ring := ring), p := c.p.(batch := c.p.batch + [item]), h := c.h.(owned := c.h.owned - {item.slot}))
  }

  /** The item made of a harvested descriptor whose bytes fill whole sectors. */
  function NewItem(c: Cap, x: HarvestItem): Item {
    Item(x.slot, x.bytes, BytesToSectors(x.bytes) * SECTOR_BYTES, x.sequence,
         c.p.captured + SumBytes(c.p.pending), c.p.nextLba + SumSectors(c.p.pending),
         BytesToSectors(x.bytes), c.geo.hwBase + x.slot * c.geo.descBytes)
  }

  /** One turn of the loop over the harvested batch: `storage_stop_tail_disposition` keeps only whole
      sectors, everything else is released and counted as not queued. */
  function TakeStep(c: Cap): Cap
    requires c.p.batch != []
  {
    var x := c.p.batch[0];
    var rest := c.(p := c.p.(batch := c.p.batch[1..]));
    var marked := rest.(ch := c.ch.(q := MarkFailed(c.ch.q, x.slot)), failed := true);
    if x.bytes == 0 || x.bytes > c.geo.descBytes || c.p.harvested + x.bytes > U64_MAX then marked
    else
      var counted := rest.(p := rest.p.(harvested := c.p.harvested + x.bytes));
      if BytesToSectors(x.bytes) * SECTOR_BYTES != x.bytes then
        var released := WriteQueue.Release(c.ch.q, x.slot);
        if c.p.unqueued + x.bytes > U64_MAX || x.slot >= |c.ch.q.slots| then counted.(failed := true)
        else counted.(ch := c.ch.(q := released), p := counted.p.(unqueued := c.p.unqueued + x.bytes))
      else if c.p.nextLba + SumSectors(c.p.pending) > U64_MAX || c.geo.hwBase + x.slot * c.geo.descBytes > U64_MAX then marked
      else counted.(p := counted.p.(pending := c.p.pending + [NewItem(c, x)]))
  }

  /** The push of the batch's items and the move of the end of the file. */
  function PushStep(c: Cap): Cap {
    var items := c.p.pending;
    var q := PushBatch(c.geo, c.ch.q, items);
    var p := Producer(Collecting, [], [], c.p.captured + SumBytes(items), c.p.nextLba + SumSectors(items),
                      c.p.harvested, c.p.unqueued);
    if items != [] && !BatchOk(c.geo, c.ch.q, items) then c.(ch := c.ch.(q := q), failed := true)
    else if c.p.captured + SumBytes(items) > U64_MAX || c.p.nextLba + SumSectors(items) > U64_MAX then
      c.(ch := c.ch.(q := q), failed := true)
    else
      c.(ch := c.ch.(q := q), p := p,
         h := c.h.(queued := c.h.queued + items, stream := StreamAfter(c.h.stream, c.s.w.ddr, items),
                   image := DiskAfter(c.h.image, c.s.w.ddr, items)))
  }

  function PopStep(c: Cap): Cap {
    var r := Pop(c.ch.q);
    var popped := c.(ch := c.ch.(q := r.0));
    match r.1
    case PopItem(item) => popped.(held := Some(item), h := c.h.(busy := c.h.busy + [item]))
    case PopError => popped.(failed := true)
    case _ => popped
  }

  /** `storage_slot_addresses` and `storage_zero_tail_padding`: an item whose payload does not fill its
      sectors cannot be padded. */
  predicate Writeable(geo: Geometry, n: nat, it: Item) {
    && it.slot < n && 0 < it.bytes == it.mediaBytes <= geo.descBytes
    && it.slot * geo.descBytes + it.mediaBytes <= geo.ringBytes
  }

  ghost function AddHeldStep(c: Cap): Cap
    requires c.held.Some? && Shape(c.s.e) && Enabled(c.s, Add(ReqOf(c.held.value)))
  {
    var r := ReqOf(c.held.value);
    if !Writeable(c.geo, |c.ch.q.slots|, c.held.value) then c.(failed := true)
    else if JudgeAdd(c.s.e, r).Placed? then c.(s := EngineModel.Apply(c.s, Add(r)), held := None)
    else c.(s := EngineModel.Apply(c.s, Add(r)), failed := true)
  }

  /** The report of a drained slot with `storage_complete_slot` as its callback. */
  ghost function ReportSlot(c: Cap, i: nat, k: nat, sick: bool): Cap
    requires RingOk(c.ch.ring) && Shape(c.s.e) && Enabled(c.s, Report(i, true)) && k < |c.h.busy|
  {
    if c.s.e.contexts[i].failed != 0 then c.(s := EngineModel.Apply(c.s, Report(i, true)))
    else
      var r := Complete(c.ch.q, c.ch.ring, ItemOf(c.s.e.reqs[i]), sick);
      var s := EngineModel.Apply(c.s, Report(i, r.ok));
      var slot := c.s.e.reqs[i].slot;
      if !r.ok then c.(ch := After(r), s := s, failed := true)
      else
        c.(ch := After(r), s := s,
           h := c.h.(busy := Without(c.h.busy, k),
                     owned := if slot < |r.q.slots| && r.q.slots[slot] == DmaWritable then c.h.owned + {slot} else c.h.owned))
  }

  /** The engine takes a held item only when the caller's side of `Add` is met; `HeldCanBeAdded` shows that
      it always is. */
  ghost predicate AddReady(c: Cap)
    requires Shape(c.s.e)
  {
    c.held.Some? ==> c.s.phase == Outside ==> Enabled(c.s, Add(ReqOf(c.held.value)))
  }

  ghost function Next(c: Cap, v: Event): Cap
    requires RingOk(c.ch.ring) && Shape(c.s.e) && Allowed(c, v) && AddReady(c)
  {
    match v
    case HwWrite(slot, ddr, status) =>
      c.(s := c.s.(w := c.s.w.(ddr := ddr)),
         ch := c.ch.(ring := c.ch.ring.(status := c.ch.ring.status[slot := status])),
         h := c.h.(arrived := if status.completed then c.h.arrived + [Received(c.geo, slot, ddr, status.length)] else c.h.arrived))
    case HarvestEvent(sick) => HarvestStep(c, sick)
    case SortEvent => c.(p := c.p.(stage := Sorting))
    case TakeEvent => TakeStep(c)
    case PushEvent => PushStep(c)
    case StopEvent => c.(ch := c.ch.(q := RequestStop(c.ch.q)))
    case LatchEvent => c.(ch := Channel(LatchQueue(c.ch.q), LatchStop(c.ch.ring)))
    case HaltEvent(reset) =>
      c.(halted := true, ch := c.ch.(ring := c.ch.ring.(hwCount := if reset then 0 else c.ch.ring.hwCount)))
    case HarvestingEvent => c.(ch := c.ch.(q := MarkHarvesting(c.ch.q)))
    case FinishEvent => c.(ch := c.ch.(q := Finish(c.ch.q)))
    case PopEvent => PopStep(c)
    case AddEvent => AddHeldStep(c)
    case EngineEvent(a) => c.(s := EngineModel.Apply(c.s, a))
    case ReportEvent(i, k, sick) => ReportSlot(c, i, k, sick)
  }
}

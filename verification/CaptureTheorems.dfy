/** Continuous captures end to end: what the disk holds, who owns which slot and which rejections cannot
    happen, over every interleaving of the hardware, the producer and the writer. */
module CaptureTheorems {
  import opened Media
  import opened NvmeTables
  import opened EngineModel
  import opened EngineInvariant
  import opened EngineSafety
  import opened DmaRing
  import opened SlotTable
  import opened WriteQueue
  import opened Capture
  import opened CaptureInvariant
  import opened CaptureSteps
  import opened CaptureWriter

  lemma ArrivalKeeps(c: Cap, v: Event)
    requires Sound(c) && Allowed(c, v) && AddReady(c) && !StaleHarvest(c, v)
    requires v.HwWrite? || v.HarvestEvent?
    ensures Bad(Next(c, v)) || Sound(Next(c, v))
  {
    match v
    case HwWrite(_, _, _) => HwWriteKeeps(c, v);
    case HarvestEvent(sick) => HarvestKeeps(c, sick);
  }

  lemma ProducerKeeps(c: Cap, v: Event)
    requires Sound(c) && Allowed(c, v) && AddReady(c)
    requires v.TakeEvent? || v.PushEvent?
    ensures Bad(Next(c, v)) || Sound(Next(c, v))
  {
    match v
    case TakeEvent => TakeKeeps(c);
    case PushEvent => PushKeeps(c);
  }

  lemma WriterKeeps(c: Cap, v: Event)
    requires Sound(c) && Allowed(c, v) && AddReady(c)
    requires v.PopEvent? || v.AddEvent? || v.EngineEvent? || v.ReportEvent?
    ensures Bad(Next(c, v)) || Sound(Next(c, v))
  {
    match v
    case PopEvent => PopKeeps(c);
    case AddEvent => AddKeepsSound(c);
    case EngineEvent(a) => EngineKeeps(c, a);
    case ReportEvent(i, k, sick) => ReportKeepsSound(c, i, k, sick);
  }

  /** Every event keeps the invariant unless a thread sees an error or a stale descriptor is harvested. */
  lemma EventKeeps(c: Cap, v: Event)
    requires Sound(c) && Allowed(c, v) && !StaleHarvest(c, v)
    ensures AddReady(c)
    ensures Bad(Next(c, v)) || Sound(Next(c, v))
  {
    HeldCanBeAdded(c);
    if v.PopEvent? || v.AddEvent? || v.EngineEvent? || v.ReportEvent? {
      WriterKeeps(c, v);
    } else if v.HwWrite? || v.HarvestEvent? {
      ArrivalKeeps(c, v);
    } else if v.TakeEvent? || v.PushEvent? {
      ProducerKeeps(c, v);
    } else {
      CaptureSteps.ControlKeeps(c, v);
    }
  }

  // ---- Runs ----

  /** `d` is reached from `c` by the events `vs`, each allowed in its turn (so no thread had seen an error
      before it) and none of them the harvest of a stale descriptor. */
  ghost predicate Leads(c: Cap, vs: seq<Event>, d: Cap)
    decreases vs
  {
    if vs == [] then d == c
    else
      && RingOk(c.ch.ring) && Shape(c.s.e) && Allowed(c, vs[0]) && !StaleHarvest(c, vs[0]) && AddReady(c)
      && Leads(Next(c, vs[0]), vs[1..], d)
  }

  ghost predicate SomeCaptureLeads(d: Cap) {
    exists c, vs :: Start(c) && Leads(c, vs, d)
  }

  /** Reached by a capture in which no thread has seen an error. (`RingOk` and `Shape` hold of every such
      state; they are here so that the statements below are well formed.) */
  ghost predicate Captured(d: Cap) {
    RingOk(d.ch.ring) && Shape(d.s.e) && !Bad(d) && SomeCaptureLeads(d)
  }

  lemma CapturedShape(d: Cap)
    requires SomeCaptureLeads(d) && !Bad(d)
    ensures Captured(d)
  {
    var c, vs :| Start(c) && Leads(c, vs, d);
    StartSound(c);
    LeadsKeeps(c, vs, d);
  }

  lemma {:induction false} LeadsKeeps(c: Cap, vs: seq<Event>, d: Cap)
    requires Sound(c) && !Bad(c) && Leads(c, vs, d) && !Bad(d)
    ensures Sound(d)
    decreases vs
  {
    if vs != [] {
      EventKeeps(c, vs[0]);
      assert !Bad(Next(c, vs[0]));
      LeadsKeeps(Next(c, vs[0]), vs[1..], d);
    }
  }

  lemma CapturedSound(d: Cap)
    requires Captured(d)
    ensures Sound(d)
  {
    var c, vs :| Start(c) && Leads(c, vs, d);
    StartSound(c);
    LeadsKeeps(c, vs, d);
  }

  // ---- The disk ----

  /** The writer has nothing left: `STORAGE_CROSS_SLOT_WRITER_DRAINED`. */
  predicate Drained(d: Cap) {
    d.held == None && d.ch.q.fifo == [] && d.s.e.activeCount == 0
  }

  lemma NothingWaits(d: Cap, l: nat)
    requires Sound(d) && !Bad(d) && Drained(d)
    ensures d.s.w.ssd(l) == d.h.image(l)
  {
    assert Backlog(d) == [];
    assert !InItems(Backlog(d), l);
    NoneActive(d.s.e.active, CAPACITY);
    assert !InActiveSlot(d.s.e.active, d.s.e.reqs, l);
  }

  /** End to end: once drained, the disk holds the received stream from the start LBA on, sector by
      sector and in order, and is unchanged everywhere else. */
  lemma DiskHoldsStream(d: Cap)
    requires Captured(d) && Drained(d)
    ensures |d.h.stream| == d.p.captured == (d.p.nextLba - d.h.start) * SECTOR_BYTES
    ensures forall s: nat {:trigger FileSector(d.h.stream, s)} :: (s + 1) * SECTOR_BYTES <= |d.h.stream| ==>
              d.s.w.ssd(d.h.start + s) == FileSector(d.h.stream, s)
    ensures forall l: nat :: l < d.h.start || d.p.nextLba <= l ==> d.s.w.ssd(l) == d.h.before(l)
  {
    CapturedSound(d);
    forall l: nat ensures d.s.w.ssd(l) == d.h.image(l) { NothingWaits(d, l); }
  }

  /** In every state of a run, drained or not, no LBA outside the file so far has changed. */
  lemma OutsideFileUntouched(d: Cap, l: nat)
    requires Captured(d) && (l < d.h.start || d.p.nextLba <= l)
    ensures d.s.w.ssd(l) == d.h.before(l)
  {
    CapturedSound(d);
    if InItems(Backlog(d), l) { BacklogInside(d, l); }
    if InActiveSlot(d.s.e.active, d.s.e.reqs, l) {
      var i :| 0 <= i < CAPACITY && d.s.e.active[i] && InSlot(d.s.e.reqs[i], l);
      ActiveInside(d, i, l);
    }
    assert d.h.image(l) == d.s.g.ref(l);
  }

  lemma BacklogInside(d: Cap, l: nat)
    requires Sound(d) && InItems(Backlog(d), l)
    ensures d.h.start <= l < d.p.nextLba
  {
    WithinBacklog(d);
  }

  lemma ActiveInside(d: Cap, i: nat, l: nat)
    requires Sound(d) && i < CAPACITY && d.s.e.active[i] && InSlot(d.s.e.reqs[i], l)
    ensures d.h.start <= l < d.p.nextLba
  {
    var k :| 0 <= k < |d.h.busy| && d.h.busy[k] == ItemOf(d.s.e.reqs[i]);
    assert Live(d)[k] == d.h.busy[k];
  }

  // ---- The layout of the file ----

  /** The items queued so far tile the LBAs and the bytes of the file, in the order in which they were
      harvested, and every harvested byte is queued or counted as not queued. */
  lemma FileLayout(d: Cap)
    requires Captured(d)
    ensures Chained(d.h.queued, d.h.start, 0)
    ensures d.p.nextLba == d.h.start + Capture.SumSectors(d.h.queued) && d.p.captured == SumBytes(d.h.queued)
    ensures forall j, k :: 0 <= j < k < |d.h.queued| ==> d.h.queued[j].chunkIndex < d.h.queued[k].chunkIndex
    ensures d.p.stage == Collecting ==> d.p.harvested == SumBytes(d.h.queued) + d.p.unqueued
  {
    CapturedSound(d);
    var xs := Numbers(d.h.queued) + Numbers(d.p.pending) + BatchNumbers(d.p.batch);
    assert forall k :: 0 <= k < |d.h.queued| ==> xs[k] == d.h.queued[k].chunkIndex;
  }

  // ---- Slots ----

  /** Between locked sections READY slots are exactly the FIFO's, NVME_BUSY slots exactly the held item's
      and the engine's, no slot is in transit, and the engine's slots are none of the hardware's. */
  lemma SlotOwnership(d: Cap, slot: nat)
    requires Captured(d) && slot < |d.ch.q.slots|
    ensures d.ch.q.slots[slot] == ReadyForNvme <==> HasSlot(d.ch.q.fifo, slot)
    ensures d.ch.q.slots[slot] == NvmeBusy <==> (d.held.Some? && d.held.value.slot == slot) || SlotActive(d.s.e, slot)
    ensures d.ch.q.slots[slot] == DmaWritable <==> slot in d.h.owned || InBatch(d.p.batch, slot) || HasSlot(d.p.pending, slot)
  {
    CapturedSound(d);
    if HasSlot(d.h.busy, slot) {
      var k :| 0 <= k < |d.h.busy| && d.h.busy[k].slot == slot;
      if d.held != Some(d.h.busy[k]) {
        var i :| 0 <= i < CAPACITY && d.s.e.active[i] && d.s.e.reqs[i] == ReqOf(d.h.busy[k]);
        assert d.s.e.reqs[i].slot == slot;
      }
    }
    if SlotActive(d.s.e, slot) {
      var i :| 0 <= i < CAPACITY && d.s.e.active[i] && d.s.e.reqs[i].slot == slot;
      assert HasItem(d.h.busy, ItemOf(d.s.e.reqs[i]));
    }
  }

  /** Memory of a command in flight belongs to an active slot. */
  lemma InFlightHeld(s: Sys, cid: nat, addr: nat) returns (i: nat)
    requires Inv(s) && cid in s.w.outstanding
    requires s.w.outstanding[cid].addr <= addr < s.w.outstanding[cid].addr + s.w.outstanding[cid].sectors * SECTOR_BYTES
    ensures i < CAPACITY && s.e.active[i] && Holds(s.e.reqs[i], addr)
  {
    var c := s.w.outstanding[cid];
    assert InTable(s.e.pending, cid, c);
    var k;
    k, i := CommandInSlot(s.e, cid, c, (addr - c.addr) / SECTOR_BYTES);
    assert ContextOk(s.e.cfg, s.e.contexts[i], s.e.reqs[i]);
  }

  lemma BusyHolds(d: Cap, j: nat, addr: nat)
    requires OwnersOk(d) && ItemsGood(d) && j < |d.h.busy| && Holds(ReqOf(d.h.busy[j]), addr)
    ensures var slot := d.h.busy[j].slot;
            slot < |d.ch.q.slots| && d.ch.q.slots[slot] == NvmeBusy && slot !in d.h.owned && InDdrSlot(d.geo, slot, addr)
  {
    assert Live(d)[j] == d.h.busy[j];
    ItemInItsSlot(d.geo, |d.ch.q.slots|, d.h.busy[j], addr);
    SlotTaken(d.h.busy, j);
  }

  lemma BusyFor(d: Cap, i: nat) returns (j: nat)
    requires Shape(d.s.e) && EngineOk(d) && i < CAPACITY && d.s.e.active[i]
    ensures j < |d.h.busy| && ReqOf(d.h.busy[j]) == d.s.e.reqs[i]
  {
    j :| 0 <= j < |d.h.busy| && d.h.busy[j] == ItemOf(d.s.e.reqs[i]);
  }

  lemma InFlightSlot(d: Cap, cid: nat, addr: nat) returns (slot: nat)
    requires Inv(d.s) && EngineOk(d) && OwnersOk(d) && ItemsGood(d) && cid in d.s.w.outstanding
    requires d.s.w.outstanding[cid].addr <= addr < d.s.w.outstanding[cid].addr + d.s.w.outstanding[cid].sectors * SECTOR_BYTES
    ensures slot < |d.ch.q.slots| && d.ch.q.slots[slot] == NvmeBusy && slot !in d.h.owned && InDdrSlot(d.geo, slot, addr)
  {
    var i := InFlightHeld(d.s, cid, addr);
    var j := BusyFor(d, i);
    BusyHolds(d, j, addr);
    slot := d.h.busy[j].slot;
  }

  /** No slot with a command in flight is writable, owned by the hardware or about to be queued again. */
  lemma InFlightNotWritable(d: Cap, cid: nat, addr: nat)
    requires Captured(d) && cid in d.s.w.outstanding
    requires d.s.w.outstanding[cid].addr <= addr < d.s.w.outstanding[cid].addr + d.s.w.outstanding[cid].sectors * SECTOR_BYTES
    ensures exists slot :: 0 <= slot < |d.ch.q.slots| && d.ch.q.slots[slot] == NvmeBusy && slot !in d.h.owned && InDdrSlot(d.geo, slot, addr)
  {
    CapturedSound(d);
    var slot := InFlightSlot(d, cid, addr);
  }

  // ---- What cannot happen ----

  /** The engine never rejects the item the writer holds: duplicate slots, overlapping LBAs, ranges and a
      full engine are all excluded. */
  lemma AddNeverRejected(d: Cap)
    requires Captured(d) && d.held.Some? && d.s.phase == Outside
    ensures Enabled(d.s, Add(ReqOf(d.held.value)))
    ensures JudgeAdd(d.s.e, ReqOf(d.held.value)).Placed?
  {
    CapturedSound(d);
    HeldCanBeAdded(d);
    HeldIsPlaced(d);
  }

  /** A batch is refused for its LBA range only. */
  lemma PushRefusedOnlyForLba(d: Cap)
    requires Captured(d) && Allowed(d, PushEvent) && d.p.pending != []
    requires d.p.harvested <= U64_MAX && d.ch.q.queued + |d.p.pending| <= U64_MAX
    ensures BatchOk(d.geo, d.ch.q, d.p.pending) <==> AllAddressed(d.geo, d.p.pending)
  {
    CapturedSound(d);
    PushExact(d);
  }

  /** A popped item is always there to be popped. */
  lemma PopNeverFails(d: Cap)
    requires Captured(d)
    ensures Pop(d.ch.q).1 != PopError
  {
    CapturedSound(d);
    PopKeepsLedger(d.ch.q, d.h.busy, d.p.captured);
  }

  lemma OwnedFewer(owned: set<nat>, slot: nat, n: nat)
    requires slot < n && slot !in owned && forall s :: s in owned ==> s < n
    ensures |owned| < n
  {
    SubsetSize(owned + {slot}, AllSlots(n));
  }

  /** Completing a reported slot fails exactly when the DMA channel shows an error while it is requeued. */
  lemma CompletionFailsOnlyOnSickChannel(d: Cap, i: nat, k: nat, sick: bool)
    requires Captured(d) && Allowed(d, ReportEvent(i, k, sick))
    ensures Complete(d.ch.q, d.ch.ring, d.h.busy[k], sick).ok <==> !(sick && d.ch.q.requeueEnabled && CanRequeue(d.ch.q.worker))
  {
    CapturedSound(d);
    SlotTaken(d.h.busy, k);
    var slot := d.h.busy[k].slot;
    OwnedFewer(d.h.owned, slot, |d.ch.q.slots|);
    CompleteVerdict(d.ch.q, d.ch.ring, d.h.busy, d.p.captured, k, sick);
  }

  /** A completed descriptor is harvested a second time exactly when its slot is not writable or is in the
      batch already; the hardware owns it in all other cases. */
  lemma HarvestOwnsExactly(d: Cap, sick: bool)
    requires Captured(d) && d.p.stage == Collecting && HarvestOne(d.ch.ring, d.halted, sick).Got?
    ensures StaleHarvest(d, HarvestEvent(sick)) <==> d.ch.ring.next !in d.h.owned
  {
    CapturedSound(d);
    HarvestExact(d, sick);
  }
}

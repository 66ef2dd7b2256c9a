/** Every event of a capture keeps the invariant of `CaptureInvariant` until a thread sees an error. */
module CaptureSteps {
  import opened Media
  import opened NvmeTables
  import opened EngineModel
  import opened EngineSafety
  import opened Modular
  import opened DmaRing
  import opened SlotTable
  import opened WriteQueue
  import opened Capture
  import opened CaptureInvariant
  import opened CaptureData

  // ---- The hardware writes ----

  lemma ItemInItsSlot(geo: Geometry, n: nat, it: Item, addr: nat)
    requires ItemGood(geo, n, it) && Holds(ReqOf(it), addr)
    ensures InDdrSlot(geo, it.slot, addr)
  {
  }

  /** A slot the software holds is out of the hardware's reach. */
  lemma HeldSlotUntouched(c: Cap, v: Event, it: Item, addr: nat)
    requires RingOk(c.ch.ring) && Shape(c.s.e) && Allowed(c, v) && v.HwWrite?
    requires OwnersOk(c) && ItemGood(c.geo, |c.ch.q.slots|, it)
    requires c.ch.q.slots[it.slot] == ReadyForNvme || c.ch.q.slots[it.slot] == NvmeBusy
    requires Holds(ReqOf(it), addr)
    ensures v.ddr(addr) == c.s.w.ddr(addr)
  {
    ItemInItsSlot(c.geo, |c.ch.q.slots|, it, addr);
    if InDdrSlot(c.geo, v.slot, addr) { SlotsApart(c.geo, v.slot, it.slot, addr); }
  }

  lemma LiveSlotState(c: Cap, k: nat)
    requires OwnersOk(c) && k < |Live(c)|
    ensures var it := Live(c)[k];
            it.slot < |c.ch.q.slots| && (c.ch.q.slots[it.slot] == ReadyForNvme || c.ch.q.slots[it.slot] == NvmeBusy)
  {
    if k < |c.h.busy| { SlotTaken(c.h.busy, k); } else { SlotTaken(c.ch.q.fifo, k - |c.h.busy|); }
  }

  lemma LiveUntouched(c: Cap, v: Event, k: nat, addr: nat)
    requires RingOk(c.ch.ring) && Shape(c.s.e) && Allowed(c, v) && v.HwWrite?
    requires OwnersOk(c) && ItemsGood(c) && k < |Live(c)| && Holds(ReqOf(Live(c)[k]), addr)
    ensures v.ddr(addr) == c.s.w.ddr(addr)
  {
    LiveSlotState(c, k);
    HeldSlotUntouched(c, v, Live(c)[k], addr);
  }

  lemma WaitingIsLive(c: Cap, k: nat) returns (j: nat)
    requires EngineOkHeld(c) && k < |Backlog(c)|
    ensures j < |Live(c)| && Live(c)[j] == Backlog(c)[k]
  {
    if c.held.Some? && k == 0 {
      j := HeldIsLive(c);
    } else {
      j := |c.h.busy| + (if c.held.Some? then k - 1 else k);
    }
  }

  predicate EngineOkHeld(c: Cap) {
    c.held.Some? ==> HasItem(c.h.busy, c.held.value)
  }

  lemma EngineMemoryUntouched(c: Cap, v: Event, addr: nat)
    requires RingOk(c.ch.ring) && Shape(c.s.e) && Allowed(c, v) && v.HwWrite?
    requires OwnersOk(c) && EngineOk(c) && ItemsGood(c) && HeldByEngine(c.s.e, addr)
    ensures v.ddr(addr) == c.s.w.ddr(addr)
  {
    var i :| 0 <= i < CAPACITY && c.s.e.active[i] && Holds(c.s.e.reqs[i], addr);
    var k :| 0 <= k < |c.h.busy| && c.h.busy[k] == ItemOf(c.s.e.reqs[i]);
    assert Live(c)[k] == c.h.busy[k];
    LiveUntouched(c, v, k, addr);
  }

  lemma HwWriteEngine(c: Cap, v: Event)
    requires Sound(c) && Allowed(c, v) && v.HwWrite?
    ensures Inv(c.s.(w := c.s.w.(ddr := v.ddr)))
  {
    forall addr: nat | HeldByEngine(c.s.e, addr) { EngineMemoryUntouched(c, v, addr); }
    StepKeeps(c.s, MemoryChange(v.ddr));
  }

  lemma HwWriteImage(c: Cap, v: Event)
    requires Sound(c) && Allowed(c, v) && v.HwWrite?
    ensures ImageOk(c.h.image, c.s.g.ref, v.ddr, Backlog(c))
  {
    forall k | 0 <= k < |Backlog(c)|
      ensures HoldsSlot(c.h.image, v.ddr, ReqOf(Backlog(c)[k]))
    {
      var j := WaitingIsLive(c, k);
      forall addr: nat | Holds(ReqOf(Backlog(c)[k]), addr)
        ensures v.ddr(addr) == c.s.w.ddr(addr)
      {
        LiveUntouched(c, v, j, addr);
      }
      MemoryChangeKeepsSlot(c.h.image, c.s.w.ddr, v.ddr, ReqOf(Backlog(c)[k]));
    }
  }

  lemma HwWriteKeeps(c: Cap, v: Event)
    requires Sound(c) && Allowed(c, v) && v.HwWrite? && AddReady(c)
    ensures Sound(Next(c, v))
  {
    HwWriteEngine(c, v);
    HwWriteImage(c, v);
    var t := Next(c, v);
    assert Backlog(t) == Backlog(c) && Live(t) == Live(c);
  }

  // ---- The engine alone ----

  /** What the queue side sees of an engine step. */
  lemma WriterOnlyEffect(s: Sys, a: Action)
    requires Inv(s) && Enabled(s, a) && WriterOnly(a)
    ensures var t := EngineModel.Apply(s, a);
            && t.e.active == s.e.active && t.e.reqs == s.e.reqs && t.e.activeCount == s.e.activeCount
            && t.e.cfg == s.e.cfg && t.w.ddr == s.w.ddr && t.g.ref == s.g.ref
  {
    match a
    case Submit(answer) => var i, k, p, nextCid, rr := SubmitCases(s, answer);
    case Poll(cid, error) => if CidLive(s.e.pending, cid) { var k, j := CompletionRetires(s, cid, error); }
    case _ =>
  }

  /** While the writer holds an item the engine rests. */
  lemma RestsOutside(s: Sys, a: Action)
    requires Shape(s.e) && Enabled(s, a) && WriterOnly(a) && s.phase == Outside && s.e.state == Running && !a.EnterIteration?
    ensures EngineModel.Apply(s, a).phase == Outside
  {
  }

  lemma EngineKeeps(c: Cap, a: Action)
    requires Sound(c) && Allowed(c, EngineEvent(a)) && AddReady(c)
    ensures Sound(Next(c, EngineEvent(a)))
  {
    StepKeeps(c.s, a);
    WriterOnlyEffect(c.s, a);
    if c.held.Some? { RestsOutside(c.s, a); }
    var t := Next(c, EngineEvent(a));
    assert Backlog(t) == Backlog(c) && Live(t) == Live(c);
  }

  // ---- Collecting ----

  lemma InBatchMore(batch: seq<HarvestItem>, x: HarvestItem, s: nat)
    ensures InBatch(batch + [x], s) <==> InBatch(batch, s) || s == x.slot
  {
    assert (batch + [x])[|batch|] == x;
    if InBatch(batch, s) {
      var i :| 0 <= i < |batch| && batch[i].slot == s;
      assert (batch + [x])[i] == batch[i];
    }
  }

  /** A harvest takes a descriptor the hardware owns, exactly when its slot is writable and not in the
      batch already. */
  lemma HarvestExact(c: Cap, sick: bool)
    requires OwnersOk(c) && c.p.stage == Collecting && HarvestOne(c.ch.ring, c.halted, sick).Got?
    ensures StaleHarvest(c, HarvestEvent(sick)) <==> c.ch.ring.next !in c.h.owned
  {
  }

  lemma HarvestOwners(c: Cap, sick: bool)
    requires OwnersOk(c) && c.p.stage == Collecting && HarvestOne(c.ch.ring, c.halted, sick).Got?
    requires c.ch.ring.next in c.h.owned
    ensures OwnersOk(HarvestStep(c, sick))
  {
    var t := HarvestStep(c, sick);
    var x := HarvestOne(c.ch.ring, c.halted, sick).item;
    forall s ensures InBatch(t.p.batch, s) <==> InBatch(c.p.batch, s) || s == x.slot { InBatchMore(c.p.batch, x, s); }
    assert BatchDistinct(t.p.batch) by {
      forall i | 0 <= i < |c.p.batch|
        ensures c.p.batch[i].slot != x.slot
      {
        assert InBatch(c.p.batch, c.p.batch[i].slot);
      }
    }
  }

  lemma HarvestOrder(c: Cap, sick: bool)
    requires RingOk(c.ch.ring) && OrderOk(c) && HarvestOne(c.ch.ring, c.halted, sick).Got?
    ensures OrderOk(HarvestStep(c, sick))
  {
    var t := HarvestStep(c, sick);
    var x := HarvestOne(c.ch.ring, c.halted, sick).item;
    assert BatchNumbers(t.p.batch) == BatchNumbers(c.p.batch) + [x.sequence];
    var xs := Numbers(c.h.queued) + Numbers(c.p.pending) + BatchNumbers(c.p.batch);
    assert Numbers(t.h.queued) + Numbers(t.p.pending) + BatchNumbers(t.p.batch) == xs + [x.sequence];
  }

  /** Only ownership bookkeeping differs. */
  ghost predicate SameItems(c: Cap, t: Cap) {
    && t.geo == c.geo && t.s == c.s && t.held == c.held
    && |t.ch.q.slots| == |c.ch.q.slots| && t.ch.q.fifo == c.ch.q.fifo
    && t.p == c.p.(stage := t.p.stage, batch := t.p.batch) && t.h == c.h.(owned := t.h.owned)
  }

  lemma SameItemsSound(c: Cap, t: Cap)
    requires Sound(c) && SameItems(c, t) && OwnersOk(t) && OrderOk(t)
    ensures Sound(t)
  {
    assert Backlog(t) == Backlog(c) && Live(t) == Live(c);
  }

  lemma HarvestKeeps(c: Cap, sick: bool)
    requires Sound(c) && Allowed(c, HarvestEvent(sick)) && !StaleHarvest(c, HarvestEvent(sick))
    ensures Bad(HarvestStep(c, sick)) || Sound(HarvestStep(c, sick))
  {
    if HarvestOne(c.ch.ring, c.halted, sick).Got? {
      HarvestExact(c, sick);
      HarvestOwners(c, sick);
      HarvestOrder(c, sick);
      SameItemsSound(c, HarvestStep(c, sick));
    }
  }

  // ---- Control of the stop ----

  predicate StopControl(v: Event) {
    v.SortEvent? || v.StopEvent? || v.LatchEvent? || v.HaltEvent? || v.HarvestingEvent? || v.FinishEvent?
  }

  /** Only the flags of the queue and the control part of the ring differ. */
  ghost predicate SameSlots(c: Cap, t: Cap) {
    && t.ch.q == c.ch.q.(worker := t.ch.q.worker, requeueEnabled := t.ch.q.requeueEnabled, error := t.ch.q.error)
    && t.p == c.p.(stage := t.p.stage) && t.h == c.h && t.geo == c.geo && t.s == c.s && t.held == c.held
    && t.ch.ring.sequence == c.ch.ring.sequence
  }

  lemma SameSlotsOwners(c: Cap, t: Cap)
    requires OwnersOk(c) && SameSlots(c, t) && StopOk(t.ch) && HardwareOk(t.ch.ring, c.h.owned, t.halted)
    requires t.p.stage == Collecting ==> c.p.stage == Collecting
    ensures OwnersOk(t)
  {
  }

  lemma ControlEffect(c: Cap, v: Event)
    requires StopOk(c.ch) && HardwareOk(c.ch.ring, c.h.owned, c.halted) && Shape(c.s.e)
    requires Allowed(c, v) && StopControl(v) && AddReady(c)
    ensures var t := Next(c, v);
            && SameSlots(c, t) && StopOk(t.ch) && HardwareOk(t.ch.ring, c.h.owned, t.halted)
            && (t.p.stage == Collecting ==> c.p.stage == Collecting)
  {
  }

  lemma ControlKeeps(c: Cap, v: Event)
    requires Sound(c) && Allowed(c, v) && StopControl(v) && AddReady(c)
    ensures Sound(Next(c, v))
  {
    ControlEffect(c, v);
    SameSlotsOwners(c, Next(c, v));
    SameItemsSound(c, Next(c, v));
  }

  // ---- Sorting the batch ----

  lemma InBatchRest(batch: seq<HarvestItem>, s: nat)
    requires batch != []
    ensures InBatch(batch, s) <==> batch[0].slot == s || InBatch(batch[1..], s)
    ensures BatchDistinct(batch) && batch[0].slot == s ==> !InBatch(batch[1..], s)
  {
    if InBatch(batch, s) {
      var i :| 0 <= i < |batch| && batch[i].slot == s;
      if i != 0 { assert batch[1..][i - 1].slot == s; }
    }
    if InBatch(batch[1..], s) {
      var i :| 0 <= i < |batch[1..]| && batch[1..][i].slot == s;
      assert batch[i + 1].slot == s;
    }
  }

  lemma BatchRest(batch: seq<HarvestItem>)
    requires batch != []
    ensures forall s :: InBatch(batch, s) <==> batch[0].slot == s || InBatch(batch[1..], s)
    ensures BatchDistinct(batch) ==> BatchDistinct(batch[1..]) && !InBatch(batch[1..], batch[0].slot)
  {
    forall s ensures InBatch(batch, s) <==> batch[0].slot == s || InBatch(batch[1..], s) { InBatchRest(batch, s); }
    InBatchRest(batch, batch[0].slot);
  }

  lemma ReleaseOwners(c: Cap)
    requires OwnersOk(c) && c.p.stage == Sorting && c.p.batch != []
    ensures c.p.batch[0].slot < |c.ch.q.slots| && c.ch.q.slots[c.p.batch[0].slot] == DmaWritable
    ensures OwnersOk(c.(ch := c.ch.(q := WriteQueue.Release(c.ch.q, c.p.batch[0].slot)), p := c.p.(batch := c.p.batch[1..])))
  {
    BatchRest(c.p.batch);
    assert InBatch(c.p.batch, c.p.batch[0].slot);
  }

  lemma HasSlotMore(items: seq<Item>, it: Item)
    ensures forall s :: HasSlot(items + [it], s) <==> HasSlot(items, s) || s == it.slot
    ensures Distinct(items) && !HasSlot(items, it.slot) ==> Distinct(items + [it])
  {
    WriteQueue.OneMore(items, it);
    forall s ensures HasSlot(items + [it], s) <==> HasSlot(items, s) || s == it.slot { HasSlotAppend(items, [it], s); }
    if Distinct(items) && !HasSlot(items, it.slot) {
      forall i | 0 <= i < |items|
        ensures items[i].slot != it.slot
      {
        SlotTaken(items, i);
      }
    }
  }

  lemma PendingWritable(slots: seq<SlotState>, owned: set<nat>, batch: seq<HarvestItem>, pending: seq<Item>, it: Item)
    requires WritableOk(slots, owned, batch, pending) && batch != [] && it.slot == batch[0].slot
    ensures WritableOk(slots, owned, batch[1..], pending + [it])
  {
    BatchRest(batch);
    HasSlotMore(pending, it);
    assert InBatch(batch, batch[0].slot);
    forall i | 0 <= i < |batch[1..]|
      ensures batch[1..][i].slot < |slots| && !HasSlot(pending + [it], batch[1..][i].slot)
    {
      assert batch[1..][i] == batch[i + 1];
    }
  }

  lemma PendingOwners(c: Cap, it: Item)
    requires OwnersOk(c) && c.p.stage == Sorting && c.p.batch != [] && it.slot == c.p.batch[0].slot
    ensures OwnersOk(c.(p := c.p.(batch := c.p.batch[1..], pending := c.p.pending + [it])))
  {
    PendingWritable(c.ch.q.slots, c.h.owned, c.p.batch, c.p.pending, it);
  }

  lemma IncreasingWithout(a: seq<nat>, x: nat, b: seq<nat>, limit: nat)
    requires Increasing(a + ([x] + b), limit)
    ensures Increasing(a + b, limit)
  {
    var long, short := a + ([x] + b), a + b;
    forall k | 0 <= k < |short|
      ensures short[k] == long[if k < |a| then k else k + 1]
    {
    }
  }

  /** Taking the head of the batch away, or moving it to the items, keeps the harvest order. */
  lemma TakeOrder(c: Cap, it: Item)
    requires OrderOk(c) && c.p.batch != [] && it.chunkIndex == c.p.batch[0].sequence
    ensures OrderOk(c.(p := c.p.(batch := c.p.batch[1..])))
    ensures OrderOk(c.(p := c.p.(batch := c.p.batch[1..], pending := c.p.pending + [it])))
  {
    var a, p := Numbers(c.h.queued), Numbers(c.p.pending);
    var x, b := c.p.batch[0].sequence, BatchNumbers(c.p.batch[1..]);
    assert BatchNumbers(c.p.batch) == [x] + b;
    assert a + p + BatchNumbers(c.p.batch) == (a + p) + ([x] + b);
    IncreasingWithout(a + p, x, b, c.ch.ring.sequence);
    assert Numbers(c.p.pending + [it]) == p + [x];
    assert a + (p + [x]) + b == (a + p) + ([x] + b);
  }

  lemma SectorsMore(items: seq<Item>, it: Item)
    ensures SumSectors(items + [it]) == SumSectors(items) + it.sectors
    ensures SumBytes(items + [it]) == SumBytes(items) + it.bytes
  {
    assert (items + [it])[..|items|] == items;
  }

  lemma ChainMore(items: seq<Item>, lba: nat, offset: nat, it: Item)
    requires Chained(items, lba, offset)
    requires it.startLba == lba + SumSectors(items) && it.fileOffset == offset + SumBytes(items)
    ensures Chained(items + [it], lba, offset)
  {
    var more := items + [it];
    forall k | 0 <= k < |more|
      ensures more[k].startLba == lba + SumSectors(more[..k]) && more[k].fileOffset == offset + SumBytes(more[..k])
    {
      assert more[..k] == items[..k];
      assert items[..|items|] == items;
    }
  }

  lemma NewItemGood(c: Cap)
    requires c.p.batch != [] && c.p.batch[0].slot < |c.ch.q.slots|
    requires 0 < c.p.batch[0].bytes <= c.geo.descBytes
    requires BytesToSectors(c.p.batch[0].bytes) * SECTOR_BYTES == c.p.batch[0].bytes
    ensures ItemGood(c.geo, |c.ch.q.slots|, NewItem(c, c.p.batch[0]))
  {
  }

  /** The parts of the invariant that look at the producer's item list. */
  lemma PendingLayout(c: Cap, it: Item, harvested: nat)
    requires LayoutOk(c) && ItemsGood(c) && ItemGood(c.geo, |c.ch.q.slots|, it)
    requires it.startLba == c.p.nextLba + SumSectors(c.p.pending) && it.fileOffset == c.p.captured + SumBytes(c.p.pending)
    requires harvested == c.p.harvested + it.bytes
    ensures var t := c.(p := c.p.(batch := c.p.batch, pending := c.p.pending + [it], harvested := harvested));
            LayoutOk(t) && ItemsGood(t)
  {
    ChainMore(c.p.pending, c.p.nextLba, c.p.captured, it);
    SectorsMore(c.p.pending, it);
    var t := c.(p := c.p.(batch := c.p.batch, pending := c.p.pending + [it], harvested := harvested));
    assert Live(t) == Live(c);
  }

  /** Everything about the data and the engine depends on the queue's items and the engine only. */
  ghost predicate SameLive(c: Cap, t: Cap) {
    && t.geo == c.geo && t.s == c.s && t.held == c.held
    && |t.ch.q.slots| == |c.ch.q.slots| && t.ch.q.fifo == c.ch.q.fifo && t.h == c.h
  }

  lemma SameLiveSound(c: Cap, t: Cap)
    requires Sound(c) && SameLive(c, t) && OwnersOk(t) && OrderOk(t) && LayoutOk(t) && ItemsGood(t)
    ensures Sound(t)
  {
    assert Backlog(t) == Backlog(c) && Live(t) == Live(c);
  }

  lemma TakeOwners(c: Cap)
    requires OwnersOk(c) && c.p.stage == Sorting && c.p.batch != [] && !Bad(TakeStep(c))
    ensures OwnersOk(TakeStep(c))
  {
    if TakeStep(c).p.pending == c.p.pending { ReleaseOwners(c); } else { PendingOwners(c, NewItem(c, c.p.batch[0])); }
  }

  lemma TakeOrdered(c: Cap)
    requires OrderOk(c) && c.p.batch != [] && !Bad(TakeStep(c))
    ensures OrderOk(TakeStep(c))
  {
    TakeOrder(c, NewItem(c, c.p.batch[0]));
  }

  lemma TakeLayout(c: Cap)
    requires LayoutOk(c) && ItemsGood(c) && c.p.batch != [] && c.p.batch[0].slot < |c.ch.q.slots| && !Bad(TakeStep(c))
    ensures LayoutOk(TakeStep(c)) && ItemsGood(TakeStep(c))
  {
    var t, it := TakeStep(c), NewItem(c, c.p.batch[0]);
    assert Live(t) == Live(c);
    if t.p.pending != c.p.pending {
      NewItemGood(c);
      PendingLayout(c, it, c.p.harvested + it.bytes);
    }
  }

  lemma TakeSame(c: Cap)
    requires c.p.batch != [] && !Bad(TakeStep(c))
    ensures SameLive(c, TakeStep(c))
  {
  }

  lemma TakeEffect(c: Cap, t: Cap)
    requires OwnersOk(c) && OrderOk(c) && LayoutOk(c) && ItemsGood(c)
    requires c.p.stage == Sorting && c.p.batch != [] && t == TakeStep(c) && !Bad(t)
    ensures OwnersOk(t) && OrderOk(t) && LayoutOk(t) && ItemsGood(t)
  {
    assert c.p.batch[0].slot < |c.ch.q.slots| by { ReleaseOwners(c); }
    TakeOwners(c);
    TakeOrdered(c);
    TakeLayout(c);
  }

  lemma TakeKeeps(c: Cap)
    requires Sound(c) && Allowed(c, TakeEvent)
    ensures Bad(TakeStep(c)) || Sound(TakeStep(c))
  {
    if !Bad(TakeStep(c)) {
      TakeSame(c);
      TakeEffect(c, TakeStep(c));
      SameLiveSound(c, TakeStep(c));
    }
  }

  // ---- Pushing ----

  lemma PushedWritable(slots: seq<SlotState>, slots': seq<SlotState>, owned: set<nat>, items: seq<Item>)
    requires WritableOk(slots, owned, [], items) && |slots'| == |slots|
    requires forall s :: 0 <= s < |slots| ==> slots'[s] == if HasSlot(items, s) then ReadyForNvme else slots[s]
    ensures WritableOk(slots', owned, [], [])
  {
  }

  /** The queue after an accepted batch. */
  lemma PushedQueue(c: Cap)
    requires OwnersOk(c) && c.p.batch == [] && BatchOk(c.geo, c.ch.q, c.p.pending)
    ensures var q := PushBatch(c.geo, c.ch.q, c.p.pending);
            && q.fifo == c.ch.q.fifo + c.p.pending && |q.slots| == |c.ch.q.slots|
            && Ledger(q, c.h.busy, c.p.captured + SumBytes(c.p.pending)) && WritableOk(q.slots, c.h.owned, [], [])
            && StopOk(Channel(q, c.ch.ring)) && q.queued <= U64_MAX && q.recycled <= q.completed
  {
    PushKeepsLedger(c.geo, c.ch.q, c.h.busy, c.p.captured, c.p.pending);
    PushedWritable(c.ch.q.slots, PushBatch(c.geo, c.ch.q, c.p.pending).slots, c.h.owned, c.p.pending);
  }

  /** What a successful push leaves. */
  ghost predicate Pushed(c: Cap, t: Cap) {
    var items := c.p.pending;
    && t.s == c.s && t.geo == c.geo && t.held == c.held && t.halted == c.halted && t.ch.ring == c.ch.ring
    && t.ch.q == (if items == [] then c.ch.q else PushBatch(c.geo, c.ch.q, items))
    && (items != [] ==> BatchOk(c.geo, c.ch.q, items))
    && t.p == Producer(Collecting, [], [], c.p.captured + SumBytes(items), c.p.nextLba + SumSectors(items),
                       c.p.harvested, c.p.unqueued)
    && t.p.captured <= U64_MAX && t.p.nextLba <= U64_MAX
    && t.h == c.h.(queued := c.h.queued + items, stream := StreamAfter(c.h.stream, c.s.w.ddr, items),
                   image := DiskAfter(c.h.image, c.s.w.ddr, items))
  }

  lemma PushEffect(c: Cap)
    requires !Bad(PushStep(c))
    ensures Pushed(c, PushStep(c))
  {
  }

  /** The slots' side of a push. */
  predicate PushedSlotsOnly(c: Cap, t: Cap) {
    && t.ch.ring == c.ch.ring && t.halted == c.halted && t.h.owned == c.h.owned && t.h.busy == c.h.busy
    && t.p.stage == Collecting && t.p.batch == [] && t.p.pending == []
    && t.p.captured == c.p.captured + SumBytes(c.p.pending)
  }

  lemma PushedOwners(c: Cap, t: Cap)
    requires OwnersOk(c) && c.p.batch == [] && PushedSlotsOnly(c, t)
    requires BatchOk(c.geo, c.ch.q, c.p.pending) && t.ch.q == PushBatch(c.geo, c.ch.q, c.p.pending)
    ensures OwnersOk(t) && t.ch.q.fifo == c.ch.q.fifo + c.p.pending && |t.ch.q.slots| == |c.ch.q.slots|
  {
    PushedQueue(c);
  }

  lemma NothingPushed(c: Cap, t: Cap)
    requires OwnersOk(c) && c.p.batch == [] && PushedSlotsOnly(c, t) && c.p.pending == [] && t.ch.q == c.ch.q
    ensures OwnersOk(t)
  {
  }

  lemma PushOwners(c: Cap, t: Cap)
    requires OwnersOk(c) && c.p.batch == [] && Pushed(c, t)
    ensures OwnersOk(t) && t.ch.q.fifo == c.ch.q.fifo + c.p.pending && |t.ch.q.slots| == |c.ch.q.slots|
  {
    assert PushedSlotsOnly(c, t);
    if c.p.pending == [] {
      NothingPushed(c, t);
    } else {
      PushedOwners(c, t);
    }
  }

  lemma PushLists(c: Cap, t: Cap)
    requires t.ch.q.fifo == c.ch.q.fifo + c.p.pending && t.h.busy == c.h.busy && t.held == c.held
    ensures Live(t) == Live(c) + c.p.pending && Backlog(t) == Backlog(c) + c.p.pending
  {
  }

  /** A chain queued at the end keeps the layout of the queued items. */
  lemma QueuedLayout(queued: seq<Item>, items: seq<Item>, start: nat, next: nat, captured: nat, geo: Geometry, n: nat)
    requires Chained(queued, start, 0) && next == start + SumSectors(queued)
    requires captured == SumBytes(queued) == SumSectors(queued) * SECTOR_BYTES
    requires Chained(items, next, captured) && AllGood(geo, n, items)
    ensures Chained(queued + items, start, 0) && next + SumSectors(items) == start + SumSectors(queued + items)
    ensures captured + SumBytes(items) == SumBytes(queued + items) == SumSectors(queued + items) * SECTOR_BYTES
  {
    BytesFillSectors(geo, n, items);
    SectorsAppend(queued, items);
    SumAppend(queued, items);
    ChainAppend(queued, items, start, 0);
  }

  lemma PushLayout(c: Cap, t: Cap)
    requires LayoutOk(c) && AllGood(c.geo, |c.ch.q.slots|, c.p.pending) && Pushed(c, t)
    requires Live(t) == Live(c) + c.p.pending
    ensures LayoutOk(t)
  {
    var items := c.p.pending;
    QueuedLayout(c.h.queued, items, c.h.start, c.p.nextLba, c.p.captured, c.geo, |c.ch.q.slots|);
    ChainApart(items, c.p.nextLba, c.p.captured);
    ApartAppend(Live(c), items, c.h.start, c.p.nextLba, c.p.nextLba + SumSectors(items));
  }

  lemma PushGood(c: Cap, t: Cap)
    requires ItemsGood(c) && Pushed(c, t) && Live(t) == Live(c) + c.p.pending && |t.ch.q.slots| == |c.ch.q.slots|
    ensures ItemsGood(t)
  {
    assert forall k :: 0 <= k < |c.p.pending| ==> ItemOk(c.geo, c.ch.q.slots, c.p.pending[k]) && ItemGood(c.geo, |c.ch.q.slots|, c.p.pending[k]);
  }

  lemma PushOrder(c: Cap, t: Cap)
    requires OrderOk(c) && c.p.batch == [] && Pushed(c, t)
    ensures OrderOk(t)
  {
    assert Numbers(c.h.queued + c.p.pending) == Numbers(c.h.queued) + Numbers(c.p.pending);
    assert Numbers(t.h.queued) + Numbers(t.p.pending) + BatchNumbers(t.p.batch) ==
           Numbers(c.h.queued) + Numbers(c.p.pending) + BatchNumbers(c.p.batch);
  }

  lemma WithinBacklog(c: Cap)
    requires EngineOkHeld(c) && Within(Live(c), c.h.start, c.p.nextLba)
    ensures Within(Backlog(c), c.h.start, c.p.nextLba)
  {
    forall k | 0 <= k < |Backlog(c)|
      ensures c.h.start <= Backlog(c)[k].startLba && Backlog(c)[k].startLba + Backlog(c)[k].sectors <= c.p.nextLba
    {
      var j := WaitingIsLive(c, k);
      assert c.h.start <= Live(c)[j].startLba;
    }
  }

  lemma PushData(c: Cap, t: Cap)
    requires DataSound(c) && LayoutOk(c) && EngineOkHeld(c) && AllGood(c.geo, |c.ch.q.slots|, c.p.pending)
    requires Pushed(c, t) && Backlog(t) == Backlog(c) + c.p.pending
    ensures DataSound(t)
  {
    var items := c.p.pending;
    ChainApart(items, c.p.nextLba, c.p.captured);
    WithinBacklog(c);
    ImageMore(c.h.image, c.s.g.ref, c.s.w.ddr, Backlog(c), items, c.h.start, c.p.nextLba, c.p.nextLba + SumSectors(items));
    FileAfter(c.h.before, c.h.image, c.h.stream, c.h.start, SumSectors(c.h.queued), c.s.w.ddr, c.geo, |c.ch.q.slots|, items, c.p.captured);
    SectorsAppend(c.h.queued, items);
  }

  lemma PushSound(c: Cap, t: Cap)
    requires Sound(c) && c.p.batch == [] && Pushed(c, t)
    ensures Sound(t)
  {
    PushOwners(c, t);
    PushLists(c, t);
    PushLayout(c, t);
    PushGood(c, t);
    PushOrder(c, t);
    PushData(c, t);
  }

  lemma PushKeeps(c: Cap)
    requires Sound(c) && Allowed(c, PushEvent)
    ensures Bad(PushStep(c)) || Sound(PushStep(c))
  {
    if !Bad(PushStep(c)) {
      PushEffect(c);
      PushSound(c, PushStep(c));
    }
  }

  /** A push is refused only when an LBA range is: no slot state, duplicate or lack of room ever stops it. */
  lemma PushExact(c: Cap)
    requires Sound(c) && Allowed(c, PushEvent) && c.p.pending != []
    requires c.p.harvested <= U64_MAX && c.ch.q.queued + |c.p.pending| <= U64_MAX
    ensures BatchOk(c.geo, c.ch.q, c.p.pending) <==> AllAddressed(c.geo, c.p.pending)
  {
    var items, n := c.p.pending, |c.ch.q.slots|;
    PushVerdict(c.geo, c.ch.q, c.h.busy, c.p.captured, items);
    forall k | 0 <= k < |items|
      ensures ItemOk(c.geo, c.ch.q.slots, items[k]) <==> Addressed(c.geo, items[k])
    {
      PendingItemOk(c, k);
    }
  }

  lemma PendingItemOk(c: Cap, k: nat)
    requires OwnersOk(c) && AllGood(c.geo, |c.ch.q.slots|, c.p.pending) && k < |c.p.pending|
    requires GeoOk(c.geo, |c.ch.q.slots|, c.s.e.cfg)
    ensures ItemOk(c.geo, c.ch.q.slots, c.p.pending[k]) <==> Addressed(c.geo, c.p.pending[k])
  {
    var it := c.p.pending[k];
    SlotTaken(c.p.pending, k);
    assert ItemGood(c.geo, |c.ch.q.slots|, it);
    SlotEnd(c.geo, it.slot, |c.ch.q.slots|);
    SlotIndexFits(c.geo.hwBase, it.slot, c.geo.descBytes);
  }

  lemma SlotIndexFits(base: nat, slot: nat, size: nat)
    requires size > 0 && base + slot * size <= U64_MAX
    ensures slot <= (U64_MAX - base) / size
  {
    var room := U64_MAX - base;
    var q, r := room / size, room % size;
    assert room == q * size + r;
    if q < slot { TimesMonotone(q, slot, size); }
  }
}

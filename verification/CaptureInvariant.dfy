/** What every event of a capture keeps while no thread has seen an error. */
module CaptureInvariant {
  import opened Media
  import opened NvmeTables
  import opened EngineModel
  import opened EngineInvariant
  import opened EngineSafety
  import opened Modular
  import opened DmaRing
  import opened SlotTable
  import opened WriteQueue
  import opened Capture

  // ---- Items and slots ----

  predicate GeoOk(geo: Geometry, n: nat, cfg: Config) {
    && n > 0 && geo.descBytes > 0 && geo.ringBytes == n * geo.descBytes && geo.hwBase + geo.ringBytes <= U64_MAX
    && cfg.dmaDescCount == n && cfg.maxLba == geo.maxLba
  }

  /** An item that fills its sectors and lies in its own slot. */
  predicate ItemGood(geo: Geometry, n: nat, it: Item) {
    && it.slot < n && 0 < it.bytes == it.mediaBytes == it.sectors * SECTOR_BYTES <= geo.descBytes
    && it.hwAddr == geo.hwBase + it.slot * geo.descBytes
  }

  /** Its LBAs were checked when it was queued. */
  predicate Addressed(geo: Geometry, it: Item) {
    it.startLba + it.sectors <= U64_MAX && (geo.maxLba != 0 ==> LbaRangeValid(geo.maxLba, it.startLba, it.sectors))
  }

  predicate AllGood(geo: Geometry, n: nat, items: seq<Item>) {
    forall k :: 0 <= k < |items| ==> ItemGood(geo, n, items[k])
  }

  predicate AllAddressed(geo: Geometry, items: seq<Item>) {
    forall k :: 0 <= k < |items| ==> Addressed(geo, items[k])
  }

  lemma SlotEnd(geo: Geometry, slot: nat, n: nat)
    requires slot < n && geo.ringBytes == n * geo.descBytes
    ensures slot * geo.descBytes + geo.descBytes <= geo.ringBytes
  {
    TimesMonotone(slot, n, geo.descBytes);
  }

  lemma SlotsApart(geo: Geometry, a: nat, b: nat, addr: nat)
    requires InDdrSlot(geo, a, addr) && InDdrSlot(geo, b, addr)
    ensures a == b
  {
    if a < b { TimesMonotone(a, b, geo.descBytes); }
    if b < a { TimesMonotone(b, a, geo.descBytes); }
  }

  // ---- Who owns a slot ----

  predicate BatchDistinct(batch: seq<HarvestItem>) {
    forall i, j :: 0 <= i < j < |batch| ==> batch[i].slot != batch[j].slot
  }

  /** A writable slot is the hardware's, or in the batch, or among the items about to be pushed; never two
      of these at once. */
  ghost predicate WritableOk(slots: seq<SlotState>, owned: set<nat>, batch: seq<HarvestItem>, pending: seq<Item>) {
    && (forall s :: 0 <= s < |slots| ==> (slots[s] == DmaWritable <==> s in owned || InBatch(batch, s) || HasSlot(pending, s)))
    && (forall s :: s in owned ==> s < |slots| && !InBatch(batch, s) && !HasSlot(pending, s))
    && (forall i :: 0 <= i < |batch| ==> batch[i].slot < |slots| && !HasSlot(pending, batch[i].slot))
    && (forall i :: 0 <= i < |pending| ==> pending[i].slot < |slots|)
    && BatchDistinct(batch) && Distinct(pending)
  }

  /** The hardware can write only into descriptors it owns. */
  ghost predicate HardwareOk(ring: Ring, owned: set<nat>, halted: bool) {
    && (forall s :: 0 <= s < |ring.status| && s !in owned ==> halted || ring.status[s].completed)
    && (halted ==> ring.stopLatched)
    && (!ring.stopLatched ==> ring.hwCount == |owned|)
  }

  ghost predicate OwnersOk(c: Cap) {
    && StopOk(c.ch) && Ledger(c.ch.q, c.h.busy, c.p.captured)
    && WritableOk(c.ch.q.slots, c.h.owned, c.p.batch, c.p.pending)
    && HardwareOk(c.ch.ring, c.h.owned, c.halted)
    && c.ch.q.recycled <= c.ch.q.completed && c.ch.q.queued <= U64_MAX
    && (c.p.stage == Collecting ==> c.p.pending == [])
  }

  // ---- The engine holds what was popped ----

  predicate HasItem(items: seq<Item>, it: Item) {
    exists k :: 0 <= k < |items| && items[k] == it
  }

  predicate Active(active: seq<bool>, reqs: seq<Req>, r: Req)
    requires |active| == |reqs|
  {
    exists i :: 0 <= i < |active| && active[i] && reqs[i] == r
  }

  /** NVME_BUSY slots are exactly the one item the writer holds and the engine's active slots. */
  predicate MatchOk(active: seq<bool>, reqs: seq<Req>, busy: seq<Item>, held: Option<Item>)
    requires |active| == |reqs|
  {
    && (forall i :: 0 <= i < |active| && active[i] ==> HasItem(busy, ItemOf(reqs[i])) && reqs[i] == ReqOf(ItemOf(reqs[i])))
    && (forall k :: 0 <= k < |busy| ==> held == Some(busy[k]) || Active(active, reqs, ReqOf(busy[k])))
    && (held.Some? ==> HasItem(busy, held.value) && !Active(active, reqs, ReqOf(held.value)))
  }

  predicate EngineOk(c: Cap)
    requires Shape(c.s.e)
  {
    && MatchOk(c.s.e.active, c.s.e.reqs, c.h.busy, c.held)
    && (c.held.Some? ==> c.s.phase == Outside && c.s.e.activeCount < c.s.e.cfg.maxActive)
  }

  // ---- Where items lie in the file and on the disk ----

  /** `items` follow one another from `lba` and file offset `offset` on, without gap or overlap. */
  predicate Chained(items: seq<Item>, lba: nat, offset: nat) {
    forall k :: 0 <= k < |items| ==>
      items[k].startLba == lba + SumSectors(items[..k]) && items[k].fileOffset == offset + SumBytes(items[..k])
  }

  function Live(c: Cap): seq<Item> {
    c.h.busy + c.ch.q.fifo
  }

  predicate Apart(items: seq<Item>) {
    forall j, k :: 0 <= j < k < |items| ==> LbasApart(ReqOf(items[j]), ReqOf(items[k]))
  }

  predicate Within(items: seq<Item>, low: nat, high: nat) {
    forall k :: 0 <= k < |items| ==> low <= items[k].startLba && items[k].startLba + items[k].sectors <= high
  }

  function Numbers(items: seq<Item>): (r: seq<nat>)
    ensures |r| == |items| && forall k :: 0 <= k < |items| ==> r[k] == items[k].chunkIndex
  {
    seq(|items|, k requires 0 <= k < |items| => items[k].chunkIndex)
  }

  function BatchNumbers(batch: seq<HarvestItem>): (r: seq<nat>)
    ensures |r| == |batch| && forall k :: 0 <= k < |batch| ==> r[k] == batch[k].sequence
  {
    seq(|batch|, k requires 0 <= k < |batch| => batch[k].sequence)
  }

  predicate Increasing(xs: seq<nat>, limit: nat) {
    && (forall j, k :: 0 <= j < k < |xs| ==> xs[j] < xs[k])
    && (forall k :: 0 <= k < |xs| ==> xs[k] < limit)
  }

  predicate LayoutOk(c: Cap) {
    && Chained(c.h.queued, c.h.start, 0) && c.p.nextLba == c.h.start + SumSectors(c.h.queued)
    && c.p.captured == SumBytes(c.h.queued) == SumSectors(c.h.queued) * SECTOR_BYTES
    && Chained(c.p.pending, c.p.nextLba, c.p.captured)
    && Apart(Live(c)) && Within(Live(c), c.h.start, c.p.nextLba)
    && c.p.harvested == c.p.captured + SumBytes(c.p.pending) + c.p.unqueued
    && c.p.captured <= U64_MAX && c.p.nextLba <= U64_MAX
  }

  predicate OrderOk(c: Cap) {
    Increasing(Numbers(c.h.queued) + Numbers(c.p.pending) + BatchNumbers(c.p.batch), c.ch.ring.sequence)
  }

  predicate ItemsGood(c: Cap) {
    var n := |c.ch.q.slots|;
    && AllGood(c.geo, n, Live(c)) && AllAddressed(c.geo, Live(c)) && AllGood(c.geo, n, c.p.pending)
  }

  // ---- The data ----

  function Backlog(c: Cap): seq<Item> {
    (if c.held.Some? then [c.held.value] else []) + c.ch.q.fifo
  }

  predicate InItems(items: seq<Item>, l: nat) {
    exists k :: 0 <= k < |items| && InSlot(ReqOf(items[k]), l)
  }

  ghost predicate HoldsAll(image: Disk, ddr: Ddr, items: seq<Item>) {
    forall k :: 0 <= k < |items| ==> HoldsSlot(image, ddr, ReqOf(items[k]))
  }

  /** The final disk is what the engine has taken over plus what still waits in DDR. */
  ghost predicate ImageOk(image: Disk, ref: Disk, ddr: Ddr, waiting: seq<Item>) {
    && HoldsAll(image, ddr, waiting)
    && forall l: nat {:trigger image(l)} {:trigger InItems(waiting, l)} :: InItems(waiting, l) || image(l) == ref(l)
  }

  /** The `s`-th sector of the file. */
  function FileSector(stream: seq<Byte>, s: nat): seq<Byte>
    requires (s + 1) * SECTOR_BYTES <= |stream|
  {
    stream[s * SECTOR_BYTES..(s + 1) * SECTOR_BYTES]
  }

  /** The image holds the stream from LBA `start` on, and the old disk everywhere else. */
  ghost predicate FileOk(before: Disk, image: Disk, stream: seq<Byte>, start: nat, sectors: nat) {
    && |stream| == sectors * SECTOR_BYTES
    && (forall s: nat {:trigger FileSector(stream, s)} :: s < sectors ==> image(start + s) == FileSector(stream, s))
    && (forall l: nat :: l < start || start + sectors <= l ==> image(l) == before(l))
  }

  ghost predicate DataSound(c: Cap) {
    && ImageOk(c.h.image, c.s.g.ref, c.s.w.ddr, Backlog(c))
    && FileOk(c.h.before, c.h.image, c.h.stream, c.h.start, SumSectors(c.h.queued))
  }

  ghost predicate Sound(c: Cap) {
    && Inv(c.s) && GeoOk(c.geo, |c.ch.q.slots|, c.s.e.cfg)
    && OwnersOk(c) && EngineOk(c) && LayoutOk(c) && OrderOk(c) && ItemsGood(c) && DataSound(c)
  }

  function AllSlots(n: nat): (slots: set<nat>)
    ensures |slots| == n && forall s: nat :: s in slots <==> s < n
  {
    if n == 0 then {} else AllSlots(n - 1) + {n - 1}
  }

  /** A capture that is about to start: every descriptor is the hardware's, nothing is queued. */
  ghost predicate Start(c: Cap) {
    && EngineSafety.Init(c.s) && GeoOk(c.geo, |c.ch.q.slots|, c.s.e.cfg)
    && var n := |c.ch.q.slots|;
       && c.ch == Channel(WriteQueue.Created(n).(worker := WRunning), Started(n))
       && c.held == None && !c.halted && !c.failed
       && c.p == Producer(Collecting, [], [], 0, c.h.start, 0, 0) && c.h.start <= U64_MAX
       && c.h == Record(AllSlots(n), [], [], [], [], c.s.w.ssd, c.h.start, c.s.w.ssd)
  }

  lemma StartOwners(c: Cap)
    requires Start(c)
    ensures OwnersOk(c)
  {
    CreatedLedger(|c.ch.q.slots|);
  }

  lemma StartLayout(c: Cap)
    requires Start(c)
    ensures LayoutOk(c) && OrderOk(c) && ItemsGood(c) && DataSound(c)
  {
    assert Numbers([]) + Numbers([]) + BatchNumbers([]) == [];
  }

  lemma StartSound(c: Cap)
    requires Start(c)
    ensures Sound(c) && !Bad(c)
  {
    InitInv(c.s);
    StartOwners(c);
    StartLayout(c);
    var cfg, nextCid: nat :| ConfigOk(cfg) && nextCid < CID_SPACE && c.s.e == EngineModel.Created(cfg, nextCid);
  }

  // ---- The writer's side of Add ----

  lemma HeldIsLive(c: Cap) returns (k: nat)
    requires c.held.Some? && HasItem(c.h.busy, c.held.value)
    ensures k < |c.h.busy| && c.h.busy[k] == c.held.value && Live(c)[k] == c.held.value
  {
    k :| 0 <= k < |c.h.busy| && c.h.busy[k] == c.held.value;
  }

  /** Neither an LBA clash nor a duplicate slot can stop a held item. */
  lemma HeldApart(c: Cap, i: nat)
    requires Shape(c.s.e) && EngineOk(c) && c.held.Some? && i < CAPACITY && c.s.e.active[i]
    requires Distinct(c.h.busy) && Apart(Live(c))
    ensures c.s.e.reqs[i].slot != c.held.value.slot
    ensures LbasApart(c.s.e.reqs[i], ReqOf(c.held.value))
  {
    var k := HeldIsLive(c);
    var r := c.s.e.reqs[i];
    assert HasItem(c.h.busy, ItemOf(r));
    var j :| 0 <= j < |c.h.busy| && c.h.busy[j] == ItemOf(r);
    assert Active(c.s.e.active, c.s.e.reqs, r);
    assert j != k;
    assert Live(c)[j] == ItemOf(r);
    if j < k { assert LbasApart(ReqOf(Live(c)[j]), ReqOf(Live(c)[k])); }
    else { assert LbasApart(ReqOf(Live(c)[k]), ReqOf(Live(c)[j])); }
  }

  lemma HeldCanBeAdded(c: Cap)
    requires Sound(c)
    ensures AddReady(c)
  {
    if c.held.Some? && c.s.phase == Outside {
      var k := HeldIsLive(c);
      assert ItemGood(c.geo, |c.ch.q.slots|, Live(c)[k]);
      forall i | 0 <= i < CAPACITY && c.s.e.active[i] { HeldApart(c, i); }
    }
  }

  /** The engine accepts every item the writer holds: none of the rejections of `add` can happen. */
  lemma HeldIsPlaced(c: Cap)
    requires Sound(c) && c.held.Some? && !Bad(c)
    ensures Writeable(c.geo, |c.ch.q.slots|, c.held.value)
    ensures JudgeAdd(c.s.e, ReqOf(c.held.value)).Placed?
  {
    var it := c.held.value;
    var k := HeldIsLive(c);
    assert ItemGood(c.geo, |c.ch.q.slots|, Live(c)[k]) && Addressed(c.geo, Live(c)[k]);
    SlotEnd(c.geo, it.slot, |c.ch.q.slots|);
    forall i | 0 <= i < CAPACITY && c.s.e.active[i]
      ensures c.s.e.reqs[i].slot != it.slot
    {
      HeldApart(c, i);
    }
    AcceptingHasRoom(c.s.e);
  }
}

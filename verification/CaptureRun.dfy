/** A capture that runs to its end: the statements about captured and drained states are about something.
    One descriptor of one sector is filled with any bytes, harvested, queued, written and completed. */
module CaptureRun {
  import opened Media
  import opened NvmeTables
  import opened EngineModel
  import opened EngineTheorems
  import opened DmaRing
  import opened SlotTable
  import opened WriteQueue
  import opened Capture
  import opened CaptureInvariant
  import opened CaptureTheorems

  const GEO := Geometry(0, 512, 512, 0)
  const CFG := Config(1, 1, 1, 1, 1, 0)
  const FULL := Status(true, false, 512)
  const ITEM := Item(0, 512, 512, 0, 0, 0, 1, 0)
  const REQ := Req(0, 0, 1, 0, 512, 0, 0, 512)

  /** The queue once the item was pushed. */
  function OneSlot(state: SlotState, fifo: seq<Item>): Queue {
    Queue([state], fifo, 512, 0, 1, 0, 0, WRunning, true, false)
  }

  lemma {:induction false} LeadsMore(c: Cap, vs: seq<Event>, d: Cap, v: Event)
    requires Leads(c, vs, d) && RingOk(d.ch.ring) && Shape(d.s.e) && Allowed(d, v) && !StaleHarvest(d, v) && AddReady(d)
    ensures Leads(c, vs + [v], Next(d, v))
    decreases vs
  {
    if vs == [] {
      assert [v][1..] == [];
    } else {
      assert (vs + [v])[1..] == vs[1..] + [v];
      LeadsMore(Next(c, vs[0]), vs[1..], d, v);
    }
  }

  lemma StartLeadsOn(c: Cap, v: Event)
    requires SomeCaptureLeads(c) && RingOk(c.ch.ring) && Shape(c.s.e) && Allowed(c, v) && !StaleHarvest(c, v) && AddReady(c)
    ensures SomeCaptureLeads(Next(c, v))
  {
    var s, vs :| Start(s) && Leads(s, vs, c);
    LeadsMore(s, vs, c, v);
  }

  /** One more event keeps a state captured, unless a thread sees an error. */
  lemma Go(c: Cap, v: Event) returns (d: Cap)
    requires Captured(c) && Allowed(c, v) && !StaleHarvest(c, v)
    ensures AddReady(c) && d == Next(c, v)
    ensures !Bad(d) ==> Captured(d)
  {
    assert AddReady(c) by {
      CapturedSound(c);
      EventKeeps(c, v);
    }
    StartLeadsOn(c, v);
    d := Next(c, v);
    if !Bad(d) { CapturedShape(d); }
  }

  lemma GoEngine(c: Cap, a: Action) returns (d: Cap)
    requires Captured(c) && WriterOnly(a) && Enabled(c.s, a) && c.held == None
    requires EngineModel.Apply(c.s, a).e.state == Running
    ensures Captured(d) && d == c.(s := EngineModel.Apply(c.s, a))
  {
    d := Go(c, EngineEvent(a));
  }

  // ---- The producer ----

  function Begun(before: Disk, memory: Ddr): Cap {
    Cap(GEO, Channel(WriteQueue.Created(1).(worker := WRunning), Started(1)),
        Sys(EngineModel.Created(CFG, 1), World(map[], before, memory), Shadow(before, before, []), Outside),
        None, Producer(Collecting, [], [], 0, 0, 0, 0), false, false,
        Record(AllSlots(1), [], [], [], [], before, 0, before))
  }

  lemma BegunCaptured(before: Disk, memory: Ddr)
    ensures Captured(Begun(before, memory))
  {
    var c := Begun(before, memory);
    assert ConfigOk(CFG);
    assert Start(c) && Leads(c, [], c);
    CapturedShape(c);
  }

  /** The descriptor is filled. */
  lemma Filled(before: Disk, memory: Ddr, ddr: Ddr) returns (d: Cap)
    requires forall addr: nat :: addr >= 512 ==> ddr(addr) == memory(addr)
    ensures Captured(d) && d.ch.ring == Ring([FULL], 0, 1, 0, 0, false, true, 0)
    ensures d == Begun(before, ddr).(ch := d.ch, h := d.h) && d.ch.q == Begun(before, ddr).ch.q
    ensures d.h == Begun(before, memory).h.(arrived := d.h.arrived)
  {
    var c := Begun(before, memory);
    BegunCaptured(before, memory);
    assert c.ch.ring.status[0 := FULL] == [FULL];
    d := Go(c, HwWrite(0, ddr, FULL));
  }

  lemma HarvestFirst(c: Cap)
    requires c.ch.ring == Ring([FULL], 0, 1, 0, 0, false, true, 0) && !c.halted && c.p == Producer(Collecting, [], [], 0, 0, 0, 0)
    ensures HarvestStep(c, false) ==
            c.(ch := c.ch.(ring := Ring([FULL], 0, 0, 1, 0, false, true, 0)), h := c.h.(owned := c.h.owned - {0}),
               p := Producer(Collecting, [HarvestItem(0, 512, 0)], [], 0, 0, 0, 0))
  {
  }

  /** It is harvested. */
  lemma HarvestedRun(before: Disk, memory: Ddr, ddr: Ddr) returns (d: Cap)
    requires forall addr: nat :: addr >= 512 ==> ddr(addr) == memory(addr)
    ensures Captured(d) && d.geo == GEO && d.held == None && d.h.queued == d.h.busy == [] && d.h.stream == []
    ensures d.s == Begun(before, ddr).s && d.h.start == 0 && d.h.before == before
    ensures d.ch == Channel(WriteQueue.Created(1).(worker := WRunning), Ring([FULL], 0, 0, 1, 0, false, true, 0))
    ensures d.p == Producer(Collecting, [HarvestItem(0, 512, 0)], [], 0, 0, 0, 0)
  {
    var c := Filled(before, memory, ddr);
    HarvestFirst(c);
    d := Go(c, HarvestEvent(false));
  }

  /** A queue nothing was pushed to. */
  predicate Unused(q: Queue) {
    q.slots == [DmaWritable] && q.fifo == [] && !q.error && q.buffered == 0 && q.queued == 0
  }

  lemma ItemPasses(slots: seq<SlotState>, items: seq<Item>)
    requires slots == [DmaWritable] && items == [ITEM]
    ensures ItemsOk(GEO, slots, items)
  {
    assert ItemOk(GEO, slots, ITEM);
  }

  lemma ItemSums(items: seq<Item>)
    requires items == [ITEM]
    ensures SumBytes(items) == 512 && Capture.SumSectors(items) == 1
  {
    assert items[..0] == [];
  }

  lemma ItemQueued(q: Queue, items: seq<Item>)
    requires Unused(q) && items == [ITEM]
    ensures BatchOk(GEO, q, items)
    ensures PushBatch(GEO, q, items) == q.(slots := [ReadyForNvme], fifo := items, buffered := 512, queued := 1)
  {
    ItemPasses(q.slots, items);
    ItemSums(items);
    assert CountState(q.slots, DmaWritable, 1) == 1;
    MarkReadyAt(q.slots, items, 0);
    assert q.fifo + items == items && items[0].slot == 0;
    assert MarkReady(q.slots, items) == [ReadyForNvme];
  }

  lemma TakeOne(c: Cap)
    requires c.geo == GEO && c.p == Producer(Sorting, [HarvestItem(0, 512, 0)], [], 0, 0, 0, 0)
    ensures TakeStep(c) == c.(p := Producer(Sorting, [], [ITEM], 0, 0, 512, 0))
  {
    assert NewItem(c, c.p.batch[0]) == ITEM;
  }

  /** It is sorted. */
  lemma Sorted(before: Disk, memory: Ddr, ddr: Ddr) returns (d: Cap)
    requires forall addr: nat :: addr >= 512 ==> ddr(addr) == memory(addr)
    ensures Captured(d) && d.geo == GEO && d.held == None && d.h.queued == d.h.busy == [] && d.h.stream == []
    ensures d.s == Begun(before, ddr).s && d.h.start == 0 && d.h.before == before
    ensures d.ch == Channel(WriteQueue.Created(1).(worker := WRunning), Ring([FULL], 0, 0, 1, 0, false, true, 0))
    ensures d.p == Producer(Sorting, [], [ITEM], 0, 0, 512, 0)
  {
    var c := HarvestedRun(before, memory, ddr);
    var e := Go(c, SortEvent);
    TakeOne(e);
    d := Go(e, TakeEvent);
  }

  lemma PushOne(c: Cap)
    requires c.geo == GEO && Unused(c.ch.q) && c.h.stream == [] && c.h.queued == []
    requires c.p == Producer(Sorting, [], [ITEM], 0, 0, 512, 0)
    ensures var d := PushStep(c);
            && d == c.(ch := d.ch, p := d.p, h := d.h) && d.ch == c.ch.(q := d.ch.q)
            && d.ch.q == c.ch.q.(slots := [ReadyForNvme], fifo := [ITEM], buffered := 512, queued := 1)
            && d.h.queued == [ITEM] && d.h.busy == c.h.busy && d.h.start == c.h.start && d.h.before == c.h.before
            && d.h.stream == ItemBytes(c.s.w.ddr, ITEM)
  {
    var items := c.p.pending;
    ItemQueued(c.ch.q, items);
    ItemSums(items);
    StreamOfOne(c.s.w.ddr, items);
  }

  lemma StreamOfOne(ddr: Ddr, items: seq<Item>)
    requires items == [ITEM]
    ensures StreamAfter([], ddr, items) == ItemBytes(ddr, ITEM)
  {
    assert items[..0] == [];
    assert [] + ItemBytes(ddr, ITEM) == ItemBytes(ddr, ITEM);
  }

  /** It is queued. */
  lemma Queued(before: Disk, memory: Ddr, ddr: Ddr) returns (d: Cap)
    requires forall addr: nat :: addr >= 512 ==> ddr(addr) == memory(addr)
    ensures Captured(d) && d.geo == GEO && d.held == None && d.h.queued == [ITEM] && d.h.busy == []
    ensures d.h.start == 0 && d.h.before == before && d.s == Begun(before, ddr).s && d.h.stream == ItemBytes(ddr, ITEM)
    ensures d.ch == Channel(OneSlot(ReadyForNvme, [ITEM]), Ring([FULL], 0, 0, 1, 0, false, true, 0))
  {
    var c := Sorted(before, memory, ddr);
    assert c.ch.q.slots == [DmaWritable];
    PushOne(c);
    d := Go(c, PushEvent);
  }

  // ---- The writer ----

  lemma PopOne(c: Cap)
    requires c.ch.q == OneSlot(ReadyForNvme, [ITEM]) && c.h.busy == []
    ensures PopStep(c) == c.(ch := c.ch.(q := OneSlot(NvmeBusy, [])), held := Some(ITEM), h := c.h.(busy := [ITEM]))
  {
    var q := c.ch.q;
    assert q.fifo[1..] == [] && q.slots[0 := NvmeBusy] == [NvmeBusy] && c.h.busy + [ITEM] == [ITEM];
    assert Pop(q).0 == OneSlot(NvmeBusy, []);
  }

  /** The item is popped. */
  lemma Popped(before: Disk, memory: Ddr, ddr: Ddr) returns (d: Cap)
    requires forall addr: nat :: addr >= 512 ==> ddr(addr) == memory(addr)
    ensures Captured(d) && d.geo == GEO && d.held == Some(ITEM) && d.h.queued == d.h.busy == [ITEM] && d.h.start == 0 && d.h.before == before
    ensures d.h.stream == ItemBytes(ddr, ITEM) && d.s == Begun(before, ddr).s
    ensures d.ch == Channel(OneSlot(NvmeBusy, []), Ring([FULL], 0, 0, 1, 0, false, true, 0))
  {
    var c := Queued(before, memory, ddr);
    PopOne(c);
    assert CanAccept(c.s.e);
    d := Go(c, PopEvent);
  }

  lemma AddOne(c: Cap)
    requires c.geo == GEO && c.held == Some(ITEM) && |c.ch.q.slots| == 1 && c.s.e == EngineModel.Created(CFG, 1) && c.s.phase == Outside
    ensures Shape(c.s.e) && Enabled(c.s, Add(REQ)) && ReqOf(ITEM) == REQ
    ensures var d := AddHeldStep(c);
            d == c.(s := d.s, held := None) && d.s.e == Place(c.s.e, 0, REQ) && d.s.w == c.s.w && d.s.phase == c.s.phase
  {
    assert FirstInactive(c.s.e.active, 0) == 0;
    assert JudgeAdd(c.s.e, REQ) == Placed(0);
  }

  /** It is handed to the engine. */
  lemma Taken(before: Disk, memory: Ddr, ddr: Ddr) returns (d: Cap)
    requires forall addr: nat :: addr >= 512 ==> ddr(addr) == memory(addr)
    ensures Captured(d) && d.geo == GEO && d.held == None && d.h.queued == d.h.busy == [ITEM] && d.h.start == 0 && d.h.before == before
    ensures d.h.stream == ItemBytes(ddr, ITEM)
    ensures d.s.e == Place(EngineModel.Created(CFG, 1), 0, REQ) && d.s.w == World(map[], before, ddr) && d.s.phase == Outside
    ensures d.ch == Channel(OneSlot(NvmeBusy, []), Ring([FULL], 0, 0, 1, 0, false, true, 0))
  {
    var c := Popped(before, memory, ddr);
    AddOne(c);
    d := Go(c, AddEvent);
  }

  lemma NothingToReport(s: Sys)
    requires s.e == Place(EngineModel.Created(CFG, 1), 0, REQ) && s.phase == Reporting
    ensures Enabled(s, ReportsDone)
  {
    assert forall i :: 0 <= i < CAPACITY && s.e.active[i] ==> i == 0;
  }

  /** The engine gets to its refill. */
  lemma AtRefill(before: Disk, memory: Ddr, ddr: Ddr) returns (d: Cap)
    requires forall addr: nat :: addr >= 512 ==> ddr(addr) == memory(addr)
    ensures Captured(d) && d.geo == GEO && d.held == None && d.h.queued == d.h.busy == [ITEM] && d.h.start == 0 && d.h.before == before
    ensures d.h.stream == ItemBytes(ddr, ITEM)
    ensures d.s.e == Place(EngineModel.Created(CFG, 1), 0, REQ) && d.s.w == World(map[], before, ddr) && d.s.phase == Refilling
    ensures d.ch == Channel(OneSlot(NvmeBusy, []), Ring([FULL], 0, 0, 1, 0, false, true, 0))
  {
    var c := Taken(before, memory, ddr);
    c := GoEngine(c, EnterIteration);
    c := GoEngine(c, PollsDone);
    NothingToReport(c.s);
    d := GoEngine(c, ReportsDone);
  }

  /** Its only command is posted. */
  lemma Posted(before: Disk, memory: Ddr, ddr: Ddr) returns (d: Cap)
    requires forall addr: nat :: addr >= 512 ==> ddr(addr) == memory(addr)
    ensures Captured(d) && d.geo == GEO && d.held == None && d.h.queued == d.h.busy == [ITEM] && d.h.start == 0 && d.h.before == before
    ensures d.h.stream == ItemBytes(ddr, ITEM)
    ensures Alone(d.s.e, REQ, 0) && d.s.w == World(map[1 := Cmd(0, 1, 0, {})], before, ddr) && Refilled(d.s)
    ensures d.ch == Channel(OneSlot(NvmeBusy, []), Ring([FULL], 0, 0, 1, 0, false, true, 0))
  {
    d := AtRefill(before, memory, ddr);
    FirstSubmit(d.s, CFG, REQ);
    d := GoEngine(d, Submit(Accepted));
  }

  /** The device moves the sector and completes the command. */
  lemma Moved(before: Disk, memory: Ddr, ddr: Ddr) returns (d: Cap)
    requires forall addr: nat :: addr >= 512 ==> ddr(addr) == memory(addr)
    ensures Captured(d) && d.geo == GEO && d.held == None && d.h.queued == d.h.busy == [ITEM] && d.h.start == 0 && d.h.before == before
    ensures d.h.stream == ItemBytes(ddr, ITEM)
    ensures Alone(d.s.e, REQ, 1) && d.s.phase == Reporting
    ensures d.ch == Channel(OneSlot(NvmeBusy, []), Ring([FULL], 0, 0, 1, 0, false, true, 0))
  {
    d := Posted(before, memory, ddr);
    d := GoEngine(d, EnterIteration);
    OnlyTransfers(d.s, Cmd(0, 1, 0, {}));
    d := GoEngine(d, Transfer(1, 0));
    CapturedSound(d);
    OnlyCompletes(d.s, REQ, Cmd(0, 1, 0, {0}));
    d := GoEngine(d, Poll(1, false));
    d := GoEngine(d, PollsDone);
  }

  /** The report completes the slot and leaves nothing to be written. */
  lemma ReportOne(c: Cap)
    requires c.geo == GEO && c.held == None && c.h.busy == [ITEM] && Shape(c.s.e) && Alone(c.s.e, REQ, 1) && c.s.phase == Reporting
    requires c.ch == Channel(OneSlot(NvmeBusy, []), Ring([FULL], 0, 0, 1, 0, false, true, 0)) && !c.failed
    ensures Enabled(c.s, Report(0, true)) && ItemOf(c.s.e.reqs[0]) == ITEM && RingOk(c.ch.ring)
    ensures var d := ReportSlot(c, 0, 0, false);
            && !Bad(d) && d.held == None && d.ch.q.fifo == [] && d.s.e.activeCount == 0
            && d.h.stream == c.h.stream && d.h.start == c.h.start && d.p == c.p && d.h.before == c.h.before
  {
    var r := Complete(c.ch.q, c.ch.ring, ITEM, false);
    assert r.ok && r.q.fifo == [] && !r.q.error;
  }

  lemma Finished(before: Disk, memory: Ddr, ddr: Ddr) returns (d: Cap)
    requires forall addr: nat :: addr >= 512 ==> ddr(addr) == memory(addr)
    ensures Captured(d) && CaptureTheorems.Drained(d)
    ensures d.h.stream == ItemBytes(ddr, ITEM) && d.h.start == 0 && d.h.before == before
  {
    var c := Moved(before, memory, ddr);
    ReportOne(c);
    d := Go(c, ReportEvent(0, 0, false));
  }

  /** Whatever 512 bytes the hardware delivers: there is a capture that ends drained with exactly these
      bytes as its stream, and they are the sector on the disk. */
  lemma OneSectorArrives(before: Disk, memory: Ddr, ddr: Ddr) returns (d: Cap)
    requires forall addr: nat :: addr >= 512 ==> ddr(addr) == memory(addr)
    ensures Captured(d) && CaptureTheorems.Drained(d)
    ensures d.h.stream == d.s.w.ssd(0) == SectorAt(ddr, 0)
    ensures forall l: nat :: l > 0 ==> d.s.w.ssd(l) == before(l)
  {
    d := Finished(before, memory, ddr);
    DiskHoldsStream(d);
    assert FileSector(d.h.stream, 0) == d.h.stream == SectorAt(ddr, 0);
  }
}

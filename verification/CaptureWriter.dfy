/** The writer's events: pop, add and report. */
module CaptureWriter {
  import opened Media
  import opened NvmeTables
  import opened EngineModel
  import opened EngineInvariant
  import opened EngineSafety
  import opened DmaRing
  import opened SlotTable
  import opened WriteQueue
  import opened Capture
  import opened CaptureInvariant
  import opened CaptureData

  lemma ItemRoundTrip(geo: Geometry, n: nat, it: Item)
    requires ItemGood(geo, n, it)
    ensures ItemOf(ReqOf(it)) == it
  {
  }

  // ---- Pop ----

  lemma PoppedWritable(slots: seq<SlotState>, owned: set<nat>, batch: seq<HarvestItem>, pending: seq<Item>,
                       slot: nat, from: SlotState, to: SlotState)
    requires WritableOk(slots, owned, batch, pending) && slot < |slots| && slots[slot] == from
    requires from != DmaWritable && to != DmaWritable
    ensures WritableOk(slots[slot := to], owned, batch, pending)
  {
  }

  /** What a pop that yields an item leaves. */
  ghost predicate Popped(c: Cap, t: Cap) {
    && c.ch.q.fifo != [] && !c.ch.q.error && c.held == None
    && t == c.(ch := c.ch.(q := Pop(c.ch.q).0), held := Some(c.ch.q.fifo[0]), h := c.h.(busy := c.h.busy + [c.ch.q.fifo[0]]))
  }

  lemma PopEffect(c: Cap)
    requires OwnersOk(c) && c.held == None && !Bad(c)
    ensures if c.ch.q.fifo == [] then PopStep(c) == c else Popped(c, PopStep(c))
  {
    PopKeepsLedger(c.ch.q, c.h.busy, c.p.captured);
  }

  lemma PopOwners(c: Cap, t: Cap)
    requires OwnersOk(c) && Popped(c, t)
    ensures OwnersOk(t) && t.ch.q.fifo == c.ch.q.fifo[1..] && |t.ch.q.slots| == |c.ch.q.slots|
    ensures c.ch.q.slots[c.ch.q.fifo[0].slot] == ReadyForNvme
  {
    PopKeepsLedger(c.ch.q, c.h.busy, c.p.captured);
    SlotTaken(c.ch.q.fifo, 0);
    PoppedWritable(c.ch.q.slots, c.h.owned, c.p.batch, c.p.pending, c.ch.q.fifo[0].slot, ReadyForNvme, NvmeBusy);
  }

  lemma PopMatch(active: seq<bool>, reqs: seq<Req>, busy: seq<Item>, it: Item)
    requires |active| == |reqs| && MatchOk(active, reqs, busy, None)
    requires ItemOf(ReqOf(it)) == it && !HasSlot(busy, it.slot)
    ensures MatchOk(active, reqs, busy + [it], Some(it))
  {
    var more := busy + [it];
    assert more[|busy|] == it;
    forall i | 0 <= i < |active| && active[i]
      ensures HasItem(more, ItemOf(reqs[i])) && reqs[i] != ReqOf(it)
    {
      var k :| 0 <= k < |busy| && busy[k] == ItemOf(reqs[i]);
      assert more[k] == ItemOf(reqs[i]);
      SlotTaken(busy, k);
    }
    forall k | 0 <= k < |more|
      ensures Some(it) == Some(more[k]) || Active(active, reqs, ReqOf(more[k]))
    {
      if k < |busy| { assert more[k] == busy[k] && None != Some(busy[k]); }
    }
  }

  lemma PopSame(c: Cap, t: Cap)
    requires Popped(c, t) && t.ch.q.fifo == c.ch.q.fifo[1..]
    ensures Live(t) == Live(c) && Backlog(t) == Backlog(c)
  {
  }

  lemma PopSound(c: Cap, t: Cap)
    requires Sound(c) && CanAccept(c.s.e) && c.s.phase == Outside && Popped(c, t)
    ensures Sound(t)
  {
    PopOwners(c, t);
    PopSame(c, t);
    var it := c.ch.q.fifo[0];
    assert it == Live(c)[|c.h.busy|];
    ItemRoundTrip(c.geo, |c.ch.q.slots|, it);
    assert !HasSlot(c.h.busy, it.slot);
    PopMatch(c.s.e.active, c.s.e.reqs, c.h.busy, it);
  }

  lemma PopKeeps(c: Cap)
    requires Sound(c) && Allowed(c, PopEvent)
    ensures Sound(PopStep(c)) && !PopStep(c).failed
  {
    PopEffect(c);
    if c.ch.q.fifo != [] { PopSound(c, PopStep(c)); }
  }

  // ---- Add ----

  lemma AddMatch(active: seq<bool>, reqs: seq<Req>, busy: seq<Item>, it: Item, i: nat)
    requires |active| == |reqs| && MatchOk(active, reqs, busy, Some(it)) && i < |active| && !active[i]
    requires ItemOf(ReqOf(it)) == it
    ensures MatchOk(active[i := true], reqs[i := ReqOf(it)], busy, None)
  {
    var active', reqs' := active[i := true], reqs[i := ReqOf(it)];
    forall k | 0 <= k < |busy|
      ensures Active(active', reqs', ReqOf(busy[k]))
    {
      if busy[k] == it {
        assert active'[i] && reqs'[i] == ReqOf(busy[k]);
      } else {
        assert Some(it) != Some(busy[k]);
        var j :| 0 <= j < |active| && active[j] && reqs[j] == ReqOf(busy[k]);
        assert active'[j] && reqs'[j] == ReqOf(busy[k]);
      }
    }
    forall j | 0 <= j < |active'| && active'[j]
      ensures HasItem(busy, ItemOf(reqs'[j])) && reqs'[j] == ReqOf(ItemOf(reqs'[j]))
    {
      if j != i { assert reqs'[j] == reqs[j] && active[j]; }
    }
  }

  lemma AddImage(image: Disk, ref: Disk, ddr: Ddr, it: Item, fifo: seq<Item>)
    requires ImageOk(image, ref, ddr, [it] + fifo)
    ensures ImageOk(image, CopySectors(ref, it.startLba, it.sectors, ddr, it.hwAddr), ddr, fifo)
  {
    var all, ref' := [it] + fifo, CopySectors(ref, it.startLba, it.sectors, ddr, it.hwAddr);
    assert all[0] == it && HoldsSlot(image, ddr, ReqOf(it));
    forall k | 0 <= k < |fifo|
      ensures HoldsSlot(image, ddr, ReqOf(fifo[k]))
    {
      assert all[k + 1] == fifo[k];
    }
    forall l: nat
      ensures InItems(fifo, l) || image(l) == ref'(l)
    {
      CopyIsSlot(ref, ddr, ReqOf(it), l);
      InItemsAppend([it], fifo, l);
      if InItems([it], l) { assert InSlot(ReqOf([it][0]), l); }
    }
  }

  /** What a successful add leaves. */
  ghost predicate Added(c: Cap, t: Cap)
    requires Shape(c.s.e)
  {
    && c.held.Some? && Enabled(c.s, Add(ReqOf(c.held.value))) && JudgeAdd(c.s.e, ReqOf(c.held.value)).Placed?
    && t == c.(s := EngineModel.Apply(c.s, Add(ReqOf(c.held.value))), held := None)
  }

  lemma AddEngine(c: Cap, t: Cap)
    requires Shape(c.s.e) && Added(c, t)
    ensures Shape(t.s.e) && t.s.e.cfg == c.s.e.cfg && t.s.w == c.s.w && t.s.phase == c.s.phase
    ensures var it, i := c.held.value, JudgeAdd(c.s.e, ReqOf(c.held.value)).index;
            && i < CAPACITY && !c.s.e.active[i]
            && t.s.e.active == c.s.e.active[i := true] && t.s.e.reqs == c.s.e.reqs[i := ReqOf(it)]
            && t.s.g.ref == CopySectors(c.s.g.ref, it.startLba, it.sectors, c.s.w.ddr, it.hwAddr)
  {
  }

  lemma AddSound(c: Cap, t: Cap)
    requires Sound(c) && Added(c, t)
    ensures Sound(t)
  {
    StepKeeps(c.s, Add(ReqOf(c.held.value)));
    AddEngine(c, t);
    var it := c.held.value;
    var k := HeldIsLive(c);
    ItemRoundTrip(c.geo, |c.ch.q.slots|, it);
    AddMatch(c.s.e.active, c.s.e.reqs, c.h.busy, it, JudgeAdd(c.s.e, ReqOf(it)).index);
    AddImage(c.h.image, c.s.g.ref, c.s.w.ddr, it, c.ch.q.fifo);
    assert Backlog(c) == [it] + c.ch.q.fifo && Backlog(t) == c.ch.q.fifo && Live(t) == Live(c);
  }

  lemma AddKeepsSound(c: Cap)
    requires Sound(c) && Allowed(c, AddEvent) && AddReady(c)
    ensures Sound(AddHeldStep(c)) && !AddHeldStep(c).failed
  {
    HeldIsPlaced(c);
    AddSound(c, AddHeldStep(c));
  }

  // ---- Report ----

  /** What the report of a slot leaves when the callback succeeds. */
  ghost predicate Reported(c: Cap, t: Cap, i: nat, k: nat, sick: bool)
    requires RingOk(c.ch.ring) && Shape(c.s.e)
  {
    && Enabled(c.s, Report(i, true)) && k < |c.h.busy| && c.h.busy[k] == ItemOf(c.s.e.reqs[i])
    && c.s.e.contexts[i].failed == 0
    && var r := Complete(c.ch.q, c.ch.ring, c.h.busy[k], sick);
       var slot := c.h.busy[k].slot;
       && r.ok
       && t == c.(ch := After(r), s := EngineModel.Apply(c.s, Report(i, true)),
                  h := c.h.(busy := Without(c.h.busy, k),
                            owned := if slot < |r.q.slots| && r.q.slots[slot] == DmaWritable then c.h.owned + {slot} else c.h.owned))
  }

  lemma ReportEffect(c: Cap, i: nat, k: nat, sick: bool)
    requires RingOk(c.ch.ring) && Shape(c.s.e) && Allowed(c, ReportEvent(i, k, sick)) && !Bad(ReportSlot(c, i, k, sick))
    ensures Reported(c, ReportSlot(c, i, k, sick), i, k, sick)
  {
  }

  lemma WithoutSub(items: seq<Item>, k: nat, j: nat)
    requires k < |items| && j < |items| && j != k
    ensures HasItem(Without(items, k), items[j])
  {
    assert Without(items, k)[if j < k then j else j - 1] == items[j];
  }

  lemma WithoutIndex(items: seq<Item>, k: nat)
    requires k < |items|
    ensures |Without(items, k)| == |items| - 1
    ensures forall j :: 0 <= j < |items| - 1 ==> Without(items, k)[j] == if j < k then items[j] else items[j + 1]
  {
  }

  lemma ReportMatch(active: seq<bool>, reqs: seq<Req>, busy: seq<Item>, held: Option<Item>, i: nat, k: nat)
    requires |active| == |reqs| && MatchOk(active, reqs, busy, held) && i < |active| && active[i]
    requires k < |busy| && busy[k] == ItemOf(reqs[i]) && Distinct(busy)
    requires forall j :: 0 <= j < |active| && j != i && active[j] ==> reqs[j].slot != reqs[i].slot
    ensures MatchOk(active[i := false], reqs[i := NO_REQ], Without(busy, k), held)
  {
    var active', reqs', rest := active[i := false], reqs[i := NO_REQ], Without(busy, k);
    WithoutIndex(busy, k);
    assert Active(active, reqs, ReqOf(busy[k]));
    forall j | 0 <= j < |active'| && active'[j]
      ensures HasItem(rest, ItemOf(reqs'[j])) && reqs'[j] == ReqOf(ItemOf(reqs'[j]))
    {
      var m :| 0 <= m < |busy| && busy[m] == ItemOf(reqs[j]);
      WithoutSub(busy, k, m);
    }
    forall m | 0 <= m < |rest|
      ensures held == Some(rest[m]) || Active(active', reqs', ReqOf(rest[m]))
    {
      var n := if m < k then m else m + 1;
      assert rest[m] == busy[n] && busy[n].slot != busy[k].slot;
      if held != Some(busy[n]) {
        var j :| 0 <= j < |active| && active[j] && reqs[j] == ReqOf(busy[n]);
        assert active'[j] && reqs'[j] == reqs[j];
      }
    }
    if held.Some? {
      var m :| 0 <= m < |busy| && busy[m] == held.value;
      WithoutSub(busy, k, m);
      ActiveBefore(active, reqs, i, ReqOf(held.value));
    }
  }

  lemma ActiveBefore(active: seq<bool>, reqs: seq<Req>, i: nat, r: Req)
    requires |active| == |reqs| && i < |active|
    ensures Active(active[i := false], reqs[i := NO_REQ], r) ==> Active(active, reqs, r)
  {
    if Active(active[i := false], reqs[i := NO_REQ], r) {
      var j :| 0 <= j < |active| && active[i := false][j] && reqs[i := NO_REQ][j] == r;
      assert active[j] && reqs[j] == r;
    }
  }

  lemma RequeueHardware(ring: Ring, owned: set<nat>, halted: bool, slot: nat, sick: bool)
    requires RingOk(ring) && HardwareOk(ring, owned, halted) && slot < |ring.status| && slot !in owned
    requires RequeueOne(ring, slot, sick).rc == 0
    ensures HardwareOk(RequeueOne(ring, slot, sick).ring, owned + {slot}, halted)
    ensures RingOk(RequeueOne(ring, slot, sick).ring)
  {
  }

  lemma RequeuedWritable(slots: seq<SlotState>, owned: set<nat>, batch: seq<HarvestItem>, pending: seq<Item>, slot: nat)
    requires WritableOk(slots, owned, batch, pending) && slot < |slots| && slots[slot] == NvmeBusy
    ensures WritableOk(slots[slot := DmaWritable], owned + {slot}, batch, pending) && slot !in owned
  {
  }

  lemma ReportOwners(c: Cap, t: Cap, i: nat, k: nat, sick: bool)
    requires OwnersOk(c) && Shape(c.s.e) && Reported(c, t, i, k, sick)
    ensures OwnersOk(t) && t.ch.q.fifo == c.ch.q.fifo && |t.ch.q.slots| == |c.ch.q.slots| && t.ch.ring.sequence == c.ch.ring.sequence
  {
    var slot := c.h.busy[k].slot;
    CompleteKeepsLedger(c.ch.q, c.ch.ring, c.h.busy, c.p.captured, k, sick);
    PerformKeepsStop(c.geo, c.ch, CompleteOp(c.h.busy[k], sick));
    SlotTaken(c.h.busy, k);
    RequeuedWritable(c.ch.q.slots, c.h.owned, c.p.batch, c.p.pending, slot);
    if c.ch.q.requeueEnabled && CanRequeue(c.ch.q.worker) {
      RequeueHardware(c.ch.ring, c.h.owned, c.halted, slot, sick);
    } else {
      PoppedWritable(c.ch.q.slots, c.h.owned, c.p.batch, c.p.pending, slot, NvmeBusy, Free);
    }
  }

  lemma ReportEngine(c: Cap, t: Cap, i: nat, k: nat, sick: bool)
    requires RingOk(c.ch.ring) && Shape(c.s.e) && Reported(c, t, i, k, sick)
    ensures Shape(t.s.e) && t.s.e.cfg == c.s.e.cfg && t.s.w == c.s.w && t.s.phase == c.s.phase && t.s.g.ref == c.s.g.ref
    ensures t.s.e.activeCount < c.s.e.activeCount
    ensures t.s.e.active == c.s.e.active[i := false] && t.s.e.reqs == c.s.e.reqs[i := NO_REQ]
  {
  }

  lemma OtherSlots(e: Engine, i: nat, j: nat)
    requires Shape(e) && SlotsOk(e) && i < CAPACITY && j < CAPACITY && i != j && e.active[i] && e.active[j]
    ensures e.reqs[i].slot != e.reqs[j].slot
  {
    assert ContextOk(e.cfg, e.contexts[i], e.reqs[i]) && ContextOk(e.cfg, e.contexts[j], e.reqs[j]);
  }

  lemma LiveWithout(c: Cap, t: Cap, k: nat)
    requires k < |c.h.busy| && t.h.busy == Without(c.h.busy, k) && t.ch.q.fifo == c.ch.q.fifo
    ensures Live(t) == Without(Live(c), k)
  {
    assert Live(c)[..k] == c.h.busy[..k] && Live(c)[k + 1..] == c.h.busy[k + 1..] + c.ch.q.fifo;
  }

  lemma SubItems(geo: Geometry, n: nat, items: seq<Item>, k: nat, low: nat, high: nat)
    requires k < |items| && Apart(items) && Within(items, low, high) && AllGood(geo, n, items) && AllAddressed(geo, items)
    ensures var rest := Without(items, k);
            Apart(rest) && Within(rest, low, high) && AllGood(geo, n, rest) && AllAddressed(geo, rest)
  {
    WithoutIndex(items, k);
  }

  lemma ReportItems(c: Cap, t: Cap, i: nat, k: nat, sick: bool)
    requires RingOk(c.ch.ring) && Shape(c.s.e) && Reported(c, t, i, k, sick)
    requires LayoutOk(c) && ItemsGood(c) && OrderOk(c) && DataSound(c)
    requires t.ch.q.fifo == c.ch.q.fifo && |t.ch.q.slots| == |c.ch.q.slots| && t.ch.ring.sequence == c.ch.ring.sequence
    requires t.s.w == c.s.w && t.s.g.ref == c.s.g.ref
    ensures LayoutOk(t) && ItemsGood(t) && OrderOk(t) && DataSound(t)
  {
    LiveWithout(c, t, k);
    SubItems(c.geo, |c.ch.q.slots|, Live(c), k, c.h.start, c.p.nextLba);
    assert Backlog(t) == Backlog(c);
  }

  lemma ReportSound(c: Cap, t: Cap, i: nat, k: nat, sick: bool)
    requires Sound(c) && Reported(c, t, i, k, sick)
    ensures Sound(t)
  {
    StepKeeps(c.s, Report(i, true));
    ReportOwners(c, t, i, k, sick);
    ReportEngine(c, t, i, k, sick);
    ReportItems(c, t, i, k, sick);
    forall j | 0 <= j < CAPACITY && j != i && c.s.e.active[j]
      ensures c.s.e.reqs[j].slot != c.s.e.reqs[i].slot
    {
      OtherSlots(c.s.e, i, j);
    }
    ReportMatch(c.s.e.active, c.s.e.reqs, c.h.busy, c.held, i, k);
  }

  lemma ReportKeepsSound(c: Cap, i: nat, k: nat, sick: bool)
    requires Sound(c) && Allowed(c, ReportEvent(i, k, sick))
    ensures Bad(ReportSlot(c, i, k, sick)) || Sound(ReportSlot(c, i, k, sick))
  {
    if !Bad(ReportSlot(c, i, k, sick)) {
      ReportEffect(c, i, k, sick);
      ReportSound(c, ReportSlot(c, i, k, sick), i, k, sick);
    }
  }
}

/** The write queue as the object both threads share: a circular array, the slot table and the DMA
    channel. Each method is one locked section and does what `WriteQueue` says of it. */
module StorageQueue {
  import opened Media
  import opened EngineModel
  import opened Modular
  import opened DmaRing
  import opened SlotTable
  import opened WriteQueue

  const NO_ITEM := Item(0, 0, 0, 0, 0, 0, 0, 0)

  /** The `count` items of the circle that starts at `head`. */
  function Unrolled(items: seq<Item>, head: nat, count: nat): (fifo: seq<Item>)
    requires |items| > 0
    ensures |fifo| == count
    ensures forall d :: 0 <= d < count ==> fifo[d] == items[Along(head, d, |items|)]
  {
    seq(count, d requires 0 <= d < count => items[Along(head, d, |items|)])
  }

  lemma UnrolledMore(items: seq<Item>, head: nat, count: nat, item: Item)
    requires count < |items|
    ensures Unrolled(items[Along(head, count, |items|) := item], head, count + 1) == Unrolled(items, head, count) + [item]
  {
    var tail := Along(head, count, |items|);
    forall d | 0 <= d < count + 1
      ensures Unrolled(items[tail := item], head, count + 1)[d] == (Unrolled(items, head, count) + [item])[d]
    {
      AlongDistinct(head, d, count, |items|);
    }
  }

  lemma AlongDistinct(head: nat, d: nat, e: nat, n: nat)
    requires d <= e < n
    ensures d != e ==> Along(head, d, n) != Along(head, e, n)
  {
    if d != e { ModDistinct(head + d, head + e, n); }
  }

  lemma AlongNext(head: nat, d: nat, n: nat)
    requires n > 0
    ensures Along(Along(head, 1, n), d, n) == Along(head, d + 1, n)
  {
    ModPlus(head + 1, d, n);
  }

  lemma AlongStep(head: nat, d: nat, n: nat)
    requires n > 0
    ensures Along(Along(head, d, n), 1, n) == Along(head, d + 1, n)
  {
    ModNext(head + d, n);
  }

  /** One more item of a batch: its slot is marked last. */
  lemma CommitStep(slots: seq<SlotState>, batch: seq<Item>, fifo: seq<Item>, i: nat)
    requires i < |batch| && batch[i].slot < |slots|
    ensures MarkReady(slots, batch[..i + 1]) == MarkReady(slots, batch[..i])[batch[i].slot := ReadyForNvme]
    ensures fifo + batch[..i + 1] == fifo + batch[..i] + [batch[i]]
  {
    assert batch[..i + 1][..i] == batch[..i];
  }

  lemma UnrolledLess(items: seq<Item>, head: nat, count: nat)
    requires 0 < count && head < |items|
    ensures Unrolled(items, Along(head, 1, |items|), count - 1) == Unrolled(items, head, count)[1..]
    ensures Unrolled(items, head, count)[0] == items[head]
  {
    ModSmall(head, |items|);
    forall d: nat | d < count - 1
      ensures Unrolled(items, Along(head, 1, |items|), count - 1)[d] == Unrolled(items, head, count)[1..][d]
    {
      AlongNext(head, d, |items|);
    }
  }

  class WriterQueue {
    const geo: Geometry
    const items: array<Item>
    const table: Table
    const channel: DmaChannel
    var head: nat
    var tail: nat
    var count: nat
    var buffered: nat
    var written: nat
    var queued: nat
    var completed: nat
    var recycled: nat
    var worker: Worker
    var requeueEnabled: bool
    var error: bool

    ghost function Repr(): set<object>
    {
      {this, items, table, table.states, channel, channel.status}
    }

    ghost predicate Valid()
      reads Repr()
    {
      && table.Valid() && channel.Valid()
      && items.Length == table.states.Length > 0
      && head < items.Length && count <= items.Length && tail == Along(head, count, items.Length)
    }

    ghost function View(): Channel
      requires items.Length > 0
      reads Repr()
    {
      Channel(Queue(table.states[..], Unrolled(items[..], head, count), buffered, written, queued, completed,
                    recycled, worker, requeueEnabled, error),
              channel.View())
    }

    constructor (geo: Geometry, n: nat)
      requires n > 0
      ensures Valid() && fresh(Repr())
      ensures View() == Channel(WriteQueue.Created(n), Started(n))
    {
      this.geo := geo;
      items := new Item[n](_ => NO_ITEM);
      table := new Table(n);
      channel := new DmaChannel(n);
      head, tail, count, buffered, written, queued, completed, recycled := 0, 0, 0, 0, 0, 0, 0, 0;
      worker, requeueEnabled, error := WInit, true, false;
      new;
      ModSmall(0, n);
    }

    // ---- Push ----

    method CheckItem(it: Item) returns (ok: bool)
      requires Valid()
      ensures ok <==> ItemOk(geo, table.states[..], it)
    {
      if it.bytes == 0 || it.bytes > geo.descBytes || it.sectors == 0 || it.slot >= table.states.Length { return false; }
      if table.states[it.slot] != DmaWritable { return false; }
      var expected := BytesToSectors(it.bytes);
      if geo.hwBase > U64_MAX || it.slot > (U64_MAX - geo.hwBase) / geo.descBytes { return false; }
      var address := geo.hwBase + it.slot * geo.descBytes;
      if it.mediaBytes == 0 || it.mediaBytes > geo.descBytes || it.mediaBytes != expected * SECTOR_BYTES ||
         it.sectors != expected || it.startLba + it.sectors > U64_MAX { return false; }
      if geo.maxLba != 0 && !LbaRangeValid(geo.maxLba, it.startLba, it.sectors) { return false; }
      if it.hwAddr != address || it.hwAddr + it.mediaBytes > U64_MAX { return false; }
      var end := it.hwAddr + it.mediaBytes;
      ok := geo.hwBase + geo.ringBytes <= U64_MAX && end <= geo.hwBase + geo.ringBytes;
    }

    method SlotFreshAt(batch: seq<Item>, i: nat) returns (fresh_: bool)
      requires i < |batch|
      ensures fresh_ <==> forall j :: 0 <= j < i ==> batch[j].slot != batch[i].slot
    {
      var j := 0;
      while j < i
        invariant j <= i && forall m :: 0 <= m < j ==> batch[m].slot != batch[i].slot
      {
        if batch[j].slot == batch[i].slot { return false; }
        j := j + 1;
      }
      fresh_ := true;
    }

    method CheckItems(batch: seq<Item>) returns (ok: bool, bytes: nat)
      requires Valid()
      ensures ok <==> ItemsOk(geo, table.states[..], batch)
      ensures ok ==> bytes == SumBytes(batch)
    {
      bytes := 0;
      var i := 0;
      while i < |batch|
        invariant i <= |batch| && bytes == SumBytes(batch[..i])
        invariant ItemsOk(geo, table.states[..], batch[..i])
      {
        ItemsOkStep(geo, table.states[..], batch, i);
        var good := CheckItem(batch[i]);
        if !good || bytes + batch[i].bytes > U64_MAX { return false, bytes; }
        bytes := bytes + batch[i].bytes;
        var single := SlotFreshAt(batch, i);
        if !single { return false, bytes; }
        i := i + 1;
      }
      assert batch[..|batch|] == batch;
      ok := true;
    }

    /** Store one item of an accepted batch and hand its slot over. */
    method CommitOne(place: nat, item: Item)
      requires table.Valid() && place < items.Length
      requires item.slot < table.states.Length && table.states[item.slot] == DmaWritable
      modifies items, table, table.states
      ensures table.Valid() && items[..] == old(items[..])[place := item]
      ensures table.states[..] == old(table.states[..])[item.slot := ReadyForNvme]
    {
      items[place] := item;
      var first := table.Transition(item.slot, DmaWritable, CompletedUnharvested);
      var second := table.Transition(item.slot, CompletedUnharvested, ReadyForNvme);
      assert first && second;
    }

    /** The commit loop: it cannot fail, and `tail` is only moved afterwards. */
    method Store(batch: seq<Item>) returns (place: nat)
      requires Valid() && count + |batch| <= items.Length && Distinct(batch)
      requires forall i :: 0 <= i < |batch| ==> batch[i].slot < table.states.Length && table.states[batch[i].slot] == DmaWritable
      modifies items, table, table.states
      ensures table.Valid() && table.states[..] == MarkReady(old(table.states[..]), batch)
      ensures Unrolled(items[..], head, count + |batch|) == old(Unrolled(items[..], head, count)) + batch
      ensures place == Along(head, count + |batch|, items.Length)
    {
      ghost var fifo := Unrolled(items[..], head, count);
      var i := 0;
      place := tail;
      while i < |batch|
        invariant i <= |batch| && place == Along(head, count + i, items.Length)
        invariant table.Valid() && table.states[..] == MarkReady(old(table.states[..]), batch[..i])
        invariant Unrolled(items[..], head, count + i) == fifo + batch[..i]
        invariant forall k :: i <= k < |batch| ==> table.states[batch[k].slot] == DmaWritable
      {
        CommitStep(old(table.states[..]), batch, fifo, i);
        UnrolledMore(items[..], head, count + i, batch[i]);
        AlongStep(head, count + i, items.Length);
        CommitOne(place, batch[i]);
        place := Along(place, 1, items.Length);
        i := i + 1;
      }
      assert batch[..i] == batch;
    }

    /** All the checks, before anything is touched. */
    method Acceptable(batch: seq<Item>) returns (ok: bool, bytes: nat)
      requires Valid() && batch != []
      ensures ok <==> BatchOk(geo, View().q, batch)
      ensures ok ==> bytes == SumBytes(batch)
    {
      var sound := table.CountsAddUp();
      if error || geo.descBytes == 0 || !sound || |batch| > items.Length - count || |batch| > table.counts[DmaWritable] {
        return false, 0;
      }
      ok, bytes := CheckItems(batch);
      ok := ok && buffered + bytes <= U64_MAX && queued + |batch| <= U64_MAX;
    }

    method Enqueue(batch: seq<Item>, bytes: nat)
      requires Valid() && BatchOk(geo, View().q, batch) && bytes == SumBytes(batch)
      modifies this, items, table, table.states
      ensures Valid()
      ensures var c := old(View());
              View() == c.(q := c.q.(slots := MarkReady(c.q.slots, batch), fifo := c.q.fifo + batch,
                                     buffered := c.q.buffered + SumBytes(batch), queued := c.q.queued + |batch|))
    {
      ItemsWritable(geo, table.states[..], batch);
      tail := Store(batch);
      count := count + |batch|;
      buffered, queued := buffered + bytes, queued + |batch|;
    }

    /** `storage_local_queue_push_batch`: 0 when the batch was accepted. */
    method Push(batch: seq<Item>) returns (rc: int)
      requires Valid()
      modifies Repr()
      ensures Valid() && View() == Perform(geo, old(View()), PushOp(batch))
      ensures rc == 0 <==> BatchOk(geo, old(View()).q, batch)
      ensures rc in {-1, 0}
    {
      if batch == [] { return -1; }
      var ok, bytes := Acceptable(batch);
      if ok {
        Enqueue(batch, bytes);
        rc := 0;
      } else {
        error := true;
        rc := -1;
      }
    }

    // ---- Pop ----

    /** `storage_queue_pop`, past any waiting. */
    method Pop() returns (result: PopResult)
      requires Valid()
      modifies Repr()
      ensures Valid() && View() == Perform(geo, old(View()), PopOp)
      ensures result == WriteQueue.Pop(old(View()).q).1
    {
      if error { return PopError; }
      if count == 0 {
        return if ProducerDone(worker) then PopDrained else PopEmpty;
      }
      var item := items[head];
      UnrolledLess(items[..], head, count);
      AlongNext(head, count - 1, items.Length);
      head := Along(head, 1, items.Length);
      count := count - 1;
      var moved := table.Transition(item.slot, ReadyForNvme, NvmeBusy);
      if !moved {
        error := true;
        return PopError;
      }
      result := PopItem(item);
    }

    // ---- Complete ----

    method FailLockedNow()
      requires Valid()
      modifies Repr()
      ensures Valid() && View() == old(View()).(q := FailLocked(old(View()).q))
    {
      if worker != WDone && worker != WFailed { worker := WFailed; }
      error := true;
    }

    method Requeue(slot: nat) returns (ok: bool, ghost sick: bool)
      requires Valid() && slot < table.states.Length && table.states[slot] == NvmeBusy
      modifies Repr()
      ensures Valid()
      ensures var r := RequeueBusy(old(View()).q, old(View()).ring, slot, sick); View() == After(r) && ok == r.ok
    {
      sick := false;
      var pending := table.Transition(slot, NvmeBusy, RequeuePending);
      if recycled == U64_MAX {
        error := true;
        return false, sick;
      }
      var rc;
      rc, sick := channel.Give(slot);
      if rc != 0 {
        FailLockedNow();
        return false, sick;
      }
      var back := table.Transition(slot, RequeuePending, DmaWritable);
      assert old(table.states[..])[slot := RequeuePending][slot := DmaWritable] == old(table.states[..])[slot := DmaWritable];
      recycled := recycled + 1;
      ok := true;
    }

    method FreeSlot(slot: nat) returns (ok: bool)
      requires Valid() && slot < table.states.Length && table.states[slot] == NvmeBusy
      modifies Repr()
      ensures Valid()
      ensures var r := FreeBusy(old(View()).q, old(View()).ring, slot); View() == After(r) && ok == r.ok
    {
      var freed := table.Transition(slot, NvmeBusy, Free);
      ok := channel.afterStop == 0;
      if !ok { FailLockedNow(); }
    }

    method CountCompleted(bytes: nat)
      requires Valid()
      modifies this
      ensures Valid() && View() == old(View()).(q := Counted(old(View()).q, bytes))
    {
      written, completed := written + bytes, completed + 1;
      buffered := if buffered >= bytes then buffered - bytes else 0;
    }

    /** `storage_complete_slot`. */
    method CompleteSlot(item: Item) returns (ok: bool, ghost sick: bool)
      requires Valid()
      modifies Repr()
      ensures Valid()
      ensures var r := Complete(old(View()).q, old(View()).ring, item, sick); View() == After(r) && ok == r.ok
    {
      sick := false;
      if item.slot >= table.states.Length { return false, sick; }
      if table.states[item.slot] != NvmeBusy || written + item.bytes > U64_MAX || completed == U64_MAX {
        error := true;
        return false, sick;
      }
      CountCompleted(item.bytes);
      if requeueEnabled && CanRequeue(worker) {
        ok, sick := Requeue(item.slot);
      } else {
        ok := FreeSlot(item.slot);
      }
    }

    // ---- The rest ----

    /** `storage_release_harvested_slot`. */
    method ReleaseHarvested(slot: nat) returns (ok: bool)
      requires Valid()
      modifies Repr()
      ensures Valid() && View() == Perform(geo, old(View()), ReleaseOp(slot))
      ensures ok <==> slot < table.states.Length && old(table.states[..])[slot] == DmaWritable
    {
      if slot >= table.states.Length { return false; }
      ok := table.Transition(slot, DmaWritable, Free);
      if !ok { error := true; }
    }

    /** `storage_mark_harvest_slot_failed`. */
    method MarkHarvestFailed(slot: nat)
      requires Valid()
      modifies Repr()
      ensures Valid() && View() == Perform(geo, old(View()), MarkFailedOp(slot))
    {
      if slot >= table.states.Length { return; }
      if table.states[slot] == DmaWritable {
        var moved := table.Transition(slot, DmaWritable, CompletedUnharvested);
      }
      error := true;
    }

    /** `storage_queue_transition_locked`. */
    method MoveTo(from: Worker, to: Worker) returns (ok: bool)
      requires Valid()
      modifies Repr()
      ensures Valid() && View() == Perform(geo, old(View()), StartOp(from, to))
      ensures ok <==> old(worker) == from && WorkerMay(from, to)
    {
      ok := worker == from && WorkerMay(from, to);
      if ok { worker := to; } else { error := true; }
    }

    /** `storage_queue_request_stop_state`. */
    method RequestStopNow() returns (ok: bool)
      requires Valid()
      modifies Repr()
      ensures Valid() && View() == Perform(geo, old(View()), RequestStopOp)
      ensures ok <==> old(worker) == WRunning || StopLatched(old(worker))
    {
      ok := true;
      if worker == WRunning {
        ok := MoveTo(WRunning, WWaitBoundary);
      } else if !StopLatched(worker) {
        FailLockedNow();
        ok := false;
      }
    }

    /** `storage_queue_latch_stop`: the queue's latch and the channel's under one lock. */
    method LatchStopNow() returns (first: bool)
      requires Valid()
      modifies Repr()
      ensures Valid() && View() == Perform(geo, old(View()), LatchOp)
      ensures first <==> old(worker) in {WRunning, WWaitBoundary}
    {
      first := false;
      if worker == WRunning { worker := WWaitBoundary; }
      if worker == WWaitBoundary {
        worker := WDmaQuiescing;
        first := true;
      }
      requeueEnabled := false;
      channel.Latch();
    }

    /** `storage_queue_mark_harvesting`. */
    method MarkHarvestingNow() returns (ok: bool)
      requires Valid()
      modifies Repr()
      ensures Valid() && View() == Perform(geo, old(View()), MarkHarvestingOp)
      ensures ok <==> old(worker) in {WFailed, WDmaQuiescing}
    {
      if worker == WFailed { return true; }
      ok := MoveTo(WDmaQuiescing, WHarvesting);
    }

    /** `storage_queue_finish`. */
    method FinishNow()
      requires Valid()
      modifies Repr()
      ensures Valid() && View() == Perform(geo, old(View()), FinishOp)
    {
      if worker == WRunning || worker == WHarvesting {
        var moved := MoveTo(worker, WDraining);
      } else if worker != WDraining && worker != WFinalizing && worker != WDone && worker != WFailed {
        FailLockedNow();
      }
    }
  }
}

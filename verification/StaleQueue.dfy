/** Queue and ring of two descriptors while the second slot completes before the first. */
module StaleQueue {
  import opened EngineModel
  import opened DmaRing
  import opened SlotTable
  import opened WriteQueue

  const GEO := Geometry(0, 512, 1024, 0)
  const FULL := Status(true, false, 512)
  const FIRST := Item(0, 512, 512, 0, 0, 0, 1, 0)
  const SECOND := Item(1, 512, 512, 1, 512, 1, 1, 512)
  /** The first slot once more, as it was harvested again. */
  const AGAIN := Item(0, 512, 512, 2, 1024, 2, 1, 0)
  const REQ0 := Req(0, 0, 1, 0, 512, 0, 0, 512)
  const REQ1 := Req(1, 1, 1, 512, 512, 1, 512, 512)
  const REQ2 := Req(0, 2, 1, 0, 512, 2, 1024, 512)

  /** A queue that has requeued every slot it completed. */
  function QueueOf(slots: seq<SlotState>, fifo: seq<Item>, buffered: nat, queued: nat, completed: nat): Queue {
    Queue(slots, fifo, buffered, completed * 512, queued, completed, completed, WRunning, true, false)
  }

  function RingOf(status: seq<Status>, next: nat, hwCount: nat, sequence: nat, tail: nat): Ring {
    Ring(status, next, hwCount, sequence, tail, false, true, 0)
  }

  lemma ItemFits(slots: seq<SlotState>, it: Item)
    requires it in [FIRST, SECOND, AGAIN] && |slots| == 2 && slots[it.slot] == DmaWritable
    ensures ItemOk(GEO, slots, it)
  {
  }

  lemma TwoPass(slots: seq<SlotState>, items: seq<Item>)
    requires slots == [DmaWritable, DmaWritable] && items == [FIRST, SECOND]
    ensures ItemsOk(GEO, slots, items)
  {
    ItemFits(slots, FIRST);
    ItemFits(slots, SECOND);
    TwoSum(items, FIRST, SECOND);
  }

  lemma OnePasses(slots: seq<SlotState>, items: seq<Item>)
    requires slots == [DmaWritable, DmaWritable] && items == [AGAIN]
    ensures ItemsOk(GEO, slots, items)
  {
    ItemFits(slots, AGAIN);
    OneSum(items, AGAIN);
  }

  lemma OneSum(items: seq<Item>, it: Item)
    requires items == [it]
    ensures SumBytes(items) == it.bytes
  {
    assert items[..|items| - 1] == [];
  }

  lemma TwoSum(items: seq<Item>, it: Item, jt: Item)
    requires items == [it, jt]
    ensures SumBytes(items) == it.bytes + jt.bytes
  {
    assert items[..|items| - 1] == [it];
    OneSum(items[..|items| - 1], it);
  }

  lemma TwoReady(slots: seq<SlotState>, items: seq<Item>)
    requires slots == [DmaWritable, DmaWritable] && items == [FIRST, SECOND]
    ensures MarkReady(slots, items) == [ReadyForNvme, ReadyForNvme] && CountState(slots, DmaWritable, 2) == 2
  {
    TwoPass(slots, items);
    MarkReadyAt(slots, items, 0);
    MarkReadyAt(slots, items, 1);
    assert items[0].slot == 0 && items[1].slot == 1;
  }

  lemma OneReady(slots: seq<SlotState>, items: seq<Item>)
    requires slots == [DmaWritable, DmaWritable] && items == [AGAIN]
    ensures MarkReady(slots, items) == [ReadyForNvme, DmaWritable] && CountState(slots, DmaWritable, 2) == 2
  {
    OnePasses(slots, items);
    MarkReadyAt(slots, items, 0);
    MarkReadyAt(slots, items, 1);
    assert items[0].slot == 0;
  }

  lemma PushTwo(q: Queue, items: seq<Item>)
    requires q.slots == [DmaWritable, DmaWritable] && q.fifo == [] && !q.error && q.buffered == 0 && q.queued == 0
    requires items == [FIRST, SECOND]
    ensures BatchOk(GEO, q, items)
    ensures PushBatch(GEO, q, items) == q.(slots := [ReadyForNvme, ReadyForNvme], fifo := items, buffered := 1024, queued := 2)
  {
    TwoPass(q.slots, items);
    TwoSum(items, FIRST, SECOND);
    TwoReady(q.slots, items);
    assert q.fifo + items == items;
  }

  lemma PushAgain(q: Queue, items: seq<Item>)
    requires q.slots == [DmaWritable, DmaWritable] && q.fifo == [] && !q.error && q.buffered == 0 && q.queued == 2
    requires items == [AGAIN]
    ensures BatchOk(GEO, q, items)
    ensures PushBatch(GEO, q, items) == q.(slots := [ReadyForNvme, DmaWritable], fifo := items, buffered := 512, queued := 3)
  {
    OnePasses(q.slots, items);
    OneSum(items, AGAIN);
    OneReady(q.slots, items);
    assert q.fifo + items == items;
  }

  lemma CompleteSecond(q: Queue, ring: Ring)
    requires q == QueueOf([NvmeBusy, NvmeBusy], [], 1024, 2, 0) && ring == RingOf([FULL, FULL], 0, 0, 2, 1)
    ensures Complete(q, ring, SECOND, false) ==
            Completion(QueueOf([NvmeBusy, DmaWritable], [], 512, 2, 1), RingOf([FULL, CLEARED], 0, 1, 2, 1), true)
  {
    var f := Complete(q, ring, SECOND, false);
    assert f.q.slots == [NvmeBusy, DmaWritable] && f.ring.status == [FULL, CLEARED];
  }

  lemma CompleteFirst(q: Queue, ring: Ring)
    requires q == QueueOf([NvmeBusy, DmaWritable], [], 512, 2, 1) && ring == RingOf([FULL, CLEARED], 1, 0, 3, 1)
    ensures Complete(q, ring, FIRST, false) ==
            Completion(QueueOf([DmaWritable, DmaWritable], [], 0, 2, 2), RingOf([CLEARED, CLEARED], 1, 1, 3, 0), true)
  {
    var f := Complete(q, ring, FIRST, false);
    assert f.q.slots == [DmaWritable, DmaWritable] && f.ring.status == [CLEARED, CLEARED];
  }

  lemma CompleteAgain(q: Queue, ring: Ring)
    requires q == QueueOf([NvmeBusy, DmaWritable], [], 512, 3, 2) && ring == RingOf([CLEARED, CLEARED], 1, 1, 3, 0)
    ensures Complete(q, ring, AGAIN, false) ==
            Completion(QueueOf([DmaWritable, DmaWritable], [], 0, 3, 3), RingOf([CLEARED, CLEARED], 1, 2, 3, 0), true)
  {
    var f := Complete(q, ring, AGAIN, false);
    assert f.q.slots == [DmaWritable, DmaWritable] && f.ring.status == [CLEARED, CLEARED];
  }
}

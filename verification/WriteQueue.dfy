/** The queue between the producer and the SSD writer: every locked section as one atomic operation on
    a value, and what the operations keep. */
module WriteQueue {
  import opened Media
  import opened EngineModel
  import opened DmaRing
  import opened SlotTable

  // ---- Worker states ----

  datatype Worker =
    | WInit | WReady | WArmed | WRunning | WWaitBoundary | WDmaQuiescing | WHarvesting | WDraining
    | WDrainedWaitStop | WFinalizing | WDone | WFailed

  /** `transition_allowed`. */
  predicate WorkerMay(from: Worker, to: Worker) {
    if to == WFailed then from != WDone && from != WFailed
    else
      match from
      case WInit => to == WReady
      case WReady => to == WArmed
      case WArmed => to == WRunning
      case WRunning => to == WWaitBoundary || to == WDraining
      case WWaitBoundary => to == WDmaQuiescing
      case WDmaQuiescing => to == WHarvesting
      case WHarvesting => to == WDraining
      case WDraining => to == WDrainedWaitStop
      case WDrainedWaitStop => to == WFinalizing
      case WFinalizing => to == WDone
      case _ => false
  }

  predicate CanRequeue(w: Worker) {
    w == WRunning
  }

  predicate ProducerDone(w: Worker) {
    w in {WDraining, WDrainedWaitStop, WFinalizing, WDone, WFailed}
  }

  predicate StopLatched(w: Worker) {
    ProducerDone(w) || w in {WWaitBoundary, WDmaQuiescing, WHarvesting}
  }

  /** Once RUNNING is left it is never entered again. */
  lemma NeverRunsAgain(from: Worker, to: Worker)
    requires WorkerMay(from, to) && StopLatched(from)
    ensures StopLatched(to) && !CanRequeue(to)
  {
  }

  // ---- Items ----

  datatype Item = Item(slot: nat, bytes: nat, mediaBytes: nat, chunkIndex: nat, fileOffset: nat,
                       startLba: nat, sectors: nat, hwAddr: nat)

  /** Where the slots of a channel lie. */
  datatype Geometry = Geometry(hwBase: nat, descBytes: nat, ringBytes: nat, maxLba: nat)

  function SumBytes(items: seq<Item>): nat {
    if items == [] then 0 else SumBytes(items[..|items| - 1]) + items[|items| - 1].bytes
  }

  lemma {:induction false} SumAppend(a: seq<Item>, b: seq<Item>)
    ensures SumBytes(a + b) == SumBytes(a) + SumBytes(b)
    decreases |b|
  {
    if b == [] {
      assert a + b == a;
    } else {
      assert (a + b)[..|a + b| - 1] == a + b[..|b| - 1];
      SumAppend(a, b[..|b| - 1]);
    }
  }

  predicate Distinct(items: seq<Item>) {
    forall i, j :: 0 <= i < j < |items| ==> items[i].slot != items[j].slot
  }

  predicate HasSlot(items: seq<Item>, slot: nat) {
    exists i :: 0 <= i < |items| && items[i].slot == slot
  }

  // ---- The queue ----

  datatype Queue = Queue(slots: seq<SlotState>, fifo: seq<Item>, buffered: nat, written: nat,
                         queued: nat, completed: nat, recycled: nat,
                         worker: Worker, requeueEnabled: bool, error: bool)

  function Created(n: nat): Queue {
    Queue(seq(n, _ => DmaWritable), [], 0, 0, 0, 0, 0, WInit, true, false)
  }

  /** `storage_queue_fail_locked`. */
  function FailLocked(q: Queue): Queue {
    q.(error := true, worker := if q.worker != WDone then WFailed else WDone)
  }

  /** A worker transition that sets the error flag when it is not allowed. */
  function MoveWorker(q: Queue, from: Worker, to: Worker): Queue {
    if q.worker == from && WorkerMay(from, to) then q.(worker := to) else q.(error := true)
  }

  // ---- Push ----

  /** The checks `storage_local_queue_push_batch` makes of one item. */
  predicate ItemOk(geo: Geometry, slots: seq<SlotState>, it: Item) {
    && 0 < it.bytes <= geo.descBytes && it.sectors != 0
    && it.slot < |slots| && slots[it.slot] == DmaWritable
    && geo.hwBase <= U64_MAX && it.slot <= (U64_MAX - geo.hwBase) / geo.descBytes
    && it.mediaBytes != 0 && it.mediaBytes <= geo.descBytes
    && it.mediaBytes == BytesToSectors(it.bytes) * SECTOR_BYTES && it.sectors == BytesToSectors(it.bytes)
    && it.startLba + it.sectors <= U64_MAX
    && (geo.maxLba != 0 ==> LbaRangeValid(geo.maxLba, it.startLba, it.sectors))
    && it.hwAddr == geo.hwBase + it.slot * geo.descBytes
    && it.hwAddr + it.mediaBytes <= U64_MAX
    && geo.hwBase + geo.ringBytes <= U64_MAX
    && it.hwAddr + it.mediaBytes <= geo.hwBase + geo.ringBytes
  }

  /** Every item passes, no slot occurs twice and the batch's bytes fit a counter. */
  predicate ItemsOk(geo: Geometry, slots: seq<SlotState>, items: seq<Item>) {
    && (forall i :: 0 <= i < |items| ==> ItemOk(geo, slots, items[i]))
    && Distinct(items) && SumBytes(items) <= U64_MAX
  }

  /** Whether one more item of a batch still passes. */
  lemma ItemsOkStep(geo: Geometry, slots: seq<SlotState>, items: seq<Item>, i: nat)
    requires i < |items| && ItemsOk(geo, slots, items[..i])
    ensures SumBytes(items[..i + 1]) == SumBytes(items[..i]) + items[i].bytes
    ensures ItemsOk(geo, slots, items[..i + 1]) <==>
            ItemOk(geo, slots, items[i]) && SumBytes(items[..i]) + items[i].bytes <= U64_MAX &&
            forall j :: 0 <= j < i ==> items[j].slot != items[i].slot
    ensures !ItemsOk(geo, slots, items[..i + 1]) ==> !ItemsOk(geo, slots, items)
  {
    var some, all := items[..i + 1], items;
    assert some[..i] == items[..i] && some[i] == items[i];
    assert forall k :: 0 <= k <= i ==> some[k] == items[k];
    assert items == some + items[i + 1..];
    SumAppend(some, items[i + 1..]);
  }

  lemma ItemsWritable(geo: Geometry, slots: seq<SlotState>, items: seq<Item>)
    requires ItemsOk(geo, slots, items)
    ensures Distinct(items)
    ensures forall i :: 0 <= i < |items| ==> items[i].slot < |slots| && slots[items[i].slot] == DmaWritable
  {
    assert forall i :: 0 <= i < |items| ==> ItemOk(geo, slots, items[i]);
  }

  predicate BatchOk(geo: Geometry, q: Queue, items: seq<Item>) {
    && items != [] && !q.error && geo.descBytes != 0
    && |q.fifo| + |items| <= |q.slots|
    && |items| <= CountState(q.slots, DmaWritable, |q.slots|)
    && ItemsOk(geo, q.slots, items)
    && q.buffered + SumBytes(items) <= U64_MAX && q.queued + |items| <= U64_MAX
  }

  /** The slots of `items`, the first ones first, become READY. */
  function MarkReady(slots: seq<SlotState>, items: seq<Item>): (r: seq<SlotState>)
    ensures |r| == |slots|
  {
    if items == [] then slots
    else
      var before := MarkReady(slots, items[..|items| - 1]);
      var slot := items[|items| - 1].slot;
      if slot < |slots| then before[slot := ReadyForNvme] else before
  }

  lemma {:induction false} MarkReadyAt(slots: seq<SlotState>, items: seq<Item>, s: nat)
    requires s < |slots|
    ensures MarkReady(slots, items)[s] == if HasSlot(items, s) then ReadyForNvme else slots[s]
  {
    if items != [] {
      var rest, last := items[..|items| - 1], items[|items| - 1];
      MarkReadyAt(slots, rest, s);
      assert HasSlot(items, s) <==> HasSlot(rest, s) || last.slot == s by {
        if HasSlot(rest, s) { var i :| 0 <= i < |rest| && rest[i].slot == s; assert items[i].slot == s; }
        if HasSlot(items, s) && last.slot != s {
          var i :| 0 <= i < |items| && items[i].slot == s;
          assert rest[i].slot == s;
        }
      }
    }
  }

  /** `storage_local_queue_push_batch`: all of the batch or nothing but the error flag. */
  function PushBatch(geo: Geometry, q: Queue, items: seq<Item>): Queue {
    if items == [] then q
    else if !BatchOk(geo, q, items) then q.(error := true)
    else q.(slots := MarkReady(q.slots, items), fifo := q.fifo + items,
            buffered := q.buffered + SumBytes(items), queued := q.queued + |items|)
  }

  // ---- Pop ----

  datatype PopResult = PopError | PopDrained | PopEmpty | PopItem(item: Item)

  /** `storage_queue_pop`, past any waiting. */
  function Pop(q: Queue): (Queue, PopResult) {
    if q.error then (q, PopError)
    else if q.fifo == [] then (q, if ProducerDone(q.worker) then PopDrained else PopEmpty)
    else
      var item := q.fifo[0];
      var rest := q.(fifo := q.fifo[1..]);
      if !CanMove(q.slots, item.slot, ReadyForNvme, NvmeBusy) then (rest.(error := true), PopError)
      else (rest.(slots := q.slots[item.slot := NvmeBusy]), PopItem(item))
  }

  // ---- Complete ----

  datatype Completion = Completion(q: Queue, ring: Ring, ok: bool)

  /** The byte and slot counts after a completion. */
  function Counted(q: Queue, bytes: nat): Queue {
    q.(written := q.written + bytes, completed := q.completed + 1,
       buffered := if q.buffered >= bytes then q.buffered - bytes else 0)
  }

  /** After the stop the slot is only freed; a requeue counted after the stop latch is fatal. */
  function FreeBusy(q: Queue, ring: Ring, slot: nat): Completion
    requires slot < |q.slots|
  {
    var freed := q.(slots := q.slots[slot := Free]);
    if ring.afterStop != 0 then Completion(FailLocked(freed), ring, false) else Completion(freed, ring, true)
  }

  /** Before the stop the slot goes back to the DMA channel. */
  function RequeueBusy(q: Queue, ring: Ring, slot: nat, sick: bool): Completion
    requires slot < |q.slots| && RingOk(ring)
  {
    var pending := q.(slots := q.slots[slot := RequeuePending]);
    var r := RequeueOne(ring, slot, sick);
    if q.recycled == U64_MAX then Completion(pending.(error := true), ring, false)
    else if r.rc != 0 then Completion(FailLocked(pending), r.ring, false)
    else Completion(q.(slots := q.slots[slot := DmaWritable], recycled := q.recycled + 1), r.ring, true)
  }

  /** `storage_complete_slot`; `sick` is what the channel shows while the slot is requeued. */
  function Complete(q: Queue, ring: Ring, item: Item, sick: bool): Completion
    requires RingOk(ring)
  {
    if item.slot >= |q.slots| then Completion(q, ring, false)
    else if q.slots[item.slot] != NvmeBusy || q.written + item.bytes > U64_MAX || q.completed == U64_MAX then
      Completion(q.(error := true), ring, false)
    else if q.requeueEnabled && CanRequeue(q.worker) then RequeueBusy(Counted(q, item.bytes), ring, item.slot, sick)
    else FreeBusy(Counted(q, item.bytes), ring, item.slot)
  }

  // ---- Harvested slots that are not queued ----

  /** `storage_release_harvested_slot`. */
  function Release(q: Queue, slot: nat): Queue {
    if slot >= |q.slots| then q
    else if q.slots[slot] == DmaWritable then q.(slots := q.slots[slot := Free])
    else q.(error := true)
  }

  /** `storage_mark_harvest_slot_failed`. */
  function MarkFailed(q: Queue, slot: nat): Queue {
    if slot >= |q.slots| then q
    else q.(error := true,
            slots := if q.slots[slot] == DmaWritable then q.slots[slot := CompletedUnharvested] else q.slots)
  }

  // ---- Stop ----

  /** `storage_queue_request_stop_state`. */
  function RequestStop(q: Queue): Queue {
    if q.worker == WRunning then q.(worker := WWaitBoundary)
    else if !StopLatched(q.worker) then FailLocked(q)
    else q
  }

  /** `storage_queue_latch_stop`, up to the DMA side, which it latches under the same lock. */
  function LatchQueue(q: Queue): Queue {
    q.(worker := if q.worker == WRunning || q.worker == WWaitBoundary then WDmaQuiescing else q.worker,
       requeueEnabled := false)
  }

  /** `storage_queue_mark_harvesting`. */
  function MarkHarvesting(q: Queue): Queue {
    if q.worker == WFailed then q else MoveWorker(q, WDmaQuiescing, WHarvesting)
  }

  /** `storage_queue_finish`. */
  function Finish(q: Queue): Queue {
    if q.worker == WRunning || q.worker == WHarvesting then q.(worker := WDraining)
    else if q.worker !in {WDraining, WFinalizing, WDone, WFailed} then FailLocked(q)
    else q
  }

  // ---- Any interleaving of the two threads ----

  /** The queue and the DMA channel it shares with the harvester. */
  datatype Channel = Channel(q: Queue, ring: Ring)

  datatype Op =
    | PushOp(items: seq<Item>) | PopOp | CompleteOp(item: Item, sick: bool)
    | ReleaseOp(slot: nat) | MarkFailedOp(slot: nat)
    | StartOp(from: Worker, to: Worker) | RequestStopOp | LatchOp | MarkHarvestingOp | FinishOp | FailOp
    | HarvestOp(halted: bool, sick: bool) | FillOp(slot: nat, status: Status)

  function After(c: Completion): Channel {
    Channel(c.q, c.ring)
  }

  function HarvestRing(h: Harvest): Ring {
    h.ring
  }

  function Perform(geo: Geometry, c: Channel, op: Op): Channel
    requires RingOk(c.ring)
  {
    match op
    case PushOp(items) => c.(q := PushBatch(geo, c.q, items))
    case PopOp => c.(q := Pop(c.q).0)
    case CompleteOp(item, sick) => After(Complete(c.q, c.ring, item, sick))
    case ReleaseOp(slot) => c.(q := Release(c.q, slot))
    case MarkFailedOp(slot) => c.(q := MarkFailed(c.q, slot))
    case StartOp(from, to) => c.(q := MoveWorker(c.q, from, to))
    case RequestStopOp => c.(q := RequestStop(c.q))
    case LatchOp => Channel(LatchQueue(c.q), LatchStop(c.ring))
    case MarkHarvestingOp => c.(q := MarkHarvesting(c.q))
    case FinishOp => c.(q := Finish(c.q))
    case FailOp => c.(q := FailLocked(c.q))
    case HarvestOp(halted, sick) => c.(ring := HarvestRing(HarvestOne(c.ring, halted, sick)))
    case FillOp(slot, status) =>
      if slot < |c.ring.status| then c.(ring := c.ring.(status := c.ring.status[slot := status])) else c
  }

  ghost predicate Reaches(geo: Geometry, c: Channel, ops: seq<Op>, d: Channel)
    decreases ops
  {
    if ops == [] then d == c
    else RingOk(c.ring) && Reaches(geo, Perform(geo, c, ops[0]), ops[1..], d)
  }

  /** The software latch and the DMA latch are set together, and nothing was requeued after them. */
  predicate StopOk(c: Channel) {
    && RingOk(c.ring) && |c.ring.status| == |c.q.slots|
    && c.ring.stopLatched == !c.q.requeueEnabled == !c.ring.requeueEnabled
    && c.ring.afterStop == 0
  }

  ghost function Writable(c: Channel): set<nat> {
    set s: nat | s < |c.q.slots| && c.q.slots[s] == DmaWritable
  }

  lemma PerformKeepsStop(geo: Geometry, c: Channel, op: Op)
    requires StopOk(c)
    ensures StopOk(Perform(geo, c, op))
    ensures !c.q.requeueEnabled ==> !Perform(geo, c, op).q.requeueEnabled
    ensures !c.q.requeueEnabled ==> Writable(Perform(geo, c, op)) <= Writable(c)
    ensures !c.q.requeueEnabled ==> Perform(geo, c, op).q.recycled == c.q.recycled
    ensures !c.q.requeueEnabled ==> Perform(geo, c, op).ring.tail == c.ring.tail
  {
    match op
    case PushOp(items) => forall s: nat | s < |c.q.slots| { MarkReadyAt(c.q.slots, items, s); }
    case _ =>
  }

  /** Stop linearises: in every interleaving of pushes, pops, completions, harvests, failures and stop
      steps, once the latch is set nothing is requeued (TAILDESC does not move, the count of requeues
      after the stop stays 0) and the writable slots only get fewer. */
  lemma {:induction false} StopLinearises(geo: Geometry, c: Channel, ops: seq<Op>, d: Channel)
    requires StopOk(c) && Reaches(geo, c, ops, d)
    ensures StopOk(d) && d.ring.afterStop == 0
    ensures !c.q.requeueEnabled ==> Writable(d) <= Writable(c)
    ensures !c.q.requeueEnabled ==> d.q.recycled == c.q.recycled && d.ring.tail == c.ring.tail
    decreases ops
  {
    if ops != [] {
      PerformKeepsStop(geo, c, ops[0]);
      StopLinearises(geo, Perform(geo, c, ops[0]), ops[1..], d);
    }
  }

  lemma CreatedStopOk(n: nat)
    requires n > 0
    ensures StopOk(Channel(Created(n), Started(n)))
  {
  }

  /** So from the created queue and the started ring on: whatever led to the latch and whatever follows it. */
  lemma StopFromTheStart(geo: Geometry, n: nat, ops: seq<Op>, d: Channel, later: seq<Op>, e: Channel)
    requires n > 0 && Reaches(geo, Channel(Created(n), Started(n)), ops, d)
    requires RingOk(d.ring) && !d.q.requeueEnabled && Reaches(geo, d, later, e)
    ensures Writable(e) <= Writable(d) && e.q.recycled == d.q.recycled && e.ring.tail == d.ring.tail && e.ring.afterStop == 0
  {
    CreatedStopOk(n);
    StopLinearises(geo, Channel(Created(n), Started(n)), ops, d);
    StopLinearises(geo, d, later, e);
  }

  // ---- The ledger ----

  function Without(items: seq<Item>, k: nat): seq<Item>
    requires k < |items|
  {
    items[..k] + items[k + 1..]
  }

  lemma SumHead(items: seq<Item>)
    requires items != []
    ensures SumBytes(items) == items[0].bytes + SumBytes(items[1..])
  {
    var first := [items[0]];
    assert first[..0] == [] && SumBytes(first) == items[0].bytes;
    assert items == first + items[1..];
    SumAppend(first, items[1..]);
  }

  lemma SumWithout(items: seq<Item>, k: nat)
    requires k < |items|
    ensures SumBytes(items) == SumBytes(Without(items, k)) + items[k].bytes
  {
    var before, after := items[..k], items[k..];
    assert items == before + after;
    SumAppend(before, after);
    SumHead(after);
    SumAppend(before, after[1..]);
    assert Without(items, k) == before + after[1..];
  }

  /** The slots in `state` are exactly those of `items`. */
  predicate Owns(slots: seq<SlotState>, state: SlotState, items: seq<Item>) {
    && Distinct(items)
    && (forall i :: 0 <= i < |items| ==> items[i].slot < |slots|)
    && (forall s :: 0 <= s < |slots| ==> (slots[s] == state <==> HasSlot(items, s)))
  }

  /** `busy` are the items popped and not yet completed, `total` the bytes ever queued. READY slots are
      exactly the FIFO's, BUSY slots exactly the busy items', and every queued byte is either written or
      buffered. */
  predicate Ledger(q: Queue, busy: seq<Item>, total: nat) {
    && Owns(q.slots, ReadyForNvme, q.fifo) && Owns(q.slots, NvmeBusy, busy)
    && q.buffered == SumBytes(q.fifo) + SumBytes(busy)
    && total == q.written + q.buffered
    && q.queued == q.completed + |q.fifo| + |busy|
  }

  lemma SlotTaken(items: seq<Item>, i: nat)
    requires i < |items|
    ensures HasSlot(items, items[i].slot)
  {
  }

  /** Distinct slots in one state are no more than the count of that state. */
  lemma {:induction false} DistinctCounted(slots: seq<SlotState>, items: seq<Item>, state: SlotState)
    requires Distinct(items) && forall i :: 0 <= i < |items| ==> items[i].slot < |slots| && slots[items[i].slot] == state
    ensures |items| <= CountState(slots, state, |slots|)
    decreases |items|
  {
    if items != [] {
      var rest, last := items[..|items| - 1], items[|items| - 1];
      var other := if state == Free then NvmeBusy else Free;
      DistinctCounted(slots[last.slot := other], rest, state);
      CountStateUpdate(slots, last.slot, other, state, |slots|);
    }
  }

  /** What a batch is refused for: never for lack of room or of writable slots, since distinct writable
      slots always fit. */
  lemma PushVerdict(geo: Geometry, q: Queue, busy: seq<Item>, total: nat, items: seq<Item>)
    requires Ledger(q, busy, total)
    ensures BatchOk(geo, q, items) <==>
            items != [] && !q.error && ItemsOk(geo, q.slots, items) &&
            q.buffered + SumBytes(items) <= U64_MAX && q.queued + |items| <= U64_MAX
  {
    if ItemsOk(geo, q.slots, items) {
      ItemsWritable(geo, q.slots, items);
      DistinctCounted(q.slots, items, DmaWritable);
      forall i | 0 <= i < |q.fifo|
        ensures q.slots[q.fifo[i].slot] == ReadyForNvme
      {
        SlotTaken(q.fifo, i);
      }
      DistinctCounted(q.slots, q.fifo, ReadyForNvme);
      AllCounted(q.slots, |q.slots|);
      if items != [] { assert ItemOk(geo, q.slots, items[0]); }
    }
  }

  lemma HasSlotAppend(a: seq<Item>, b: seq<Item>, s: nat)
    ensures HasSlot(a + b, s) <==> HasSlot(a, s) || HasSlot(b, s)
  {
    if HasSlot(a, s) { var i :| 0 <= i < |a| && a[i].slot == s; assert (a + b)[i].slot == s; }
    if HasSlot(b, s) { var i :| 0 <= i < |b| && b[i].slot == s; assert (a + b)[|a| + i].slot == s; }
    if HasSlot(a + b, s) {
      var i :| 0 <= i < |a + b| && (a + b)[i].slot == s;
      if i < |a| { assert a[i].slot == s; } else { assert b[i - |a|].slot == s; }
    }
  }

  lemma OwnsAppend(slots: seq<SlotState>, slots': seq<SlotState>, state: SlotState, items: seq<Item>, more: seq<Item>)
    requires Owns(slots, state, items) && |slots'| == |slots| && Distinct(more)
    requires forall j :: 0 <= j < |more| ==> more[j].slot < |slots| && slots[more[j].slot] != state
    requires forall s :: 0 <= s < |slots| ==> (slots'[s] == state <==> slots[s] == state || HasSlot(more, s))
    ensures Owns(slots', state, items + more)
  {
    forall i, j | 0 <= i < |items| && 0 <= j < |more|
      ensures items[i].slot != more[j].slot
    {
      SlotTaken(items, i);
    }
    forall s | 0 <= s < |slots|
      ensures HasSlot(items + more, s) <==> slots'[s] == state
    {
      HasSlotAppend(items, more, s);
    }
  }

  lemma OwnsWithout(slots: seq<SlotState>, slots': seq<SlotState>, state: SlotState, items: seq<Item>, k: nat)
    requires Owns(slots, state, items) && |slots'| == |slots| && k < |items|
    requires forall s :: 0 <= s < |slots| ==> (slots'[s] == state <==> slots[s] == state && s != items[k].slot)
    ensures Owns(slots', state, Without(items, k))
  {
    var rest := Without(items, k);
    assert forall i :: 0 <= i < |rest| ==> rest[i] == if i < k then items[i] else items[i + 1];
    forall s | 0 <= s < |slots|
      ensures HasSlot(rest, s) <==> slots'[s] == state
    {
      HasSlotWithout(items, k, s);
    }
  }

  /** The state of every slot after a batch was accepted. */
  lemma PushedSlots(geo: Geometry, q: Queue, items: seq<Item>)
    requires BatchOk(geo, q, items)
    ensures forall s :: 0 <= s < |q.slots| ==>
              PushBatch(geo, q, items).slots[s] == if HasSlot(items, s) then ReadyForNvme else q.slots[s]
    ensures forall s :: 0 <= s < |q.slots| && HasSlot(items, s) ==> q.slots[s] == DmaWritable
    ensures forall j :: 0 <= j < |items| ==> items[j].slot < |q.slots| && q.slots[items[j].slot] == DmaWritable
  {
    ItemsWritable(geo, q.slots, items);
    forall s | 0 <= s < |q.slots| { MarkReadyAt(q.slots, items, s); }
  }

  /** An accepted batch joins the FIFO in order, its slots turn READY and its bytes are buffered; a refused
      one leaves everything but the error flag. */
  lemma PushKeepsLedger(geo: Geometry, q: Queue, busy: seq<Item>, total: nat, items: seq<Item>)
    requires Ledger(q, busy, total)
    ensures var p := PushBatch(geo, q, items);
            if BatchOk(geo, q, items)
            then p.fifo == q.fifo + items && !p.error && Ledger(p, busy, total + SumBytes(items)) &&
                 (forall s :: 0 <= s < |q.slots| ==>
                    p.slots[s] == if HasSlot(items, s) then ReadyForNvme else q.slots[s])
            else p == q.(error := items != [] || q.error) && Ledger(p, busy, total)
  {
    if BatchOk(geo, q, items) {
      var p := PushBatch(geo, q, items);
      PushedSlots(geo, q, items);
      SumAppend(q.fifo, items);
      OwnsAppend(q.slots, p.slots, ReadyForNvme, q.fifo, items);
    }
  }

  lemma OneMore(items: seq<Item>, item: Item)
    ensures SumBytes(items + [item]) == SumBytes(items) + item.bytes
    ensures forall s :: HasSlot([item], s) <==> s == item.slot
  {
    assert (items + [item])[..|items|] == items;
    assert [item][0].slot == item.slot;
  }

  /** A pop takes the oldest item; it cannot fail while the error flag is clear. */
  lemma PopKeepsLedger(q: Queue, busy: seq<Item>, total: nat)
    requires Ledger(q, busy, total) && !q.error
    ensures q.fifo == [] ==> Pop(q) == (q, if ProducerDone(q.worker) then PopDrained else PopEmpty)
    ensures q.fifo != [] ==>
            var p := Pop(q).0;
            && Pop(q).1 == PopItem(q.fifo[0]) && p.fifo == q.fifo[1..] && !p.error
            && p.slots == q.slots[q.fifo[0].slot := NvmeBusy]
            && Ledger(p, busy + [q.fifo[0]], total)
  {
    if q.fifo != [] {
      var item, p := q.fifo[0], Pop(q).0;
      SlotTaken(q.fifo, 0);
      assert q.fifo[1..] == Without(q.fifo, 0);
      SumWithout(q.fifo, 0);
      OneMore(busy, item);
      OwnsWithout(q.slots, p.slots, ReadyForNvme, q.fifo, 0);
      OwnsAppend(q.slots, p.slots, NvmeBusy, busy, [item]);
    }
  }

  lemma HasSlotWithout(items: seq<Item>, k: nat, s: nat)
    requires k < |items| && Distinct(items)
    ensures HasSlot(Without(items, k), s) <==> HasSlot(items, s) && s != items[k].slot
  {
    var rest := Without(items, k);
    assert forall i :: 0 <= i < |rest| ==> rest[i] == if i < k then items[i] else items[i + 1];
    if HasSlot(items, s) && s != items[k].slot {
      var i :| 0 <= i < |items| && items[i].slot == s;
      assert (if i < k then rest[i] else rest[i - 1]) == items[i];
    }
  }

  /** A completed item leaves the busy ones and its bytes move from buffered to written; the clamp of the
      buffered count to 0 is never used. */
  lemma CompleteKeepsLedger(q: Queue, ring: Ring, busy: seq<Item>, total: nat, k: nat, sick: bool)
    requires Ledger(q, busy, total) && RingOk(ring) && k < |busy|
    ensures q.buffered >= busy[k].bytes
    ensures var c := Complete(q, ring, busy[k], sick);
            c.ok ==>
              && Ledger(c.q, Without(busy, k), total) && c.q.fifo == q.fifo && c.q.error == q.error
              && c.q.written == q.written + busy[k].bytes && c.q.buffered == q.buffered - busy[k].bytes
              && c.q.slots == q.slots[busy[k].slot := if q.requeueEnabled && CanRequeue(q.worker) then DmaWritable else Free]
  {
    SumWithout(busy, k);
    SlotTaken(busy, k);
    var c := Complete(q, ring, busy[k], sick);
    if c.ok {
      OwnsWithout(q.slots, c.q.slots, NvmeBusy, busy, k);
    }
  }

  /** Exactly when completing a busy item fails. */
  lemma CompleteVerdict(q: Queue, ring: Ring, busy: seq<Item>, total: nat, k: nat, sick: bool)
    requires Ledger(q, busy, total) && StopOk(Channel(q, ring)) && k < |busy|
    requires total <= U64_MAX && q.queued <= U64_MAX && q.recycled < U64_MAX
    requires ring.stopLatched || ring.hwCount < |ring.status|
    ensures Complete(q, ring, busy[k], sick).ok <==> !(sick && q.requeueEnabled && CanRequeue(q.worker))
  {
    SumWithout(busy, k);
    SlotTaken(busy, k);
  }

  lemma CreatedLedger(n: nat)
    ensures Ledger(Created(n), [], 0)
  {
  }
}

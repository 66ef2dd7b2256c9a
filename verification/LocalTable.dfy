/** What the writers that put one range at a time on the SSD have in common: commands of one context in a
    local table, kept at the queue depth. What they differ in is how they cut the range. */
module LocalTable {
  import opened Media
  import opened NvmeTables
  import opened EngineModel
  import opened EngineInvariant
  import opened EngineSafety
  import opened Tiling

  // ---- The state as values ----

  predicate CountedOk(qd: nat, pending: seq<Pending>, c: Context) {
    && |pending| == CAPACITY && qd <= CAPACITY
    && c.next <= c.totalSectors && c.submitted == c.completed + c.failed + c.inflight
    && c.inflight == CountValid(pending, CAPACITY) <= qd
  }

  /** The command covers sectors of the context that count as submitted. */
  predicate Inside(p: Pending, c: Context) {
    p.slot == c.slot && c.baseLba <= p.lba && p.lba + p.sectors <= c.baseLba + c.next
  }

  predicate EntriesOk(pending: seq<Pending>, c: Context) {
    && (forall k :: 0 <= k < |pending| && pending[k].valid ==> 1 <= pending[k].cid <= U16_MAX && Inside(pending[k], c))
    && (forall k, m :: 0 <= k < m < |pending| && pending[k].valid && pending[m].valid ==> pending[k].cid != pending[m].cid)
  }

  predicate Covers(p: Pending, l: nat) {
    p.lba <= l < p.lba + p.sectors
  }

  /** What a command writes at an LBA it covers. */
  function CommandSector(ddr: Ddr, p: Pending, l: nat): Sector
    requires Covers(p, l)
  {
    SectorAt(ddr, p.ddrAddr + (l - p.lba) * SECTOR_BYTES)
  }

  /** The command writes what `ref` has. */
  ghost predicate Faithful(p: Pending, ddr: Ddr, ref: Disk) {
    forall l: nat {:trigger CommandSector(ddr, p, l)} :: Covers(p, l) ==> ref(l) == CommandSector(ddr, p, l)
  }

  ghost predicate EntriesFaithful(pending: seq<Pending>, ddr: Ddr, ref: Disk) {
    forall k :: 0 <= k < |pending| && pending[k].valid ==> Faithful(pending[k], ddr, ref)
  }

  /** `ref` is the disk the writer is to leave; the SSD is that disk wherever nothing is in flight or still
      to be submitted. */
  ghost predicate DiskOk(pending: seq<Pending>, c: Context, w: World, ref: Disk) {
    && DeviceOk(pending, w.outstanding) && MovedStored(w, ref) && EntriesFaithful(pending, w.ddr, ref)
    && (forall l: nat :: l < c.baseLba || c.baseLba + c.totalSectors <= l ==> w.ssd(l) == ref(l))
    && StoredSoFar(c, pending, w.ssd, ref)
  }

  /** Bytes retired so far: media bytes and what the payload counter was given. */
  datatype Tally = Tally(media: nat, payload: nat)

  function PendingTally(pending: seq<Pending>, n: nat): Tally
    requires n <= |pending|
  {
    if n == 0 then Tally(0, 0)
    else
      var t := PendingTally(pending, n - 1);
      if pending[n - 1].valid then Tally(t.media + pending[n - 1].bytes, t.payload + RecordedPayload(pending[n - 1])) else t
  }

  lemma {:induction false} PendingTallyUpdate(pending: seq<Pending>, k: nat, p: Pending, n: nat)
    requires k < |pending| && n <= |pending|
    ensures var before, after := PendingTally(pending, n), PendingTally(pending[k := p], n);
            if k < n
            then after.media + (if pending[k].valid then pending[k].bytes else 0) == before.media + (if p.valid then p.bytes else 0) &&
                 after.payload + (if pending[k].valid then RecordedPayload(pending[k]) else 0) ==
                 before.payload + (if p.valid then RecordedPayload(p) else 0)
            else after == before
  {
    if n != 0 { PendingTallyUpdate(pending, k, p, n - 1); }
  }

  lemma {:induction false} NoTally(pending: seq<Pending>, n: nat)
    requires n <= |pending| && forall k :: 0 <= k < n ==> !pending[k].valid
    ensures PendingTally(pending, n) == Tally(0, 0)
  {
    if n != 0 { NoTally(pending, n - 1); }
  }

  /** Retired, in flight and still to be cut: together the whole range. */
  predicate TallyOk(pending: seq<Pending>, todo: seq<Pending>, done: Tally, total: Tally) {
    && |pending| == CAPACITY
    && var flying := PendingTally(pending, CAPACITY);
       && done.media + flying.media + CommandBytes(todo) == total.media
       && done.payload + flying.payload + SumRecorded(todo) == total.payload
  }

  // ---- What each step keeps ----

  lemma PostCounts(qd: nat, pending: seq<Pending>, c: Context, k: nat, p: Pending)
    requires CountedOk(qd, pending, c) && c.inflight < qd && k < CAPACITY && !pending[k].valid && p.valid
    requires c.next + p.sectors <= c.totalSectors
    ensures CountedOk(qd, pending[k := p], Advance(c, p.sectors))
  {
    CountValidUpdate(pending, k, p, CAPACITY);
  }

  lemma PostEntries(pending: seq<Pending>, c: Context, k: nat, p: Pending)
    requires EntriesOk(pending, c) && k < |pending| && !pending[k].valid && p.valid
    requires 1 <= p.cid <= U16_MAX && !CidLive(pending, p.cid) && Inside(p, Advance(c, p.sectors))
    ensures EntriesOk(pending[k := p], Advance(c, p.sectors))
  {
  }

  lemma PostDisk(pending: seq<Pending>, c: Context, w: World, ref: Disk, k: nat, p: Pending, posted: bool)
    requires DiskOk(pending, c, w, ref) && k < |pending| && !pending[k].valid && p.valid && !CidLive(pending, p.cid)
    requires p.slot == c.slot && p.lba == c.baseLba + c.next && Faithful(p, w.ddr, ref)
    ensures DiskOk(pending[k := p], Advance(c, p.sectors),
                   if posted then w.(outstanding := w.outstanding[p.cid := Cmd(p.lba, p.sectors, p.ddrAddr, {})]) else w, ref)
  {
    PostKeepsDevice(pending, w, ref, k, p);
    var d := Advance(c, p.sectors);
    forall l: nat | d.baseLba <= l < d.baseLba + d.next && !InFlightAt(pending[k := p], d.slot, l)
      ensures w.ssd(l) == ref(l)
    {
      assert pending[k := p][k] == p;
      if InFlightAt(pending, c.slot, l) { InFlightKept(pending, k, p, c.slot, l); }
    }
  }

  lemma PostTally(pending: seq<Pending>, todo: seq<Pending>, done: Tally, total: Tally, k: nat, p: Pending)
    requires TallyOk(pending, todo, done, total) && k < CAPACITY && !pending[k].valid && p.valid
    requires todo != [] && p.bytes == todo[0].bytes && p.payloadBytes == todo[0].payloadBytes
    ensures TallyOk(pending[k := p], todo[1..], done, total)
  {
    PendingTallyUpdate(pending, k, p, CAPACITY);
  }

  /** An entry that did not reach the device disappears again. */
  lemma DropKeepsTable(qd: nat, pending: seq<Pending>, c: Context, w: World, ref: Disk, todo: seq<Pending>,
                       done: Tally, total: Tally, k: nat, p: Pending)
    requires CountedOk(qd, pending, c) && EntriesOk(pending, c) && DiskOk(pending, c, w, ref) && TallyOk(pending, todo, done, total)
    requires k < CAPACITY && !pending[k].valid && !p.valid
    ensures var after := pending[k := p];
            CountedOk(qd, after, c) && EntriesOk(after, c) && DiskOk(after, c, w, ref) && TallyOk(after, todo, done, total)
  {
    CountValidUpdate(pending, k, p, CAPACITY);
    PendingTallyUpdate(pending, k, p, CAPACITY);
    DropKeepsLookups(pending, k, p, w.outstanding);
  }

  lemma RetireCounts(qd: nat, pending: seq<Pending>, c: Context, k: nat, error: bool)
    requires CountedOk(qd, pending, c) && k < CAPACITY && pending[k].valid
    ensures c.inflight > 0
    ensures CountedOk(qd, pending[k := pending[k].(valid := false)], Retired(c, error))
  {
    NoneValid(pending, CAPACITY);
    CountValidUpdate(pending, k, pending[k].(valid := false), CAPACITY);
  }

  lemma RetireDisk(pending: seq<Pending>, c: Context, w: World, ref: Disk, k: nat)
    requires EntriesOk(pending, c) && DiskOk(pending, c, w, ref) && k < |pending| && pending[k].valid && c.inflight > 0
    requires pending[k].cid in w.outstanding
    requires forall m :: 0 <= m < w.outstanding[pending[k].cid].sectors ==> m in w.outstanding[pending[k].cid].moved
    ensures var out := w.(outstanding := w.outstanding - {pending[k].cid});
            DiskOk(pending[k := pending[k].(valid := false)], Retired(c, false), out, ref)
  {
    RetireKeepsDevice(pending, w, ref, k);
    var after, d := pending[k := pending[k].(valid := false)], Retired(c, false);
    forall l: nat | d.baseLba <= l < d.baseLba + d.next && !InFlightAt(after, d.slot, l)
      ensures w.ssd(l) == ref(l)
    {
      if InFlightAt(pending, c.slot, l) {
        InFlightLost(pending, k, c.slot, l);
        EntryStored(pending, c, w, ref, k, l);
      }
    }
  }

  /** What an entry wrote is on the disk once all its sectors moved. */
  lemma EntryStored(pending: seq<Pending>, c: Context, w: World, ref: Disk, k: nat, l: nat)
    requires EntriesOk(pending, c) && DeviceOk(pending, w.outstanding) && MovedStored(w, ref)
    requires k < |pending| && pending[k].valid && pending[k].lba <= l < pending[k].lba + pending[k].sectors
    requires pending[k].cid in w.outstanding
    requires forall m :: 0 <= m < w.outstanding[pending[k].cid].sectors ==> m in w.outstanding[pending[k].cid].moved
    ensures w.ssd(l) == ref(l)
  {
    var cmd := w.outstanding[pending[k].cid];
    assert InTable(pending, pending[k].cid, cmd);
    var m :| 0 <= m < |pending| && pending[m].valid && pending[m].cid == pending[k].cid && SameCommand(cmd, pending[m]);
    assert m == k && l - cmd.lba in cmd.moved && cmd.lba + (l - cmd.lba) == l;
  }

  lemma RetireTally(pending: seq<Pending>, todo: seq<Pending>, done: Tally, total: Tally, k: nat)
    requires TallyOk(pending, todo, done, total) && k < CAPACITY && pending[k].valid
    ensures TallyOk(pending[k := pending[k].(valid := false)], todo,
                    Tally(done.media + pending[k].bytes, done.payload + RecordedPayload(pending[k])), total)
  {
    PendingTallyUpdate(pending, k, pending[k].(valid := false), CAPACITY);
  }

  /** A completion without error keeps the table. */
  lemma RetireKeepsTable(qd: nat, pending: seq<Pending>, c: Context, w: World, ref: Disk, todo: seq<Pending>,
                         done: Tally, total: Tally, k: nat)
    requires CountedOk(qd, pending, c) && EntriesOk(pending, c) && DiskOk(pending, c, w, ref) && TallyOk(pending, todo, done, total)
    requires k < CAPACITY && pending[k].valid && pending[k].cid in w.outstanding
    requires forall m :: 0 <= m < w.outstanding[pending[k].cid].sectors ==> m in w.outstanding[pending[k].cid].moved
    ensures c.inflight > 0
    ensures var p := pending[k];
            var after, d := pending[k := p.(valid := false)], Retired(c, false);
            && CountedOk(qd, after, d) && EntriesOk(after, d)
            && DiskOk(after, d, w.(outstanding := w.outstanding - {p.cid}), ref)
            && TallyOk(after, todo, Tally(done.media + p.bytes, done.payload + RecordedPayload(p)), total)
  {
    RetireCounts(qd, pending, c, k, false);
    RetireDisk(pending, c, w, ref, k);
    RetireTally(pending, todo, done, total, k);
  }

  /** A sector the device moves is the one `ref` has. */
  lemma MoveDisk(pending: seq<Pending>, c: Context, w: World, ref: Disk, cid: nat, m: nat)
    requires EntriesOk(pending, c) && DiskOk(pending, c, w, ref) && c.next <= c.totalSectors
    requires cid in w.outstanding && m < w.outstanding[cid].sectors
    ensures DiskOk(pending, c, TransferStep(w, cid, m), ref)
  {
    var cmd, t := w.outstanding[cid], TransferStep(w, cid, m);
    assert InTable(pending, cid, cmd);
    var k :| 0 <= k < |pending| && pending[k].valid && pending[k].cid == cid && SameCommand(cmd, pending[k]);
    assert Inside(pending[k], c) && Covers(pending[k], cmd.lba + m);
    assert ref(cmd.lba + m) == CommandSector(w.ddr, pending[k], cmd.lba + m);
    TransferKeepsTable(pending, w, cid, m);
    TransferKeepsMoved(w, ref, cid, m);
    TransferStores(w, cid, m);
  }

  /** Nothing in flight and nothing left to submit: the disk is as it should be. */
  lemma FinishedIsCopied(qd: nat, pending: seq<Pending>, c: Context, w: World, ref: Disk, l: nat)
    requires CountedOk(qd, pending, c) && DiskOk(pending, c, w, ref) && c.inflight == 0 && c.next == c.totalSectors
    ensures w.ssd(l) == ref(l) && w.outstanding == map[]
  {
    NoneValid(pending, CAPACITY);
    forall cid ensures cid !in w.outstanding { NotLiveNotOwned(pending, w.outstanding, cid); }
    assert !InFlightAt(pending, c.slot, l);
  }

  // ---- The device and the table as they run ----

  /** Between two steps of a writer the device may move a sector. */
  method MoveSome(ghost pending: seq<Pending>, ghost c: Context, w: World, ghost ref: Disk) returns (t: World)
    requires EntriesOk(pending, c) && DiskOk(pending, c, w, ref) && c.next <= c.totalSectors
    ensures DiskOk(pending, c, t, ref) && t.ddr == w.ddr
  {
    t := w;
    if w.outstanding.Keys != {} {
      var cid :| cid in w.outstanding.Keys;
      var m: nat := *;
      if m < w.outstanding[cid].sectors {
        MoveDisk(pending, c, w, ref, cid, m);
        t := TransferStep(w, cid, m);
      }
    }
  }

  /** Nothing, an error, or a completion the device is entitled to post. */
  method PollDevice(w: World) returns (rc: int, cid: nat, error: bool)
    ensures -1 <= rc <= 1 && (rc > 0 ==> cid in w.outstanding)
    ensures rc > 0 && !error ==> forall m :: 0 <= m < w.outstanding[cid].sectors ==> m in w.outstanding[cid].moved
  {
    rc, cid, error := 0, 0, true;
    if * { return -1, 0, true; }
    if w.outstanding.Keys == {} { return; }
    if * {
      cid :| cid in w.outstanding.Keys;
      var moved := w.outstanding[cid].moved;
      if forall m :: 0 <= m < w.outstanding[cid].sectors ==> m in moved { error := *; }
      rc := 1;
    }
  }

  /** A command that completed without error leaves the table and is accounted. */
  method RetireAt(pending: array<Pending>, k: nat, ghost qd: nat, ghost c: Context, w: World, ghost ref: Disk,
                  ghost todo: seq<Pending>, done: Tally, ghost total: Tally)
    returns (out: World, tally: Tally)
    requires CountedOk(qd, pending[..], c) && EntriesOk(pending[..], c) && DiskOk(pending[..], c, w, ref)
    requires TallyOk(pending[..], todo, done, total) && k < pending.Length && pending[k].valid && pending[k].cid in w.outstanding
    requires forall m :: 0 <= m < w.outstanding[pending[k].cid].sectors ==> m in w.outstanding[pending[k].cid].moved
    modifies pending
    ensures pending[..] == old(pending[..])[k := old(pending[k]).(valid := false)]
    ensures out == w.(outstanding := w.outstanding - {old(pending[k]).cid}) && c.inflight > 0
    ensures tally == Tally(done.media + old(pending[k]).bytes, done.payload + RecordedPayload(old(pending[k])))
    ensures var d := Retired(c, false); CountedOk(qd, pending[..], d) && EntriesOk(pending[..], d) && DiskOk(pending[..], d, out, ref)
    ensures TallyOk(pending[..], todo, tally, total)
  {
    RetireKeepsTable(qd, pending[..], c, w, ref, todo, done, total, k);
    var p := pending[k];
    pending[k] := p.(valid := false);
    tally := Tally(done.media + p.bytes, done.payload + RecordedPayload(p));
    out := w.(outstanding := w.outstanding - {p.cid});
  }

  /** A command the submission queue had no room for leaves the table again. */
  method DropEntry(pending: array<Pending>, k: nat, p: Pending, ghost qd: nat, ghost c: Context, ghost w: World, ghost ref: Disk,
                   ghost todo: seq<Pending>, ghost done: Tally, ghost total: Tally)
    requires CountedOk(qd, pending[..], c) && EntriesOk(pending[..], c) && DiskOk(pending[..], c, w, ref)
    requires TallyOk(pending[..], todo, done, total) && k < pending.Length && !pending[k].valid
    modifies pending
    ensures pending[..] == old(pending[..])[k := p.(valid := false)]
    ensures CountedOk(qd, pending[..], c) && EntriesOk(pending[..], c) && DiskOk(pending[..], c, w, ref)
    ensures TallyOk(pending[..], todo, done, total)
  {
    DropKeepsTable(qd, pending[..], c, w, ref, todo, done, total, k, p.(valid := false));
    pending[k] := p.(valid := false);
  }
}

/** The safety of the cross-slot engine over whole runs: its self-check cannot fail, hardware ownership
    is never dropped, and the SSD refines a plain one-by-one copy of the added slots. */
module EngineSafety {
  import opened Media
  import opened NvmeTables
  import opened EngineModel
  import opened EngineInvariant

  // ---- The runtime self-check ----

  /** The first active context of `slot`, from index `j`; CAPACITY when there is none. */
  function FirstOwner(e: Engine, slot: nat, j: nat): (o: nat)
    requires Shape(e) && j <= CAPACITY
    ensures j <= o <= CAPACITY
    ensures o < CAPACITY ==> e.active[o] && e.contexts[o].slot == slot
    ensures forall i :: j <= i < o ==> !(e.active[i] && e.contexts[i].slot == slot)
    decreases CAPACITY - j
  {
    if j == CAPACITY || (e.active[j] && e.contexts[j].slot == slot) then j else FirstOwner(e, slot, j + 1)
  }

  /** Pending commands the self-check charges to context `j`. */
  function ChargedTo(e: Engine, j: nat, n: nat): nat
    requires Shape(e) && n <= CAPACITY
  {
    if n == 0 then 0
    else ChargedTo(e, j, n - 1) +
         (if e.pending[n - 1].valid && FirstOwner(e, e.pending[n - 1].slot, 0) == j then 1 else 0)
  }

  predicate ContextSane(e: Engine, i: nat)
    requires Shape(e) && i < CAPACITY
  {
    var c := e.contexts[i];
    && !(e.cfg.dmaDescCount != 0 && c.slot >= e.cfg.dmaDescCount)
    && c.slot == e.reqs[i].slot && c.next <= c.totalSectors && c.completed <= c.submitted
    && c.submitted == c.completed + c.failed + c.inflight
  }

  predicate EntrySane(e: Engine, k: nat)
    requires Shape(e) && k < CAPACITY
  {
    && (e.pending[k].cid < CID_SPACE && !e.seen[e.pending[k].cid])
    && (forall m :: 0 <= m < k && e.pending[m].valid ==> e.pending[m].cid != e.pending[k].cid)
    && FirstOwner(e, e.pending[k].slot, 0) < CAPACITY
  }

  /** `cross_slot_validate`. */
  predicate SelfCheck(e: Engine)
    requires Shape(e)
  {
    && (forall i :: 0 <= i < CAPACITY && e.active[i] ==> ContextSane(e, i))
    && CountActive(e.active, CAPACITY) == e.activeCount <= e.cfg.maxActive
    && (forall k :: 0 <= k < CAPACITY && e.pending[k].valid ==> EntrySane(e, k))
    && (forall i :: 0 <= i < CAPACITY && e.active[i] ==> ChargedTo(e, i, CAPACITY) == e.contexts[i].inflight)
    && CountValid(e.pending, CAPACITY) == e.globalInflight == SumInflight(e.contexts, e.active, CAPACITY)
  }

  lemma {:induction false} ChargedIsCounted(e: Engine, j: nat, n: nat)
    requires TablesOk(e) && j < CAPACITY && e.active[j] && n <= CAPACITY
    ensures ChargedTo(e, j, n) == CountFor(e.pending, e.contexts[j].slot, n)
  {
    if n != 0 {
      ChargedIsCounted(e, j, n - 1);
      if e.pending[n - 1].valid {
        var o := FirstOwner(e, e.pending[n - 1].slot, 0);
        assert o < CAPACITY && e.pending[n - 1].slot == e.contexts[j].slot ==> o == j;
      }
    }
  }

  /** Tables in order pass the runtime self-check. */
  lemma SelfCheckHolds(e: Engine)
    requires TablesOk(e)
    ensures SelfCheck(e)
  {
    forall i | 0 <= i < CAPACITY && e.active[i]
      ensures ChargedTo(e, i, CAPACITY) == e.contexts[i].inflight
    {
      ChargedIsCounted(e, i, CAPACITY);
    }
    forall k | 0 <= k < CAPACITY && e.pending[k].valid
      ensures EntrySane(e, k)
    {
      var i :| 0 <= i < CAPACITY && e.active[i] && CutFrom(e.pending[k], e.contexts[i]);
      assert FirstOwner(e, e.pending[k].slot, 0) <= i;
    }
  }

  // ---- The device ----

  predicate SameCommand(c: Cmd, p: Pending) {
    c.lba == p.lba && c.sectors == p.sectors && c.addr == p.ddrAddr
  }

  ghost predicate InTable(pending: seq<Pending>, cid: nat, c: Cmd) {
    exists k :: 0 <= k < |pending| && pending[k].valid && pending[k].cid == cid && SameCommand(c, pending[k])
  }

  /** Every command the device owns is still in the pending table. */
  ghost predicate DeviceOk(pending: seq<Pending>, outstanding: map<nat, Cmd>) {
    && (forall cid :: cid in outstanding ==> InTable(pending, cid, outstanding[cid]))
    && (forall cid, m :: cid in outstanding && m in outstanding[cid].moved ==> m < outstanding[cid].sectors)
  }

  // ---- The disk ----

  predicate InSlot(r: Req, l: nat) {
    r.startLba <= l < r.startLba + r.sectors
  }

  predicate InActiveSlot(active: seq<bool>, reqs: seq<Req>, l: nat)
    requires |active| == |reqs|
  {
    exists i :: 0 <= i < |active| && active[i] && InSlot(reqs[i], l)
  }

  predicate LbasDisjoint(active: seq<bool>, reqs: seq<Req>)
    requires |active| == |reqs|
  {
    forall i, j :: 0 <= i < j < |active| && active[i] && active[j] ==> LbasApart(reqs[i], reqs[j])
  }

  /** What the plain copy of slot `r` puts at LBA `l`. */
  function SlotSector(ddr: Ddr, r: Req, l: nat): Sector
    requires InSlot(r, l)
  {
    SectorAt(ddr, r.hwAddr + (l - r.startLba) * SECTOR_BYTES)
  }

  ghost predicate HoldsSlot(ref: Disk, ddr: Ddr, r: Req) {
    forall l: nat {:trigger SlotSector(ddr, r, l)} :: InSlot(r, l) ==> ref(l) == SlotSector(ddr, r, l)
  }

  /** `ref` has the content of every active slot's DDR range. */
  ghost predicate RefHoldsSlots(active: seq<bool>, reqs: seq<Req>, ddr: Ddr, ref: Disk)
    requires |active| == |reqs|
  {
    forall i :: 0 <= i < |active| && active[i] ==> HoldsSlot(ref, ddr, reqs[i])
  }

  /** No torn or foreign sector: each one is as before or as the plain copy leaves it. */
  ghost predicate OldOrNew(ssd: Disk, g: Shadow) {
    forall l: nat :: ssd(l) == g.ref(l) || ssd(l) == g.base(l)
  }

  ghost predicate SettledOutside(active: seq<bool>, reqs: seq<Req>, g: Shadow)
    requires |active| == |reqs|
  {
    forall l: nat {:trigger InActiveSlot(active, reqs, l)} :: InActiveSlot(active, reqs, l) || g.ref(l) == g.base(l)
  }

  ghost predicate InFlightAt(pending: seq<Pending>, slot: nat, l: nat) {
    exists k :: 0 <= k < |pending| && pending[k].valid && pending[k].slot == slot &&
                pending[k].lba <= l < pending[k].lba + pending[k].sectors
  }

  ghost predicate StoredSoFar(c: Context, pending: seq<Pending>, ssd: Disk, ref: Disk) {
    forall l: nat :: c.baseLba <= l < c.baseLba + c.next && !InFlightAt(pending, c.slot, l) ==> ssd(l) == ref(l)
  }

  /** What was submitted and is no longer in flight has been written. */
  ghost predicate CompletedStored(active: seq<bool>, contexts: seq<Context>, pending: seq<Pending>, ssd: Disk, ref: Disk)
    requires |active| == |contexts|
  {
    forall i :: 0 <= i < |active| && active[i] && contexts[i].failed == 0 ==>
      StoredSoFar(contexts[i], pending, ssd, ref)
  }

  ghost predicate MovedStored(w: World, ref: Disk) {
    forall cid, m :: cid in w.outstanding && m in w.outstanding[cid].moved ==>
      w.ssd(w.outstanding[cid].lba + m) == ref(w.outstanding[cid].lba + m)
  }

  ghost predicate DataOk(s: Sys)
    requires Shape(s.e)
  {
    && LbasDisjoint(s.e.active, s.e.reqs)
    && RefHoldsSlots(s.e.active, s.e.reqs, s.w.ddr, s.g.ref)
    && OldOrNew(s.w.ssd, s.g)
    && (s.e.state == Quiesced || SettledOutside(s.e.active, s.e.reqs, s.g))
    && CompletedStored(s.e.active, s.e.contexts, s.e.pending, s.w.ssd, s.g.ref)
    && MovedStored(s.w, s.g.ref)
  }

  // ---- The life of an identifier ----

  datatype Life = NeverIssued | InUse | Finished

  /** What the log last said about `cid`. */
  function LifeOf(log: seq<CidEvent>, cid: nat): Life
    decreases |log|
  {
    if log == [] then NeverIssued
    else
      var last := log[|log| - 1];
      if last.cid == cid then (if last.Issued? then InUse else Finished)
      else LifeOf(log[..|log| - 1], cid)
  }

  lemma LifeAfter(log: seq<CidEvent>, event: CidEvent, cid: nat)
    ensures LifeOf(log + [event], cid) ==
            if event.cid == cid then (if event.Issued? then InUse else Finished) else LifeOf(log, cid)
  {
    assert (log + [event])[..|log|] == log;
  }

  /** An identifier is marked seen exactly when its latest issue has completed. */
  ghost predicate LogOk(e: Engine, log: seq<CidEvent>)
    requires Shape(e)
  {
    && (forall cid :: 0 <= cid < CID_SPACE ==> (e.seen[cid] <==> LifeOf(log, cid) == Finished))
    && (forall k :: 0 <= k < CAPACITY && e.pending[k].valid ==> LifeOf(log, e.pending[k].cid) == InUse)
  }

  // ---- States ----

  ghost predicate StateOk(s: Sys)
    requires Shape(s.e)
  {
    && (s.phase != Outside ==> s.e.state in {Running, AbortRequested})
    && (s.e.state == Quiesced ==> IsQuiesced(s.e) && s.w.outstanding == map[])
    && (s.e.state in {Resetting, Failed} ==> s.e.globalInflight > 0)
    && (s.e.state != Running ==> s.e.lastError != NoReason)
  }

  ghost predicate Inv(s: Sys) {
    TablesOk(s.e) && DeviceOk(s.e.pending, s.w.outstanding) && DataOk(s) && LogOk(s.e, s.g.log) && StateOk(s)
  }

  /** A fresh engine over any disk and memory, with no command owned by the device. */
  ghost predicate Init(s: Sys) {
    && (exists cfg, nextCid: nat :: ConfigOk(cfg) && nextCid < CID_SPACE && s.e == Created(cfg, nextCid))
    && s.w.outstanding == map[] && s.phase == Outside
    && s.g.ref == s.w.ssd && s.g.base == s.w.ssd && s.g.log == []
  }

  lemma InitInv(s: Sys)
    requires Init(s)
    ensures Inv(s)
  {
    var cfg, nextCid: nat :| ConfigOk(cfg) && nextCid < CID_SPACE && s.e == Created(cfg, nextCid);
    CreatedTables(cfg, nextCid);
  }

  // ---- Adding ----

  lemma CommandInSlot(e: Engine, cid: nat, c: Cmd, m: nat) returns (k: nat, i: nat)
    requires Shape(e) && SlotsOk(e) && PendingOk(e) && InTable(e.pending, cid, c) && m < c.sectors
    ensures k < CAPACITY && e.pending[k].valid && e.pending[k].cid == cid && SameCommand(c, e.pending[k])
    ensures i < CAPACITY && e.active[i] && CutFrom(e.pending[k], e.contexts[i])
    ensures InSlot(e.reqs[i], c.lba + m)
  {
    k :| 0 <= k < CAPACITY && e.pending[k].valid && e.pending[k].cid == cid && SameCommand(c, e.pending[k]);
    i :| 0 <= i < CAPACITY && e.active[i] && CutFrom(e.pending[k], e.contexts[i]);
  }

  lemma CopyIsSlot(disk: Disk, ddr: Ddr, r: Req, l: nat)
    ensures var ref := CopySectors(disk, r.startLba, r.sectors, ddr, r.hwAddr);
            ref(l) == if InSlot(r, l) then SlotSector(ddr, r, l) else disk(l)
  {
    CopySectorsAt(disk, r.startLba, r.sectors, ddr, r.hwAddr, l);
  }

  /** Disks that agree outside the new slot's range, which no active slot shares. */
  lemma PlaceKeepsRef(e: Engine, i: nat, r: Req, ddr: Ddr, ref: Disk, ref': Disk)
    requires Shape(e) && i < CAPACITY && !e.active[i] && RefHoldsSlots(e.active, e.reqs, ddr, ref)
    requires forall j :: 0 <= j < CAPACITY && e.active[j] ==> LbasApart(e.reqs[j], r)
    requires forall l: nat :: ref'(l) == if InSlot(r, l) then SlotSector(ddr, r, l) else ref(l)
    ensures RefHoldsSlots(Place(e, i, r).active, Place(e, i, r).reqs, ddr, ref')
  {
    var f := Place(e, i, r);
    forall j | 0 <= j < CAPACITY && f.active[j]
      ensures HoldsSlot(ref', ddr, f.reqs[j])
    {
      if j != i { assert HoldsSlot(ref, ddr, e.reqs[j]) && LbasApart(e.reqs[j], r); }
    }
  }

  lemma PlaceActive(e: Engine, i: nat, r: Req, l: nat)
    requires Shape(e) && i < CAPACITY && !e.active[i]
    ensures InActiveSlot(Place(e, i, r).active, Place(e, i, r).reqs, l) <==> InActiveSlot(e.active, e.reqs, l) || InSlot(r, l)
  {
    var f := Place(e, i, r);
    assert f.active[i] && f.reqs[i] == r;
    if InActiveSlot(e.active, e.reqs, l) {
      var j :| 0 <= j < CAPACITY && e.active[j] && InSlot(e.reqs[j], l);
      assert f.active[j] && f.reqs[j] == e.reqs[j];
    }
  }

  lemma PlaceKeepsStored(e: Engine, i: nat, r: Req, ssd: Disk, ref: Disk, ref': Disk)
    requires Shape(e) && SlotsOk(e) && i < CAPACITY && !e.active[i] && CompletedStored(e.active, e.contexts, e.pending, ssd, ref)
    requires forall j :: 0 <= j < CAPACITY && e.active[j] ==> LbasApart(e.reqs[j], r)
    requires forall l: nat :: !InSlot(r, l) ==> ref'(l) == ref(l)
    ensures CompletedStored(Place(e, i, r).active, Place(e, i, r).contexts, Place(e, i, r).pending, ssd, ref')
  {
    var f := Place(e, i, r);
    forall j | 0 <= j < CAPACITY && f.active[j] && f.contexts[j].failed == 0
      ensures StoredSoFar(f.contexts[j], f.pending, ssd, ref')
    {
      if j != i {
        assert StoredSoFar(e.contexts[j], e.pending, ssd, ref) && LbasApart(e.reqs[j], r);
        assert ContextOk(e.cfg, e.contexts[j], e.reqs[j]);
      }
    }
  }

  lemma PlaceKeepsMoved(s: Sys, r: Req, ref': Disk)
    requires TablesOk(s.e) && DeviceOk(s.e.pending, s.w.outstanding) && MovedStored(s.w, s.g.ref)
    requires forall j :: 0 <= j < CAPACITY && s.e.active[j] ==> LbasApart(s.e.reqs[j], r)
    requires forall l: nat :: !InSlot(r, l) ==> ref'(l) == s.g.ref(l)
    ensures MovedStored(s.w, ref')
  {
    forall cid, m | cid in s.w.outstanding && m in s.w.outstanding[cid].moved
      ensures s.w.ssd(s.w.outstanding[cid].lba + m) == ref'(s.w.outstanding[cid].lba + m)
    {
      var k, j := CommandInSlot(s.e, cid, s.w.outstanding[cid], m);
      assert LbasApart(s.e.reqs[j], r);
    }
  }

  lemma PlaceKeepsData(s: Sys, i: nat, r: Req)
    requires TablesOk(s.e) && DeviceOk(s.e.pending, s.w.outstanding) && DataOk(s) && i < CAPACITY && !s.e.active[i]
    requires s.e.state == Running
    requires forall j :: 0 <= j < CAPACITY && s.e.active[j] ==> LbasApart(s.e.reqs[j], r)
    ensures DataOk(s.(e := Place(s.e, i, r),
                      g := s.g.(ref := CopySectors(s.g.ref, r.startLba, r.sectors, s.w.ddr, r.hwAddr))))
  {
    var f := Place(s.e, i, r);
    var ref := CopySectors(s.g.ref, r.startLba, r.sectors, s.w.ddr, r.hwAddr);
    forall l: nat
      ensures ref(l) == if InSlot(r, l) then SlotSector(s.w.ddr, r, l) else s.g.ref(l)
      ensures InActiveSlot(f.active, f.reqs, l) <==> InActiveSlot(s.e.active, s.e.reqs, l) || InSlot(r, l)
      ensures InSlot(r, l) ==> !InActiveSlot(s.e.active, s.e.reqs, l)
    {
      CopyIsSlot(s.g.ref, s.w.ddr, r, l);
      PlaceActive(s.e, i, r, l);
    }
    PlaceKeepsRef(s.e, i, r, s.w.ddr, s.g.ref, ref);
    PlaceKeepsStored(s.e, i, r, s.w.ssd, s.g.ref, ref);
    PlaceKeepsMoved(s, r, ref);
  }

  // ---- Posting ----

  lemma InFlightKept(pending: seq<Pending>, k: nat, p: Pending, slot: nat, l: nat)
    requires k < |pending| && !pending[k].valid && InFlightAt(pending, slot, l)
    ensures InFlightAt(pending[k := p], slot, l)
  {
    var m :| 0 <= m < |pending| && pending[m].valid && pending[m].slot == slot &&
             pending[m].lba <= l < pending[m].lba + pending[m].sectors;
    assert pending[k := p][m] == pending[m];
  }

  /** Only the command that left the table can have covered an LBA no longer in flight. */
  lemma InFlightLost(pending: seq<Pending>, k: nat, slot: nat, l: nat)
    requires k < |pending| && InFlightAt(pending, slot, l)
    ensures InFlightAt(pending[k := pending[k].(valid := false)], slot, l) ||
            (pending[k].slot == slot && pending[k].lba <= l < pending[k].lba + pending[k].sectors)
  {
    var m :| 0 <= m < |pending| && pending[m].valid && pending[m].slot == slot &&
             pending[m].lba <= l < pending[m].lba + pending[m].sectors;
    if m != k {
      assert pending[k := pending[k].(valid := false)][m] == pending[m];
    }
  }

  lemma PostKeepsDevice(pending: seq<Pending>, w: World, ref: Disk, k: nat, p: Pending)
    requires DeviceOk(pending, w.outstanding) && MovedStored(w, ref)
    requires k < |pending| && !pending[k].valid && p.valid && !CidLive(pending, p.cid)
    ensures DeviceOk(pending[k := p], w.outstanding)
    ensures var out := w.outstanding[p.cid := Cmd(p.lba, p.sectors, p.ddrAddr, {})];
            DeviceOk(pending[k := p], out) && MovedStored(w.(outstanding := out), ref)
  {
    forall cid | cid in w.outstanding
      ensures InTable(pending[k := p], cid, w.outstanding[cid]) && cid != p.cid
    {
      var m :| 0 <= m < |pending| && pending[m].valid && pending[m].cid == cid && SameCommand(w.outstanding[cid], pending[m]);
      assert pending[k := p][m] == pending[m];
    }
    assert pending[k := p][k] == p;
    var c := Cmd(p.lba, p.sectors, p.ddrAddr, {});
    assert SameCommand(c, p) && InTable(pending[k := p], p.cid, c);
  }

  lemma PostKeepsStored(e: Engine, i: nat, k: nat, p: Pending, ssd: Disk, ref: Disk)
    requires Shape(e) && CompletedStored(e.active, e.contexts, e.pending, ssd, ref)
    requires i < CAPACITY && k < CAPACITY && !e.pending[k].valid && p.valid && p.cid < CID_SPACE
    requires p.slot == e.contexts[i].slot && p.lba == e.contexts[i].baseLba + e.contexts[i].next
    ensures CompletedStored(Post(e, i, k, p).active, Post(e, i, k, p).contexts, Post(e, i, k, p).pending, ssd, ref)
  {
    var f := Post(e, i, k, p);
    forall j | 0 <= j < CAPACITY && f.active[j] && f.contexts[j].failed == 0
      ensures StoredSoFar(f.contexts[j], f.pending, ssd, ref)
    {
      var c := f.contexts[j];
      assert StoredSoFar(e.contexts[j], e.pending, ssd, ref);
      forall l: nat | c.baseLba <= l < c.baseLba + c.next && !InFlightAt(f.pending, c.slot, l)
        ensures ssd(l) == ref(l)
      {
        assert f.pending[k] == p;
        if InFlightAt(e.pending, c.slot, l) { InFlightKept(e.pending, k, p, c.slot, l); }
      }
    }
  }

  // ---- Retiring ----

  lemma RetireKeepsDevice(pending: seq<Pending>, w: World, ref: Disk, k: nat)
    requires DeviceOk(pending, w.outstanding) && MovedStored(w, ref) && k < |pending|
    ensures var out := w.outstanding - {pending[k].cid};
            DeviceOk(pending[k := pending[k].(valid := false)], out) && MovedStored(w.(outstanding := out), ref)
  {
    var out := w.outstanding - {pending[k].cid};
    forall cid | cid in out
      ensures InTable(pending[k := pending[k].(valid := false)], cid, out[cid])
    {
      var m :| 0 <= m < |pending| && pending[m].valid && pending[m].cid == cid && SameCommand(w.outstanding[cid], pending[m]);
      assert pending[k := pending[k].(valid := false)][m] == pending[m];
    }
  }

  /** What entry `k` wrote is on the disk once it completed without error. */
  lemma CompletedEntryStored(s: Sys, k: nat, l: nat)
    requires Shape(s.e) && PendingOk(s.e) && DeviceOk(s.e.pending, s.w.outstanding) && MovedStored(s.w, s.g.ref)
    requires k < CAPACITY && s.e.pending[k].valid
    requires s.e.pending[k].lba <= l < s.e.pending[k].lba + s.e.pending[k].sectors
    requires Honest(s, s.e.pending[k].cid, false)
    ensures s.w.ssd(l) == s.g.ref(l)
  {
    var cid := s.e.pending[k].cid;
    assert CidLive(s.e.pending, cid);
    var c := s.w.outstanding[cid];
    assert InTable(s.e.pending, cid, c);
    var m :| 0 <= m < CAPACITY && s.e.pending[m].valid && s.e.pending[m].cid == cid && SameCommand(c, s.e.pending[m]);
    assert m == k;
    assert l - c.lba in c.moved;
    assert c.lba + (l - c.lba) == l;
  }

  lemma RetireKeepsStored(s: Sys, k: nat, j: nat, error: bool)
    requires Shape(s.e) && SlotsOk(s.e) && PendingOk(s.e) && DeviceOk(s.e.pending, s.w.outstanding)
    requires MovedStored(s.w, s.g.ref) && CompletedStored(s.e.active, s.e.contexts, s.e.pending, s.w.ssd, s.g.ref)
    requires k < CAPACITY && s.e.pending[k].valid && j < CAPACITY && s.e.active[j]
    requires s.e.pending[k].slot == s.e.contexts[j].slot && s.e.contexts[j].inflight > 0 && s.e.globalInflight > 0
    requires Honest(s, s.e.pending[k].cid, error)
    ensures CompletedStored(RetireEntry(s.e, k, j, error).active, RetireEntry(s.e, k, j, error).contexts, RetireEntry(s.e, k, j, error).pending, s.w.ssd, s.g.ref)
  {
    var f := RetireEntry(s.e, k, j, error);
    forall i | 0 <= i < CAPACITY && f.active[i] && f.contexts[i].failed == 0
      ensures StoredSoFar(f.contexts[i], f.pending, s.w.ssd, s.g.ref)
    {
      var c := f.contexts[i];
      assert StoredSoFar(s.e.contexts[i], s.e.pending, s.w.ssd, s.g.ref);
      forall l: nat | c.baseLba <= l < c.baseLba + c.next && !InFlightAt(f.pending, c.slot, l)
        ensures s.w.ssd(l) == s.g.ref(l)
      {
        if InFlightAt(s.e.pending, c.slot, l) {
          InFlightLost(s.e.pending, k, c.slot, l);
          assert i == j && !error;
          CompletedEntryStored(s, k, l);
        }
      }
    }
  }

  // ---- Reporting ----

  /** The central fact: a slot that may be reported has reached the disk in full. */
  lemma ReportedSlotStored(s: Sys, i: nat, l: nat)
    requires TablesOk(s.e) && DataOk(s) && i < CAPACITY && s.e.active[i]
    requires Drained(s.e.contexts[i]) && s.e.contexts[i].failed == 0
    requires InSlot(s.e.reqs[i], l)
    ensures s.w.ssd(l) == s.g.ref(l) == SlotSector(s.w.ddr, s.e.reqs[i], l)
  {
    NoneFor(s.e.pending, s.e.contexts[i].slot, CAPACITY);
    assert StoredSoFar(s.e.contexts[i], s.e.pending, s.w.ssd, s.g.ref);
    assert !InFlightAt(s.e.pending, s.e.contexts[i].slot, l);
    assert HoldsSlot(s.g.ref, s.w.ddr, s.e.reqs[i]);
  }

  lemma ReleaseActive(e: Engine, i: nat, l: nat)
    requires Shape(e) && i < CAPACITY && e.activeCount > 0
    ensures InActiveSlot(e.active, e.reqs, l) ==> InActiveSlot(Release(e, i).active, Release(e, i).reqs, l) || InSlot(e.reqs[i], l)
  {
    if InActiveSlot(e.active, e.reqs, l) && !InSlot(e.reqs[i], l) {
      var j :| 0 <= j < CAPACITY && e.active[j] && InSlot(e.reqs[j], l);
      assert Release(e, i).active[j] && Release(e, i).reqs[j] == e.reqs[j];
    }
  }

  lemma ReportKeepsData(s: Sys, i: nat)
    requires TablesOk(s.e) && DataOk(s) && i < CAPACITY && s.e.active[i] && s.e.activeCount > 0
    requires Drained(s.e.contexts[i]) && s.e.contexts[i].failed == 0
    ensures DataOk(s.(e := Release(s.e, i), g := Settle(s.g, s.e.reqs[i])))
  {
    var f := Release(s.e, i);
    var g := Settle(s.g, s.e.reqs[i]);
    forall l: nat
      ensures s.w.ssd(l) == g.ref(l) || s.w.ssd(l) == g.base(l)
      ensures s.e.state == Quiesced || InActiveSlot(f.active, f.reqs, l) || g.ref(l) == g.base(l)
    {
      ReleaseActive(s.e, i, l);
      if InSlot(s.e.reqs[i], l) { ReportedSlotStored(s, i, l); }
    }
    forall j | 0 <= j < CAPACITY && f.active[j] && f.contexts[j].failed == 0
      ensures StoredSoFar(f.contexts[j], f.pending, s.w.ssd, g.ref)
    {
      assert StoredSoFar(s.e.contexts[j], s.e.pending, s.w.ssd, s.g.ref);
    }
    forall j | 0 <= j < CAPACITY && f.active[j]
      ensures HoldsSlot(g.ref, s.w.ddr, f.reqs[j])
    {
      assert HoldsSlot(s.g.ref, s.w.ddr, s.e.reqs[j]);
    }
  }

  // ---- The environment ----

  /** A sector the device moves is the one the plain copy puts there. */
  lemma TransferIsCopy(s: Sys, cid: nat, m: nat)
    requires TablesOk(s.e) && DeviceOk(s.e.pending, s.w.outstanding) && RefHoldsSlots(s.e.active, s.e.reqs, s.w.ddr, s.g.ref)
    requires cid in s.w.outstanding && m < s.w.outstanding[cid].sectors
    ensures var c := s.w.outstanding[cid];
            s.g.ref(c.lba + m) == SectorAt(s.w.ddr, c.addr + m * SECTOR_BYTES)
  {
    var c := s.w.outstanding[cid];
    var k, i := CommandInSlot(s.e, cid, c, m);
    var r := s.e.reqs[i];
    assert HoldsSlot(s.g.ref, s.w.ddr, r);
    assert s.g.ref(c.lba + m) == SlotSector(s.w.ddr, r, c.lba + m);
    assert c.addr + m * SECTOR_BYTES == r.hwAddr + (c.lba + m - r.startLba) * SECTOR_BYTES;
  }

  /** A disk that takes over one sector of `ref` keeps the invariant. */
  lemma TakeOverKeepsData(s: Sys, l: nat, w: World)
    requires Shape(s.e) && DataOk(s)
    requires w.ddr == s.w.ddr && MovedStored(w, s.g.ref)
    requires w.ssd(l) == s.g.ref(l) && forall x: nat :: x != l ==> w.ssd(x) == s.w.ssd(x)
    ensures DataOk(s.(w := w))
  {
    forall j | 0 <= j < CAPACITY && s.e.active[j] && s.e.contexts[j].failed == 0
      ensures StoredSoFar(s.e.contexts[j], s.e.pending, w.ssd, s.g.ref)
    {
      assert StoredSoFar(s.e.contexts[j], s.e.pending, s.w.ssd, s.g.ref);
    }
    forall x: nat
      ensures w.ssd(x) == s.g.ref(x) || w.ssd(x) == s.g.base(x)
    {
      assert s.w.ssd(x) == s.g.ref(x) || s.w.ssd(x) == s.g.base(x);
    }
  }

  lemma TransferKeepsTable(pending: seq<Pending>, w: World, cid: nat, m: nat)
    requires DeviceOk(pending, w.outstanding) && cid in w.outstanding && m < w.outstanding[cid].sectors
    ensures DeviceOk(pending, TransferStep(w, cid, m).outstanding)
  {
    var t := TransferStep(w, cid, m);
    assert InTable(pending, cid, w.outstanding[cid]);
    var k :| 0 <= k < |pending| && pending[k].valid && pending[k].cid == cid && SameCommand(w.outstanding[cid], pending[k]);
    assert SameCommand(t.outstanding[cid], pending[k]);
    assert forall x :: x in t.outstanding && x != cid ==> t.outstanding[x] == w.outstanding[x];
  }

  lemma TransferKeepsMoved(w: World, ref: Disk, cid: nat, m: nat)
    requires MovedStored(w, ref) && cid in w.outstanding && m < w.outstanding[cid].sectors
    requires var c := w.outstanding[cid]; ref(c.lba + m) == SectorAt(w.ddr, c.addr + m * SECTOR_BYTES)
    ensures MovedStored(TransferStep(w, cid, m), ref)
  {
    var t := TransferStep(w, cid, m);
    TransferStores(w, cid, m);
    forall x, n | x in t.outstanding && n in t.outstanding[x].moved
      ensures t.ssd(t.outstanding[x].lba + n) == ref(t.outstanding[x].lba + n)
    {
      assert n in w.outstanding[x].moved || (x == cid && n == m);
    }
  }

  lemma TransferKeepsData(s: Sys, cid: nat, m: nat)
    requires Shape(s.e) && DataOk(s) && cid in s.w.outstanding && m < s.w.outstanding[cid].sectors
    requires var c := s.w.outstanding[cid]; s.g.ref(c.lba + m) == SectorAt(s.w.ddr, c.addr + m * SECTOR_BYTES)
    requires MovedStored(TransferStep(s.w, cid, m), s.g.ref)
    ensures DataOk(s.(w := TransferStep(s.w, cid, m)))
  {
    TransferStores(s.w, cid, m);
    TakeOverKeepsData(s, s.w.outstanding[cid].lba + m, TransferStep(s.w, cid, m));
  }

  lemma TransferStores(w: World, cid: nat, m: nat)
    requires cid in w.outstanding && m < w.outstanding[cid].sectors
    ensures var t := TransferStep(w, cid, m);
            var c := w.outstanding[cid];
            && t.ddr == w.ddr && t.ssd(c.lba + m) == SectorAt(w.ddr, c.addr + m * SECTOR_BYTES)
            && forall x: nat :: x != c.lba + m ==> t.ssd(x) == w.ssd(x)
  {
  }

  lemma MemoryChangeKeepsSlot(ref: Disk, ddr: Ddr, ddr': Ddr, r: Req)
    requires HoldsSlot(ref, ddr, r)
    requires forall a: nat :: Holds(r, a) ==> ddr'(a) == ddr(a)
    ensures HoldsSlot(ref, ddr', r)
  {
    forall l: nat | InSlot(r, l)
      ensures SlotSector(ddr', r, l) == SlotSector(ddr, r, l)
    {
      SectorUntouched(ddr, ddr', r.hwAddr + (l - r.startLba) * SECTOR_BYTES);
    }
  }

  lemma MemoryChangeKeepsRef(e: Engine, ddr: Ddr, ddr': Ddr, ref: Disk)
    requires Shape(e) && RefHoldsSlots(e.active, e.reqs, ddr, ref)
    requires forall a: nat :: HeldByEngine(e, a) ==> ddr'(a) == ddr(a)
    ensures RefHoldsSlots(e.active, e.reqs, ddr', ref)
  {
    forall i | 0 <= i < CAPACITY && e.active[i]
      ensures HoldsSlot(ref, ddr', e.reqs[i])
    {
      MemoryChangeKeepsSlot(ref, ddr, ddr', e.reqs[i]);
    }
  }

  // ---- The log ----

  lemma PostKeepsLog(e: Engine, log: seq<CidEvent>, i: nat, k: nat, p: Pending)
    requires Shape(e) && LogOk(e, log) && i < CAPACITY && k < CAPACITY && p.valid && p.cid < CID_SPACE
    ensures LogOk(Post(e, i, k, p), log + [Issued(p.cid)])
  {
    forall cid { LifeAfter(log, Issued(p.cid), cid); }
  }

  lemma RetireKeepsLog(e: Engine, log: seq<CidEvent>, k: nat, j: nat, error: bool)
    requires TablesOk(e) && LogOk(e, log) && k < CAPACITY && j < CAPACITY && e.pending[k].valid
    requires e.contexts[j].inflight > 0 && e.globalInflight > 0
    ensures LogOk(RetireEntry(e, k, j, error), log + [Completed(e.pending[k].cid)])
  {
    forall cid { LifeAfter(log, Completed(e.pending[k].cid), cid); }
    var f := RetireEntry(e, k, j, error);
    forall m | 0 <= m < CAPACITY && f.pending[m].valid
      ensures f.pending[m] == e.pending[m] && f.pending[m].cid != e.pending[k].cid
    {
    }
  }

  // ---- Every step keeps the invariant ----

  /** Changing only the state, the error or the phase of the engine. */
  lemma StateChangeKeeps(s: Sys, state: State, reason: Reason, phase: Phase)
    requires Inv(s) && (s.e.state == Quiesced ==> state == Quiesced)
    ensures var t := s.(e := s.e.(state := state, lastError := reason), phase := phase);
            StateOk(t) ==> Inv(t)
  {
  }

  lemma AddKeeps(s: Sys, r: Req)
    requires Inv(s) && Enabled(s, Add(r))
    ensures Inv(Apply(s, Add(r)))
  {
    match JudgeAdd(s.e, r)
    case Placed(i) =>
      PlaceKeepsTables(s.e, i, r);
      PlaceKeepsData(s, i, r);
    case Rejected(reason) =>
    case Refused =>
    case Full =>
  }

  /** The state after entry `k` is retired, before a failure is recorded. */
  function RetiredSys(s: Sys, k: nat, j: nat, error: bool): Sys
    requires Shape(s.e) && k < CAPACITY && s.e.pending[k].valid && j < CAPACITY
    requires s.e.contexts[j].inflight > 0 && s.e.globalInflight > 0
  {
    s.(e := RetireEntry(s.e, k, j, error),
       w := s.w.(outstanding := s.w.outstanding - {s.e.pending[k].cid}),
       g := s.g.(log := s.g.log + [Completed(s.e.pending[k].cid)]))
  }

  lemma RetireKeepsData(s: Sys, k: nat, j: nat, error: bool)
    requires Shape(s.e) && SlotsOk(s.e) && PendingOk(s.e) && DeviceOk(s.e.pending, s.w.outstanding) && DataOk(s)
    requires k < CAPACITY && s.e.pending[k].valid && j < CAPACITY && s.e.active[j]
    requires s.e.pending[k].slot == s.e.contexts[j].slot && s.e.contexts[j].inflight > 0 && s.e.globalInflight > 0
    requires Honest(s, s.e.pending[k].cid, error)
    ensures var t := RetiredSys(s, k, j, error); DeviceOk(t.e.pending, t.w.outstanding) && DataOk(t)
  {
    var f := RetireEntry(s.e, k, j, error);
    forall l: nat
      ensures InActiveSlot(f.active, f.reqs, l) <==> InActiveSlot(s.e.active, s.e.reqs, l)
    {
    }
    RetireKeepsDevice(s.e.pending, s.w, s.g.ref, k);
    RetireKeepsStored(s, k, j, error);
  }

  lemma RetireKeeps(s: Sys, k: nat, j: nat, error: bool)
    requires Inv(s) && s.phase in {Polling, Waiting, Outside} && s.e.state in {Running, AbortRequested, Draining}
    requires k < CAPACITY && s.e.pending[k].valid && j < CAPACITY && s.e.active[j]
    requires CutFrom(s.e.pending[k], s.e.contexts[j]) && s.e.contexts[j].inflight > 0 && s.e.globalInflight > 0
    requires Honest(s, s.e.pending[k].cid, error)
    ensures Inv(RetiredSys(s, k, j, error))
  {
    RetireKeepsTables(s.e, k, j, error);
    RetireKeepsLog(s.e, s.g.log, k, j, error);
    RetireKeepsData(s, k, j, error);
  }

  lemma NotLiveNotOwned(pending: seq<Pending>, outstanding: map<nat, Cmd>, cid: nat)
    requires DeviceOk(pending, outstanding)
    ensures cid in outstanding ==> CidLive(pending, cid)
  {
    if cid in outstanding {
      assert InTable(pending, cid, outstanding[cid]);
    }
  }

  lemma StrayCompletionKeeps(s: Sys, cid: nat, error: bool)
    requires Inv(s) && Enabled(s, Poll(cid, error)) && !CidLive(s.e.pending, cid)
    ensures Inv(Apply(s, Poll(cid, error)))
  {
    NotLiveNotOwned(s.e.pending, s.w.outstanding, cid);
    assert s.w.outstanding - {cid} == s.w.outstanding;
    var t := Apply(s, Poll(cid, error));
    StateChangeKeeps(s, t.e.state, t.e.lastError, t.phase);
  }

  /** A completion of a live command retires the entry and the context it was cut from. */
  lemma CompletionRetires(s: Sys, cid: nat, error: bool) returns (k: nat, j: nat)
    requires TablesOk(s.e) && CidLive(s.e.pending, cid) && cid < CID_SPACE
    ensures k == PendingByCid(s.e.pending, cid, 0) < CAPACITY && s.e.pending[k].valid && s.e.pending[k].cid == cid
    ensures j == ContextBySlot(s.e.contexts, s.e.pending[k].slot, 0) < CAPACITY && s.e.active[j] && CutFrom(s.e.pending[k], s.e.contexts[j])
    ensures s.e.contexts[j].inflight > 0 && s.e.globalInflight > 0
    ensures var t := RetiredSys(s, k, j, error);
            CompletionStep(s, cid, error) == if error then GiveUp(t, t.e, CompletionStatusError) else t
  {
    k := PendingByCid(s.e.pending, cid, 0);
    j := OwnerFound(s.e, k);
  }

  lemma CompletionKeeps(s: Sys, cid: nat, error: bool)
    requires Inv(s) && Enabled(s, Poll(cid, error))
    ensures Inv(Apply(s, Poll(cid, error)))
  {
    if !CidLive(s.e.pending, cid) {
      StrayCompletionKeeps(s, cid, error);
    } else {
      var k, j := CompletionRetires(s, cid, error);
      RetireKeeps(s, k, j, error);
      GiveUpKeeps(RetiredSys(s, k, j, error), CompletionStatusError);
    }
  }

  lemma GiveUpKeeps(s: Sys, reason: Reason)
    requires Inv(s) && reason != NoReason
    ensures Inv(GiveUp(s, s.e, reason))
  {
  }

  // ---- Submitting ----

  /** The state once command `p` is posted, before a failure is recorded. */
  function PostedSys(s: Sys, nextCid: nat, rr: nat, i: nat, k: nat, p: Pending, posted: bool): Sys
    requires Shape(s.e) && i < CAPACITY && k < CAPACITY && p.cid < CID_SPACE && nextCid < CID_SPACE && rr < CAPACITY
  {
    s.(e := Post(s.e.(nextCid := nextCid, rr := rr), i, k, p),
       w := if posted
            then s.w.(outstanding := s.w.outstanding[p.cid := Cmd(p.lba, p.sectors, p.ddrAddr, {})])
            else s.w,
       g := s.g.(log := s.g.log + [Issued(p.cid)]))
  }

  /** What a refill turn does when the invariant holds: there is always room, and only the answer decides. */
  lemma SubmitCases(s: Sys, answer: Answer) returns (i: nat, k: nat, p: Pending, nextCid: nat, rr: nat)
    requires TablesOk(s.e) && s.e.globalInflight < s.e.cfg.targetQd && Picked(s.e) < CAPACITY
    ensures i == Picked(s.e) && s.e.active[i] && k < CAPACITY && !s.e.pending[k].valid
    ensures nextCid < CID_SPACE && rr < CAPACITY
    ensures p.valid && 1 <= p.cid <= U16_MAX && !CidLive(s.e.pending, p.cid)
    ensures p == CutCommand(s.e.cfg, s.e.contexts[i], p.cid)
    ensures CutFrom(p, Advance(s.e.contexts[i], p.sectors)) && p.lba == s.e.contexts[i].baseLba + s.e.contexts[i].next
    ensures s.e.contexts[i].next + p.sectors <= s.e.contexts[i].totalSectors
    ensures var dropped := s.e.(pending := s.e.pending[k := p.(valid := false)], nextCid := nextCid, rr := rr);
            var t := PostedSys(s, nextCid, rr, i, k, p, Posted(answer));
            SubmitStep(s, answer) ==
            match answer
            case SqFull => s.(e := dropped, phase := Stalled)
            case NotAccepted => GiveUp(s, dropped, SubmitNotAccepted)
            case Stopped => GiveUp(s, dropped, SubmitStopped)
            case Accepted => t
            case Unknown(_) => GiveUp(t, t.e, SubmitAcceptTimeout)
  {
    i := Picked(s.e);
    SubmitHasRoom(s.e);
    k := FreePending(s.e.pending, 0);
    var choice := ChooseCid(s.e.pending, s.e.nextCid, U16_MAX);
    nextCid, rr := choice.next, (i + 1) % CAPACITY;
    p := CutCommand(s.e.cfg, s.e.contexts[i], choice.cid);
    CutIsCut(s.e.cfg, s.e.contexts[i], choice.cid);
  }

  lemma PostKeepsData(s: Sys, nextCid: nat, rr: nat, i: nat, k: nat, p: Pending, posted: bool)
    requires Shape(s.e) && DeviceOk(s.e.pending, s.w.outstanding) && DataOk(s)
    requires nextCid < CID_SPACE && rr < CAPACITY
    requires i < CAPACITY && k < CAPACITY && !s.e.pending[k].valid && p.valid && p.cid < CID_SPACE
    requires !CidLive(s.e.pending, p.cid)
    requires p.slot == s.e.contexts[i].slot && p.lba == s.e.contexts[i].baseLba + s.e.contexts[i].next
    ensures var t := PostedSys(s, nextCid, rr, i, k, p, posted); DeviceOk(t.e.pending, t.w.outstanding) && DataOk(t)
  {
    var t := PostedSys(s, nextCid, rr, i, k, p, posted);
    forall l: nat
      ensures InActiveSlot(t.e.active, t.e.reqs, l) <==> InActiveSlot(s.e.active, s.e.reqs, l)
    {
    }
    PostKeepsDevice(s.e.pending, s.w, s.g.ref, k, p);
    PostKeepsStored(s.e, i, k, p, s.w.ssd, s.g.ref);
    assert CompletedStored(t.e.active, t.e.contexts, t.e.pending, s.w.ssd, s.g.ref) by { assert t.e.contexts == Post(s.e, i, k, p).contexts; }
  }

  lemma PostKeeps(s: Sys, nextCid: nat, rr: nat, i: nat, k: nat, p: Pending, posted: bool)
    requires Inv(s) && s.e.state == Running && s.e.globalInflight < s.e.cfg.targetQd
    requires nextCid < CID_SPACE && rr < CAPACITY
    requires i < CAPACITY && s.e.active[i] && k < CAPACITY && !s.e.pending[k].valid
    requires p.valid && 1 <= p.cid <= U16_MAX && !CidLive(s.e.pending, p.cid)
    requires CutFrom(p, Advance(s.e.contexts[i], p.sectors)) && p.lba == s.e.contexts[i].baseLba + s.e.contexts[i].next
    requires s.e.contexts[i].next + p.sectors <= s.e.contexts[i].totalSectors
    ensures Inv(PostedSys(s, nextCid, rr, i, k, p, posted))
  {
    var e := s.e.(nextCid := nextCid, rr := rr);
    assert TablesOk(e);
    PostKeepsTables(e, i, k, p);
    PostKeepsLog(e, s.g.log, i, k, p);
    PostKeepsData(s, nextCid, rr, i, k, p, posted);
  }

  lemma DropKeeps(s: Sys, k: nat, p: Pending, nextCid: nat, rr: nat)
    requires Inv(s) && s.e.state == Running
    requires k < CAPACITY && !s.e.pending[k].valid && !p.valid && nextCid < CID_SPACE && rr < CAPACITY
    ensures Inv(s.(e := s.e.(pending := s.e.pending[k := p], nextCid := nextCid, rr := rr)))
  {
    DropKeepsTables(s.e, k, p, nextCid, rr);
    DropKeepsLookups(s.e.pending, k, p, s.w.outstanding);
    var f := s.e.(pending := s.e.pending[k := p], nextCid := nextCid, rr := rr);
    forall l: nat
      ensures InActiveSlot(f.active, f.reqs, l) <==> InActiveSlot(s.e.active, s.e.reqs, l)
    {
    }
    forall j | 0 <= j < CAPACITY && f.active[j] && f.contexts[j].failed == 0
      ensures StoredSoFar(f.contexts[j], f.pending, s.w.ssd, s.g.ref)
    {
      assert StoredSoFar(s.e.contexts[j], s.e.pending, s.w.ssd, s.g.ref);
    }
  }

  lemma DropKeepsLookups(pending: seq<Pending>, k: nat, p: Pending, outstanding: map<nat, Cmd>)
    requires k < |pending| && !pending[k].valid && !p.valid && DeviceOk(pending, outstanding)
    ensures DeviceOk(pending[k := p], outstanding)
    ensures forall slot, l: nat :: InFlightAt(pending, slot, l) ==> InFlightAt(pending[k := p], slot, l)
  {
    forall cid | cid in outstanding
      ensures InTable(pending[k := p], cid, outstanding[cid])
    {
      assert InTable(pending, cid, outstanding[cid]);
      var m :| 0 <= m < |pending| && pending[m].valid && pending[m].cid == cid && SameCommand(outstanding[cid], pending[m]);
      assert pending[k := p][m] == pending[m];
    }
    forall slot, l: nat | InFlightAt(pending, slot, l)
      ensures InFlightAt(pending[k := p], slot, l)
    {
      InFlightKept(pending, k, p, slot, l);
    }
  }

  lemma SubmitKeeps(s: Sys, answer: Answer)
    requires Inv(s) && Enabled(s, Submit(answer))
    ensures Inv(Apply(s, Submit(answer)))
  {
    var i, k, p, nextCid, rr := SubmitCases(s, answer);
    if answer == Accepted || answer.Unknown? {
      PostKeeps(s, nextCid, rr, i, k, p, Posted(answer));
      GiveUpKeeps(PostedSys(s, nextCid, rr, i, k, p, Posted(answer)), SubmitAcceptTimeout);
    } else {
      DropKeeps(s, k, p.(valid := false), nextCid, rr);
      var t := s.(e := s.e.(pending := s.e.pending[k := p.(valid := false)], nextCid := nextCid, rr := rr));
      GiveUpKeeps(t, if answer == Stopped then SubmitStopped else SubmitNotAccepted);
    }
  }

  // ---- Reporting, draining, resetting ----

  lemma ReportKeeps(s: Sys, i: nat, ok: bool)
    requires Inv(s) && Enabled(s, Report(i, ok))
    ensures Inv(Apply(s, Report(i, ok)))
  {
    if s.e.contexts[i].failed != 0 {
      GiveUpKeeps(s, CompletionStatusError);
    } else if !ok {
      GiveUpKeeps(s, SlotCallbackFailed);
    } else {
      ReleaseKeepsTables(s.e, i);
      ReportKeepsData(s, i);
    }
  }

  /** Nothing in flight means nothing the device still owns. */
  lemma IdleOwnsNothing(e: Engine, outstanding: map<nat, Cmd>)
    requires Shape(e) && CountsOk(e) && e.globalInflight == 0 && DeviceOk(e.pending, outstanding)
    ensures outstanding == map[]
  {
    NoneValid(e.pending, CAPACITY);
    forall cid
      ensures cid !in outstanding
    {
      NotLiveNotOwned(e.pending, outstanding, cid);
    }
  }

  lemma DiscardKeeps(s: Sys)
    requires Inv(s) && s.phase == Outside && s.e.state in {Draining, Resetting}
    ensures Inv(s.(e := Discard(s.e).(state := Quiesced), w := s.w.(outstanding := map[])))
  {
    DiscardTables(s.e);
  }

  lemma DrainKeeps(s: Sys)
    requires Inv(s) && Enabled(s, FinishDrain)
    ensures Inv(Apply(s, FinishDrain))
  {
    IdleOwnsNothing(s.e, s.w.outstanding);
    DiscardKeeps(s);
  }

  lemma MemoryKeeps(s: Sys, ddr: Ddr)
    requires Inv(s) && RefHoldsSlots(s.e.active, s.e.reqs, ddr, s.g.ref)
    ensures Inv(s.(w := s.w.(ddr := ddr)))
  {
  }

  lemma TransferKeeps(s: Sys, cid: nat, m: nat)
    requires Inv(s) && Enabled(s, Transfer(cid, m))
    ensures Inv(Apply(s, Transfer(cid, m)))
  {
    TransferIsCopy(s, cid, m);
    TransferKeepsTable(s.e.pending, s.w, cid, m);
    TransferKeepsMoved(s.w, s.g.ref, cid, m);
    TransferKeepsData(s, cid, m);
  }

  predicate Control(a: Action) {
    a.EnterIteration? || a.PollsDone? || a.ReportsDone? || a.RefillDone? || a.LeaveStep? ||
    a.BeginDrain? || a.BeginReset? || a == FinishReset(false) || a.RequestAbort?
  }

  /** Steps that only move the state or the phase. */
  lemma ControlKeeps(s: Sys, a: Action)
    requires Inv(s) && Enabled(s, a) && Control(a)
    ensures Inv(Apply(s, a))
  {
    var t := Apply(s, a);
    StateChangeKeeps(s, t.e.state, t.e.lastError, t.phase);
  }

  /** Every step keeps the invariant. */
  lemma StepKeeps(s: Sys, a: Action)
    requires Inv(s) && Enabled(s, a)
    ensures Inv(Apply(s, a))
  {
    match a
    case Add(r) => AddKeeps(s, r);
    case Poll(cid, error) => CompletionKeeps(s, cid, error);
    case Report(i, ok) => ReportKeeps(s, i, ok);
    case Submit(answer) => SubmitKeeps(s, answer);
    case PollFailed => GiveUpKeeps(s, CompletionPollFailed);
    case TimeOut => GiveUpKeeps(s, NoProgressTimeout);
    case Transfer(cid, m) => TransferKeeps(s, cid, m);
    case MemoryChange(ddr) =>
      MemoryChangeKeepsRef(s.e, s.w.ddr, ddr, s.g.ref);
      MemoryKeeps(s, ddr);
    case FinishDrain => DrainKeeps(s);
    case FinishReset(confirmed) => if confirmed { DiscardKeeps(s); } else { ControlKeeps(s, a); }
    case _ => ControlKeeps(s, a);
  }

  /** The invariant holds in every state any run reaches. */
  lemma {:induction false} RunKeeps(s: Sys, acts: seq<Action>, t: Sys)
    requires Inv(s) && Reaches(s, acts, t)
    ensures Inv(t)
    decreases acts
  {
    if acts != [] {
      StepKeeps(s, acts[0]);
      RunKeeps(Apply(s, acts[0]), acts[1..], t);
    }
  }
}

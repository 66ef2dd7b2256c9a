/** The one-slot writer as it runs: `nvme_write_slot_qd_legacy_payload` over a local command table and a
    device that answers as it likes. */
module SlotWriter {
  import opened Media
  import opened NvmeTables
  import opened EngineModel
  import opened EngineInvariant
  import opened EngineSafety
  import opened Tiling
  import opened LocalTable

  function SlotReq(c: Context): Req {
    Req(c.slot, c.baseLba, c.totalSectors, c.baseDdr, c.totalBytes, 0, 0, 0)
  }

  /** The next command writes what the plain copy has. */
  lemma CutFaithful(cfg: Config, c: Context, ddr: Ddr, ref: Disk, cid: nat)
    requires ConfigOk(cfg) && c.next < c.totalSectors && HoldsSlot(ref, ddr, SlotReq(c))
    ensures var p := CutCommand(cfg, c, cid); Faithful(p, ddr, ref) && Inside(p, Advance(c, p.sectors))
  {
    CutIsCut(cfg, c, cid);
    var p := CutCommand(cfg, c, cid);
    forall l: nat | Covers(p, l)
      ensures ref(l) == CommandSector(ddr, p, l)
    {
      assert ref(l) == SlotSector(ddr, SlotReq(c), l);
      assert p.ddrAddr + (l - p.lba) * SECTOR_BYTES == c.baseDdr + (l - c.baseLba) * SECTOR_BYTES;
    }
  }

  /** How a step of the writer ended; `Broken` stands for every error return. */
  datatype Progress = More | Stuck | AllDone | Broken

  class Writer {
    const cfg: Config
    const qd: nat
    const pending: array<Pending>
    var ctx: Context
    var nextCid: nat
    /** The device, the disk and the memory. */
    var world: World
    /** `nvme_write_bytes_done` and `nvme_payload_bytes_done`, from this call on. */
    var done: Tally
    ghost const ref: Disk
    ghost const total: Tally

    ghost predicate Valid()
      reads this, pending
    {
      && ConfigOk(cfg) && pending.Length == CAPACITY && 1 <= qd <= CAPACITY && nextCid < CID_SPACE
      && CountedOk(qd, pending[..], ctx) && EntriesOk(pending[..], ctx) && DiskOk(pending[..], ctx, world, ref)
      && TallyOk(pending[..], Commands(cfg, ctx), done, total) && ctx.failed == 0
      && HoldsSlot(ref, world.ddr, SlotReq(ctx))
    }

    /** The table is empty, nothing is submitted; `ref` is the plain copy of the slot. */
    constructor (cfg: Config, qd: nat, slot: nat, lba: nat, sectors: nat, payload: nat, hwAddr: nat, nextCid: nat, world: World)
      requires ConfigOk(cfg) && 1 <= qd <= CAPACITY && nextCid < CID_SPACE && world.outstanding == map[]
      ensures Valid() && fresh(pending) && this.world == world && this.cfg == cfg
      ensures ctx == Context(slot, lba, hwAddr, payload, sectors, 0, 0, 0, 0, 0)
      ensures ref == CopySectors(world.ssd, lba, sectors, world.ddr, hwAddr)
      ensures done == Tally(0, 0) && total == Tally(CommandBytes(Commands(cfg, ctx)), SumRecorded(Commands(cfg, ctx)))
    {
      this.cfg, this.qd, this.nextCid, this.world := cfg, qd, nextCid, world;
      pending := new Pending[CAPACITY](_ => EMPTY_PENDING);
      var c := Context(slot, lba, hwAddr, payload, sectors, 0, 0, 0, 0, 0);
      ctx, done := c, Tally(0, 0);
      ref := CopySectors(world.ssd, lba, sectors, world.ddr, hwAddr);
      total := Tally(CommandBytes(Commands(cfg, c)), SumRecorded(Commands(cfg, c)));
      new;
      NoneValid(pending[..], CAPACITY);
      NoTally(pending[..], CAPACITY);
      forall l: nat
        ensures ref(l) == if InSlot(SlotReq(c), l) then SlotSector(world.ddr, SlotReq(c), l) else world.ssd(l)
      {
        CopyIsSlot(world.ssd, world.ddr, SlotReq(c), l);
      }
    }

    // ---- Completions ----

    /** `nvme_handle_write_completion`. */
    method Retire(cid: nat, error: bool) returns (ok: bool)
      requires Valid() && cid in world.outstanding
      requires error || forall m :: 0 <= m < world.outstanding[cid].sectors ==> m in world.outstanding[cid].moved
      modifies this, pending
      ensures ok ==> Valid() && ctx.totalSectors == old(ctx).totalSectors && ctx.inflight + 1 == old(ctx).inflight
      ensures !ok ==> ctx == old(ctx)
    {
      assert InTable(pending[..], cid, world.outstanding[cid]);
      var k := FindPendingByCid(pending, cid);
      if k == CAPACITY { return false; }
      if error { return false; }
      world, done := RetireAt(pending, k, qd, ctx, world, ref, Commands(cfg, ctx), done, total);
      SameCommands(cfg, ctx, Retired(ctx, false));
      ctx := Retired(ctx, false);
      ok := true;
    }

    // ---- Submitting ----

    /** The entry and the identifier of the next command. */
    method Prepare() returns (k: nat, p: Pending)
      requires Valid() && ctx.inflight < qd && ctx.next < ctx.totalSectors
      modifies this`nextCid
      ensures Valid() && k < CAPACITY && !pending[k].valid
      ensures 1 <= p.cid <= U16_MAX && !CidLive(pending[..], p.cid) && p == CutCommand(cfg, ctx, p.cid)
    {
      NoneValid(pending[..], CAPACITY);
      CountIsSize(pending[..], CAPACITY);
      assert pending[..][..CAPACITY] == pending[..];
      CidAllocationTotal(pending[..], nextCid, U16_MAX);
      k := FindFreePending(pending);
      var found, cid, after := AllocCid(pending, nextCid);
      nextCid := after;
      p := CutCommand(cfg, ctx, cid);
    }

    /** A command the device may hold belongs to it from here on. */
    method Account(k: nat, p: Pending, posted: bool)
      requires Valid() && ctx.inflight < qd && ctx.next < ctx.totalSectors && k < CAPACITY && !pending[k].valid
      requires 1 <= p.cid <= U16_MAX && !CidLive(pending[..], p.cid) && p == CutCommand(cfg, ctx, p.cid)
      modifies this, pending
      ensures Valid() && ctx == Advance(old(ctx), p.sectors)
    {
      CutIsCut(cfg, ctx, p.cid);
      CutFaithful(cfg, ctx, world.ddr, ref, p.cid);
      PostCounts(qd, pending[..], ctx, k, p);
      PostEntries(pending[..], ctx, k, p);
      PostDisk(pending[..], ctx, world, ref, k, p, posted);
      PostTally(pending[..], Commands(cfg, ctx), done, total, k, p);
      assert Commands(cfg, ctx)[1..] == Commands(cfg, Advance(ctx, p.sectors));
      ghost var after := pending[..][k := p];
      pending[k] := p;
      assert pending[..] == after;
      ctx := Advance(ctx, p.sectors);
      if posted { world := world.(outstanding := world.outstanding[p.cid := Cmd(p.lba, p.sectors, p.ddrAddr, {})]); }
    }

    /** One turn of the refill loop. */
    method SubmitOne(polls: nat) returns (progress: Progress)
      requires Valid() && ctx.inflight < qd && ctx.next < ctx.totalSectors
      modifies this, pending
      ensures progress != Broken ==> Valid()
      ensures progress == More ==> ctx.next > old(ctx).next && ctx.totalSectors == old(ctx).totalSectors
      ensures progress == AllDone ==> ctx.next == ctx.totalSectors && ctx.inflight == 0
      ensures progress == Stuck ==> ctx == old(ctx)
    {
      var k, p := Prepare();
      var answer: Answer := *;
      match answer
      case Accepted =>
        Account(k, p, true);
        progress := More;
      case SqFull =>
        DropEntry(pending, k, p, qd, ctx, world, ref, Commands(cfg, ctx), done, total);
        progress := Stuck;
      case Unknown(posted) =>
        Account(k, p, posted);
        progress := DrainAmbiguous(polls);
      case _ => progress := Broken;
    }

    /** After an acceptance-unknown doorbell: only what was posted is drained, and the write has succeeded
        if and only if that completes the slot. */
    method DrainAmbiguous(polls: nat) returns (progress: Progress)
      requires Valid()
      modifies this, pending
      ensures progress in {AllDone, Broken}
      ensures progress == AllDone ==> Valid() && ctx.next == ctx.totalSectors && ctx.inflight == 0
    {
      var left := polls;
      while ctx.inflight > 0
        invariant Valid()
        decreases left
      {
        world := MoveSome(pending[..], ctx, world, ref);
        var rc, cid, error := PollDevice(world);
        if rc < 0 || left == 0 { return Broken; }
        left := left - 1;
        if rc > 0 {
          var ok := Retire(cid, error);
          if !ok { return Broken; }
        }
      }
      progress := if ctx.next == ctx.totalSectors && ctx.completed == ctx.submitted && ctx.failed == 0 then AllDone else Broken;
    }

    // ---- The loop ----

    /** Fill up to the queue depth. */
    method Refill(polls: nat) returns (progress: Progress, submitted: bool)
      requires Valid()
      modifies this, pending
      ensures progress != Broken ==> Valid()
      ensures progress == AllDone ==> ctx.next == ctx.totalSectors && ctx.inflight == 0
      ensures progress == More ==> ctx.inflight == qd || ctx.next == ctx.totalSectors
      ensures progress != Broken && !submitted && progress != AllDone ==> ctx.inflight == old(ctx).inflight
    {
      progress, submitted := More, false;
      while ctx.inflight < qd && ctx.next < ctx.totalSectors
        invariant Valid() && (!submitted ==> ctx.inflight == old(ctx).inflight)
        decreases ctx.totalSectors - ctx.next
      {
        progress := SubmitOne(polls);
        if progress != More { return; }
        submitted := true;
      }
      progress := More;
    }

    /** One completion, if the queue has one. */
    method RetireOne() returns (progress: Progress, retired: bool)
      requires Valid()
      modifies this, pending
      ensures progress in {More, Broken} && (progress == More ==> Valid())
    {
      world := MoveSome(pending[..], ctx, world, ref);
      var rc, cid, error := PollDevice(world);
      if rc < 0 { return Broken, false; }
      if rc == 0 { return More, false; }
      var ok := Retire(cid, error);
      return if ok then More else Broken, ok;
    }

    /** The wait for a completion: `spins` polls before the timeout. */
    method WaitOne(spins: nat) returns (progress: Progress)
      requires Valid()
      modifies this, pending
      ensures progress in {More, Broken} && (progress == More ==> Valid())
    {
      var left := spins;
      while left > 0
        invariant Valid()
      {
        var retired;
        progress, retired := RetireOne();
        if progress == Broken || retired { return; }
        left := left - 1;
      }
      progress := Broken;
    }

    /** `nvme_write_slot_qd_legacy_payload`, for `turns` iterations of its loop: 0 when the slot was written,
        -1 on an error, 1 when it is still at it. A return of 0 means that the SSD holds what the plain copy
        leaves, that the device owns nothing any more and that the byte counters took the whole slot; the
        closing consistency check cannot fail. */
    method Write(turns: nat, polls: nat) returns (rc: int)
      requires Valid()
      modifies this, pending
      ensures rc == 0 ==> forall l: nat :: world.ssd(l) == ref(l)
      ensures rc == 0 ==> world.outstanding == map[] && done == total
    {
      var left := turns;
      while ctx.next < ctx.totalSectors || ctx.inflight > 0
        invariant Valid()
        decreases left
      {
        if left == 0 { return 1; }
        left := left - 1;
        var progress, submitted := Refill(polls);
        if progress == Broken { return -1; }
        if progress == AllDone { break; }
        var retired := false;
        var sqFull := progress == Stuck;
        if ctx.inflight > 0 {
          progress, retired := RetireOne();
          if progress == Broken { return -1; }
        }
        if !submitted && !retired {
          if ctx.inflight == 0 { return -1; }
          if !(!sqFull && ctx.inflight < qd && ctx.next < ctx.totalSectors) {
            progress := WaitOne(polls);
            if progress == Broken { return -1; }
          }
        }
      }
      if ctx.next != ctx.totalSectors || ctx.completed != ctx.submitted || ctx.inflight != 0 || ctx.failed != 0 {
        assert false;
      }
      Closing();
      rc := 0;
    }

    /** What holds once the loop is left. */
    lemma Closing()
      requires Valid() && ctx.next == ctx.totalSectors && ctx.inflight == 0
      ensures forall l: nat :: world.ssd(l) == ref(l)
      ensures world.outstanding == map[] && done == total
    {
      forall l: nat ensures world.ssd(l) == ref(l) { FinishedIsCopied(qd, pending[..], ctx, world, ref, l); }
      FinishedIsCopied(qd, pending[..], ctx, world, ref, 0);
      NoneValid(pending[..], CAPACITY);
      NoTally(pending[..], CAPACITY);
    }
  }

  /** `nvme_write_slot_qd_legacy_payload` as its caller sees it. On success the SSD is what a plain copy of
      the slot leaves, the media counter took every sector and the payload counter the payload, and the
      device holds no command of the slot. */
  method WriteSlot(cfg: Config, qd: nat, slot: nat, lba: nat, sectors: nat, payload: nat, hwAddr: nat,
                   nextCid: nat, world: World, turns: nat, polls: nat)
    returns (rc: int, after: World, done: Tally)
    requires ConfigOk(cfg) && nextCid < CID_SPACE && world.outstanding == map[]
    ensures rc == 0 ==> after.outstanding == map[]
    ensures rc == 0 ==> forall l: nat :: after.ssd(l) == CopySectors(world.ssd, lba, sectors, world.ddr, hwAddr)(l)
    ensures rc == 0 && sectors != 0 && payload <= sectors * SECTOR_BYTES ==> done.media == sectors * SECTOR_BYTES
    ensures rc == 0 && 0 < payload && sectors == BytesToSectors(payload) ==> done.payload == payload
  {
    after, done := world, Tally(0, 0);
    if sectors == 0 { return 0, after, done; }
    if qd == 0 || qd > CAPACITY { return -1, after, done; }
    var w := new Writer(cfg, qd, slot, lba, sectors, payload, hwAddr, nextCid, world);
    ghost var c := w.ctx;
    if payload <= sectors * SECTOR_BYTES { CommandsTile(cfg, c); }
    if 0 < payload && sectors == BytesToSectors(payload) {
      var r := SlotReq(c);
      RecordedForQueuedSlot(cfg, r);
      assert c == NewContext(r);
    }
    rc := w.Write(turns, polls);
    after, done := w.world, w.done;
  }
}

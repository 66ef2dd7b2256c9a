/** The byte-oriented writer as it runs: `nvme_write_contiguous_tight_qd_payload` over a local command
    table and a device that answers as it likes. */
module TightLoop {
  import opened Media
  import opened NvmeTables
  import opened EngineModel
  import opened EngineInvariant
  import opened EngineSafety
  import opened Modular
  import opened Tiling
  import opened LocalTable
  import opened TightWriter

  /** How the writer, or a phase of it, ended. `Ambiguous`: a doorbell may not have been accepted, and
      everything posted has completed since; `Broken` stands for every other error return. */
  datatype Outcome = Written | Ambiguous | Broken | Unfinished

  /** The commands not yet posted continue the submitted ones and write what `ref` has. */
  ghost predicate TodoOk(todo: seq<Pending>, c: Context, ddr: Ddr, ref: Disk) {
    && BackToBack(todo, c.baseLba + c.next) && c.next + CommandSectors(todo) == c.totalSectors && c.slot == NO_SLOT
    && forall k :: 0 <= k < |todo| ==> Faithful(todo[k], ddr, ref)
  }

  lemma TodoStep(todo: seq<Pending>, c: Context, ddr: Ddr, ref: Disk, p: Pending)
    requires TodoOk(todo, c, ddr, ref) && todo != [] && p == todo[0].(cid := p.cid)
    ensures p.lba == c.baseLba + c.next && c.next + p.sectors <= c.totalSectors && Faithful(p, ddr, ref)
    ensures TodoOk(todo[1..], Advance(c, p.sectors), ddr, ref)
  {
    forall l: nat | Covers(p, l)
      ensures ref(l) == CommandSector(ddr, p, l)
    {
      assert ref(l) == CommandSector(ddr, todo[0], l);
    }
  }

  function StartContext(job: Job): Context
    requires JobOk(job)
  {
    Context(NO_SLOT, job.lba, job.ddr, job.bytes, CommandSectors(TightCommands(job, Begin(job))), 0, 0, 0, 0, 0)
  }

  /** The disk the writer is to leave. */
  ghost function Target(job: Job, world: World): Disk
    requires JobOk(job)
  {
    DiskAfterCommands(world.ssd, world.ddr, TightCommands(job, Begin(job)))
  }

  lemma StartOk(job: Job, world: World)
    requires JobOk(job)
    ensures TodoOk(TightCommands(job, Begin(job)), StartContext(job), world.ddr, Target(job, world))
    ensures forall l: nat :: l < job.lba || job.lba + StartContext(job).totalSectors <= l ==> world.ssd(l) == Target(job, world)(l)
  {
    var ps := TightCommands(job, Begin(job));
    TightCommandsTile(job, Begin(job));
    forall k | 0 <= k < |ps| { DiskAfterFaithful(world.ssd, world.ddr, ps, job.lba, k); }
    forall l: nat | l < job.lba || job.lba + CommandSectors(ps) <= l { DiskAfterOutside(world.ssd, world.ddr, ps, job.lba, l); }
  }

  lemma NextOfFront(job: Job, f: Front, p: Pending)
    requires FrontOk(job, f) && TightCommands(job, f) != [] && p == TightCut(job, f, p.cid)
    ensures p.valid && p.slot == NO_SLOT && p == TightCommands(job, f)[0].(cid := p.cid)
    ensures Past(job, f) == Front(f.lba + p.sectors, f.ddr + p.bytes, f.left - p.bytes)
    ensures TightCommands(job, f)[1..] == TightCommands(job, Past(job, f))
  {
  }

  class Writer {
    const job: Job
    const qd: nat
    const cqBatch: nat
    const totalCmds: nat
    const pending: array<Pending>
    var nextCid: nat
    var nextLba: nat
    var nextDdr: nat
    var bytesLeft: nat
    var submitted: nat
    var completed: nat
    var activeQd: nat
    /** The device, the disk and the memory. */
    var world: World
    /** `nvme_write_bytes_done` and `nvme_payload_bytes_done`, from this call on. */
    var done: Tally
    /** What was posted, as one context, and what is still to be posted. */
    ghost var ctx: Context
    ghost var todo: seq<Pending>
    ghost const ref: Disk
    ghost const total: Tally

    ghost predicate Valid()
      reads this, pending
    {
      && JobOk(job) && pending.Length == CAPACITY && 1 <= qd <= CAPACITY && nextCid < CID_SPACE
      && CountedOk(qd, pending[..], ctx) && EntriesOk(pending[..], ctx) && DiskOk(pending[..], ctx, world, ref)
      && TallyOk(pending[..], todo, done, total) && TodoOk(todo, ctx, world.ddr, ref)
      && ctx.failed == 0 && submitted == ctx.submitted && completed == ctx.completed && activeQd == ctx.inflight
    }

    /** The writer's own position is that of the next command. */
    ghost predicate AtFront()
      reads `nextLba, `nextDdr, `bytesLeft, `todo, `submitted
    {
      var f := Front(nextLba, nextDdr, bytesLeft);
      FrontOk(job, f) && todo == TightCommands(job, f) && submitted + |todo| == totalCmds
    }

    constructor (job: Job, qd: nat, cqBatch: nat, nextCid: nat, world: World)
      requires JobOk(job) && 1 <= qd <= CAPACITY && nextCid < CID_SPACE && world.outstanding == map[]
      ensures Valid() && AtFront() && fresh(pending) && this.world == world && this.job == job
      ensures ref == Target(job, world)
      ensures var ps := TightCommands(job, Begin(job)); total == Tally(CommandBytes(ps), SumRecorded(ps))
    {
      this.job, this.qd, this.cqBatch, this.nextCid, this.world := job, qd, cqBatch, nextCid, world;
      pending := new Pending[CAPACITY](_ => EMPTY_PENDING);
      totalCmds := (job.bytes + job.size - 1) / job.size;
      nextLba, nextDdr, bytesLeft, submitted, completed, activeQd := job.lba, job.ddr, job.bytes, 0, 0, 0;
      done := Tally(0, 0);
      ghost var ps := TightCommands(job, Begin(job));
      ctx, todo := StartContext(job), ps;
      ref, total := Target(job, world), Tally(CommandBytes(ps), SumRecorded(ps));
      new;
      NoneValid(pending[..], CAPACITY);
      NoTally(pending[..], CAPACITY);
      TightCommandsTile(job, Begin(job));
      StartOk(job, world);
    }

    // ---- Completions ----

    /** One completion. Its entry is always found, so only an error status ends the write. */
    method Retire(cid: nat, error: bool) returns (ok: bool)
      requires Valid() && cid in world.outstanding
      requires error || forall m :: 0 <= m < world.outstanding[cid].sectors ==> m in world.outstanding[cid].moved
      modifies this`world, this`done, this`completed, this`activeQd, this`ctx, pending
      ensures ok <==> !error
      ensures ok ==> Valid() && ctx.next == old(ctx).next && completed == old(completed) + 1
    {
      assert InTable(pending[..], cid, world.outstanding[cid]);
      var k := FindPendingByCid(pending, cid);
      if k == CAPACITY { assert false; }
      if error { return false; }
      world, done := RetireAt(pending, k, qd, ctx, world, ref, todo, done, total);
      completed, activeQd := completed + 1, activeQd - 1;
      ctx := Retired(ctx, false);
      ok := true;
    }

    // ---- Submitting ----

    /** The entry and the identifier of the next command; neither can be missing. */
    method Prepare() returns (k: nat, p: Pending)
      requires Valid() && AtFront() && activeQd < qd && todo != []
      modifies this`nextCid
      ensures Valid() && k < CAPACITY && !pending[k].valid
      ensures 1 <= p.cid <= U16_MAX && !CidLive(pending[..], p.cid)
      ensures p == TightCut(job, Front(nextLba, nextDdr, bytesLeft), p.cid)
    {
      NoneValid(pending[..], CAPACITY);
      CountIsSize(pending[..], CAPACITY);
      assert pending[..][..CAPACITY] == pending[..];
      CidAllocationTotal(pending[..], nextCid, U16_MAX);
      k := FindFreePending(pending);
      var found, cid, after := AllocCid(pending, nextCid);
      nextCid := after;
      p := TightCut(job, Front(nextLba, nextDdr, bytesLeft), cid);
    }

    /** A command the device may hold belongs to it from here on. */
    method Account(k: nat, p: Pending, posted: bool)
      requires Valid() && activeQd < qd && k < CAPACITY && !pending[k].valid
      requires 1 <= p.cid <= U16_MAX && !CidLive(pending[..], p.cid) && todo != [] && p == todo[0].(cid := p.cid)
      requires p.valid && p.slot == NO_SLOT
      modifies this`world, this`submitted, this`activeQd, this`ctx, this`todo, pending
      ensures Valid() && todo == old(todo)[1..] && submitted == old(submitted) + 1
    {
      TodoStep(todo, ctx, world.ddr, ref, p);
      PostCounts(qd, pending[..], ctx, k, p);
      PostEntries(pending[..], ctx, k, p);
      PostDisk(pending[..], ctx, world, ref, k, p, posted);
      PostTally(pending[..], todo, done, total, k, p);
      ghost var after := pending[..][k := p];
      pending[k] := p;
      assert pending[..] == after;
      submitted, activeQd := submitted + 1, activeQd + 1;
      ctx, todo := Advance(ctx, p.sectors), todo[1..];
      if posted { world := world.(outstanding := world.outstanding[p.cid := Cmd(p.lba, p.sectors, p.ddrAddr, {})]); }
    }

    /** An accepted command: the position moves behind it. */
    method Post(k: nat, p: Pending)
      requires Valid() && AtFront() && activeQd < qd && todo != [] && k < CAPACITY && !pending[k].valid
      requires 1 <= p.cid <= U16_MAX && !CidLive(pending[..], p.cid)
      requires p == TightCut(job, Front(nextLba, nextDdr, bytesLeft), p.cid)
      modifies this, pending
      ensures Valid() && AtFront() && submitted == old(submitted) + 1
    {
      ghost var f := Front(nextLba, nextDdr, bytesLeft);
      NextOfFront(job, f, p);
      Account(k, p, true);
      nextLba, nextDdr, bytesLeft := nextLba + p.sectors, nextDdr + p.bytes, bytesLeft - p.bytes;
    }

    /** Nothing in flight: the device owns nothing. */
    lemma IdleOwnsNothing()
      requires Valid() && activeQd == 0
      ensures world.outstanding == map[]
    {
      NoneValid(pending[..], CAPACITY);
      forall cid ensures cid !in world.outstanding { NotLiveNotOwned(pending[..], world.outstanding, cid); }
    }

    /** `nvme_drain_ambiguous_tight_pending`, for at most `polls` polls. */
    method DrainAmbiguous(polls: nat) returns (ok: bool)
      requires Valid()
      modifies this`world, this`done, this`completed, this`activeQd, this`ctx, pending
      ensures ok ==> world.outstanding == map[]
    {
      var left := polls;
      while activeQd > 0
        invariant Valid()
        decreases left
      {
        world := MoveSome(pending[..], ctx, world, ref);
        var rc, cid, error := PollDevice(world);
        if rc < 0 || left == 0 { return false; }
        left := left - 1;
        if rc > 0 {
          var retired := Retire(cid, error);
          if !retired { return false; }
        }
      }
      IdleOwnsNothing();
      ok := true;
    }

    /** One turn of the refill loop. Only the device's answer decides: no entry or identifier is ever missing.
        The ambiguous command is accounted, the position stays behind it, and the write ends. */
    method SubmitOne(polls: nat) returns (outcome: Outcome, answer: Answer)
      requires Valid() && AtFront() && activeQd < qd && todo != []
      modifies this, pending
      ensures outcome == Unfinished <==> answer in {Accepted, SqFull}
      ensures outcome != Written && (outcome == Ambiguous ==> answer.Unknown?)
      ensures outcome == Unfinished ==> Valid() && AtFront() && submitted == old(submitted) + if answer == Accepted then 1 else 0
      ensures outcome == Ambiguous ==> world.outstanding == map[]
    {
      var k, p := Prepare();
      answer := *;
      match answer
      case Accepted =>
        Post(k, p);
        outcome := Unfinished;
      case SqFull =>
        DropEntry(pending, k, p, qd, ctx, world, ref, todo, done, total);
        outcome := Unfinished;
      case Unknown(accepted) =>
        NextOfFront(job, Front(nextLba, nextDdr, bytesLeft), p);
        Account(k, p, accepted);
        var ok := DrainAmbiguous(polls);
        outcome := if ok then Ambiguous else Broken;
      case _ => outcome := Broken;
    }

    // ---- The loop ----

    /** Fill up to the queue depth, unless the queue shows itself full. */
    method Refill(polls: nat) returns (outcome: Outcome, progress: bool)
      requires Valid() && AtFront()
      modifies this, pending
      ensures outcome == Unfinished ==> Valid() && AtFront()
      ensures outcome == Ambiguous ==> world.outstanding == map[]
      ensures outcome != Written
    {
      outcome, progress := Unfinished, false;
      while activeQd < qd && submitted < totalCmds
        invariant Valid() && AtFront() && outcome == Unfinished
        decreases totalCmds - submitted
      {
        if * { return; }
        var answer;
        outcome, answer := SubmitOne(polls);
        if outcome != Unfinished || answer != Accepted { return; }
        progress := true;
      }
    }

    /** One completion, if the queue has one. */
    method RetireOne() returns (ok: bool, retired: bool)
      requires Valid()
      modifies this`world, this`done, this`completed, this`activeQd, this`ctx, pending
      ensures ok ==> Valid()
    {
      world := MoveSome(pending[..], ctx, world, ref);
      var rc, cid, error := PollDevice(world);
      if rc < 0 { return false, false; }
      if rc == 0 { return true, false; }
      ok := Retire(cid, error);
      retired := ok;
    }

    /** Retire up to `cqBatch` completions. */
    method RetireBatch() returns (ok: bool, progress: bool)
      requires Valid()
      modifies this`world, this`done, this`completed, this`activeQd, this`ctx, pending
      ensures ok ==> Valid()
    {
      var pops := 0;
      ok, progress := true, false;
      while pops < cqBatch && activeQd > 0
        invariant Valid()
        decreases cqBatch - pops
      {
        var retired;
        ok, retired := RetireOne();
        if !ok || !retired { return; }
        progress, pops := true, pops + 1;
        if cqBatch == 1 { return; }
      }
    }

    /** `nvme_write_contiguous_tight_qd_payload` behind its checks, for `turns` iterations of its loop. A
        return of 0 means that the SSD holds what the commands leave one after the other, that the device
        owns nothing any more and that the byte counters took everything; the closing consistency check
        cannot fail. */
    method Write(turns: nat, polls: nat) returns (outcome: Outcome)
      requires Valid() && AtFront()
      modifies this, pending
      ensures outcome == Written ==> forall l: nat :: world.ssd(l) == ref(l)
      ensures outcome == Written ==> done == total
      ensures outcome in {Written, Ambiguous} ==> world.outstanding == map[]
    {
      var left, waits := turns, polls;
      while completed < totalCmds
        invariant Valid() && AtFront()
        decreases left
      {
        if left == 0 { return Unfinished; }
        left := left - 1;
        var submittedOne, retired;
        outcome, submittedOne := Refill(polls);
        if outcome != Unfinished { return; }
        var ok;
        ok, retired := RetireBatch();
        if !ok { return Broken; }
        if submittedOne || retired {
          waits := polls;
        } else if !(submitted < totalCmds && activeQd == 0) {
          if waits == 0 { return Broken; }
          waits := waits - 1;
        }
      }
      if submitted != totalCmds || completed != totalCmds || activeQd != 0 || bytesLeft != 0 {
        assert false;
      }
      Closing();
      outcome := Written;
    }

    /** What holds once the loop is left. */
    lemma Closing()
      requires Valid() && todo == [] && activeQd == 0
      ensures forall l: nat :: world.ssd(l) == ref(l)
      ensures world.outstanding == map[] && done == total
    {
      forall l: nat ensures world.ssd(l) == ref(l) { FinishedIsCopied(qd, pending[..], ctx, world, ref, l); }
      IdleOwnsNothing();
      NoneValid(pending[..], CAPACITY);
      NoTally(pending[..], CAPACITY);
    }
  }

  /** The channel's limits the writer checks against. */
  datatype Limits = Limits(hwBase: nat, ringBytes: nat, maxLba: nat, maxDts: nat)

  /** 64-bit addition. */
  function Add64(a: nat, b: nat): nat {
    (a + b) % (U64_MAX + 1)
  }

  /** The writer's check of the LBA range, which adds in 64 bits. */
  predicate RangeChecked(maxLba: nat, lba: nat, sectors: nat) {
    maxLba > 0 ==> Add64(lba, sectors) <= maxLba
  }

  /** It lets a range through that ends beyond the limit exactly when the sum wraps to a number within it. */
  lemma RangeCheckExact(maxLba: nat, lba: nat, sectors: nat)
    requires 0 < maxLba <= U64_MAX && lba <= U64_MAX && sectors <= U64_MAX
    ensures lba <= U64_MAX - sectors ==> (RangeChecked(maxLba, lba, sectors) <==> lba + sectors <= maxLba)
    ensures RangeChecked(maxLba, lba, sectors) && lba + sectors > maxLba <==>
            lba > U64_MAX - sectors && lba + sectors - (U64_MAX + 1) <= maxLba
  {
    if lba <= U64_MAX - sectors {
      DivUnique(lba + sectors, U64_MAX + 1, 0, lba + sectors);
    } else {
      DivUnique(lba + sectors, U64_MAX + 1, 1, lba + sectors - (U64_MAX + 1));
    }
  }

  /** So it is the check it is meant to be, for every limit, if and only if the sum does not wrap. */
  lemma RangeCheckMeant(lba: nat, sectors: nat)
    requires lba <= U64_MAX && sectors <= U64_MAX
    ensures (forall maxLba: nat :: 0 < maxLba <= U64_MAX ==> (RangeChecked(maxLba, lba, sectors) <==> lba + sectors <= maxLba)) <==>
            lba <= U64_MAX - sectors
  {
    forall maxLba: nat | 0 < maxLba <= U64_MAX { RangeCheckExact(maxLba, lba, sectors); }
    if lba > U64_MAX - sectors {
      RangeCheckExact(U64_MAX, lba, sectors);
      assert RangeChecked(U64_MAX, lba, sectors) && lba + sectors > U64_MAX;
    }
  }

  /** What the writer accepts. */
  predicate JobAccepted(limits: Limits, job: Job, qd: nat) {
    && job.payload <= job.bytes && 1 <= qd <= CAPACITY && 0 < job.size <= limits.maxDts
    && limits.hwBase <= job.ddr && job.ddr + job.bytes <= limits.hwBase + limits.ringBytes
    && RangeChecked(limits.maxLba, job.lba, BytesToSectors(job.bytes))
  }

  /** `nvme_write_contiguous_tight_qd_payload` as its caller sees it. Success leaves the disk the commands
      leave one after the other, which is the plain copy when the command size is whole sectors or one
      command takes all; the media counter took every byte, and the payload counter exactly the payload if
      and only if the payload reaches into the last command. A job that is not accepted touches nothing. */
  method WriteContiguous(limits: Limits, job: Job, qd: nat, cqBatch: nat, nextCid: nat, world: World, turns: nat, polls: nat)
    returns (outcome: Outcome, after: World, done: Tally)
    requires nextCid < CID_SPACE && world.outstanding == map[]
    ensures job.bytes > 0 && !JobAccepted(limits, job, qd) ==> outcome == Broken && after == world && done == Tally(0, 0)
    ensures job.bytes == 0 ==> outcome == Written && after == world
    ensures outcome in {Written, Ambiguous} ==> after.outstanding == map[]
    ensures outcome == Written && job.bytes > 0 ==>
              forall l: nat :: after.ssd(l) == DiskAfterCommands(world.ssd, world.ddr, TightCommands(job, Begin(job)))(l)
    ensures outcome == Written && job.bytes > 0 && (job.size % SECTOR_BYTES == 0 || job.bytes <= job.size) ==>
              forall l: nat :: after.ssd(l) == CopySectors(world.ssd, job.lba, BytesToSectors(job.bytes), world.ddr, job.ddr)(l)
    ensures outcome == Written && job.bytes > 0 ==> done.media == job.bytes
    ensures outcome == Written && job.bytes > 0 ==> (done.payload == job.payload <==> LastOffset(job, Begin(job)) < job.payload)
  {
    after, done := world, Tally(0, 0);
    if job.bytes == 0 { return Written, after, done; }
    if job.payload > job.bytes || qd == 0 || qd > CAPACITY || job.size == 0 || job.size > limits.maxDts {
      return Broken, after, done;
    }
    if job.ddr < limits.hwBase || job.ddr - limits.hwBase > limits.ringBytes ||
       job.bytes > limits.ringBytes - (job.ddr - limits.hwBase) {
      return Broken, after, done;
    }
    if limits.maxLba > 0 && Add64(job.lba, BytesToSectors(job.bytes)) > limits.maxLba { return Broken, after, done; }
    var w := new Writer(job, qd, cqBatch, nextCid, world);
    TightCommandsTile(job, Begin(job));
    TightRecordedExactly(job, Begin(job));
    if job.size % SECTOR_BYTES == 0 || job.bytes <= job.size {
      forall l: nat { TightIsCopy(world.ssd, world.ddr, job, Begin(job), l); }
    }
    outcome := w.Write(turns, polls);
    after, done := w.world, w.done;
  }
}

/** How the byte-oriented writer cuts a range: by bytes in DDR and by sectors on the SSD. */
module TightWriter {
  import opened Media
  import opened NvmeTables
  import opened EngineModel
  import opened Tiling
  import opened LocalTable

  /** What is to be written, `size` bytes per command at most; `payload` of its bytes count as payload. */
  datatype Job = Job(lba: nat, ddr: nat, bytes: nat, payload: nat, size: nat)

  /** `next_lba`, `next_ddr` and `bytes_left`. */
  datatype Front = Front(lba: nat, ddr: nat, left: nat)

  predicate JobOk(job: Job) {
    job.size > 0 && job.payload <= job.bytes
  }

  predicate FrontOk(job: Job, f: Front) {
    JobOk(job) && f.left <= job.bytes
  }

  function Begin(job: Job): Front {
    Front(job.lba, job.ddr, job.bytes)
  }

  /** Payload bytes from the front on. */
  function PayloadLeft(job: Job, f: Front): nat
    requires FrontOk(job, f)
  {
    var offset := job.bytes - f.left;
    if job.payload > offset then job.payload - offset else 0
  }

  function TightCut(job: Job, f: Front, cid: nat): Pending
    requires FrontOk(job, f)
  {
    var bytes := if f.left > job.size then job.size else f.left;
    Pending(true, cid, NO_SLOT, job.bytes - f.left, f.lba, f.ddr, BytesToSectors(bytes), bytes, Min(PayloadLeft(job, f), bytes))
  }

  /** The front behind the next command. */
  function Past(job: Job, f: Front): (g: Front)
    requires FrontOk(job, f)
    ensures FrontOk(job, g) && (f.left > 0 ==> g.left < f.left)
  {
    var p := TightCut(job, f, 0);
    Front(f.lba + p.sectors, f.ddr + p.bytes, f.left - p.bytes)
  }

  /** Every command still to be cut, in order. */
  function TightCommands(job: Job, f: Front): seq<Pending>
    requires FrontOk(job, f)
    decreases f.left
  {
    if f.left == 0 then [] else [TightCut(job, f, 0)] + TightCommands(job, Past(job, f))
  }

  /** Commands follow one another on the SSD without gap or overlap. */
  predicate BackToBack(ps: seq<Pending>, lba: nat)
    decreases |ps|
  {
    ps == [] || (ps[0].lba == lba && BackToBack(ps[1..], lba + ps[0].sectors))
  }

  /** The number of commands is the rounded-up quotient, their LBAs are contiguous, their bytes and payload
      bytes add up to what was left. */
  lemma {:induction false} TightCommandsTile(job: Job, f: Front)
    requires FrontOk(job, f)
    ensures var ps := TightCommands(job, f);
            && |ps| == CommandCount(f.left, job.size) && BackToBack(ps, f.lba)
            && CommandBytes(ps) == f.left && CommandPayload(ps) == PayloadLeft(job, f)
            && (forall k :: 0 <= k < |ps| ==> ps[k].slot == NO_SLOT && 0 < ps[k].bytes <= job.size && ps[k].sectors == BytesToSectors(ps[k].bytes))
    decreases f.left
  {
    CommandCountStep(f.left, job.size);
    if f.left != 0 {
      TightCommandsTile(job, Past(job, f));
      assert TightCommands(job, f)[1..] == TightCommands(job, Past(job, f));
      CommandCountStep(0, job.size);
    }
  }

  // ---- The payload counter ----

  /** Byte offset of the last command. */
  function LastOffset(job: Job, f: Front): nat
    requires FrontOk(job, f) && f.left > 0
    decreases f.left
  {
    if f.left <= job.size then job.bytes - f.left else LastOffset(job, Past(job, f))
  }

  /** The payload counter ends up right exactly when the payload reaches into the last command. */
  lemma {:induction false} TightRecordedExactly(job: Job, f: Front)
    requires FrontOk(job, f) && f.left > 0
    ensures job.bytes - f.left <= LastOffset(job, f) < job.bytes
    ensures SumRecorded(TightCommands(job, f)) >= PayloadLeft(job, f)
    ensures SumRecorded(TightCommands(job, f)) == PayloadLeft(job, f) <==> LastOffset(job, f) < job.payload
    decreases f.left
  {
    var rest := Past(job, f);
    assert TightCommands(job, f)[1..] == TightCommands(job, rest);
    if f.left > job.size {
      TightRecordedExactly(job, rest);
    } else {
      assert TightCommands(job, rest) == [];
    }
  }

  // ---- LBAs and DDR addresses ----

  /** Each command's LBA and DDR address belong together. */
  predicate InStep(ps: seq<Pending>, lba: nat, ddr: nat) {
    forall k :: 0 <= k < |ps| ==> ps[k].lba >= lba && ps[k].ddrAddr == ddr + (ps[k].lba - lba) * SECTOR_BYTES
  }

  /** They stay in step exactly when the command size is whole sectors or one command takes it all. */
  lemma {:induction false} TightExact(job: Job, f: Front)
    requires FrontOk(job, f)
    ensures InStep(TightCommands(job, f), f.lba, f.ddr) <==> job.size % SECTOR_BYTES == 0 || f.left <= job.size
    decreases f.left
  {
    var ps := TightCommands(job, f);
    if f.left > job.size {
      var g := Past(job, f);
      var rest := TightCommands(job, g);
      assert ps[1..] == rest && rest != [];
      assert ps[1] == rest[0];
      if job.size % SECTOR_BYTES == 0 {
        TightExact(job, g);
        forall k | 0 <= k < |ps|
          ensures ps[k].lba >= f.lba && ps[k].ddrAddr == f.ddr + (ps[k].lba - f.lba) * SECTOR_BYTES
        {
          if k > 0 { assert ps[k] == rest[k - 1]; }
        }
      }
    }
  }

  // ---- What the commands leave on the disk ----

  /** The disk after the commands, one after the other. */
  function DiskAfterCommands(disk: Disk, ddr: Ddr, ps: seq<Pending>): Disk
    decreases |ps|
  {
    if ps == [] then disk else DiskAfterCommands(CopySectors(disk, ps[0].lba, ps[0].sectors, ddr, ps[0].ddrAddr), ddr, ps[1..])
  }

  lemma {:induction false} DiskAfterOutside(disk: Disk, ddr: Ddr, ps: seq<Pending>, lba: nat, l: nat)
    requires BackToBack(ps, lba) && (l < lba || lba + CommandSectors(ps) <= l)
    ensures DiskAfterCommands(disk, ddr, ps)(l) == disk(l)
    decreases |ps|
  {
    if ps != [] {
      var next := CopySectors(disk, ps[0].lba, ps[0].sectors, ddr, ps[0].ddrAddr);
      CopySectorsAt(disk, ps[0].lba, ps[0].sectors, ddr, ps[0].ddrAddr, l);
      DiskAfterOutside(next, ddr, ps[1..], lba + ps[0].sectors, l);
    }
  }

  /** Each command finds its own sectors there: no later one overwrites them. */
  lemma {:induction false} DiskAfterFaithful(disk: Disk, ddr: Ddr, ps: seq<Pending>, lba: nat, k: nat)
    requires BackToBack(ps, lba) && k < |ps|
    ensures Faithful(ps[k], ddr, DiskAfterCommands(disk, ddr, ps))
    decreases |ps|
  {
    var p := ps[0];
    var next := CopySectors(disk, p.lba, p.sectors, ddr, p.ddrAddr);
    if k > 0 {
      DiskAfterFaithful(next, ddr, ps[1..], lba + p.sectors, k - 1);
    } else {
      forall l: nat | Covers(p, l)
        ensures DiskAfterCommands(disk, ddr, ps)(l) == CommandSector(ddr, p, l)
      {
        CopySectorsAt(disk, p.lba, p.sectors, ddr, p.ddrAddr, l);
        DiskAfterOutside(next, ddr, ps[1..], lba + p.sectors, l);
      }
    }
  }

  /** With whole-sector commands, or a single one, that is the plain copy of the rounded-up range. */
  lemma {:induction false} TightIsCopy(disk: Disk, memory: Ddr, job: Job, f: Front, l: nat)
    requires FrontOk(job, f) && (job.size % SECTOR_BYTES == 0 || f.left <= job.size)
    ensures DiskAfterCommands(disk, memory, TightCommands(job, f))(l) ==
            CopySectors(disk, f.lba, BytesToSectors(f.left), memory, f.ddr)(l)
    decreases f.left
  {
    CopySectorsAt(disk, f.lba, BytesToSectors(f.left), memory, f.ddr, l);
    if f.left != 0 {
      var p, g := TightCut(job, f, 0), Past(job, f);
      var next := CopySectors(disk, f.lba, p.sectors, memory, f.ddr);
      assert TightCommands(job, f)[1..] == TightCommands(job, g);
      TightIsCopy(next, memory, job, g, l);
      CopySectorsAt(next, g.lba, BytesToSectors(g.left), memory, g.ddr, l);
      CopySectorsAt(disk, f.lba, p.sectors, memory, f.ddr, l);
      if f.left > job.size {
        assert job.size == p.sectors * SECTOR_BYTES && BytesToSectors(f.left) == p.sectors + BytesToSectors(g.left);
        if g.lba <= l < f.lba + BytesToSectors(f.left) {
          assert g.ddr + (l - g.lba) * SECTOR_BYTES == f.ddr + (l - f.lba) * SECTOR_BYTES;
        }
      }
    }
  }
}

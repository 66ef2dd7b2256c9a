/** How a slot is cut into commands: exact tiling of its sectors and conservation of its payload bytes. */
module Tiling {
  import opened Media
  import opened NvmeTables
  import opened EngineModel
  import opened EngineSafety
  import opened EngineTheorems
  import opened Modular

  /** Commands needed for `n` units of work, at most `d` units each. */
  function CommandCount(n: nat, d: nat): nat
    requires d > 0
  {
    (n + d - 1) / d
  }

  lemma CommandCountStep(n: nat, d: nat)
    requires d > 0
    ensures n == 0 ==> CommandCount(n, d) == 0
    ensures 0 < n <= d ==> CommandCount(n, d) == 1
    ensures n > d ==> CommandCount(n, d) == 1 + CommandCount(n - d, d)
  {
    if n == 0 {
      DivUnique(d - 1, d, 0, d - 1);
    } else if n <= d {
      DivUnique(n + d - 1, d, 1, n - 1);
    } else {
      DivStep(n - d + d - 1, d);
    }
  }

  // ---- The commands of a slot ----

  /** Every command still to be cut from `c`, in order. */
  function Commands(cfg: Config, c: Context): seq<Pending>
    requires c.next <= c.totalSectors && ConfigOk(cfg)
    decreases c.totalSectors - c.next
  {
    if c.next == c.totalSectors then []
    else
      var p := CutCommand(cfg, c, 0);
      [p] + Commands(cfg, Advance(c, p.sectors))
  }

  function CommandSectors(ps: seq<Pending>): nat {
    if ps == [] then 0 else ps[0].sectors + CommandSectors(ps[1..])
  }

  function CommandBytes(ps: seq<Pending>): nat {
    if ps == [] then 0 else ps[0].bytes + CommandBytes(ps[1..])
  }

  function CommandPayload(ps: seq<Pending>): nat {
    if ps == [] then 0 else ps[0].payloadBytes + CommandPayload(ps[1..])
  }

  /** What `nvme_record_write_completion` adds to the payload counter. */
  function RecordedPayload(p: Pending): nat {
    if p.payloadBytes != 0 then p.payloadBytes else p.bytes
  }

  function SumRecorded(ps: seq<Pending>): nat {
    if ps == [] then 0 else RecordedPayload(ps[0]) + SumRecorded(ps[1..])
  }

  /** Commands follow one another without gap or overlap, in LBAs and in DDR alike. */
  predicate Contiguous(ps: seq<Pending>, lba: nat, addr: nat)
    decreases |ps|
  {
    ps == [] ||
    (ps[0].lba == lba && ps[0].ddrAddr == addr &&
     Contiguous(ps[1..], lba + ps[0].sectors, addr + ps[0].sectors * SECTOR_BYTES))
  }

  function PayloadFrom(c: Context): nat
    requires c.totalBytes <= c.totalSectors * SECTOR_BYTES
  {
    if c.totalBytes > c.next * SECTOR_BYTES then c.totalBytes - c.next * SECTOR_BYTES else 0
  }

  /** Exact tiling: the right number of commands, each of 1..limit sectors, back to back, whose sectors,
      media bytes and payload bytes add up to what was left of the slot. */
  lemma {:induction false} CommandsTile(cfg: Config, c: Context)
    requires ConfigOk(cfg) && c.next <= c.totalSectors && c.totalBytes <= c.totalSectors * SECTOR_BYTES
    ensures var ps := Commands(cfg, c);
            && |ps| == CommandCount(c.totalSectors - c.next, CommandLimit(cfg))
            && (forall k :: 0 <= k < |ps| ==> 1 <= ps[k].sectors <= CommandLimit(cfg) && ps[k].bytes == ps[k].sectors * SECTOR_BYTES)
            && Contiguous(ps, c.baseLba + c.next, c.baseDdr + c.next * SECTOR_BYTES)
            && CommandSectors(ps) == c.totalSectors - c.next
            && CommandBytes(ps) == (c.totalSectors - c.next) * SECTOR_BYTES
            && CommandPayload(ps) == PayloadFrom(c)
    decreases c.totalSectors - c.next
  {
    CommandCountStep(c.totalSectors - c.next, CommandLimit(cfg));
    if c.next != c.totalSectors {
      var p := CutCommand(cfg, c, 0);
      var rest := Advance(c, p.sectors);
      CommandsTile(cfg, rest);
      CommandCountStep(0, CommandLimit(cfg));
      assert Commands(cfg, c)[1..] == Commands(cfg, rest);
      assert p.ddrAddr + p.sectors * SECTOR_BYTES == c.baseDdr + rest.next * SECTOR_BYTES;
    }
  }

  /** First sector of the last command. */
  function LastCut(cfg: Config, c: Context): nat
    requires ConfigOk(cfg) && c.next < c.totalSectors
    decreases c.totalSectors - c.next
  {
    if c.totalSectors - c.next <= CommandLimit(cfg) then c.next
    else LastCut(cfg, Advance(c, CommandLimit(cfg)))
  }

  /** The payload counter ends up right exactly when the payload reaches into the last command: a command
      that lies wholly beyond it is counted with all its bytes. */
  lemma {:induction false} RecordedExactly(cfg: Config, c: Context)
    requires ConfigOk(cfg) && c.next < c.totalSectors && c.totalBytes <= c.totalSectors * SECTOR_BYTES
    ensures c.next <= LastCut(cfg, c) < c.totalSectors
    ensures SumRecorded(Commands(cfg, c)) >= PayloadFrom(c)
    ensures SumRecorded(Commands(cfg, c)) == PayloadFrom(c) <==> LastCut(cfg, c) * SECTOR_BYTES < c.totalBytes
    decreases c.totalSectors - c.next
  {
    var p := CutCommand(cfg, c, 0);
    var rest := Advance(c, p.sectors);
    assert Commands(cfg, c)[1..] == Commands(cfg, rest);
    if rest.next == rest.totalSectors {
      assert Commands(cfg, rest) == [];
    } else {
      RecordedExactly(cfg, rest);
      assert rest == Advance(c, CommandLimit(cfg));
    }
  }

  /** In particular for every slot whose sector count is the one its bytes need, as the queue demands. */
  lemma RecordedForQueuedSlot(cfg: Config, r: Req)
    requires ConfigOk(cfg) && r.bytes > 0 && r.sectors == BytesToSectors(r.bytes)
    ensures SumRecorded(Commands(cfg, NewContext(r))) == r.bytes
  {
    var c := NewContext(r);
    RecordedExactly(cfg, c);
    assert LastCut(cfg, c) * SECTOR_BYTES <= (c.totalSectors - 1) * SECTOR_BYTES;
  }

  // ---- The running engine follows that cutting ----

  /** Counting commands and completions does not change what is still to be cut. */
  lemma {:induction false} SameCommands(cfg: Config, c: Context, d: Context)
    requires ConfigOk(cfg) && c.next <= c.totalSectors
    requires d == c.(submitted := d.submitted, completed := d.completed, failed := d.failed, inflight := d.inflight)
    ensures Commands(cfg, d) == Commands(cfg, c)
    decreases c.totalSectors - c.next
  {
    if c.next != c.totalSectors {
      var sectors := CutCommand(cfg, c, 0).sectors;
      SameCommands(cfg, Advance(c, sectors), Advance(d, sectors));
    }
  }

  /** All commands of slot `r`. */
  function SlotCommands(cfg: Config, r: Req): seq<Pending>
    requires ConfigOk(cfg)
  {
    Commands(cfg, NewContext(r))
  }

  /** What was submitted for slot `r` are its first `submitted` commands; the others are still to come. */
  predicate TiledSoFar(cfg: Config, c: Context, r: Req) {
    && ConfigOk(cfg) && c.next <= c.totalSectors && c.submitted <= |SlotCommands(cfg, r)|
    && Commands(cfg, c) == SlotCommands(cfg, r)[c.submitted..]
  }

  predicate Tiled(e: Engine)
    requires Shape(e)
  {
    forall i :: 0 <= i < CAPACITY && e.active[i] ==> TiledSoFar(e.cfg, e.contexts[i], e.reqs[i])
  }

  /** The next command cut is the next one of the slot, in size and place. */
  lemma AdvanceTiles(cfg: Config, c: Context, r: Req, cid: nat)
    requires TiledSoFar(cfg, c, r) && c.next < c.totalSectors
    ensures var p := CutCommand(cfg, c, cid);
            && c.submitted < |SlotCommands(cfg, r)| && p == SlotCommands(cfg, r)[c.submitted].(cid := cid)
            && TiledSoFar(cfg, Advance(c, p.sectors), r)
  {
    var p := CutCommand(cfg, c, cid);
    assert Commands(cfg, c)[0] == p.(cid := 0) && Commands(cfg, c)[1..] == Commands(cfg, Advance(c, p.sectors));
    assert SlotCommands(cfg, r)[c.submitted..][1..] == SlotCommands(cfg, r)[c.submitted + 1..];
  }

  lemma PostTiles(e: Engine, i: nat, k: nat, p: Pending)
    requires Shape(e) && Tiled(e) && i < CAPACITY && k < CAPACITY && p.cid < CID_SPACE && e.active[i]
    requires e.contexts[i].next < e.contexts[i].totalSectors && p == CutCommand(e.cfg, e.contexts[i], p.cid)
    ensures Tiled(Post(e, i, k, p))
  {
    AdvanceTiles(e.cfg, e.contexts[i], e.reqs[i], p.cid);
  }

  lemma SubmitTiles(s: Sys, answer: Answer)
    requires Inv(s) && Enabled(s, Submit(answer)) && Tiled(s.e)
    ensures Shape(SubmitStep(s, answer).e) && Tiled(SubmitStep(s, answer).e)
  {
    var i, k, p, nextCid, rr := SubmitCases(s, answer);
    PostTiles(s.e.(nextCid := nextCid, rr := rr), i, k, p);
  }

  lemma RetireTiles(e: Engine, k: nat, j: nat, error: bool)
    requires Shape(e) && k < CAPACITY && j < CAPACITY && e.contexts[j].inflight > 0 && e.globalInflight > 0 && e.pending[k].valid
    requires Tiled(e) && e.active[j]
    ensures Tiled(RetireEntry(e, k, j, error))
  {
    SameCommands(e.cfg, e.contexts[j], Retired(e.contexts[j], error));
  }

  lemma PollTiles(s: Sys, cid: nat, error: bool)
    requires Inv(s) && cid < CID_SPACE && Tiled(s.e)
    ensures Shape(CompletionStep(s, cid, error).e) && Tiled(CompletionStep(s, cid, error).e)
  {
    if CidLive(s.e.pending, cid) {
      var k, j := CompletionRetires(s, cid, error);
      RetireTiles(s.e, k, j, error);
    }
  }

  lemma AddTiles(s: Sys, r: Req)
    requires Shape(s.e) && Tiled(s.e)
    ensures Shape(AddStep(s, r).e) && Tiled(AddStep(s, r).e)
  {
    assert SlotCommands(s.e.cfg, r)[0..] == SlotCommands(s.e.cfg, r);
  }

  lemma StepTiles(s: Sys, a: Action)
    requires Inv(s) && Enabled(s, a) && Tiled(s.e)
    ensures Shape(Apply(s, a).e) && Tiled(Apply(s, a).e)
  {
    match a
    case Add(r) => AddTiles(s, r);
    case Submit(answer) => SubmitTiles(s, answer);
    case Poll(cid, error) => PollTiles(s, cid, error);
    case _ =>
  }

  /** In every run the commands submitted for an active slot are the slot's commands in order: each of the
      size and at the place `CommandsTile` gives it. */
  lemma {:induction false} RunTiles(s: Sys, acts: seq<Action>, t: Sys)
    requires Inv(s) && Tiled(s.e) && Reaches(s, acts, t)
    ensures Inv(t) && Tiled(t.e)
    decreases acts
  {
    if acts != [] {
      StepKeeps(s, acts[0]);
      StepTiles(s, acts[0]);
      RunTiles(Apply(s, acts[0]), acts[1..], t);
    }
  }

  /** The command a doorbell posts is the next one of its slot. */
  lemma PostedIsNext(t: Sys, answer: Answer)
    requires Reachable(t) && Enabled(t, Submit(answer))
    ensures var i := Picked(t.e); var c, all := t.e.contexts[i], SlotCommands(t.e.cfg, t.e.reqs[i]);
            c.next < c.totalSectors && c.submitted < |all| &&
            forall cid :: CutCommand(t.e.cfg, c, cid) == all[c.submitted].(cid := cid)
  {
    var s, acts :| Init(s) && Reaches(s, acts, t);
    InitInv(s);
    RunTiles(s, acts, t);
    var i := Picked(t.e);
    forall cid: nat { AdvanceTiles(t.e.cfg, t.e.contexts[i], t.e.reqs[i], cid); }
    AdvanceTiles(t.e.cfg, t.e.contexts[i], t.e.reqs[i], 0);
  }

  /** A slot reported done was written by exactly the commands its sectors need. */
  lemma ReportedCommandCount(t: Sys, i: nat)
    requires Reachable(t) && Enabled(t, Report(i, true))
    ensures t.e.contexts[i].completed == CommandCount(t.e.reqs[i].sectors, CommandLimit(t.e.cfg))
  {
    var s, acts :| Init(s) && Reaches(s, acts, t);
    InitInv(s);
    RunTiles(s, acts, t);
    AllCut(t.e.cfg, t.e.contexts[i], t.e.reqs[i]);
  }

  lemma {:induction false} CountCommands(cfg: Config, c: Context)
    requires ConfigOk(cfg) && c.next <= c.totalSectors
    ensures |Commands(cfg, c)| == CommandCount(c.totalSectors - c.next, CommandLimit(cfg))
    decreases c.totalSectors - c.next
  {
    CommandCountStep(c.totalSectors - c.next, CommandLimit(cfg));
    CommandCountStep(0, CommandLimit(cfg));
    if c.next != c.totalSectors { CountCommands(cfg, Advance(c, CutCommand(cfg, c, 0).sectors)); }
  }

  lemma AllCut(cfg: Config, c: Context, r: Req)
    requires TiledSoFar(cfg, c, r) && c.next == c.totalSectors
    ensures c.submitted == CommandCount(r.sectors, CommandLimit(cfg))
  {
    assert |SlotCommands(cfg, r)[c.submitted..]| == 0;
    CountCommands(cfg, NewContext(r));
  }
}

/** The cross-slot write engine as a value and its atomic steps, together with the device it drives.

    A step of the engine is one poll, one doorbell, one slot report and so on; between them the
    device moves sectors, memory outside the engine's slots changes, and another thread may ask for
    an abort. `Apply` says what each step leaves; `Enabled` when the program takes it. */
module EngineModel {
  import opened Media
  import opened NvmeTables

  // ---- Requests, configuration, engine ----

  datatype Req = Req(slot: nat, startLba: nat, sectors: nat, hwAddr: nat, bytes: nat,
                     chunkIndex: nat, fileOffset: nat, mediaBytes: nat)

  const NO_REQ := Req(0, 0, 0, 0, 0, 0, 0, 0)

  datatype Config = Config(maxActive: nat, targetQd: nat, cqBatch: nat,
                           cmdSectors: nat, dmaDescCount: nat, maxLba: nat)

  datatype State = Running | AbortRequested | Draining | Resetting | Quiesced | Failed

  datatype Reason =
    | NoReason
    | MediaByteOverflow | PayloadMediaMismatch | SlotRangeOverflow | SlotLbaOutOfRange | DuplicateActiveSlot
    | ContextCountInvariantFailed | PendingCidStateInconsistent | TotalsInvariantFailed
    | DuplicateCompletionCid | UnknownCompletionCid | CompletionStatusError | CompletionPollFailed
    | SubmitAcceptTimeout | SubmitStopped | SubmitNotAccepted
    | SlotCallbackFailed | NoProgressTimeout | AbortAsked

  datatype Engine = Engine(cfg: Config, pending: seq<Pending>, contexts: seq<Context>, reqs: seq<Req>,
                           active: seq<bool>, activeCount: nat, globalInflight: nat, rr: nat, nextCid: nat,
                           seen: seq<bool>, state: State, lastError: Reason)

  function CommandLimit(cfg: Config): nat {
    if cfg.cmdSectors == 0 then 512 else cfg.cmdSectors
  }

  predicate ConfigOk(cfg: Config) {
    1 <= cfg.maxActive <= CAPACITY && 1 <= cfg.targetQd <= CAPACITY && 1 <= cfg.cqBatch &&
    cfg.dmaDescCount <= U32_MAX && cfg.cmdSectors <= U32_MAX / SECTOR_BYTES
  }

  predicate Shape(e: Engine) {
    && ConfigOk(e.cfg)
    && |e.pending| == |e.contexts| == |e.reqs| == |e.active| == CAPACITY
    && |e.seen| == CID_SPACE
    && e.rr < CAPACITY
    && e.nextCid < CID_SPACE
    && forall k :: 0 <= k < CAPACITY && e.pending[k].valid ==> e.pending[k].cid < CID_SPACE
  }

  function Created(cfg: Config, nextCid: nat): Engine {
    Engine(cfg, seq(CAPACITY, _ => EMPTY_PENDING), seq(CAPACITY, _ => IDLE_CONTEXT), seq(CAPACITY, _ => NO_REQ),
           seq(CAPACITY, _ => false), 0, 0, 0, nextCid, seq(CID_SPACE, _ => false), Running, NoReason)
  }

  /** `cross_slot_fail_code`: the first reason is kept, RUNNING becomes ABORT_REQUESTED. */
  function Fail(e: Engine, reason: Reason): Engine {
    e.(lastError := if e.lastError == NoReason then reason else e.lastError,
       state := if e.state == Running then AbortRequested else e.state)
  }

  // ---- The device and the reference disk ----

  /** A posted write command; `moved` are the sectors the device has transferred so far. */
  datatype Cmd = Cmd(lba: nat, sectors: nat, addr: nat, moved: set<nat>)

  /** The device owns every command in `outstanding`, keyed by command identifier. */
  datatype World = World(outstanding: map<nat, Cmd>, ssd: Disk, ddr: Ddr)

  datatype CidEvent = Issued(cid: nat) | Completed(cid: nat)

  /** What the engine is compared with: `ref` is the disk a plain one-by-one copy of every added slot
      would leave, `base` the same without the slots not yet reported, so those still active or discarded; `log` the life of each identifier. */
  datatype Shadow = Shadow(ref: Disk, base: Disk, log: seq<CidEvent>)

  /** Where `engine_step` is: outside, or in one of the parts of a loop iteration; `Stalled` is the end of a
      refill that met a full submission queue. */
  datatype Phase = Outside | Polling | Reporting | Refilling | Stalled | Waiting

  datatype Sys = Sys(e: Engine, w: World, g: Shadow, phase: Phase)

  /** A failure inside `engine_step` returns from it at once. */
  function GiveUp(s: Sys, e: Engine, reason: Reason): Sys {
    s.(e := Fail(e, reason), phase := Outside)
  }

  // ---- Adding a slot ----

  predicate LbaRangeValid(maxLba: nat, startLba: nat, sectors: nat) {
    maxLba != 0 && sectors != 0 && startLba < maxLba && sectors <= maxLba - startLba
  }

  predicate CanAccept(e: Engine) {
    e.state == Running && e.activeCount < e.cfg.maxActive
  }

  function FirstInactive(active: seq<bool>, i: nat): (k: nat)
    requires i <= |active|
    ensures i <= k <= |active|
    ensures k < |active| ==> !active[k]
    ensures forall j :: i <= j < k ==> active[j]
    decreases |active| - i
  {
    if i == |active| || !active[i] then i else FirstInactive(active, i + 1)
  }

  predicate SlotActive(e: Engine, slot: nat)
    requires Shape(e)
  {
    exists i :: 0 <= i < CAPACITY && e.active[i] && e.reqs[i].slot == slot
  }

  datatype AddVerdict = Refused | Rejected(reason: Reason) | Full | Placed(index: nat)

  /** The checks of `nvme_cross_slot_engine_add`, in order. */
  function JudgeAdd(e: Engine, r: Req): AddVerdict
    requires Shape(e)
  {
    var media := r.sectors * SECTOR_BYTES;
    if r.sectors == 0 || r.bytes == 0 || e.state != Running then Refused
    else if r.sectors > U64_MAX / SECTOR_BYTES then Rejected(MediaByteOverflow)
    else if r.bytes > media || (r.mediaBytes != 0 && r.mediaBytes != media) then Rejected(PayloadMediaMismatch)
    else if r.startLba > U64_MAX - r.sectors || r.hwAddr > U64_MAX - media then Rejected(SlotRangeOverflow)
    else if e.cfg.maxLba != 0 && !LbaRangeValid(e.cfg.maxLba, r.startLba, r.sectors) then Rejected(SlotLbaOutOfRange)
    else if e.cfg.dmaDescCount != 0 && r.slot >= e.cfg.dmaDescCount then Rejected(SlotRangeOverflow)
    else if SlotActive(e, r.slot) then Rejected(DuplicateActiveSlot)
    else if !CanAccept(e) then Full
    else if FirstInactive(e.active, 0) == CAPACITY then Full
    else Placed(FirstInactive(e.active, 0))
  }

  function NewContext(r: Req): Context {
    Context(r.slot, r.startLba, r.hwAddr, r.bytes, r.sectors, 0, 0, 0, 0, 0)
  }

  function Place(e: Engine, i: nat, r: Req): Engine
    requires Shape(e) && i < CAPACITY
  {
    e.(active := e.active[i := true], reqs := e.reqs[i := r], contexts := e.contexts[i := NewContext(r)],
       activeCount := e.activeCount + 1)
  }

  function AddStep(s: Sys, r: Req): Sys
    requires Shape(s.e)
  {
    match JudgeAdd(s.e, r)
    case Placed(i) =>
      s.(e := Place(s.e, i, r),
         g := s.g.(ref := CopySectors(s.g.ref, r.startLba, r.sectors, s.w.ddr, r.hwAddr)))
    case Rejected(reason) => s.(e := Fail(s.e, reason))
    case Refused => s
    case Full => s
  }

  // ---- Posting a command ----

  /** `NvmeSubmitResult`; an unknown acceptance may or may not have reached the device. */
  datatype Answer = Accepted | SqFull | NotAccepted | Stopped | Unknown(posted: bool)

  predicate Posted(answer: Answer) {
    answer == Accepted || answer == Unknown(true)
  }

  function Min(a: nat, b: nat): nat {
    if a <= b then a else b
  }

  /** The command cut from context `c`. */
  function CutCommand(cfg: Config, c: Context, cid: nat): Pending
    requires c.next <= c.totalSectors
  {
    var sectors := Min(c.totalSectors - c.next, CommandLimit(cfg));
    var offset := c.next * SECTOR_BYTES;
    var left := if c.totalBytes > offset then c.totalBytes - offset else 0;
    Pending(true, cid, c.slot, offset, c.baseLba + c.next, c.baseDdr + offset,
            sectors, sectors * SECTOR_BYTES, Min(left, sectors * SECTOR_BYTES))
  }

  function Picked(e: Engine): nat
    requires Shape(e)
  {
    PickContext(e.contexts, e.active, e.rr, 0)
  }

  /** The refill is over: the queue depth is reached, nothing is left to submit, or the queue was full. */
  predicate Refilled(s: Sys)
    requires Shape(s.e)
  {
    s.phase == Stalled || (s.phase == Refilling && (s.e.globalInflight >= s.e.cfg.targetQd || Picked(s.e) == CAPACITY))
  }

  function Advance(c: Context, sectors: nat): Context {
    c.(next := c.next + sectors, submitted := c.submitted + 1, inflight := c.inflight + 1)
  }

  /** The engine once command `p` of context `i`, kept in entry `k`, belongs to the device. */
  function Post(e: Engine, i: nat, k: nat, p: Pending): Engine
    requires Shape(e) && i < CAPACITY && k < CAPACITY && p.cid < CID_SPACE
  {
    e.(pending := e.pending[k := p],
       contexts := e.contexts[i := Advance(e.contexts[i], p.sectors)],
       seen := e.seen[p.cid := false],
       globalInflight := e.globalInflight + 1)
  }

  /** One turn of the refill loop with context `i`, entry `k` and identifier `choice`. */
  function SubmitWith(s: Sys, i: nat, k: nat, choice: CidChoice, answer: Answer): Sys
    requires Shape(s.e) && i < CAPACITY && s.e.contexts[i].next <= s.e.contexts[i].totalSectors
    requires k <= CAPACITY && choice.cid < CID_SPACE && choice.next < CID_SPACE
  {
    var e := s.e;
    var e1 := e.(rr := (i + 1) % CAPACITY);
    if k == CAPACITY then GiveUp(s, e1, PendingCidStateInconsistent)
    else if !choice.found then GiveUp(s, e1.(nextCid := choice.next), PendingCidStateInconsistent)
    else
      var p := CutCommand(e.cfg, e.contexts[i], choice.cid);
      var e2 := e1.(nextCid := choice.next);
      var dropped := e2.(pending := e.pending[k := p.(valid := false)]);
      match answer
      case SqFull => s.(e := dropped, phase := Stalled)
      case NotAccepted => GiveUp(s, dropped, SubmitNotAccepted)
      case Stopped => GiveUp(s, dropped, SubmitStopped)
      case _ =>
        var kept := Post(e2, i, k, p);
        var s1 := if answer == Accepted then s.(e := kept) else GiveUp(s, kept, SubmitAcceptTimeout);
        s1.(w := if Posted(answer)
                 then s.w.(outstanding := s.w.outstanding[p.cid := Cmd(p.lba, p.sectors, p.ddrAddr, {})])
                 else s.w,
            g := s.g.(log := s.g.log + [Issued(p.cid)]))
  }

  /** The identifier the allocator offers next. */
  function NextCid(e: Engine): CidChoice
    requires Shape(e)
  {
    ChooseCid(e.pending, e.nextCid, U16_MAX)
  }

  /** One turn of the refill loop once a context was found: allocate, cut, ring, account. */
  function SubmitStep(s: Sys, answer: Answer): Sys
    requires Shape(s.e) && Picked(s.e) < CAPACITY
  {
    SubmitWith(s, Picked(s.e), FreePending(s.e.pending, 0), NextCid(s.e), answer)
  }

  // ---- Retiring a completion ----

  function Retired(c: Context, error: bool): Context
    requires c.inflight > 0
  {
    if error then c.(failed := c.failed + 1, inflight := c.inflight - 1)
    else c.(completed := c.completed + 1, inflight := c.inflight - 1)
  }

  /** The engine once entry `k` of context `j` is retired. */
  function RetireEntry(e: Engine, k: nat, j: nat, error: bool): Engine
    requires Shape(e) && k < CAPACITY && j < CAPACITY && e.contexts[j].inflight > 0 && e.globalInflight > 0
    requires e.pending[k].valid
  {
    e.(pending := e.pending[k := e.pending[k].(valid := false)],
       contexts := e.contexts[j := Retired(e.contexts[j], error)],
       seen := e.seen[e.pending[k].cid := true],
       globalInflight := e.globalInflight - 1)
  }

  /** `cross_slot_handle_completion` without its closing self-check. */
  function CompletionStep(s: Sys, cid: nat, error: bool): Sys
    requires Shape(s.e) && cid < CID_SPACE
  {
    var e := s.e;
    var s1 := s.(w := s.w.(outstanding := s.w.outstanding - {cid}));
    var k := PendingByCid(e.pending, cid, 0);
    if k == CAPACITY then
      GiveUp(s1, e, if e.seen[cid] then DuplicateCompletionCid else UnknownCompletionCid)
    else
      var j := ContextBySlot(e.contexts, e.pending[k].slot, 0);
      if j == CAPACITY || e.contexts[j].inflight == 0 || e.globalInflight == 0 then
        GiveUp(s1, e, PendingCidStateInconsistent)
      else
        var done := RetireEntry(e, k, j, error);
        var s2 := if error then GiveUp(s1, done, CompletionStatusError) else s1.(e := done);
        s2.(g := s.g.(log := s.g.log + [Completed(cid)]))
  }

  // ---- Reporting a drained slot ----

  predicate Drained(c: Context) {
    c.next == c.totalSectors && c.completed == c.submitted && c.inflight == 0
  }

  function Release(e: Engine, i: nat): Engine
    requires Shape(e) && i < CAPACITY && e.activeCount > 0
  {
    e.(active := e.active[i := false], contexts := e.contexts[i := IDLE_CONTEXT], reqs := e.reqs[i := NO_REQ],
       activeCount := e.activeCount - 1)
  }

  /** `base` takes over the slot's range from `ref`. */
  function Settle(g: Shadow, r: Req): Shadow {
    g.(base := (l: nat) => if r.startLba <= l < r.startLba + r.sectors then g.ref(l) else g.base(l))
  }

  function ReportStep(s: Sys, i: nat, callbackOk: bool): Sys
    requires Shape(s.e) && i < CAPACITY && s.e.activeCount > 0
  {
    if s.e.contexts[i].failed != 0 then GiveUp(s, s.e, CompletionStatusError)
    else if !callbackOk then GiveUp(s, s.e, SlotCallbackFailed)
    else s.(e := Release(s.e, i), g := Settle(s.g, s.e.reqs[i]))
  }

  // ---- Abort, drain, reset ----

  function AbortStep(e: Engine): Engine {
    if e.state == Quiesced || e.state == Failed then e else Fail(e, AbortAsked)
  }

  /** `cross_slot_discard_contexts`. */
  function Discard(e: Engine): Engine
    requires Shape(e)
  {
    e.(pending := seq(CAPACITY, _ => EMPTY_PENDING), contexts := seq(CAPACITY, _ => IDLE_CONTEXT),
       reqs := seq(CAPACITY, _ => NO_REQ), active := seq(CAPACITY, _ => false),
       globalInflight := 0, activeCount := 0)
  }

  predicate Blank(e: Engine, i: nat)
    requires Shape(e) && i < CAPACITY
  {
    && !e.pending[i].valid && !e.active[i] && e.contexts[i].slot == NO_SLOT
    && e.contexts[i].next == 0 && e.contexts[i].totalSectors == 0 && e.contexts[i].submitted == 0
    && e.contexts[i].completed == 0 && e.contexts[i].inflight == 0 && e.contexts[i].failed == 0
  }

  predicate IsQuiesced(e: Engine)
    requires Shape(e)
  {
    e.globalInflight == 0 && e.activeCount == 0 && forall i :: 0 <= i < CAPACITY ==> Blank(e, i)
  }

  // ---- All steps ----

  datatype Action =
    | Add(r: Req)
    | EnterIteration | PollsDone | ReportsDone | RefillDone | LeaveStep
    | Poll(cid: nat, error: bool)
    | PollFailed
    | Report(i: nat, callbackOk: bool)
    | Submit(answer: Answer)
    | TimeOut
    | BeginDrain
    | FinishDrain
    | BeginReset
    | FinishReset(confirmed: bool)
    | RequestAbort
    | Transfer(cid: nat, m: nat)
    | MemoryChange(ddr: Ddr)

  /** The bus addresses an active slot occupies. */
  predicate Holds(r: Req, addr: nat) {
    r.hwAddr <= addr < r.hwAddr + r.sectors * SECTOR_BYTES
  }

  predicate HeldByEngine(e: Engine, addr: nat)
    requires Shape(e)
  {
    exists i :: 0 <= i < CAPACITY && e.active[i] && Holds(e.reqs[i], addr)
  }

  predicate LbasApart(a: Req, b: Req) {
    a.startLba + a.sectors <= b.startLba || b.startLba + b.sectors <= a.startLba
  }

  /** A completion the device is entitled to post: it ends a command the device owns (a successful one
      only after every sector moved), or it names an identifier that is not live. */
  predicate Honest(s: Sys, cid: nat, error: bool) {
    && cid < CID_SPACE
    && (cid in s.w.outstanding ==> error || forall m :: 0 <= m < s.w.outstanding[cid].sectors ==> m in s.w.outstanding[cid].moved)
    && (CidLive(s.e.pending, cid) ==> cid in s.w.outstanding)
  }

  ghost predicate Enabled(s: Sys, a: Action)
    requires Shape(s.e)
  {
    var e := s.e;
    match a
    case Add(r) =>
      // The caller's side: a real slot number, and LBAs no active slot is being written to.
      && s.phase == Outside
      && r.slot != NO_SLOT
      && forall i :: 0 <= i < CAPACITY && e.active[i] ==> LbasApart(e.reqs[i], r)
    case EnterIteration => (s.phase in {Outside, Waiting} || Refilled(s)) && e.state == Running && e.activeCount > 0
    case Poll(cid, error) =>
      && s.phase in {Polling, Waiting, Outside}
      && (s.phase == Outside ==> e.state == Draining)
      && e.globalInflight > 0
      && Honest(s, cid, error)
    case PollFailed => s.phase in {Polling, Waiting} && e.globalInflight > 0
    case PollsDone => s.phase == Polling
    case Report(i, _) => s.phase == Reporting && i < CAPACITY && e.active[i] && Drained(e.contexts[i]) && e.activeCount > 0
    case ReportsDone =>
      && s.phase == Reporting
      && forall i :: 0 <= i < CAPACITY && e.active[i] ==> !Drained(e.contexts[i])
    case Submit(_) =>
      && s.phase == Refilling && e.state == Running && e.globalInflight < e.cfg.targetQd && Picked(e) < CAPACITY
    case RefillDone => Refilled(s)
    case TimeOut => s.phase == Waiting
    case LeaveStep => s.phase == Waiting || Refilled(s) || (s.phase == Refilling && e.state != Running)
    case BeginDrain => s.phase == Outside && e.state !in {Quiesced, Failed}
    case FinishDrain => s.phase == Outside && e.state == Draining && e.globalInflight == 0
    case BeginReset => s.phase == Outside && e.state == Draining && e.globalInflight > 0
    case FinishReset(_) => s.phase == Outside && e.state == Resetting
    case RequestAbort => true
    case Transfer(cid, m) => cid in s.w.outstanding && m < s.w.outstanding[cid].sectors
    case MemoryChange(ddr) => forall addr: nat :: HeldByEngine(e, addr) ==> ddr(addr) == s.w.ddr(addr)
  }

  function TransferStep(w: World, cid: nat, m: nat): World
    requires cid in w.outstanding
  {
    var c := w.outstanding[cid];
    w.(ssd := StoreSector(w.ssd, c.lba + m, SectorAt(w.ddr, c.addr + m * SECTOR_BYTES)),
       outstanding := w.outstanding[cid := c.(moved := c.moved + {m})])
  }

  ghost function Apply(s: Sys, a: Action): Sys
    requires Shape(s.e) && Enabled(s, a)
  {
    match a
    case Add(r) => AddStep(s, r)
    case EnterIteration => s.(phase := Polling)
    case PollsDone => s.(phase := Reporting)
    case ReportsDone => s.(phase := Refilling)
    case RefillDone => s.(phase := Waiting)
    case LeaveStep => s.(phase := Outside)
    case Poll(cid, error) => CompletionStep(s, cid, error)
    case PollFailed => GiveUp(s, s.e, CompletionPollFailed)
    case Report(i, ok) => ReportStep(s, i, ok)
    case Submit(answer) => SubmitStep(s, answer)
    case TimeOut => GiveUp(s, s.e, NoProgressTimeout)
    case BeginDrain => s.(e := AbortStep(s.e).(state := Draining))
    case FinishDrain => s.(e := Discard(s.e).(state := Quiesced))
    case BeginReset => s.(e := s.e.(state := Resetting))
    case FinishReset(confirmed) =>
      if confirmed
      then s.(e := Discard(s.e).(state := Quiesced), w := s.w.(outstanding := map[]))
      else s.(e := s.e.(state := Failed))
    case RequestAbort => s.(e := AbortStep(s.e))
    case Transfer(cid, m) => s.(w := TransferStep(s.w, cid, m))
    case MemoryChange(ddr) => s.(w := s.w.(ddr := ddr))
  }

  /** `t` is where `s` ends up after the steps `acts`, each of them enabled in its turn. */
  ghost predicate Reaches(s: Sys, acts: seq<Action>, t: Sys)
    decreases acts
  {
    if acts == [] then t == s
    else Shape(s.e) && Enabled(s, acts[0]) && Reaches(Apply(s, acts[0]), acts[1..], t)
  }

  lemma {:induction false} ReachesAppend(s: Sys, acts: seq<Action>, t: Sys, more: seq<Action>, u: Sys)
    requires Reaches(s, acts, t) && Reaches(t, more, u)
    ensures Reaches(s, acts + more, u)
    decreases acts
  {
    if acts == [] {
      assert acts + more == more;
    } else {
      assert (acts + more)[1..] == acts[1..] + more;
      ReachesAppend(Apply(s, acts[0]), acts[1..], t, more, u);
    }
  }
}

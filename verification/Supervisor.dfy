/** The task supervisor as a value: masks of channels updated by events, ends of file and exits of the
    workers, and the aggregate verdict. */
module Supervisor {

  const CHANNELS: nat := 3
  const TEXT_MAX: nat := 63

  type Mask = set<nat>
  type ErrorCode = nat

  const ERR_NONE: nat := 0
  const ERR_TAIL_UNALIGNED: nat := 11
  const ERR_STOP_BOUNDARY_TIMEOUT: nat := 13
  const ERR_STOP_HARVEST_TIMEOUT: nat := 14
  const ERR_IPC: nat := 15
  const ERR_IPC_SEQUENCE: nat := 16
  const ERR_WORKER_EXIT: nat := 17
  const ERR_INTEGRITY: nat := 18
  const ERR_BYTE_MISMATCH: nat := 19
  const ERR_INTERNAL: nat := 23
  const ERR_COUNT: nat := 24

  datatype ErrorClass = NoError | Deferred | Fatality

  function ClassOf(code: ErrorCode): ErrorClass {
    if code == ERR_NONE then NoError
    else if ERR_TAIL_UNALIGNED <= code <= ERR_STOP_HARVEST_TIMEOUT then Deferred
    else Fatality
  }

  predicate CodeValid(code: ErrorCode) {
    code < ERR_COUNT
  }

  /** `storage_error_record`: the primary error is never replaced. */
  function Recorded(primary: ErrorCode, secondary: ErrorCode, code: ErrorCode): (r: (ErrorCode, ErrorCode))
    ensures primary != ERR_NONE ==> r.0 == primary
    ensures primary == ERR_NONE ==> r.0 == code
  {
    if ClassOf(code) == NoError then (primary, secondary)
    else if primary == ERR_NONE then (code, secondary)
    else if secondary == ERR_NONE && primary != code then (primary, code)
    else (primary, secondary)
  }

  /** Why something failed: the supervisor's own reasons, or what a worker said. */
  datatype Reason =
    | Silent | Said(text: string) | WorkerFatal | StorageIntegrityFailed | ReceiveIntegrityFailed |
    DmaNvmeByteMismatch | NvmeFileByteMismatch | SplitChannelByteMismatch | InvalidReadySequence |
    InvalidArmedSequence | InvalidRunningSequence | InvalidInputIdleSequence |
    InvalidInputActiveSequence | InvalidDrainedSequence | DrainEpochMismatch | InvalidFatalSequence |
    DuplicateFinal | InvalidFinalSequence | InvalidPerfSequence | InvalidDiagSequence |
    InvalidStopPhaseEvent | StopEpochMismatch | DuplicateStopPhase | InvalidStopPhaseSequence |
    EventTypeInvalid | EventProtocolInvalid | EventChannelMismatch | EventEofWithoutFinal |
    WorkerExitWithoutFinal | WorkerExitFailed | WorkerUnavailable

  predicate Empty(r: Reason) {
    r == Silent || (r.Said? && |r.text| == 0)
  }

  /** `snprintf` into a field of 64 characters, which all the supervisor's own reasons fit. */
  function Clip(r: Reason): Reason {
    if r.Said? && |r.text| > TEXT_MAX then Said(r.text[..TEXT_MAX]) else r
  }

  // ---- Events ----

  datatype WriteResult = WriteResult(receiveOk: bool, persisted: bool, storageOk: bool, integrityOk: bool,
                                     dmaBytes: nat, nvmeBytes: nat, fileBytes: nat,
                                     primary: ErrorCode, secondary: ErrorCode, risk: Reason, secondaryReason: Reason)

  const NO_RESULT := WriteResult(false, false, false, false, 0, 0, 0, ERR_NONE, ERR_NONE, Silent, Silent)

  const PHASE_REQUESTED: nat := 1
  const PHASE_QUIESCED: nat := 3
  const PHASE_FATAL: nat := 7

  datatype Body =
    | Ready | Armed | Running | InputIdle | InputActive
    | DrainReady(epoch: nat)
    | Fatal(code: ErrorCode, reason: Reason)
    | Final(code: ErrorCode, result: WriteResult)
    | PerfSample | DiagEvent
    | StopPhase(epoch: nat, phase: nat, code: ErrorCode)
    | Unlisted

  datatype Event = Event(channel: nat, body: Body)

  datatype Terminal = TaskActive | TaskSuccess | TaskFailed

  /** What each channel has reported. */
  datatype Seen = Seen(ready: Mask, armed: Mask, running: Mask, drained: Mask, finals: Mask, idle: Mask, fatals: Mask)

  datatype Lost = Lost(unavailable: Mask, exited: Mask)

  datatype Stops = Stops(requested: Mask, sent: Mask, failed: Mask)

  datatype AutoDrain = AutoDrain(triggered: bool, epoch: nat, sent: Mask)

  /** Who is to blame. */
  datatype Cause = Cause(firstFatal: bool, known: bool, primary: ErrorCode, secondary: ErrorCode,
                         channel: nat, reason: Reason, secondaryReason: Reason)

  datatype Task = Task(target: Mask, seen: Seen, lost: Lost, stops: Stops, drain: AutoDrain, stopEpoch: nat,
                       phases: seq<nat>, results: seq<WriteResult>, cause: Cause,
                       aggregateReady: bool, terminal: Terminal)

  predicate Shaped(s: Task) {
    |s.phases| == |s.results| == CHANNELS
  }

  /** `storage_supervisor_init`. */
  function Fresh(target: Mask): (s: Task)
    ensures Shaped(s)
  {
    Task(target, Seen({}, {}, {}, {}, {}, {}, {}), Lost({}, {}), Stops({}, {}, {}), AutoDrain(false, 0, {}), 0,
         seq(CHANNELS, _ => 0), seq(CHANNELS, _ => NO_RESULT), Cause(false, false, ERR_NONE, ERR_NONE, 0, Silent, Silent),
         false, TaskActive)
  }

  /** Whether `ch` is a real channel of the task. */
  predicate Targeted(s: Task, ch: nat) {
    ch < CHANNELS && ch in s.target
  }

  // ---- Failures ----

  function OrElse(text: Reason, fallback: Reason): Reason {
    if !Empty(text) then text else fallback
  }

  function RecordedIn(c: Cause, code: ErrorCode): Cause {
    var errors := Recorded(c.primary, c.secondary, code);
    c.(primary := errors.0, secondary := errors.1)
  }

  /** The cause after `fail`. */
  function Blamed(c: Cause, ch: nat, code: ErrorCode, reason: Reason): (r: Cause)
    ensures r.known && r.primary != ERR_NONE
    ensures c.primary != ERR_NONE ==> r.primary == c.primary && r.channel == c.channel && r.reason == c.reason && r.firstFatal == c.firstFatal
    ensures c.primary == ERR_NONE ==> r.firstFatal && r.channel == ch
  {
    var fatal := if ClassOf(code) == Fatality then code else ERR_INTERNAL;
    var text := Clip(OrElse(reason, WorkerFatal));
    var errors := Recorded(c.primary, c.secondary, fatal);
    if c.primary == ERR_NONE then
      c.(primary := errors.0, secondary := errors.1, firstFatal := true, channel := ch, reason := text, known := true)
    else
      c.(secondary := errors.1, known := true,
         secondaryReason := if c.secondary == ERR_NONE && errors.1 != ERR_NONE then text else c.secondaryReason)
  }

  /** `fail`. */
  function Failing(s: Task, ch: nat, code: ErrorCode, reason: Reason): Task {
    s.(cause := Blamed(s.cause, ch, code, reason),
       stops := s.stops.(requested := s.stops.requested + (s.target - s.seen.finals)),
       terminal := if s.aggregateReady then TaskFailed else s.terminal)
  }

  /** A result's own errors, if it names valid ones. */
  function RecordedResult(c: Cause, r: WriteResult, fallback: ErrorCode): (d: Cause)
    ensures d.primary != ERR_NONE && d.firstFatal == c.firstFatal && d.secondaryReason == c.secondaryReason
  {
    var code := if CodeValid(r.primary) && r.primary != ERR_NONE then r.primary else fallback;
    var first := RecordedIn(c, if CodeValid(code) && code != ERR_NONE then code else ERR_INTEGRITY);
    if CodeValid(r.secondary) && r.secondary != ERR_NONE then RecordedIn(first, r.secondary) else first
  }

  /** The cause after `fail_task_result`. */
  function BlamedResult(c: Cause, ch: nat, r: WriteResult, fallback: ErrorCode, fallbackReason: Reason): (d: Cause)
    ensures d.known && d.primary != ERR_NONE && d.channel == ch && d.firstFatal == c.firstFatal
  {
    RecordedResult(c, r, fallback).(
      known := true, channel := ch, reason := Clip(OrElse(OrElse(r.risk, fallbackReason), StorageIntegrityFailed)),
      secondaryReason := if !Empty(r.secondaryReason) then Clip(r.secondaryReason) else c.secondaryReason)
  }

  /** `fail_task_result`. */
  function FailingResult(s: Task, ch: nat, r: WriteResult, fallback: ErrorCode, fallbackReason: Reason): Task {
    s.(cause := BlamedResult(s.cause, ch, r, fallback, fallbackReason), terminal := TaskFailed)
  }

  // ---- The verdict ----

  datatype Blame = Blame(code: ErrorCode, reason: Reason)

  /** What is wrong with one channel's result; no reason when nothing is. */
  function Flaw(r: WriteResult): Blame {
    if !r.receiveOk then Blame(ERR_INTEGRITY, ReceiveIntegrityFailed)
    else if !r.persisted || !r.storageOk || !r.integrityOk then Blame(ERR_INTEGRITY, StorageIntegrityFailed)
    else if r.dmaBytes != r.nvmeBytes then Blame(ERR_BYTE_MISMATCH, DmaNvmeByteMismatch)
    else if r.nvmeBytes != r.fileBytes then Blame(ERR_BYTE_MISMATCH, NvmeFileByteMismatch)
    else Blame(ERR_NONE, Silent)
  }

  /** The first target channel from `i` on whose result is flawed; CHANNELS when there is none. */
  function FirstFlawed(s: Task, i: nat): (k: nat)
    requires Shaped(s) && i <= CHANNELS
    ensures i <= k <= CHANNELS
    ensures k < CHANNELS ==> k in s.target && Flaw(s.results[k]).code != ERR_NONE
    ensures forall j :: i <= j < k ==> j in s.target ==> Flaw(s.results[j]).code == ERR_NONE
    decreases CHANNELS - i
  {
    if i == CHANNELS || (i in s.target && Flaw(s.results[i]).code != ERR_NONE) then i else FirstFlawed(s, i + 1)
  }

  /** `storage_supervisor_result_status`. */
  function Judged(s: Task): (r: Task)
    requires Shaped(s)
    ensures r == s.(aggregateReady := r.aggregateReady, cause := r.cause, terminal := r.terminal)
  {
    if s.terminal != TaskActive || s.seen.finals + s.lost.unavailable != s.target then s
    else
      var a := s.(aggregateReady := true);
      var k := FirstFlawed(s, 0);
      if s.cause.firstFatal || s.lost.unavailable != {} then a.(terminal := TaskFailed)
      else if k < CHANNELS then FailingResult(a, k, s.results[k], Flaw(s.results[k]).code, Flaw(s.results[k]).reason)
      else if 0 in s.target && 1 in s.target && s.results[0].dmaBytes != s.results[1].dmaBytes then
        FailingResult(a, 0, s.results[0], ERR_BYTE_MISMATCH, SplitChannelByteMismatch)
      else a.(terminal := TaskSuccess)
  }

  // ---- Events ----

  function OrEpoch(epoch: nat, new_: nat): nat {
    if epoch == 0 then new_ else epoch
  }

  predicate PhaseFollows(last: nat, phase: nat, code: ErrorCode) {
    if phase == PHASE_FATAL then last != PHASE_FATAL
    else phase == last + 1 || (last == PHASE_REQUESTED && phase == PHASE_QUIESCED && code == ERR_STOP_BOUNDARY_TIMEOUT)
  }

  datatype Verdict = Accept | Reject(code: ErrorCode, reason: Reason)

  function InSequence(ok: bool, reason: Reason): Verdict {
    if ok then Accept else Reject(ERR_IPC_SEQUENCE, reason)
  }

  /** Whether an event fits where its channel is. */
  function Fits(s: Task, e: Event): Verdict
    requires Shaped(s) && e.channel < CHANNELS
  {
    var ch := e.channel;
    match e.body
    case Ready => InSequence(ch !in s.seen.ready && ch !in s.seen.armed && ch !in s.seen.running, InvalidReadySequence)
    case Armed => InSequence(ch in s.seen.ready && ch !in s.seen.armed && ch !in s.seen.running, InvalidArmedSequence)
    case Running => InSequence(ch in s.seen.armed && ch !in s.seen.running, InvalidRunningSequence)
    case InputIdle => InSequence(ch in s.seen.running && ch !in s.seen.drained && ch !in s.seen.finals, InvalidInputIdleSequence)
    case InputActive =>
      InSequence(ch in s.seen.running && ch !in s.seen.drained && ch !in s.seen.finals && !s.drain.triggered, InvalidInputActiveSequence)
    case DrainReady(epoch) =>
      if !(ch in s.seen.running && ch !in s.seen.drained && ch !in s.seen.finals && epoch != 0) then InSequence(false, InvalidDrainedSequence)
      else InSequence(OrEpoch(s.stopEpoch, epoch) == epoch, DrainEpochMismatch)
    case Fatal(_, _) => InSequence(ch !in s.seen.finals && ch !in s.seen.fatals, InvalidFatalSequence)
    case Final(_, _) =>
      if ch in s.seen.finals then InSequence(false, DuplicateFinal)
      else InSequence(ch in s.seen.drained || ch in s.seen.fatals, InvalidFinalSequence)
    case PerfSample => InSequence(ch in s.seen.running && ch !in s.seen.finals, InvalidPerfSequence)
    case DiagEvent => InSequence(ch in s.seen.running || ch in s.seen.fatals || ch in s.seen.finals, InvalidDiagSequence)
    case StopPhase(epoch, phase, code) =>
      if !(ch in s.seen.running && ch !in s.seen.finals && epoch != 0 && PHASE_REQUESTED <= phase <= PHASE_FATAL) then
        InSequence(false, InvalidStopPhaseEvent)
      else if OrEpoch(s.stopEpoch, epoch) != epoch then InSequence(false, StopEpochMismatch)
      else if phase == PHASE_FATAL then InSequence(PhaseFollows(s.phases[ch], phase, code), DuplicateStopPhase)
      else InSequence(PhaseFollows(s.phases[ch], phase, code), InvalidStopPhaseSequence)
    case Unlisted => Reject(ERR_IPC, EventTypeInvalid)
  }

  /** What an accepted event records. */
  function Noted(s: Task, e: Event): (r: Task)
    requires Shaped(s) && e.channel < CHANNELS
    ensures Shaped(r)
  {
    var ch := e.channel;
    match e.body
    case Ready => s.(seen := s.seen.(ready := s.seen.ready + {ch}))
    case Armed => s.(seen := s.seen.(armed := s.seen.armed + {ch}))
    case Running => s.(seen := s.seen.(running := s.seen.running + {ch}))
    case InputIdle => s.(seen := s.seen.(idle := s.seen.idle + {ch}))
    case InputActive => s.(seen := s.seen.(idle := s.seen.idle - {ch}))
    case DrainReady(epoch) => s.(stopEpoch := epoch, seen := s.seen.(drained := s.seen.drained + {ch}))
    case Fatal(code, reason) => Failing(s.(seen := s.seen.(fatals := s.seen.fatals + {ch})), ch, code, reason)
    case Final(_, result) => s.(seen := s.seen.(finals := s.seen.finals + {ch}), results := s.results[ch := result])
    case StopPhase(epoch, phase, _) => s.(stopEpoch := epoch, phases := s.phases[ch := phase])
    case _ => s
  }

  /** A stop phase out of sequence leaves its epoch behind. */
  function EpochTaken(s: Task, e: Event): (r: Task)
    requires Shaped(s) && e.channel < CHANNELS
    ensures Shaped(r)
  {
    match e.body
    case StopPhase(epoch, phase, _) =>
      if e.channel in s.seen.running && e.channel !in s.seen.finals && epoch != 0 && PHASE_REQUESTED <= phase <= PHASE_FATAL
      then s.(stopEpoch := OrEpoch(s.stopEpoch, epoch)) else s
    case _ => s
  }

  /** `storage_supervisor_handle_event`. */
  function Handled(s: Task, e: Event): (r: (Task, int))
    requires Shaped(s)
    ensures Shaped(r.0)
  {
    if !Targeted(s, e.channel) then (s, -1)
    else
      match Fits(s, e)
      case Reject(code, reason) => (Failing(EpochTaken(s, e), e.channel, code, reason), -1)
      case Accept => (Judged(Noted(s, e)), 0)
  }

  /** `storage_ipc_validate_event`, past the frame itself. */
  predicate BodyValid(b: Body) {
    match b
    case Fatal(code, _) => CodeValid(code) && ClassOf(code) == Fatality
    case Final(code, _) => CodeValid(code)
    case DrainReady(epoch) => epoch != 0
    case StopPhase(_, phase, code) =>
      && CodeValid(code) && PHASE_REQUESTED <= phase <= PHASE_FATAL
      && (if phase == PHASE_FATAL then ClassOf(code) == Fatality else code == ERR_NONE || ClassOf(code) == Deferred)
    case Unlisted => false
    case _ => true
  }

  function ProtocolFailing(s: Task, ch: nat, reason: Reason): Task {
    Failing(s, ch, ERR_IPC, OrElse(reason, EventProtocolInvalid))
  }

  /** `storage_supervisor_handle_event_for_channel`; `framed` says whether the frame was in order. */
  function HandledFor(s: Task, expected: nat, framed: bool, e: Event): (r: (Task, int))
    requires Shaped(s)
    ensures Shaped(r.0)
  {
    if !framed || !BodyValid(e.body) then (ProtocolFailing(s, expected, EventProtocolInvalid), -1)
    else if e.channel != expected then (ProtocolFailing(s, expected, EventChannelMismatch), -1)
    else Handled(s, e)
  }

  // ---- Lost workers ----

  /** `storage_supervisor_handle_worker_eof`. */
  function AtEof(s: Task, ch: nat): (r: (Task, int))
    requires Shaped(s)
    ensures Shaped(r.0)
  {
    if !Targeted(s, ch) then (s, -1)
    else if ch in s.seen.finals then (s, 0)
    else
      var f := Failing(s, ch, ERR_WORKER_EXIT, EventEofWithoutFinal);
      (Judged(f.(lost := f.lost.(unavailable := f.lost.unavailable + {ch}))), -1)
  }

  /** `storage_supervisor_handle_worker_exit`. */
  function AtExit(s: Task, ch: nat, code: int): (r: (Task, int))
    requires Shaped(s)
    ensures Shaped(r.0)
  {
    if !Targeted(s, ch) then (s, -1)
    else
      var x := s.(lost := s.lost.(exited := s.lost.exited + {ch}));
      if ch !in s.seen.finals then
        var f := Failing(x, ch, ERR_WORKER_EXIT, if code != 0 then WorkerExitWithoutFinal else EventEofWithoutFinal);
        (Judged(f.(lost := f.lost.(unavailable := f.lost.unavailable + {ch}))), -1)
      else if code != 0 then (Judged(Failing(x, ch, ERR_WORKER_EXIT, WorkerExitFailed)), -1)
      else (Judged(x), 0)
  }

  /** `storage_supervisor_mark_unavailable`. */
  function MarkedUnavailable(s: Task, ch: nat, reason: Reason): (r: Task)
    requires Shaped(s)
    ensures Shaped(r)
  {
    if !Targeted(s, ch) then s
    else Judged(Failing(s.(lost := Lost(s.lost.unavailable + {ch}, s.lost.exited + {ch})), ch,
                        ERR_WORKER_EXIT, OrElse(reason, WorkerUnavailable)))
  }

  // ---- Stop and auto-drain ----

  predicate DrainReadyNow(s: Task) {
    !s.drain.triggered && s.target != {} && s.seen.idle * s.target == s.target
  }

  /** `storage_supervisor_begin_auto_drain`. */
  function DrainBegun(s: Task, epoch: nat): (Task, bool) {
    if !DrainReadyNow(s) || epoch == 0 then (s, false) else (s.(drain := s.drain.(triggered := true, epoch := epoch)), true)
  }

  function DrainPending(s: Task): Mask {
    if s.drain.triggered then s.target - s.drain.sent else {}
  }

  function DrainMarked(s: Task, ch: nat): Task {
    if s.drain.triggered && Targeted(s, ch) then s.(drain := s.drain.(sent := s.drain.sent + {ch})) else s
  }

  function StopAsked(s: Task, mask: Mask): Task {
    s.(stops := s.stops.(requested := s.stops.requested + mask * s.target))
  }

  function StopPending(s: Task): Mask {
    s.stops.requested - s.stops.sent
  }

  function StopMarkedSent(s: Task, ch: nat): Task {
    if ch < CHANNELS && ch in s.stops.requested
    then s.(stops := s.stops.(sent := s.stops.sent + {ch}, failed := s.stops.failed - {ch})) else s
  }

  function StopMarkedFailed(s: Task, ch: nat): Task {
    if ch < CHANNELS && ch in s.stops.requested
    then s.(stops := s.stops.(sent := s.stops.sent - {ch}, failed := s.stops.failed + {ch})) else s
  }
}

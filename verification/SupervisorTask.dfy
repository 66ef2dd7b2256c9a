/** The supervisor as the object the parent process keeps: every handler updates the masks in place and
    does what `Supervisor` says of it. */
module SupervisorTask {
  import opened Supervisor

  class TaskSupervisor {
    const target: Mask
    var seen: Seen
    var lost: Lost
    var stops: Stops
    var drain: AutoDrain
    var stopEpoch: nat
    const phases: array<nat>
    const results: array<WriteResult>
    var cause: Cause
    var aggregateReady: bool
    var terminal: Terminal

    ghost predicate Valid()
      reads this
    {
      phases.Length == results.Length == CHANNELS
    }

    ghost function View(): Task
      reads this, phases, results
    {
      Task(target, seen, lost, stops, drain, stopEpoch, phases[..], results[..], cause, aggregateReady, terminal)
    }

    /** `storage_supervisor_init`. */
    constructor (target: Mask)
      ensures Valid() && fresh(phases) && fresh(results) && View() == Fresh(target)
    {
      this.target := target;
      seen, lost, stops := Seen({}, {}, {}, {}, {}, {}, {}), Lost({}, {}), Stops({}, {}, {});
      drain, stopEpoch := AutoDrain(false, 0, {}), 0;
      phases := new nat[CHANNELS](_ => 0);
      results := new WriteResult[CHANNELS](_ => NO_RESULT);
      cause := Cause(false, false, ERR_NONE, ERR_NONE, 0, Silent, Silent);
      aggregateReady, terminal := false, TaskActive;
      new;
      assert phases[..] == Fresh(target).phases && results[..] == Fresh(target).results;
    }

    /** `storage_error_record`. */
    static method Record(c: Cause, code: ErrorCode) returns (d: Cause)
      ensures d == RecordedIn(c, code)
    {
      d := c;
      if ClassOf(code) != NoError {
        if d.primary == ERR_NONE {
          d := d.(primary := code);
        } else if d.secondary == ERR_NONE && d.primary != code {
          d := d.(secondary := code);
        }
      }
    }

    static method Blame(c: Cause, ch: nat, code: ErrorCode, reason: Reason) returns (d: Cause)
      ensures d == Blamed(c, ch, code, reason)
    {
      var text := Clip(OrElse(reason, WorkerFatal));
      d := Record(c, if ClassOf(code) != Fatality then ERR_INTERNAL else code);
      if c.primary == ERR_NONE && d.primary != ERR_NONE {
        d := d.(firstFatal := true, channel := ch, reason := text);
      } else if c.secondary == ERR_NONE && d.secondary != ERR_NONE {
        d := d.(secondaryReason := text);
      }
      d := d.(known := true);
    }

    /** `fail`. */
    method Fail(ch: nat, code: ErrorCode, reason: Reason)
      modifies this
      ensures View() == Failing(old(View()), ch, code, reason)
    {
      cause := Blame(cause, ch, code, reason);
      stops := stops.(requested := stops.requested + (target - seen.finals));
      if aggregateReady { terminal := TaskFailed; }
    }

    static method RecordResult(c: Cause, r: WriteResult, fallback: ErrorCode) returns (d: Cause)
      ensures d == RecordedResult(c, r, fallback)
    {
      var code := fallback;
      if CodeValid(r.primary) && r.primary != ERR_NONE { code := r.primary; }
      if !CodeValid(code) || code == ERR_NONE { code := ERR_INTEGRITY; }
      d := Record(c, code);
      if CodeValid(r.secondary) && r.secondary != ERR_NONE { d := Record(d, r.secondary); }
    }

    static method BlameResult(c: Cause, ch: nat, r: WriteResult, fallback: ErrorCode, fallbackReason: Reason) returns (d: Cause)
      ensures d == BlamedResult(c, ch, r, fallback, fallbackReason)
    {
      var reason := fallbackReason;
      if !Empty(r.risk) { reason := r.risk; }
      d := RecordResult(c, r, fallback);
      d := d.(channel := ch, reason := Clip(OrElse(reason, StorageIntegrityFailed)));
      if !Empty(r.secondaryReason) { d := d.(secondaryReason := Clip(r.secondaryReason)); }
      d := d.(known := true);
    }

    /** `fail_task_result`. */
    method FailResult(ch: nat, r: WriteResult, fallback: ErrorCode, fallbackReason: Reason)
      modifies this
      ensures View() == FailingResult(old(View()), ch, r, fallback, fallbackReason)
    {
      cause := BlameResult(cause, ch, r, fallback, fallbackReason);
      terminal := TaskFailed;
    }

    /** The checks of one channel's result, in order; true when it was found flawed and the task failed. */
    method FailIfFlawed(i: nat) returns (failed: bool)
      requires Valid() && i < CHANNELS
      modifies this
      ensures Valid() && (failed <==> Flaw(results[i]).code != ERR_NONE)
      ensures View() == if failed then FailingResult(old(View()), i, results[i], Flaw(results[i]).code, Flaw(results[i]).reason)
                        else old(View())
    {
      var r := results[i];
      failed := true;
      if !r.receiveOk {
        FailResult(i, r, ERR_INTEGRITY, ReceiveIntegrityFailed);
      } else if !r.persisted || !r.storageOk || !r.integrityOk {
        FailResult(i, r, ERR_INTEGRITY, StorageIntegrityFailed);
      } else if r.dmaBytes != r.nvmeBytes {
        FailResult(i, r, ERR_BYTE_MISMATCH, DmaNvmeByteMismatch);
      } else if r.nvmeBytes != r.fileBytes {
        FailResult(i, r, ERR_BYTE_MISMATCH, NvmeFileByteMismatch);
      } else {
        failed := false;
      }
    }

    /** `storage_supervisor_result_status`. */
    method ResultStatus() returns (status: Terminal)
      requires Valid()
      modifies this
      ensures Valid() && View() == Judged(old(View()))
      ensures status == terminal
    {
      if terminal != TaskActive { return terminal; }
      if seen.finals + lost.unavailable != target { return TaskActive; }
      aggregateReady := true;
      if cause.firstFatal || lost.unavailable != {} {
        terminal := TaskFailed;
        return terminal;
      }
      var i := 0;
      while i < CHANNELS
        invariant i <= CHANNELS && Valid() && View() == old(View()).(aggregateReady := true)
        invariant FirstFlawed(old(View()), 0) == FirstFlawed(old(View()), i)
      {
        if i in target {
          var failed := FailIfFlawed(i);
          if failed { return terminal; }
        }
        i := i + 1;
      }
      if 0 in target && 1 in target && results[0].dmaBytes != results[1].dmaBytes {
        FailResult(0, results[0], ERR_BYTE_MISMATCH, SplitChannelByteMismatch);
        return terminal;
      }
      terminal := TaskSuccess;
      status := terminal;
    }

    /** The switch of `storage_supervisor_handle_event` for an event that fits. */
    method Note(e: Event)
      requires Valid() && e.channel < CHANNELS && Fits(View(), e) == Accept
      modifies this, phases, results
      ensures Valid() && View() == Noted(old(View()), e)
    {
      var ch := e.channel;
      match e.body
      case Ready => seen := seen.(ready := seen.ready + {ch});
      case Armed => seen := seen.(armed := seen.armed + {ch});
      case Running => seen := seen.(running := seen.running + {ch});
      case InputIdle => seen := seen.(idle := seen.idle + {ch});
      case InputActive => seen := seen.(idle := seen.idle - {ch});
      case DrainReady(epoch) =>
        if stopEpoch == 0 { stopEpoch := epoch; }
        seen := seen.(drained := seen.drained + {ch});
      case Fatal(code, reason) =>
        seen := seen.(fatals := seen.fatals + {ch});
        Fail(ch, code, reason);
      case Final(_, result) =>
        seen := seen.(finals := seen.finals + {ch});
        results[ch] := result;
      case StopPhase(epoch, phase, _) =>
        if stopEpoch == 0 { stopEpoch := epoch; }
        phases[ch] := phase;
      case _ =>
    }

    method TakeEpoch(e: Event)
      requires Valid() && e.channel < CHANNELS
      modifies this
      ensures Valid() && View() == EpochTaken(old(View()), e)
    {
      match e.body
      case StopPhase(epoch, phase, _) =>
        if e.channel in seen.running && e.channel !in seen.finals && epoch != 0 &&
           PHASE_REQUESTED <= phase <= PHASE_FATAL && stopEpoch == 0 {
          stopEpoch := epoch;
        }
      case _ =>
    }

    /** The switch's checks: the reason an event of its channel does not fit, if there is one. */
    method Check(e: Event) returns (verdict: Verdict)
      requires Valid() && e.channel < CHANNELS
      ensures verdict == Fits(View(), e)
    {
      var ch := e.channel;
      var wrong := Silent;
      match e.body {
      case Ready =>
        if ch in seen.ready || ch in seen.armed || ch in seen.running { wrong := InvalidReadySequence; }
      case Armed =>
        if ch !in seen.ready || ch in seen.armed || ch in seen.running { wrong := InvalidArmedSequence; }
      case Running =>
        if ch !in seen.armed || ch in seen.running { wrong := InvalidRunningSequence; }
      case InputIdle =>
        if ch !in seen.running || ch in seen.drained || ch in seen.finals { wrong := InvalidInputIdleSequence; }
      case InputActive =>
        if ch !in seen.running || ch in seen.drained || ch in seen.finals || drain.triggered { wrong := InvalidInputActiveSequence; }
      case DrainReady(epoch) =>
        if ch !in seen.running || ch in seen.drained || ch in seen.finals || epoch == 0 {
          wrong := InvalidDrainedSequence;
        } else if stopEpoch != 0 && stopEpoch != epoch {
          wrong := DrainEpochMismatch;
        }
      case Fatal(_, _) =>
        if ch in seen.finals || ch in seen.fatals { wrong := InvalidFatalSequence; }
      case Final(_, _) =>
        if ch in seen.finals {
          wrong := DuplicateFinal;
        } else if ch !in seen.drained && ch !in seen.fatals {
          wrong := InvalidFinalSequence;
        }
      case PerfSample =>
        if ch !in seen.running || ch in seen.finals { wrong := InvalidPerfSequence; }
      case DiagEvent =>
        if ch !in seen.running && ch !in seen.fatals && ch !in seen.finals { wrong := InvalidDiagSequence; }
      case StopPhase(epoch, phase, code) => wrong := CheckPhase(ch, epoch, phase, code);
      case Unlisted => return Reject(ERR_IPC, EventTypeInvalid);
      }
      verdict := if wrong == Silent then Accept else Reject(ERR_IPC_SEQUENCE, wrong);
    }

    /** The checks of a stop phase: one epoch for all, phases one after the other; a worker that timed out
        at the boundary may go straight on to the quiesced phase. */
    method CheckPhase(ch: nat, epoch: nat, phase: nat, code: ErrorCode) returns (wrong: Reason)
      requires Valid() && ch < CHANNELS
      ensures Fits(View(), Event(ch, StopPhase(epoch, phase, code))) == if wrong == Silent then Accept else Reject(ERR_IPC_SEQUENCE, wrong)
    {
      if ch !in seen.running || ch in seen.finals || epoch == 0 || phase < PHASE_REQUESTED || phase > PHASE_FATAL {
        return InvalidStopPhaseEvent;
      }
      if stopEpoch != 0 && stopEpoch != epoch { return StopEpochMismatch; }
      var last := phases[ch];
      if phase == PHASE_FATAL {
        return if last == PHASE_FATAL then DuplicateStopPhase else Silent;
      }
      var timedOut := last == PHASE_REQUESTED && phase == PHASE_QUIESCED && code == ERR_STOP_BOUNDARY_TIMEOUT;
      wrong := if phase != last + 1 && !timedOut then InvalidStopPhaseSequence else Silent;
    }

    /** `storage_supervisor_handle_event`. */
    method HandleEvent(e: Event) returns (rc: int)
      requires Valid()
      modifies this, phases, results
      ensures Valid() && View() == Handled(old(View()), e).0 && rc == Handled(old(View()), e).1
    {
      if e.channel >= CHANNELS || e.channel !in target { return -1; }
      var verdict := Check(e);
      match verdict
      case Reject(code, reason) =>
        TakeEpoch(e);
        Fail(e.channel, code, reason);
        rc := -1;
      case Accept =>
        Note(e);
        var status := ResultStatus();
        rc := 0;
    }

    /** `storage_supervisor_handle_event_for_channel`. */
    method HandleEventForChannel(expected: nat, framed: bool, e: Event) returns (rc: int)
      requires Valid()
      modifies this, phases, results
      ensures Valid() && View() == HandledFor(old(View()), expected, framed, e).0
      ensures rc == HandledFor(old(View()), expected, framed, e).1
    {
      if !framed || !BodyValid(e.body) {
        ProtocolFail(expected, EventProtocolInvalid);
        return -1;
      }
      if e.channel != expected {
        ProtocolFail(expected, EventChannelMismatch);
        return -1;
      }
      rc := HandleEvent(e);
    }

    /** `storage_supervisor_protocol_fail`. */
    method ProtocolFail(ch: nat, reason: Reason)
      modifies this
      ensures View() == ProtocolFailing(old(View()), ch, reason)
    {
      Fail(ch, ERR_IPC, OrElse(reason, EventProtocolInvalid));
    }

    /** `storage_supervisor_mark_unavailable`. */
    method MarkUnavailable(ch: nat, reason: Reason)
      requires Valid()
      modifies this
      ensures Valid() && View() == MarkedUnavailable(old(View()), ch, reason)
    {
      if ch >= CHANNELS || ch !in target { return; }
      lost := Lost(lost.unavailable + {ch}, lost.exited + {ch});
      Fail(ch, ERR_WORKER_EXIT, OrElse(reason, WorkerUnavailable));
      var status := ResultStatus();
    }

    /** `storage_supervisor_handle_worker_eof`. */
    method HandleEof(ch: nat) returns (rc: int)
      requires Valid()
      modifies this
      ensures Valid() && View() == AtEof(old(View()), ch).0 && rc == AtEof(old(View()), ch).1
    {
      if ch >= CHANNELS || ch !in target { return -1; }
      if ch in seen.finals { return 0; }
      Fail(ch, ERR_WORKER_EXIT, EventEofWithoutFinal);
      lost := lost.(unavailable := lost.unavailable + {ch});
      var status := ResultStatus();
      rc := -1;
    }

    /** `storage_supervisor_handle_worker_exit`. */
    method HandleExit(ch: nat, code: int) returns (rc: int)
      requires Valid()
      modifies this
      ensures Valid() && View() == AtExit(old(View()), ch, code).0 && rc == AtExit(old(View()), ch, code).1
    {
      if ch >= CHANNELS || ch !in target { return -1; }
      lost := lost.(exited := lost.exited + {ch});
      rc := 0;
      if ch !in seen.finals {
        Fail(ch, ERR_WORKER_EXIT, if code != 0 then WorkerExitWithoutFinal else EventEofWithoutFinal);
        lost := lost.(unavailable := lost.unavailable + {ch});
        rc := -1;
      } else if code != 0 {
        Fail(ch, ERR_WORKER_EXIT, WorkerExitFailed);
        rc := -1;
      }
      var status := ResultStatus();
    }

    /** `storage_supervisor_begin_auto_drain`. */
    method BeginAutoDrain(epoch: nat) returns (begun: bool)
      modifies this
      ensures View() == DrainBegun(old(View()), epoch).0 && begun == DrainBegun(old(View()), epoch).1
    {
      if drain.triggered || target == {} || seen.idle * target != target || epoch == 0 { return false; }
      drain := drain.(triggered := true, epoch := epoch);
      begun := true;
    }

    /** `storage_supervisor_mark_auto_drain_sent`. */
    method MarkAutoDrainSent(ch: nat)
      modifies this
      ensures View() == DrainMarked(old(View()), ch)
    {
      if drain.triggered && ch < CHANNELS && ch in target { drain := drain.(sent := drain.sent + {ch}); }
    }

    /** `storage_supervisor_request_stop`. */
    method RequestStop(mask: Mask)
      modifies this
      ensures View() == StopAsked(old(View()), mask)
    {
      stops := stops.(requested := stops.requested + mask * target);
    }

    /** `storage_supervisor_mark_stop_sent`. */
    method MarkStopSent(ch: nat)
      modifies this
      ensures View() == StopMarkedSent(old(View()), ch)
    {
      if ch < CHANNELS && ch in stops.requested {
        stops := stops.(sent := stops.sent + {ch}, failed := stops.failed - {ch});
      }
    }

    /** `storage_supervisor_mark_stop_failed`. */
    method MarkStopFailed(ch: nat)
      modifies this
      ensures View() == StopMarkedFailed(old(View()), ch)
    {
      if ch < CHANNELS && ch in stops.requested {
        stops := stops.(sent := stops.sent - {ch}, failed := stops.failed + {ch});
      }
    }
  }
}

/** The supervisor over every sequence of events, ends of file, exits and stop requests. */
module SupervisorTheorems {
  import opened Supervisor

  datatype Step =
    | EventStep(e: Event) | ForStep(expected: nat, framed: bool, e: Event)
    | EofStep(ch: nat) | ExitStep(ch: nat, code: int) | LostStep(ch: nat, reason: Reason)
    | ProtocolStep(ch: nat, reason: Reason)
    | DrainStep(epoch: nat) | DrainSentStep(ch: nat)
    | StopStep(mask: Mask) | StopSentStep(ch: nat) | StopFailedStep(ch: nat)

  /** The task and every event it has accepted. */
  datatype Run = Run(s: Task, log: seq<Event>)

  function Logged(r: Run, h: (Task, int), e: Event): Run {
    Run(h.0, if h.1 == 0 then r.log + [e] else r.log)
  }

  function Applied(r: Run, step: Step): Run
    requires Shaped(r.s)
  {
    match step
    case EventStep(e) => Logged(r, Handled(r.s, e), e)
    case ForStep(expected, framed, e) => Logged(r, HandledFor(r.s, expected, framed, e), e)
    case EofStep(ch) => r.(s := AtEof(r.s, ch).0)
    case ExitStep(ch, code) => r.(s := AtExit(r.s, ch, code).0)
    case LostStep(ch, reason) => r.(s := MarkedUnavailable(r.s, ch, reason))
    case ProtocolStep(ch, reason) => r.(s := ProtocolFailing(r.s, ch, reason))
    case DrainStep(epoch) => r.(s := DrainBegun(r.s, epoch).0)
    case DrainSentStep(ch) => r.(s := DrainMarked(r.s, ch))
    case StopStep(mask) => r.(s := StopAsked(r.s, mask))
    case StopSentStep(ch) => r.(s := StopMarkedSent(r.s, ch))
    case StopFailedStep(ch) => r.(s := StopMarkedFailed(r.s, ch))
  }

  predicate Reaches(r: Run, steps: seq<Step>, t: Run)
    decreases steps
  {
    if steps == [] then t == r else Shaped(r.s) && Reaches(Applied(r, steps[0]), steps[1..], t)
  }

  // ---- The story of a channel ----

  datatype Milestone = IsReady | IsArmed | IsRunning | IsDrained(epoch: nat) | IsFinal(result: WriteResult)

  function MilestoneOf(b: Body): seq<Milestone> {
    match b
    case Ready => [IsReady]
    case Armed => [IsArmed]
    case Running => [IsRunning]
    case DrainReady(epoch) => [IsDrained(epoch)]
    case Final(_, result) => [IsFinal(result)]
    case _ => []
  }

  /** The milestones among the accepted events of channel `ch`, in order. */
  function Story(log: seq<Event>, ch: nat): seq<Milestone> {
    if log == [] then []
    else
      var e := log[|log| - 1];
      Story(log[..|log| - 1], ch) + (if e.channel == ch then MilestoneOf(e.body) else [])
  }

  lemma StoryMore(log: seq<Event>, e: Event, ch: nat)
    ensures Story(log + [e], ch) == Story(log, ch) + (if e.channel == ch then MilestoneOf(e.body) else [])
  {
    assert (log + [e])[..|log|] == log;
  }

  /** What the masks say the story is. */
  function Told(s: Task, ch: nat): seq<Milestone>
    requires Shaped(s) && ch < CHANNELS
  {
    var drained := IsDrained(s.stopEpoch);
    if ch in s.seen.finals then [IsReady, IsArmed, IsRunning, drained, IsFinal(s.results[ch])]
    else if ch in s.seen.drained then [IsReady, IsArmed, IsRunning, drained]
    else if ch in s.seen.running then [IsReady, IsArmed, IsRunning]
    else if ch in s.seen.armed then [IsReady, IsArmed]
    else if ch in s.seen.ready then [IsReady]
    else []
  }

  // ---- The invariant ----

  predicate MasksOk(s: Task) {
    && s.seen.ready <= s.target && s.seen.finals <= s.target && s.lost.unavailable <= s.target
    && s.seen.drained <= s.seen.running <= s.seen.armed <= s.seen.ready
    && (forall ch :: ch in s.seen.ready ==> ch < CHANNELS)
    && (forall ch :: ch in s.seen.finals ==> ch < CHANNELS)
    && (forall ch :: ch in s.lost.unavailable ==> ch < CHANNELS)
    && (forall ch :: ch in s.seen.finals && ch !in s.seen.fatals ==> ch in s.seen.drained)
    && (s.seen.drained != {} ==> s.stopEpoch != 0)
  }

  predicate ErrorsOk(s: Task) {
    && (s.cause.known <==> s.cause.primary != ERR_NONE)
    && (s.terminal == TaskActive ==> (s.cause.firstFatal <==> s.cause.primary != ERR_NONE))
    && (s.seen.fatals + s.lost.unavailable != {} ==> s.cause.primary != ERR_NONE)
    && (s.terminal == TaskFailed ==> s.cause.primary != ERR_NONE)
    && (s.terminal == TaskSuccess ==> s.cause.primary == ERR_NONE)
  }

  predicate TerminalOk(s: Task) {
    && (s.terminal != TaskActive <==> s.aggregateReady)
    && (s.target != {} ==> (s.terminal != TaskActive <==> s.seen.finals + s.lost.unavailable == s.target))
    && (s.terminal != TaskActive ==> s.seen.finals + s.lost.unavailable == s.target)
  }

  /** The results add up. */
  predicate ResultsAgree(s: Task)
    requires Shaped(s)
  {
    && (forall ch :: 0 <= ch < CHANNELS && ch in s.target ==> Flaw(s.results[ch]).code == ERR_NONE)
    && (0 in s.target && 1 in s.target ==> s.results[0].dmaBytes == s.results[1].dmaBytes)
  }

  predicate StopsOk(s: Task) {
    s.stops.sent <= s.stops.requested <= s.target && s.stops.failed <= s.stops.requested && s.stops.sent * s.stops.failed == {}
  }

  predicate DrainOk(s: Task) {
    && s.drain.sent <= s.target
    && (s.drain.triggered ==> s.drain.epoch != 0 && s.target != {} && s.target <= s.seen.idle)
  }

  predicate StateOk(s: Task) {
    && Shaped(s) && MasksOk(s) && ErrorsOk(s) && TerminalOk(s) && StopsOk(s) && DrainOk(s)
    && (s.terminal == TaskSuccess ==> ResultsAgree(s))
  }

  predicate StoriesOk(r: Run)
    requires Shaped(r.s)
  {
    forall ch :: 0 <= ch < CHANNELS && ch !in r.s.seen.fatals ==> Story(r.log, ch) == Told(r.s, ch)
  }

  predicate Inv(r: Run) {
    StateOk(r.s) && StoriesOk(r)
  }

  lemma FreshInv(target: Mask)
    ensures Inv(Run(Fresh(target), []))
  {
  }

  // ---- Building blocks ----

  /** All of the state but the verdict. */
  predicate Unjudged(s: Task) {
    && Shaped(s) && MasksOk(s) && ErrorsOk(s) && StopsOk(s) && DrainOk(s)
    && (s.terminal != TaskActive <==> s.aggregateReady)
    && (s.terminal != TaskActive ==> s.seen.finals + s.lost.unavailable == s.target)
    && (s.terminal == TaskSuccess ==> ResultsAgree(s))
  }

  lemma FailingKeeps(s: Task, ch: nat, code: ErrorCode, reason: Reason)
    requires Unjudged(s)
    ensures Unjudged(Failing(s, ch, code, reason)) && Failing(s, ch, code, reason).cause.primary != ERR_NONE
    ensures TerminalOk(s) ==> TerminalOk(Failing(s, ch, code, reason))
  {
  }

  lemma FailingResultKeeps(s: Task, ch: nat, r: WriteResult, code: ErrorCode, reason: Reason)
    requires Unjudged(s.(aggregateReady := false)) && s.terminal == TaskActive && s.aggregateReady
    requires s.seen.finals + s.lost.unavailable == s.target
    ensures Unjudged(FailingResult(s, ch, r, code, reason))
  {
  }

  lemma JudgedKeeps(s: Task)
    requires Unjudged(s)
    ensures StateOk(Judged(s))
    ensures s.target == {} || TerminalOk(s) ==> TerminalOk(Judged(s))
  {
    if s.terminal == TaskActive && s.seen.finals + s.lost.unavailable == s.target {
      var a, k := s.(aggregateReady := true), FirstFlawed(s, 0);
      if !s.cause.firstFatal && s.lost.unavailable == {} {
        if k < CHANNELS {
          FailingResultKeeps(a, k, s.results[k], Flaw(s.results[k]).code, Flaw(s.results[k]).reason);
        } else if 0 in s.target && 1 in s.target && s.results[0].dmaBytes != s.results[1].dmaBytes {
          FailingResultKeeps(a, 0, s.results[0], ERR_BYTE_MISMATCH, SplitChannelByteMismatch);
        }
      }
    }
  }

  /** The verdict does not touch what the story is told from. */
  predicate SameStory(s: Task, t: Task) {
    && Shaped(s) && Shaped(t) && t.seen.ready == s.seen.ready && t.seen.armed == s.seen.armed && t.seen.running == s.seen.running
    && t.seen.drained == s.seen.drained && t.seen.finals == s.seen.finals && t.seen.fatals == s.seen.fatals && t.results == s.results
    && (s.seen.drained != {} ==> t.stopEpoch == s.stopEpoch)
  }

  lemma SameStoryTold(r: Run, t: Task)
    requires Shaped(r.s) && MasksOk(r.s) && StoriesOk(r) && SameStory(r.s, t)
    ensures StoriesOk(r.(s := t))
  {
    forall ch | 0 <= ch < CHANNELS && ch !in t.seen.fatals
      ensures Told(t, ch) == Told(r.s, ch)
    {
      assert ch in r.s.seen.finals ==> ch in r.s.seen.drained;
    }
  }

  // ---- Events ----

  lemma RejectedKeeps(s: Task, e: Event, code: ErrorCode, reason: Reason)
    requires StateOk(s) && Targeted(s, e.channel) && Fits(s, e) == Reject(code, reason)
    ensures var t := Failing(EpochTaken(s, e), e.channel, code, reason); StateOk(t) && SameStory(s, t)
  {
    FailingKeeps(EpochTaken(s, e), e.channel, code, reason);
  }

  lemma NotedKeeps(s: Task, e: Event)
    requires StateOk(s) && Targeted(s, e.channel) && Fits(s, e) == Accept
    ensures Unjudged(Noted(s, e))
  {
    match e.body
    case Fatal(code, reason) => FatalNoted(s, e.channel, code, reason);
    case _ =>
  }

  lemma FatalNoted(s: Task, ch: nat, code: ErrorCode, reason: Reason)
    requires StateOk(s) && ch < CHANNELS
    ensures Unjudged(Failing(s.(seen := s.seen.(fatals := s.seen.fatals + {ch})), ch, code, reason))
  {
  }

  /** The epoch of a drain is settled by the first one. */
  lemma EpochSettled(s: Task, e: Event)
    requires Shaped(s) && e.channel < CHANNELS && Fits(s, e) == Accept && s.stopEpoch != 0
    ensures Noted(s, e).stopEpoch == s.stopEpoch
  {
  }

  lemma NotedElsewhere(s: Task, e: Event, ch: nat)
    requires Shaped(s) && e.channel < CHANNELS && ch < CHANNELS && ch != e.channel
    ensures var t := Noted(s, e);
            && (ch in t.seen.ready <==> ch in s.seen.ready) && (ch in t.seen.armed <==> ch in s.seen.armed)
            && (ch in t.seen.running <==> ch in s.seen.running) && (ch in t.seen.drained <==> ch in s.seen.drained)
            && (ch in t.seen.finals <==> ch in s.seen.finals) && t.results[ch] == s.results[ch]
  {
  }

  lemma ToldElsewhere(s: Task, t: Task, e: Event, ch: nat)
    requires Shaped(s) && MasksOk(s) && e.channel < CHANNELS && Fits(s, e) == Accept && t == Noted(s, e)
    requires ch < CHANNELS && ch != e.channel && ch !in s.seen.fatals
    ensures Told(t, ch) == Told(s, ch)
  {
    assert ch in s.seen.finals ==> ch in s.seen.drained;
    NotedElsewhere(s, e, ch);
    if s.seen.drained != {} { EpochSettled(s, e); }
  }

  /** What an accepted event does to its own channel's masks. */
  lemma NotedHere(s: Task, e: Event)
    requires Shaped(s) && e.channel < CHANNELS && Fits(s, e) == Accept
    ensures var t, ch := Noted(s, e), e.channel;
            && (ch in t.seen.ready <==> ch in s.seen.ready || e.body.Ready?) && (ch in t.seen.armed <==> ch in s.seen.armed || e.body.Armed?)
            && (ch in t.seen.running <==> ch in s.seen.running || e.body.Running?)
            && (ch in t.seen.drained <==> ch in s.seen.drained || e.body.DrainReady?)
            && (ch in t.seen.finals <==> ch in s.seen.finals || e.body.Final?)
            && t.results[ch] == (if e.body.Final? then e.body.result else s.results[ch])
            && (e.body.DrainReady? ==> t.stopEpoch == e.body.epoch)
  {
  }

  /** Where a milestone fits. */
  lemma FitsHere(s: Task, e: Event)
    requires Shaped(s) && MasksOk(s) && e.channel < CHANNELS && Fits(s, e) == Accept && e.channel !in s.seen.fatals
    ensures var ch := e.channel;
            match e.body
            case Ready => ch !in s.seen.ready
            case Armed => ch in s.seen.ready && ch !in s.seen.armed
            case Running => ch in s.seen.armed && ch !in s.seen.running
            case DrainReady(_) => ch in s.seen.running && ch !in s.seen.drained
            case Final(_, _) => ch in s.seen.drained && ch !in s.seen.finals
            case _ => true
  {
  }

  lemma ToldHere(s: Task, t: Task, e: Event)
    requires Shaped(s) && Shaped(t) && MasksOk(s) && e.channel < CHANNELS && Fits(s, e) == Accept && t == Noted(s, e)
    requires e.channel !in s.seen.fatals
    ensures Told(t, e.channel) == Told(s, e.channel) + MilestoneOf(e.body)
  {
    assert e.channel in s.seen.finals ==> e.channel in s.seen.drained;
    NotedHere(s, e);
    FitsHere(s, e);
    if s.seen.drained != {} { EpochSettled(s, e); }
  }

  lemma NotedStory(r: Run, e: Event, ch: nat)
    requires Inv(r) && Targeted(r.s, e.channel) && Fits(r.s, e) == Accept && ch < CHANNELS && ch !in Noted(r.s, e).seen.fatals
    ensures Story(r.log + [e], ch) == Told(Noted(r.s, e), ch)
  {
    StoryMore(r.log, e, ch);
    NoFatalLost(r.s, e, ch);
    if e.channel == ch { ToldHere(r.s, Noted(r.s, e), e); } else { ToldElsewhere(r.s, Noted(r.s, e), e, ch); }
  }

  lemma NoFatalLost(s: Task, e: Event, ch: nat)
    requires Shaped(s) && e.channel < CHANNELS && ch !in Noted(s, e).seen.fatals
    ensures ch !in s.seen.fatals
  {
  }

  lemma HandledKeeps(r: Run, e: Event)
    requires Inv(r)
    ensures Inv(Logged(r, Handled(r.s, e), e))
  {
    if Targeted(r.s, e.channel) {
      match Fits(r.s, e)
      case Reject(code, reason) =>
        RejectedKeeps(r.s, e, code, reason);
        SameStoryTold(r, Handled(r.s, e).0);
      case Accept =>
        NotedKeeps(r.s, e);
        JudgedKeeps(Noted(r.s, e));
        forall ch | 0 <= ch < CHANNELS && ch !in Noted(r.s, e).seen.fatals
          ensures Story(r.log + [e], ch) == Told(Noted(r.s, e), ch)
        {
          NotedStory(r, e, ch);
        }
        JudgedSame(Noted(r.s, e));
        SameStoryTold(Run(Noted(r.s, e), r.log + [e]), Judged(Noted(r.s, e)));
    }
  }

  lemma JudgedSame(s: Task)
    requires Shaped(s)
    ensures SameStory(s, Judged(s))
  {
  }

  lemma LostKeeps(s: Task, ch: nat, code: ErrorCode, reason: Reason, exited: Mask)
    requires StateOk(s) && Targeted(s, ch)
    ensures var f := Failing(s.(lost := s.lost.(exited := exited)), ch, code, reason);
            var t := Judged(f.(lost := f.lost.(unavailable := f.lost.unavailable + {ch}))); StateOk(t) && SameStory(s, t)
  {
    FailingKeeps(s.(lost := s.lost.(exited := exited)), ch, code, reason);
    var f := Failing(s.(lost := s.lost.(exited := exited)), ch, code, reason);
    JudgedKeeps(f.(lost := f.lost.(unavailable := f.lost.unavailable + {ch})));
    JudgedSame(f.(lost := f.lost.(unavailable := f.lost.unavailable + {ch})));
  }

  /** A failure that changes no mask the story is told from. */
  lemma FailKeeps(r: Run, s: Task, ch: nat, code: ErrorCode, reason: Reason)
    requires Inv(r) && StateOk(s) && SameStory(r.s, s)
    ensures Inv(r.(s := Failing(s, ch, code, reason)))
  {
    FailingKeeps(s, ch, code, reason);
    SameStoryTold(r, Failing(s, ch, code, reason));
  }

  lemma EofKeeps(r: Run, ch: nat)
    requires Inv(r)
    ensures Inv(r.(s := AtEof(r.s, ch).0))
  {
    if Targeted(r.s, ch) && ch !in r.s.seen.finals {
      LostKeeps(r.s, ch, ERR_WORKER_EXIT, EventEofWithoutFinal, r.s.lost.exited);
      SameStoryTold(r, AtEof(r.s, ch).0);
    }
  }

  lemma ExitKeeps(r: Run, ch: nat, code: int)
    requires Inv(r)
    ensures Inv(r.(s := AtExit(r.s, ch, code).0))
  {
    if Targeted(r.s, ch) {
      var x := r.s.(lost := r.s.lost.(exited := r.s.lost.exited + {ch}));
      var t := AtExit(r.s, ch, code).0;
      if ch !in r.s.seen.finals {
        LostKeeps(r.s, ch, ERR_WORKER_EXIT, if code != 0 then WorkerExitWithoutFinal else EventEofWithoutFinal, x.lost.exited);
      } else {
        var f := if code != 0 then Failing(x, ch, ERR_WORKER_EXIT, WorkerExitFailed) else x;
        FailingKeeps(x, ch, ERR_WORKER_EXIT, WorkerExitFailed);
        JudgedKeeps(f);
        JudgedSame(f);
      }
      SameStoryTold(r, t);
    }
  }

  lemma UnavailableKeeps(r: Run, ch: nat, reason: Reason)
    requires Inv(r)
    ensures Inv(r.(s := MarkedUnavailable(r.s, ch, reason)))
  {
    if Targeted(r.s, ch) {
      var f := Failing(r.s.(lost := Lost(r.s.lost.unavailable + {ch}, r.s.lost.exited + {ch})), ch,
                       ERR_WORKER_EXIT, OrElse(reason, WorkerUnavailable));
      assert Unjudged(f);
      JudgedKeeps(f);
      JudgedSame(f);
      SameStoryTold(r, MarkedUnavailable(r.s, ch, reason));
    }
  }

  lemma EventKeeps(r: Run, expected: nat, framed: bool, e: Event)
    requires Inv(r)
    ensures Inv(Logged(r, HandledFor(r.s, expected, framed, e), e))
  {
    if framed && BodyValid(e.body) && e.channel == expected {
      HandledKeeps(r, e);
    } else {
      FailKeeps(r, r.s, expected, ERR_IPC,
                if !framed || !BodyValid(e.body) then EventProtocolInvalid else EventChannelMismatch);
    }
  }

  lemma ControlKeeps(r: Run, step: Step)
    requires Inv(r)
    requires step.DrainStep? || step.DrainSentStep? || step.StopStep? || step.StopSentStep? || step.StopFailedStep?
    ensures Inv(Applied(r, step))
  {
    SameStoryTold(r, Applied(r, step).s);
  }

  lemma StepKeeps(r: Run, step: Step)
    requires Inv(r)
    ensures Inv(Applied(r, step))
  {
    match step
    case EventStep(e) => HandledKeeps(r, e);
    case ForStep(expected, framed, e) => EventKeeps(r, expected, framed, e);
    case EofStep(ch) => EofKeeps(r, ch);
    case ExitStep(ch, code) => ExitKeeps(r, ch, code);
    case LostStep(ch, reason) => UnavailableKeeps(r, ch, reason);
    case ProtocolStep(ch, reason) => FailKeeps(r, r.s, ch, ERR_IPC, OrElse(reason, EventProtocolInvalid));
    case _ => ControlKeeps(r, step);
  }

  lemma {:induction false} RunKeeps(r: Run, steps: seq<Step>, t: Run)
    requires Inv(r) && Reaches(r, steps, t)
    ensures Inv(t)
    decreases steps
  {
    if steps != [] {
      StepKeeps(r, steps[0]);
      RunKeeps(Applied(r, steps[0]), steps[1..], t);
    }
  }

  /** Reached by a task with targets `target`. (`Shaped` holds of every such state; it is here so that the
      statements below are well formed.) */
  predicate Reachable(target: Mask, steps: seq<Step>, t: Run) {
    Shaped(t.s) && Reaches(Run(Fresh(target), []), steps, t)
  }

  lemma {:induction false} TargetKept(r: Run, steps: seq<Step>, t: Run)
    requires Inv(r) && Reaches(r, steps, t)
    ensures t.s.target == r.s.target
    decreases steps
  {
    if steps != [] {
      StepKeeps(r, steps[0]);
      TargetStep(r, steps[0]);
      TargetKept(Applied(r, steps[0]), steps[1..], t);
    }
  }

  lemma TargetStep(r: Run, step: Step)
    requires Shaped(r.s)
    ensures Applied(r, step).s.target == r.s.target
  {
    match step
    case EventStep(e) => HandledTarget(r.s, e);
    case ForStep(_, _, e) => HandledTarget(r.s, e);
    case _ =>
  }

  lemma HandledTarget(s: Task, e: Event)
    requires Shaped(s)
    ensures Handled(s, e).0.target == s.target
  {
  }

  lemma ReachableInv(target: Mask, steps: seq<Step>, t: Run)
    requires Reachable(target, steps, t)
    ensures Inv(t) && t.s.target == target
  {
    FreshInv(target);
    RunKeeps(Run(Fresh(target), []), steps, t);
    TargetKept(Run(Fresh(target), []), steps, t);
  }

  // ---- What it means ----

  /** Success is sound: every target channel had READY, ARMED, RUNNING, DRAIN_READY and FINAL accepted once
      each and in that order, all with one nonzero drain epoch; nothing failed; every channel's result is
      intact with DMA = NVMe = file bytes; channels 0 and 1 received equally much when both are targets. */
  lemma SuccessIsSound(target: Mask, steps: seq<Step>, t: Run, ch: nat)
    requires Reachable(target, steps, t) && t.s.terminal == TaskSuccess && ch in target
    ensures !t.s.cause.known && t.s.seen.fatals == {} && t.s.lost.unavailable == {} && t.s.stopEpoch != 0
    ensures ch < CHANNELS
    ensures Story(t.log, ch) == [IsReady, IsArmed, IsRunning, IsDrained(t.s.stopEpoch), IsFinal(t.s.results[ch])]
    ensures var r := t.s.results[ch];
            r.receiveOk && r.persisted && r.storageOk && r.integrityOk && r.dmaBytes == r.nvmeBytes == r.fileBytes
    ensures 0 in target && 1 in target ==> t.s.results[0].dmaBytes == t.s.results[1].dmaBytes
  {
    ReachableInv(target, steps, t);
    assert t.s.seen.finals + t.s.lost.unavailable == target;
    assert t.s.seen.fatals + t.s.lost.unavailable == {};
    assert ch in t.s.seen.finals && ch in t.s.seen.drained;
  }

  /** The verdict is complete: the task is over exactly when every target channel is final or lost. */
  lemma VerdictComplete(target: Mask, steps: seq<Step>, t: Run)
    requires Reachable(target, steps, t) && target != {}
    ensures t.s.terminal != TaskActive <==> forall ch :: ch in target ==> ch in t.s.seen.finals || ch in t.s.lost.unavailable
  {
    ReachableInv(target, steps, t);
    if forall ch :: ch in target ==> ch in t.s.seen.finals || ch in t.s.lost.unavailable {
      assert t.s.seen.finals + t.s.lost.unavailable == target;
    }
  }

  /** The first cause stands. */
  predicate SameCause(c: Cause, d: Cause) {
    d.primary == c.primary && d.channel == c.channel && d.reason == c.reason && d.firstFatal == c.firstFatal && d.known
  }

  lemma JudgedCause(s: Task)
    requires Shaped(s) && (s.terminal == TaskActive ==> s.cause.firstFatal)
    ensures Judged(s).cause == s.cause
  {
  }

  lemma HandledCause(s: Task, e: Event)
    requires StateOk(s) && s.cause.primary != ERR_NONE
    ensures SameCause(s.cause, Handled(s, e).0.cause)
  {
    if Targeted(s, e.channel) && Fits(s, e) == Accept {
      var n := Noted(s, e);
      assert SameCause(s.cause, n.cause) && n.terminal in {s.terminal, TaskFailed};
      JudgedCause(n);
    }
  }

  lemma ExitCause(s: Task, ch: nat, code: int)
    requires StateOk(s) && s.cause.primary != ERR_NONE
    ensures SameCause(s.cause, AtExit(s, ch, code).0.cause)
  {
    if Targeted(s, ch) {
      var x := s.(lost := s.lost.(exited := s.lost.exited + {ch}));
      JudgedCause(x);
      if ch !in s.seen.finals {
        var f := Failing(x, ch, ERR_WORKER_EXIT, if code != 0 then WorkerExitWithoutFinal else EventEofWithoutFinal);
        JudgedCause(f.(lost := f.lost.(unavailable := f.lost.unavailable + {ch})));
      } else {
        JudgedCause(Failing(x, ch, ERR_WORKER_EXIT, WorkerExitFailed));
      }
    }
  }

  lemma LostCause(s: Task, ch: nat, reason: Reason)
    requires StateOk(s) && s.cause.primary != ERR_NONE
    ensures SameCause(s.cause, AtEof(s, ch).0.cause) && SameCause(s.cause, MarkedUnavailable(s, ch, reason).cause)
  {
    var f := Failing(s, ch, ERR_WORKER_EXIT, EventEofWithoutFinal);
    JudgedCause(f.(lost := f.lost.(unavailable := f.lost.unavailable + {ch})));
    var l := s.(lost := Lost(s.lost.unavailable + {ch}, s.lost.exited + {ch}));
    JudgedCause(Failing(l, ch, ERR_WORKER_EXIT, OrElse(reason, WorkerUnavailable)));
  }

  lemma CauseStep(r: Run, step: Step)
    requires Inv(r) && r.s.cause.primary != ERR_NONE
    ensures SameCause(r.s.cause, Applied(r, step).s.cause)
  {
    match step
    case EventStep(e) => HandledCause(r.s, e);
    case ForStep(_, _, e) => HandledCause(r.s, e);
    case EofStep(ch) => LostCause(r.s, ch, Silent);
    case ExitStep(ch, code) => ExitCause(r.s, ch, code);
    case LostStep(ch, reason) => LostCause(r.s, ch, reason);
    case _ =>
  }

  /** Failure is sticky and its first cause is kept: once the result is known failed the task can never
      succeed, and neither the blamed channel nor the reason nor the primary error changes. */
  lemma {:induction false} FirstCauseKept(r: Run, steps: seq<Step>, t: Run)
    requires Inv(r) && Reaches(r, steps, t) && r.s.cause.known
    ensures t.s.terminal != TaskSuccess && t.s.cause.known
    ensures t.s.cause.channel == r.s.cause.channel && t.s.cause.reason == r.s.cause.reason && t.s.cause.primary == r.s.cause.primary
    decreases steps
  {
    if steps != [] {
      StepKeeps(r, steps[0]);
      CauseStep(r, steps[0]);
      FirstCauseKept(Applied(r, steps[0]), steps[1..], t);
    }
  }

  /** A verdict only ever turns into failure. */
  lemma VerdictStep(r: Run, step: Step)
    requires Shaped(r.s) && r.s.terminal != TaskActive
    ensures Applied(r, step).s.terminal in {r.s.terminal, TaskFailed}
  {
  }

  /** A failed verdict is final. */
  lemma {:induction false} FailedForGood(r: Run, steps: seq<Step>, t: Run)
    requires Inv(r) && Reaches(r, steps, t) && r.s.terminal == TaskFailed
    ensures t.s.terminal == TaskFailed
    decreases steps
  {
    if steps != [] {
      StepKeeps(r, steps[0]);
      VerdictStep(r, steps[0]);
      FailedForGood(Applied(r, steps[0]), steps[1..], t);
    }
  }

  /** The inputs that fail a task all of whose channels are final: for a target channel any event but a
      diagnostic one, an exit with an error code or the loss of the worker; for any channel an event that is
      malformed or comes from another channel, or a failure of the protocol. */
  predicate FailsFinished(s: Task, step: Step) {
    match step
    case EventStep(e) => Targeted(s, e.channel) && e.body != DiagEvent
    case ForStep(expected, framed, e) =>
      !framed || !BodyValid(e.body) || e.channel != expected || (Targeted(s, e.channel) && e.body != DiagEvent)
    case ExitStep(ch, code) => Targeted(s, ch) && code != 0
    case LostStep(ch, _) => Targeted(s, ch)
    case ProtocolStep(_, _) => true
    case _ => false
  }

  lemma EventFailsFinished(s: Task, e: Event)
    requires StateOk(s) && s.terminal == TaskSuccess
    ensures Handled(s, e).0.terminal == if Targeted(s, e.channel) && e.body != DiagEvent then TaskFailed else TaskSuccess
  {
    if Targeted(s, e.channel) {
      assert e.channel in s.seen.finals && e.channel !in s.seen.fatals && e.channel in s.seen.drained;
    }
  }

  /** A successful one is not: it turns into failure exactly by those inputs, and by nothing else. */
  lemma SuccessLost(r: Run, step: Step)
    requires Inv(r) && r.s.terminal == TaskSuccess
    ensures Applied(r, step).s.terminal == if FailsFinished(r.s, step) then TaskFailed else TaskSuccess
  {
    assert r.s.seen.finals == r.s.target;
    match step
    case EventStep(e) => EventFailsFinished(r.s, e);
    case ForStep(_, _, e) => EventFailsFinished(r.s, e);
    case _ =>
  }

  const INTACT := WriteResult(true, true, true, true, 0, 0, 0, ERR_NONE, ERR_NONE, Silent, Silent)

  lemma {:induction false} ReachesMore(r: Run, steps: seq<Step>, t: Run, step: Step)
    requires Reaches(r, steps, t) && Shaped(t.s)
    ensures Reaches(r, steps + [step], Applied(t, step))
    decreases steps
  {
    if steps == [] {
      assert [step][1..] == [];
    } else {
      assert (steps + [step])[1..] == steps[1..] + [step];
      ReachesMore(Applied(r, steps[0]), steps[1..], t, step);
    }
  }

  /** One more event of channel 0, accepted. */
  lemma Tell(steps: seq<Step>, t: Run, body: Body) returns (more: seq<Step>, u: Run)
    requires Reachable({0}, steps, t) && Fits(t.s, Event(0, body)) == Accept
    ensures Reachable({0}, more, u) && u.s == Judged(Noted(t.s, Event(0, body)))
  {
    ReachableInv({0}, steps, t);
    ReachesMore(Run(Fresh({0}), []), steps, t, EventStep(Event(0, body)));
    more, u := steps + [EventStep(Event(0, body))], Applied(t, EventStep(Event(0, body)));
  }

  lemma OneChannelRuns() returns (steps: seq<Step>, t: Run)
    ensures Reachable({0}, steps, t)
    ensures t.s.terminal == TaskActive && t.s.seen == Seen({0}, {0}, {0}, {}, {}, {}, {}) && t.s.lost == Lost({}, {})
    ensures !t.s.cause.firstFatal && t.s.stopEpoch == 0
  {
    steps, t := [], Run(Fresh({0}), []);
    assert Reachable({0}, steps, t);
    steps, t := Tell(steps, t, Ready);
    assert t.s.seen.ready == {0};
    steps, t := Tell(steps, t, Armed);
    assert t.s.seen.armed == {0};
    steps, t := Tell(steps, t, Running);
    assert t.s.seen.running == {0};
  }

  /** Such a run exists: a worker succeeds and then exits with an error code. */
  lemma SuccessIsLost() returns (steps: seq<Step>, t: Run)
    ensures Reachable({0}, steps, t) && t.s.terminal == TaskSuccess
    ensures Applied(t, ExitStep(0, 1)).s.terminal == TaskFailed
  {
    steps, t := OneChannelRuns();
    ReachableInv({0}, steps, t);
    assert 0 in t.s.target && 0 !in t.s.seen.finals + t.s.lost.unavailable;
    steps, t := Tell(steps, t, DrainReady(1));
    assert t.s.seen.drained == {0} && t.s.terminal == TaskActive;
    steps, t := Tell(steps, t, Final(ERR_NONE, INTACT));
    assert t.s.seen.finals == {0} && t.s.results[0] == INTACT;
    ReachableInv({0}, steps, t);
    SuccessLost(t, ExitStep(0, 1));
  }

  /** Stop bookkeeping: what was sent was asked for, only targets are asked, and no channel counts as both
      sent and failed. */
  lemma StopBookkeeping(target: Mask, steps: seq<Step>, t: Run)
    requires Reachable(target, steps, t)
    ensures t.s.stops.sent <= t.s.stops.requested <= target
    ensures t.s.stops.failed <= t.s.stops.requested && t.s.stops.sent * t.s.stops.failed == {}
    ensures StopPending(t.s) <= target
  {
    ReachableInv(target, steps, t);
  }

  /** Every target that is not final has been asked to stop, once anything failed. */
  predicate AllAsked(s: Task) {
    s.cause.known ==> s.target - s.seen.finals <= s.stops.requested
  }

  lemma JudgedAsks(s: Task)
    requires Shaped(s) && AllAsked(s) && s.lost.unavailable <= s.target
    ensures AllAsked(Judged(s))
  {
  }

  lemma HandledAsks(s: Task, e: Event)
    requires StateOk(s) && AllAsked(s)
    ensures AllAsked(Handled(s, e).0)
  {
    if Targeted(s, e.channel) && Fits(s, e) == Accept {
      NotedKeeps(s, e);
      assert AllAsked(Noted(s, e));
      JudgedAsks(Noted(s, e));
    }
  }

  lemma ExitAsks(s: Task, ch: nat, code: int)
    requires StateOk(s) && AllAsked(s)
    ensures AllAsked(AtExit(s, ch, code).0)
  {
    if Targeted(s, ch) {
      var x := s.(lost := s.lost.(exited := s.lost.exited + {ch}));
      JudgedAsks(x);
      var f := Failing(x, ch, ERR_WORKER_EXIT, if code != 0 then WorkerExitWithoutFinal else EventEofWithoutFinal);
      JudgedAsks(f.(lost := f.lost.(unavailable := f.lost.unavailable + {ch})));
      JudgedAsks(Failing(x, ch, ERR_WORKER_EXIT, WorkerExitFailed));
    }
  }

  lemma LossAsks(s: Task, ch: nat, reason: Reason)
    requires StateOk(s) && AllAsked(s)
    ensures AllAsked(AtEof(s, ch).0) && AllAsked(MarkedUnavailable(s, ch, reason))
  {
    if Targeted(s, ch) {
      var f := Failing(s, ch, ERR_WORKER_EXIT, EventEofWithoutFinal);
      JudgedAsks(f.(lost := f.lost.(unavailable := f.lost.unavailable + {ch})));
      var l := s.(lost := Lost(s.lost.unavailable + {ch}, s.lost.exited + {ch}));
      JudgedAsks(Failing(l, ch, ERR_WORKER_EXIT, OrElse(reason, WorkerUnavailable)));
    }
  }

  lemma StepAsks(r: Run, step: Step)
    requires Inv(r) && AllAsked(r.s)
    ensures AllAsked(Applied(r, step).s)
  {
    match step
    case EventStep(e) => HandledAsks(r.s, e);
    case ForStep(_, _, e) => HandledAsks(r.s, e);
    case EofStep(ch) => LossAsks(r.s, ch, Silent);
    case ExitStep(ch, code) => ExitAsks(r.s, ch, code);
    case LostStep(ch, reason) => LossAsks(r.s, ch, reason);
    case _ =>
  }

  lemma {:induction false} RunAsks(r: Run, steps: seq<Step>, t: Run)
    requires Inv(r) && AllAsked(r.s) && Reaches(r, steps, t)
    ensures AllAsked(t.s)
    decreases steps
  {
    if steps != [] {
      StepKeeps(r, steps[0]);
      StepAsks(r, steps[0]);
      RunAsks(Applied(r, steps[0]), steps[1..], t);
    }
  }

  /** In every run, once anything has failed every target that is not final has been asked to stop, whatever
      happened since. */
  lemma FailureStopsAll(target: Mask, steps: seq<Step>, t: Run, ch: nat)
    requires Reachable(target, steps, t) && t.s.cause.known && ch in target && ch !in t.s.seen.finals
    ensures ch in t.s.stops.requested
  {
    FreshInv(target);
    RunAsks(Run(Fresh(target), []), steps, t);
    ReachableInv(target, steps, t);
  }

  /** Auto-drain starts at most once, with a nonzero epoch, and from then on every target stays idle. */
  lemma AutoDrainHolds(target: Mask, steps: seq<Step>, t: Run, epoch: nat)
    requires Reachable(target, steps, t) && t.s.drain.triggered
    ensures t.s.drain.epoch != 0 && target <= t.s.seen.idle && !DrainBegun(t.s, epoch).1
    ensures DrainPending(t.s) + t.s.drain.sent == target
  {
    ReachableInv(target, steps, t);
  }

  lemma PhaseStep(r: Run, step: Step, ch: nat)
    requires Shaped(r.s) && ch < CHANNELS && Shaped(Applied(r, step).s) && r.s.phases[ch] <= PHASE_FATAL
    ensures Applied(r, step).s.phases[ch] == r.s.phases[ch] ||
            r.s.phases[ch] < Applied(r, step).s.phases[ch] <= PHASE_FATAL
  {
    match step
    case EventStep(e) => HandledPhase(r.s, e, ch);
    case ForStep(_, _, e) => HandledPhase(r.s, e, ch);
    case _ =>
  }

  lemma HandledPhase(s: Task, e: Event, ch: nat)
    requires Shaped(s) && ch < CHANNELS && s.phases[ch] <= PHASE_FATAL
    ensures Handled(s, e).0.phases[ch] == s.phases[ch] || s.phases[ch] < Handled(s, e).0.phases[ch] <= PHASE_FATAL
  {
  }

  /** Stop phases only go forward. */
  lemma {:induction false} PhasesGrow(r: Run, steps: seq<Step>, t: Run, ch: nat)
    requires Inv(r) && Reaches(r, steps, t) && ch < CHANNELS && r.s.phases[ch] <= PHASE_FATAL
    ensures Shaped(t.s) && r.s.phases[ch] <= t.s.phases[ch] <= PHASE_FATAL
    decreases steps
  {
    if steps != [] {
      StepKeeps(r, steps[0]);
      PhaseStep(r, steps[0], ch);
      PhasesGrow(Applied(r, steps[0]), steps[1..], t, ch);
    }
  }
}

/** The cross-slot engine as the object that runs: fixed tables updated in place, loops over them, a
    device that answers as it likes and another thread that may ask for an abort at any time. Every
    method is a run of the step system of `EngineModel`. */
module CrossSlotEngine {
  import opened Media
  import opened NvmeTables
  import opened EngineModel
  import opened EngineInvariant
  import opened EngineSafety

  datatype Tables = Tables(pending: seq<Pending>, contexts: seq<Context>, reqs: seq<Req>, active: seq<bool>, seen: seq<bool>)

  /** The `pending_for_context` table after `n` entries. */
  function Charges(e: Engine, n: nat): (charged: seq<nat>)
    requires Shape(e) && n <= CAPACITY
    ensures |charged| == CAPACITY
  {
    seq(CAPACITY, j requires 0 <= j < CAPACITY => ChargedTo(e, j, n))
  }

  lemma ChargesStep(e: Engine, k: nat)
    requires Shape(e) && k < CAPACITY
    ensures var owner := FirstOwner(e, e.pending[k].slot, 0);
            if !e.pending[k].valid then Charges(e, k + 1) == Charges(e, k)
            else owner < CAPACITY ==> Charges(e, k + 1) == Charges(e, k)[owner := Charges(e, k)[owner] + 1]
  {
  }

  /** A run goes on with more steps. */
  lemma Extend(s: Sys, acts: seq<Action>, t: Sys, more: seq<Action>, u: Sys)
    requires Inv(s) && Reaches(s, acts, t) && Reaches(t, more, u)
    ensures Reaches(s, acts + more, u) && Shape(u.e)
  {
    ReachesAppend(s, acts, t, more, u);
    RunKeeps(s, acts + more, u);
  }

  /** A run goes on with one step. */
  lemma OneStep(s: Sys, acts: seq<Action>, t: Sys, a: Action)
    requires Inv(s) && Reaches(s, acts, t) && Shape(t.e) && Enabled(t, a)
    ensures Reaches(s, acts + [a], Apply(t, a)) && Shape(Apply(t, a).e)
  {
    var u := Apply(t, a);
    assert [a][1..] == [] && Reaches(u, [], u);
    Extend(s, acts, t, [a], u);
  }

  /** What handling a completion leaves: the iteration goes on only after a live command ended well. */
  lemma CompletionOutcome(s: Sys, cid: nat, error: bool)
    requires TablesOk(s.e) && cid < CID_SPACE
    ensures var t := CompletionStep(s, cid, error);
            && (s.e.state == Draining ==> t.e.state == Draining)
            && if CidLive(s.e.pending, cid) && !error
            then t.phase == s.phase && t.e.state == s.e.state && t.e.globalInflight < s.e.globalInflight
            else t.phase == Outside && t.e.state != Running
  {
    if CidLive(s.e.pending, cid) { var k, j := CompletionRetires(s, cid, error); }
  }

  lemma CompletionRuns(s: Sys, sofar: seq<Action>, t: Sys, cid: nat, error: bool)
    requires Inv(s) && Reaches(s, sofar, t) && TablesOk(t.e) && Enabled(t, Poll(cid, error))
    ensures var u := CompletionStep(t, cid, error);
            && Reaches(s, sofar + [Poll(cid, error)], u) && Shape(u.e)
            && (t.e.state == Draining ==> u.e.state == Draining)
            && if CidLive(t.e.pending, cid) && !error
            then u.phase == t.phase && u.e.state == t.e.state && u.e.globalInflight < t.e.globalInflight
            else u.phase == Outside && u.e.state != Running
  {
    OneStep(s, sofar, t, Poll(cid, error));
    CompletionOutcome(t, cid, error);
  }

  lemma RunTables(s: Sys, sofar: seq<Action>, t: Sys)
    requires Inv(s) && Reaches(s, sofar, t) && Shape(t.e)
    ensures TablesOk(t.e)
  {
    RunKeeps(s, sofar, t);
  }

  lemma SomeActive(s: Sys, sofar: seq<Action>, t: Sys, i: nat)
    requires Inv(s) && Reaches(s, sofar, t) && Shape(t.e) && i < CAPACITY && t.e.active[i]
    ensures t.e.activeCount > 0
  {
    RunKeeps(s, sofar, t);
    NoneActive(t.e.active, CAPACITY);
  }

  lemma ReportRuns(s: Sys, sofar: seq<Action>, t: Sys, i: nat, ok: bool)
    requires Inv(s) && Reaches(s, sofar, t) && Shape(t.e) && t.phase == Reporting
    requires i < CAPACITY && t.e.active[i] && t.e.activeCount > 0 && Drained(t.e.contexts[i])
    ensures var u := ReportStep(t, i, ok); Reaches(s, sofar + [Report(i, ok)], u) && Shape(u.e)
  {
    OneStep(s, sofar, t, Report(i, ok));
  }

  /** After the doorbell: command `p` sits in entry `k`, the picker and the allocator have moved on. */
  function Rung(s: Sys, k: nat, p: Pending, rr: nat, nextCid: nat, answer: Answer): Sys
    requires Shape(s.e) && k < CAPACITY
  {
    s.(e := s.e.(pending := s.e.pending[k := p], rr := rr, nextCid := nextCid),
       w := if Posted(answer)
            then s.w.(outstanding := s.w.outstanding[p.cid := Cmd(p.lba, p.sectors, p.ddrAddr, {})])
            else s.w)
  }

  /** After the answer was dealt with. */
  function Answered(s: Sys, i: nat, k: nat, p: Pending, answer: Answer): Sys
    requires Shape(s.e) && i < CAPACITY && k < CAPACITY && p.cid < CID_SPACE
  {
    var dropped := s.e.(pending := s.e.pending[k := p.(valid := false)]);
    var kept := s.(e := s.e.(contexts := s.e.contexts[i := Advance(s.e.contexts[i], p.sectors)],
                             seen := s.e.seen[p.cid := false], globalInflight := s.e.globalInflight + 1),
                   g := s.g.(log := s.g.log + [Issued(p.cid)]));
    match answer
    case SqFull => s.(e := dropped, phase := Stalled)
    case NotAccepted => GiveUp(s, dropped, SubmitNotAccepted)
    case Stopped => GiveUp(s, dropped, SubmitStopped)
    case Accepted => kept
    case Unknown(_) => GiveUp(kept, kept.e, SubmitAcceptTimeout)
  }

  /** Together they are one refill turn. */
  lemma AnsweredIsSubmit(s: Sys, i: nat, k: nat, choice: CidChoice, answer: Answer)
    requires Shape(s.e) && i < CAPACITY && s.e.contexts[i].next <= s.e.contexts[i].totalSectors
    requires k < CAPACITY && choice.found && choice.cid < CID_SPACE && choice.next < CID_SPACE
    ensures var p := CutCommand(s.e.cfg, s.e.contexts[i], choice.cid);
            Answered(Rung(s, k, p, (i + 1) % CAPACITY, choice.next, answer), i, k, p, answer) ==
            SubmitWith(s, i, k, choice, answer)
  {
    var p := CutCommand(s.e.cfg, s.e.contexts[i], choice.cid);
    assert s.e.pending[k := p][k := p.(valid := false)] == s.e.pending[k := p.(valid := false)];
  }

  lemma SubmitOutcome(s: Sys, answer: Answer)
    requires TablesOk(s.e) && s.phase == Refilling && s.e.state == Running
    requires Picked(s.e) < CAPACITY && s.e.globalInflight < s.e.cfg.targetQd
    ensures var t := SubmitStep(s, answer);
            match answer
            case Accepted => t.phase == Refilling && t.e.globalInflight == s.e.globalInflight + 1
            case SqFull => t.phase == Stalled && t.e.globalInflight == s.e.globalInflight
            case _ => t.phase == Outside && t.e.state != Running
  {
    var i, k, p, nextCid, rr := SubmitCases(s, answer);
  }

  // ---- What a run consists of ----

  datatype Kind = OfDevice | OfPoll | OfReport | OfSubmit | OfPhase | OfIteration | OfEnd

  function KindOf(a: Action): Kind {
    match a
    case Transfer(_, _) => OfDevice
    case MemoryChange(_) => OfDevice
    case RequestAbort => OfDevice
    case Poll(_, _) => OfPoll
    case PollFailed => OfPoll
    case Report(_, _) => OfReport
    case Submit(_) => OfSubmit
    case EnterIteration => OfIteration
    case PollsDone => OfPhase
    case ReportsDone => OfPhase
    case RefillDone => OfPhase
    case LeaveStep => OfPhase
    case TimeOut => OfPhase
    case _ => OfEnd
  }

  /** `acts` goes on from `sofar` with steps of these kinds only. */
  ghost predicate Grew(sofar: seq<Action>, acts: seq<Action>, kinds: set<Kind>) {
    sofar <= acts && forall k :: |sofar| <= k < |acts| ==> KindOf(acts[k]) in kinds
  }

  /** How many iterations a run began. */
  ghost function Iterations(acts: seq<Action>): nat {
    if acts == [] then 0
    else Iterations(acts[..|acts| - 1]) + (if acts[|acts| - 1] == EnterIteration then 1 else 0)
  }

  lemma {:induction false} SameIterations(sofar: seq<Action>, acts: seq<Action>, kinds: set<Kind>)
    requires Grew(sofar, acts, kinds) && OfIteration !in kinds
    ensures Iterations(acts) == Iterations(sofar)
    decreases acts
  {
    if sofar != acts {
      var shorter := acts[..|acts| - 1];
      assert KindOf(acts[|acts| - 1]) in kinds;
      assert Grew(sofar, shorter, kinds);
      SameIterations(sofar, shorter, kinds);
    }
  }

  datatype Turn = Again | Pause | Quit

  datatype Polled = QueueError | Nothing | Done | Bad

  class WriteEngine {
    const cfg: Config
    const pending: array<Pending>
    const contexts: array<Context>
    const reqs: array<Req>
    const active: array<bool>
    const seen: array<bool>
    var activeCount: nat
    var globalInflight: nat
    var rr: nat
    var nextCid: nat
    var state: State
    var lastError: Reason
    /** The device behind the doorbell and the completion queue. */
    var world: World
    ghost var shadow: Shadow
    ghost var phase: Phase

    ghost predicate Valid()
      reads this
    {
      && pending.Length == contexts.Length == reqs.Length == active.Length == CAPACITY
      && seen.Length == CID_SPACE
      && active != seen
    }

    ghost function Buffers(): Tables
      reads pending, contexts, reqs, active, seen
    {
      Tables(pending[..], contexts[..], reqs[..], active[..], seen[..])
    }

    ghost function Eng(): Engine
      reads this, pending, contexts, reqs, active, seen
    {
      var b := Buffers();
      Engine(cfg, b.pending, b.contexts, b.reqs, b.active, activeCount, globalInflight, rr, nextCid,
             b.seen, state, lastError)
    }

    ghost function View(): Sys
      reads this, pending, contexts, reqs, active, seen
    {
      Sys(Eng(), world, shadow, phase)
    }

    constructor (cfg: Config, nextCid: nat, world: World)
      requires ConfigOk(cfg) && nextCid < CID_SPACE && world.outstanding == map[]
      ensures Valid() && Init(View()) && Inv(View())
      ensures View().w == world && View().e == Created(cfg, nextCid)
    {
      this.cfg := cfg;
      pending := new Pending[CAPACITY](_ => EMPTY_PENDING);
      contexts := new Context[CAPACITY](_ => IDLE_CONTEXT);
      reqs := new Req[CAPACITY](_ => NO_REQ);
      active := new bool[CAPACITY](_ => false);
      seen := new bool[CID_SPACE](_ => false);
      activeCount, globalInflight, rr := 0, 0, 0;
      this.nextCid := nextCid;
      state, lastError := Running, NoReason;
      this.world := world;
      shadow := Shadow(world.ssd, world.ssd, []);
      phase := Outside;
      new;
      assert Eng() == Created(cfg, nextCid);
      InitInv(View());
    }

    method FailWith(reason: Reason)
      requires Valid()
      modifies this
      ensures Valid() && View() == old(View()).(e := Fail(old(Eng()), reason))
    {
      if lastError == NoReason { lastError := reason; }
      if state == Running { state := AbortRequested; }
    }

    /** A failure inside `Step`: record it and return. */
    method Return(reason: Reason)
      requires Valid()
      modifies this
      ensures Valid() && View() == GiveUp(old(View()), old(Eng()), reason)
    {
      FailWith(reason);
      phase := Outside;
    }

    // ---- The self-check ----

    method OwnerOf(slot: nat) returns (o: nat)
      requires Valid() && Shape(Eng())
      ensures o == FirstOwner(Eng(), slot, 0)
    {
      o := 0;
      while o < CAPACITY && !(active[o] && contexts[o].slot == slot)
        invariant o <= CAPACITY
        invariant FirstOwner(Eng(), slot, 0) == FirstOwner(Eng(), slot, o)
      {
        o := o + 1;
      }
    }

    method ContextsSane() returns (ok: bool, actives: nat, inflight: nat)
      requires Valid() && Shape(Eng())
      ensures ok <==> forall i :: 0 <= i < CAPACITY && active[i] ==> ContextSane(Eng(), i)
      ensures ok ==> actives == CountActive(active[..], CAPACITY) && inflight == SumInflight(contexts[..], active[..], CAPACITY)
    {
      var i := 0;
      ok, actives, inflight := true, 0, 0;
      while i < CAPACITY
        invariant i <= CAPACITY
        invariant ok && forall j :: 0 <= j < i && active[j] ==> ContextSane(Eng(), j)
        invariant actives == CountActive(active[..], i) && inflight == SumInflight(contexts[..], active[..], i)
      {
        if active[i] {
          var c := contexts[i];
          if (cfg.dmaDescCount != 0 && c.slot >= cfg.dmaDescCount) || c.slot != reqs[i].slot || c.next > c.totalSectors ||
             c.completed > c.submitted || c.submitted != c.completed + c.failed + c.inflight {
            return false, actives, inflight;
          }
          actives, inflight := actives + 1, inflight + c.inflight;
        }
        i := i + 1;
      }
    }

    method EntrySaneAt(k: nat) returns (ok: bool, owner: nat)
      requires Valid() && Shape(Eng()) && k < CAPACITY && pending[k].valid
      ensures ok <==> EntrySane(Eng(), k)
      ensures ok ==> owner == FirstOwner(Eng(), pending[k].slot, 0)
    {
      owner := OwnerOf(pending[k].slot);
      if seen[pending[k].cid] { return false, owner; }
      var m := 0;
      while m < k
        invariant m <= k
        invariant forall n :: 0 <= n < m && pending[n].valid ==> pending[n].cid != pending[k].cid
      {
        if pending[m].valid && pending[m].cid == pending[k].cid {
          assert Eng().pending[m].valid && Eng().pending[m].cid == Eng().pending[k].cid;
          return false, owner;
        }
        m := m + 1;
      }
      ok := owner < CAPACITY;
    }

    method EntriesSane() returns (ok: bool, pendings: nat, charged: seq<nat>)
      requires Valid() && Shape(Eng())
      ensures ok <==> forall k :: 0 <= k < CAPACITY && pending[k].valid ==> EntrySane(Eng(), k)
      ensures ok ==> pendings == CountValid(pending[..], CAPACITY) && charged == Charges(Eng(), CAPACITY)
    {
      var k := 0;
      ok, pendings, charged := true, 0, seq(CAPACITY, _ => 0);
      ghost var e := Eng();
      assert charged == Charges(e, 0);
      while k < CAPACITY
        invariant k <= CAPACITY && ok && e == Eng()
        invariant forall m :: 0 <= m < k && e.pending[m].valid ==> EntrySane(e, m)
        invariant pendings == CountValid(e.pending, k)
        invariant charged == Charges(e, k)
      {
        ChargesStep(e, k);
        if pending[k].valid {
          var sane, owner := EntrySaneAt(k);
          if !sane { return false, pendings, charged; }
          pendings, charged := pendings + 1, charged[owner := charged[owner] + 1];
        }
        k := k + 1;
      }
    }

    /** `cross_slot_validate`: the loops decide exactly `SelfCheck`. */
    method Validate() returns (ok: bool)
      requires Valid() && Shape(Eng())
      ensures ok <==> SelfCheck(Eng())
    {
      var sane, actives, inflight := ContextsSane();
      if !sane || actives != activeCount || actives > cfg.maxActive { return false; }
      var entries, pendings, charged := EntriesSane();
      if !entries { return false; }
      var i := 0;
      while i < CAPACITY
        invariant i <= CAPACITY
        invariant forall j :: 0 <= j < i && active[j] ==> charged[j] == contexts[j].inflight
      {
        if active[i] && charged[i] != contexts[i].inflight {
          assert Eng().active[i] && ChargedTo(Eng(), i, CAPACITY) != Eng().contexts[i].inflight;
          return false;
        }
        i := i + 1;
      }
      ok := pendings == globalInflight && inflight == globalInflight;
    }

    /** On tables in order the self-check passes. */
    method Recheck() returns (ok: bool)
      requires Valid() && TablesOk(Eng())
      ensures ok
    {
      SelfCheckHolds(Eng());
      ok := Validate();
    }

    // ---- The device and the other thread ----

    /** `ops.submit`: the device answers as it likes; it may have taken a command it did not acknowledge. */
    method RingDoorbell(p: Pending) returns (answer: Answer)
      requires Valid()
      modifies this
      ensures Valid()
      ensures View() == old(View()).(w := if Posted(answer)
                                         then old(world).(outstanding := old(world).outstanding[p.cid := Cmd(p.lba, p.sectors, p.ddrAddr, {})])
                                         else old(world))
    {
      answer := *;
      if Posted(answer) {
        world := world.(outstanding := world.outstanding[p.cid := Cmd(p.lba, p.sectors, p.ddrAddr, {})]);
      }
    }

    /** `ops.poll_completion`: an error, nothing, or a completion the device is entitled to post. */
    method PollQueue() returns (rc: int, cid: nat, error: bool)
      requires Valid() && Shape(Eng())
      modifies this
      ensures Valid() && -1 <= rc <= 1
      ensures rc > 0 ==> Honest(old(View()), cid, error)
      ensures View() == old(View()).(w := if rc > 0 then old(world).(outstanding := old(world).outstanding - {cid}) else old(world))
    {
      rc, cid, error := 0, 0, true;
      if * { return -1, 0, true; }
      if world.outstanding.Keys == {} { return; }
      if * {
        var c :| c in world.outstanding.Keys;
        if c < CID_SPACE {
          var moved := world.outstanding[c].moved;
          if forall m :: 0 <= m < world.outstanding[c].sectors ==> m in moved { error := *; }
          rc, cid := 1, c;
          world := world.(outstanding := world.outstanding - {c});
        }
      }
    }

    /** What happens between two steps of the writer: the device moves sectors, an abort is asked for. */
    method Interference() returns (ghost acts: seq<Action>)
      requires Valid() && Shape(Eng())
      modifies this
      ensures Valid() && Reaches(old(View()), acts, View())
      ensures forall a :: a in acts ==> KindOf(a) == OfDevice
      ensures Buffers() == old(Buffers()) && phase == old(phase) && rr == old(rr)
      ensures globalInflight == old(globalInflight) && activeCount == old(activeCount)
      ensures old(state) in {Draining, Quiesced, Failed} ==> state == old(state)
    {
      acts := [];
      if * {
        acts := [RequestAbort];
        if state != Quiesced && state != Failed { FailWith(AbortAsked); }
        assert acts[1..] == [];
      } else if world.outstanding.Keys != {} {
        var cid :| cid in world.outstanding.Keys;
        var m: nat := *;
        if m < world.outstanding[cid].sectors {
          acts := [Transfer(cid, m)];
          world := TransferStep(world, cid, m);
          assert acts[1..] == [];
        }
      }
    }

    // ---- The operations ----

    method PlaceAt(i: nat, r: Req)
      requires Valid() && Shape(Eng()) && i < CAPACITY
      modifies this, active, reqs, contexts
      ensures Valid() && View() == old(View()).(e := Place(old(Eng()), i, r),
        g := old(shadow).(ref := CopySectors(old(shadow).ref, r.startLba, r.sectors, old(world).ddr, r.hwAddr)))
    {
      active[i], reqs[i] := true, r;
      contexts[i] := NewContext(r);
      activeCount := activeCount + 1;
      shadow := shadow.(ref := CopySectors(shadow.ref, r.startLba, r.sectors, world.ddr, r.hwAddr));
    }

    method ActiveSlot(slot: nat) returns (found: bool)
      requires Valid() && Shape(Eng())
      ensures found <==> SlotActive(Eng(), slot)
    {
      var i := 0;
      while i < CAPACITY
        invariant i <= CAPACITY
        invariant forall j :: 0 <= j < i ==> !(active[j] && reqs[j].slot == slot)
      {
        if active[i] && reqs[i].slot == slot {
          assert Eng().active[i] && Eng().reqs[i].slot == slot;
          return true;
        }
        i := i + 1;
      }
      found := false;
    }

    method FindInactive() returns (i: nat)
      requires Valid() && Shape(Eng())
      ensures i == FirstInactive(Eng().active, 0)
    {
      i := 0;
      while i < CAPACITY && active[i]
        invariant i <= CAPACITY
        invariant FirstInactive(Eng().active, 0) == FirstInactive(Eng().active, i)
      {
        i := i + 1;
      }
    }

    method Judge(r: Req) returns (verdict: AddVerdict)
      requires Valid() && Shape(Eng())
      ensures verdict == JudgeAdd(Eng(), r)
    {
      if r.sectors == 0 || r.bytes == 0 || state != Running { return Refused; }
      if r.sectors > U64_MAX / SECTOR_BYTES { return Rejected(MediaByteOverflow); }
      var media := r.sectors * SECTOR_BYTES;
      if r.bytes > media || (r.mediaBytes != 0 && r.mediaBytes != media) { return Rejected(PayloadMediaMismatch); }
      if r.startLba > U64_MAX - r.sectors || r.hwAddr > U64_MAX - media { return Rejected(SlotRangeOverflow); }
      if cfg.maxLba != 0 && !LbaRangeValid(cfg.maxLba, r.startLba, r.sectors) { return Rejected(SlotLbaOutOfRange); }
      if cfg.dmaDescCount != 0 && r.slot >= cfg.dmaDescCount { return Rejected(SlotRangeOverflow); }
      var duplicate := ActiveSlot(r.slot);
      if duplicate { return Rejected(DuplicateActiveSlot); }
      if !(state == Running && activeCount < cfg.maxActive) { return Full; }
      var i := FindInactive();
      verdict := if i == CAPACITY then Full else Placed(i);
    }

    /** `nvme_cross_slot_engine_add`: 0 taken, 1 full, -1 refused or rejected. */
    method AddSlot(r: Req) returns (rc: int)
      requires Valid() && Inv(View()) && Enabled(View(), Add(r))
      modifies this, active, reqs, contexts
      ensures Valid() && View() == Apply(old(View()), Add(r)) && Inv(View())
      ensures rc == 0 <==> JudgeAdd(old(Eng()), r).Placed?
      ensures rc == 1 <==> JudgeAdd(old(Eng()), r) == Full
      ensures rc in {-1, 0, 1}
    {
      StepKeeps(View(), Add(r));
      var verdict := Judge(r);
      match verdict
      case Refused => rc := -1;
      case Rejected(reason) => FailWith(reason); rc := -1;
      case Full => rc := 1;
      case Placed(i) =>
        PlaceAt(i, r);
        var ok := Recheck();
        rc := if ok then 0 else -1;
    }

    method RetireAt(k: nat, j: nat, error: bool)
      requires Valid() && Shape(Eng()) && k < CAPACITY && j < CAPACITY
      requires contexts[j].inflight > 0 && globalInflight > 0 && pending[k].valid
      modifies this, pending, contexts, seen
      ensures Valid() && View() == old(View()).(e := RetireEntry(old(Eng()), k, j, error),
        g := old(shadow).(log := old(shadow).log + [Completed(old(pending[k]).cid)]))
    {
      var cid := pending[k].cid;
      contexts[j] := Retired(contexts[j], error);
      pending[k] := pending[k].(valid := false);
      seen[cid] := true;
      globalInflight := globalInflight - 1;
      shadow := shadow.(log := shadow.log + [Completed(cid)]);
    }

    /** `cross_slot_handle_completion`, for a completion just taken off the queue in state `s`. */
    method HandleCompletion(cid: nat, error: bool, ghost s: Sys) returns (ok: bool)
      requires Valid() && TablesOk(s.e) && cid < CID_SPACE && s.phase in {Polling, Waiting, Outside}
      requires View() == s.(w := s.w.(outstanding := s.w.outstanding - {cid}))
      modifies this, pending, contexts, seen
      ensures Valid() && View() == CompletionStep(s, cid, error)
      ensures ok <==> CidLive(s.e.pending, cid) && !error
    {
      var k := FindPendingByCid(pending, cid);
      if k == CAPACITY {
        Return(if seen[cid] then DuplicateCompletionCid else UnknownCompletionCid);
        return false;
      }
      assert s.e.pending[k].valid && s.e.pending[k].cid == cid;
      ghost var entry, owner := CompletionRetires(s, cid, error);
      var j := FindSlotContext(contexts, pending[k].slot);
      if j == CAPACITY || contexts[j].inflight == 0 || globalInflight == 0 { assert false; }
      RetireKeepsTables(s.e, k, j, error);
      RetireAt(k, j, error);
      assert View() == RetiredSys(s, k, j, error);
      if error {
        Return(CompletionStatusError);
        return false;
      }
      ok := Recheck();
    }

    // ---- One step ----

    /** The object is where the run `acts` from `s` ends. */
    ghost predicate Ran(s: Sys, acts: seq<Action>)
      reads this, pending, contexts, reqs, active, seen
    {
      Valid() && Inv(s) && Shape(Eng()) && Reaches(s, acts, View())
    }

    /** To the next part of the iteration. */
    method MoveOn(ghost s: Sys, ghost sofar: seq<Action>, ghost a: Action, ghost next: Phase) returns (ghost acts: seq<Action>)
      requires Ran(s, sofar) && Enabled(View(), a) && Apply(View(), a) == View().(phase := next)
      modifies this
      ensures Ran(s, acts) && View() == old(View()).(phase := next) && acts == sofar + [a]
    {
      OneStep(s, sofar, View(), a);
      acts, phase := sofar + [a], next;
    }

    /** `step` gives up for a reason of its own. */
    method GiveUpStep(ghost s: Sys, ghost sofar: seq<Action>, ghost a: Action, reason: Reason) returns (ghost acts: seq<Action>)
      requires Ran(s, sofar) && Enabled(View(), a) && Apply(View(), a) == GiveUp(View(), Eng(), reason)
      modifies this
      ensures Ran(s, acts) && phase == Outside && state != Running && acts == sofar + [a]
    {
      OneStep(s, sofar, View(), a);
      Return(reason);
      acts := sofar + [a];
    }

    /** Whatever the device and the other thread do between two steps of the writer. */
    method Meanwhile(ghost s: Sys, ghost sofar: seq<Action>) returns (ghost acts: seq<Action>)
      requires Ran(s, sofar)
      modifies this
      ensures Ran(s, acts) && Buffers() == old(Buffers()) && phase == old(phase) && rr == old(rr)
      ensures Grew(sofar, acts, {OfDevice})
      ensures globalInflight == old(globalInflight) && activeCount == old(activeCount)
      ensures old(state) in {Draining, Quiesced, Failed} ==> state == old(state)
    {
      var foreign := Interference();
      Extend(s, sofar, old(View()), foreign, View());
      acts := sofar + foreign;
    }

    /** Takes one completion off the queue, if there is one, and handles it. */
    method TakeCompletion(ghost s: Sys, ghost sofar: seq<Action>) returns (polled: Polled, ghost acts: seq<Action>)
      requires Ran(s, sofar) && globalInflight > 0
      requires phase in {Polling, Waiting} || (phase == Outside && state == Draining)
      modifies this, pending, contexts, seen
      ensures Ran(s, acts) && Grew(sofar, acts, {OfPoll})
      ensures polled in {QueueError, Nothing} ==> View() == old(View())
      ensures polled == Done ==> phase == old(phase) && globalInflight < old(globalInflight) && state == old(state)
      ensures polled == Bad ==> phase == Outside && state != Running
      ensures old(state) == Draining ==> state == Draining
    {
      RunTables(s, sofar, View());
      var rc, cid, error := PollQueue();
      if rc < 0 { return QueueError, sofar; }
      if rc == 0 { return Nothing, sofar; }
      var ok := HandleCompletion(cid, error, old(View()));
      CompletionRuns(s, sofar, old(View()), cid, error);
      return if ok then Done else Bad, sofar + [Poll(cid, error)];
    }

    /** One look at the completion queue. */
    method PollOnce(ghost s: Sys, ghost sofar: seq<Action>) returns (polled: Polled, ghost acts: seq<Action>)
      requires Ran(s, sofar) && globalInflight > 0
      requires phase in {Polling, Waiting} || (phase == Outside && state == Draining)
      modifies this, pending, contexts, seen
      ensures Ran(s, acts) && Grew(sofar, acts, {OfDevice, OfPoll})
      ensures polled != Bad ==> phase == old(phase)
      ensures polled in {QueueError, Nothing} ==> globalInflight == old(globalInflight)
      ensures polled == Done ==> globalInflight < old(globalInflight)
      ensures polled == Bad ==> phase == Outside && state != Running
      ensures old(state) == Draining ==> state == Draining
    {
      acts := Meanwhile(s, sofar);
      polled, acts := TakeCompletion(s, acts);
    }

    /** One look at the completion queue; a queue that fails ends the step. */
    method PollTurn(ghost s: Sys, ghost sofar: seq<Action>) returns (ok: bool, got: bool, ghost acts: seq<Action>)
      requires Ran(s, sofar) && globalInflight > 0 && phase in {Polling, Waiting}
      modifies this, pending, contexts, seen
      ensures Ran(s, acts) && Grew(sofar, acts, {OfDevice, OfPoll})
      ensures if ok then phase == old(phase) else phase == Outside && state != Running
      ensures ok ==> if got then globalInflight < old(globalInflight) else globalInflight == old(globalInflight)
    {
      var polled;
      polled, acts := PollOnce(s, sofar);
      if polled == QueueError { acts := GiveUpStep(s, acts, PollFailed, CompletionPollFailed); }
      ok, got := polled in {Nothing, Done}, polled == Done;
    }

    /** The completion queue part of an iteration: up to `cq_batch` completions. Progress is a command
        retired. */
    method PollPhase(ghost s: Sys, ghost sofar: seq<Action>) returns (ok: bool, progress: bool, ghost acts: seq<Action>)
      requires Ran(s, sofar) && phase == Polling
      modifies this, pending, contexts, seen
      ensures Ran(s, acts) && Grew(sofar, acts, {OfDevice, OfPoll, OfPhase})
      ensures if ok then phase == Reporting else phase == Outside && state != Running
      ensures ok ==> globalInflight <= old(globalInflight) && (progress <==> globalInflight < old(globalInflight))
    {
      acts, progress := sofar, false;
      var pops := 0;
      while pops < cfg.cqBatch && globalInflight > 0
        invariant Ran(s, acts) && phase == Polling && Grew(sofar, acts, {OfDevice, OfPoll, OfPhase})
        invariant globalInflight <= old(globalInflight) && (progress <==> globalInflight < old(globalInflight))
        decreases globalInflight
      {
        var got;
        ok, got, acts := PollTurn(s, acts);
        if !ok { return; }
        if !got { break; }
        progress, pops := true, pops + 1;
      }
      ok := true;
      acts := MoveOn(s, acts, PollsDone, Reporting);
    }

    method ReleaseAt(i: nat)
      requires Valid() && Shape(Eng()) && i < CAPACITY && activeCount > 0
      modifies this, active, contexts, reqs
      ensures Valid() && View() == old(View()).(e := Release(old(Eng()), i), g := Settle(old(shadow), old(reqs[i])))
    {
      shadow := Settle(shadow, reqs[i]);
      active[i] := false;
      contexts[i] := IDLE_CONTEXT;
      reqs[i] := NO_REQ;
      activeCount := activeCount - 1;
    }

    /** Reports a drained slot; the callback may refuse it. */
    method ReportOne(i: nat) returns (ok: bool, callbackOk: bool)
      requires Valid() && Shape(Eng()) && i < CAPACITY && activeCount > 0
      modifies this, active, contexts, reqs
      ensures Valid() && View() == ReportStep(old(View()), i, callbackOk)
      ensures ok <==> callbackOk && old(contexts[i]).failed == 0
    {
      callbackOk := *;
      if contexts[i].failed != 0 {
        Return(CompletionStatusError);
        return false, callbackOk;
      }
      if !callbackOk {
        Return(SlotCallbackFailed);
        return false, callbackOk;
      }
      ReleaseAt(i);
      ok := true;
    }

    method ReportDrained(ghost s: Sys, ghost sofar: seq<Action>, i: nat) returns (ok: bool, ghost acts: seq<Action>)
      requires Ran(s, sofar) && phase == Reporting && i < CAPACITY && active[i] && Drained(contexts[i])
      modifies this, active, contexts, reqs
      ensures Ran(s, acts) && Grew(sofar, acts, {OfReport})
      ensures ok ==> activeCount == old(activeCount) - 1
      ensures ok ==> phase == Reporting && active[..] == old(active[..])[i := false]
      ensures ok ==> contexts[..] == old(contexts[..])[i := IDLE_CONTEXT]
      ensures !ok ==> phase == Outside && state != Running
    {
      SomeActive(s, sofar, View(), i);
      var callbackOk;
      ok, callbackOk := ReportOne(i);
      ReportRuns(s, sofar, old(View()), i, callbackOk);
      acts := sofar + [Report(i, callbackOk)];
    }

    /** Every drained slot is reported once and its context freed; none is left. Progress is a slot reported. */
    method ReportPhase(ghost s: Sys, ghost sofar: seq<Action>) returns (ok: bool, progress: bool, ghost acts: seq<Action>)
      requires Ran(s, sofar) && phase == Reporting
      modifies this, active, contexts, reqs
      ensures Ran(s, acts) && Grew(sofar, acts, {OfReport, OfPhase})
      ensures if ok then phase == Refilling else phase == Outside && state != Running
      ensures ok ==> forall j :: 0 <= j < CAPACITY && active[j] ==> !Drained(contexts[j])
      ensures ok ==> activeCount <= old(activeCount) && (progress <==> activeCount < old(activeCount))
    {
      acts, progress := sofar, false;
      var i := 0;
      while i < CAPACITY
        invariant Ran(s, acts) && phase == Reporting && i <= CAPACITY && Grew(sofar, acts, {OfReport, OfPhase})
        invariant forall j :: 0 <= j < i && Eng().active[j] ==> !Drained(Eng().contexts[j])
        invariant activeCount <= old(activeCount) && (progress <==> activeCount < old(activeCount))
      {
        if active[i] && Drained(contexts[i]) {
          ok, acts := ReportDrained(s, acts, i);
          if !ok { return false, progress, acts; }
          progress := true;
        }
        i := i + 1;
      }
      ok := true;
      assert forall j :: 0 <= j < CAPACITY && active[j] ==> Eng().active[j] && Eng().contexts[j] == contexts[j];
      acts := MoveOn(s, acts, ReportsDone, Refilling);
    }

    // ---- Refilling ----

    /** The next command of context `i`. */
    method Cut(i: nat, cid: nat) returns (p: Pending)
      requires Valid() && Shape(Eng()) && i < CAPACITY && contexts[i].next <= contexts[i].totalSectors
      ensures p == CutCommand(cfg, contexts[i], cid)
    {
      var c := contexts[i];
      var remaining := c.totalSectors - c.next;
      var limit := if cfg.cmdSectors != 0 then cfg.cmdSectors else 512;
      var sectors := if remaining > limit then limit else remaining;
      var offset := c.next * SECTOR_BYTES;
      var left := if c.totalBytes > offset then c.totalBytes - offset else 0;
      var bytes := sectors * SECTOR_BYTES;
      p := Pending(true, cid, c.slot, offset, c.baseLba + c.next, c.baseDdr + offset, sectors, bytes,
                   if left > bytes then bytes else left);
    }

    /** A command the device may hold now belongs to it: context and totals follow. */
    method Account(i: nat, p: Pending)
      requires Valid() && Shape(Eng()) && i < CAPACITY && p.cid < CID_SPACE
      modifies this, contexts, seen
      ensures Valid()
      ensures View() == old(View()).(
        e := old(Eng()).(contexts := old(contexts[..])[i := Advance(old(contexts[i]), p.sectors)],
                         seen := old(seen[..])[p.cid := false],
                         globalInflight := old(globalInflight) + 1),
        g := old(shadow).(log := old(shadow).log + [Issued(p.cid)]))
    {
      seen[p.cid] := false;
      contexts[i] := Advance(contexts[i], p.sectors);
      globalInflight := globalInflight + 1;
      shadow := shadow.(log := shadow.log + [Issued(p.cid)]);
    }

    /** The device is handed command `p`, kept in entry `k`. */
    method Ring(k: nat, p: Pending, after: nat, next: nat) returns (answer: Answer)
      requires Valid() && Shape(Eng()) && k < CAPACITY
      modifies this, pending
      ensures Valid() && View() == Rung(old(View()), k, p, after, next, answer)
    {
      pending[k] := p;
      rr, nextCid := after, next;
      answer := RingDoorbell(p);
    }

    method Settled(i: nat, k: nat, p: Pending, answer: Answer)
      requires Valid() && Shape(Eng()) && i < CAPACITY && k < CAPACITY && p.cid < CID_SPACE
      modifies this, pending, contexts, seen
      ensures Valid() && View() == Answered(old(View()), i, k, p, answer)
    {
      match answer
      case SqFull =>
        pending[k] := p.(valid := false);
        phase := Stalled;
      case Accepted => Account(i, p);
      case Unknown(_) =>
        Account(i, p);
        Return(SubmitAcceptTimeout);
      case _ =>
        pending[k] := p.(valid := false);
        Return(if answer == Stopped then SubmitStopped else SubmitNotAccepted);
    }

    /** Cuts, rings and accounts for one command of context `i`. */
    method SubmitFrom(i: nat, k: nat, choice: CidChoice) returns (answer: Answer)
      requires Valid() && Shape(Eng()) && i < CAPACITY && contexts[i].next <= contexts[i].totalSectors
      requires k < CAPACITY && choice.found && choice.cid < CID_SPACE && choice.next < CID_SPACE
      modifies this, pending, contexts, seen
      ensures Valid() && View() == SubmitWith(old(View()), i, k, choice, answer)
    {
      var p := Cut(i, choice.cid);
      answer := Ring(k, p, (i + 1) % CAPACITY, choice.next);
      AnsweredIsSubmit(old(View()), i, k, choice, answer);
      Settled(i, k, p, answer);
    }

    /** Finds a free entry and a fresh identifier; with room in the queue depth both exist. */
    method Allocate() returns (k: nat, choice: CidChoice)
      requires Valid() && TablesOk(Eng()) && globalInflight < cfg.targetQd
      ensures k == FreePending(Eng().pending, 0) < CAPACITY && choice == NextCid(Eng()) && choice.found
    {
      SubmitHasRoom(Eng());
      k := FindFreePending(pending);
      var found, cid, next := AllocCid(pending, nextCid);
      choice := CidChoice(found, cid, next);
    }

    /** Posts the next command of the context the picker chose. */
    method PostNext(i: nat, ghost s: Sys, ghost sofar: seq<Action>) returns (answer: Answer, ghost acts: seq<Action>)
      requires Ran(s, sofar) && phase == Refilling && state == Running && globalInflight < cfg.targetQd
      requires i == Picked(Eng()) < CAPACITY
      modifies this, pending, contexts, seen
      ensures Ran(s, acts) && acts == sofar + [Submit(answer)]
      ensures match answer
              case Accepted => phase == Refilling && globalInflight == old(globalInflight) + 1
              case SqFull => phase == Stalled && globalInflight == old(globalInflight)
              case _ => phase == Outside && state != Running
    {
      RunKeeps(s, sofar, View());
      var k, choice := Allocate();
      answer := SubmitFrom(i, k, choice);
      OneStep(s, sofar, old(View()), Submit(answer));
      SubmitOutcome(old(View()), answer);
      acts := sofar + [Submit(answer)];
    }

    /** One turn of the refill loop. */
    method SubmitOne(ghost s: Sys, ghost sofar: seq<Action>) returns (turn: Turn, ghost acts: seq<Action>)
      requires Ran(s, sofar) && phase == Refilling && globalInflight < cfg.targetQd
      modifies this, pending, contexts, seen
      ensures Ran(s, acts) && Grew(sofar, acts, {OfSubmit, OfPhase})
      ensures turn == Again ==> phase == Refilling && globalInflight == old(globalInflight) + 1 <= cfg.targetQd
      ensures turn == Pause ==> globalInflight == old(globalInflight) && Refilled(View())
      ensures turn == Quit ==> phase == Outside && state != Running
    {
      if state != Running {
        acts := MoveOn(s, sofar, LeaveStep, Outside);
        return Quit, acts;
      }
      var i, after := FindNextSubmit(contexts, active, rr);
      if i == CAPACITY { return Pause, sofar; }
      var answer;
      answer, acts := PostNext(i, s, sofar);
      turn := if answer == Accepted then Again else if answer == SqFull then Pause else Quit;
    }

    /** Commands go out until the queue depth is reached, nothing is left to submit or the queue is full.
        Progress is a command posted. */
    method RefillPhase(ghost s: Sys, ghost sofar: seq<Action>) returns (ok: bool, progress: bool, ghost acts: seq<Action>)
      requires Ran(s, sofar) && phase == Refilling
      modifies this, pending, contexts, seen
      ensures Ran(s, acts) && Grew(sofar, acts, {OfDevice, OfSubmit, OfPhase})
      ensures if ok then Refilled(View()) else phase == Outside && state != Running
      ensures ok ==> globalInflight >= old(globalInflight) && (progress <==> globalInflight > old(globalInflight))
    {
      acts, ok, progress := sofar, true, false;
      while globalInflight < cfg.targetQd
        invariant Ran(s, acts) && phase == Refilling && ok && Grew(sofar, acts, {OfDevice, OfSubmit, OfPhase})
        invariant globalInflight >= old(globalInflight) && (progress <==> globalInflight > old(globalInflight))
        decreases cfg.targetQd - globalInflight
      {
        var turn;
        acts := Meanwhile(s, acts);
        turn, acts := SubmitOne(s, acts);
        match turn
        case Pause => return;
        case Quit => return false, progress, acts;
        case Again => progress := true;
      }
    }

    /** Without progress: poll for a while, then yield and poll once more; the no-progress timeout may strike.
        `spins` is what the busy-poll time allows. Progress is a command retired. */
    method WaitPhase(spins: nat, ghost s: Sys, ghost sofar: seq<Action>) returns (ok: bool, progress: bool, ghost acts: seq<Action>)
      requires Ran(s, sofar) && Refilled(View())
      modifies this, pending, contexts, seen
      ensures Ran(s, acts) && Grew(sofar, acts, {OfDevice, OfPoll, OfPhase})
      ensures if ok then phase == Waiting else phase == Outside && state != Running
      ensures ok ==> globalInflight <= old(globalInflight) && (progress <==> globalInflight < old(globalInflight))
    {
      acts := MoveOn(s, sofar, RefillDone, Waiting);
      progress := false;
      var left := spins + 1;
      while globalInflight > 0 && left > 0
        invariant Ran(s, acts) && phase == Waiting && Grew(sofar, acts, {OfDevice, OfPoll, OfPhase})
        invariant globalInflight == old(globalInflight) && !progress
        decreases left
      {
        ok, progress, acts := PollTurn(s, acts);
        if !ok || progress { return; }
        left := left - 1;
      }
      if * {
        acts := GiveUpStep(s, acts, TimeOut, NoProgressTimeout);
        return false, false, acts;
      }
      ok := true;
    }

    /** Where an iteration may begin or `step` return. */
    ghost predicate AtHead()
      reads this, pending, contexts, reqs, active, seen
      requires Shape(Eng())
    {
      phase in {Outside, Waiting} || Refilled(View())
    }

    /** Out of the loop with nothing else to do. */
    method LeaveNow(ghost s: Sys, ghost sofar: seq<Action>) returns (ghost acts: seq<Action>)
      requires Ran(s, sofar) && AtHead()
      modifies this
      ensures Ran(s, acts) && phase == Outside && state == old(state) && activeCount == old(activeCount)
      ensures Grew(sofar, acts, {OfPhase})
    {
      acts := sofar;
      if phase != Outside {
        OneStep(s, sofar, View(), LeaveStep);
        acts, phase := sofar + [LeaveStep], Outside;
      }
    }

    /** Into the next iteration, past the self-check. */
    method Enter(ghost s: Sys, ghost sofar: seq<Action>) returns (ok: bool, ghost acts: seq<Action>)
      requires Ran(s, sofar) && AtHead() && activeCount > 0 && state == Running
      modifies this
      ensures Ran(s, acts) && ok && phase == Polling && acts == sofar + [EnterIteration]
    {
      RunKeeps(s, sofar, View());
      ok := Recheck();
      acts := MoveOn(s, sofar, EnterIteration, Polling);
    }

    /** The head of the loop: observe an abort, then check the tables. */
    method Head(ghost s: Sys, ghost sofar: seq<Action>) returns (ok: bool, ghost acts: seq<Action>)
      requires Ran(s, sofar) && AtHead() && activeCount > 0
      modifies this
      ensures Ran(s, acts)
      ensures if ok then phase == Polling && Iterations(acts) == Iterations(sofar) + 1 else phase == Outside && state != Running
    {
      acts := Meanwhile(s, sofar);
      if state != Running {
        acts := LeaveNow(s, acts);
        return false, acts;
      }
      SameIterations(sofar, acts, {OfDevice});
      ghost var before := acts;
      ok, acts := Enter(s, acts);
      assert acts[..|acts| - 1] == before;
    }

    /** The parts of an iteration in which progress is made. */
    method Pass(ghost s: Sys, ghost sofar: seq<Action>) returns (ok: bool, progress: bool, ghost acts: seq<Action>)
      requires Ran(s, sofar) && phase == Polling
      modifies this, pending, contexts, reqs, active, seen
      ensures Ran(s, acts) && Iterations(acts) == Iterations(sofar)
      ensures if ok then Refilled(View()) else phase == Outside && state != Running
    {
      var retired, reported, posted := false, false, false;
      ok, retired, acts := PollPhase(s, sofar);
      SameIterations(sofar, acts, {OfDevice, OfPoll, OfPhase});
      if !ok { return false, false, acts; }
      ghost var mid := acts;
      ok, reported, acts := ReportPhase(s, acts);
      SameIterations(mid, acts, {OfReport, OfPhase});
      if !ok { return false, false, acts; }
      mid := acts;
      ok, posted, acts := RefillPhase(s, acts);
      SameIterations(mid, acts, {OfDevice, OfSubmit, OfPhase});
      progress := retired || reported || posted;
    }

    /** One iteration of the loop of `step`. */
    method Iterate(spins: nat, ghost s: Sys, ghost sofar: seq<Action>) returns (ok: bool, ghost acts: seq<Action>)
      requires Ran(s, sofar) && AtHead() && activeCount > 0
      modifies this, pending, contexts, reqs, active, seen
      ensures Ran(s, acts)
      ensures if ok then AtHead() && Iterations(acts) == Iterations(sofar) + 1 else phase == Outside && state != Running
    {
      var progress := false;
      ok, acts := Head(s, sofar);
      if !ok { return; }
      ok, progress, acts := Pass(s, acts);
      if !ok || progress { return; }
      ghost var mid := acts;
      ok, progress, acts := WaitPhase(spins, s, acts);
      SameIterations(mid, acts, {OfDevice, OfPoll, OfPhase});
    }

    /** `nvme_cross_slot_engine_step`; `turns` is the number of iterations its time budget allows. It refuses to
        run out of RUNNING; otherwise it makes as many iterations as allowed, fewer only when nothing is active
        any more or something failed. */
    method Step(turns: nat, spins: nat) returns (rc: int, ghost acts: seq<Action>)
      requires Valid() && Inv(View()) && phase == Outside
      modifies this, pending, contexts, reqs, active, seen
      ensures Ran(old(View()), acts) && phase == Outside
      ensures rc == 0 || (rc == -1 && state != Running)
      ensures old(state) != Running ==> rc == -1 && acts == []
      ensures rc == 0 ==> activeCount == 0 || Iterations(acts) == turns
    {
      acts := [];
      if state != Running { return -1, acts; }
      var made := 0;
      while activeCount > 0 && made < turns
        invariant Ran(old(View()), acts) && AtHead() && Iterations(acts) == made <= turns
        decreases turns - made
      {
        var ok;
        ok, acts := Iterate(spins, old(View()), acts);
        if !ok { return -1, acts; }
        made := made + 1;
      }
      ghost var before := acts;
      acts := LeaveNow(old(View()), acts);
      SameIterations(before, acts, {OfPhase});
      rc := 0;
    }

    // ---- Abort, drain, reset ----

    /** `nvme_cross_slot_engine_request_abort`. */
    method Abort()
      requires Valid()
      modifies this
      ensures Valid() && View() == old(View()).(e := AbortStep(old(Eng())))
    {
      if state == Quiesced || state == Failed { return; }
      FailWith(AbortAsked);
    }

    method ClearTables()
      requires Valid()
      modifies pending, contexts, reqs, active
      ensures Buffers() == Tables(seq(CAPACITY, _ => EMPTY_PENDING), seq(CAPACITY, _ => IDLE_CONTEXT),
                                  seq(CAPACITY, _ => NO_REQ), seq(CAPACITY, _ => false), old(seen[..]))
    {
      var i := 0;
      while i < CAPACITY
        invariant i <= CAPACITY && seen[..] == old(seen[..])
        invariant forall j :: 0 <= j < i ==>
          pending[j] == EMPTY_PENDING && !active[j] && contexts[j] == IDLE_CONTEXT && reqs[j] == NO_REQ
      {
        pending[i], active[i] := EMPTY_PENDING, false;
        contexts[i], reqs[i] := IDLE_CONTEXT, NO_REQ;
        i := i + 1;
      }
    }

    /** `cross_slot_discard_contexts`, when the device owns nothing any more. */
    method DiscardAll()
      requires Valid() && Shape(Eng())
      modifies this, pending, contexts, reqs, active
      ensures Valid() && View() == old(View()).(e := Discard(old(Eng())).(state := Quiesced),
                                                w := old(world).(outstanding := map[]))
    {
      ClearTables();
      globalInflight, activeCount, state := 0, 0, Quiesced;
      world := world.(outstanding := map[]);
    }

    /** Completions are retired until none is in flight, the queue fails or the deadline (`polls`) is reached. */
    method DrainInflight(polls: nat, ghost s: Sys, ghost sofar: seq<Action>) returns (ghost acts: seq<Action>)
      requires Ran(s, sofar) && phase == Outside && state == Draining
      modifies this, pending, contexts, seen
      ensures Ran(s, acts) && phase == Outside && state == Draining
    {
      acts := sofar;
      var left := polls;
      while globalInflight > 0 && left > 0
        invariant Ran(s, acts) && phase == Outside && state == Draining
        decreases left
      {
        var polled;
        polled, acts := PollOnce(s, acts);
        if polled == QueueError { return; }
        left := left - 1;
      }
    }

    /** With nothing in flight the engine is over; otherwise only a confirmed queue reset ends it. */
    method EndDrain(ghost s: Sys, ghost sofar: seq<Action>) returns (rc: int, ghost acts: seq<Action>)
      requires Ran(s, sofar) && phase == Outside && state == Draining
      modifies this, pending, contexts, reqs, active
      ensures Ran(s, acts) && phase == Outside
      ensures if rc == 0 then state == Quiesced else rc == -1 && state == Failed
      ensures rc == -1 ==> Buffers() == old(Buffers()) && world == old(world)
    {
      if globalInflight == 0 {
        RunKeeps(s, sofar, View());
        IdleOwnsNothing(Eng(), world.outstanding);
        OneStep(s, sofar, View(), FinishDrain);
        DiscardAll();
        return 0, sofar + [FinishDrain];
      }
      OneStep(s, sofar, View(), BeginReset);
      state, acts := Resetting, sofar + [BeginReset];
      rc, acts := ResetQueue(s, acts);
    }

    /** `ops.reset`, which may fail or be missing. */
    method ResetQueue(ghost s: Sys, ghost sofar: seq<Action>) returns (rc: int, ghost acts: seq<Action>)
      requires Ran(s, sofar) && phase == Outside && state == Resetting
      modifies this, pending, contexts, reqs, active
      ensures Ran(s, acts) && phase == Outside
      ensures if rc == 0 then state == Quiesced else rc == -1 && state == Failed
      ensures rc == -1 ==> Buffers() == old(Buffers()) && world == old(world)
    {
      var confirmed: bool := *;
      OneStep(s, sofar, View(), FinishReset(confirmed));
      acts := sofar + [FinishReset(confirmed)];
      if confirmed {
        DiscardAll();
        rc := 0;
      } else {
        state, rc := Failed, -1;
      }
    }

    /** `nvme_cross_slot_engine_drain_abort`: 0 only when the device owns nothing any more. */
    method DrainAbort(polls: nat) returns (rc: int, ghost acts: seq<Action>)
      requires Valid() && Inv(View()) && phase == Outside
      modifies this, pending, contexts, reqs, active, seen
      ensures Ran(old(View()), acts) && phase == Outside
      ensures rc == 0 ==> state == Quiesced && world.outstanding == map[] && IsQuiesced(Eng())
      ensures rc != 0 ==> rc == -1 && state == Failed && !IsQuiesced(Eng())
    {
      acts := BeginDraining();
      if state == Draining {
        acts := DrainInflight(polls, old(View()), acts);
        rc, acts := EndDrain(old(View()), acts);
      } else {
        rc := if state == Quiesced then 0 else -1;
      }
      RunKeeps(old(View()), acts, View());
    }

    method BeginDraining() returns (ghost acts: seq<Action>)
      requires Valid() && Inv(View()) && phase == Outside
      modifies this
      ensures Ran(old(View()), acts) && phase == Outside
      ensures state == if old(state) in {Quiesced, Failed} then old(state) else Draining
    {
      acts := [];
      if state != Quiesced && state != Failed {
        OneStep(View(), [], View(), BeginDrain);
        acts := [] + [BeginDrain];
        Abort();
        state := Draining;
      } else {
        Abort();
      }
    }

    /** `nvme_cross_slot_engine_is_quiesced`, which guards the destruction of the engine: true only when
        the device owns nothing. */
    method QuiescedNow() returns (quiet: bool)
      requires Valid() && Inv(View())
      ensures quiet <==> IsQuiesced(Eng())
      ensures quiet ==> world.outstanding == map[]
    {
      if globalInflight != 0 || activeCount != 0 { return false; }
      IdleOwnsNothing(Eng(), world.outstanding);
      var i := 0;
      while i < CAPACITY
        invariant i <= CAPACITY
        invariant forall j :: 0 <= j < i ==> Blank(Eng(), j)
      {
        var c := contexts[i];
        if pending[i].valid || active[i] || c.slot != NO_SLOT || c.next != 0 || c.totalSectors != 0 ||
           c.submitted != 0 || c.completed != 0 || c.inflight != 0 || c.failed != 0 {
          assert !Blank(Eng(), i);
          return false;
        }
        i := i + 1;
      }
      quiet := true;
    }
  }
}

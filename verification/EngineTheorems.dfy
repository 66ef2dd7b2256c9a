/** What the invariant of the cross-slot engine means for its callers, for every run. */
module EngineTheorems {
  import opened Media
  import opened NvmeTables
  import opened EngineModel
  import opened EngineInvariant
  import opened EngineSafety

  ghost predicate SomeRunReaches(t: Sys) {
    exists s, acts :: Init(s) && Reaches(s, acts, t)
  }

  /** Reachable from a fresh engine. (`Shape` holds of every such state; it is here so that the
      statements below are well formed.) */
  ghost predicate Reachable(t: Sys) {
    Shape(t.e) && SomeRunReaches(t)
  }

  lemma ReachableShape(t: Sys)
    requires SomeRunReaches(t)
    ensures Reachable(t) && Inv(t)
  {
    var s, acts :| Init(s) && Reaches(s, acts, t);
    InitInv(s);
    RunKeeps(s, acts, t);
  }

  lemma ReachableInv(t: Sys)
    requires Reachable(t)
    ensures Inv(t)
  {
    ReachableShape(t);
  }

  /** The runtime self-check cannot fail in any reachable state. */
  lemma SelfCheckNeverFails(t: Sys)
    requires Reachable(t)
    ensures SelfCheck(t.e)
  {
    ReachableInv(t);
    SelfCheckHolds(t.e);
  }

  // ---- The SSD refines the plain copy ----

  /** When a slot is reported done, the SSD holds what a plain copy of its DDR range leaves there. */
  lemma ReportDelivers(t: Sys, i: nat, disk: Disk, l: nat)
    requires Reachable(t) && Enabled(t, Report(i, true)) && t.e.contexts[i].failed == 0
    requires InSlot(t.e.reqs[i], l)
    ensures var r := t.e.reqs[i];
            t.w.ssd(l) == CopySectors(disk, r.startLba, r.sectors, t.w.ddr, r.hwAddr)(l) == t.g.ref(l)
  {
    ReachableInv(t);
    ReportedSlotStored(t, i, l);
    CopyIsSlot(disk, t.w.ddr, t.e.reqs[i], l);
  }

  /** The slot of context `i`, one of its commands failed, is still the engine's. */
  predicate FailedSlot(e: Engine, i: nat, r: Req)
    requires Shape(e)
  {
    i < CAPACITY && e.active[i] && e.reqs[i] == r && e.contexts[i].failed != 0
  }

  lemma SubmitKeepsFailed(s: Sys, answer: Answer, i: nat, r: Req)
    requires Inv(s) && Enabled(s, Submit(answer)) && FailedSlot(s.e, i, r)
    ensures var t := Apply(s, Submit(answer)); Shape(t.e) && FailedSlot(t.e, i, r)
  {
    var j, k, p, nextCid, rr := SubmitCases(s, answer);
  }

  lemma RetireKeepsFailed(s: Sys, k: nat, j: nat, error: bool, i: nat, r: Req)
    requires Shape(s.e) && k < CAPACITY && s.e.pending[k].valid && j < CAPACITY
    requires s.e.contexts[j].inflight > 0 && s.e.globalInflight > 0 && FailedSlot(s.e, i, r)
    ensures Shape(RetiredSys(s, k, j, error).e) && FailedSlot(RetiredSys(s, k, j, error).e, i, r)
  {
  }

  lemma PollKeepsFailed(s: Sys, cid: nat, error: bool, i: nat, r: Req)
    requires Inv(s) && cid < CID_SPACE && FailedSlot(s.e, i, r)
    ensures var t := CompletionStep(s, cid, error); Shape(t.e) && FailedSlot(t.e, i, r)
  {
    if CidLive(s.e.pending, cid) {
      var k, j := CompletionRetires(s, cid, error);
      RetireKeepsFailed(s, k, j, error, i, r);
    }
  }

  lemma FailedStays(s: Sys, a: Action, i: nat, r: Req)
    requires Inv(s) && Enabled(s, a) && FailedSlot(s.e, i, r)
    ensures var t := Apply(s, a); t.e.state == Quiesced || (Shape(t.e) && FailedSlot(t.e, i, r))
  {
    match a
    case Submit(answer) => SubmitKeepsFailed(s, answer, i, r);
    case Poll(cid, error) => PollKeepsFailed(s, cid, error, i, r);
    case _ =>
  }

  /** A slot with a failed command is never reported done: in every run it stays the engine's, with its
      failure, until a drain or reset discards everything. */
  lemma {:induction false} FailedSlotNotReported(s: Sys, acts: seq<Action>, t: Sys, i: nat, r: Req)
    requires Inv(s) && Reaches(s, acts, t) && FailedSlot(s.e, i, r)
    ensures Shape(t.e) && (t.e.state == Quiesced || FailedSlot(t.e, i, r))
    decreases acts
  {
    if acts != [] {
      StepKeeps(s, acts[0]);
      FailedStays(s, acts[0], i, r);
      if Apply(s, acts[0]).e.state == Quiesced {
        QuiescedForGood(Apply(s, acts[0]), acts[1..], t);
        RunKeeps(Apply(s, acts[0]), acts[1..], t);
      } else {
        FailedSlotNotReported(Apply(s, acts[0]), acts[1..], t, i, r);
      }
    }
  }

  /** Refinement: every sector is as the reference disk has it or as the disk of the reported slots has it;
      until a drain or reset discards slots, away from the active slots the SSD is the reference disk, and once
      nothing is active it is the reference disk everywhere. */
  lemma RefinesPlainCopy(t: Sys, l: nat)
    requires Reachable(t)
    ensures t.w.ssd(l) == t.g.ref(l) || t.w.ssd(l) == t.g.base(l)
    ensures t.e.state != Quiesced && !InActiveSlot(t.e.active, t.e.reqs, l) ==> t.w.ssd(l) == t.g.ref(l)
    ensures t.e.state != Quiesced && t.e.activeCount == 0 ==> t.w.ssd(l) == t.g.ref(l)
  {
    ReachableInv(t);
    NoneActive(t.e.active, CAPACITY);
  }

  /** The reference disk changes by whole plain copies only: one for each slot taken, made at that moment. */
  lemma ReferenceIsSequential(s: Sys, a: Action)
    requires Shape(s.e) && Enabled(s, a)
    ensures Apply(s, a).g.ref == s.g.ref ||
            (a.Add? && JudgeAdd(s.e, a.r).Placed? &&
             Apply(s, a).g.ref == CopySectors(s.g.ref, a.r.startLba, a.r.sectors, s.w.ddr, a.r.hwAddr))
  {
  }

  /** The disk of the reported slots changes by reports only: a slot reported done takes over its range from
      the reference disk. So a drain or reset leaves each sector as one of the two has it. */
  lemma BaseIsReported(s: Sys, a: Action, l: nat)
    requires Shape(s.e) && Enabled(s, a)
    ensures var reported := a.Report? && a.callbackOk && s.e.contexts[a.i].failed == 0;
            Apply(s, a).g.base(l) == if reported && InSlot(s.e.reqs[a.i], l) then s.g.ref(l) else s.g.base(l)
  {
  }

  ghost predicate Named(acts: seq<Action>, l: nat) {
    exists n :: 0 <= n < |acts| && acts[n].Add? && InSlot(acts[n].r, l)
  }

  ghost predicate Untouched(s: Sys, ssd: Disk, l: nat)
  {
    |s.e.active| == |s.e.reqs| && s.w.ssd(l) == ssd(l) && !InActiveSlot(s.e.active, s.e.reqs, l)
  }

  lemma TransferOutside(s: Sys, cid: nat, m: nat, l: nat)
    requires TablesOk(s.e) && DeviceOk(s.e.pending, s.w.outstanding) && Enabled(s, Transfer(cid, m))
    requires Untouched(s, s.w.ssd, l)
    ensures Untouched(Apply(s, Transfer(cid, m)), s.w.ssd, l)
  {
    assert InTable(s.e.pending, cid, s.w.outstanding[cid]);
    var k, i := CommandInSlot(s.e, cid, s.w.outstanding[cid], m);
  }

  lemma StepOutside(s: Sys, a: Action, l: nat)
    requires Inv(s) && Enabled(s, a) && Untouched(s, s.w.ssd, l)
    requires a.Add? ==> !InSlot(a.r, l)
    ensures Untouched(Apply(s, a), s.w.ssd, l)
  {
    match a
    case Transfer(cid, m) => TransferOutside(s, cid, m, l);
    case Add(r) => AddOutside(s, r, l);
    case Submit(answer) => SubmitKeepsSlots(s, answer);
    case Poll(cid, error) => PollKeepsSlots(s, cid, error);
    case _ => RestOutside(s, a, l);
  }

  lemma AddOutside(s: Sys, r: Req, l: nat)
    requires Shape(s.e) && Untouched(s, s.w.ssd, l) && !InSlot(r, l)
    ensures Untouched(AddStep(s, r), s.w.ssd, l)
  {
    if JudgeAdd(s.e, r).Placed? { PlaceActive(s.e, JudgeAdd(s.e, r).index, r, l); }
  }

  lemma RestOutside(s: Sys, a: Action, l: nat)
    requires Shape(s.e) && Enabled(s, a) && Untouched(s, s.w.ssd, l)
    requires !a.Transfer? && !a.Add? && !a.Submit? && !a.Poll?
    ensures Untouched(Apply(s, a), s.w.ssd, l)
  {
  }

  lemma PollKeepsSlots(s: Sys, cid: nat, error: bool)
    requires Shape(s.e) && cid < CID_SPACE
    ensures var t := CompletionStep(s, cid, error); t.e.active == s.e.active && t.e.reqs == s.e.reqs && t.w.ssd == s.w.ssd
  {
  }

  lemma SubmitKeepsSlots(s: Sys, answer: Answer)
    requires Shape(s.e) && Picked(s.e) < CAPACITY
    ensures var t := SubmitStep(s, answer); t.e.active == s.e.active && t.e.reqs == s.e.reqs && t.w.ssd == s.w.ssd
  {
  }

  /** An LBA of no active and no added slot keeps its sector through any run, errors and aborts included. */
  lemma {:induction false} OutsideUntouched(s: Sys, acts: seq<Action>, t: Sys, l: nat)
    requires Inv(s) && Reaches(s, acts, t) && Untouched(s, s.w.ssd, l) && !Named(acts, l)
    ensures t.w.ssd(l) == s.w.ssd(l)
    decreases acts
  {
    if acts != [] {
      assert acts[0] == acts[0];
      StepOutside(s, acts[0], l);
      StepKeeps(s, acts[0]);
      assert forall n :: 0 <= n < |acts| - 1 ==> acts[1..][n] == acts[n + 1];
      OutsideUntouched(Apply(s, acts[0]), acts[1..], t, l);
    }
  }

  // ---- Bounded bypass ----

  function CountSubmits(acts: seq<Action>): nat {
    if acts == [] then 0 else (if acts[0].Submit? then 1 else 0) + CountSubmits(acts[1..])
  }

  /** Context `i` has something to submit before every step of the run, and no step submits for it. */
  ghost predicate PassedOver(s: Sys, acts: seq<Action>, i: nat)
    requires i < CAPACITY
    decreases acts
  {
    acts != [] ==>
      && Shape(s.e) && Enabled(s, acts[0]) && Submittable(s.e.contexts, s.e.active, i)
      && (acts[0].Submit? ==> Picked(s.e) != i)
      && PassedOver(Apply(s, acts[0]), acts[1..], i)
  }

  lemma SubmitMovesIndex(s: Sys, answer: Answer)
    requires Shape(s.e) && Picked(s.e) < CAPACITY
    ensures SubmitStep(s, answer).e.rr == (Picked(s.e) + 1) % CAPACITY
  {
  }

  lemma PassedSubmit(s: Sys, answer: Answer, i: nat)
    requires Shape(s.e) && Picked(s.e) < CAPACITY && i < CAPACITY && Submittable(s.e.contexts, s.e.active, i) && Picked(s.e) != i
    ensures SubmitStep(s, answer).e.rr < CAPACITY
    ensures CircularDistance(SubmitStep(s, answer).e.rr, i) < CircularDistance(s.e.rr, i)
  {
    SubmitMovesIndex(s, answer);
    PickApproaches(s.e.contexts, s.e.active, s.e.rr, i);
  }

  lemma OthersKeepIndex(s: Sys, a: Action)
    requires Shape(s.e) && Enabled(s, a) && !a.Submit?
    ensures Apply(s, a).e.rr == s.e.rr
  {
  }

  lemma PassedStep(s: Sys, a: Action, i: nat)
    requires Shape(s.e) && Enabled(s, a) && i < CAPACITY && Submittable(s.e.contexts, s.e.active, i)
    requires a.Submit? ==> Picked(s.e) != i
    ensures var t := Apply(s, a);
            && t.e.rr < CAPACITY
            && CircularDistance(t.e.rr, i) + (if a.Submit? then 1 else 0) <= CircularDistance(s.e.rr, i)
  {
    match a
    case Submit(answer) => PassedSubmit(s, answer, i);
    case _ => OthersKeepIndex(s, a);
  }

  /** In every run of the engine a context that stays submittable is picked by one of any CAPACITY successive
      doorbells, whatever is added, completed and reported in between. */
  lemma {:induction false} BoundedBypass(s: Sys, acts: seq<Action>, i: nat)
    requires Inv(s) && i < CAPACITY && PassedOver(s, acts, i)
    ensures CountSubmits(acts) <= CircularDistance(s.e.rr, i) < CAPACITY
    decreases acts
  {
    if acts != [] {
      StepKeeps(s, acts[0]);
      PassedStep(s, acts[0], i);
      BoundedBypass(Apply(s, acts[0]), acts[1..], i);
    }
  }

  // ---- Hardware ownership ----

  /** The device owns only what the pending table lists, with the same LBA and DDR ranges. */
  lemma OwnedIsPending(t: Sys, cid: nat)
    requires Reachable(t) && cid in t.w.outstanding
    ensures InTable(t.e.pending, cid, t.w.outstanding[cid])
  {
    ReachableInv(t);
  }

  /** Destroying a quiesced engine, or leaving a drain with success, frees nothing the device uses. */
  lemma QuiescedOwnsNothing(t: Sys)
    requires Reachable(t) && (IsQuiesced(t.e) || t.e.state == Quiesced)
    ensures t.w.outstanding == map[]
  {
    ReachableInv(t);
    IdleOwnsNothing(t.e, t.w.outstanding);
  }

  /** A failed reset keeps every entry and leaves the engine undestroyable. */
  lemma FailedKeepsEntries(t: Sys)
    requires Reachable(t) && Enabled(t, FinishReset(false))
    ensures var u := Apply(t, FinishReset(false));
            u.e.state == Failed && u.e.pending == t.e.pending && u.w == t.w && !IsQuiesced(u.e)
  {
    ReachableInv(t);
  }

  /** A posted identifier whose completion has not arrived. */
  ghost predicate OpenListed(e: Engine, log: seq<CidEvent>) {
    forall cid :: LifeOf(log, cid) == InUse ==> CidLive(e.pending, cid)
  }

  lemma LiveAfterUpdate(pending: seq<Pending>, k: nat, p: Pending, cid: nat)
    requires k < |pending| && CidLive(pending, cid)
    ensures (pending[k].valid && pending[k].cid == cid) || CidLive(pending[k := p], cid)
  {
    var m :| 0 <= m < |pending| && pending[m].valid && pending[m].cid == cid;
    if m != k { assert pending[k := p][m] == pending[m]; }
  }

  lemma SubmitKeepsListed(s: Sys, answer: Answer)
    requires Inv(s) && Enabled(s, Submit(answer)) && OpenListed(s.e, s.g.log)
    ensures var t := Apply(s, Submit(answer)); OpenListed(t.e, t.g.log)
  {
    var t := Apply(s, Submit(answer));
    var i, k, p, nextCid, rr := SubmitCases(s, answer);
    forall cid | LifeOf(t.g.log, cid) == InUse
      ensures CidLive(t.e.pending, cid)
    {
      LifeAfter(s.g.log, Issued(p.cid), cid);
      if LifeOf(s.g.log, cid) == InUse {
        LiveAfterUpdate(s.e.pending, k, t.e.pending[k], cid);
      } else {
        assert t.e.pending[k] == p;
      }
    }
  }

  lemma PollKeepsListed(s: Sys, cid: nat, error: bool)
    requires Inv(s) && Enabled(s, Poll(cid, error)) && OpenListed(s.e, s.g.log)
    ensures var t := Apply(s, Poll(cid, error)); OpenListed(t.e, t.g.log)
  {
    if CidLive(s.e.pending, cid) {
      var t := Apply(s, Poll(cid, error));
      var k, j := CompletionRetires(s, cid, error);
      forall c | LifeOf(t.g.log, c) == InUse
        ensures CidLive(t.e.pending, c)
      {
        LifeAfter(s.g.log, Completed(cid), c);
        LiveAfterUpdate(s.e.pending, k, t.e.pending[k], c);
      }
    }
  }

  lemma StepKeepsListed(s: Sys, a: Action)
    requires Inv(s) && Enabled(s, a) && OpenListed(s.e, s.g.log)
    ensures var t := Apply(s, a); t.e.state == Quiesced || OpenListed(t.e, t.g.log)
  {
    match a
    case Submit(answer) => SubmitKeepsListed(s, answer);
    case Poll(cid, error) => PollKeepsListed(s, cid, error);
    case _ =>
  }

  /** Abort never drops hardware ownership: until a drain or a confirmed reset ends the engine, every
      identifier posted and not completed, acceptance-unknown ones included, is in the pending table. */
  lemma {:induction false} OpenNeverDropped(s: Sys, acts: seq<Action>, t: Sys)
    requires Inv(s) && OpenListed(s.e, s.g.log) && Reaches(s, acts, t) && s.e.state != Quiesced
    ensures t.e.state == Quiesced || OpenListed(t.e, t.g.log)
    decreases acts
  {
    if acts != [] {
      var u := Apply(s, acts[0]);
      StepKeeps(s, acts[0]);
      StepKeepsListed(s, acts[0]);
      if u.e.state == Quiesced {
        QuiescedForGood(u, acts[1..], t);
      } else {
        OpenNeverDropped(u, acts[1..], t);
      }
    }
  }

  lemma {:induction false} QuiescedForGood(s: Sys, acts: seq<Action>, t: Sys)
    requires Inv(s) && Reaches(s, acts, t) && s.e.state == Quiesced
    ensures t.e.state == Quiesced
    decreases acts
  {
    if acts != [] {
      StepKeeps(s, acts[0]);
      QuiescedForGood(Apply(s, acts[0]), acts[1..], t);
    }
  }

  // ---- Duplicate or unknown ----

  /** A completion naming no live command is called a duplicate exactly when the identifier was issued
      and its latest issue has completed; the first such verdict is the one that is kept. */
  lemma StrayVerdictExact(t: Sys, cid: nat, error: bool)
    requires Reachable(t) && Enabled(t, Poll(cid, error)) && !CidLive(t.e.pending, cid)
    requires t.e.lastError == NoReason
    ensures var u := Apply(t, Poll(cid, error));
            && u.e.lastError in {DuplicateCompletionCid, UnknownCompletionCid}
            && (u.e.lastError == DuplicateCompletionCid <==> LifeOf(t.g.log, cid) == Finished)
            && u.e.pending == t.e.pending && u.e.state != Running
  {
    ReachableInv(t);
  }

  // ---- After an abort ----

  /** Past the loop head an aborted engine neither submits nor reports. */
  predicate Silent(s: Sys) {
    s.e.state != Running && s.phase !in {Polling, Reporting}
  }

  lemma StepSilent(s: Sys, a: Action)
    requires Shape(s.e) && Silent(s) && Enabled(s, a) && StateOk(s)
    ensures !a.Submit? && !a.Report? && Silent(Apply(s, a))
  {
  }

  /** Once the engine left RUNNING and the iteration that was under way has reached its refill, nothing
      is submitted and no slot is reported done, ever. */
  lemma {:induction false} NothingAfterAbort(s: Sys, acts: seq<Action>, t: Sys, n: nat)
    requires Inv(s) && Silent(s) && Reaches(s, acts, t) && n < |acts|
    ensures !acts[n].Submit? && !acts[n].Report?
    decreases acts
  {
    StepSilent(s, acts[0]);
    StepKeeps(s, acts[0]);
    if n != 0 {
      NothingAfterAbort(Apply(s, acts[0]), acts[1..], t, n - 1);
    }
  }

  /** Nothing is ever submitted once the engine left RUNNING, whatever the phase. */
  lemma {:induction false} NoSubmitAfterRunning(s: Sys, acts: seq<Action>, t: Sys, n: nat)
    requires Inv(s) && s.e.state != Running && Reaches(s, acts, t) && n < |acts|
    ensures !acts[n].Submit?
    decreases acts
  {
    StepKeeps(s, acts[0]);
    if n != 0 {
      NeverRunsAgain(s, acts[0]);
      NoSubmitAfterRunning(Apply(s, acts[0]), acts[1..], t, n - 1);
    }
  }

  lemma NeverRunsAgain(s: Sys, a: Action)
    requires Shape(s.e) && Enabled(s, a) && s.e.state != Running
    ensures Apply(s, a).e.state != Running
  {
  }

  /** An abort that arrives while completions are polled does not stop the reports of that iteration:
      a drained slot is still reported done, and what it reports is on the disk all the same. */
  lemma LateReport(s: Sys, i: nat, l: nat)
    requires Reachable(s) && s.phase == Polling && s.e.state == Running
    requires i < CAPACITY && s.e.active[i] && Drained(s.e.contexts[i]) && s.e.contexts[i].failed == 0
    requires InSlot(s.e.reqs[i], l)
    ensures Enabled(s, RequestAbort)
    ensures var a := Apply(s, RequestAbort);
            && a.e.state == AbortRequested && Enabled(a, PollsDone)
            && var p := Apply(a, PollsDone);
               && Enabled(p, Report(i, true))
               && !Apply(p, Report(i, true)).e.active[i]
               && p.w.ssd(l) == SlotSector(p.w.ddr, s.e.reqs[i], l)
  {
    ReachableInv(s);
    ReportedSlotStored(s, i, l);
    NoneActive(s.e.active, CAPACITY);
  }

  /** One more step keeps a state reachable. */
  lemma OneMore(t: Sys, a: Action)
    requires Reachable(t) && Enabled(t, a)
    ensures Reachable(Apply(t, a))
  {
    var s, acts :| Init(s) && Reaches(s, acts, t);
    var u := Apply(t, a);
    assert Reaches(u, [], u) && [a][1..] == [];
    ReachesAppend(s, acts, t, [a], u);
    ReachableShape(u);
  }

  lemma AddedRun(w: World) returns (t: Sys)
    requires w.outstanding == map[]
    ensures Reachable(t) && t.w == w && t.phase == Outside
    ensures t.e == Place(Created(Config(1, 1, 1, 1, 0, 0), 1), 0, Req(0, 0, 1, 0, 1, 0, 0, 0))
  {
    var cfg := Config(1, 1, 1, 1, 0, 0);
    var s := Sys(Created(cfg, 1), w, Shadow(w.ssd, w.ssd, []), Outside);
    assert Reachable(s) by {
      assert ConfigOk(cfg) && s.e == Created(cfg, 1);
      assert Init(s) && Reaches(s, [], s);
    }
    var r := Req(0, 0, 1, 0, 1, 0, 0, 0);
    assert FirstInactive(s.e.active, 0) == 0;
    OneMore(s, Add(r));
    t := Apply(s, Add(r));
  }

  /** A run about to submit for a one-sector slot. */
  lemma FilledRun(w: World) returns (t: Sys)
    requires w.outstanding == map[]
    ensures Reachable(t) && t.w == w && t.phase == Refilling
    ensures t.e == Place(Created(Config(1, 1, 1, 1, 0, 0), 1), 0, Req(0, 0, 1, 0, 1, 0, 0, 0))
  {
    var s1 := AddedRun(w);
    OneMore(s1, EnterIteration);
    var s2 := Apply(s1, EnterIteration);
    OneMore(s2, PollsDone);
    var s3 := Apply(s2, PollsDone);
    assert forall i :: 0 <= i < CAPACITY && s3.e.active[i] ==> i == 0;
    OneMore(s3, ReportsDone);
    t := Apply(s3, ReportsDone);
  }

  /** The context of a one-sector slot, its only command posted and `completed` times completed. */
  function OneCommand(r: Req, completed: nat): Context
    requires completed <= 1
  {
    Context(r.slot, r.startLba, r.hwAddr, r.bytes, 1, 1, 1, completed, 0, 1 - completed)
  }

  /** A one-sector slot alone in the engine, its only command posted and `completed` times completed. */
  predicate Alone(e: Engine, r: Req, completed: nat)
    requires Shape(e) && completed <= 1
  {
    && e.state == Running && e.activeCount == 1 && e.globalInflight == 1 - completed
    && e.active[0] && e.reqs[0] == r && e.contexts[0] == OneCommand(r, completed)
    && forall i :: 0 < i < CAPACITY ==> !e.active[i]
  }

  /** A fresh engine that took a one-sector slot posts its command under identifier 1. */
  lemma FirstSubmit(s: Sys, cfg: Config, r: Req)
    requires ConfigOk(cfg) && s.e == Place(Created(cfg, 1), 0, r) && r.sectors == 1 && r.slot != NO_SLOT
    requires s.phase == Refilling && s.w.outstanding == map[]
    ensures Enabled(s, Submit(Accepted))
    ensures var t := Apply(s, Submit(Accepted));
            && Shape(t.e) && Alone(t.e, r, 0) && Refilled(t) && t.e.cfg == cfg
            && t.w == s.w.(outstanding := map[1 := Cmd(r.startLba, 1, r.hwAddr, {})])
  {
    assert PickContext(s.e.contexts, s.e.active, 0, 0) == 0;
    var t := Apply(s, Submit(Accepted));
    assert FreePending(s.e.pending, 0) == 0;
    assert !CidLive(s.e.pending, 1);
    assert ChooseCid(s.e.pending, 1, U16_MAX) == CidChoice(true, 1, 2);
  }

  /** The state of a run that has posted that slot's only command. */
  lemma PostedRun(w: World) returns (t: Sys)
    requires w.outstanding == map[]
    ensures Reachable(t) && Refilled(t) && Alone(t.e, Req(0, 0, 1, 0, 1, 0, 0, 0), 0)
    ensures t.w.outstanding == map[1 := Cmd(0, 1, 0, {})]
  {
    var s := FilledRun(w);
    FirstSubmit(s, Config(1, 1, 1, 1, 0, 0), Req(0, 0, 1, 0, 1, 0, 0, 0));
    OneMore(s, Submit(Accepted));
    t := Apply(s, Submit(Accepted));
  }

  /** Once its sector moved, the command completes. */
  lemma OnlyCompletes(t: Sys, r: Req, cmd: Cmd)
    requires Inv(t) && t.phase == Polling && Alone(t.e, r, 0)
    requires t.w.outstanding == map[1 := cmd] && cmd.sectors == 1 && cmd.moved == {0}
    ensures Enabled(t, Poll(1, false))
    ensures var u := Apply(t, Poll(1, false));
            && Shape(u.e) && Alone(u.e, r, 1) && u.phase == Polling && u.e.cfg == t.e.cfg && u.w == t.w.(outstanding := map[])
  {
    NotLiveNotOwned(t.e.pending, t.w.outstanding, 1);
    var k, j := CompletionRetires(t, 1, false);
    assert j == 0;
    assert t.w.outstanding - {1} == map[];
  }

  /** The device moves that sector. */
  lemma OnlyTransfers(t: Sys, cmd: Cmd)
    requires Shape(t.e) && t.w.outstanding == map[1 := cmd] && cmd.sectors == 1 && cmd.moved == {}
    ensures Enabled(t, Transfer(1, 0))
    ensures var u := Apply(t, Transfer(1, 0));
            && u.e == t.e && u.phase == t.phase && u.w.ddr == t.w.ddr
            && u.w.outstanding == map[1 := cmd.(moved := {0})]
  {
    var none: set<nat> := {};
    assert none + {0} == {0};
  }

  lemma MovedRun(w: World) returns (t: Sys)
    requires w.outstanding == map[]
    ensures Reachable(t) && t.phase == Polling && Alone(t.e, Req(0, 0, 1, 0, 1, 0, 0, 0), 0)
    ensures t.w.outstanding == map[1 := Cmd(0, 1, 0, {0})]
  {
    var s := PostedRun(w);
    OneMore(s, EnterIteration);
    var s1 := Apply(s, EnterIteration);
    OnlyTransfers(s1, Cmd(0, 1, 0, {}));
    OneMore(s1, Transfer(1, 0));
    t := Apply(s1, Transfer(1, 0));
  }

  lemma CompletedRun(w: World) returns (t: Sys)
    requires w.outstanding == map[]
    ensures Reachable(t) && t.phase == Polling && Alone(t.e, Req(0, 0, 1, 0, 1, 0, 0, 0), 1)
  {
    var s := MovedRun(w);
    ReachableInv(s);
    OnlyCompletes(s, Req(0, 0, 1, 0, 1, 0, 0, 0), Cmd(0, 1, 0, {0}));
    OneMore(s, Poll(1, false));
    t := Apply(s, Poll(1, false));
  }

  /** Such a run exists: one slot of one sector, its command completed, then an abort before the reports. */
  lemma AbortedRunStillReports(w: World) returns (t: Sys)
    requires w.outstanding == map[]
    ensures Reachable(t) && t.e.state == AbortRequested && Enabled(t, Report(0, true))
  {
    var s := CompletedRun(w);
    OneMore(s, RequestAbort);
    var s1 := Apply(s, RequestAbort);
    OneMore(s1, PollsDone);
    t := Apply(s1, PollsDone);
  }
}

/** An engine with two slots of one sector each: what each step makes of them, whichever the engine serves
    first. */
module TwoSlots {
  import opened Media
  import opened NvmeTables
  import opened EngineModel
  import opened EngineInvariant
  import opened EngineSafety
  import opened EngineTheorems
  import opened EngineAbort

  const CFG := Config(2, 2, 2, 1, 2, 0)

  datatype Progress = Gone | Fresh | Sent | Done

  predicate Served(e: Engine, i: nat, r: Req, p: Progress)
    requires Shape(e) && i < CAPACITY
  {
    match p
    case Gone => !e.active[i]
    case Fresh => e.active[i] && e.reqs[i] == r && e.contexts[i] == NewContext(r)
    case Sent => e.active[i] && e.reqs[i] == r && e.contexts[i] == OneCommand(r, 0)
    case Done => e.active[i] && e.reqs[i] == r && e.contexts[i] == OneCommand(r, 1)
  }

  function One(b: bool): nat {
    if b then 1 else 0
  }

  /** The engine serves one-sector slots `r` and `q` in contexts 0 and 1, and no other. */
  predicate Two(e: Engine, r: Req, p: Progress, q: Req, o: Progress) {
    && Shape(e) && e.cfg == CFG && e.state == Running && r.sectors == q.sectors == 1
    && Served(e, 0, r, p) && Served(e, 1, q, o) && (forall i :: 2 <= i < CAPACITY ==> !e.active[i])
    && e.activeCount == One(p != Gone) + One(o != Gone) && e.globalInflight == One(p == Sent) + One(o == Sent)
  }

  /** Every command in the table is with the device. */
  predicate AllOut(s: Sys) {
    forall k :: 0 <= k < |s.e.pending| && s.e.pending[k].valid ==> s.e.pending[k].cid in s.w.outstanding
  }

  /** A state of such a run. */
  ghost predicate Serving(s: Sys, phase: Phase, r: Req, p: Progress, q: Req, o: Progress) {
    Inv(s) && AllOut(s) && s.phase == phase && Two(s.e, r, p, q, o)
  }

  // ---- Adding and reporting ----

  lemma AddServed(s: Sys, r: Req, p: Progress, q: Req, o: Progress, x: Req)
    requires Serving(s, Outside, r, p, q, o) && Enabled(s, Add(x)) && x.sectors == 1
    requires p == Gone || (p == Fresh && o == Gone)
    requires JudgeAdd(s.e, x) == Placed(if p == Gone then 0 else 1)
    ensures var t := Apply(s, Add(x));
            && t.w == s.w
            && if p == Gone then Serving(t, Outside, x, Fresh, q, o) else Serving(t, Outside, r, p, x, Fresh)
  {
    StepKeeps(s, Add(x));
  }

  lemma ReportServed(s: Sys, r: Req, p: Progress, q: Req, o: Progress, i: nat)
    requires Serving(s, Reporting, r, p, q, o) && i <= 1 && (if i == 0 then p == Done else o == Done)
    ensures Enabled(s, Report(i, true)) && s.e.contexts[i].failed == 0
    ensures var t := Apply(s, Report(i, true));
            && t.w == s.w
            && if i == 0 then Serving(t, Reporting, r, Gone, q, o) else Serving(t, Reporting, r, p, q, Gone)
  {
    StepKeeps(s, Report(i, true));
  }

  // ---- Phases ----

  lemma NothingToPick(e: Engine, r: Req, p: Progress, q: Req, o: Progress)
    requires Two(e, r, p, q, o) && p != Fresh && o != Fresh
    ensures Picked(e) == CAPACITY
  {
    assert forall i :: 0 <= i < CAPACITY ==> !Submittable(e.contexts, e.active, i);
  }

  /** Only the phase moves. */
  lemma PhaseServed(s: Sys, r: Req, p: Progress, q: Req, o: Progress, phase: Phase)
    requires Serving(s, s.phase, r, p, q, o)
    ensures Serving(s.(phase := phase), phase, r, p, q, o)
  {
    StateChangeKeeps(s, s.e.state, s.e.lastError, phase);
  }

  lemma Entered(s: Sys, r: Req, p: Progress, q: Req, o: Progress)
    requires Serving(s, s.phase, r, p, q, o) && (s.phase == Outside || (s.phase == Refilling && p != Fresh && o != Fresh))
    requires p != Gone || o != Gone
    ensures Enabled(s, EnterIteration) && Serving(s.(phase := Polling), Polling, r, p, q, o)
  {
    PhaseServed(s, r, p, q, o, Polling);
    if s.phase == Refilling { NothingToPick(s.e, r, p, q, o); }
  }

  lemma Polled(s: Sys, r: Req, p: Progress, q: Req, o: Progress)
    requires Serving(s, Polling, r, p, q, o)
    ensures Enabled(s, PollsDone) && Serving(s.(phase := Reporting), Reporting, r, p, q, o)
  {
    PhaseServed(s, r, p, q, o, Reporting);
  }

  lemma NoneDone(s: Sys, r: Req, p: Progress, q: Req, o: Progress)
    requires Serving(s, Reporting, r, p, q, o) && p != Done && o != Done
    ensures Enabled(s, ReportsDone) && Serving(s.(phase := Refilling), Refilling, r, p, q, o)
  {
    assert forall i :: 0 <= i < CAPACITY && s.e.active[i] ==> i <= 1;
    PhaseServed(s, r, p, q, o, Refilling);
  }

  lemma Left(s: Sys, r: Req, p: Progress, q: Req, o: Progress)
    requires Serving(s, Refilling, r, p, q, o) && p != Fresh && o != Fresh
    ensures Enabled(s, LeaveStep) && Serving(s.(phase := Outside), Outside, r, p, q, o)
  {
    PhaseServed(s, r, p, q, o, Outside);
    NothingToPick(s.e, r, p, q, o);
  }

  // ---- Submitting ----

  lemma PostedServed(s: Sys, r: Req, p: Progress, q: Req, o: Progress, i: nat, k: nat, cmd: Pending, nextCid: nat, rr: nat)
    requires AllOut(s) && Two(s.e, r, p, q, o) && i < CAPACITY && s.e.active[i] && k < CAPACITY && nextCid < CID_SPACE && rr < CAPACITY
    requires s.e.contexts[i].next < s.e.contexts[i].totalSectors && cmd.cid < CID_SPACE && cmd == CutCommand(s.e.cfg, s.e.contexts[i], cmd.cid)
    ensures var t := PostedSys(s, nextCid, rr, i, k, cmd, true);
            && i <= 1 && AllOut(t) && t.w.ddr == s.w.ddr && t.phase == s.phase
            && if i == 0 then p == Fresh && Two(t.e, r, Sent, q, o) else o == Fresh && Two(t.e, r, p, q, Sent)
  {
    var t := PostedSys(s, nextCid, rr, i, k, cmd, true);
    forall m | 0 <= m < CAPACITY && t.e.pending[m].valid
      ensures t.e.pending[m].cid in t.w.outstanding
    {
      if m != k { assert t.e.pending[m] == s.e.pending[m]; }
    }
  }

  /** One of the fresh slots is served. */
  lemma SubmitServed(s: Sys, r: Req, p: Progress, q: Req, o: Progress) returns (t: Sys, first: bool)
    requires Serving(s, Refilling, r, p, q, o) && s.e.globalInflight < 2 && (p == Fresh || o == Fresh)
    ensures Enabled(s, Submit(Accepted)) && t == Apply(s, Submit(Accepted)) && t.w.ddr == s.w.ddr
    ensures if first then p == Fresh && Serving(t, Refilling, r, Sent, q, o) else o == Fresh && Serving(t, Refilling, r, p, q, Sent)
  {
    PickIsNearest(s.e.contexts, s.e.active, s.e.rr, 0, if p == Fresh then 0 else 1);
    var i, k, cmd, nextCid, rr := SubmitCases(s, Accepted);
    PostedServed(s, r, p, q, o, i, k, cmd, nextCid, rr);
    StepKeeps(s, Submit(Accepted));
    t, first := Apply(s, Submit(Accepted)), i == 0;
  }

  // ---- Completing ----

  lemma OneSectorOut(s: Sys, i: nat, k: nat)
    requires Inv(s) && AllOut(s) && i < CAPACITY && s.e.active[i] && s.e.contexts[i].next == 1
    requires k < CAPACITY && s.e.pending[k].valid && s.e.pending[k].slot == s.e.contexts[i].slot
    ensures s.e.pending[k].cid in s.w.outstanding && s.w.outstanding[s.e.pending[k].cid].sectors == 1
  {
    var j := OwnerFound(s.e, k);
    OwnEntry(s.e, k, i);
    var cid := s.e.pending[k].cid;
    assert InTable(s.e.pending, cid, s.w.outstanding[cid]);
  }

  /** The command of a slot that was sent. */
  lemma SentEntry(s: Sys, r: Req, p: Progress, q: Req, o: Progress, i: nat) returns (k: nat)
    requires Serving(s, Polling, r, p, q, o) && i <= 1 && (if i == 0 then p == Sent else o == Sent)
    ensures k < CAPACITY && s.e.pending[k].valid && s.e.pending[k].slot == s.e.contexts[i].slot
    ensures s.e.pending[k].cid in s.w.outstanding && s.w.outstanding[s.e.pending[k].cid].sectors == 1
  {
    NoneFor(s.e.pending, s.e.contexts[i].slot, CAPACITY);
    k :| 0 <= k < CAPACITY && s.e.pending[k].valid && s.e.pending[k].slot == s.e.contexts[i].slot;
    OneSectorOut(s, i, k);
  }

  lemma TransferredServed(s: Sys, cid: nat)
    requires AllOut(s) && cid in s.w.outstanding && s.w.outstanding[cid].sectors == 1
    ensures var t := s.(w := TransferStep(s.w, cid, 0)); AllOut(t) && AllMoved(t.w, cid) && t.w.ddr == s.w.ddr
  {
    assert TransferStep(s.w, cid, 0).outstanding.Keys == s.w.outstanding.Keys;
  }

  lemma MovedServed(s: Sys, r: Req, p: Progress, q: Req, o: Progress, cid: nat) returns (t: Sys)
    requires Serving(s, Polling, r, p, q, o) && cid in s.w.outstanding && s.w.outstanding[cid].sectors == 1
    ensures Enabled(s, Transfer(cid, 0)) && t == Apply(s, Transfer(cid, 0))
    ensures Serving(t, Polling, r, p, q, o) && t.e == s.e && t.w.ddr == s.w.ddr && AllMoved(t.w, cid)
  {
    TransferKeeps(s, cid, 0);
    TransferredServed(s, cid);
    t := s.(w := TransferStep(s.w, cid, 0));
  }

  lemma RetiredOut(s: Sys, k: nat, i: nat)
    requires Inv(s) && AllOut(s) && i < CAPACITY && s.e.contexts[i].inflight > 0 && s.e.globalInflight > 0
    requires k < CAPACITY && s.e.pending[k].valid
    ensures AllOut(RetiredSys(s, k, i, false))
  {
    var t := RetiredSys(s, k, i, false);
    forall m | 0 <= m < CAPACITY && t.e.pending[m].valid
      ensures t.e.pending[m].cid in t.w.outstanding
    {
      assert m != k && t.e.pending[m] == s.e.pending[m] && s.e.pending[m].cid != s.e.pending[k].cid;
    }
  }

  lemma RetiredTwo(e: Engine, r: Req, p: Progress, q: Req, o: Progress, i: nat, k: nat)
    requires Two(e, r, p, q, o) && i <= 1 && (if i == 0 then p == Sent else o == Sent) && k < CAPACITY && e.pending[k].valid
    ensures e.contexts[i].inflight > 0 && e.globalInflight > 0
    ensures if i == 0 then Two(RetireEntry(e, k, i, false), r, Done, q, o) else Two(RetireEntry(e, k, i, false), r, p, q, Done)
  {
  }

  lemma CompleteServed(s: Sys, r: Req, p: Progress, q: Req, o: Progress, i: nat, k: nat) returns (t: Sys)
    requires Serving(s, Polling, r, p, q, o) && i <= 1 && (if i == 0 then p == Sent else o == Sent)
    requires k < CAPACITY && s.e.pending[k].valid && s.e.pending[k].slot == s.e.contexts[i].slot && AllMoved(s.w, s.e.pending[k].cid)
    ensures Enabled(s, Poll(s.e.pending[k].cid, false)) && t == Apply(s, Poll(s.e.pending[k].cid, false)) && t.w.ddr == s.w.ddr
    ensures if i == 0 then Serving(t, Polling, r, Done, q, o) else Serving(t, Polling, r, p, q, Done)
  {
    t := LandEntry(s, i, k, 1);
    OwnEntry(s.e, k, i);
    var k', j := CompletionRetires(s, s.e.pending[k].cid, false);
    RetiredTwo(s.e, r, p, q, o, i, k);
    RetiredOut(s, k, i);
  }

  /** What a drained slot left on the disk. */
  lemma DoneIsStored(s: Sys, r: Req, p: Progress, q: Req, o: Progress)
    requires Serving(s, Reporting, r, Done, q, o)
    ensures s.w.ssd(r.startLba) == SectorAt(s.w.ddr, r.hwAddr)
  {
    ReportedSlotStored(s, 0, r.startLba);
  }
}

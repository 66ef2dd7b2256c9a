/** Exactly when a slot can still be reported done although the engine has left RUNNING. */
module EngineAbort {
  import opened NvmeTables
  import opened EngineModel
  import opened EngineInvariant
  import opened EngineSafety
  import opened EngineTheorems

  /** The slot of context `i` is drained while the iteration is at its reports. */
  predicate Landed(s: Sys, i: nat)
    requires Shape(s.e)
  {
    s.phase == Reporting && i < CAPACITY && s.e.active[i] && Drained(s.e.contexts[i]) && s.e.contexts[i].failed == 0
  }

  /** Every command of the slot in flight reached the device, so that its completion can still come. */
  predicate AllPosted(pending: seq<Pending>, slot: nat, outstanding: map<nat, Cmd>) {
    forall k :: 0 <= k < |pending| && pending[k].valid && pending[k].slot == slot ==> pending[k].cid in outstanding
  }

  /** The slot of context `i` is fully submitted while the iteration polls, and at most `polls` of its
      commands are in flight, all of them with the device. */
  predicate Landing(s: Sys, i: nat, polls: nat)
    requires Shape(s.e)
  {
    && s.phase == Polling && i < CAPACITY && s.e.active[i] && s.e.contexts[i].next == s.e.contexts[i].totalSectors
    && s.e.contexts[i].failed == 0 && s.e.contexts[i].inflight <= polls
    && AllPosted(s.e.pending, s.e.contexts[i].slot, s.w.outstanding)
  }

  predicate CanReport(s: Sys, polls: nat)
    requires Shape(s.e)
  {
    exists i :: 0 <= i < CAPACITY && (Landed(s, i) || Landing(s, i, polls))
  }

  function CountPolls(acts: seq<Action>): nat {
    if acts == [] then 0 else (if acts[0].Poll? then 1 else 0) + CountPolls(acts[1..])
  }

  /** A run from `s` with at most `polls` polls ends where a slot is reported done. */
  ghost predicate SomeRunReports(s: Sys, polls: nat) {
    exists acts, u, i :: RunReports(s, acts, u, i) && CountPolls(acts) <= polls
  }

  ghost predicate RunReports(s: Sys, acts: seq<Action>, u: Sys, i: nat) {
    Reaches(s, acts, u) && Shape(u.e) && Enabled(u, Report(i, true)) && u.e.contexts[i].failed == 0
  }

  // ---- Only if ----

  /** A completion takes at most one command from a context and posts none. */
  lemma RetiredBack(s: Sys, k: nat, j: nat, error: bool, i: nat, polls: nat)
    requires Shape(s.e) && k < CAPACITY && s.e.pending[k].valid && s.e.pending[k].cid in s.w.outstanding
    requires j < CAPACITY && s.e.contexts[j].inflight > 0 && s.e.globalInflight > 0
    requires Landing(RetiredSys(s, k, j, error), i, polls)
    ensures Landing(s, i, polls + 1)
  {
    var t := RetiredSys(s, k, j, error);
    forall m | 0 <= m < CAPACITY && s.e.pending[m].valid && s.e.pending[m].slot == s.e.contexts[i].slot
      ensures s.e.pending[m].cid in s.w.outstanding
    {
      if m != k { assert t.e.pending[m] == s.e.pending[m]; }
    }
  }

  lemma PollBack(s: Sys, cid: nat, error: bool, t: Sys, polls: nat)
    requires Inv(s) && s.e.state != Running && Enabled(s, Poll(cid, error)) && t == CompletionStep(s, cid, error) && Shape(t.e)
    requires CanReport(t, polls)
    ensures CanReport(s, polls + 1)
  {
    var i :| 0 <= i < CAPACITY && (Landed(t, i) || Landing(t, i, polls));
    if CidLive(s.e.pending, cid) {
      var k, j := CompletionRetires(s, cid, error);
      RetiredBack(s, k, j, error, i, polls);
    }
  }

  lemma DoneHasNoneInFlight(s: Sys, i: nat, polls: nat)
    requires Inv(s) && s.phase == Polling && i < CAPACITY && s.e.active[i] && Drained(s.e.contexts[i]) && s.e.contexts[i].failed == 0
    ensures Landing(s, i, polls)
  {
    NoneFor(s.e.pending, s.e.contexts[i].slot, CAPACITY);
  }

  lemma PollsDoneBack(s: Sys, t: Sys, polls: nat)
    requires Inv(s) && s.phase == Polling && t == s.(phase := Reporting) && CanReport(t, polls)
    ensures CanReport(s, polls)
  {
    var i :| 0 <= i < CAPACITY && (Landed(t, i) || Landing(t, i, polls));
    DoneHasNoneInFlight(s, i, polls);
  }

  lemma ReportBack(s: Sys, j: nat, ok: bool, t: Sys, polls: nat)
    requires Shape(s.e) && Enabled(s, Report(j, ok)) && t == ReportStep(s, j, ok) && Shape(t.e) && CanReport(t, polls)
    ensures CanReport(s, polls)
  {
    var i :| 0 <= i < CAPACITY && (Landed(t, i) || Landing(t, i, polls));
    assert Landed(s, i);
  }

  /** Steps that touch neither the tables nor what the device owns. */
  lemma SameBack(s: Sys, t: Sys, polls: nat)
    requires Shape(s.e) && Shape(t.e) && CanReport(t, polls)
    requires t.phase == s.phase && t.e.active == s.e.active && t.e.contexts == s.e.contexts && t.e.pending == s.e.pending
    requires t.w.outstanding.Keys == s.w.outstanding.Keys
    ensures CanReport(s, polls)
  {
    var i :| 0 <= i < CAPACITY && (Landed(t, i) || Landing(t, i, polls));
    assert Landed(s, i) || Landing(s, i, polls);
  }

  lemma OthersSame(s: Sys, a: Action)
    requires Shape(s.e) && StateOk(s) && s.e.state != Running && Enabled(s, a)
    requires !a.Poll? && !a.PollsDone? && !a.Report? && Apply(s, a).phase in {Polling, Reporting}
    ensures var t := Apply(s, a);
            && t.phase == s.phase && t.e.active == s.e.active && t.e.contexts == s.e.contexts && t.e.pending == s.e.pending
            && t.w.outstanding.Keys == s.w.outstanding.Keys
  {
  }

  lemma StepBack(s: Sys, a: Action, t: Sys, polls: nat)
    requires Inv(s) && s.e.state != Running && Enabled(s, a) && t == Apply(s, a) && Shape(t.e)
    requires CanReport(t, polls)
    ensures CanReport(s, polls + if a.Poll? then 1 else 0)
  {
    match a
    case Poll(cid, error) => PollBack(s, cid, error, t, polls);
    case PollsDone => PollsDoneBack(s, t, polls);
    case Report(j, ok) => ReportBack(s, j, ok, t, polls);
    case _ =>
      OthersSame(s, a);
      SameBack(s, t, polls);
  }

  lemma StepOn(s: Sys, a: Action, t: Sys)
    requires Inv(s) && s.e.state != Running && Enabled(s, a) && t == Apply(s, a)
    ensures Inv(t) && t.e.state != Running
  {
    StepKeeps(s, a);
    NeverRunsAgain(s, a);
  }

  /** One step of the run, and what the rest of it shows. */
  lemma StepThenRest(s: Sys, a: Action, t: Sys, rest: nat, all: nat)
    requires Inv(s) && s.e.state != Running && Enabled(s, a) && t == Apply(s, a) && Shape(t.e)
    requires CanReport(t, rest) && all == rest + if a.Poll? then 1 else 0
    ensures CanReport(s, all)
  {
    StepBack(s, a, t, rest);
  }

  lemma {:induction false} RunBack(s: Sys, acts: seq<Action>, u: Sys, polls: nat)
    requires Inv(s) && s.e.state != Running && Reaches(s, acts, u) && Shape(u.e) && CanReport(u, 0) && polls == CountPolls(acts)
    ensures CanReport(s, polls)
    decreases acts
  {
    if acts != [] {
      var t := Apply(s, acts[0]);
      StepOn(s, acts[0], t);
      RunBack(t, acts[1..], u, CountPolls(acts[1..]));
      StepThenRest(s, acts[0], t, CountPolls(acts[1..]), polls);
    }
  }

  // ---- If ----

  predicate AllMoved(w: World, cid: nat) {
    cid in w.outstanding && forall m :: 0 <= m < w.outstanding[cid].sectors ==> m in w.outstanding[cid].moved
  }

  /** The device moves what is left of a command, from sector `m` on. */
  lemma {:induction false} MoveRest(s: Sys, cid: nat, m: nat) returns (acts: seq<Action>, t: Sys)
    requires Shape(s.e) && cid in s.w.outstanding && m <= s.w.outstanding[cid].sectors
    requires forall x :: 0 <= x < m ==> x in s.w.outstanding[cid].moved
    ensures Reaches(s, acts, t) && CountPolls(acts) == 0
    ensures t.e == s.e && t.phase == s.phase && t.w.outstanding.Keys == s.w.outstanding.Keys && AllMoved(t.w, cid)
    decreases s.w.outstanding[cid].sectors - m
  {
    if m == s.w.outstanding[cid].sectors {
      acts, t := [], s;
    } else {
      var rest;
      rest, t := MoveRest(s.(w := TransferStep(s.w, cid, m)), cid, m + 1);
      acts := [Transfer(cid, m)] + rest;
      assert acts[1..] == rest;
    }
  }

  lemma CompletionMayCome(u: Sys, k: nat)
    requires Inv(u) && u.phase == Polling && k < CAPACITY && u.e.pending[k].valid && AllMoved(u.w, u.e.pending[k].cid)
    ensures Enabled(u, Poll(u.e.pending[k].cid, false))
  {
    var j := OwnerFound(u.e, k);
  }

  lemma OwnEntry(e: Engine, k: nat, i: nat)
    requires TablesOk(e) && k < CAPACITY && e.pending[k].valid && i < CAPACITY && e.active[i] && e.pending[k].slot == e.contexts[i].slot
    ensures PendingByCid(e.pending, e.pending[k].cid, 0) == k && ContextBySlot(e.contexts, e.pending[k].slot, 0) == i
  {
    var j := OwnerFound(e, k);
  }

  /** Entry `k` of the slot completes, all its sectors moved. */
  lemma LandEntry(u: Sys, i: nat, k: nat, polls: nat) returns (t: Sys)
    requires Inv(u) && Landing(u, i, polls) && k < CAPACITY && u.e.pending[k].valid && u.e.pending[k].slot == u.e.contexts[i].slot
    requires AllMoved(u.w, u.e.pending[k].cid)
    ensures u.e.contexts[i].inflight > 0 && Enabled(u, Poll(u.e.pending[k].cid, false)) && t == Apply(u, Poll(u.e.pending[k].cid, false))
    ensures Inv(t) && Landing(t, i, polls - 1) && t.e.contexts[i].inflight == u.e.contexts[i].inflight - 1
  {
    CompletionMayCome(u, k);
    var k', j := CompletionRetires(u, u.e.pending[k].cid, false);
    OwnEntry(u.e, k, i);
    StepKeeps(u, Poll(u.e.pending[k].cid, false));
    Landed1(u, i, k, polls);
    t := RetiredSys(u, k, i, false);
  }

  lemma SomeEntry(s: Sys, i: nat, polls: nat) returns (k: nat)
    requires Inv(s) && Landing(s, i, polls) && s.e.contexts[i].inflight > 0
    ensures k < CAPACITY && s.e.pending[k].valid && s.e.pending[k].slot == s.e.contexts[i].slot
  {
    NoneFor(s.e.pending, s.e.contexts[i].slot, CAPACITY);
    k :| k < CAPACITY && s.e.pending[k].valid && s.e.pending[k].slot == s.e.contexts[i].slot;
  }

  /** All sectors of one command of the slot move. */
  lemma MoveOne(s: Sys, i: nat, polls: nat) returns (k: nat, acts: seq<Action>, u: Sys)
    requires Inv(s) && Landing(s, i, polls) && s.e.contexts[i].inflight > 0
    ensures Reaches(s, acts, u) && Inv(u) && CountPolls(acts) == 0 && Landing(u, i, polls) && u.e == s.e
    ensures k < CAPACITY && u.e.pending[k].valid && u.e.pending[k].slot == u.e.contexts[i].slot && AllMoved(u.w, u.e.pending[k].cid)
  {
    k := SomeEntry(s, i, polls);
    acts, u := MoveRest(s, s.e.pending[k].cid, 0);
    RunKeeps(s, acts, u);
  }

  /** One command of the slot completes. */
  lemma LandOne(s: Sys, i: nat, polls: nat) returns (acts: seq<Action>, t: Sys)
    requires Inv(s) && Landing(s, i, polls) && s.e.contexts[i].inflight > 0
    ensures Reaches(s, acts, t) && Inv(t) && CountPolls(acts) == 1
    ensures Landing(t, i, polls - 1) && t.e.contexts[i].inflight == s.e.contexts[i].inflight - 1
  {
    var k, moves, u := MoveOne(s, i, polls);
    t := LandEntry(u, i, k, polls);
    var last := Poll(u.e.pending[k].cid, false);
    OneStep(u, last, t);
    ReachesAppend(s, moves, u, [last], t);
    PollsAppend(moves, [last]);
    acts := moves + [last];
  }

  lemma OneStep(s: Sys, a: Action, t: Sys)
    requires Shape(s.e) && Enabled(s, a) && t == Apply(s, a)
    ensures Reaches(s, [a], t)
  {
    assert [a][1..] == [];
    assert Reaches(t, [], t);
  }

  lemma Landed1(u: Sys, i: nat, k: nat, polls: nat)
    requires Inv(u) && Landing(u, i, polls) && u.e.contexts[i].inflight > 0 && u.e.globalInflight > 0
    requires k < CAPACITY && u.e.pending[k].valid && u.e.pending[k].slot == u.e.contexts[i].slot
    ensures Landing(RetiredSys(u, k, i, false), i, polls - 1)
  {
    var t := RetiredSys(u, k, i, false);
    forall m | 0 <= m < CAPACITY && t.e.pending[m].valid && t.e.pending[m].slot == t.e.contexts[i].slot
      ensures t.e.pending[m].cid in t.w.outstanding
    {
      assert m != k && u.e.pending[m].cid != u.e.pending[k].cid;
    }
  }

  lemma {:induction false} PollsAppend(a: seq<Action>, b: seq<Action>)
    ensures CountPolls(a + b) == CountPolls(a) + CountPolls(b)
    decreases a
  {
    if a == [] {
      assert a + b == b;
    } else {
      assert (a + b)[1..] == a[1..] + b;
      PollsAppend(a[1..], b);
    }
  }

  lemma {:induction false} Land(s: Sys, i: nat, polls: nat) returns (acts: seq<Action>, t: Sys)
    requires Inv(s) && Landing(s, i, polls)
    ensures Reaches(s, acts, t) && Inv(t) && CountPolls(acts) <= polls && Landing(t, i, 0)
    decreases s.e.contexts[i].inflight
  {
    if s.e.contexts[i].inflight == 0 {
      acts, t := [], s;
    } else {
      var first, u := LandOne(s, i, polls);
      var rest;
      rest, t := Land(u, i, polls - 1);
      ReachesAppend(s, first, u, rest, t);
      PollsAppend(first, rest);
      acts := first + rest;
    }
  }

  lemma LandsDrained(t: Sys, i: nat)
    requires Inv(t) && Landing(t, i, 0)
    ensures Inv(t.(phase := Reporting)) && Landed(t.(phase := Reporting), i)
  {
    assert ContextOk(t.e.cfg, t.e.contexts[i], t.e.reqs[i]);
  }

  lemma ReportIsNext(s: Sys, i: nat)
    requires Inv(s) && Landed(s, i)
    ensures Enabled(s, Report(i, true))
  {
    NoneActive(s.e.active, CAPACITY);
  }

  lemma RunExists(s: Sys, i: nat, polls: nat)
    requires Inv(s) && (Landed(s, i) || Landing(s, i, polls))
    ensures SomeRunReports(s, polls)
  {
    if Landed(s, i) {
      ReportIsNext(s, i);
      assert RunReports(s, [], s, i);
    } else {
      var acts, t := Land(s, i, polls);
      var u := t.(phase := Reporting);
      OneStep(t, PollsDone, u);
      ReachesAppend(s, acts, t, [PollsDone], u);
      PollsAppend(acts, [PollsDone]);
      LandsDrained(t, i);
      ReportIsNext(u, i);
      assert RunReports(s, acts + [PollsDone], u, i);
    }
  }

  lemma LandedAtEnd(s: Sys, acts: seq<Action>, u: Sys, i: nat)
    requires RunReports(s, acts, u, i)
    ensures Reaches(s, acts, u) && Shape(u.e) && CanReport(u, 0)
  {
    assert Landed(u, i);
  }

  lemma ReportsOnlyIf(s: Sys, polls: nat)
    requires Inv(s) && s.e.state != Running && SomeRunReports(s, polls)
    ensures CanReport(s, polls)
  {
    var acts, u, i :| RunReports(s, acts, u, i) && CountPolls(acts) <= polls;
    LandedAtEnd(s, acts, u, i);
    RunBack(s, acts, u, CountPolls(acts));
    MorePolls(s, CountPolls(acts), polls);
  }

  lemma MorePolls(s: Sys, few: nat, polls: nat)
    requires Shape(s.e) && few <= polls && CanReport(s, few)
    ensures CanReport(s, polls)
  {
    var j :| 0 <= j < CAPACITY && (Landed(s, j) || Landing(s, j, few));
    assert Landed(s, j) || Landing(s, j, polls);
  }

  /** Out of RUNNING, with `polls` polls left in the iteration, a slot is still reported done by some run if
      and only if the iteration is at its reports and the slot is drained, or it still polls, the slot is
      fully submitted and at most that many of its commands are in flight, all of them with the device;
      and no command of the slot has failed. */
  lemma ReportsAfterAbort(s: Sys, polls: nat)
    requires Reachable(s) && s.e.state != Running
    ensures SomeRunReports(s, polls) <==> CanReport(s, polls)
  {
    ReachableInv(s);
    if SomeRunReports(s, polls) {
      ReportsOnlyIf(s, polls);
    } else if CanReport(s, polls) {
      var i :| 0 <= i < CAPACITY && (Landed(s, i) || Landing(s, i, polls));
      RunExists(s, i, polls);
    }
  }
}

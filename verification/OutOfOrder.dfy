/** Captures in which the engine serves two slots and completes them out of order, in steps of any run. */
module OutOfOrder {
  import opened EngineModel
  import opened EngineSafety
  import opened TwoSlots
  import opened DmaRing
  import opened Capture
  import opened CaptureInvariant

  // ---- Runs, with or without stale harvests ----

  ghost predicate Steps(c: Cap, v: Event, d: Cap) {
    RingOk(c.ch.ring) && Shape(c.s.e) && Allowed(c, v) && AddReady(c) && d == Next(c, v)
  }

  ghost predicate Follows(c: Cap, d: Cap) {
    exists v :: Steps(c, v, d)
  }

  /** State `i` of the run is where it starts, or follows from the one before by an event that is allowed; the
      engine's own invariant holds in it. */
  ghost predicate Linked(run: seq<Cap>, i: nat)
    requires i < |run|
  {
    Inv(run[i].s) && if i == 0 then Start(run[0]) else Follows(run[i - 1], run[i])
  }

  /** A capture that ends in state `d`; harvests may be stale. */
  ghost predicate RunTo(run: seq<Cap>, d: Cap) {
    |run| > 0 && run[|run| - 1] == d && forall i: nat {:trigger Linked(run, i)} :: i < |run| ==> Linked(run, i)
  }

  ghost predicate SomeRun(d: Cap) {
    exists run :: RunTo(run, d)
  }

  lemma RunOn(run: seq<Cap>, c: Cap, v: Event, d: Cap)
    requires RunTo(run, c) && Steps(c, v, d) && Inv(d.s)
    ensures RunTo(run + [d], d)
  {
    var more := run + [d];
    forall i: nat | i < |more|
      ensures Linked(more, i)
    {
      if i < |run| {
        assert Linked(run, i);
      } else {
        assert Follows(more[i - 1], more[i]);
      }
    }
  }

  lemma Begins(c: Cap)
    requires Start(c)
    ensures SomeRun(c)
  {
    InitInv(c.s);
    assert Linked([c], 0) && RunTo([c], c);
  }

  /** The engine's invariant, where the run is. */
  lemma RunInv(c: Cap)
    requires SomeRun(c)
    ensures Inv(c.s)
  {
    var run :| RunTo(run, c);
    assert Linked(run, |run| - 1);
  }

  lemma Go(c: Cap, v: Event, d: Cap)
    requires SomeRun(c) && Steps(c, v, d) && Inv(d.s)
    ensures SomeRun(d)
  {
    var run :| RunTo(run, c);
    RunOn(run, c, v, d);
    assert RunTo(run + [d], d);
  }

  /** An event that does not concern the engine. */
  lemma GoStill(c: Cap, v: Event, d: Cap)
    requires SomeRun(c) && RingOk(c.ch.ring) && Shape(c.s.e) && Allowed(c, v) && AddReady(c) && d == Next(c, v) && d.s == c.s
    ensures SomeRun(d)
  {
    RunInv(c);
    Go(c, v, d);
  }

  // ---- The engine's part ----

  /** The writer holds nothing and no thread has given up. */
  ghost predicate Idle(c: Cap) {
    SomeRun(c) && RingOk(c.ch.ring) && c.held == None && !c.failed && !c.ch.q.error
  }

  /** What the engine serves, and where it is. */
  predicate At(s: Sys, phase: Phase, r: Req, p: Progress, q: Req, o: Progress) {
    AllOut(s) && s.phase == phase && Two(s.e, r, p, q, o)
  }

  /** The engine went on by itself. */
  ghost predicate OnlyEngine(c: Cap, d: Cap) {
    Idle(d) && d == c.(s := d.s) && d.s.w.ddr == c.s.w.ddr
  }

  lemma EngineSteps(c: Cap, a: Action, t: Sys, d: Cap)
    requires RingOk(c.ch.ring) && c.held == None && !c.failed && !c.ch.q.error
    requires Shape(c.s.e) && c.s.e.state == Running && WriterOnly(a) && Enabled(c.s, a) && t == EngineModel.Apply(c.s, a)
    requires d == c.(s := t)
    ensures Steps(c, EngineEvent(a), d)
  {
  }

  lemma Engine(c: Cap, a: Action, t: Sys) returns (d: Cap)
    requires Idle(c) && Shape(c.s.e) && c.s.e.state == Running && WriterOnly(a) && Enabled(c.s, a) && t == EngineModel.Apply(c.s, a)
    requires Inv(t)
    ensures SomeRun(d) && d == c.(s := t)
  {
    d := c.(s := t);
    EngineSteps(c, a, t, d);
    Go(c, EngineEvent(a), d);
  }

  lemma Enter(c: Cap, r: Req, p: Progress, q: Req, o: Progress) returns (d: Cap)
    requires Idle(c) && At(c.s, c.s.phase, r, p, q, o) && (c.s.phase == Outside || (c.s.phase == Refilling && p != Fresh && o != Fresh))
    requires p != Gone || o != Gone
    ensures OnlyEngine(c, d) && At(d.s, Polling, r, p, q, o)
  {
    RunInv(c);
    Entered(c.s, r, p, q, o);
    d := Engine(c, EnterIteration, c.s.(phase := Polling));
  }

  lemma ToReports(c: Cap, r: Req, p: Progress, q: Req, o: Progress) returns (d: Cap)
    requires Idle(c) && At(c.s, Polling, r, p, q, o)
    ensures OnlyEngine(c, d) && At(d.s, Reporting, r, p, q, o) && d.s.w == c.s.w
  {
    RunInv(c);
    Polled(c.s, r, p, q, o);
    d := Engine(c, PollsDone, c.s.(phase := Reporting));
  }

  lemma ToRefill(c: Cap, r: Req, p: Progress, q: Req, o: Progress) returns (d: Cap)
    requires Idle(c) && At(c.s, Reporting, r, p, q, o) && p != Done && o != Done
    ensures OnlyEngine(c, d) && At(d.s, Refilling, r, p, q, o)
  {
    RunInv(c);
    NoneDone(c.s, r, p, q, o);
    d := Engine(c, ReportsDone, c.s.(phase := Refilling));
  }

  lemma Leave(c: Cap, r: Req, p: Progress, q: Req, o: Progress) returns (d: Cap)
    requires Idle(c) && At(c.s, Refilling, r, p, q, o) && p != Fresh && o != Fresh
    ensures OnlyEngine(c, d) && At(d.s, Outside, r, p, q, o)
  {
    RunInv(c);
    Left(c.s, r, p, q, o);
    d := Engine(c, LeaveStep, c.s.(phase := Outside));
  }

  lemma SubmitOne(c: Cap, r: Req, p: Progress, q: Req, o: Progress) returns (d: Cap, first: bool)
    requires Idle(c) && At(c.s, Refilling, r, p, q, o) && c.s.e.globalInflight < 2 && (p == Fresh || o == Fresh)
    ensures OnlyEngine(c, d)
    ensures if first then p == Fresh && At(d.s, Refilling, r, Sent, q, o) else o == Fresh && At(d.s, Refilling, r, p, q, Sent)
  {
    RunInv(c);
    var t;
    t, first := SubmitServed(c.s, r, p, q, o);
    d := Engine(c, Submit(Accepted), t);
  }

  /** The command of context `i` moves its sector and completes. */
  lemma CompleteOne(c: Cap, r: Req, p: Progress, q: Req, o: Progress, i: nat) returns (d: Cap)
    requires Idle(c) && At(c.s, Polling, r, p, q, o) && i <= 1 && (if i == 0 then p == Sent else o == Sent)
    ensures OnlyEngine(c, d) && if i == 0 then At(d.s, Polling, r, Done, q, o) else At(d.s, Polling, r, p, q, Done)
  {
    RunInv(c);
    var k := SentEntry(c.s, r, p, q, o, i);
    var cid := c.s.e.pending[k].cid;
    var u := MovedServed(c.s, r, p, q, o, cid);
    var moved := Engine(c, Transfer(cid, 0), u);
    var t := CompleteServed(u, r, p, q, o, i, k);
    d := Engine(moved, Poll(cid, false), t);
  }

  /** Both fresh slots are submitted. */
  lemma SubmitBoth(c: Cap, r: Req, q: Req) returns (d: Cap)
    requires Idle(c) && At(c.s, Outside, r, Fresh, q, Fresh)
    ensures OnlyEngine(c, d) && At(d.s, Refilling, r, Sent, q, Sent)
  {
    var c1 := Enter(c, r, Fresh, q, Fresh);
    var c2 := ToReports(c1, r, Fresh, q, Fresh);
    var c3 := ToRefill(c2, r, Fresh, q, Fresh);
    var c4, first := SubmitOne(c3, r, Fresh, q, Fresh);
    var second;
    if first { d, second := SubmitOne(c4, r, Sent, q, Fresh); } else { d, second := SubmitOne(c4, r, Fresh, q, Sent); }
  }

  /** Both are submitted and the second one completes first. */
  lemma SecondFirst(c: Cap, r: Req, q: Req) returns (d: Cap)
    requires Idle(c) && At(c.s, Outside, r, Fresh, q, Fresh)
    ensures OnlyEngine(c, d) && At(d.s, Reporting, r, Sent, q, Done)
  {
    var c1 := SubmitBoth(c, r, q);
    var c2 := Enter(c1, r, Sent, q, Sent);
    var c3 := CompleteOne(c2, r, Sent, q, Sent, 1);
    d := ToReports(c3, r, Sent, q, Done);
  }

  /** Then the first one. */
  lemma ThenFirst(c: Cap, r: Req, q: Req) returns (d: Cap)
    requires Idle(c) && At(c.s, Reporting, r, Sent, q, Gone)
    ensures OnlyEngine(c, d) && At(d.s, Reporting, r, Done, q, Gone)
  {
    var c1 := ToRefill(c, r, Sent, q, Gone);
    var c2 := Enter(c1, r, Sent, q, Gone);
    var c3 := CompleteOne(c2, r, Sent, q, Gone, 0);
    d := ToReports(c3, r, Done, q, Gone);
  }

  /** A single slot is submitted and completes. */
  lemma WriteAlone(c: Cap, r: Req, q: Req) returns (d: Cap)
    requires Idle(c) && At(c.s, Outside, r, Fresh, q, Gone)
    ensures OnlyEngine(c, d) && At(d.s, Reporting, r, Done, q, Gone)
  {
    var c1 := Enter(c, r, Fresh, q, Gone);
    var c2 := ToReports(c1, r, Fresh, q, Gone);
    var c3 := ToRefill(c2, r, Fresh, q, Gone);
    var c4, first := SubmitOne(c3, r, Fresh, q, Gone);
    var c5 := Enter(c4, r, Sent, q, Gone);
    var c6 := CompleteOne(c5, r, Sent, q, Gone, 0);
    d := ToReports(c6, r, Done, q, Gone);
  }
}

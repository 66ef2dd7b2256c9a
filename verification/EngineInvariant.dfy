/** What every step of the cross-slot engine keeps. */
module EngineInvariant {
  import opened Media
  import opened NvmeTables
  import opened EngineModel

  // ---- Counting ----

  function CountActive(active: seq<bool>, n: nat): nat
    requires n <= |active|
  {
    if n == 0 then 0 else CountActive(active, n - 1) + (if active[n - 1] then 1 else 0)
  }

  function CountValid(pending: seq<Pending>, n: nat): nat
    requires n <= |pending|
  {
    if n == 0 then 0 else CountValid(pending, n - 1) + (if pending[n - 1].valid then 1 else 0)
  }

  /** Pending commands of one slot. */
  function CountFor(pending: seq<Pending>, slot: nat, n: nat): nat
    requires n <= |pending|
  {
    if n == 0 then 0
    else CountFor(pending, slot, n - 1) + (if pending[n - 1].valid && pending[n - 1].slot == slot then 1 else 0)
  }

  function SumInflight(contexts: seq<Context>, active: seq<bool>, n: nat): nat
    requires n <= |contexts| == |active|
  {
    if n == 0 then 0
    else SumInflight(contexts, active, n - 1) + (if active[n - 1] then contexts[n - 1].inflight else 0)
  }

  lemma {:induction false} CountActiveUpdate(active: seq<bool>, i: nat, b: bool, n: nat)
    requires i < |active| && n <= |active|
    ensures CountActive(active[i := b], n) ==
            CountActive(active, n) + if i < n then (if b then 1 else 0) - (if active[i] then 1 else 0) else 0
  {
    if n != 0 { CountActiveUpdate(active, i, b, n - 1); }
  }

  lemma {:induction false} CountValidUpdate(pending: seq<Pending>, k: nat, p: Pending, n: nat)
    requires k < |pending| && n <= |pending|
    ensures CountValid(pending[k := p], n) ==
            CountValid(pending, n) + if k < n then (if p.valid then 1 else 0) - (if pending[k].valid then 1 else 0) else 0
  {
    if n != 0 { CountValidUpdate(pending, k, p, n - 1); }
  }

  lemma {:induction false} CountForUpdate(pending: seq<Pending>, k: nat, p: Pending, slot: nat, n: nat)
    requires k < |pending| && n <= |pending|
    ensures CountFor(pending[k := p], slot, n) ==
            CountFor(pending, slot, n) +
            if k < n
            then (if p.valid && p.slot == slot then 1 else 0) -
                 (if pending[k].valid && pending[k].slot == slot then 1 else 0)
            else 0
  {
    if n != 0 { CountForUpdate(pending, k, p, slot, n - 1); }
  }

  lemma {:induction false} SumInflightUpdate(contexts: seq<Context>, active: seq<bool>, i: nat, c: Context, b: bool, n: nat)
    requires i < |contexts| == |active| && n <= |active|
    ensures SumInflight(contexts[i := c], active[i := b], n) ==
            SumInflight(contexts, active, n) +
            if i < n then (if b then c.inflight else 0) - (if active[i] then contexts[i].inflight else 0) else 0
  {
    if n != 0 { SumInflightUpdate(contexts, active, i, c, b, n - 1); }
  }

  lemma {:induction false} NoneFor(pending: seq<Pending>, slot: nat, n: nat)
    requires n <= |pending|
    ensures CountFor(pending, slot, n) == 0 <==>
            forall k :: 0 <= k < n ==> !(pending[k].valid && pending[k].slot == slot)
  {
    if n != 0 { NoneFor(pending, slot, n - 1); }
  }

  lemma {:induction false} NoneValid(pending: seq<Pending>, n: nat)
    requires n <= |pending|
    ensures CountValid(pending, n) == 0 <==> forall k :: 0 <= k < n ==> !pending[k].valid
    ensures CountValid(pending, n) == n <==> forall k :: 0 <= k < n ==> pending[k].valid
    ensures CountValid(pending, n) <= n
  {
    if n != 0 { NoneValid(pending, n - 1); }
  }

  lemma {:induction false} NoneActive(active: seq<bool>, n: nat)
    requires n <= |active|
    ensures CountActive(active, n) == 0 <==> forall i :: 0 <= i < n ==> !active[i]
    ensures CountActive(active, n) == n <==> forall i :: 0 <= i < n ==> active[i]
    ensures CountActive(active, n) <= n
  {
    if n != 0 { NoneActive(active, n - 1); }
  }

  lemma {:induction false} CountIsSize(pending: seq<Pending>, n: nat)
    requires n <= |pending|
    ensures |ValidSet(pending[..n])| == CountValid(pending, n)
  {
    if n == 0 {
      assert ValidSet(pending[..0]) == {};
    } else {
      CountIsSize(pending, n - 1);
      var before := ValidSet(pending[..n - 1]);
      assert ValidSet(pending[..n]) == if pending[n - 1].valid then before + {n - 1} else before;
    }
  }

  // ---- The tables ----

  predicate ContextOk(cfg: Config, c: Context, r: Req) {
    && c.slot == r.slot != NO_SLOT
    && (cfg.dmaDescCount != 0 ==> r.slot < cfg.dmaDescCount)
    && c.baseLba == r.startLba && c.baseDdr == r.hwAddr
    && c.totalSectors == r.sectors > 0 && c.totalBytes == r.bytes
    && c.next <= c.totalSectors
    && c.submitted == c.completed + c.failed + c.inflight
  }

  predicate SlotsOk(e: Engine)
    requires Shape(e)
  {
    && (forall i :: 0 <= i < CAPACITY && e.active[i] ==> ContextOk(e.cfg, e.contexts[i], e.reqs[i]))
    && (forall i :: 0 <= i < CAPACITY && !e.active[i] ==> e.contexts[i] == IDLE_CONTEXT && e.reqs[i] == NO_REQ)
    && (forall i, j :: 0 <= i < j < CAPACITY && e.active[i] && e.active[j] ==> e.contexts[i].slot != e.contexts[j].slot)
  }

  /** `p` was cut from the part of `c` already submitted. */
  predicate CutFrom(p: Pending, c: Context) {
    && p.slot == c.slot && p.sectors >= 1
    && c.baseLba <= p.lba && p.lba + p.sectors <= c.baseLba + c.next
    && p.slotOffset == (p.lba - c.baseLba) * SECTOR_BYTES
    && p.ddrAddr == c.baseDdr + p.slotOffset
  }

  predicate PendingOk(e: Engine)
    requires Shape(e)
  {
    && (forall k :: 0 <= k < CAPACITY && e.pending[k].valid ==>
          && 1 <= e.pending[k].cid <= U16_MAX && !e.seen[e.pending[k].cid]
          && exists i :: 0 <= i < CAPACITY && e.active[i] && CutFrom(e.pending[k], e.contexts[i]))
    && (forall k, m :: 0 <= k < m < CAPACITY && e.pending[k].valid && e.pending[m].valid ==>
          e.pending[k].cid != e.pending[m].cid)
  }

  predicate CountsOk(e: Engine)
    requires Shape(e)
  {
    && e.activeCount == CountActive(e.active, CAPACITY) <= e.cfg.maxActive
    && e.globalInflight == CountValid(e.pending, CAPACITY) <= e.cfg.targetQd
    && e.globalInflight == SumInflight(e.contexts, e.active, CAPACITY)
    && (forall i :: 0 <= i < CAPACITY && e.active[i] ==>
          e.contexts[i].inflight == CountFor(e.pending, e.contexts[i].slot, CAPACITY))
  }

  predicate TablesOk(e: Engine) {
    Shape(e) && SlotsOk(e) && PendingOk(e) && CountsOk(e)
  }

  lemma CreatedTables(cfg: Config, nextCid: nat)
    requires ConfigOk(cfg) && nextCid < CID_SPACE
    ensures TablesOk(Created(cfg, nextCid))
  {
    var e := Created(cfg, nextCid);
    NoneActive(e.active, CAPACITY);
    NoneValid(e.pending, CAPACITY);
    SumOfNone(e.contexts, e.active, CAPACITY);
  }

  lemma {:induction false} SumOfNone(contexts: seq<Context>, active: seq<bool>, n: nat)
    requires n <= |contexts| == |active|
    requires forall i :: 0 <= i < n ==> !active[i]
    ensures SumInflight(contexts, active, n) == 0
  {
    if n != 0 { SumOfNone(contexts, active, n - 1); }
  }

  /** A new slot can be placed whenever the engine accepts one. */
  lemma AcceptingHasRoom(e: Engine)
    requires TablesOk(e) && CanAccept(e)
    ensures FirstInactive(e.active, 0) < CAPACITY
  {
    NoneActive(e.active, CAPACITY);
  }

  lemma PlaceKeepsTables(e: Engine, i: nat, r: Req)
    requires TablesOk(e) && i < CAPACITY && !e.active[i] && e.activeCount < e.cfg.maxActive
    requires r.sectors > 0 && r.slot != NO_SLOT && (e.cfg.dmaDescCount != 0 ==> r.slot < e.cfg.dmaDescCount)
    requires !SlotActive(e, r.slot)
    ensures TablesOk(Place(e, i, r))
  {
    var f := Place(e, i, r);
    CountActiveUpdate(e.active, i, true, CAPACITY);
    SumInflightUpdate(e.contexts, e.active, i, NewContext(r), true, CAPACITY);
    forall k | 0 <= k < CAPACITY && e.pending[k].valid
      ensures e.pending[k].slot != r.slot
      ensures exists j :: 0 <= j < CAPACITY && f.active[j] && CutFrom(f.pending[k], f.contexts[j])
    {
      var j :| 0 <= j < CAPACITY && e.active[j] && CutFrom(e.pending[k], e.contexts[j]);
      assert e.reqs[j].slot != r.slot;
      assert f.contexts[j] == e.contexts[j] && f.active[j];
    }
    NoneFor(e.pending, r.slot, CAPACITY);
    assert PendingOk(f);
    assert SlotsOk(f);
  }

  /** With fewer than `target_qd` commands in flight there is a free entry and a fresh identifier. */
  lemma SubmitHasRoom(e: Engine)
    requires TablesOk(e) && e.globalInflight < e.cfg.targetQd
    ensures FreePending(e.pending, 0) < CAPACITY
    ensures var choice := ChooseCid(e.pending, e.nextCid, U16_MAX);
            choice.found && 1 <= choice.cid <= U16_MAX && !CidLive(e.pending, choice.cid)
  {
    NoneValid(e.pending, CAPACITY);
    CountIsSize(e.pending, CAPACITY);
    assert e.pending[..CAPACITY] == e.pending;
    CidAllocationTotal(e.pending, e.nextCid, U16_MAX);
  }

  lemma CutIsCut(cfg: Config, c: Context, cid: nat)
    requires ConfigOk(cfg) && c.next < c.totalSectors
    ensures var p := CutCommand(cfg, c, cid);
            && CutFrom(p, Advance(c, p.sectors))
            && 1 <= p.sectors <= CommandLimit(cfg)
            && c.next + p.sectors <= c.totalSectors
            && p.lba == c.baseLba + c.next
  {
  }

  lemma PostKeepsPending(e: Engine, i: nat, k: nat, p: Pending)
    requires TablesOk(e) && i < CAPACITY && k < CAPACITY && e.active[i] && !e.pending[k].valid
    requires p.valid && 1 <= p.cid <= U16_MAX && !CidLive(e.pending, p.cid)
    requires CutFrom(p, Advance(e.contexts[i], p.sectors))
    requires e.contexts[i].next + p.sectors <= e.contexts[i].totalSectors
    ensures Shape(Post(e, i, k, p)) && PendingOk(Post(e, i, k, p))
  {
    var f := Post(e, i, k, p);
    forall m | 0 <= m < CAPACITY && f.pending[m].valid
      ensures !f.seen[f.pending[m].cid]
      ensures exists j :: 0 <= j < CAPACITY && f.active[j] && CutFrom(f.pending[m], f.contexts[j])
    {
      if m == k {
        assert CutFrom(f.pending[m], f.contexts[i]);
      } else {
        var j :| 0 <= j < CAPACITY && e.active[j] && CutFrom(e.pending[m], e.contexts[j]);
        assert CutFrom(f.pending[m], f.contexts[j]);
      }
    }
  }

  lemma PostKeepsCounts(e: Engine, i: nat, k: nat, p: Pending)
    requires TablesOk(e) && e.globalInflight < e.cfg.targetQd && i < CAPACITY && k < CAPACITY && e.active[i] && !e.pending[k].valid
    requires p.valid && 1 <= p.cid <= U16_MAX && !CidLive(e.pending, p.cid)
    requires CutFrom(p, Advance(e.contexts[i], p.sectors))
    requires e.contexts[i].next + p.sectors <= e.contexts[i].totalSectors
    ensures Shape(Post(e, i, k, p)) && SlotsOk(Post(e, i, k, p)) && CountsOk(Post(e, i, k, p))
  {
    var f := Post(e, i, k, p);
    CountValidUpdate(e.pending, k, p, CAPACITY);
    SumInflightUpdate(e.contexts, e.active, i, f.contexts[i], true, CAPACITY);
    assert e.active[i := true] == e.active;
    forall j | 0 <= j < CAPACITY && f.active[j]
      ensures f.contexts[j].inflight == CountFor(f.pending, f.contexts[j].slot, CAPACITY)
    {
      CountForUpdate(e.pending, k, p, f.contexts[j].slot, CAPACITY);
      assert j != i ==> f.contexts[j].slot != e.contexts[i].slot;
    }
    assert SlotsOk(f);
  }

  lemma PostKeepsTables(e: Engine, i: nat, k: nat, p: Pending)
    requires TablesOk(e) && e.globalInflight < e.cfg.targetQd && i < CAPACITY && k < CAPACITY && e.active[i] && !e.pending[k].valid
    requires p.valid && 1 <= p.cid <= U16_MAX && !CidLive(e.pending, p.cid)
    requires CutFrom(p, Advance(e.contexts[i], p.sectors))
    requires e.contexts[i].next + p.sectors <= e.contexts[i].totalSectors
    ensures TablesOk(Post(e, i, k, p))
  {
    PostKeepsPending(e, i, k, p);
    PostKeepsCounts(e, i, k, p);
  }

  /** An entry dropped again before the doorbell leaves the tables as they were. */
  lemma DropKeepsTables(e: Engine, k: nat, p: Pending, nextCid: nat, rr: nat)
    requires TablesOk(e) && k < CAPACITY && !e.pending[k].valid && !p.valid && nextCid < CID_SPACE && rr < CAPACITY
    ensures TablesOk(e.(pending := e.pending[k := p], nextCid := nextCid, rr := rr))
  {
    var f := e.(pending := e.pending[k := p], nextCid := nextCid, rr := rr);
    CountValidUpdate(e.pending, k, p, CAPACITY);
    forall j | 0 <= j < CAPACITY && f.active[j]
      ensures f.contexts[j].inflight == CountFor(f.pending, f.contexts[j].slot, CAPACITY)
    {
      CountForUpdate(e.pending, k, p, f.contexts[j].slot, CAPACITY);
    }
    forall m | 0 <= m < CAPACITY && f.pending[m].valid
      ensures exists j :: 0 <= j < CAPACITY && f.active[j] && CutFrom(f.pending[m], f.contexts[j])
    {
      var j :| 0 <= j < CAPACITY && e.active[j] && CutFrom(e.pending[m], e.contexts[j]);
      assert CutFrom(f.pending[m], f.contexts[j]);
    }
    assert SlotsOk(f);
    assert PendingOk(f);
  }

  /** Looking up the context of a live command finds the one it was cut from, with work in flight. */
  lemma OwnerFound(e: Engine, k: nat) returns (j: nat)
    requires TablesOk(e) && k < CAPACITY && e.pending[k].valid
    ensures j == ContextBySlot(e.contexts, e.pending[k].slot, 0) < CAPACITY
    ensures e.active[j] && CutFrom(e.pending[k], e.contexts[j])
    ensures e.contexts[j].inflight > 0 && e.globalInflight > 0
  {
    var i :| 0 <= i < CAPACITY && e.active[i] && CutFrom(e.pending[k], e.contexts[i]);
    j := ContextBySlot(e.contexts, e.pending[k].slot, 0);
    assert j <= i;
    assert e.active[j];
    assert i == j;
    NoneFor(e.pending, e.pending[k].slot, CAPACITY);
    NoneValid(e.pending, CAPACITY);
  }

  lemma RetireKeepsCounts(e: Engine, k: nat, j: nat, error: bool)
    requires TablesOk(e) && k < CAPACITY && e.pending[k].valid
    requires j < CAPACITY && e.active[j] && e.pending[k].slot == e.contexts[j].slot
    requires e.contexts[j].inflight > 0 && e.globalInflight > 0
    ensures CountsOk(RetireEntry(e, k, j, error))
  {
    var f := RetireEntry(e, k, j, error);
    var p := e.pending[k].(valid := false);
    CountValidUpdate(e.pending, k, p, CAPACITY);
    SumInflightUpdate(e.contexts, e.active, j, f.contexts[j], true, CAPACITY);
    assert e.active[j := true] == e.active;
    forall i | 0 <= i < CAPACITY && f.active[i]
      ensures f.contexts[i].inflight == CountFor(f.pending, f.contexts[i].slot, CAPACITY)
    {
      CountForUpdate(e.pending, k, p, f.contexts[i].slot, CAPACITY);
      assert i != j ==> f.contexts[i].slot != e.contexts[j].slot;
    }
  }

  lemma RetireKeepsPending(e: Engine, k: nat, j: nat, error: bool)
    requires TablesOk(e) && k < CAPACITY && e.pending[k].valid
    requires j < CAPACITY && e.active[j]
    requires e.contexts[j].inflight > 0 && e.globalInflight > 0
    ensures PendingOk(RetireEntry(e, k, j, error))
  {
    var f := RetireEntry(e, k, j, error);
    forall m | 0 <= m < CAPACITY && f.pending[m].valid
      ensures 1 <= f.pending[m].cid <= U16_MAX && !f.seen[f.pending[m].cid]
      ensures exists i :: 0 <= i < CAPACITY && f.active[i] && CutFrom(f.pending[m], f.contexts[i])
    {
      assert m != k && f.pending[m] == e.pending[m] && e.pending[m].cid != e.pending[k].cid;
      var i :| 0 <= i < CAPACITY && e.active[i] && CutFrom(e.pending[m], e.contexts[i]);
      assert CutFrom(f.pending[m], f.contexts[i]);
    }
  }

  lemma RetireKeepsTables(e: Engine, k: nat, j: nat, error: bool)
    requires TablesOk(e) && k < CAPACITY && e.pending[k].valid
    requires j < CAPACITY && e.active[j] && CutFrom(e.pending[k], e.contexts[j])
    requires e.contexts[j].inflight > 0 && e.globalInflight > 0
    ensures TablesOk(RetireEntry(e, k, j, error))
  {
    RetireKeepsCounts(e, k, j, error);
    RetireKeepsPending(e, k, j, error);
  }

  lemma ReleaseKeepsTables(e: Engine, i: nat)
    requires TablesOk(e) && i < CAPACITY && e.active[i] && e.contexts[i].inflight == 0
    ensures e.activeCount > 0
    ensures TablesOk(Release(e, i))
  {
    NoneActive(e.active, CAPACITY);
    var f := Release(e, i);
    CountActiveUpdate(e.active, i, false, CAPACITY);
    SumInflightUpdate(e.contexts, e.active, i, IDLE_CONTEXT, false, CAPACITY);
    NoneFor(e.pending, e.contexts[i].slot, CAPACITY);
    forall m | 0 <= m < CAPACITY && f.pending[m].valid
      ensures exists j :: 0 <= j < CAPACITY && f.active[j] && CutFrom(f.pending[m], f.contexts[j])
    {
      var j :| 0 <= j < CAPACITY && e.active[j] && CutFrom(e.pending[m], e.contexts[j]);
      assert j != i;
      assert CutFrom(f.pending[m], f.contexts[j]);
    }
    assert SlotsOk(f);
    assert PendingOk(f);
  }

  lemma DiscardTables(e: Engine)
    requires Shape(e)
    ensures TablesOk(Discard(e)) && IsQuiesced(Discard(e))
  {
    var f := Discard(e);
    NoneActive(f.active, CAPACITY);
    NoneValid(f.pending, CAPACITY);
    SumOfNone(f.contexts, f.active, CAPACITY);
  }
}

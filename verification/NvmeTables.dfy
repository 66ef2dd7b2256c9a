/** The fixed tables of the NVMe writers: pending commands, slot contexts, the 16-bit command
    identifier allocator and the round-robin picker. */
module NvmeTables {
  import opened Media

  /** `NVME_PENDING_CAPACITY`. */
  const CAPACITY: nat := 32
  const CID_SPACE: nat := 0x1_0000
  /** `UINT32_MAX` marks a context that holds no slot. */
  const NO_SLOT: nat := U32_MAX

  datatype Pending = Pending(valid: bool, cid: nat, slot: nat, slotOffset: nat, lba: nat, ddrAddr: nat,
                             sectors: nat, bytes: nat, payloadBytes: nat)

  datatype Context = Context(slot: nat, baseLba: nat, baseDdr: nat, totalBytes: nat, totalSectors: nat,
                             next: nat, submitted: nat, completed: nat, failed: nat, inflight: nat)

  const EMPTY_PENDING := Pending(false, 0, 0, 0, 0, 0, 0, 0, 0)
  const IDLE_CONTEXT := Context(NO_SLOT, 0, 0, 0, 0, 0, 0, 0, 0, 0)

  // ---- Live command identifiers ----

  predicate CidLive(pending: seq<Pending>, cid: nat) {
    exists k :: 0 <= k < |pending| && pending[k].valid && pending[k].cid == cid
  }

  ghost function ValidSet(pending: seq<Pending>): set<nat> {
    set k: nat | k < |pending| && pending[k].valid
  }

  ghost function LiveCids(pending: seq<Pending>): set<nat> {
    set k | k in ValidSet(pending) :: pending[k].cid
  }

  lemma {:induction false} ImageBound(pending: seq<Pending>, ks: set<nat>, cids: set<nat>)
    requires forall k :: k in ks ==> k < |pending|
    requires cids == set k | k in ks :: pending[k].cid
    ensures |cids| <= |ks|
    decreases ks
  {
    if ks == {} {
      assert cids == {};
    } else {
      var k :| k in ks;
      var rest := set j | j in ks - {k} :: pending[j].cid;
      ImageBound(pending, ks - {k}, rest);
      assert cids == rest + {pending[k].cid};
    }
  }

  // ---- Command identifier allocation ----

  datatype CidChoice = CidChoice(found: bool, cid: nat, next: nat)

  /** `nvme_alloc_cid` with `attempts` tries left: skip 0 and live identifiers, wrapping at 16 bits. */
  function ChooseCid(pending: seq<Pending>, next: nat, attempts: nat): (r: CidChoice)
    requires next < CID_SPACE
    ensures r.next < CID_SPACE && r.cid < CID_SPACE
    decreases attempts
  {
    if attempts == 0 then CidChoice(false, 0, next)
    else
      var after := (next + 1) % CID_SPACE;
      if next == 0 || CidLive(pending, next) then ChooseCid(pending, after, attempts - 1)
      else CidChoice(true, next, after)
  }

  /** The identifier examined `d` tries after `next`. */
  function NthCid(next: nat, d: nat): (cid: nat)
    requires next < CID_SPACE && d < CID_SPACE
    ensures cid < CID_SPACE
  {
    if next + d < CID_SPACE then next + d else next + d - CID_SPACE
  }

  /** The identifiers examined by `n` tries starting at `next`. */
  ghost function Window(next: nat, n: nat): set<nat>
    requires next < CID_SPACE && n <= CID_SPACE
  {
    set d: nat | d < n :: NthCid(next, d)
  }

  lemma {:induction false} WindowSize(next: nat, n: nat)
    requires next < CID_SPACE && n <= CID_SPACE
    ensures |Window(next, n)| == n
  {
    if n != 0 {
      WindowSize(next, n - 1);
      assert Window(next, n) == Window(next, n - 1) + {NthCid(next, n - 1)};
    } else {
      assert Window(next, n) == {};
    }
  }

  /** A failed search has seen only 0 and live identifiers; a successful one returns a fresh one. */
  lemma {:induction false} ChooseCidVerdict(pending: seq<Pending>, next: nat, attempts: nat)
    requires next < CID_SPACE && attempts <= CID_SPACE
    ensures var r := ChooseCid(pending, next, attempts);
            && r.next < CID_SPACE
            && (r.found ==> 1 <= r.cid <= U16_MAX && !CidLive(pending, r.cid))
            && (!r.found ==> Window(next, attempts) <= {0} + LiveCids(pending))
    decreases attempts
  {
    if attempts != 0 {
      var after := NthCid(next, 1);
      ChooseCidVerdict(pending, after, attempts - 1);
      if !ChooseCid(pending, next, attempts).found {
        if next != 0 {
          var k :| 0 <= k < |pending| && pending[k].valid && pending[k].cid == next;
          assert k in ValidSet(pending);
        }
        forall d: nat | d < attempts
          ensures NthCid(next, d) in {0} + LiveCids(pending)
        {
          if d != 0 {
            assert NthCid(after, d - 1) in Window(after, attempts - 1);
          }
        }
      }
    }
  }

  /** More tries than needed change nothing. */
  lemma {:induction false} ChooseCidStable(pending: seq<Pending>, next: nat, few: nat, many: nat)
    requires next < CID_SPACE && few <= many
    requires ChooseCid(pending, next, few).found
    ensures ChooseCid(pending, next, many) == ChooseCid(pending, next, few)
    decreases few
  {
    if next == 0 || CidLive(pending, next) {
      ChooseCidStable(pending, (next + 1) % CID_SPACE, few - 1, many - 1);
    }
  }

  /** With a free pending entry, allocation succeeds, within CAPACITY + 1 tries, whatever the
      16-bit counter holds: the identifier is neither 0 nor live. */
  lemma CidAllocationTotal(pending: seq<Pending>, next: nat, attempts: nat)
    requires next < CID_SPACE
    requires |ValidSet(pending)| < CAPACITY
    requires CAPACITY + 1 <= attempts
    ensures var r := ChooseCid(pending, next, attempts);
            && r.found && 1 <= r.cid <= U16_MAX && !CidLive(pending, r.cid) && r.next < CID_SPACE
            && r == ChooseCid(pending, next, CAPACITY + 1)
  {
    var tries := CAPACITY + 1;
    ChooseCidVerdict(pending, next, tries);
    if !ChooseCid(pending, next, tries).found {
      ImageBound(pending, ValidSet(pending), LiveCids(pending));
      WindowSize(next, tries);
      var bad := {0} + LiveCids(pending);
      assert |bad| <= 1 + |LiveCids(pending)|;
      SubsetSize(Window(next, tries), bad);
      assert false;
    }
    ChooseCidStable(pending, next, tries, attempts);
  }

  lemma {:induction false} SubsetSize(a: set<nat>, b: set<nat>)
    requires a <= b
    ensures |a| <= |b|
    decreases a
  {
    if a != {} {
      var x :| x in a;
      SubsetSize(a - {x}, b - {x});
    }
  }

  // ---- Free entries and lookups ----

  /** `nvme_find_free_pending`, from index `i`; |pending| when every entry is in use. */
  function FreePending(pending: seq<Pending>, i: nat): (k: nat)
    requires i <= |pending|
    ensures i <= k <= |pending|
    ensures k < |pending| ==> !pending[k].valid
    ensures forall j :: i <= j < k ==> pending[j].valid
    decreases |pending| - i
  {
    if i == |pending| || !pending[i].valid then i else FreePending(pending, i + 1)
  }

  /** `nvme_find_pending_by_cid`, from index `i`; |pending| when the identifier is not live. */
  function PendingByCid(pending: seq<Pending>, cid: nat, i: nat): (k: nat)
    requires i <= |pending|
    ensures i <= k <= |pending|
    ensures k < |pending| ==> pending[k].valid && pending[k].cid == cid
    ensures forall j :: i <= j < k ==> !(pending[j].valid && pending[j].cid == cid)
    decreases |pending| - i
  {
    if i == |pending| || (pending[i].valid && pending[i].cid == cid) then i else PendingByCid(pending, cid, i + 1)
  }

  /** `nvme_find_slot_context`, from index `i`; |contexts| when no context names the slot. */
  function ContextBySlot(contexts: seq<Context>, slot: nat, i: nat): (k: nat)
    requires i <= |contexts|
    ensures i <= k <= |contexts|
    ensures k < |contexts| ==> contexts[k].slot == slot
    ensures forall j :: i <= j < k ==> contexts[j].slot != slot
    decreases |contexts| - i
  {
    if i == |contexts| || contexts[i].slot == slot then i else ContextBySlot(contexts, slot, i + 1)
  }

  // ---- Round-robin picker ----

  predicate Submittable(contexts: seq<Context>, active: seq<bool>, i: nat)
    requires i < |contexts| == |active|
  {
    active[i] && contexts[i].next < contexts[i].totalSectors
  }

  /** `nvme_find_next_submit_context` from `attempt` on: the first submittable context at or after
      `rr` in circular order; CAPACITY when there is none. */
  function PickContext(contexts: seq<Context>, active: seq<bool>, rr: nat, attempt: nat): (index: nat)
    requires |contexts| == |active| == CAPACITY && rr < CAPACITY && attempt <= CAPACITY
    ensures index <= CAPACITY
    ensures index < CAPACITY ==> Submittable(contexts, active, index)
    decreases CAPACITY - attempt
  {
    if attempt == CAPACITY then CAPACITY
    else
      var index := (rr + attempt) % CAPACITY;
      if Submittable(contexts, active, index) then index else PickContext(contexts, active, rr, attempt + 1)
  }

  /** How far `i` is from `rr`, going round. */
  function CircularDistance(rr: nat, i: nat): (d: nat)
    requires rr < CAPACITY && i < CAPACITY
    ensures d < CAPACITY && (rr + d) % CAPACITY == i
  {
    if rr <= i then i - rr else i + CAPACITY - rr
  }

  /** No context at a smaller distance than the picked one was submittable, and only the absence of
      any submittable context yields none. */
  lemma {:induction false} PickIsNearest(contexts: seq<Context>, active: seq<bool>, rr: nat, attempt: nat, i: nat)
    requires |contexts| == |active| == CAPACITY && rr < CAPACITY && i < CAPACITY
    requires attempt <= CircularDistance(rr, i)
    requires Submittable(contexts, active, i)
    ensures var p := PickContext(contexts, active, rr, attempt);
            p < CAPACITY && attempt <= CircularDistance(rr, p) <= CircularDistance(rr, i)
    decreases CAPACITY - attempt
  {
    var index := (rr + attempt) % CAPACITY;
    if !Submittable(contexts, active, index) {
      assert attempt != CircularDistance(rr, i);
      PickIsNearest(contexts, active, rr, attempt + 1, i);
    }
  }

  /** One pick: either `i` is taken or its distance from the new index strictly shrinks. */
  lemma PickApproaches(contexts: seq<Context>, active: seq<bool>, rr: nat, i: nat)
    requires |contexts| == |active| == CAPACITY && rr < CAPACITY && i < CAPACITY
    requires Submittable(contexts, active, i)
    ensures var p := PickContext(contexts, active, rr, 0);
            p < CAPACITY &&
            (p == i || CircularDistance((p + 1) % CAPACITY, i) < CircularDistance(rr, i))
  {
    PickIsNearest(contexts, active, rr, 0, i);
    var p := PickContext(contexts, active, rr, 0);
    if p != i {
      NextIsNearer(rr, p, i);
    }
  }

  lemma NextIsNearer(rr: nat, p: nat, i: nat)
    requires rr < CAPACITY && p < CAPACITY && i < CAPACITY && p != i
    requires CircularDistance(rr, p) <= CircularDistance(rr, i)
    ensures CircularDistance((p + 1) % CAPACITY, i) < CircularDistance(rr, i)
  {
    assert (p + 1) % CAPACITY == if p + 1 == CAPACITY then 0 else p + 1;
  }

  // ---- The same searches as the loops that run ----

  method AllocCid(pending: array<Pending>, next: nat) returns (found: bool, cid: nat, after: nat)
    requires next < CID_SPACE
    ensures CidChoice(found, cid, after) == ChooseCid(pending[..], next, U16_MAX)
  {
    var attempt := 0;
    after := next;
    while attempt < U16_MAX
      invariant attempt <= U16_MAX && after < CID_SPACE
      invariant ChooseCid(pending[..], next, U16_MAX) == ChooseCid(pending[..], after, U16_MAX - attempt)
    {
      cid := after;
      after := (after + 1) % CID_SPACE;
      attempt := attempt + 1;
      if cid == 0 { continue; }
      var i, inUse := 0, false;
      while i < pending.Length && !inUse
        invariant i <= pending.Length
        invariant inUse ==> CidLive(pending[..], cid)
        invariant !inUse ==> forall k :: 0 <= k < i ==> !(pending[k].valid && pending[k].cid == cid)
        decreases pending.Length - i, !inUse
      {
        if pending[i].valid && pending[i].cid == cid {
          assert pending[..][i] == pending[i];
          inUse := true;
        } else {
          i := i + 1;
        }
      }
      if !inUse {
        assert !CidLive(pending[..], cid);
        return true, cid, after;
      }
    }
    found, cid := false, 0;
  }

  method FindFreePending(pending: array<Pending>) returns (k: nat)
    ensures k == FreePending(pending[..], 0)
  {
    k := 0;
    while k < pending.Length && pending[k].valid
      invariant k <= pending.Length
      invariant FreePending(pending[..], 0) == FreePending(pending[..], k)
    {
      k := k + 1;
    }
  }

  method FindPendingByCid(pending: array<Pending>, cid: nat) returns (k: nat)
    ensures k == PendingByCid(pending[..], cid, 0)
  {
    k := 0;
    while k < pending.Length && !(pending[k].valid && pending[k].cid == cid)
      invariant k <= pending.Length
      invariant PendingByCid(pending[..], cid, 0) == PendingByCid(pending[..], cid, k)
    {
      k := k + 1;
    }
  }

  method FindSlotContext(contexts: array<Context>, slot: nat) returns (k: nat)
    ensures k == ContextBySlot(contexts[..], slot, 0)
  {
    k := 0;
    while k < contexts.Length && contexts[k].slot != slot
      invariant k <= contexts.Length
      invariant ContextBySlot(contexts[..], slot, 0) == ContextBySlot(contexts[..], slot, k)
    {
      k := k + 1;
    }
  }

  method FindNextSubmit(contexts: array<Context>, active: array<bool>, rr: nat) returns (index: nat, after: nat)
    requires contexts.Length == active.Length == CAPACITY && rr < CAPACITY
    ensures index == PickContext(contexts[..], active[..], rr, 0)
    ensures after == if index < CAPACITY then (index + 1) % CAPACITY else rr
  {
    var attempt := 0;
    while attempt < CAPACITY
      invariant attempt <= CAPACITY
      invariant PickContext(contexts[..], active[..], rr, 0) == PickContext(contexts[..], active[..], rr, attempt)
    {
      index := (rr + attempt) % CAPACITY;
      if active[index] && contexts[index].next < contexts[index].totalSectors {
        return index, (index + 1) % CAPACITY;
      }
      attempt := attempt + 1;
    }
    index, after := CAPACITY, rr;
  }
}
